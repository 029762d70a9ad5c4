/** One reconcile round over saved states, runtime and both rule tables. */
module Reconcile {
  import opened Rules
  import opened Tables
  import opened Firewall
  import opened Nat
  import opened Publishing
  import opened Requests
  import opened Sandboxes
  import opened Debounce
  import Lifecycle

  /** What a round meets and does not change: locks held elsewhere, containers that resist deletion, whether
      containers can be listed, the configured limits and the host. */
  datatype Env = Env(locked: set<string>, stuck: set<string>, listable: bool, limits: Limits, cfg: Lifecycle.Config)

  /** `containers` tells of each container whether it runs; `runtime` lists the sandboxes the runtime
      knows, with their address if it can be read. */
  datatype World = World(store: map<string, Record>, containers: map<string, bool>, runtime: map<string, Option<nat>>,
                         watch: Watch, filter: Table, nat_: Table)

  const CREATE_LIMIT := 120

  function ContainerIds(r: Record): set<string> {
    set name | name in r.containers :: r.containers[name].id
  }

  predicate Runs(w: World, container: string) {
    container in w.containers && w.containers[container]
  }

  predicate AllRun(w: World, r: Record) {
    forall name :: name in r.containers ==> Runs(w, r.containers[name].id)
  }

  function Stopped(env: Env, containers: map<string, bool>, ids: set<string>): map<string, bool> {
    map c | c in containers && (c in env.stuck || c !in ids) :: containers[c]
  }

  /** The filter rules of a sandbox that is taken down. */
  function GoneNet(cfg: Lifecycle.Config, id: string, ip: nat, ports: seq<PortMapping>): Net {
    Net(id, cfg.short(id), ip, cfg.bridge, cfg.bridgeIf, false, Lifecycle.PublishedOf(ports), [])
  }

  /** Taking one sandbox down: its containers, its published ports, its policy, its runtime entry and its
      state. */
  function TakenDown(env: Env, w: World, id: string, containers: set<string>, ip: Option<nat>,
                     ports: seq<PortMapping>): World {
    w.(store := w.store - {id},
       containers := Stopped(env, w.containers, containers),
       runtime := w.runtime - {id},
       nat_ := CleanedTable(w.nat_, env.cfg.listing, id, if ip.Some? then ip.value else 0,
                            if ip.Some? then Lifecycle.ForwardsOf(ports) else []),
       filter := if ip.Some? then DeleteTable(w.filter, GoneNet(env.cfg, id, ip.value, ports)) else w.filter)
  }

  function SeenUnhealthy(env: Env, w: World, r: Record, now: int): World {
    var after := Observe(w.watch, r.id, now);
    if r.id in after.since && r.id in after.hits && Due(w.watch, after, env.limits, r.id, now)
    then TakenDown(env, w, r.id, ContainerIds(r), r.ip, r.ports).(watch := Forget(after, r.id))
    else w.(watch := after)
  }

  /** One saved sandbox, as it was when the round listed it. */
  function Visit(env: Env, w: World, r: Record, listed: set<string>, now: int): World {
    if r.id in env.locked || r.phase == Deleting then w
    else if r.phase == Creating then
      if now - r.createdAt < CREATE_LIMIT then w
      else w.(store := w.store[r.id := WithPhase(r, Failed, "provisioning timeout", now)])
    else if r.id !in listed || !AllRun(w, r) then SeenUnhealthy(env, w, r, now)
    else w.(watch := Forget(w.watch, r.id))
  }

  function VisitAll(env: Env, w: World, list: seq<Record>, listed: set<string>, now: int): World {
    if list == [] then w
    else Visit(env, VisitAll(env, w, list[..|list| - 1], listed, now), list[|list| - 1], listed, now)
  }

  function Family(w: World, id: string): set<string> {
    set c | c in w.containers && InFamily(id, c)
  }

  function Address(w: World, id: string): Option<nat> {
    if id in w.runtime then w.runtime[id] else None
  }

  /** A runtime sandbox without a saved state. */
  function CleanOrphan(env: Env, w: World, id: string): World {
    if !env.listable then w
    else if Family(w, id) == {} && Address(w, id) == None then
      w.(nat_ := CleanedTable(w.nat_, env.cfg.listing, id, 0, []))
    else TakenDown(env, w, id, Family(w, id), Address(w, id), [])
  }

  function VisitOrphan(env: Env, w: World, id: string, saved: set<string>): World {
    if id in saved || id in env.locked then w else CleanOrphan(env, w, id)
  }

  function VisitOrphans(env: Env, w: World, ids: seq<string>, saved: set<string>): World {
    if ids == [] then w
    else VisitOrphan(env, VisitOrphans(env, w, ids[..|ids| - 1], saved), ids[|ids| - 1], saved)
  }

  function SetOf(ids: seq<string>): set<string> {
    set id | id in ids
  }

  function IdsOf(list: seq<Record>): set<string> {
    set i | 0 <= i < |list| :: list[i].id
  }

  /** The round: the saved sandboxes, then the orphans of the runtime, then the orphaned ports. */
  function Round(env: Env, w: World, list: seq<Record>, ids: seq<string>, now: int): World {
    var visited := VisitAll(env, w, list, SetOf(ids), now);
    var swept := VisitOrphans(env, visited, ids, IdsOf(list));
    swept.(nat_ := SweptTable(swept.nat_, env.cfg.listing, Orphans(IdsOf(list) + SetOf(ids))))
  }

  class Reconciler {
    const env: Env
    var store: map<string, Record>
    var containers: map<string, bool>
    var runtime: map<string, Option<nat>>
    const debouncer: Debouncer
    const filter: RuleTable
    const nat_: RuleTable

    ghost function Now(): World
      reads this, debouncer, filter, nat_
    {
      World(store, containers, runtime, Watch(debouncer.unhealthySince, debouncer.unhealthyHits), filter.chains,
        nat_.chains)
    }

    ghost predicate Valid()
      reads debouncer
    {
      debouncer.Valid() && debouncer.limits == env.limits && nat_.listing == env.cfg.listing && filter != nat_
    }

    constructor (env: Env, debouncer: Debouncer, filter: RuleTable, nat_: RuleTable, store: map<string, Record>,
                 containers: map<string, bool>, runtime: map<string, Option<nat>>)
      requires debouncer.Valid() && debouncer.limits == env.limits && nat_.listing == env.cfg.listing && filter != nat_
      ensures Valid() && this.env == env && this.debouncer == debouncer && this.filter == filter && this.nat_ == nat_
      ensures Now() == World(store, containers, runtime, Watch(debouncer.unhealthySince, debouncer.unhealthyHits),
                             filter.chains, nat_.chains)
    {
      this.env, this.debouncer, this.filter, this.nat_ := env, debouncer, filter, nat_;
      this.store, this.containers, this.runtime := store, containers, runtime;
    }

    method TakeDown(id: string, ids: set<string>, ip: Option<nat>, ports: seq<PortMapping>)
      requires Valid()
      modifies this`store, this`containers, this`runtime, filter, nat_
      ensures Valid()
      ensures Now() == TakenDown(env, old(Now()), id, ids, ip, ports)
      ensures forall c :: c in containers <==> c in old(containers) && (c in env.stuck || c !in ids)
      ensures forall c :: c in containers ==> containers[c] == old(containers)[c]
      ensures store == old(store) - {id} && runtime == old(runtime) - {id}
    {
      hide CleanedTable, DeleteTable;
      containers := Stopped(env, containers, ids);
      CleanupHostPortPublish(nat_, id, ip, Lifecycle.ForwardsOf(ports));
      if ip.Some? {
        DeleteSandboxRules(filter, GoneNet(env.cfg, id, ip.value, ports));
      }
      runtime := runtime - {id};
      store := store - {id};
    }

    method Healthy(r: Record) returns (healthy: bool)
      ensures healthy <==> AllRun(Now(), r)
    {
      healthy := true;
      var names := r.containers.Keys;
      while names != {}
        invariant names <= r.containers.Keys
        invariant healthy ==>
                    forall name :: name in r.containers && name !in names ==> Runs(Now(), r.containers[name].id)
        invariant !healthy ==> !AllRun(Now(), r)
        decreases names
      {
        var name :| name in names;
        names := names - {name};
        var c := r.containers[name].id;
        if !(c in containers && containers[c]) {
          healthy := false;
          break;
        }
      }
    }

    method FinalizeWhenDue(r: Record, now: int)
      requires Valid()
      modifies this, debouncer, filter, nat_
      ensures Valid()
      ensures Now() == SeenUnhealthy(env, old(Now()), r, now)
    {
      hide Stopped, CleanedTable, DeleteTable;
      ghost var history := debouncer.history;
      WatchNext(history, Unhealthy(r.id, now));
      DueIff(history, env.limits, r.id, now);
      var due := debouncer.ShouldFinalizeUnhealthy(r.id, now);
      if due {
        TakeDown(r.id, ContainerIds(r), r.ip, r.ports);
        WatchNext(debouncer.history, Cleared(r.id));
        debouncer.ClearUnhealthy(r.id);
      }
    }

    method VisitSaved(r: Record, listed: set<string>, now: int)
      requires Valid()
      modifies this, debouncer, filter, nat_
      ensures Valid()
      ensures Now() == Visit(env, old(Now()), r, listed, now)
    {
      hide SeenUnhealthy, AllRun;
      if r.id in env.locked {
        return;
      }
      if r.phase == Deleting {
        return;
      }
      if r.phase == Creating && now - r.createdAt < CREATE_LIMIT {
        return;
      }
      if r.phase == Creating && now - r.createdAt >= CREATE_LIMIT {
        store := store[r.id := WithPhase(r, Failed, "provisioning timeout", now)];
        return;
      }
      if r.id !in listed {
        FinalizeWhenDue(r, now);
        return;
      }
      var healthy := Healthy(r);
      if !healthy {
        FinalizeWhenDue(r, now);
        return;
      }
      WatchNext(debouncer.history, Cleared(r.id));
      debouncer.ClearUnhealthy(r.id);
    }

    method CleanupOrphan(id: string)
      requires Valid()
      modifies this, debouncer, filter, nat_
      ensures Valid()
      ensures Now() == CleanOrphan(env, old(Now()), id)
    {
      hide TakenDown, CleanedTable;
      if !env.listable {
        return;
      }
      var family := set c | c in containers && InFamily(id, c);
      var ip := if id in runtime then runtime[id] else None;
      if family == {} && ip == None {
        CleanupHostPortPublish(nat_, id, None, []);
        return;
      }
      TakeDown(id, family, ip, []);
    }

    /** One round over the saved states and the runtime's sandboxes as listed at its start; a listing that
        fails ends it. */
    method ReconcileOnce(list: Option<seq<Record>>, ids: Option<seq<string>>, now: int) returns (ok: bool)
      requires Valid()
      modifies this, debouncer, filter, nat_
      ensures Valid() && (ok <==> list.Some? && ids.Some?)
      ensures Now() == if ok then Round(env, old(Now()), list.value, ids.value, now) else old(Now())
    {
      if list.None? {
        return false;
      }
      if ids.None? {
        return false;
      }
      RunRound(list.value, ids.value, now);
      ok := true;
    }

    method RunRound(list: seq<Record>, ids: seq<string>, now: int)
      requires Valid()
      modifies this, debouncer, filter, nat_
      ensures Valid() && Now() == Round(env, old(Now()), list, ids, now)
    {
      hide Visit, VisitOrphan, SweptTable;
      ghost var start := Now();
      var saved, listed := IdsOf(list), SetOf(ids);
      for i := 0 to |list|
        invariant Valid() && Now() == VisitAll(env, start, list[..i], listed, now)
      {
        assert list[..i + 1][..i] == list[..i];
        VisitSaved(list[i], listed, now);
      }
      assert list[..|list|] == list;
      ghost var visited := Now();
      for i := 0 to |ids|
        invariant Valid() && Now() == VisitOrphans(env, visited, ids[..i], saved)
      {
        assert ids[..i + 1][..i] == ids[..i];
        OneOrphan(ids[i], saved);
      }
      assert ids[..|ids|] == ids;
      DeleteOrphanHostPortDNAT(nat_, saved + listed);
    }

    method OneOrphan(id: string, saved: set<string>)
      requires Valid()
      modifies this, debouncer, filter, nat_
      ensures Valid()
      ensures Now() == VisitOrphan(env, old(Now()), id, saved)
    {
      hide CleanOrphan;
      if id in saved || id in env.locked {
        return;
      }
      CleanupOrphan(id);
    }
  }
}
