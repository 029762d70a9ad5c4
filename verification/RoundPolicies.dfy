/** What a reconcile round leaves of the sandboxes' policies. */
module RoundPolicies {
  import opened Rules
  import opened Firewall
  import opened History
  import opened Nat
  import opened Passage
  import opened Policy
  import opened Publishing
  import opened Sandboxes
  import opened Reconcile
  import opened Convergence
  import Lifecycle

  /** Each policy is that of a saved sandbox, and the ids met differ in their chain names. */
  ghost predicate Held(cfg: Lifecycle.Config, w: World, live: set<Net>) {
    && (forall n :: n in live ==> HeldBy(cfg, w, n))
    && (forall a, b :: a in w.store.Keys + w.runtime.Keys && b in w.store.Keys + w.runtime.Keys && a != b ==>
          cfg.short(a) != cfg.short(b))
  }

  ghost predicate HeldBy(cfg: Lifecycle.Config, w: World, n: Net) {
    n.id in w.store && n.short == cfg.short(n.id) && n.bridgeIf == cfg.bridgeIf
    && w.store[n.id].ip == Some(n.ip) && Lifecycle.PublishedOf(w.store[n.id].ports) == n.ports
  }

  /** The table guards exactly these sandboxes and, where it is to be tidy, accepts no port but theirs. */
  ghost predicate Guards(t: Table, live: set<Net>, tidy: bool) {
    Guarded(t, live) && (tidy ==> NoStray(t, live))
  }

  /** The policies of the sandboxes that are still saved. */
  ghost function Remaining(live: set<Net>, w: World): set<Net> {
    set n | n in live && n.id in w.store
  }

  /** Deleting with the names of a sandbox leaves the policies of all others. */
  lemma DeletePolicy(cfg: Lifecycle.Config, start: World, t: Table, live: set<Net>, left: set<Net>, n: Net, tidy: bool)
    requires Held(cfg, start, live) && left <= live && Guards(t, left, tidy)
    requires n.id in start.store.Keys + start.runtime.Keys && n.short == cfg.short(n.id) && n.bridgeIf == cfg.bridgeIf
    requires n.id in start.store ==>
               start.store[n.id].ip == Some(n.ip) && Lifecycle.PublishedOf(start.store[n.id].ports) == n.ports
    ensures Guards(DeleteTable(t, n), (set m | m in left && m.id != n.id), tidy)
  {
    hide DeleteTable, HeldBy, Guarded, NoStray;
    Lifecycle.GuardedDistinct(t, left);
    forall m | m in left ensures m.id in start.store && m.short == cfg.short(m.id) {
      HeldByFields(cfg, start, m);
    }
    if own :| own in left && own.id == n.id {
      HeldByFields(cfg, start, own);
      Lifecycle.DeleteIgnores(t, n, own);
      Unchanged(t, left, own);
      assert left - {own} == set m | m in left && m.id != n.id;
    } else {
      Unchanged(t, left, n);
      assert left - {n} == set m | m in left && m.id != n.id;
    }
    if tidy {
      DeleteTidy(cfg, start, t, live, left, n);
    }
  }

  /** And it leaves no rule of the sandbox's ports behind. */
  lemma DeleteTidy(cfg: Lifecycle.Config, start: World, t: Table, live: set<Net>, left: set<Net>, n: Net)
    requires Held(cfg, start, live) && left <= live && Guarded(t, left) && NoStray(t, left)
    requires n.id in start.store ==>
               start.store[n.id].ip == Some(n.ip) && Lifecycle.PublishedOf(start.store[n.id].ports) == n.ports
    ensures NoStray(DeleteTable(t, n), set m | m in left && m.id != n.id)
  {
    hide DeleteTable, NoStray, Held, Guarded;
    SameArguments(cfg, start, live, left, n);
    GuardedHead(t, left);
    EventNoStray(t, left, Delete(n), set m | m in left && m.id != n.id);
  }

  lemma SameArguments(cfg: Lifecycle.Config, start: World, live: set<Net>, left: set<Net>, n: Net)
    requires Held(cfg, start, live) && left <= live
    requires n.id in start.store ==>
               start.store[n.id].ip == Some(n.ip) && Lifecycle.PublishedOf(start.store[n.id].ports) == n.ports
    ensures forall m :: m in left && m.id == n.id ==> m.ip == n.ip && m.ports == n.ports
  {
    hide HeldBy, Lifecycle.PublishedOf;
    forall m | m in left && m.id == n.id ensures m.ip == n.ip && m.ports == n.ports {
      HeldByFields(cfg, start, m);
    }
  }

  lemma GuardedHead(t: Table, live: set<Net>)
    requires Guarded(t, live)
    ensures HasGlobals(t) && [JUMP_FWD] <= t[FORWARD]
  {
  }

  lemma HeldByFields(cfg: Lifecycle.Config, w: World, n: Net)
    requires HeldBy(cfg, w, n)
    ensures n.id in w.store && n.short == cfg.short(n.id) && n.bridgeIf == cfg.bridgeIf
    ensures w.store[n.id].ip == Some(n.ip) && Lifecycle.PublishedOf(w.store[n.id].ports) == n.ports
  {
  }

  lemma Unchanged(t: Table, left: set<Net>, n: Net)
    requires Guarded(t, left) && forall m :: m in left && m != n ==> m.short != n.short
    ensures Guarded(DeleteTable(t, n), left - {n})
  {
    hide Guarded, DeleteTable;
    DeleteKeepsGuard(t, left, n);
  }

  lemma TakenDownPolicy(env: Env, start: World, w: World, r: Record, live: set<Net>, tidy: bool)
    requires Held(env.cfg, start, live) && Guards(w.filter, Remaining(live, w), tidy) && r.id in start.store
               && start.store[r.id] == r
    ensures var v := TakenDown(env, w, r.id, ContainerIds(r), r.ip, r.ports); Guards(v.filter, Remaining(live, v), tidy)
  {
    hide Guards, DeleteTable, CleanedTable, Stopped;
    var v := TakenDown(env, w, r.id, ContainerIds(r), r.ip, r.ports);
    if r.ip.Some? {
      var gone := GoneNet(env.cfg, r.id, r.ip.value, r.ports);
      DeletePolicy(env.cfg, start, w.filter, live, Remaining(live, w), gone, tidy);
      assert Remaining(live, v) == set m | m in Remaining(live, w) && m.id != r.id;
    } else {
      forall n | n in live ensures n.id != r.id {
        assert HeldBy(env.cfg, start, n);
      }
      assert Remaining(live, v) == Remaining(live, w);
    }
  }

  lemma VisitPolicy(env: Env, start: World, w: World, r: Record, now: int, live: set<Net>, tidy: bool)
    requires Held(env.cfg, start, live) && Guards(w.filter, Remaining(live, w), tidy)
    requires r.id in start.store && start.store[r.id] == r && r.id in w.store
    ensures var v := Visit(env, w, r, start.runtime.Keys, now); Guards(v.filter, Remaining(live, v), tidy)
  {
    hide Guards, TakenDown, Visit, Held;
    TakenDownPolicy(env, start, w, r, live, tidy);
    VisitEither(env, w, r, start.runtime.Keys, now);
    var v, gone := Visit(env, w, r, start.runtime.Keys, now), TakenDown(env, w, r.id, ContainerIds(r), r.ip, r.ports);
    if v == gone.(watch := v.watch) {
      assert Remaining(live, v) == Remaining(live, gone);
    } else {
      assert Remaining(live, v) == Remaining(live, w);
    }
  }

  lemma {:induction false} VisitsPolicy(env: Env, w: World, list: seq<Record>, now: int, n: nat, live: set<Net>,
                                        tidy: bool)
    requires Keyed(w) && ListsSaved(list, w) && n <= |list| && Held(env.cfg, w, live) && Guards(w.filter, live, tidy)
    ensures var v := VisitAll(env, w, list[..n], w.runtime.Keys, now); Guards(v.filter, Remaining(live, v), tidy)
  {
    hide Guards, Visit, Held, Remaining, ListsSaved, Keyed;
    if n == 0 {
      assert list[..0] == [];
      AllKept(env.cfg, w, live);
    } else {
      VisitsPolicy(env, w, list, now, n - 1, live, tidy);
      LastVisit(env, w, list, now, n);
      VisitPolicy(env, w, VisitAll(env, w, list[..n - 1], w.runtime.Keys, now), list[n - 1], now, live, tidy);
    }
  }

  lemma AllKept(cfg: Lifecycle.Config, w: World, live: set<Net>)
    requires Held(cfg, w, live)
    ensures Remaining(live, w) == live
  {
    forall n | n in live ensures n.id in w.store {
      assert HeldBy(cfg, w, n);
    }
  }

  lemma OrphanPolicy(env: Env, start: World, w: World, id: string, live: set<Net>, tidy: bool)
    requires Held(env.cfg, start, live) && Guards(w.filter, Remaining(live, w), tidy)
    requires w.store.Keys <= start.store.Keys
    requires id in start.runtime
    ensures var v := VisitOrphan(env, w, id, start.store.Keys); Guards(v.filter, Remaining(live, v), tidy)
  {
    hide Guards, DeleteTable, CleanedTable, Stopped, Family, Held;
    var v := VisitOrphan(env, w, id, start.store.Keys);
    assert v.store == w.store;
    if v.filter != w.filter {
      var ip := Address(w, id);
      DeletePolicy(env.cfg, start, w.filter, live, Remaining(live, w), GoneNet(env.cfg, id, ip.value, []), tidy);
      assert Remaining(live, v) == set m | m in Remaining(live, w) && m.id != id;
    }
  }

  lemma {:induction false} OrphansPolicy(env: Env, start: World, w: World, ids: seq<string>, live: set<Net>, tidy: bool)
    requires Held(env.cfg, start, live) && Guards(w.filter, Remaining(live, w), tidy)
    requires w.store.Keys <= start.store.Keys
    requires SetOf(ids) <= start.runtime.Keys
    ensures var v := VisitOrphans(env, w, ids, start.store.Keys); Guards(v.filter, Remaining(live, v), tidy)
  {
    hide Guards, VisitOrphan, Held, Remaining;
    if ids != [] {
      var init, id := ids[..|ids| - 1], ids[|ids| - 1];
      assert SetOf(init) <= SetOf(ids) && id in SetOf(ids);
      OrphansPolicy(env, start, w, init, live, tidy);
      OrphansShrink(env, w, init, start.store.Keys);
      OrphanPolicy(env, start, VisitOrphans(env, w, init, start.store.Keys), id, live, tidy);
    }
  }

  /** After a round the filter table guards exactly the sandboxes still saved: those it removed have lost
      their policy, whoever has their address now, and the others have theirs; and where the only ports it
      accepted were those of its sandboxes, it still accepts no others. */
  lemma RoundGuards(env: Env, w: World, list: seq<Record>, ids: seq<string>, now: int, live: set<Net>)
    requires RoundInputs(list, ids, w) && Held(env.cfg, w, live) && Guarded(w.filter, live)
    ensures var v := Round(env, w, list, ids, now);
      Guarded(v.filter, Remaining(live, v)) && (NoStray(w.filter, live) ==> NoStray(v.filter, Remaining(live, v)))
  {
    hide Guarded, NoStray, VisitAll, VisitOrphans, Held, SweptTable, Passed;
    var tidy := NoStray(w.filter, live);
    RuntimeListed(ids, w);
    assert list[..|list|] == list;
    VisitsPolicy(env, w, list, now, |list|, live, tidy);
    VisitAllSlots(env, w, list, now, |list|);
    var visited := VisitAll(env, w, list, w.runtime.Keys, now);
    assert IdsOf(list) == w.store.Keys;
    OrphansPolicy(env, w, visited, ids, live, tidy);
    var v := Round(env, w, list, ids, now);
    assert Remaining(live, v) == Remaining(live, VisitOrphans(env, visited, ids, IdsOf(list)));
  }

  lemma RoundKeepsHeld(env: Env, w: World, list: seq<Record>, ids: seq<string>, now: int, live: set<Net>)
    requires RoundInputs(list, ids, w) && Held(env.cfg, w, live)
    ensures var v := Round(env, w, list, ids, now); Held(env.cfg, v, Remaining(live, v)) && v.store.Keys <= w.store.Keys
  {
    hide Round, Sick, OwnSlot;
    var v := Round(env, w, list, ids, now);
    RoundSlots(env, w, list, ids, now);
    forall id | id in v.store ensures SameParts(v.store[id], w.store[id]) {
      assert Passed(env, w, v, id, now);
      OwnSlotRecord(env, id, SlotOf(w, id), now, true);
      OwnSlotRecord(env, id, SlotOf(w, id), now, false);
    }
    forall n | n in Remaining(live, v) ensures HeldBy(env.cfg, v, n) {
      assert HeldBy(env.cfg, w, n);
    }
  }

  /** After any number of rounds the filter table guards exactly the sandboxes still saved: those removed on
      the way have lost their policy, whoever has their address now, and the others have theirs. */
  lemma {:induction false} RoundsGuard(env: Env, w: World, last: int, ticks: seq<Tick>, live: set<Net>)
    requires LegalTicks(env, w, last, ticks) && Held(env.cfg, w, live) && Guarded(w.filter, live)
    ensures var v := AfterTicks(env, w, ticks);
      && v.store.Keys <= w.store.Keys && Guarded(v.filter, Remaining(live, v))
      && (NoStray(w.filter, live) ==> NoStray(v.filter, Remaining(live, v)))
    decreases |ticks|
  {
    hide Round, RoundInputs, Held, Guarded, NoStray;
    if ticks == [] {
      AllKept(env.cfg, w, live);
    } else {
      var t := ticks[0];
      var next := Round(env, w, t.list, t.ids, t.now);
      RoundGuards(env, w, t.list, t.ids, t.now, live);
      RoundKeepsHeld(env, w, t.list, t.ids, t.now, live);
      RoundsGuard(env, next, t.now, ticks[1..], Remaining(live, next));
      assert Remaining(Remaining(live, next), AfterTicks(env, w, ticks)) == Remaining(live, AfterTicks(env, w, ticks));
    }
  }
}
