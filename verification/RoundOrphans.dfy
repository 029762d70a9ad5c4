/** What a reconcile round leaves of the filter rules of a runtime sandbox without a saved state. */
module RoundOrphans {
  import opened Rules
  import opened Tables
  import opened Firewall
  import opened Policy
  import opened Nat
  import opened Publishing
  import opened Sandboxes
  import opened Reconcile
  import opened Convergence

  /** The hooks of a sandbox with this address and name hash. */
  function ForwardHook(short: string, ip: nat): Rule {
    Rule([Source(Cidr(ip, 32))], Jump("SBX-" + short + "-FWD"))
  }

  function InputHook(short: string, bridgeIf: string, ip: nat): Rule {
    Rule([InInterface(bridgeIf), Source(Cidr(ip, 32))], Jump("SBX-" + short + "-IN"))
  }

  /** Its hooks are in the common chains at most once. */
  ghost predicate HookedOnce(t: Table, short: string, bridgeIf: string, ip: nat) {
    && HasGlobals(t)
    && multiset(t[SANDBOX_FWD])[ForwardHook(short, ip)] <= 1
    && multiset(t[SANDBOX_IN])[InputHook(short, bridgeIf, ip)] <= 1
  }

  /** Nothing refers to its chains from the common ones, and they are gone or empty. */
  ghost predicate Unhooked(t: Table, short: string, bridgeIf: string, ip: nat) {
    && HasGlobals(t)
    && ForwardHook(short, ip) !in t[SANDBOX_FWD] && InputHook(short, bridgeIf, ip) !in t[SANDBOX_IN]
    && Chain(t, "SBX-" + short + "-FWD") == [] == Chain(t, "SBX-" + short + "-IN")
  }

  lemma Fewer(s: seq<Rule>, r: Rule, x: Rule)
    ensures multiset(RemoveFirst(s, r))[x] <= multiset(s)[x]
    ensures multiset(s)[r] <= 1 ==> r !in RemoveFirst(s, r)
    ensures x !in s ==> x !in RemoveFirst(s, r)
  {
    RemoveBag(s, r);
    RemoveMembers(s, r, x);
    assert r in RemoveFirst(s, r) ==> r in multiset(RemoveFirst(s, r));
  }

  lemma DeleteUnhooks(t: Table, n: Net)
    requires HookedOnce(t, n.short, n.bridgeIf, n.ip)
    ensures Unhooked(DeleteTable(t, n), n.short, n.bridgeIf, n.ip)
  {
    hide DeleteTable, RemoveFirst;
    DeleteEffect(t, n);
    Fewer(t[SANDBOX_FWD], HookFwd(n), HookFwd(n));
    Fewer(t[SANDBOX_IN], HookIn(n), HookIn(n));
  }

  lemma DeleteKeeps(t: Table, n: Net, short: string, bridgeIf: string, ip: nat)
    ensures HookedOnce(t, short, bridgeIf, ip) ==> HookedOnce(DeleteTable(t, n), short, bridgeIf, ip)
    ensures Unhooked(t, short, bridgeIf, ip) ==> Unhooked(DeleteTable(t, n), short, bridgeIf, ip)
  {
    hide DeleteTable, RemoveFirst;
    if HasGlobals(t) {
      DeleteEffect(t, n);
      Fewer(t[SANDBOX_FWD], HookFwd(n), ForwardHook(short, ip));
      Fewer(t[SANDBOX_IN], HookIn(n), InputHook(short, bridgeIf, ip));
      ChainNames(short, short);
      assert "SBX-" + short + "-FWD" == FwdChain(short) && "SBX-" + short + "-IN" == InChain(short);
    }
  }

  lemma VisitDeletes(env: Env, w: World, r: Record, listed: set<string>, now: int)
    requires r.id in w.store
    ensures var v := Visit(env, w, r, listed, now);
      && (v.filter == w.filter || exists n :: v.filter == DeleteTable(w.filter, n))
      && forall id :: id in w.runtime && id != r.id ==> id in v.runtime && v.runtime[id] == w.runtime[id]
  {
    hide Visit, CleanedTable, DeleteTable, Stopped;
    VisitEither(env, w, r, listed, now);
    if r.ip.Some? {
      assert TakenDown(env, w, r.id, ContainerIds(r), r.ip, r.ports).filter
          == DeleteTable(w.filter, GoneNet(env.cfg, r.id, r.ip.value, r.ports));
    }
  }

  /** The visits to the saved sandboxes leave an orphan's runtime entry and add no hook. */
  lemma {:induction false} VisitsKeep(env: Env, w: World, list: seq<Record>, now: int, n: nat, id: string,
                                      short: string, bridgeIf: string, ip: nat)
    requires Keyed(w) && ListsSaved(list, w) && n <= |list| && id !in w.store && id in w.runtime
    requires HookedOnce(w.filter, short, bridgeIf, ip)
    ensures var v := VisitAll(env, w, list[..n], w.runtime.Keys, now);
      HookedOnce(v.filter, short, bridgeIf, ip) && id in v.runtime && v.runtime[id] == w.runtime[id]
  {
    hide Visit, ListsSaved, Keyed, HookedOnce, DeleteTable;
    if n == 0 {
      assert list[..0] == [];
    } else {
      VisitsKeep(env, w, list, now, n - 1, id, short, bridgeIf, ip);
      LastVisit(env, w, list, now, n);
      var before, r := VisitAll(env, w, list[..n - 1], w.runtime.Keys, now), list[n - 1];
      VisitDeletes(env, before, r, w.runtime.Keys, now);
      var v := Visit(env, before, r, w.runtime.Keys, now);
      if v.filter != before.filter {
        var gone :| v.filter == DeleteTable(before.filter, gone);
        DeleteKeeps(before.filter, gone, short, bridgeIf, ip);
      }
    }
  }

  lemma OrphanKeeps(env: Env, w: World, x: string, saved: set<string>, short: string, bridgeIf: string, ip: nat)
    ensures var v := VisitOrphan(env, w, x, saved);
      && (HookedOnce(w.filter, short, bridgeIf, ip) ==> HookedOnce(v.filter, short, bridgeIf, ip))
      && (Unhooked(w.filter, short, bridgeIf, ip) ==> Unhooked(v.filter, short, bridgeIf, ip))
      && forall id :: id in w.runtime && id != x ==> id in v.runtime && v.runtime[id] == w.runtime[id]
  {
    hide CleanedTable, DeleteTable, Stopped, Family, HookedOnce, Unhooked;
    var address := Address(w, x);
    if address.Some? {
      DeleteKeeps(w.filter, GoneNet(env.cfg, x, address.value, []), short, bridgeIf, ip);
    }
  }

  lemma OrphanUnhooks(env: Env, w: World, id: string, saved: set<string>, ip: nat)
    requires env.listable && id !in saved && id !in env.locked && id in w.runtime && w.runtime[id] == Some(ip)
    requires HookedOnce(w.filter, env.cfg.short(id), env.cfg.bridgeIf, ip)
    ensures Unhooked(VisitOrphan(env, w, id, saved).filter, env.cfg.short(id), env.cfg.bridgeIf, ip)
  {
    hide CleanedTable, DeleteTable, Stopped, Family, HookedOnce, Unhooked;
    DeleteUnhooks(w.filter, GoneNet(env.cfg, id, ip, []));
  }

  lemma {:induction false} OrphansUnhook(env: Env, w: World, ids: seq<string>, saved: set<string>, id: string, ip: nat)
    requires env.listable && id !in saved && id !in env.locked && id in w.runtime && w.runtime[id] == Some(ip)
    requires HookedOnce(w.filter, env.cfg.short(id), env.cfg.bridgeIf, ip)
    ensures var v := VisitOrphans(env, w, ids, saved);
      if id in ids then Unhooked(v.filter, env.cfg.short(id), env.cfg.bridgeIf, ip)
      else HookedOnce(v.filter, env.cfg.short(id), env.cfg.bridgeIf, ip) && id in v.runtime && v.runtime[id] == Some(ip)
  {
    hide VisitOrphan, HookedOnce, Unhooked;
    if ids != [] {
      var init, last := ids[..|ids| - 1], ids[|ids| - 1];
      assert ids == init + [last];
      var before := VisitOrphans(env, w, init, saved);
      OrphansUnhook(env, w, init, saved, id, ip);
      OrphanKeeps(env, before, last, saved, env.cfg.short(id), env.cfg.bridgeIf, ip);
      if last == id && id !in init {
        OrphanUnhooks(env, before, id, saved, ip);
      }
    }
  }

  /** A runtime sandbox that is not saved and whose address can be read loses its two hooks and its chains. */
  lemma RoundUnhooksOrphan(env: Env, w: World, list: seq<Record>, ids: seq<string>, now: int, id: string, ip: nat)
    requires RoundInputs(list, ids, w) && env.listable && id !in w.store && id !in env.locked
    requires id in w.runtime && w.runtime[id] == Some(ip)
    requires HookedOnce(w.filter, env.cfg.short(id), env.cfg.bridgeIf, ip)
    ensures Unhooked(Round(env, w, list, ids, now).filter, env.cfg.short(id), env.cfg.bridgeIf, ip)
  {
    hide VisitAll, VisitOrphans, HookedOnce, Unhooked, SweptTable, Keyed;
    RuntimeListed(ids, w);
    assert list[..|list|] == list;
    VisitsKeep(env, w, list, now, |list|, id, env.cfg.short(id), env.cfg.bridgeIf, ip);
    assert IdsOf(list) == w.store.Keys;
    assert id in SetOf(ids);
    OrphansUnhook(env, VisitAll(env, w, list, SetOf(ids), now), ids, IdsOf(list), id, ip);
  }
}
