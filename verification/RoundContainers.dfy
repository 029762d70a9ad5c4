/** Which containers a reconcile round stops: told from the saved states, the runtime and the container ids. */
module RoundContainers {
  import opened Firewall
  import opened Nat
  import opened Publishing
  import opened Sandboxes
  import opened Reconcile
  import opened Convergence

  /** The container is one of the saved sandbox's. */
  predicate Owned(w: World, id: string, c: string) {
    id in w.store && exists name :: name in w.store[id].containers && w.store[id].containers[name].id == c
  }

  /** A sandbox saved before and no longer afterwards owns the container. */
  ghost predicate OwnerRemoved(w: World, v: World, c: string) {
    exists id :: Owned(w, id, c) && id !in v.store
  }

  /** One of these ids is a runtime sandbox without a saved state that nobody has locked, and the container's
      id begins with it and a dash. */
  ghost predicate OrphanOf(env: Env, saved: set<string>, ids: seq<string>, c: string) {
    env.listable && exists i :: 0 <= i < |ids| && ids[i] !in saved && ids[i] !in env.locked && (ids[i] + "-") <= c
  }

  lemma VisitStops(env: Env, start: World, w: World, r: Record, now: int, c: string)
    requires r.id in start.store && start.store[r.id] == r && r.id in w.store && w.store.Keys <= start.store.Keys
    requires c in w.containers <==> c in start.containers && (c in env.stuck || !OwnerRemoved(start, w, c))
    ensures var v := Visit(env, w, r, start.runtime.Keys, now);
      c in v.containers <==> c in start.containers && (c in env.stuck || !OwnerRemoved(start, v, c))
  {
    hide Visit, CleanedTable, DeleteTable;
    VisitEither(env, w, r, start.runtime.Keys, now);
    var v := Visit(env, w, r, start.runtime.Keys, now);
    if v.store.Keys != w.store.Keys {
      assert v.store.Keys == w.store.Keys - {r.id};
      assert OwnerRemoved(start, v, c) <==> OwnerRemoved(start, w, c) || Owned(start, r.id, c);
      assert c in ContainerIds(r) <==> Owned(start, r.id, c);
    } else {
      assert OwnerRemoved(start, v, c) <==> OwnerRemoved(start, w, c);
    }
  }

  lemma {:induction false} VisitsStop(env: Env, w: World, list: seq<Record>, now: int, n: nat, c: string)
    requires Keyed(w) && ListsSaved(list, w) && n <= |list|
    ensures var v := VisitAll(env, w, list[..n], w.runtime.Keys, now);
      c in v.containers <==> c in w.containers && (c in env.stuck || !OwnerRemoved(w, v, c))
  {
    hide Visit, ListsSaved, Keyed;
    if n == 0 {
      assert list[..0] == [];
    } else {
      VisitsStop(env, w, list, now, n - 1, c);
      LastVisit(env, w, list, now, n);
      VisitStops(env, w, VisitAll(env, w, list[..n - 1], w.runtime.Keys, now), list[n - 1], now, c);
    }
  }

  lemma OrphanStops(env: Env, w: World, id: string, saved: set<string>, c: string)
    ensures c in VisitOrphan(env, w, id, saved).containers
       <==> c in w.containers && (c in env.stuck || !OrphanOf(env, saved, [id], c))
  {
    hide CleanedTable, DeleteTable;
    assert c in Family(w, id) <==> c in w.containers && (id + "-") <= c;
    assert [id][0] == id;
  }

  lemma OrphanOfLast(env: Env, saved: set<string>, ids: seq<string>, c: string)
    requires ids != []
    ensures OrphanOf(env, saved, ids, c)
       <==> OrphanOf(env, saved, ids[..|ids| - 1], c) || OrphanOf(env, saved, [ids[|ids| - 1]], c)
  {
    assert [ids[|ids| - 1]][0] == ids[|ids| - 1];
  }

  lemma {:induction false} OrphansStop(env: Env, w: World, ids: seq<string>, saved: set<string>, c: string)
    ensures c in VisitOrphans(env, w, ids, saved).containers
       <==> c in w.containers && (c in env.stuck || !OrphanOf(env, saved, ids, c))
  {
    hide VisitOrphan;
    if ids != [] {
      var init, last := ids[..|ids| - 1], ids[|ids| - 1];
      OrphansStop(env, w, init, saved, c);
      OrphanStops(env, VisitOrphans(env, w, init, saved), last, saved, c);
      OrphanOfLast(env, saved, ids, c);
    }
  }

  /** A round stops exactly these containers: those of the saved sandboxes it removes and those that carry the
      id of an orphan in front, unless they resist. The others stay as they are. */
  lemma RoundStops(env: Env, w: World, list: seq<Record>, ids: seq<string>, now: int, c: string)
    requires RoundInputs(list, ids, w)
    ensures var v := Round(env, w, list, ids, now);
      && (c in v.containers
          <==> c in w.containers
               && (c in env.stuck || (!OwnerRemoved(w, v, c) && !OrphanOf(env, w.store.Keys, ids, c))))
      && (c in v.containers ==> v.containers[c] == w.containers[c])
  {
    hide VisitAll, VisitOrphans, SweptTable, Passed, OrphanOf;
    RuntimeListed(ids, w);
    assert list[..|list|] == list;
    VisitsStop(env, w, list, now, |list|, c);
    VisitAllSlots(env, w, list, now, |list|);
    var visited := VisitAll(env, w, list, w.runtime.Keys, now);
    assert IdsOf(list) == w.store.Keys;
    OrphansStop(env, visited, ids, IdsOf(list), c);
    OrphansShrink(env, visited, ids, IdsOf(list));
  }
}
