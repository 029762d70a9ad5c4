/** What a reconcile round leaves published, over either style of listing. */
module RoundPorts {
  import opened Rules
  import opened Firewall
  import opened Nat
  import opened Tags
  import opened Published
  import opened Publishing
  import opened Requests
  import opened Sandboxes
  import opened Reconcile
  import opened Convergence
  import Lifecycle

  /** Ids that survive as tags, none beginning another. */
  ghost predicate Telling(ids: set<string>) {
    forall a :: a in ids ==> WellId(a) && forall b :: b in ids && a <= b ==> a == b
  }

  ghost predicate ValidPorts(w: World) {
    forall id :: id in w.store ==> PortsOk(w.store[id].ports, |w.store[id].ports|)
  }

  /** The saved states name all that is published for them. */
  ghost predicate Covered(w: World, pubs: map<string, Pub>) {
    forall id :: id in w.store && id in pubs ==>
      && w.store[id].ip == Some(pubs[id].ip)
      && forall f :: f in pubs[id].forwards ==> f in Lifecycle.ForwardsOf(w.store[id].ports)
  }

  ghost predicate AllPublish(pubs: map<string, Pub>) {
    forall id :: id in pubs ==> pubs[id].forwards != []
  }

  /** What rounds start from; a quoting listing leaves removal to what the saved states say. */
  ghost predicate Prepared(listing: Listing, w: World, pubs: map<string, Pub>, ids: set<string>) {
    && ValidPorts(w) && (listing.Quoted? ==> Covered(w, pubs) && AllPublish(pubs))
    && Telling(ids) && pubs.Keys <= ids && w.store.Keys <= ids && w.runtime.Keys <= ids
  }

  lemma CleanedPorts(listing: Listing, t: Table, pubs: map<string, Pub>, ids: set<string>, id: string, ip: nat,
                     fs: seq<Forward>)
    requires NatHolds(t, pubs) && Telling(ids) && pubs.Keys <= ids && id in ids
    requires forall i :: 0 <= i < |fs| ==> ValidProto(fs[i])
    requires id in pubs && listing.Quoted? ==> pubs[id].ip == ip && forall f :: f in pubs[id].forwards ==> f in fs
    ensures NatHolds(CleanedTable(t, listing, id, ip, fs), Kept(pubs, pubs.Keys - {id}))
  {
    hide NatHolds, CleanedTable, WellId, ValidProto;
    UnpublishKeeps(listing, t, pubs, id, ip, fs);
    if listing.Quoted? {
      TrimmedAll(pubs, id, ip, fs);
    }
  }

  /** The ports left published when some saved sandboxes are gone. */
  function Left(pubs: map<string, Pub>, w: World, v: World): map<string, Pub> {
    Kept(pubs, pubs.Keys - (w.store.Keys - v.store.Keys))
  }

  lemma TakenDownPorts(env: Env, start: World, w: World, r: Record, pubs: map<string, Pub>, ids: set<string>)
    requires NatHolds(w.nat_, Left(pubs, start, w)) && Prepared(env.cfg.listing, start, pubs, ids)
    requires r.id in start.store && start.store[r.id] == r
    ensures var v := TakenDown(env, w, r.id, ContainerIds(r), r.ip, r.ports); NatHolds(v.nat_, Left(pubs, start, v))
  {
    hide NatHolds, CleanedTable, Telling, PortsOk, ValidProto, Stopped, DeleteTable;
    Lifecycle.PortsValid(r.ports);
    var fs := if r.ip.Some? then Lifecycle.ForwardsOf(r.ports) else [];
    var before := Left(pubs, start, w);
    CleanedPorts(env.cfg.listing, w.nat_, before, ids, r.id, if r.ip.Some? then r.ip.value else 0, fs);
    var v := TakenDown(env, w, r.id, ContainerIds(r), r.ip, r.ports);
    assert Kept(before, before.Keys - {r.id}) == Left(pubs, start, v);
  }

  lemma VisitPorts(env: Env, start: World, w: World, r: Record, now: int, pubs: map<string, Pub>, ids: set<string>)
    requires NatHolds(w.nat_, Left(pubs, start, w)) && Prepared(env.cfg.listing, start, pubs, ids)
    requires r.id in start.store && start.store[r.id] == r && r.id in w.store
    ensures var v := Visit(env, w, r, start.runtime.Keys, now); NatHolds(v.nat_, Left(pubs, start, v))
  {
    hide NatHolds, TakenDown, Visit, Prepared;
    TakenDownPorts(env, start, w, r, pubs, ids);
    VisitEither(env, w, r, start.runtime.Keys, now);
    var v, gone := Visit(env, w, r, start.runtime.Keys, now), TakenDown(env, w, r.id, ContainerIds(r), r.ip, r.ports);
    assert Left(pubs, start, v)
        == if v == gone.(watch := v.watch) then Left(pubs, start, gone) else Left(pubs, start, w);
  }

  lemma NoneGone(pubs: map<string, Pub>, w: World)
    ensures Left(pubs, w, w) == pubs
  {
  }

  lemma {:induction false} VisitsPorts(env: Env, w: World, list: seq<Record>, now: int, n: nat, pubs: map<string, Pub>,
                                       ids: set<string>)
    requires Keyed(w) && ListsSaved(list, w) && n <= |list| && NatHolds(w.nat_, pubs)
               && Prepared(env.cfg.listing, w, pubs, ids)
    ensures var v := VisitAll(env, w, list[..n], w.runtime.Keys, now); NatHolds(v.nat_, Left(pubs, w, v))
  {
    hide NatHolds, Visit, Prepared, Left, ListsSaved, Keyed;
    if n == 0 {
      assert list[..0] == [];
      NoneGone(pubs, w);
    } else {
      VisitsPorts(env, w, list, now, n - 1, pubs, ids);
      LastVisit(env, w, list, now, n);
      VisitPorts(env, w, VisitAll(env, w, list[..n - 1], w.runtime.Keys, now), list[n - 1], now, pubs, ids);
    }
  }

  /** Over a bare listing the orphans' ports are removed by tag; over a quoting one they stay. */
  function OrphanLeft(env: Env, pubs: map<string, Pub>, saved: set<string>, ids: set<string>): map<string, Pub> {
    if env.cfg.listing.Bare? && env.listable then Kept(pubs, pubs.Keys - (ids - saved - env.locked)) else pubs
  }

  lemma UntaggedPorts(listing: Listing, t: Table, pubs: map<string, Pub>, ids: set<string>, id: string, ip: nat)
    requires NatHolds(t, pubs) && Telling(ids) && pubs.Keys <= ids && id in ids
    requires listing.Quoted? ==> AllPublish(pubs)
    ensures NatHolds(CleanedTable(t, listing, id, ip, []), if listing.Bare? then Kept(pubs, pubs.Keys - {id}) else pubs)
  {
    hide NatHolds, CleanedTable, WellId;
    UnpublishKeeps(listing, t, pubs, id, ip, []);
    if listing.Quoted? && id in pubs {
      AllUnnamed(pubs[id].forwards);
      assert Trimmed(pubs, id, ip, []) == pubs by { assert pubs[id := pubs[id]] == pubs; }
    }
  }

  lemma {:induction false} AllUnnamed(forwards: seq<Forward>)
    ensures Unnamed(forwards, []) == forwards
  {
    if forwards != [] {
      AllUnnamed(forwards[..|forwards| - 1]);
    }
  }

  lemma OrphanPorts(env: Env, w: World, id: string, saved: set<string>, pubs: map<string, Pub>, ids: set<string>)
    requires NatHolds(w.nat_, pubs) && Telling(ids) && pubs.Keys <= ids && id in ids
    requires env.cfg.listing.Quoted? ==> AllPublish(pubs)
    ensures NatHolds(VisitOrphan(env, w, id, saved).nat_, OrphanLeft(env, pubs, saved, {id}))
  {
    hide NatHolds, CleanedTable, Telling, Stopped, Family, DeleteTable, AllPublish;
    var ip := Address(w, id);
    assert Lifecycle.ForwardsOf([]) == [];
    UntaggedPorts(env.cfg.listing, w.nat_, pubs, ids, id, 0);
    UntaggedPorts(env.cfg.listing, w.nat_, pubs, ids, id, if ip.Some? then ip.value else 0);
    assert Kept(pubs, pubs.Keys) == pubs;
    assert {id} - saved - env.locked == if id in saved || id in env.locked then {} else {id};
    assert pubs.Keys - {} == pubs.Keys;
  }

  lemma {:induction false} OrphansPorts(env: Env, w: World, rs: seq<string>, saved: set<string>, pubs: map<string, Pub>,
                                        ids: set<string>)
    requires NatHolds(w.nat_, pubs) && Telling(ids) && pubs.Keys <= ids && SetOf(rs) <= ids
    requires env.cfg.listing.Quoted? ==> AllPublish(pubs)
    ensures NatHolds(VisitOrphans(env, w, rs, saved).nat_, OrphanLeft(env, pubs, saved, SetOf(rs)))
  {
    hide NatHolds, VisitOrphan, Telling;
    if rs == [] {
      assert OrphanLeft(env, pubs, saved, SetOf(rs)) == pubs;
    } else {
      var init, last := rs[..|rs| - 1], rs[|rs| - 1];
      assert rs == init + [last];
      assert SetOf(rs) == SetOf(init) + {last};
      OrphansPorts(env, w, init, saved, pubs, ids);
      var before := OrphanLeft(env, pubs, saved, SetOf(init));
      OrphanPorts(env, VisitOrphans(env, w, init, saved), last, saved, before, ids);
      assert OrphanLeft(env, before, saved, {last}) == OrphanLeft(env, pubs, saved, SetOf(rs));
    }
  }

  /** The publications after a round that leaves `v` of `w`: over a bare listing those of the sandboxes still
      saved and of runtime sandboxes that were no orphans to clean; over a quoting one, all but those of the
      saved sandboxes it removed. */
  function PublishedAfter(env: Env, w: World, v: World, pubs: map<string, Pub>): map<string, Pub> {
    if env.cfg.listing.Bare? then
      var unsaved := w.runtime.Keys - w.store.Keys;
      Kept(pubs, v.store.Keys + if env.listable then unsaved * env.locked else unsaved)
    else Left(pubs, w, v)
  }

  /** After a round exactly these ports are published; all other tagged rules are gone and foreign rules are
      untouched. */
  lemma RoundPublishes(env: Env, w: World, list: seq<Record>, ids: seq<string>, now: int, pubs: map<string, Pub>)
    requires RoundInputs(list, ids, w) && NatHolds(w.nat_, pubs)
    requires Prepared(env.cfg.listing, w, pubs, pubs.Keys + w.store.Keys + w.runtime.Keys)
    ensures var v := Round(env, w, list, ids, now); NatHolds(v.nat_, PublishedAfter(env, w, v, pubs))
  {
    hide NatHolds, VisitAll, VisitOrphans, SweptTable, Telling, Passed, ValidPorts, Covered, Visits, SlotOf, ListsSaved,
         Left, OrphanLeft, PublishedAfter;
    var all := pubs.Keys + w.store.Keys + w.runtime.Keys;
    assert list[..|list|] == list;
    RuntimeListed(ids, w);
    VisitsPorts(env, w, list, now, |list|, pubs, all);
    VisitAllSlots(env, w, list, now, |list|);
    var visited, saved := VisitAll(env, w, list, w.runtime.Keys, now), IdsOf(list);
    var first := Left(pubs, w, visited);
    LeftOnly(pubs, w, visited);
    OrphansPorts(env, visited, ids, saved, first, all);
    var second := OrphanLeft(env, first, saved, w.runtime.Keys);
    var swept := VisitOrphans(env, visited, ids, saved);
    SweepKeeps(env.cfg.listing, swept.nat_, second, saved + SetOf(ids));
    SavedListed(list, w);
    OrphansShrink(env, visited, ids, saved);
    WhatIsLeft(env, w, visited, Round(env, w, list, ids, now), pubs);
  }

  lemma LeftOnly(pubs: map<string, Pub>, w: World, v: World)
    ensures Left(pubs, w, v).Keys <= pubs.Keys && (AllPublish(pubs) ==> AllPublish(Left(pubs, w, v)))
  {
  }

  lemma WhatIsLeft(env: Env, w: World, visited: World, v: World, pubs: map<string, Pub>)
    requires v.store == visited.store && v.store.Keys <= w.store.Keys
    ensures var second := OrphanLeft(env, Left(pubs, w, visited), w.store.Keys, w.runtime.Keys);
      PublishedAfter(env, w, v, pubs)
      == if env.cfg.listing.Bare? then Kept(second, w.store.Keys + w.runtime.Keys) else second
  {
  }

  lemma SavedListed(list: seq<Record>, w: World)
    requires ListsSaved(list, w)
    ensures IdsOf(list) == w.store.Keys
  {
  }
}
