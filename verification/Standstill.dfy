/** Reconcile rounds come to a standstill: after a bounded number of them a round changes nothing at all. */
module Standstill {
  import opened Rules
  import opened Tables
  import opened Nat
  import opened Published
  import opened Publishing
  import opened Requests
  import opened Sandboxes
  import opened Debounce
  import opened Reconcile
  import opened Convergence
  import opened RoundPorts

  // Sweeps that find nothing.

  lemma NothingSwept(listing: Listing, t: Table, pubs: map<string, Pub>, keep: set<string>)
    requires NatHolds(t, pubs) && (listing.Bare? ==> pubs.Keys <= keep)
    ensures SweptTable(t, listing, Orphans(keep)) == t
  {
    hide ChainHolds, Swept, SweptTable, Lines;
    ChainsDiffer();
    SweptTableChains(t, listing, Orphans(keep));
    ChainNotSwept(listing, PREROUTING, t[PREROUTING], pubs, keep);
    ChainNotSwept(listing, OUTPUT, t[OUTPUT], pubs, keep);
  }

  lemma ChainNotSwept(listing: Listing, c: string, s: seq<Rule>, pubs: map<string, Pub>, keep: set<string>)
    requires c in {PREROUTING, OUTPUT} && ValidPubs(pubs) && ChainHolds(c, s, pubs)
    requires listing.Bare? ==> pubs.Keys <= keep
    ensures Swept(s, Lines(c, s, listing), Orphans(keep)) == s
  {
    hide Picks, Line, Swept, Owns, Foreign;
    if listing.Bare? {
      OrphansSwept(c, s, pubs, keep);
      forall r | r in s ensures r !in Picked(c, s, Orphans(keep)) {
        OrphanPick(c, r, pubs, keep);
      }
      StripAbsent(s, Picked(c, s, Orphans(keep)));
    } else {
      QuotedChainKept(c, s, pubs, Orphans(keep));
    }
  }

  lemma NothingCleaned(listing: Listing, t: Table, pubs: map<string, Pub>, id: string)
    requires NatHolds(t, pubs) && WellId(id)
    requires listing.Bare? ==> id !in pubs && NoneExtends(pubs.Keys, id)
    ensures CleanedTable(t, listing, id, 0, []) == t
  {
    hide ChainHolds, CleanedChain, CleanedTable;
    ChainsDiffer();
    CleanedTableChains(t, listing, id, 0, []);
    ChainNotCleaned(listing, PREROUTING, t[PREROUTING], pubs, id);
    ChainNotCleaned(listing, OUTPUT, t[OUTPUT], pubs, id);
  }

  lemma ChainNotCleaned(listing: Listing, c: string, s: seq<Rule>, pubs: map<string, Pub>, id: string)
    requires c in {PREROUTING, OUTPUT} && ValidPubs(pubs) && ChainHolds(c, s, pubs) && WellId(id)
    requires listing.Bare? ==> id !in pubs && NoneExtends(pubs.Keys, id)
    ensures CleanedChain(c, s, listing, id, 0, []) == s
  {
    hide ChainHolds, CleanedChain;
    if listing.Bare? {
      BareCleanup(c, s, pubs, id, 0, []);
      StripAbsent(s, OwnedIn(c, s, pubs, id));
    } else {
      QuotedCleanup(c, s, pubs, id, 0, []);
      StripAbsent(s, RuleSet(RulesFor(c, id, 0, [])));
    }
  }

  // A world that rounds leave as it is.

  /** A saved sandbox whose visits may change something. */
  predicate Watched(env: Env, w: World, id: string) {
    id in w.store && id !in env.locked && w.store[id].phase != Deleting
  }

  ghost predicate Forgotten(env: Env, w: World) {
    forall id :: Watched(env, w, id) ==> id !in w.watch.since && id !in w.watch.hits
  }

  /** Over a bare listing only known sandboxes publish, and no orphan that is cleaned does. */
  ghost predicate Tidied(env: Env, w: World, pubs: map<string, Pub>) {
    && NatHolds(w.nat_, pubs)
    && (env.cfg.listing.Bare? ==> pubs.Keys <= w.store.Keys + w.runtime.Keys
                                  && (env.listable ==> pubs.Keys !! (w.runtime.Keys - w.store.Keys - env.locked)))
  }

  ghost predicate Still(env: Env, w: World, pubs: map<string, Pub>) {
    Quiet(env, w) && Forgotten(env, w) && Tidied(env, w, pubs) && Telling(pubs.Keys + w.store.Keys + w.runtime.Keys)
  }

  lemma StillVisit(env: Env, w: World, r: Record, now: int)
    requires r.id in w.store && w.store[r.id] == r && Forgotten(env, w)
    requires !Unsettled(env, r.id, SlotOf(w, r.id), Sick(w, r.id))
    ensures Visit(env, w, r, w.runtime.Keys, now) == w
  {
    if Watched(env, w, r.id) {
      assert Forget(w.watch, r.id) == w.watch;
    }
  }

  lemma {:induction false} StillVisits(env: Env, w: World, list: seq<Record>, now: int)
    requires Quiet(env, w) && Forgotten(env, w)
    requires forall i :: 0 <= i < |list| ==> list[i].id in w.store && w.store[list[i].id] == list[i]
    ensures VisitAll(env, w, list, w.runtime.Keys, now) == w
  {
    hide Visit, Quiet, Unsettled, Sick, Forgotten;
    if list != [] {
      var r := list[|list| - 1];
      StillVisits(env, w, list[..|list| - 1], now);
      QuietAt(env, w, r.id);
      StillVisit(env, w, r, now);
    }
  }

  lemma StillOrphan(env: Env, w: World, id: string, pubs: map<string, Pub>)
    requires Still(env, w, pubs) && id in w.runtime
    ensures VisitOrphan(env, w, id, w.store.Keys) == w
  {
    hide NatHolds, CleanedTable, WellId, Unsettled, Family, TakenDown;
    assert !ActiveOrphan(env, w, id);
    assert id in pubs.Keys + w.store.Keys + w.runtime.Keys;
    if env.listable && id !in w.store && id !in env.locked {
      assert id in w.runtime.Keys - w.store.Keys - env.locked;
      NothingCleaned(env.cfg.listing, w.nat_, pubs, id);
    }
  }

  lemma {:induction false} StillOrphans(env: Env, w: World, ids: seq<string>, pubs: map<string, Pub>)
    requires Still(env, w, pubs) && SetOf(ids) <= w.runtime.Keys
    ensures VisitOrphans(env, w, ids, w.store.Keys) == w
  {
    hide Still, VisitOrphan;
    if ids != [] {
      assert SetOf(ids[..|ids| - 1]) <= SetOf(ids) && ids[|ids| - 1] in SetOf(ids);
      StillOrphans(env, w, ids[..|ids| - 1], pubs);
      StillOrphan(env, w, ids[|ids| - 1], pubs);
    }
  }

  /** A round over a still world leaves all of it as it is, what was seen and published included. */
  lemma StillRound(env: Env, w: World, list: seq<Record>, ids: seq<string>, now: int, pubs: map<string, Pub>)
    requires RoundInputs(list, ids, w) && Still(env, w, pubs)
    ensures Round(env, w, list, ids, now) == w
  {
    hide VisitAll, VisitOrphans, Quiet, Forgotten, NatHolds, Telling, SweptTable;
    RuntimeListed(ids, w);
    SavedListed(list, w);
    StillVisits(env, w, list, now);
    StillOrphans(env, w, ids, pubs);
    NothingSwept(env.cfg.listing, w.nat_, pubs, w.store.Keys + w.runtime.Keys);
  }

  // Getting there.

  lemma QuietThenStill(env: Env, w: World, list: seq<Record>, ids: seq<string>, now: int, pubs: map<string, Pub>)
    requires RoundInputs(list, ids, w) && Quiet(env, w) && NatHolds(w.nat_, pubs)
    requires Prepared(env.cfg.listing, w, pubs, pubs.Keys + w.store.Keys + w.runtime.Keys)
    ensures var v := Round(env, w, list, ids, now); Still(env, v, PublishedAfter(env, w, v, pubs))
  {
    hide Round, NatHolds, Quiet, Telling, Passed, Forgotten, PublishedAfter, ListsSaved, ValidPorts, Covered;
    var v := Round(env, w, list, ids, now);
    QuietRound(env, w, list, ids, now);
    RoundSlots(env, w, list, ids, now);
    RoundPublishes(env, w, list, ids, now, pubs);
    QuietForgets(env, w, v, now);
    PublishedFrom(env, w, v, pubs);
    FewerTell(pubs.Keys + w.store.Keys + w.runtime.Keys,
      PublishedAfter(env, w, v, pubs).Keys + v.store.Keys + v.runtime.Keys);
  }

  lemma QuietForgets(env: Env, w: World, v: World, now: int)
    requires SameState(v, w) && Quiet(env, w) && Quiet(env, v) && forall id :: id in w.store ==>
               Passed(env, w, v, id, now)
    ensures Forgotten(env, v)
  {
    hide Quiet, Sick, Unsettled, Passed;
    forall id | Watched(env, v, id) ensures id !in v.watch.since && id !in v.watch.hits {
      QuietAt(env, w, id);
      QuietAt(env, v, id);
      HealthyForgotten(env, w, v, id, now);
    }
  }

  lemma FewerTell(big: set<string>, small: set<string>)
    requires Telling(big) && small <= big
    ensures Telling(small)
  {
    hide WellId;
  }

  lemma PublishedFrom(env: Env, w: World, v: World, pubs: map<string, Pub>)
    requires SameState(v, w)
    ensures PublishedAfter(env, w, v, pubs).Keys <= pubs.Keys
    ensures env.cfg.listing.Bare? ==>
      var after := PublishedAfter(env, w, v, pubs).Keys;
      after <= v.store.Keys + v.runtime.Keys && (env.listable ==> after !! (v.runtime.Keys - v.store.Keys - env.locked))
  {
  }

  lemma HealthyForgotten(env: Env, w: World, v: World, id: string, now: int)
    requires SameState(v, w) && Watched(env, w, id) && Passed(env, w, v, id, now)
    requires !Unsettled(env, id, SlotOf(w, id), Sick(w, id)) && !Unsettled(env, id, SlotOf(v, id), Sick(v, id))
    ensures id !in v.watch.since && id !in v.watch.hits
  {
    hide AllRun;
    assert SlotOf(v, id) == OwnSlot(env, id, SlotOf(w, id), now, false);
  }

  // What rounds leave published, from the first to the last.

  /** Visits take from the runtime exactly what they take from the saved states. */
  lemma {:induction false} VisitsRuntime(env: Env, w: World, list: seq<Record>, now: int, n: nat)
    requires Keyed(w) && ListsSaved(list, w) && n <= |list|
    ensures var v := VisitAll(env, w, list[..n], w.runtime.Keys, now);
      v.runtime.Keys == w.runtime.Keys - (w.store.Keys - v.store.Keys)
  {
    hide Visit, ListsSaved, Keyed;
    if n == 0 {
      assert list[..0] == [];
    } else {
      VisitsRuntime(env, w, list, now, n - 1);
      LastVisit(env, w, list, now, n);
      VisitRuntime(env, VisitAll(env, w, list[..n - 1], w.runtime.Keys, now), list[n - 1], w.runtime.Keys, now);
    }
  }

  lemma VisitRuntime(env: Env, w: World, r: Record, listed: set<string>, now: int)
    requires r.id in w.store
    ensures var v := Visit(env, w, r, listed, now);
      v.store.Keys <= w.store.Keys && v.runtime.Keys == w.runtime.Keys - (w.store.Keys - v.store.Keys)
  {
    hide Visit, CleanedTable, Stopped, ContainerIds;
    VisitEither(env, w, r, listed, now);
  }

  lemma {:induction false} OrphansRuntime(env: Env, w: World, ids: seq<string>, saved: set<string>)
    ensures var v := VisitOrphans(env, w, ids, saved);
      forall id :: id in w.runtime && (id in saved || id in env.locked || !env.listable) ==> id in v.runtime
  {
    if ids != [] {
      OrphansRuntime(env, w, ids[..|ids| - 1], saved);
    }
  }

  /** The runtime after a round, as far as later rounds care. */
  lemma RoundRuntime(env: Env, w: World, list: seq<Record>, ids: seq<string>, now: int)
    requires RoundInputs(list, ids, w)
    ensures var v := Round(env, w, list, ids, now);
      && v.store.Keys <= w.store.Keys && v.runtime.Keys <= w.runtime.Keys
         && v.runtime.Keys !! (w.store.Keys - v.store.Keys)
      && (forall id :: id in w.runtime && id !in w.store && (id in env.locked || !env.listable) ==> id in v.runtime)
  {
    hide VisitAll, VisitOrphans, SweptTable, Passed;
    RuntimeListed(ids, w);
    assert list[..|list|] == list;
    VisitAllSlots(env, w, list, now, |list|);
    VisitsRuntime(env, w, list, now, |list|);
    var visited := VisitAll(env, w, list, w.runtime.Keys, now);
    SavedListed(list, w);
    OrphansShrink(env, visited, ids, w.store.Keys);
    OrphansRuntime(env, visited, ids, w.store.Keys);
  }

  lemma RoundKeepsPrepared(env: Env, w: World, list: seq<Record>, ids: seq<string>, now: int, pubs: map<string, Pub>,
                           all: set<string>)
    requires RoundInputs(list, ids, w) && Prepared(env.cfg.listing, w, pubs, all)
    ensures var v := Round(env, w, list, ids, now); Prepared(env.cfg.listing, v, PublishedAfter(env, w, v, pubs), all)
  {
    hide Round, Sick, OwnSlot, PortsOk, Telling;
    var v := Round(env, w, list, ids, now);
    RoundSlots(env, w, list, ids, now);
    RoundRuntime(env, w, list, ids, now);
    forall id | id in v.store ensures id in w.store && SameParts(v.store[id], w.store[id]) {
      assert Passed(env, w, v, id, now);
      OwnSlotRecord(env, id, SlotOf(w, id), now, true);
      OwnSlotRecord(env, id, SlotOf(w, id), now, false);
    }
  }

  /** Rounds add up: what a round leaves published and later rounds leave of that is what all of them leave. */
  lemma PublishedAddsUp(env: Env, w: World, list: seq<Record>, ids: seq<string>, now: int, u: World,
                        pubs: map<string, Pub>)
    requires RoundInputs(list, ids, w) && u.store.Keys <= Round(env, w, list, ids, now).store.Keys
    ensures var v := Round(env, w, list, ids, now);
      PublishedAfter(env, v, u, PublishedAfter(env, w, v, pubs)) == PublishedAfter(env, w, u, pubs)
  {
    hide Round, RoundInputs;
    var v := Round(env, w, list, ids, now);
    RoundRuntime(env, w, list, ids, now);
    LockedKept(env, w, list, ids, now);
    var some := PublishedAfter(env, w, v, pubs);
    assert PublishedAfter(env, v, u, some).Keys == PublishedAfter(env, w, u, pubs).Keys;
  }

  lemma LockedKept(env: Env, w: World, list: seq<Record>, ids: seq<string>, now: int)
    requires RoundInputs(list, ids, w)
    ensures forall id :: id in w.store && id in env.locked ==> id in Round(env, w, list, ids, now).store
  {
    hide Round, Sick;
    RoundSlots(env, w, list, ids, now);
    var v := Round(env, w, list, ids, now);
    forall id | id in w.store && id in env.locked ensures id in v.store {
      assert Passed(env, w, v, id, now);
    }
  }

  lemma PreparedLess(listing: Listing, w: World, pubs: map<string, Pub>, all: set<string>)
    requires Prepared(listing, w, pubs, all)
    ensures Prepared(listing, w, pubs, pubs.Keys + w.store.Keys + w.runtime.Keys)
  {
  }

  lemma {:induction false} TicksShrink(env: Env, w: World, last: int, ticks: seq<Tick>)
    requires LegalTicks(env, w, last, ticks)
    ensures AfterTicks(env, w, ticks).store.Keys <= w.store.Keys
    decreases |ticks|
  {
    hide Round, RoundInputs;
    if ticks != [] {
      var t := ticks[0];
      RoundSlots(env, w, t.list, t.ids, t.now);
      TicksShrink(env, Round(env, w, t.list, t.ids, t.now), t.now, ticks[1..]);
    }
  }

  /** After any number of rounds exactly the ports of the sandboxes still saved, and of runtime sandboxes that
      never were and are not cleaned, are published; foreign rules are untouched. */
  lemma {:induction false} RoundsPublish(env: Env, w: World, last: int, ticks: seq<Tick>, pubs: map<string, Pub>,
                                         all: set<string>)
    requires LegalTicks(env, w, last, ticks) && ticks != []
    requires NatHolds(w.nat_, pubs) && Prepared(env.cfg.listing, w, pubs, all)
    ensures var v := AfterTicks(env, w, ticks);
      NatHolds(v.nat_, PublishedAfter(env, w, v, pubs))
        && Prepared(env.cfg.listing, v, PublishedAfter(env, w, v, pubs), all)
    decreases |ticks|
  {
    hide Round, RoundInputs, NatHolds, Prepared, PublishedAfter;
    var t := ticks[0];
    var next := Round(env, w, t.list, t.ids, t.now);
    PreparedLess(env.cfg.listing, w, pubs, all);
    RoundPublishes(env, w, t.list, t.ids, t.now, pubs);
    RoundKeepsPrepared(env, w, t.list, t.ids, t.now, pubs, all);
    if ticks[1..] != [] {
      RoundsPublish(env, next, t.now, ticks[1..], PublishedAfter(env, w, next, pubs), all);
      TicksShrink(env, next, t.now, ticks[1..]);
      PublishedAddsUp(env, w, t.list, t.ids, t.now, AfterTicks(env, next, ticks[1..]), pubs);
    }
  }

  // Standstill.

  function LastTick(last: int, ticks: seq<Tick>): int {
    if ticks == [] then last else ticks[|ticks| - 1].now
  }

  lemma {:induction false} TicksConcat(env: Env, w: World, last: int, a: seq<Tick>, b: seq<Tick>)
    requires LegalTicks(env, w, last, a + b)
    ensures LegalTicks(env, w, last, a) && LegalTicks(env, AfterTicks(env, w, a), LastTick(last, a), b)
    ensures AfterTicks(env, w, a + b) == AfterTicks(env, AfterTicks(env, w, a), b)
    decreases |a|
  {
    hide Round, RoundInputs;
    if a == [] {
      assert a + b == b;
    } else {
      var t := a[0];
      assert (a + b)[0] == t && (a + b)[1..] == a[1..] + b;
      TicksConcat(env, Round(env, w, t.list, t.ids, t.now), t.now, a[1..], b);
    }
  }

  lemma {:induction false} StillTicks(env: Env, w: World, last: int, ticks: seq<Tick>, pubs: map<string, Pub>)
    requires LegalTicks(env, w, last, ticks) && Still(env, w, pubs)
    ensures AfterTicks(env, w, ticks) == w
    decreases |ticks|
  {
    hide Round, RoundInputs, Still;
    if ticks != [] {
      var t := ticks[0];
      StillRound(env, w, t.list, t.ids, t.now, pubs);
      StillTicks(env, w, t.now, ticks[1..], pubs);
    }
  }

  /** One round more than it takes to settle, and from then on every round leaves the whole world as it is:
      saved states, containers, runtime, sightings and both rule tables. */
  lemma RoundsStandStill(env: Env, w: World, last: int, ticks: seq<Tick>, more: seq<Tick>, pubs: map<string, Pub>)
    requires Keyed(w) && WellWatched(w, last) && LegalTicks(env, w, last, ticks + more)
    requires forall id :: id in w.store ==> w.store[id].createdAt <= last
    requires NatHolds(w.nat_, pubs) && Prepared(env.cfg.listing, w, pubs, pubs.Keys + w.store.Keys + w.runtime.Keys)
    requires |ticks| > Bound(env, w)
    ensures AfterTicks(env, w, ticks + more) == AfterTicks(env, w, ticks)
  {
    hide AfterTicks, LegalTicks, NatHolds, Prepared, Keyed, WellWatched, Bound, Still;
    TicksConcat(env, w, last, ticks, more);
    var a, b := ticks[..|ticks| - 1], ticks[|ticks| - 1..];
    assert ticks == a + b;
    TicksConcat(env, w, last, a, b);
    RoundsSettle(env, w, last, a);
    var u := AfterTicks(env, w, a);
    LastRoundStill(env, w, last, a, b, pubs);
    StillTicks(env, AfterTicks(env, u, b), LastTick(last, ticks), more,
      PublishedAfter(env, u, AfterTicks(env, u, b), PubsBefore(env, w, a, pubs)));
  }

  function PubsBefore(env: Env, w: World, ticks: seq<Tick>, pubs: map<string, Pub>): map<string, Pub> {
    if ticks == [] then pubs else PublishedAfter(env, w, AfterTicks(env, w, ticks), pubs)
  }

  lemma LastRoundStill(env: Env, w: World, last: int, a: seq<Tick>, b: seq<Tick>, pubs: map<string, Pub>)
    requires LegalTicks(env, w, last, a) && LegalTicks(env, AfterTicks(env, w, a), LastTick(last, a), b) && |b| == 1
    requires Quiet(env, AfterTicks(env, w, a)) && NatHolds(w.nat_, pubs)
    requires Prepared(env.cfg.listing, w, pubs, pubs.Keys + w.store.Keys + w.runtime.Keys)
    ensures var u := AfterTicks(env, w, a);
      var v := AfterTicks(env, u, b);
      Still(env, v, PublishedAfter(env, u, v, PubsBefore(env, w, a, pubs)))
  {
    hide Round, RoundInputs, NatHolds, Prepared, Still, Quiet, PublishedAfter;
    var u := AfterTicks(env, w, a);
    if a != [] {
      RoundsPublish(env, w, last, a, pubs, pubs.Keys + w.store.Keys + w.runtime.Keys);
    }
    PreparedLess(env.cfg.listing, u, PubsBefore(env, w, a, pubs), pubs.Keys + w.store.Keys + w.runtime.Keys);
    QuietThenStill(env, u, b[0].list, b[0].ids, b[0].now, PubsBefore(env, w, a, pubs));
    assert b[1..] == [];
  }
}
