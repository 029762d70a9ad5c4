/** Iterated reconcile rounds settle: in a bounded number of rounds nothing is left to do. */
module Convergence {
  import opened Rules
  import opened Firewall
  import opened Nat
  import opened Publishing
  import opened Requests
  import opened Sandboxes
  import opened Debounce
  import opened Reconcile

  // One sandbox through one round.

  /** All a round's decisions about one saved sandbox rest on, but for its health. */
  datatype Slot = Slot(saved: Option<Record>, since: Option<int>, hits: Option<int>)

  function Find<T>(m: map<string, T>, id: string): Option<T> {
    if id in m then Some(m[id]) else None
  }

  function SlotOf(w: World, id: string): Slot {
    Slot(Find(w.store, id), Find(w.watch.since, id), Find(w.watch.hits, id))
  }

  predicate Sick(w: World, id: string) {
    id in w.store && (id !in w.runtime || !AllRun(w, w.store[id]))
  }

  function SeenSlot(env: Env, s: Slot, now: int): Slot {
    var since := if s.since.Some? then s.since.value else now;
    var hits := if s.since.None? then 1 else (if s.hits.Some? then s.hits.value else 0) + 1;
    if s.since.Some? && now - since >= env.limits.grace && hits >= env.limits.hits then Slot(None, None, None)
    else Slot(s.saved, Some(since), Some(hits))
  }

  /** What a round makes of a sandbox that its visit finds sick or not. */
  function OwnSlot(env: Env, id: string, s: Slot, now: int, sick: bool): Slot {
    match s.saved
    case None => s
    case Some(r) =>
      if id in env.locked || r.phase == Deleting then s
      else if r.phase == Creating then
        if now - r.createdAt < CREATE_LIMIT then s
          else s.(saved := Some(WithPhase(r, Failed, "provisioning timeout", now)))
      else if sick then SeenSlot(env, s, now)
      else Slot(s.saved, None, None)
  }

  ghost predicate Within<T>(small: map<string, T>, big: map<string, T>) {
    forall k :: k in small ==> k in big && small[k] == big[k]
  }

  ghost predicate Shrunk(w: World, start: World) {
    Within(w.containers, start.containers) && Within(w.runtime, start.runtime) && w.store.Keys <= start.store.Keys
  }

  /** Records are kept under their own id. */
  ghost predicate Keyed(w: World) {
    forall id :: id in w.store ==> w.store[id].id == id
  }

  lemma SeenOwn(env: Env, w: World, r: Record, now: int)
    requires r.id in w.store && w.store[r.id] == r
    ensures SlotOf(SeenUnhealthy(env, w, r, now), r.id) == SeenSlot(env, SlotOf(w, r.id), now)
  {
    hide Stopped, CleanedTable, DeleteTable, ContainerIds, GoneNet;
  }

  lemma SeenOther(env: Env, w: World, r: Record, now: int, x: string)
    requires x != r.id
    ensures SlotOf(SeenUnhealthy(env, w, r, now), x) == SlotOf(w, x)
  {
    hide Stopped, CleanedTable, DeleteTable, ContainerIds, GoneNet, Due;
  }

  lemma VisitOwn(env: Env, w: World, r: Record, listed: set<string>, now: int)
    requires r.id in w.store && w.store[r.id] == r
    ensures SlotOf(Visit(env, w, r, listed, now), r.id)
              == OwnSlot(env, r.id, SlotOf(w, r.id), now, r.id !in listed || !AllRun(w, r))
  {
    hide AllRun, SeenUnhealthy, SeenSlot, WithPhase;
    SeenOwn(env, w, r, now);
  }

  lemma VisitOthers(env: Env, w: World, r: Record, listed: set<string>, now: int, id: string)
    requires id != r.id
    ensures SlotOf(Visit(env, w, r, listed, now), id) == SlotOf(w, id)
  {
    hide AllRun, SeenUnhealthy, WithPhase, SlotOf;
    SeenOther(env, w, r, now, id);
    RecordsApart(w, r.id, WithPhase(r, Failed, "provisioning timeout", now), id);
  }

  lemma RecordsApart(w: World, id: string, r: Record, x: string)
    requires x != id
    ensures SlotOf(w.(store := w.store[id := r]), x) == SlotOf(w, x) == SlotOf(w.(watch := Forget(w.watch, id)), x)
  {
  }

  lemma VisitShrinks(env: Env, w: World, r: Record, listed: set<string>, now: int)
    requires r.id in w.store
    ensures Shrunk(Visit(env, w, r, listed, now), w)
  {
    hide TakenDown, Visit, Within;
    VisitEither(env, w, r, listed, now);
    TakenDownShrinks(env, w, r.id, ContainerIds(r), r.ip, r.ports);
    SameWithin(w.containers);
    SameWithin(w.runtime);
  }

  lemma TakenDownShrinks(env: Env, w: World, id: string, cs: set<string>, ip: Option<nat>, ports: seq<PortMapping>)
    ensures Shrunk(TakenDown(env, w, id, cs, ip, ports), w)
  {
    hide CleanedTable, DeleteTable;
  }

  lemma SameWithin<T>(m: map<string, T>)
    ensures Within(m, m)
  {
  }

  /** What the round lists is what is saved, each sandbox once. */
  ghost predicate ListsSaved(list: seq<Record>, w: World) {
    && (forall i :: 0 <= i < |list| ==> list[i].id in w.store && w.store[list[i].id] == list[i])
    && (forall id :: id in w.store ==> id in IdsOf(list))
    && (forall i, j :: 0 <= i < j < |list| ==> list[i].id != list[j].id)
  }

  /** The slot is as the sandbox's own visit leaves it; a sandbox that was sick to begin with is found
      sick, and one that is found sick stays so. */
  ghost predicate Passed(env: Env, start: World, w: World, id: string, now: int) {
    || (SlotOf(w, id) == OwnSlot(env, id, SlotOf(start, id), now, true) && (id in w.store ==> Sick(w, id)))
    || (SlotOf(w, id) == OwnSlot(env, id, SlotOf(start, id), now, false) && !Sick(start, id))
  }

  lemma ShrunkAllRun(w: World, start: World, r: Record)
    requires Within(w.containers, start.containers) && AllRun(w, r)
    ensures AllRun(start, r)
  {
  }

  /** After the visits to a part of the list: those visited are passed, the others are as they were. */
  lemma {:induction false} VisitAllSlots(env: Env, w: World, list: seq<Record>, now: int, n: nat)
    requires Keyed(w) && ListsSaved(list, w) && n <= |list|
    ensures var v := VisitAll(env, w, list[..n], w.runtime.Keys, now);
      && Shrunk(v, w)
      && (forall i :: 0 <= i < n ==> Passed(env, w, v, list[i].id, now))
      && (forall i :: n <= i < |list| ==> SlotOf(v, list[i].id) == SlotOf(w, list[i].id))
  {
    hide AllRun, OwnSlot, Visit, Passed, SlotOf;
    if n > 0 {
      VisitAllSlots(env, w, list, now, n - 1);
      var before := VisitAll(env, w, list[..n - 1], w.runtime.Keys, now);
      var r, listed := list[n - 1], w.runtime.Keys;
      assert list[..n][..n - 1] == list[..n - 1];
      var v := Visit(env, before, r, listed, now);
      VisitListed(env, w, before, r, now);
      forall i | 0 <= i < |list| && i != n - 1
        ensures SlotOf(v, list[i].id) == SlotOf(before, list[i].id)
        ensures i < n - 1 ==> Passed(env, w, v, list[i].id, now)
      {
        VisitOthers(env, before, r, listed, now, list[i].id);
        if i < n - 1 {
          PassedStays(env, w, before, v, list[i].id, now);
        }
      }
    } else {
      assert list[..0] == [];
    }
  }

  lemma PassedStays(env: Env, start: World, w: World, v: World, id: string, now: int)
    requires Passed(env, start, w, id, now) && Shrunk(v, w) && SlotOf(v, id) == SlotOf(w, id)
    ensures Passed(env, start, v, id, now)
  {
  }

  lemma VisitListed(env: Env, start: World, w: World, r: Record, now: int)
    requires Shrunk(w, start) && r.id in start.store && start.store[r.id] == r && SlotOf(w, r.id) == SlotOf(start, r.id)
    ensures var v := Visit(env, w, r, start.runtime.Keys, now);
      Shrunk(v, start) && Shrunk(v, w) && Passed(env, start, v, r.id, now)
  {
    hide OwnSlot, AllRun, Visit;
    var v := Visit(env, w, r, start.runtime.Keys, now);
    VisitShrinks(env, w, r, start.runtime.Keys, now);
    VisitOwn(env, w, r, start.runtime.Keys, now);
    if AllRun(w, r) {
      ShrunkAllRun(w, start, r);
    }
    OwnSlotRecord(env, r.id, SlotOf(w, r.id), now, r.id !in start.runtime.Keys || !AllRun(w, r));
    if r.id in v.store && AllRun(v, v.store[r.id]) {
      ShrunkAllRun(v, w, v.store[r.id]);
      SameContainers(w, r, v.store[r.id]);
    }
  }

  predicate SameParts(a: Record, b: Record) {
    a.id == b.id && a.containers == b.containers && a.ip == b.ip && a.ports == b.ports
  }

  lemma SameContainers(w: World, r: Record, other: Record)
    requires r.containers == other.containers
    ensures AllRun(w, r) == AllRun(w, other)
  {
  }

  /** A visit changes no more of a record than its phase, error and time. */
  lemma OwnSlotRecord(env: Env, id: string, s: Slot, now: int, sick: bool)
    ensures var after := OwnSlot(env, id, s, now, sick).saved;
      after.Some? ==> s.saved.Some? && SameParts(after.value, s.saved.value)
  {
  }

  /** A visit takes the sandbox down or changes no more than its record and what was seen of it. */
  lemma VisitEither(env: Env, w: World, r: Record, listed: set<string>, now: int)
    requires r.id in w.store
    ensures var v := Visit(env, w, r, listed, now);
      || v == TakenDown(env, w, r.id, ContainerIds(r), r.ip, r.ports).(watch := v.watch)
      || (v == w.(store := v.store, watch := v.watch) && v.store.Keys == w.store.Keys)
  {
    hide AllRun, TakenDown, SeenUnhealthy, WithPhase;
    SeenEither(env, w, r, now);
    SameKeys(w.store, r.id, WithPhase(r, Failed, "provisioning timeout", now));
  }

  lemma SameKeys(store: map<string, Record>, id: string, r: Record)
    requires id in store
    ensures store[id := r].Keys == store.Keys
  {
  }

  lemma SeenEither(env: Env, w: World, r: Record, now: int)
    ensures var v := SeenUnhealthy(env, w, r, now);
      v == TakenDown(env, w, r.id, ContainerIds(r), r.ip, r.ports).(watch := v.watch) || v == w.(watch := v.watch)
  {
    hide TakenDown, Observe, Due, Forget;
  }

  /** The last visit to a part of the list finds its sandbox as it was listed. */
  lemma LastVisit(env: Env, w: World, list: seq<Record>, now: int, n: nat)
    requires Keyed(w) && ListsSaved(list, w) && 0 < n <= |list|
    ensures var before, r := VisitAll(env, w, list[..n - 1], w.runtime.Keys, now), list[n - 1];
      && VisitAll(env, w, list[..n], w.runtime.Keys, now) == Visit(env, before, r, w.runtime.Keys, now)
      && r.id in w.store && w.store[r.id] == r && r.id in before.store && before.store[r.id] == r && Shrunk(before, w)
  {
    hide Visit, Passed, OwnSlot, Keyed;
    VisitAllSlots(env, w, list, now, n - 1);
    assert list[..n][..n - 1] == list[..n - 1];
    var before, r := VisitAll(env, w, list[..n - 1], w.runtime.Keys, now), list[n - 1];
    assert SlotOf(before, r.id) == SlotOf(w, r.id) && SlotOf(before, r.id).saved == Some(r);
  }

  // Orphans.

  lemma OrphanShrinks(env: Env, w: World, id: string, saved: set<string>)
    ensures Shrunk(VisitOrphan(env, w, id, saved), w)
    ensures w.store.Keys <= saved ==> VisitOrphan(env, w, id, saved).store == w.store
    ensures VisitOrphan(env, w, id, saved).watch == w.watch
  {
  }

  lemma {:induction false} OrphansShrink(env: Env, w: World, ids: seq<string>, saved: set<string>)
    requires w.store.Keys <= saved
    ensures var v := VisitOrphans(env, w, ids, saved); Shrunk(v, w) && v.store == w.store && v.watch == w.watch
  {
    hide VisitOrphan;
    if ids != [] {
      OrphansShrink(env, w, ids[..|ids| - 1], saved);
      OrphanShrinks(env, VisitOrphans(env, w, ids[..|ids| - 1], saved), ids[|ids| - 1], saved);
    }
  }

  /** An orphan there is still something to do about. */
  predicate ActiveOrphan(env: Env, w: World, id: string) {
    env.listable && id in w.runtime && id !in env.locked && id !in w.store
      && (Family(w, id) != {} || w.runtime[id] != None)
  }

  /** Each visited orphan that had something left has lost it: its runtime entry or its containers. */
  lemma {:induction false} OrphanVisited(env: Env, w: World, ids: seq<string>, saved: set<string>, id: string)
    requires env.listable && w.store.Keys <= saved && id in ids && id !in saved && id !in env.locked && id in w.runtime
    requires Family(w, id) != {} || w.runtime[id] != None
    ensures var v := VisitOrphans(env, w, ids, saved); id !in v.runtime || v.containers.Keys != w.containers.Keys
  {
    hide VisitOrphan, Family;
    var init, last := ids[..|ids| - 1], ids[|ids| - 1];
    var before := VisitOrphans(env, w, init, saved);
    OrphansShrink(env, w, init, saved);
    OrphanShrinks(env, before, last, saved);
    if id in init {
      OrphanVisited(env, w, init, saved, id);
    } else if id in before.runtime && before.containers.Keys == w.containers.Keys {
      assert last == id;
      SameFamily(w, before, id);
      OrphanGoes(env, before, id, saved);
    }
  }

  lemma SameFamily(w: World, v: World, id: string)
    requires v.containers.Keys == w.containers.Keys
    ensures Family(v, id) == Family(w, id)
  {
  }

  lemma OrphanGoes(env: Env, w: World, id: string, saved: set<string>)
    requires env.listable && id !in saved && id !in env.locked && (Family(w, id) != {} || Address(w, id) != None)
    ensures id !in VisitOrphan(env, w, id, saved).runtime
  {
  }

  // The round.

  ghost predicate RoundInputs(list: seq<Record>, ids: seq<string>, w: World) {
    Keyed(w) && ListsSaved(list, w) && Visits(ids, w.runtime.Keys)
  }

  lemma RuntimeListed(ids: seq<string>, w: World)
    requires Visits(ids, w.runtime.Keys)
    ensures SetOf(ids) == w.runtime.Keys
  {
  }

  lemma RoundSlots(env: Env, w: World, list: seq<Record>, ids: seq<string>, now: int)
    requires RoundInputs(list, ids, w)
    ensures var v := Round(env, w, list, ids, now);
      && Shrunk(v, w)
      && (forall id :: id in w.store ==> Passed(env, w, v, id, now))
      && (forall id :: id !in w.store ==> SlotOf(v, id).saved == None)
  {
    hide VisitAll, VisitOrphans, AllRun, OwnSlot, SweptTable;
    RuntimeListed(ids, w);
    assert list[..|list|] == list;
    VisitAllSlots(env, w, list, now, |list|);
    var visited := VisitAll(env, w, list, w.runtime.Keys, now);
    OrphansShrink(env, visited, ids, IdsOf(list));
    var v := Round(env, w, list, ids, now);
    forall id | id in w.store ensures Passed(env, w, v, id, now) {
      assert id in IdsOf(list);
      var i :| 0 <= i < |list| && list[i].id == id;
      assert Passed(env, w, visited, list[i].id, now);
      PassedStays(env, w, visited, v, id, now);
    }
  }

  // The measure.

  function Full(env: Env): nat {
    Max(2, env.limits.hits) + Max(0, env.limits.grace) + 1
  }

  /** How many more rounds one sandbox can keep being worked on. */
  function Rank(env: Env, id: string, s: Slot, now: int, sick: bool): nat {
    match s.saved
    case None => 0
    case Some(r) =>
      if id in env.locked || r.phase == Deleting then 0
      else if r.phase == Creating then Full(env) + 1 + Max(0, CREATE_LIMIT - (now - r.createdAt))
      else if !sick || s.since.None? || s.hits.None? then Full(env)
      else Max(0, Max(2, env.limits.hits) - s.hits.value) + Max(0, s.since.value + env.limits.grace - now) + 1
  }

  /** Sightings are counted from one and are not in the future. */
  predicate WellSeen(s: Slot, now: int) {
    (s.since.Some? <==> s.hits.Some?) && (s.since.Some? && s.hits.Some? ==> s.since.value <= now && s.hits.value >= 1)
  }

  /** There is something to do about a sandbox. */
  predicate Unsettled(env: Env, id: string, s: Slot, sick: bool) {
    s.saved.Some? && id !in env.locked && s.saved.value.phase != Deleting && (s.saved.value.phase == Creating || sick)
  }

  /** A visit never raises the rank, and lowers it while there is something to do. */
  lemma RankDrops(env: Env, id: string, s: Slot, last: int, now: int, sick: bool, found: bool, after: bool)
    requires WellSeen(s, last) && last < now && (sick ==> found)
    requires var s' := OwnSlot(env, id, s, now, found); s'.saved.Some? && found ==> after
    ensures var s' := OwnSlot(env, id, s, now, found);
      && WellSeen(s', now)
      && Rank(env, id, s', now, after) <= Rank(env, id, s, last, sick)
      && (Unsettled(env, id, s, sick) ==> Rank(env, id, s', now, after) < Rank(env, id, s, last, sick))
  {
  }

  function Sum(env: Env, w: World, ids: seq<string>, now: int): nat {
    if ids == [] then 0
    else
      var id := ids[|ids| - 1];
      Sum(env, w, ids[..|ids| - 1], now) + Rank(env, id, SlotOf(w, id), now, Sick(w, id))
  }

  /** The measure: the ranks of the sandboxes in `all`, the runtime entries and the containers. */
  function Potential(env: Env, w: World, all: seq<string>, now: int): nat {
    Sum(env, w, all, now) + |w.runtime| + |w.containers|
  }

  ghost predicate WellWatched(w: World, now: int) {
    forall id :: id in w.store ==> WellSeen(SlotOf(w, id), now)
  }

  lemma {:induction false} SumDrops(env: Env, w: World, v: World, ids: seq<string>, last: int, now: int)
    requires forall i :: 0 <= i < |ids| ==>
               Rank(env, ids[i], SlotOf(v, ids[i]), now, Sick(v, ids[i]))
                 <= Rank(env, ids[i], SlotOf(w, ids[i]), last, Sick(w, ids[i]))
    ensures Sum(env, v, ids, now) <= Sum(env, w, ids, last)
    ensures (exists i :: 0 <= i < |ids| &&
               Rank(env, ids[i], SlotOf(v, ids[i]), now, Sick(v, ids[i]))
                 < Rank(env, ids[i], SlotOf(w, ids[i]), last, Sick(w, ids[i])))
            ==> Sum(env, v, ids, now) < Sum(env, w, ids, last)
  {
    hide Rank, SlotOf, Sick;
    if ids != [] {
      var init := ids[..|ids| - 1];
      assert forall i :: 0 <= i < |init| ==> init[i] == ids[i];
      SumDrops(env, w, v, init, last, now);
    }
  }

  lemma SmallerMap<T>(small: map<string, T>, big: map<string, T>)
    requires Within(small, big)
    ensures |small| <= |big|
    ensures small.Keys != big.Keys ==> |small| < |big|
  {
    assert small.Keys <= big.Keys;
    SmallerSet(small.Keys, big.Keys);
    assert |small.Keys| == |small| && |big.Keys| == |big|;
  }

  lemma SmallerSet(small: set<string>, big: set<string>)
    requires small <= big
    ensures |small| <= |big|
    ensures small != big ==> |small| < |big|
  {
    assert big == small + (big - small);
    assert |big| == |small| + |big - small|;
  }

  /** Nothing is left to do: each saved sandbox is locked, being deleted, or has left the creating phase
      and has a runtime with all its containers running; no orphan has containers or an address. */
  ghost predicate Quiet(env: Env, w: World) {
    && (forall id :: id in w.store ==> !Unsettled(env, id, SlotOf(w, id), Sick(w, id)))
    && (forall id :: !ActiveOrphan(env, w, id))
  }

  lemma OneRank(env: Env, w: World, v: World, id: string, last: int, now: int)
    requires (id in w.store ==> WellSeen(SlotOf(w, id), last)) && last < now
    requires if id in w.store then Passed(env, w, v, id, now) else SlotOf(v, id).saved == None
    ensures Rank(env, id, SlotOf(v, id), now, Sick(v, id)) <= Rank(env, id, SlotOf(w, id), last, Sick(w, id))
    ensures id in w.store && Unsettled(env, id, SlotOf(w, id), Sick(w, id)) ==>
              Rank(env, id, SlotOf(v, id), now, Sick(v, id)) < Rank(env, id, SlotOf(w, id), last, Sick(w, id))
    ensures id in w.store ==> WellSeen(SlotOf(v, id), now)
  {
    hide OwnSlot, AllRun;
    if id in w.store {
      var s := SlotOf(w, id);
      if SlotOf(v, id) == OwnSlot(env, id, s, now, true) && (id in v.store ==> Sick(v, id)) {
        RankDrops(env, id, s, last, now, Sick(w, id), true, Sick(v, id));
      } else {
        RankDrops(env, id, s, last, now, Sick(w, id), false, Sick(v, id));
      }
    }
  }

  /** A round never raises the measure, and lowers it unless nothing is left to do. */
  lemma PotentialDrops(env: Env, w: World, list: seq<Record>, ids: seq<string>, all: seq<string>, last: int, now: int)
    requires RoundInputs(list, ids, w) && WellWatched(w, last) && last < now
    requires forall id :: id in w.store ==> id in all
    ensures var v := Round(env, w, list, ids, now);
      && Potential(env, v, all, now) <= Potential(env, w, all, last)
      && (!Quiet(env, w) ==> Potential(env, v, all, now) < Potential(env, w, all, last))
  {
    hide Rank, SlotOf, Sick, Passed, Unsettled, Round, ListsSaved, ActiveOrphan;
    var v := Round(env, w, list, ids, now);
    RoundSlots(env, w, list, ids, now);
    forall i | 0 <= i < |all|
      ensures Rank(env, all[i], SlotOf(v, all[i]), now, Sick(v, all[i]))
                <= Rank(env, all[i], SlotOf(w, all[i]), last, Sick(w, all[i]))
      ensures all[i] in w.store && Unsettled(env, all[i], SlotOf(w, all[i]), Sick(w, all[i])) ==>
                Rank(env, all[i], SlotOf(v, all[i]), now, Sick(v, all[i]))
                  < Rank(env, all[i], SlotOf(w, all[i]), last, Sick(w, all[i]))
    {
      OneRank(env, w, v, all[i], last, now);
    }
    SumDrops(env, w, v, all, last, now);
    SmallerMap(v.runtime, w.runtime);
    SmallerMap(v.containers, w.containers);
    if id :| id in w.store && Unsettled(env, id, SlotOf(w, id), Sick(w, id)) {
      var i :| 0 <= i < |all| && all[i] == id;
    } else if !Quiet(env, w) {
      var id :| ActiveOrphan(env, w, id);
      OrphanWorkedOn(env, w, list, ids, now, id);
    }
  }

  lemma OrphanWorkedOn(env: Env, w: World, list: seq<Record>, ids: seq<string>, now: int, id: string)
    requires RoundInputs(list, ids, w) && ActiveOrphan(env, w, id)
    ensures var v := Round(env, w, list, ids, now);
      v.runtime.Keys != w.runtime.Keys || v.containers.Keys != w.containers.Keys
  {
    hide VisitAll, VisitOrphans, Passed, SweptTable, Family;
    RuntimeListed(ids, w);
    assert list[..|list|] == list;
    VisitAllSlots(env, w, list, now, |list|);
    var visited := VisitAll(env, w, list, w.runtime.Keys, now);
    OrphansShrink(env, visited, ids, IdsOf(list));
    if id in visited.runtime && visited.containers.Keys == w.containers.Keys {
      SameFamily(w, visited, id);
      OrphanVisited(env, visited, ids, IdsOf(list), id);
    }
  }

  // Rounds until nothing is left to do.

  lemma RoundKeepsWell(env: Env, w: World, list: seq<Record>, ids: seq<string>, last: int, now: int)
    requires RoundInputs(list, ids, w) && WellWatched(w, last) && last < now
    ensures var v := Round(env, w, list, ids, now); Keyed(v) && WellWatched(v, now) && Shrunk(v, w)
  {
    hide Rank, Sick, Round, ListsSaved, OwnSlot, Passed;
    var v := Round(env, w, list, ids, now);
    RoundSlots(env, w, list, ids, now);
    forall id | id in v.store ensures WellSeen(SlotOf(v, id), now) && v.store[id].id == id {
      OneRank(env, w, v, id, last, now);
      PassedRecord(env, w, v, id, now);
    }
  }

  lemma PassedRecord(env: Env, w: World, v: World, id: string, now: int)
    requires Passed(env, w, v, id, now) && id in w.store && id in v.store
    ensures v.store[id].id == w.store[id].id
  {
  }

  /** One round of a run: when it happens and what it lists. */
  datatype Tick = Tick(now: int, list: seq<Record>, ids: seq<string>)

  /** Each round lists what is there, later than the round before. */
  ghost predicate LegalTicks(env: Env, w: World, last: int, ticks: seq<Tick>)
    decreases |ticks|
  {
    ticks != [] ==>
      var t := ticks[0];
      RoundInputs(t.list, t.ids, w) && last < t.now
        && LegalTicks(env, Round(env, w, t.list, t.ids, t.now), t.now, ticks[1..])
  }

  function AfterTicks(env: Env, w: World, ticks: seq<Tick>): World
    decreases |ticks|
  {
    if ticks == [] then w
    else AfterTicks(env, Round(env, w, ticks[0].list, ticks[0].ids, ticks[0].now), ticks[1..])
  }

  /** All that a round with nothing left to do leaves alone. */
  predicate SameState(v: World, w: World) {
    v.store == w.store && v.containers == w.containers && v.runtime == w.runtime && v.filter == w.filter
  }

  lemma QuietVisit(env: Env, w: World, r: Record, listed: set<string>, now: int)
    requires r.id in w.store && w.store[r.id] == r && listed == w.runtime.Keys
    requires !Unsettled(env, r.id, SlotOf(w, r.id), Sick(w, r.id))
    ensures SameState(Visit(env, w, r, listed, now), w)
  {
  }

  lemma SameSettled(env: Env, v: World, w: World)
    requires SameState(v, w) && Quiet(env, w)
    ensures Quiet(env, v)
  {
    forall id
      ensures Sick(v, id) == Sick(w, id) && SlotOf(v, id).saved == SlotOf(w, id).saved && Family(v, id) == Family(w, id)
    {
    }
    forall id ensures !ActiveOrphan(env, v, id) {
      assert !ActiveOrphan(env, w, id);
    }
    forall id | id in v.store ensures !Unsettled(env, id, SlotOf(v, id), Sick(v, id)) {
      assert !Unsettled(env, id, SlotOf(w, id), Sick(w, id));
    }
  }

  lemma {:induction false} QuietVisits(env: Env, w: World, list: seq<Record>, now: int)
    requires Quiet(env, w) && forall i :: 0 <= i < |list| ==> list[i].id in w.store && w.store[list[i].id] == list[i]
    ensures SameState(VisitAll(env, w, list, w.runtime.Keys, now), w)
  {
    hide Visit, Quiet, Unsettled, Sick;
    if list != [] {
      var init, r := list[..|list| - 1], list[|list| - 1];
      QuietVisits(env, w, init, now);
      var before := VisitAll(env, w, init, w.runtime.Keys, now);
      SameSettled(env, before, w);
      assert !Unsettled(env, r.id, SlotOf(before, r.id), Sick(before, r.id)) by { QuietAt(env, before, r.id); }
      QuietVisit(env, before, r, w.runtime.Keys, now);
    }
  }

  lemma QuietAt(env: Env, w: World, id: string)
    requires Quiet(env, w) && id in w.store
    ensures !Unsettled(env, id, SlotOf(w, id), Sick(w, id))
  {
  }

  lemma {:induction false} QuietOrphans(env: Env, w: World, ids: seq<string>, saved: set<string>)
    requires Quiet(env, w) && w.store.Keys <= saved && forall i :: 0 <= i < |ids| ==> ids[i] in w.runtime
    ensures SameState(VisitOrphans(env, w, ids, saved), w)
  {
    hide Unsettled, Sick, Family, TakenDown, CleanedTable, DeleteTable;
    if ids != [] {
      var init, id := ids[..|ids| - 1], ids[|ids| - 1];
      QuietOrphans(env, w, init, saved);
      var before := VisitOrphans(env, w, init, saved);
      SameSettled(env, before, w);
      assert !ActiveOrphan(env, before, id);
    }
  }

  /** Once nothing is left to do, rounds change no saved state, no container, no runtime entry and no
      filter rule. */
  lemma QuietRound(env: Env, w: World, list: seq<Record>, ids: seq<string>, now: int)
    requires RoundInputs(list, ids, w) && Quiet(env, w)
    ensures var v := Round(env, w, list, ids, now); SameState(v, w) && Quiet(env, v)
  {
    hide VisitAll, VisitOrphans, SweptTable, Quiet;
    RuntimeListed(ids, w);
    QuietVisits(env, w, list, now);
    var visited := VisitAll(env, w, list, w.runtime.Keys, now);
    SameSettled(env, visited, w);
    QuietOrphans(env, visited, ids, IdsOf(list));
    SameSettled(env, Round(env, w, list, ids, now), w);
  }

  lemma {:induction false} Settles(env: Env, w: World, all: seq<string>, last: int, ticks: seq<Tick>)
    requires Keyed(w) && WellWatched(w, last) && LegalTicks(env, w, last, ticks)
    requires forall id :: id in w.store ==> id in all
    requires |ticks| >= Potential(env, w, all, last) || Quiet(env, w)
    ensures Quiet(env, AfterTicks(env, w, ticks))
    decreases |ticks|
  {
    hide Round, RoundInputs, Quiet, Potential, WellWatched, Keyed;
    if ticks != [] {
      var t := ticks[0];
      var next := Round(env, w, t.list, t.ids, t.now);
      PotentialDrops(env, w, t.list, t.ids, all, last, t.now);
      RoundKeepsWell(env, w, t.list, t.ids, last, t.now);
      if Quiet(env, w) {
        QuietRound(env, w, t.list, t.ids, t.now);
      }
      Settles(env, next, all, t.now, ticks[1..]);
    } else if !Quiet(env, w) {
      assert Potential(env, w, all, last) == 0;
      NothingLeft(env, w, all, last);
    }
  }

  /** A measure of zero means that nothing is left to do. */
  lemma NothingLeft(env: Env, w: World, all: seq<string>, last: int)
    requires Potential(env, w, all, last) == 0 && forall id :: id in w.store ==> id in all
    ensures Quiet(env, w)
  {
    forall id | id in w.store ensures !Unsettled(env, id, SlotOf(w, id), Sick(w, id)) {
      var i :| 0 <= i < |all| && all[i] == id;
      SumCovers(env, w, all, last, i);
    }
    assert w.runtime == map[];
  }

  lemma {:induction false} SumCovers(env: Env, w: World, ids: seq<string>, now: int, i: nat)
    requires i < |ids|
    ensures Rank(env, ids[i], SlotOf(w, ids[i]), now, Sick(w, ids[i])) <= Sum(env, w, ids, now)
  {
    hide Rank, SlotOf, Sick;
    if i < |ids| - 1 {
      SumCovers(env, w, ids[..|ids| - 1], now, i);
    }
  }

  // The bound in the size of the world.

  function Bound(env: Env, w: World): nat {
    |w.store| * (Full(env) + 1 + CREATE_LIMIT) + |w.runtime| + |w.containers|
  }

  lemma RankBounded(env: Env, w: World, id: string, now: int)
    requires WellWatched(w, now) && forall x :: x in w.store ==> w.store[x].createdAt <= now
    ensures Rank(env, id, SlotOf(w, id), now, Sick(w, id)) <= Full(env) + 1 + CREATE_LIMIT
  {
  }

  lemma {:induction false} SumBounded(env: Env, w: World, ids: seq<string>, now: int)
    requires WellWatched(w, now) && forall x :: x in w.store ==> w.store[x].createdAt <= now
    ensures Sum(env, w, ids, now) <= |ids| * (Full(env) + 1 + CREATE_LIMIT)
  {
    hide Sick, Rank, Full, WellWatched, SlotOf;
    if ids != [] {
      SumBounded(env, w, ids[..|ids| - 1], now);
      RankBounded(env, w, ids[|ids| - 1], now);
      var n, most := |ids| - 1, Full(env) + 1 + CREATE_LIMIT;
      assert |ids| * most == n * most + most;
    }
  }

  lemma {:induction false} VisitLength(order: seq<string>, keys: set<string>)
    requires Visits(order, keys)
    ensures |order| == |keys|
  {
    if order == [] {
      assert keys == {};
    } else {
      var last := order[|order| - 1];
      VisitLength(order[..|order| - 1], keys - {last});
    }
  }

  /** While nothing but the rounds acts and the clock advances, after a number of rounds bounded in the
      sizes of store, runtime and containers nothing is left to do, and it stays so. */
  lemma RoundsSettle(env: Env, w: World, last: int, ticks: seq<Tick>)
    requires Keyed(w) && WellWatched(w, last) && LegalTicks(env, w, last, ticks)
    requires forall id :: id in w.store ==> w.store[id].createdAt <= last
    requires |ticks| >= Bound(env, w)
    ensures Quiet(env, AfterTicks(env, w, ticks))
  {
    hide Quiet, AfterTicks, LegalTicks;
    var all := SomeVisit(w.store.Keys);
    VisitLength(all, w.store.Keys);
    SumBounded(env, w, all, last);
    Settles(env, w, all, last, ticks);
  }
}
