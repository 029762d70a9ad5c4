/** What reconcile rounds remove and what they leave alone when sandbox ids can be told apart. */
module RoundEffects {
  import opened Rules
  import opened Nat
  import opened Requests
  import opened Sandboxes
  import opened Debounce
  import opened Reconcile
  import opened Convergence

  /** No id followed by a dash begins another one followed by a dash. */
  ghost predicate Apart(ids: set<string>) {
    forall a, b :: a in ids && b in ids && a != b ==> !((a + "-") <= (b + "-"))
  }

  /** The containers of each saved sandbox are those planned at its creation. */
  ghost predicate OwnContainers(w: World) {
    forall id, name :: id in w.store && name in w.store[id].containers ==>
      w.store[id].containers[name].id == ContainerId(id, name)
  }

  ghost predicate Orderly(w: World) {
    Keyed(w) && OwnContainers(w) && Apart(w.store.Keys + w.runtime.Keys)
  }

  /** The runtime entry and the containers of one sandbox are as they were. */
  ghost predicate Untouched(v: World, w: World, id: string) {
    && (id in v.runtime <==> id in w.runtime)
    && (forall c :: c in w.containers && InFamily(id, c) ==> c in v.containers && v.containers[c] == w.containers[c])
  }

  /** Containers of one sandbox that is taken down belong to no other. */
  lemma OthersContainers(env: Env, w: World, other: string, cs: set<string>, ip: Option<nat>, ports: seq<PortMapping>,
                         watch: Watch, id: string)
    requires other != id && !((other + "-") <= (id + "-")) && !((id + "-") <= (other + "-"))
    requires forall c :: c in cs ==> InFamily(other, c)
    ensures Untouched(TakenDown(env, w, other, cs, ip, ports).(watch := watch), w, id)
  {
  }

  lemma FamilyOf(w: World, id: string)
    requires OwnContainers(w) && id in w.store
    ensures forall c :: c in ContainerIds(w.store[id]) ==> InFamily(id, c)
  {
  }

  lemma VisitLeavesOthers(env: Env, start: World, w: World, r: Record, now: int, id: string)
    requires Orderly(start) && r.id in start.store && start.store[r.id] == r && id in start.store && id != r.id
    ensures Untouched(Visit(env, w, r, start.runtime.Keys, now), w, id)
  {
    hide AllRun, SeenUnhealthy, WithPhase, OwnContainers, Apart;
    SightingLeavesOthers(env, start, w, r, now, id);
  }

  lemma SightingLeavesOthers(env: Env, start: World, w: World, r: Record, now: int, id: string)
    requires Orderly(start) && r.id in start.store && start.store[r.id] == r && id in start.store && id != r.id
    ensures Untouched(SeenUnhealthy(env, w, r, now), w, id)
  {
    hide TakenDown, ContainerIds, Observe, Due, Keyed;
    var after := Observe(w.watch, r.id, now);
    assert r.id in start.store.Keys + start.runtime.Keys && id in start.store.Keys + start.runtime.Keys;
    FamilyOf(start, r.id);
    OthersContainers(env, w, r.id, ContainerIds(r), r.ip, r.ports, Forget(after, r.id), id);
  }

  lemma SameAllRun(v: World, w: World, start: World, id: string)
    requires OwnContainers(start) && id in start.store && Untouched(v, w, id) && AllRun(w, start.store[id])
    ensures AllRun(v, start.store[id])
  {
  }

  /** What the rounds have no reason to remove. */
  predicate Spared(env: Env, w: World, id: string) {
    id in w.store && (id in env.locked || w.store[id].phase == Deleting || !Sick(w, id))
  }

  lemma SparedVisit(env: Env, start: World, w: World, id: string, now: int)
    requires Keyed(start) && OwnContainers(start) && Spared(env, start, id)
    requires SlotOf(w, id) == SlotOf(start, id) && Untouched(w, start, id)
    ensures var v := Visit(env, w, start.store[id], start.runtime.Keys, now);
      Untouched(v, w, id) && SlotOf(v, id) == OwnSlot(env, id, SlotOf(start, id), now, Sick(start, id))
  {
    hide AllRun, SeenUnhealthy, SeenSlot;
    if AllRun(start, start.store[id]) {
      SameAllRun(w, start, start, id);
    }
    VisitOwn(env, w, start.store[id], start.runtime.Keys, now);
  }

  lemma UntouchedTrans(a: World, b: World, c: World, id: string)
    requires Untouched(a, b, id) && Untouched(b, c, id)
    ensures Untouched(a, c, id)
  {
  }

  lemma {:induction false} VisitsLeave(env: Env, w: World, list: seq<Record>, now: int, n: nat, id: string)
    requires Orderly(w) && ListsSaved(list, w) && n <= |list| && Spared(env, w, id)
    ensures var v := VisitAll(env, w, list[..n], w.runtime.Keys, now);
      && Untouched(v, w, id)
      && ((exists i :: 0 <= i < n && list[i].id == id) ==>
         SlotOf(v, id) == OwnSlot(env, id, SlotOf(w, id), now, Sick(w, id)))
  {
    hide Visit, AllRun, Sick, OwnContainers, Apart, OwnSlot, SlotOf, Passed;
    if n == 0 {
      assert list[..0] == [];
    } else {
      VisitsLeave(env, w, list, now, n - 1, id);
      VisitAllSlots(env, w, list, now, n - 1);
      assert list[..n][..n - 1] == list[..n - 1];
      var before, r := VisitAll(env, w, list[..n - 1], w.runtime.Keys, now), list[n - 1];
      var v := Visit(env, before, r, w.runtime.Keys, now);
      if r.id == id {
        SparedVisit(env, w, before, id, now);
      } else {
        VisitLeavesOthers(env, w, before, r, now, id);
        VisitOthers(env, before, r, w.runtime.Keys, now, id);
      }
      UntouchedTrans(v, before, w, id);
    }
  }

  lemma OrphanLeavesOthers(env: Env, w: World, other: string, saved: set<string>, id: string)
    requires id in saved && !((other + "-") <= (id + "-")) && !((id + "-") <= (other + "-"))
    ensures Untouched(VisitOrphan(env, w, other, saved), w, id)
  {
  }

  lemma {:induction false} OrphansLeave(env: Env, w: World, ids: seq<string>, saved: set<string>, id: string)
    requires id in saved
    requires forall i :: 0 <= i < |ids| && ids[i] !in saved ==>
               !((ids[i] + "-") <= (id + "-")) && !((id + "-") <= (ids[i] + "-"))
    ensures Untouched(VisitOrphans(env, w, ids, saved), w, id)
  {
    hide VisitOrphan;
    if ids != [] {
      var init, last := ids[..|ids| - 1], ids[|ids| - 1];
      OrphansLeave(env, w, init, saved, id);
      var before := VisitOrphans(env, w, init, saved);
      if last in saved {
        SavedIsNoOrphan(env, before, last, saved);
      } else {
        OrphanLeavesOthers(env, before, last, saved, id);
      }
      UntouchedTrans(VisitOrphans(env, w, ids, saved), before, w, id);
    }
  }

  lemma SavedIsNoOrphan(env: Env, w: World, id: string, saved: set<string>)
    requires id in saved
    ensures VisitOrphan(env, w, id, saved) == w
  {
  }

  /** A round removes nothing of a sandbox that is locked, being deleted or not sick: it stays saved with
      its containers, they stay as they are, and so does its runtime entry. */
  lemma RoundSpares(env: Env, w: World, list: seq<Record>, ids: seq<string>, now: int, id: string)
    requires RoundInputs(list, ids, w) && Orderly(w) && Spared(env, w, id)
    ensures var v := Round(env, w, list, ids, now); Untouched(v, w, id) && Spared(env, v, id)
  {
    hide VisitAll, VisitOrphans, AllRun, SweptTable, OwnContainers, Visits;
    assert list[..|list|] == list;
    RuntimeListed(ids, w);
    VisitsLeave(env, w, list, now, |list|, id);
    VisitAllSlots(env, w, list, now, |list|);
    var visited := VisitAll(env, w, list, w.runtime.Keys, now);
    forall i | 0 <= i < |ids| && ids[i] !in IdsOf(list)
      ensures !((ids[i] + "-") <= (id + "-")) && !((id + "-") <= (ids[i] + "-"))
    {
      assert ids[i] in SetOf(ids);
      assert ids[i] in w.store.Keys + w.runtime.Keys && id in w.store.Keys + w.runtime.Keys;
    }
    OrphansLeave(env, visited, ids, IdsOf(list), id);
    var v := Round(env, w, list, ids, now);
    UntouchedTrans(v, visited, w, id);
    OrphansShrink(env, visited, ids, IdsOf(list));
    assert SlotOf(v, id) == SlotOf(visited, id);
    StillSpared(env, w, v, id, now);
  }

  lemma StillSpared(env: Env, w: World, v: World, id: string, now: int)
    requires Orderly(w) && Spared(env, w, id) && Untouched(v, w, id)
    requires SlotOf(v, id) == OwnSlot(env, id, SlotOf(w, id), now, Sick(w, id))
    ensures Spared(env, v, id)
  {
    hide AllRun;
    OwnSlotRecord(env, id, SlotOf(w, id), now, Sick(w, id));
    if !Sick(w, id) {
      SameAllRun(v, w, w, id);
      SameContainers(v, w.store[id], v.store[id]);
    }
  }

  /** A sick sandbox is never found well again by the rounds, and no round starts a deletion. */
  lemma SickStays(env: Env, w: World, list: seq<Record>, ids: seq<string>, now: int, id: string)
    requires RoundInputs(list, ids, w) && id in w.store && !Spared(env, w, id)
    ensures !Spared(env, Round(env, w, list, ids, now), id)
  {
    hide Round, AllRun, OwnSlot;
    var v := Round(env, w, list, ids, now);
    RoundSlots(env, w, list, ids, now);
    assert Passed(env, w, v, id, now);
    OwnSlotPhase(env, id, SlotOf(w, id), now, true);
  }

  lemma OwnSlotPhase(env: Env, id: string, s: Slot, now: int, sick: bool)
    ensures var after := OwnSlot(env, id, s, now, sick).saved;
      after.Some? ==> s.saved.Some? && (after.value.phase == Deleting <==> s.saved.value.phase == Deleting)
  {
  }

  lemma RoundKeepsOrderly(env: Env, w: World, list: seq<Record>, ids: seq<string>, now: int)
    requires RoundInputs(list, ids, w) && Orderly(w)
    ensures Orderly(Round(env, w, list, ids, now))
  {
    hide Round, OwnSlot, Sick, ListsSaved;
    var v := Round(env, w, list, ids, now);
    RoundSlots(env, w, list, ids, now);
    forall id | id in v.store ensures v.store[id].id == id && v.store[id].containers == w.store[id].containers {
      OwnSlotRecord(env, id, SlotOf(w, id), now, true);
      OwnSlotRecord(env, id, SlotOf(w, id), now, false);
    }
    assert v.store.Keys + v.runtime.Keys <= w.store.Keys + w.runtime.Keys;
  }

  lemma {:induction false} TicksSpareExactly(env: Env, w: World, last: int, ticks: seq<Tick>, id: string)
    requires Orderly(w) && LegalTicks(env, w, last, ticks) && id in w.store
    ensures Spared(env, w, id) <==> Spared(env, AfterTicks(env, w, ticks), id)
    decreases |ticks|
  {
    hide Round, RoundInputs, Orderly, Spared;
    if ticks != [] {
      var t := ticks[0];
      var next := Round(env, w, t.list, t.ids, t.now);
      RoundKeepsOrderly(env, w, t.list, t.ids, t.now);
      if Spared(env, w, id) {
        RoundSpares(env, w, t.list, t.ids, t.now, id);
        assert id in next.store by { SparedSaved(env, next, id); }
        TicksSpareExactly(env, next, t.now, ticks[1..], id);
      } else {
        SickStays(env, w, t.list, t.ids, t.now, id);
        if id in next.store {
          TicksSpareExactly(env, next, t.now, ticks[1..], id);
        } else {
          RemovedStays(env, next, t.now, ticks[1..], id);
        }
      }
    }
  }

  lemma SparedSaved(env: Env, w: World, id: string)
    requires Spared(env, w, id)
    ensures id in w.store
  {
  }

  lemma {:induction false} RemovedStays(env: Env, w: World, last: int, ticks: seq<Tick>, id: string)
    requires LegalTicks(env, w, last, ticks) && id !in w.store
    ensures id !in AfterTicks(env, w, ticks).store && !Spared(env, AfterTicks(env, w, ticks), id)
    decreases |ticks|
  {
    hide Round, RoundInputs;
    if ticks != [] {
      var t := ticks[0];
      RoundSlots(env, w, t.list, t.ids, t.now);
      RemovedStays(env, Round(env, w, t.list, t.ids, t.now), t.now, ticks[1..], id);
    }
  }

  /** Rounds remove exactly the sick: while nothing else acts and the clock advances, after the bounded
      number of rounds a sandbox is still saved if and only if at the start it was locked, being deleted,
      or had a runtime with all its containers running. */
  lemma RoundsRemoveExactlyTheSick(env: Env, w: World, last: int, ticks: seq<Tick>, id: string)
    requires Orderly(w) && WellWatched(w, last) && LegalTicks(env, w, last, ticks)
    requires forall x :: x in w.store ==> w.store[x].createdAt <= last
    requires |ticks| >= Bound(env, w)
    ensures id in AfterTicks(env, w, ticks).store <==> Spared(env, w, id)
  {
    hide LegalTicks, AfterTicks, WellWatched, Bound;
    var end := AfterTicks(env, w, ticks);
    if id in w.store {
      TicksSpareExactly(env, w, last, ticks, id);
      RoundsSettle(env, w, last, ticks);
    } else {
      RemovedStays(env, w, last, ticks, id);
    }
  }
}
