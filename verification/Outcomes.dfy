/** What one round makes of each saved sandbox: told from its saved state, its containers, and when it was seen
    unhealthy before. */
module Outcomes {
  import opened Rules
  import opened Sandboxes
  import opened Debounce
  import opened Reconcile
  import opened Convergence
  import opened RoundEffects
  import Lifecycle

  /** The runtime does not know the sandbox, or not all of its containers run. */
  predicate Failing(w: World, id: string)
    requires id in w.store
  {
    || id !in w.runtime
    || exists name :: name in w.store[id].containers
         && !(w.store[id].containers[name].id in w.containers && w.containers[w.store[id].containers[name].id])
  }

  lemma FailingIsSick(w: World, id: string)
    requires id in w.store
    ensures Failing(w, id) <==> Sick(w, id)
  {
  }

  /** The record kept of the sandbox says it was seen unhealthy at these times. */
  predicate SeenAt(w: World, id: string, times: seq<int>) {
    if times == [] then id !in w.watch.since && id !in w.watch.hits
    else id in w.watch.since && w.watch.since[id] == times[0] && id in w.watch.hits && w.watch.hits[id] == |times|
  }

  predicate Stays(w: World, v: World, id: string) {
    id in w.store && id in v.store && v.store[id] == w.store[id]
  }

  /** Seen unhealthy at least twice and as often as configured, the first time as long ago as configured. */
  predicate Enough(limits: Limits, times: seq<int>, now: int) {
    |times| >= 2 && |times| >= limits.hits && now - times[0] >= limits.grace
  }

  lemma SlotSeen(w: World, history: seq<Sign>, id: string)
    requires w.watch == WatchAfter(history)
    ensures SeenAt(w, id, Times(history, id))
  {
    WatchReflects(history);
  }

  lemma SlotSays(w: World, v: World, id: string)
    ensures SlotOf(v, id) == SlotOf(w, id) ==>
              (Stays(w, v, id) <==> id in w.store) && forall times :: SeenAt(v, id, times) <==> SeenAt(w, id, times)
    ensures SlotOf(v, id).since == None && SlotOf(v, id).hits == None ==> SeenAt(v, id, [])
  {
  }

  /** A sandbox another operation has locked, or that is being deleted, is left alone; so is one being created,
      until it is 120 seconds old: then it is saved as failed. */
  lemma RoundWaits(env: Env, w: World, list: seq<Record>, ids: seq<string>, now: int, id: string, times: seq<int>)
    requires RoundInputs(list, ids, w) && id in w.store && SeenAt(w, id, times)
    requires id in env.locked || w.store[id].phase in {Deleting, Creating}
    ensures var v, r := Round(env, w, list, ids, now), w.store[id];
      && SeenAt(v, id, times)
      && if id in env.locked || r.phase == Deleting || now - r.createdAt < 120 then Stays(w, v, id)
         else id in v.store && v.store[id] == r.(phase := Failed, error := "provisioning timeout", updatedAt := now)
  {
    hide Round, RoundInputs, Sick;
    var v := Round(env, w, list, ids, now);
    RoundSlots(env, w, list, ids, now);
    assert Passed(env, w, v, id, now);
    SlotSays(w, v, id);
  }

  /** One seen unhealthy is removed exactly when it has now been seen so often enough and for long enough since it
      was last found well, and is otherwise left as it was with one more sighting noted. */
  lemma RoundRemovesDue(env: Env, w: World, list: seq<Record>, ids: seq<string>, now: int, id: string, times: seq<int>)
    requires RoundInputs(list, ids, w) && id in w.store && SeenAt(w, id, times)
    requires id !in env.locked && w.store[id].phase in {Running, Failed} && Failing(w, id)
    ensures var v, seen := Round(env, w, list, ids, now), times + [now];
      if Enough(env.limits, seen, now) then id !in v.store && SeenAt(v, id, [])
      else Stays(w, v, id) && SeenAt(v, id, seen)
  {
    hide Round, RoundInputs, Sick, Failing;
    var v := Round(env, w, list, ids, now);
    FailingIsSick(w, id);
    RoundSlots(env, w, list, ids, now);
    assert Passed(env, w, v, id, now);
    assert SlotOf(v, id) == SeenSlot(env, SlotOf(w, id), now);
    assert (times + [now])[0] == if times == [] then now else times[0];
  }

  /** One found well is left as it was and its sightings are forgotten. */
  lemma RoundForgetsWell(env: Env, w: World, list: seq<Record>, ids: seq<string>, now: int, id: string)
    requires RoundInputs(list, ids, w) && Orderly(w) && id in w.store
    requires id !in env.locked && w.store[id].phase in {Running, Failed} && !Failing(w, id)
    ensures var v := Round(env, w, list, ids, now); Stays(w, v, id) && SeenAt(v, id, [])
  {
    hide Round, RoundInputs, Sick, Failing, Orderly;
    var v := Round(env, w, list, ids, now);
    FailingIsSick(w, id);
    RoundSpares(env, w, list, ids, now, id);
    RoundSlots(env, w, list, ids, now);
    assert Passed(env, w, v, id, now);
    OwnSlotPhase(env, id, SlotOf(w, id), now, true);
    assert SlotOf(v, id) == Slot(SlotOf(w, id).saved, None, None);
  }

  /** Timing out is the same step for the reconciler and for the lifecycle. */
  lemma TimeOutIsStep(env: Env, w: World, list: seq<Record>, ids: seq<string>, now: int, id: string,
                      b: Lifecycle.Books)
    requires RoundInputs(list, ids, w) && id in w.store && id in b.store && b.store[id] == w.store[id]
    requires id !in env.locked && Lifecycle.LockFree(b, id)
    ensures Lifecycle.Ready(env.cfg, b, Lifecycle.TimeOut(id, now))
       <==> w.store[id].phase == Creating && now - w.store[id].createdAt >= 120
    ensures Lifecycle.Ready(env.cfg, b, Lifecycle.TimeOut(id, now)) ==>
      var v, after := Round(env, w, list, ids, now), Lifecycle.Moved(env.cfg, b, Lifecycle.TimeOut(id, now));
      id in v.store && id in after.store && v.store[id] == after.store[id]
  {
    hide Round, RoundInputs, Sick;
    RoundSlots(env, w, list, ids, now);
    var v := Round(env, w, list, ids, now);
    assert Passed(env, w, v, id, now);
  }
}
