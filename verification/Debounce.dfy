/** Debouncing of unhealthy sandboxes: how often and for how long one has been seen unhealthy. */
module Debounce {

  /** What happens to a sandbox between reconciles: it is seen unhealthy, or its record is cleared. */
  datatype Sign = Unhealthy(id: string, now: int) | Cleared(id: string)

  datatype Watch = Watch(since: map<string, int>, hits: map<string, int>)

  datatype Limits = Limits(hits: int, grace: int)

  function Max(a: int, b: int): int {
    if a >= b then a else b
  }

  function Observe(w: Watch, id: string, now: int): Watch {
    if id !in w.since then Watch(w.since[id := now], w.hits[id := 1])
    else w.(hits := w.hits[id := (if id in w.hits then w.hits[id] else 0) + 1])
  }

  function Forget(w: Watch, id: string): Watch {
    Watch(w.since - {id}, w.hits - {id})
  }

  /** The answer of the observation that led from `before` to `after`. */
  predicate Due(before: Watch, after: Watch, limits: Limits, id: string, now: int)
    requires id in after.since && id in after.hits
  {
    id in before.since && now - after.since[id] >= limits.grace && after.hits[id] >= limits.hits
  }

  function Noted(w: Watch, s: Sign): Watch {
    match s
    case Unhealthy(id, now) => Observe(w, id, now)
    case Cleared(id) => Forget(w, id)
  }

  function WatchAfter(history: seq<Sign>): Watch {
    if history == [] then Watch(map[], map[])
    else Noted(WatchAfter(history[..|history| - 1]), history[|history| - 1])
  }

  lemma WatchNext(history: seq<Sign>, s: Sign)
    ensures WatchAfter(history + [s]) == Noted(WatchAfter(history), s)
  {
    assert (history + [s])[..|history|] == history;
  }

  /** When a sandbox was seen unhealthy since it was last cleared, oldest first. */
  function Times(history: seq<Sign>, id: string): seq<int> {
    if history == [] then []
    else
      var before, last := Times(history[..|history| - 1], id), history[|history| - 1];
      if last.id != id then before else if last.Cleared? then [] else before + [last.now]
  }

  /** Both maps speak of exactly the sandboxes seen unhealthy since they were cleared: when that began and
      how often it was seen. */
  ghost predicate Reflects(w: Watch, history: seq<Sign>) {
    forall id ::
      && (id in w.since <==> Times(history, id) != [])
      && (id in w.hits <==> Times(history, id) != [])
      && (id in w.since && id in w.hits ==> w.since[id] == Times(history, id)[0] && w.hits[id] == |Times(history, id)|)
  }

  lemma TimesNext(history: seq<Sign>, s: Sign, id: string)
    ensures Times(history + [s], id)
         == if s.id != id then Times(history, id) else if s.Cleared? then [] else Times(history, id) + [s.now]
  {
  }

  lemma NotedReflects(w: Watch, history: seq<Sign>, s: Sign)
    requires Reflects(w, history)
    ensures Reflects(Noted(w, s), history + [s])
  {
  }

  /** In every history the two maps have the same keys and say exactly what was seen since the last clear. */
  lemma {:induction false} WatchReflects(history: seq<Sign>)
    ensures Reflects(WatchAfter(history), history)
    ensures WatchAfter(history).since.Keys == WatchAfter(history).hits.Keys
  {
    if history != [] {
      var init, last := history[..|history| - 1], history[|history| - 1];
      WatchReflects(init);
      NotedReflects(WatchAfter(init), init, last);
      assert init + [last] == history;
    }
    assert forall id :: id in WatchAfter(history).since <==> id in WatchAfter(history).hits;
  }

  /** What is due: enough sightings since the last clear, the first of them long enough ago. */
  predicate LongUnhealthy(history: seq<Sign>, limits: Limits, id: string, now: int) {
    |Times(history, id)| >= Max(2, limits.hits) && now - Times(history, id)[0] >= limits.grace
  }

  /** A sandbox is answered due on exactly those sightings that complete at least two, and at least the
      configured number, since its last clear, the first of them at least the grace time ago. */
  lemma DueIff(history: seq<Sign>, limits: Limits, id: string, now: int)
    ensures var before, after := WatchAfter(history), WatchAfter(history + [Unhealthy(id, now)]);
      && id in after.since && id in after.hits
      && (Due(before, after, limits, id, now) <==> LongUnhealthy(history + [Unhealthy(id, now)], limits, id, now))
  {
    var next := history + [Unhealthy(id, now)];
    WatchReflects(history);
    WatchReflects(next);
    TimesNext(history, Unhealthy(id, now), id);
    assert next[..|history|] == history;
  }

  /** Signs of one sandbox never change what is kept of another. */
  lemma OthersUnaffected(w: Watch, s: Sign, id: string)
    requires s.id != id
    ensures var w' := Noted(w, s);
      && (id in w'.since <==> id in w.since) && (id in w'.hits <==> id in w.hits)
      && (id in w.since ==> w'.since[id] == w.since[id]) && (id in w.hits ==> w'.hits[id] == w.hits[id])
  {
  }

  class Debouncer {
    const limits: Limits
    var unhealthySince: map<string, int>
    var unhealthyHits: map<string, int>
    ghost var history: seq<Sign>

    ghost predicate Valid()
      reads this
    {
      Watch(unhealthySince, unhealthyHits) == WatchAfter(history)
    }

    constructor (limits: Limits)
      ensures Valid() && this.limits == limits && history == []
    {
      this.limits := limits;
      unhealthySince, unhealthyHits, history := map[], map[], [];
    }

    method ShouldFinalizeUnhealthy(id: string, now: int) returns (due: bool)
      requires Valid()
      modifies this
      ensures Valid() && history == old(history) + [Unhealthy(id, now)]
      ensures due <==> LongUnhealthy(history, limits, id, now)
      ensures unhealthySince.Keys == unhealthyHits.Keys == old(unhealthySince).Keys + {id}
    {
      ghost var before := history;
      WatchReflects(before);
      DueIff(before, limits, id, now);
      history := history + [Unhealthy(id, now)];
      assert history[..|before|] == before;
      if id !in unhealthySince {
        unhealthySince := unhealthySince[id := now];
        unhealthyHits := unhealthyHits[id := 1];
        return false;
      }
      unhealthyHits := unhealthyHits[id := unhealthyHits[id] + 1];
      if now - unhealthySince[id] < limits.grace {
        return false;
      }
      return unhealthyHits[id] >= limits.hits;
    }

    method ClearUnhealthy(id: string)
      requires Valid()
      modifies this
      ensures Valid() && history == old(history) + [Cleared(id)]
      ensures unhealthySince == old(unhealthySince) - {id} && unhealthyHits == old(unhealthyHits) - {id}
    {
      history := history + [Cleared(id)];
      assert history[..|history| - 1] == old(history);
      unhealthySince := unhealthySince - {id};
      unhealthyHits := unhealthyHits - {id};
    }
  }
}
