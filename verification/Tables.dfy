/** One iptables table as a mutable map from chain names to rule lists, with the operations the
    firewall code calls on it. */
module Tables {
  import opened Rules

  function RemoveFirst(s: seq<Rule>, r: Rule): seq<Rule> {
    if s == [] then []
    else if s[0] == r then s[1..]
    else [s[0]] + RemoveFirst(s[1..], r)
  }

  function AppendOnce(s: seq<Rule>, r: Rule): seq<Rule> {
    if r in s then s else s + [r]
  }

  function AppendAllOnce(s: seq<Rule>, rs: seq<Rule>): seq<Rule> {
    if rs == [] then s else AppendOnce(AppendAllOnce(s, rs[..|rs| - 1]), rs[|rs| - 1])
  }

  /** The list without any occurrence of the given rules, the others in their order. */
  function Strip(s: seq<Rule>, drop: set<Rule>): seq<Rule> {
    if s == [] then []
    else (if s[0] in drop then [] else [s[0]]) + Strip(s[1..], drop)
  }

  function RemoveAll(s: seq<Rule>, rs: seq<Rule>): seq<Rule> {
    if rs == [] then s else RemoveFirst(RemoveAll(s, rs[..|rs| - 1]), rs[|rs| - 1])
  }

  function Chain(t: Table, c: string): seq<Rule> {
    if c in t then t[c] else []
  }

  predicate Jumps(s: seq<Rule>, c: string) {
    exists i :: 0 <= i < |s| && s[i].target == Jump(c)
  }

  predicate Referenced(t: Table, c: string) {
    exists d :: d in t && Jumps(t[d], c)
  }

  function WithNew(t: Table, c: string): Table {
    if c in t then t else t[c := []]
  }

  function WithAppend(t: Table, c: string, r: Rule): Table {
    if c in t then t[c := AppendOnce(t[c], r)] else t
  }

  function WithAppends(t: Table, c: string, rs: seq<Rule>): Table {
    if rs == [] then t else WithAppend(WithAppends(t, c, rs[..|rs| - 1]), c, rs[|rs| - 1])
  }

  /** Positions count from 1; a position past the end plus one is refused. */
  predicate CanInsert(t: Table, c: string, pos: nat) {
    c in t && 1 <= pos <= |t[c]| + 1
  }

  function WithInsert(t: Table, c: string, pos: nat, r: Rule): Table {
    if CanInsert(t, c, pos) then t[c := t[c][..pos - 1] + [r] + t[c][pos - 1..]] else t
  }

  function WithDelete(t: Table, c: string, r: Rule): Table {
    if c in t then t[c := RemoveFirst(t[c], r)] else t
  }

  function WithClear(t: Table, c: string): Table {
    t[c := []]
  }

  predicate CanDrop(t: Table, c: string) {
    c in t && t[c] == [] && !Referenced(t, c)
  }

  function WithDrop(t: Table, c: string): Table {
    if CanDrop(t, c) then t - {c} else t
  }

  /** The first rule written with exactly these words, as a deletion by specification finds it. */
  function RemoveSpec(s: seq<Rule>, words: seq<string>): seq<Rule> {
    if s == [] then []
    else if Render(s[0]) == words then s[1..]
    else [s[0]] + RemoveSpec(s[1..], words)
  }

  function Lines(c: string, s: seq<Rule>, listing: Listing): (lines: seq<string>)
    ensures |lines| == |s|
  {
    seq(|s|, i requires 0 <= i < |s| => Line(c, s[i], listing))
  }

  class RuleTable {
    var chains: Table
    const listing: Listing

    constructor (initial: Table, listing: Listing)
      ensures chains == initial && this.listing == listing
    {
      chains := initial;
      this.listing := listing;
    }

    method NewChain(c: string) returns (ok: bool)
      modifies this
      ensures ok <==> c !in old(chains)
      ensures chains == WithNew(old(chains), c)
    {
      ok := c !in chains;
      if ok {
        chains := chains[c := []];
      }
    }

    method AppendUnique(c: string, r: Rule) returns (ok: bool)
      modifies this
      ensures ok <==> c in old(chains)
      ensures chains == WithAppend(old(chains), c, r)
    {
      ok := c in chains;
      if ok && r !in chains[c] {
        chains := chains[c := chains[c] + [r]];
      }
    }

    method Insert(c: string, pos: nat, r: Rule) returns (ok: bool)
      modifies this
      ensures ok <==> CanInsert(old(chains), c, pos)
      ensures chains == WithInsert(old(chains), c, pos, r)
    {
      ok := CanInsert(chains, c, pos);
      if ok {
        chains := chains[c := chains[c][..pos - 1] + [r] + chains[c][pos - 1..]];
      }
    }

    method Delete(c: string, r: Rule) returns (ok: bool)
      modifies this
      ensures ok <==> c in old(chains) && r in old(chains)[c]
      ensures chains == WithDelete(old(chains), c, r)
    {
      ok := c in chains && r in chains[c];
      if ok {
        chains := chains[c := RemoveFirst(chains[c], r)];
      } else if c in chains {
        RemoveAbsent(chains[c], r);
        assert chains == chains[c := chains[c]];
      }
    }

    method DeleteSpec(c: string, words: seq<string>)
      modifies this
      ensures chains == if c in old(chains) then old(chains)[c := RemoveSpec(old(chains)[c], words)] else old(chains)
    {
      if c in chains {
        chains := chains[c := RemoveSpec(chains[c], words)];
      }
    }

    method ClearChain(c: string)
      modifies this
      ensures chains == WithClear(old(chains), c)
    {
      chains := chains[c := []];
    }

    method DeleteChain(c: string) returns (ok: bool)
      modifies this
      ensures ok
         <==> && c in old(chains) && old(chains)[c] == []
              && forall d, i :: d in old(chains) && 0 <= i < |old(chains)[d]| ==> old(chains)[d][i].target != Jump(c)
      ensures chains == WithDrop(old(chains), c) == if ok then old(chains) - {c} else old(chains)
    {
      ok := CanDrop(chains, c);
      if ok {
        chains := chains - {c};
      }
    }

    method List(c: string) returns (lines: Option<seq<string>>)
      ensures lines == if c in chains then Some(Lines(c, chains[c], listing)) else None
    {
      if c in chains {
        lines := Some(Lines(c, chains[c], listing));
      } else {
        lines := None;
      }
    }
  }

  // List facts shared by the proofs about chains.

  lemma {:induction false} RemoveAbsent(s: seq<Rule>, r: Rule)
    requires r !in s
    ensures RemoveFirst(s, r) == s
  {
    if s != [] {
      RemoveAbsent(s[1..], r);
    }
  }

  lemma {:induction false} RemoveBag(s: seq<Rule>, r: Rule)
    ensures multiset(RemoveFirst(s, r)) == multiset(s) - multiset{r}
  {
    if s != [] {
      assert s == [s[0]] + s[1..];
      RemoveBag(s[1..], r);
      if s[0] != r {
        assert multiset(s) == multiset{s[0]} + multiset(s[1..]);
      }
    }
  }

  lemma RemoveMembers(s: seq<Rule>, r: Rule, x: Rule)
    ensures x in RemoveFirst(s, r) ==> x in s
    ensures x != r ==> (x in RemoveFirst(s, r) <==> x in s)
  {
    RemoveBag(s, r);
    assert x in s <==> x in multiset(s);
    assert x in RemoveFirst(s, r) <==> x in multiset(RemoveFirst(s, r));
  }

  lemma {:induction false} RemoveConcat(a: seq<Rule>, b: seq<Rule>, r: Rule)
    ensures RemoveFirst(a + b, r) == if r in a then RemoveFirst(a, r) + b else a + RemoveFirst(b, r)
  {
    if a == [] {
      assert a + b == b && a + RemoveFirst(b, r) == RemoveFirst(b, r);
    } else {
      assert (a + b)[1..] == a[1..] + b;
      RemoveConcat(a[1..], b, r);
      if a[0] != r {
        assert r in a <==> r in a[1..];
        if r in a {
          assert [a[0]] + (RemoveFirst(a[1..], r) + b) == [a[0]] + RemoveFirst(a[1..], r) + b;
        } else {
          assert [a[0]] + (a[1..] + RemoveFirst(b, r)) == a + RemoveFirst(b, r);
        }
      }
    }
  }

  lemma {:induction false} StripConcat(a: seq<Rule>, b: seq<Rule>, drop: set<Rule>)
    ensures Strip(a + b, drop) == Strip(a, drop) + Strip(b, drop)
  {
    if a == [] {
      assert a + b == b;
    } else {
      assert (a + b)[1..] == a[1..] + b;
      StripConcat(a[1..], b, drop);
    }
  }

  lemma {:induction false} StripMembers(s: seq<Rule>, drop: set<Rule>, x: Rule)
    ensures x in Strip(s, drop) <==> x in s && x !in drop
  {
    if s != [] {
      StripMembers(s[1..], drop, x);
      assert x in s <==> x == s[0] || x in s[1..];
    }
  }

  lemma {:induction false} StripAbsent(s: seq<Rule>, drop: set<Rule>)
    requires forall x :: x in s ==> x !in drop
    ensures Strip(s, drop) == s
  {
    if s != [] {
      assert s[0] in s && forall x :: x in s[1..] ==> x in s;
      StripAbsent(s[1..], drop);
      assert s == [s[0]] + s[1..];
    }
  }

  lemma {:induction false} StripAgree(s: seq<Rule>, a: set<Rule>, b: set<Rule>)
    requires forall x :: x in s ==> (x in a <==> x in b)
    ensures Strip(s, a) == Strip(s, b)
  {
    if s != [] {
      assert s[0] in s && forall x :: x in s[1..] ==> x in s;
      StripAgree(s[1..], a, b);
    }
  }

  lemma {:induction false} StripCount(s: seq<Rule>, drop: set<Rule>, x: Rule)
    ensures multiset(Strip(s, drop))[x] == if x in drop then 0 else multiset(s)[x]
  {
    if s != [] {
      StripCount(s[1..], drop, x);
      assert s == [s[0]] + s[1..];
      assert multiset(s)[x] == multiset{s[0]}[x] + multiset(s[1..])[x];
      if s[0] !in drop {
        assert multiset(Strip(s, drop)) == multiset{s[0]} + multiset(Strip(s[1..], drop));
      } else {
        assert Strip(s, drop) == Strip(s[1..], drop);
      }
    }
  }

  /** Removing the first occurrence of a rule to be stripped leaves no trace; removing any other rule
      can be done before or after stripping. */
  lemma {:induction false} StripRemove(s: seq<Rule>, drop: set<Rule>, r: Rule)
    ensures Strip(RemoveFirst(s, r), drop) == if r in drop then Strip(s, drop) else RemoveFirst(Strip(s, drop), r)
  {
    if s != [] {
      StripRemove(s[1..], drop, r);
      var x, rest := s[0], Strip(s[1..], drop);
      assert x !in drop ==> ([x] + rest)[0] == x && ([x] + rest)[1..] == rest;
      if x == r {
      } else {
        var cut := [x] + RemoveFirst(s[1..], r);
        assert cut[0] == x && cut[1..] == RemoveFirst(s[1..], r);
        assert x in drop ==> Strip(s, drop) == rest;
      }
    }
  }

  /** A rule that occurs at most once is stripped by one deletion. */
  lemma {:induction false} RemoveIsStrip(s: seq<Rule>, r: Rule)
    requires multiset(s)[r] <= 1
    ensures RemoveFirst(s, r) == Strip(s, {r})
  {
    if s != [] {
      assert s == [s[0]] + s[1..];
      assert multiset(s) == multiset{s[0]} + multiset(s[1..]);
      if s[0] == r {
        assert r !in multiset(s[1..]);
        StripAbsent(s[1..], {r});
      } else {
        RemoveIsStrip(s[1..], r);
      }
    }
  }

  lemma {:induction false} RemoveAllMembers(s: seq<Rule>, rs: seq<Rule>, x: Rule)
    ensures x in RemoveAll(s, rs) ==> x in s
    ensures x !in rs ==> (x in RemoveAll(s, rs) <==> x in s)
  {
    if rs != [] {
      RemoveAllMembers(s, rs[..|rs| - 1], x);
      RemoveMembers(RemoveAll(s, rs[..|rs| - 1]), rs[|rs| - 1], x);
    }
  }

  lemma {:induction false} StripTwice(s: seq<Rule>, a: set<Rule>, b: set<Rule>)
    ensures Strip(Strip(s, a), b) == Strip(s, a + b)
  {
    if s != [] {
      StripTwice(s[1..], a, b);
      var x, rest := s[0], Strip(s[1..], a);
      if x !in a {
        assert ([x] + rest)[0] == x && ([x] + rest)[1..] == rest;
      } else {
        assert Strip(s, a) == rest;
      }
    }
  }

  lemma WithAppendsSnoc(t: Table, c: string, rs: seq<Rule>, r: Rule)
    ensures WithAppends(t, c, rs + [r]) == WithAppend(WithAppends(t, c, rs), c, r)
  {
  }

  lemma {:induction false} WithAppendsChain(t: Table, c: string, rs: seq<Rule>)
    requires c in t
    ensures WithAppends(t, c, rs) == t[c := AppendAllOnce(t[c], rs)]
  {
    if rs == [] {
      assert t == t[c := t[c]];
    } else {
      WithAppendsChain(t, c, rs[..|rs| - 1]);
    }
  }

  ghost function RuleSet(rs: seq<Rule>): set<Rule> {
    set r | r in rs
  }

  ghost predicate AtMostOnce(s: seq<Rule>, rs: seq<Rule>) {
    forall r :: r in rs ==> multiset(s)[r] <= 1
  }

  /** Deleting rules that occur at most once, one deletion each and in any repetition, strips them. */
  lemma {:induction false} RemoveAllIsStrip(s: seq<Rule>, rs: seq<Rule>)
    requires AtMostOnce(s, rs)
    ensures RemoveAll(s, rs) == Strip(s, RuleSet(rs))
  {
    if rs == [] {
      StripAbsent(s, {});
      assert RuleSet(rs) == {};
    } else {
      hide Strip, RemoveFirst;
      var init, r := rs[..|rs| - 1], rs[|rs| - 1];
      RuleSetSnoc(rs);
      RemoveAllIsStrip(s, init);
      StripCount(s, RuleSet(init), r);
      RemoveIsStrip(Strip(s, RuleSet(init)), r);
      StripTwice(s, RuleSet(init), {r});
    }
  }

  lemma RuleSetSnoc(rs: seq<Rule>)
    requires rs != []
    ensures RuleSet(rs) == RuleSet(rs[..|rs| - 1]) + {rs[|rs| - 1]}
    ensures rs[|rs| - 1] in rs && forall x :: x in rs[..|rs| - 1] ==> x in rs
  {
  }

  /** A deletion takes out the first occurrence and leaves the others in their order. */
  lemma {:induction false} FirstRemoved(a: seq<Rule>, r: Rule, b: seq<Rule>)
    requires r !in a
    ensures RemoveFirst(a + [r] + b, r) == a + b
  {
    if a == [] {
      assert a + [r] + b == [r] + b && a + b == b;
    } else {
      assert (a + [r] + b)[1..] == a[1..] + [r] + b;
      FirstRemoved(a[1..], r, b);
      assert [a[0]] + (a[1..] + b) == a + b;
    }
  }

  lemma {:induction false} AppendAllMembers(s: seq<Rule>, rs: seq<Rule>, x: Rule)
    ensures x in AppendAllOnce(s, rs) <==> x in s || x in rs
  {
    if rs != [] {
      AppendAllMembers(s, rs[..|rs| - 1], x);
      assert rs == rs[..|rs| - 1] + [rs[|rs| - 1]];
    }
  }

  /** Building a chain with AppendUnique gives every packet the verdict of the full list. */
  lemma {:induction false} AppendUniqueKeepsVerdict(t: Table, s: seq<Rule>, rs: seq<Rule>, p: Packet, depth: nat)
    ensures Eval(t, AppendAllOnce(s, rs), p, depth) == Eval(t, s + rs, p, depth)
  {
    if rs == [] {
      assert s + rs == s;
    } else {
      var init, last := rs[..|rs| - 1], rs[|rs| - 1];
      AppendUniqueKeepsVerdict(t, s, init, p, depth);
      assert s + rs == s + init + [last];
      AppendAllMembers(s, init, last);
      if last in AppendAllOnce(s, init) {
        LaterDuplicateRedundant(t, s + init, last, [], p, depth);
        assert s + init + [last] + [] == s + init + [last] && s + init + [] == s + init;
      } else {
        forall x ensures x in AppendAllOnce(s, init) <==> x in s + init {
          AppendAllMembers(s, init, x);
        }
        EvalSnoc(t, AppendAllOnce(s, init), s + init, last, p, depth);
      }
    }
  }

  /** Two lists that let a packet pass in the same way still agree after one more rule; the members
      are the same, so a return rule stops both or neither. */
  lemma EvalSnoc(t: Table, a: seq<Rule>, b: seq<Rule>, r: Rule, p: Packet, depth: nat)
    requires Eval(t, a, p, depth) == Eval(t, b, p, depth)
    requires forall x :: x in a <==> x in b
    ensures Eval(t, a + [r], p, depth) == Eval(t, b + [r], p, depth)
  {
    EvalEnds(t, a, r, p, depth);
    EvalEnds(t, b, r, p, depth);
  }

  predicate Returns(s: seq<Rule>, p: Packet) {
    exists x :: x in s && x.target == Return && Selects(x, p)
  }

  /** A rule at the end of a list is reached when nothing before it decides or returns. */
  lemma {:induction false} EvalEnds(t: Table, a: seq<Rule>, r: Rule, p: Packet, depth: nat)
    ensures Eval(t, a + [r], p, depth)
         == if Eval(t, a, p, depth).Some? || Returns(a, p) then Eval(t, a, p, depth) else Eval(t, [r], p, depth)
  {
    if a == [] {
      assert a + [r] == [r];
    } else {
      assert a + [r] == [a[0]] + (a[1..] + [r]);
      assert a == [a[0]] + a[1..];
      EvalEnds(t, a[1..], r, p, depth);
      if Inert(t, a[0], p, depth) {
        InertHead(t, a[0], a[1..] + [r], p, depth);
        InertHead(t, a[0], a[1..], p, depth);
        assert Returns(a, p) <==> Returns(a[1..], p) by {
          if Returns(a[1..], p) {
            var x :| x in a[1..] && x.target == Return && Selects(x, p);
            assert x in a;
          }
        }
      } else {
        DecisiveHead(t, a[0], a[1..] + [r], p, depth);
        DecisiveHead(t, a[0], a[1..], p, depth);
        if Eval(t, [a[0]], p, depth) == None {
          assert a[0] in a && a[0].target == Return;
        }
      }
    }
  }
}
