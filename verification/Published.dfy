/** Under any history of publishing, unpublishing and orphan sweeps, the translation chains implement
    the map from claimed host ports to sandbox targets. */
module Published {
  import opened Text
  import opened Rules
  import opened Tables
  import opened Nat
  import opened Tags

  datatype Pub = Pub(ip: nat, forwards: seq<Forward>)

  /** Ids that survive being written as a tag and read back. */
  predicate WellId(id: string) {
    id != "" && NoSpace(id) && id[|id| - 1] != '"'
  }

  /** No other id begins with this one. */
  ghost predicate NoneExtends(ids: set<string>, id: string) {
    forall x :: x in ids && id <= x ==> x == id
  }

  ghost predicate ValidPubs(pubs: map<string, Pub>) {
    forall id :: id in pubs ==>
      WellId(id) && forall i :: 0 <= i < |pubs[id].forwards| ==> ValidProto(pubs[id].forwards[i])
  }

  ghost predicate Owns(c: string, r: Rule, id: string, pub: Pub) {
    exists i :: 0 <= i < |pub.forwards| && r == RuleFor(c, id, pub.ip, pub.forwards[i])
  }

  function TagOf(c: string, r: Rule): string {
    TagFrom(Fields(TrimSpace(Line(c, r, Bare))), 0)
  }

  /** A rule of another program: it can be listed, carries no tag and does not contain one in its text. */
  ghost predicate Foreign(c: string, r: Rule) {
    && Printable(r)
    && TagOf(c, r) == ""
    && !Contains(Line(c, r, Bare), COMMENT + " " + TAG)
  }

  /** A chain of rules of other programs and of exactly the rules of the publications, each once. */
  ghost predicate ChainHolds(c: string, s: seq<Rule>, pubs: map<string, Pub>) {
    && (forall r :: r in s ==> Foreign(c, r) || exists id :: id in pubs && Owns(c, r, id, pubs[id]))
    && (forall id, r :: id in pubs && Owns(c, r, id, pubs[id]) ==> multiset(s)[r] == 1)
  }

  ghost predicate NatHolds(t: Table, pubs: map<string, Pub>) {
    && PREROUTING in t && OUTPUT in t
    && ValidPubs(pubs)
    && ChainHolds(PREROUTING, t[PREROUTING], pubs)
    && ChainHolds(OUTPUT, t[OUTPUT], pubs)
  }

  lemma ChainsDiffer()
    ensures PREROUTING != OUTPUT && IsWord(PREROUTING) && IsWord(OUTPUT)
  {
  }

  /** The tag of a published rule is its sandbox's id, and the rule can be listed. */
  lemma OwnedTag(c: string, r: Rule, id: string, pub: Pub)
    requires c in {PREROUTING, OUTPUT} && WellId(id) && Owns(c, r, id, pub)
    requires forall i :: 0 <= i < |pub.forwards| ==> ValidProto(pub.forwards[i])
    ensures TagOf(c, r) == id && Printable(r)
  {
    var i :| 0 <= i < |pub.forwards| && r == RuleFor(c, id, pub.ip, pub.forwards[i]);
    TagRoundTrip(c, id, pub.ip, pub.forwards[i], Bare);
    TranslationPrintable(c, id, pub.ip, pub.forwards[i]);
  }

  lemma OwnedFound(c: string, r: Rule, wanted: string, id: string, pub: Pub)
    requires c in {PREROUTING, OUTPUT} && WellId(id) && NoSpace(wanted) && Owns(c, r, id, pub)
    requires forall i :: 0 <= i < |pub.forwards| ==> ValidProto(pub.forwards[i])
    ensures Contains(Line(c, r, Bare), COMMENT + " " + (TAG + wanted)) <==> wanted <= id
  {
    var i :| 0 <= i < |pub.forwards| && r == RuleFor(c, id, pub.ip, pub.forwards[i]);
    TagFoundIff(c, wanted, id, pub.ip, pub.forwards[i]);
  }

  lemma ContainsShorter(s: string, a: string, b: string)
    requires Contains(s, a + b)
    ensures Contains(s, a)
  {
  }

  lemma ListedRule(c: string, r: Rule)
    requires IsWord(c) && Printable(r)
    ensures RuleLine(Fields(TrimSpace(Line(c, r, Bare))))
  {
    LineFields(c, r);
  }

  /** What a tag sweep picks: the rules of every id that extends the wanted one. */
  lemma TaggedPick(c: string, r: Rule, pubs: map<string, Pub>, wanted: string)
    requires c in {PREROUTING, OUTPUT} && ValidPubs(pubs) && NoSpace(wanted)
    requires Foreign(c, r) || exists id :: id in pubs && Owns(c, r, id, pubs[id])
    ensures Printable(r)
    ensures Picks(Tagged(wanted), Line(c, r, Bare))
       <==> exists id :: id in pubs && Owns(c, r, id, pubs[id]) && wanted <= id
  {
    hide Contains, Line, Fields, TrimSpace, Printable, Owns;
    ChainsDiffer();
    if Foreign(c, r) {
      if Contains(Line(c, r, Bare), COMMENT + " " + (TAG + wanted)) {
        assert COMMENT + " " + (TAG + wanted) == COMMENT + " " + TAG + wanted;
        ContainsShorter(Line(c, r, Bare), COMMENT + " " + TAG, wanted);
        assert false;
      }
      forall id | id in pubs && Owns(c, r, id, pubs[id]) ensures false {
        OwnedTag(c, r, id, pubs[id]);
      }
    } else {
      var id :| id in pubs && Owns(c, r, id, pubs[id]);
      OwnedTag(c, r, id, pubs[id]);
      OwnedFound(c, r, wanted, id, pubs[id]);
      ListedRule(c, r);
      forall other | other in pubs && Owns(c, r, other, pubs[other]) ensures other == id {
        OwnedTag(c, r, other, pubs[other]);
      }
    }
  }

  lemma OrphanPick(c: string, r: Rule, pubs: map<string, Pub>, keep: set<string>)
    requires c in {PREROUTING, OUTPUT} && ValidPubs(pubs)
    requires Foreign(c, r) || exists id :: id in pubs && Owns(c, r, id, pubs[id])
    ensures Printable(r)
    ensures Picks(Orphans(keep), Line(c, r, Bare))
       <==> exists id :: id in pubs && Owns(c, r, id, pubs[id]) && id !in keep
  {
    hide Contains, Line, Fields, TrimSpace, Printable, Owns;
    ChainsDiffer();
    if exists id :: id in pubs && Owns(c, r, id, pubs[id]) {
      var id :| id in pubs && Owns(c, r, id, pubs[id]);
      OwnedTag(c, r, id, pubs[id]);
      ListedRule(c, r);
      forall other | other in pubs && Owns(c, r, other, pubs[other]) ensures other == id {
        OwnedTag(c, r, other, pubs[other]);
      }
    }
  }

  // Effects on one chain.

  lemma ChainGains(c: string, s: seq<Rule>, pubs: map<string, Pub>, id: string, ip: nat, f: Forward)
    requires c in {PREROUTING, OUTPUT} && ValidPubs(pubs) && ChainHolds(c, s, pubs) && WellId(id) && ValidProto(f)
    requires id in pubs ==> pubs[id].ip == ip
    ensures ChainHolds(c, AppendOnce(s, RuleFor(c, id, ip, f)), Gained(pubs, id, ip, f))
  {
    hide Foreign, RuleFor, ValidProto, WellId;
    var new_, pubs' := RuleFor(c, id, ip, f), Gained(pubs, id, ip, f);
    var s' := AppendOnce(s, new_);
    GainedOwner(c, pubs, id, ip, f);
    NewRuleCount(c, s, pubs, id, ip, f);
    AppendOnceBag(s, new_);
    forall r | r in s' ensures Foreign(c, r) || exists x :: x in pubs' && Owns(c, r, x, pubs'[x]) {
      if r == new_ {
        assert id in pubs' && Owns(c, r, id, pubs'[id]);
      } else if !Foreign(c, r) {
        assert r in s;
        var x :| x in pubs && Owns(c, r, x, pubs[x]);
        assert Owns(c, r, x, pubs'[x]);
      }
    }
  }

  lemma AppendOnceBag(s: seq<Rule>, r: Rule)
    ensures multiset(AppendOnce(s, r)) == if r in s then multiset(s) else multiset(s) + multiset{r}
  {
  }

  /** A rule written for a sandbox that is in the chain already is there once. */
  lemma NewRuleCount(c: string, s: seq<Rule>, pubs: map<string, Pub>, id: string, ip: nat, f: Forward)
    requires c in {PREROUTING, OUTPUT} && ValidPubs(pubs) && ChainHolds(c, s, pubs) && WellId(id) && ValidProto(f)
    ensures RuleFor(c, id, ip, f) in s ==> multiset(s)[RuleFor(c, id, ip, f)] == 1
  {
    hide ValidProto, TagOf;
    var r := RuleFor(c, id, ip, f);
    assert r in RulesFor(c, id, ip, [f]) by { assert RulesFor(c, id, ip, [f])[0] == r; }
    OwnArguments(c, s, pubs, id, ip, [f], r);
  }

  function Gained(pubs: map<string, Pub>, id: string, ip: nat, f: Forward): map<string, Pub> {
    pubs[id := Pub(ip, (if id in pubs then pubs[id].forwards else []) + [f])]
  }

  lemma GainedOwner(c: string, pubs: map<string, Pub>, id: string, ip: nat, f: Forward)
    requires id in pubs ==> pubs[id].ip == ip
    ensures forall r :: Owns(c, r, id, Gained(pubs, id, ip, f)[id]) <==>
              r == RuleFor(c, id, ip, f) || (id in pubs && Owns(c, r, id, pubs[id]))
    ensures forall x, r :: x != id && x in pubs ==>
              (Owns(c, r, x, Gained(pubs, id, ip, f)[x]) <==> Owns(c, r, x, pubs[x]))
  {
    var fs := (if id in pubs then pubs[id].forwards else []) + [f];
    forall r
      ensures Owns(c, r, id, Pub(ip, fs)) <==> r == RuleFor(c, id, ip, f) || (id in pubs && Owns(c, r, id, pubs[id]))
    {
      if r == RuleFor(c, id, ip, f) {
        assert fs[|fs| - 1] == f;
      } else if id in pubs && Owns(c, r, id, pubs[id]) {
        var i :| 0 <= i < |pubs[id].forwards| && r == RuleFor(c, id, pubs[id].ip, pubs[id].forwards[i]);
        assert fs[i] == pubs[id].forwards[i];
      }
    }
  }

  /** One of the ids outside `left` owns the rule. */
  ghost predicate OwnedOutside(c: string, r: Rule, pubs: map<string, Pub>, left: set<string>) {
    exists id :: id in pubs && id !in left && Owns(c, r, id, pubs[id])
  }

  /** A chain that lost exactly the rules of the ids outside `left`. */
  lemma ChainKeeps(c: string, s: seq<Rule>, s': seq<Rule>, pubs: map<string, Pub>, left: set<string>)
    requires ChainHolds(c, s, pubs)
    requires forall r :: multiset(s')[r] == if OwnedOutside(c, r, pubs, left) then 0 else multiset(s)[r]
    requires forall r, a, b :: a in pubs && b in pubs && Owns(c, r, a, pubs[a]) && Owns(c, r, b, pubs[b]) ==> a == b
    ensures ChainHolds(c, s', Kept(pubs, left))
  {
    hide Foreign, Owns;
    var pubs' := Kept(pubs, left);
    forall r | r in s' ensures Foreign(c, r) || exists id :: id in pubs' && Owns(c, r, id, pubs'[id]) {
      assert r in multiset(s') && r in multiset(s);
      if !Foreign(c, r) {
        var id :| id in pubs && Owns(c, r, id, pubs[id]);
        assert id in pubs' && Owns(c, r, id, pubs'[id]);
      }
    }
    forall id, r | id in pubs' && Owns(c, r, id, pubs'[id]) ensures multiset(s')[r] == 1 {
      assert id in pubs && Owns(c, r, id, pubs[id]);
      assert !OwnedOutside(c, r, pubs, left);
    }
  }

  function Kept(pubs: map<string, Pub>, left: set<string>): map<string, Pub> {
    map id | id in pubs && id in left :: pubs[id]
  }

  lemma SingleOwner(c: string, pubs: map<string, Pub>)
    requires c in {PREROUTING, OUTPUT} && ValidPubs(pubs)
    ensures forall r, a, b :: a in pubs && b in pubs && Owns(c, r, a, pubs[a]) && Owns(c, r, b, pubs[b]) ==> a == b
  {
    forall r, a, b | a in pubs && b in pubs && Owns(c, r, a, pubs[a]) && Owns(c, r, b, pubs[b]) ensures a == b {
      OwnedTag(c, r, a, pubs[a]);
      OwnedTag(c, r, b, pubs[b]);
    }
  }

  /** The orphan sweep leaves exactly the foreign rules and the rules of the kept ids, in order. */
  lemma OrphansSwept(c: string, s: seq<Rule>, pubs: map<string, Pub>, keep: set<string>)
    requires c in {PREROUTING, OUTPUT} && ValidPubs(pubs) && ChainHolds(c, s, pubs)
    ensures Swept(s, Lines(c, s, Bare), Orphans(keep)) == Strip(s, Picked(c, s, Orphans(keep)))
    ensures ChainHolds(c, Swept(s, Lines(c, s, Bare), Orphans(keep)), Kept(pubs, keep))
  {
    hide Picks, Line, Swept, Owns, Foreign, Printable;
    ChainsDiffer();
    forall r | r in s
      ensures Printable(r)
      ensures Picks(Orphans(keep), Line(c, r, Bare))
         <==> exists id :: id in pubs && Owns(c, r, id, pubs[id]) && id !in keep
    {
      OrphanPick(c, r, pubs, keep);
    }
    SweepIsFilter(c, s, Orphans(keep));
    var s' := Strip(s, Picked(c, s, Orphans(keep)));
    forall r ensures multiset(s')[r] == if OwnedOutside(c, r, pubs, keep) then 0 else multiset(s)[r] {
      StripCount(s, Picked(c, s, Orphans(keep)), r);
      assert r in s <==> r in multiset(s);
    }
    SingleOwner(c, pubs);
    ChainKeeps(c, s, s', pubs, keep);
  }

  /** Sweeping one sandbox's tag removes exactly the rules of the ids that extend it. */
  lemma TagSwept(c: string, s: seq<Rule>, pubs: map<string, Pub>, wanted: string)
    requires c in {PREROUTING, OUTPUT} && ValidPubs(pubs) && NoSpace(wanted)
    requires forall r :: r in s ==> Foreign(c, r) || exists id :: id in pubs && Owns(c, r, id, pubs[id])
    ensures Swept(s, Lines(c, s, Bare), Tagged(wanted)) == Strip(s, Picked(c, s, Tagged(wanted)))
    ensures forall r :: r in Picked(c, s, Tagged(wanted)) <==>
              r in s && exists id :: id in pubs && Owns(c, r, id, pubs[id]) && wanted <= id
  {
    hide Picks, Line, Swept, Owns, Foreign, Printable;
    ChainsDiffer();
    forall r | r in s
      ensures Printable(r)
      ensures Picks(Tagged(wanted), Line(c, r, Bare))
         <==> exists id :: id in pubs && Owns(c, r, id, pubs[id]) && wanted <= id
    {
      TaggedPick(c, r, pubs, wanted);
    }
    SweepIsFilter(c, s, Tagged(wanted));
  }

  ghost function OwnedIn(c: string, s: seq<Rule>, pubs: map<string, Pub>, id: string): set<Rule> {
    set r | r in s && id in pubs && Owns(c, r, id, pubs[id])
  }

  /** A tag sweep is exact, that is it removes the sandbox's own rules and nothing else, exactly when no
      other publishing sandbox's id begins with the sandbox's id. */
  lemma TagSweepExactIff(c: string, s: seq<Rule>, pubs: map<string, Pub>, id: string)
    requires c in {PREROUTING, OUTPUT} && ValidPubs(pubs) && ChainHolds(c, s, pubs) && WellId(id)
    ensures Swept(s, Lines(c, s, Bare), Tagged(id)) == Strip(s, OwnedIn(c, s, pubs, id))
       <==> forall x :: x in pubs && id <= x && pubs[x].forwards != [] ==> x == id
  {
    hide Swept, Owns, Foreign, Picks, Line, Strip;
    var picked, owned := Picked(c, s, Tagged(id)), OwnedIn(c, s, pubs, id);
    TagSwept(c, s, pubs, id);
    if forall x :: x in pubs && id <= x && pubs[x].forwards != [] ==> x == id {
      forall r | r in s ensures r in picked <==> r in owned {
        if r in picked {
          var x :| x in pubs && Owns(c, r, x, pubs[x]) && id <= x;
          OwnerPublishes(c, r, x, pubs[x]);
        }
      }
      StripAgree(s, picked, owned);
    } else {
      var x :| x in pubs && id <= x && pubs[x].forwards != [] && x != id;
      var r := RuleFor(c, x, pubs[x].ip, pubs[x].forwards[0]);
      assert Owns(c, r, x, pubs[x]) by { FirstRuleOwned(c, x, pubs[x]); }
      assert r in multiset(s);
      SingleOwner(c, pubs);
      StripMembers(s, picked, r);
      StripMembers(s, owned, r);
    }
  }

  lemma OwnerPublishes(c: string, r: Rule, id: string, pub: Pub)
    requires Owns(c, r, id, pub)
    ensures pub.forwards != []
  {
  }

  lemma FirstRuleOwned(c: string, id: string, pub: Pub)
    requires pub.forwards != []
    ensures Owns(c, RuleFor(c, id, pub.ip, pub.forwards[0]), id, pub)
  {
  }

  // Removing one sandbox.

  function RulesFor(c: string, id: string, ip: nat, fs: seq<Forward>): seq<Rule> {
    seq(|fs|, i requires 0 <= i < |fs| => RuleFor(c, id, ip, fs[i]))
  }

  lemma {:induction false} UnpublishChains(t: Table, id: string, ip: nat, fs: seq<Forward>)
    requires PREROUTING in t && OUTPUT in t
    ensures UnpublishTable(t, id, ip, fs)
         == t[PREROUTING := RemoveAll(t[PREROUTING], RulesFor(PREROUTING, id, ip, fs))]
             [OUTPUT := RemoveAll(t[OUTPUT], RulesFor(OUTPUT, id, ip, fs))]
  {
    hide PreRule, OutRule, RemoveFirst;
    ChainsDiffer();
    if fs == [] {
      assert t == t[PREROUTING := t[PREROUTING]][OUTPUT := t[OUTPUT]];
    } else {
      var init := fs[..|fs| - 1];
      UnpublishChains(t, id, ip, init);
      assert RulesFor(PREROUTING, id, ip, fs)[..|fs| - 1] == RulesFor(PREROUTING, id, ip, init);
      assert RulesFor(OUTPUT, id, ip, fs)[..|fs| - 1] == RulesFor(OUTPUT, id, ip, init);
    }
  }

  lemma {:induction false} StripAfterRemoveAll(s: seq<Rule>, rs: seq<Rule>, drop: set<Rule>)
    requires forall r :: r in rs ==> r in drop || r !in s
    ensures Strip(RemoveAll(s, rs), drop) == Strip(s, drop)
  {
    if rs != [] {
      var init, r := rs[..|rs| - 1], rs[|rs| - 1];
      assert r in rs && forall x :: x in init ==> x in rs;
      StripAfterRemoveAll(s, init, drop);
      StripRemove(RemoveAll(s, init), drop, r);
      if r !in drop {
        RemoveAllMembers(s, init, r);
        RemoveAbsent(RemoveAll(s, init), r);
      }
    }
  }

  /** A rule written for `id`, with whatever address and ports, is in the chain only if `id` owns it. */
  lemma OwnArguments(c: string, s: seq<Rule>, pubs: map<string, Pub>, id: string, ip: nat, fs: seq<Forward>, r: Rule)
    requires c in {PREROUTING, OUTPUT} && ValidPubs(pubs) && ChainHolds(c, s, pubs) && WellId(id)
    requires forall i :: 0 <= i < |fs| ==> ValidProto(fs[i])
    requires r in RulesFor(c, id, ip, fs)
    ensures r in OwnedIn(c, s, pubs, id) || r !in s
  {
    hide ValidProto, TagOf;
    var i :| 0 <= i < |fs| && r == RuleFor(c, id, ip, fs[i]);
    assert Pub(ip, fs).forwards[i] == fs[i];
    assert Owns(c, r, id, Pub(ip, fs));
    OwnedTag(c, r, id, Pub(ip, fs));
    if r in s {
      var x :| x in pubs && Owns(c, r, x, pubs[x]);
      OwnedTag(c, r, x, pubs[x]);
    }
  }

  lemma CleanedHolds(c: string, s: seq<Rule>, pubs: map<string, Pub>, id: string)
    requires c in {PREROUTING, OUTPUT} && ValidPubs(pubs) && ChainHolds(c, s, pubs)
    ensures ChainHolds(c, Strip(s, OwnedIn(c, s, pubs, id)), Kept(pubs, pubs.Keys - {id}))
  {
    hide Owns, Foreign, Strip;
    var s' := Strip(s, OwnedIn(c, s, pubs, id));
    forall r ensures multiset(s')[r] == if OwnedOutside(c, r, pubs, pubs.Keys - {id}) then 0 else multiset(s)[r] {
      StripCount(s, OwnedIn(c, s, pubs, id), r);
      assert r in s <==> r in multiset(s);
    }
    SingleOwner(c, pubs);
    ChainKeeps(c, s, s', pubs, pubs.Keys - {id});
  }
}
