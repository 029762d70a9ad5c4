/** Publishing host ports: tagged address-translation rules, their removal by specification, by tag and
    by orphan sweep. */
module Nat {
  import opened Text
  import opened Rules
  import opened Tables

  datatype Forward = Forward(hostPort: int, containerPort: int, protocol: string)

  const PREROUTING := "PREROUTING"
  const OUTPUT := "OUTPUT"
  const TAG := "SBX:"
  const COMMENT := "--comment"

  function PreRule(id: string, ip: nat, f: Forward): Rule {
    Rule([Protocol(NormalizeProto(f.protocol)), DestPort(f.hostPort), Comment(TAG + id)], Dnat(ip, f.containerPort))
  }

  function OutRule(id: string, ip: nat, f: Forward): Rule {
    Rule([DestLocal, Protocol(NormalizeProto(f.protocol)), DestPort(f.hostPort), Comment(TAG + id)],
      Dnat(ip, f.containerPort))
  }

  datatype Outcome = Outcome(table: Table, ok: bool)

  function PublishOne(t: Table, id: string, ip: nat, f: Forward): Outcome {
    if PREROUTING !in t then Outcome(t, false)
    else
      var t1 := WithAppend(t, PREROUTING, PreRule(id, ip, f));
      Outcome(WithAppend(t1, OUTPUT, OutRule(id, ip, f)), OUTPUT in t1)
  }

  /** Forwards are published in order; the first failure ends the call. */
  function PublishTable(t: Table, id: string, ip: nat, fs: seq<Forward>): Outcome {
    if fs == [] then Outcome(t, true)
    else
      var before := PublishTable(t, id, ip, fs[..|fs| - 1]);
      if before.ok then PublishOne(before.table, id, ip, fs[|fs| - 1]) else before
  }

  function UnpublishTable(t: Table, id: string, ip: nat, fs: seq<Forward>): Table {
    if fs == [] then t
    else
      var before := UnpublishTable(t, id, ip, fs[..|fs| - 1]);
      var f := fs[|fs| - 1];
      WithDelete(WithDelete(before, PREROUTING, PreRule(id, ip, f)), OUTPUT, OutRule(id, ip, f))
  }

  lemma {:induction false} PublishPrefix(t: Table, id: string, ip: nat, fs: seq<Forward>, i: nat)
    requires i <= |fs| && !PublishTable(t, id, ip, fs[..i]).ok
    ensures PublishTable(t, id, ip, fs) == PublishTable(t, id, ip, fs[..i])
    decreases |fs|
  {
    if i == |fs| {
      assert fs[..i] == fs;
    } else {
      assert fs[..|fs| - 1][..i] == fs[..i];
      PublishPrefix(t, id, ip, fs[..|fs| - 1], i);
    }
  }

  /** Without one of the two chains publishing gets no further than the first rule it can write. */
  lemma {:induction false} PublishStops(t: Table, id: string, ip: nat, fs: seq<Forward>)
    requires PREROUTING !in t || OUTPUT !in t
    requires fs != []
    ensures PublishTable(t, id, ip, fs) == Outcome(WithAppend(t, PREROUTING, PreRule(id, ip, fs[0])), false)
  {
    hide PreRule, OutRule;
    if |fs| > 1 {
      PublishStops(t, id, ip, fs[..|fs| - 1]);
    } else {
      assert fs[..0] == [];
      assert PREROUTING[0] != OUTPUT[0];
    }
  }

  method ApplyHostPortDNAT(nat_: RuleTable, id: string, ip: nat, forwards: seq<Forward>) returns (ok: bool)
    modifies nat_
    ensures Outcome(nat_.chains, ok) == PublishTable(old(nat_.chains), id, ip, forwards)
  {
    ghost var t := nat_.chains;
    for i := 0 to |forwards|
      invariant Outcome(nat_.chains, true) == PublishTable(t, id, ip, forwards[..i])
    {
      var f := forwards[i];
      assert forwards[..i + 1][..i] == forwards[..i];
      ok := nat_.AppendUnique(PREROUTING, PreRule(id, ip, f));
      if !ok {
        PublishPrefix(t, id, ip, forwards, i + 1);
        return;
      }
      ok := nat_.AppendUnique(OUTPUT, OutRule(id, ip, f));
      if !ok {
        PublishPrefix(t, id, ip, forwards, i + 1);
        return;
      }
    }
    assert forwards[..|forwards|] == forwards;
    return true;
  }

  method DeleteHostPortDNAT(nat_: RuleTable, id: string, ip: nat, forwards: seq<Forward>)
    modifies nat_
    ensures nat_.chains == UnpublishTable(old(nat_.chains), id, ip, forwards)
  {
    ghost var t := nat_.chains;
    for i := 0 to |forwards|
      invariant nat_.chains == UnpublishTable(t, id, ip, forwards[..i])
    {
      var f := forwards[i];
      assert forwards[..i + 1][..i] == forwards[..i];
      var _ := nat_.Delete(PREROUTING, PreRule(id, ip, f));
      var _ := nat_.Delete(OUTPUT, OutRule(id, ip, f));
    }
    assert forwards[..|forwards|] == forwards;
  }

  /** The sandbox id a rule is tagged with, looking from field `i` on; empty when there is none. */
  function TagFrom(fields: seq<string>, i: nat): string
    decreases |fields| - i
  {
    if i + 1 >= |fields| then ""
    else if fields[i] == COMMENT && TAG <= TrimQuotes(fields[i + 1]) then TrimQuotes(fields[i + 1])[|TAG|..]
    else TagFrom(fields, i + 1)
  }

  method SandboxIDFromRule(fields: seq<string>) returns (id: string)
    ensures id == TagFrom(fields, 0)
  {
    var i := 0;
    while i + 1 < |fields|
      invariant i <= |fields|
      invariant TagFrom(fields, 0) == TagFrom(fields, i)
    {
      if fields[i] != COMMENT {
        i := i + 1;
        continue;
      }
      var v := TrimQuotes(fields[i + 1]);
      if TAG <= v {
        return v[|TAG|..];
      }
      i := i + 1;
    }
    return "";
  }

  /** Which listed lines a sweep deletes. */
  datatype Sweep =
    | Tagged(id: string)
    | Orphans(keep: set<string>)

  predicate RuleLine(fields: seq<string>) {
    |fields| >= 3 && fields[0] == "-A"
  }

  predicate Picks(sweep: Sweep, line: string) {
    var fields := Fields(TrimSpace(line));
    && RuleLine(fields)
    && match sweep
       case Tagged(id) => Contains(line, COMMENT + " " + (TAG + id))
       case Orphans(keep) => TagFrom(fields, 0) != "" && TagFrom(fields, 0) !in keep
  }

  /** A line too short to hold a rule behind the chain's name is never picked, nor is one that is no rule. */
  lemma ShortLines(sweep: Sweep, line: string)
    ensures Picks(sweep, line) ==>
              |Fields(TrimSpace(line))| > 2 && Fields(TrimSpace(line))[0] == "-A"
  {
  }

  /** The list after each picked line of an earlier listing has been deleted by its content. */
  function Swept(s: seq<Rule>, lines: seq<string>, sweep: Sweep): seq<Rule> {
    if lines == [] then s
    else
      var before := Swept(s, lines[..|lines| - 1], sweep);
      var line := lines[|lines| - 1];
      if Picks(sweep, line) then RemoveSpec(before, Fields(TrimSpace(line))[2..]) else before
  }

  function SweptChain(t: Table, c: string, listing: Listing, sweep: Sweep): Table {
    if c in t then t[c := Swept(t[c], Lines(c, t[c], listing), sweep)] else t
  }

  function SweptTable(t: Table, listing: Listing, sweep: Sweep): Table {
    SweptChain(SweptChain(t, PREROUTING, listing, sweep), OUTPUT, listing, sweep)
  }

  method DeleteTagged(nat_: RuleTable, c: string, id: string)
    modifies nat_
    ensures nat_.chains == SweptChain(old(nat_.chains), c, nat_.listing, Tagged(id))
  {
    var tag := COMMENT + " " + (TAG + id);
    ghost var t := nat_.chains;
    var listed := nat_.List(c);
    if listed.None? {
      return;
    }
    var lines := listed.value;
    assert t == t[c := t[c]];
    for i := 0 to |lines|
      invariant nat_.chains == t[c := Swept(t[c], lines[..i], Tagged(id))]
    {
      assert lines[..i + 1][..i] == lines[..i];
      var line := lines[i];
      if !Contains(line, tag) {
        continue;
      }
      var fields := Fields(TrimSpace(line));
      if |fields| < 3 || fields[0] != "-A" {
        continue;
      }
      nat_.DeleteSpec(c, fields[2..]);
    }
    assert lines[..|lines|] == lines;
  }

  method DeleteHostPortDNATBySandbox(nat_: RuleTable, id: string)
    modifies nat_
    ensures nat_.chains == SweptTable(old(nat_.chains), nat_.listing, Tagged(id))
  {
    DeleteTagged(nat_, PREROUTING, id);
    DeleteTagged(nat_, OUTPUT, id);
  }

  method CleanupOrphans(nat_: RuleTable, c: string, keep: set<string>)
    modifies nat_
    ensures nat_.chains == SweptChain(old(nat_.chains), c, nat_.listing, Orphans(keep))
  {
    ghost var t := nat_.chains;
    var listed := nat_.List(c);
    if listed.None? {
      return;
    }
    var lines := listed.value;
    assert t == t[c := t[c]];
    for i := 0 to |lines|
      invariant nat_.chains == t[c := Swept(t[c], lines[..i], Orphans(keep))]
    {
      assert lines[..i + 1][..i] == lines[..i];
      var fields := Fields(TrimSpace(lines[i]));
      if |fields| < 3 || fields[0] != "-A" {
        continue;
      }
      var id := SandboxIDFromRule(fields);
      if id == "" {
        continue;
      }
      if id in keep {
        continue;
      }
      nat_.DeleteSpec(c, fields[2..]);
    }
    assert lines[..|lines|] == lines;
  }

  method DeleteOrphanHostPortDNAT(nat_: RuleTable, keep: set<string>)
    modifies nat_
    ensures nat_.chains == SweptTable(old(nat_.chains), nat_.listing, Orphans(keep))
  {
    CleanupOrphans(nat_, PREROUTING, keep);
    CleanupOrphans(nat_, OUTPUT, keep);
  }

  /** The rules of a chain that a sweep is after, judged by their listed lines. */
  ghost function Picked(c: string, s: seq<Rule>, sweep: Sweep): set<Rule> {
    set r | r in s && Picks(sweep, Line(c, r, Bare))
  }

  lemma {:induction false} RemoveSpecPast(a: seq<Rule>, r: Rule, b: seq<Rule>)
    requires forall i :: 0 <= i < |a| ==> Render(a[i]) != Render(r)
    ensures RemoveSpec(a + [r] + b, Render(r)) == a + b
  {
    hide Render;
    if a == [] {
      assert a + [r] + b == [r] + b && a + b == b && ([r] + b)[1..] == b;
    } else {
      assert (a + [r] + b)[1..] == a[1..] + [r] + b;
      RemoveSpecPast(a[1..], r, b);
      assert [a[0]] + (a[1..] + b) == a + b;
    }
  }

  /** Rules written with the same words are listed the same and so picked together. */
  lemma SameWordsSamePick(c: string, a: Rule, b: Rule, sweep: Sweep)
    requires Render(a) == Render(b)
    ensures Picks(sweep, Line(c, a, Bare)) <==> Picks(sweep, Line(c, b, Bare))
  {
    BareMatches(a.matches);
    BareMatches(b.matches);
  }

  /** A sweep that lists once and then deletes by content, one occurrence at a time, leaves exactly
      the rules it is not after, in their order, duplicates included. */
  lemma SweepIsFilter(c: string, s: seq<Rule>, sweep: Sweep)
    requires IsWord(c) && forall r :: r in s ==> Printable(r)
    ensures Swept(s, Lines(c, s, Bare), sweep) == Strip(s, Picked(c, s, sweep))
  {
    var lines := Lines(c, s, Bare);
    SweepProgress(c, s, sweep, |s|);
    assert lines[..|s|] == lines && s[..|s|] == s && s[|s|..] == [];
  }

  /** One listed line: its rule is the first one left that is written with the line's words. */
  lemma SweepStep(c: string, done: seq<Rule>, r: Rule, rest: seq<Rule>, sweep: Sweep)
    requires IsWord(c) && Printable(r)
    requires forall x :: x in done ==> !Picks(sweep, Line(c, x, Bare))
    requires Picks(sweep, Line(c, r, Bare))
    ensures |Fields(TrimSpace(Line(c, r, Bare)))| >= 2
    ensures RemoveSpec(done + [r] + rest, Fields(TrimSpace(Line(c, r, Bare)))[2..]) == done + rest
  {
    hide Picks, Line, Printable, Render;
    LineFields(c, r);
    assert (["-A", c] + Render(r))[2..] == Render(r);
    forall i | 0 <= i < |done| ensures Render(done[i]) != Render(r) {
      if Render(done[i]) == Render(r) {
        SameWordsSamePick(c, done[i], r, sweep);
        assert false;
      }
    }
    RemoveSpecPast(done, r, rest);
  }

  lemma StripSnoc(s: seq<Rule>, k: nat, drop: set<Rule>)
    requires k < |s|
    ensures Strip(s[..k + 1], drop) == Strip(s[..k], drop) + if s[k] in drop then [] else [s[k]]
    ensures s[k..] == [s[k]] + s[k + 1..]
  {
    assert s[..k + 1] == s[..k] + [s[k]];
    StripConcat(s[..k], [s[k]], drop);
    assert [s[k]][1..] == [];
  }

  lemma SweptSnoc(s: seq<Rule>, lines: seq<string>, k: nat, sweep: Sweep)
    requires k < |lines|
    ensures Swept(s, lines[..k + 1], sweep)
         == if Picks(sweep, lines[k]) then RemoveSpec(Swept(s, lines[..k], sweep), Fields(TrimSpace(lines[k]))[2..])
            else Swept(s, lines[..k], sweep)
  {
    assert lines[..k + 1][..k] == lines[..k];
  }

  lemma {:induction false} SweepProgress(c: string, s: seq<Rule>, sweep: Sweep, k: nat)
    requires IsWord(c) && k <= |s| && forall r :: r in s ==> Printable(r)
    ensures Swept(s, Lines(c, s, Bare)[..k], sweep) == Strip(s[..k], Picked(c, s, sweep)) + s[k..]
  {
    hide Printable, Line, Strip, Swept, RemoveSpec;
    var lines, drop := Lines(c, s, Bare), Picked(c, s, sweep);
    if k == 0 {
      assert Strip(s[..0], drop) == [] && Swept(s, lines[..0], sweep) == s by { SweepStart(s, lines, drop, sweep); }
    } else {
      var r, done := s[k - 1], Strip(s[..k - 1], drop);
      SweepProgress(c, s, sweep, k - 1);
      StripSnoc(s, k - 1, drop);
      SweptSnoc(s, lines, k - 1, sweep);
      assert done + ([r] + s[k..]) == done + [r] + s[k..];
      assert done + [] == done;
      if r in drop {
        forall x | x in done ensures !Picks(sweep, Line(c, x, Bare)) {
          StripMembers(s[..k - 1], drop, x);
        }
        SweepStep(c, done, r, s[k..], sweep);
      }
    }
  }

  lemma SweepStart(s: seq<Rule>, lines: seq<string>, drop: set<Rule>, sweep: Sweep)
    ensures Strip(s[..0], drop) == [] && Swept(s, lines[..0], sweep) == s
  {
  }

  /** Listings that put comments in quotes: the tags are still read, but deleting a listed line by its
      content finds no rule, so the sweep changes nothing. */
  lemma {:induction false} QuotedSweepDeletesNothing(c: string, s: seq<Rule>, lines: seq<string>, sweep: Sweep)
    requires forall i, r :: 0 <= i < |lines| && r in s && Picks(sweep, lines[i]) ==>
               Render(r) != Fields(TrimSpace(lines[i]))[2..]
    ensures Swept(s, lines, sweep) == s
  {
    if lines != [] {
      var line := lines[|lines| - 1];
      QuotedSweepDeletesNothing(c, s, lines[..|lines| - 1], sweep);
      if Picks(sweep, line) {
        assert lines[|lines| - 1] == line;
        RemoveSpecAbsent(s, Fields(TrimSpace(line))[2..]);
      }
    }
  }

  lemma {:induction false} RemoveSpecAbsent(s: seq<Rule>, words: seq<string>)
    requires forall r :: r in s ==> Render(r) != words
    ensures RemoveSpec(s, words) == s
  {
    if s != [] {
      assert s[0] in s && forall r :: r in s[1..] ==> r in s;
      RemoveSpecAbsent(s[1..], words);
    }
  }
}
