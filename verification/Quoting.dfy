/** Sweeps over a listing that puts comments in double quotes. */
module Quoting {
  import opened Text
  import opened Rules
  import opened Tables
  import opened Nat
  import opened Tags
  import opened Published

  predicate AllWords(words: seq<string>) {
    forall i :: 0 <= i < |words| ==> IsWord(words[i])
  }

  lemma AllWordsConcat(a: seq<string>, b: seq<string>)
    ensures AllWords(a + b) <==> AllWords(a) && AllWords(b)
  {
    hide IsWord;
    assert forall i :: 0 <= i < |a| ==> a[i] == (a + b)[i];
    assert forall i :: 0 <= i < |b| ==> b[i] == (a + b)[|a| + i];
  }

  lemma QuotedCommentWords(text: string)
    requires IsWord(text)
    ensures AllWords(["-m", "comment", "--comment", "\"" + text + "\""])
  {
  }

  lemma {:induction false} QuotedMatchWords(ms: seq<Match>)
    requires AllWords(RenderMatches(ms))
    ensures AllWords(ShowMatches(ms, Quoted))
  {
    if ms != [] {
      hide AllWords;
      var head := RenderMatch(ms[0]);
      AllWordsConcat(head, RenderMatches(ms[1..]));
      QuotedMatchWords(ms[1..]);
      if ms[0].Comment? {
        assert IsWord(ms[0].text) by { CommentWord(ms[0].text); }
        QuotedCommentWords(ms[0].text);
        AllWordsConcat(["-m", "comment", "--comment", "\"" + ms[0].text + "\""], ShowMatches(ms[1..], Quoted));
      } else {
        AllWordsConcat(head, ShowMatches(ms[1..], Quoted));
      }
    }
  }

  lemma CommentWord(text: string)
    requires AllWords(RenderMatch(Comment(text)))
    ensures IsWord(text)
  {
    assert RenderMatch(Comment(text))[3] == text;
  }

  /** The fields of a listed line are its words, comments quoted. */
  lemma QuotedFields(c: string, r: Rule)
    requires IsWord(c) && Printable(r)
    ensures Fields(TrimSpace(Line(c, r, Quoted))) == ["-A", c] + Shown(r, Quoted)
  {
    hide Fields, TrimSpace, Join, IsWord;
    assert AllWords(Render(r));
    AllWordsConcat(RenderMatches(r.matches), RenderTarget(r.target));
    QuotedMatchWords(r.matches);
    AllWordsConcat(ShowMatches(r.matches, Quoted), RenderTarget(r.target));
    LineWords(c, Shown(r, Quoted));
  }

  predicate LeadsWithQuote(word: string) {
    word != "" && word[0] == '"'
  }

  /** No word leads with a quote. */
  predicate Plain(words: seq<string>) {
    forall i :: 0 <= i < |words| ==> !LeadsWithQuote(words[i])
  }

  /** A rule shown without a leading quote anywhere is shown as it is written. */
  lemma {:induction false} ShownPlain(ms: seq<Match>)
    requires Plain(ShowMatches(ms, Quoted))
    ensures ShowMatches(ms, Quoted) == RenderMatches(ms)
  {
    if ms != [] {
      var rest := ShowMatches(ms[1..], Quoted);
      var all := ShowMatches(ms, Quoted);
      assert forall i :: 0 <= i < |rest| ==> rest[i] == all[|all| - |rest| + i];
      ShownPlain(ms[1..]);
      if ms[0].Comment? {
        assert LeadsWithQuote(all[3]);
      }
    }
  }

  /** No word of a translation rule as it is written leads with a quote; shown quoted, its tag does. */
  lemma TranslationQuotes(c: string, id: string, ip: nat, f: Forward)
    requires ValidProto(f)
    ensures Plain(Render(RuleFor(c, id, ip, f))) && !Plain(Shown(RuleFor(c, id, ip, f), Quoted))
  {
    hide RuleWords;
    RenderIsWords(c, id, ip, f);
    ShownIsWords(c, id, ip, f, Quoted);
    OtherWords(c, id, ip, f, Quoted, 0);
    assert LeadsWithQuote(RuleWords(c, id, ip, f, Quoted)[|Lead(c)| + 7]);
    forall i | 0 <= i < |RuleWords(c, id, ip, f, Bare)| ensures !LeadsWithQuote(RuleWords(c, id, ip, f, Bare)[i]) {
      PlainWord(c, id, ip, f, i);
    }
  }

  lemma PlainWord(c: string, id: string, ip: nat, f: Forward, i: nat)
    requires ValidProto(f) && i < |RuleWords(c, id, ip, f, Bare)|
    ensures !LeadsWithQuote(RuleWords(c, id, ip, f, Bare)[i])
  {
    hide NormalizeProto, Itoa, TargetText;
    ItoaIsWord(f.hostPort);
    assert Itoa(f.hostPort)[0] != '"';
    TargetTextIsWord(ip, f.containerPort);
  }

  /** No sweep is after a rule of another program. */
  lemma ForeignNotPicked(c: string, r: Rule, sweep: Sweep)
    requires Foreign(c, r)
    ensures !Picks(sweep, Line(c, r, Bare))
  {
    hide Contains, Line, Fields, TrimSpace;
    if sweep.Tagged? && Contains(Line(c, r, Bare), COMMENT + " " + (TAG + sweep.id)) {
      assert COMMENT + " " + (TAG + sweep.id) == COMMENT + " " + TAG + sweep.id;
      ContainsShorter(Line(c, r, Bare), COMMENT + " " + TAG, sweep.id);
      assert false;
    }
  }

  ghost predicate OwnedByAny(c: string, r: Rule, pubs: map<string, Pub>) {
    exists id :: id in pubs && Owns(c, r, id, pubs[id])
  }

  lemma OwnedLooks(c: string, r: Rule, pubs: map<string, Pub>)
    requires c in {PREROUTING, OUTPUT} && ValidPubs(pubs) && OwnedByAny(c, r, pubs)
    ensures Printable(r) && TagOf(c, r) != "" && Plain(Render(r)) && !Plain(Shown(r, Quoted))
  {
    hide RuleFor, Render, Shown, Plain, ValidProto;
    var id :| id in pubs && Owns(c, r, id, pubs[id]);
    OwnedTag(c, r, id, pubs[id]);
    var i :| 0 <= i < |pubs[id].forwards| && r == RuleFor(c, id, pubs[id].ip, pubs[id].forwards[i]);
    TranslationQuotes(c, id, pubs[id].ip, pubs[id].forwards[i]);
  }

  /** A rule shown quoted the way another one is written, without a leading quote, is written like it. */
  lemma ShownLikeWritten(c: string, x: Rule, y: Rule)
    requires Shown(y, Quoted) == Render(x) && Plain(Render(x))
    ensures Line(c, y, Quoted) == Line(c, x, Bare) == Line(c, y, Bare)
  {
    hide Join;
    var shown := ShowMatches(y.matches, Quoted);
    assert forall i :: 0 <= i < |shown| ==> shown[i] == Shown(y, Quoted)[i];
    ShownPlain(y.matches);
    BareMatches(x.matches);
    BareMatches(y.matches);
  }

  lemma ShownWritten(c: string, x: Rule, y: Rule)
    requires Shown(y, Quoted) == Render(x)
    ensures Line(c, y, Quoted) == Line(c, x, Bare)
  {
    hide Join;
    BareMatches(x.matches);
  }

  /** No listed line that a sweep picks is written like a rule of the chain. */
  lemma QuotedLineDiffers(c: string, x: Rule, y: Rule, pubs: map<string, Pub>, sweep: Sweep)
    requires c in {PREROUTING, OUTPUT} && ValidPubs(pubs)
    requires (Foreign(c, x) || OwnedByAny(c, x, pubs)) && (Foreign(c, y) || OwnedByAny(c, y, pubs))
    requires Picks(sweep, Line(c, y, Quoted))
    ensures |Fields(TrimSpace(Line(c, y, Quoted)))| >= 2 && Render(x) != Fields(TrimSpace(Line(c, y, Quoted)))[2..]
  {
    hide Picks, Fields, TrimSpace, Line, Shown, Render, Printable, TagFrom, Contains, OwnedByAny, Plain, IsWord;
    ChainsDiffer();
    if !Foreign(c, y) { OwnedLooks(c, y, pubs); }
    QuotedFields(c, y);
    assert (["-A", c] + Shown(y, Quoted))[2..] == Shown(y, Quoted);
    if Render(x) == Shown(y, Quoted) {
      ShownWritten(c, x, y);
      if Foreign(c, x) { ForeignNotPicked(c, x, sweep); }
      OwnedLooks(c, x, pubs);
      ShownLikeWritten(c, x, y);
    }
  }

  /** Over a listing that quotes comments either sweep leaves the whole chain, with the rules of other
      programs in it, exactly as it was. */
  lemma QuotedSweepKeepsAll(c: string, s: seq<Rule>, pubs: map<string, Pub>, sweep: Sweep)
    requires c in {PREROUTING, OUTPUT} && ValidPubs(pubs)
    requires forall r :: r in s ==> Foreign(c, r) || OwnedByAny(c, r, pubs)
    ensures Swept(s, Lines(c, s, Quoted), sweep) == s
  {
    hide Swept, Picks, Line, Fields, TrimSpace, Render, Foreign, OwnedByAny;
    var lines := Lines(c, s, Quoted);
    forall i, r | 0 <= i < |lines| && r in s && Picks(sweep, lines[i])
      ensures |Fields(TrimSpace(lines[i]))| >= 2 && Render(r) != Fields(TrimSpace(lines[i]))[2..]
    {
      assert s[i] in s && lines[i] == Line(c, s[i], Quoted);
      QuotedLineDiffers(c, r, s[i], pubs, sweep);
    }
    QuotedSweepDeletesNothing(c, s, lines, sweep);
  }
}
