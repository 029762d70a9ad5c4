/** How a translation rule's tag is written, listed, read back and searched for. */
module Tags {
  import opened Text
  import opened Rules
  import opened Nat

  predicate ValidProto(f: Forward) {
    NormalizeProto(f.protocol) in {"tcp", "udp"}
  }

  function RuleFor(c: string, id: string, ip: nat, f: Forward): Rule {
    if c == OUTPUT then OutRule(id, ip, f) else PreRule(id, ip, f)
  }

  function Lead(c: string): seq<string> {
    if c == OUTPUT then ["-m", "addrtype", "--dst-type", "LOCAL"] else []
  }

  function ShownTag(id: string, listing: Listing): string {
    if listing.Quoted? then "\"" + (TAG + id) + "\"" else TAG + id
  }

  function TargetText(ip: nat, port: int): string {
    IpText(ip) + ":" + Itoa(port)
  }

  /** The words of a translation rule's specification as a listing shows them. */
  function RuleWords(c: string, id: string, ip: nat, f: Forward, listing: Listing): seq<string> {
    Lead(c) + CoreWords(id, f, listing) + ["-j", "DNAT", "--to-destination", TargetText(ip, f.containerPort)]
  }

  function CoreWords(id: string, f: Forward, listing: Listing): seq<string> {
    ["-p", NormalizeProto(f.protocol), "--dport", Itoa(f.hostPort), "-m", "comment", COMMENT, ShownTag(id, listing)]
  }

  lemma ShownThree(a: Match, b: Match, c: Match, listing: Listing)
    requires !a.Comment? && !b.Comment? && c.Comment?
    ensures ShowMatches([a, b, c], listing)
         == RenderMatch(a) + RenderMatch(b)
            + ["-m", "comment", COMMENT, if listing.Quoted? then "\"" + c.text + "\"" else c.text]
  {
    assert [a, b, c][1..] == [b, c] && [b, c][1..] == [c] && [c][1..] == [];
    assert ShowMatches([c], listing)
        == ["-m", "comment", COMMENT, if listing.Quoted? then "\"" + c.text + "\"" else c.text];
    assert ShowMatches([b, c], listing) == RenderMatch(b) + ShowMatches([c], listing);
  }

  lemma CoreShown(id: string, f: Forward, listing: Listing)
    ensures ShowMatches([Protocol(NormalizeProto(f.protocol)), DestPort(f.hostPort), Comment(TAG + id)], listing)
         == CoreWords(id, f, listing)
  {
    hide NormalizeProto, Itoa;
    ShownThree(Protocol(NormalizeProto(f.protocol)), DestPort(f.hostPort), Comment(TAG + id), listing);
  }

  lemma LeadShown(rest: seq<Match>, listing: Listing)
    ensures ShowMatches([DestLocal] + rest, listing) == Lead(OUTPUT) + ShowMatches(rest, listing)
  {
  }

  lemma ShownIsWords(c: string, id: string, ip: nat, f: Forward, listing: Listing)
    ensures Shown(RuleFor(c, id, ip, f), listing) == RuleWords(c, id, ip, f, listing)
  {
    hide NormalizeProto, Itoa, IpText, ShowMatches, CoreWords;
    var rest := [Protocol(NormalizeProto(f.protocol)), DestPort(f.hostPort), Comment(TAG + id)];
    CoreShown(id, f, listing);
    if c == OUTPUT {
      LeadShown(rest, listing);
      assert OutRule(id, ip, f).matches == [DestLocal] + rest;
    } else {
      assert [] + CoreWords(id, f, listing) == CoreWords(id, f, listing);
    }
  }

  lemma RenderIsWords(c: string, id: string, ip: nat, f: Forward)
    ensures Render(RuleFor(c, id, ip, f)) == RuleWords(c, id, ip, f, Bare)
  {
    ShownIsWords(c, id, ip, f, Bare);
    BareMatches(RuleFor(c, id, ip, f).matches);
  }

  lemma TargetTextIsWord(ip: nat, port: int)
    ensures IsWord(TargetText(ip, port)) && '0' <= TargetText(ip, port)[0] <= '9'
  {
    DecimalDigits(ip / 0x1000000);
    DecimalDigits(ip / 0x10000 % 0x100);
    DecimalDigits(ip / 0x100 % 0x100);
    DecimalDigits(ip % 0x100);
    ItoaIsWord(port);
    assert TargetText(ip, port)[0] == Decimal(ip / 0x1000000)[0];
    assert forall i :: 0 <= i < |IpText(ip)| ==> IpText(ip)[i] == '.' || '0' <= IpText(ip)[i] <= '9';
  }

  lemma CoreWord(id: string, f: Forward, listing: Listing, i: nat)
    requires ValidProto(f)
    ensures i < 7 ==> IsWord(CoreWords(id, f, listing)[i]) && CoreWords(id, f, listing)[i][0] != 'S'
    ensures i < 6 ==> CoreWords(id, f, listing)[i] != COMMENT
  {
    hide NormalizeProto, Itoa, ShownTag;
    ItoaIsWord(f.hostPort);
    var number := Itoa(f.hostPort);
    assert COMMENT[2] == 'c' && |COMMENT| == 9;
    assert 'c' !in number;
    assert 'c' in COMMENT;
    if i == 1 {
      assert IsWord("tcp") && IsWord("udp");
    }
  }

  lemma OuterWord(w: string)
    requires w in Lead(OUTPUT) || w in ["-j", "DNAT", "--to-destination"]
    ensures IsWord(w) && w[0] != 'S' && w != COMMENT
  {
  }

  /** Every word but the tag is a word that does not look like a tag. */
  lemma OtherWords(c: string, id: string, ip: nat, f: Forward, listing: Listing, i: nat)
    requires ValidProto(f)
    ensures |RuleWords(c, id, ip, f, listing)| == |Lead(c)| + 12
    ensures RuleWords(c, id, ip, f, listing)[|Lead(c)| + 6] == COMMENT
    ensures RuleWords(c, id, ip, f, listing)[|Lead(c)| + 7] == ShownTag(id, listing)
    ensures i < |Lead(c)| + 12 && i != |Lead(c)| + 7 ==>
              IsWord(RuleWords(c, id, ip, f, listing)[i]) && RuleWords(c, id, ip, f, listing)[i][0] != 'S'
    ensures i < |Lead(c)| + 6 ==> RuleWords(c, id, ip, f, listing)[i] != COMMENT
  {
    var words, core := RuleWords(c, id, ip, f, listing), CoreWords(id, f, listing);
    var tail := ["-j", "DNAT", "--to-destination", TargetText(ip, f.containerPort)];
    var lead := |Lead(c)|;
    assert |core| == 8 && core[6] == COMMENT && core[7] == ShownTag(id, listing);
    assert words == Lead(c) + core + tail;
    hide RuleWords, CoreWords, ShownTag, TargetText, IsWord;
    if i < lead {
      assert words[i] == Lead(c)[i];
      OuterWord(words[i]);
    } else if i < lead + 8 {
      assert words[i] == core[i - lead];
      CoreWord(id, f, listing, i - lead);
    } else if i < lead + 11 {
      assert words[i] == tail[i - lead - 8];
      OuterWord(words[i]);
    } else if i == lead + 11 {
      assert words[i] == tail[3];
      TargetTextIsWord(ip, f.containerPort);
    }
  }

  lemma TranslationPrintable(c: string, id: string, ip: nat, f: Forward)
    requires ValidProto(f) && NoSpace(id)
    ensures Printable(RuleFor(c, id, ip, f))
  {
    hide RuleWords;
    RenderIsWords(c, id, ip, f);
    var words := RuleWords(c, id, ip, f, Bare);
    OtherWords(c, id, ip, f, Bare, 0);
    forall i | 0 <= i < |words| ensures IsWord(words[i]) {
      OtherWords(c, id, ip, f, Bare, i);
    }
  }

  // Reading the tag back.

  function TrimEndQuotes(s: string): string {
    if s != "" && s[|s| - 1] == '"' then TrimEndQuotes(s[..|s| - 1]) else s
  }

  lemma {:induction false} TrimEndQuotesFixed(s: string)
    ensures |TrimEndQuotes(s)| <= |s|
    ensures TrimEndQuotes(s) == s <==> s == "" || s[|s| - 1] != '"'
  {
    if s != "" && s[|s| - 1] == '"' {
      TrimEndQuotesFixed(s[..|s| - 1]);
      assert |TrimEndQuotes(s)| < |s|;
    }
  }

  lemma {:induction false} TrimTag(id: string)
    ensures TrimQuotes(TAG + id) == TAG + TrimEndQuotes(id)
  {
    var s := TAG + id;
    assert s[0] == 'S';
    if id == "" {
      assert s == TAG && TAG[|TAG| - 1] == ':';
    } else {
      assert s[|s| - 1] == id[|id| - 1];
      if id[|id| - 1] == '"' {
        assert s[..|s| - 1] == TAG + id[..|id| - 1];
        TrimTag(id[..|id| - 1]);
      }
    }
  }

  lemma TrimLeadingQuote(s: string)
    ensures TrimQuotes("\"" + s) == TrimQuotes(s)
  {
    assert ("\"" + s)[1..] == s;
  }

  lemma TrimShownTag(id: string, listing: Listing)
    ensures TrimQuotes(ShownTag(id, listing)) == TAG + TrimEndQuotes(id)
  {
    hide TrimQuotes, TrimEndQuotes;
    if listing.Quoted? {
      var s := TAG + (id + "\"");
      assert ShownTag(id, listing) == "\"" + s;
      TrimLeadingQuote(s);
      TrimTag(id + "\"");
      TrimOneQuote(id);
    } else {
      TrimTag(id);
    }
  }

  lemma TrimOneQuote(s: string)
    ensures TrimEndQuotes(s + "\"") == TrimEndQuotes(s)
  {
  }

  lemma {:induction false} TagSkip(fields: seq<string>, i: nat, j: nat)
    requires i <= j <= |fields|
    requires forall k :: i <= k < j ==> fields[k] != COMMENT
    ensures TagFrom(fields, i) == TagFrom(fields, j)
    decreases j - i
  {
    if i < j {
      TagSkip(fields, i + 1, j);
    }
  }

  /** From the fields of a listed rule, in either style of listing, the id is read up to quotes at its end. */
  lemma TagOfFields(c: string, id: string, ip: nat, f: Forward, listing: Listing)
    requires ValidProto(f) && c in {PREROUTING, OUTPUT}
    ensures TagFrom(["-A", c] + RuleWords(c, id, ip, f, listing), 0) == TrimEndQuotes(id)
  {
    hide RuleWords, ShownTag;
    var words := RuleWords(c, id, ip, f, listing);
    var fields := ["-A", c] + words;
    var at := |Lead(c)| + 8;
    OtherWords(c, id, ip, f, listing, 0);
    assert PREROUTING[0] == 'P' && OUTPUT[0] == 'O' && COMMENT[0] == '-' && COMMENT[1] != 'A';
    forall k | 0 <= k < at ensures fields[k] != COMMENT {
      if k >= 2 {
        OtherWords(c, id, ip, f, listing, k - 2);
        assert fields[k] == words[k - 2];
      }
    }
    TagSkip(fields, 0, at);
    assert fields[at] == words[at - 2] && fields[at + 1] == words[at - 1];
    TrimShownTag(id, listing);
  }

  /** A tag that was read from the fields of a line has no blanks. */
  lemma {:induction false} TagHasNoBlanks(fields: seq<string>, i: nat)
    requires forall k :: 0 <= k < |fields| ==> IsWord(fields[k])
    ensures NoSpace(TagFrom(fields, i))
    decreases |fields| - i
  {
    if i + 1 < |fields| {
      if fields[i] == COMMENT && TAG <= TrimQuotes(fields[i + 1]) {
        TrimKeepsNoSpace(fields[i + 1]);
      } else {
        TagHasNoBlanks(fields, i + 1);
      }
    }
  }

  lemma {:induction false} TrimKeepsNoSpace(s: string)
    requires NoSpace(s)
    ensures NoSpace(TrimQuotes(s))
  {
    if s != "" && s[0] == '"' {
      TrimKeepsNoSpace(s[1..]);
    } else if s != "" && s[|s| - 1] == '"' {
      TrimKeepsNoSpace(s[..|s| - 1]);
    }
  }

  lemma {:induction false} SplitGivesWords(s: string, word: string)
    requires NoSpace(word)
    ensures forall k :: 0 <= k < |SplitFrom(s, word)| ==> IsWord(SplitFrom(s, word)[k])
  {
    if s != "" {
      if IsSpace(s[0]) {
        SplitGivesWords(s[1..], "");
      } else {
        SplitGivesWords(s[1..], word + [s[0]]);
      }
    }
  }

  /** Listing a published rule, splitting the line on whitespace and reading the tag gives the sandbox
      id back, in either style of listing, exactly for ids without blanks and without a quote at the end. */
  lemma TagRoundTrip(c: string, id: string, ip: nat, f: Forward, listing: Listing)
    requires ValidProto(f) && c in {PREROUTING, OUTPUT}
    ensures TagFrom(Fields(TrimSpace(Line(c, RuleFor(c, id, ip, f), listing))), 0) == id
       <==> NoSpace(id) && (id == "" || id[|id| - 1] != '"')
  {
    hide RuleWords, Join, Fields, TrimSpace;
    var words := RuleWords(c, id, ip, f, listing);
    ShownIsWords(c, id, ip, f, listing);
    if NoSpace(id) {
      ChainWord(c);
      OtherWords(c, id, ip, f, listing, 0);
      forall i | 0 <= i < |words| ensures IsWord(words[i]) {
        OtherWords(c, id, ip, f, listing, i);
      }
      LineWords(c, words);
      TagOfFields(c, id, ip, f, listing);
      TrimEndQuotesFixed(id);
    } else {
      var line := TrimSpace(Line(c, RuleFor(c, id, ip, f), listing));
      assert NoSpace(TagFrom(Fields(line), 0)) by { FieldsTagNoBlanks(line); }
    }
  }

  lemma FieldsTagNoBlanks(line: string)
    ensures NoSpace(TagFrom(Fields(line), 0))
  {
    SplitGivesWords(line, "");
    TagHasNoBlanks(Fields(line), 0);
  }

  lemma ChainWord(c: string)
    requires c in {PREROUTING, OUTPUT}
    ensures IsWord(c)
  {
  }

  // Searching for a tag.

  /** The text searched for by a sandbox's sweep is in the line of a rule exactly when the sandbox's id
      is a prefix of the id the rule is tagged with. */
  lemma TagFoundIff(c: string, wanted: string, id: string, ip: nat, f: Forward)
    requires ValidProto(f) && c in {PREROUTING, OUTPUT} && NoSpace(id) && NoSpace(wanted)
    ensures Contains(Line(c, RuleFor(c, id, ip, f), Bare), COMMENT + " " + (TAG + wanted)) <==> wanted <= id
  {
    hide RuleWords, Join, Contains, Line, Lead;
    var words := ["-A", c] + RuleWords(c, id, ip, f, Bare);
    var at := |Lead(c)| + 8;
    ShownIsWords(c, id, ip, f, Bare);
    OtherWords(c, id, ip, f, Bare, 0);
    LineOfWords(c, id, ip, f);
    assert IsWord(COMMENT) && IsWord(TAG + wanted);
    ContainsInJoin(words, COMMENT, TAG + wanted);
    assert words[at] == COMMENT && words[at + 1] == TAG + id;
    forall i: nat | FlagWithPrefix(words, i, COMMENT, TAG + wanted) ensures i == at {
      assert words[i + 1][0] == 'S';
      if i != at {
        NotATag(c, id, ip, f, i + 1);
        assert false;
      }
    }
    assert HasSuffix(COMMENT, COMMENT);
    TagPrefix(wanted, id);
    assert wanted <= id ==> FlagWithPrefix(words, at, COMMENT, TAG + wanted);
  }

  lemma TagPrefix(wanted: string, id: string)
    ensures TAG + wanted <= TAG + id <==> wanted <= id
  {
    assert (TAG + id)[|TAG|..] == id && (TAG + wanted)[|TAG|..] == wanted;
    if TAG + wanted <= TAG + id {
      assert forall k :: 0 <= k < |wanted| ==> wanted[k] == (TAG + wanted)[|TAG| + k] == (TAG + id)[|TAG| + k] == id[k];
    }
  }

  lemma LineOfWords(c: string, id: string, ip: nat, f: Forward)
    requires ValidProto(f) && c in {PREROUTING, OUTPUT} && NoSpace(id)
    ensures var words := ["-A", c] + RuleWords(c, id, ip, f, Bare);
      && Line(c, RuleFor(c, id, ip, f), Bare) == Join(words)
      && forall i :: 0 <= i < |words| ==> IsWord(words[i])
  {
    hide RuleWords, Join;
    var rest := RuleWords(c, id, ip, f, Bare);
    ShownIsWords(c, id, ip, f, Bare);
    ChainWord(c);
    OtherWords(c, id, ip, f, Bare, 0);
    forall i | 0 <= i < |rest| ensures IsWord(rest[i]) {
      OtherWords(c, id, ip, f, Bare, i);
    }
    assert IsWord("-A");
    forall i | 0 <= i < |["-A", c] + rest| ensures IsWord((["-A", c] + rest)[i]) {
      assert i >= 2 ==> (["-A", c] + rest)[i] == rest[i - 2];
    }
  }

  lemma NotATag(c: string, id: string, ip: nat, f: Forward, i: nat)
    requires ValidProto(f) && c in {PREROUTING, OUTPUT}
    requires i < |["-A", c] + RuleWords(c, id, ip, f, Bare)| && i != |Lead(c)| + 9
    ensures var w := (["-A", c] + RuleWords(c, id, ip, f, Bare))[i]; w != "" && w[0] != 'S'
  {
    hide RuleWords;
    if i >= 2 {
      OtherWords(c, id, ip, f, Bare, i - 2);
      assert (["-A", c] + RuleWords(c, id, ip, f, Bare))[i] == RuleWords(c, id, ip, f, Bare)[i - 2];
    }
  }
}
