/** ASCII models of the string functions the firewall and the request checks are built on. */
module Text {

  predicate IsSpace(c: char) {
    c == ' ' || '\t' <= c <= '\r'
  }

  predicate NoSpace(s: string) {
    forall i :: 0 <= i < |s| ==> !IsSpace(s[i])
  }

  /** A non-empty run of non-blank characters: what splitting on whitespace can return. */
  predicate IsWord(s: string) {
    s != "" && NoSpace(s)
  }

  function LowerChar(c: char): char {
    if 'A' <= c <= 'Z' then c + ' ' else c
  }

  function UpperChar(c: char): char {
    if 'a' <= c <= 'z' then c - ' ' else c
  }

  function ToLower(s: string): string {
    seq(|s|, i requires 0 <= i < |s| => LowerChar(s[i]))
  }

  function ToUpper(s: string): string {
    seq(|s|, i requires 0 <= i < |s| => UpperChar(s[i]))
  }

  const CAPITALS := "ABCDEFGHIJKLMNOPQRSTUVWXYZ"
  const SMALL := "abcdefghijklmnopqrstuvwxyz"

  /** The letters come in 26 pairs; nothing else has a case. */
  lemma CaseOfLetters(c: char)
    ensures ToLower(CAPITALS) == SMALL && ToUpper(SMALL) == CAPITALS
    ensures ToLower(SMALL) == SMALL && ToUpper(CAPITALS) == CAPITALS
    ensures (c < 'A' || 'Z' < c ==> ToLower([c]) == [c]) && (c < 'a' || 'z' < c ==> ToUpper([c]) == [c])
  {
  }

  function TrimLeft(s: string): string {
    if s != "" && IsSpace(s[0]) then TrimLeft(s[1..]) else s
  }

  function TrimRight(s: string): string {
    if s != "" && IsSpace(s[|s| - 1]) then TrimRight(s[..|s| - 1]) else s
  }

  function TrimSpace(s: string): string {
    TrimRight(TrimLeft(s))
  }

  lemma TrimLeftShorter(s: string)
    ensures |TrimLeft(s)| <= |s|
    ensures |TrimLeft(s)| == |s| ==> TrimLeft(s) == s
  {
  }

  lemma TrimRightShorter(s: string)
    ensures |TrimRight(s)| <= |s|
    ensures |TrimRight(s)| == |s| ==> TrimRight(s) == s
  {
  }

  /** Trimming either changes nothing or shortens the text. */
  lemma TrimShorter(s: string)
    ensures |TrimSpace(s)| <= |s|
    ensures |TrimSpace(s)| == |s| ==> TrimSpace(s) == s
  {
    TrimLeftShorter(s);
    TrimRightShorter(TrimLeft(s));
  }

  /** Cuts every leading and trailing double quote. */
  function TrimQuotes(s: string): string {
    if s != "" && s[0] == '"' then TrimQuotes(s[1..])
    else if s != "" && s[|s| - 1] == '"' then TrimQuotes(s[..|s| - 1])
    else s
  }

  predicate Contains(s: string, sub: string) {
    exists i :: 0 <= i <= |s| && sub <= s[i..]
  }

  predicate HasSuffix(s: string, suffix: string) {
    |suffix| <= |s| && s[|s| - |suffix|..] == suffix
  }

  /** Words separated by single blanks. */
  function Join(words: seq<string>): string {
    if words == [] then ""
    else if |words| == 1 then words[0]
    else words[0] + " " + Join(words[1..])
  }

  /** Splits on runs of whitespace; `word` is the part of the current word already read. */
  function SplitFrom(s: string, word: string): seq<string> {
    if s == "" then (if word == "" then [] else [word])
    else if IsSpace(s[0]) then (if word == "" then [] else [word]) + SplitFrom(s[1..], "")
    else SplitFrom(s[1..], word + [s[0]])
  }

  function Fields(s: string): seq<string> {
    SplitFrom(s, "")
  }

  lemma {:induction false} SplitReadsWord(w: string, rest: string, word: string)
    requires NoSpace(w)
    ensures SplitFrom(w + rest, word) == SplitFrom(rest, word + w)
  {
    if w == "" {
      assert w + rest == rest;
      assert word + w == word;
    } else {
      assert (w + rest)[1..] == w[1..] + rest;
      assert word + [w[0]] + w[1..] == word + w;
      SplitReadsWord(w[1..], rest, word + [w[0]]);
    }
  }

  /** Joining words and splitting the line again gives the words back. */
  lemma {:induction false} FieldsOfJoin(words: seq<string>)
    requires forall i :: 0 <= i < |words| ==> IsWord(words[i])
    ensures Fields(Join(words)) == words
  {
    if |words| == 0 {
    } else if |words| == 1 {
      SplitReadsWord(words[0], "", "");
      assert words[0] + "" == words[0] && "" + words[0] == words[0];
      assert words == [words[0]];
    } else {
      var w, rest := words[0], Join(words[1..]);
      assert Join(words) == w + (" " + rest);
      SplitReadsWord(w, " " + rest, "");
      assert "" + w == w;
      assert (" " + rest)[1..] == rest;
      FieldsOfJoin(words[1..]);
      assert words == [w] + words[1..];
    }
  }

  lemma {:induction false} JoinEnds(words: seq<string>)
    requires words != []
    requires forall i :: 0 <= i < |words| ==> IsWord(words[i])
    ensures var s := Join(words); s != "" && !IsSpace(s[0]) && !IsSpace(s[|s| - 1])
  {
    if |words| > 1 {
      JoinEnds(words[1..]);
    }
  }

  /** A line of words has nothing to trim. */
  lemma TrimJoin(words: seq<string>)
    requires forall i :: 0 <= i < |words| ==> IsWord(words[i])
    ensures TrimSpace(Join(words)) == Join(words)
  {
    if words != [] {
      JoinEnds(words);
    }
  }

  lemma {:induction false} JoinPrefixInFirstWord(words: seq<string>, p: string)
    requires words != [] && forall i :: 0 <= i < |words| ==> IsWord(words[i])
    requires NoSpace(p)
    ensures p <= Join(words) <==> p <= words[0]
  {
    if |words| > 1 {
      var s := Join(words);
      assert s == words[0] + (" " + Join(words[1..]));
      assert s[..|words[0]|] == words[0];
      assert s[|words[0]|] == ' ';
      assert forall j :: 0 <= j < |p| ==> p[j] != ' ';
      if p <= words[0] {
        assert s[..|p|] == p;
      }
    }
  }

  /** A flag followed by a value that starts with `value`, searched for as plain text `flag value`. */
  predicate FlagWithPrefix(words: seq<string>, i: nat, flag: string, value: string) {
    i + 1 < |words| && HasSuffix(words[i], flag) && value <= words[i + 1]
  }

  /** Searching a line of words for `flag value` is searching for two neighbouring words that end in
      `flag` and start with `value`. */
  lemma {:induction false} ContainsInJoin(words: seq<string>, flag: string, value: string)
    requires forall i :: 0 <= i < |words| ==> IsWord(words[i])
    requires IsWord(flag) && IsWord(value)
    ensures Contains(Join(words), flag + " " + value) <==> exists i: nat :: FlagWithPrefix(words, i, flag, value)
  {
    if |words| <= 1 {
      NoBlankNoFlag(Join(words), flag, value);
    } else {
      ContainsInJoin(words[1..], flag, value);
      if Contains(Join(words[1..]), flag + " " + value) {
        var i: nat :| FlagWithPrefix(words[1..], i, flag, value);
        assert FlagWithPrefix(words, i + 1, flag, value);
        ContainsInTail(words[0], Join(words[1..]), flag + " " + value);
      } else {
        OccursAtHead(words, flag, value);
      }
    }
  }

  lemma NoBlankNoFlag(s: string, flag: string, value: string)
    requires NoSpace(s)
    ensures !Contains(s, flag + " " + value)
  {
    var sub := flag + " " + value;
    assert sub[|flag|] == ' ';
    assert forall k, j :: 0 <= k <= |s| && 0 <= j < |s[k..]| ==> s[k..][j] != ' ';
  }

  lemma ContainsInTail(w: string, t: string, sub: string)
    requires Contains(t, sub)
    ensures Contains(w + " " + t, sub)
  {
    var k :| 0 <= k <= |t| && sub <= t[k..];
    assert (w + " " + t)[|w| + 1 + k..] == t[k..];
  }

  /** An occurrence that is not inside the tail of a line uses the first two words. */
  lemma OccursAtHead(words: seq<string>, flag: string, value: string)
    requires |words| > 1 && forall i :: 0 <= i < |words| ==> IsWord(words[i])
    requires IsWord(flag) && IsWord(value)
    requires !Contains(Join(words[1..]), flag + " " + value)
    requires forall i: nat :: !FlagWithPrefix(words[1..], i, flag, value)
    ensures Contains(Join(words), flag + " " + value) <==> exists i: nat :: FlagWithPrefix(words, i, flag, value)
  {
    var w, t, sub := words[0], Join(words[1..]), flag + " " + value;
    var s := w + (" " + t);
    assert Join(words) == s;
    JoinPrefixInFirstWord(words[1..], value);
    assert forall i: nat :: FlagWithPrefix(words, i + 1, flag, value) ==> FlagWithPrefix(words[1..], i, flag, value);
    assert forall i: nat :: FlagWithPrefix(words, i, flag, value) ==> i == 0 by {
      forall i: nat | i > 0 ensures !FlagWithPrefix(words, i, flag, value) {
        assert !FlagWithPrefix(words[1..], i - 1, flag, value);
      }
    }
    if FlagWithPrefix(words, 0, flag, value) {
      HeadOccurs(w, t, flag, value);
    } else {
      forall k | 0 <= k <= |s| ensures !(sub <= s[k..]) {
        if k > |w| {
          assert t[k - |w| - 1..] == s[k..];
        } else if sub <= s[k..] {
          FirstWordOccurrence(w, t, k, flag, value);
          assert false;
        }
      }
    }
  }

  lemma HeadOccurs(w: string, t: string, flag: string, value: string)
    requires HasSuffix(w, flag) && value <= t
    ensures Contains(w + (" " + t), flag + " " + value)
  {
    var k := |w| - |flag|;
    assert w[k..] == flag;
    assert (w + (" " + t))[k..] == flag + " " + value + t[|value|..];
  }

  lemma FirstWordOccurrence(w: string, t: string, k: nat, flag: string, value: string)
    requires IsWord(w) && IsWord(flag) && IsWord(value)
    requires k <= |w|
    requires flag + " " + value <= (w + (" " + t))[k..]
    ensures HasSuffix(w, flag) && value <= t
  {
    var s, sub := w + (" " + t), flag + " " + value;
    assert forall j :: 0 <= j < |sub| ==> sub[j] == s[k + j];
    assert sub[|flag|] == ' ' && s[|w|] == ' ';
    assert s[k + |flag|] == ' ';
    assert forall j :: 0 <= j < |w| ==> s[j] != ' ';
    assert forall j :: 0 <= j < |flag| ==> s[k + j] == flag[j] != ' ';
    assert k + |flag| == |w|;
    assert w[k..] == flag by {
      forall j | 0 <= j < |flag| ensures w[k + j] == flag[j] {
        assert sub[j] == flag[j];
      }
    }
    assert value == t[..|value|] by {
      forall j | 0 <= j < |value| ensures t[j] == value[j] {
        assert sub[|flag| + 1 + j] == value[j];
      }
    }
  }

  function Digit(d: nat): char
    requires d < 10
  {
    '0' + d as char
  }

  function Decimal(n: nat): string {
    if n < 10 then [Digit(n)] else Decimal(n / 10) + [Digit(n % 10)]
  }

  function Itoa(n: int): string {
    if n < 0 then "-" + Decimal(-n) else Decimal(n)
  }

  lemma DecimalDigits(n: nat)
    ensures Decimal(n) != ""
    ensures forall i :: 0 <= i < |Decimal(n)| ==> '0' <= Decimal(n)[i] <= '9'
  {
  }

  lemma ItoaIsWord(n: int)
    ensures IsWord(Itoa(n))
    ensures forall i :: 0 <= i < |Itoa(n)| ==> Itoa(n)[i] == '-' || '0' <= Itoa(n)[i] <= '9'
  {
    DecimalDigits(if n < 0 then -n else n);
  }

  lemma {:induction false} DecimalInjective(a: nat, b: nat)
    requires Decimal(a) == Decimal(b)
    ensures a == b
  {
    DecimalDigits(a / 10);
    DecimalDigits(b / 10);
    var s, t := Decimal(a), Decimal(b);
    assert s[|s| - 1] == Digit(a % 10);
    assert t[|t| - 1] == Digit(b % 10);
    assert a % 10 == b % 10;
    if a >= 10 && b >= 10 {
      assert s[..|s| - 1] == Decimal(a / 10);
      assert t[..|t| - 1] == Decimal(b / 10);
      DecimalInjective(a / 10, b / 10);
    }
  }

  lemma ItoaInjective(a: int, b: int)
    requires Itoa(a) == Itoa(b)
    ensures a == b
  {
    DecimalDigits(if a < 0 then -a else a);
    DecimalDigits(if b < 0 then -b else b);
    assert a < 0 <==> Itoa(a)[0] == '-';
    assert b < 0 <==> Itoa(b)[0] == '-';
    if a < 0 {
      assert Itoa(a)[1..] == Decimal(-a);
      assert Itoa(b)[1..] == Decimal(-b);
      DecimalInjective(-a, -b);
    } else {
      DecimalInjective(a, b);
    }
  }

  /** Protocol names as the port bookkeeping and the address translation spell them. */
  function NormalizeProto(proto: string): string {
    var p := ToLower(TrimSpace(proto));
    if p == "" then "tcp" else p
  }

  /** The filter rules lower-case a protocol name without trimming it. */
  function FilterProto(proto: string): string {
    var p := ToLower(proto);
    if p == "" then "tcp" else p
  }

  /** A missing name means tcp; the case of the letters does not matter. */
  lemma ProtocolWords()
    ensures NormalizeProto("") == "tcp" == NormalizeProto(" ") && FilterProto("") == "tcp"
    ensures NormalizeProto("UDP") == "udp" == FilterProto("UDP")
    ensures NormalizeProto(" Tcp\t") == "tcp" == FilterProto("TcP")
  {
    assert TrimLeft(" ") == TrimLeft("") == "" && TrimSpace("UDP") == "UDP";
    assert " Tcp\t"[1..] == "Tcp\t" && "Tcp\t"[..3] == "Tcp";
    assert TrimLeft(" Tcp\t") == TrimLeft("Tcp\t") == "Tcp\t";
    assert TrimRight("Tcp\t") == TrimRight("Tcp") == "Tcp";
    assert ToLower("UDP") == "udp" && ToLower("Tcp") == "tcp" == ToLower("TcP");
  }

  /** The filter and the translation rules agree on a port's protocol exactly when the name in the
      request carries no surrounding blanks. */
  lemma FilterProtoAgrees(proto: string)
    ensures FilterProto(proto) == NormalizeProto(proto) <==> TrimSpace(proto) == proto
  {
    TrimShorter(proto);
    if TrimSpace(proto) != proto {
      if TrimSpace(proto) == "" {
        assert IsSpace(proto[0]) by {
          if !IsSpace(proto[0]) { TrimRightKeepsHead(proto); }
        }
        assert FilterProto(proto)[0] == LowerChar(proto[0]);
        assert NormalizeProto(proto)[0] == 't';
      } else {
        assert |NormalizeProto(proto)| == |TrimSpace(proto)|;
        assert |FilterProto(proto)| == |proto|;
      }
    }
  }

  lemma TrimRightKeepsHead(s: string)
    requires s != "" && !IsSpace(s[0])
    ensures TrimRight(s) != ""
  {
  }
}
