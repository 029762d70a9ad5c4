/** Packets, iptables rules and first-match evaluation. */
module Rules {
  import opened Text

  datatype Option<+T> = None | Some(value: T)

  function Pow2(n: nat): (r: nat)
    ensures r > 0
  {
    if n == 0 then 1 else 2 * Pow2(n - 1)
  }

  /** An IPv4 block in prefix notation (section 3.1 of RFC 4632); addresses are numbers below 2^32. */
  datatype Cidr = Cidr(base: nat, len: nat) {
    function BlockSize(): (r: nat)
      ensures r > 0
    {
      Pow2(if len <= 32 then 32 - len else 0)
    }

    predicate Has(addr: nat) {
      addr / BlockSize() == base / BlockSize()
    }
  }

  function Host(ip: nat): Cidr {
    Cidr(ip, 32)
  }

  lemma HostHas(ip: nat, addr: nat)
    ensures Host(ip).Has(addr) <==> addr == ip
  {
  }

  /** Prefix comparison is interval membership, the interval being the aligned block around `base`. */
  lemma CidrIsInterval(c: Cidr, addr: nat)
    ensures c.Has(addr) <==> c.base - c.base % c.BlockSize() <= addr < c.base - c.base % c.BlockSize() + c.BlockSize()
  {
    BlockInterval(addr, c.base, c.BlockSize());
  }

  lemma BlockInterval(a: nat, b: nat, size: nat)
    requires size > 0
    ensures a / size == b / size <==> b - b % size <= a < b - b % size + size
  {
    assert b == size * (b / size) + b % size;
    assert a == size * (a / size) + a % size;
    var d := a / size - b / size;
    assert a - (b - b % size) == size * d + a % size by {
      assert size * (a / size) - size * (b / size) == size * d;
    }
    ProductBeyond(size, d);
  }

  lemma ProductBeyond(size: int, d: int)
    requires size > 0
    ensures d >= 1 ==> size * d >= size
    ensures d <= -1 ==> size * d <= -size
  {
  }

  /** A block whose prefix extends another block's prefix lies inside it. */
  predicate Nested(inner: Cidr, outer: Cidr) {
    outer.len <= inner.len <= 32 && outer.Has(inner.base)
  }

  lemma Pow2Splits(a: nat, b: nat)
    ensures Pow2(a + b) == Pow2(a) * Pow2(b)
  {
    if b > 0 {
      Pow2Splits(a, b - 1);
    }
  }

  lemma DivDiv(a: nat, m: nat, n: nat)
    requires m > 0 && n > 0
    ensures m * n > 0 && a / (m * n) == a / m / n
  {
    var q, r := a / m, a % m;
    var q2, r2 := q / n, q % n;
    Split(m, n, q2, r2);
    ScaleUp(m, r2, n - 1);
    assert m * (n - 1) == m * n - m;
    QuotientUnique(a, m * n, q2, m * r2 + r);
  }

  lemma Split(m: int, n: int, q: int, r: int)
    ensures m * (n * q + r) == m * n * q + m * r
  {
  }

  lemma ScaleUp(m: nat, a: nat, b: nat)
    requires a <= b
    ensures 0 <= m * a <= m * b
  {
  }

  lemma QuotientUnique(a: int, d: int, q: int, k: int)
    requires d > 0 && a == d * q + k && 0 <= k < d
    ensures a / d == q
  {
    var e := a / d - q;
    assert d * e == k - a % d by {
      assert a == d * (a / d) + a % d;
      assert d * (a / d) - d * q == d * e;
    }
    ProductBeyond(d, e);
    assert e == 0;
  }

  lemma NestedHas(inner: Cidr, outer: Cidr, addr: nat)
    requires Nested(inner, outer) && inner.Has(addr)
    ensures outer.Has(addr)
  {
    var m, n := inner.BlockSize(), Pow2(inner.len - outer.len);
    Pow2Splits(32 - inner.len, inner.len - outer.len);
    assert outer.BlockSize() == m * n;
    DivDiv(addr, m, n);
    DivDiv(inner.base, m, n);
  }

  /** What a rule can see of a packet. `features` stands for every property only rules of other
      programs ask about. */
  datatype Packet = Packet(src: nat, dst: nat, proto: string, sport: int, dport: int, inIf: string,
                           established: bool, dstLocal: bool, mark: nat, features: set<seq<string>>)

  datatype Match =
    | Source(from: Cidr)
    | Dest(to: Cidr)
    | Protocol(proto: string)
    | SourcePort(sport: int)
    | DestPort(dport: int)
    | InInterface(name: string)
    | EstablishedRelated
    | DestLocal
    | MarkSet
    | Comment(text: string)
    | Feature(tokens: seq<string>)

  datatype Target =
    | Accept
    | Reject
    | Drop
    | Return
    | Jump(chain: string)
    | Dnat(ip: nat, port: int)
    | Continue(tokens: seq<string>)

  datatype Rule = Rule(matches: seq<Match>, target: Target)

  type Table = map<string, seq<Rule>>

  const MARK_BIT := 0x2000

  predicate Matches(m: Match, p: Packet) {
    match m
    case Source(c) => c.Has(p.src)
    case Dest(c) => c.Has(p.dst)
    case Protocol(proto) => p.proto == proto
    case SourcePort(n) => p.sport == n
    case DestPort(n) => p.dport == n
    case InInterface(name) => p.inIf == name
    case EstablishedRelated => p.established
    case DestLocal => p.dstLocal
    case MarkSet => p.mark / MARK_BIT % 2 == 1
    case Comment(_) => true
    case Feature(tokens) => tokens in p.features
  }

  predicate Selects(r: Rule, p: Packet) {
    forall i :: 0 <= i < |r.matches| ==> Matches(r.matches[i], p)
  }

  datatype Verdict = Accepted | Rejected | Dropped | Translated(ip: nat, port: int) | TooDeep

  /** The verdict of the first rule that decides. A jump whose chain decides nothing falls through to
      the next rule; `depth` bounds the nesting of jumps. */
  function Eval(t: Table, rules: seq<Rule>, p: Packet, depth: nat): Option<Verdict>
    decreases depth, |rules|
  {
    if rules == [] then None
    else if !Selects(rules[0], p) then Eval(t, rules[1..], p, depth)
    else match rules[0].target
      case Accept => Some(Accepted)
      case Reject => Some(Rejected)
      case Drop => Some(Dropped)
      case Dnat(ip, port) => Some(Translated(ip, port))
      case Return => None
      case Continue(_) => Eval(t, rules[1..], p, depth)
      case Jump(c) =>
        if depth == 0 then Some(TooDeep)
        else
          var v := if c in t then Eval(t, t[c], p, depth - 1) else None;
          if v.Some? then v else Eval(t, rules[1..], p, depth)
  }

  /** A rule that lets this packet go on to the next rule. */
  predicate Inert(t: Table, r: Rule, p: Packet, depth: nat) {
    !Selects(r, p) || (Eval(t, [r], p, depth) == None && r.target != Return)
  }

  lemma InertHead(t: Table, r: Rule, rest: seq<Rule>, p: Packet, depth: nat)
    requires Inert(t, r, p, depth)
    ensures Eval(t, [r] + rest, p, depth) == Eval(t, rest, p, depth)
  {
  }

  lemma DecisiveHead(t: Table, r: Rule, rest: seq<Rule>, p: Packet, depth: nat)
    requires !Inert(t, r, p, depth)
    ensures Eval(t, [r] + rest, p, depth) == Eval(t, [r], p, depth)
  {
  }

  lemma {:induction false} InertPrefix(t: Table, a: seq<Rule>, b: seq<Rule>, p: Packet, depth: nat)
    requires forall i :: 0 <= i < |a| ==> Inert(t, a[i], p, depth)
    ensures Eval(t, a + b, p, depth) == Eval(t, b, p, depth)
  {
    if a == [] {
      assert a + b == b;
    } else {
      assert a + b == [a[0]] + (a[1..] + b);
      InertHead(t, a[0], a[1..] + b, p, depth);
      InertPrefix(t, a[1..], b, p, depth);
    }
  }

  lemma {:induction false} InertDropped(t: Table, a: seq<Rule>, r: Rule, b: seq<Rule>, p: Packet, depth: nat)
    requires Inert(t, r, p, depth)
    ensures Eval(t, a + [r] + b, p, depth) == Eval(t, a + b, p, depth)
  {
    if a == [] {
      assert a + [r] + b == [r] + b && a + b == b;
      InertHead(t, r, b, p, depth);
    } else {
      InertDropped(t, a[1..], r, b, p, depth);
      assert (a + [r] + b)[1..] == a[1..] + [r] + b;
      assert (a + b)[1..] == a[1..] + b;
    }
  }

  /** Repeating a rule later in a chain changes no packet's verdict, whatever its target. */
  lemma {:induction false} LaterDuplicateRedundant(t: Table, a: seq<Rule>, r: Rule, b: seq<Rule>, p: Packet, depth: nat)
    requires r in a
    ensures Eval(t, a + [r] + b, p, depth) == Eval(t, a + b, p, depth)
  {
    assert (a + [r] + b)[1..] == a[1..] + [r] + b;
    assert (a + b)[1..] == a[1..] + b;
    if a[0] != r {
      LaterDuplicateRedundant(t, a[1..], r, b, p, depth);
    } else {
      if Inert(t, r, p, depth) {
        InertDropped(t, a[1..], r, b, p, depth);
        InertHead(t, r, a[1..] + [r] + b, p, depth);
        InertHead(t, r, a[1..] + b, p, depth);
        assert a + [r] + b == [r] + (a[1..] + [r] + b) && a + b == [r] + (a[1..] + b);
      } else {
        DecisiveHead(t, r, a[1..] + [r] + b, p, depth);
        DecisiveHead(t, r, a[1..] + b, p, depth);
        assert a + [r] + b == [r] + (a[1..] + [r] + b) && a + b == [r] + (a[1..] + b);
      }
    }
  }

  /** Chains of plain accept and reject rules decide without looking at other chains. */
  predicate Terminal(rules: seq<Rule>) {
    forall i :: 0 <= i < |rules| ==> rules[i].target in {Accept, Reject}
  }

  function Decide(rules: seq<Rule>, p: Packet): Option<Verdict> {
    if rules == [] then None
    else if Selects(rules[0], p) then Some(if rules[0].target == Accept then Accepted else Rejected)
    else Decide(rules[1..], p)
  }

  lemma {:induction false} TerminalEval(t: Table, rules: seq<Rule>, p: Packet, depth: nat)
    requires Terminal(rules)
    ensures Eval(t, rules, p, depth) == Decide(rules, p)
  {
    if rules != [] {
      assert rules[0].target in {Accept, Reject};
      TerminalEval(t, rules[1..], p, depth);
    }
  }

  lemma {:induction false} DecideConcat(a: seq<Rule>, b: seq<Rule>, p: Packet)
    ensures Decide(a + b, p) == if Decide(a, p).Some? then Decide(a, p) else Decide(b, p)
  {
    if a == [] {
      assert a + b == b;
    } else {
      assert (a + b)[1..] == a[1..] + b;
      DecideConcat(a[1..], b, p);
    }
  }

  /** Some rule of a terminal chain decides every packet it selects. */
  lemma {:induction false} DecideNone(rules: seq<Rule>, p: Packet)
    ensures Decide(rules, p) == None <==> forall i :: 0 <= i < |rules| ==> !Selects(rules[i], p)
  {
    if rules != [] {
      DecideNone(rules[1..], p);
      assert forall i :: 1 <= i < |rules| ==> rules[i] == rules[1..][i - 1];
      if forall i :: 0 <= i < |rules[1..]| ==> !Selects(rules[1..][i], p) {
      } else {
        var i :| 0 <= i < |rules[1..]| && Selects(rules[1..][i], p);
        assert Selects(rules[i + 1], p);
      }
    }
  }

  function RejectBlock(cidrs: seq<Cidr>): seq<Rule> {
    seq(|cidrs|, i requires 0 <= i < |cidrs| => Rule([Dest(cidrs[i])], Reject))
  }

  predicate InAny(cidrs: seq<Cidr>, addr: nat) {
    exists i :: 0 <= i < |cidrs| && cidrs[i].Has(addr)
  }

  lemma RejectBlockDecides(cidrs: seq<Cidr>, p: Packet)
    ensures Decide(RejectBlock(cidrs), p) == if InAny(cidrs, p.dst) then Some(Rejected) else None
  {
    var rules := RejectBlock(cidrs);
    forall i | 0 <= i < |cidrs|
      ensures Selects(rules[i], p) <==> cidrs[i].Has(p.dst)
    {
      assert rules[i].matches == [Dest(cidrs[i])];
      assert Matches(rules[i].matches[0], p) <==> cidrs[i].Has(p.dst);
    }
    DecideNone(rules, p);
    SameTarget(rules, Reject, p);
  }

  lemma {:induction false} SameTarget(rules: seq<Rule>, target: Target, p: Packet)
    requires target in {Accept, Reject}
    requires forall i :: 0 <= i < |rules| ==> rules[i].target == target
    ensures Decide(rules, p) in {None, Some(if target == Accept then Accepted else Rejected)}
  {
    if rules != [] {
      assert rules[0].target == target;
      SameTarget(rules[1..], target, p);
    }
  }

  /** A reject rule for a block nested in another block of the same reject run can be dropped. */
  lemma NestedRejectRedundant(before: seq<Rule>, cidrs: seq<Cidr>, i: nat, j: nat, after: seq<Rule>, p: Packet)
    requires i < |cidrs| && j < |cidrs| && i != j
    requires Nested(cidrs[i], cidrs[j])
    ensures Decide(before + RejectBlock(cidrs) + after, p)
         == Decide(before + RejectBlock(cidrs[..i] + cidrs[i + 1..]) + after, p)
  {
    var fewer := cidrs[..i] + cidrs[i + 1..];
    assert InAny(cidrs, p.dst) <==> InAny(fewer, p.dst) by {
      if InAny(cidrs, p.dst) {
        var k :| 0 <= k < |cidrs| && cidrs[k].Has(p.dst);
        if k == i {
          NestedHas(cidrs[i], cidrs[j], p.dst);
        }
        var l := if k == i then j else k;
        assert cidrs[l] == fewer[if l < i then l else l - 1];
      }
      if InAny(fewer, p.dst) {
        var k :| 0 <= k < |fewer| && fewer[k].Has(p.dst);
        assert fewer[k] == cidrs[if k < i then k else k + 1];
      }
    }
    RejectBlockDecides(cidrs, p);
    RejectBlockDecides(fewer, p);
    DecideConcat(before + RejectBlock(cidrs), after, p);
    DecideConcat(before, RejectBlock(cidrs), p);
    DecideConcat(before + RejectBlock(fewer), after, p);
    DecideConcat(before, RejectBlock(fewer), p);
  }

  function IpText(ip: nat): string {
    Decimal(ip / 0x1000000) + "." + Decimal(ip / 0x10000 % 0x100) + "."
    + Decimal(ip / 0x100 % 0x100) + "." + Decimal(ip % 0x100)
  }

  function CidrText(c: Cidr): string {
    IpText(c.base) + "/" + Decimal(c.len)
  }

  /** The option words a match is written with. */
  function RenderMatch(m: Match): seq<string> {
    match m
    case Source(c) => ["-s", CidrText(c)]
    case Dest(c) => ["-d", CidrText(c)]
    case Protocol(proto) => ["-p", proto]
    case SourcePort(n) => ["--sport", Itoa(n)]
    case DestPort(n) => ["--dport", Itoa(n)]
    case InInterface(name) => ["-i", name]
    case EstablishedRelated => ["-m", "conntrack", "--ctstate", "ESTABLISHED,RELATED"]
    case DestLocal => ["-m", "addrtype", "--dst-type", "LOCAL"]
    case MarkSet => ["-m", "mark", "--mark", "0x2000/0x2000"]
    case Comment(text) => ["-m", "comment", "--comment", text]
    case Feature(tokens) => tokens
  }

  function RenderTarget(target: Target): seq<string> {
    match target
    case Accept => ["-j", "ACCEPT"]
    case Reject => ["-j", "REJECT"]
    case Drop => ["-j", "DROP"]
    case Return => ["-j", "RETURN"]
    case Jump(c) => ["-j", c]
    case Dnat(ip, port) => ["-j", "DNAT", "--to-destination", IpText(ip) + ":" + Itoa(port)]
    case Continue(tokens) => tokens
  }

  function RenderMatches(ms: seq<Match>): seq<string> {
    if ms == [] then [] else RenderMatch(ms[0]) + RenderMatches(ms[1..])
  }

  /** The rule as the words of its specification. */
  function Render(r: Rule): seq<string> {
    RenderMatches(r.matches) + RenderTarget(r.target)
  }

  /** A rule whose listing splits back into the words of its specification. */
  predicate Printable(r: Rule) {
    var words := Render(r);
    words != [] && forall i :: 0 <= i < |words| ==> IsWord(words[i])
  }

  /** A listing may print the value of a comment bare or in double quotes. */
  datatype Listing = Bare | Quoted

  function ShowMatches(ms: seq<Match>, listing: Listing): seq<string> {
    if ms == [] then []
    else
      (if listing.Quoted? && ms[0].Comment? then ["-m", "comment", "--comment", "\"" + ms[0].text + "\""]
       else RenderMatch(ms[0]))
      + ShowMatches(ms[1..], listing)
  }

  function Shown(r: Rule, listing: Listing): seq<string> {
    ShowMatches(r.matches, listing) + RenderTarget(r.target)
  }

  lemma {:induction false} BareMatches(ms: seq<Match>)
    ensures ShowMatches(ms, Bare) == RenderMatches(ms)
  {
    if ms != [] {
      BareMatches(ms[1..]);
    }
  }

  /** One line of a chain listing. */
  function Line(chain: string, r: Rule, listing: Listing): string {
    Join(["-A", chain] + Shown(r, listing))
  }

  /** Checking a short text character by character. */
  lemma Wordy(s: string)
    requires s != "" && forall i :: 0 <= i < |s| ==> '!' <= s[i] <= '~'
    ensures IsWord(s)
  {
  }

  lemma LineWords(chain: string, words: seq<string>)
    requires IsWord(chain)
    requires forall i :: 0 <= i < |words| ==> IsWord(words[i])
    ensures Fields(TrimSpace(Join(["-A", chain] + words))) == ["-A", chain] + words
  {
    hide Join, Fields, TrimSpace, NoSpace;
    var all := ["-A", chain] + words;
    assert IsWord("-A") by {
      Wordy("-A");
    }
    forall i | 0 <= i < |all| ensures IsWord(all[i]) {
      assert i >= 2 ==> all[i] == words[i - 2];
    }
    TrimJoin(all);
    FieldsOfJoin(all);
  }

  lemma LineFields(chain: string, r: Rule)
    requires IsWord(chain) && Printable(r)
    ensures Fields(TrimSpace(Line(chain, r, Bare))) == ["-A", chain] + Render(r)
  {
    BareMatches(r.matches);
    LineWords(chain, Render(r));
  }
}
