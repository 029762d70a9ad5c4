/** What the sandbox chains hold, in the words of the iptables command line. */
module Commands {
  import opened Text
  import opened Rules
  import opened Tables
  import opened Firewall
  import opened Policy

  /** Some rule of the list is written with these words. */
  ghost predicate Holds(s: seq<Rule>, words: seq<string>) {
    exists r :: r in s && Render(r) == words
  }

  /** The networks no sandbox may reach. */
  const CLOSED := [
    "10.0.0.0/8", "172.16.0.0/12", "192.168.0.0/16", "127.0.0.0/8", "169.254.0.0/16", "100.64.0.0/10",
    "198.18.0.0/15", "224.0.0.0/4", "240.0.0.0/4"]

  function Address(ip: nat): string {
    IpText(ip) + "/32"
  }

  function Proto(name: string): string {
    if name == "" then "tcp" else ToLower(name)
  }

  predicate IsEstablished(words: seq<string>) {
    words == ["-m", "conntrack", "--ctstate", "ESTABLISHED,RELATED", "-j", "ACCEPT"]
  }

  predicate IsDnsOver(n: Net, proto: string, words: seq<string>) {
    || words == ["-p", proto, "--dport", "53", "-j", "ACCEPT"]
    || exists i :: 0 <= i < |n.nameservers|
         && words == ["-d", CidrText(n.nameservers[i]), "-p", proto, "--dport", "53", "-j", "ACCEPT"]
  }

  predicate IsDns(n: Net, words: seq<string>) {
    IsDnsOver(n, "udp", words) || IsDnsOver(n, "tcp", words)
  }

  predicate IsClosed(n: Net, words: seq<string>) {
    || words == ["-m", "addrtype", "--dst-type", "LOCAL", "-j", "REJECT"]
    || words == ["-d", CidrText(n.bridge), "-j", "REJECT"]
    || exists i :: 0 <= i < |CLOSED| && words == ["-d", CLOSED[i], "-j", "REJECT"]
  }

  predicate ForwardCommand(n: Net, words: seq<string>) {
    || IsEstablished(words)
    || (n.egress && IsDns(n, words))
    || IsClosed(n, words)
    || words == ["-j", if n.egress then "ACCEPT" else "REJECT"]
  }

  predicate InputCommand(n: Net, words: seq<string>) {
    || IsEstablished(words)
    || (exists i :: 0 <= i < |n.ports|
          && words == ["-p", Proto(n.ports[i].protocol), "--sport", Itoa(n.ports[i].containerPort), "-j", "ACCEPT"])
    || words == ["-j", "REJECT"]
  }

  lemma HoldsConcat(a: seq<Rule>, b: seq<Rule>, words: seq<string>)
    ensures Holds(a + b, words) <==> Holds(a, words) || Holds(b, words)
  {
    hide Render;
    forall r ensures r in a + b <==> r in a || r in b { }
  }

  lemma HoldsOne(r: Rule, words: seq<string>)
    ensures Holds([r], words) <==> Render(r) == words
  {
    assert r in [r];
  }

  lemma HoldsAppended(rs: seq<Rule>, words: seq<string>)
    ensures Holds(AppendAllOnce([], rs), words) <==> Holds(rs, words)
  {
    hide Render;
    forall r ensures r in AppendAllOnce([], rs) <==> r in rs {
      AppendAllMembers([], rs, r);
    }
  }

  lemma RenderNone(target: Target)
    ensures Render(Rule([], target)) == RenderTarget(target)
  {
  }

  lemma RenderOne(a: Match, target: Target)
    ensures Render(Rule([a], target)) == RenderMatch(a) + RenderTarget(target)
  {
    assert [a][1..] == [];
    assert RenderMatches([a]) == RenderMatch(a) + RenderMatches([]) == RenderMatch(a);
  }

  lemma RenderTwo(a: Match, b: Match, target: Target)
    ensures Render(Rule([a, b], target)) == RenderMatch(a) + RenderMatch(b) + RenderTarget(target)
  {
    RenderOne(b, target);
    assert [a, b][1..] == [b];
    assert RenderMatches([a, b]) == RenderMatch(a) + RenderMatches([b]);
  }

  lemma RenderThree(a: Match, b: Match, c: Match, target: Target)
    ensures Render(Rule([a, b, c], target))
         == RenderMatch(a) + RenderMatch(b) + RenderMatch(c) + RenderTarget(target)
  {
    RenderTwo(b, c, target);
    assert [a, b, c][1..] == [b, c];
    assert RenderMatches([a, b, c]) == RenderMatch(a) + RenderMatches([b, c]);
  }

  lemma Fifty()
    ensures Itoa(53) == "53" && Decimal(32) == "32"
  {
    assert Decimal(5) == "5" && Decimal(3) == "3";
  }

  lemma ResolverWords(ns: Cidr, proto: string)
    ensures Render(ResolverRule(ns, proto)) == ["-d", CidrText(ns), "-p", proto, "--dport", "53", "-j", "ACCEPT"]
  {
    hide CidrText;
    Fifty();
    RenderThree(Dest(ns), Protocol(proto), DestPort(53), Accept);
  }

  lemma DnsWords(proto: string)
    ensures Render(DnsRule(proto)) == ["-p", proto, "--dport", "53", "-j", "ACCEPT"]
  {
    Fifty();
    RenderTwo(Protocol(proto), DestPort(53), Accept);
  }

  lemma {:induction false} ResolversHold(nameservers: seq<Cidr>, words: seq<string>)
    ensures Holds(ResolverRules(nameservers), words)
       <==> exists i, proto :: 0 <= i < |nameservers| && proto in {"udp", "tcp"}
              && words == ["-d", CidrText(nameservers[i]), "-p", proto, "--dport", "53", "-j", "ACCEPT"]
  {
    hide CidrText, Render;
    if nameservers != [] {
      var init, ns := nameservers[..|nameservers| - 1], nameservers[|nameservers| - 1];
      ResolversHold(init, words);
      var udp, tcp := ResolverRule(ns, "udp"), ResolverRule(ns, "tcp");
      ResolverWords(ns, "udp");
      ResolverWords(ns, "tcp");
      HoldsConcat(ResolverRules(init), [udp, tcp], words);
      assert [udp, tcp] == [udp] + [tcp];
      HoldsConcat([udp], [tcp], words);
      HoldsOne(udp, words);
      HoldsOne(tcp, words);
    }
  }

  lemma DnsHolds(n: Net, words: seq<string>)
    ensures Holds(DnsRules(n), words) <==> n.egress && IsDns(n, words)
  {
    hide CidrText, Render;
    if n.egress {
      var udp, tcp := DnsRule("udp"), DnsRule("tcp");
      ResolversHold(n.nameservers, words);
      DnsWords("udp");
      DnsWords("tcp");
      HoldsConcat(ResolverRules(n.nameservers), [udp, tcp], words);
      assert [udp, tcp] == [udp] + [tcp];
      HoldsConcat([udp], [tcp], words);
      HoldsOne(udp, words);
      HoldsOne(tcp, words);
    }
  }

  lemma Digits(n: nat)
    requires n < 1000
    ensures n < 10 ==> Decimal(n) == [Digit(n)]
    ensures 10 <= n < 100 ==> Decimal(n) == [Digit(n / 10), Digit(n % 10)]
    ensures 100 <= n ==> Decimal(n) == [Digit(n / 100), Digit(n / 10 % 10), Digit(n % 10)]
  {
  }

  lemma Octets(a: nat, b: nat)
    requires a < 256 && b < 256
    ensures var ip := a * 0x1000000 + b * 0x10000;
      ip / 0x1000000 == a && ip / 0x10000 % 0x100 == b && ip / 0x100 % 0x100 == 0 == ip % 0x100
  {
  }

  lemma NetText(c: Cidr, a: nat, b: nat, net: string)
    requires a < 256 && b < 256 && c.base == a * 0x1000000 + b * 0x10000
    requires Decimal(a) + "." + Decimal(b) + ".0.0/" + Decimal(c.len) == net
    ensures CidrText(c) == net
  {
    hide Decimal;
    Octets(a, b);
    Digits(0);
    var start := Decimal(a) + "." + Decimal(b);
    assert IpText(c.base) == start + "." + "0" + "." + "0";
    assert start + "." + "0" + "." + "0" + "/" == start + ".0.0/";
  }

  lemma PrivateTexts(i: nat)
    requires i < 3
    ensures CidrText(BLOCKED[i]) == CLOSED[i]
  {
    hide CidrText;
    match i
    case 0 => NetText(BLOCKED[i], 10, 0, CLOSED[0]);
    case 1 => NetText(BLOCKED[i], 172, 16, CLOSED[1]);
    case 2 => NetText(BLOCKED[i], 192, 168, CLOSED[2]);
  }

  lemma LocalTexts(i: nat)
    requires 3 <= i < 6
    ensures CidrText(BLOCKED[i]) == CLOSED[i]
  {
    hide CidrText;
    match i
    case 3 => NetText(BLOCKED[i], 127, 0, CLOSED[3]);
    case 4 => NetText(BLOCKED[i], 169, 254, CLOSED[4]);
    case 5 => NetText(BLOCKED[i], 100, 64, CLOSED[5]);
  }

  lemma ReservedTexts(i: nat)
    requires 6 <= i < 9
    ensures CidrText(BLOCKED[i]) == CLOSED[i]
  {
    hide CidrText;
    match i
    case 6 => NetText(BLOCKED[i], 198, 18, CLOSED[6]);
    case 7 => NetText(BLOCKED[i], 224, 0, CLOSED[7]);
    case 8 => NetText(BLOCKED[i], 240, 0, CLOSED[8]);
  }

  lemma ClosedText(i: nat)
    requires i < 9
    ensures CidrText(BLOCKED[i]) == CLOSED[i]
  {
    hide CidrText;
    if i < 3 {
      PrivateTexts(i);
    } else if i < 6 {
      LocalTexts(i);
    } else {
      ReservedTexts(i);
    }
  }

  lemma RejectWords(cidrs: seq<Cidr>, words: seq<string>)
    ensures Holds(RejectBlock(cidrs), words)
       <==> exists i :: 0 <= i < |cidrs| && words == ["-d", CidrText(cidrs[i]), "-j", "REJECT"]
  {
    hide CidrText, Render;
    var rs := RejectBlock(cidrs);
    forall i | 0 <= i < |cidrs| ensures Render(rs[i]) == ["-d", CidrText(cidrs[i]), "-j", "REJECT"] {
      RenderOne(Dest(cidrs[i]), Reject);
    }
    forall r ensures r in rs <==> exists i :: 0 <= i < |cidrs| && rs[i] == r { }
  }

  lemma ClosedHolds(n: Net, words: seq<string>)
    ensures Holds([LOCAL_REJECT] + RejectBlock([n.bridge] + BLOCKED), words) <==> IsClosed(n, words)
  {
    hide CidrText, Render;
    var cidrs := [n.bridge] + BLOCKED;
    HoldsConcat([LOCAL_REJECT], RejectBlock(cidrs), words);
    HoldsOne(LOCAL_REJECT, words);
    RenderOne(DestLocal, Reject);
    RejectWords(cidrs, words);
    forall i | 1 <= i < |cidrs| ensures CidrText(cidrs[i]) == CLOSED[i - 1] {
      ClosedText(i - 1);
    }
    forall i | 0 <= i < |CLOSED| ensures CidrText(cidrs[i + 1]) == CLOSED[i] {
      ClosedText(i);
    }
    assert cidrs[0] == n.bridge;
  }

  lemma EstablishedWords(words: seq<string>)
    ensures Holds([ESTABLISHED_ACCEPT], words) <==> IsEstablished(words)
  {
    HoldsOne(ESTABLISHED_ACCEPT, words);
    RenderOne(EstablishedRelated, Accept);
  }

  lemma ForwardHolds(n: Net, words: seq<string>)
    ensures Holds(FwdBody(n), words) <==> ForwardCommand(n, words)
  {
    hide Render, IsDns, IsClosed, IsEstablished, DnsRules;
    var closed := [LOCAL_REJECT] + RejectBlock([n.bridge] + BLOCKED);
    var last := Rule([], if n.egress then Accept else Reject);
    assert FwdBody(n) == [ESTABLISHED_ACCEPT] + DnsRules(n) + closed + [last];
    HoldsConcat([ESTABLISHED_ACCEPT] + DnsRules(n) + closed, [last], words);
    HoldsConcat([ESTABLISHED_ACCEPT] + DnsRules(n), closed, words);
    HoldsConcat([ESTABLISHED_ACCEPT], DnsRules(n), words);
    EstablishedWords(words);
    DnsHolds(n, words);
    ClosedHolds(n, words);
    HoldsOne(last, words);
    RenderNone(last.target);
  }

  lemma RepliesHold(ports: seq<PublishedPort>, words: seq<string>)
    ensures Holds(ReplyRules(ports), words)
       <==> exists i :: 0 <= i < |ports|
              && words == ["-p", Proto(ports[i].protocol), "--sport", Itoa(ports[i].containerPort), "-j", "ACCEPT"]
  {
    hide Render, Itoa, ToLower;
    var rs := ReplyRules(ports);
    forall i | 0 <= i < |ports|
      ensures Render(rs[i])
           == ["-p", Proto(ports[i].protocol), "--sport", Itoa(ports[i].containerPort), "-j", "ACCEPT"]
    {
      ProtoWord(ports[i].protocol);
      RenderTwo(Protocol(FilterProto(ports[i].protocol)), SourcePort(ports[i].containerPort), Accept);
    }
    forall r ensures r in rs <==> exists i :: 0 <= i < |ports| && rs[i] == r { }
  }

  lemma ProtoWord(name: string)
    ensures FilterProto(name) == Proto(name)
  {
    assert |ToLower(name)| == |name|;
  }

  lemma InputHolds(n: Net, words: seq<string>)
    ensures Holds(InBody(n), words) <==> InputCommand(n, words)
  {
    hide Render, IsEstablished, ReplyRules, Proto, Itoa;
    var last := Rule([], Reject);
    HoldsConcat([ESTABLISHED_ACCEPT] + ReplyRules(n.ports), [last], words);
    HoldsConcat([ESTABLISHED_ACCEPT], ReplyRules(n.ports), words);
    EstablishedWords(words);
    RepliesHold(n.ports, words);
    HoldsOne(last, words);
    RenderNone(Reject);
  }

  /** On a table without rules in a sandbox's chains, applying the sandbox leaves in them exactly the rules the
      command line would write for it, resolver by resolver, network by network and port by port, and in the
      two common chains the hooks to them. */
  lemma AppliedCommands(t: Table, n: Net, words: seq<string>)
    requires HasGlobals(t)
    requires var fwd, inn := "SBX-" + n.short + "-FWD", "SBX-" + n.short + "-IN";
      Chain(t, fwd) == [] == Chain(t, inn)
    ensures var after, fwd, inn := ApplyTable(t, n).table, "SBX-" + n.short + "-FWD", "SBX-" + n.short + "-IN";
      && (Holds(Chain(after, fwd), words) <==> ForwardCommand(n, words))
      && (Holds(Chain(after, inn), words) <==> InputCommand(n, words))
      && Holds(Chain(after, "SANDBOX-FWD"), ["-s", Address(n.ip), "-j", fwd])
      && Holds(Chain(after, "SANDBOX-IN"), ["-i", n.bridgeIf, "-s", Address(n.ip), "-j", inn])
  {
    hide ForwardCommand, InputCommand, FwdBody, InBody, Render, ApplyTable, AppendAllOnce;
    ApplyEffect(t, n);
    ChainNames(n.short, n.short);
    SystemNames();
    HoldsAppended(FwdBody(n), words);
    HoldsAppended(InBody(n), words);
    ForwardHolds(n, words);
    InputHolds(n, words);
    HookWords(n);
    assert HookFwd(n) in AppendOnce(t[SANDBOX_FWD], HookFwd(n));
    assert HookIn(n) in AppendOnce(t[SANDBOX_IN], HookIn(n));
  }

  /** Whatever the table held before, with egress every resolver is reachable over both protocols. */
  lemma ResolverAllowed(t: Table, n: Net, i: nat, proto: string)
    requires HasGlobals(t) && n.egress && i < |n.nameservers| && proto in {"udp", "tcp"}
    ensures Holds(Chain(ApplyTable(t, n).table, "SBX-" + n.short + "-FWD"),
                  ["-d", CidrText(n.nameservers[i]), "-p", proto, "--dport", "53", "-j", "ACCEPT"])
  {
    hide FwdBody, InBody, Render, ApplyTable, AppendAllOnce, CidrText, HookFwd, HookIn;
    var words := ["-d", CidrText(n.nameservers[i]), "-p", proto, "--dport", "53", "-j", "ACCEPT"];
    ApplyEffect(t, n);
    ChainNames(n.short, n.short);
    ForwardHolds(n, words);
    assert IsDns(n, words);
    var r :| r in FwdBody(n) && Render(r) == words;
    AppendAllMembers(Chain(t, FwdChain(n.short)), FwdBody(n), r);
  }

  lemma HookWords(n: Net)
    ensures Render(HookFwd(n)) == ["-s", Address(n.ip), "-j", "SBX-" + n.short + "-FWD"]
    ensures Render(HookIn(n)) == ["-i", n.bridgeIf, "-s", Address(n.ip), "-j", "SBX-" + n.short + "-IN"]
  {
    hide IpText;
    Fifty();
    assert CidrText(Host(n.ip)) == IpText(n.ip) + "/" + "32" == Address(n.ip);
    RenderOne(Source(Host(n.ip)), Jump(FwdChain(n.short)));
    RenderTwo(InInterface(n.bridgeIf), Source(Host(n.ip)), Jump(InChain(n.short)));
  }

  /** The rules at the head of FORWARD once the global chains are installed. */
  lemma HeadCommands(t: Table, hooks: seq<string>)
    requires FORWARD in t && INPUT in t
    ensures var s := Chain(EnsureTable(t, hooks).table, "FORWARD");
      && |s| >= 3
      && Render(s[0]) == ["-j", "SANDBOX-FWD"]
      && Render(s[1]) == ["-m", "conntrack", "--ctstate", "ESTABLISHED,RELATED", "-j", "ACCEPT"]
      && Render(s[2]) == ["-m", "mark", "--mark", "0x2000/0x2000", "-j", "ACCEPT"]
  {
    hide Render, RemoveFirst, EnsureTable, MARK_ACCEPT, ESTABLISHED_ACCEPT, JUMP_FWD;
    EnsureEffect(t, hooks);
    ForwardHead(t[FORWARD]);
    HeadWords();
  }

  lemma HeadWords()
    ensures Render(JUMP_FWD) == ["-j", "SANDBOX-FWD"]
    ensures Render(ESTABLISHED_ACCEPT) == ["-m", "conntrack", "--ctstate", "ESTABLISHED,RELATED", "-j", "ACCEPT"]
    ensures Render(MARK_ACCEPT) == ["-m", "mark", "--mark", "0x2000/0x2000", "-j", "ACCEPT"]
  {
    RenderNone(Jump(SANDBOX_FWD));
    RenderOne(EstablishedRelated, Accept);
    RenderOne(MarkSet, Accept);
  }
}
