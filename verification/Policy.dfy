/** What the rule lists mean: the verdict of every packet of a live sandbox is a plain policy, under
    any history of sandboxes coming and going. */
module Policy {
  import opened Text
  import opened Rules
  import opened Tables
  import opened Firewall

  /** The private, loopback, link-local, shared, benchmarking, multicast and reserved ranges as plain
      address intervals; the first three are those of section 3 of RFC 1918. */
  predicate Blocked(addr: nat) {
    || 0x0A000000 <= addr <= 0x0AFFFFFF
    || 0xAC100000 <= addr <= 0xAC1FFFFF
    || 0xC0A80000 <= addr <= 0xC0A8FFFF
    || 0x7F000000 <= addr <= 0x7FFFFFFF
    || 0xA9FE0000 <= addr <= 0xA9FEFFFF
    || 0x64400000 <= addr <= 0x647FFFFF
    || 0xC6120000 <= addr <= 0xC613FFFF
    || 0xE0000000 <= addr <= 0xEFFFFFFF
    || 0xF0000000 <= addr <= 0xFFFFFFFF
  }

  predicate OnBridge(n: Net, addr: nat) {
    var low := n.bridge.base - n.bridge.base % n.bridge.BlockSize();
    low <= addr < low + n.bridge.BlockSize()
  }

  /** What forwarding a packet of sandbox `n` should come to. */
  function ForwardPolicy(n: Net, p: Packet): Verdict {
    if p.established then Accepted
    else if n.egress && p.proto in {"udp", "tcp"} && p.dport == 53 then Accepted
    else if p.dstLocal || OnBridge(n, p.dst) || Blocked(p.dst) then Rejected
    else if n.egress then Accepted
    else Rejected
  }

  /** What a packet of sandbox `n` addressed to the host itself should come to. */
  function InputPolicy(n: Net, p: Packet): Verdict {
    if p.established then Accepted
    else if exists i ::
              0 <= i < |n.ports| && p.proto == FilterProto(n.ports[i].protocol) && p.sport == n.ports[i].containerPort
      then Accepted
    else Rejected
  }

  lemma BlockSizes()
    ensures Pow2(4) == 0x10 && Pow2(16) == 0x10000 && Pow2(17) == 0x20000
    ensures Pow2(20) == 0x100000 && Pow2(22) == 0x400000 && Pow2(24) == 0x1000000 && Pow2(28) == 0x10000000
  {
  }

  lemma AlignedBlock(c: Cidr, size: nat, addr: nat)
    requires c.BlockSize() == size && c.base % size == 0
    ensures c.Has(addr) <==> c.base <= addr < c.base + size
  {
    CidrIsInterval(c, addr);
  }

  /** The blocked prefixes cover exactly the blocked intervals, for IPv4 addresses. */
  lemma BlockedIsIntervals(addr: nat)
    requires addr < 0x1_0000_0000
    ensures InAny(BLOCKED, addr) <==> Blocked(addr)
  {
    BlockSizes();
    AlignedBlock(BLOCKED[0], 0x1000000, addr);
    AlignedBlock(BLOCKED[1], 0x100000, addr);
    AlignedBlock(BLOCKED[2], 0x10000, addr);
    AlignedBlock(BLOCKED[3], 0x1000000, addr);
    AlignedBlock(BLOCKED[4], 0x10000, addr);
    AlignedBlock(BLOCKED[5], 0x400000, addr);
    AlignedBlock(BLOCKED[6], 0x20000, addr);
    AlignedBlock(BLOCKED[7], 0x10000000, addr);
    AlignedBlock(BLOCKED[8], 0x10000000, addr);
    if InAny(BLOCKED, addr) {
      var i :| 0 <= i < |BLOCKED| && BLOCKED[i].Has(addr);
      assert i in {0, 1, 2, 3, 4, 5, 6, 7, 8};
    }
  }

  lemma RejectedRanges(n: Net, addr: nat)
    requires addr < 0x1_0000_0000
    ensures InAny([n.bridge] + BLOCKED, addr) <==> OnBridge(n, addr) || Blocked(addr)
  {
    var all := [n.bridge] + BLOCKED;
    BlockedIsIntervals(addr);
    CidrIsInterval(n.bridge, addr);
    assert all[0] == n.bridge;
    assert forall i :: 0 <= i < |BLOCKED| ==> all[i + 1] == BLOCKED[i];
    assert forall i :: 1 <= i < |all| ==> all[i] == BLOCKED[i - 1];
    if InAny(BLOCKED, addr) {
      var i :| 0 <= i < |BLOCKED| && BLOCKED[i].Has(addr);
      assert all[i + 1].Has(addr);
    }
  }

  lemma SelectsOne(m: Match, target: Target, p: Packet)
    ensures Selects(Rule([m], target), p) <==> Matches(m, p)
  {
    assert Rule([m], target).matches[0] == m;
  }

  lemma SelectsTwo(a: Match, b: Match, target: Target, p: Packet)
    ensures Selects(Rule([a, b], target), p) <==> Matches(a, p) && Matches(b, p)
  {
    var r := Rule([a, b], target);
    assert r.matches[0] == a && r.matches[1] == b;
  }

  lemma SelectsThree(a: Match, b: Match, c: Match, target: Target, p: Packet)
    ensures Selects(Rule([a, b, c], target), p) <==> Matches(a, p) && Matches(b, p) && Matches(c, p)
  {
    var r := Rule([a, b, c], target);
    assert r.matches[0] == a && r.matches[1] == b && r.matches[2] == c;
  }

  lemma DecidePair(a: Rule, b: Rule, p: Packet)
    requires a.target == Accept == b.target
    ensures Decide([a, b], p) == if Selects(a, p) || Selects(b, p) then Some(Accepted) else None
  {
    assert [a, b][1..] == [b] && [b][1..] == [];
    assert Decide([b], p) == if Selects(b, p) then Some(Accepted) else None;
  }

  lemma {:induction false} ResolverRulesNarrow(nameservers: seq<Cidr>, p: Packet)
    ensures Terminal(ResolverRules(nameservers))
    ensures Decide(ResolverRules(nameservers), p) != None ==>
              Decide(ResolverRules(nameservers), p) == Some(Accepted) && p.proto in {"udp", "tcp"} && p.dport == 53
  {
    if nameservers != [] {
      var init, ns := nameservers[..|nameservers| - 1], nameservers[|nameservers| - 1];
      ResolverRulesNarrow(init, p);
      var pair := [ResolverRule(ns, "udp"), ResolverRule(ns, "tcp")];
      DecideConcat(ResolverRules(init), pair, p);
      SelectsThree(Dest(ns), Protocol("udp"), DestPort(53), Accept, p);
      SelectsThree(Dest(ns), Protocol("tcp"), DestPort(53), Accept, p);
      DecidePair(ResolverRule(ns, "udp"), ResolverRule(ns, "tcp"), p);
    }
  }

  /** Whatever resolvers the host has, their rules decide nothing the two general DNS rules do not. */
  lemma DnsRulesDecide(n: Net, p: Packet)
    ensures Terminal(DnsRules(n))
    ensures Decide(DnsRules(n), p)
         == if n.egress && p.proto in {"udp", "tcp"} && p.dport == 53 then Some(Accepted) else None
  {
    if n.egress {
      ResolverRulesNarrow(n.nameservers, p);
      var pair := [DnsRule("udp"), DnsRule("tcp")];
      DecideConcat(ResolverRules(n.nameservers), pair, p);
      SelectsTwo(Protocol("udp"), DestPort(53), Accept, p);
      SelectsTwo(Protocol("tcp"), DestPort(53), Accept, p);
      DecidePair(DnsRule("udp"), DnsRule("tcp"), p);
    }
  }

  /** The per-resolver DNS rules are redundant for every list of resolvers. */
  lemma ResolversRedundant(n: Net, other: seq<Cidr>, p: Packet)
    ensures Decide(FwdBody(n), p) == Decide(FwdBody(n.(nameservers := other)), p)
  {
    var m := n.(nameservers := other);
    DnsRulesDecide(n, p);
    DnsRulesDecide(m, p);
    FwdBodyBlocks(n, p);
    FwdBodyBlocks(m, p);
  }

  /** The forward chain decides block by block. */
  lemma FwdBodyBlocks(n: Net, p: Packet)
    ensures Decide(FwdBody(n), p)
         == if p.established then Some(Accepted)
            else if Decide(DnsRules(n), p).Some? then Decide(DnsRules(n), p)
            else if p.dstLocal || InAny([n.bridge] + BLOCKED, p.dst) then Some(Rejected)
            else Some(if n.egress then Accepted else Rejected)
  {
    var blocks := [n.bridge] + BLOCKED;
    var last := [Rule([], if n.egress then Accept else Reject)];
    var a := [ESTABLISHED_ACCEPT] + DnsRules(n);
    var b := a + [LOCAL_REJECT];
    var c := b + RejectBlock(blocks);
    assert FwdBody(n) == c + last;
    SelectsOne(EstablishedRelated, Accept, p);
    SelectsOne(DestLocal, Reject, p);
    DecideConcat([ESTABLISHED_ACCEPT], DnsRules(n), p);
    DecideConcat(a, [LOCAL_REJECT], p);
    DecideConcat(b, RejectBlock(blocks), p);
    RejectBlockDecides(blocks, p);
    DecideConcat(c, last, p);
  }

  lemma FwdBodyTerminal(n: Net)
    ensures Terminal(FwdBody(n))
  {
    DnsRulesDecide(n, Packet(0, 0, "", 0, 0, "", false, false, 0, {}));
  }

  lemma FwdBodyDecides(n: Net, p: Packet)
    requires p.dst < 0x1_0000_0000
    ensures Decide(FwdBody(n), p) == Some(ForwardPolicy(n, p))
  {
    DnsRulesDecide(n, p);
    FwdBodyBlocks(n, p);
    RejectedRanges(n, p.dst);
  }

  lemma InBodyDecides(n: Net, p: Packet)
    ensures Terminal(InBody(n))
    ensures Decide(InBody(n), p) == Some(InputPolicy(n, p))
  {
    var replies, last := ReplyRules(n.ports), [Rule([], Reject)];
    SelectsOne(EstablishedRelated, Accept, p);
    DecideConcat([ESTABLISHED_ACCEPT], replies, p);
    DecideConcat([ESTABLISHED_ACCEPT] + replies, last, p);
    forall i | 0 <= i < |replies|
      ensures Selects(replies[i], p)
         <==> p.proto == FilterProto(n.ports[i].protocol) && p.sport == n.ports[i].containerPort
    {
      SelectsTwo(Protocol(FilterProto(n.ports[i].protocol)), SourcePort(n.ports[i].containerPort), Accept, p);
    }
    DecideNone(replies, p);
    SameTarget(replies, Accept, p);
  }

  /** A chain built rule by rule with AppendUnique decides like the list it was built from. */
  lemma BuiltChainDecides(t: Table, body: seq<Rule>, p: Packet, depth: nat)
    requires Terminal(body)
    ensures Eval(t, AppendAllOnce([], body), p, depth) == Decide(body, p)
  {
    AppendUniqueKeepsVerdict(t, [], body, p, depth);
    assert [] + body == body;
    TerminalEval(t, body, p, depth);
  }

  /** A list of hooks of which only `hook` selects the packet hands it to that hook's chain. */
  lemma {:induction false} OnlyHookDecides(t: Table, hooks: seq<Rule>, hook: Rule, p: Packet, depth: nat)
    requires hook in hooks && Selects(hook, p)
    requires forall r :: r in hooks && r != hook ==> !Selects(r, p)
    requires hook.target.Jump? && depth > 0
    requires Eval(t, Chain(t, hook.target.chain), p, depth - 1).Some?
    ensures Eval(t, hooks, p, depth) == Eval(t, Chain(t, hook.target.chain), p, depth - 1)
  {
    if hooks[0] != hook {
      assert hooks[0] in hooks;
      OnlyHookDecides(t, hooks[1..], hook, p, depth);
    }
  }

  lemma {:induction false} NoHookDecides(t: Table, hooks: seq<Rule>, p: Packet, depth: nat)
    requires forall r :: r in hooks ==> !Selects(r, p)
    ensures Eval(t, hooks, p, depth) == None
  {
    if hooks != [] {
      assert hooks[0] in hooks;
      NoHookDecides(t, hooks[1..], p, depth);
    }
  }

  // Chain names.

  predicate OwnChain(c: string) {
    c == SANDBOX_FWD || c == SANDBOX_IN || "SBX-" <= c
  }

  lemma ChainNames(a: string, b: string)
    ensures FwdChain(a) != InChain(b)
    ensures FwdChain(a) == FwdChain(b) ==> a == b
    ensures InChain(a) == InChain(b) ==> a == b
    ensures "SBX-" <= FwdChain(a) && "SBX-" <= InChain(a)
    ensures FwdChain(a) !in {FORWARD, INPUT, SANDBOX_FWD, SANDBOX_IN}
    ensures InChain(a) !in {FORWARD, INPUT, SANDBOX_FWD, SANDBOX_IN}
  {
    assert FwdChain(a)[|FwdChain(a)| - 1] == 'D';
    assert InChain(b)[|InChain(b)| - 1] == 'N';
    assert FwdChain(a)[4..|FwdChain(a)| - 4] == a;
    assert FwdChain(b)[4..|FwdChain(b)| - 4] == b;
    assert InChain(a)[4..|InChain(a)| - 3] == a;
    assert InChain(b)[4..|InChain(b)| - 3] == b;
    assert FwdChain(a)[1] == 'B' && InChain(a)[1] == 'B';
    assert FORWARD[1] == 'O' && INPUT[1] == 'N' && SANDBOX_FWD[1] == 'A' && SANDBOX_IN[1] == 'A';
  }

  lemma SystemNames()
    ensures FORWARD != INPUT && FORWARD != SANDBOX_FWD && FORWARD != SANDBOX_IN
    ensures INPUT != SANDBOX_FWD && INPUT != SANDBOX_IN && SANDBOX_FWD != SANDBOX_IN
    ensures !OwnChain(FORWARD) && !OwnChain(INPUT)
    ensures !("SBX-" <= SANDBOX_FWD) && !("SBX-" <= SANDBOX_IN)
  {
    assert |FORWARD| == 7 && |INPUT| == 5 && |SANDBOX_FWD| == 11 && |SANDBOX_IN| == 10;
    assert FORWARD[0] == 'F' && INPUT[0] == 'I' && SANDBOX_FWD[1] == 'A' && SANDBOX_IN[1] == 'A' && "SBX-"[1] == 'B'
      && "SBX-"[0] == 'S';
  }

  // What each operation does to each chain.

  function First(s: seq<Rule>, r: Rule): seq<Rule> {
    [r] + RemoveFirst(s, r)
  }

  function Early(s: seq<Rule>, r: Rule): seq<Rule> {
    var rest := RemoveFirst(s, r);
    if rest == [] then rest else rest[..1] + [r] + rest[1..]
  }

  function PortRules(ip: nat, ports: seq<PublishedPort>): seq<Rule> {
    seq(|ports|, i requires 0 <= i < |ports| => PortRule(ip, ports[i]))
  }

  function EarlyAll(s: seq<Rule>, rs: seq<Rule>): seq<Rule> {
    if rs == [] then s else Early(EarlyAll(s, rs[..|rs| - 1]), rs[|rs| - 1])
  }

  lemma {:induction false} WithPortsChain(t: Table, ip: nat, ports: seq<PublishedPort>)
    requires FORWARD in t
    ensures WithPorts(t, ip, ports) == t[FORWARD := EarlyAll(t[FORWARD], PortRules(ip, ports))]
  {
    if ports == [] {
      assert t == t[FORWARD := t[FORWARD]];
    } else {
      var init := ports[..|ports| - 1];
      WithPortsChain(t, ip, init);
      assert PortRules(ip, ports)[..|ports| - 1] == PortRules(ip, init);
      var s := EarlyAll(t[FORWARD], PortRules(ip, init));
      var r := PortRule(ip, ports[|ports| - 1]);
      var rest := RemoveFirst(s, r);
      assert WithPorts(t, ip, ports)[FORWARD] == Early(s, r);
    }
  }

  lemma {:induction false} WithoutPortsChain(t: Table, ip: nat, ports: seq<PublishedPort>)
    requires FORWARD in t
    ensures WithoutPorts(t, ip, ports) == t[FORWARD := RemoveAll(t[FORWARD], PortRules(ip, ports))]
  {
    if ports == [] {
      assert t == t[FORWARD := t[FORWARD]];
    } else {
      var init := ports[..|ports| - 1];
      WithoutPortsChain(t, ip, init);
      assert PortRules(ip, ports)[..|ports| - 1] == PortRules(ip, init);
    }
  }

  predicate HasGlobals(t: Table) {
    FORWARD in t && INPUT in t && SANDBOX_FWD in t && SANDBOX_IN in t
  }

  /** Applying a sandbox changes five chains and no other. */
  lemma ApplyEffect(t: Table, n: Net)
    requires HasGlobals(t)
    ensures ApplyTable(t, n).ok
    ensures ApplyTable(t, n).table == Applied(t, n)
  {
    var fwd, inn := FwdChain(n.short), InChain(n.short);
    ChainNames(n.short, n.short);
    SystemNames();
    HookUp(t, fwd, inn, HookFwd(n), HookIn(n));
    var t1 := WithAppend(WithAppend(WithNew(WithNew(t, fwd), inn), SANDBOX_FWD, HookFwd(n)), SANDBOX_IN, HookIn(n));
    WithPortsChain(t1, n.ip, n.ports);
    var t2 := WithPorts(t1, n.ip, n.ports);
    WithAppendsChain(t2, fwd, FwdBody(n));
    WithAppendsChain(WithAppends(t2, fwd, FwdBody(n)), inn, InBody(n));
    assert ApplyTable(t, n) == Outcome(WithAppends(WithAppends(t2, fwd, FwdBody(n)), inn, InBody(n)), true);
    Reorder(t, fwd, inn, EarlyAll(t[FORWARD], PortRules(n.ip, n.ports)), AppendOnce(t[SANDBOX_FWD], HookFwd(n)),
            AppendOnce(t[SANDBOX_IN], HookIn(n)), AppendAllOnce(Chain(t, fwd), FwdBody(n)),
            AppendAllOnce(Chain(t, inn), InBody(n)));
  }

  function Applied(t: Table, n: Net): Table
    requires HasGlobals(t)
  {
    t[FORWARD := EarlyAll(t[FORWARD], PortRules(n.ip, n.ports))]
     [SANDBOX_FWD := AppendOnce(t[SANDBOX_FWD], HookFwd(n))]
     [SANDBOX_IN := AppendOnce(t[SANDBOX_IN], HookIn(n))]
     [FwdChain(n.short) := AppendAllOnce(Chain(t, FwdChain(n.short)), FwdBody(n))]
     [InChain(n.short) := AppendAllOnce(Chain(t, InChain(n.short)), InBody(n))]
  }

  lemma HookUp(t: Table, fwd: string, inn: string, hookFwd: Rule, hookIn: Rule)
    requires HasGlobals(t) && fwd != inn
    requires fwd !in {FORWARD, SANDBOX_FWD, SANDBOX_IN} && inn !in {FORWARD, SANDBOX_FWD, SANDBOX_IN}
    requires SANDBOX_FWD != SANDBOX_IN
    ensures WithAppend(WithAppend(WithNew(WithNew(t, fwd), inn), SANDBOX_FWD, hookFwd), SANDBOX_IN, hookIn)
         == t[fwd := Chain(t, fwd)][inn := Chain(t, inn)]
             [SANDBOX_FWD := AppendOnce(t[SANDBOX_FWD], hookFwd)][SANDBOX_IN := AppendOnce(t[SANDBOX_IN], hookIn)]
  {
  }

  lemma Reorder(t: Table, fwd: string, inn: string, a: seq<Rule>, b: seq<Rule>, c: seq<Rule>, d: seq<Rule>,
                e: seq<Rule>)
    requires fwd != inn && fwd !in {FORWARD, SANDBOX_FWD, SANDBOX_IN} && inn !in {FORWARD, SANDBOX_FWD, SANDBOX_IN}
    requires FORWARD != SANDBOX_FWD && FORWARD != SANDBOX_IN && SANDBOX_FWD != SANDBOX_IN
    ensures t[fwd := Chain(t, fwd)][inn := Chain(t, inn)]
             [SANDBOX_FWD := b][SANDBOX_IN := c][FORWARD := a][fwd := d][inn := e]
         == t[FORWARD := a][SANDBOX_FWD := b][SANDBOX_IN := c][fwd := d][inn := e]
  {
  }

  /** Deleting a sandbox empties or removes its two chains and changes three others. */
  lemma DeleteEffect(t: Table, n: Net)
    requires HasGlobals(t)
    ensures HasGlobals(DeleteTable(t, n))
    ensures DeleteTable(t, n)[FORWARD] == RemoveAll(t[FORWARD], PortRules(n.ip, n.ports))
    ensures DeleteTable(t, n)[SANDBOX_FWD] == RemoveFirst(t[SANDBOX_FWD], HookFwd(n))
    ensures DeleteTable(t, n)[SANDBOX_IN] == RemoveFirst(t[SANDBOX_IN], HookIn(n))
    ensures Chain(DeleteTable(t, n), FwdChain(n.short)) == [] == Chain(DeleteTable(t, n), InChain(n.short))
    ensures forall c :: c !in {FORWARD, SANDBOX_FWD, SANDBOX_IN, FwdChain(n.short), InChain(n.short)} ==>
              (c in DeleteTable(t, n) <==> c in t) && Chain(DeleteTable(t, n), c) == Chain(t, c)
  {
    hide FwdChain, InChain, HookFwd, HookIn, PortRules, RemoveAll, RemoveFirst;
    ChainNames(n.short, n.short);
    SystemNames();
    WithoutPortsChain(t, n.ip, n.ports);
  }

  lemma WithFirstChain(t: Table, c: string, r: Rule)
    ensures WithFirst(t, c, r) == if c in t then t[c := First(t[c], r)] else t
  {
    if c in t {
      var rest := RemoveFirst(t[c], r);
      assert rest[..0] + [r] + rest[0..] == [r] + rest;
    }
  }

  predicate Hooked(hooks: seq<string>, c: string) {
    c != "" && exists i :: 0 <= i < |hooks| && HookName(hooks[i]) == c
  }

  lemma FirstTwice(s: seq<Rule>, r: Rule)
    ensures First(First(s, r), r) == First(s, r)
  {
  }

  /** Hooking a chain once or many times leaves one more jump at its head. */
  lemma {:induction false} HooksEffect(t: Table, hooks: seq<string>)
    ensures WithHooks(t, hooks).Keys == t.Keys
    ensures forall c :: c in t ==> WithHooks(t, hooks)[c] == if Hooked(hooks, c) then First(t[c], JUMP_FWD) else t[c]
  {
    if hooks != [] {
      var init, last := hooks[..|hooks| - 1], HookName(hooks[|hooks| - 1]);
      var u := WithHooks(t, init);
      HooksEffect(t, init);
      WithFirstChain(u, last, JUMP_FWD);
      assert WithHooks(t, hooks) == if last == "" || last !in t then u else u[last := First(u[last], JUMP_FWD)];
      forall c | c in t
        ensures WithHooks(t, hooks)[c] == if Hooked(hooks, c) then First(t[c], JUMP_FWD) else t[c]
      {
        HookedSnoc(hooks, c);
        FirstTwice(t[c], JUMP_FWD);
      }
    }
  }

  lemma HookedSnoc(hooks: seq<string>, c: string)
    requires hooks != []
    ensures Hooked(hooks, c) <==> Hooked(hooks[..|hooks| - 1], c) || (c != "" && HookName(hooks[|hooks| - 1]) == c)
  {
  }

  lemma {:induction false} TrimLeftUpper(s: string)
    ensures TrimLeft(ToUpper(s)) == ToUpper(TrimLeft(s))
  {
    if s != "" {
      assert ToUpper(s)[1..] == ToUpper(s[1..]);
      assert IsSpace(ToUpper(s)[0]) <==> IsSpace(s[0]);
      if IsSpace(s[0]) {
        TrimLeftUpper(s[1..]);
      }
    }
  }

  lemma {:induction false} TrimRightUpper(s: string)
    ensures TrimRight(ToUpper(s)) == ToUpper(TrimRight(s))
  {
    if s != "" {
      assert ToUpper(s)[..|s| - 1] == ToUpper(s[..|s| - 1]);
      assert IsSpace(ToUpper(s)[|s| - 1]) <==> IsSpace(s[|s| - 1]);
      if IsSpace(s[|s| - 1]) {
        TrimRightUpper(s[..|s| - 1]);
      }
    }
  }

  lemma ForwardIsHooked(hooks: seq<string>)
    ensures Hooked(EffectiveHooks(hooks), FORWARD)
  {
    var all := EffectiveHooks(hooks);
    assert TrimSpace(FORWARD) == FORWARD && ToUpper(FORWARD) == FORWARD;
    if hooks != [] && NamesChain(hooks, FORWARD) {
      var i :| 0 <= i < |hooks| && ToUpper(TrimSpace(hooks[i])) == ToUpper(TrimSpace(FORWARD));
      TrimLeftUpper(hooks[i]);
      TrimRightUpper(TrimLeft(hooks[i]));
      assert HookName(all[i]) == FORWARD;
    } else {
      assert all[0] == FORWARD;
      assert HookName(all[0]) == FORWARD;
    }
  }

  /** What installing the global chains makes of the list `s` of chain `c`. */
  function EnsuredChain(hooks: seq<string>, c: string, s: seq<Rule>): seq<Rule> {
    if c == FORWARD then First(First(First(s, MARK_ACCEPT), ESTABLISHED_ACCEPT), JUMP_FWD)
    else
      var hooked := if Hooked(EffectiveHooks(hooks), c) then First(s, JUMP_FWD) else s;
      if c == INPUT then First(hooked, JUMP_IN) else hooked
  }

  lemma EnsureForward(t: Table)
    requires FORWARD in t
    ensures WithFirst(WithFirst(t, FORWARD, MARK_ACCEPT), FORWARD, ESTABLISHED_ACCEPT)
         == t[FORWARD := First(First(t[FORWARD], MARK_ACCEPT), ESTABLISHED_ACCEPT)]
  {
    WithFirstChain(t, FORWARD, MARK_ACCEPT);
    WithFirstChain(t[FORWARD := First(t[FORWARD], MARK_ACCEPT)], FORWARD, ESTABLISHED_ACCEPT);
  }

  function HookedTable(t: Table, hooks: seq<string>): Table
    requires FORWARD in t
  {
    WithHooks(t[FORWARD := First(First(t[FORWARD], MARK_ACCEPT), ESTABLISHED_ACCEPT)], EffectiveHooks(hooks))
  }

  lemma EnsureSteps(t: Table, hooks: seq<string>)
    requires FORWARD in t && INPUT in t
    ensures FORWARD in WithGlobalChains(t)
    ensures EnsureTable(t, hooks) == Outcome(WithFirst(HookedTable(WithGlobalChains(t), hooks), INPUT, JUMP_IN), true)
  {
    var t0 := WithGlobalChains(t);
    EnsureForward(t0);
    HooksEffect(t0[FORWARD := First(First(t0[FORWARD], MARK_ACCEPT), ESTABLISHED_ACCEPT)], EffectiveHooks(hooks));
  }

  /** Installing the global chains: the exact list each chain becomes. */
  lemma EnsureEffect(t: Table, hooks: seq<string>)
    requires FORWARD in t && INPUT in t
    ensures EnsureTable(t, hooks).ok
    ensures EnsureTable(t, hooks).table.Keys == t.Keys + {SANDBOX_FWD, SANDBOX_IN}
    ensures forall c :: c in EnsureTable(t, hooks).table ==>
              EnsureTable(t, hooks).table[c] == EnsuredChain(hooks, c, Chain(t, c))
  {
    EnsureSteps(t, hooks);
    var t0 := WithGlobalChains(t);
    assert forall c :: Chain(t0, c) == Chain(t, c);
    EnsureChains(t0, hooks);
  }

  lemma EnsureChains(t: Table, hooks: seq<string>)
    requires FORWARD in t && INPUT in t
    ensures WithFirst(HookedTable(t, hooks), INPUT, JUMP_IN).Keys == t.Keys
    ensures forall c :: c in t ==>
              WithFirst(HookedTable(t, hooks), INPUT, JUMP_IN)[c] == EnsuredChain(hooks, c, Chain(t, c))
  {
    var t1 := t[FORWARD := First(First(t[FORWARD], MARK_ACCEPT), ESTABLISHED_ACCEPT)];
    HooksEffect(t1, EffectiveHooks(hooks));
    WithFirstChain(HookedTable(t, hooks), INPUT, JUMP_IN);
    forall c | c in t
      ensures WithFirst(HookedTable(t, hooks), INPUT, JUMP_IN)[c] == EnsuredChain(hooks, c, Chain(t, c))
    {
      if c == FORWARD {
        ForwardIsHooked(hooks);
        assert FORWARD != INPUT by { SystemNames(); }
      }
    }
  }

  /** The head of FORWARD after installing the global chains, and what is left behind it. */
  lemma ForwardHead(s: seq<Rule>)
    ensures First(First(First(s, MARK_ACCEPT), ESTABLISHED_ACCEPT), JUMP_FWD)
         == [JUMP_FWD, ESTABLISHED_ACCEPT, MARK_ACCEPT]
            + RemoveFirst(RemoveFirst(RemoveFirst(s, MARK_ACCEPT), ESTABLISHED_ACCEPT), JUMP_FWD)
  {
    hide RemoveFirst;
    HeadsDiffer();
    var a := RemoveFirst(s, MARK_ACCEPT);
    RemoveBehind(MARK_ACCEPT, a, ESTABLISHED_ACCEPT);
    var b := RemoveFirst(a, ESTABLISHED_ACCEPT);
    RemoveBehind(MARK_ACCEPT, b, JUMP_FWD);
    RemoveBehind(ESTABLISHED_ACCEPT, [MARK_ACCEPT] + b, JUMP_FWD);
    assert First(s, MARK_ACCEPT) == [MARK_ACCEPT] + a;
    assert First([MARK_ACCEPT] + a, ESTABLISHED_ACCEPT) == [ESTABLISHED_ACCEPT] + ([MARK_ACCEPT] + b);
  }

  lemma HeadsDiffer()
    ensures MARK_ACCEPT != ESTABLISHED_ACCEPT && MARK_ACCEPT != JUMP_FWD && ESTABLISHED_ACCEPT != JUMP_FWD
  {
  }

  lemma RemoveBehind(head: Rule, s: seq<Rule>, r: Rule)
    requires head != r
    ensures RemoveFirst([head] + s, r) == [head] + RemoveFirst(s, r)
  {
  }
}
