/** Every history of installing the global chains, applying sandboxes and deleting them keeps the
    filter table meaning the policy of the live sandboxes. */
module History {
  import opened Rules
  import opened Tables
  import opened Firewall
  import opened Policy

  /** Live sandboxes have their own address and their own chain names. */
  ghost predicate Distinct(live: set<Net>) {
    forall a, b :: a in live && b in live && a != b ==> a.ip != b.ip && a.short != b.short
  }

  ghost predicate HooksOf(chain: seq<Rule>, hooks: set<Rule>) {
    (forall r :: r in chain ==> r in hooks) && (forall r :: r in hooks ==> multiset(chain)[r] == 1)
  }

  ghost function FwdHooks(live: set<Net>): set<Rule> {
    set n | n in live :: HookFwd(n)
  }

  ghost function InHooks(live: set<Net>): set<Rule> {
    set n | n in live :: HookIn(n)
  }

  ghost predicate Filled(t: Table, n: Net) {
    && Chain(t, FwdChain(n.short)) == AppendAllOnce([], FwdBody(n))
    && Chain(t, InChain(n.short)) == AppendAllOnce([], InBody(n))
  }

  predicate OwnedBy(c: string, n: Net) {
    c == FwdChain(n.short) || c == InChain(n.short)
  }

  ghost predicate NoLeftovers(t: Table, live: set<Net>) {
    forall c :: "SBX-" <= c && Chain(t, c) != [] ==> exists n :: n in live && OwnedBy(c, n)
  }

  /** The filter table guards exactly the sandboxes in `live`. */
  ghost predicate Guarded(t: Table, live: set<Net>) {
    && HasGlobals(t)
    && [JUMP_FWD] <= t[FORWARD]
    && [JUMP_IN] <= t[INPUT]
    && Distinct(live)
    && HooksOf(t[SANDBOX_FWD], FwdHooks(live))
    && HooksOf(t[SANDBOX_IN], InHooks(live))
    && (forall n :: n in live ==> Filled(t, n))
    && NoLeftovers(t, live)
  }

  lemma HookSelects(n: Net, p: Packet)
    ensures Selects(HookFwd(n), p) <==> p.src == n.ip
    ensures Selects(HookIn(n), p) <==> p.inIf == n.bridgeIf && p.src == n.ip
  {
    HostHas(n.ip, p.src);
    SelectsOne(Source(Host(n.ip)), Jump(FwdChain(n.short)), p);
    SelectsTwo(InInterface(n.bridgeIf), Source(Host(n.ip)), Jump(InChain(n.short)), p);
  }

  lemma JumpHead(t: Table, rules: seq<Rule>, c: string, p: Packet, depth: nat)
    requires [Rule([], Jump(c))] <= rules && depth > 0
    requires Eval(t, Chain(t, c), p, depth - 1).Some?
    ensures Eval(t, rules, p, depth) == Eval(t, Chain(t, c), p, depth - 1)
  {
  }

  lemma FwdChainVerdict(t: Table, n: Net, p: Packet, depth: nat)
    requires Filled(t, n) && p.dst < 0x1_0000_0000
    ensures Eval(t, Chain(t, FwdChain(n.short)), p, depth) == Some(ForwardPolicy(n, p))
  {
    FwdBodyTerminal(n);
    BuiltChainDecides(t, FwdBody(n), p, depth);
    FwdBodyDecides(n, p);
  }

  lemma InChainVerdict(t: Table, n: Net, p: Packet, depth: nat)
    requires Filled(t, n)
    ensures Eval(t, Chain(t, InChain(n.short)), p, depth) == Some(InputPolicy(n, p))
  {
    InBodyDecides(n, p);
    BuiltChainDecides(t, InBody(n), p, depth);
  }

  /** Of a list of hooks, `hook` alone selects the packet. */
  ghost predicate OnlyHook(chain: seq<Rule>, hook: Rule, p: Packet) {
    && hook in chain && Selects(hook, p)
    && forall r :: r in chain && r != hook ==> !Selects(r, p)
  }

  lemma OnlyOwnHooks(t: Table, live: set<Net>, n: Net, p: Packet)
    requires Guarded(t, live) && n in live && p.src == n.ip
    ensures OnlyHook(t[SANDBOX_FWD], HookFwd(n), p)
    ensures p.inIf == n.bridgeIf ==> OnlyHook(t[SANDBOX_IN], HookIn(n), p)
  {
    assert HookFwd(n) in FwdHooks(live) && HookIn(n) in InHooks(live);
    assert HookFwd(n) in multiset(t[SANDBOX_FWD]) && HookIn(n) in multiset(t[SANDBOX_IN]);
    HookSelects(n, p);
    forall r | r in t[SANDBOX_FWD] && r != HookFwd(n)
      ensures !Selects(r, p)
    {
      var m :| m in live && r == HookFwd(m);
      HookSelects(m, p);
    }
    forall r | r in t[SANDBOX_IN] && r != HookIn(n)
      ensures !Selects(r, p)
    {
      var m :| m in live && r == HookIn(m);
      HookSelects(m, p);
    }
  }

  /** Two jumps: from a base chain through a list of hooks to the chain of one of them. */
  lemma TwoHops(t: Table, rules: seq<Rule>, hooks: string, hook: Rule, p: Packet, depth: nat)
    requires [Rule([], Jump(hooks))] <= rules && OnlyHook(Chain(t, hooks), hook, p) && hook.target.Jump?
    requires Eval(t, Chain(t, hook.target.chain), p, depth).Some?
    ensures Eval(t, rules, p, depth + 2) == Eval(t, Chain(t, hook.target.chain), p, depth)
  {
    OnlyHookDecides(t, Chain(t, hooks), hook, p, depth + 1);
    JumpHead(t, rules, hooks, p, depth + 2);
  }

  lemma ForwardThroughHooks(t: Table, n: Net, p: Packet, depth: nat)
    requires [JUMP_FWD] <= Chain(t, FORWARD) && OnlyHook(Chain(t, SANDBOX_FWD), HookFwd(n), p) && Filled(t, n)
    requires p.dst < 0x1_0000_0000 && depth >= 2
    ensures Eval(t, Chain(t, FORWARD), p, depth) == Some(ForwardPolicy(n, p))
  {
    FwdChainVerdict(t, n, p, depth - 2);
    TwoHops(t, t[FORWARD], SANDBOX_FWD, HookFwd(n), p, depth - 2);
  }

  lemma InputThroughHooks(t: Table, n: Net, p: Packet, depth: nat)
    requires [JUMP_IN] <= Chain(t, INPUT) && OnlyHook(Chain(t, SANDBOX_IN), HookIn(n), p) && Filled(t, n)
    requires depth >= 2
    ensures Eval(t, Chain(t, INPUT), p, depth) == Some(InputPolicy(n, p))
  {
    InChainVerdict(t, n, p, depth - 2);
    TwoHops(t, t[INPUT], SANDBOX_IN, HookIn(n), p, depth - 2);
  }

  /** Forwarding a packet of a live sandbox comes to that sandbox's policy, whatever other rules the
      chains hold and however deep other programs nest their jumps. */
  lemma ForwardVerdict(t: Table, live: set<Net>, n: Net, p: Packet, depth: nat)
    requires Guarded(t, live) && n in live
    requires p.src == n.ip && p.dst < 0x1_0000_0000 && depth >= 2
    ensures Eval(t, Chain(t, FORWARD), p, depth) == Some(ForwardPolicy(n, p))
  {
    OnlyOwnHooks(t, live, n, p);
    ForwardThroughHooks(t, n, p, depth);
  }

  /** A packet from a live sandbox to the host, arriving on the sandbox bridge. */
  lemma InputVerdict(t: Table, live: set<Net>, n: Net, p: Packet, depth: nat)
    requires Guarded(t, live) && n in live
    requires p.src == n.ip && p.inIf == n.bridgeIf && depth >= 2
    ensures Eval(t, Chain(t, INPUT), p, depth) == Some(InputPolicy(n, p))
  {
    OnlyOwnHooks(t, live, n, p);
    InputThroughHooks(t, n, p, depth);
  }

  // Events.

  datatype Event = Ensure(hooks: seq<string>) | Apply(net: Net) | Delete(net: Net)

  function After(t: Table, e: Event): Table {
    match e
    case Ensure(hooks) => EnsureTable(t, hooks).table
    case Apply(n) => ApplyTable(t, n).table
    case Delete(n) => DeleteTable(t, n)
  }

  function LiveAfter(live: set<Net>, e: Event): set<Net> {
    match e
    case Ensure(_) => live
    case Apply(n) => live + {n}
    case Delete(n) => live - {n}
  }

  /** Hook lists do not name the sandbox chains themselves; a new sandbox has its own address and
      short id; only live sandboxes are deleted. */
  ghost predicate Legal(live: set<Net>, e: Event) {
    match e
    case Ensure(hooks) => forall i :: 0 <= i < |hooks| ==> !OwnChain(HookName(hooks[i]))
    case Apply(n) => n !in live && Distinct(live + {n})
    case Delete(n) => n in live
  }

  ghost predicate LegalRun(live: set<Net>, events: seq<Event>)
    decreases |events|
  {
    events == [] || (Legal(live, events[0]) && LegalRun(LiveAfter(live, events[0]), events[1..]))
  }

  function RunTable(t: Table, events: seq<Event>): Table
    decreases |events|
  {
    if events == [] then t else RunTable(After(t, events[0]), events[1..])
  }

  function RunLive(live: set<Net>, events: seq<Event>): set<Net>
    decreases |events|
  {
    if events == [] then live else RunLive(LiveAfter(live, events[0]), events[1..])
  }

  /** A host table on which the sandbox chains are absent or empty. */
  ghost predicate CleanHost(t: Table) {
    && FORWARD in t && INPUT in t
    && Chain(t, SANDBOX_FWD) == [] == Chain(t, SANDBOX_IN)
    && forall c :: "SBX-" <= c ==> Chain(t, c) == []
  }

  lemma OwnNotHooked(hooks: seq<string>, c: string)
    requires OwnChain(c)
    requires forall i :: 0 <= i < |hooks| ==> !OwnChain(HookName(hooks[i]))
    ensures !Hooked(EffectiveHooks(hooks), c)
  {
  }

  lemma OwnIsNoSystemChain(c: string)
    requires OwnChain(c)
    ensures c != FORWARD && c != INPUT
  {
    SystemNames();
  }

  lemma EnsureOwnChain(t: Table, hooks: seq<string>, c: string)
    requires FORWARD in t && INPUT in t && OwnChain(c)
    requires forall i :: 0 <= i < |hooks| ==> !OwnChain(HookName(hooks[i]))
    ensures Chain(EnsureTable(t, hooks).table, c) == Chain(t, c)
  {
    hide EnsureTable, OwnChain, HookName;
    EnsureEffect(t, hooks);
    OwnNotHooked(hooks, c);
    OwnIsNoSystemChain(c);
  }

  lemma EnsureHeads(t: Table, hooks: seq<string>)
    requires FORWARD in t && INPUT in t
    ensures HasGlobals(EnsureTable(t, hooks).table)
    ensures [JUMP_FWD] <= EnsureTable(t, hooks).table[FORWARD]
    ensures [JUMP_IN] <= EnsureTable(t, hooks).table[INPUT]
  {
    EnsureEffect(t, hooks);
    assert FORWARD != INPUT by { SystemNames(); }
    assert EnsureTable(t, hooks).table[FORWARD] == EnsuredChain(hooks, FORWARD, t[FORWARD]);
    assert EnsureTable(t, hooks).table[INPUT] == EnsuredChain(hooks, INPUT, t[INPUT]);
  }

  lemma EnsureOnCleanHost(t: Table, hooks: seq<string>)
    requires CleanHost(t) && Legal({}, Ensure(hooks))
    ensures Guarded(EnsureTable(t, hooks).table, {})
  {
    var t' := EnsureTable(t, hooks).table;
    EnsureHeads(t, hooks);
    forall c | OwnChain(c) ensures Chain(t', c) == Chain(t, c) {
      EnsureOwnChain(t, hooks, c);
    }
  }

  lemma EnsureKeepsGuard(t: Table, live: set<Net>, hooks: seq<string>)
    requires Guarded(t, live) && Legal(live, Ensure(hooks))
    ensures Guarded(EnsureTable(t, hooks).table, live)
  {
    var t' := EnsureTable(t, hooks).table;
    EnsureHeads(t, hooks);
    forall c | OwnChain(c) ensures Chain(t', c) == Chain(t, c) {
      EnsureOwnChain(t, hooks, c);
    }
    assert Chain(t', SANDBOX_FWD) == t[SANDBOX_FWD] && Chain(t', SANDBOX_IN) == t[SANDBOX_IN];
    forall n | n in live ensures Filled(t', n) {
      ChainNames(n.short, n.short);
      assert Filled(t, n);
    }
  }

  /** Inserting behind the head never moves the head, unless the head is the rule inserted. */
  lemma {:induction false} EarlyAllKeepsHead(s: seq<Rule>, rs: seq<Rule>, head: Rule)
    requires [head] <= s && head !in rs
    ensures [head] <= EarlyAll(s, rs)
  {
    if rs != [] {
      var init, r := rs[..|rs| - 1], rs[|rs| - 1];
      EarlyAllKeepsHead(s, init, head);
      assert r in rs;
      assert RemoveFirst(EarlyAll(s, init), r)[0] == head;
    }
  }

  lemma {:induction false} RemoveAllKeepsHead(s: seq<Rule>, rs: seq<Rule>, head: Rule)
    requires [head] <= s && head !in rs
    ensures [head] <= RemoveAll(s, rs)
  {
    if rs != [] {
      RemoveAllKeepsHead(s, rs[..|rs| - 1], head);
      assert rs[|rs| - 1] in rs;
    }
  }

  lemma PortRulesAccept(ip: nat, ports: seq<PublishedPort>, r: Rule)
    requires r in PortRules(ip, ports)
    ensures r.target == Accept && r.matches != [] && r.matches[0] == Dest(Host(ip))
  {
  }

  lemma HookGained(chain: seq<Rule>, hooks: set<Rule>, r: Rule)
    requires HooksOf(chain, hooks) && r !in hooks
    ensures HooksOf(AppendOnce(chain, r), hooks + {r})
  {
  }

  lemma HookLost(chain: seq<Rule>, hooks: set<Rule>, r: Rule)
    requires HooksOf(chain, hooks)
    ensures HooksOf(RemoveFirst(chain, r), hooks - {r})
  {
    RemoveBag(chain, r);
    forall x | x in RemoveFirst(chain, r) ensures x in hooks - {r} {
      RemoveMembers(chain, r, x);
      assert x in multiset(RemoveFirst(chain, r));
      assert x in chain;
    }
  }

  lemma LiveHooksApart(live: set<Net>, n: Net)
    requires Distinct(live + {n}) && n !in live
    ensures HookFwd(n) !in FwdHooks(live) && HookIn(n) !in InHooks(live)
    ensures FwdHooks(live + {n}) == FwdHooks(live) + {HookFwd(n)}
    ensures InHooks(live + {n}) == InHooks(live) + {HookIn(n)}
  {
  }

  lemma ApplyKeepsHeads(t: Table, n: Net)
    requires HasGlobals(t) && [JUMP_FWD] <= t[FORWARD] && [JUMP_IN] <= t[INPUT]
    ensures var t' := ApplyTable(t, n).table;
      HasGlobals(t') && [JUMP_FWD] <= t'[FORWARD] && [JUMP_IN] <= t'[INPUT]
  {
    hide ApplyTable, EarlyAll, AppendOnce, AppendAllOnce, FwdBody, InBody, FwdChain, InChain, HookFwd, HookIn;
    ApplyEffect(t, n);
    ChainNames(n.short, n.short);
    SystemNames();
    EarlyAllKeepsHead(t[FORWARD], PortRules(n.ip, n.ports), JUMP_FWD);
  }

  /** The chains of one sandbox after another one is applied. */
  lemma ApplyChains(t: Table, n: Net)
    requires HasGlobals(t)
    ensures var t' := ApplyTable(t, n).table;
      && SANDBOX_FWD in t' && t'[SANDBOX_FWD] == AppendOnce(t[SANDBOX_FWD], HookFwd(n))
      && SANDBOX_IN in t' && t'[SANDBOX_IN] == AppendOnce(t[SANDBOX_IN], HookIn(n))
      && Chain(t', FwdChain(n.short)) == AppendAllOnce(Chain(t, FwdChain(n.short)), FwdBody(n))
      && Chain(t', InChain(n.short)) == AppendAllOnce(Chain(t, InChain(n.short)), InBody(n))
      && forall c :: "SBX-" <= c && !OwnedBy(c, n) ==> Chain(t', c) == Chain(t, c)
  {
    ApplyEffect(t, n);
    ChainNames(n.short, n.short);
    SystemNames();
  }

  lemma ApplyFills(t: Table, live: set<Net>, n: Net)
    requires Guarded(t, live) && Legal(live, Apply(n))
    ensures forall m :: m in live + {n} ==> Filled(ApplyTable(t, n).table, m)
  {
    hide ApplyTable, AppendAllOnce, FwdBody, InBody;
    var t' := ApplyTable(t, n).table;
    ApplyChains(t, n);
    OwnChainsEmpty(t, live, n);
    forall m | m in live + {n} ensures Filled(t', m) {
      if m != n {
        assert m.short != n.short by { assert m in live + {n} && n in live + {n}; }
        OthersChains(m, n);
        assert Filled(t, m);
      }
    }
  }

  lemma ApplyLeavesNothing(t: Table, live: set<Net>, n: Net)
    requires HasGlobals(t) && NoLeftovers(t, live)
    ensures NoLeftovers(ApplyTable(t, n).table, live + {n})
  {
    hide ApplyTable, AppendAllOnce, FwdBody, InBody;
    var t' := ApplyTable(t, n).table;
    ApplyChains(t, n);
    forall c | "SBX-" <= c && Chain(t', c) != [] ensures exists m :: m in live + {n} && OwnedBy(c, m) {
      if OwnedBy(c, n) {
        assert n in live + {n};
      } else {
        var m :| m in live && OwnedBy(c, m);
        assert m in live + {n};
      }
    }
  }

  lemma ApplyKeepsGuard(t: Table, live: set<Net>, n: Net)
    requires Guarded(t, live) && Legal(live, Apply(n))
    ensures ApplyTable(t, n).ok && Guarded(ApplyTable(t, n).table, live + {n})
  {
    hide ApplyTable, AppendAllOnce, Filled, NoLeftovers;
    ApplyKeepsHeads(t, n);
    ApplyChains(t, n);
    ApplyEffect(t, n);
    LiveHooksApart(live, n);
    HookGained(t[SANDBOX_FWD], FwdHooks(live), HookFwd(n));
    HookGained(t[SANDBOX_IN], InHooks(live), HookIn(n));
    ApplyFills(t, live, n);
    ApplyLeavesNothing(t, live, n);
  }

  lemma OthersChains(m: Net, n: Net)
    requires m.short != n.short
    ensures "SBX-" <= FwdChain(m.short) && "SBX-" <= InChain(m.short)
    ensures !OwnedBy(FwdChain(m.short), n) && !OwnedBy(InChain(m.short), n)
  {
    ChainNames(m.short, n.short);
    ChainNames(n.short, m.short);
  }

  lemma OwnChainsEmpty(t: Table, live: set<Net>, n: Net)
    requires NoLeftovers(t, live) && Distinct(live + {n}) && n !in live
    ensures Chain(t, FwdChain(n.short)) == [] == Chain(t, InChain(n.short))
  {
    ChainNames(n.short, n.short);
    forall m | m in live ensures !OwnedBy(FwdChain(n.short), m) && !OwnedBy(InChain(n.short), m) {
      assert m.short != n.short by { assert m in live + {n} && n in live + {n}; }
      OthersChains(n, m);
    }
  }

  lemma DeleteKeepsHeads(t: Table, n: Net)
    requires HasGlobals(t) && [JUMP_FWD] <= t[FORWARD] && [JUMP_IN] <= t[INPUT]
    ensures var t' := DeleteTable(t, n);
      HasGlobals(t') && [JUMP_FWD] <= t'[FORWARD] && [JUMP_IN] <= t'[INPUT]
  {
    DeleteEffect(t, n);
    ChainNames(n.short, n.short);
    SystemNames();
    RemoveAllKeepsHead(t[FORWARD], PortRules(n.ip, n.ports), JUMP_FWD);
    assert Chain(DeleteTable(t, n), INPUT) == t[INPUT];
  }

  lemma DeleteOthersChains(t: Table, n: Net, c: string)
    requires HasGlobals(t) && "SBX-" <= c && !OwnedBy(c, n)
    ensures Chain(DeleteTable(t, n), c) == Chain(t, c)
  {
    DeleteEffect(t, n);
    SystemNames();
  }

  lemma DeleteKeepsHooks(t: Table, live: set<Net>, n: Net)
    requires Guarded(t, live)
    requires forall m :: m in live && m != n ==> m.short != n.short
    ensures HasGlobals(DeleteTable(t, n))
    ensures HooksOf(DeleteTable(t, n)[SANDBOX_FWD], FwdHooks(live - {n}))
    ensures HooksOf(DeleteTable(t, n)[SANDBOX_IN], InHooks(live - {n}))
  {
    DeleteEffect(t, n);
    HookLost(t[SANDBOX_FWD], FwdHooks(live), HookFwd(n));
    HookLost(t[SANDBOX_IN], InHooks(live), HookIn(n));
    HooksWithout(live, n);
  }

  lemma DeleteLeavesNothing(t: Table, live: set<Net>, n: Net)
    requires HasGlobals(t) && NoLeftovers(t, live)
    ensures NoLeftovers(DeleteTable(t, n), live - {n})
  {
    var t' := DeleteTable(t, n);
    forall c | "SBX-" <= c && Chain(t', c) != [] ensures exists m :: m in live - {n} && OwnedBy(c, m) {
      assert !OwnedBy(c, n) by { DeleteEffect(t, n); }
      DeleteOthersChains(t, n, c);
      var m :| m in live && OwnedBy(c, m);
      assert m in live - {n};
    }
  }

  /** Deleting rules with the arguments of a sandbox whose chains no live sandbox uses leaves every
      live sandbox guarded, even when the address has been handed on. */
  lemma DeleteKeepsGuard(t: Table, live: set<Net>, n: Net)
    requires Guarded(t, live)
    requires forall m :: m in live && m != n ==> m.short != n.short
    ensures Guarded(DeleteTable(t, n), live - {n})
  {
    var t' := DeleteTable(t, n);
    DeleteKeepsHeads(t, n);
    DeleteKeepsHooks(t, live, n);
    DeleteLeavesNothing(t, live, n);
    forall m | m in live - {n} ensures Filled(t', m) {
      OthersChains(m, n);
      DeleteOthersChains(t, n, FwdChain(m.short));
      DeleteOthersChains(t, n, InChain(m.short));
      assert Filled(t, m);
    }
  }

  lemma HooksWithout(live: set<Net>, n: Net)
    requires Distinct(live)
    requires forall m :: m in live && m != n ==> m.short != n.short
    ensures FwdHooks(live - {n}) == FwdHooks(live) - {HookFwd(n)}
    ensures InHooks(live - {n}) == InHooks(live) - {HookIn(n)}
  {
    forall m | m in live && m != n ensures HookFwd(m) != HookFwd(n) && HookIn(m) != HookIn(n) {
      ChainNames(m.short, n.short);
      assert HookFwd(m).target != HookFwd(n).target;
      assert HookIn(m).target != HookIn(n).target;
    }
  }

  lemma EventKeepsGuard(t: Table, live: set<Net>, e: Event)
    requires Guarded(t, live) && Legal(live, e)
    ensures Guarded(After(t, e), LiveAfter(live, e))
  {
    match e
    case Ensure(hooks) => EnsureKeepsGuard(t, live, hooks);
    case Apply(n) => ApplyKeepsGuard(t, live, n);
    case Delete(n) => DeleteKeepsGuard(t, live, n);
  }

  lemma {:induction false} RunKeepsGuard(t: Table, live: set<Net>, events: seq<Event>)
    requires Guarded(t, live) && LegalRun(live, events)
    ensures Guarded(RunTable(t, events), RunLive(live, events))
    decreases |events|
  {
    if events != [] {
      EventKeepsGuard(t, live, events[0]);
      RunKeepsGuard(After(t, events[0]), LiveAfter(live, events[0]), events[1..]);
    }
  }

  /** From a clean host, after the global chains are installed and any legal history has run, the
      forward and input verdicts of every packet of every live sandbox are its policy. */
  lemma PolicyAfterAnyHistory(host: Table, hooks: seq<string>, events: seq<Event>, n: Net, p: Packet, depth: nat)
    requires CleanHost(host) && Legal({}, Ensure(hooks)) && LegalRun({}, events)
    requires n in RunLive({}, events)
    requires p.src == n.ip && p.dst < 0x1_0000_0000 && depth >= 2
    ensures var t := RunTable(EnsureTable(host, hooks).table, events);
      && HasGlobals(t)
      && [JUMP_FWD] <= t[FORWARD]
      && Eval(t, Chain(t, FORWARD), p, depth) == Some(ForwardPolicy(n, p))
      && (p.inIf == n.bridgeIf ==> Eval(t, Chain(t, INPUT), p, depth) == Some(InputPolicy(n, p)))
  {
    EnsureOnCleanHost(host, hooks);
    var t0 := EnsureTable(host, hooks).table;
    RunKeepsGuard(t0, {}, events);
    var t, live := RunTable(t0, events), RunLive({}, events);
    ForwardVerdict(t, live, n, p, depth);
    if p.inIf == n.bridgeIf {
      InputVerdict(t, live, n, p, depth);
    }
  }
}
