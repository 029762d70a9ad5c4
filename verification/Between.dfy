/** Deleting a sandbox commutes with every complete operation on other sandboxes, so it undoes its
    application across any history of them. */
module Between {
  import opened Rules
  import opened Tables
  import opened Firewall
  import opened Policy
  import opened History
  import opened Undo

  function EventChain(e: Event, c: string, s: seq<Rule>): seq<Rule> {
    match e
    case Ensure(hooks) => EnsuredChain(hooks, c, s)
    case Apply(n) => AppliedChain(n, c, s)
    case Delete(n) => DeletedChain(n, c, s)
  }

  predicate EventKeepsKey(e: Event, c: string, present: bool) {
    match e
    case Ensure(_) => present
    case Apply(n) => present || OwnedBy(c, n)
    case Delete(n) => present && !OwnedBy(c, n)
  }

  /** Each event acts on every chain by itself. */
  lemma EventAt(t: Table, live: set<Net>, e: Event, c: string)
    requires HooksInPlace(t, live) && Exact(t, live) && Distinct(live)
    requires e.Delete? ==> e.net in live
    ensures c in After(t, e) <==> EventKeepsKey(e, c, c in t)
    ensures c in t || e.Apply? || e.Delete? ==> Chain(After(t, e), c) == EventChain(e, c, Chain(t, c))
  {
    match e
    case Ensure(hooks) => EnsureAt(t, hooks, c);
    case Apply(n) => ApplyAt(t, n, c);
    case Delete(n) => DeleteAt(t, live, n, c);
  }

  lemma EnsureAt(t: Table, hooks: seq<string>, c: string)
    requires HasGlobals(t)
    ensures c in EnsureTable(t, hooks).table <==> c in t
    ensures c in t ==> Chain(EnsureTable(t, hooks).table, c) == EnsuredChain(hooks, c, t[c])
  {
    EnsureEffect(t, hooks);
  }

  lemma EnsuredJumps(hooks: seq<string>, c: string, s: seq<Rule>, r: Rule)
    requires r in EnsuredChain(hooks, c, s)
    ensures r in s || r in {JUMP_FWD, JUMP_IN, MARK_ACCEPT, ESTABLISHED_ACCEPT}
  {
    RemoveMembers(s, MARK_ACCEPT, r);
    RemoveMembers(First(s, MARK_ACCEPT), ESTABLISHED_ACCEPT, r);
    RemoveMembers(First(First(s, MARK_ACCEPT), ESTABLISHED_ACCEPT), JUMP_FWD, r);
    RemoveMembers(s, JUMP_FWD, r);
    RemoveMembers(s, JUMP_IN, r);
    RemoveMembers(First(s, JUMP_FWD), JUMP_IN, r);
  }

  lemma OwnRulesNoSandbox(r: Rule)
    requires r in {JUMP_FWD, JUMP_IN, MARK_ACCEPT, ESTABLISHED_ACCEPT}
    ensures !(r.target.Jump? && "SBX-" <= r.target.chain)
  {
    SystemNames();
  }

  lemma EnsureKeepsExact(t: Table, live: set<Net>, hooks: seq<string>)
    requires HasGlobals(t) && Exact(t, live)
    ensures Exact(EnsureTable(t, hooks).table, live)
  {
    hide EnsureTable, EnsuredChain;
    var t' := EnsureTable(t, hooks).table;
    forall c, r: Rule | c in t' && r in t'[c] && r.target.Jump? && "SBX-" <= r.target.chain
      ensures (c == SANDBOX_FWD && r in FwdHooks(live)) || (c == SANDBOX_IN && r in InHooks(live))
    {
      EnsureAt(t, hooks, c);
      EnsuredJumps(hooks, c, t[c], r);
      if r !in t[c] {
        OwnRulesNoSandbox(r);
        assert false;
      }
    }
    forall c | c in t' && "SBX-" <= c ensures exists n :: n in live && OwnedBy(c, n) {
      EnsureAt(t, hooks, c);
    }
  }

  lemma DeletedJumps(t: Table, live: set<Net>, n: Net, c: string, r: Rule)
    requires HooksInPlace(t, live) && Exact(t, live) && Distinct(live) && n in live
    requires r in DeletedChain(n, c, Chain(t, c)) && r.target.Jump? && "SBX-" <= r.target.chain
    ensures (c == SANDBOX_FWD && r in FwdHooks(live - {n})) || (c == SANDBOX_IN && r in InHooks(live - {n}))
  {
    DeletedMembers(n, c, Chain(t, c), r);
    HookGone(t, live, n);
    if c == SANDBOX_FWD && r in FwdHooks(live) {
      var m :| m in live && r == HookFwd(m);
      assert m in live - {n};
    } else {
      var m :| m in live && r == HookIn(m);
      assert m in live - {n};
    }
  }

  lemma DeleteKeepsExact(t: Table, live: set<Net>, n: Net)
    requires HooksInPlace(t, live) && Exact(t, live) && Distinct(live) && n in live
    ensures Exact(DeleteTable(t, n), live - {n})
  {
    hide DeleteTable, DeletedChain;
    var t' := DeleteTable(t, n);
    forall c, r: Rule | c in t' && r in t'[c] && r.target.Jump? && "SBX-" <= r.target.chain
      ensures (c == SANDBOX_FWD && r in FwdHooks(live - {n})) || (c == SANDBOX_IN && r in InHooks(live - {n}))
    {
      DeleteAt(t, live, n, c);
      DeletedJumps(t, live, n, c, r);
    }
    forall c | c in t' && "SBX-" <= c ensures exists m :: m in live - {n} && OwnedBy(c, m) {
      DeleteAt(t, live, n, c);
      var m :| m in live && OwnedBy(c, m);
      assert m in live - {n};
    }
  }

  lemma EventKeepsExact(t: Table, live: set<Net>, e: Event)
    requires Guarded(t, live) && Exact(t, live) && Legal(live, e)
    ensures Exact(After(t, e), LiveAfter(live, e))
  {
    match e
    case Ensure(hooks) => EnsureKeepsExact(t, live, hooks);
    case Apply(n) => ApplyKeepsExact(t, live, n);
    case Delete(n) => DeleteKeepsExact(t, live, n);
  }

  // One chain at a time.

  lemma OtherPorts(a: Net, b: Net, r: Rule)
    requires a.ip != b.ip && r in PortRules(a.ip, a.ports)
    ensures r !in PortRules(b.ip, b.ports) && r !in {JUMP_FWD, JUMP_IN, MARK_ACCEPT, ESTABLISHED_ACCEPT}
  {
  }

  lemma StripFirstOf(s: seq<Rule>, r: Rule, drop: set<Rule>)
    requires r !in drop
    ensures Strip(First(s, r), drop) == First(Strip(s, drop), r)
  {
    StripCons(r, RemoveFirst(s, r), drop);
    StripRemove(s, drop, r);
  }

  lemma FirstKeepsCount(s: seq<Rule>, r: Rule, x: Rule)
    requires x != r
    ensures multiset(First(s, r))[x] == multiset(s)[x]
  {
    RemoveBag(s, r);
  }

  /** On FORWARD: stripping one sandbox's port rules commutes with every other operation. */
  lemma ForwardCommutes(s: seq<Rule>, n: Net, e: Event)
    requires [JUMP_FWD] <= s && AtMostOnce(s, PortRules(n.ip, n.ports))
    requires e.Apply? || e.Delete? ==> e.net.ip != n.ip
    ensures AtMostOnce(EventChain(e, FORWARD, s), PortRules(n.ip, n.ports))
    ensures DeletedChain(n, FORWARD, EventChain(e, FORWARD, s)) == EventChain(e, FORWARD, DeletedChain(n, FORWARD, s))
  {
    var rs := PortRules(n.ip, n.ports);
    var drop := RuleSet(rs);
    forall r | r in rs ensures multiset(EventChain(e, FORWARD, s))[r] <= 1 {
      CountKept(s, n, e, r);
    }
    RemoveAllIsStrip(s, rs);
    RemoveAllIsStrip(EventChain(e, FORWARD, s), rs);
    forall r | r in rs ensures r !in {JUMP_FWD, JUMP_IN, MARK_ACCEPT, ESTABLISHED_ACCEPT} {
      PortRulesAccept(n.ip, n.ports, r);
    }
    match e
    case Ensure(hooks) =>
      StripFirstOf(s, MARK_ACCEPT, drop);
      StripFirstOf(First(s, MARK_ACCEPT), ESTABLISHED_ACCEPT, drop);
      StripFirstOf(First(First(s, MARK_ACCEPT), ESTABLISHED_ACCEPT), JUMP_FWD, drop);
    case Apply(k) =>
      forall r | r in PortRules(k.ip, k.ports) ensures r !in drop { OtherPorts(k, n, r); }
      assert JUMP_FWD !in PortRules(k.ip, k.ports);
      StripEarlyAll(s, PortRules(k.ip, k.ports), JUMP_FWD, drop);
    case Delete(k) =>
      forall r | r in PortRules(k.ip, k.ports) ensures r !in drop { OtherPorts(k, n, r); }
      StripRemoveAll(s, PortRules(k.ip, k.ports), drop);
  }

  lemma CountKept(s: seq<Rule>, n: Net, e: Event, r: Rule)
    requires [JUMP_FWD] <= s && r in PortRules(n.ip, n.ports)
    requires e.Apply? || e.Delete? ==> e.net.ip != n.ip
    ensures multiset(EventChain(e, FORWARD, s))[r] <= multiset(s)[r]
  {
    PortRulesAccept(n.ip, n.ports, r);
    match e
    case Ensure(hooks) =>
      FirstKeepsCount(s, MARK_ACCEPT, r);
      FirstKeepsCount(First(s, MARK_ACCEPT), ESTABLISHED_ACCEPT, r);
      FirstKeepsCount(First(First(s, MARK_ACCEPT), ESTABLISHED_ACCEPT), JUMP_FWD, r);
    case Apply(k) =>
      OtherPorts(n, k, r);
      assert JUMP_FWD !in PortRules(k.ip, k.ports);
      EarlyAllCounts(s, PortRules(k.ip, k.ports), JUMP_FWD, r);
    case Delete(k) =>
      RemoveAllRemoves(s, PortRules(k.ip, k.ports), r);
  }

  lemma RemoveAppendCommute(s: seq<Rule>, a: Rule, b: Rule)
    requires a != b
    ensures RemoveFirst(AppendOnce(s, b), a) == AppendOnce(RemoveFirst(s, a), b)
  {
    RemoveMembers(s, a, b);
    RemoveConcat(s, [b], a);
    RemoveAbsent([b], a);
    if b !in s && a !in s {
      RemoveAbsent(s, a);
    }
  }

  lemma {:induction false} RemoveCommute(s: seq<Rule>, a: Rule, b: Rule)
    ensures RemoveFirst(RemoveFirst(s, a), b) == RemoveFirst(RemoveFirst(s, b), a)
  {
    if s != [] && a != b && s[0] != a && s[0] != b {
      RemoveCommute(s[1..], a, b);
      assert ([s[0]] + RemoveFirst(s[1..], a))[1..] == RemoveFirst(s[1..], a);
      assert ([s[0]] + RemoveFirst(s[1..], b))[1..] == RemoveFirst(s[1..], b);
    } else if s != [] && a != b && s[0] == a {
      assert ([s[0]] + RemoveFirst(s[1..], b))[1..] == RemoveFirst(s[1..], b);
    } else if s != [] && a != b {
      assert ([s[0]] + RemoveFirst(s[1..], a))[1..] == RemoveFirst(s[1..], a);
    }
  }

  lemma HookListsCommute(s: seq<Rule>, n: Net, e: Event)
    requires e.Apply? || e.Delete?
    requires e.net.ip != n.ip
    ensures DeletedChain(n, SANDBOX_FWD, EventChain(e, SANDBOX_FWD, s))
              == EventChain(e, SANDBOX_FWD, DeletedChain(n, SANDBOX_FWD, s))
    ensures DeletedChain(n, SANDBOX_IN, EventChain(e, SANDBOX_IN, s))
              == EventChain(e, SANDBOX_IN, DeletedChain(n, SANDBOX_IN, s))
  {
    SystemNames();
    var k := e.net;
    assert HookFwd(k).matches[0] != HookFwd(n).matches[0];
    assert HookIn(k).matches[1] != HookIn(n).matches[1];
    RemoveAppendCommute(s, HookFwd(n), HookFwd(k));
    RemoveAppendCommute(s, HookIn(n), HookIn(k));
    RemoveCommute(s, HookFwd(n), HookFwd(k));
    RemoveCommute(s, HookIn(n), HookIn(k));
  }

  lemma OtherChainsCommute(s: seq<Rule>, n: Net, e: Event, c: string)
    requires c !in {FORWARD, SANDBOX_FWD, SANDBOX_IN}
    requires e.Ensure? ==> forall i :: 0 <= i < |e.hooks| ==> !OwnChain(HookName(e.hooks[i]))
    requires e.Apply? || e.Delete? ==> e.net.short != n.short
    ensures DeletedChain(n, c, EventChain(e, c, s)) == EventChain(e, c, DeletedChain(n, c, s))
  {
    if OwnedBy(c, n) {
      ChainNames(n.short, n.short);
      match e
      case Ensure(hooks) => OwnNotHooked(hooks, c);
      case Apply(k) => OthersChains(n, k);
      case Delete(k) => OthersChains(n, k);
    }
  }

  lemma ChainCommutes(s: seq<Rule>, n: Net, e: Event, c: string)
    requires c == FORWARD ==> [JUMP_FWD] <= s && AtMostOnce(s, PortRules(n.ip, n.ports))
    requires e.Ensure? ==> forall i :: 0 <= i < |e.hooks| ==> !OwnChain(HookName(e.hooks[i]))
    requires e.Apply? || e.Delete? ==> e.net.ip != n.ip && e.net.short != n.short
    ensures DeletedChain(n, c, EventChain(e, c, s)) == EventChain(e, c, DeletedChain(n, c, s))
  {
    if c == FORWARD {
      ForwardCommutes(s, n, e);
    } else if c == SANDBOX_FWD || c == SANDBOX_IN {
      match e
      case Ensure(hooks) => OwnNotHooked(hooks, c);
        SystemNames();
      case Apply(k) => HookListsCommute(s, n, e);
      case Delete(k) => HookListsCommute(s, n, e);
    } else {
      OtherChainsCommute(s, n, e, c);
    }
  }

  lemma StillLegal(live: set<Net>, n: Net, e: Event)
    requires Distinct(live) && n in live && Legal(live, e) && e != Delete(n)
    ensures Legal(live - {n}, e) && LiveAfter(live - {n}, e) == LiveAfter(live, e) - {n} && n in LiveAfter(live, e)
    ensures e.Apply? || e.Delete? ==> e.net.ip != n.ip && e.net.short != n.short
  {
  }

  lemma DeleteCommutesAt(t: Table, live: set<Net>, n: Net, e: Event, c: string)
    requires Guarded(t, live) && Exact(t, live) && n in live && Legal(live, e) && e != Delete(n)
    requires AtMostOnce(t[FORWARD], PortRules(n.ip, n.ports))
    ensures c in DeleteTable(After(t, e), n) <==> c in After(DeleteTable(t, n), e)
    ensures Chain(DeleteTable(After(t, e), n), c) == Chain(After(DeleteTable(t, n), e), c)
  {
    var u, live' := DeleteTable(t, n), LiveAfter(live, e);
    StillLegal(live, n, e);
    assert Guarded(After(t, e), live') by { EventKeepsGuard(t, live, e); }
    EventKeepsExact(t, live, e);
    assert Guarded(u, live - {n}) by { DeleteKeepsGuard(t, live, n); }
    DeleteKeepsExact(t, live, n);
    assert HooksInPlace(After(t, e), live') && HooksInPlace(t, live);
    DeleteAt(After(t, e), live', n, c);
    DeleteAt(t, live, n, c);
    EventAt(t, live, e, c);
    EventAt(u, live - {n}, e, c);
    ChainCommutes(Chain(t, c), n, e, c);
    KeysCommute(n, e, c, c in t);
  }

  lemma KeysCommute(n: Net, e: Event, c: string, present: bool)
    requires e.Apply? || e.Delete? ==> e.net.short != n.short
    ensures EventKeepsKey(e, c, present) && !OwnedBy(c, n) <==> EventKeepsKey(e, c, present && !OwnedBy(c, n))
  {
    if e.Apply? {
      ChainNames(e.net.short, n.short);
      ChainNames(n.short, e.net.short);
    }
  }

  /** What deletion needs of a table in which `n` is live. */
  ghost predicate Ready(t: Table, live: set<Net>, n: Net) {
    && Guarded(t, live) && Exact(t, live) && n in live
    && AtMostOnce(Chain(t, FORWARD), PortRules(n.ip, n.ports))
  }

  /** Deleting a sandbox and a complete operation on others can be done in either order. */
  lemma DeleteCommutes(t: Table, live: set<Net>, n: Net, e: Event)
    requires Ready(t, live, n) && Legal(live, e) && e != Delete(n)
    ensures DeleteTable(After(t, e), n) == After(DeleteTable(t, n), e)
  {
    forall c
      ensures c in DeleteTable(After(t, e), n) <==> c in After(DeleteTable(t, n), e)
      ensures Chain(DeleteTable(After(t, e), n), c) == Chain(After(DeleteTable(t, n), e), c)
    {
      DeleteCommutesAt(t, live, n, e, c);
    }
    SameTable(DeleteTable(After(t, e), n), After(DeleteTable(t, n), e));
  }

  lemma StaysAtMostOnce(t: Table, live: set<Net>, n: Net, e: Event)
    requires Guarded(t, live) && Exact(t, live) && n in live && Legal(live, e) && e != Delete(n)
    requires AtMostOnce(t[FORWARD], PortRules(n.ip, n.ports))
    ensures FORWARD in After(t, e) && AtMostOnce(After(t, e)[FORWARD], PortRules(n.ip, n.ports))
  {
    StillLegal(live, n, e);
    EventAt(t, live, e, FORWARD);
    assert FORWARD in After(t, e) by { EventKeepsGuard(t, live, e); }
    ForwardCommutes(t[FORWARD], n, e);
  }

  lemma StaysReady(t: Table, live: set<Net>, n: Net, e: Event)
    requires Ready(t, live, n) && Legal(live, e) && e != Delete(n)
    ensures Ready(After(t, e), LiveAfter(live, e), n)
  {
    StaysAtMostOnce(t, live, n, e);
    EventKeepsGuard(t, live, e);
    EventKeepsExact(t, live, e);
    StillLegal(live, n, e);
  }

  lemma {:induction false} DeleteCommutesWithRun(t: Table, live: set<Net>, n: Net, events: seq<Event>)
    requires Ready(t, live, n) && LegalRun(live, events)
    requires forall i :: 0 <= i < |events| ==> events[i] != Delete(n)
    ensures DeleteTable(RunTable(t, events), n) == RunTable(DeleteTable(t, n), events)
    decreases |events|
  {
    hide Ready, DeleteTable;
    if events != [] {
      StaysReady(t, live, n, events[0]);
      DeleteCommutes(t, live, n, events[0]);
      DeleteCommutesWithRun(After(t, events[0]), LiveAfter(live, events[0]), n, events[1..]);
    }
  }

  /** A sandbox applied, any complete operations on other sandboxes and on the global chains, then the
      sandbox deleted: the table is what those operations alone would have made of it. */
  lemma DeleteUndoesApplyAcross(t: Table, live: set<Net>, n: Net, events: seq<Event>)
    requires Guarded(t, live) && Exact(t, live) && Legal(live, Apply(n))
    requires forall r :: r in PortRules(n.ip, n.ports) ==> r !in Chain(t, FORWARD)
    requires LegalRun(live + {n}, events) && forall i :: 0 <= i < |events| ==> events[i] != Delete(n)
    ensures DeleteTable(RunTable(ApplyTable(t, n).table, events), n) == RunTable(t, events)
  {
    hide Ready, DeleteTable, ApplyTable;
    ReadyAfterApply(t, live, n);
    DeleteUndoesApply(t, live, n);
    DeleteCommutesWithRun(ApplyTable(t, n).table, live + {n}, n, events);
  }

  lemma ReadyAfterApply(t: Table, live: set<Net>, n: Net)
    requires Guarded(t, live) && Exact(t, live) && Legal(live, Apply(n))
    requires forall r :: r in PortRules(n.ip, n.ports) ==> r !in Chain(t, FORWARD)
    ensures Ready(ApplyTable(t, n).table, live + {n}, n)
  {
    hide ApplyTable;
    ApplyKeepsGuard(t, live, n);
    ApplyKeepsExact(t, live, n);
    FreshPortsOnce(t, live, n);
  }

  lemma FreshPortsOnce(t: Table, live: set<Net>, n: Net)
    requires Guarded(t, live)
    requires forall r :: r in PortRules(n.ip, n.ports) ==> r !in t[FORWARD]
    ensures FORWARD in ApplyTable(t, n).table && AtMostOnce(ApplyTable(t, n).table[FORWARD], PortRules(n.ip, n.ports))
  {
    hide ApplyTable, EarlyAll;
    ApplyAt(t, n, FORWARD);
    forall r | r in PortRules(n.ip, n.ports) ensures multiset(ApplyTable(t, n).table[FORWARD])[r] <= 1 {
      assert JUMP_FWD !in PortRules(n.ip, n.ports);
      EarlyAllCounts(t[FORWARD], PortRules(n.ip, n.ports), JUMP_FWD, r);
    }
  }

  /** A host on which nothing of the sandboxes was ever installed. */
  ghost predicate BareHost(t: Table) {
    && CleanHost(t)
    && (forall c :: c in t ==> !("SBX-" <= c))
    && (forall c, r :: c in t && r in t[c] && r.target.Jump? ==> !("SBX-" <= r.target.chain))
  }

  lemma BareJumps(t: Table, hooks: seq<string>, c: string, r: Rule)
    requires BareHost(t) && c in EnsureTable(t, hooks).table && r in EnsureTable(t, hooks).table[c]
    ensures !(r.target.Jump? && "SBX-" <= r.target.chain)
  {
    hide EnsureTable, EnsuredChain;
    EnsureEffect(t, hooks);
    EnsuredJumps(hooks, c, Chain(t, c), r);
    if r !in Chain(t, c) {
      OwnRulesNoSandbox(r);
    }
  }

  lemma BareNames(t: Table, hooks: seq<string>, c: string)
    requires BareHost(t) && c in EnsureTable(t, hooks).table
    ensures !("SBX-" <= c)
  {
    hide EnsureTable, EnsuredChain;
    EnsureEffect(t, hooks);
    assert "SBX-"[1] != SANDBOX_FWD[1] && "SBX-"[1] != SANDBOX_IN[1];
  }

  lemma ExactOnBareHost(t: Table, hooks: seq<string>)
    requires BareHost(t) && Legal({}, Ensure(hooks))
    ensures Guarded(EnsureTable(t, hooks).table, {}) && Exact(EnsureTable(t, hooks).table, {})
  {
    EnsureOnCleanHost(t, hooks);
    var t' := EnsureTable(t, hooks).table;
    forall c, r: Rule | c in t' && r in t'[c] ensures !(r.target.Jump? && "SBX-" <= r.target.chain) {
      BareJumps(t, hooks, c, r);
    }
    forall c | c in t' ensures !("SBX-" <= c) {
      BareNames(t, hooks, c);
    }
  }

  /** From a bare host: the state any legal history leaves behind is one in which every sandbox still
      live can be deleted, and every new one applied, with the exact effects proved above. */
  lemma {:induction false} RunKeepsExact(t: Table, live: set<Net>, events: seq<Event>)
    requires Guarded(t, live) && Exact(t, live) && LegalRun(live, events)
    ensures Guarded(RunTable(t, events), RunLive(live, events))
    ensures Exact(RunTable(t, events), RunLive(live, events))
    decreases |events|
  {
    if events != [] {
      EventKeepsGuard(t, live, events[0]);
      EventKeepsExact(t, live, events[0]);
      RunKeepsExact(After(t, events[0]), LiveAfter(live, events[0]), events[1..]);
    }
  }
}
