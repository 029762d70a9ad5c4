/** Idempotence of the global chains, and deletion as the exact inverse of application even with other
    sandboxes' complete operations in between. */
module Undo {
  import opened Rules
  import opened Tables
  import opened Firewall
  import opened Policy
  import opened History

  lemma SameTable(a: Table, b: Table)
    requires forall c :: (c in a <==> c in b) && Chain(a, c) == Chain(b, c)
    ensures a == b
  {
  }

  /** Installing the global chains twice is installing them once, on the whole table. */
  lemma EnsureIdempotent(t: Table, hooks: seq<string>)
    requires FORWARD in t && INPUT in t
    ensures EnsureTable(EnsureTable(t, hooks).table, hooks) == EnsureTable(t, hooks)
  {
    var once := EnsureTable(t, hooks).table;
    var twice := EnsureTable(once, hooks).table;
    EnsureEffect(t, hooks);
    EnsureEffect(once, hooks);
    forall c ensures (c in twice <==> c in once) && Chain(twice, c) == Chain(once, c) {
      if c in once {
        EnsuredTwice(hooks, c, Chain(t, c));
      }
    }
    SameTable(twice, once);
  }

  lemma EnsuredTwice(hooks: seq<string>, c: string, s: seq<Rule>)
    ensures EnsuredChain(hooks, c, EnsuredChain(hooks, c, s)) == EnsuredChain(hooks, c, s)
  {
    if c == FORWARD {
      ForwardHead(s);
      ForwardTwice(RemoveFirst(RemoveFirst(RemoveFirst(s, MARK_ACCEPT), ESTABLISHED_ACCEPT), JUMP_FWD));
    } else {
      FirstTwice(s, JUMP_FWD);
      FirstTwice(s, JUMP_IN);
      var hooked := First(s, JUMP_FWD);
      FirstAfterFirst(hooked, JUMP_IN, JUMP_FWD, s);
    }
  }

  lemma SecondFirst(a: Rule, b: Rule, rest: seq<Rule>)
    requires a != b
    ensures First([a] + ([b] + rest), b) == [b] + ([a] + rest)
  {
    RemoveConcat([a], [b] + rest, b);
    assert ([b] + rest)[1..] == rest;
  }

  /** A jump pushed to the head twice around another rule pushed to the head. */
  lemma FirstAfterFirst(hooked: seq<Rule>, a: Rule, b: Rule, s: seq<Rule>)
    requires a != b && hooked == First(s, b)
    ensures First(First(First(hooked, a), b), a) == First(hooked, a)
  {
    var u := RemoveFirst(s, b);
    RemoveConcat([b], u, a);
    var v := RemoveFirst(u, a);
    assert First(hooked, a) == [a] + ([b] + v);
    SecondFirst(a, b, v);
    SecondFirst(b, a, v);
  }

  lemma ForwardTwice(rest: seq<Rule>)
    ensures var s := [JUMP_FWD, ESTABLISHED_ACCEPT, MARK_ACCEPT] + rest;
      First(First(First(s, MARK_ACCEPT), ESTABLISHED_ACCEPT), JUMP_FWD) == s
  {
    assert MARK_ACCEPT != ESTABLISHED_ACCEPT by {
      assert MARK_ACCEPT.matches[0] != ESTABLISHED_ACCEPT.matches[0];
    }
    ThirdFirst(JUMP_FWD, ESTABLISHED_ACCEPT, MARK_ACCEPT, rest);
    ThirdFirst(MARK_ACCEPT, JUMP_FWD, ESTABLISHED_ACCEPT, rest);
    ThirdFirst(ESTABLISHED_ACCEPT, MARK_ACCEPT, JUMP_FWD, rest);
  }

  lemma ThirdFirst(a: Rule, b: Rule, c: Rule, rest: seq<Rule>)
    requires a != c && b != c
    ensures First([a, b, c] + rest, c) == [c, a, b] + rest
  {
    assert [a, b, c] + rest == [a, b] + ([c] + rest);
    RemoveConcat([a, b], [c] + rest, c);
    assert ([c] + rest)[1..] == rest;
    assert [c] + ([a, b] + rest) == [c, a, b] + rest;
  }

  /** Whatever the hook list, FORWARD begins with the jump, the established rule and the mark rule, and
      the rules of other programs keep their relative order in every chain. */
  lemma EnsureKeepsForeignRules(t: Table, hooks: seq<string>, c: string)
    requires FORWARD in t && INPUT in t && c in t
    ensures c in EnsureTable(t, hooks).table
    ensures var own := {JUMP_FWD, JUMP_IN, MARK_ACCEPT, ESTABLISHED_ACCEPT};
      Strip(EnsureTable(t, hooks).table[c], own) == Strip(t[c], own)
    ensures c == FORWARD ==> [JUMP_FWD, ESTABLISHED_ACCEPT, MARK_ACCEPT] <= EnsureTable(t, hooks).table[c]
  {
    EnsureEffect(t, hooks);
    EnsuredStrip(hooks, c, t[c]);
    ForwardHead(t[c]);
  }

  lemma EnsuredStrip(hooks: seq<string>, c: string, s: seq<Rule>)
    ensures var own := {JUMP_FWD, JUMP_IN, MARK_ACCEPT, ESTABLISHED_ACCEPT};
      Strip(EnsuredChain(hooks, c, s), own) == Strip(s, own)
  {
    hide First, Strip;
    if c == FORWARD {
      StripFirst(s, MARK_ACCEPT);
      StripFirst(First(s, MARK_ACCEPT), ESTABLISHED_ACCEPT);
      StripFirst(First(First(s, MARK_ACCEPT), ESTABLISHED_ACCEPT), JUMP_FWD);
    } else {
      StripFirst(s, JUMP_FWD);
      StripFirst(s, JUMP_IN);
      StripFirst(First(s, JUMP_FWD), JUMP_IN);
    }
  }

  lemma StripFirst(s: seq<Rule>, r: Rule)
    requires r in {JUMP_FWD, JUMP_IN, MARK_ACCEPT, ESTABLISHED_ACCEPT}
    ensures var own := {JUMP_FWD, JUMP_IN, MARK_ACCEPT, ESTABLISHED_ACCEPT}; Strip(First(s, r), own) == Strip(s, own)
  {
    var own := {JUMP_FWD, JUMP_IN, MARK_ACCEPT, ESTABLISHED_ACCEPT};
    StripRemove(s, own, r);
    StripConcat([r], RemoveFirst(s, r), own);
    assert Strip([r], own) == [];
  }

  // The chain-wise view of the operations.

  function AppliedChain(n: Net, c: string, s: seq<Rule>): seq<Rule> {
    if c == FORWARD then EarlyAll(s, PortRules(n.ip, n.ports))
    else if c == SANDBOX_FWD then AppendOnce(s, HookFwd(n))
    else if c == SANDBOX_IN then AppendOnce(s, HookIn(n))
    else if c == FwdChain(n.short) then AppendAllOnce(s, FwdBody(n))
    else if c == InChain(n.short) then AppendAllOnce(s, InBody(n))
    else s
  }

  function DeletedChain(n: Net, c: string, s: seq<Rule>): seq<Rule> {
    if c == FORWARD then RemoveAll(s, PortRules(n.ip, n.ports))
    else if c == SANDBOX_FWD then RemoveFirst(s, HookFwd(n))
    else if c == SANDBOX_IN then RemoveFirst(s, HookIn(n))
    else if OwnedBy(c, n) then []
    else s
  }

  lemma ApplyAt(t: Table, n: Net, c: string)
    requires HasGlobals(t)
    ensures c in ApplyTable(t, n).table <==> c in t || OwnedBy(c, n)
    ensures Chain(ApplyTable(t, n).table, c) == AppliedChain(n, c, Chain(t, c))
  {
    hide FwdChain, InChain, HookFwd, HookIn, FwdBody, InBody, PortRules, ApplyTable, EarlyAll, AppendAllOnce;
    ApplyEffect(t, n);
    ChainNames(n.short, n.short);
    SystemNames();
  }

  /** Every jump to a per-sandbox chain is the hook of a live sandbox, and every such chain is owned. */
  ghost predicate Exact(t: Table, live: set<Net>) {
    && (forall c, r :: c in t && r in t[c] && r.target.Jump? && "SBX-" <= r.target.chain ==>
          (c == SANDBOX_FWD && r in FwdHooks(live)) || (c == SANDBOX_IN && r in InHooks(live)))
    && (forall c :: c in t && "SBX-" <= c ==> exists n :: n in live && OwnedBy(c, n))
  }

  ghost predicate HooksInPlace(t: Table, live: set<Net>) {
    && HasGlobals(t)
    && HooksOf(t[SANDBOX_FWD], FwdHooks(live))
    && HooksOf(t[SANDBOX_IN], InHooks(live))
  }

  lemma OwnerOfJump(m: Net, n: Net, r: Rule, c: string)
    requires OwnedBy(c, n) && r.target == Jump(c)
    ensures r == HookFwd(m) ==> m.short == n.short && c == FwdChain(n.short)
    ensures r == HookIn(m) ==> m.short == n.short && c == InChain(n.short)
  {
    ChainNames(m.short, n.short);
    ChainNames(n.short, m.short);
  }

  /** A jump to a chain of `n` is one of its two hooks, in the list the hook belongs to. */
  lemma JumpIsHook(t: Table, live: set<Net>, n: Net, c: string, d: string, r: Rule)
    requires Exact(t, live) && Distinct(live) && n in live && OwnedBy(c, n)
    requires d in t && r in t[d] && r.target == Jump(c)
    ensures (d == SANDBOX_FWD && r == HookFwd(n)) || (d == SANDBOX_IN && r == HookIn(n))
  {
    ChainNames(n.short, n.short);
    if d == SANDBOX_FWD && r in FwdHooks(live) {
      var m :| m in live && r == HookFwd(m);
      OwnerOfJump(m, n, r, c);
    } else {
      var m :| m in live && r == HookIn(m);
      OwnerOfJump(m, n, r, c);
    }
  }

  lemma DropBoth(t: Table, fwd: string, inn: string)
    requires fwd != inn && fwd in t && inn in t && t[fwd] == [] == t[inn]
    requires !Referenced(t, fwd) && !Referenced(t, inn)
    ensures WithDrop(WithDrop(t, fwd), inn) == t - {fwd, inn}
  {
  }

  function Emptied(t: Table, n: Net): Table {
    var t1 := WithDelete(WithDelete(WithoutPorts(t, n.ip, n.ports), SANDBOX_FWD, HookFwd(n)), SANDBOX_IN, HookIn(n));
    WithClear(WithClear(t1, FwdChain(n.short)), InChain(n.short))
  }

  lemma EmptiedAt(t: Table, n: Net, c: string)
    requires HasGlobals(t)
    ensures c in Emptied(t, n) <==> c in t || OwnedBy(c, n)
    ensures Chain(Emptied(t, n), c) == DeletedChain(n, c, Chain(t, c))
  {
    WithoutPortsChain(t, n.ip, n.ports);
    ChainNames(n.short, n.short);
    SystemNames();
  }

  lemma Unreferenced(t: Table, live: set<Net>, n: Net, c: string)
    requires HooksInPlace(t, live) && Exact(t, live) && Distinct(live) && n in live && OwnedBy(c, n)
    ensures !Referenced(Emptied(t, n), c)
  {
    var t2 := Emptied(t, n);
    forall d, r: Rule | d in t2 && r in t2[d] ensures r.target != Jump(c) {
      EmptiedAt(t, n, d);
      if r.target == Jump(c) {
        DeletedMembers(n, d, Chain(t, d), r);
        JumpIsHook(t, live, n, c, d, r);
        HookGone(t, live, n);
        assert false;
      }
    }
  }

  lemma HookGone(t: Table, live: set<Net>, n: Net)
    requires HooksInPlace(t, live) && n in live
    ensures HookFwd(n) !in DeletedChain(n, SANDBOX_FWD, t[SANDBOX_FWD])
    ensures HookIn(n) !in DeletedChain(n, SANDBOX_IN, t[SANDBOX_IN])
  {
    SystemNames();
    assert HookFwd(n) in FwdHooks(live) && HookIn(n) in InHooks(live);
    HookLost(t[SANDBOX_FWD], FwdHooks(live), HookFwd(n));
    HookLost(t[SANDBOX_IN], InHooks(live), HookIn(n));
  }

  lemma DeletedMembers(n: Net, c: string, s: seq<Rule>, r: Rule)
    ensures r in DeletedChain(n, c, s) ==> r in s
  {
    RemoveAllMembers(s, PortRules(n.ip, n.ports), r);
    RemoveMembers(s, HookFwd(n), r);
    RemoveMembers(s, HookIn(n), r);
  }

  /** After its hooks are gone nothing refers to a sandbox's chains, so both are removed. */
  lemma DeleteDrops(t: Table, live: set<Net>, n: Net)
    requires HooksInPlace(t, live) && Exact(t, live) && Distinct(live) && n in live
    ensures DeleteTable(t, n) == Emptied(t, n) - {FwdChain(n.short), InChain(n.short)}
  {
    var fwd, inn := FwdChain(n.short), InChain(n.short);
    ChainNames(n.short, n.short);
    Unreferenced(t, live, n, fwd);
    Unreferenced(t, live, n, inn);
    DropBoth(Emptied(t, n), fwd, inn);
  }

  lemma DeleteAt(t: Table, live: set<Net>, n: Net, c: string)
    requires HooksInPlace(t, live) && Exact(t, live) && Distinct(live) && n in live
    ensures c in DeleteTable(t, n) <==> c in t && !OwnedBy(c, n)
    ensures Chain(DeleteTable(t, n), c) == DeletedChain(n, c, Chain(t, c))
  {
    DeleteDrops(t, live, n);
    EmptiedAt(t, n, c);
    ChainNames(n.short, n.short);
  }

  // Undoing an application, rule list by rule list.

  lemma EarlyShape(s: seq<Rule>, r: Rule, head: Rule)
    requires [head] <= s && head != r
    ensures Early(s, r) == [head] + ([r] + RemoveFirst(s[1..], r))
    ensures RemoveFirst(s, r) == [head] + RemoveFirst(s[1..], r)
  {
  }

  lemma EarlyBag(s: seq<Rule>, r: Rule, head: Rule)
    requires [head] <= s && head != r
    ensures multiset(Early(s, r)) == multiset(s) - multiset{r} + multiset{r}
  {
    EarlyShape(s, r, head);
    RemoveBag(s, r);
    var tail := RemoveFirst(s[1..], r);
    assert multiset([head] + ([r] + tail)) == multiset{head} + multiset{r} + multiset(tail);
    assert multiset([head] + tail) == multiset{head} + multiset(tail);
  }

  /** Inserting rules behind a head that is none of them makes every one of them occur, the others as
      often as before. */
  lemma {:induction false} EarlyAllCounts(s: seq<Rule>, rs: seq<Rule>, head: Rule, x: Rule)
    requires [head] <= s && head !in rs
    ensures x !in rs ==> multiset(EarlyAll(s, rs))[x] == multiset(s)[x]
    ensures x in rs ==> multiset(EarlyAll(s, rs))[x] == if x in s then multiset(s)[x] else 1
  {
    if rs != [] {
      var init, r := rs[..|rs| - 1], rs[|rs| - 1];
      assert r in rs && rs == init + [r];
      EarlyAllCounts(s, init, head, x);
      EarlyAllKeepsHead(s, init, head);
      var mid := EarlyAll(s, init);
      EarlyBag(mid, r, head);
      assert x in s <==> multiset(s)[x] > 0;
    }
  }

  lemma {:induction false} StripEarlyAll(s: seq<Rule>, rs: seq<Rule>, head: Rule, drop: set<Rule>)
    requires [head] <= s && head !in rs && head !in drop
    ensures (forall r :: r in rs ==> r in drop) ==> Strip(EarlyAll(s, rs), drop) == Strip(s, drop)
    ensures (forall r :: r in rs ==> r !in drop) ==> Strip(EarlyAll(s, rs), drop) == EarlyAll(Strip(s, drop), rs)
  {
    if rs != [] {
      var init, r := rs[..|rs| - 1], rs[|rs| - 1];
      assert r in rs && forall x :: x in init ==> x in rs;
      StripEarlyAll(s, init, head, drop);
      EarlyAllKeepsHead(s, init, head);
      StripEarly(EarlyAll(s, init), r, head, drop);
    }
  }

  lemma StripCons(x: Rule, s: seq<Rule>, drop: set<Rule>)
    ensures Strip([x] + s, drop) == if x in drop then Strip(s, drop) else [x] + Strip(s, drop)
  {
  }

  lemma StripEarly(s: seq<Rule>, r: Rule, head: Rule, drop: set<Rule>)
    requires [head] <= s && head != r && head !in drop
    ensures Strip(Early(s, r), drop) == if r in drop then Strip(s, drop) else Early(Strip(s, drop), r)
  {
    var u := s[1..];
    assert s == [head] + u;
    EarlyShape(s, r, head);
    StripCons(head, [r] + RemoveFirst(u, r), drop);
    StripCons(r, RemoveFirst(u, r), drop);
    StripRemove(u, drop, r);
    StripCons(head, u, drop);
    if r !in drop {
      var v := Strip(u, drop);
      assert Strip(s, drop) == [head] + v && ([head] + v)[1..] == v;
      EarlyShape([head] + v, r, head);
    }
  }

  lemma {:induction false} StripRemoveAll(s: seq<Rule>, rs: seq<Rule>, drop: set<Rule>)
    requires forall r :: r in rs ==> r !in drop
    ensures Strip(RemoveAll(s, rs), drop) == RemoveAll(Strip(s, drop), rs)
  {
    if rs != [] {
      var init, r := rs[..|rs| - 1], rs[|rs| - 1];
      assert r in rs && forall x :: x in init ==> x in rs;
      StripRemoveAll(s, init, drop);
      StripRemove(RemoveAll(s, init), drop, r);
    }
  }

  /** On FORWARD alone, deletion restores what application found exactly when none of the sandbox's
      port rules was already there. */
  lemma ForwardRestoredIff(s: seq<Rule>, ip: nat, ports: seq<PublishedPort>)
    requires [JUMP_FWD] <= s
    ensures var rs := PortRules(ip, ports);
      RemoveAll(EarlyAll(s, rs), rs) == s <==> forall r :: r in rs ==> r !in s
  {
    var rs := PortRules(ip, ports);
    var applied := EarlyAll(s, rs);
    if forall r :: r in rs ==> r !in s {
      forall r | r in rs ensures multiset(applied)[r] <= 1 {
        EarlyAllCounts(s, rs, JUMP_FWD, r);
      }
      RemoveAllIsStrip(applied, rs);
      StripEarlyAll(s, rs, JUMP_FWD, RuleSet(rs));
      StripAbsent(s, RuleSet(rs));
    } else {
      var r :| r in rs && r in s;
      EarlyAllCounts(s, rs, JUMP_FWD, r);
      assert multiset(s)[r] > 0;
      RemoveAllRemoves(applied, rs, r);
    }
  }

  lemma {:induction false} RemoveAllRemoves(s: seq<Rule>, rs: seq<Rule>, x: Rule)
    ensures multiset(RemoveAll(s, rs))[x] <= multiset(s)[x]
    ensures x in rs && multiset(s)[x] > 0 ==> multiset(RemoveAll(s, rs))[x] < multiset(s)[x]
  {
    if rs != [] {
      var init, r := rs[..|rs| - 1], rs[|rs| - 1];
      RemoveAllRemoves(s, init, x);
      RemoveBag(RemoveAll(s, init), r);
      assert rs == init + [r];
    }
  }

  lemma RestoredAt(t: Table, live: set<Net>, n: Net, c: string)
    requires Guarded(t, live) && Exact(t, live) && Legal(live, Apply(n))
    ensures var t2 := DeleteTable(ApplyTable(t, n).table, n);
      && (c in t2 <==> c in t)
      && Chain(t2, c) == DeletedChain(n, c, AppliedChain(n, c, Chain(t, c)))
      && (c != FORWARD ==> Chain(t2, c) == Chain(t, c))
  {
    hide DeleteTable, ApplyTable, DeletedChain, AppliedChain;
    var t1 := ApplyTable(t, n).table;
    assert n in live + {n};
    ApplyAt(t, n, c);
    assert HooksInPlace(t1, live + {n}) && Distinct(live + {n}) by { ApplyKeepsGuard(t, live, n); }
    ApplyKeepsExact(t, live, n);
    DeleteAt(t1, live + {n}, n, c);
    if c != FORWARD {
      RestoredChain(t, live, n, c);
    } else {
      ChainNames(n.short, n.short);
    }
  }

  /** Deleting a sandbox right after applying it restores the whole filter table, rule for rule and in
      order, exactly when FORWARD held none of its port rules before; repeated ports do not matter. */
  lemma DeleteUndoesApply(t: Table, live: set<Net>, n: Net)
    requires Guarded(t, live) && Exact(t, live) && Legal(live, Apply(n))
    ensures DeleteTable(ApplyTable(t, n).table, n) == t
       <==> forall r :: r in PortRules(n.ip, n.ports) ==> r !in t[FORWARD]
  {
    var t2 := DeleteTable(ApplyTable(t, n).table, n);
    ForwardRestoredIff(t[FORWARD], n.ip, n.ports);
    forall c ensures (c in t2 <==> c in t) && (c != FORWARD ==> Chain(t2, c) == Chain(t, c)) {
      RestoredAt(t, live, n, c);
    }
    RestoredAt(t, live, n, FORWARD);
    if Chain(t2, FORWARD) == t[FORWARD] {
      SameTable(t2, t);
    }
  }

  lemma RestoredChain(t: Table, live: set<Net>, n: Net, c: string)
    requires Guarded(t, live) && Exact(t, live) && Legal(live, Apply(n)) && c != FORWARD
    ensures DeletedChain(n, c, AppliedChain(n, c, Chain(t, c))) == Chain(t, c)
    ensures OwnedBy(c, n) ==> c !in t
  {
    ChainNames(n.short, n.short);
    SystemNames();
    LiveHooksApart(live, n);
    if c == SANDBOX_FWD {
      RemoveAppended(t[c], HookFwd(n));
    } else if c == SANDBOX_IN {
      RemoveAppended(t[c], HookIn(n));
    } else if OwnedBy(c, n) {
      OwnChainsAbsent(t, live, n, c);
    }
  }

  lemma RemoveAppended(s: seq<Rule>, r: Rule)
    requires r !in s
    ensures RemoveFirst(AppendOnce(s, r), r) == s
  {
    RemoveConcat(s, [r], r);
    assert s + [] == s;
  }

  lemma OwnChainsAbsent(t: Table, live: set<Net>, n: Net, c: string)
    requires Exact(t, live) && Distinct(live + {n}) && n !in live && OwnedBy(c, n)
    ensures c !in t
  {
    ChainNames(n.short, n.short);
    if c in t {
      var m :| m in live && OwnedBy(c, m);
      assert m in live + {n} && n in live + {n};
      OthersChains(n, m);
      assert false;
    }
  }

  lemma BodiesDoNotJump(n: Net, r: Rule)
    ensures r in FwdBody(n) || r in InBody(n) || r in PortRules(n.ip, n.ports) ==> !r.target.Jump?
  {
    FwdBodyTerminal(n);
    InBodyDecides(n, Packet(0, 0, "", 0, 0, "", false, false, 0, {}));
    if r in FwdBody(n) {
      var i :| 0 <= i < |FwdBody(n)| && FwdBody(n)[i] == r;
      assert FwdBody(n)[i].target in {Accept, Reject};
    }
    if r in InBody(n) {
      var i :| 0 <= i < |InBody(n)| && InBody(n)[i] == r;
      assert InBody(n)[i].target in {Accept, Reject};
    }
  }

  lemma {:induction false} EarlyAllMembers(s: seq<Rule>, rs: seq<Rule>, x: Rule)
    ensures x in EarlyAll(s, rs) ==> x in s || x in rs
  {
    if rs != [] {
      EarlyAllMembers(s, rs[..|rs| - 1], x);
      RemoveMembers(EarlyAll(s, rs[..|rs| - 1]), rs[|rs| - 1], x);
    }
  }

  lemma AppliedMembers(n: Net, c: string, s: seq<Rule>, r: Rule)
    requires r in AppliedChain(n, c, s)
    ensures r in s || !r.target.Jump? || (c == SANDBOX_FWD && r == HookFwd(n)) || (c == SANDBOX_IN && r == HookIn(n))
  {
    BodiesDoNotJump(n, r);
    EarlyAllMembers(s, PortRules(n.ip, n.ports), r);
    AppendAllMembers(s, FwdBody(n), r);
    AppendAllMembers(s, InBody(n), r);
  }

  lemma AppliedJumps(t: Table, live: set<Net>, n: Net, c: string, r: Rule)
    requires HasGlobals(t) && Exact(t, live)
    requires r in AppliedChain(n, c, Chain(t, c)) && r.target.Jump? && "SBX-" <= r.target.chain
    ensures (c == SANDBOX_FWD && r in FwdHooks(live + {n})) || (c == SANDBOX_IN && r in InHooks(live + {n}))
  {
    hide AppliedChain, FwdHooks, InHooks;
    AppliedMembers(n, c, Chain(t, c), r);
    HooksGrow(live, n);
  }

  lemma ApplyKeepsExact(t: Table, live: set<Net>, n: Net)
    requires HasGlobals(t) && Exact(t, live)
    ensures Exact(ApplyTable(t, n).table, live + {n})
  {
    var t' := ApplyTable(t, n).table;
    forall c, r: Rule | c in t' && r in t'[c] && r.target.Jump? && "SBX-" <= r.target.chain
      ensures (c == SANDBOX_FWD && r in FwdHooks(live + {n})) || (c == SANDBOX_IN && r in InHooks(live + {n}))
    {
      ApplyAt(t, n, c);
      AppliedJumps(t, live, n, c, r);
    }
    forall c | c in t' && "SBX-" <= c ensures exists m :: m in live + {n} && OwnedBy(c, m) {
      ApplyAt(t, n, c);
      if OwnedBy(c, n) {
        assert n in live + {n};
      } else {
        var m :| m in live && OwnedBy(c, m);
        assert m in live + {n};
      }
    }
  }

  lemma HooksGrow(live: set<Net>, n: Net)
    ensures FwdHooks(live + {n}) == FwdHooks(live) + {HookFwd(n)}
    ensures InHooks(live + {n}) == InHooks(live) + {HookIn(n)}
  {
  }
}
