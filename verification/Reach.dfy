/** Published ports stay reachable through FORWARD, and what a deletion with outdated arguments does. */
module Reach {
  import opened Text
  import opened Rules
  import opened Tables
  import opened Firewall
  import opened Policy
  import opened History
  import opened Undo
  import opened Between

  /** The accept rules a list starts with. */
  function AcceptRun(s: seq<Rule>): seq<Rule> {
    if s == [] || s[0].target != Accept then [] else [s[0]] + AcceptRun(s[1..])
  }

  /** Every published port of every live sandbox is accepted in the run of accept rules right behind
      the jump at the head of FORWARD, before any rule of another program. */
  ghost predicate Open(t: Table, live: set<Net>) {
    && FORWARD in t && [JUMP_FWD] <= t[FORWARD]
    && forall n, i :: n in live && 0 <= i < |n.ports| ==> PortRule(n.ip, n.ports[i]) in AcceptRun(t[FORWARD][1..])
  }

  lemma {:induction false} AcceptRunDecides(t: Table, s: seq<Rule>, r: Rule, p: Packet, depth: nat)
    requires r in AcceptRun(s) && Selects(r, p)
    ensures Eval(t, s, p, depth) == Some(Accepted)
  {
    if !Selects(s[0], p) {
      assert r in AcceptRun(s[1..]);
      AcceptRunDecides(t, s[1..], r, p, depth);
    }
  }

  lemma PortRuleSelects(ip: nat, port: PublishedPort, p: Packet)
    ensures Selects(PortRule(ip, port), p)
       <==> p.dst == ip && p.proto == FilterProto(port.protocol) && p.dport == port.containerPort
  {
    HostHas(ip, p.dst);
    SelectsThree(Dest(Host(ip)), Protocol(FilterProto(port.protocol)), DestPort(port.containerPort), Accept, p);
  }

  /** A packet from outside the sandboxes to a published container port is forwarded. */
  lemma PublishedReachable(t: Table, live: set<Net>, n: Net, i: nat, p: Packet, depth: nat)
    requires HooksInPlace(t, live) && Open(t, live) && n in live && i < |n.ports| && depth > 0
    requires p.dst == n.ip && p.proto == FilterProto(n.ports[i].protocol) && p.dport == n.ports[i].containerPort
    requires forall m :: m in live ==> p.src != m.ip
    ensures Eval(t, Chain(t, FORWARD), p, depth) == Some(Accepted)
  {
    NotFromSandbox(t, live, p, depth - 1);
    PortRuleSelects(n.ip, n.ports[i], p);
    OpenDecides(t, Chain(t, FORWARD), PortRule(n.ip, n.ports[i]), p, depth);
  }

  lemma OpenDecides(t: Table, s: seq<Rule>, q: Rule, p: Packet, depth: nat)
    requires [JUMP_FWD] <= s && depth > 0 && Eval(t, Chain(t, SANDBOX_FWD), p, depth - 1) == None
    requires q in AcceptRun(s[1..]) && Selects(q, p)
    ensures Eval(t, s, p, depth) == Some(Accepted)
  {
    AcceptRunDecides(t, s[1..], q, p, depth);
    PastJump(t, s, p, depth);
  }

  lemma NotFromSandbox(t: Table, live: set<Net>, p: Packet, depth: nat)
    requires HooksInPlace(t, live)
    requires forall m :: m in live ==> p.src != m.ip
    ensures Eval(t, Chain(t, SANDBOX_FWD), p, depth) == None
  {
    forall r | r in t[SANDBOX_FWD] ensures !Selects(r, p) {
      var m :| m in live && r == HookFwd(m);
      HookSelects(m, p);
    }
    NoHookDecides(t, t[SANDBOX_FWD], p, depth);
  }

  lemma PastJump(t: Table, s: seq<Rule>, p: Packet, depth: nat)
    requires [JUMP_FWD] <= s && depth > 0 && Eval(t, Chain(t, SANDBOX_FWD), p, depth - 1) == None
    ensures Eval(t, s, p, depth) == Eval(t, s[1..], p, depth)
  {
  }

  lemma {:induction false} RunAfterRemove(s: seq<Rule>, r: Rule, q: Rule)
    requires q in AcceptRun(s) && q != r
    ensures q in AcceptRun(RemoveFirst(s, r))
  {
    if s[0] != r && s[0] != q {
      assert q in AcceptRun(s[1..]);
      RunAfterRemove(s[1..], r, q);
    }
    if s[0] != r {
      assert ([s[0]] + RemoveFirst(s[1..], r))[1..] == RemoveFirst(s[1..], r);
    }
  }

  lemma {:induction false} RunAfterEarly(s: seq<Rule>, rs: seq<Rule>, q: Rule)
    requires [JUMP_FWD] <= s && forall r :: r in rs ==> r.target == Accept
    requires q in rs || q in AcceptRun(s[1..])
    ensures [JUMP_FWD] <= EarlyAll(s, rs) && q in AcceptRun(EarlyAll(s, rs)[1..])
  {
    EarlyAllKeepsHead(s, rs, JUMP_FWD);
    if rs != [] {
      var init, r := rs[..|rs| - 1], rs[|rs| - 1];
      assert r in rs && forall x :: x in init ==> x in rs;
      var mid := EarlyAll(s, init);
      EarlyAllKeepsHead(s, init, JUMP_FWD);
      EarlyShape(mid, r, JUMP_FWD);
      var tail := RemoveFirst(mid[1..], r);
      assert Early(mid, r)[1..] == [r] + tail && ([r] + tail)[1..] == tail;
      if q != r {
        assert q in init || q in AcceptRun(s[1..]);
        RunAfterEarly(s, init, q);
        RunAfterRemove(mid[1..], r, q);
      }
    }
  }

  lemma {:induction false} RunAfterRemoveAll(s: seq<Rule>, rs: seq<Rule>, q: Rule)
    requires [JUMP_FWD] <= s && JUMP_FWD !in rs && q in AcceptRun(s[1..]) && q !in rs
    ensures [JUMP_FWD] <= RemoveAll(s, rs) && q in AcceptRun(RemoveAll(s, rs)[1..])
  {
    RemoveAllKeepsHead(s, rs, JUMP_FWD);
    if rs != [] {
      var init, r := rs[..|rs| - 1], rs[|rs| - 1];
      assert r in rs && JUMP_FWD !in init;
      RunAfterRemoveAll(s, init, q);
      var mid := RemoveAll(s, init);
      EarlyShape(mid, r, JUMP_FWD);
      RunAfterRemove(mid[1..], r, q);
    }
  }

  lemma RunAfterEnsure(s: seq<Rule>, q: Rule)
    requires [JUMP_FWD] <= s && q in AcceptRun(s[1..]) && q !in {JUMP_FWD, MARK_ACCEPT, ESTABLISHED_ACCEPT}
    ensures q in AcceptRun(EnsuredChain([], FORWARD, s)[1..])
  {
    var u := s[1..];
    var v := RemoveFirst(u, MARK_ACCEPT);
    var w := RemoveFirst(v, ESTABLISHED_ACCEPT);
    EnsuredTail(s);
    RunAfterRemove(u, MARK_ACCEPT, q);
    RunAfterRemove(v, ESTABLISHED_ACCEPT, q);
    RunCons(MARK_ACCEPT, w, q);
    RunCons(ESTABLISHED_ACCEPT, [MARK_ACCEPT] + w, q);
  }

  lemma RunCons(r: Rule, s: seq<Rule>, q: Rule)
    requires r.target == Accept && q in AcceptRun(s)
    ensures q in AcceptRun([r] + s)
  {
  }

  lemma HeadRemoved(s: seq<Rule>, r: Rule)
    requires [r] <= s
    ensures RemoveFirst(s, r) == s[1..]
  {
  }

  lemma EnsuredTail(s: seq<Rule>)
    requires [JUMP_FWD] <= s
    ensures EnsuredChain([], FORWARD, s)[1..]
         == [ESTABLISHED_ACCEPT] + ([MARK_ACCEPT] + RemoveFirst(RemoveFirst(s[1..], MARK_ACCEPT), ESTABLISHED_ACCEPT))
  {
    hide RemoveFirst;
    var v := RemoveFirst(s[1..], MARK_ACCEPT);
    var w := RemoveFirst(v, ESTABLISHED_ACCEPT);
    EarlyShape(s, MARK_ACCEPT, JUMP_FWD);
    assert ([JUMP_FWD] + v)[1..] == v;
    EarlyShape([JUMP_FWD] + v, ESTABLISHED_ACCEPT, JUMP_FWD);
    ForwardHead(s);
    HeadRemoved([JUMP_FWD] + w, JUMP_FWD);
  }

  lemma EventRun(s: seq<Rule>, e: Event, n: Net, i: nat)
    requires [JUMP_FWD] <= s && i < |n.ports|
    requires e == Apply(n) || PortRule(n.ip, n.ports[i]) in AcceptRun(s[1..])
    requires e.Delete? ==> PortRule(n.ip, n.ports[i]) !in PortRules(e.net.ip, e.net.ports)
    ensures [JUMP_FWD] <= EventChain(e, FORWARD, s)
    ensures PortRule(n.ip, n.ports[i]) in AcceptRun(EventChain(e, FORWARD, s)[1..])
  {
    var q := PortRule(n.ip, n.ports[i]);
    assert q.matches[0] == Dest(Host(n.ip));
    match e
    case Ensure(hooks) =>
      RunAfterEnsure(s, q);
      assert EnsuredChain([], FORWARD, s) == EnsuredChain(hooks, FORWARD, s);
    case Apply(k) =>
      assert k == n ==> PortRules(n.ip, n.ports)[i] == q;
      RunAfterEarly(s, PortRules(k.ip, k.ports), q);
    case Delete(k) =>
      assert JUMP_FWD !in PortRules(k.ip, k.ports);
      RunAfterRemoveAll(s, PortRules(k.ip, k.ports), q);
  }

  /** Published ports stay open across every legal event. */
  lemma EventKeepsOpen(t: Table, live: set<Net>, e: Event)
    requires Guarded(t, live) && Exact(t, live) && Open(t, live) && Legal(live, e)
    ensures Open(After(t, e), LiveAfter(live, e))
  {
    assert HooksInPlace(t, live) && Distinct(live);
    EventAt(t, live, e, FORWARD);
    EventHead(t[FORWARD], e);
    forall n, i | n in LiveAfter(live, e) && 0 <= i < |n.ports|
      ensures PortRule(n.ip, n.ports[i]) in AcceptRun(Chain(After(t, e), FORWARD)[1..])
    {
      if e.Delete? {
        assert n.ip != e.net.ip;
        if PortRule(n.ip, n.ports[i]) in PortRules(e.net.ip, e.net.ports) {
          PortRulesAccept(e.net.ip, e.net.ports, PortRule(n.ip, n.ports[i]));
          assert false;
        }
      }
      EventRun(t[FORWARD], e, n, i);
    }
  }

  lemma EventHead(s: seq<Rule>, e: Event)
    requires [JUMP_FWD] <= s
    ensures [JUMP_FWD] <= EventChain(e, FORWARD, s)
  {
    match e
    case Ensure(hooks) => ForwardHead(s);
    case Apply(k) => EarlyAllKeepsHead(s, PortRules(k.ip, k.ports), JUMP_FWD);
    case Delete(k) => RemoveAllKeepsHead(s, PortRules(k.ip, k.ports), JUMP_FWD);
  }

  lemma {:induction false} RunKeepsOpen(t: Table, live: set<Net>, events: seq<Event>)
    requires Guarded(t, live) && Exact(t, live) && Open(t, live) && LegalRun(live, events)
    ensures Open(RunTable(t, events), RunLive(live, events))
    decreases |events|
  {
    if events != [] {
      EventKeepsGuard(t, live, events[0]);
      EventKeepsExact(t, live, events[0]);
      EventKeepsOpen(t, live, events[0]);
      RunKeepsOpen(After(t, events[0]), LiveAfter(live, events[0]), events[1..]);
    }
  }

  /** From a bare host, after any legal history: packets from outside the sandboxes to any published
      container port of any live sandbox are forwarded. */
  lemma ReachableAfterAnyHistory(host: Table, hooks: seq<string>, events: seq<Event>, n: Net, i: nat, p: Packet,
                                 depth: nat)
    requires BareHost(host) && Legal({}, Ensure(hooks)) && LegalRun({}, events)
    requires n in RunLive({}, events) && i < |n.ports| && depth > 0
    requires p.dst == n.ip && p.proto == FilterProto(n.ports[i].protocol) && p.dport == n.ports[i].containerPort
    requires forall m :: m in RunLive({}, events) ==> p.src != m.ip
    ensures var t := RunTable(EnsureTable(host, hooks).table, events);
      Eval(t, Chain(t, FORWARD), p, depth) == Some(Accepted)
  {
    hide Eval;
    var t0 := EnsureTable(host, hooks).table;
    ExactOnBareHost(host, hooks);
    RunKeepsExact(t0, {}, events);
    RunKeepsOpen(t0, {}, events);
    PublishedReachable(RunTable(t0, events), RunLive({}, events), n, i, p, depth);
  }

  /** Deleting a sandbox that is no longer live, after its address went to another one, closes exactly
      the ports the two share: every live port stays open if and only if none of them is among the
      ports of the deletion's arguments at the same address. */
  lemma StaleDelete(t: Table, live: set<Net>, old_: Net)
    requires Guarded(t, live) && Open(t, live)
    requires forall n :: n in live ==> n.short != old_.short
    requires forall n, i :: n in live && 0 <= i < |n.ports| ==> multiset(t[FORWARD])[PortRule(n.ip, n.ports[i])] == 1
    ensures Guarded(DeleteTable(t, old_), live)
    ensures Open(DeleteTable(t, old_), live) <==>
              forall n, i :: n in live && 0 <= i < |n.ports| ==>
                PortRule(n.ip, n.ports[i]) !in PortRules(old_.ip, old_.ports)
  {
    var rs, s := PortRules(old_.ip, old_.ports), t[FORWARD];
    DeleteKeepsGuard(t, live, old_);
    assert live - {old_} == live;
    assert DeleteTable(t, old_)[FORWARD] == RemoveAll(s, rs) by { DeleteEffect(t, old_); }
    RemoveAllKeepsHead(s, rs, JUMP_FWD);
    forall n, i | n in live && 0 <= i < |n.ports|
      ensures PortRule(n.ip, n.ports[i]) in AcceptRun(RemoveAll(s, rs)[1..]) <==> PortRule(n.ip, n.ports[i]) !in rs
    {
      var q := PortRule(n.ip, n.ports[i]);
      if q in rs {
        RemoveAllRemoves(s, rs, q);
        assert q !in multiset(RemoveAll(s, rs));
        AcceptRunMember(RemoveAll(s, rs)[1..], q);
      } else {
        RunAfterRemoveAll(s, rs, q);
      }
    }
  }

  lemma {:induction false} AcceptRunMember(s: seq<Rule>, q: Rule)
    ensures q in AcceptRun(s) ==> q in s
  {
    if s != [] && s[0].target == Accept {
      AcceptRunMember(s[1..], q);
    }
  }
}
