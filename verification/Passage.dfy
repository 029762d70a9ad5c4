/** The accept rules for published ports in FORWARD: whose they are, and when they are all there. */
module Passage {
  import opened Text
  import opened Rules
  import opened Tables
  import opened Firewall
  import opened Policy
  import opened History
  import opened Undo
  import opened Between
  import opened Reach

  /** The look of a rule that accepts one port of one address. */
  predicate PortShaped(r: Rule) {
    |r.matches| == 3 && r.matches[0].Dest? && r.matches[1].Protocol? && r.matches[2].DestPort? && r.target == Accept
  }

  ghost predicate SomeonesPort(live: set<Net>, r: Rule) {
    exists n :: n in live && r in PortRules(n.ip, n.ports)
  }

  /** Every such rule in FORWARD is there once and is a live sandbox's. */
  ghost predicate NoStray(t: Table, live: set<Net>) {
    && FORWARD in t
    && forall r :: r in t[FORWARD] && PortShaped(r) ==> multiset(t[FORWARD])[r] == 1 && SomeonesPort(live, r)
  }

  lemma ForwardChanges(t: Table, e: Event)
    requires HasGlobals(t)
    ensures HasGlobals(After(t, e)) && After(t, e)[FORWARD] == EventChain(e, FORWARD, t[FORWARD])
  {
    match e
    case Ensure(hooks) => EnsureEffect(t, hooks);
    case Apply(n) =>
      ApplyEffect(t, n);
      ApplyAt(t, n, FORWARD);
      ChainNames(n.short, n.short);
    case Delete(n) => DeleteEffect(t, n);
  }

  /** How often an event leaves an accept rule for a port in FORWARD. */
  lemma EventCount(s: seq<Rule>, e: Event, r: Rule)
    requires [JUMP_FWD] <= s && PortShaped(r)
    ensures var s' := EventChain(e, FORWARD, s);
      match e
      case Ensure(_) => multiset(s')[r] == multiset(s)[r]
      case Apply(n) =>
        multiset(s')[r] == if r in PortRules(n.ip, n.ports) && r !in s then 1 else multiset(s)[r]
      case Delete(n) =>
        multiset(s')[r] <= multiset(s)[r]
        && (r in PortRules(n.ip, n.ports) && r in s ==> multiset(s')[r] < multiset(s)[r])
  {
    match e
    case Ensure(hooks) =>
      FirstKeepsCount(s, MARK_ACCEPT, r);
      FirstKeepsCount(First(s, MARK_ACCEPT), ESTABLISHED_ACCEPT, r);
      FirstKeepsCount(First(First(s, MARK_ACCEPT), ESTABLISHED_ACCEPT), JUMP_FWD, r);
    case Apply(n) =>
      NoJumps(n.ip, n.ports);
      EarlyAllCounts(s, PortRules(n.ip, n.ports), JUMP_FWD, r);
    case Delete(n) =>
      RemoveAllRemoves(s, PortRules(n.ip, n.ports), r);
  }

  lemma NoJumps(ip: nat, ports: seq<PublishedPort>)
    ensures JUMP_FWD !in PortRules(ip, ports)
  {
  }

  /** The sandboxes an event leaves live; a deletion may be one with outdated arguments. */
  ghost predicate LiveChange(live: set<Net>, e: Event, live': set<Net>) {
    match e
    case Ensure(_) => live' == live
    case Apply(n) => live' == live + {n}
    case Delete(n) => live' <= live && forall m :: m in live && m !in live' ==> m.ip == n.ip && m.ports == n.ports
  }

  lemma StillSomeones(live: set<Net>, e: Event, live': set<Net>, r: Rule)
    requires LiveChange(live, e, live') && SomeonesPort(live, r)
    requires e.Delete? ==> r !in PortRules(e.net.ip, e.net.ports)
    ensures SomeonesPort(live', r)
  {
    hide PortRules;
    var n :| n in live && r in PortRules(n.ip, n.ports);
    assert e.Delete? ==> n.ip != e.net.ip || n.ports != e.net.ports;
    assert n in live';
  }

  /** No event leaves an accept rule behind for a port that is no live sandbox's. */
  lemma EventNoStray(t: Table, live: set<Net>, e: Event, live': set<Net>)
    requires HasGlobals(t) && [JUMP_FWD] <= t[FORWARD] && NoStray(t, live) && LiveChange(live, e, live')
    ensures NoStray(After(t, e), live')
  {
    hide PortShaped, EventChain, PortRules, After;
    ForwardChanges(t, e);
    var s, s' := t[FORWARD], EventChain(e, FORWARD, t[FORWARD]);
    forall r | r in s' && PortShaped(r) ensures multiset(s')[r] == 1 && SomeonesPort(live', r) {
      EventCount(s, e, r);
      assert r in multiset(s');
      if r in s {
        StillSomeones(live, e, live', r);
      } else {
        assert r !in multiset(s);
        assert e.net in live';
      }
    }
  }

  /** Installing and applying keep every live sandbox's ports open. */
  lemma EventOpens(t: Table, live: set<Net>, e: Event, live': set<Net>)
    requires HasGlobals(t) && Open(t, live) && LiveChange(live, e, live') && !e.Delete?
    ensures Open(After(t, e), live')
  {
    hide EventChain, After, PortRule;
    ForwardChanges(t, e);
    EventHead(t[FORWARD], e);
    forall n, i | n in live' && 0 <= i < |n.ports|
      ensures PortRule(n.ip, n.ports[i]) in AcceptRun(After(t, e)[FORWARD][1..])
    {
      EventRun(t[FORWARD], e, n, i);
    }
  }

  /** The sandbox has this address and one of these container ports, under the same protocol. */
  predicate SharesPort(n: Net, ip: nat, ports: seq<PublishedPort>) {
    n.ip == ip
    && exists i, j :: 0 <= i < |n.ports| && 0 <= j < |ports|
                   && n.ports[i].containerPort == ports[j].containerPort
                   && FilterProto(n.ports[i].protocol) == FilterProto(ports[j].protocol)
  }

  lemma SharedRule(n: Net, ip: nat, ports: seq<PublishedPort>)
    ensures SharesPort(n, ip, ports)
       <==> exists i :: 0 <= i < |n.ports| && PortRule(n.ip, n.ports[i]) in PortRules(ip, ports)
  {
    hide FilterProto;
    forall i, j | 0 <= i < |n.ports| && 0 <= j < |ports|
      ensures PortRule(n.ip, n.ports[i]) == PortRule(ip, ports[j])
         <==> n.ip == ip && n.ports[i].containerPort == ports[j].containerPort
              && FilterProto(n.ports[i].protocol) == FilterProto(ports[j].protocol)
    {
      SamePortRule(n.ip, n.ports[i], ip, ports[j]);
    }
    forall i | 0 <= i < |n.ports| && PortRule(n.ip, n.ports[i]) in PortRules(ip, ports)
      ensures SharesPort(n, ip, ports)
    {
      var j :| 0 <= j < |ports| && PortRules(ip, ports)[j] == PortRule(n.ip, n.ports[i]);
    }
    if SharesPort(n, ip, ports) {
      var i, j :| 0 <= i < |n.ports| && 0 <= j < |ports|
               && n.ports[i].containerPort == ports[j].containerPort
               && FilterProto(n.ports[i].protocol) == FilterProto(ports[j].protocol);
      assert PortRules(ip, ports)[j] == PortRule(n.ip, n.ports[i]);
    }
  }

  lemma SamePortRule(ip: nat, p: PublishedPort, ip': nat, q: PublishedPort)
    ensures PortRule(ip, p) == PortRule(ip', q)
       <==> ip == ip' && p.containerPort == q.containerPort && FilterProto(p.protocol) == FilterProto(q.protocol)
  {
    hide FilterProto;
    var a, b := PortRule(ip, p), PortRule(ip', q);
    assert a.matches[0] == Dest(Host(ip)) && a.matches[1] == Protocol(FilterProto(p.protocol));
    assert b.matches[0] == Dest(Host(ip')) && b.matches[1] == Protocol(FilterProto(q.protocol));
    assert a.matches[2] == DestPort(p.containerPort) && b.matches[2] == DestPort(q.containerPort);
  }

  /** A deletion leaves the ports of those that stay open exactly when none of them has its address and
      shares a port with it. */
  lemma DeletionOpensIff(t: Table, live: set<Net>, n: Net, live': set<Net>)
    requires HasGlobals(t) && Open(t, live) && NoStray(t, live) && LiveChange(live, Delete(n), live')
    ensures Open(After(t, Delete(n)), live') <==> forall m :: m in live' ==> !SharesPort(m, n.ip, n.ports)
  {
    hide EventChain, After, PortRule, PortRules, SharesPort, PortShaped, AcceptRun;
    var e, s := Delete(n), t[FORWARD];
    ForwardChanges(t, e);
    EventHead(s, e);
    forall m, i | m in live' && 0 <= i < |m.ports|
      ensures PortRule(m.ip, m.ports[i]) in AcceptRun(After(t, e)[FORWARD][1..]) <==>
                PortRule(m.ip, m.ports[i]) !in PortRules(n.ip, n.ports)
    {
      RuleStaysIff(t, live, n, m, i);
    }
    forall m | m in live'
      ensures SharesPort(m, n.ip, n.ports)
         <==> exists i :: 0 <= i < |m.ports| && PortRule(m.ip, m.ports[i]) in PortRules(n.ip, n.ports)
    {
      SharedRule(m, n.ip, n.ports);
    }
  }

  lemma RuleStaysIff(t: Table, live: set<Net>, n: Net, m: Net, i: nat)
    requires HasGlobals(t) && Open(t, live) && NoStray(t, live) && m in live && i < |m.ports|
    ensures var s' := EventChain(Delete(n), FORWARD, t[FORWARD]);
      [JUMP_FWD] <= s' && (PortRule(m.ip, m.ports[i]) in AcceptRun(s'[1..])
        <==> PortRule(m.ip, m.ports[i]) !in PortRules(n.ip, n.ports))
  {
    hide EventChain, PortRules;
    var q, s := PortRule(m.ip, m.ports[i]), t[FORWARD];
    var s' := EventChain(Delete(n), FORWARD, s);
    EventHead(s, Delete(n));
    if q in PortRules(n.ip, n.ports) {
      AcceptRunMember(s[1..], q);
      AcceptRunMember(s'[1..], q);
      assert PortShaped(q) && q in s;
      EventCount(s, Delete(n), q);
      assert multiset(s')[q] == 0;
      assert q in s'[1..] ==> q in s' && q in multiset(s');
    } else {
      EventRun(s, Delete(n), m, i);
    }
  }

  // Traffic that is no sandbox's.

  /** Behind the jump, before any rule of another program, FORWARD accepts replies and marked packets. */
  predicate PassesFirst(s: seq<Rule>) {
    && [JUMP_FWD] <= s && ESTABLISHED_ACCEPT in AcceptRun(s[1..]) && MARK_ACCEPT in AcceptRun(s[1..])
  }

  lemma HeadPasses(s: seq<Rule>)
    ensures PassesFirst([JUMP_FWD, ESTABLISHED_ACCEPT, MARK_ACCEPT] + s)
  {
    var run := [ESTABLISHED_ACCEPT, MARK_ACCEPT] + s;
    assert ([JUMP_FWD, ESTABLISHED_ACCEPT, MARK_ACCEPT] + s)[1..] == run;
    assert run[1..] == [MARK_ACCEPT] + s;
  }

  lemma EventPasses(s: seq<Rule>, e: Event)
    requires PassesFirst(s)
    ensures PassesFirst(EventChain(e, FORWARD, s))
  {
    hide AcceptRun, RemoveFirst;
    match e
    case Ensure(hooks) =>
      ForwardHead(s);
      HeadPasses(RemoveFirst(RemoveFirst(RemoveFirst(s, MARK_ACCEPT), ESTABLISHED_ACCEPT), JUMP_FWD));
    case Apply(n) =>
      NoHeads(n.ip, n.ports);
      RunAfterEarly(s, PortRules(n.ip, n.ports), ESTABLISHED_ACCEPT);
      RunAfterEarly(s, PortRules(n.ip, n.ports), MARK_ACCEPT);
    case Delete(n) =>
      NoHeads(n.ip, n.ports);
      RunAfterRemoveAll(s, PortRules(n.ip, n.ports), ESTABLISHED_ACCEPT);
      RunAfterRemoveAll(s, PortRules(n.ip, n.ports), MARK_ACCEPT);
  }

  lemma NoHeads(ip: nat, ports: seq<PublishedPort>)
    ensures forall r :: r in PortRules(ip, ports) ==> r.target == Accept
    ensures JUMP_FWD !in PortRules(ip, ports) && ESTABLISHED_ACCEPT !in PortRules(ip, ports)
    ensures MARK_ACCEPT !in PortRules(ip, ports)
  {
    forall r | r in PortRules(ip, ports) ensures r.target == Accept && |r.matches| == 3 { }
  }

  lemma {:induction false} RunPasses(t: Table, live: set<Net>, events: seq<Event>)
    requires Guarded(t, live) && LegalRun(live, events) && PassesFirst(t[FORWARD])
    ensures FORWARD in RunTable(t, events) && PassesFirst(RunTable(t, events)[FORWARD])
    decreases |events|
  {
    hide PassesFirst, EventChain, After, Legal;
    if events != [] {
      EventKeepsGuard(t, live, events[0]);
      ForwardChanges(t, events[0]);
      EventPasses(t[FORWARD], events[0]);
      RunPasses(After(t, events[0]), LiveAfter(live, events[0]), events[1..]);
    }
  }

  /** After any legal history, a packet that comes from no live sandbox is forwarded if it belongs to a connection
      already open or carries the mark bit 0x2000, whatever other programs have in FORWARD. */
  lemma OtherTrafficPasses(host: Table, hooks: seq<string>, events: seq<Event>, p: Packet, depth: nat)
    requires CleanHost(host) && Legal({}, Event.Ensure(hooks)) && LegalRun({}, events) && depth > 0
    requires forall m :: m in RunLive({}, events) ==> p.src != m.ip
    requires p.established || p.mark / 0x2000 % 2 == 1
    ensures var t := RunTable(EnsureTable(host, hooks).table, events);
      Eval(t, Chain(t, FORWARD), p, depth) == Some(Accepted)
  {
    hide Eval, EnsureTable, RunTable, RunLive, AcceptRun;
    var t0 := EnsureTable(host, hooks).table;
    EnsureOnCleanHost(host, hooks);
    EnsurePasses(host, hooks);
    RunPasses(t0, {}, events);
    RunKeepsGuard(t0, {}, events);
    var t := RunTable(t0, events);
    GuardedInPlace(t, RunLive({}, events));
    NotFromSandbox(t, RunLive({}, events), p, depth - 1);
    var q := if p.established then ESTABLISHED_ACCEPT else MARK_ACCEPT;
    SelectsOne(EstablishedRelated, Accept, p);
    SelectsOne(MarkSet, Accept, p);
    OpenDecides(t, t[FORWARD], q, p, depth);
  }

  lemma GuardedInPlace(t: Table, live: set<Net>)
    requires Guarded(t, live)
    ensures HooksInPlace(t, live)
  {
  }

  lemma EnsurePasses(t: Table, hooks: seq<string>)
    requires FORWARD in t && INPUT in t
    ensures FORWARD in EnsureTable(t, hooks).table && PassesFirst(EnsureTable(t, hooks).table[FORWARD])
  {
    hide EnsureTable, PassesFirst, RemoveFirst;
    EnsureEffect(t, hooks);
    ForwardHead(t[FORWARD]);
    HeadPasses(RemoveFirst(RemoveFirst(RemoveFirst(t[FORWARD], MARK_ACCEPT), ESTABLISHED_ACCEPT), JUMP_FWD));
  }
}
