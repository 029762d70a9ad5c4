/** The filter-table half of the sandbox firewall: global chains and per-sandbox chains. */
module Firewall {
  import opened Text
  import opened Rules
  import opened Tables

  datatype PublishedPort = PublishedPort(containerPort: int, protocol: string)

  /** Everything the filter rules of one sandbox are made from. `short` is the hash of the sandbox id
      that its chain names carry; `nameservers` are the resolvers of the host. */
  datatype Net = Net(id: string, short: string, ip: nat, bridge: Cidr, bridgeIf: string, egress: bool,
                     ports: seq<PublishedPort>, nameservers: seq<Cidr>)

  const FORWARD := "FORWARD"
  const INPUT := "INPUT"
  const SANDBOX_FWD := "SANDBOX-FWD"
  const SANDBOX_IN := "SANDBOX-IN"

  const BLOCKED: seq<Cidr> := [
    Cidr(0x0A000000, 8), Cidr(0xAC100000, 12), Cidr(0xC0A80000, 16),
    Cidr(0x7F000000, 8), Cidr(0xA9FE0000, 16), Cidr(0x64400000, 10),
    Cidr(0xC6120000, 15), Cidr(0xE0000000, 4), Cidr(0xF0000000, 4)]

  const JUMP_FWD := Rule([], Jump(SANDBOX_FWD))
  const JUMP_IN := Rule([], Jump(SANDBOX_IN))
  const MARK_ACCEPT := Rule([MarkSet], Accept)
  const ESTABLISHED_ACCEPT := Rule([EstablishedRelated], Accept)
  const LOCAL_REJECT := Rule([DestLocal], Reject)

  function FwdChain(short: string): string {
    "SBX-" + short + "-FWD"
  }

  function InChain(short: string): string {
    "SBX-" + short + "-IN"
  }

  function HookFwd(n: Net): Rule {
    Rule([Source(Host(n.ip))], Jump(FwdChain(n.short)))
  }

  function HookIn(n: Net): Rule {
    Rule([InInterface(n.bridgeIf), Source(Host(n.ip))], Jump(InChain(n.short)))
  }

  function PortRule(ip: nat, p: PublishedPort): Rule {
    Rule([Dest(Host(ip)), Protocol(FilterProto(p.protocol)), DestPort(p.containerPort)], Accept)
  }

  function DnsRule(proto: string): Rule {
    Rule([Protocol(proto), DestPort(53)], Accept)
  }

  function ResolverRule(ns: Cidr, proto: string): Rule {
    Rule([Dest(ns), Protocol(proto), DestPort(53)], Accept)
  }

  function ResolverRules(nameservers: seq<Cidr>): seq<Rule> {
    if nameservers == [] then []
    else
      var last := nameservers[|nameservers| - 1];
      ResolverRules(nameservers[..|nameservers| - 1]) + [ResolverRule(last, "udp"), ResolverRule(last, "tcp")]
  }

  function DnsRules(n: Net): seq<Rule> {
    if n.egress then ResolverRules(n.nameservers) + [DnsRule("udp"), DnsRule("tcp")] else []
  }

  /** The rules appended to a sandbox's forward chain, duplicates not yet skipped. */
  function FwdBody(n: Net): seq<Rule> {
    [ESTABLISHED_ACCEPT] + DnsRules(n) + [LOCAL_REJECT] + RejectBlock([n.bridge] + BLOCKED)
    + [Rule([], if n.egress then Accept else Reject)]
  }

  function ReplyRule(p: PublishedPort): Rule {
    Rule([Protocol(FilterProto(p.protocol)), SourcePort(p.containerPort)], Accept)
  }

  function ReplyRules(ports: seq<PublishedPort>): seq<Rule> {
    seq(|ports|, i requires 0 <= i < |ports| => ReplyRule(ports[i]))
  }

  function InBody(n: Net): seq<Rule> {
    [ESTABLISHED_ACCEPT] + ReplyRules(n.ports) + [Rule([], Reject)]
  }

  datatype Outcome = Outcome(table: Table, ok: bool)

  // Global chains.

  function WithFirst(t: Table, c: string, r: Rule): Table {
    WithInsert(WithDelete(t, c, r), c, 1, r)
  }

  function HookName(hook: string): string {
    TrimSpace(ToUpper(hook))
  }

  function WithHook(t: Table, hook: string): Table {
    var c := HookName(hook);
    if c == "" || c !in t then t else WithFirst(t, c, JUMP_FWD)
  }

  function WithHooks(t: Table, hooks: seq<string>): Table {
    if hooks == [] then t else WithHook(WithHooks(t, hooks[..|hooks| - 1]), hooks[|hooks| - 1])
  }

  predicate NamesChain(chains: seq<string>, target: string) {
    exists i :: 0 <= i < |chains| && ToUpper(TrimSpace(chains[i])) == ToUpper(TrimSpace(target))
  }

  function EffectiveHooks(hooks: seq<string>): seq<string> {
    if hooks == [] then [FORWARD]
    else if NamesChain(hooks, FORWARD) then hooks
    else [FORWARD] + hooks
  }

  function WithGlobalChains(t: Table): Table {
    WithNew(WithNew(t, SANDBOX_FWD), SANDBOX_IN)
  }

  function EnsureTable(t: Table, hooks: seq<string>): Outcome {
    var t0 := WithGlobalChains(t);
    if FORWARD !in t0 then Outcome(t0, false)
    else
      var t1 := WithFirst(WithFirst(t0, FORWARD, MARK_ACCEPT), FORWARD, ESTABLISHED_ACCEPT);
      var t2 := WithHooks(t1, EffectiveHooks(hooks));
      Outcome(WithFirst(t2, INPUT, JUMP_IN), INPUT in t2)
  }

  method InsertFirst(filter: RuleTable, parent: string, r: Rule) returns (ok: bool)
    modifies filter
    ensures ok <==> parent in old(filter.chains)
    ensures filter.chains == WithFirst(old(filter.chains), parent, r)
  {
    var _ := filter.Delete(parent, r);
    ok := filter.Insert(parent, 1, r);
  }

  method ContainsChain(chains: seq<string>, target: string) returns (found: bool)
    ensures found <==> NamesChain(chains, target)
  {
    var wanted := ToUpper(TrimSpace(target));
    for i := 0 to |chains|
      invariant forall j :: 0 <= j < i ==> ToUpper(TrimSpace(chains[j])) != wanted
    {
      if ToUpper(TrimSpace(chains[i])) == wanted {
        return true;
      }
    }
    return false;
  }

  method ForwardHooks(hooks: seq<string>) returns (all: seq<string>)
    ensures all == EffectiveHooks(hooks)
  {
    all := hooks;
    if |all| == 0 {
      all := [FORWARD];
      assert ToUpper(TrimSpace(all[0])) == ToUpper(TrimSpace(FORWARD));
    }
    var named := ContainsChain(all, FORWARD);
    if !named {
      all := [FORWARD] + all;
    }
  }

  method InstallHooks(filter: RuleTable, hooks: seq<string>)
    modifies filter
    ensures filter.chains == WithHooks(old(filter.chains), hooks)
  {
    ghost var t := filter.chains;
    for i := 0 to |hooks|
      invariant filter.chains == WithHooks(t, hooks[..i])
    {
      var c := TrimSpace(ToUpper(hooks[i]));
      assert hooks[..i + 1][..i] == hooks[..i];
      if c == "" || c !in filter.chains {
        continue;
      }
      var inserted := InsertFirst(filter, c, JUMP_FWD);
      assert inserted;
    }
    assert hooks[..|hooks|] == hooks;
  }

  method EnsureGlobalChains(filter: RuleTable, forwardHookChains: seq<string>) returns (ok: bool)
    modifies filter
    ensures Outcome(filter.chains, ok) == EnsureTable(old(filter.chains), forwardHookChains)
  {
    var _ := filter.NewChain(SANDBOX_FWD);
    var _ := filter.NewChain(SANDBOX_IN);
    ok := InsertFirst(filter, FORWARD, MARK_ACCEPT);
    if !ok {
      return;
    }
    ok := InsertFirst(filter, FORWARD, ESTABLISHED_ACCEPT);
    var hooks := ForwardHooks(forwardHookChains);
    InstallHooks(filter, hooks);
    ok := InsertFirst(filter, INPUT, JUMP_IN);
  }

  // Per-sandbox chains.

  /** Published ports are accepted right behind the jump at the head of FORWARD. */
  function WithEarly(t: Table, r: Rule): Table {
    WithInsert(WithDelete(t, FORWARD, r), FORWARD, 2, r)
  }

  function WithPorts(t: Table, ip: nat, ports: seq<PublishedPort>): Table {
    if ports == [] then t
    else WithEarly(WithPorts(t, ip, ports[..|ports| - 1]), PortRule(ip, ports[|ports| - 1]))
  }

  function ApplyTable(t: Table, n: Net): Outcome {
    var fwd, inn := FwdChain(n.short), InChain(n.short);
    var t0 := WithNew(WithNew(t, fwd), inn);
    if SANDBOX_FWD !in t0 then Outcome(t0, false)
    else
      var t1 := WithAppend(t0, SANDBOX_FWD, HookFwd(n));
      if SANDBOX_IN !in t1 then Outcome(t1, false)
      else
        var t2 := WithPorts(WithAppend(t1, SANDBOX_IN, HookIn(n)), n.ip, n.ports);
        Outcome(WithAppends(WithAppends(t2, fwd, FwdBody(n)), inn, InBody(n)), true)
  }

  function WithoutPorts(t: Table, ip: nat, ports: seq<PublishedPort>): Table {
    if ports == [] then t
    else WithDelete(WithoutPorts(t, ip, ports[..|ports| - 1]), FORWARD, PortRule(ip, ports[|ports| - 1]))
  }

  function DeleteTable(t: Table, n: Net): Table {
    var fwd, inn := FwdChain(n.short), InChain(n.short);
    var t0 := WithoutPorts(t, n.ip, n.ports);
    var t1 := WithDelete(WithDelete(t0, SANDBOX_FWD, HookFwd(n)), SANDBOX_IN, HookIn(n));
    WithDrop(WithDrop(WithClear(WithClear(t1, fwd), inn), fwd), inn)
  }

  method InsertForwardAcceptEarly(filter: RuleTable, ip: nat, p: PublishedPort) returns (ok: bool)
    modifies filter
    ensures filter.chains == WithEarly(old(filter.chains), PortRule(ip, p))
  {
    var r := PortRule(ip, p);
    var _ := filter.Delete(FORWARD, r);
    ok := filter.Insert(FORWARD, 2, r);
  }

  /** One AppendUnique call, tracked as one more rule of the list being built on top of `t`. */
  method Extend(filter: RuleTable, c: string, r: Rule, ghost t: Table, ghost built: seq<Rule>)
    returns (ghost longer: seq<Rule>)
    requires filter.chains == WithAppends(t, c, built)
    modifies filter
    ensures longer == built + [r]
    ensures filter.chains == WithAppends(t, c, longer)
  {
    var _ := filter.AppendUnique(c, r);
    longer := built + [r];
    WithAppendsSnoc(t, c, built, r);
  }

  method AllowResolvers(filter: RuleTable, c: string, nameservers: seq<Cidr>, ghost t: Table, ghost built: seq<Rule>)
    returns (ghost longer: seq<Rule>)
    requires filter.chains == WithAppends(t, c, built)
    modifies filter
    ensures longer == built + ResolverRules(nameservers)
    ensures filter.chains == WithAppends(t, c, longer)
  {
    longer := built;
    for i := 0 to |nameservers|
      invariant longer == built + ResolverRules(nameservers[..i])
      invariant filter.chains == WithAppends(t, c, longer)
    {
      var ns := nameservers[i];
      longer := Extend(filter, c, ResolverRule(ns, "udp"), t, longer);
      longer := Extend(filter, c, ResolverRule(ns, "tcp"), t, longer);
      ResolverRulesSnoc(nameservers, i);
    }
    assert nameservers[..|nameservers|] == nameservers;
  }

  lemma ResolverRulesSnoc(nameservers: seq<Cidr>, i: nat)
    requires i < |nameservers|
    ensures ResolverRules(nameservers[..i + 1])
         == ResolverRules(nameservers[..i]) + [ResolverRule(nameservers[i], "udp")]
           + [ResolverRule(nameservers[i], "tcp")]
  {
    assert nameservers[..i + 1][..i] == nameservers[..i];
  }

  method AllowDns(filter: RuleTable, n: Net, ghost t: Table, ghost built: seq<Rule>)
    returns (ghost longer: seq<Rule>)
    requires filter.chains == WithAppends(t, FwdChain(n.short), built)
    modifies filter
    ensures longer == built + DnsRules(n)
    ensures filter.chains == WithAppends(t, FwdChain(n.short), longer)
  {
    var fwd := FwdChain(n.short);
    longer := built;
    if n.egress {
      longer := AllowResolvers(filter, fwd, n.nameservers, t, longer);
      longer := Extend(filter, fwd, DnsRule("udp"), t, longer);
      longer := Extend(filter, fwd, DnsRule("tcp"), t, longer);
    }
  }

  method RejectBlocks(filter: RuleTable, c: string, cidrs: seq<Cidr>, ghost t: Table, ghost built: seq<Rule>)
    returns (ghost longer: seq<Rule>)
    requires filter.chains == WithAppends(t, c, built)
    modifies filter
    ensures longer == built + RejectBlock(cidrs)
    ensures filter.chains == WithAppends(t, c, longer)
  {
    longer := built;
    for i := 0 to |cidrs|
      invariant longer == built + RejectBlock(cidrs[..i])
      invariant filter.chains == WithAppends(t, c, longer)
    {
      longer := Extend(filter, c, Rule([Dest(cidrs[i])], Reject), t, longer);
      assert RejectBlock(cidrs[..i + 1]) == RejectBlock(cidrs[..i]) + [Rule([Dest(cidrs[i])], Reject)];
    }
    assert cidrs[..|cidrs|] == cidrs;
  }

  method FillForwardChain(filter: RuleTable, n: Net)
    modifies filter
    ensures filter.chains == WithAppends(old(filter.chains), FwdChain(n.short), FwdBody(n))
  {
    var fwd := FwdChain(n.short);
    ghost var t, built := filter.chains, [];
    built := Extend(filter, fwd, ESTABLISHED_ACCEPT, t, built);
    built := AllowDns(filter, n, t, built);
    built := Extend(filter, fwd, LOCAL_REJECT, t, built);
    built := RejectBlocks(filter, fwd, [n.bridge] + BLOCKED, t, built);
    built := Extend(filter, fwd, Rule([], if n.egress then Accept else Reject), t, built);
    assert built == FwdBody(n);
  }

  method FillInputChain(filter: RuleTable, n: Net)
    modifies filter
    ensures filter.chains == WithAppends(old(filter.chains), InChain(n.short), InBody(n))
  {
    var inn := InChain(n.short);
    ghost var t, built := filter.chains, [];
    built := Extend(filter, inn, ESTABLISHED_ACCEPT, t, built);
    for i := 0 to |n.ports|
      invariant built == [ESTABLISHED_ACCEPT] + ReplyRules(n.ports[..i])
      invariant filter.chains == WithAppends(t, inn, built)
    {
      built := Extend(filter, inn, ReplyRule(n.ports[i]), t, built);
      assert ReplyRules(n.ports[..i + 1]) == ReplyRules(n.ports[..i]) + [ReplyRule(n.ports[i])];
    }
    assert n.ports[..|n.ports|] == n.ports;
    built := Extend(filter, inn, Rule([], Reject), t, built);
    assert built == InBody(n);
  }

  method ApplySandboxRules(filter: RuleTable, n: Net) returns (ok: bool)
    modifies filter
    ensures Outcome(filter.chains, ok) == ApplyTable(old(filter.chains), n)
  {
    var _ := filter.NewChain(FwdChain(n.short));
    var _ := filter.NewChain(InChain(n.short));
    ok := filter.AppendUnique(SANDBOX_FWD, HookFwd(n));
    if !ok {
      return;
    }
    ok := filter.AppendUnique(SANDBOX_IN, HookIn(n));
    if !ok {
      return;
    }
    ghost var t := filter.chains;
    for i := 0 to |n.ports|
      invariant filter.chains == WithPorts(t, n.ip, n.ports[..i])
    {
      var _ := InsertForwardAcceptEarly(filter, n.ip, n.ports[i]);
      assert n.ports[..i + 1][..i] == n.ports[..i];
    }
    assert n.ports[..|n.ports|] == n.ports;
    FillForwardChain(filter, n);
    FillInputChain(filter, n);
  }

  method DeleteSandboxRules(filter: RuleTable, n: Net)
    modifies filter
    ensures filter.chains == DeleteTable(old(filter.chains), n)
  {
    ghost var t := filter.chains;
    for i := 0 to |n.ports|
      invariant filter.chains == WithoutPorts(t, n.ip, n.ports[..i])
    {
      var _ := filter.Delete(FORWARD, PortRule(n.ip, n.ports[i]));
      assert n.ports[..i + 1][..i] == n.ports[..i];
    }
    assert n.ports[..|n.ports|] == n.ports;
    var _ := filter.Delete(SANDBOX_FWD, HookFwd(n));
    var _ := filter.Delete(SANDBOX_IN, HookIn(n));
    filter.ClearChain(FwdChain(n.short));
    filter.ClearChain(InChain(n.short));
    var _ := filter.DeleteChain(FwdChain(n.short));
    var _ := filter.DeleteChain(InChain(n.short));
  }
}
