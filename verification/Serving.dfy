/** What every lifecycle run means for packets: policies, translated ports and their passage, and what a
    removal leaves. */
module Serving {
  import opened Text
  import opened Rules
  import opened Tables
  import opened Firewall
  import opened Policy
  import opened History
  import Between
  import opened Reach
  import opened Passage
  import opened Nat
  import opened Published
  import opened Lookup
  import opened Requests
  import opened Ports
  import opened Sandboxes
  import opened Lifecycle
  import opened Sweeps
  import opened Courses
  import PP = PortProtocol

  /** A port is published for a sandbox only while that sandbox's policy is installed: every translation
      rule that carries an id leads to the address of a saved sandbox whose hook is in place and whose
      chains are complete. */
  lemma PublishedOnlyBehindPolicy(cfg: Config, w: World, c: string, r: Rule)
    requires Sound(cfg, w) && c in {PREROUTING, OUTPUT} && r in Chain(w.nat_, c) && TagOf(c, r) != ""
    ensures var id := TagOf(c, r);
      && id in w.books.store && id in w.books.live
      && r.target.Dnat? && r.target.ip == w.books.live[id].ip
      && HookFwd(w.books.live[id]) in Chain(w.filter, SANDBOX_FWD)
      && HookIn(w.books.live[id]) in Chain(w.filter, SANDBOX_IN)
      && Filled(w.filter, w.books.live[id])
  {
    hide TagOf, Filled, Printable;
    assert !Foreign(c, r);
    var id :| id in w.books.pubs && Owns(c, r, id, w.books.pubs[id]);
    OwnedTag(c, r, id, w.books.pubs[id]);
    assert InOrder(cfg, id, ViewOf(w.books, id));
    GuardedHooks(w.filter, w.books.live.Values, w.books.live[id]);
  }

  lemma GuardedHooks(t: Table, live: set<Net>, n: Net)
    requires Guarded(t, live) && n in live
    ensures HookFwd(n) in Chain(t, SANDBOX_FWD) && HookIn(n) in Chain(t, SANDBOX_IN) && Filled(t, n)
  {
    hide Filled;
    assert HookFwd(n) in FwdHooks(live) && HookIn(n) in InHooks(live);
    assert HookFwd(n) in multiset(t[SANDBOX_FWD]) && HookIn(n) in multiset(t[SANDBOX_IN]);
  }

  /** Saved states of different sandboxes claim different ports. */
  ghost predicate PortsApart(store: map<string, Record>) {
    forall a, b :: a in store && b in store && a != b ==> KeysOf(store[a].ports) !! KeysOf(store[b].ports)
  }

  /** A published claim is one of the sandbox's saved ports. */
  lemma ClaimOfPorts(cfg: Config, b: Books, id: string, i: int, p: Packet)
    requires AllInOrder(cfg, b) && Lookup.Claims(b.pubs, id, i, p)
    ensures id in b.store && Key(p.dport, p.proto) in KeysOf(b.store[id].ports)
  {
    hide PortsOk, Stretch, ForwardsOf;
    PublishedStretch(cfg, b, id);
    var fs, ports := b.pubs[id].forwards, b.store[id].ports;
    var n: nat :| Stretch(fs, ForwardsOf(ports), n);
    StretchAt(fs, ports, n, i);
    assert KeyOf(ports[n - |fs| + i]) == Key(p.dport, p.proto);
  }

  /** What is published is a stretch of the saved ports. */
  lemma PublishedStretch(cfg: Config, b: Books, id: string)
    requires AllInOrder(cfg, b) && id in b.pubs
    ensures id in b.store && PortsOk(b.store[id].ports, |b.store[id].ports|)
    ensures exists n: nat :: Stretch(b.pubs[id].forwards, ForwardsOf(b.store[id].ports), n)
  {
    hide PortsOk, ForwardsOf, Stretch;
    assert InOrder(cfg, id, ViewOf(b, id));
  }

  lemma StretchAt(fs: seq<Forward>, ports: seq<PortMapping>, n: nat, i: nat)
    requires Stretch(fs, ForwardsOf(ports), n) && i < |fs|
    ensures var at := n - |fs| + i;
      0 <= at < |ports| && fs[i] == Forward(ports[at].hostPort, ports[at].containerPort, ports[at].protocol)
  {
    assert fs[i] == ForwardsOf(ports)[n - |fs| + i];
  }

  lemma SameClaim(cfg: Config, b: Books, id: string, i: int, j: int, p: Packet)
    requires AllInOrder(cfg, b) && Lookup.Claims(b.pubs, id, i, p) && Lookup.Claims(b.pubs, id, j, p)
    ensures i == j
  {
    hide PortsOk, Stretch, ForwardsOf;
    PublishedStretch(cfg, b, id);
    var fs, ports := b.pubs[id].forwards, b.store[id].ports;
    var n: nat :| Stretch(fs, ForwardsOf(ports), n);
    StretchAt(fs, ports, n, i);
    StretchAt(fs, ports, n, j);
    SamePortSameIndex(ports, n - |fs| + i, n - |fs| + j);
  }

  lemma ClaimsAreUnique(cfg: Config, b: Books)
    requires AllInOrder(cfg, b) && PortsApart(b.store)
    ensures UniqueClaims(b.pubs)
  {
    hide AllInOrder, Lookup.Claims;
    forall p, x, y, i, j | Lookup.Claims(b.pubs, x, i, p) && Lookup.Claims(b.pubs, y, j, p) ensures x == y && i == j {
      ClaimOfPorts(cfg, b, x, i, p);
      ClaimOfPorts(cfg, b, y, j, p);
      if x == y {
        SameClaim(cfg, b, x, i, j, p);
      }
    }
  }

  lemma SamePortSameIndex(ports: seq<PortMapping>, i: nat, j: nat)
    requires PortsOk(ports, |ports|) && i < |ports| && j < |ports| && KeyOf(ports[i]) == KeyOf(ports[j])
    ensures i == j
  {
    assert PortOk(ports, i) && PortOk(ports, j);
  }

  /** A sandbox saved as running, and not being removed, has an address, and packets from that address meet
      exactly its policy. */
  lemma RunningPolicy(cfg: Config, w: World, id: string, p: Packet, depth: nat)
    requires Sound(cfg, w) && RunningSaved(ViewOf(w.books, id))
    requires depth >= 2 && p.dst < 0x1_0000_0000
    ensures var r := w.books.store[id];
      && r.ip.Some? && id in w.books.live && w.books.live[id].ip == r.ip.value
      && (p.src == r.ip.value ==>
            Eval(w.filter, Chain(w.filter, FORWARD), p, depth) == Some(ForwardPolicy(w.books.live[id], p)))
  {
    hide Guarded, NatHolds, ForwardPolicy, Eval, PortsInOrder;
    assert InOrder(cfg, id, ViewOf(w.books, id));
    var r, n := w.books.store[id], w.books.live[id];
    if p.src == r.ip.value {
      ForwardVerdict(w.filter, w.books.live.Values, n, p, depth);
    }
  }

  /** Where everything that should be published is, packets to each host port of such a sandbox reach its
      address and container port. */
  lemma RunningTranslated(cfg: Config, w: World, id: string, i: nat, q: Packet, depth: nat)
    requires Sound(cfg, w) && AllWhole(w.books) && PortsApart(w.books.store) && RunningSaved(ViewOf(w.books, id))
    requires ForeignPass(w.nat_, PREROUTING, q, depth)
    requires i < |w.books.store[id].ports| && KeyOf(w.books.store[id].ports[i]) == Key(q.dport, q.proto)
    ensures var r := w.books.store[id];
      r.ip.Some? && Eval(w.nat_, Chain(w.nat_, PREROUTING), q, depth)
        == Some(Translated(r.ip.value, r.ports[i].containerPort))
  {
    hide Guarded, NatHolds, Eval, UniqueClaims, ForeignPass, PortsInOrder;
    var r := w.books.store[id];
    assert InOrder(cfg, id, ViewOf(w.books, id)) && Whole(ViewOf(w.books, id));
    assert ForwardsOf(r.ports)[i].hostPort == q.dport;
    assert Lookup.Claims(w.books.pubs, id, i, q);
    ClaimsAreUnique(cfg, w.books);
    ClaimedLookup(w.nat_, w.books.pubs, PREROUTING, id, i, q, depth);
  }

  /** On everything saved, the error phase goes with an error text, and reading a saved error shows that
      error whatever the runtime reports. */
  lemma SavedErrorsShow(cfg: Config, w: World, id: string, obs: map<string, Observation>, now: int, order: seq<string>)
    requires Sound(cfg, w) && id in w.books.store
    ensures var r := w.books.store[id];
      && (r.phase == Failed <==> r.error != "")
      && (r.error != "" ==> RefreshRecord(r, obs, now, order) == r.(updatedAt := now))
  {
    assert InOrder(cfg, id, ViewOf(w.books, id));
    RefreshNeverMasks(w.books.store[id], obs, now, order);
  }

  /** A sandbox that is not saved has left nothing behind: no translation rule carries its id, no hook
      leads to its chains and its chains are empty or gone; and every accept rule for a port that is left
      in FORWARD is that of a sandbox that is still saved. */
  lemma RemovedLeavesNoTrace(cfg: Config, w: World, id: string)
    requires Proper(cfg) && Sound(cfg, w) && Tidy(w) && id in cfg.ids && id !in w.books.store
    ensures forall r :: r in Chain(w.filter, FORWARD) && PortShaped(r) ==>
              exists x :: x in w.books.live && x in w.books.store && x != id
                && r in PortRules(w.books.live[x].ip, w.books.live[x].ports)
    ensures forall c, r :: c in {PREROUTING, OUTPUT} && r in Chain(w.nat_, c) ==> TagOf(c, r) != id
    ensures forall r :: r in Chain(w.filter, SANDBOX_FWD) ==> r.target != Jump(FwdChain(cfg.short(id)))
    ensures forall r :: r in Chain(w.filter, SANDBOX_IN) ==> r.target != Jump(InChain(cfg.short(id)))
    ensures Chain(w.filter, FwdChain(cfg.short(id))) == [] == Chain(w.filter, InChain(cfg.short(id)))
  {
    hide NatHolds, Guarded, TagOf, PortsInOrder, PortShaped, PortRules;
    forall r | r in Chain(w.filter, FORWARD) && PortShaped(r)
      ensures exists x :: x in w.books.live && x in w.books.store && x != id
                && r in PortRules(w.books.live[x].ip, w.books.live[x].ports)
    {
      PortOfSaved(cfg, w, r);
    }
    forall c, r | c in {PREROUTING, OUTPUT} && r in Chain(w.nat_, c) ensures TagOf(c, r) != id {
      assert WellId(id);
      if TagOf(c, r) == id {
        PublishedOnlyBehindPolicy(cfg, w, c, r);
      }
    }
    assert InOrder(cfg, id, ViewOf(w.books, id));
    ShortsApart(cfg, w.books, id);
    NoTraceOf(w.filter, w.books.live.Values, cfg.short(id));
  }

  lemma NoTraceOf(t: Table, live: set<Net>, short: string)
    requires Guarded(t, live) && forall m :: m in live ==> m.short != short
    ensures forall r :: r in Chain(t, SANDBOX_FWD) ==> r.target != Jump(FwdChain(short))
    ensures forall r :: r in Chain(t, SANDBOX_IN) ==> r.target != Jump(InChain(short))
    ensures Chain(t, FwdChain(short)) == [] == Chain(t, InChain(short))
  {
    forall m | m in live
      ensures FwdChain(m.short) != FwdChain(short) && InChain(m.short) != InChain(short)
      ensures InChain(m.short) != FwdChain(short) && FwdChain(m.short) != InChain(short)
    {
      ChainNames(m.short, short);
      ChainNames(short, m.short);
    }
    ChainNames(short, short);
  }

  lemma PortOfSaved(cfg: Config, w: World, r: Rule)
    requires Sound(cfg, w) && Tidy(w) && r in Chain(w.filter, FORWARD) && PortShaped(r)
    ensures exists x :: x in w.books.live && x in w.books.store
              && r in PortRules(w.books.live[x].ip, w.books.live[x].ports)
  {
    hide PortShaped, PortRules, Guarded, NatHolds, PortsInOrder;
    var n :| n in w.books.live.Values && r in PortRules(n.ip, n.ports);
    var x :| x in w.books.live && w.books.live[x] == n;
    assert InOrder(cfg, x, ViewOf(w.books, x));
  }

  // The way through FORWARD.

  /** Every accept rule for a port in FORWARD is there once and is a live sandbox's. */
  ghost predicate Tidy(w: World) {
    NoStray(w.filter, w.books.live.Values)
  }

  /** All ports of all sandboxes with a policy are accepted in FORWARD. */
  ghost predicate AllOpen(w: World) {
    Open(w.filter, w.books.live.Values)
  }

  /** What a step does to the filter table, as an event of its history. */
  function FilterEvent(cfg: Config, b: Books, s: Step): Option<Event>
    requires Ready(cfg, b, s)
  {
    match s
    case EnsureGlobals(hooks) => Some(Event.Ensure(hooks))
    case ApplyPolicy(id, nameservers) => Some(Event.Apply(NetOf(cfg, b.jobs[id].sbx, nameservers)))
    case CleanPolicy(id) => if b.jobs[id].sbx.ip.Some? then Some(Event.Delete(NetOf(cfg, b.jobs[id].sbx, []))) else None
    case CleanOrphan(id, cached) => if cached.Some? then Some(Event.Delete(OrphanNet(cfg, id, cached.value))) else None
    case _ => None
  }

  lemma FilterByEvent(cfg: Config, t: Table, b: Books, s: Step)
    requires Ready(cfg, b, s)
    ensures FilterAfter(cfg, t, b, s)
         == if FilterEvent(cfg, b, s).Some? then After(t, FilterEvent(cfg, b, s).value) else t
  {
    hide EnsureTable, ApplyTable, DeleteTable;
  }

  /** A policy is removed while no other live sandbox has its address and shares a container port. */
  predicate CleanupSpares(cfg: Config, b: Books, s: Step) {
    s.CleanPolicy? && s.id in b.jobs && b.jobs[s.id].sbx.ip.Some? ==>
      forall x :: x in b.live && x != s.id ==>
        !SharesPort(b.live[x], b.jobs[s.id].sbx.ip.value, PublishedOf(b.jobs[s.id].sbx.ports))
  }

  /** The live sandboxes change as the filter's history says. */
  lemma StepChangesLive(cfg: Config, w: World, s: Step)
    requires Proper(cfg) && Sound(cfg, w) && Ready(cfg, w.books, s)
    ensures var e, live, live' := FilterEvent(cfg, w.books, s), w.books.live.Values, Moved(cfg, w.books, s).live.Values;
      if e.Some? then LiveChange(live, e.value, live') else live' == live
  {
    hide Guarded, NatHolds, PortsInOrder, AllInOrder, Ready, Moved, FilterEvent, LiveChange;
    match s
    case ApplyPolicy(id, nameservers) => PolicyComes(cfg, w.books, id, nameservers);
    case CleanPolicy(id) => PolicyGoes(cfg, w.books, id);
    case _ => PoliciesStay(cfg, w.books, s);
  }

  lemma PolicyComes(cfg: Config, b: Books, id: string, nameservers: seq<Cidr>)
    requires Proper(cfg) && AllInOrder(cfg, b) && Ready(cfg, b, ApplyPolicy(id, nameservers))
    ensures var e := FilterEvent(cfg, b, ApplyPolicy(id, nameservers));
      e.Some? && LiveChange(b.live.Values, e.value, Moved(cfg, b, ApplyPolicy(id, nameservers)).live.Values)
  {
    hide AllInOrder, PublishedOf;
    NewNetApart(cfg, b, id, nameservers);
    LiveWith(b.live, id, NetOf(cfg, b.jobs[id].sbx, nameservers));
  }

  lemma PolicyGoes(cfg: Config, b: Books, id: string)
    requires AllInOrder(cfg, b) && Ready(cfg, b, CleanPolicy(id))
    ensures var e, live := FilterEvent(cfg, b, CleanPolicy(id)), b.live.Values;
      var live' := Moved(cfg, b, CleanPolicy(id)).live.Values;
      if e.Some? then LiveChange(live, e.value, live') else live' == live
  {
    hide AllInOrder, PublishedOf;
    PolicyGone(cfg, b, id);
  }

  lemma PoliciesStay(cfg: Config, b: Books, s: Step)
    requires Ready(cfg, b, s) && !s.ApplyPolicy? && !s.CleanPolicy?
    ensures var e, live, live' := FilterEvent(cfg, b, s), b.live.Values, Moved(cfg, b, s).live.Values;
      if e.Some? then LiveChange(live, e.value, live') else live' == live
  {
    hide Ready;
  }

  lemma PolicyGone(cfg: Config, b: Books, id: string)
    requires AllInOrder(cfg, b) && id in b.jobs
    ensures var r := b.jobs[id].sbx;
      && (b.live - {id}).Values <= b.live.Values
      && (id !in b.live ==> b.live - {id} == b.live)
      && (id in b.live ==> (b.live - {id}).Values == b.live.Values - {b.live[id]})
      && (id in b.live ==> r.ip.Some? && b.live[id].ip == r.ip.value && b.live[id].ports == PublishedOf(r.ports))
  {
    hide PortsOk;
    if id in b.live {
      LiveWithout(cfg, b, id);
      LiveOf(cfg, b, id);
    }
  }

  lemma StepKeepsTidy(cfg: Config, w: World, s: Step)
    requires Proper(cfg) && Sound(cfg, w) && Tidy(w) && Enabled(cfg, w.books, s)
    ensures Tidy(Stepped(cfg, w, s))
  {
    hide NatHolds, PortsInOrder, AllInOrder, Ready, Moved, FilterAfter, NatTableAfter, PP.Enabled, PortsAfter, NoStray,
         LiveChange, FilterEvent, HooksOf, Filled, NoLeftovers;
    StepChangesLive(cfg, w, s);
    FilterByEvent(cfg, w.filter, w.books, s);
    if FilterEvent(cfg, w.books, s).Some? {
      EventNoStray(w.filter, w.books.live.Values, FilterEvent(cfg, w.books, s).value,
        Moved(cfg, w.books, s).live.Values);
    }
  }

  /** A step keeps every port open exactly when a policy it removes shares no port, at its address, with
      another live sandbox. */
  lemma StepOpenIff(cfg: Config, w: World, s: Step)
    requires Proper(cfg) && Sound(cfg, w) && Tidy(w) && AllOpen(w) && Enabled(cfg, w.books, s)
    ensures AllOpen(Stepped(cfg, w, s)) <==> CleanupSpares(cfg, w.books, s)
  {
    hide NatHolds, PortsInOrder, AllInOrder, Moved, FilterAfter, NatTableAfter, PP.Enabled, PortsAfter, NoStray, Open,
         LiveChange, HooksOf, Filled, NoLeftovers, SharesPort, PublishedOf;
    var live, live' := w.books.live.Values, Moved(cfg, w.books, s).live.Values;
    StepChangesLive(cfg, w, s);
    FilterByEvent(cfg, w.filter, w.books, s);
    var e := FilterEvent(cfg, w.books, s);
    if e.Some? && e.value.Delete? {
      DeletionOpensIff(w.filter, live, e.value.net, live');
      RemovalSpares(cfg, w, s);
    } else if e.Some? {
      EventOpens(w.filter, live, e.value, live');
    }
  }

  /** What the removal spares, over the sandboxes that stay. */
  lemma RemovalSpares(cfg: Config, w: World, s: Step)
    requires Proper(cfg) && Sound(cfg, w) && Ready(cfg, w.books, s)
    requires FilterEvent(cfg, w.books, s).Some? && FilterEvent(cfg, w.books, s).value.Delete?
    ensures var n := FilterEvent(cfg, w.books, s).value.net;
      (forall m :: m in Moved(cfg, w.books, s).live.Values ==> !SharesPort(m, n.ip, n.ports))
        <==> CleanupSpares(cfg, w.books, s)
  {
    hide Guarded, NatHolds, PortsInOrder, AllInOrder, PublishedOf;
    var b, n := w.books, FilterEvent(cfg, w.books, s).value.net;
    if s.CleanOrphan? {
      assert n.ports == [];
    } else {
      OthersAfter(cfg, b, s.id);
    }
  }

  lemma OthersAfter(cfg: Config, b: Books, id: string)
    requires Ready(cfg, b, CleanPolicy(id))
    ensures forall m ::
              m in Moved(cfg, b, CleanPolicy(id)).live.Values <==> exists x :: x in b.live && x != id && b.live[x] == m
  {
    var after := Moved(cfg, b, CleanPolicy(id)).live;
    forall x | x in b.live && x != id ensures b.live[x] in after.Values {
      assert x in after && after[x] == b.live[x];
    }
  }

  ghost predicate AlwaysOpen(cfg: Config, w: World, steps: seq<Step>)
    requires LegalSteps(cfg, w.books, steps)
    decreases |steps|
  {
    AllOpen(w) && (steps != [] ==> AlwaysOpen(cfg, Stepped(cfg, w, steps[0]), steps[1..]))
  }

  ghost predicate CleanupsSpare(cfg: Config, b: Books, steps: seq<Step>)
    requires LegalSteps(cfg, b, steps)
    decreases |steps|
  {
    steps != [] ==> CleanupSpares(cfg, b, steps[0]) && CleanupsSpare(cfg, BooksAfter(cfg, b, steps[0]), steps[1..])
  }

  /** In a whole run all ports of all live sandboxes always are open in FORWARD, exactly when no policy is
      removed at an address, and with a port, that another live sandbox has. */
  lemma {:induction false} AlwaysOpenIff(cfg: Config, w: World, steps: seq<Step>)
    requires Proper(cfg) && Sound(cfg, w) && Tidy(w) && AllOpen(w) && LegalSteps(cfg, w.books, steps)
    ensures AlwaysOpen(cfg, w, steps) <==> CleanupsSpare(cfg, w.books, steps)
    decreases |steps|
  {
    hide Sound, Tidy, AllOpen, Enabled, BooksAfter, FilterAfter, NatTableAfter, CleanupSpares;
    if steps != [] {
      var next := Stepped(cfg, w, steps[0]);
      StepOpenIff(cfg, w, steps[0]);
      StepKeepsSound(cfg, w, steps[0]);
      StepKeepsTidy(cfg, w, steps[0]);
      if AllOpen(next) {
        AlwaysOpenIff(cfg, next, steps[1..]);
      } else {
        assert !AlwaysOpen(cfg, next, steps[1..]);
      }
    }
  }

  lemma {:induction false} OpenAtEnd(cfg: Config, w: World, steps: seq<Step>)
    requires LegalSteps(cfg, w.books, steps) && AlwaysOpen(cfg, w, steps)
    ensures AllOpen(WorldAfter(cfg, w, steps))
    decreases |steps|
  {
    hide AllOpen, Enabled, BooksAfter, FilterAfter, NatTableAfter;
    if steps != [] {
      OpenAtEnd(cfg, Stepped(cfg, w, steps[0]), steps[1..]);
    }
  }

  lemma {:induction false} WholeAtEnd(cfg: Config, w: World, steps: seq<Step>)
    requires LegalSteps(cfg, w.books, steps) && AlwaysWhole(cfg, w.books, steps)
    ensures AllWhole(WorldAfter(cfg, w, steps).books)
    decreases |steps|
  {
    hide AllWhole, Enabled, BooksAfter, FilterAfter, NatTableAfter;
    if steps != [] {
      WholeAtEnd(cfg, Stepped(cfg, w, steps[0]), steps[1..]);
    }
  }

  lemma {:induction false} TidyAtEnd(cfg: Config, w: World, steps: seq<Step>)
    requires Proper(cfg) && Sound(cfg, w) && Tidy(w) && LegalSteps(cfg, w.books, steps)
    ensures Tidy(WorldAfter(cfg, w, steps))
    decreases |steps|
  {
    hide Sound, Tidy, Enabled, BooksAfter, FilterAfter, NatTableAfter;
    if steps != [] {
      StepKeepsTidy(cfg, w, steps[0]);
      StepKeepsSound(cfg, w, steps[0]);
      TidyAtEnd(cfg, Stepped(cfg, w, steps[0]), steps[1..]);
    }
  }

  // From the start.

  /** FORWARD has no accept rule for a single port of a single address yet. */
  ghost predicate PlainForward(host: Table) {
    forall r :: r in Chain(host, FORWARD) ==> !PortShaped(r)
  }

  lemma StartIsTidy(cfg: Config, host: Table, nat_: Table, hooks: seq<string>)
    requires CleanHost(host) && PlainForward(host) && Legal({}, Event.Ensure(hooks))
    ensures Tidy(Startup(host, nat_, hooks)) && AllOpen(Startup(host, nat_, hooks))
  {
    hide EnsureTable, PortShaped, PortRule, EnsuredChain;
    var w := Startup(host, nat_, hooks);
    assert NOTHING.live.Values == {};
    EnsureHeads(host, hooks);
    EnsureEffect(host, hooks);
    forall r | r in w.filter[FORWARD] ensures !PortShaped(r) {
      StartRule(host, hooks, r);
    }
  }

  lemma StartRule(host: Table, hooks: seq<string>, r: Rule)
    requires PlainForward(host) && FORWARD in host && r in EnsuredChain(hooks, FORWARD, host[FORWARD])
    ensures !PortShaped(r)
  {
    hide EnsuredChain;
    Between.EnsuredJumps(hooks, FORWARD, host[FORWARD], r);
  }

  /** Every claim in the run found the store free of its keys. */
  ghost predicate FreshClaims(cfg: Config, steps: seq<Step>)
    requires LegalSteps(cfg, NOTHING, steps)
  {
    PP.LegalRun(cfg.mode, PP.START, PortRun(cfg, NOTHING, steps))
      && PP.ClaimsFresh(cfg.mode, PP.START, PortRun(cfg, NOTHING, steps))
  }

  /** It did whenever the check cannot be overtaken or misled. */
  lemma SureChecksClaimFresh(cfg: Config, steps: seq<Step>)
    requires LegalSteps(cfg, NOTHING, steps) && PP.Sure(cfg.mode)
    ensures FreshClaims(cfg, steps)
  {
    PortRunIsRun(cfg, World(map[], map[], NOTHING), steps);
    PP.SureClaimsAreFresh(cfg.mode, PortRun(cfg, NOTHING, steps));
  }

  /** With fresh claims the saved sandboxes' ports are apart. */
  lemma FreshClaimsApart(cfg: Config, w: World, steps: seq<Step>)
    requires w.books == NOTHING && LegalSteps(cfg, NOTHING, steps) && FreshClaims(cfg, steps)
    requires Linked(WorldAfter(cfg, w, steps).books)
    ensures PortsApart(WorldAfter(cfg, w, steps).books.store)
  {
    hide PP.Enabled, PP.Effect, PP.Books, Enabled, BooksAfter, FilterAfter, NatTableAfter, KeysOf;
    var run := PortRun(cfg, NOTHING, steps);
    PortRunIsRun(cfg, w, steps);
    PP.AlwaysUniqueIff(cfg.mode, run);
    PP.UniqueAtEnd(cfg.mode, PP.START, run);
    UniqueIsApart(WorldAfter(cfg, w, steps).books);
  }

  lemma UniqueIsApart(b: Books)
    requires Linked(b) && PP.Unique(b.ports)
    ensures PortsApart(b.store)
  {
    hide KeysOf;
    forall x, y, k | x in b.store && y in b.store && k in KeysOf(b.store[x].ports) && k in KeysOf(b.store[y].ports)
      ensures x == y
    {
      assert k in KeyStore(b.store)[x] && k in KeyStore(b.store)[y];
      assert PP.Owns(b.ports, x, k) && PP.Owns(b.ports, y, k);
    }
  }

  /** The packet once it has been translated. */
  function Rewritten(q: Packet, ip: nat, port: int): Packet {
    q.(dst := ip, dport := port, dstLocal := false)
  }

  /** In every run from a clean host in which claims are fresh, sweeps spare what is at stake and policies
      are removed only where no one else has the address and a port: a packet from outside the sandboxes to
      a host port of a sandbox saved as running is translated to it and then accepted in FORWARD. */
  lemma RunningServes(cfg: Config, host: Table, nat_: Table, hooks: seq<string>, steps: seq<Step>,
                      id: string, i: nat, q: Packet, depth: nat)
    requires Proper(cfg) && CleanHost(host) && PlainForward(host) && Legal({}, Event.Ensure(hooks))
               && NatHolds(nat_, map[])
    requires LegalSteps(cfg, NOTHING, steps)
    requires FreshClaims(cfg, steps) && SweepsSpare(cfg, NOTHING, steps) && CleanupsSpare(cfg, NOTHING, steps)
    requires var w := WorldAfter(cfg, Startup(host, nat_, hooks), steps);
      && RunningSaved(ViewOf(w.books, id)) && i < |w.books.store[id].ports|
      && KeyOf(w.books.store[id].ports[i]) == Key(q.dport, q.proto)
      && TrimSpace(w.books.store[id].ports[i].protocol) == w.books.store[id].ports[i].protocol
      && ForeignPass(w.nat_, PREROUTING, q, depth) && depth > 0
      && forall x :: x in w.books.live ==> q.src != w.books.live[x].ip
    ensures var w := WorldAfter(cfg, Startup(host, nat_, hooks), steps);
      var r := w.books.store[id];
      && r.ip.Some?
      && Eval(w.nat_, Chain(w.nat_, PREROUTING), q, depth) == Some(Translated(r.ip.value, r.ports[i].containerPort))
      && Eval(w.filter, Chain(w.filter, FORWARD), Rewritten(q, r.ip.value, r.ports[i].containerPort), depth)
         == Some(Accepted)
  {
    hide Sound, Tidy, AllOpen, AllWhole, Enabled, BooksAfter, FilterAfter, NatTableAfter, NatHolds, FreshClaims,
         ForeignPass,
         PlainForward, CleanHost, PortsApart, Linked;
    var w0 := Startup(host, nat_, hooks);
    StartIsSound(cfg, host, nat_, hooks);
    StartIsTidy(cfg, host, nat_, hooks);
    StartIsWhole(cfg);
    AlwaysWholeIff(cfg, NOTHING, steps);
    WholeAtEnd(cfg, w0, steps);
    AlwaysOpenIff(cfg, w0, steps);
    OpenAtEnd(cfg, w0, steps);
    StepsKeepSound(cfg, w0, steps);
    var w := WorldAfter(cfg, w0, steps);
    SoundParts(cfg, w);
    FreshClaimsApart(cfg, w0, steps);
    RunningTranslated(cfg, w, id, i, q, depth);
    RunningPasses(cfg, w, id, i, q, depth);
  }

  lemma StartIsWhole(cfg: Config)
    ensures AllInOrder(cfg, NOTHING) && AllWhole(NOTHING)
  {
  }

  lemma SoundParts(cfg: Config, w: World)
    requires Sound(cfg, w)
    ensures Linked(w.books)
  {
  }

  lemma RunningPasses(cfg: Config, w: World, id: string, i: nat, q: Packet, depth: nat)
    requires Sound(cfg, w) && AllOpen(w) && RunningSaved(ViewOf(w.books, id)) && depth > 0
    requires i < |w.books.store[id].ports| && KeyOf(w.books.store[id].ports[i]) == Key(q.dport, q.proto)
    requires TrimSpace(w.books.store[id].ports[i].protocol) == w.books.store[id].ports[i].protocol
    requires forall x :: x in w.books.live ==> q.src != w.books.live[x].ip
    ensures var r := w.books.store[id];
      r.ip.Some? &&
      Eval(w.filter, Chain(w.filter, FORWARD), Rewritten(q, r.ip.value, r.ports[i].containerPort), depth)
        == Some(Accepted)
  {
    hide NatHolds, PortsInOrder, Open, Eval, NormalizeProto, FilterProto, TrimSpace, PortsOk, Filled, NoLeftovers;
    var r := w.books.store[id];
    assert InOrder(cfg, id, ViewOf(w.books, id));
    var n := w.books.live[id];
    FilterProtoAgrees(r.ports[i].protocol);
    assert n.ports[i] == PublishedPort(r.ports[i].containerPort, r.ports[i].protocol);
    forall m | m in w.books.live.Values ensures q.src != m.ip {
      var x :| x in w.books.live && w.books.live[x] == m;
    }
    PublishedReachable(w.filter, w.books.live.Values, n, i, Rewritten(q, r.ip.value, r.ports[i].containerPort), depth);
  }

  // One run in which an address is handed on.

  lemma {:induction false} SpareSnoc(cfg: Config, w: World, steps: seq<Step>, s: Step)
    requires LegalSteps(cfg, w.books, steps) && Enabled(cfg, WorldAfter(cfg, w, steps).books, s)
    requires !CleanupSpares(cfg, WorldAfter(cfg, w, steps).books, s)
    ensures LegalSteps(cfg, w.books, steps + [s]) && !CleanupsSpare(cfg, w.books, steps + [s])
    decreases |steps|
  {
    hide Enabled, BooksAfter, FilterAfter, NatTableAfter, CleanupSpares;
    OneStepMore(cfg, w, steps, s);
    if steps == [] {
      assert [] + [s] == [s] && [s][1..] == [];
    } else {
      assert (steps + [s])[1..] == steps[1..] + [s];
      SpareSnoc(cfg, Stepped(cfg, w, steps[0]), steps[1..], s);
    }
  }

  /** What is left of sandbox `a` once its provision has failed at address 1. */
  ghost predicate FirstGone(b: Books) {
    && b.live == map[] && b.pubs == map[] && b.jobs == map[]
    && b.ports == PP.State(map["a" := {Key(5000, "tcp")}], map[], map[], None)
    && b.store.Keys == {"a"} && b.store["a"].ip == Some(1) && b.store["a"].ports == RequestFor("a", 5000).ports
  }

  lemma FirstGivesUp(cfg: Config, w: World) returns (steps: seq<Step>, b: Books)
    requires cfg == SomeHost(Bare) && w.books == NOTHING
    ensures Leads(cfg, w, steps, b) && FirstGone(b)
  {
    hide Leads, Acceptable, KeysOf, FailRecord, Reserve, Release, PP.NoneReserved, PP.StorePasses;
    var id, req := "a", RequestFor("a", 5000);
    var r := NewRecord(req, 0);
    var keys := KeysOf(req.ports);
    RequestForIsFine(id, 5000);
    StartLeads(cfg, w);
    NothingHeld(cfg.mode, id, keys);
    steps := CreationCourse(cfg, w, [], NOTHING, req);
    b := Created(NOTHING, req);
    steps := AddressCourse(cfg, w, steps, b, id, r, 1);
    b := Addressed(b, id, r, 1);
    steps := FailCourse(cfg, w, steps, b, id, r.(ip := Some(1)));
    FailKeepsIdentity(r.(ip := Some(1)), r.error, 0);
    b := GivenUp(b, id, r.(ip := Some(1)));
    steps := ReleaseCourse(cfg, w, steps, b, id);
    b := Released(b, id);
    ReleaseUndoesReserveIff(map[], id, keys);
    assert NOTHING.jobs[id := Starting(r)][id := Resolved(r.(ip := Some(1)))] - {id} == map[];
    assert PP.START.jobs[id := PP.Creation(PP.Saved, keys)] - {id} == map[];
  }

  /** Sandbox `b` has its policy at the same address, and nobody is at work on `a`. */
  ghost predicate SecondIn(b: Books) {
    && "b" in b.live && b.live["b"].ip == 1 && b.live["b"].ports == [PublishedPort(80, "tcp")]
    && "a" !in b.live && b.pubs == map[] && LockFree(b, "a")
    && "a" in b.store && b.store["a"].ip == Some(1) && b.store["a"].ports == RequestFor("a", 5000).ports
  }

  lemma SecondMovesIn(cfg: Config, w: World, steps: seq<Step>, b: Books) returns (more: seq<Step>, b': Books)
    requires cfg == SomeHost(Bare) && Leads(cfg, w, steps, b) && FirstGone(b)
    ensures Leads(cfg, w, more, b') && SecondIn(b')
  {
    hide Leads, Acceptable, KeysOf, Reserve;
    var id, req := "b", RequestFor("b", 5001);
    var r := NewRecord(req, 0);
    assert "a"[0] != "b"[0];
    RequestForIsFine(id, 5001);
    more := CreationCourse(cfg, w, steps, b, req);
    b' := Created(b, req);
    more := PolicyCourse(cfg, w, more, b', id, r, 1);
    b' := PolicyIn(cfg, b', id, r.(ip := Some(1)));
  }

  lemma HandOverCourse(cfg: Config, w: World) returns (steps: seq<Step>)
    requires cfg == SomeHost(Bare) && w.books == NOTHING
    ensures LegalSteps(cfg, w.books, steps)
    ensures Enabled(cfg, WorldAfter(cfg, w, steps).books, CleanPolicy("a"))
    ensures !CleanupSpares(cfg, WorldAfter(cfg, w, steps).books, CleanPolicy("a"))
  {
    hide FirstGone;
    var b;
    steps, b := FirstGivesUp(cfg, w);
    steps, b := SecondMovesIn(cfg, w, steps, b);
    steps := RemovalCourse(cfg, w, steps, b);
  }

  lemma DeletionStarts(cfg: Config, b: Books)
    requires cfg == SomeHost(Bare) && SecondIn(b)
    ensures Enabled(cfg, b, BeginDelete("a", 0))
    ensures var deleting := BooksAfter(cfg, b, BeginDelete("a", 0));
      deleting.live == b.live && "a" in deleting.jobs
      && deleting.jobs["a"] == Cleaning(WithPhase(b.store["a"], Deleting, "", 0), true)
  {
    hide NetOf;
  }

  lemma PortsGoFirst(cfg: Config, b: Books, r: Record)
    requires "a" in b.jobs && b.jobs["a"] == Cleaning(r, true)
    ensures Enabled(cfg, b, CleanDnat("a"))
    ensures var unpublished := BooksAfter(cfg, b, CleanDnat("a"));
      unpublished.live == b.live && Enabled(cfg, unpublished, CleanPolicy("a")) && unpublished.jobs["a"].sbx == r
  {
  }

  lemma StillShared(cfg: Config, b: Books, unpublished: Books, r: Record)
    requires cfg == SomeHost(Bare) && SecondIn(b) && r == WithPhase(b.store["a"], Deleting, "", 0)
    requires Enabled(cfg, unpublished, CleanPolicy("a")) && unpublished.jobs["a"].sbx == r && unpublished.live == b.live
    ensures !CleanupSpares(cfg, unpublished, CleanPolicy("a"))
  {
    hide NetOf, SharesPort, Moved;
    SharedEighty(b.live["b"], PublishedOf(r.ports));
  }

  lemma RemovalCourse(cfg: Config, w: World, steps: seq<Step>, b: Books) returns (more: seq<Step>)
    requires cfg == SomeHost(Bare) && Leads(cfg, w, steps, b) && SecondIn(b)
    ensures LegalSteps(cfg, w.books, more)
    ensures Enabled(cfg, WorldAfter(cfg, w, more).books, CleanPolicy("a"))
    ensures !CleanupSpares(cfg, WorldAfter(cfg, w, more).books, CleanPolicy("a"))
  {
    hide Leads, NetOf, SharesPort, Ready, Moved, PortsAfter, PP.Enabled, PP.Effect;
    var r := WithPhase(b.store["a"], Deleting, "", 0);
    DeletionStarts(cfg, b);
    var deleting := BooksAfter(cfg, b, BeginDelete("a", 0));
    more := Go(cfg, w, steps, b, BeginDelete("a", 0), deleting);
    PortsGoFirst(cfg, deleting, r);
    var unpublished := BooksAfter(cfg, deleting, CleanDnat("a"));
    more := Go(cfg, w, more, deleting, CleanDnat("a"), unpublished);
    Arrived(cfg, w, more, unpublished);
    StillShared(cfg, b, unpublished, r);
  }

  lemma SharedEighty(n: Net, ports: seq<PublishedPort>)
    requires n.ip == 1 && n.ports == [PublishedPort(80, "tcp")] && |ports| == 1 && ports[0] == PublishedPort(80, "tcp")
    ensures SharesPort(n, 1, ports)
  {
    assert n.ports[0].containerPort == ports[0].containerPort;
  }

  /** A sandbox whose provision failed at an address that another one with the same container port has since
      been given: removing the first closes the second one's port. */
  lemma StaleRemovalHappens() returns (steps: seq<Step>)
    ensures var cfg, w := SomeHost(Bare), Startup(EMPTY_FILTER, EMPTY_NAT, []);
      LegalSteps(cfg, NOTHING, steps) && !AlwaysOpen(cfg, w, steps)
  {
    hide Leads, Acceptable, KeysOf, NatHolds, Guarded, EnsureTable, PortsInOrder, AllOpen, Tidy, BooksAfter, Enabled,
         FilterAfter, NatTableAfter, CleanupSpares, Sound;
    var cfg, w := SomeHost(Bare), Startup(EMPTY_FILTER, EMPTY_NAT, []);
    EmptyHost();
    SomeHostIsProper(Bare);
    StartIsSound(cfg, EMPTY_FILTER, EMPTY_NAT, []);
    StartIsTidy(cfg, EMPTY_FILTER, EMPTY_NAT, []);
    steps := HandOverCourse(cfg, w);
    var s := CleanPolicy("a");
    SpareSnoc(cfg, w, steps, s);
    steps := steps + [s];
    AlwaysOpenIff(cfg, w, steps);
  }
}
