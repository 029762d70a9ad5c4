/** What is saved and installed for a sandbox, in every run, against the request that created it. */
module Origins {
  import opened Text
  import opened Rules
  import opened Tables
  import opened Firewall
  import opened Policy
  import opened History
  import opened Nat
  import opened Published
  import opened Requests
  import opened Ports
  import opened Sandboxes
  import opened Lifecycle
  import opened Lookup
  import opened Sweeps
  import opened Serving
  import PP = PortProtocol

  /** The requests the saved sandboxes were created by, one step later. */
  function OriginsNext(cfg: Config, b: Books, origins: map<string, Request>, s: Step): map<string, Request>
    requires Ready(cfg, b, s)
  {
    match s
    case Create(req, _) => origins[req.id := req]
    case EndCleanup(id) => if b.jobs[id].drop then origins - {id} else origins
    case _ => origins
  }

  /** The requests behind the saved sandboxes after a run. */
  ghost function OriginsAfter(cfg: Config, b: Books, origins: map<string, Request>, steps: seq<Step>)
    : map<string, Request>
    requires LegalSteps(cfg, b, steps)
    decreases |steps|
  {
    if steps == [] then origins
    else OriginsAfter(cfg, BooksAfter(cfg, b, steps[0]), OriginsNext(cfg, b, origins, steps[0]), steps[1..])
  }

  predicate Asked(r: Record, req: Request) {
    r.id == req.id && r.egress == req.egress && r.ports == req.ports
  }

  predicate NetAsked(n: Net, req: Request) {
    && n.id == req.id && n.egress == req.egress && |n.ports| == |req.ports|
    && forall i :: 0 <= i < |req.ports| ==>
         n.ports[i].containerPort == req.ports[i].containerPort && n.ports[i].protocol == req.ports[i].protocol
  }

  /** Of one sandbox: saved exactly while there is a request behind it, and saved state, working copy and
      installed policy are as that request says. */
  predicate TrueTo(origin: Option<Request>, v: View) {
    && (v.saved.Some? <==> origin.Some?)
    && (v.saved.Some? ==> Asked(v.saved.value, origin.value))
    && (v.work.Some? ==> origin.Some? && Asked(v.work.value.sbx, origin.value))
    && (v.live.Some? ==> origin.Some? && NetAsked(v.live.value, origin.value))
  }

  ghost predicate AllTrue(origins: map<string, Request>, b: Books) {
    forall id :: TrueTo(Lifecycle.Find(origins, id), ViewOf(b, id))
  }

  lemma ProvisionTrue(cfg: Config, b: Books, origin: Option<Request>, s: Step, id: string)
    requires InOrder(cfg, id, ViewOf(b, id)) && TrueTo(origin, ViewOf(b, id))
    requires Ready(cfg, b, s) && Actor(s) == Some(id)
    requires s.SaveRunning? || s.SaveFails? || s.Fail?
    ensures TrueTo(origin, ViewOf(Moved(cfg, b, s), id))
  {
    hide RefreshRecord, PortsOk, Backed, Staged, Visits, NetAsked;
    if !s.Fail? {
      RefreshKeepsIdentity(b.jobs[id].sbx, s.obs, s.now, s.order);
    }
  }

  lemma CleanerTrue(cfg: Config, b: Books, origins: map<string, Request>, s: Step, id: string)
    requires InOrder(cfg, id, ViewOf(b, id)) && Ready(cfg, b, s) && Actor(s) == Some(id) && TearingDown(s)
    requires TrueTo(Lifecycle.Find(origins, id), ViewOf(b, id))
    ensures TrueTo(Lifecycle.Find(OriginsNext(cfg, b, origins, s), id), ViewOf(Moved(cfg, b, s), id))
  {
    hide PortsOk, Backed, NetAsked;
  }

  lemma OtherTrue(cfg: Config, b: Books, origins: map<string, Request>, s: Step, id: string)
    requires InOrder(cfg, id, ViewOf(b, id)) && Ready(cfg, b, s) && Actor(s) == Some(id) && !TearingDown(s)
    requires !s.SaveRunning? && !s.SaveFails? && !s.Fail?
    requires TrueTo(Lifecycle.Find(origins, id), ViewOf(b, id))
    ensures TrueTo(Lifecycle.Find(OriginsNext(cfg, b, origins, s), id), ViewOf(Moved(cfg, b, s), id))
  {
    hide PortsOk, Backed, Plan, Acceptable;
  }

  lemma StepKeepsTrue(cfg: Config, b: Books, origins: map<string, Request>, s: Step)
    requires AllInOrder(cfg, b) && AllTrue(origins, b) && Enabled(cfg, b, s)
    ensures AllTrue(OriginsNext(cfg, b, origins, s), BooksAfter(cfg, b, s))
  {
    hide InOrder, TrueTo, Ready, Moved, ViewOf, OriginsNext;
    var next := OriginsNext(cfg, b, origins, s);
    forall id ensures TrueTo(Lifecycle.Find(next, id), ViewOf(BooksAfter(cfg, b, s), id)) {
      assert InOrder(cfg, id, ViewOf(b, id)) && TrueTo(Lifecycle.Find(origins, id), ViewOf(b, id));
      SameView(Moved(cfg, b, s), BooksAfter(cfg, b, s), id);
      if Actor(s) != Some(id) {
        OriginElsewhere(cfg, b, origins, s, id);
        OthersTrue(cfg, b, Lifecycle.Find(origins, id), s, id);
      } else if s.SaveRunning? || s.SaveFails? || s.Fail? {
        OriginElsewhere(cfg, b, origins, s, id);
        ProvisionTrue(cfg, b, Lifecycle.Find(origins, id), s, id);
      } else if TearingDown(s) {
        CleanerTrue(cfg, b, origins, s, id);
      } else {
        OtherTrue(cfg, b, origins, s, id);
      }
    }
  }

  lemma SameView(a: Books, b: Books, id: string)
    requires a.live == b.live && a.pubs == b.pubs && a.store == b.store && a.jobs == b.jobs
    ensures ViewOf(a, id) == ViewOf(b, id)
  {
  }

  lemma OriginElsewhere(cfg: Config, b: Books, origins: map<string, Request>, s: Step, id: string)
    requires Ready(cfg, b, s) && (Actor(s) != Some(id) || s.SaveRunning? || s.SaveFails? || s.Fail?)
    ensures Lifecycle.Find(OriginsNext(cfg, b, origins, s), id) == Lifecycle.Find(origins, id)
  {
  }

  lemma OthersTrue(cfg: Config, b: Books, origin: Option<Request>, s: Step, id: string)
    requires Ready(cfg, b, s) && Actor(s) != Some(id) && TrueTo(origin, ViewOf(b, id))
    ensures TrueTo(origin, ViewOf(Moved(cfg, b, s), id))
  {
    hide Ready, Moved;
    if s.SweepNat? {
      SweepTrue(cfg, b, origin, s.keep, id);
    } else {
      OthersUntouched(cfg, b, s, id);
    }
  }

  lemma SweepTrue(cfg: Config, b: Books, origin: Option<Request>, keep: set<string>, id: string)
    requires TrueTo(origin, ViewOf(b, id))
    ensures TrueTo(origin, ViewOf(Moved(cfg, b, SweepNat(keep)), id))
  {
  }

  lemma {:induction false} RunKeepsTrue(cfg: Config, w: World, origins: map<string, Request>, steps: seq<Step>)
    requires Proper(cfg) && Sound(cfg, w) && AllTrue(origins, w.books) && LegalSteps(cfg, w.books, steps)
    ensures AllTrue(OriginsAfter(cfg, w.books, origins, steps), WorldAfter(cfg, w, steps).books)
    decreases |steps|
  {
    hide Ready, PP.Enabled, BooksAfter, FilterAfter, NatTableAfter, TrueTo, OriginsNext, Sound;
    if steps != [] {
      SoundOrder(cfg, w);
      StepKeepsTrue(cfg, w.books, origins, steps[0]);
      StepKeepsSound(cfg, w, steps[0]);
      var next := Stepped(cfg, w, steps[0]);
      RunKeepsTrue(cfg, next, OriginsNext(cfg, w.books, origins, steps[0]), steps[1..]);
    }
  }

  lemma SoundOrder(cfg: Config, w: World)
    requires Sound(cfg, w)
    ensures AllInOrder(cfg, w.books)
  {
  }

  /** The verdict a sandbox with or without egress is due for a packet it sends out. */
  predicate PassesOut(egress: bool, bridge: Cidr, p: Packet) {
    || p.established
    || (egress && p.proto in {"udp", "tcp"} && p.dport == 53)
    || (egress && !p.dstLocal && !bridge.Has(p.dst) && !Blocked(p.dst))
  }

  /** In every run from a clean host, every saved sandbox has the egress setting and the ports of the request
      that created it, and so has the policy installed for it; one saved as running, and not being removed, is
      let out exactly as its request says. */
  lemma RunsServeRequests(cfg: Config, host: Table, nat_: Table, hooks: seq<string>, steps: seq<Step>, id: string,
                          p: Packet, depth: nat)
    requires Proper(cfg) && CleanHost(host) && Legal({}, Event.Ensure(hooks)) && NatHolds(nat_, map[])
    requires LegalSteps(cfg, NOTHING, steps) && depth >= 2 && p.dst < 0x1_0000_0000
    ensures var b := WorldAfter(cfg, Startup(host, nat_, hooks), steps).books;
      var origins := OriginsAfter(cfg, NOTHING, map[], steps);
      && (id in b.store <==> id in origins)
      && (id in b.store ==>
            b.store[id].id == origins[id].id && b.store[id].egress == origins[id].egress
            && b.store[id].ports == origins[id].ports)
      && (id in b.live ==> id in origins && NetAsked(b.live[id], origins[id]))
    ensures var w := WorldAfter(cfg, Startup(host, nat_, hooks), steps);
      var origins := OriginsAfter(cfg, NOTHING, map[], steps);
      RunningSaved(ViewOf(w.books, id)) ==>
        && id in origins && w.books.store[id].ip.Some?
        && (w.books.store[id].ip == Some(p.src) ==>
              Eval(w.filter, Chain(w.filter, FORWARD), p, depth)
              == Some(if PassesOut(origins[id].egress, cfg.bridge, p) then Accepted else Rejected))
  {
    hide Sound, LegalSteps, WorldAfter, OriginsAfter, CleanHost, NatHolds, Eval, NetAsked, PassesOut;
    var w0 := Startup(host, nat_, hooks);
    StartIsSound(cfg, host, nat_, hooks);
    RunKeepsTrue(cfg, w0, map[], steps);
    StepsKeepSound(cfg, w0, steps);
    var w, origins := WorldAfter(cfg, w0, steps), OriginsAfter(cfg, NOTHING, map[], steps);
    assert TrueTo(Lifecycle.Find(origins, id), ViewOf(w.books, id));
    if RunningSaved(ViewOf(w.books, id)) {
      RunningPolicy(cfg, w, id, p, depth);
      LetOut(cfg, w, origins, id, p);
    }
  }

  lemma LetOut(cfg: Config, w: World, origins: map<string, Request>, id: string, p: Packet)
    requires Sound(cfg, w) && id in w.books.live && TrueTo(Lifecycle.Find(origins, id), ViewOf(w.books, id))
    ensures ForwardPolicy(w.books.live[id], p)
         == if PassesOut(origins[id].egress, cfg.bridge, p) then Accepted else Rejected
  {
    hide Guarded, NatHolds, PortsInOrder, Cidr.BlockSize;
    assert InOrder(cfg, id, ViewOf(w.books, id));
    CidrIsInterval(cfg.bridge, p.dst);
  }

  /** The verdict a sandbox with these ports is due for a packet it sends to the host itself. */
  predicate PassesIn(ports: seq<PortMapping>, p: Packet) {
    || p.established
    || exists i :: 0 <= i < |ports| && p.proto == FilterProto(ports[i].protocol) && p.sport == ports[i].containerPort
  }

  /** A packet that reaches the host over the configured bridge from a sandbox saved as running is let in exactly
      when it answers on one of the container ports the request named. */
  lemma RunsAnswerRequests(cfg: Config, host: Table, nat_: Table, hooks: seq<string>, steps: seq<Step>, id: string,
                           p: Packet, depth: nat)
    requires Proper(cfg) && CleanHost(host) && Legal({}, Event.Ensure(hooks)) && NatHolds(nat_, map[])
    requires LegalSteps(cfg, NOTHING, steps) && depth >= 2 && p.inIf == cfg.bridgeIf
    ensures var w := WorldAfter(cfg, Startup(host, nat_, hooks), steps);
      var origins := OriginsAfter(cfg, NOTHING, map[], steps);
      RunningSaved(ViewOf(w.books, id)) ==>
        && id in origins
        && (w.books.store[id].ip == Some(p.src) ==>
              Eval(w.filter, Chain(w.filter, INPUT), p, depth)
              == Some(if PassesIn(origins[id].ports, p) then Accepted else Rejected))
  {
    hide Sound, LegalSteps, WorldAfter, OriginsAfter, CleanHost, NatHolds, Eval, NetAsked, PassesIn;
    var w0 := Startup(host, nat_, hooks);
    StartIsSound(cfg, host, nat_, hooks);
    RunKeepsTrue(cfg, w0, map[], steps);
    StepsKeepSound(cfg, w0, steps);
    var w, origins := WorldAfter(cfg, w0, steps), OriginsAfter(cfg, NOTHING, map[], steps);
    assert TrueTo(Lifecycle.Find(origins, id), ViewOf(w.books, id));
    if RunningSaved(ViewOf(w.books, id)) && w.books.store[id].ip == Some(p.src) {
      LetIn(cfg, w, origins[id], id, p, depth);
    }
  }

  lemma LetIn(cfg: Config, w: World, req: Request, id: string, p: Packet, depth: nat)
    requires Sound(cfg, w) && RunningSaved(ViewOf(w.books, id)) && TrueTo(Some(req), ViewOf(w.books, id))
    requires w.books.store[id].ip == Some(p.src) && p.inIf == cfg.bridgeIf && depth >= 2
    ensures Eval(w.filter, Chain(w.filter, INPUT), p, depth)
         == Some(if PassesIn(req.ports, p) then Accepted else Rejected)
  {
    hide Guarded, NatHolds, PortsInOrder, Eval, FilterProto;
    assert InOrder(cfg, id, ViewOf(w.books, id));
    var n := w.books.live[id];
    InputVerdict(w.filter, w.books.live.Values, n, p, depth);
    assert NetAsked(n, req);
  }

  /** And where claims are fresh and sweeps and removals spare the others, a packet from outside to a host port
      the request asked for reaches the container port it was asked for. */
  lemma RequestedPortsServed(cfg: Config, host: Table, nat_: Table, hooks: seq<string>, steps: seq<Step>,
                             id: string, i: nat, q: Packet, depth: nat)
    requires Proper(cfg) && CleanHost(host) && PlainForward(host) && Legal({}, Event.Ensure(hooks))
    requires NatHolds(nat_, map[]) && LegalSteps(cfg, NOTHING, steps)
    requires FreshClaims(cfg, steps) && SweepsSpare(cfg, NOTHING, steps) && CleanupsSpare(cfg, NOTHING, steps)
    requires var w := WorldAfter(cfg, Startup(host, nat_, hooks), steps);
      var origins := OriginsAfter(cfg, NOTHING, map[], steps);
      && RunningSaved(ViewOf(w.books, id)) && id in origins && i < |origins[id].ports|
      && KeyOf(origins[id].ports[i]) == Key(q.dport, q.proto)
      && TrimSpace(origins[id].ports[i].protocol) == origins[id].ports[i].protocol
      && ForeignPass(w.nat_, PREROUTING, q, depth) && depth > 0
      && forall x :: x in w.books.live ==> q.src != w.books.live[x].ip
    ensures var w := WorldAfter(cfg, Startup(host, nat_, hooks), steps);
      var origins := OriginsAfter(cfg, NOTHING, map[], steps);
      var ip, port := w.books.store[id].ip, origins[id].ports[i].containerPort;
      && ip.Some?
      && Eval(w.nat_, Chain(w.nat_, PREROUTING), q, depth) == Some(Translated(ip.value, port))
      && Eval(w.filter, Chain(w.filter, FORWARD), Rewritten(q, ip.value, port), depth) == Some(Accepted)
  {
    hide Sound, LegalSteps, WorldAfter, OriginsAfter, CleanHost, NatHolds, Eval, NetAsked, FreshClaims, SweepsSpare,
         CleanupsSpare, PlainForward, ForeignPass, Rewritten, KeyOf, TrimSpace;
    var w0 := Startup(host, nat_, hooks);
    StartIsSound(cfg, host, nat_, hooks);
    RunKeepsTrue(cfg, w0, map[], steps);
    var w, origins := WorldAfter(cfg, w0, steps), OriginsAfter(cfg, NOTHING, map[], steps);
    assert TrueTo(Lifecycle.Find(origins, id), ViewOf(w.books, id));
    RunningServes(cfg, host, nat_, hooks, steps, id, i, q, depth);
  }
}
