/** Orphan sweeps with lists of any age: exactly when every sandbox saved as running keeps its ports. */
module Sweeps {
  import opened Rules
  import opened Tables
  import opened Firewall
  import opened History
  import opened Nat
  import opened Published
  import opened Requests
  import opened Ports
  import opened Sandboxes
  import opened Lifecycle
  import opened Courses
  import PP = PortProtocol

  /** All that should be published is: what a provision has come to, and every port of a sandbox saved as
      running. */
  predicate Whole(v: View) {
    && (v.work.Some? && v.work.value.Policed? ==>
          var fs := ForwardsOf(v.work.value.sbx.ports);
          v.work.value.published <= |fs| && Forwarded(v) == fs[..v.work.value.published])
    && (RunningSaved(v) ==> Forwarded(v) == ForwardsOf(v.saved.value.ports))
  }

  ghost predicate AllWhole(b: Books) {
    forall id :: Whole(ViewOf(b, id))
  }

  /** A provision past its policy, or a sandbox saved as running that is not being removed. */
  predicate AtStake(v: View) {
    (v.work.Some? && v.work.value.Policed?) || RunningSaved(v)
  }

  /** The list holds every sandbox at stake that has a port published; over a quoting listing a sweep
      removes nothing. */
  ghost predicate Spares(cfg: Config, b: Books, keep: set<string>) {
    cfg.listing.Bare? ==>
      forall id :: id in b.pubs && b.pubs[id].forwards != [] && AtStake(ViewOf(b, id)) ==> id in keep
  }

  /** A sweep leaves all that should be published in place exactly when its list, however old, holds every
      sandbox at stake. */
  lemma SweepKeepsWholeIff(cfg: Config, b: Books, keep: set<string>)
    requires AllWhole(b)
    ensures AllWhole(Moved(cfg, b, SweepNat(keep))) <==> Spares(cfg, b, keep)
  {
    hide ForwardsOf;
    var after := Moved(cfg, b, SweepNat(keep));
    forall id
      ensures Whole(ViewOf(after, id)) <==>
                (cfg.listing.Bare? && id in b.pubs && b.pubs[id].forwards != [] && AtStake(ViewOf(b, id)) ==>
                  id in keep)
    {
      SweptView(cfg, b, keep, id);
    }
  }

  lemma SweptView(cfg: Config, b: Books, keep: set<string>, id: string)
    requires Whole(ViewOf(b, id))
    ensures Whole(ViewOf(Moved(cfg, b, SweepNat(keep)), id)) <==>
              (cfg.listing.Bare? && id in b.pubs && b.pubs[id].forwards != [] && AtStake(ViewOf(b, id)) ==> id in keep)
  {
    hide ForwardsOf;
  }

  lemma ActorWhole(cfg: Config, b: Books, s: Step, id: string)
    requires InOrder(cfg, id, ViewOf(b, id)) && Whole(ViewOf(b, id)) && Ready(cfg, b, s) && !s.SweepNat?
    requires Actor(s) == Some(id)
    ensures Whole(ViewOf(Moved(cfg, b, s), id))
  {
    hide InOrder, Whole, Ready, Moved;
    if s.SaveRunning? || s.SaveFails? || s.Fail? {
      SaverWhole(cfg, b, s, id);
    } else if s.ApplyPolicy? {
      PolicyWhole(cfg, b, id, s.nameservers);
    } else if s.PublishNext? {
      PublisherWhole(cfg, b, id);
    } else if TearingDown(s) {
      RemoverWhole(cfg, b, s, id);
    } else {
      OtherWhole(cfg, b, s, id);
    }
  }

  lemma SaverWhole(cfg: Config, b: Books, s: Step, id: string)
    requires InOrder(cfg, id, ViewOf(b, id)) && Whole(ViewOf(b, id)) && Ready(cfg, b, s) && Actor(s) == Some(id)
    requires s.SaveRunning? || s.SaveFails? || s.Fail?
    ensures Whole(ViewOf(Moved(cfg, b, s), id))
  {
    hide RefreshRecord, PortsOk, PublishedOf, NetOf, Visits;
    if !s.Fail? {
      RefreshKeepsIdentity(b.jobs[id].sbx, s.obs, s.now, s.order);
    }
  }

  lemma PolicyWhole(cfg: Config, b: Books, id: string, nameservers: seq<Cidr>)
    requires InOrder(cfg, id, ViewOf(b, id)) && Whole(ViewOf(b, id)) && Ready(cfg, b, ApplyPolicy(id, nameservers))
    ensures Whole(ViewOf(Moved(cfg, b, ApplyPolicy(id, nameservers)), id))
  {
    hide PortsOk, PublishedOf, NetOf, Stretch;
  }

  lemma PublisherWhole(cfg: Config, b: Books, id: string)
    requires InOrder(cfg, id, ViewOf(b, id)) && Whole(ViewOf(b, id)) && Ready(cfg, b, PublishNext(id))
    ensures Whole(ViewOf(Moved(cfg, b, PublishNext(id)), id))
  {
    hide PortsOk, NetOf, Backed, Stretch;
    var r, n := b.jobs[id].sbx, b.jobs[id].published;
    var fs := ForwardsOf(r.ports);
    assert Forwarded(ViewOf(Moved(cfg, b, PublishNext(id)), id)) == Forwarded(ViewOf(b, id)) + [fs[n]];
    assert fs[..n + 1] == fs[..n] + [fs[n]];
  }

  lemma RemoverWhole(cfg: Config, b: Books, s: Step, id: string)
    requires InOrder(cfg, id, ViewOf(b, id)) && Whole(ViewOf(b, id)) && Ready(cfg, b, s) && Actor(s) == Some(id)
    requires TearingDown(s)
    ensures Whole(ViewOf(Moved(cfg, b, s), id))
  {
    hide PortsOk, ForwardsOf, Backed, Staged;
  }

  lemma OtherWhole(cfg: Config, b: Books, s: Step, id: string)
    requires InOrder(cfg, id, ViewOf(b, id)) && Whole(ViewOf(b, id)) && Ready(cfg, b, s) && Actor(s) == Some(id)
    requires !Installing(s) && !TearingDown(s)
    ensures Whole(ViewOf(Moved(cfg, b, s), id))
  {
    hide PortsOk, PublishedOf, NetOf, ForwardsOf, Backed, Stretch;
  }

  lemma StepKeepsWhole(cfg: Config, b: Books, s: Step)
    requires AllInOrder(cfg, b) && AllWhole(b) && Ready(cfg, b, s) && !s.SweepNat?
    ensures AllWhole(Moved(cfg, b, s))
  {
    hide InOrder, Whole, Ready, Moved, ViewOf, Actor;
    forall id ensures Whole(ViewOf(Moved(cfg, b, s), id)) {
      assert InOrder(cfg, id, ViewOf(b, id)) && Whole(ViewOf(b, id));
      if Actor(s) == Some(id) {
        ActorWhole(cfg, b, s, id);
      } else {
        OthersUntouched(cfg, b, s, id);
      }
    }
  }

  lemma StepWholeIff(cfg: Config, b: Books, s: Step)
    requires AllInOrder(cfg, b) && AllWhole(b) && Enabled(cfg, b, s)
    ensures AllWhole(BooksAfter(cfg, b, s)) <==> (s.SweepNat? ==> Spares(cfg, b, s.keep))
  {
    hide InOrder, Whole, Ready, Moved, Spares, PortsAfter, PP.Enabled;
    SameWhole(Moved(cfg, b, s), BooksAfter(cfg, b, s));
    SameWhole(BooksAfter(cfg, b, s), Moved(cfg, b, s));
    if s.SweepNat? {
      SweepKeepsWholeIff(cfg, b, s.keep);
    } else {
      StepKeepsWhole(cfg, b, s);
    }
  }

  lemma SameWhole(a: Books, b: Books)
    requires a.live == b.live && a.pubs == b.pubs && a.store == b.store && a.jobs == b.jobs
    ensures AllWhole(a) ==> AllWhole(b)
  {
    hide Whole;
    forall id ensures ViewOf(a, id) == ViewOf(b, id) { }
  }

  // Runs.

  ghost predicate AlwaysWhole(cfg: Config, b: Books, steps: seq<Step>)
    requires LegalSteps(cfg, b, steps)
    decreases |steps|
  {
    AllWhole(b) && (steps != [] ==> AlwaysWhole(cfg, BooksAfter(cfg, b, steps[0]), steps[1..]))
  }

  ghost predicate SweepsSpare(cfg: Config, b: Books, steps: seq<Step>)
    requires LegalSteps(cfg, b, steps)
    decreases |steps|
  {
    steps != [] ==>
      && (steps[0].SweepNat? ==> Spares(cfg, b, steps[0].keep))
      && SweepsSpare(cfg, BooksAfter(cfg, b, steps[0]), steps[1..])
  }

  lemma StepKeepsOrder(cfg: Config, b: Books, s: Step)
    requires AllInOrder(cfg, b) && Enabled(cfg, b, s)
    ensures AllInOrder(cfg, BooksAfter(cfg, b, s))
  {
    hide InOrder, Ready, Moved, PortsAfter, PP.Enabled;
    BooksStayInOrder(cfg, b, s);
    SameViews(cfg, Moved(cfg, b, s), BooksAfter(cfg, b, s));
  }

  /** In a whole run everything that should be published always is, exactly when every sweep in it holds
      every sandbox at stake when it happens. */
  lemma {:induction false} AlwaysWholeIff(cfg: Config, b: Books, steps: seq<Step>)
    requires AllInOrder(cfg, b) && AllWhole(b) && LegalSteps(cfg, b, steps)
    ensures AlwaysWhole(cfg, b, steps) <==> SweepsSpare(cfg, b, steps)
    decreases |steps|
  {
    hide AllInOrder, AllWhole, Enabled, BooksAfter, Spares;
    if steps != [] {
      var next := BooksAfter(cfg, b, steps[0]);
      StepWholeIff(cfg, b, steps[0]);
      StepKeepsOrder(cfg, b, steps[0]);
      if AllWhole(next) {
        AlwaysWholeIff(cfg, next, steps[1..]);
      } else {
        assert !AlwaysWhole(cfg, next, steps[1..]);
      }
    }
  }

  /** A sandbox saved as running has its address, its policy and all its ports in place until its removal
      starts. */
  predicate RunningInstalled(v: View) {
    RunningSaved(v) ==>
      v.live.Some? && v.saved.value.ip == Some(v.live.value.ip) && Forwarded(v) == ForwardsOf(v.saved.value.ports)
  }

  ghost predicate AlwaysInstalled(cfg: Config, b: Books, steps: seq<Step>)
    requires LegalSteps(cfg, b, steps)
    decreases |steps|
  {
    && (forall id :: RunningInstalled(ViewOf(b, id)))
    && (steps != [] ==> AlwaysInstalled(cfg, BooksAfter(cfg, b, steps[0]), steps[1..]))
  }

  predicate NoSweeps(steps: seq<Step>) {
    forall i :: 0 <= i < |steps| ==> !steps[i].SweepNat?
  }

  /** Whatever happens from here without another sweep, sandboxes saved as running are installed. */
  ghost predicate Lasting(cfg: Config, b: Books) {
    forall more :: LegalSteps(cfg, b, more) && NoSweeps(more) ==> AlwaysInstalled(cfg, b, more)
  }

  ghost predicate LastingThroughout(cfg: Config, b: Books, steps: seq<Step>)
    requires LegalSteps(cfg, b, steps)
    decreases |steps|
  {
    Lasting(cfg, b) && (steps != [] ==> LastingThroughout(cfg, BooksAfter(cfg, b, steps[0]), steps[1..]))
  }

  lemma {:induction false} WholeIsInstalled(cfg: Config, b: Books, more: seq<Step>)
    requires AllInOrder(cfg, b) && AllWhole(b) && LegalSteps(cfg, b, more) && NoSweeps(more)
    ensures AlwaysInstalled(cfg, b, more)
    decreases |more|
  {
    hide InOrder, Enabled, BooksAfter, Spares, Whole, RunningInstalled, ViewOf;
    forall id ensures RunningInstalled(ViewOf(b, id)) {
      assert InOrder(cfg, id, ViewOf(b, id)) && Whole(ViewOf(b, id));
      OneInstalled(cfg, id, ViewOf(b, id));
    }
    if more != [] {
      StepWholeIff(cfg, b, more[0]);
      StepKeepsOrder(cfg, b, more[0]);
      WholeIsInstalled(cfg, BooksAfter(cfg, b, more[0]), more[1..]);
    }
  }

  lemma OneInstalled(cfg: Config, id: string, v: View)
    requires InOrder(cfg, id, v) && Whole(v)
    ensures RunningInstalled(v)
  {
  }

  /** Publishing the `k` ports that are left and saving as running. */
  function FinishSteps(id: string, order: seq<string>, k: nat): seq<Step> {
    if k == 0 then [SaveRunning(id, map[], order, 0)] else [PublishNext(id)] + FinishSteps(id, order, k - 1)
  }

  /** A provision that lost a published port still goes on to be saved as running. */
  /** One more port published does not make up for those swept away. */
  lemma LostStill(cfg: Config, b: Books, id: string)
    requires id in b.jobs && b.jobs[id].Policed? && b.jobs[id].published < |b.jobs[id].sbx.ports|
    requires |Forwarded(ViewOf(b, id))| < b.jobs[id].published
    ensures Enabled(cfg, b, PublishNext(id))
    ensures var next := BooksAfter(cfg, b, PublishNext(id));
      && id in next.jobs && next.jobs[id] == Policed(b.jobs[id].sbx, b.jobs[id].published + 1)
      && |Forwarded(ViewOf(next, id))| < next.jobs[id].published
  {
    hide NetOf;
  }

  lemma {:induction false} LosingRun(cfg: Config, b: Books, id: string, order: seq<string>, k: nat)
    requires id in b.jobs && b.jobs[id].Policed? && b.jobs[id].published + k == |b.jobs[id].sbx.ports|
    requires |Forwarded(ViewOf(b, id))| < b.jobs[id].published && Visits(order, b.jobs[id].sbx.containers.Keys)
    ensures var more := FinishSteps(id, order, k);
      LegalSteps(cfg, b, more) && NoSweeps(more) && !AlwaysInstalled(cfg, b, more)
    decreases k
  {
    hide Visits, Ready, Moved, RefreshRecord, WithPhase, NetOf, Forwarded, ViewOf;
    var more := FinishSteps(id, order, k);
    if k == 0 {
      LostAtEnd(cfg, b, id, order);
      assert more[1..] == [];
    } else {
      assert more[1..] == FinishSteps(id, order, k - 1);
      LostStill(cfg, b, id);
      LosingRun(cfg, BooksAfter(cfg, b, more[0]), id, order, k - 1);
    }
  }

  lemma LostAtEnd(cfg: Config, b: Books, id: string, order: seq<string>)
    requires id in b.jobs && b.jobs[id].Policed? && b.jobs[id].published == |b.jobs[id].sbx.ports|
    requires |Forwarded(ViewOf(b, id))| < b.jobs[id].published && Visits(order, b.jobs[id].sbx.containers.Keys)
    ensures Enabled(cfg, b, SaveRunning(id, map[], order, 0))
    ensures !RunningInstalled(ViewOf(BooksAfter(cfg, b, SaveRunning(id, map[], order, 0)), id))
  {
    hide Visits, RefreshRecord, NetOf;
    RefreshKeepsIdentity(b.jobs[id].sbx, map[], 0, order);
  }

  /** Where something that should be published is not, some course of events without a sweep leads to a
      sandbox that is saved as running and not all published. */
  lemma LastingIsWhole(cfg: Config, b: Books)
    requires AllInOrder(cfg, b) && Lasting(cfg, b)
    ensures AllWhole(b)
  {
    hide InOrder, Visits, NetOf, PortsOk, RefreshRecord;
    forall id ensures Whole(ViewOf(b, id)) {
      assert InOrder(cfg, id, ViewOf(b, id));
      assert AlwaysInstalled(cfg, b, []);
      if !Whole(ViewOf(b, id)) {
        PolicedLost(cfg, b, id);
        var r := b.jobs[id].sbx;
        var order := SomeVisit(r.containers.Keys);
        LosingRun(cfg, b, id, order, |r.ports| - b.jobs[id].published);
        assert false;
      }
    }
  }

  lemma PolicedLost(cfg: Config, b: Books, id: string)
    requires InOrder(cfg, id, ViewOf(b, id)) && RunningInstalled(ViewOf(b, id)) && !Whole(ViewOf(b, id))
    ensures id in b.jobs && b.jobs[id].Policed? && b.jobs[id].published <= |b.jobs[id].sbx.ports|
    ensures |Forwarded(ViewOf(b, id))| < b.jobs[id].published
  {
    hide PortsOk, NetOf;
  }

  /** In every branch of a run sandboxes saved as running are installed, address, policy and all ports,
      exactly when every sweep in the run holds every sandbox at stake when it happens. */
  lemma {:induction false} RunningInstalledIff(cfg: Config, b: Books, steps: seq<Step>)
    requires AllInOrder(cfg, b) && AllWhole(b) && LegalSteps(cfg, b, steps)
    ensures LastingThroughout(cfg, b, steps) <==> SweepsSpare(cfg, b, steps)
    decreases |steps|
  {
    hide AllInOrder, AllWhole, Enabled, BooksAfter, Spares, AlwaysInstalled, NoSweeps;
    forall more | LegalSteps(cfg, b, more) && NoSweeps(more) ensures AlwaysInstalled(cfg, b, more) {
      WholeIsInstalled(cfg, b, more);
    }
    if steps != [] {
      var next := BooksAfter(cfg, b, steps[0]);
      StepWholeIff(cfg, b, steps[0]);
      StepKeepsOrder(cfg, b, steps[0]);
      if AllWhole(next) {
        RunningInstalledIff(cfg, next, steps[1..]);
      } else if Lasting(cfg, next) {
        LastingIsWhole(cfg, next);
        assert false;
      }
    }
  }

  // One run in which a sweep comes too late.

  lemma PublishedBooks(cfg: Config, b: Books, id: string, r: Record)
    requires id in b.jobs && b.jobs[id] == Policed(r, 0) && r.ports != [] && r.ip.Some? && id !in b.pubs
    ensures Enabled(cfg, b, PublishNext(id))
    ensures BooksAfter(cfg, b, PublishNext(id))
         == b.(pubs := b.pubs[id := Pub(r.ip.value, [ForwardsOf(r.ports)[0]])], jobs := b.jobs[id := Policed(r, 1)])
  {
    assert [] + [ForwardsOf(r.ports)[0]] == [ForwardsOf(r.ports)[0]];
  }

  /** Published, swept by a list that has nothing in it, saved as running. */
  lemma SweptCourse(cfg: Config, w: World, steps: seq<Step>, b: Books, id: string, r: Record) returns (more: seq<Step>)
    requires Leads(cfg, w, steps, b) && cfg.listing.Bare?
    requires id in b.jobs && b.jobs[id] == Policed(r, 0) && |r.ports| == 1 && r.ip.Some? && b.pubs == map[]
    ensures LegalSteps(cfg, w.books, more)
    ensures var end := WorldAfter(cfg, w, more).books;
      && end.pubs == map[] && id !in end.jobs && id in end.store
      && end.store[id].phase == Running && end.store[id].ports == r.ports
  {
    hide Leads, NetOf, ForwardsOf, BooksAfter, Enabled;
    PublishedBooks(cfg, b, id, r);
    var published := BooksAfter(cfg, b, PublishNext(id));
    more := Go(cfg, w, steps, b, PublishNext(id), published);
    var swept := published.(pubs := map[]);
    NothingKept(cfg, published);
    more := Go(cfg, w, more, published, SweepNat({}), swept);
    more := SavedCourse(cfg, w, more, swept, id, r);
  }

  lemma NothingKept(cfg: Config, b: Books)
    requires cfg.listing.Bare?
    ensures Enabled(cfg, b, SweepNat({})) && BooksAfter(cfg, b, SweepNat({})) == b.(pubs := map[])
  {
    assert Kept(b.pubs, {}) == map[];
  }

  lemma SavedCourse(cfg: Config, w: World, steps: seq<Step>, b: Books, id: string, r: Record) returns (more: seq<Step>)
    requires Leads(cfg, w, steps, b) && id in b.jobs && b.jobs[id] == Policed(r, |r.ports|)
    ensures LegalSteps(cfg, w.books, more)
    ensures var end := WorldAfter(cfg, w, more).books;
      && end.pubs == b.pubs && id !in end.jobs && id in end.store
      && end.store[id].phase == Running && end.store[id].ports == r.ports
  {
    hide NetOf, RefreshRecord, Visits;
    var order := SomeVisit(r.containers.Keys);
    var save := SaveRunning(id, map[], order, 0);
    RefreshKeepsIdentity(r, map[], 0, order);
    more := Go(cfg, w, steps, b, save, BooksAfter(cfg, b, save));
  }

  lemma PolicedFirst(cfg: Config, req: Request, ip: nat)
    ensures var id, r := req.id, NewRecord(req, 0);
      && Created(NOTHING, req).jobs == map[id := Starting(r)] && Created(NOTHING, req).live == map[]
      && r.(ip := Some(ip)).ports == req.ports
      && var b := PolicyIn(cfg, Created(NOTHING, req), id, r.(ip := Some(ip)));
         b.pubs == map[] && id in b.jobs && b.jobs[id] == Policed(r.(ip := Some(ip)), 0)
  {
    hide NetOf, KeysOf, Reserve;
  }

  /** From an empty host: a sandbox publishes its port, a sweep whose list was made before its creation
      removes the rule, and the sandbox is saved as running with nothing published. */
  lemma StaleSweepHappens() returns (steps: seq<Step>)
    ensures LegalSteps(SomeHost(Bare), NOTHING, steps)
    ensures var w := WorldAfter(SomeHost(Bare), Startup(EMPTY_FILTER, EMPTY_NAT, []), steps);
      && "a" in w.books.store && "a" !in w.books.jobs && w.books.store["a"].phase == Running
      && w.books.store["a"].ports == [PortMapping(5000, 80, "tcp")]
      && forall c, r :: c in {PREROUTING, OUTPUT} && r in Chain(w.nat_, c) ==> TagOf(c, r) == ""
  {
    hide Leads, Acceptable, KeysOf, Created, PolicyIn, TagOf, NewRecord, NatHolds, Guarded, EnsureTable, PortsInOrder;
    var cfg, w, req := SomeHost(Bare), Startup(EMPTY_FILTER, EMPTY_NAT, []), RequestFor("a", 5000);
    RequestForIsFine("a", 5000);
    StartLeads(cfg, w);
    NothingHeld(cfg.mode, "a", KeysOf(req.ports));
    PolicedFirst(cfg, req, 1);
    var r := NewRecord(req, 0);
    steps := CreationCourse(cfg, w, [], NOTHING, req);
    steps := PolicyCourse(cfg, w, steps, Created(NOTHING, req), "a", r, 1);
    steps := SweptCourse(cfg, w, steps, PolicyIn(cfg, Created(NOTHING, req), "a", r.(ip := Some(1))), "a",
      r.(ip := Some(1)));
    EmptyHost();
    SomeHostIsProper(Bare);
    AnyRunIsSound(cfg, EMPTY_FILTER, EMPTY_NAT, [], steps);
    NothingTagged(WorldAfter(cfg, w, steps).nat_);
  }

  lemma NothingTagged(t: Table)
    requires NatHolds(t, map[])
    ensures forall c, r :: c in {PREROUTING, OUTPUT} && r in Chain(t, c) ==> TagOf(c, r) == ""
  {
    hide TagOf;
    ChainsDiffer();
  }
}
