/** The operations on sandboxes as they run under a sandbox's lock: each is a run of lifecycle steps. */
module Service {
  import opened Rules
  import opened Tables
  import opened Firewall
  import opened History
  import opened Nat
  import opened Published
  import opened Publishing
  import opened Requests
  import opened Ports
  import opened Sandboxes
  import opened Lifecycle
  import opened Debounce
  import PP = PortProtocol
  import Commands
  import opened Serving

  /** The recorded steps lead from a sound start to `w`. */
  ghost predicate Reached(cfg: Config, start: World, trace: seq<Step>, w: World) {
    Sound(cfg, start) && LegalSteps(cfg, start.books, trace) && WorldAfter(cfg, start, trace) == w
  }

  lemma ReachedNext(cfg: Config, start: World, trace: seq<Step>, w: World, s: Step)
    requires Reached(cfg, start, trace, w) && Enabled(cfg, w.books, s)
    ensures Reached(cfg, start, trace + [s], Stepped(cfg, w, s))
  {
    hide Sound, Enabled, Stepped;
    OneStepMore(cfg, start, trace, s);
  }

  lemma ReachedRun(cfg: Config, start: World, trace: seq<Step>, w: World, more: seq<Step>)
    requires Reached(cfg, start, trace, w) && LegalSteps(cfg, w.books, more)
    ensures Reached(cfg, start, trace + more, WorldAfter(cfg, w, more))
  {
    hide Sound, LegalSteps, WorldAfter;
    StepsConcat(cfg, start, trace, more);
  }

  lemma ReachedSound(cfg: Config, start: World, trace: seq<Step>, w: World)
    requires Proper(cfg) && Reached(cfg, start, trace, w)
    ensures Sound(cfg, w)
  {
    hide Sound;
    StepsKeepSound(cfg, start, trace);
  }

  function PublishSteps(id: string, n: nat): seq<Step> {
    if n == 0 then [] else PublishSteps(id, n - 1) + [PublishNext(id)]
  }

  /** Publishing the ports one by one is what one call of the publisher does, and it succeeds. */
  lemma {:induction false} PublishRun(cfg: Config, w: World, id: string, r: Record, n: nat)
    requires Proper(cfg) && Sound(cfg, w) && id in w.books.jobs && w.books.jobs[id] == Policed(r, 0) && n <= |r.ports|
    ensures LegalSteps(cfg, w.books, PublishSteps(id, n))
    ensures var v := WorldAfter(cfg, w, PublishSteps(id, n));
      && v.filter == w.filter && v.books == w.books.(pubs := v.books.pubs, jobs := w.books.jobs[id := Policed(r, n)])
      && PublishTable(w.nat_, id, Address(r), ForwardsOf(r.ports)[..n]) == Nat.Outcome(v.nat_, true)
  {
    hide Sound, PublishOne, ForwardsOf, Enabled, BooksAfter, FilterAfter, NatTableAfter;
    if n == 0 {
      assert ForwardsOf(r.ports)[..0] == [];
      assert w.books.jobs == w.books.jobs[id := Policed(r, 0)];
    } else {
      PublishRun(cfg, w, id, r, n - 1);
      var steps := PublishSteps(id, n - 1);
      var v := WorldAfter(cfg, w, steps);
      StepsKeepSound(cfg, w, steps);
      PublishOneOk(cfg, v, id, r);
      OneStepMore(cfg, w, steps, PublishNext(id));
      assert ForwardsOf(r.ports)[..n][..n - 1] == ForwardsOf(r.ports)[..n - 1];
    }
  }

  lemma PublishOneOk(cfg: Config, w: World, id: string, r: Record)
    requires Sound(cfg, w) && id in w.books.jobs && w.books.jobs[id].Policed? && w.books.jobs[id].sbx == r
    requires w.books.jobs[id].published < |r.ports|
    ensures Enabled(cfg, w.books, PublishNext(id))
    ensures var v, n := Stepped(cfg, w, PublishNext(id)), w.books.jobs[id].published;
      && v.filter == w.filter
      && v.books == w.books.(pubs := v.books.pubs, jobs := w.books.jobs[id := Policed(r, n + 1)])
      && |ForwardsOf(r.ports)| == |r.ports|
      && PublishOne(w.nat_, id, Address(r), ForwardsOf(r.ports)[n]) == Nat.Outcome(v.nat_, true)
  {
    hide AllInOrder, Guarded, PortsInOrder;
  }

  /** Name look-ups at each of these resolvers are let out of the sandbox, over both protocols. */
  ghost predicate ResolversIn(t: Table, short: string, nameservers: seq<Cidr>) {
    forall i, proto :: 0 <= i < |nameservers| && proto in {"udp", "tcp"} ==>
      Commands.Holds(Chain(t, "SBX-" + short + "-FWD"),
                     ["-d", CidrText(nameservers[i]), "-p", proto, "--dport", "53", "-j", "ACCEPT"])
  }

  lemma ResolversApplied(cfg: Config, w: World, n: Net)
    requires Sound(cfg, w)
    ensures ResolversIn(ApplyTable(w.filter, n).table, n.short, if n.egress then n.nameservers else [])
  {
    hide ApplyTable, Commands.Holds, CidrText, AllInOrder, NatHolds;
    var t := w.filter;
    forall i, proto | n.egress && 0 <= i < |n.nameservers| && proto in {"udp", "tcp"}
      ensures Commands.Holds(Chain(ApplyTable(t, n).table, "SBX-" + n.short + "-FWD"),
                             ["-d", CidrText(n.nameservers[i]), "-p", proto, "--dport", "53", "-j", "ACCEPT"])
    {
      Commands.ResolverAllowed(t, n, i, proto);
    }
  }

  /** One container's creation: the state that came back, or the error. */
  datatype Made = Made(name: string, state: ContainerState, failure: Option<string>)

  /** What the outside answers while a sandbox is provisioned. */
  datatype Runtime = Runtime(vm: bool, made: seq<Made>, ip: Option<nat>, nameservers: seq<Cidr>, ready: bool,
                             obs: map<string, Observation>, saved: bool)

  /** The machine or a container cannot be created. */
  predicate Blocked(rt: Runtime) {
    !rt.vm || exists i :: 0 <= i < |rt.made| && rt.made[i].failure.Some?
  }

  /** What no stage of a provision changes. */
  predicate SameRequest(a: Record, b: Record) {
    a.id == b.id && a.egress == b.egress && a.ports == b.ports && a.createdAt == b.createdAt
  }

  /** The first container that cannot be created. */
  predicate FirstFailing(made: seq<Made>, i: int) {
    0 <= i < |made| && made[i].failure.Some? && forall j :: 0 <= j < i ==> made[j].failure.None?
  }

  /** The last container under this name among the first `n` that came back. */
  predicate LastMade(made: seq<Made>, n: int, i: int, name: string) {
    0 <= i < n <= |made| && made[i].name == name && forall j :: i < j < n ==> made[j].name != name
  }

  /** The container states once the first `n` have come back: under each of their names the last that came back,
      under every other name the planned one. */
  ghost predicate BuiltFrom(planned: map<string, ContainerState>, made: seq<Made>, n: int,
                            built: map<string, ContainerState>) {
    && 0 <= n <= |made|
    && (forall i, name :: LastMade(made, n, i, name) ==> name in built && built[name] == made[i].state)
    && forall name :: (forall i :: 0 <= i < n ==> made[i].name != name) ==>
         (name in built <==> name in planned) && (name in built ==> built[name] == planned[name])
  }

  lemma BuiltNext(planned: map<string, ContainerState>, made: seq<Made>, n: int, built: map<string, ContainerState>)
    requires BuiltFrom(planned, made, n, built) && n < |made|
    ensures BuiltFrom(planned, made, n + 1, built[made[n].name := made[n].state])
  {
    forall i, name | LastMade(made, n + 1, i, name) && i < n
      ensures LastMade(made, n, i, name) && name != made[n].name
    {
      assert made[n].name != name;
    }
  }

  lemma NothingBuilt(planned: map<string, ContainerState>, made: seq<Made>)
    ensures BuiltFrom(planned, made, 0, planned)
  {
  }

  /** What a provision that succeeds saves of the containers: those that came back, as then observed. */
  ghost predicate ShownAs(saved: Record, rt: Runtime, now: int, r: Record) {
    saved.phase == Creating ==>
      exists built :: BuiltFrom(saved.containers, rt.made, |rt.made|, built)
                      && r.containers == Refreshed(saved.(containers := built), rt.obs, now)
  }

  lemma RefreshedSame(a: Record, b: Record, obs: map<string, Observation>, now: int)
    requires a.containers == b.containers && a.phase == b.phase && a.createdAt == b.createdAt
    ensures Refreshed(a, obs, now) == Refreshed(b, obs, now)
  {
    hide RefreshOne, Observed;
  }

  /** The error text a failed provision leaves: that of the first container that could not be created; without
      one the text saved before, unless the sandbox had got as far as being saved as running; and a text of its
      own in place of an empty one. */
  ghost predicate LeavesError(before: string, rt: Runtime, error: string) {
    if rt.vm && exists i :: 0 <= i < |rt.made| && rt.made[i].failure.Some? then
      forall i :: FirstFailing(rt.made, i) ==>
        error == if rt.made[i].failure.value != "" then rt.made[i].failure.value else "provision failed"
    else if !rt.vm || rt.ip.None? || !rt.ready then error == if before != "" then before else "provision failed"
    else error == "provision failed"
  }

  lemma NoMachineError(before: string, rt: Runtime)
    requires !rt.vm
    ensures LeavesError(before, rt, if before != "" then before else "provision failed")
  {
  }

  lemma ContainerFailureError(before: string, rt: Runtime, text: string)
    requires rt.vm && exists i :: 0 <= i < |rt.made| && rt.made[i].failure.Some?
    requires forall i :: FirstFailing(rt.made, i) ==> rt.made[i].failure == Some(text)
    ensures LeavesError(before, rt, if text != "" then text else "provision failed")
  {
    hide FirstFailing;
  }

  lemma NetworkError(before: string, rt: Runtime)
    requires rt.vm && forall i :: 0 <= i < |rt.made| ==> rt.made[i].failure.None?
    ensures LeavesError(before, rt, if (rt.ip.Some? && rt.ready) || before == "" then "provision failed" else before)
  {
  }

  /** How a background provision of `saved` leaves it: running without an error text, or failed with the text
      of its error, of which an empty one leaves the text the provision saved. */
  ghost predicate EndsAs(saved: Record, rt: Runtime, message: string, now: int, r: Record) {
    if !Blocked(rt) && rt.ip.Some? && rt.ready && rt.saved then
      r.phase == Running && r.ip == rt.ip && r.error == "" && ShownAs(saved, rt, now, r)
    else r.phase == Failed && if message != "" then r.error == message else LeavesError(saved.error, rt, r.error)
  }

  /** What the outside answers before: the two locks, the files, what the runtime still shows of the id, the
      ports local listeners hold, and whether the new state could be saved. */
  datatype Outside = Outside(locked: bool, readable: bool, leftovers: Option<Option<nat>>, portsLocked: bool,
                             listed: Option<seq<Stored>>, busy: set<Key>, saved: bool)

  datatype CreateError =
    | NotLocked
    | Invalid(reason: RequestError)
    | Exists
    | NotReadable
    | PortsNotLocked
    | NotListed
    | PortsUnavailable(why: PortError)
    | NotSaved
    | ProvisionFailed

  datatype DeleteError = LockRefused | LoadFailed | ContainersLeft

  method PickOrder(keys: set<string>) returns (order: seq<string>)
    ensures Visits(order, keys)
  {
    order := [];
    var left := keys;
    while left != {}
      invariant left <= keys && Visits(order, keys - left)
      decreases left
    {
      var key :| key in left;
      left := left - {key};
      order := order + [key];
    }
    assert keys - left == keys;
  }

  class Service {
    const cfg: Config
    const filter: RuleTable
    const nat_: RuleTable
    const book: PortBook
    const debouncer: Debouncer
    var store: map<string, Record>
    ghost var books: Books
    ghost const start: World
    ghost var trace: seq<Step>

    ghost function Now(): World
      reads this, filter, nat_
    {
      World(filter.chains, nat_.chains, books)
    }

    /** The tables, the saved states, the reservations and the work in progress are where the recorded steps
        lead. */
    ghost predicate Valid()
      reads this, filter, nat_, book
    {
      && filter != nat_ && nat_.listing == cfg.listing && cfg.mode == PP.WRITTEN && Proper(cfg)
      && books.store == store && books.ports.reserved == book.reserved
      && Reached(cfg, start, trace, Now())
    }

    constructor (cfg: Config, filter: RuleTable, nat_: RuleTable, book: PortBook, debouncer: Debouncer)
      requires filter != nat_ && nat_.listing == cfg.listing && cfg.mode == PP.WRITTEN && Proper(cfg)
      requires Guarded(filter.chains, {}) && NatHolds(nat_.chains, map[]) && book.reserved == map[]
      ensures Valid() && store == map[] && trace == [] && books == NOTHING
      ensures this.cfg == cfg && this.filter == filter && this.nat_ == nat_ && this.book == book
                && this.debouncer == debouncer
    {
      this.cfg, this.filter, this.nat_, this.book, this.debouncer := cfg, filter, nat_, book, debouncer;
      store, books, trace := map[], NOTHING, [];
      start := World(filter.chains, nat_.chains, NOTHING);
      new;
      assert NOTHING.live.Values == {};
      assert KeyStore(map[]) == map[];
    }

    /** A step that changes no table, no saved state and no reservation. */
    ghost predicate Silent(s: Step)
      reads this, filter, nat_, book
      requires Enabled(cfg, books, s)
    {
      var next := BooksAfter(cfg, books, s);
      Stepped(cfg, Now(), s) == Now().(books := next) && next.store == store && next.ports.reserved == book.reserved
    }

    ghost method Advance(s: Step)
      requires Valid() && Enabled(cfg, books, s) && Silent(s)
      modifies this`books, this`trace
      ensures Valid() && trace == old(trace) + [s] && books == BooksAfter(cfg, old(books), s)
    {
      hide Reached, Enabled, BooksAfter, FilterAfter, NatTableAfter;
      ReachedNext(cfg, start, trace, Now(), s);
      books := BooksAfter(cfg, books, s);
      trace := trace + [s];
    }

    /** A step of the port protocol alone that changes no reservation. */
    ghost method AdvancePorts(act: PP.Action)
      requires Valid() && Alone(books, act) && PP.Enabled(cfg.mode, books.ports, act)
      requires PP.Effect(cfg.mode, books.ports, act).reserved == book.reserved
      requires PP.Effect(cfg.mode, books.ports, act).store == books.ports.store
      modifies this`books, this`trace
      ensures Valid() && trace == old(trace) + [PortStep(act)]
      ensures books == old(books).(ports := PP.Effect(cfg.mode, old(books).ports, act))
    {
      hide Reached, PP.Enabled, PP.Effect;
      Advance(PortStep(act));
    }

    method Save(id: string, r: Record, ghost s: Step)
      requires Valid() && Enabled(cfg, books, s)
      requires Stepped(cfg, Now(), s) == Now().(books := BooksAfter(cfg, books, s))
      requires BooksAfter(cfg, books, s).store == store[id := r]
                 && BooksAfter(cfg, books, s).ports.reserved == book.reserved
      modifies this`store, this`books, this`trace
      ensures Valid() && trace == old(trace) + [s] && books == BooksAfter(cfg, old(books), s)
                && store == old(store)[id := r]
    {
      hide Reached, Enabled, BooksAfter, FilterAfter, NatTableAfter;
      ReachedNext(cfg, start, trace, Now(), s);
      books := BooksAfter(cfg, books, s);
      trace := trace + [s];
      store := store[id := r];
    }

    method ApplySandboxNetworkPolicy(sbx: Record, nameservers: seq<Cidr>) returns (ok: bool)
      requires Valid() && Enabled(cfg, books, ApplyPolicy(sbx.id, nameservers)) && books.jobs[sbx.id].sbx == sbx
      modifies this`books, this`trace, filter
      ensures ok && Valid() && trace == old(trace) + [ApplyPolicy(sbx.id, nameservers)]
      ensures books == BooksAfter(cfg, old(books), ApplyPolicy(sbx.id, nameservers))
      ensures ResolversIn(filter.chains, cfg.short(sbx.id), if sbx.egress then nameservers else [])
    {
      hide ApplyTable, Guarded, NatHolds, AllInOrder, Proper, PortsInOrder, ResolversIn;
      ghost var s := ApplyPolicy(sbx.id, nameservers);
      ReachedSound(cfg, start, trace, Now());
      ApplyPolicyKeepsGuard(cfg, filter.chains, books, sbx.id, nameservers);
      ReachedNext(cfg, start, trace, Now(), s);
      ResolversApplied(cfg, Now(), NetOf(cfg, sbx, nameservers));
      ok := ApplySandboxRules(filter, NetOf(cfg, sbx, nameservers));
      books := BooksAfter(cfg, books, s);
      trace := trace + [s];
    }

    method ApplyHostPortPublish(sbx: Record) returns (ok: bool)
      requires Valid() && sbx.id in books.jobs && books.jobs[sbx.id] == Policed(sbx, 0)
      modifies this`books, this`trace, nat_
      ensures ok && Valid() && trace == old(trace) + PublishSteps(sbx.id, |sbx.ports|)
      ensures books == old(books).(pubs := books.pubs, jobs := old(books).jobs[sbx.id := Policed(sbx, |sbx.ports|)])
    {
      hide Reached, Sound, PublishOne, PublishTable, PublishSteps, LegalSteps, Proper, Enabled, BooksAfter, FilterAfter,
           NatTableAfter;
      ghost var w, steps := Now(), PublishSteps(sbx.id, |sbx.ports|);
      ReachedSound(cfg, start, trace, Now());
      PublishRun(cfg, w, sbx.id, sbx, |sbx.ports|);
      ReachedRun(cfg, start, trace, w, steps);
      assert ForwardsOf(sbx.ports)[..|sbx.ports|] == ForwardsOf(sbx.ports);
      assert sbx.ip.Some? by { PolicedHasAddress(cfg, w, sbx.id); }
      ok := ApplyHostPortDNAT(nat_, sbx.id, sbx.ip.value, ForwardsOf(sbx.ports));
      books := WorldAfter(cfg, w, steps).books;
      trace := trace + steps;
    }

    /** The containers one by one: tells whether one could not be removed. */
    method StopAndDeleteContainers(sbx: Record, stuck: set<string>) returns (ok: bool)
      ensures ok <==> forall name :: name in sbx.containers ==> sbx.containers[name].id !in stuck
    {
      ok := true;
      var names := sbx.containers.Keys;
      while names != {}
        invariant names <= sbx.containers.Keys
        invariant ok <==> forall name :: name in sbx.containers && name !in names ==> sbx.containers[name].id !in stuck
        decreases names
      {
        var name :| name in names;
        names := names - {name};
        ok := ok && sbx.containers[name].id !in stuck;
      }
    }

    /** Everything installed for a sandbox; a container that cannot be removed stops none of it. */
    method DeleteRuntimeArtifacts(sbx: Record, stuck: set<string>) returns (ok: bool)
      requires Valid() && sbx.id in books.jobs && books.jobs[sbx.id].Cleaning? && books.jobs[sbx.id].sbx == sbx
      modifies this`books, this`trace, filter, nat_
      ensures Valid() && trace == old(trace) + [CleanDnat(sbx.id), CleanPolicy(sbx.id)]
      ensures books == old(books).(live := old(books).live - {sbx.id}, pubs := books.pubs,
                                   jobs := old(books).jobs[sbx.id := Cleaned(sbx, old(books).jobs[sbx.id].drop)])
      ensures sbx.id !in books.pubs
      ensures ok <==> forall name :: name in sbx.containers ==> sbx.containers[name].id !in stuck
    {
      hide Reached, Proper, FilterAfter, NatTableAfter, Now;
      ok := StopAndDeleteContainers(sbx, stuck);
      CleanupHostPorts(sbx);
      CleanupSandboxNetworkPolicy(sbx);
    }

    method CleanupHostPorts(sbx: Record)
      requires Valid() && Enabled(cfg, books, CleanDnat(sbx.id)) && books.jobs[sbx.id].sbx == sbx
      modifies this`books, this`trace, nat_
      ensures Valid() && trace == old(trace) + [CleanDnat(sbx.id)]
                && books == BooksAfter(cfg, old(books), CleanDnat(sbx.id))
    {
      hide Reached, CleanedTable, Proper;
      ReachedNext(cfg, start, trace, Now(), CleanDnat(sbx.id));
      CleanupHostPortPublish(nat_, sbx.id, sbx.ip, ForwardsOf(sbx.ports));
      books := BooksAfter(cfg, books, CleanDnat(sbx.id));
      trace := trace + [CleanDnat(sbx.id)];
    }

    method CleanupSandboxNetworkPolicy(sbx: Record)
      requires Valid() && Enabled(cfg, books, CleanPolicy(sbx.id)) && books.jobs[sbx.id].sbx == sbx
      modifies this`books, this`trace, filter
      ensures Valid() && trace == old(trace) + [CleanPolicy(sbx.id)]
                && books == BooksAfter(cfg, old(books), CleanPolicy(sbx.id))
    {
      hide Reached, DeleteTable, Proper;
      ReachedNext(cfg, start, trace, Now(), CleanPolicy(sbx.id));
      if sbx.ip.Some? {
        DeleteSandboxRules(filter, NetOf(cfg, sbx, []));
      }
      books := BooksAfter(cfg, books, CleanPolicy(sbx.id));
      trace := trace + [CleanPolicy(sbx.id)];
    }

    /** How a provision ends: saved as running with its policy installed, or saved with an error text and
        nothing left installed. */
    ghost predicate Ended(id: string, ok: bool)
      reads this
    {
      && id in store && id !in books.jobs
      && if ok then store[id].phase == Running && id in books.live
         else store[id].phase == Failed && store[id].error != "" && id !in books.live && id !in books.pubs
    }

    /** A creation left to the background has saved exactly what was asked for. */
    ghost predicate NewlySaved(req: Request, now: int, before: map<string, Record>)
      reads this`store
    {
      req.id in store && store == before[req.id := store[req.id]] && AsRequested(store[req.id], req, now)
    }

    /** A provision at once has ended, with egress and ports as asked for, the address it was given and no
        error text, or the error text that tells why not. */
    ghost predicate ProvisionedAs(req: Request, rt: Runtime, ok: bool, now: int)
      reads this
    {
      && Ended(req.id, ok)
      && var r := store[req.id];
         && r.id == req.id && r.egress == req.egress && r.ports == req.ports && r.createdAt == now
         && if ok then r.ip == rt.ip && r.error == "" && ShownAs(NewRecord(req, now), rt, now, r)
                       && books.live[req.id].nameservers == rt.nameservers
            else LeavesError("", rt, r.error)
    }

    method SaveFailed(sbx: Record, message: string, now: int) returns (failed: Record)
      requires Valid() && sbx.id in books.jobs && Provisioning(books.jobs[sbx.id]) && books.jobs[sbx.id].sbx == sbx
      requires books.jobs[sbx.id].Building? || message == sbx.error
      modifies this`store, this`books, this`trace
      ensures Valid() && trace == old(trace) + [Fail(sbx.id, message, now)]
      ensures failed == FailRecord(sbx, message, now) && failed.id == sbx.id && failed.phase == Failed
                && failed.error != ""
      ensures store == old(store)[sbx.id := failed]
      ensures books == old(books).(store := store, jobs := old(books).jobs[sbx.id := Cleaning(failed, false)])
    {
      hide Reached, Proper, PP.Enabled, PP.Effect;
      failed := sbx.(error := message);
      failed := WithPhase(failed, Failed, failed.error, now);
      if failed.error == "" {
        failed := failed.(error := "provision failed");
      }
      Save(sbx.id, failed, Fail(sbx.id, message, now));
    }

    method KeepFailed(id: string)
      requires Valid() && id in books.jobs && books.jobs[id].Cleaned? && !books.jobs[id].drop
      modifies this`books, this`trace
      ensures Valid() && trace == old(trace) + [EndCleanup(id)]
      ensures books == old(books).(jobs := old(books).jobs - {id})
    {
      hide Reached, Proper;
      Advance(EndCleanup(id));
    }

    /** A failed provision: its error is saved, then whatever it installed is removed. */
    method FailProvision(sbx: Record, message: string, now: int)
      requires Valid() && sbx.id in books.jobs && Provisioning(books.jobs[sbx.id]) && books.jobs[sbx.id].sbx == sbx
      requires books.jobs[sbx.id].Building? || message == sbx.error
      modifies this, filter, nat_
      ensures Valid() && old(trace) <= trace && Ended(sbx.id, false) && books.ports == old(books).ports
      ensures books.jobs == old(books).jobs - {sbx.id} && store == old(store)[sbx.id := FailRecord(sbx, message, now)]
      ensures store[sbx.id].error == (if message != "" then message else "provision failed")
      ensures SameRequest(store[sbx.id], sbx) && store[sbx.id].ip == sbx.ip && store[sbx.id].updatedAt == now
      ensures store[sbx.id].containers == sbx.containers
    {
      hide Reached, Proper, DeleteTable, CleanedTable, BooksAfter, Now, WithPhase, FailRecord;
      var failed := SaveFailed(sbx, message, now);
      FailRecordFields(sbx, message, now);
      CleanFailed(failed);
    }

    method CleanFailed(failed: Record)
      requires Valid() && failed.id in books.jobs && books.jobs[failed.id] == Cleaning(failed, false)
      requires failed.id in store && store[failed.id] == failed && failed.phase == Failed && failed.error != ""
      modifies this`books, this`trace, filter, nat_
      ensures Valid() && old(trace) <= trace && Ended(failed.id, false) && books.ports == old(books).ports
      ensures books.jobs == old(books).jobs - {failed.id}
    {
      hide Reached, Proper, DeleteTable, CleanedTable, BooksAfter, Now;
      var _ := DeleteRuntimeArtifacts(failed, {});
      KeepFailed(failed.id);
    }

    method KeepContainer(before: Record, name: string, state: ContainerState) returns (sbx: Record)
      requires Valid() && before.id in books.jobs && books.jobs[before.id] == Building(before)
      modifies this`books, this`trace
      ensures Valid() && trace == old(trace) + [Build(sbx.id, name, state)]
      ensures sbx == before.(containers := before.containers[name := state])
      ensures books == old(books).(jobs := old(books).jobs[before.id := Building(sbx)])
    {
      hide Reached, Proper;
      Advance(Build(before.id, name, state));
      sbx := before.(containers := before.containers[name := state]);
    }

    /** Creating the containers: up to the first one that fails. */
    method CreateContainers(start_: Record, made: seq<Made>) returns (sbx: Record, failure: Option<string>)
      requires Valid() && start_.id in books.jobs && books.jobs[start_.id] == Building(start_)
      modifies this`books, this`trace
      ensures Valid() && old(trace) <= trace
      ensures books == old(books).(jobs := old(books).jobs[start_.id := Building(sbx)])
      ensures sbx == start_.(containers := sbx.containers)
      ensures failure.None? <==> forall i :: 0 <= i < |made| ==> made[i].failure.None?
      ensures forall i :: FirstFailing(made, i) ==>
                failure == made[i].failure && BuiltFrom(start_.containers, made, i, sbx.containers)
      ensures failure.None? ==> BuiltFrom(start_.containers, made, |made|, sbx.containers)
    {
      hide Valid, BuiltFrom;
      assert BuiltFrom(start_.containers, made, 0, start_.containers) by { NothingBuilt(start_.containers, made); }
      sbx := start_;
      for i := 0 to |made|
        invariant Valid() && old(trace) <= trace
        invariant books == old(books).(jobs := old(books).jobs[start_.id := Building(sbx)])
        invariant sbx == start_.(containers := sbx.containers)
        invariant forall j :: 0 <= j < i ==> made[j].failure.None?
        invariant BuiltFrom(start_.containers, made, i, sbx.containers)
      {
        if made[i].failure.Some? {
          return sbx, made[i].failure;
        }
        BuiltNext(start_.containers, made, i, sbx.containers);
        sbx := KeepContainer(sbx, made[i].name, made[i].state);
      }
      failure := None;
    }

    method ResolveAddress(start_: Record, ip: nat) returns (sbx: Record)
      requires Valid() && start_.id in books.jobs && books.jobs[start_.id] == Building(start_)
                 && start_.id !in books.live
      modifies this`books, this`trace
      ensures Valid() && old(trace) <= trace
      ensures books == old(books).(jobs := old(books).jobs[start_.id := Resolved(sbx)])
      ensures sbx == start_.(ip := Some(ip))
    {
      hide Reached, Proper;
      Advance(Resolve(start_.id, ip));
      sbx := start_.(ip := Some(ip));
    }

    /** The last step of a provision: the refreshed state is saved as running or, when that fails, as failed. */
    method SaveProvisioned(sbx: Record, obs: map<string, Observation>, saved: bool, now: int) returns (r: Record)
      requires Valid() && sbx.id in books.jobs && books.jobs[sbx.id] == Policed(sbx, |sbx.ports|)
      modifies this`store, this`books, this`trace
      ensures Valid() && old(trace) <= trace && r.id == sbx.id && store == old(store)[sbx.id := r]
      ensures books.live == old(books).live && books.ports == old(books).ports
      ensures if saved then r.phase == Running && r.error == "" && books.jobs == old(books).jobs - {sbx.id}
              else r.phase == Failed && r.error == "provision failed"
                   && books.jobs == old(books).jobs[sbx.id := Cleaning(r, false)]
      ensures SameRequest(r, sbx) && r.ip == sbx.ip && r.containers.Keys == sbx.containers.Keys
      ensures sbx.phase == Creating ==> r.containers == Refreshed(sbx, obs, now)
    {
      hide Valid, RefreshRecord, Refreshed, Visits, WithPhase, FailRecord;
      var order := PickOrder(sbx.containers.Keys);
      r := RefreshRecord(sbx, obs, now, order);
      RefreshKeepsIdentity(sbx, obs, now, order);
      r := WithPhase(r, Running, "", now);
      RunningFields(sbx, obs, order, now);
      if saved {
        SaveAsRunning(sbx, r, obs, order, now);
      } else {
        r := SaveAsFailed(sbx, r, obs, order, now);
      }
    }

    method SaveAsRunning(sbx: Record, r: Record, obs: map<string, Observation>, order: seq<string>, now: int)
      requires Valid() && sbx.id in books.jobs && books.jobs[sbx.id] == Policed(sbx, |sbx.ports|)
      requires Visits(order, sbx.containers.Keys) && r == RunningRecord(sbx, obs, order, now)
      modifies this`store, this`books, this`trace
      ensures Valid() && trace == old(trace) + [SaveRunning(sbx.id, obs, order, now)]
      ensures store == old(store)[sbx.id := r]
      ensures books == old(books).(store := store, jobs := old(books).jobs - {sbx.id})
    {
      hide Reached, Proper, RefreshRecord, Visits;
      Save(sbx.id, r, SaveRunning(sbx.id, obs, order, now));
    }

    method SaveAsFailed(sbx: Record, running: Record, obs: map<string, Observation>, order: seq<string>, now: int)
      returns (r: Record)
      requires Valid() && sbx.id in books.jobs && books.jobs[sbx.id] == Policed(sbx, |sbx.ports|)
      requires Visits(order, sbx.containers.Keys) && running == RunningRecord(sbx, obs, order, now)
      modifies this`store, this`books, this`trace
      ensures Valid() && trace == old(trace) + [SaveFails(sbx.id, obs, order, now)]
      ensures r == running.(phase := Failed, error := "provision failed") && store == old(store)[sbx.id := r]
      ensures books == old(books).(store := store, jobs := old(books).jobs[sbx.id := Cleaning(r, false)])
    {
      hide Reached, Proper, RefreshRecord, Visits;
      r := WithPhase(running, Failed, running.error, now);
      if r.error == "" {
        r := r.(error := "provision failed");
      }
      Save(sbx.id, r, SaveFails(sbx.id, obs, order, now));
    }

    /** From the address on: policy, readiness, published ports, saved as running. */
    method InstallSandbox(sbx: Record, rt: Runtime, now: int) returns (ok: bool)
      requires Valid() && sbx.id in books.jobs && books.jobs[sbx.id] == Resolved(sbx) && sbx.ip.Some?
      requires forall x :: x in books.live ==> books.live[x].ip != sbx.ip.value
      modifies this, filter, nat_
      ensures Valid() && old(trace) <= trace && Ended(sbx.id, ok) && (ok <==> rt.ready && rt.saved)
      ensures books.jobs == old(books).jobs - {sbx.id} && store - {sbx.id} == old(store) - {sbx.id}
      ensures books.ports == old(books).ports && SameRequest(store[sbx.id], sbx) && store[sbx.id].ip == sbx.ip
      ensures store[sbx.id].error
           == if ok then "" else if rt.ready || sbx.error == "" then "provision failed" else sbx.error
      ensures ok ==> sbx.id in books.live && books.live[sbx.id].nameservers == rt.nameservers
      ensures ok && sbx.phase == Creating ==> store[sbx.id].containers == Refreshed(sbx, rt.obs, now)
    {
      hide Reached, Proper, FilterAfter, NatTableAfter, Now, PublishedOf, FailRecord, Ended;
      ok := ApplySandboxNetworkPolicy(sbx, rt.nameservers);
      if !rt.ready {
        FailProvision(sbx, sbx.error, now);
        return false;
      }
      ok := PublishAndSave(sbx, rt, now);
    }

    method PublishAndSave(sbx: Record, rt: Runtime, now: int) returns (ok: bool)
      requires Valid() && sbx.id in books.jobs && books.jobs[sbx.id] == Policed(sbx, 0) && sbx.id in books.live
      modifies this, filter, nat_
      ensures Valid() && old(trace) <= trace && Ended(sbx.id, ok) && (ok <==> rt.saved)
      ensures books.jobs == old(books).jobs - {sbx.id} && store - {sbx.id} == old(store) - {sbx.id}
      ensures books.ports == old(books).ports && SameRequest(store[sbx.id], sbx) && store[sbx.id].ip == sbx.ip
      ensures store[sbx.id].error == if ok then "" else "provision failed"
      ensures ok ==> books.live == old(books).live
      ensures ok && sbx.phase == Creating ==> store[sbx.id].containers == Refreshed(sbx, rt.obs, now)
    {
      hide Valid, PublishSteps;
      ok := ApplyHostPortPublish(sbx);
      var r := SaveProvisioned(sbx, rt.obs, rt.saved, now);
      if !rt.saved {
        CleanFailed(r);
      }
      ok := rt.saved;
    }

    method ProvisionSandboxSync(saved: Record, rt: Runtime, now: int) returns (ok: bool)
      requires Valid() && saved.id in books.jobs && books.jobs[saved.id] == Building(saved)
      requires saved.id in books.live ==> Blocked(rt)
      requires rt.ip.Some? ==> forall x :: x in books.live ==> books.live[x].ip != rt.ip.value
      modifies this, filter, nat_
      ensures Valid() && old(trace) <= trace && Ended(saved.id, ok)
                && (ok <==> !Blocked(rt) && rt.ip.Some? && rt.ready && rt.saved)
      ensures books.jobs == old(books).jobs - {saved.id} && store - {saved.id} == old(store) - {saved.id}
      ensures books.ports == old(books).ports && saved.id in store && SameRequest(store[saved.id], saved)
      ensures if ok then store[saved.id].ip == rt.ip && store[saved.id].error == ""
                         && ShownAs(saved, rt, now, store[saved.id])
                         && saved.id in books.live && books.live[saved.id].nameservers == rt.nameservers
              else LeavesError(saved.error, rt, store[saved.id].error)
    {
      hide Valid, FailRecord, Ended, LeavesError, FirstFailing, BuiltFrom, Refreshed;
      if !rt.vm {
        NoMachineError(saved.error, rt);
        FailProvision(saved, saved.error, now);
        return false;
      }
      var sbx, failure := CreateContainers(saved, rt.made);
      if failure.Some? {
        ContainerFailureError(saved.error, rt, failure.value);
        FailProvision(sbx, failure.value, now);
        return false;
      }
      NetworkError(saved.error, rt);
      ok := ProvisionNetwork(sbx, rt, now);
    }

    /** From the containers on: address, policy, readiness, published ports, saved as running. */
    method ProvisionNetwork(start_: Record, rt: Runtime, now: int) returns (ok: bool)
      requires Valid() && start_.id in books.jobs && books.jobs[start_.id] == Building(start_)
      requires start_.id !in books.live
      requires rt.ip.Some? ==> forall x :: x in books.live ==> books.live[x].ip != rt.ip.value
      modifies this, filter, nat_
      ensures Valid() && old(trace) <= trace && Ended(start_.id, ok) && (ok <==> rt.ip.Some? && rt.ready && rt.saved)
      ensures books.jobs == old(books).jobs - {start_.id} && store - {start_.id} == old(store) - {start_.id}
      ensures books.ports == old(books).ports && start_.id in store && SameRequest(store[start_.id], start_)
      ensures ok ==> store[start_.id].ip == rt.ip
      ensures store[start_.id].error
           == if ok then "" else if (rt.ip.Some? && rt.ready) || start_.error == "" then "provision failed"
              else start_.error
      ensures ok ==> start_.id in books.live && books.live[start_.id].nameservers == rt.nameservers
      ensures ok && start_.phase == Creating ==> store[start_.id].containers == Refreshed(start_, rt.obs, now)
    {
      hide Valid, FailRecord, Refreshed;
      if rt.ip.None? {
        FailProvision(start_, start_.error, now);
        return false;
      }
      var sbx := ResolveAddress(start_, rt.ip.value);
      RefreshedSame(sbx, start_, rt.obs, now);
      ok := InstallSandbox(sbx, rt, now);
    }

    /** What is left of an earlier sandbox of this id, when the runtime still shows some. */
    method CleanupLeftovers(id: string, cached: Option<nat>)
      requires Valid() && id in cfg.ids && id !in store
      modifies this`books, this`trace, filter, nat_
      ensures Valid() && trace == old(trace) + [CleanOrphan(id, cached)] && books == old(books)
      ensures nat_.chains == SweptTable(old(nat_.chains), cfg.listing, Tagged(id))
      ensures filter.chains == match cached
        case None => old(filter.chains)
        case Some(ip) =>
          DeleteTable(old(filter.chains), Net(id, cfg.short(id), ip, cfg.bridge, cfg.bridgeIf, false, [], []))
    {
      hide Reached, DeleteTable, SweptTable, Proper, Guarded, NatHolds;
      ReachedNext(cfg, start, trace, Now(), CleanOrphan(id, cached));
      CleanupHostPortPublish(nat_, id, None, []);
      if cached.Some? {
        DeleteSandboxRules(filter, OrphanNet(cfg, id, cached.value));
      }
      trace := trace + [CleanOrphan(id, cached)];
    }

    // Claiming host ports.

    /** The listing of the store is what the store holds; without ports nothing is listed. */
    ghost predicate ListsStore(listed: Option<seq<Stored>>, ports: seq<PortMapping>)
      reads this`store
    {
      |ports| > 0 && listed.Some? ==> PP.Lists(listed.value, KeyStore(store))
    }

    /** The ports section: the check, and the reservation when it passes. */
    method ClaimPorts(req: Request, listed: Option<seq<Stored>>, busy: set<Key>)
      returns (err: Option<CreateError>, keys: seq<Key>)
      requires Valid() && PP.At(books.ports, req.id, PP.Entered) && books.ports.jobs[req.id].keys == KeysOf(req.ports)
      requires books.ports.section == None && ListsStore(listed, req.ports) && req.id !in store
      modifies this`books, this`trace, book
      ensures Valid() && old(trace) <= trace && books == old(books).(ports := books.ports)
      ensures match err
        case None =>
          && books.ports == PP.State(old(books).ports.store, book.reserved,
                                     old(books).ports.jobs[req.id := PP.Creation(PP.Reserved, KeysOf(req.ports))], None)
          && ElementsOf(keys) == KeysOf(req.ports)
             && book.reserved == Reserve(old(book.reserved), req.id, KeysOf(req.ports))
        case Some(_) =>
          books.ports == old(books).ports.(jobs := old(books).ports.jobs - {req.id})
            && book.reserved == old(book.reserved)
      ensures Checked(req, listed, busy, old(book.reserved), err)
    {
      hide Reached, Proper, Now, Checked, Reserve, KeysOf, ListsStore, ElementsOf;
      keys := [];
      err := CheckPorts(req, listed, busy);
      if err.None? {
        keys := ReserveChecked(req);
        AdvancePorts(PP.LeavePorts(req.id));
      }
    }

    method CheckPorts(req: Request, listed: Option<seq<Stored>>, busy: set<Key>) returns (err: Option<CreateError>)
      requires Valid() && PP.At(books.ports, req.id, PP.Entered) && books.ports.jobs[req.id].keys == KeysOf(req.ports)
      requires books.ports.section == None && ListsStore(listed, req.ports) && req.id !in store
      modifies this`books, this`trace
      ensures Valid() && old(trace) <= trace && books == old(books).(ports := books.ports)
      ensures books.ports == match err
        case None => old(books).ports.(jobs := PP.To(old(books).ports, req.id, PP.Checked), section := Some(req.id))
        case Some(_) => old(books).ports.(jobs := old(books).ports.jobs - {req.id})
      ensures Checked(req, listed, busy, book.reserved, err)
    {
      hide Valid, Checked, PP.Lists, KeysOf, KeyStore, PassesUntil, PP.Enabled, PP.Effect;
      TakePortsLock(req.id);
      err := CheckListed(req, listed, busy);
      if err.Some? {
        RefuseCreation(req.id);
      } else {
        AllowedPasses(req, listed, busy);
        PassCheck(if listed.Some? then listed.value else [], busy, req);
      }
    }

    lemma AllowedPasses(req: Request, listed: Option<seq<Stored>>, busy: set<Key>)
      requires Checked(req, listed, busy, book.reserved, None) && ListsStore(listed, req.ports)
      ensures var all := if listed.Some? then listed.value else [];
        PassesUntil(all, book.reserved, busy, req.id, req.ports, |req.ports|)
          && (req.ports != [] ==> PP.Lists(all, KeyStore(store)))
    {
      hide PP.Lists, KeyStore, PassesWritten;
    }

    method CheckListed(req: Request, listed: Option<seq<Stored>>, busy: set<Key>) returns (err: Option<CreateError>)
      ensures Checked(req, listed, busy, book.reserved, err)
    {
      hide PassesUntil, KeyOf, WrittenTaken, UsedBy;
      if |req.ports| > 0 && listed.None? {
        return Some(NotListed);
      }
      var taken := book.EnsureHostPortsAvailable(if listed.Some? then listed.value else [], req.id, req.ports, busy);
      err := if taken.Some? then Some(PortsUnavailable(taken.value)) else None;
    }

    ghost method TakePortsLock(id: string)
      requires Valid() && PP.At(books.ports, id, PP.Entered) && books.ports.section == None
      modifies this`books, this`trace
      ensures Valid() && old(trace) <= trace
      ensures var p := old(books).ports;
        books == old(books).(ports := p.(jobs := PP.To(p, id, PP.Holding), section := Some(id)))
    {
      hide Reached, Proper, Now;
      AdvancePorts(PP.TakePorts(id));
    }

    /** A creation that gets no further than its port check. */
    ghost method RefuseCreation(id: string)
      requires Valid() && (PP.At(books.ports, id, PP.Entered) || PP.At(books.ports, id, PP.Holding))
      modifies this`books, this`trace
      ensures Valid() && old(trace) <= trace
      ensures var p := old(books).ports;
        books == old(books).(ports := p.(jobs := p.jobs - {id},
                                         section := if p.section == Some(id) then None else p.section))
    {
      hide Reached, Proper, Now;
      AdvancePorts(PP.Refuse(id));
    }

    ghost method EnterCreation(id: string, keys: set<Key>)
      requires Valid() && id !in books.ports.jobs && id !in store
      modifies this`books, this`trace
      ensures Valid() && old(trace) <= trace
      ensures var p := old(books).ports;
        books == old(books).(ports := p.(jobs := p.jobs[id := PP.Creation(PP.Entered, keys)]))
    {
      hide Reached, Proper, Now, KeyStore;
      PortStore();
      AdvancePorts(PP.Begin(id, keys));
    }

    /** A check that passes is the protocol's two readings. */
    ghost method PassCheck(all: seq<Stored>, busy: set<Key>, req: Request)
      requires Valid() && PP.At(books.ports, req.id, PP.Holding) && books.ports.jobs[req.id].keys == KeysOf(req.ports)
      requires req.ports != [] ==> PP.Lists(all, KeyStore(store))
      requires PassesUntil(all, book.reserved, busy, req.id, req.ports, |req.ports|)
      modifies this`books, this`trace
      ensures Valid() && old(trace) <= trace
      ensures books == old(books).(ports := old(books).ports.(jobs := PP.To(old(books).ports, req.id, PP.Checked)))
    {
      hide Reached, Proper, Now, KeyOf, PassesUntil, PP.StorePasses, PP.NoneReserved, PP.Lists,
           KeysOf, KeyStore;
      CheckAllows(all, busy, req);
      ghost var before := books.ports;
      AdvancePorts(PP.ReadFirst(req.id));
      SameReads(before, books.ports, req.id, KeysOf(req.ports));
      AdvancePorts(PP.ReadSecond(req.id));
    }

    lemma CheckAllows(all: seq<Stored>, busy: set<Key>, req: Request)
      requires Valid() && (req.ports != [] ==> PP.Lists(all, KeyStore(store)))
      requires PassesUntil(all, book.reserved, busy, req.id, req.ports, |req.ports|)
      ensures PP.StorePasses(PP.WRITTEN, books.ports, req.id, KeysOf(req.ports))
      ensures PP.NoneReserved(books.ports, req.id, KeysOf(req.ports))
    {
      hide PassesUntil, KeyStore, KeyOf, PP.HeldElsewhere, PP.Shadowed;
      PortStore();
      if req.ports == [] {
        assert KeysOf(req.ports) == {};
      } else {
        PP.WrittenCheckAllows(books.ports, all, busy, req.id, req.ports);
      }
    }

    method ReserveChecked(req: Request) returns (keys: seq<Key>)
      requires Valid() && PP.At(books.ports, req.id, PP.Checked) && books.ports.jobs[req.id].keys == KeysOf(req.ports)
      requires req.id !in store
      modifies this`books, this`trace, book
      ensures Valid() && trace == old(trace) + [PortStep(PP.Claim(req.id))] && ElementsOf(keys) == KeysOf(req.ports)
      ensures book.reserved == Reserve(old(book.reserved), req.id, KeysOf(req.ports))
      ensures var p := old(books).ports;
        books == old(books).(ports := p.(jobs := PP.To(p, req.id, PP.Claimed), reserved := book.reserved))
    {
      hide Reached, Proper, Reserve, KeysOf, KeyOf;
      ghost var s := PortStep(PP.Claim(req.id));
      ReachedNext(cfg, start, trace, Now(), s);
      keys := book.ReserveRequestedPorts(req.id, req.ports);
      books := BooksAfter(cfg, books, s);
      trace := trace + [s];
      SameKeys(req.ports, keys);
    }

    method ReleaseClaimed(id: string, keys: seq<Key>)
      requires Valid() && (PP.At(books.ports, id, PP.Reserved) || PP.At(books.ports, id, PP.Saved))
      requires books.ports.jobs[id].keys == ElementsOf(keys)
      modifies this`books, this`trace, book
      ensures Valid() && trace == old(trace) + [PortStep(PP.Finish(id))]
      ensures book.reserved == Release(old(book.reserved), id, ElementsOf(keys))
      ensures var p := old(books).ports;
        books == old(books).(ports := p.(jobs := p.jobs - {id}, reserved := book.reserved))
    {
      hide Reached, Proper, Release, ElementsOf;
      ghost var s := PortStep(PP.Finish(id));
      ReachedNext(cfg, start, trace, Now(), s);
      book.ReleasePorts(id, keys);
      books := BooksAfter(cfg, books, s);
      trace := trace + [s];
    }

    // Creating.

    method SaveNew(req: Request, now: int) returns (sbx: Record)
      requires Valid() && Acceptable(req) && req.id in cfg.ids && req.id !in store && req.id !in books.jobs
      requires PP.At(books.ports, req.id, PP.Reserved) && books.ports.jobs[req.id].keys == KeysOf(req.ports)
      modifies this`store, this`books, this`trace
      ensures Valid() && old(trace) <= trace && AsRequested(sbx, req, now)
      ensures sbx.id == req.id && sbx.egress == req.egress && sbx.ports == req.ports
      ensures sbx.createdAt == now && sbx.error == "" && sbx == NewRecord(req, now)
      ensures store == old(store)[req.id := sbx]
      ensures books == old(books).(store := store, jobs := old(books).jobs[req.id := Starting(sbx)],
                                   ports := Saving(old(books).ports, req))
    {
      hide Reached, Proper, Acceptable, AsRequested;
      sbx := NewRecord(req, now);
      NewRecordSays(req, now);
      Save(req.id, sbx, Create(req, now));
    }

    method BeginProvision(sbx: Record)
      requires Valid() && sbx.id in books.jobs && books.jobs[sbx.id] == Starting(sbx)
      modifies this`books, this`trace
      ensures Valid() && old(trace) <= trace && books == old(books).(jobs := old(books).jobs[sbx.id := Building(sbx)])
    {
      hide Reached, Proper;
      Advance(Start(sbx.id));
    }

    method LeaveToBackground(id: string)
      requires Valid() && id in books.jobs && books.jobs[id].Starting?
      modifies this`books, this`trace
      ensures Valid() && old(trace) <= trace && books == old(books).(jobs := old(books).jobs - {id})
    {
      hide Reached, Proper;
      Advance(Detach(id));
    }

    /** A checked creation: save, then provision now or leave it to the background. */
    method SaveAndProvision(req: Request, background: bool, rt: Runtime, now: int) returns (ok: bool)
      requires Valid() && Acceptable(req) && req.id in cfg.ids && req.id !in store && req.id !in books.jobs
      requires PP.At(books.ports, req.id, PP.Reserved) && books.ports.jobs[req.id].keys == KeysOf(req.ports)
      requires rt.ip.Some? ==> forall x :: x in books.live ==> books.live[x].ip != rt.ip.value
      modifies this, filter, nat_
      ensures Valid() && old(trace) <= trace && books.jobs == old(books).jobs
      ensures books.ports == Saving(old(books).ports, req) && store - {req.id} == old(store) - {req.id}
      ensures if background then ok && NewlySaved(req, now, old(store))
              else ProvisionedAs(req, rt, ok, now) && (ok <==> !Blocked(rt) && rt.ip.Some? && rt.ready && rt.saved)
    {
      hide Valid, Acceptable, Saving, Blocked, ProvisionedAs, KeysOf, AsRequested, NewRecord, Enabled;
      NothingInstalled(req.id);
      var sbx := SaveNew(req, now);
      if background {
        LeaveToBackground(req.id);
        ok := true;
      } else {
        ok := ProvisionNew(req, sbx, rt, now);
      }
    }

    method ProvisionNew(req: Request, sbx: Record, rt: Runtime, now: int) returns (ok: bool)
      requires Valid() && sbx.id in books.jobs && books.jobs[sbx.id] == Starting(sbx) && sbx.id !in books.live
      requires sbx.id == req.id && sbx.egress == req.egress && sbx.ports == req.ports
      requires sbx.createdAt == now && sbx.error == "" && sbx == NewRecord(req, now)
      requires rt.ip.Some? ==> forall x :: x in books.live ==> books.live[x].ip != rt.ip.value
      modifies this, filter, nat_
      ensures Valid() && old(trace) <= trace && ProvisionedAs(req, rt, ok, now)
      ensures ok <==> !Blocked(rt) && rt.ip.Some? && rt.ready && rt.saved
      ensures books.jobs == old(books).jobs - {sbx.id} && store - {sbx.id} == old(store) - {sbx.id}
      ensures books.ports == old(books).ports
    {
      hide Valid, Ended, Blocked, LeavesError;
      BeginProvision(sbx);
      ok := ProvisionSandboxSync(sbx, rt, now);
    }

    /** With the sandbox's lock held, the request valid and no such state saved: check and reserve the ports,
        save, provision, release. */
    method CreateLocked(req: Request, background: bool, out: Outside, rt: Runtime, now: int)
      returns (err: Option<CreateError>)
      requires Valid() && Acceptable(req) && req.id in cfg.ids && req.id !in store && LockFree(books, req.id)
      requires (out.portsLocked ==> books.ports.section == None) && ListsStore(out.listed, req.ports)
      requires rt.ip.Some? ==> forall x :: x in books.live ==> books.live[x].ip != rt.ip.value
      modifies this, filter, nat_, book
      ensures Valid() && old(trace) <= trace && books.jobs == old(books).jobs && book.reserved == old(book.reserved)
      ensures books.ports == old(books).ports.(store := books.ports.store) && store - {req.id} == old(store) - {req.id}
      ensures Created(req, background, out, rt, old(book.reserved), err)
      ensures err.Some? && !err.value.ProvisionFailed? ==> store == old(store)
      ensures err.None? && background ==> NewlySaved(req, now, old(store))
      ensures (err.None? && !background) || err == Some(ProvisionFailed) ==> ProvisionedAs(req, rt, err.None?, now)
    {
      hide Valid, Acceptable, Checked, Allowed, KeysOf, ListsStore, NewRecord, Ended, Blocked;
      ReservedByNobody(req.id);
      EnterCreation(req.id, KeysOf(req.ports));
      if !out.portsLocked {
        RefuseCreation(req.id);
        return Some(PortsNotLocked);
      }
      err := CreateEntered(req, background, out, rt, now);
    }

    method CreateEntered(req: Request, background: bool, out: Outside, rt: Runtime, now: int)
      returns (err: Option<CreateError>)
      requires Valid() && Acceptable(req) && req.id in cfg.ids && req.id !in store && req.id !in books.jobs
      requires PP.At(books.ports, req.id, PP.Entered) && books.ports.jobs[req.id].keys == KeysOf(req.ports)
      requires out.portsLocked && books.ports.section == None && ListsStore(out.listed, req.ports)
      requires books.ports.reserved == book.reserved && forall k :: k in book.reserved ==> book.reserved[k] != req.id
      requires rt.ip.Some? ==> forall x :: x in books.live ==> books.live[x].ip != rt.ip.value
      modifies this, filter, nat_, book
      ensures Valid() && old(trace) <= trace && books.jobs == old(books).jobs && book.reserved == old(book.reserved)
      ensures var p := old(books).ports; books.ports == p.(store := books.ports.store, jobs := p.jobs - {req.id})
      ensures store - {req.id} == old(store) - {req.id} && Created(req, background, out, rt, old(book.reserved), err)
      ensures err.Some? && !err.value.ProvisionFailed? ==> store == old(store)
      ensures err.None? && background ==> NewlySaved(req, now, old(store))
      ensures (err.None? && !background) || err == Some(ProvisionFailed) ==> ProvisionedAs(req, rt, err.None?, now)
    {
      hide Valid, Acceptable, Release, Reserve, PassesUntil, KeysOf, ListsStore, NewRecord, Ended, Blocked, ElementsOf;
      ghost var before := book.reserved;
      var keys;
      err, keys := ClaimPorts(req, out.listed, out.busy);
      if err.Some? {
        return;
      }
      ReleaseRestores(before, req, out.listed, out.busy);
      err := CreateClaimed(req, keys, background, out.saved, rt, now);
    }

    /** With the ports reserved: save, provision, release. */
    method CreateClaimed(req: Request, keys: seq<Key>, background: bool, saved: bool, rt: Runtime, now: int)
      returns (err: Option<CreateError>)
      requires Valid() && Acceptable(req) && req.id in cfg.ids && req.id !in store && req.id !in books.jobs
      requires PP.At(books.ports, req.id, PP.Reserved)
                 && books.ports.jobs[req.id].keys == KeysOf(req.ports) == ElementsOf(keys)
      requires rt.ip.Some? ==> forall x :: x in books.live ==> books.live[x].ip != rt.ip.value
      modifies this, filter, nat_, book
      ensures Valid() && old(trace) <= trace && books.jobs == old(books).jobs
                && store - {req.id} == old(store) - {req.id}
      ensures book.reserved == Release(old(book.reserved), req.id, KeysOf(req.ports))
      ensures books.ports == old(books).ports.(store := books.ports.store, jobs := old(books).ports.jobs - {req.id},
                                               reserved := book.reserved)
      ensures !saved ==> err == Some(NotSaved) && store == old(store)
      ensures saved && background ==> err == None && NewlySaved(req, now, old(store))
      ensures saved && !background ==>
                && err == (if !Blocked(rt) && rt.ip.Some? && rt.ready && rt.saved then None else Some(ProvisionFailed))
                && ProvisionedAs(req, rt, err.None?, now)
    {
      hide Reached, Proper, FilterAfter, NatTableAfter, BooksAfter, Now, Acceptable, Release,
           KeysOf, NewRecord, Blocked, ElementsOf;
      if !saved {
        ReleaseClaimed(req.id, keys);
        return Some(NotSaved);
      }
      var ok := SaveAndProvision(req, background, rt, now);
      ReleaseClaimed(req.id, keys);
      err := if ok then None else Some(ProvisionFailed);
    }

    /** Creating a sandbox. */
    method CreateSandbox(req: Request, background: bool, out: Outside, rt: Runtime, now: int)
      returns (err: Option<CreateError>)
      requires Valid() && (Acceptable(req) ==> req.id in cfg.ids) && (out.locked ==> LockFree(books, req.id))
      requires (out.portsLocked ==> books.ports.section == None) && ListsStore(out.listed, req.ports)
      requires rt.ip.Some? ==> forall x :: x in books.live ==> books.live[x].ip != rt.ip.value
      modifies this, filter, nat_, book
      ensures Valid() && old(trace) <= trace && books.jobs == old(books).jobs && book.reserved == old(book.reserved)
      ensures books.ports == old(books).ports.(store := books.ports.store) && store - {req.id} == old(store) - {req.id}
      ensures match err
        case Some(NotLocked) => !out.locked
        case Some(Invalid(e)) => out.locked && !Acceptable(req) && Explains(req, e)
        case Some(NotReadable) => out.locked && Acceptable(req) && !out.readable
        case Some(Exists) => out.locked && Acceptable(req) && out.readable && req.id in old(store)
        case _ =>
          && out.locked && Acceptable(req) && out.readable && req.id !in old(store)
          && Created(req, background, out, rt, old(book.reserved), err)
      ensures out.locked && Acceptable(req) && out.readable && req.id !in old(store) && out.leftovers.Some? ==>
                old(trace) + [CleanOrphan(req.id, out.leftovers.value)] <= trace
      ensures err.Some? && !err.value.ProvisionFailed? ==> store == old(store)
      ensures err.None? && background ==> NewlySaved(req, now, old(store))
      ensures (err.None? && !background) || err == Some(ProvisionFailed) ==> ProvisionedAs(req, rt, err.None?, now)
    {
      hide Reached, Proper, FilterAfter, NatTableAfter, BooksAfter, Now, Acceptable, Explains,
           KeyOf, PassesUntil, ListsStore, NewRecord, Ended;
      if !out.locked {
        return Some(NotLocked);
      }
      var invalid := Validate(req);
      if invalid.Some? {
        return Some(Invalid(invalid.value));
      }
      if !out.readable {
        return Some(NotReadable);
      }
      if req.id in store {
        return Some(Exists);
      }
      if out.leftovers.Some? {
        CleanupLeftovers(req.id, out.leftovers.value);
      }
      err := CreateLocked(req, background, out, rt, now);
    }

    method MarkSandboxError(id: string, message: string, now: int)
      requires Valid() && (id in store && store[id].error == "" ==> message != "")
      modifies this`store, this`books, this`trace
      ensures Valid() && old(trace) <= trace && books == old(books).(store := store)
      ensures store == if id !in old(store) then old(store)
                       else old(store)[id := WithPhase(old(store)[id], Failed, message, now)]
    {
      hide Reached, Proper;
      if id !in store {
        return;
      }
      Save(id, WithPhase(store[id], Failed, message, now), MarkError(id, message, now));
    }

    /** The background provision of a saved sandbox. `locked` tells whether its lock was obtained, `message`
        the error otherwise, or the error of the provision. */
    method ProvisionSandbox(id: string, locked: bool, message: string, rt: Runtime, now: int)
      requires Valid() && (!locked ==> message != "")
      requires locked ==> LockFree(books, id) && (id in books.live ==> Blocked(rt))
      requires rt.ip.Some? ==> forall x :: x in books.live ==> books.live[x].ip != rt.ip.value
      modifies this, filter, nat_
      ensures Valid() && old(trace) <= trace && books.jobs == old(books).jobs && store - {id} == old(store) - {id}
      ensures id !in old(store) ==> store == old(store)
      ensures locked && id in old(store) ==>
                && Ended(id, !Blocked(rt) && rt.ip.Some? && rt.ready && rt.saved)
                && SameRequest(store[id], old(store)[id]) && EndsAs(old(store)[id], rt, message, now, store[id])
                && (store[id].phase == Running ==> books.live[id].nameservers == rt.nameservers)
      ensures !locked && id in old(store) ==> id in store && store[id].phase == Failed && store[id].error == message
    {
      hide Valid, Blocked, EndsAs;
      if !locked {
        MarkSandboxError(id, message, now);
        return;
      }
      if id !in store {
        return;
      }
      ProvisionUnderLock(id, message, rt, now);
    }

    method ProvisionUnderLock(id: string, message: string, rt: Runtime, now: int)
      requires Valid() && id in store && LockFree(books, id) && (id in books.live ==> Blocked(rt))
      requires rt.ip.Some? ==> forall x :: x in books.live ==> books.live[x].ip != rt.ip.value
      modifies this, filter, nat_
      ensures Valid() && old(trace) <= trace && books.jobs == old(books).jobs && store - {id} == old(store) - {id}
      ensures Ended(id, !Blocked(rt) && rt.ip.Some? && rt.ready && rt.saved)
      ensures SameRequest(store[id], old(store)[id]) && EndsAs(old(store)[id], rt, message, now, store[id])
      ensures store[id].phase == Running ==> books.live[id].nameservers == rt.nameservers
    {
      hide Valid, Blocked, LeavesError;
      var sbx := BeginLateProvision(id);
      var ok := ProvisionSandboxSync(sbx, rt, now);
      if !ok {
        MarkSandboxError(id, message, now);
      }
    }

    method BeginLateProvision(id: string) returns (sbx: Record)
      requires Valid() && LockFree(books, id) && id in store
      modifies this`books, this`trace
      ensures Valid() && old(trace) <= trace && sbx == store[id] && sbx.id == id
      ensures books == old(books).(jobs := old(books).jobs[id := Building(sbx)])
    {
      hide Reached, Proper;
      StoredUnderId(id);
      sbx := store[id];
      Advance(StartLater(id));
    }

    // Deleting.

    /** A removal: state saved as deleting, everything installed removed, then the state and what is
        reserved; a container that stays behind is reported and stops none of it. */
    method DeleteSandbox(id: string, locked: bool, readable: bool, stuck: set<string>, now: int)
      returns (err: Option<DeleteError>)
      requires Valid() && debouncer.Valid() && (locked ==> LockFree(books, id))
      modifies this, filter, nat_, book, debouncer
      ensures Valid() && old(trace) <= trace && books.jobs == old(books).jobs && debouncer.Valid()
      ensures match err
        case Some(LockRefused) => !locked
        case Some(LoadFailed) => locked && !readable
        case Some(ContainersLeft) =>
          locked && readable && id in old(store)
          && exists name :: name in old(store)[id].containers && old(store)[id].containers[name].id in stuck
        case None =>
          locked && readable
          && (id in old(store) ==>
                forall name :: name in old(store)[id].containers ==> old(store)[id].containers[name].id !in stuck)
      ensures !(locked && readable) ==>
                store == old(store) && book.reserved == old(book.reserved)
                  && debouncer.history == old(debouncer.history)
      ensures locked && readable ==>
                && store == old(store) - {id} && id !in books.live && id !in books.pubs
                && book.reserved == ReleaseAll(old(book.reserved), id)
                && debouncer.history == old(debouncer.history) + if id in old(store) then [Cleared(id)] else []
    {
      hide Valid, ReleaseAll;
      if !locked {
        return Some(LockRefused);
      }
      if !readable {
        return Some(LoadFailed);
      }
      var ok := DeleteLoaded(id, stuck, now);
      err := if ok then None else Some(ContainersLeft);
    }

    method DeleteLoaded(id: string, stuck: set<string>, now: int) returns (ok: bool)
      requires Valid() && debouncer.Valid() && LockFree(books, id)
      modifies this, filter, nat_, book, debouncer
      ensures Valid() && old(trace) <= trace && books.jobs == old(books).jobs && debouncer.Valid()
      ensures store == old(store) - {id} && id !in books.live && id !in books.pubs
      ensures book.reserved == ReleaseAll(old(book.reserved), id)
      ensures debouncer.history == old(debouncer.history) + if id in old(store) then [Cleared(id)] else []
      ensures ok
         <==> (id in old(store) ==>
                 forall name :: name in old(store)[id].containers ==> old(store)[id].containers[name].id !in stuck)
    {
      hide Reached, Proper, ReleaseAll, BooksAfter, Now;
      if id !in store {
        NothingInstalled(id);
        PortStore();
        AdvancePorts(PP.BeginDelete(id));
        ReleaseRemoved(id);
        return true;
      }
      ok := DeleteSandboxFromState(id, stuck, now);
      ReleaseRemoved(id);
      debouncer.ClearUnhealthy(id);
    }

    method DeleteSandboxFromState(id: string, stuck: set<string>, now: int) returns (ok: bool)
      requires Valid() && LockFree(books, id) && id in store
      modifies this, filter, nat_
      ensures Valid() && old(trace) <= trace && store == old(store) - {id} && id !in books.live && id !in books.pubs
      ensures books.jobs == old(books).jobs && id in books.ports.jobs && books.ports.jobs[id].Removed?
      ensures books.ports.jobs - {id} == old(books).ports.jobs && books.ports.reserved == old(books).ports.reserved
      ensures ok <==> forall name :: name in old(store)[id].containers ==> old(store)[id].containers[name].id !in stuck
    {
      hide Reached, Proper, DeleteTable, CleanedTable, BooksAfter, Now;
      var sbx := SaveDeleting(id, now);
      ok := DeleteRuntimeArtifacts(sbx, stuck);
      Drop(id);
    }

    method SaveDeleting(id: string, now: int) returns (sbx: Record)
      requires Valid() && LockFree(books, id) && id in store
      modifies this`store, this`books, this`trace
      ensures Valid() && trace == old(trace) + [BeginDelete(id, now)]
      ensures sbx == old(store)[id].(phase := Deleting, error := "", updatedAt := now)
      ensures sbx.id == id && store == old(store)[id := sbx]
      ensures books == old(books).(store := store, jobs := old(books).jobs[id := Cleaning(sbx, true)],
                                   ports := old(books).ports.(jobs := old(books).ports.jobs[id := PP.Removing]))
    {
      hide Reached, Proper, KeyStore;
      StoredUnderId(id);
      PortStore();
      sbx := WithPhase(store[id], Deleting, "", now);
      Save(id, sbx, BeginDelete(id, now));
    }

    /** The port protocol's store has the saved sandboxes' keys. */
    lemma PortStore()
      requires Valid()
      ensures books.ports.store == KeyStore(store) && books.ports.store.Keys == store.Keys
    {
      ReachedSound(cfg, start, trace, Now());
      assert Linked(books);
    }

    method Drop(id: string)
      requires Valid() && id in books.jobs && books.jobs[id].Cleaned? && books.jobs[id].drop
      requires id in books.ports.jobs && books.ports.jobs[id].Removing?
      modifies this`store, this`books, this`trace
      ensures Valid() && trace == old(trace) + [EndCleanup(id)] && store == old(store) - {id}
      ensures var p := old(books).ports;
        books == old(books).(store := store, jobs := old(books).jobs - {id},
                             ports := p.(jobs := p.jobs[id := PP.Removed], store := p.store - {id}))
    {
      hide Reached, Proper;
      ReachedNext(cfg, start, trace, Now(), EndCleanup(id));
      store := store - {id};
      books := BooksAfter(cfg, books, EndCleanup(id));
      trace := trace + [EndCleanup(id)];
    }

    /** The last step of a removal: what is reserved for the sandbox. */
    method ReleaseRemoved(id: string)
      requires Valid() && id in books.ports.jobs && books.ports.jobs[id].Removed?
      modifies this`books, this`trace, book
      ensures Valid() && trace == old(trace) + [PortStep(PP.FinishDelete(id))]
      ensures book.reserved == ReleaseAll(old(book.reserved), id)
      ensures var p := old(books).ports;
        books == old(books).(ports := p.(jobs := p.jobs - {id}, reserved := book.reserved))
    {
      hide Reached, Proper, ReleaseAll;
      ghost var s := PortStep(PP.FinishDelete(id));
      ReachedNext(cfg, start, trace, Now(), s);
      book.ReleaseReservedPorts(id);
      books := BooksAfter(cfg, books, s);
      trace := trace + [s];
    }

    lemma NothingInstalled(id: string)
      requires Valid() && id !in store
      ensures id !in books.live && id !in books.pubs
    {
      ReachedSound(cfg, start, trace, Now());
      assert InOrder(cfg, id, ViewOf(books, id));
    }

    lemma StoredUnderId(id: string)
      requires Valid() && id in store
      ensures store[id].id == id
    {
      ReachedSound(cfg, start, trace, Now());
      assert InOrder(cfg, id, ViewOf(books, id));
    }

    lemma ReservedByNobody(id: string)
      requires Valid() && id !in books.ports.jobs
      ensures books.ports.reserved == book.reserved && books.ports.section != Some(id)
      ensures forall k :: k in book.reserved ==> book.reserved[k] != id
    {
      ReachedSound(cfg, start, trace, Now());
      assert PP.ReservedByJobs(books.ports) && PP.OneInSection(books.ports);
    }
  }

  lemma RunningFields(sbx: Record, obs: map<string, Observation>, order: seq<string>, now: int)
    ensures var r := RunningRecord(sbx, obs, order, now);
      && SameRequest(r, sbx) && r.ip == sbx.ip && r.phase == Running && r.error == "" && r.updatedAt == now
      && r.containers.Keys == sbx.containers.Keys
      && (sbx.phase == Creating ==> r.containers == Refreshed(sbx, obs, now))
  {
    hide RefreshRecord;
    RefreshKeepsIdentity(sbx, obs, now, order);
    RefreshedRecord(sbx, obs, now, order);
  }

  lemma FailRecordFields(sbx: Record, message: string, now: int)
    ensures var r := FailRecord(sbx, message, now);
      && SameRequest(r, sbx) && r.ip == sbx.ip && r.containers == sbx.containers && r.phase == Failed
      && r.updatedAt == now && r.error == if message != "" then message else "provision failed"
  {
  }

  /** The port protocol's state once a creation with reserved ports is saved. */
  function Saving(p: PP.State, req: Request): PP.State {
    p.(jobs := p.jobs[req.id := PP.Creation(PP.Saved, KeysOf(req.ports))],
       store := p.store[req.id := KeysOf(req.ports)])
  }

  /** How the port check ends. */
  predicate Checked(req: Request, listed: Option<seq<Stored>>, busy: set<Key>, reserved: map<Key, string>,
                    err: Option<CreateError>) {
    match err
    case None => Allowed(req, listed, busy, reserved)
    case Some(NotListed) => req.ports != [] && listed.None?
    case Some(PortsUnavailable(_)) => req.ports != [] && listed.Some? && !Allowed(req, listed, busy, reserved)
    case _ => false
  }

  predicate Allowed(req: Request, listed: Option<seq<Stored>>, busy: set<Key>, reserved: map<Key, string>) {
    req.ports == [] || (listed.Some? && PassesUntil(listed.value, reserved, busy, req.id, req.ports, |req.ports|))
  }

  /** How a creation that got as far as its ports ends, for each answer of the outside. */
  predicate Created(req: Request, background: bool, out: Outside, rt: Runtime, reserved: map<Key, string>,
                    err: Option<CreateError>) {
    var allowed := Allowed(req, out.listed, out.busy, reserved);
    match err
    case Some(PortsNotLocked) => !out.portsLocked
    case Some(NotListed) => out.portsLocked && Checked(req, out.listed, out.busy, reserved, err)
    case Some(PortsUnavailable(_)) => out.portsLocked && Checked(req, out.listed, out.busy, reserved, err)
    case Some(NotSaved) => out.portsLocked && allowed && !out.saved
    case Some(ProvisionFailed) =>
      out.portsLocked && allowed && out.saved && !background && !(!Blocked(rt) && rt.ip.Some? && rt.ready && rt.saved)
    case None =>
      out.portsLocked && allowed && out.saved && (background || (!Blocked(rt) && rt.ip.Some? && rt.ready && rt.saved))
    case _ => false
  }

  /** Releasing what a checked creation reserved leaves the reservations as they were. */
  lemma ReleaseRestores(reserved: map<Key, string>, req: Request, listed: Option<seq<Stored>>, busy: set<Key>)
    requires forall k :: k in reserved ==> reserved[k] != req.id
    requires Allowed(req, listed, busy, reserved)
    ensures Release(Reserve(reserved, req.id, KeysOf(req.ports)), req.id, KeysOf(req.ports)) == reserved
  {
    hide KeyOf, WrittenTaken;
    ReleaseUndoesReserveIff(reserved, req.id, KeysOf(req.ports));
  }

  /** Both readings depend on the store and the reservations only. */
  lemma SameReads(s: PP.State, t: PP.State, id: string, keys: set<Key>)
    requires s.store == t.store && s.reserved == t.reserved
    ensures PP.StorePasses(PP.WRITTEN, s, id, keys) == PP.StorePasses(PP.WRITTEN, t, id, keys)
    ensures PP.NoneReserved(s, id, keys) == PP.NoneReserved(t, id, keys)
  {
    forall k ensures PP.HeldElsewhere(s, id, k) == PP.HeldElsewhere(t, id, k)
      && PP.Shadowed(s, id, k) == PP.Shadowed(t, id, k) {
    }
  }

  /** Another saved sandbox holds the port, and the check does not see it: the number was listed again for
      another protocol. */
  predicate Overlooked(all: seq<Stored>, id: string, k: Key) {
    Taken(all, id, k) && k.port in UsedBy(all, id) && UsedBy(all, id)[k.port].proto != k.proto
  }

  /** A creation that passes the port check keeps the saved sandboxes' ports apart exactly when the check
      overlooked none of the requested ports. */
  lemma CheckedCreationKeepsPortsApartIff(store: map<string, Record>, all: seq<Stored>, reserved: map<Key, string>,
                                          busy: set<Key>, req: Request, now: int)
    requires PortsApart(store) && req.id !in store && PP.Lists(all, KeyStore(store))
    requires PassesUntil(all, reserved, busy, req.id, req.ports, |req.ports|)
    ensures PortsApart(store[req.id := NewRecord(req, now)])
       <==> forall k :: k in KeysOf(req.ports) ==> !Overlooked(all, req.id, k)
  {
    hide KeyOf, UsedBy, Taken, Plan, PP.Lists;
    var next := store[req.id := NewRecord(req, now)];
    forall k | k in KeysOf(req.ports)
      ensures Overlooked(all, req.id, k) <==> exists x :: x in store && k in KeysOf(store[x].ports)
    {
      assert !WrittenTaken(UsedBy(all, req.id), k);
      OverlookedSaved(store, all, req.id, k);
    }
    assert KeysOf(next[req.id].ports) == KeysOf(req.ports);
    if !PortsApart(next) {
      var a, b :| a in next && b in next && a != b && !(KeysOf(next[a].ports) !! KeysOf(next[b].ports));
      var k :| k in KeysOf(next[a].ports) && k in KeysOf(next[b].ports);
      assert k in KeysOf(req.ports);
    }
    if k :| k in KeysOf(req.ports) && Overlooked(all, req.id, k) {
      var x :| x in store && k in KeysOf(store[x].ports);
      assert x in next && x != req.id && k in KeysOf(next[x].ports) && k in KeysOf(next[req.id].ports);
    }
  }

  lemma OverlookedSaved(store: map<string, Record>, all: seq<Stored>, id: string, k: Key)
    requires id !in store && PP.Lists(all, KeyStore(store)) && !WrittenTaken(UsedBy(all, id), k)
    ensures Overlooked(all, id, k) <==> exists x :: x in store && k in KeysOf(store[x].ports)
  {
    hide UsedBy, Taken, KeysOf, PP.Lists;
    var keys := KeyStore(store);
    PP.TakenInStore(all, keys, id, k);
    UsedIsAClaim(all, id, k.port);
    if Taken(all, id, k) {
      TakenNumber(all, id, k);
      var x :| x in keys && x != id && k in keys[x];
      assert x in store && k in KeysOf(store[x].ports);
    }
    if x :| x in store && k in KeysOf(store[x].ports) {
      assert x in keys && x != id && k in keys[x];
    }
  }

  lemma SameKeys(ports: seq<PortMapping>, keys: seq<Key>)
    requires |keys| == |ports| && forall i :: 0 <= i < |ports| ==> keys[i] == KeyOf(ports[i])
    ensures ElementsOf(keys) == KeysOf(ports)
  {
    hide KeyOf;
    assert forall i :: 0 <= i < |ports| ==> KeyOf(ports[i]) in ElementsOf(keys);
  }

  lemma PolicedHasAddress(cfg: Config, w: World, id: string)
    requires Sound(cfg, w) && id in w.books.jobs && w.books.jobs[id].Policed?
    ensures w.books.jobs[id].sbx.ip.Some?
  {
    assert InOrder(cfg, id, ViewOf(w.books, id));
  }
}
