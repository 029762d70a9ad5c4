/** Creating, provisioning, failing, deleting and reconciling sandboxes, one step at a time over the
    rule tables and the saved states. */
module Lifecycle {
  import opened Rules
  import opened Firewall
  import opened Policy
  import opened History
  import opened Nat
  import opened Tags
  import opened Published
  import opened Publishing
  import opened Requests
  import opened Ports
  import opened Sandboxes
  import PP = PortProtocol

  /** The host: the ids in use, their chain-name hashes, the bridge, how tables list comments and how host
      ports are checked. */
  datatype Config = Config(ids: set<string>, short: string -> string, bridge: Cidr, bridgeIf: string,
                           listing: Listing, mode: PP.Mode)

  /** Ids can be told apart by tag and by hash. */
  ghost predicate Proper(cfg: Config) {
    forall a :: a in cfg.ids ==>
      WellId(a) && forall b :: b in cfg.ids && (a <= b || cfg.short(a) == cfg.short(b)) ==> a == b
  }

  /** What the holder of a sandbox's lock is doing, with its copy of the state; `drop` tells a removal
      from the clean-up of a failed provision. */
  datatype Work =
    | Starting(sbx: Record)
    | Building(sbx: Record)
    | Resolved(sbx: Record)
    | Policed(sbx: Record, published: nat)
    | Cleaning(sbx: Record, drop: bool)
    | Unpublished(sbx: Record, drop: bool)
    | Cleaned(sbx: Record, drop: bool)

  /** `live` and `pubs` say what the rule tables hold; `store` is what is saved; `ports` is the state of the
      port protocol. */
  datatype Books = Books(live: map<string, Net>, pubs: map<string, Pub>, store: map<string, Record>,
                         jobs: map<string, Work>, ports: PP.State)

  datatype World = World(filter: Table, nat_: Table, books: Books)

  datatype Step =
    | EnsureGlobals(hooks: seq<string>)
    | Create(req: Request, now: int)
    | Detach(id: string)
    | Start(id: string)
    | StartLater(id: string)
    | Build(id: string, name: string, state: ContainerState)
    | Resolve(id: string, ip: nat)
    | ApplyPolicy(id: string, nameservers: seq<Cidr>)
    | PublishNext(id: string)
    | SaveRunning(id: string, obs: map<string, Observation>, order: seq<string>, now: int)
    | SaveFails(id: string, obs: map<string, Observation>, order: seq<string>, now: int)
    | Fail(id: string, message: string, now: int)
    | BeginDelete(id: string, now: int)
    | Finalize(id: string)
    | CleanDnat(id: string)
    | CleanPolicy(id: string)
    | EndCleanup(id: string)
    | MarkError(id: string, message: string, now: int)
    | TimeOut(id: string, now: int)
    | CleanOrphan(id: string, cached: Option<nat>)
    | SweepNat(keep: set<string>)
    | PortStep(act: PP.Action)

  const PROVISION_LIMIT := 120

  function ForwardsOf(ports: seq<PortMapping>): seq<Forward> {
    seq(|ports|, i requires 0 <= i < |ports| => Forward(ports[i].hostPort, ports[i].containerPort, ports[i].protocol))
  }

  function PublishedOf(ports: seq<PortMapping>): seq<PublishedPort> {
    seq(|ports|, i requires 0 <= i < |ports| => PublishedPort(ports[i].containerPort, ports[i].protocol))
  }

  function NetOf(cfg: Config, r: Record, nameservers: seq<Cidr>): Net
    requires r.ip.Some?
  {
    Net(r.id, cfg.short(r.id), r.ip.value, cfg.bridge, cfg.bridgeIf, r.egress, PublishedOf(r.ports), nameservers)
  }

  /** The state a failed provision saves. */
  function FailRecord(r: Record, message: string, now: int): Record {
    var failed := WithPhase(r.(error := message), Failed, message, now);
    if failed.error == "" then failed.(error := "provision failed") else failed
  }

  predicate Provisioning(w: Work) {
    w.Building? || w.Resolved? || w.Policed?
  }

  predicate Removing(w: Work) {
    (w.Cleaning? || w.Unpublished? || w.Cleaned?) && w.drop
  }

  /** Nobody holds the sandbox's lock. */
  predicate LockFree(b: Books, id: string) {
    id !in b.jobs && id !in b.ports.jobs
  }

  function KeyStore(store: map<string, Record>): map<string, set<Key>> {
    map id | id in store :: KeysOf(store[id].ports)
  }

  /** What the port protocol does in a step: saving a creation, starting a deletion and dropping a state
      are steps of both. */
  function PortAction(b: Books, s: Step): Option<PP.Action> {
    match s
    case PortStep(act) => Some(act)
    case Create(req, _) => Some(PP.Save(req.id))
    case BeginDelete(id, _) => Some(PP.BeginDelete(id))
    case EndCleanup(id) =>
      if id in b.jobs && Removing(b.jobs[id]) then
        Some(if id in b.ports.jobs then PP.DropState(id) else PP.Finalize(id))
      else None
    case _ => None
  }

  /** The steps the port protocol takes by itself. */
  predicate Alone(b: Books, act: PP.Action) {
    && !act.Save? && !act.DropState? && !act.Finalize?
    && (act.BeginDelete? ==> act.id !in b.store)
  }

  /** What lets a step happen, ports aside. New addresses are not in use; a provision that finds its sandbox
      installed gets no further than its containers; error texts that are marked are not empty. */
  predicate Ready(cfg: Config, b: Books, s: Step) {
    match s
    case EnsureGlobals(hooks) => forall i :: 0 <= i < |hooks| ==> !OwnChain(HookName(hooks[i]))
    case Create(req, _) =>
      req.id in cfg.ids && req.id !in b.jobs && req.id !in b.store && Acceptable(req)
      && PP.At(b.ports, req.id, PP.Reserved) && b.ports.jobs[req.id].keys == KeysOf(req.ports)
    case Detach(id) => id in b.jobs && b.jobs[id].Starting?
    case Start(id) => id in b.jobs && b.jobs[id].Starting?
    case StartLater(id) => LockFree(b, id) && id in b.store
    case Build(id, _, _) => id in b.jobs && b.jobs[id].Building?
    case Resolve(id, _) => id in b.jobs && b.jobs[id].Building? && id !in b.live
    case ApplyPolicy(id, _) =>
      id in b.jobs && b.jobs[id].Resolved? && b.jobs[id].sbx.ip.Some?
      && forall x :: x in b.live ==> b.live[x].ip != b.jobs[id].sbx.ip.value
    case PublishNext(id) => id in b.jobs && b.jobs[id].Policed? && b.jobs[id].published < |b.jobs[id].sbx.ports|
    case SaveRunning(id, _, order, _) => AllPublished(b, id, order)
    case SaveFails(id, _, order, _) => AllPublished(b, id, order)
    case Fail(id, message, _) =>
      id in b.jobs && Provisioning(b.jobs[id]) && (b.jobs[id].Building? || message == b.jobs[id].sbx.error)
    case BeginDelete(id, _) => LockFree(b, id) && id in b.store
    case Finalize(id) => LockFree(b, id) && id in b.store
    case CleanDnat(id) => id in b.jobs && b.jobs[id].Cleaning?
    case CleanPolicy(id) => id in b.jobs && b.jobs[id].Unpublished?
    case EndCleanup(id) => id in b.jobs && b.jobs[id].Cleaned?
    case MarkError(id, message, _) => id in b.store && (message != "" || b.store[id].error != "")
    case TimeOut(id, now) =>
      LockFree(b, id) && id in b.store && b.store[id].phase == Creating
        && now - b.store[id].createdAt >= PROVISION_LIMIT
    case CleanOrphan(id, _) => id in cfg.ids && id !in b.store
    case SweepNat(_) => true
    case PortStep(act) => Alone(b, act)
  }

  predicate AllPublished(b: Books, id: string, order: seq<string>) {
    id in b.jobs && b.jobs[id].Policed? && b.jobs[id].published == |b.jobs[id].sbx.ports|
    && Visits(order, b.jobs[id].sbx.containers.Keys)
  }

  predicate Enabled(cfg: Config, b: Books, s: Step) {
    Ready(cfg, b, s) && (PortAction(b, s).Some? ==> PP.Enabled(cfg.mode, b.ports, PortAction(b, s).value))
  }

  function PortsAfter(cfg: Config, b: Books, s: Step): PP.State
    requires Enabled(cfg, b, s)
  {
    match PortAction(b, s)
    case None => b.ports
    case Some(act) => PP.Effect(cfg.mode, b.ports, act)
  }

  /** What a provision that got all its ports published saves. */
  function RunningRecord(r: Record, obs: map<string, Observation>, order: seq<string>, now: int): Record {
    WithPhase(RefreshRecord(r, obs, now, order), Running, "", now)
  }

  function Moved(cfg: Config, b: Books, s: Step): Books
    requires Ready(cfg, b, s)
  {
    match s
    case Create(req, now) =>
      b.(store := b.store[req.id := NewRecord(req, now)], jobs := b.jobs[req.id := Starting(NewRecord(req, now))])
    case Detach(id) => b.(jobs := b.jobs - {id})
    case Start(id) => b.(jobs := b.jobs[id := Building(b.jobs[id].sbx)])
    case StartLater(id) => b.(jobs := b.jobs[id := Building(b.store[id])])
    case Build(id, name, state) =>
      var r := b.jobs[id].sbx;
      b.(jobs := b.jobs[id := Building(r.(containers := r.containers[name := state]))])
    case Resolve(id, ip) => b.(jobs := b.jobs[id := Resolved(b.jobs[id].sbx.(ip := Some(ip)))])
    case ApplyPolicy(id, nameservers) =>
      b.(live := b.live[id := NetOf(cfg, b.jobs[id].sbx, nameservers)],
        jobs := b.jobs[id := Policed(b.jobs[id].sbx, 0)])
    case PublishNext(id) =>
      var r, n := b.jobs[id].sbx, b.jobs[id].published;
      b.(pubs := Gained(b.pubs, id, Address(r), ForwardsOf(r.ports)[n]), jobs := b.jobs[id := Policed(r, n + 1)])
    case SaveRunning(id, obs, order, now) =>
      b.(store := b.store[id := RunningRecord(b.jobs[id].sbx, obs, order, now)], jobs := b.jobs - {id})
    case SaveFails(id, obs, order, now) =>
      var r := FailRecord(RunningRecord(b.jobs[id].sbx, obs, order, now), "", now);
      b.(store := b.store[id := r], jobs := b.jobs[id := Cleaning(r, false)])
    case Fail(id, message, now) =>
      var r := FailRecord(b.jobs[id].sbx, message, now);
      b.(store := b.store[id := r], jobs := b.jobs[id := Cleaning(r, false)])
    case BeginDelete(id, now) =>
      var r := WithPhase(b.store[id], Deleting, "", now);
      b.(store := b.store[id := r], jobs := b.jobs[id := Cleaning(r, true)])
    case Finalize(id) => b.(jobs := b.jobs[id := Cleaning(b.store[id], true)])
    case CleanDnat(id) =>
      b.(pubs := Kept(b.pubs, b.pubs.Keys - {id}), jobs := b.jobs[id := Unpublished(b.jobs[id].sbx, b.jobs[id].drop)])
    case CleanPolicy(id) => b.(live := b.live - {id}, jobs := b.jobs[id := Cleaned(b.jobs[id].sbx, b.jobs[id].drop)])
    case EndCleanup(id) => b.(store := if b.jobs[id].drop then b.store - {id} else b.store, jobs := b.jobs - {id})
    case MarkError(id, message, now) => b.(store := b.store[id := WithPhase(b.store[id], Failed, message, now)])
    case TimeOut(id, now) => b.(store := b.store[id := WithPhase(b.store[id], Failed, "provisioning timeout", now)])
    case SweepNat(keep) => b.(pubs := PubsLeft(cfg, b.pubs, keep))
    case _ => b
  }

  /** A sweep finds its rules only in a bare listing. */
  function PubsLeft(cfg: Config, pubs: map<string, Pub>, keep: set<string>): map<string, Pub> {
    if cfg.listing.Bare? then Kept(pubs, keep) else pubs
  }

  function BooksAfter(cfg: Config, b: Books, s: Step): Books
    requires Enabled(cfg, b, s)
  {
    Moved(cfg, b, s).(ports := PortsAfter(cfg, b, s))
  }

  function Address(r: Record): nat {
    if r.ip.Some? then r.ip.value else 0
  }

  function FilterAfter(cfg: Config, t: Table, b: Books, s: Step): Table
    requires Ready(cfg, b, s)
  {
    match s
    case EnsureGlobals(hooks) => EnsureTable(t, hooks).table
    case ApplyPolicy(id, nameservers) => ApplyTable(t, NetOf(cfg, b.jobs[id].sbx, nameservers)).table
    case CleanPolicy(id) =>
      var r := b.jobs[id].sbx;
      if r.ip.Some? then DeleteTable(t, NetOf(cfg, r, [])) else t
    case CleanOrphan(id, ip) => if ip.Some? then DeleteTable(t, OrphanNet(cfg, id, ip.value)) else t
    case _ => t
  }

  function OrphanNet(cfg: Config, id: string, ip: nat): Net {
    Net(id, cfg.short(id), ip, cfg.bridge, cfg.bridgeIf, false, [], [])
  }

  function NatTableAfter(cfg: Config, t: Table, b: Books, s: Step): Table
    requires Ready(cfg, b, s)
  {
    match s
    case PublishNext(id) =>
      var r := b.jobs[id].sbx;
      PublishOne(t, id, Address(r), ForwardsOf(r.ports)[b.jobs[id].published]).table
    case CleanDnat(id) =>
      var r := b.jobs[id].sbx;
      CleanedTable(t, cfg.listing, id, Address(r), if r.ip.Some? then ForwardsOf(r.ports) else [])
    case CleanOrphan(id, _) => CleanedTable(t, cfg.listing, id, 0, [])
    case SweepNat(keep) => SweptTable(t, cfg.listing, Orphans(keep))
    case _ => t
  }

  function Stepped(cfg: Config, w: World, s: Step): World
    requires Enabled(cfg, w.books, s)
  {
    World(FilterAfter(cfg, w.filter, w.books, s), NatTableAfter(cfg, w.nat_, w.books, s), BooksAfter(cfg, w.books, s))
  }

  // The books, sandbox by sandbox.

  /** All the books say about one sandbox. */
  datatype View = View(live: Option<Net>, pub: Option<Pub>, saved: Option<Record>, work: Option<Work>)

  function Find<T>(m: map<string, T>, id: string): Option<T> {
    if id in m then Some(m[id]) else None
  }

  function ViewOf(b: Books, id: string): View {
    View(Find(b.live, id), Find(b.pubs, id), Find(b.store, id), Find(b.jobs, id))
  }

  function Forwarded(v: View): seq<Forward> {
    if v.pub.Some? then v.pub.value.forwards else []
  }

  /** Saved and working copies belong to their id and keep the ports they were created with. */
  predicate Named(cfg: Config, id: string, v: View) {
    && (v.saved.Some? ==> id in cfg.ids && v.saved.value.id == id
                          && PortsOk(v.saved.value.ports, |v.saved.value.ports|))
    && (v.work.Some? ==> v.saved.Some? && v.work.value.sbx.id == id && v.work.value.sbx.ports == v.saved.value.ports)
  }

  /** Forwards `n - |xs|` to `n` of a list. */
  predicate Stretch(xs: seq<Forward>, fs: seq<Forward>, n: nat) {
    |xs| <= n <= |fs| && xs == fs[n - |xs|..n]
  }

  /** What is installed belongs to a saved sandbox and was made from its current copy; ports are published
      only for a sandbox whose policy is installed. */
  ghost predicate Backed(cfg: Config, v: View) {
    && (v.pub.Some? ==>
          && v.live.Some? && v.pub.value.ip == v.live.value.ip && v.saved.Some?
          && exists n: nat :: Stretch(v.pub.value.forwards, ForwardsOf(v.saved.value.ports), n))
    && (v.live.Some? ==>
          && v.saved.Some?
          && var r := if v.work.Some? then v.work.value.sbx else v.saved.value;
             r.ip.Some? && v.live.value == NetOf(cfg, r, v.live.value.nameservers))
  }

  /** How far the installation has got at each stage of the work. */
  predicate Staged(v: View) {
    match v.work
    case None => true
    case Some(Policed(r, n)) => v.live.Some? && Stretch(Forwarded(v), ForwardsOf(r.ports), n)
    case Some(Building(_)) => true
    case Some(Cleaning(_, _)) => true
    case Some(Unpublished(_, _)) => v.pub.None?
    case Some(Resolved(r)) => v.live.None? && r.ip.Some?
    case Some(_) => v.live.None?
  }

  predicate RunningSaved(v: View) {
    v.saved.Some? && v.saved.value.phase == Running && (v.work.Some? ==> !Removing(v.work.value))
  }

  /** A sandbox saved as running has its address and its policy in place until its removal starts. */
  predicate RunningPoliced(v: View) {
    RunningSaved(v) ==>
      v.live.Some? && v.saved.value.ip == Some(v.live.value.ip) && (v.work.Some? ==> v.work.value.Building?)
  }

  ghost predicate InOrder(cfg: Config, id: string, v: View) {
    && Named(cfg, id, v) && Backed(cfg, v) && Staged(v) && RunningPoliced(v)
    && (v.saved.Some? ==> Coherent(v.saved.value))
  }

  ghost predicate AllInOrder(cfg: Config, b: Books) {
    forall id :: InOrder(cfg, id, ViewOf(b, id))
  }

  /** The sandbox a step is about, if it is about one. */
  function Actor(s: Step): Option<string> {
    match s
    case EnsureGlobals(_) => None
    case SweepNat(_) => None
    case PortStep(_) => None
    case Create(req, _) => Some(req.id)
    case _ => Some(s.id)
  }

  lemma OthersUntouched(cfg: Config, b: Books, s: Step, id: string)
    requires Ready(cfg, b, s) && Actor(s) != Some(id) && !s.SweepNat?
    ensures ViewOf(Moved(cfg, b, s), id) == ViewOf(b, id)
  {
    hide RefreshRecord, FailRecord;
  }

  lemma SweptInOrder(cfg: Config, b: Books, keep: set<string>, id: string)
    requires InOrder(cfg, id, ViewOf(b, id))
    ensures InOrder(cfg, id, ViewOf(Moved(cfg, b, SweepNat(keep)), id))
  {
    hide PortsOk, NetOf;
  }

  lemma RefreshKeepsIdentity(r: Record, obs: map<string, Observation>, now: int, order: seq<string>)
    ensures var next := RefreshRecord(r, obs, now, order);
      && next.id == r.id && next.ip == r.ip && next.ports == r.ports && next.egress == r.egress
      && next.createdAt == r.createdAt
  {
    hide AnyError, AllRunning, Refreshed, FirstError;
  }

  predicate Installing(s: Step) {
    s.ApplyPolicy? || s.PublishNext? || s.SaveRunning? || s.SaveFails? || s.Fail?
  }

  lemma NextStretch(xs: seq<Forward>, fs: seq<Forward>, n: nat)
    requires Stretch(xs, fs, n) && n < |fs|
    ensures Stretch(xs + [fs[n]], fs, n + 1)
  {
  }

  /** The acting sandbox stays in order. */
  lemma InstallerInOrder(cfg: Config, b: Books, s: Step, id: string)
    requires InOrder(cfg, id, ViewOf(b, id)) && Ready(cfg, b, s) && Actor(s) == Some(id) && Installing(s)
    ensures InOrder(cfg, id, ViewOf(Moved(cfg, b, s), id))
  {
    hide RefreshRecord, PortsOk, PublishedOf, InOrder, Ready, Moved;
    if s.ApplyPolicy? || s.PublishNext? {
      PublisherInOrder(cfg, b, s, id);
    } else {
      SaverInOrder(cfg, b, s, id);
    }
  }

  lemma PublisherInOrder(cfg: Config, b: Books, s: Step, id: string)
    requires InOrder(cfg, id, ViewOf(b, id)) && Ready(cfg, b, s) && Actor(s) == Some(id)
    requires s.ApplyPolicy? || s.PublishNext?
    ensures InOrder(cfg, id, ViewOf(Moved(cfg, b, s), id))
  {
    hide PortsOk, PublishedOf;
    if s.PublishNext? {
      NextStretch(Forwarded(ViewOf(b, id)), ForwardsOf(b.jobs[id].sbx.ports), b.jobs[id].published);
    }
  }

  lemma SaverInOrder(cfg: Config, b: Books, s: Step, id: string)
    requires InOrder(cfg, id, ViewOf(b, id)) && Ready(cfg, b, s) && Actor(s) == Some(id)
    requires s.SaveRunning? || s.SaveFails? || s.Fail?
    ensures InOrder(cfg, id, ViewOf(Moved(cfg, b, s), id))
  {
    hide RefreshRecord, PortsOk, PublishedOf, Visits;
    if !s.Fail? {
      RefreshKeepsIdentity(b.jobs[id].sbx, s.obs, s.now, s.order);
    }
  }

  predicate TearingDown(s: Step) {
    s.BeginDelete? || s.Finalize? || s.CleanDnat? || s.CleanPolicy? || s.EndCleanup?
  }

  lemma RemoverInOrder(cfg: Config, b: Books, s: Step, id: string)
    requires InOrder(cfg, id, ViewOf(b, id)) && Ready(cfg, b, s) && Actor(s) == Some(id) && TearingDown(s)
    ensures InOrder(cfg, id, ViewOf(Moved(cfg, b, s), id))
  {
    hide InOrder, Ready, Moved, ViewOf;
    if s.BeginDelete? || s.Finalize? {
      DeleterInOrder(cfg, b, s, id);
    } else {
      CleanerInOrder(cfg, b, s, id);
    }
  }

  lemma DeleterInOrder(cfg: Config, b: Books, s: Step, id: string)
    requires InOrder(cfg, id, ViewOf(b, id)) && Ready(cfg, b, s) && Actor(s) == Some(id)
    requires s.BeginDelete? || s.Finalize?
    ensures InOrder(cfg, id, ViewOf(Moved(cfg, b, s), id))
  {
    hide PortsOk, PublishedOf, ForwardsOf, Stretch;
  }

  lemma CleanerInOrder(cfg: Config, b: Books, s: Step, id: string)
    requires InOrder(cfg, id, ViewOf(b, id)) && Ready(cfg, b, s) && Actor(s) == Some(id)
    requires s.CleanDnat? || s.CleanPolicy? || s.EndCleanup?
    ensures InOrder(cfg, id, ViewOf(Moved(cfg, b, s), id))
  {
    hide PortsOk, PublishedOf, ForwardsOf, Stretch;
  }

  lemma OtherActorInOrder(cfg: Config, b: Books, s: Step, id: string)
    requires InOrder(cfg, id, ViewOf(b, id)) && Ready(cfg, b, s) && Actor(s) == Some(id) && !Installing(s)
               && !TearingDown(s)
    ensures InOrder(cfg, id, ViewOf(Moved(cfg, b, s), id))
  {
    hide RefreshRecord, PortsOk, PublishedOf, ForwardsOf, Stretch;
  }

  lemma BooksStayInOrder(cfg: Config, b: Books, s: Step)
    requires AllInOrder(cfg, b) && Ready(cfg, b, s)
    ensures AllInOrder(cfg, Moved(cfg, b, s))
  {
    hide InOrder, Ready, Moved, ViewOf, Actor;
    forall id ensures InOrder(cfg, id, ViewOf(Moved(cfg, b, s), id)) {
      assert InOrder(cfg, id, ViewOf(b, id));
      if Actor(s) == Some(id) {
        if Installing(s) {
          InstallerInOrder(cfg, b, s, id);
        } else if TearingDown(s) {
          RemoverInOrder(cfg, b, s, id);
        } else {
          OtherActorInOrder(cfg, b, s, id);
        }
      } else if s.SweepNat? {
        SweptInOrder(cfg, b, s.keep, id);
      } else {
        OthersUntouched(cfg, b, s, id);
      }
    }
  }

  // The port protocol inside.

  /** The protocol's store is the saved sandboxes' keys. */
  predicate Linked(b: Books) {
    b.ports.store == KeyStore(b.store)
  }

  /** A sandbox under removal has no port business but its removal. */
  predicate DropsLocked(b: Books) {
    forall id :: id in b.jobs && Removing(b.jobs[id]) && id in b.ports.jobs ==> b.ports.jobs[id].Removing?
  }

  ghost predicate PortsInOrder(cfg: Config, b: Books) {
    PP.Books(cfg.mode, b.ports) && Linked(b) && DropsLocked(b)
  }

  lemma SamePortsSameKeys(store: map<string, Record>, id: string, r: Record)
    requires id in store && r.ports == store[id].ports
    ensures KeyStore(store[id := r]) == KeyStore(store)
  {
  }

  lemma FailKeepsIdentity(r: Record, message: string, now: int)
    ensures var next := FailRecord(r, message, now);
      && next.id == r.id && next.ip == r.ip && next.ports == r.ports && next.egress == r.egress
      && next.createdAt == r.createdAt
  {
  }

  /** Of the saved sandboxes' keys a step changes only those of a sandbox it creates or drops. */
  lemma MovedKeys(cfg: Config, b: Books, s: Step)
    requires AllInOrder(cfg, b) && Ready(cfg, b, s)
    ensures KeyStore(Moved(cfg, b, s).store)
         == match s
            case Create(req, _) => KeyStore(b.store)[req.id := KeysOf(req.ports)]
            case EndCleanup(id) => if b.jobs[id].drop then KeyStore(b.store) - {id} else KeyStore(b.store)
            case _ => KeyStore(b.store)
  {
    hide AllInOrder, Ready, Moved, KeysOf, NewRecord, KeyStore;
    match s
    case Create(req, now) => CreatedKeys(cfg, b, req, now);
    case EndCleanup(id) => DroppedKeys(cfg, b, id);
    case SaveRunning(_, _, _, _) => ProvisionKeys(cfg, b, s);
    case SaveFails(_, _, _, _) => ProvisionKeys(cfg, b, s);
    case Fail(_, _, _) => ProvisionKeys(cfg, b, s);
    case BeginDelete(_, _) => RephasedKeys(cfg, b, s);
    case MarkError(_, _, _) => RephasedKeys(cfg, b, s);
    case TimeOut(_, _) => RephasedKeys(cfg, b, s);
    case _ => OtherKeys(cfg, b, s);
  }

  lemma RephasedKeys(cfg: Config, b: Books, s: Step)
    requires Ready(cfg, b, s) && (s.BeginDelete? || s.MarkError? || s.TimeOut?)
    ensures KeyStore(Moved(cfg, b, s).store) == KeyStore(b.store)
  {
    hide KeyStore;
    SamePortsSameKeys(b.store, s.id, Moved(cfg, b, s).store[s.id]);
  }

  lemma OtherKeys(cfg: Config, b: Books, s: Step)
    requires Ready(cfg, b, s)
    requires !s.Create? && !s.EndCleanup? && !s.SaveRunning? && !s.SaveFails? && !s.Fail?
    requires !s.BeginDelete? && !s.MarkError? && !s.TimeOut?
    ensures KeyStore(Moved(cfg, b, s).store) == KeyStore(b.store)
  {
    hide KeyStore, Ready, NetOf, ForwardsOf;
  }

  lemma ProvisionKeys(cfg: Config, b: Books, s: Step)
    requires AllInOrder(cfg, b) && Ready(cfg, b, s) && (s.SaveRunning? || s.SaveFails? || s.Fail?)
    ensures KeyStore(Moved(cfg, b, s).store) == KeyStore(b.store)
  {
    hide AllInOrder, RefreshRecord, FailRecord, KeyStore;
    var r := b.jobs[s.id].sbx;
    OwnPorts(cfg, b, s.id);
    if s.Fail? {
      FailKeepsIdentity(r, s.message, s.now);
    } else {
      RefreshKeepsIdentity(r, s.obs, s.now, s.order);
      FailKeepsIdentity(RunningRecord(r, s.obs, s.order, s.now), "", s.now);
    }
    SamePortsSameKeys(b.store, s.id, Moved(cfg, b, s).store[s.id]);
  }

  lemma OwnPorts(cfg: Config, b: Books, id: string)
    requires AllInOrder(cfg, b) && id in b.jobs
    ensures id in b.store && b.jobs[id].sbx.ports == b.store[id].ports
  {
    assert InOrder(cfg, id, ViewOf(b, id));
  }

  lemma CreatedKeys(cfg: Config, b: Books, req: Request, now: int)
    requires Ready(cfg, b, Create(req, now))
    ensures KeyStore(Moved(cfg, b, Create(req, now)).store) == KeyStore(b.store)[req.id := KeysOf(req.ports)]
  {
    hide Acceptable, KeysOf, Plan;
  }

  lemma DroppedKeys(cfg: Config, b: Books, id: string)
    requires Ready(cfg, b, EndCleanup(id))
    ensures KeyStore(Moved(cfg, b, EndCleanup(id)).store)
         == if b.jobs[id].drop then KeyStore(b.store) - {id} else KeyStore(b.store)
  {
    hide KeysOf;
  }

  lemma StepKeepsLinked(cfg: Config, b: Books, s: Step)
    requires AllInOrder(cfg, b) && Linked(b) && Enabled(cfg, b, s)
    ensures Linked(BooksAfter(cfg, b, s))
  {
    hide AllInOrder, KeyStore, KeysOf, Moved;
    MovedKeys(cfg, b, s);
  }

  lemma StepKeepsDropsLocked(cfg: Config, b: Books, s: Step)
    requires AllInOrder(cfg, b) && Linked(b) && DropsLocked(b) && Enabled(cfg, b, s)
    ensures DropsLocked(BooksAfter(cfg, b, s))
  {
    hide AllInOrder, PP.Enabled, PP.Effect, KeyStore, Ready, Moved, DropsLocked, Linked;
    match s
    case PortStep(act) => PortStepKeepsDropsLocked(cfg, b, act);
    case Create(req, now) => CreateKeepsDropsLocked(cfg, b, req, now);
    case BeginDelete(id, now) => BeginDeleteKeepsDropsLocked(cfg, b, id, now);
    case EndCleanup(id) => EndCleanupKeepsDropsLocked(cfg, b, id);
    case Finalize(_) => RemovalStepKeepsDropsLocked(cfg, b, s);
    case CleanDnat(_) => RemovalStepKeepsDropsLocked(cfg, b, s);
    case CleanPolicy(_) => RemovalStepKeepsDropsLocked(cfg, b, s);
    case _ => OtherStepKeepsDropsLocked(cfg, b, s);
  }

  lemma CreateKeepsDropsLocked(cfg: Config, b: Books, req: Request, now: int)
    requires DropsLocked(b) && Enabled(cfg, b, Create(req, now))
    ensures DropsLocked(BooksAfter(cfg, b, Create(req, now)))
  {
    hide KeysOf, NewRecord, Acceptable;
  }

  lemma BeginDeleteKeepsDropsLocked(cfg: Config, b: Books, id: string, now: int)
    requires Linked(b) && DropsLocked(b) && Enabled(cfg, b, BeginDelete(id, now))
    ensures DropsLocked(BooksAfter(cfg, b, BeginDelete(id, now)))
  {
    hide KeysOf, Linked;
    LinkedAt(b, id);
  }

  lemma EndCleanupKeepsDropsLocked(cfg: Config, b: Books, id: string)
    requires DropsLocked(b) && Enabled(cfg, b, EndCleanup(id))
    ensures DropsLocked(BooksAfter(cfg, b, EndCleanup(id)))
  {
  }

  lemma RemovalStepKeepsDropsLocked(cfg: Config, b: Books, s: Step)
    requires DropsLocked(b) && Ready(cfg, b, s) && (s.Finalize? || s.CleanDnat? || s.CleanPolicy?)
    ensures DropsLocked(Moved(cfg, b, s).(ports := b.ports))
  {
    hide NetOf, ForwardsOf, FailRecord, RunningRecord;
  }

  /** The other steps start no removal. */
  lemma OtherStepKeepsDropsLocked(cfg: Config, b: Books, s: Step)
    requires DropsLocked(b) && Ready(cfg, b, s) && PortAction(b, s) == None
    requires !s.Finalize? && !s.CleanDnat? && !s.CleanPolicy? && !s.EndCleanup?
    ensures DropsLocked(Moved(cfg, b, s).(ports := b.ports))
  {
    hide Ready, NetOf, ForwardsOf, FailRecord, RunningRecord;
  }

  lemma PortStepKeepsDropsLocked(cfg: Config, b: Books, act: PP.Action)
    requires AllInOrder(cfg, b) && Linked(b) && DropsLocked(b) && Enabled(cfg, b, PortStep(act))
    ensures DropsLocked(BooksAfter(cfg, b, PortStep(act)))
  {
    hide AllInOrder, Linked, PP.Enabled, PP.Effect;
    forall id | id in b.jobs && Removing(b.jobs[id]) && id in PP.Effect(cfg.mode, b.ports, act).jobs
      ensures PP.Effect(cfg.mode, b.ports, act).jobs[id].Removing?
    {
      OwnPorts(cfg, b, id);
      LinkedAt(b, id);
      LinkedAt(b, act.id);
      PP.RemovalStays(cfg.mode, b.ports, act, id);
    }
  }

  lemma LinkedAt(b: Books, id: string)
    requires Linked(b)
    ensures id in b.ports.store <==> id in b.store
  {
  }

  lemma StepKeepsPorts(cfg: Config, b: Books, s: Step)
    requires AllInOrder(cfg, b) && PortsInOrder(cfg, b) && Enabled(cfg, b, s)
    ensures PortsInOrder(cfg, BooksAfter(cfg, b, s))
  {
    hide AllInOrder, PP.Books, Linked, DropsLocked, Ready, Moved, PP.Enabled, PP.Effect, PortAction;
    StepKeepsLinked(cfg, b, s);
    StepKeepsDropsLocked(cfg, b, s);
    if PortAction(b, s).Some? {
      PP.StepKeepsBooks(cfg.mode, b.ports, PortAction(b, s).value);
    }
  }

  // The tables.

  lemma LiveOf(cfg: Config, b: Books, id: string)
    requires AllInOrder(cfg, b) && id in b.live
    ensures id in b.store && id in cfg.ids && b.live[id].id == id && b.live[id].short == cfg.short(id)
    ensures var r := if id in b.jobs then b.jobs[id].sbx else b.store[id];
      r.ip.Some? && b.live[id] == NetOf(cfg, r, b.live[id].nameservers)
  {
    assert InOrder(cfg, id, ViewOf(b, id));
  }

  lemma ShortsApart(cfg: Config, b: Books, id: string)
    requires Proper(cfg) && AllInOrder(cfg, b) && id in cfg.ids
    ensures forall m :: m in b.live.Values && m.id != id ==> m.short != cfg.short(id)
    ensures id !in b.live ==> forall m :: m in b.live.Values ==> m.id != id
    ensures id in b.live ==> forall m :: m in b.live.Values && m.id == id ==> m == b.live[id]
  {
    forall m | m in b.live.Values
      ensures m.id in b.live && b.live[m.id] == m && m.id in cfg.ids && m.short == cfg.short(m.id)
    {
      var x :| x in b.live && b.live[x] == m;
      LiveOf(cfg, b, x);
    }
  }

  lemma LiveWithout(cfg: Config, b: Books, id: string)
    requires AllInOrder(cfg, b) && id in b.live
    ensures (b.live - {id}).Values == b.live.Values - {b.live[id]}
  {
    forall m ensures m in (b.live - {id}).Values <==> m in b.live.Values && m != b.live[id] {
      if m in (b.live - {id}).Values {
        var x :| x in b.live && x != id && b.live[x] == m;
        LiveOf(cfg, b, x);
        LiveOf(cfg, b, id);
      }
      if m in b.live.Values && m != b.live[id] {
        var x :| x in b.live && b.live[x] == m;
        assert x in b.live - {id} && (b.live - {id})[x] == m;
      }
    }
  }

  lemma LiveWith(live: map<string, Net>, id: string, n: Net)
    requires id !in live
    ensures live[id := n].Values == live.Values + {n}
  {
    forall m ensures m in live[id := n].Values <==> m in live.Values || m == n {
      if m in live.Values {
        var x :| x in live && live[x] == m;
        assert x in live[id := n] && live[id := n][x] == m;
      }
      assert id in live[id := n] && live[id := n][id] == n;
    }
  }

  /** Deleting looks only at the address, the ports and the names. */
  lemma DeleteIgnores(t: Table, n: Net, m: Net)
    requires n.short == m.short && n.ip == m.ip && n.bridgeIf == m.bridgeIf && n.ports == m.ports
    ensures DeleteTable(t, n) == DeleteTable(t, m)
  {
  }

  lemma DeleteForeignNet(cfg: Config, t: Table, b: Books, n: Net)
    requires Proper(cfg) && AllInOrder(cfg, b) && Guarded(t, b.live.Values)
    requires n.id in cfg.ids && n.id !in b.live && n.short == cfg.short(n.id)
    ensures Guarded(DeleteTable(t, n), b.live.Values)
  {
    hide Guarded, DeleteTable, InOrder;
    ShortsApart(cfg, b, n.id);
    assert n !in b.live.Values;
    assert b.live.Values - {n} == b.live.Values;
    DeleteKeepsGuard(t, b.live.Values, n);
  }

  lemma CleanPolicyKeepsGuard(cfg: Config, t: Table, b: Books, id: string)
    requires Proper(cfg) && AllInOrder(cfg, b) && Guarded(t, b.live.Values) && Ready(cfg, b, CleanPolicy(id))
    ensures Guarded(FilterAfter(cfg, t, b, CleanPolicy(id)), Moved(cfg, b, CleanPolicy(id)).live.Values)
  {
    hide Guarded, DeleteTable;
    assert InOrder(cfg, id, ViewOf(b, id));
    var r := b.jobs[id].sbx;
    if id in b.live {
      LiveOf(cfg, b, id);
      LiveWithout(cfg, b, id);
      ShortsApart(cfg, b, id);
      DeleteIgnores(t, NetOf(cfg, r, []), b.live[id]);
      DeleteKeepsGuard(t, b.live.Values, b.live[id]);
    } else {
      assert b.live - {id} == b.live;
      if r.ip.Some? {
        DeleteForeignNet(cfg, t, b, NetOf(cfg, r, []));
      }
    }
  }

  lemma ApplyPolicyKeepsGuard(cfg: Config, t: Table, b: Books, id: string, nameservers: seq<Cidr>)
    requires Proper(cfg) && AllInOrder(cfg, b) && Guarded(t, b.live.Values)
               && Ready(cfg, b, ApplyPolicy(id, nameservers))
    ensures ApplyTable(t, NetOf(cfg, b.jobs[id].sbx, nameservers)).ok
    ensures Guarded(FilterAfter(cfg, t, b, ApplyPolicy(id, nameservers)),
                    Moved(cfg, b, ApplyPolicy(id, nameservers)).live.Values)
  {
    hide ApplyTable, Guarded;
    var n := NetOf(cfg, b.jobs[id].sbx, nameservers);
    NewNetApart(cfg, b, id, nameservers);
    LiveWith(b.live, id, n);
    GuardedDistinct(t, b.live.Values);
    ApplyKeepsGuard(t, b.live.Values, n);
  }

  lemma GuardedDistinct(t: Table, live: set<Net>)
    requires Guarded(t, live)
    ensures Distinct(live)
  {
  }

  lemma NewNetApart(cfg: Config, b: Books, id: string, nameservers: seq<Cidr>)
    requires Proper(cfg) && AllInOrder(cfg, b) && Ready(cfg, b, ApplyPolicy(id, nameservers))
    ensures id !in b.live
    ensures var n := NetOf(cfg, b.jobs[id].sbx, nameservers);
      n !in b.live.Values && forall m :: m in b.live.Values ==> m.ip != n.ip && m.short != n.short
  {
    assert InOrder(cfg, id, ViewOf(b, id));
    ShortsApart(cfg, b, id);
    forall m | m in b.live.Values ensures m.ip != b.jobs[id].sbx.ip.value {
      var x :| x in b.live && b.live[x] == m;
    }
  }

  lemma StepKeepsGuard(cfg: Config, t: Table, b: Books, s: Step)
    requires Proper(cfg) && AllInOrder(cfg, b) && Guarded(t, b.live.Values) && Ready(cfg, b, s)
    ensures Guarded(FilterAfter(cfg, t, b, s), Moved(cfg, b, s).live.Values)
  {
    hide Guarded, Ready, Moved, FilterAfter, Proper, AllInOrder;
    match s
    case EnsureGlobals(hooks) => GlobalsKeepGuard(cfg, t, b, hooks);
    case ApplyPolicy(id, nameservers) => ApplyPolicyKeepsGuard(cfg, t, b, id, nameservers);
    case CleanPolicy(id) => CleanPolicyKeepsGuard(cfg, t, b, id);
    case CleanOrphan(id, cached) => CleanOrphanKeepsGuard(cfg, t, b, id, cached);
    case _ => OtherStepKeepsGuard(cfg, t, b, s);
  }

  lemma GlobalsKeepGuard(cfg: Config, t: Table, b: Books, hooks: seq<string>)
    requires Guarded(t, b.live.Values) && Ready(cfg, b, EnsureGlobals(hooks))
    ensures Guarded(FilterAfter(cfg, t, b, EnsureGlobals(hooks)), Moved(cfg, b, EnsureGlobals(hooks)).live.Values)
  {
    hide Guarded, EnsureTable;
    EnsureKeepsGuard(t, b.live.Values, hooks);
  }

  lemma CleanOrphanKeepsGuard(cfg: Config, t: Table, b: Books, id: string, cached: Option<nat>)
    requires Proper(cfg) && AllInOrder(cfg, b) && Guarded(t, b.live.Values) && Ready(cfg, b, CleanOrphan(id, cached))
    ensures Guarded(FilterAfter(cfg, t, b, CleanOrphan(id, cached)), Moved(cfg, b, CleanOrphan(id, cached)).live.Values)
  {
    hide Guarded, DeleteTable, Proper;
    assert InOrder(cfg, id, ViewOf(b, id));
    if cached.Some? {
      DeleteForeignNet(cfg, t, b, OrphanNet(cfg, id, cached.value));
    }
  }

  lemma OtherStepKeepsGuard(cfg: Config, t: Table, b: Books, s: Step)
    requires Guarded(t, b.live.Values) && Ready(cfg, b, s)
    requires !s.EnsureGlobals? && !s.ApplyPolicy? && !s.CleanPolicy? && !s.CleanOrphan?
    ensures Guarded(FilterAfter(cfg, t, b, s), Moved(cfg, b, s).live.Values)
  {
    hide Guarded, Ready;
  }

  lemma PortsValid(ports: seq<PortMapping>)
    requires PortsOk(ports, |ports|)
    ensures |ForwardsOf(ports)| == |ports| && forall i :: 0 <= i < |ports| ==> ValidProto(ForwardsOf(ports)[i])
  {
    forall i | 0 <= i < |ports| ensures ValidProto(ForwardsOf(ports)[i]) {
      assert PortOk(ports, i);
    }
  }

  lemma UnpublishLegal(cfg: Config, b: Books, id: string, ip: nat, fs: seq<Forward>)
    requires Proper(cfg) && AllInOrder(cfg, b) && id in cfg.ids && forall i :: 0 <= i < |fs| ==> ValidProto(fs[i])
    ensures NatLegal(cfg.listing, b.pubs, Unpublish(id, ip, fs))
  {
    forall x | x in b.pubs ensures x in cfg.ids {
      assert InOrder(cfg, x, ViewOf(b, x));
    }
  }

  lemma StepKeepsNat(cfg: Config, t: Table, b: Books, s: Step)
    requires Proper(cfg) && AllInOrder(cfg, b) && NatHolds(t, b.pubs) && Ready(cfg, b, s)
    ensures NatHolds(NatTableAfter(cfg, t, b, s), Moved(cfg, b, s).pubs)
  {
    hide NatHolds, PublishOne, CleanedTable, SweptTable, PortsOk, ValidProto, WellId, NatLegal;
    match s
    case PublishNext(id) => PublishNextKeepsNat(cfg, t, b, id);
    case CleanDnat(id) => CleanDnatKeepsNat(cfg, t, b, id);
    case CleanOrphan(id, _) => CleanOrphanKeepsNat(cfg, t, b, id);
    case SweepNat(keep) => SweepKeeps(cfg.listing, t, b.pubs, keep);
    case _ =>
  }

  lemma CleanOrphanKeepsNat(cfg: Config, t: Table, b: Books, id: string)
    requires Proper(cfg) && AllInOrder(cfg, b) && NatHolds(t, b.pubs) && id in cfg.ids && id !in b.store
    ensures NatHolds(CleanedTable(t, cfg.listing, id, 0, []), b.pubs)
  {
    hide NatHolds, CleanedTable, ValidProto, WellId, NatLegal;
    assert InOrder(cfg, id, ViewOf(b, id));
    UnpublishLegal(cfg, b, id, 0, []);
    UnpublishKeeps(cfg.listing, t, b.pubs, id, 0, []);
    assert Kept(b.pubs, b.pubs.Keys - {id}) == b.pubs;
  }

  /** A removal's own arguments name all the sandbox has published. */
  lemma OwnPortsNamed(cfg: Config, b: Books, id: string)
    requires AllInOrder(cfg, b) && id in b.jobs && id in b.pubs
    ensures var r := b.jobs[id].sbx;
      r.ip.Some? && b.pubs[id].ip == Address(r) && forall f :: f in b.pubs[id].forwards ==> f in ForwardsOf(r.ports)
  {
    hide PortsOk, ForwardsOf;
    assert InOrder(cfg, id, ViewOf(b, id));
    var n: nat :| Stretch(b.pubs[id].forwards, ForwardsOf(b.store[id].ports), n);
  }

  lemma CleanDnatKeepsNat(cfg: Config, t: Table, b: Books, id: string)
    requires Proper(cfg) && AllInOrder(cfg, b) && NatHolds(t, b.pubs) && Ready(cfg, b, CleanDnat(id))
    ensures NatHolds(NatTableAfter(cfg, t, b, CleanDnat(id)), Kept(b.pubs, b.pubs.Keys - {id}))
  {
    hide NatHolds, CleanedTable, PortsOk, ValidProto, WellId, NatLegal, ForwardsOf;
    assert InOrder(cfg, id, ViewOf(b, id));
    var r := b.jobs[id].sbx;
    var fs := if r.ip.Some? then ForwardsOf(r.ports) else [];
    PortsValid(r.ports);
    UnpublishLegal(cfg, b, id, Address(r), fs);
    UnpublishKeeps(cfg.listing, t, b.pubs, id, Address(r), fs);
    if id in b.pubs {
      OwnPortsNamed(cfg, b, id);
    }
    TrimmedAll(b.pubs, id, Address(r), fs);
  }

  lemma PublishNextKeepsNat(cfg: Config, t: Table, b: Books, id: string)
    requires Proper(cfg) && AllInOrder(cfg, b) && NatHolds(t, b.pubs) && Ready(cfg, b, PublishNext(id))
    ensures NatHolds(NatTableAfter(cfg, t, b, PublishNext(id)), Moved(cfg, b, PublishNext(id)).pubs)
  {
    hide NatHolds, PublishOne, PortsOk, ValidProto, WellId;
    assert InOrder(cfg, id, ViewOf(b, id));
    var r, n := b.jobs[id].sbx, b.jobs[id].published;
    PortsValid(r.ports);
    PublishKeeps(t, b.pubs, id, Address(r), ForwardsOf(r.ports)[n]);
  }

  // Runs.

  ghost predicate Sound(cfg: Config, w: World) {
    && AllInOrder(cfg, w.books) && PortsInOrder(cfg, w.books)
    && Guarded(w.filter, w.books.live.Values) && NatHolds(w.nat_, w.books.pubs)
  }

  lemma StepKeepsSound(cfg: Config, w: World, s: Step)
    requires Proper(cfg) && Sound(cfg, w) && Enabled(cfg, w.books, s)
    ensures Sound(cfg, Stepped(cfg, w, s))
  {
    hide InOrder, PortsInOrder, Guarded, NatHolds, Ready, Moved, FilterAfter, NatTableAfter, PP.Enabled, PortsAfter;
    BooksStayInOrder(cfg, w.books, s);
    StepKeepsPorts(cfg, w.books, s);
    StepKeepsGuard(cfg, w.filter, w.books, s);
    StepKeepsNat(cfg, w.nat_, w.books, s);
    SameViews(cfg, Moved(cfg, w.books, s), BooksAfter(cfg, w.books, s));
  }

  lemma SameViews(cfg: Config, a: Books, b: Books)
    requires AllInOrder(cfg, a) && a.live == b.live && a.pubs == b.pubs && a.store == b.store && a.jobs == b.jobs
    ensures AllInOrder(cfg, b)
  {
    hide InOrder;
    forall id ensures InOrder(cfg, id, ViewOf(b, id)) {
      assert ViewOf(b, id) == ViewOf(a, id);
    }
  }

  ghost predicate LegalSteps(cfg: Config, b: Books, steps: seq<Step>)
    decreases |steps|
  {
    steps == [] || (Enabled(cfg, b, steps[0]) && LegalSteps(cfg, BooksAfter(cfg, b, steps[0]), steps[1..]))
  }

  ghost function WorldAfter(cfg: Config, w: World, steps: seq<Step>): World
    requires LegalSteps(cfg, w.books, steps)
    decreases |steps|
  {
    if steps == [] then w else WorldAfter(cfg, Stepped(cfg, w, steps[0]), steps[1..])
  }

  lemma {:induction false} StepsKeepSound(cfg: Config, w: World, steps: seq<Step>)
    requires Proper(cfg) && Sound(cfg, w) && LegalSteps(cfg, w.books, steps)
    ensures Sound(cfg, WorldAfter(cfg, w, steps))
    decreases |steps|
  {
    hide Sound, Enabled, BooksAfter, FilterAfter, NatTableAfter;
    if steps != [] {
      StepKeepsSound(cfg, w, steps[0]);
      StepsKeepSound(cfg, Stepped(cfg, w, steps[0]), steps[1..]);
    }
  }

  const NOTHING := Books(map[], map[], map[], map[], PP.START)

  /** A host on which the global chains have just been installed and nothing is published or saved. */
  function Startup(host: Table, nat_: Table, hooks: seq<string>): World {
    World(EnsureTable(host, hooks).table, nat_, NOTHING)
  }

  /** Every interleaving of creations, provisions, failures, removals and reconciles, with the port protocol
      in it and with sweeps however old their lists, from a clean host. */
  lemma AnyRunIsSound(cfg: Config, host: Table, nat_: Table, hooks: seq<string>, steps: seq<Step>)
    requires Proper(cfg) && CleanHost(host) && Legal({}, Ensure(hooks)) && NatHolds(nat_, map[])
    requires LegalSteps(cfg, NOTHING, steps)
    ensures Sound(cfg, WorldAfter(cfg, Startup(host, nat_, hooks), steps))
  {
    StartIsSound(cfg, host, nat_, hooks);
    StepsKeepSound(cfg, Startup(host, nat_, hooks), steps);
  }

  lemma StartIsSound(cfg: Config, host: Table, nat_: Table, hooks: seq<string>)
    requires CleanHost(host) && Legal({}, Ensure(hooks)) && NatHolds(nat_, map[])
    ensures Sound(cfg, Startup(host, nat_, hooks))
  {
    hide Guarded, NatHolds, EnsureTable;
    EnsureOnCleanHost(host, hooks);
    assert NOTHING.live.Values == {};
    assert KeyStore(map[]) == map[];
  }

  // The lifecycle refines the port protocol.

  /** The port protocol's part in a run. */
  ghost function PortRun(cfg: Config, b: Books, steps: seq<Step>): seq<PP.Action>
    requires LegalSteps(cfg, b, steps)
    decreases |steps|
  {
    if steps == [] then []
    else
      var first := PortAction(b, steps[0]);
      (if first.Some? then [first.value] else []) + PortRun(cfg, BooksAfter(cfg, b, steps[0]), steps[1..])
  }

  /** The port protocol's part in any run is a run of the port protocol. */
  lemma {:induction false} PortRunIsRun(cfg: Config, w: World, steps: seq<Step>)
    requires LegalSteps(cfg, w.books, steps)
    ensures PP.LegalRun(cfg.mode, w.books.ports, PortRun(cfg, w.books, steps))
    ensures PP.RunState(cfg.mode, w.books.ports, PortRun(cfg, w.books, steps)) == WorldAfter(cfg, w, steps).books.ports
    decreases |steps|
  {
    hide Ready, Moved, FilterAfter, NatTableAfter, PP.Enabled, PP.Effect, PortAction;
    if steps != [] {
      var next := Stepped(cfg, w, steps[0]);
      PortRunIsRun(cfg, next, steps[1..]);
      var rest := PortRun(cfg, next.books, steps[1..]);
      var first := PortAction(w.books, steps[0]);
      if first.Some? {
        assert ([first.value] + rest)[1..] == rest;
      } else {
        assert [] + rest == rest;
      }
    }
  }

  lemma {:induction false} OneStepMore(cfg: Config, w: World, steps: seq<Step>, s: Step)
    requires LegalSteps(cfg, w.books, steps) && Enabled(cfg, WorldAfter(cfg, w, steps).books, s)
    ensures LegalSteps(cfg, w.books, steps + [s])
    ensures WorldAfter(cfg, w, steps + [s]) == Stepped(cfg, WorldAfter(cfg, w, steps), s)
    decreases |steps|
  {
    hide Enabled, BooksAfter, FilterAfter, NatTableAfter;
    if steps == [] {
      assert [] + [s] == [s] && [s][1..] == [];
    } else {
      assert (steps + [s])[1..] == steps[1..] + [s];
      OneStepMore(cfg, Stepped(cfg, w, steps[0]), steps[1..], s);
    }
  }

  lemma {:induction false} StepsConcat(cfg: Config, w: World, a: seq<Step>, b: seq<Step>)
    requires LegalSteps(cfg, w.books, a) && LegalSteps(cfg, WorldAfter(cfg, w, a).books, b)
    ensures LegalSteps(cfg, w.books, a + b) && WorldAfter(cfg, w, a + b) == WorldAfter(cfg, WorldAfter(cfg, w, a), b)
    decreases |a|
  {
    hide Enabled, BooksAfter, FilterAfter, NatTableAfter;
    if a == [] {
      assert [] + b == b;
    } else {
      assert (a + b)[1..] == a[1..] + b;
      StepsConcat(cfg, Stepped(cfg, w, a[0]), a[1..], b);
    }
  }
}
