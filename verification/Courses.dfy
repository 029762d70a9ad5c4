/** Stretches of concrete runs: a creation from its claim to its saved state, and on to an address. */
module Courses {
  import opened Text
  import opened Rules
  import opened Firewall
  import opened Policy
  import opened History
  import opened Nat
  import opened Published
  import opened Requests
  import opened Ports
  import opened Sandboxes
  import opened Lifecycle
  import PP = PortProtocol

  /** The steps lead from `w` to these books. */
  ghost predicate Leads(cfg: Config, w: World, steps: seq<Step>, b: Books) {
    LegalSteps(cfg, w.books, steps) && WorldAfter(cfg, w, steps).books == b
  }

  lemma StartLeads(cfg: Config, w: World)
    requires w.books == NOTHING
    ensures Leads(cfg, w, [], NOTHING)
  {
  }

  lemma Arrived(cfg: Config, w: World, steps: seq<Step>, b: Books)
    requires Leads(cfg, w, steps, b)
    ensures LegalSteps(cfg, w.books, steps) && WorldAfter(cfg, w, steps).books == b
  {
  }

  lemma Go(cfg: Config, w: World, steps: seq<Step>, b: Books, s: Step, next: Books) returns (more: seq<Step>)
    requires Leads(cfg, w, steps, b) && Enabled(cfg, b, s) && BooksAfter(cfg, b, s) == next
    ensures Leads(cfg, w, more, next)
  {
    hide Enabled, BooksAfter, FilterAfter, NatTableAfter;
    OneStepMore(cfg, w, steps, s);
    more := steps + [s];
  }

  lemma GoPort(cfg: Config, w: World, steps: seq<Step>, b: Books, act: PP.Action, next: PP.State)
    returns (more: seq<Step>)
    requires Leads(cfg, w, steps, b) && Alone(b, act)
    requires PP.Enabled(cfg.mode, b.ports, act) && PP.Effect(cfg.mode, b.ports, act) == next
    ensures Leads(cfg, w, more, b.(ports := next))
  {
    hide PP.Enabled, PP.Effect, Leads;
    more := Go(cfg, w, steps, b, PortStep(act), b.(ports := next));
  }

  /** A creation the written check lets through goes from its claim to its saved state. */
  lemma CreationCourse(cfg: Config, w: World, steps: seq<Step>, b: Books, req: Request) returns (more: seq<Step>)
    requires Leads(cfg, w, steps, b) && cfg.mode == PP.WRITTEN && Acceptable(req) && req.id in cfg.ids
    requires LockFree(b, req.id) && req.id !in b.store && req.id !in b.ports.store && b.ports.section == None
    requires PP.StorePasses(cfg.mode, b.ports, req.id, KeysOf(req.ports))
               && PP.NoneReserved(b.ports, req.id, KeysOf(req.ports))
    ensures Leads(cfg, w, more, Created(b, req))
  {
    hide Leads, PP.StorePasses, PP.NoneReserved, KeysOf, Acceptable, NewRecord, Reserve;
    var id, keys, p := req.id, KeysOf(req.ports), b.ports;
    var entered := p.(jobs := p.jobs[id := PP.Creation(PP.Entered, keys)]);
    more := GoPort(cfg, w, steps, b, PP.Begin(id, keys), entered);
    SamePasses(cfg.mode, p, entered, id, keys);
    more := CheckCourse(cfg, w, more, b.(ports := entered), id, keys);
    var checked := p.(jobs := p.jobs[id := PP.Creation(PP.Checked, keys)], section := Some(id));
    assert entered.jobs[id := PP.Creation(PP.Checked, keys)] == checked.jobs;
    more := ClaimCourse(cfg, w, more, b.(ports := checked), id, keys);
    var reserved := p.(jobs := p.jobs[id := PP.Creation(PP.Reserved, keys)], reserved := Reserve(p.reserved, id, keys));
    assert checked.jobs[id := PP.Creation(PP.Reserved, keys)] == reserved.jobs;
    more := SaveCourse(cfg, w, more, b.(ports := reserved), req);
    assert reserved.jobs[id := PP.Creation(PP.Saved, keys)] == p.jobs[id := PP.Creation(PP.Saved, keys)];
  }

  lemma ClaimCourse(cfg: Config, w: World, steps: seq<Step>, b: Books, id: string, keys: set<Key>)
    returns (more: seq<Step>)
    requires Leads(cfg, w, steps, b) && PP.At(b.ports, id, PP.Checked) && b.ports.jobs[id].keys == keys
    ensures Leads(cfg, w, more, b.(ports := b.ports.(jobs := b.ports.jobs[id := PP.Creation(PP.Reserved, keys)],
                                                     reserved := Reserve(b.ports.reserved, id, keys), section := None)))
  {
    hide Leads, Reserve;
    var p := b.ports;
    var claimed := p.(jobs := p.jobs[id := PP.Creation(PP.Claimed, keys)], reserved := Reserve(p.reserved, id, keys));
    var reserved := claimed.(jobs := p.jobs[id := PP.Creation(PP.Reserved, keys)], section := None);
    assert claimed.jobs[id := PP.Creation(PP.Reserved, keys)] == reserved.jobs;
    more := GoPort(cfg, w, steps, b, PP.Claim(id), claimed);
    more := GoPort(cfg, w, more, b.(ports := claimed), PP.LeavePorts(id), reserved);
  }

  lemma SaveCourse(cfg: Config, w: World, steps: seq<Step>, b: Books, req: Request) returns (more: seq<Step>)
    requires Leads(cfg, w, steps, b) && Acceptable(req) && req.id in cfg.ids && req.id !in b.jobs && req.id !in b.store
    requires PP.At(b.ports, req.id, PP.Reserved) && b.ports.jobs[req.id].keys == KeysOf(req.ports)
    ensures var id, keys, r := req.id, KeysOf(req.ports), NewRecord(req, 0);
      Leads(cfg, w, more, b.(store := b.store[id := r], jobs := b.jobs[id := Starting(r)],
                             ports := b.ports.(store := b.ports.store[id := keys],
                                               jobs := b.ports.jobs[id := PP.Creation(PP.Saved, keys)])))
  {
    hide Leads, Acceptable, NewRecord, KeysOf;
    var id, keys, r := req.id, KeysOf(req.ports), NewRecord(req, 0);
    more := Go(cfg, w, steps, b, Create(req, 0),
               b.(store := b.store[id := r], jobs := b.jobs[id := Starting(r)],
                  ports := b.ports.(store := b.ports.store[id := keys],
                                    jobs := b.ports.jobs[id := PP.Creation(PP.Saved, keys)])));
  }

  lemma SamePasses(mode: PP.Mode, p: PP.State, q: PP.State, id: string, keys: set<Key>)
    requires p.store == q.store && p.reserved == q.reserved
    requires PP.StorePasses(mode, p, id, keys) && PP.NoneReserved(p, id, keys)
    ensures PP.StorePasses(mode, q, id, keys) && PP.NoneReserved(q, id, keys)
  {
    assert forall k :: PP.HeldElsewhere(p, id, k) <==> PP.HeldElsewhere(q, id, k);
    assert forall k :: PP.Shadowed(p, id, k) <==> PP.Shadowed(q, id, k);
  }

  lemma NothingHeld(mode: PP.Mode, id: string, keys: set<Key>)
    ensures PP.StorePasses(mode, PP.START, id, keys) && PP.NoneReserved(PP.START, id, keys)
  {
  }

  /** The books after the creation. */
  function Created(b: Books, req: Request): Books {
    var id, keys := req.id, KeysOf(req.ports);
    b.(store := b.store[id := NewRecord(req, 0)], jobs := b.jobs[id := Starting(NewRecord(req, 0))],
       ports := PP.State(b.ports.store[id := keys], Reserve(b.ports.reserved, id, keys),
                         b.ports.jobs[id := PP.Creation(PP.Saved, keys)], None))
  }

  lemma CheckCourse(cfg: Config, w: World, steps: seq<Step>, b: Books, id: string, keys: set<Key>)
    returns (more: seq<Step>)
    requires Leads(cfg, w, steps, b) && cfg.mode == PP.WRITTEN && b.ports.section == None
    requires PP.At(b.ports, id, PP.Entered) && b.ports.jobs[id].keys == keys
    requires PP.StorePasses(cfg.mode, b.ports, id, keys) && PP.NoneReserved(b.ports, id, keys)
    ensures Leads(cfg, w, more, b.(ports := b.ports.(jobs := b.ports.jobs[id := PP.Creation(PP.Checked, keys)],
                                                     section := Some(id))))
  {
    hide Leads;
    var p := b.ports;
    var holding := p.(jobs := p.jobs[id := PP.Creation(PP.Holding, keys)], section := Some(id));
    var half := holding.(jobs := p.jobs[id := PP.Creation(PP.HalfRead, keys)]);
    var checked := holding.(jobs := p.jobs[id := PP.Creation(PP.Checked, keys)]);
    more := GoPort(cfg, w, steps, b, PP.TakePorts(id), holding);
    more := GoPort(cfg, w, more, b.(ports := holding), PP.ReadFirst(id), half);
    more := GoPort(cfg, w, more, b.(ports := half), PP.ReadSecond(id), checked);
  }

  /** The books once the sandbox has its address. */
  function Addressed(b: Books, id: string, r: Record, ip: nat): Books {
    b.(jobs := b.jobs[id := Resolved(r.(ip := Some(ip)))])
  }

  lemma AddressCourse(cfg: Config, w: World, steps: seq<Step>, b: Books, id: string, r: Record, ip: nat)
    returns (more: seq<Step>)
    requires Leads(cfg, w, steps, b) && id in b.jobs && b.jobs[id] == Starting(r) && id !in b.live
    ensures Leads(cfg, w, more, Addressed(b, id, r, ip))
  {
    hide Leads;
    var building := b.(jobs := b.jobs[id := Building(r)]);
    more := Go(cfg, w, steps, b, Start(id), building);
    more := Go(cfg, w, more, building, Resolve(id, ip), Addressed(b, id, r, ip));
  }

  /** The books once the sandbox has its policy too. */
  function PolicyIn(cfg: Config, b: Books, id: string, r: Record): Books
    requires r.ip.Some?
  {
    b.(live := b.live[id := NetOf(cfg, r, [])], jobs := b.jobs[id := Policed(r, 0)])
  }

  lemma PolicyCourse(cfg: Config, w: World, steps: seq<Step>, b: Books, id: string, r: Record, ip: nat)
    returns (more: seq<Step>)
    requires Leads(cfg, w, steps, b) && id in b.jobs && b.jobs[id] == Starting(r) && id !in b.live
    requires forall x :: x in b.live ==> b.live[x].ip != ip
    ensures Leads(cfg, w, more, PolicyIn(cfg, b, id, r.(ip := Some(ip))))
  {
    hide Leads, NetOf;
    more := AddressCourse(cfg, w, steps, b, id, r, ip);
    more := Go(cfg, w, more, Addressed(b, id, r, ip), ApplyPolicy(id, []), PolicyIn(cfg, b, id, r.(ip := Some(ip))));
  }

  /** The books once a provision has failed at its address and is cleaned up. */
  function GivenUp(b: Books, id: string, r: Record): Books {
    b.(store := b.store[id := FailRecord(r, r.error, 0)], jobs := b.jobs - {id})
  }

  lemma FailStep(cfg: Config, b: Books, id: string, r: Record)
    requires id in b.jobs && b.jobs[id] == Resolved(r)
    ensures Enabled(cfg, b, Fail(id, r.error, 0))
    ensures var f := FailRecord(r, r.error, 0);
      BooksAfter(cfg, b, Fail(id, r.error, 0))
      == b.(store := b.store[id := f], jobs := b.jobs[id := Cleaning(f, false)])
  {
    hide FailRecord;
  }

  lemma KeepStep(cfg: Config, b: Books, id: string)
    requires id in b.jobs && b.jobs[id].Cleaned? && !b.jobs[id].drop
    ensures Enabled(cfg, b, EndCleanup(id)) && BooksAfter(cfg, b, EndCleanup(id)) == b.(jobs := b.jobs - {id})
  {
  }

  lemma DnatStep(cfg: Config, b: Books, id: string, r: Record, drop: bool)
    requires id in b.jobs && b.jobs[id] == Cleaning(r, drop) && id !in b.pubs
    ensures Enabled(cfg, b, CleanDnat(id))
    ensures BooksAfter(cfg, b, CleanDnat(id)) == b.(jobs := b.jobs[id := Unpublished(r, drop)])
  {
    assert Kept(b.pubs, b.pubs.Keys - {id}) == b.pubs;
  }

  lemma PolicyStep(cfg: Config, b: Books, id: string, r: Record, drop: bool)
    requires id in b.jobs && b.jobs[id] == Unpublished(r, drop) && id !in b.live
    ensures Enabled(cfg, b, CleanPolicy(id))
    ensures BooksAfter(cfg, b, CleanPolicy(id)) == b.(jobs := b.jobs[id := Cleaned(r, drop)])
  {
    assert b.live - {id} == b.live;
  }

  lemma FailCourse(cfg: Config, w: World, steps: seq<Step>, b: Books, id: string, r: Record) returns (more: seq<Step>)
    requires Leads(cfg, w, steps, b) && id in b.jobs && b.jobs[id] == Resolved(r) && id !in b.live && id !in b.pubs
    ensures Leads(cfg, w, more, GivenUp(b, id, r))
  {
    hide Leads, FailRecord, NetOf, Ready, Moved;
    var f := FailRecord(r, r.error, 0);
    var failing := b.(store := b.store[id := f], jobs := b.jobs[id := Cleaning(f, false)]);
    FailStep(cfg, b, id, r);
    more := Go(cfg, w, steps, b, Fail(id, r.error, 0), failing);
    more := CleanCourse(cfg, w, more, failing, id, f, false);
    var cleaned := failing.(jobs := b.jobs[id := Cleaned(f, false)]);
    assert failing.jobs[id := Cleaned(f, false)] == cleaned.jobs;
    assert cleaned.jobs - {id} == b.jobs - {id};
    KeepStep(cfg, cleaned, id);
    more := Go(cfg, w, more, cleaned, EndCleanup(id), GivenUp(b, id, r));
  }

  /** Cleaning up where nothing is installed. */
  lemma CleanCourse(cfg: Config, w: World, steps: seq<Step>, b: Books, id: string, r: Record, drop: bool)
    returns (more: seq<Step>)
    requires Leads(cfg, w, steps, b) && id in b.jobs && b.jobs[id] == Cleaning(r, drop) && id !in b.live
               && id !in b.pubs
    ensures Leads(cfg, w, more, b.(jobs := b.jobs[id := Cleaned(r, drop)]))
  {
    hide Leads, Ready, Moved;
    var unpublished := b.(jobs := b.jobs[id := Unpublished(r, drop)]);
    DnatStep(cfg, b, id, r, drop);
    more := Go(cfg, w, steps, b, CleanDnat(id), unpublished);
    PolicyStep(cfg, unpublished, id, r, drop);
    assert unpublished.jobs[id := Cleaned(r, drop)] == b.jobs[id := Cleaned(r, drop)];
    more := Go(cfg, w, more, unpublished, CleanPolicy(id), b.(jobs := b.jobs[id := Cleaned(r, drop)]));
  }

  /** The books once a creation has let go of its reservations. */
  function Released(b: Books, id: string): Books
    requires id in b.ports.jobs && b.ports.jobs[id].Creation?
  {
    b.(ports := b.ports.(jobs := b.ports.jobs - {id}, reserved := Release(b.ports.reserved, id, b.ports.jobs[id].keys)))
  }

  lemma ReleaseCourse(cfg: Config, w: World, steps: seq<Step>, b: Books, id: string) returns (more: seq<Step>)
    requires Leads(cfg, w, steps, b) && PP.At(b.ports, id, PP.Saved)
    ensures Leads(cfg, w, more, Released(b, id))
  {
    hide Leads, Release;
    more := GoPort(cfg, w, steps, b, PP.Finish(id), Released(b, id).ports);
  }

  // A host and two requests to run with.

  const IDS := {"a", "b"}

  function ShortOf(id: string): string { id }

  /** A host as it stands, with this style of listing and the port check as it is written. */
  function SomeHost(listing: Listing): Config {
    Config(IDS, ShortOf, Cidr(0x0A590000, 16), "fc-br0", listing, PP.WRITTEN)
  }

  function RequestFor(id: string, hostPort: int): Request {
    Request(id, false, [ContainerRequest("x", "image", [], []), ContainerRequest("y", "image", [], [])],
            [PortMapping(hostPort, 80, "tcp")])
  }

  const EMPTY_FILTER: Table := map[FORWARD := [], INPUT := []]
  const EMPTY_NAT: Table := map[PREROUTING := [], OUTPUT := []]

  /** Empty base chains will do to start from. */
  lemma EmptyHost()
    ensures CleanHost(EMPTY_FILTER) && NatHolds(EMPTY_NAT, map[]) && Legal({}, Ensure([]))
  {
    SystemNames();
    ChainsDiffer();
  }

  lemma SomeHostIsProper(listing: Listing)
    ensures Proper(SomeHost(listing))
  {
    assert "a"[0] != "b"[0];
  }

  lemma RequestForIsFine(id: string, hostPort: int)
    requires id != "" && 1024 <= hostPort <= 65535
    ensures Acceptable(RequestFor(id, hostPort)) && KeysOf(RequestFor(id, hostPort).ports) == {Key(hostPort, "tcp")}
  {
    var r := RequestFor(id, hostPort);
    assert NormalizeProto("tcp") == "tcp";
    assert "x"[0] != "y"[0];
    assert r.containers[0].name != r.containers[1].name;
    assert KeyOf(r.ports[0]) == Key(hostPort, "tcp");
  }
}
