/** Creations, deletions and reconciles interleaved step by step: who owns which host port. */
module PortProtocol {
  import opened Rules
  import opened Requests
  import opened Ports

  /** How far a creation has got: it enters the ports section, checks, claims, leaves, then saves. */
  datatype Stage = Entered | Holding | HalfRead | Checked | Claimed | Reserved | Saved

  /** The actor that holds one sandbox's lock. */
  datatype Job = Creation(stage: Stage, keys: set<Key>) | Removing | Removed

  /** `store` keeps the keys of the saved sandboxes, `section` the holder of the ports lock. */
  datatype State = State(store: map<string, set<Key>>, reserved: map<Key, string>, jobs: map<string, Job>,
                         section: Option<string>)

  /** How the availability check reads: store and reservations in one step, or one after the other. */
  datatype Order = AtOnce | StoreThenReserved | ReservedThenStore

  /** With `byNumber` the check sees of the store one protocol for each port number. */
  datatype Mode = Mode(order: Order, byNumber: bool)

  /** The check as it is written. */
  const WRITTEN := Mode(StoreThenReserved, true)

  /** The ways of checking that cannot be overtaken or misled. */
  predicate Sure(mode: Mode) {
    mode.order != StoreThenReserved && !mode.byNumber
  }

  datatype Action =
    | Begin(id: string, keys: set<Key>)
    | TakePorts(id: string)
    | ReadBoth(id: string)
    | ReadFirst(id: string)
    | ReadSecond(id: string)
    | Claim(id: string)
    | LeavePorts(id: string)
    | Refuse(id: string)
    | Save(id: string)
    | Finish(id: string)
    | BeginDelete(id: string)
    | DropState(id: string)
    | FinishDelete(id: string)
    | Finalize(id: string)

  const START := State(map[], map[], map[], None)

  predicate NoneStored(s: State, id: string, keys: set<Key>) {
    forall x :: x in s.store && x != id ==> s.store[x] !! keys
  }

  predicate HeldElsewhere(s: State, id: string, k: Key) {
    exists x :: x in s.store && x != id && k in s.store[x]
  }

  /** Some other saved sandbox holds the number under another protocol. */
  predicate Shadowed(s: State, id: string, k: Key) {
    exists x, k' :: x in s.store && x != id && k' in s.store[x] && k'.port == k.port && k'.proto != k.proto
  }

  /** The store lets the keys pass: none is held, or, by number, a key that is held may go unseen. */
  predicate StorePasses(mode: Mode, s: State, id: string, keys: set<Key>) {
    if mode.byNumber then forall k :: k in keys && HeldElsewhere(s, id, k) ==> Shadowed(s, id, k)
    else NoneStored(s, id, keys)
  }

  predicate NoneReserved(s: State, id: string, keys: set<Key>) {
    forall k :: k in keys && k in s.reserved ==> s.reserved[k] == id
  }

  predicate InSection(j: Job) {
    j.Creation? && j.stage in {Holding, HalfRead, Checked, Claimed}
  }

  predicate Reserving(j: Job) {
    j.Creation? && j.stage in {Claimed, Reserved, Saved}
  }

  predicate At(s: State, id: string, stage: Stage) {
    id in s.jobs && s.jobs[id].Creation? && s.jobs[id].stage == stage
  }

  function To(s: State, id: string, stage: Stage): map<string, Job>
    requires id in s.jobs && s.jobs[id].Creation?
  {
    s.jobs[id := Creation(stage, s.jobs[id].keys)]
  }

  /** What lets each step happen. A sandbox's lock is free when it has no job; a refusal covers a failed
      check, a busy local port and a lock that could not be had. */
  predicate Enabled(mode: Mode, s: State, a: Action) {
    match a
    case Begin(id, _) => id !in s.jobs && id !in s.store
    case TakePorts(id) => At(s, id, Entered) && s.section == None
    case ReadBoth(id) =>
      mode.order == AtOnce && At(s, id, Holding)
      && StorePasses(mode, s, id, s.jobs[id].keys) && NoneReserved(s, id, s.jobs[id].keys)
    case ReadFirst(id) =>
      mode.order != AtOnce && At(s, id, Holding)
      && if mode.order == StoreThenReserved then StorePasses(mode, s, id, s.jobs[id].keys)
         else NoneReserved(s, id, s.jobs[id].keys)
    case ReadSecond(id) =>
      mode.order != AtOnce && At(s, id, HalfRead)
      && if mode.order == StoreThenReserved then NoneReserved(s, id, s.jobs[id].keys)
         else StorePasses(mode, s, id, s.jobs[id].keys)
    case Claim(id) => At(s, id, Checked)
    case LeavePorts(id) => At(s, id, Claimed)
    case Refuse(id) => At(s, id, Entered) || At(s, id, Holding) || At(s, id, HalfRead) || At(s, id, Checked)
    case Save(id) => At(s, id, Reserved)
    case Finish(id) => At(s, id, Reserved) || At(s, id, Saved)
    case BeginDelete(id) => id !in s.jobs
    case DropState(id) => id in s.jobs && s.jobs[id].Removing?
    case FinishDelete(id) => id in s.jobs && s.jobs[id].Removed?
    case Finalize(id) => id !in s.jobs
  }

  function Effect(mode: Mode, s: State, a: Action): State
    requires Enabled(mode, s, a)
  {
    var id := a.id;
    match a
    case Begin(_, keys) => s.(jobs := s.jobs[id := Creation(Entered, keys)])
    case TakePorts(_) => s.(jobs := To(s, id, Holding), section := Some(id))
    case ReadBoth(_) => s.(jobs := To(s, id, Checked))
    case ReadFirst(_) => s.(jobs := To(s, id, HalfRead))
    case ReadSecond(_) => s.(jobs := To(s, id, Checked))
    case Claim(_) => s.(jobs := To(s, id, Claimed), reserved := Reserve(s.reserved, id, s.jobs[id].keys))
    case LeavePorts(_) => s.(jobs := To(s, id, Reserved), section := None)
    case Refuse(_) => s.(jobs := s.jobs - {id}, section := if s.section == Some(id) then None else s.section)
    case Save(_) => s.(jobs := To(s, id, Saved), store := s.store[id := s.jobs[id].keys])
    case Finish(_) => s.(jobs := s.jobs - {id}, reserved := Release(s.reserved, id, s.jobs[id].keys))
    case BeginDelete(_) => s.(jobs := s.jobs[id := if id in s.store then Removing else Removed])
    case DropState(_) => s.(jobs := s.jobs[id := Removed], store := s.store - {id})
    case FinishDelete(_) => s.(jobs := s.jobs - {id}, reserved := ReleaseAll(s.reserved, id))
    case Finalize(_) => s.(store := s.store - {id})
  }

  ghost predicate LegalRun(mode: Mode, s: State, run: seq<Action>)
    decreases |run|
  {
    run == [] || (Enabled(mode, s, run[0]) && LegalRun(mode, Effect(mode, s, run[0]), run[1..]))
  }

  ghost function RunState(mode: Mode, s: State, run: seq<Action>): State
    requires LegalRun(mode, s, run)
    decreases |run|
  {
    if run == [] then s else RunState(mode, Effect(mode, s, run[0]), run[1..])
  }

  predicate Owns(s: State, id: string, k: Key) {
    (id in s.store && k in s.store[id]) || (k in s.reserved && s.reserved[k] == id)
  }

  /** No two sandboxes hold the same port, over saved states and reservations together. */
  ghost predicate Unique(s: State) {
    forall a, b, k :: Owns(s, a, k) && Owns(s, b, k) ==> a == b
  }

  /** The reservations are exactly the keys of the creations between reserving and releasing. */
  ghost predicate ReservedByJobs(s: State) {
    forall id, k :: (k in s.reserved && s.reserved[k] == id)
      <==> (id in s.jobs && Reserving(s.jobs[id]) && k in s.jobs[id].keys)
  }

  ghost predicate JobsMatchStore(s: State) {
    forall id :: id in s.jobs && s.jobs[id].Creation? ==>
      if s.jobs[id].stage == Saved then id in s.store && s.store[id] == s.jobs[id].keys else id !in s.store
  }

  ghost predicate OneInSection(s: State) {
    forall id :: s.section == Some(id) <==> id in s.jobs && InSection(s.jobs[id])
  }

  /** Reservations found free stay free: only the holder of the section reserves. */
  ghost predicate ReadReservations(mode: Mode, s: State) {
    forall id :: At(s, id, Checked) || (At(s, id, HalfRead) && mode.order == ReservedThenStore) ==>
      NoneReserved(s, id, s.jobs[id].keys)
  }

  /** What every order of reading keeps. */
  ghost predicate Books(mode: Mode, s: State) {
    ReservedByJobs(s) && JobsMatchStore(s) && OneInSection(s) && ReadReservations(mode, s)
  }

  /** A store found free stays free. */
  ghost predicate ReadStore(s: State) {
    forall id :: At(s, id, Checked) ==> NoneStored(s, id, s.jobs[id].keys)
  }

  ghost predicate Safe(mode: Mode, s: State) {
    Books(mode, s) && Unique(s) && ReadStore(s)
  }

  /** Whatever sandbox acts, the others keep exactly the ports they own. */
  lemma OthersKeepTheirs(mode: Mode, s: State, a: Action, other: string, k: Key)
    requires Books(mode, s) && Enabled(mode, s, a) && other != a.id
    ensures Owns(Effect(mode, s, a), other, k) <==> Owns(s, other, k)
  {
  }

  /** A saved sandbox under removal stays so until its state is dropped. */
  lemma RemovalStays(mode: Mode, s: State, a: Action, id: string)
    requires Enabled(mode, s, a) && !a.DropState? && !a.Finalize? && (a.BeginDelete? ==> a.id !in s.store)
    requires id in s.store && (id in s.jobs ==> s.jobs[id].Removing?)
    ensures id in Effect(mode, s, a).jobs ==> Effect(mode, s, a).jobs[id].Removing?
  {
    hide StorePasses, NoneReserved;
  }

  /** The acting sandbox gains ports only by claiming its checked keys, and a saved creation that
      releases its reservations loses none of them. */
  lemma ActorsPorts(mode: Mode, s: State, a: Action, k: Key)
    requires Books(mode, s) && Enabled(mode, s, a)
    ensures match a
      case Claim(id) => Owns(Effect(mode, s, a), id, k) <==> k in s.jobs[id].keys
      case Finish(id) => Owns(Effect(mode, s, a), id, k) <==> s.jobs[id].stage == Saved && k in s.jobs[id].keys
      case DropState(id) => !Owns(Effect(mode, s, a), id, k)
      case Finalize(id) => !Owns(Effect(mode, s, a), id, k)
      case _ => Owns(Effect(mode, s, a), a.id, k) <==> Owns(s, a.id, k)
  {
  }

  lemma StepKeepsBooks(mode: Mode, s: State, a: Action)
    requires Books(mode, s) && Enabled(mode, s, a)
    ensures Books(mode, Effect(mode, s, a))
  {
    hide Enabled, Effect, ReservedByJobs, JobsMatchStore, OneInSection, ReadReservations;
    StepKeepsJobs(mode, s, a);
    StepKeepsReservations(mode, s, a);
    StepKeepsReadReservations(mode, s, a);
  }

  lemma StepKeepsJobs(mode: Mode, s: State, a: Action)
    requires JobsMatchStore(s) && OneInSection(s) && Enabled(mode, s, a)
    ensures JobsMatchStore(Effect(mode, s, a)) && OneInSection(Effect(mode, s, a))
  {
    hide NoneStored, NoneReserved;
  }

  lemma StepKeepsReadReservations(mode: Mode, s: State, a: Action)
    requires OneInSection(s) && ReadReservations(mode, s) && Enabled(mode, s, a)
    ensures ReadReservations(mode, Effect(mode, s, a))
  {
  }

  lemma StepKeepsReservations(mode: Mode, s: State, a: Action)
    requires Books(mode, s) && Enabled(mode, s, a)
    ensures ReservedByJobs(Effect(mode, s, a))
  {
    hide NoneStored;
    assert a.Claim? ==> NoneReserved(s, a.id, s.jobs[a.id].keys);
  }

  // One owner for each port.

  /** The claim finds the store still free of its keys. */
  predicate Fresh(s: State, a: Action) {
    a.Claim? && a.id in s.jobs && s.jobs[a.id].Creation? ==> NoneStored(s, a.id, s.jobs[a.id].keys)
  }

  lemma SoleOwner(mode: Mode, s: State, a: Action, other: string, k: Key)
    requires Books(mode, s) && Unique(s) && Enabled(mode, s, a) && Fresh(s, a) && other != a.id
    requires Owns(Effect(mode, s, a), a.id, k)
    ensures !Owns(Effect(mode, s, a), other, k)
  {
    ActorsPorts(mode, s, a, k);
    OthersKeepTheirs(mode, s, a, other, k);
    if a.Claim? {
      assert NoneReserved(s, a.id, s.jobs[a.id].keys);
    } else {
      assert Owns(s, a.id, k);
    }
  }

  /** A step keeps ports singly owned exactly when a claim it makes finds the store still free. */
  lemma StepKeepsUniqueIff(mode: Mode, s: State, a: Action)
    requires Books(mode, s) && Unique(s) && Enabled(mode, s, a)
    ensures Unique(Effect(mode, s, a)) <==> Fresh(s, a)
  {
    hide Effect, Enabled, Books;
    var s' := Effect(mode, s, a);
    if Fresh(s, a) {
      hide Owns;
      forall x, y, k | Owns(s', x, k) && Owns(s', y, k) ensures x == y {
        if x != a.id {
          if y != a.id {
            OthersKeepTheirs(mode, s, a, x, k);
            OthersKeepTheirs(mode, s, a, y, k);
          } else {
            SoleOwner(mode, s, a, x, k);
          }
        } else if y != a.id {
          SoleOwner(mode, s, a, y, k);
        }
      }
    } else {
      var x :| x in s.store && x != a.id && !(s.store[x] !! s.jobs[a.id].keys);
      var k :| k in s.store[x] && k in s.jobs[a.id].keys;
      assert Owns(s, x, k);
      OthersKeepTheirs(mode, s, a, x, k);
      ActorsPorts(mode, s, a, k);
    }
  }

  ghost predicate AlwaysUnique(mode: Mode, s: State, run: seq<Action>)
    requires LegalRun(mode, s, run)
    decreases |run|
  {
    Unique(s) && (run != [] ==> AlwaysUnique(mode, Effect(mode, s, run[0]), run[1..]))
  }

  ghost predicate ClaimsFresh(mode: Mode, s: State, run: seq<Action>)
    requires LegalRun(mode, s, run)
    decreases |run|
  {
    run != [] ==> Fresh(s, run[0]) && ClaimsFresh(mode, Effect(mode, s, run[0]), run[1..])
  }

  lemma {:induction false} RunUniqueIff(mode: Mode, s: State, run: seq<Action>)
    requires Books(mode, s) && Unique(s) && LegalRun(mode, s, run)
    ensures AlwaysUnique(mode, s, run) <==> ClaimsFresh(mode, s, run)
    decreases |run|
  {
    if run != [] {
      hide Books, Unique, Effect, Fresh, Enabled;
      var next := Effect(mode, s, run[0]);
      StepKeepsBooks(mode, s, run[0]);
      StepKeepsUniqueIff(mode, s, run[0]);
      if Unique(next) {
        RunUniqueIff(mode, next, run[1..]);
      }
    }
  }

  /** In whatever order the check reads, a whole interleaving never has a port with two owners exactly
      when each claim in it finds the store still free of its keys. */
  lemma AlwaysUniqueIff(mode: Mode, run: seq<Action>)
    requires LegalRun(mode, START, run)
    ensures AlwaysUnique(mode, START, run) <==> ClaimsFresh(mode, START, run)
  {
    RunUniqueIff(mode, START, run);
  }

  /** Reading at once, or the reservations first, a store found free is still free at the claim. */
  lemma StepKeepsReadStore(mode: Mode, s: State, a: Action)
    requires Sure(mode) && Safe(mode, s) && Enabled(mode, s, a)
    ensures ReadStore(Effect(mode, s, a))
  {
  }

  lemma StepKeepsSafe(mode: Mode, s: State, a: Action)
    requires Sure(mode) && Safe(mode, s) && Enabled(mode, s, a)
    ensures Safe(mode, Effect(mode, s, a))
  {
    StepKeepsBooks(mode, s, a);
    StepKeepsReadStore(mode, s, a);
    StepKeepsUniqueIff(mode, s, a);
  }

  lemma {:induction false} RunKeepsSafe(mode: Mode, s: State, run: seq<Action>)
    requires Sure(mode) && Safe(mode, s) && LegalRun(mode, s, run)
    ensures Safe(mode, RunState(mode, s, run))
    decreases |run|
  {
    if run != [] {
      StepKeepsSafe(mode, s, run[0]);
      RunKeepsSafe(mode, Effect(mode, s, run[0]), run[1..]);
    }
  }

  /** Ways of checking that cannot be misled make only claims that find the store free. */
  lemma SureClaimsAreFresh(mode: Mode, run: seq<Action>)
    requires Sure(mode) && LegalRun(mode, START, run)
    ensures ClaimsFresh(mode, START, run)
  {
    AlwaysSafe(mode, START, run);
    RunUniqueIff(mode, START, run);
  }

  lemma {:induction false} AlwaysSafe(mode: Mode, s: State, run: seq<Action>)
    requires Sure(mode) && Safe(mode, s) && LegalRun(mode, s, run)
    ensures AlwaysUnique(mode, s, run)
    decreases |run|
  {
    if run != [] {
      StepKeepsSafe(mode, s, run[0]);
      AlwaysSafe(mode, Effect(mode, s, run[0]), run[1..]);
    }
  }

  lemma {:induction false} UniqueAtEnd(mode: Mode, s: State, run: seq<Action>)
    requires LegalRun(mode, s, run) && AlwaysUnique(mode, s, run)
    ensures Unique(RunState(mode, s, run))
    decreases |run|
  {
    hide Unique, Enabled, Effect;
    if run != [] {
      UniqueAtEnd(mode, Effect(mode, s, run[0]), run[1..]);
    }
  }

  /** In every interleaving, when the check reads at once or reads the reservations before the store,
      no port has two owners. */
  lemma NoPortHasTwoOwners(mode: Mode, run: seq<Action>)
    requires Sure(mode) && LegalRun(mode, START, run)
    ensures Unique(RunState(mode, START, run))
  {
    RunKeepsSafe(mode, START, run);
  }

  lemma {:induction false} RunKeepsBooks(mode: Mode, s: State, run: seq<Action>)
    requires Books(mode, s) && LegalRun(mode, s, run)
    ensures Books(mode, RunState(mode, s, run))
    decreases |run|
  {
    if run != [] {
      StepKeepsBooks(mode, s, run[0]);
      RunKeepsBooks(mode, Effect(mode, s, run[0]), run[1..]);
    }
  }

  /** In every interleaving and every order of reading, the reservations are exactly the keys of the
      creations between their claim and their release: none is left when no creation is there. */
  lemma ReservationsOfCreations(mode: Mode, run: seq<Action>)
    requires LegalRun(mode, START, run)
    ensures var s := RunState(mode, START, run);
      && ReservedByJobs(s)
      && ((forall id :: id in s.jobs ==> !Reserving(s.jobs[id])) ==> s.reserved == map[])
  {
    RunKeepsBooks(mode, START, run);
    var s := RunState(mode, START, run);
    assert forall k :: k in s.reserved ==> s.reserved[k] in s.jobs && Reserving(s.jobs[s.reserved[k]]);
  }

  // The check of the port book as the guard of the protocol.

  ghost predicate Lists(all: seq<Stored>, store: map<string, set<Key>>) {
    && (forall i :: 0 <= i < |all| ==> all[i].id in store && store[all[i].id] == KeysOf(all[i].ports))
    && (forall id :: id in store ==> exists i :: 0 <= i < |all| && all[i].id == id)
  }

  lemma TakenInStore(all: seq<Stored>, store: map<string, set<Key>>, id: string, k: Key)
    requires Lists(all, store)
    ensures Taken(all, id, k) <==> exists x :: x in store && x != id && k in store[x]
  {
  }

  /** A request that passes the port book's check meets the guard of the written mode. */
  lemma WrittenCheckAllows(s: State, all: seq<Stored>, busy: set<Key>, id: string, ports: seq<PortMapping>)
    requires Lists(all, s.store) && PassesUntil(all, s.reserved, busy, id, ports, |ports|)
    ensures StorePasses(WRITTEN, s, id, KeysOf(ports)) && NoneReserved(s, id, KeysOf(ports))
  {
    hide KeyOf, UsedBy, Taken, Lists, NumberTaken;
    var used := UsedBy(all, id);
    forall k | k in KeysOf(ports) && HeldElsewhere(s, id, k) ensures Shadowed(s, id, k) {
      TakenInStore(all, s.store, id, k);
      TakenNumber(all, id, k);
      UsedIsAClaim(all, id, k.port);
      TakenInStore(all, s.store, id, Key(k.port, used[k.port].proto));
    }
  }

  /** While no stored number is claimed under two protocols, a request passes the port book's check exactly
      when its keys are free in the store and in the reservations. */
  lemma CheckIsGuard(s: State, all: seq<Stored>, id: string, ports: seq<PortMapping>)
    requires Lists(all, s.store) && OneProtocolPerNumber(all, id)
    ensures PassesUntil(all, s.reserved, {}, id, ports, |ports|)
       <==> NoneStored(s, id, KeysOf(ports)) && NoneReserved(s, id, KeysOf(ports))
  {
    hide KeyOf, Taken, UsedBy, WrittenTaken, OneProtocolPerNumber, Lists;
    WrittenCheckExactIff(all, id);
    forall k ensures WrittenTaken(UsedBy(all, id), k) <==> exists x :: x in s.store && x != id && k in s.store[x] {
      TakenInStore(all, s.store, id, k);
    }
    assert forall k :: k in KeysOf(ports) <==> exists i :: 0 <= i < |ports| && KeyOf(ports[i]) == k;
  }

  // The order of reading that fails.

  lemma Prepend(mode: Mode, s: State, a: Action, next: State, rest: seq<Action>) returns (run: seq<Action>)
    requires Enabled(mode, s, a) && Effect(mode, s, a) == next && LegalRun(mode, next, rest)
    ensures LegalRun(mode, s, run) && RunState(mode, s, run) == RunState(mode, next, rest)
  {
    run := [a] + rest;
    assert run[1..] == rest;
  }

  const READS_STORE_FIRST := Mode(StoreThenReserved, false)
  const PORT := Key(5000, "tcp")

  function By(stage: Stage): Job {
    Creation(stage, {PORT})
  }

  const CHECKED_FIRST := State(map[], map[], map["b" := By(Checked)], Some("b"))
  const RESERVED_FIRST := State(map[], map[PORT := "b"], map["b" := By(Reserved)], None)
  const STORE_READ := State(map[], map[PORT := "b"], map["b" := By(Reserved), "a" := By(HalfRead)], Some("a"))
  const RELEASED_FIRST := State(map["b" := {PORT}], map[], map["a" := By(HalfRead)], Some("a"))
  const CLAIMED_TWICE := State(map["b" := {PORT}], map[PORT := "a"], map["a" := By(Claimed)], Some("a"))

  lemma FirstChecks(rest: seq<Action>) returns (run: seq<Action>)
    requires LegalRun(READS_STORE_FIRST, CHECKED_FIRST, rest)
    ensures LegalRun(READS_STORE_FIRST, START, run)
    ensures RunState(READS_STORE_FIRST, START, run) == RunState(READS_STORE_FIRST, CHECKED_FIRST, rest)
  {
    hide LegalRun, RunState, Reserve, Release, ReleaseAll;
    var m := READS_STORE_FIRST;
    var entered := State(map[], map[], map["b" := By(Entered)], None);
    var holding := State(map[], map[], map["b" := By(Holding)], Some("b"));
    var half := State(map[], map[], map["b" := By(HalfRead)], Some("b"));
    run := Prepend(m, half, ReadSecond("b"), CHECKED_FIRST, rest);
    run := Prepend(m, holding, ReadFirst("b"), half, run);
    run := Prepend(m, entered, TakePorts("b"), holding, run);
    run := Prepend(m, START, Begin("b", {PORT}), entered, run);
  }

  lemma FirstReserves(rest: seq<Action>) returns (run: seq<Action>)
    requires LegalRun(READS_STORE_FIRST, RESERVED_FIRST, rest)
    ensures LegalRun(READS_STORE_FIRST, CHECKED_FIRST, run)
    ensures RunState(READS_STORE_FIRST, CHECKED_FIRST, run) == RunState(READS_STORE_FIRST, RESERVED_FIRST, rest)
  {
    hide LegalRun, RunState;
    var claimed := State(map[], map[PORT := "b"], map["b" := By(Claimed)], Some("b"));
    run := Prepend(READS_STORE_FIRST, claimed, LeavePorts("b"), RESERVED_FIRST, rest);
    run := Prepend(READS_STORE_FIRST, CHECKED_FIRST, Claim("b"), claimed, run);
  }

  lemma SecondReadsStore(rest: seq<Action>) returns (run: seq<Action>)
    requires LegalRun(READS_STORE_FIRST, STORE_READ, rest)
    ensures LegalRun(READS_STORE_FIRST, RESERVED_FIRST, run)
    ensures RunState(READS_STORE_FIRST, RESERVED_FIRST, run) == RunState(READS_STORE_FIRST, STORE_READ, rest)
  {
    hide LegalRun, RunState;
    assert "a"[0] != "b"[0];
    var m := READS_STORE_FIRST;
    var entered := State(map[], map[PORT := "b"], map["b" := By(Reserved), "a" := By(Entered)], None);
    var holding := State(map[], map[PORT := "b"], map["b" := By(Reserved), "a" := By(Holding)], Some("a"));
    run := Prepend(m, holding, ReadFirst("a"), STORE_READ, rest);
    run := Prepend(m, entered, TakePorts("a"), holding, run);
    run := Prepend(m, RESERVED_FIRST, Begin("a", {PORT}), entered, run);
  }

  lemma FirstSavesAndReleases(rest: seq<Action>) returns (run: seq<Action>)
    requires LegalRun(READS_STORE_FIRST, RELEASED_FIRST, rest)
    ensures LegalRun(READS_STORE_FIRST, STORE_READ, run)
    ensures RunState(READS_STORE_FIRST, STORE_READ, run) == RunState(READS_STORE_FIRST, RELEASED_FIRST, rest)
  {
    hide LegalRun, RunState;
    assert "a"[0] != "b"[0];
    var saved := State(map["b" := {PORT}], map[PORT := "b"], map["b" := By(Saved), "a" := By(HalfRead)], Some("a"));
    run := Prepend(READS_STORE_FIRST, saved, Finish("b"), RELEASED_FIRST, rest);
    run := Prepend(READS_STORE_FIRST, STORE_READ, Save("b"), saved, run);
  }

  lemma SecondClaims() returns (run: seq<Action>)
    ensures LegalRun(READS_STORE_FIRST, RELEASED_FIRST, run)
    ensures RunState(READS_STORE_FIRST, RELEASED_FIRST, run) == CLAIMED_TWICE
  {
    assert "a"[0] != "b"[0];
    var checked := State(map["b" := {PORT}], map[], map["a" := By(Checked)], Some("a"));
    run := Prepend(READS_STORE_FIRST, checked, Claim("a"), CLAIMED_TWICE, []);
    run := Prepend(READS_STORE_FIRST, RELEASED_FIRST, ReadSecond("a"), checked, run);
  }

  /** Reading the store before the reservations lets two sandboxes take one port: the first creation saves
      and releases between the second one's two readings. */
  lemma StoreThenReservedFails() returns (run: seq<Action>)
    ensures LegalRun(READS_STORE_FIRST, START, run) && !Unique(RunState(READS_STORE_FIRST, START, run))
  {
    run := SecondClaims();
    run := FirstSavesAndReleases(run);
    run := SecondReadsStore(run);
    run := FirstReserves(run);
    run := FirstChecks(run);
    assert Owns(CLAIMED_TWICE, "a", PORT) && Owns(CLAIMED_TWICE, "b", PORT) && "a"[0] != "b"[0];
  }
}
