/** The state of one sandbox: phases, error texts and the refresh from runtime observations. */
module Sandboxes {
  import opened Rules
  import opened Requests

  datatype Phase = Creating | Running | Deleting | Failed

  /** What is saved about a sandbox; times are in seconds. */
  datatype Record = Record(id: string, phase: Phase, error: string, ip: Option<nat>, egress: bool,
                           ports: seq<PortMapping>, containers: map<string, ContainerState>,
                           createdAt: int, updatedAt: int)

  /** What the runtime answers about one container. */
  datatype Observation =
    | NotFound
    | NoTask
    | StatusUnreadable
    | Status(status: string, exit: nat, exitTime: string, pid: nat)

  const READY_TIMEOUT := 20

  /** A saved sandbox is in the error phase exactly when it carries an error text. */
  predicate Coherent(r: Record) {
    r.phase == Failed <==> r.error != ""
  }

  function WithPhase(r: Record, phase: Phase, message: string, now: int): Record {
    r.(phase := phase,
       error := if message != "" then message else if phase != Failed then "" else r.error,
       updatedAt := now)
  }

  /** Setting a phase leaves a coherent state exactly when an error phase has a text to carry and no
      other phase is given one. */
  lemma SetPhaseCoherentIff(r: Record, phase: Phase, message: string, now: int)
    ensures Coherent(WithPhase(r, phase, message, now))
       <==> if phase == Failed then message != "" || r.error != "" else message == ""
  {
  }

  function TaskPhase(status: string): ContainerPhase {
    if status == "running" then ContainerRunning
    else if status == "created" then ContainerCreating
    else if status in {"stopped", "paused", "pausing"} then ContainerStopped
    else ContainerUnknown
  }

  function Observed(obs: map<string, Observation>, id: string): Observation {
    if id in obs then obs[id] else NotFound
  }

  function Fill(st: ContainerState, o: Observation): ContainerState {
    match o
    case NotFound => st.(taskStatus := "not_found", phase := ContainerError, error := "container not found")
    case NoTask => st.(taskStatus := "stopped", phase := ContainerStopped, error := "")
    case StatusUnreadable =>
      st.(taskStatus := "unknown", phase := ContainerError, error := "failed to read task status")
    case Status(status, exit, exitTime, pid) =>
      st.(taskStatus := status, error := "", phase := TaskPhase(status), exitStatus := exit,
          exitTime := if exitTime != "" then exitTime else st.exitTime, taskPid := pid)
  }

  /** A container that is not there yet is no error while its sandbox has just been created. */
  function RefreshOne(st: ContainerState, o: Observation, grace: bool): ContainerState {
    var next := Fill(st, o);
    if grace && next.taskStatus == "not_found"
    then next.(phase := ContainerCreating, error := "", taskStatus := "creating")
    else next
  }

  function InGrace(r: Record, now: int): bool {
    r.phase == Creating && now - r.createdAt < READY_TIMEOUT
  }

  function Refreshed(r: Record, obs: map<string, Observation>, now: int): map<string, ContainerState> {
    map name | name in r.containers ::
      RefreshOne(r.containers[name], Observed(obs, r.containers[name].id), InGrace(r, now))
  }

  predicate AnyError(cs: map<string, ContainerState>) {
    exists name :: name in cs && cs[name].phase == ContainerError
  }

  predicate AllRunning(cs: map<string, ContainerState>) {
    forall name :: name in cs ==> cs[name].phase == ContainerRunning
  }

  /** The error text met first when the containers are visited in this order. */
  function FirstError(cs: map<string, ContainerState>, order: seq<string>): string {
    if order == [] then ""
    else
      var before := FirstError(cs, order[..|order| - 1]);
      var name := order[|order| - 1];
      if before == "" && name in cs && cs[name].phase == ContainerError then cs[name].error else before
  }

  /** The order a map is visited in: every key once. */
  predicate Visits(order: seq<string>, keys: set<string>) {
    && (forall i :: 0 <= i < |order| ==> order[i] in keys)
    && (forall key :: key in keys ==> key in order)
    && (forall i, j :: 0 <= i < j < |order| ==> order[i] != order[j])
  }

  predicate Settled(r: Record) {
    (r.phase == Failed && r.error != "") || r.containers == map[]
  }

  function RefreshRecord(r: Record, obs: map<string, Observation>, now: int, order: seq<string>): Record {
    if Settled(r) then r.(updatedAt := now)
    else
      var cs := Refreshed(r, obs, now);
      var next := r.(containers := cs, updatedAt := now);
      if r.phase == Deleting then next
      else if AnyError(cs) then next.(phase := Failed, error := FirstError(cs, order))
      else if AllRunning(cs) then next.(phase := Running, error := "")
      else next.(phase := Creating)
  }

  lemma RefreshedAll(r: Record, obs: map<string, Observation>, now: int)
    ensures var cs := Refreshed(r, obs, now);
      cs.Keys == r.containers.Keys
      && forall name :: name in r.containers ==>
           cs[name] == RefreshOne(r.containers[name], Observed(obs, r.containers[name].id), InGrace(r, now))
  {
  }

  class Sandbox {
    const id: string
    var phase: Phase
    var error: string
    var ip: Option<nat>
    var egress: bool
    var ports: seq<PortMapping>
    var containers: map<string, ContainerState>
    var createdAt: int
    var updatedAt: int

    ghost function Saved(): Record
      reads this
    {
      Record(id, phase, error, ip, egress, ports, containers, createdAt, updatedAt)
    }

    /** The state a request starts from. */
    constructor (req: Request, now: int)
      ensures Saved() == NewRecord(req, now)
      ensures Acceptable(req) ==> AsRequested(Saved(), req, now)
    {
      id := req.id;
      phase := Creating;
      error := "";
      ip := None;
      egress := req.egress;
      ports := req.ports;
      createdAt := now;
      updatedAt := now;
      containers := map[];
      new;
      var plan := PlanContainers(req.id, req.containers);
      containers := plan;
      if Acceptable(req) {
        NewRecordSays(req, now);
      }
    }

    method SetPhase(phase: Phase, message: string, now: int)
      modifies this
      ensures Saved() == WithPhase(old(Saved()), phase, message, now)
    {
      this.phase := phase;
      if message != "" {
        error := message;
      } else if phase != Failed {
        error := "";
      }
      updatedAt := now;
    }

    method VisitOne(name: string, obs: map<string, Observation>, grace: bool) returns (next: ContainerState)
      requires name in containers
      modifies this`containers
      ensures next == RefreshOne(old(containers)[name], Observed(obs, old(containers)[name].id), grace)
      ensures containers == old(containers)[name := next]
    {
      next := Fill(containers[name], Observed(obs, containers[name].id));
      if grace && next.taskStatus == "not_found" {
        next := next.(phase := ContainerCreating, error := "", taskStatus := "creating");
      }
      containers := containers[name := next];
    }

    /** The loop over the containers: each is replaced by its refreshed state. */
    method VisitContainers(obs: map<string, Observation>, grace: bool, order: seq<string>,
                           ghost cs: map<string, ContainerState>)
      returns (hasError: bool, sandboxErr: string, allRunning: bool)
      requires Visits(order, containers.Keys) && cs.Keys == containers.Keys
      requires forall name :: name in containers ==>
                 cs[name] == RefreshOne(containers[name], Observed(obs, containers[name].id), grace)
      modifies this`containers
      ensures containers == cs
      ensures hasError <==> AnyError(cs)
      ensures sandboxErr == FirstError(cs, order)
      ensures allRunning <==> AllRunning(cs)
    {
      hide RefreshOne, Fill, FirstError, Visits, ErrorAmong, RunningAmong, AnyError, AllRunning;
      hasError, sandboxErr, allRunning := false, "", true;
      ghost var before := containers;
      NothingVisited(cs);
      for i := 0 to |order|
        invariant containers.Keys == before.Keys
        invariant forall name :: name in containers ==>
                    containers[name] == if name in order[..i] then cs[name] else before[name]
        invariant hasError == ErrorAmong(cs, order[..i])
        invariant sandboxErr == FirstError(cs, order[..i])
        invariant allRunning == RunningAmong(cs, order[..i])
      {
        var name := order[i];
        OneMoreVisited(cs, order, i);
        var next := VisitOne(name, obs, grace);
        RefreshOneError(before[name], Observed(obs, before[name].id), grace);
        if next.phase == ContainerError {
          hasError := true;
          if sandboxErr == "" && next.error != "" {
            sandboxErr := next.error;
          }
        }
        if next.phase != ContainerRunning {
          allRunning := false;
        }
      }
      assert order[..|order|] == order;
      AllVisited(cs, order);
    }

    method Refresh(obs: map<string, Observation>, now: int, order: seq<string>)
      requires Visits(order, containers.Keys)
      modifies this
      ensures Saved() == RefreshRecord(old(Saved()), obs, now, order)
    {
      hide Visits, RefreshOne, Fill, TaskPhase, Observed, FirstError, AnyError, AllRunning, Refreshed;
      if phase == Failed && error != "" {
        updatedAt := now;
        return;
      }
      if |containers| == 0 {
        updatedAt := now;
        return;
      }
      var grace := phase == Creating && now - createdAt < READY_TIMEOUT;
      ghost var cs := Refreshed(Saved(), obs, now);
      RefreshedAll(Saved(), obs, now);
      var hasError, sandboxErr, allRunning := VisitContainers(obs, grace, order, cs);
      Conclude(hasError, sandboxErr, allRunning);
      updatedAt := now;
    }

    /** The phase that follows from the containers; a sandbox being deleted keeps its phase. */
    method Conclude(hasError: bool, sandboxErr: string, allRunning: bool)
      modifies this`phase, this`error
      ensures Saved() == if old(phase) == Deleting then old(Saved())
                         else if hasError then old(Saved()).(phase := Failed, error := sandboxErr)
                         else if allRunning then old(Saved()).(phase := Running, error := "")
                         else old(Saved()).(phase := Creating)
    {
      if phase == Deleting {
      } else if hasError {
        phase := Failed;
        error := sandboxErr;
      } else if allRunning {
        phase := Running;
        error := "";
      } else {
        phase := Creating;
      }
    }
  }

  predicate ErrorAmong(cs: map<string, ContainerState>, names: seq<string>) {
    exists name :: name in names && name in cs && cs[name].phase == ContainerError
  }

  predicate RunningAmong(cs: map<string, ContainerState>, names: seq<string>) {
    forall name :: name in names && name in cs ==> cs[name].phase == ContainerRunning
  }

  lemma NothingVisited(cs: map<string, ContainerState>)
    ensures FirstError(cs, []) == "" && !ErrorAmong(cs, []) && RunningAmong(cs, [])
  {
  }

  lemma OneMoreVisited(cs: map<string, ContainerState>, order: seq<string>, i: nat)
    requires i < |order| && Visits(order, cs.Keys)
    ensures order[i] in cs && order[i] !in order[..i]
    ensures forall name :: name in order[..i + 1] <==> name == order[i] || name in order[..i]
    ensures FirstError(cs, order[..i + 1])
         == if FirstError(cs, order[..i]) == "" && cs[order[i]].phase == ContainerError then cs[order[i]].error
            else FirstError(cs, order[..i])
    ensures ErrorAmong(cs, order[..i + 1]) == (ErrorAmong(cs, order[..i]) || cs[order[i]].phase == ContainerError)
    ensures RunningAmong(cs, order[..i + 1]) == (RunningAmong(cs, order[..i]) && cs[order[i]].phase == ContainerRunning)
  {
    assert order[..i + 1] == order[..i] + [order[i]];
    assert order[..i + 1][..i] == order[..i];
  }

  lemma AllVisited(cs: map<string, ContainerState>, order: seq<string>)
    requires Visits(order, cs.Keys)
    ensures forall name :: name in cs ==> name in order
    ensures ErrorAmong(cs, order) == AnyError(cs) && RunningAmong(cs, order) == AllRunning(cs)
  {
  }

  function NewRecord(req: Request, now: int): Record {
    Record(req.id, Creating, "", None, req.egress, req.ports, Plan(req.id, req.containers), now, now)
  }

  // What a refresh does, whatever the order of the visit.

  lemma RefreshOneError(st: ContainerState, o: Observation, grace: bool)
    ensures RefreshOne(st, o, grace).phase == ContainerError <==> RefreshOne(st, o, grace).error != ""
  {
  }

  lemma {:induction false} FirstErrorText(cs: map<string, ContainerState>, order: seq<string>)
    requires forall name :: name in cs ==> (cs[name].phase == ContainerError <==> cs[name].error != "")
    ensures FirstError(cs, order) == ""
       <==> forall i :: 0 <= i < |order| && order[i] in cs ==> cs[order[i]].phase != ContainerError
    ensures FirstError(cs, order) != "" ==>
              exists name :: name in cs && cs[name].phase == ContainerError && cs[name].error == FirstError(cs, order)
  {
    if order != [] {
      FirstErrorText(cs, order[..|order| - 1]);
    }
  }

  /** Phase, container states and all else but the error text do not depend on the visiting order. */
  lemma RefreshPhaseIndependent(r: Record, obs: map<string, Observation>, now: int, a: seq<string>, b: seq<string>)
    ensures RefreshRecord(r, obs, now, a).(error := "") == RefreshRecord(r, obs, now, b).(error := "")
  {
  }

  lemma VisitFrom(keys: set<string>, first: string) returns (order: seq<string>)
    requires first in keys
    ensures Visits(order, keys) && order[0] == first
  {
    var rest := SomeVisit(keys - {first});
    order := [first] + rest;
  }

  lemma SomeVisit(keys: set<string>) returns (order: seq<string>)
    ensures Visits(order, keys)
    decreases keys
  {
    if keys == {} {
      order := [];
    } else {
      var key :| key in keys;
      var rest := SomeVisit(keys - {key});
      order := [key] + rest;
    }
  }

  lemma {:induction false} FirstOfVisit(cs: map<string, ContainerState>, order: seq<string>)
    requires order != [] && order[0] in cs && cs[order[0]].phase == ContainerError && cs[order[0]].error != ""
    ensures FirstError(cs, order) == cs[order[0]].error
  {
    if |order| > 1 {
      FirstOfVisit(cs, order[..|order| - 1]);
    } else {
      assert order[..0] == [];
    }
  }

  /** Two containers fail differently: one is missing with no grace left, one has an unreadable status. */
  predicate Mixed(r: Record, obs: map<string, Observation>, now: int) {
    && !InGrace(r, now)
    && (exists name :: name in r.containers && Observed(obs, r.containers[name].id).NotFound?)
    && (exists name :: name in r.containers && Observed(obs, r.containers[name].id).StatusUnreadable?)
  }

  const MISSING := "container not found"
  const UNREADABLE := "failed to read task status"

  lemma TextsDiffer()
    ensures MISSING != UNREADABLE && MISSING != "" && UNREADABLE != ""
  {
    assert MISSING[0] != UNREADABLE[0];
  }

  /** Which containers fail, and with which text. */
  lemma FailsWith(r: Record, obs: map<string, Observation>, now: int, name: string)
    requires name in r.containers
    ensures var next, o := Refreshed(r, obs, now)[name], Observed(obs, r.containers[name].id);
      && (next.phase == ContainerError <==> o.StatusUnreadable? || (o.NotFound? && !InGrace(r, now)))
      && (next.phase == ContainerError ==> next.error == if o.NotFound? then MISSING else UNREADABLE)
  {
  }

  /** A refresh gives the same in every visiting order, error text included, exactly when it is not a refresh
      of containers that fail differently. */
  lemma RefreshOrderIndependentIff(r: Record, obs: map<string, Observation>, now: int)
    ensures (forall a, b :: Visits(a, r.containers.Keys) && Visits(b, r.containers.Keys) ==>
               RefreshRecord(r, obs, now, a) == RefreshRecord(r, obs, now, b))
       <==> !(Mixed(r, obs, now) && !Settled(r) && r.phase != Deleting)
  {
    hide RefreshOne, FirstError, Visits, Refreshed;
    TextsDiffer();
    if Mixed(r, obs, now) && !Settled(r) && r.phase != Deleting {
      MixedOrders(r, obs, now);
    } else if !Settled(r) && r.phase != Deleting {
      forall a, b | Visits(a, r.containers.Keys) && Visits(b, r.containers.Keys)
        ensures RefreshRecord(r, obs, now, a) == RefreshRecord(r, obs, now, b)
      {
        OneTextOnly(r, obs, now, a, b);
      }
    }
  }

  lemma MixedOrders(r: Record, obs: map<string, Observation>, now: int)
    requires Mixed(r, obs, now) && !Settled(r) && r.phase != Deleting
    ensures exists a, b :: Visits(a, r.containers.Keys) && Visits(b, r.containers.Keys)
                        && RefreshRecord(r, obs, now, a) != RefreshRecord(r, obs, now, b)
  {
    hide RefreshOne, FirstError;
    var x :| x in r.containers && Observed(obs, r.containers[x].id).NotFound?;
    var y :| y in r.containers && Observed(obs, r.containers[y].id).StatusUnreadable?;
    var a := VisitFrom(r.containers.Keys, x);
    var b := VisitFrom(r.containers.Keys, y);
    var cs := Refreshed(r, obs, now);
    TextsDiffer();
    FailsWith(r, obs, now, x);
    FailsWith(r, obs, now, y);
    FirstOfVisit(cs, a);
    FirstOfVisit(cs, b);
    assert RefreshRecord(r, obs, now, a).error != RefreshRecord(r, obs, now, b).error;
  }

  lemma OneTextOnly(r: Record, obs: map<string, Observation>, now: int, a: seq<string>, b: seq<string>)
    requires !Mixed(r, obs, now) && !Settled(r) && Visits(a, r.containers.Keys) && Visits(b, r.containers.Keys)
    ensures RefreshRecord(r, obs, now, a) == RefreshRecord(r, obs, now, b)
  {
    hide RefreshOne, FirstError, Fill;
    var cs := Refreshed(r, obs, now);
    assert cs.Keys == r.containers.Keys;
    forall name | name in r.containers
      ensures var next, o := cs[name], Observed(obs, r.containers[name].id);
        && (next.phase == ContainerError <==> o.StatusUnreadable? || (o.NotFound? && !InGrace(r, now)))
        && (next.phase == ContainerError ==> next.error == if o.NotFound? then MISSING else UNREADABLE)
    {
      FailsWith(r, obs, now, name);
    }
    RefreshedErrors(r, obs, now);
    FirstErrorText(cs, a);
    FirstErrorText(cs, b);
    VisitedError(cs, a);
    VisitedError(cs, b);
  }

  lemma TwoFailures(r: Record, obs: map<string, Observation>)
    requires r.createdAt == 0 && obs == map["a-x" := StatusUnreadable]
    requires r.containers == map["x" := Planned("a", ContainerRequest("x", "image", [], [])),
                                 "y" := Planned("a", ContainerRequest("y", "image", [], []))]
    ensures var cs := Refreshed(r, obs, 60);
      && cs.Keys == {"x", "y"} && "x" != "y"
      && cs["x"].phase == ContainerError && cs["x"].error == UNREADABLE
      && cs["y"].phase == ContainerError && cs["y"].error == MISSING
  {
    hide RefreshOne;
    assert "x"[0] != "y"[0] && "a-x"[2] != "a-y"[2];
    assert r.containers["x"].id == "a-x" && r.containers["y"].id == "a-y";
    FailsWith(r, obs, 60, "x");
    FailsWith(r, obs, 60, "y");
  }

  /** Two containers, one missing and one unreadable: the error text shown depends on the visiting order. */
  lemma ErrorDependsOnOrder(r: Record, obs: map<string, Observation>)
    requires r.phase == Running && r.error == "" && r.createdAt == 0
    requires r.containers == map["x" := Planned("a", ContainerRequest("x", "image", [], [])),
                                 "y" := Planned("a", ContainerRequest("y", "image", [], []))]
    requires obs == map["a-x" := StatusUnreadable]
    ensures Visits(["x", "y"], r.containers.Keys) && Visits(["y", "x"], r.containers.Keys)
    ensures RefreshRecord(r, obs, 60, ["x", "y"]).error == UNREADABLE
    ensures RefreshRecord(r, obs, 60, ["y", "x"]).error == MISSING
  {
    hide Refreshed, Planned;
    TwoFailures(r, obs);
    var cs := Refreshed(r, obs, 60);
    TextsDiffer();
    FirstOfVisit(cs, ["x", "y"]);
    FirstOfVisit(cs, ["y", "x"]);
  }

  lemma RefreshedErrors(r: Record, obs: map<string, Observation>, now: int)
    ensures forall name :: name in Refreshed(r, obs, now) ==>
              (Refreshed(r, obs, now)[name].phase == ContainerError <==> Refreshed(r, obs, now)[name].error != "")
  {
  }

  lemma VisitedError(cs: map<string, ContainerState>, order: seq<string>)
    requires forall name :: name in cs ==> (cs[name].phase == ContainerError <==> cs[name].error != "")
    requires Visits(order, cs.Keys)
    ensures FirstError(cs, order) != "" <==> AnyError(cs)
  {
    FirstErrorText(cs, order);
    if AnyError(cs) {
      var name :| name in cs && cs[name].phase == ContainerError;
      assert name in order;
    }
  }

  /** A sandbox shown as creating again although it was not, still inside the creation window, with a
      container whose reported status is itself the text for a missing one. */
  predicate LateGrace(r: Record, obs: map<string, Observation>, now: int) {
    && !Settled(r) && r.phase in {Running, Failed} && now - r.createdAt < READY_TIMEOUT
    && !AnyError(Refreshed(r, obs, now))
    && exists name :: name in r.containers && ReportsMissing(Observed(obs, r.containers[name].id))
  }

  predicate ReportsMissing(o: Observation) {
    o.Status? && o.status == "not_found"
  }

  /** Refreshing again with the same observations and clock changes nothing, in whatever orders the
      two refreshes visit the containers: always but for the late grace case. */
  lemma RefreshIdempotentIff(r: Record, obs: map<string, Observation>, now: int, a: seq<string>, b: seq<string>)
    requires Visits(a, r.containers.Keys) && Visits(b, r.containers.Keys)
    ensures RefreshRecord(RefreshRecord(r, obs, now, a), obs, now, b) == RefreshRecord(r, obs, now, a)
       <==> !LateGrace(r, obs, now)
  {
    hide RefreshOne, FirstError, Visits;
    if !Settled(r) {
      var once, cs := RefreshRecord(r, obs, now, a), Refreshed(r, obs, now);
      RefreshedErrors(r, obs, now);
      assert cs.Keys == r.containers.Keys;
      VisitedError(cs, a);
      if !Settled(once) {
        RefreshedTwice(r, obs, now, once);
        RefreshAgain(r, obs, now, once, b);
      }
    }
  }

  /** The task statuses the runtime reports. */
  const REPORTED := {"created", "running", "stopped", "paused", "pausing", "unknown"}

  /** With statuses the runtime reports, refreshing again with the same observations and clock changes
      nothing, whatever the orders of the two visits. */
  lemma RefreshIdempotent(r: Record, obs: map<string, Observation>, now: int, a: seq<string>, b: seq<string>)
    requires Visits(a, r.containers.Keys) && Visits(b, r.containers.Keys)
    requires forall id :: id in obs && obs[id].Status? ==> obs[id].status in REPORTED
    ensures RefreshRecord(RefreshRecord(r, obs, now, a), obs, now, b) == RefreshRecord(r, obs, now, a)
  {
    hide RefreshRecord;
    assert "not_found"[0] == 'n' && |"not_found"| == 9;
    forall status | status in REPORTED ensures |status| != 9 { }
    RefreshIdempotentIff(r, obs, now, a, b);
  }

  /** Once the container states repeat, so does the phase. */
  lemma RefreshAgain(r: Record, obs: map<string, Observation>, now: int, once: Record, b: seq<string>)
    requires !Settled(r) && !Settled(once) && once.updatedAt == now
    requires r.phase == Deleting ==> once.phase == Deleting
    requires r.phase != Deleting ==>
               !AnyError(once.containers) && once.phase == if AllRunning(once.containers) then Running else Creating
    requires once.phase == Running ==> once.error == ""
    ensures RefreshRecord(once, obs, now, b) == once <==> Refreshed(once, obs, now) == once.containers
  {
  }

  lemma RefreshedTwice(r: Record, obs: map<string, Observation>, now: int, once: Record)
    requires once.containers == Refreshed(r, obs, now) && once.createdAt == r.createdAt && !Settled(r)
    requires if r.phase == Deleting then once.phase == Deleting
             else !AnyError(once.containers) && once.phase == if AllRunning(once.containers) then Running else Creating
    ensures Refreshed(once, obs, now) == once.containers <==> !LateGrace(r, obs, now)
  {
    hide RefreshOne, Settled;
    forall name | name in r.containers
      ensures Refreshed(once, obs, now)[name] != once.containers[name]
         <==> LateGrace(r, obs, now) && ReportsMissing(Observed(obs, r.containers[name].id))
    {
      var st, o := r.containers[name], Observed(obs, r.containers[name].id);
      OneTwice(st, o, InGrace(r, now), InGrace(once, now));
      assert once.containers[name] == RefreshOne(st, o, InGrace(r, now));
      assert !AnyError(once.containers) ==> once.containers[name].phase != ContainerError;
      assert AllRunning(once.containers) ==> once.containers[name].phase == ContainerRunning;
    }
    if LateGrace(r, obs, now) {
      var name :| name in r.containers && ReportsMissing(Observed(obs, r.containers[name].id));
      assert Refreshed(once, obs, now)[name] != once.containers[name];
    }
  }

  lemma OneTwice(st: ContainerState, o: Observation, first: bool, second: bool)
    ensures RefreshOne(st, o, first).id == st.id
    ensures RefreshOne(RefreshOne(st, o, first), o, second) == RefreshOne(st, o, first)
       <==> first == second || !(o.NotFound? || ReportsMissing(o))
    ensures !first && o.NotFound? ==> RefreshOne(st, o, first).phase == ContainerError
    ensures !first && ReportsMissing(o) ==> RefreshOne(st, o, first).phase == ContainerUnknown
    ensures first && (o.NotFound? || ReportsMissing(o)) ==> RefreshOne(st, o, first).phase == ContainerCreating
  {
  }

  /** A refresh keeps phase and error text together. */
  lemma RefreshKeepsCoherent(r: Record, obs: map<string, Observation>, now: int, order: seq<string>)
    requires Coherent(r) && Visits(order, r.containers.Keys)
    ensures Coherent(RefreshRecord(r, obs, now, order))
  {
    if !Settled(r) {
      RefreshedErrors(r, obs, now);
      VisitedError(Refreshed(r, obs, now), order);
    }
  }

  /** A refresh returns a saved error as it is, and reports running only what runs: a non-empty sandbox
      shown as running has every container running. */
  lemma RefreshNeverMasks(r: Record, obs: map<string, Observation>, now: int, order: seq<string>)
    requires Coherent(r)
    ensures r.phase == Failed ==> RefreshRecord(r, obs, now, order) == r.(updatedAt := now)
    ensures RefreshRecord(r, obs, now, order).phase == Running && r.containers != map[] ==>
              forall name :: name in r.containers ==>
                Observed(obs, r.containers[name].id).Status? && Observed(obs, r.containers[name].id).status == "running"
  {
    if !Settled(r) && RefreshRecord(r, obs, now, order).phase == Running {
      var cs := Refreshed(r, obs, now);
      forall name | name in r.containers
        ensures Observed(obs, r.containers[name].id).Status? && Observed(obs, r.containers[name].id).status == "running"
      {
        assert cs[name].phase == ContainerRunning;
      }
    }
  }

  // A refresh told from the observations alone.

  /** The creation grace, in the words of the saved record and the clock. */
  predicate JustCreated(r: Record, now: int) {
    r.phase == Creating && now - r.createdAt < 20
  }

  predicate ObservedMissing(r: Record, obs: map<string, Observation>, name: string)
    requires name in r.containers
  {
    var id := r.containers[name].id;
    id !in obs || obs[id].NotFound?
  }

  predicate ObservedRunning(r: Record, obs: map<string, Observation>, name: string)
    requires name in r.containers
  {
    var id := r.containers[name].id;
    id in obs && obs[id].Status? && obs[id].status == "running"
  }

  /** A container counts as failed when its status cannot be read, or it is missing outside the grace. */
  predicate ObservedFailed(r: Record, obs: map<string, Observation>, now: int, name: string)
    requires name in r.containers
  {
    var id := r.containers[name].id;
    (id in obs && obs[id].StatusUnreadable?) || (ObservedMissing(r, obs, name) && !JustCreated(r, now))
  }

  /** A sandbox with containers that is neither under removal nor saved with an error is shown as running
      exactly when every container is observed running, as failed exactly when some container failed, and as
      being created otherwise; the error text goes with that. */
  lemma RefreshedPhase(r: Record, obs: map<string, Observation>, now: int, order: seq<string>)
    requires r.containers != map[] && r.phase != Deleting && !(r.phase == Failed && r.error != "")
    requires Visits(order, r.containers.Keys)
    ensures var next := RefreshRecord(r, obs, now, order);
      && (next.phase == Running <==> forall name :: name in r.containers ==> ObservedRunning(r, obs, name))
      && (next.phase == Failed <==> exists name :: name in r.containers && ObservedFailed(r, obs, now, name))
      && (next.phase in {Running, Failed, Creating})
      && (next.phase == Running ==> next.error == "")
      && (next.phase == Failed ==> next.error in {"container not found", "failed to read task status"})
      && (next.phase == Creating ==> next.error == r.error)
  {
    hide FirstError, Visits, RefreshOne, ObservedRunning, ObservedFailed, ObservedMissing;
    var cs := Refreshed(r, obs, now);
    assert cs.Keys == r.containers.Keys;
    forall name | name in r.containers
      ensures cs[name].phase == ContainerRunning <==> ObservedRunning(r, obs, name)
      ensures cs[name].phase == ContainerError <==> ObservedFailed(r, obs, now, name)
      ensures cs[name].error in {"", "container not found", "failed to read task status"}
    {
      RefreshedStatus(r, obs, now, name);
    }
    RefreshedErrors(r, obs, now);
    VisitedError(cs, order);
    FirstErrorText(cs, order);
    var name :| name in r.containers;
    assert AllRunning(cs) ==> cs[name].phase == ContainerRunning;
  }

  /** What a refresh saves of one container: what the runtime reports, with the plan untouched. */
  lemma RefreshedStatus(r: Record, obs: map<string, Observation>, now: int, name: string)
    requires name in r.containers
    ensures name in Refreshed(r, obs, now)
    ensures var was, st := r.containers[name], Refreshed(r, obs, now)[name];
      && st.id == was.id && st.name == was.name && st.image == was.image && st.args == was.args && st.env == was.env
      && (st.phase == ContainerRunning <==> ObservedRunning(r, obs, name))
      && (st.phase == ContainerError <==> ObservedFailed(r, obs, now, name))
      && st.error in {"", "container not found", "failed to read task status"}
      && (ObservedMissing(r, obs, name) ==>
            && st.exitStatus == was.exitStatus && st.exitTime == was.exitTime && st.taskPid == was.taskPid
            && if JustCreated(r, now)
               then st.phase == ContainerCreating && st.error == "" && st.taskStatus == "creating"
               else st.error == "container not found" && st.taskStatus == "not_found")
    ensures r.containers[name].id in obs ==>
      var was, st, o := r.containers[name], Refreshed(r, obs, now)[name], obs[r.containers[name].id];
      && (o.NoTask? || o.StatusUnreadable? ==>
            st.exitStatus == was.exitStatus && st.exitTime == was.exitTime && st.taskPid == was.taskPid)
      && (o.NoTask? ==> st.phase == ContainerStopped && st.error == "" && st.taskStatus == "stopped")
      && (o.StatusUnreadable? ==> st.error == "failed to read task status" && st.taskStatus == "unknown")
      && (o.Status? ==>
            && st.exitStatus == o.exit && st.taskPid == o.pid && st.error == ""
            && st.exitTime == (if o.exitTime == "" then was.exitTime else o.exitTime)
            && (st.taskStatus == if o.status == "not_found" && JustCreated(r, now) then "creating" else o.status)
            && (st.phase == ContainerCreating
                <==> o.status == "created" || (o.status == "not_found" && JustCreated(r, now)))
            && (st.phase == ContainerStopped <==> o.status in {"stopped", "paused", "pausing"}))
  {
    StatusWords();
  }

  lemma StatusWords()
    ensures "running" != "created" && "running" != "not_found" && "created" != "not_found"
    ensures "running" !in {"stopped", "paused", "pausing"} && "created" !in {"stopped", "paused", "pausing"}
    ensures "not_found" !in {"stopped", "paused", "pausing", "creating", "unknown"}
  {
    assert "running"[0] == 'r' && "created"[0] == 'c' && "not_found"[0] == 'n';
    assert "stopped"[0] == 's' && "paused"[0] == 'p' && "pausing"[0] == 'p';
    assert "creating"[0] == 'c' && "unknown"[0] == 'u';
  }

  /** A refresh of a record it reworks replaces exactly its containers' states, by the refreshed ones, its
      phase and error, and its time. */
  lemma RefreshedRecord(r: Record, obs: map<string, Observation>, now: int, order: seq<string>)
    ensures var next := RefreshRecord(r, obs, now, order);
      && next == r.(phase := next.phase, error := next.error, containers := next.containers, updatedAt := now)
      && next.containers.Keys == r.containers.Keys
      && (r.phase == Deleting ==> next.phase == Deleting && next.error == r.error)
      && next.containers == if r.containers == map[] || (r.phase == Failed && r.error != "") then r.containers
                            else Refreshed(r, obs, now)
  {
    hide FirstError, RefreshOne, AnyError, AllRunning;
  }

  // A new record told from the request.

  /** The saved state of an accepted request: nothing but what it asks for, with each requested container
      planned under its own name. */
  lemma NewRecordSays(req: Request, now: int)
    requires Acceptable(req)
    ensures AsRequested(NewRecord(req, now), req, now)
  {
    PlanIsBijection(req);
  }

  ghost predicate AsRequested(r: Record, req: Request, now: int) {
    && r.id == req.id && r.egress == req.egress && r.ports == req.ports
    && r.phase == Creating && r.error == "" && r.ip == None && r.createdAt == now && r.updatedAt == now
    && |r.containers| == |req.containers|
    && forall i :: 0 <= i < |req.containers| ==> ContainerAsRequested(r, req, req.containers[i])
  }

  predicate ContainerAsRequested(r: Record, req: Request, c: ContainerRequest) {
    && c.name in r.containers
    && var st := r.containers[c.name];
       && st.id == req.id + "-" + c.name && st.name == c.name && st.image == c.image
       && st.args == c.args && st.env == c.env
       && st.phase == ContainerCreating && st.error == ""
  }
}
