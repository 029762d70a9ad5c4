/** Creation requests: the validation scan and the initial container plan. */
module Requests {
  import opened Text
  import opened Rules

  datatype PortMapping = PortMapping(hostPort: int, containerPort: int, protocol: string)

  datatype ContainerRequest = ContainerRequest(name: string, image: string, args: seq<string>, env: seq<string>)

  datatype Request = Request(id: string, egress: bool, containers: seq<ContainerRequest>, ports: seq<PortMapping>)

  /** Why a request is refused; `at` is the position of the first offending container or port. */
  datatype RequestError =
    | MissingId
    | TooFewContainers
    | MissingNameOrImage(at: nat)
    | DuplicateName(at: nat)
    | InvalidPort(at: nat)
    | PrivilegedPort(at: nat)
    | UnsupportedProtocol(at: nat)
    | DuplicateHostPort(at: nat)

  predicate Named(c: ContainerRequest) {
    c.name != "" && c.image != ""
  }

  predicate NameTaken(cs: seq<ContainerRequest>, i: nat)
    requires i < |cs|
  {
    exists j :: 0 <= j < i && cs[j].name == cs[i].name
  }

  predicate InRange(p: PortMapping) {
    1 <= p.hostPort <= 65535 && 1 <= p.containerPort <= 65535
  }

  predicate HostPortTaken(ps: seq<PortMapping>, i: nat)
    requires i < |ps|
  {
    exists j :: 0 <= j < i && ps[j].hostPort == ps[i].hostPort
  }

  predicate Supported(p: PortMapping) {
    NormalizeProto(p.protocol) == "tcp" || NormalizeProto(p.protocol) == "udp"
  }

  predicate ContainersOk(cs: seq<ContainerRequest>, n: nat)
    requires n <= |cs|
  {
    forall i :: 0 <= i < n ==> Named(cs[i]) && !NameTaken(cs, i)
  }

  predicate PortOk(ps: seq<PortMapping>, i: nat)
    requires i < |ps|
  {
    InRange(ps[i]) && ps[i].hostPort >= 1024 && Supported(ps[i]) && !HostPortTaken(ps, i)
  }

  predicate PortsOk(ps: seq<PortMapping>, n: nat)
    requires n <= |ps|
  {
    forall i :: 0 <= i < n ==> PortOk(ps, i)
  }

  /** The requests that are accepted. */
  predicate Acceptable(r: Request) {
    && r.id != "" && |r.containers| >= 2
    && ContainersOk(r.containers, |r.containers|)
    && PortsOk(r.ports, |r.ports|)
  }

  /** The error names the first thing wrong: everything checked before it is in order. */
  predicate Explains(r: Request, e: RequestError) {
    match e
    case MissingId => r.id == ""
    case TooFewContainers => r.id != "" && |r.containers| < 2
    case MissingNameOrImage(i) =>
      r.id != "" && |r.containers| >= 2 && i < |r.containers| && ContainersOk(r.containers, i)
        && !Named(r.containers[i])
    case DuplicateName(i) =>
      r.id != "" && |r.containers| >= 2 && i < |r.containers| && ContainersOk(r.containers, i)
      && Named(r.containers[i]) && NameTaken(r.containers, i)
    case InvalidPort(i) => PortsFailAt(r, i) && !InRange(r.ports[i])
    case PrivilegedPort(i) => PortsFailAt(r, i) && InRange(r.ports[i]) && r.ports[i].hostPort < 1024
    case UnsupportedProtocol(i) =>
      PortsFailAt(r, i) && InRange(r.ports[i]) && r.ports[i].hostPort >= 1024 && !Supported(r.ports[i])
    case DuplicateHostPort(i) =>
      PortsFailAt(r, i) && InRange(r.ports[i]) && r.ports[i].hostPort >= 1024 && Supported(r.ports[i])
        && HostPortTaken(r.ports, i)
  }

  predicate PortsFailAt(r: Request, i: nat) {
    r.id != "" && |r.containers| >= 2 && ContainersOk(r.containers, |r.containers|) && i < |r.ports|
      && PortsOk(r.ports, i)
  }

  method Validate(r: Request) returns (err: Option<RequestError>)
    ensures err == None <==> Acceptable(r)
    ensures err.Some? ==> Explains(r, err.value)
  {
    if r.id == "" {
      return Some(MissingId);
    }
    if |r.containers| < 2 {
      return Some(TooFewContainers);
    }
    var seenNames: set<string> := {};
    for i := 0 to |r.containers|
      invariant ContainersOk(r.containers, i)
      invariant forall name :: name in seenNames <==> exists j :: 0 <= j < i && r.containers[j].name == name
    {
      var c := r.containers[i];
      if c.name == "" || c.image == "" {
        return Some(MissingNameOrImage(i));
      }
      if c.name in seenNames {
        return Some(DuplicateName(i));
      }
      seenNames := seenNames + {c.name};
    }
    err := ValidatePorts(r);
  }

  method ValidatePorts(r: Request) returns (err: Option<RequestError>)
    requires r.id != "" && |r.containers| >= 2 && ContainersOk(r.containers, |r.containers|)
    ensures err == None <==> PortsOk(r.ports, |r.ports|)
    ensures err.Some? ==> Explains(r, err.value)
  {
    var seenHostPorts: set<int> := {};
    for i := 0 to |r.ports|
      invariant PortsOk(r.ports, i)
      invariant forall n :: n in seenHostPorts <==> exists j :: 0 <= j < i && r.ports[j].hostPort == n
    {
      var p := r.ports[i];
      if p.hostPort < 1 || p.hostPort > 65535 || p.containerPort < 1 || p.containerPort > 65535 {
        assert !PortOk(r.ports, i);
        return Some(InvalidPort(i));
      }
      if p.hostPort < 1024 {
        assert !PortOk(r.ports, i);
        return Some(PrivilegedPort(i));
      }
      var proto := ToLower(TrimSpace(p.protocol));
      if proto == "" {
        proto := "tcp";
      }
      if proto != "tcp" && proto != "udp" {
        assert !PortOk(r.ports, i);
        return Some(UnsupportedProtocol(i));
      }
      if p.hostPort in seenHostPorts {
        assert HostPortTaken(r.ports, i);
        assert !PortOk(r.ports, i);
        return Some(DuplicateHostPort(i));
      }
      seenHostPorts := seenHostPorts + {p.hostPort};
    }
    return None;
  }

  /** What is accepted, in plain terms: at least two containers, each with an image and a name of its own, and
      port mappings from unprivileged host ports, each listed once, over tcp, which may go unnamed, or udp. */
  lemma AcceptedIff(r: Request)
    ensures Acceptable(r)
       <==> && |r.id| > 0 && |r.containers| > 1
            && (forall i :: 0 <= i < |r.containers| ==> r.containers[i].name != "" && r.containers[i].image != "")
            && (forall i, j :: 0 <= i < j < |r.containers| ==> r.containers[i].name != r.containers[j].name)
            && (forall i :: 0 <= i < |r.ports| ==>
                  && 1023 < r.ports[i].hostPort < 65536 && 0 < r.ports[i].containerPort < 65536
                  && ToLower(TrimSpace(r.ports[i].protocol)) in {"", "tcp", "udp"})
            && (forall i, j :: 0 <= i < j < |r.ports| ==> r.ports[i].hostPort != r.ports[j].hostPort)
  {
    hide ToLower, TrimSpace;
    forall i | 0 <= i < |r.containers|
      ensures NameTaken(r.containers, i) <==> exists j :: 0 <= j < i && r.containers[j].name == r.containers[i].name
    {
    }
    forall i | 0 <= i < |r.ports|
      ensures PortOk(r.ports, i)
         <==> && 1023 < r.ports[i].hostPort < 65536 && 0 < r.ports[i].containerPort < 65536
              && ToLower(TrimSpace(r.ports[i].protocol)) in {"", "tcp", "udp"}
              && forall j :: 0 <= j < i ==> r.ports[j].hostPort != r.ports[i].hostPort
    {
    }
  }

  /** Accepted requests claim pairwise different host ports. */
  lemma AcceptedPortsDistinct(r: Request, i: nat, j: nat)
    requires Acceptable(r) && i < |r.ports| && j < |r.ports| && r.ports[i].hostPort == r.ports[j].hostPort
    ensures i == j
  {
    assert PortOk(r.ports, i) && PortOk(r.ports, j);
  }

  // Container plans.

  datatype ContainerPhase = ContainerCreating | ContainerRunning | ContainerStopped | ContainerError | ContainerUnknown

  datatype ContainerState = ContainerState(id: string, name: string, phase: ContainerPhase, error: string,
                                           image: string, args: seq<string>, env: seq<string>, taskStatus: string,
                                           exitStatus: nat, exitTime: string, taskPid: nat)

  function ContainerId(sandbox: string, name: string): string {
    sandbox + "-" + name
  }

  function Planned(sandbox: string, c: ContainerRequest): ContainerState {
    ContainerState(ContainerId(sandbox, c.name), c.name, ContainerCreating, "", c.image, c.args, c.env, "", 0, "", 0)
  }

  /** The map filled by assigning each container in turn; a later assignment to a name wins. */
  function Plan(sandbox: string, cs: seq<ContainerRequest>): map<string, ContainerState> {
    if cs == [] then map[]
    else Plan(sandbox, cs[..|cs| - 1])[cs[|cs| - 1].name := Planned(sandbox, cs[|cs| - 1])]
  }

  method PlanContainers(sandbox: string, cs: seq<ContainerRequest>) returns (plan: map<string, ContainerState>)
    ensures plan == Plan(sandbox, cs)
  {
    plan := map[];
    for i := 0 to |cs|
      invariant plan == Plan(sandbox, cs[..i])
    {
      plan := plan[cs[i].name := Planned(sandbox, cs[i])];
      assert cs[..i + 1][..i] == cs[..i];
    }
    assert cs[..|cs|] == cs;
  }

  lemma {:induction false} PlanOf(sandbox: string, cs: seq<ContainerRequest>, n: nat)
    requires n <= |cs| && forall i :: 0 <= i < n ==> !NameTaken(cs, i)
    ensures |Plan(sandbox, cs[..n])| == n
    ensures forall i :: 0 <= i < n ==>
              cs[i].name in Plan(sandbox, cs[..n]) && Plan(sandbox, cs[..n])[cs[i].name] == Planned(sandbox, cs[i])
    ensures forall name :: name in Plan(sandbox, cs[..n]) ==> exists i :: 0 <= i < n && cs[i].name == name
  {
    if n > 0 {
      PlanOf(sandbox, cs, n - 1);
      assert cs[..n][..n - 1] == cs[..n - 1];
      var before := Plan(sandbox, cs[..n - 1]);
      assert !NameTaken(cs, n - 1);
      assert cs[n - 1].name !in before;
      assert forall i :: 0 <= i < n - 1 ==> cs[i].name != cs[n - 1].name;
    }
  }

  /** For every accepted request the plan is in bijection with the requested containers, each under its
      own name and with an id of its own. */
  lemma PlanIsBijection(r: Request)
    requires Acceptable(r)
    ensures |Plan(r.id, r.containers)| == |r.containers|
    ensures forall i :: 0 <= i < |r.containers| ==>
              r.containers[i].name in Plan(r.id, r.containers)
              && Plan(r.id, r.containers)[r.containers[i].name] == Planned(r.id, r.containers[i])
    ensures forall name :: name in Plan(r.id, r.containers) ==>
              exists i :: 0 <= i < |r.containers| && r.containers[i].name == name
    ensures forall a, b :: a in Plan(r.id, r.containers) && b in Plan(r.id, r.containers) && a != b ==>
              Plan(r.id, r.containers)[a].id != Plan(r.id, r.containers)[b].id
  {
    var plan, n := Plan(r.id, r.containers), |r.containers|;
    assert r.containers[..n] == r.containers;
    PlanOf(r.id, r.containers, n);
    forall a, b | a in plan && b in plan && plan[a].id == plan[b].id ensures a == b {
      assert plan[a].id == ContainerId(r.id, a) && plan[b].id == ContainerId(r.id, b);
      assert ContainerId(r.id, a)[|r.id| + 1..] == a && ContainerId(r.id, b)[|r.id| + 1..] == b;
    }
  }

  // Families of container ids.

  predicate InFamily(sandbox: string, container: string) {
    (sandbox + "-") <= container
  }

  lemma FamilyMember(sandbox: string, name: string)
    ensures InFamily(sandbox, ContainerId(sandbox, name))
  {
  }

  lemma CommonText(a: string, b: string, s: string)
    requires a <= s && b <= s
    ensures a <= b || b <= a
  {
  }

  /** Collecting by the prefix `sandbox-` finds containers of another sandbox exactly when one id
      followed by a dash begins the other followed by a dash. */
  lemma FamiliesApartIff(a: string, b: string)
    ensures (forall container :: !(InFamily(a, container) && InFamily(b, container)))
       <==> !((a + "-") <= (b + "-")) && !((b + "-") <= (a + "-"))
  {
    if (a + "-") <= (b + "-") {
      assert InFamily(a, b + "-") && InFamily(b, b + "-");
    } else if (b + "-") <= (a + "-") {
      assert InFamily(a, a + "-") && InFamily(b, a + "-");
    } else {
      forall container ensures !(InFamily(a, container) && InFamily(b, container)) {
        if InFamily(a, container) && InFamily(b, container) {
          CommonText(a + "-", b + "-", container);
          assert false;
        }
      }
    }
  }

  /** Two sandboxes that are free of each other's prefix never plan the same container id. */
  lemma PlansApart(a: string, b: string, x: string, y: string)
    requires !((a + "-") <= (b + "-")) && !((b + "-") <= (a + "-"))
    ensures ContainerId(a, x) != ContainerId(b, y)
    ensures !InFamily(a, ContainerId(b, y))
  {
    FamiliesApartIff(a, b);
    FamilyMember(a, x);
    FamilyMember(b, y);
  }
}
