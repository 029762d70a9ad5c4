/** Host-port bookkeeping: the availability check, reservations and their release. */
module Ports {
  import opened Text
  import opened Rules
  import opened Requests

  datatype Key = Key(port: int, proto: string)

  function KeyOf(p: PortMapping): Key {
    Key(p.hostPort, NormalizeProto(p.protocol))
  }

  function KeysOf(ports: seq<PortMapping>): set<Key> {
    set i | 0 <= i < |ports| :: KeyOf(ports[i])
  }

  /** The text the reservation map is keyed by. */
  function KeyText(k: Key): string {
    Itoa(k.port) + "/" + k.proto
  }

  lemma KeyTextInjective(a: Key, b: Key)
    requires KeyText(a) == KeyText(b)
    ensures a == b
  {
    ItoaIsWord(a.port);
    ItoaIsWord(b.port);
    var s, x, y := KeyText(a), Itoa(a.port), Itoa(b.port);
    assert s[|x|] == '/' && s[|y|] == '/';
    assert forall i :: 0 <= i < |x| ==> s[i] == x[i] != '/';
    assert forall i :: 0 <= i < |y| ==> s[i] == y[i] != '/';
    assert |x| == |y|;
    assert x == s[..|x|] == y;
    ItoaInjective(a.port, b.port);
    assert a.proto == s[|x| + 1..] == b.proto;
  }

  /** What the store lists of one sandbox. */
  datatype Stored = Stored(id: string, ports: seq<PortMapping>)

  datatype Owner = Owner(sandbox: string, proto: string)

  function AddPorts(used: map<int, Owner>, sb: Stored, ports: seq<PortMapping>): map<int, Owner> {
    if ports == [] then used
    else
      var p := ports[|ports| - 1];
      AddPorts(used, sb, ports[..|ports| - 1])[p.hostPort := Owner(sb.id, NormalizeProto(p.protocol))]
  }

  /** The map the check builds: by port number alone, the last sandbox and port listed win. */
  function UsedBy(all: seq<Stored>, id: string): map<int, Owner> {
    if all == [] then map[]
    else
      var before, sb := UsedBy(all[..|all| - 1], id), all[|all| - 1];
      if sb.id == id then before else AddPorts(before, sb, sb.ports)
  }

  predicate WrittenTaken(used: map<int, Owner>, k: Key) {
    k.port in used && used[k.port].proto == k.proto
  }

  predicate Claims(ports: seq<PortMapping>, k: Key) {
    exists j :: 0 <= j < |ports| && KeyOf(ports[j]) == k
  }

  predicate ClaimsNumber(ports: seq<PortMapping>, n: int) {
    exists j :: 0 <= j < |ports| && ports[j].hostPort == n
  }

  /** Some other stored sandbox claims the port for the protocol. */
  predicate Taken(all: seq<Stored>, id: string, k: Key) {
    exists i :: 0 <= i < |all| && all[i].id != id && Claims(all[i].ports, k)
  }

  predicate ReservedByOther(reserved: map<Key, string>, id: string, k: Key) {
    k in reserved && reserved[k] != id
  }

  datatype PortError =
    | InUse(at: nat, owner: string)
    | AlreadyReserved(at: nat, owner: string)
    | LocallyBusy(at: nat)

  predicate PassesWritten(all: seq<Stored>, reserved: map<Key, string>, busy: set<Key>, id: string, k: Key) {
    !WrittenTaken(UsedBy(all, id), k) && !ReservedByOther(reserved, id, k) && k !in busy
  }

  predicate PassesUntil(all: seq<Stored>, reserved: map<Key, string>, busy: set<Key>, id: string,
                        requested: seq<PortMapping>, n: nat)
    requires n <= |requested|
  {
    forall i :: 0 <= i < n ==> PassesWritten(all, reserved, busy, id, KeyOf(requested[i]))
  }

  function Reserve(reserved: map<Key, string>, id: string, keys: set<Key>): map<Key, string> {
    map k | k in reserved.Keys + keys :: if k in keys then id else reserved[k]
  }

  function Release(reserved: map<Key, string>, id: string, keys: set<Key>): map<Key, string> {
    map k | k in reserved && !(k in keys && reserved[k] == id) :: reserved[k]
  }

  function ReleaseAll(reserved: map<Key, string>, id: string): map<Key, string> {
    map k | k in reserved && reserved[k] != id :: reserved[k]
  }

  /** The keys of the ports before position i. */
  function KeysBefore(ports: seq<PortMapping>, i: nat): set<Key>
    requires i <= |ports|
  {
    KeysOf(ports[..i])
  }

  lemma KeysStep(ports: seq<PortMapping>, i: nat)
    requires i < |ports|
    ensures KeysBefore(ports, i + 1) == KeysBefore(ports, i) + {KeyOf(ports[i])}
  {
  }

  lemma NothingReserved(reserved: map<Key, string>, id: string, ports: seq<PortMapping>)
    ensures Reserve(reserved, id, KeysBefore(ports, 0)) == reserved
  {
  }

  lemma AllReserved(ports: seq<PortMapping>)
    ensures KeysBefore(ports, |ports|) == KeysOf(ports)
  {
  }

  lemma ReserveStep(reserved: map<Key, string>, id: string, ports: seq<PortMapping>, i: nat)
    requires i < |ports|
    ensures Reserve(reserved, id, KeysBefore(ports, i))[KeyOf(ports[i]) := id]
              == Reserve(reserved, id, KeysBefore(ports, i + 1))
  {
    KeysStep(ports, i);
  }

  function ElementsOf(keys: seq<Key>): set<Key> {
    set k | k in keys
  }

  lemma ReleaseStep(reserved: map<Key, string>, id: string, keys: seq<Key>, i: nat)
    requires i < |keys|
    ensures var before, k := Release(reserved, id, ElementsOf(keys[..i])), keys[i];
      Release(reserved, id, ElementsOf(keys[..i + 1]))
      == if k in before && before[k] == id then before - {k} else before
  {
  }

  class PortBook {
    var reserved: map<Key, string>

    constructor ()
      ensures reserved == map[]
    {
      reserved := map[];
    }

    method CollectUsed(all: seq<Stored>, id: string) returns (used: map<int, Owner>)
      ensures used == UsedBy(all, id)
    {
      used := map[];
      for i := 0 to |all|
        invariant used == UsedBy(all[..i], id)
      {
        var sb := all[i];
        assert all[..i + 1][..i] == all[..i];
        if sb.id == id {
          continue;
        }
        ghost var before := used;
        for j := 0 to |sb.ports|
          invariant used == AddPorts(before, sb, sb.ports[..j])
        {
          var p := sb.ports[j];
          used := used[p.hostPort := Owner(sb.id, NormalizeProto(p.protocol))];
          assert sb.ports[..j + 1][..j] == sb.ports[..j];
        }
        assert sb.ports[..|sb.ports|] == sb.ports;
      }
      assert all[..|all|] == all;
    }

    method ReservedPortOwner(k: Key) returns (owner: Option<string>)
      ensures owner == if k in reserved then Some(reserved[k]) else None
    {
      owner := if k in reserved then Some(reserved[k]) else None;
    }

    /** `busy` are the ports a local listener turns out to hold. */
    method EnsureHostPortsAvailable(all: seq<Stored>, id: string, requested: seq<PortMapping>, busy: set<Key>)
      returns (err: Option<PortError>)
      ensures err == None <==> PassesUntil(all, reserved, busy, id, requested, |requested|)
      ensures err.Some? ==>
                && err.value.at < |requested|
                && PassesUntil(all, reserved, busy, id, requested, err.value.at)
                && var k := KeyOf(requested[err.value.at]);
                   match err.value
                   case InUse(_, owner) => WrittenTaken(UsedBy(all, id), k) && owner == UsedBy(all, id)[k.port].sandbox
                   case AlreadyReserved(_, owner) =>
                     !WrittenTaken(UsedBy(all, id), k) && ReservedByOther(reserved, id, k) && owner == reserved[k]
                   case LocallyBusy(_) =>
                     !WrittenTaken(UsedBy(all, id), k) && !ReservedByOther(reserved, id, k) && k in busy
      ensures err == None ==>
                forall i :: 0 <= i < |requested| ==>
                  var k := KeyOf(requested[i]); k !in busy && (k in reserved ==> reserved[k] == id)
      ensures err.Some? && err.value.InUse? ==>
                exists i :: 0 <= i < |all| && all[i].id == err.value.owner != id
                  && Claims(all[i].ports, KeyOf(requested[err.value.at]))
    {
      if |requested| == 0 {
        return None;
      }
      var used := CollectUsed(all, id);
      for i := 0 to |requested|
        invariant PassesUntil(all, reserved, busy, id, requested, i)
      {
        var k := KeyOf(requested[i]);
        if k.port in used && used[k.port].proto == k.proto {
          UsedNamesOwner(all, id, k.port);
          return Some(InUse(i, used[k.port].sandbox));
        }
        var owner := ReservedPortOwner(k);
        if owner.Some? && owner.value != id {
          return Some(AlreadyReserved(i, owner.value));
        }
        if k in busy {
          return Some(LocallyBusy(i));
        }
      }
      return None;
    }

    method ReserveRequestedPorts(id: string, requested: seq<PortMapping>) returns (keys: seq<Key>)
      modifies this
      ensures keys == seq(|requested|, i requires 0 <= i < |requested| => KeyOf(requested[i]))
      ensures reserved == Reserve(old(reserved), id, KeysOf(requested))
    {
      hide KeyOf, Reserve, KeysBefore, KeysOf;
      keys := [];
      NothingReserved(reserved, id, requested);
      for i := 0 to |requested|
        invariant keys == seq(i, j requires 0 <= j < i => KeyOf(requested[j]))
        invariant reserved == Reserve(old(reserved), id, KeysBefore(requested, i))
      {
        var k := KeyOf(requested[i]);
        ReserveStep(old(reserved), id, requested, i);
        reserved := reserved[k := id];
        keys := keys + [k];
      }
      AllReserved(requested);
    }

    /** The release a creation runs on every exit after it has reserved. */
    method ReleasePorts(id: string, keys: seq<Key>)
      modifies this
      ensures reserved == Release(old(reserved), id, ElementsOf(keys))
      ensures forall k :: k in reserved <==> k in old(reserved) && (k !in keys || old(reserved)[k] != id)
      ensures forall k :: k in reserved ==> reserved[k] == old(reserved)[k]
    {
      for i := 0 to |keys|
        invariant reserved == Release(old(reserved), id, ElementsOf(keys[..i]))
      {
        var k := keys[i];
        ReleaseStep(old(reserved), id, keys, i);
        if k in reserved && reserved[k] == id {
          reserved := reserved - {k};
        }
      }
      assert keys[..|keys|] == keys;
    }

    method ReleaseReservedPorts(id: string)
      modifies this
      ensures reserved == ReleaseAll(old(reserved), id)
      ensures forall k :: k in reserved <==> k in old(reserved) && old(reserved)[k] != id
      ensures forall k :: k in reserved ==> reserved[k] == old(reserved)[k]
    {
      var todo := reserved.Keys;
      while todo != {}
        invariant todo <= old(reserved).Keys
        invariant forall k :: k in reserved <==> k in old(reserved) && (k in todo || old(reserved)[k] != id)
        invariant forall k :: k in reserved ==> reserved[k] == old(reserved)[k]
        decreases todo
      {
        var k :| k in todo;
        todo := todo - {k};
        if k in reserved && reserved[k] == id {
          reserved := reserved - {k};
        }
      }
    }
  }

  /** Releasing what a creation reserved leaves the reservations as they were exactly when none of its
      ports was reserved before, which is what the check establishes. */
  lemma ReleaseUndoesReserveIff(reserved: map<Key, string>, id: string, keys: set<Key>)
    ensures Release(Reserve(reserved, id, keys), id, keys) == reserved <==> forall k :: k in keys ==> k !in reserved
  {
  }

  // The map by port number against the map by port and protocol.

  lemma ClaimsStep(ports: seq<PortMapping>, k: Key, n: int)
    requires ports != []
    ensures var init, p := ports[..|ports| - 1], ports[|ports| - 1];
      && (Claims(ports, k) <==> Claims(init, k) || KeyOf(p) == k)
      && (ClaimsNumber(ports, n) <==> ClaimsNumber(init, n) || p.hostPort == n)
  {
  }

  lemma {:induction false} AddedPorts(used: map<int, Owner>, sb: Stored, ports: seq<PortMapping>, n: int)
    ensures n in AddPorts(used, sb, ports) <==> n in used || ClaimsNumber(ports, n)
    ensures n in AddPorts(used, sb, ports) ==>
              if ClaimsNumber(ports, n) then Claims(ports, Key(n, AddPorts(used, sb, ports)[n].proto))
              else n in used && AddPorts(used, sb, ports)[n] == used[n]
  {
    if ports != [] {
      AddedPorts(used, sb, ports[..|ports| - 1], n);
      var after := AddPorts(used, sb, ports);
      ClaimsStep(ports, Key(n, if n in after then after[n].proto else ""), n);
    }
  }

  /** The sandbox the map names for a number is another one that is listed with the number under that protocol. */
  lemma {:induction false} UsedNamesOwner(all: seq<Stored>, id: string, n: int)
    requires n in UsedBy(all, id)
    ensures var owner := UsedBy(all, id)[n];
      exists i :: 0 <= i < |all| && all[i].id == owner.sandbox != id && Claims(all[i].ports, Key(n, owner.proto))
  {
    hide KeyOf, Claims;
    var init, sb := all[..|all| - 1], all[|all| - 1];
    if sb.id == id || n !in AddPorts(map[], sb, sb.ports) {
      if sb.id != id {
        AddedOwner(UsedBy(init, id), sb, sb.ports, n);
        AddedOwner(map[], sb, sb.ports, n);
      }
      UsedNamesOwner(init, id, n);
      var owner := UsedBy(init, id)[n];
      var i :| 0 <= i < |init| && init[i].id == owner.sandbox != id && Claims(init[i].ports, Key(n, owner.proto));
      assert all[i] == init[i];
    } else {
      AddedOwner(UsedBy(init, id), sb, sb.ports, n);
      AddedOwner(map[], sb, sb.ports, n);
      assert all[|all| - 1] == sb;
    }
  }

  lemma {:induction false} AddedOwner(used: map<int, Owner>, sb: Stored, ports: seq<PortMapping>, n: int)
    ensures n in AddPorts(map[], sb, ports) ==>
              n in AddPorts(used, sb, ports) && AddPorts(used, sb, ports)[n].sandbox == sb.id
              && Claims(ports, Key(n, AddPorts(used, sb, ports)[n].proto))
    ensures n !in AddPorts(map[], sb, ports) ==>
              (n in AddPorts(used, sb, ports) <==> n in used)
              && (n in used ==> AddPorts(used, sb, ports)[n] == used[n])
  {
    if ports != [] {
      AddedOwner(used, sb, ports[..|ports| - 1], n);
      var after := AddPorts(used, sb, ports);
      ClaimsStep(ports, Key(n, if n in after then after[n].proto else ""), n);
    }
  }

  /** Some other sandbox claims the port number, under whatever protocol. */
  predicate NumberTaken(all: seq<Stored>, id: string, n: int) {
    exists i :: 0 <= i < |all| && all[i].id != id && ClaimsNumber(all[i].ports, n)
  }

  lemma TakenStep(all: seq<Stored>, id: string, k: Key, n: int)
    requires all != []
    ensures var init, sb := all[..|all| - 1], all[|all| - 1];
      && (Taken(all, id, k) <==> Taken(init, id, k) || (sb.id != id && Claims(sb.ports, k)))
      && (NumberTaken(all, id, n) <==> NumberTaken(init, id, n) || (sb.id != id && ClaimsNumber(sb.ports, n)))
  {
  }

  /** The check's map knows every claimed number, and for it the protocol of one of the claims. */
  lemma {:induction false} UsedIsAClaim(all: seq<Stored>, id: string, n: int)
    ensures n in UsedBy(all, id) <==> NumberTaken(all, id, n)
    ensures n in UsedBy(all, id) ==> Taken(all, id, Key(n, UsedBy(all, id)[n].proto))
  {
    if all != [] {
      hide Taken, NumberTaken, Claims, ClaimsNumber;
      var init, sb := all[..|all| - 1], all[|all| - 1];
      UsedIsAClaim(init, id, n);
      AddedPorts(UsedBy(init, id), sb, sb.ports, n);
      var used := UsedBy(all, id);
      TakenStep(all, id, Key(n, if n in used then used[n].proto else ""), n);
    }
  }

  /** No stored port number is claimed under two protocols. */
  ghost predicate OneProtocolPerNumber(all: seq<Stored>, id: string) {
    forall a, b :: Taken(all, id, a) && Taken(all, id, b) && a.port == b.port ==> a == b
  }

  lemma TakenNumber(all: seq<Stored>, id: string, k: Key)
    requires Taken(all, id, k)
    ensures NumberTaken(all, id, k.port)
  {
  }

  /** The check as written agrees with the check by port and protocol on every request exactly when no
      stored port number is claimed under two protocols. */
  lemma WrittenCheckExactIff(all: seq<Stored>, id: string)
    ensures (forall k :: WrittenTaken(UsedBy(all, id), k) <==> Taken(all, id, k)) <==> OneProtocolPerNumber(all, id)
  {
    hide Taken, NumberTaken, UsedBy;
    var used := UsedBy(all, id);
    if OneProtocolPerNumber(all, id) {
      forall k ensures WrittenTaken(used, k) <==> Taken(all, id, k) {
        UsedIsAClaim(all, id, k.port);
        if Taken(all, id, k) {
          TakenNumber(all, id, k);
        }
      }
    } else {
      var a, b :| Taken(all, id, a) && Taken(all, id, b) && a.port == b.port && a != b;
      assert !WrittenTaken(used, a) || !WrittenTaken(used, b);
    }
  }

  /** A port of a stored sandbox that the check as written hands out a second time. */
  lemma WrittenCheckMisses()
    ensures var all := [Stored("a", [PortMapping(5000, 80, "tcp")]), Stored("b", [PortMapping(5000, 53, "udp")])];
      Taken(all, "c", Key(5000, "tcp")) && PassesWritten(all, map[], {}, "c", Key(5000, "tcp"))
  {
    var a, b := Stored("a", [PortMapping(5000, 80, "tcp")]), Stored("b", [PortMapping(5000, 53, "udp")]);
    var all := [a, b];
    assert NormalizeProto("tcp") == "tcp" && NormalizeProto("udp") == "udp" by {
      assert ToLower("tcp") == "tcp" && ToLower("udp") == "udp";
      assert TrimSpace("tcp") == "tcp" && TrimSpace("udp") == "udp";
    }
    assert KeyOf(a.ports[0]) == Key(5000, "tcp");
    assert Claims(a.ports, Key(5000, "tcp"));
    assert all[0].id != "c" by { assert "a"[0] != "c"[0]; }
    assert b.id != "c" by { assert "b"[0] != "c"[0]; }
    assert all[..1] == [a] && b.ports[..0] == [];
    assert UsedBy(all, "c") == AddPorts(UsedBy([a], "c"), b, b.ports);
    assert UsedBy(all, "c")[5000] == Owner("b", "udp");
    assert "tcp"[0] != "udp"[0];
  }
}
