/** First-match lookup in the translation chains is the map of claimed host ports. */
module Lookup {
  import opened Text
  import opened Rules
  import opened Tables
  import opened Nat
  import opened Tags
  import opened Published
  import opened Publishing

  ghost predicate Claims(pubs: map<string, Pub>, id: string, i: int, p: Packet) {
    && id in pubs && 0 <= i < |pubs[id].forwards|
    && p.proto == NormalizeProto(pubs[id].forwards[i].protocol)
    && p.dport == pubs[id].forwards[i].hostPort
  }

  /** No host port is claimed twice for one protocol. */
  ghost predicate UniqueClaims(pubs: map<string, Pub>) {
    forall p, a, b, i, j :: Claims(pubs, a, i, p) && Claims(pubs, b, j, p) ==> a == b && i == j
  }

  /** Rules of other programs let the packet pass. */
  ghost predicate ForeignPass(t: Table, c: string, p: Packet, depth: nat) {
    forall r :: r in Chain(t, c) && Foreign(c, r) ==> Inert(t, r, p, depth)
  }

  lemma TranslationSelects(c: string, id: string, ip: nat, f: Forward, p: Packet)
    requires c in {PREROUTING, OUTPUT}
    ensures Selects(RuleFor(c, id, ip, f), p) <==>
              p.proto == NormalizeProto(f.protocol) && p.dport == f.hostPort && (c == OUTPUT ==> p.dstLocal)
  {
    ChainsDiffer();
    var r := RuleFor(c, id, ip, f);
    var a, b, d := Protocol(NormalizeProto(f.protocol)), DestPort(f.hostPort), Comment(TAG + id);
    if c == OUTPUT {
      assert r.matches == [DestLocal, a, b, d];
      assert r.matches[0] == DestLocal && r.matches[1] == a && r.matches[2] == b && r.matches[3] == d;
    } else {
      assert r.matches == [a, b, d];
      assert r.matches[0] == a && r.matches[1] == b && r.matches[2] == d;
    }
  }

  lemma TranslationDecides(t: Table, c: string, id: string, ip: nat, f: Forward, p: Packet, depth: nat)
    ensures Selects(RuleFor(c, id, ip, f), p) ==>
              Eval(t, [RuleFor(c, id, ip, f)], p, depth) == Some(Translated(ip, f.containerPort))
    ensures !Selects(RuleFor(c, id, ip, f), p) ==> Inert(t, RuleFor(c, id, ip, f), p, depth)
  {
  }

  /** A list whose rules either pass the packet on or all give the same verdict. */
  lemma {:induction false} SameOutcome(t: Table, s: seq<Rule>, p: Packet, depth: nat, verdict: Verdict)
    requires forall r :: r in s ==> Inert(t, r, p, depth) || Eval(t, [r], p, depth) == Some(verdict)
    ensures Eval(t, s, p, depth) == if exists r :: r in s && !Inert(t, r, p, depth) then Some(verdict) else None
  {
    if s != [] {
      assert s[0] in s && s == [s[0]] + s[1..];
      forall r | r in s[1..] ensures r in s { }
      SameOutcome(t, s[1..], p, depth, verdict);
      if Inert(t, s[0], p, depth) {
        InertHead(t, s[0], s[1..], p, depth);
      } else {
        DecisiveHead(t, s[0], s[1..], p, depth);
      }
    }
  }

  /** Each rule of a chain either lets the packet pass or belongs to a claim the packet is for. */
  lemma RuleOutcome(t: Table, pubs: map<string, Pub>, c: string, r: Rule, p: Packet, depth: nat)
    requires NatHolds(t, pubs) && c in {PREROUTING, OUTPUT} && ForeignPass(t, c, p, depth) && r in Chain(t, c)
    ensures Inert(t, r, p, depth) ||
            exists id, i :: Claims(pubs, id, i, p)
              && Eval(t, [r], p, depth) == Some(Translated(pubs[id].ip, pubs[id].forwards[i].containerPort))
  {
    hide Inert, Eval, Foreign, RuleFor, Selects;
    if !Foreign(c, r) {
      var id :| id in pubs && Owns(c, r, id, pubs[id]);
      var i :| 0 <= i < |pubs[id].forwards| && r == RuleFor(c, id, pubs[id].ip, pubs[id].forwards[i]);
      TranslationDecides(t, c, id, pubs[id].ip, pubs[id].forwards[i], p, depth);
      TranslationSelects(c, id, pubs[id].ip, pubs[id].forwards[i], p);
      assert Selects(r, p) ==> Claims(pubs, id, i, p);
    }
  }

  /** A packet to a claimed host port is translated to the claiming sandbox's address and port. */
  lemma ClaimedLookup(t: Table, pubs: map<string, Pub>, c: string, id: string, i: int, p: Packet, depth: nat)
    requires NatHolds(t, pubs) && UniqueClaims(pubs) && c in {PREROUTING, OUTPUT} && ForeignPass(t, c, p, depth)
    requires Claims(pubs, id, i, p) && (c == OUTPUT ==> p.dstLocal)
    ensures Eval(t, Chain(t, c), p, depth) == Some(Translated(pubs[id].ip, pubs[id].forwards[i].containerPort))
  {
    hide Eval, Inert, Foreign, RuleFor, Selects, ChainHolds, ForeignPass;
    var f := pubs[id].forwards[i];
    var verdict, own := Translated(pubs[id].ip, f.containerPort), RuleFor(c, id, pubs[id].ip, f);
    forall r | r in Chain(t, c) ensures Inert(t, r, p, depth) || Eval(t, [r], p, depth) == Some(verdict) {
      RuleOutcome(t, pubs, c, r, p, depth);
    }
    SameOutcome(t, Chain(t, c), p, depth, verdict);
    TranslationSelects(c, id, pubs[id].ip, f, p);
    TranslationDecides(t, c, id, pubs[id].ip, f, p, depth);
    OwnRulePresent(t, pubs, c, id, i);
    Decisive(t, own, p, depth);
  }

  lemma Decisive(t: Table, r: Rule, p: Packet, depth: nat)
    requires Selects(r, p) && Eval(t, [r], p, depth).Some?
    ensures !Inert(t, r, p, depth)
  {
  }

  lemma OwnRulePresent(t: Table, pubs: map<string, Pub>, c: string, id: string, i: int)
    requires NatHolds(t, pubs) && c in {PREROUTING, OUTPUT} && id in pubs && 0 <= i < |pubs[id].forwards|
    ensures RuleFor(c, id, pubs[id].ip, pubs[id].forwards[i]) in Chain(t, c)
  {
    var r := RuleFor(c, id, pubs[id].ip, pubs[id].forwards[i]);
    assert Owns(c, r, id, pubs[id]);
    assert r in multiset(Chain(t, c));
  }

  /** A packet to a host port nobody claims is left alone. */
  lemma UnclaimedLookup(t: Table, pubs: map<string, Pub>, c: string, p: Packet, depth: nat)
    requires NatHolds(t, pubs) && c in {PREROUTING, OUTPUT} && ForeignPass(t, c, p, depth)
    requires forall id, i :: !Claims(pubs, id, i, p)
    ensures Eval(t, Chain(t, c), p, depth) == None
  {
    hide Eval, Inert, Foreign, ChainHolds, ForeignPass;
    forall r | r in Chain(t, c) ensures Inert(t, r, p, depth) {
      RuleOutcome(t, pubs, c, r, p, depth);
    }
    SameOutcome(t, Chain(t, c), p, depth, Accepted);
  }

  ghost predicate NatLegalRun(listing: Listing, pubs: map<string, Pub>, events: seq<NatEvent>)
    decreases |events|
  {
    events == []
    || (NatLegal(listing, pubs, events[0]) && NatLegalRun(listing, PubsAfter(listing, pubs, events[0]), events[1..]))
  }

  function NatRun(listing: Listing, t: Table, events: seq<NatEvent>): Table
    decreases |events|
  {
    if events == [] then t else NatRun(listing, NatAfter(listing, t, events[0]), events[1..])
  }

  function PubsRun(listing: Listing, pubs: map<string, Pub>, events: seq<NatEvent>): map<string, Pub>
    decreases |events|
  {
    if events == [] then pubs else PubsRun(listing, PubsAfter(listing, pubs, events[0]), events[1..])
  }

  lemma {:induction false} NatRunKeeps(listing: Listing, t: Table, pubs: map<string, Pub>, events: seq<NatEvent>)
    requires NatHolds(t, pubs) && NatLegalRun(listing, pubs, events)
    ensures NatHolds(NatRun(listing, t, events), PubsRun(listing, pubs, events))
    decreases |events|
  {
    hide NatHolds, NatAfter;
    if events != [] {
      NatEventKeeps(listing, t, pubs, events[0]);
      NatRunKeeps(listing, NatAfter(listing, t, events[0]), PubsAfter(listing, pubs, events[0]), events[1..]);
    }
  }

  /** Starting from chains that hold only rules of other programs, after any legal history of single
      publications, removals and orphan sweeps: lookup is the map of the claims then in force. */
  lemma LookupAfterAnyHistory(listing: Listing, host: Table, events: seq<NatEvent>, c: string, id: string, i: int,
                              p: Packet, depth: nat)
    requires NatHolds(host, map[]) && NatLegalRun(listing, map[], events)
               && UniqueClaims(PubsRun(listing, map[], events))
    requires c in {PREROUTING, OUTPUT} && (c == OUTPUT ==> p.dstLocal)
    requires ForeignPass(NatRun(listing, host, events), c, p, depth)
    ensures var t, pubs := NatRun(listing, host, events), PubsRun(listing, map[], events);
      && (Claims(pubs, id, i, p) ==>
            Eval(t, Chain(t, c), p, depth) == Some(Translated(pubs[id].ip, pubs[id].forwards[i].containerPort)))
      && ((forall x, j :: !Claims(pubs, x, j, p)) ==> Eval(t, Chain(t, c), p, depth) == None)
  {
    hide NatHolds, Eval, UniqueClaims, ForeignPass;
    var t, pubs := NatRun(listing, host, events), PubsRun(listing, map[], events);
    NatRunKeeps(listing, host, map[], events);
    if Claims(pubs, id, i, p) {
      ClaimedLookup(t, pubs, c, id, i, p, depth);
    } else if forall x, j :: !Claims(pubs, x, j, p) {
      UnclaimedLookup(t, pubs, c, p, depth);
    }
  }

  /** Publishing for or removing one sandbox changes no other sandbox's lookup. */
  lemma OthersUndisturbed(listing: Listing, t: Table, pubs: map<string, Pub>, e: NatEvent, c: string, id: string,
                          i: int, p: Packet, depth: nat)
    requires NatHolds(t, pubs) && NatLegal(listing, pubs, e) && (e.Publish? || e.Unpublish?) && e.id != id
    requires UniqueClaims(pubs) && UniqueClaims(PubsAfter(listing, pubs, e)) && Claims(pubs, id, i, p)
    requires c in {PREROUTING, OUTPUT} && (c == OUTPUT ==> p.dstLocal)
    requires ForeignPass(t, c, p, depth) && ForeignPass(NatAfter(listing, t, e), c, p, depth)
    ensures Eval(NatAfter(listing, t, e), Chain(NatAfter(listing, t, e), c), p, depth) == Eval(t, Chain(t, c), p, depth)
  {
    hide NatHolds, Eval, UniqueClaims, ForeignPass, NatAfter, NatLegal;
    NatEventKeeps(listing, t, pubs, e);
    var pubs' := PubsAfter(listing, pubs, e);
    assert id in pubs' && pubs'[id] == pubs[id];
    assert Claims(pubs', id, i, p);
    ClaimedLookup(t, pubs, c, id, i, p, depth);
    ClaimedLookup(NatAfter(listing, t, e), pubs', c, id, i, p, depth);
  }
}
