/** Histories of publishing, removing and sweeping: the translation chains hold exactly the rules of
    other programs and of the publications then in force, whichever way the table lists comments. */
module Publishing {
  import opened Text
  import opened Rules
  import opened Tables
  import opened Nat
  import opened Tags
  import opened Published
  import opened Quoting

  datatype NatEvent =
    | Publish(id: string, ip: nat, forward: Forward)
    | Unpublish(id: string, ip: nat, forwards: seq<Forward>)
    | SweepOrphans(keep: set<string>)

  /** The clean-up of a sandbox's published ports: by specification, then by tag. */
  function CleanedTable(t: Table, listing: Listing, id: string, ip: nat, fs: seq<Forward>): Table {
    SweptTable(UnpublishTable(t, id, ip, fs), listing, Tagged(id))
  }

  method CleanupHostPortPublish(nat_: RuleTable, id: string, ip: Option<nat>, forwards: seq<Forward>)
    modifies nat_
    ensures nat_.chains == CleanedTable(old(nat_.chains), nat_.listing, id,
                                        if ip.Some? then ip.value else 0, if ip.Some? then forwards else [])
  {
    if ip.Some? {
      DeleteHostPortDNAT(nat_, id, ip.value, forwards);
    }
    DeleteHostPortDNATBySandbox(nat_, id);
  }

  function NatAfter(listing: Listing, t: Table, e: NatEvent): Table {
    match e
    case Publish(id, ip, f) => PublishOne(t, id, ip, f).table
    case Unpublish(id, ip, fs) => CleanedTable(t, listing, id, ip, fs)
    case SweepOrphans(keep) => SweptTable(t, listing, Orphans(keep))
  }

  /** Two forwards whose rules are the same. */
  predicate SameForward(f: Forward, g: Forward) {
    f.hostPort == g.hostPort && f.containerPort == g.containerPort
      && NormalizeProto(f.protocol) == NormalizeProto(g.protocol)
  }

  predicate NamedIn(fs: seq<Forward>, f: Forward) {
    exists i :: 0 <= i < |fs| && SameForward(fs[i], f)
  }

  /** The forwards that none of `fs` names. */
  function Unnamed(forwards: seq<Forward>, fs: seq<Forward>): seq<Forward> {
    if forwards == [] then []
    else
      var init, last := Unnamed(forwards[..|forwards| - 1], fs), forwards[|forwards| - 1];
      if NamedIn(fs, last) then init else init + [last]
  }

  /** What removal by specification alone leaves published. */
  function Trimmed(pubs: map<string, Pub>, id: string, ip: nat, fs: seq<Forward>): map<string, Pub> {
    if id !in pubs || pubs[id].ip != ip then pubs
    else
      var left := Unnamed(pubs[id].forwards, fs);
      if left == [] then Kept(pubs, pubs.Keys - {id}) else pubs[id := Pub(ip, left)]
  }

  /** Quoted listings make both sweeps do nothing, so that only removal by specification counts. */
  function PubsAfter(listing: Listing, pubs: map<string, Pub>, e: NatEvent): map<string, Pub> {
    match e
    case Publish(id, ip, f) => Gained(pubs, id, ip, f)
    case Unpublish(id, ip, fs) => if listing.Bare? then Kept(pubs, pubs.Keys - {id}) else Trimmed(pubs, id, ip, fs)
    case SweepOrphans(keep) => if listing.Bare? then Kept(pubs, keep) else pubs
  }

  ghost predicate NatLegal(listing: Listing, pubs: map<string, Pub>, e: NatEvent) {
    match e
    case Publish(id, ip, f) =>
      WellId(id) && ValidProto(f) && (id in pubs ==> pubs[id].ip == ip)
    case Unpublish(id, _, fs) =>
      WellId(id) && (listing.Bare? ==> NoneExtends(pubs.Keys, id)) && forall i :: 0 <= i < |fs| ==> ValidProto(fs[i])
    case SweepOrphans(_) => true
  }

  // What is left by specification alone.

  lemma {:induction false} UnnamedMembers(forwards: seq<Forward>, fs: seq<Forward>, f: Forward)
    ensures f in Unnamed(forwards, fs) <==> f in forwards && !NamedIn(fs, f)
  {
    if forwards != [] {
      UnnamedMembers(forwards[..|forwards| - 1], fs, f);
      assert forwards == forwards[..|forwards| - 1] + [forwards[|forwards| - 1]];
    }
  }

  lemma SameRule(c: string, id: string, ip: nat, f: Forward, ip': nat, g: Forward)
    ensures RuleFor(c, id, ip, f) == RuleFor(c, id, ip', g) <==> ip == ip' && SameForward(f, g)
  {
    hide NormalizeProto;
    var a, b := RuleFor(c, id, ip, f), RuleFor(c, id, ip', g);
    var k := if c == OUTPUT then 1 else 0;
    assert a.matches[k] == Protocol(NormalizeProto(f.protocol)) && a.matches[k + 1] == DestPort(f.hostPort);
    assert b.matches[k] == Protocol(NormalizeProto(g.protocol)) && b.matches[k + 1] == DestPort(g.hostPort);
  }

  lemma OwnsByMember(c: string, r: Rule, id: string, pub: Pub)
    ensures Owns(c, r, id, pub) <==> exists f :: f in pub.forwards && r == RuleFor(c, id, pub.ip, f)
  {
    hide RuleFor;
    if Owns(c, r, id, pub) {
      var i :| 0 <= i < |pub.forwards| && r == RuleFor(c, id, pub.ip, pub.forwards[i]);
      assert pub.forwards[i] in pub.forwards;
    }
  }

  lemma WrittenByMember(c: string, r: Rule, id: string, ip: nat, fs: seq<Forward>)
    ensures r in RulesFor(c, id, ip, fs) <==> exists f :: f in fs && r == RuleFor(c, id, ip, f)
  {
    hide RuleFor;
    if r in RulesFor(c, id, ip, fs) {
      var i :| 0 <= i < |fs| && RulesFor(c, id, ip, fs)[i] == r;
      assert fs[i] in fs;
    }
    if f :| f in fs && r == RuleFor(c, id, ip, f) {
      var i :| 0 <= i < |fs| && fs[i] == f;
      assert RulesFor(c, id, ip, fs)[i] == r;
    }
  }

  /** Of a sandbox's rules, those left are those no specification names. */
  lemma TrimmedOwner(c: string, r: Rule, id: string, pub: Pub, fs: seq<Forward>)
    ensures Owns(c, r, id, Pub(pub.ip, Unnamed(pub.forwards, fs)))
       <==> Owns(c, r, id, pub) && r !in RulesFor(c, id, pub.ip, fs)
  {
    hide RuleFor, RulesFor, Owns;
    var left := Unnamed(pub.forwards, fs);
    OwnsByMember(c, r, id, pub);
    OwnsByMember(c, r, id, Pub(pub.ip, left));
    WrittenByMember(c, r, id, pub.ip, fs);
    forall f ensures f in left <==> f in pub.forwards && !NamedIn(fs, f) {
      UnnamedMembers(pub.forwards, fs, f);
    }
    forall f, g ensures RuleFor(c, id, pub.ip, f) == RuleFor(c, id, pub.ip, g) <==> SameForward(f, g) {
      SameRule(c, id, pub.ip, f, pub.ip, g);
    }
  }

  /** A rule written for another address is none of the sandbox's. */
  lemma OtherAddress(c: string, r: Rule, id: string, pub: Pub, ip: nat, fs: seq<Forward>)
    requires Owns(c, r, id, pub) && pub.ip != ip
    ensures r !in RulesFor(c, id, ip, fs)
  {
    hide RuleFor, RulesFor, Owns;
    OwnsByMember(c, r, id, pub);
    WrittenByMember(c, r, id, ip, fs);
    forall f, g ensures RuleFor(c, id, pub.ip, f) != RuleFor(c, id, ip, g) {
      SameRule(c, id, pub.ip, f, ip, g);
    }
  }

  lemma TrimmedOwners(c: string, r: Rule, pubs: map<string, Pub>, id: string, ip: nat, fs: seq<Forward>, x: string)
    ensures var pubs' := Trimmed(pubs, id, ip, fs);
      (x in pubs' && Owns(c, r, x, pubs'[x]))
      <==> (x in pubs && Owns(c, r, x, pubs[x]) && !(x == id && r in RulesFor(c, id, ip, fs)))
  {
    hide RuleFor, RulesFor, Unnamed;
    if id in pubs {
      TrimmedOwner(c, r, id, pubs[id], fs);
      if Owns(c, r, id, pubs[id]) && pubs[id].ip != ip {
        OtherAddress(c, r, id, pubs[id], ip, fs);
      }
    }
  }

  function CleanedChain(c: string, s: seq<Rule>, listing: Listing, id: string, ip: nat, fs: seq<Forward>): seq<Rule> {
    var left := RemoveAll(s, RulesFor(c, id, ip, fs));
    Swept(left, Lines(c, left, listing), Tagged(id))
  }

  /** Over a quoting listing a removal takes away exactly the rules its specification names. */
  lemma QuotedCleanup(c: string, s: seq<Rule>, pubs: map<string, Pub>, id: string, ip: nat, fs: seq<Forward>)
    requires c in {PREROUTING, OUTPUT} && ValidPubs(pubs) && ChainHolds(c, s, pubs)
    requires WellId(id) && forall i :: 0 <= i < |fs| ==> ValidProto(fs[i])
    ensures CleanedChain(c, s, Quoted, id, ip, fs) == Strip(s, RuleSet(RulesFor(c, id, ip, fs)))
    ensures ChainHolds(c, CleanedChain(c, s, Quoted, id, ip, fs), Trimmed(pubs, id, ip, fs))
  {
    hide Swept, Owns, Foreign, RulesFor, Strip, RemoveAll, ValidProto, Trimmed;
    var rs := RulesFor(c, id, ip, fs);
    forall r | r in rs ensures multiset(s)[r] <= 1 && (Foreign(c, r) ==> r !in s) {
      OwnArguments(c, s, pubs, id, ip, fs, r);
      OwnArgumentsTagged(c, id, ip, fs, r);
    }
    RemoveAllIsStrip(s, rs);
    var left := Strip(s, RuleSet(rs));
    forall r ensures multiset(left)[r] == if r in rs then 0 else multiset(s)[r] {
      StripCount(s, RuleSet(rs), r);
    }
    forall r | r in left ensures r in s && r !in rs {
      assert r in multiset(left) && r in multiset(s);
    }
    QuotedSweepKeepsAll(c, left, pubs, Tagged(id));
    TrimmedChain(c, s, left, pubs, id, ip, fs);
  }

  lemma OwnArgumentsTagged(c: string, id: string, ip: nat, fs: seq<Forward>, r: Rule)
    requires c in {PREROUTING, OUTPUT} && WellId(id) && r in RulesFor(c, id, ip, fs)
    requires forall i :: 0 <= i < |fs| ==> ValidProto(fs[i])
    ensures TagOf(c, r) == id && !Foreign(c, r)
  {
    hide ValidProto, TagOf;
    var i :| 0 <= i < |fs| && r == RuleFor(c, id, ip, fs[i]);
    assert Pub(ip, fs).forwards[i] == fs[i];
    OwnedTag(c, r, id, Pub(ip, fs));
  }

  lemma TrimmedChain(c: string, s: seq<Rule>, left: seq<Rule>, pubs: map<string, Pub>, id: string, ip: nat,
                     fs: seq<Forward>)
    requires c in {PREROUTING, OUTPUT} && ValidPubs(pubs) && ChainHolds(c, s, pubs) && WellId(id)
    requires forall i :: 0 <= i < |fs| ==> ValidProto(fs[i])
    requires forall r :: multiset(left)[r] == if r in RulesFor(c, id, ip, fs) then 0 else multiset(s)[r]
    ensures ChainHolds(c, left, Trimmed(pubs, id, ip, fs))
  {
    hide Owns, Foreign, RulesFor, Trimmed, ValidProto, TagOf;
    var pubs', rs := Trimmed(pubs, id, ip, fs), RulesFor(c, id, ip, fs);
    forall r | r in left ensures Foreign(c, r) || exists x :: x in pubs' && Owns(c, r, x, pubs'[x]) {
      assert r in multiset(left) && r in multiset(s);
      if !Foreign(c, r) {
        var x :| x in pubs && Owns(c, r, x, pubs[x]);
        TrimmedOwners(c, r, pubs, id, ip, fs, x);
      }
    }
    forall x, r | x in pubs' && Owns(c, r, x, pubs'[x]) ensures multiset(left)[r] == 1 {
      TrimmedOwners(c, r, pubs, id, ip, fs, x);
      if r in rs {
        OwnArgumentsTagged(c, id, ip, fs, r);
        OwnedTag(c, r, x, pubs[x]);
      }
    }
  }

  lemma TrimmedValid(pubs: map<string, Pub>, id: string, ip: nat, fs: seq<Forward>)
    requires ValidPubs(pubs)
    ensures ValidPubs(Trimmed(pubs, id, ip, fs))
  {
    hide ValidProto;
    if id in pubs {
      var left := Unnamed(pubs[id].forwards, fs);
      forall i | 0 <= i < |left| ensures ValidProto(left[i]) {
        UnnamedMembers(pubs[id].forwards, fs, left[i]);
      }
    }
  }

  /** Arguments that name all of a sandbox's forwards at its address leave nothing of it. */
  lemma TrimmedAll(pubs: map<string, Pub>, id: string, ip: nat, fs: seq<Forward>)
    requires id in pubs ==> pubs[id].ip == ip && forall f :: f in pubs[id].forwards ==> f in fs
    ensures Trimmed(pubs, id, ip, fs) == Kept(pubs, pubs.Keys - {id})
  {
    if id in pubs {
      AllNamed(pubs[id].forwards, fs);
    }
  }

  lemma {:induction false} AllNamed(forwards: seq<Forward>, fs: seq<Forward>)
    requires forall f :: f in forwards ==> f in fs
    ensures Unnamed(forwards, fs) == []
  {
    if forwards != [] {
      var last := forwards[|forwards| - 1];
      AllNamed(forwards[..|forwards| - 1], fs);
      assert last in forwards;
      var i :| 0 <= i < |fs| && fs[i] == last;
      assert SameForward(fs[i], last);
    }
  }

  // Histories.

  lemma SweptTableChains(t: Table, listing: Listing, sweep: Sweep)
    requires PREROUTING in t && OUTPUT in t
    ensures SweptTable(t, listing, sweep)
         == t[PREROUTING := Swept(t[PREROUTING], Lines(PREROUTING, t[PREROUTING], listing), sweep)]
             [OUTPUT := Swept(t[OUTPUT], Lines(OUTPUT, t[OUTPUT], listing), sweep)]
  {
  }

  lemma CleanedTableChains(t: Table, listing: Listing, id: string, ip: nat, fs: seq<Forward>)
    requires PREROUTING in t && OUTPUT in t
    ensures CleanedTable(t, listing, id, ip, fs)
         == t[PREROUTING := CleanedChain(PREROUTING, t[PREROUTING], listing, id, ip, fs)]
             [OUTPUT := CleanedChain(OUTPUT, t[OUTPUT], listing, id, ip, fs)]
  {
    hide Swept, Lines, RulesFor, RemoveAll, UnpublishTable, SweptTable;
    ChainsDiffer();
    UnpublishChains(t, id, ip, fs);
    SweptTableChains(UnpublishTable(t, id, ip, fs), listing, Tagged(id));
  }

  lemma KeptValid(pubs: map<string, Pub>, left: set<string>)
    requires ValidPubs(pubs)
    ensures ValidPubs(Kept(pubs, left))
  {
  }

  lemma PublishKeeps(t: Table, pubs: map<string, Pub>, id: string, ip: nat, f: Forward)
    requires NatHolds(t, pubs) && WellId(id) && ValidProto(f) && (id in pubs ==> pubs[id].ip == ip)
    ensures PublishOne(t, id, ip, f).ok && NatHolds(PublishOne(t, id, ip, f).table, Gained(pubs, id, ip, f))
  {
    hide ChainHolds, PreRule, OutRule, AppendOnce;
    ChainsDiffer();
    ChainGains(PREROUTING, t[PREROUTING], pubs, id, ip, f);
    ChainGains(OUTPUT, t[OUTPUT], pubs, id, ip, f);
    assert Gained(pubs, id, ip, f).Keys == pubs.Keys + {id};
  }

  lemma UnpublishKeeps(listing: Listing, t: Table, pubs: map<string, Pub>, id: string, ip: nat, fs: seq<Forward>)
    requires NatHolds(t, pubs) && NatLegal(listing, pubs, Unpublish(id, ip, fs))
    ensures NatHolds(CleanedTable(t, listing, id, ip, fs), PubsAfter(listing, pubs, Unpublish(id, ip, fs)))
  {
    hide ChainHolds, CleanedChain, CleanedTable, Trimmed, ValidProto;
    ChainsDiffer();
    CleanedTableChains(t, listing, id, ip, fs);
    if listing.Bare? {
      BareCleanup(PREROUTING, t[PREROUTING], pubs, id, ip, fs);
      BareCleanup(OUTPUT, t[OUTPUT], pubs, id, ip, fs);
      KeptValid(pubs, pubs.Keys - {id});
    } else {
      QuotedCleanup(PREROUTING, t[PREROUTING], pubs, id, ip, fs);
      QuotedCleanup(OUTPUT, t[OUTPUT], pubs, id, ip, fs);
      TrimmedValid(pubs, id, ip, fs);
    }
  }

  /** Over a bare listing a removal takes away exactly the sandbox's own rules, whatever address and ports
      it was given, as long as no other id extends the sandbox's. */
  lemma BareCleanup(c: string, s: seq<Rule>, pubs: map<string, Pub>, id: string, ip: nat, fs: seq<Forward>)
    requires c in {PREROUTING, OUTPUT} && ValidPubs(pubs) && ChainHolds(c, s, pubs)
    requires WellId(id) && NoneExtends(pubs.Keys, id) && forall i :: 0 <= i < |fs| ==> ValidProto(fs[i])
    ensures CleanedChain(c, s, Bare, id, ip, fs) == Strip(s, OwnedIn(c, s, pubs, id))
    ensures ChainHolds(c, CleanedChain(c, s, Bare, id, ip, fs), Kept(pubs, pubs.Keys - {id}))
  {
    hide Swept, Owns, Foreign, RulesFor, Picks, Line, Strip, RemoveAll;
    var rs, drop := RulesFor(c, id, ip, fs), OwnedIn(c, s, pubs, id);
    var left := RemoveAll(s, rs);
    forall r ensures r in left ==> r in s { RemoveAllMembers(s, rs, r); }
    TagSwept(c, left, pubs, id);
    var picked := Picked(c, left, Tagged(id));
    forall r | r in left ensures r in picked <==> r in drop {
      if r in picked {
        var x :| x in pubs && Owns(c, r, x, pubs[x]) && id <= x;
        assert x in pubs.Keys;
      }
    }
    StripAgree(left, picked, drop);
    forall r | r in rs ensures r in drop || r !in s { OwnArguments(c, s, pubs, id, ip, fs, r); }
    StripAfterRemoveAll(s, rs, drop);
    CleanedHolds(c, s, pubs, id);
  }

  lemma SweepKeeps(listing: Listing, t: Table, pubs: map<string, Pub>, keep: set<string>)
    requires NatHolds(t, pubs)
    ensures NatHolds(SweptTable(t, listing, Orphans(keep)), PubsAfter(listing, pubs, SweepOrphans(keep)))
  {
    hide ChainHolds, Swept, SweptTable, Foreign, Owns;
    ChainsDiffer();
    SweptTableChains(t, listing, Orphans(keep));
    if listing.Bare? {
      OrphansSwept(PREROUTING, t[PREROUTING], pubs, keep);
      OrphansSwept(OUTPUT, t[OUTPUT], pubs, keep);
      KeptValid(pubs, keep);
    } else {
      QuotedChainKept(PREROUTING, t[PREROUTING], pubs, Orphans(keep));
      QuotedChainKept(OUTPUT, t[OUTPUT], pubs, Orphans(keep));
    }
  }

  lemma QuotedChainKept(c: string, s: seq<Rule>, pubs: map<string, Pub>, sweep: Sweep)
    requires c in {PREROUTING, OUTPUT} && ValidPubs(pubs) && ChainHolds(c, s, pubs)
    ensures Swept(s, Lines(c, s, Quoted), sweep) == s
  {
    hide Swept, Foreign, Owns;
    QuotedSweepKeepsAll(c, s, pubs, sweep);
  }

  /** Every event keeps the chains holding exactly foreign rules and the publications' rules. */
  lemma NatEventKeeps(listing: Listing, t: Table, pubs: map<string, Pub>, e: NatEvent)
    requires NatHolds(t, pubs) && NatLegal(listing, pubs, e)
    ensures NatHolds(NatAfter(listing, t, e), PubsAfter(listing, pubs, e))
  {
    hide NatHolds, PublishOne, SweptTable, CleanedTable, Trimmed;
    match e
    case Publish(id, ip, f) => PublishKeeps(t, pubs, id, ip, f);
    case Unpublish(id, ip, fs) => UnpublishKeeps(listing, t, pubs, id, ip, fs);
    case SweepOrphans(keep) => SweepKeeps(listing, t, pubs, keep);
  }
}
