/** Port forwards: the check that no two compete, the rules they are rendered as, and that at
    most one of them translates any packet. */
module PortForwards {
  import opened Orders
  import opened Host
  import opened Families
  import opened Packets
  import opened PolicyChains

  datatype Target = Target(family: Family, address: nat, ports: Option<PortSpec>)

  /** `listen` is the port or the range, when exactly one of the two is written. */
  datatype PortForward = PortForward(
    name: string, egress: string, protocol: Protocol, listen: Option<PortSpec>,
    target: Option<Target>, hairpin: bool, opens: bool)

  function Ports(f: PortForward): PortSpec { if f.listen.Some? then f.listen.value else PortSpec(0, 0) }

  function TargetPorts(f: PortForward): PortSpec {
    if f.target.Some? && f.target.value.ports.Some? then f.target.value.ports.value else Ports(f)
  }

  // ----- names of links --------------------------------------------------------------

  /** An interface says what its link is called; an uplink's link has the uplink's name. */
  datatype Links = Links(interfaces: map<string, string>, uplinks: set<string>)

  function LinkName(links: Links, ref: string): Option<string> {
    if ref in links.interfaces then Some(links.interfaces[ref])
    else if ref in links.uplinks then Some(ref)
    else None
  }

  /** No interface takes an uplink's name. */
  ghost predicate Unshadowed(links: Links) { forall u :: u in links.uplinks ==> u !in links.interfaces }

  // ----- the overlap check -----------------------------------------------------------

  /** Whether a forward is complete enough to be compared. */
  predicate Comparable(f: PortForward) {
    f.egress != "" && !IsZero(f.protocol) && f.listen.Some? && f.target.Some?
  }

  function Shared(a: PortSpec, b: PortSpec): PortSpec {
    PortSpec(if a.first < b.first then b.first else a.first, if a.last < b.last then a.last else b.last)
  }

  predicate Within(s: PortSpec, port: nat) { s.first <= port <= s.last }

  /** Two forwards compete when some port of one uplink, protocol and family is both's. */
  ghost predicate Compete(a: PortForward, b: PortForward) {
    && Comparable(a) && Comparable(b)
    && a.egress == b.egress && a.protocol.name == b.protocol.name && a.target.value.family == b.target.value.family
    && exists port :: Within(a.listen.value, port) && Within(b.listen.value, port)
  }

  datatype Overlap = Overlap(later: PortForward, earlier: PortForward, shared: PortSpec)

  lemma {:induction false} SharedIs(a: PortSpec, b: PortSpec)
    ensures forall port :: Within(Shared(a, b), port) <==> Within(a, port) && Within(b, port)
    ensures Shared(a, b).first <= Shared(a, b).last <==> exists port :: Within(a, port) && Within(b, port)
  {
    if Shared(a, b).first <= Shared(a, b).last {
      assert Within(a, Shared(a, b).first) && Within(b, Shared(a, b).first);
    }
  }

  ghost predicate Real(o: Overlap) {
    && Compete(o.later, o.earlier)
    && forall port :: Within(o.shared, port) <==>
                        Within(o.later.listen.value, port) && Within(o.earlier.listen.value, port)
  }

  ghost predicate CompeteBefore(forwards: seq<PortForward>, i: nat)
    requires i <= |forwards|
  {
    exists j, k :: 0 <= j < k < i && Compete(forwards[k], forwards[j])
  }

  method CompareOne(f: PortForward, seen: seq<PortForward>) returns (found: seq<Overlap>)
    requires Comparable(f) && forall s :: s in seen ==> Comparable(s)
    ensures forall o :: o in found ==> Real(o)
    ensures found != [] <==> exists s :: s in seen && Compete(f, s)
  {
    found := [];
    for i := 0 to |seen|
      invariant forall o :: o in found ==> Real(o)
      invariant found != [] <==> exists j :: 0 <= j < i && Compete(f, seen[j])
    {
      var other := seen[i];
      assert Comparable(f) && Comparable(other);
      if other.egress == f.egress && other.protocol.name == f.protocol.name
          && other.target.value.family == f.target.value.family {
        var shared := Shared(f.listen.value, other.listen.value);
        SharedIs(f.listen.value, other.listen.value);
        if shared.first <= shared.last { found := found + [Overlap(f, other, shared)]; }
      }
    }
    assert forall j :: 0 <= j < |seen| ==> seen[j] in seen;
  }

  /** Reports overlaps exactly when two forwards compete, and with each the ports they share. */
  method CheckOverlaps(forwards: seq<PortForward>) returns (problems: seq<Overlap>)
    ensures problems == [] <==> !CompeteBefore(forwards, |forwards|)
    ensures forall o :: o in problems ==> Real(o)
  {
    problems := [];
    var seen: seq<PortForward> := [];
    for i := 0 to |forwards|
      invariant forall s :: s in seen ==> Comparable(s)
      invariant forall s :: s in seen <==> exists k :: 0 <= k < i && forwards[k] == s && Comparable(s)
      invariant forall o :: o in problems ==> Real(o)
      invariant problems == [] <==> !CompeteBefore(forwards, i)
    {
      var f := forwards[i];
      if Comparable(f) {
        var found := CompareOne(f, seen);
        problems := problems + found;
        seen := seen + [f];
      }
    }
  }

  // ----- destination translation -----------------------------------------------------

  datatype NatRule = NatRule(matches: seq<Match>, forward: string, address: nat, ports: PortSpec)

  function HeadRule(f: PortForward, link: string): NatRule
    requires f.target.Some?
  {
    NatRule([FromLink(link), OfFamily(f.target.value.family)] + PortMatch(Some(f.protocol), Destination, [Ports(f)]),
      f.name, f.target.value.address, TargetPorts(f))
  }

  function HairpinRule(f: PortForward, link: string): NatRule
    requires f.target.Some?
  {
    NatRule([NotFromLink(link), OfFamily(f.target.value.family), AddressInUplink(f.target.value.family, link)]
              + PortMatch(Some(f.protocol), Destination, [Ports(f)]),
      f.name, f.target.value.address, TargetPorts(f))
  }

  function RulesOf(f: PortForward, links: Links): seq<NatRule> {
    var link := LinkName(links, f.egress);
    if link.None? || f.target.None? then []
    else [HeadRule(f, link.value)] + if f.hairpin then [HairpinRule(f, link.value)] else []
  }

  function ProblemsOf(f: PortForward, links: Links): seq<Problem> {
    if LinkName(links, f.egress).None? then [NoLink(f.name, f.egress)]
    else if f.target.None? then [NoTarget(f.name)] else []
  }

  function DnatRules(forwards: seq<PortForward>, links: Links): seq<NatRule> {
    if forwards == [] then [] else RulesOf(forwards[0], links) + DnatRules(forwards[1..], links)
  }

  function DnatProblems(forwards: seq<PortForward>, links: Links): seq<Problem> {
    if forwards == [] then [] else ProblemsOf(forwards[0], links) + DnatProblems(forwards[1..], links)
  }

  lemma {:induction false} NoDnatProblems(forwards: seq<PortForward>, links: Links)
    ensures DnatProblems(forwards, links) == [] <==>
        forall f :: f in forwards ==> LinkName(links, f.egress).Some? && f.target.Some?
  {
    if forwards != [] {
      assert forwards == [forwards[0]] + forwards[1..];
      NoDnatProblems(forwards[1..], links);
    }
  }

  lemma {:induction false} NoneReported(before: seq<Problem>, forwards: seq<PortForward>, links: Links)
    ensures before + DnatProblems(Sort(forwards, ByName), links) == before <==>
        forall f :: f in forwards ==> LinkName(links, f.egress).Some? && f.target.Some?
  {
    NoDnatProblems(Sort(forwards, ByName), links);
    SortKeeps(forwards, ByName);
  }

  predicate ByName(a: PortForward, b: PortForward) { TextLe(a.name, b.name) }

  class NatRenderer {
    const links: Links
    var problems: seq<Problem>

    constructor (links: Links)
      ensures this.links == links && problems == []
    {
      this.links, problems := links, [];
    }

    method ForwardDnat(f: PortForward) returns (rules: seq<NatRule>)
      modifies this
      ensures rules == RulesOf(f, links) && problems == old(problems) + ProblemsOf(f, links)
    {
      var link := LinkName(links, f.egress);
      if link.None? {
        problems := problems + [NoLink(f.name, f.egress)];
        return [];
      }
      if f.target.None? {
        problems := problems + [NoTarget(f.name)];
        return [];
      }
      rules := [HeadRule(f, link.value)];
      if f.hairpin { rules := rules + [HairpinRule(f, link.value)]; }
    }

    /** The chain of port forwards, in the order of their names. */
    method DnatChain(forwards: seq<PortForward>) returns (rules: seq<NatRule>)
      modifies this
      ensures rules == DnatRules(Sort(forwards, ByName), links)
          && problems == old(problems) + DnatProblems(Sort(forwards, ByName), links)
      ensures problems == old(problems) <==>
          forall f :: f in forwards ==> LinkName(links, f.egress).Some? && f.target.Some?
    {
      var sorted := Sort(forwards, ByName);
      rules := [];
      for i := 0 to |sorted|
        invariant rules + DnatRules(sorted[i..], links) == DnatRules(sorted, links)
        invariant problems + DnatProblems(sorted[i..], links) == old(problems) + DnatProblems(sorted, links)
      {
        ghost var before, found := rules, problems;
        assert sorted[i..][0] == sorted[i] && sorted[i..][1..] == sorted[i + 1..];
        var more := ForwardDnat(sorted[i]);
        rules := rules + more;
        Regrouped(before, more, DnatRules(sorted[i + 1..], links));
        Regrouped(found, ProblemsOf(sorted[i], links), DnatProblems(sorted[i + 1..], links));
      }
      NoneReported(old(problems), forwards, links);
    }
  }

  /** The rule that translates a packet: the first that holds. */
  function Translation(rules: seq<NatRule>, p: Packet, sets: Sets): Option<NatRule> {
    if rules == [] then None
    else if AllHold(rules[0].matches, p, sets) then Some(rules[0])
    else Translation(rules[1..], p, sets)
  }

  // ----- at most one -----------------------------------------------------------------

  /** What validation asks of the forwards of an accepted configuration, beside the overlaps. */
  ghost predicate Accepted(forwards: seq<PortForward>, links: Links) {
    && (forall i, j :: 0 <= i < j < |forwards| ==> forwards[i].name != forwards[j].name)
    && (forall f :: f in forwards ==>
          f.egress in links.uplinks && f.egress != ""
          && f.listen.Some? && f.target.Some? && (f.protocol.name == "tcp" || f.protocol.name == "udp"))
    && !CompeteBefore(forwards, |forwards|)
    && Unshadowed(links)
  }

  /** Whether one forward's rules translate a packet: arriving on its uplink, or, from any
      other link, addressed to what its uplink holds. */
  predicate Catches(f: PortForward, p: Packet, sets: Sets)
    requires f.target.Some? && f.listen.Some?
  {
    && p.family == f.target.value.family && Speaks(p, f.protocol) && Within(f.listen.value, p.dport)
    && (p.iif == f.egress || (f.hairpin && Holds(AddressInUplink(p.family, f.egress), p, sets)))
  }

  /** A rule sends a packet to the forward's host: to the ports its target names, and to the ones
      it listens on when it names none. */
  predicate Translates(r: Option<NatRule>, f: PortForward)
    requires f.target.Some? && f.listen.Some?
  {
    && r.Some? && r.value.forward == f.name && r.value.address == f.target.value.address
    && r.value.ports == if f.target.value.ports.Some? then f.target.value.ports.value else f.listen.value
  }

  lemma {:induction false} PortMatchMeans(f: PortForward, p: Packet, sets: Sets)
    requires f.listen.Some? && (f.protocol.name == "tcp" || f.protocol.name == "udp")
    ensures AllHold(PortMatch(Some(f.protocol), Destination, [Ports(f)]), p, sets) <==>
        p.protocol == NumberOf(f.protocol) && Within(f.listen.value, p.dport)
  {
    var ms := PortMatch(Some(f.protocol), Destination, [Ports(f)]);
    OptionalTests(ms, p, sets);
    assert InPorts([Ports(f)], p.dport) <==> Within(f.listen.value, p.dport) by { assert Ports(f) in [Ports(f)]; }
  }

  lemma {:induction false} RulesTranslate(f: PortForward, links: Links)
    requires f.listen.Some? && f.target.Some?
    ensures forall r :: r in RulesOf(f, links) ==> Translates(Some(r), f)
  {}

  lemma {:induction false} RulesCatch(f: PortForward, links: Links, p: Packet, sets: Sets)
    requires f.egress in links.uplinks && Unshadowed(links) && f.listen.Some? && f.target.Some?
        && (f.protocol.name == "tcp" || f.protocol.name == "udp")
    ensures (exists r :: r in RulesOf(f, links) && AllHold(r.matches, p, sets)) <==> Catches(f, p, sets)
    ensures forall r :: r in RulesOf(f, links) ==> Translates(Some(r), f)
  {
    RulesTranslate(f, links);
    var ports := PortMatch(Some(f.protocol), Destination, [Ports(f)]);
    var head, pin := HeadRule(f, f.egress), HairpinRule(f, f.egress);
    var a, b := FromLink(f.egress), OfFamily(f.target.value.family);
    var c, d := NotFromLink(f.egress), AddressInUplink(f.target.value.family, f.egress);
    PortMatchMeans(f, p, sets);
    AllHoldJoin([a, b], ports, p, sets);
    AllHoldJoin([c, b, d], ports, p, sets);
    assert AllHold([a, b], p, sets) <==> Holds(a, p, sets) && Holds(b, p, sets) by {
      assert a in [a, b] && b in [a, b];
    }
    assert AllHold([c, b, d], p, sets) <==> Holds(c, p, sets) && Holds(b, p, sets) && Holds(d, p, sets) by {
      assert c in [c, b, d] && b in [c, b, d] && d in [c, b, d];
    }
    assert RulesOf(f, links) == [head] + if f.hairpin then [pin] else [];
    assert head in RulesOf(f, links) && (f.hairpin ==> pin in RulesOf(f, links));
  }

  /** A packet that reaches no forward by two ways: not addressed, from one uplink, to what
      another holds, nor addressed to what two uplinks both hold. */
  ghost predicate OneWay(p: Packet, links: Links, sets: Sets) {
    forall u, v :: u in links.uplinks && v in links.uplinks && u != v ==>
      && !(p.iif == u && Holds(AddressInUplink(p.family, v), p, sets))
      && !(Holds(AddressInUplink(p.family, u), p, sets) && Holds(AddressInUplink(p.family, v), p, sets))
  }

  lemma {:induction false} CaughtOnce(forwards: seq<PortForward>, links: Links, p: Packet, sets: Sets, f: PortForward,
      g: PortForward)
    requires Accepted(forwards, links) && OneWay(p, links, sets) && f in forwards && g in forwards
    requires Catches(f, p, sets) && Catches(g, p, sets)
    ensures f == g
  {
    if f != g {
      var i :| 0 <= i < |forwards| && forwards[i] == f;
      var j :| 0 <= j < |forwards| && forwards[j] == g;
      assert f.egress == g.egress;
      assert f.protocol.name == g.protocol.name;
      assert Within(f.listen.value, p.dport) && Within(g.listen.value, p.dport);
      if i < j { assert Compete(forwards[j], forwards[i]); } else { assert Compete(forwards[i], forwards[j]); }
      assert false;
    }
  }

  /** Inside hosts reach at most one uplink's address when no address is two uplinks'; a
      packet from an uplink goes one way when it is not addressed to another's. */
  lemma {:induction false} WhenOneWay(p: Packet, links: Links, sets: Sets)
    requires p.iif in links.uplinks ==> forall v :: v in links.uplinks && v != p.iif ==>
        !Holds(AddressInUplink(p.family, v), p, sets)
    requires p.iif !in links.uplinks ==> forall u, v :: u in links.uplinks && v in links.uplinks && u != v ==>
               !(Holds(AddressInUplink(p.family, u), p, sets) && Holds(AddressInUplink(p.family, v), p, sets))
    ensures OneWay(p, links, sets)
  {}

  lemma {:induction false} DnatMembers(forwards: seq<PortForward>, links: Links)
    ensures forall r :: r in DnatRules(forwards, links) <==> exists f :: f in forwards && r in RulesOf(f, links)
  {
    if forwards != [] {
      DnatMembers(forwards[1..], links);
      assert forwards == [forwards[0]] + forwards[1..];
    }
  }

  lemma {:induction false} TranslationHolds(rules: seq<NatRule>, p: Packet, sets: Sets)
    ensures Translation(rules, p, sets).None? <==> forall r :: r in rules ==> !AllHold(r.matches, p, sets)
    ensures Translation(rules, p, sets).Some? ==>
        Translation(rules, p, sets).value in rules && AllHold(Translation(rules, p, sets).value.matches, p, sets)
  {
    if rules != [] {
      assert rules == [rules[0]] + rules[1..];
      TranslationHolds(rules[1..], p, sets);
    }
  }

  /** At most one forward's rules match, so in any order of the rules the packet is translated
      as that forward says, and not at all when none matches. */
  lemma {:induction false} TranslatedOnce(forwards: seq<PortForward>, links: Links, p: Packet, sets: Sets,
      rules: seq<NatRule>)
    requires Accepted(forwards, links) && OneWay(p, links, sets)
    requires multiset(rules) == multiset(DnatRules(Sort(forwards, ByName), links))
    ensures forall f :: f in forwards && Catches(f, p, sets) ==> Translates(Translation(rules, p, sets), f)
    ensures (forall f :: f in forwards ==> !Catches(f, p, sets)) ==> Translation(rules, p, sets) == None
  {
    var sorted := Sort(forwards, ByName);
    SortKeeps(forwards, ByName);
    DnatMembers(sorted, links);
    TranslationHolds(rules, p, sets);
    forall r ensures r in rules <==> exists f :: f in forwards && r in RulesOf(f, links) {
      assert r in rules <==> r in multiset(rules);
      assert r in DnatRules(sorted, links) <==> r in multiset(DnatRules(sorted, links));
    }
    forall f | f in forwards
      ensures (exists r :: r in RulesOf(f, links) && AllHold(r.matches, p, sets)) <==> Catches(f, p, sets)
    {
      RulesCatch(f, links, p, sets);
    }
    forall f | f in forwards && Catches(f, p, sets) ensures Translates(Translation(rules, p, sets), f) {
      var r :| r in RulesOf(f, links) && AllHold(r.matches, p, sets);
      assert r in rules;
      var first := Translation(rules, p, sets).value;
      var g :| g in forwards && first in RulesOf(g, links);
      CaughtOnce(forwards, links, p, sets, f, g);
      RulesCatch(f, links, p, sets);
    }
  }

  predicate Caught(f: PortForward, p: Packet, sets: Sets) {
    f.target.Some? && f.listen.Some? && Catches(f, p, sets)
  }

  /** Of the forwards that catch a packet, the one whose name comes first. */
  ghost predicate FirstToCatch(f: PortForward, forwards: seq<PortForward>, p: Packet, sets: Sets) {
    f in forwards && Caught(f, p, sets) && forall g :: g in forwards && Caught(g, p, sets) ==> TextLe(f.name, g.name)
  }

  /** Of all the forwards that catch a packet, the rules translate it as the one says whose name
      comes first, whether it goes one way or not; and not at all when none does. */
  lemma {:induction false} NamesDecide(forwards: seq<PortForward>, links: Links, p: Packet, sets: Sets)
    requires Accepted(forwards, links)
    ensures var first := Translation(DnatRules(Sort(forwards, ByName), links), p, sets);
            && ((forall f :: f in forwards ==> !Caught(f, p, sets)) ==> first == None)
            && forall f :: FirstToCatch(f, forwards, p, sets) ==> Translates(first, f)
  {
    var sorted := Sort(forwards, ByName);
    SortKeeps(forwards, ByName);
    TextOrder();
    SortSorted(forwards, ByName);
    OneNameEach(forwards);
    FirstCatching(sorted, links, p, sets);
    forall f | FirstToCatch(f, forwards, p, sets) ensures FirstToCatch(f, sorted, p, sets) {}
  }

  lemma {:induction false} OneNameEach(forwards: seq<PortForward>)
    requires forall i, j :: 0 <= i < j < |forwards| ==> forwards[i].name != forwards[j].name
    ensures forall f, g :: f in forwards && g in forwards && f.name == g.name ==> f == g
  {}

  ghost predicate Complete(f: PortForward, links: Links) {
    && f.egress in links.uplinks && f.listen.Some? && f.target.Some?
    && (f.protocol.name == "tcp" || f.protocol.name == "udp")
  }

  lemma {:induction false} FirstCatching(sorted: seq<PortForward>, links: Links, p: Packet, sets: Sets)
    requires Unshadowed(links) && (forall f :: f in sorted ==> Complete(f, links)) && Sorted(sorted, ByName)
    requires forall f, g :: f in sorted && g in sorted && f.name == g.name ==> f == g
    ensures var first := Translation(DnatRules(sorted, links), p, sets);
            && ((forall f :: f in sorted ==> !Caught(f, p, sets)) ==> first == None)
            && forall f :: FirstToCatch(f, sorted, p, sets) ==> Translates(first, f)
  {
    if sorted != [] {
      var head, rest := sorted[0], sorted[1..];
      assert sorted == [head] + rest && head in sorted;
      FirstCatching(rest, links, p, sets);
      TranslationJoin(RulesOf(head, links), DnatRules(rest, links), p, sets);
      RulesCatch(head, links, p, sets);
      TranslationHolds(RulesOf(head, links), p, sets);
      if Catches(head, p, sets) {
        forall f | FirstToCatch(f, sorted, p, sets) ensures f == head { LeastName(sorted, f); }
      } else {
        forall f | FirstToCatch(f, sorted, p, sets) ensures FirstToCatch(f, rest, p, sets) {}
      }
    }
  }

  lemma {:induction false} LeastName(sorted: seq<PortForward>, f: PortForward)
    requires Sorted(sorted, ByName) && f in sorted && TextLe(f.name, sorted[0].name)
    requires forall f, g :: f in sorted && g in sorted && f.name == g.name ==> f == g
    ensures f == sorted[0]
  {
    var k :| 0 <= k < |sorted| && sorted[k] == f;
    if k > 0 {
      assert ByName(sorted[0], sorted[k]);
      TextAntisymmetric(f.name, sorted[0].name);
    }
  }

  // ----- where the order of the rules decides ----------------------------------------

  /** Two rules, or none, that do the same to a packet. */
  predicate SameTranslation(a: Option<NatRule>, b: Option<NatRule>) {
    (a.None? && b.None?)
    || (a.Some? && b.Some? && a.value.forward == b.value.forward
        && a.value.address == b.value.address && a.value.ports == b.value.ports)
  }

  /** The rules of some forwards, in any order. */
  ghost predicate InSomeOrder(rules: seq<NatRule>, forwards: seq<PortForward>, links: Links) {
    multiset(rules) == multiset(DnatRules(Sort(forwards, ByName), links))
  }

  /** Whatever an accepted configuration forwards, no order of its rules changes what becomes
      of the packet. */
  ghost predicate OrderNeverDecides(p: Packet, links: Links, sets: Sets) {
    forall forwards, a, b :: Accepted(forwards, links) && InSomeOrder(a, forwards, links)
        && InSomeOrder(b, forwards, links)
      ==> SameTranslation(Translation(a, p, sets), Translation(b, p, sets))
  }

  lemma {:induction false} OneWayIsEnough(p: Packet, links: Links, sets: Sets)
    requires OneWay(p, links, sets)
    ensures OrderNeverDecides(p, links, sets)
  {
    forall forwards, a, b | Accepted(forwards, links) && InSomeOrder(a, forwards, links)
        && InSomeOrder(b, forwards, links)
      ensures SameTranslation(Translation(a, p, sets), Translation(b, p, sets))
    {
      TranslatedOnce(forwards, links, p, sets, a);
      TranslatedOnce(forwards, links, p, sets, b);
      if f :| f in forwards && Catches(f, p, sets) {
        assert Translates(Translation(a, p, sets), f) && Translates(Translation(b, p, sets), f);
      }
    }
  }

  function ProtocolOf(p: Packet): Protocol { Protocol(if p.protocol == TCP then "tcp" else "udp", 0) }

  /** A forward on an uplink that listens on the port a packet is addressed to. */
  function On(uplink: string, name: string, p: Packet, host: nat): PortForward {
    PortForward(name, uplink, ProtocolOf(p), Some(PortSpec(p.dport, p.dport)),
        Some(Target(p.family, host, None)), true, true)
  }

  /** A packet a forward on this uplink can catch: it arrives there, or is addressed to it. */
  predicate Reaches(p: Packet, uplink: string, sets: Sets) {
    p.iif == uplink || Holds(AddressInUplink(p.family, uplink), p, sets)
  }

  lemma {:induction false} BothAccepted(p: Packet, links: Links, u: string, v: string)
    requires Unshadowed(links) && "" !in links.uplinks && u in links.uplinks && v in links.uplinks && u != v
    ensures Accepted([On(u, "f", p, 1), On(v, "g", p, 2)], links)
  {
    var f, g := On(u, "f", p, 1), On(v, "g", p, 2);
    assert "f" != "g" by { assert "f"[0] != "g"[0]; }
    assert !CompeteBefore([f, g], 2);
  }

  lemma {:induction false} TranslationJoin(a: seq<NatRule>, b: seq<NatRule>, p: Packet, sets: Sets)
    ensures Translation(a + b, p, sets) ==
        if Translation(a, p, sets).Some? then Translation(a, p, sets) else Translation(b, p, sets)
  {
    if a == [] {
      assert a + b == b;
    } else {
      assert (a + b)[1..] == a[1..] + b;
      TranslationJoin(a[1..], b, p, sets);
    }
  }

  /** Where its rules come first, a forward that catches a packet translates it. */
  lemma {:induction false} FirstTranslates(f: PortForward, rest: seq<NatRule>, links: Links, p: Packet, sets: Sets)
    requires f.egress in links.uplinks && Unshadowed(links) && f.listen.Some? && f.target.Some?
        && (f.protocol.name == "tcp" || f.protocol.name == "udp")
    requires Catches(f, p, sets)
    ensures Translates(Translation(RulesOf(f, links) + rest, p, sets), f)
  {
    RulesCatch(f, links, p, sets);
    TranslationHolds(RulesOf(f, links), p, sets);
    TranslationJoin(RulesOf(f, links), rest, p, sets);
  }

  lemma {:induction false} SortOfTwo(f: PortForward, g: PortForward)
    ensures Sort([f, g], ByName) == [f, g] || Sort([f, g], ByName) == [g, f]
  {
    assert [f, g][1..] == [g] && [g][1..] == [];
    assert Sort([g], ByName) == Insert(g, Sort([], ByName), ByName) == [g];
    assert Sort([f, g], ByName) == Insert(f, [g], ByName);
    assert Insert(f, [g], ByName) == if ByName(f, g) then [f] + [g] else [g] + Insert(f, [], ByName);
  }

  lemma {:induction false} RulesOfTwo(f: PortForward, g: PortForward, links: Links)
    ensures DnatRules([f, g], links) == RulesOf(f, links) + RulesOf(g, links)
    ensures InSomeOrder(RulesOf(f, links) + RulesOf(g, links), [f, g], links)
    ensures InSomeOrder(RulesOf(g, links) + RulesOf(f, links), [f, g], links)
  {
    assert [f, g][1..] == [g] && [g][1..] == [] && [g, f][1..] == [f] && [f][1..] == [];
    assert DnatRules([g], links) == RulesOf(g, links) && DnatRules([f], links) == RulesOf(f, links);
    SortOfTwo(f, g);
  }

  /** A packet that reaches two uplinks can be forwarded by each of them, to a host of its own:
      the rules then translate it to the one or to the other as they are ordered. */
  lemma {:induction false} TwoWaysToTwoHosts(p: Packet, links: Links, sets: Sets, u: string, v: string)
    requires Unshadowed(links) && "" !in links.uplinks && (p.protocol == TCP || p.protocol == UDP)
    requires u in links.uplinks && v in links.uplinks && u != v && Reaches(p, u, sets) && Reaches(p, v, sets)
    ensures var f, g := On(u, "f", p, 1), On(v, "g", p, 2);
            var one, other := RulesOf(f, links) + RulesOf(g, links), RulesOf(g, links) + RulesOf(f, links);
            && Accepted([f, g], links) && Catches(f, p, sets) && Catches(g, p, sets)
            && InSomeOrder(one, [f, g], links) && InSomeOrder(other, [f, g], links)
            && Translates(Translation(one, p, sets), f) && Translates(Translation(other, p, sets), g)
            && !SameTranslation(Translation(one, p, sets), Translation(other, p, sets))
  {
    var f, g := On(u, "f", p, 1), On(v, "g", p, 2);
    BothAccepted(p, links, u, v);
    RulesOfTwo(f, g, links);
    FirstTranslates(f, RulesOf(g, links), links, p, sets);
    FirstTranslates(g, RulesOf(f, links), links, p, sets);
  }

  /** The order of the rules never decides what becomes of a packet exactly when the packet
      goes one way: it reaches no two uplinks. */
  lemma {:induction false} OneWayExactly(p: Packet, links: Links, sets: Sets)
    requires Unshadowed(links) && "" !in links.uplinks && (p.protocol == TCP || p.protocol == UDP)
    ensures OneWay(p, links, sets) <==> OrderNeverDecides(p, links, sets)
  {
    if OneWay(p, links, sets) {
      OneWayIsEnough(p, links, sets);
    } else {
      var u, v := TwoReached(p, links, sets);
      TwoWaysToTwoHosts(p, links, sets, u, v);
      var f, g := On(u, "f", p, 1), On(v, "g", p, 2);
      OrderDecides(p, links, sets, [f, g], RulesOf(f, links) + RulesOf(g, links),
          RulesOf(g, links) + RulesOf(f, links));
    }
  }

  lemma {:induction false} TwoReached(p: Packet, links: Links, sets: Sets) returns (u: string, v: string)
    requires !OneWay(p, links, sets)
    ensures u in links.uplinks && v in links.uplinks && u != v && Reaches(p, u, sets) && Reaches(p, v, sets)
  {
    u, v :| u in links.uplinks && v in links.uplinks && u != v
      && ((p.iif == u && Holds(AddressInUplink(p.family, v), p, sets))
          || (Holds(AddressInUplink(p.family, u), p, sets) && Holds(AddressInUplink(p.family, v), p, sets)));
  }

  lemma {:induction false} OrderDecides(p: Packet, links: Links, sets: Sets, forwards: seq<PortForward>,
      a: seq<NatRule>, b: seq<NatRule>)
    requires Accepted(forwards, links) && InSomeOrder(a, forwards, links) && InSomeOrder(b, forwards, links)
    requires !SameTranslation(Translation(a, p, sets), Translation(b, p, sets))
    ensures !OrderNeverDecides(p, links, sets)
  {}
}
