/** Firewall policies as chains of rules: the cross products a declared rule is spelt out
    into, and that they mean what the declaration says. */
module PolicyChains {
  import opened Orders
  import opened Host
  import opened Families
  import opened Packets

  // ----- declarations ----------------------------------------------------------------

  datatype Protocol = Protocol(name: string, number: nat)

  datatype FirewallRule = FirewallRule(
    action: Verdict, family: Option<Family>, protocol: Option<Protocol>,
    sourceCidrs: seq<Cidr>, sourceSets: seq<string>, sourcePorts: seq<PortSpec>,
    destinationCidrs: seq<Cidr>, destinationSets: seq<string>, destinationPorts: seq<PortSpec>)

  datatype Policy = Policy(name: string, zoneFrom: string, zoneTo: string, stateful: bool, rules: seq<FirewallRule>,
      default: Verdict)

  datatype Problem =
    | NoAddressSet(name: string)
    | NoZone(policy: string, zone: string)
    | NoLink(resource: string, link: string)
    | NoTarget(resource: string)
    | NoMark(policy: string)

  function NumberOf(p: Protocol): nat {
    if p.name == "tcp" then TCP
    else if p.name == "udp" then UDP
    else if p.name == "icmp" then 1
    else if p.name == "icmpv6" then 58
    else if p.name == "ipip" then 4
    else if p.name == "esp" then 50
    else p.number
  }

  predicate IsZero(p: Protocol) { p.name == "" && p.number == 0 }

  /** A protocol the schema reads: one of the names, or a number. */
  predicate IsProtocol(p: Protocol) { p.name in {"", "tcp", "udp", "icmp", "icmpv6", "ipip", "esp"} }

  // ----- what a declared rule means --------------------------------------------------

  /** Any of the networks or of the sets; with neither, anything. */
  predicate SideMeans(cidrs: seq<Cidr>, refs: seq<string>, side: Side, p: Packet, sets: Sets) {
    || (cidrs == [] && refs == [])
    || CoveredBy(cidrs, p.family, AddressAt(p, side))
    || exists ref :: ref in refs && ref in sets.addresses && sets.addresses[ref].family == p.family
         && CoveredBy(sets.addresses[ref].contents, p.family, AddressAt(p, side))
  }

  predicate PortsMean(ports: seq<PortSpec>, port: nat) { ports == [] || InPorts(ports, port) }

  predicate HasPorts(r: FirewallRule) { r.sourcePorts != [] || r.destinationPorts != [] }

  /** Everything a rule asks for but its protocol. */
  predicate RestMeans(r: FirewallRule, p: Packet, sets: Sets) {
    && (r.family.Some? ==> p.family == r.family.value)
    && SideMeans(r.sourceCidrs, r.sourceSets, Source, p, sets)
    && SideMeans(r.destinationCidrs, r.destinationSets, Destination, p, sets)
    && PortsMean(r.sourcePorts, p.sport) && PortsMean(r.destinationPorts, p.dport)
  }

  /** The number a header carries for each protocol the schema has a name for. */
  const NUMBERS: map<string, nat> :=
    map["tcp" := 6, "udp" := 17, "icmp" := 1, "icmpv6" := 58, "ipip" := 4, "esp" := 50]

  predicate Speaks(p: Packet, protocol: Protocol) {
    p.protocol == if protocol.name in NUMBERS then NUMBERS[protocol.name] else protocol.number
  }

  lemma {:induction false} SpeaksIs(p: Packet, protocol: Protocol)
    ensures Speaks(p, protocol) <==> p.protocol == NumberOf(protocol)
  {}

  /** Ports with no protocol are the ports of either transport that has them. */
  predicate Means(r: FirewallRule, p: Packet, sets: Sets) {
    && RestMeans(r, p, sets)
    && (if r.protocol.Some? then Speaks(p, r.protocol.value) else HasPorts(r) ==> p.protocol == 6 || p.protocol == 17)
  }

  function Declared(rules: seq<FirewallRule>, p: Packet, sets: Sets): Option<Verdict> {
    if rules == [] then None
    else if Means(rules[0], p, sets) then Some(rules[0].action)
    else Declared(rules[1..], p, sets)
  }

  /** The verdict a policy is written to give. */
  function PolicyVerdict(policy: Policy, p: Packet, sets: Sets): Verdict {
    if policy.stateful && (p.state == Established || p.state == Related) then Accept
    else if policy.stateful && p.state == Invalid then Drop
    else if Declared(policy.rules, p, sets).Some? then Declared(policy.rules, p, sets).value
    else policy.default
  }

  // ----- address alternatives --------------------------------------------------------

  /** One way a side was written, and the family that follows from it. */
  datatype AddressMatch = AddressMatch(family: Option<Family>, matches: seq<Match>)

  const ANYTHING := AddressMatch(None, [])

  function OfOneFamily(cidrs: seq<Cidr>, f: Family): seq<Cidr> {
    if cidrs == [] then [] else (if cidrs[0].family == f then [cidrs[0]] else []) + OfOneFamily(cidrs[1..], f)
  }

  function PrefixValues(f: Family, cidrs: seq<Cidr>): seq<Cidr> { Sort(OfOneFamily(cidrs, f), CidrOrder) }

  function CidrAlternative(f: Family, side: Side, cidrs: seq<Cidr>): seq<AddressMatch> {
    if PrefixValues(f, cidrs) == [] then [] else [AddressMatch(Some(f), [AddressIs(side, f, PrefixValues(f, cidrs))])]
  }

  function SetAlternative(side: Side, ref: string, declared: map<string, Family>): seq<AddressMatch> {
    if ref in declared then [AddressMatch(Some(declared[ref]), [AddressInSet(side, declared[ref], ref)])] else []
  }

  function SetAlternatives(side: Side, refs: seq<string>, declared: map<string, Family>): seq<AddressMatch> {
    if refs == [] then [] else SetAlternative(side, refs[0], declared) + SetAlternatives(side, refs[1..], declared)
  }

  function Written(side: Side, cidrs: seq<Cidr>, refs: seq<string>, declared: map<string, Family>): seq<AddressMatch> {
    CidrAlternative(IPv4, side, cidrs) + CidrAlternative(IPv6, side, cidrs) + SetAlternatives(side, refs, declared)
  }

  function Alternatives(side: Side, cidrs: seq<Cidr>, refs: seq<string>,
      declared: map<string, Family>): seq<AddressMatch> {
    if Written(side, cidrs, refs, declared) == [] then [ANYTHING] else Written(side, cidrs, refs, declared)
  }

  function Unknown(ref: string, declared: map<string, Family>): seq<Problem> {
    if ref in declared then [] else [NoAddressSet(ref)]
  }

  function Missing(refs: seq<string>, declared: map<string, Family>): seq<Problem> {
    if refs == [] then []
    else Unknown(refs[0], declared) + Missing(refs[1..], declared)
  }

  // ----- one declared rule -----------------------------------------------------------

  /** Two of a rule's families disagree when both are stated and are not one. */
  predicate Agree(a: Option<Family>, b: Option<Family>, c: Option<Family>) {
    && (a.Some? && b.Some? ==> a == b)
    && (a.Some? && c.Some? ==> a == c)
    && (b.Some? && c.Some? ==> b == c)
  }

  function FamilyMatch(f: Option<Family>): seq<Match> { if f.Some? then [OfFamily(f.value)] else [] }

  function ProtocolMatch(protocol: Option<Protocol>, ports: bool): seq<Match> {
    if protocol.None? || IsZero(protocol.value) then (if ports then [OfProtocol({TCP, UDP})] else [])
    else [OfProtocol({NumberOf(protocol.value)})]
  }

  function PortMatch(protocol: Option<Protocol>, side: Side, ports: seq<PortSpec>): seq<Match> {
    if ports == [] then []
    else
      var named := protocol.Some? && (protocol.value.name == "tcp" || protocol.value.name == "udp");
      [PortIs(side, if named then Some(NumberOf(protocol.value)) else None, ports)]
  }

  function RuleFor(r: FirewallRule, source: AddressMatch, destination: AddressMatch): Rule {
    Rule(FamilyMatch(r.family) + ProtocolMatch(r.protocol, HasPorts(r)) + (source.matches + destination.matches)
         + PortMatch(r.protocol, Source, r.sourcePorts) + PortMatch(r.protocol, Destination, r.destinationPorts),
         Decide(r.action))
  }

  function Row(r: FirewallRule, source: AddressMatch, destinations: seq<AddressMatch>): seq<Rule> {
    if destinations == [] then []
    else (if Agree(r.family, source.family, destinations[0].family) then [RuleFor(r, source, destinations[0])] else [])
         + Row(r, source, destinations[1..])
  }

  function Product(r: FirewallRule, sources: seq<AddressMatch>, destinations: seq<AddressMatch>): seq<Rule> {
    if sources == [] then [] else Row(r, sources[0], destinations) + Product(r, sources[1..], destinations)
  }

  function Compiled(r: FirewallRule, declared: map<string, Family>): seq<Rule> {
    Product(r, Alternatives(Source, r.sourceCidrs, r.sourceSets, declared),
      Alternatives(Destination, r.destinationCidrs, r.destinationSets, declared))
  }

  function CompiledAll(rules: seq<FirewallRule>, declared: map<string, Family>): seq<Rule> {
    if rules == [] then [] else Compiled(rules[0], declared) + CompiledAll(rules[1..], declared)
  }

  function Stateful(on: bool): seq<Rule> {
    if on then [Rule([InState({Established, Related})], Decide(Accept)), Rule([InState({Invalid})], Decide(Drop))]
    else []
  }

  function ChainOf(policy: Policy, declared: map<string, Family>): seq<Rule> {
    Stateful(policy.stateful) + CompiledAll(policy.rules, declared) + [Rule([], Decide(policy.default))]
  }

  function MissingIn(rules: seq<FirewallRule>, declared: map<string, Family>): seq<Problem> {
    if rules == [] then []
    else Missing(rules[0].sourceSets, declared) + Missing(rules[0].destinationSets, declared)
         + MissingIn(rules[1..], declared)
  }

  // ----- the renderer ----------------------------------------------------------------

  class PolicyRenderer {
    const declared: map<string, Family>
    var problems: seq<Problem>

    constructor (declared: map<string, Family>)
      ensures this.declared == declared && problems == []
    {
      this.declared, problems := declared, [];
    }

    method NamedSets(side: Side, refs: seq<string>) returns (out: seq<AddressMatch>)
      modifies this
      ensures out == SetAlternatives(side, refs, declared) && problems == old(problems) + Missing(refs, declared)
    {
      out := [];
      for i := 0 to |refs|
        invariant out + SetAlternatives(side, refs[i..], declared) == SetAlternatives(side, refs, declared)
        invariant problems + Missing(refs[i..], declared) == old(problems) + Missing(refs, declared)
      {
        assert refs[i..][0] == refs[i] && refs[i..][1..] == refs[i + 1..];
        ghost var before, found := out, problems;
        if refs[i] in declared {
          out := out + [AddressMatch(Some(declared[refs[i]]), [AddressInSet(side, declared[refs[i]], refs[i])])];
        } else {
          problems := problems + [NoAddressSet(refs[i])];
        }
        assert out == before + SetAlternative(side, refs[i], declared);
        assert problems == found + Unknown(refs[i], declared);
        Regrouped(before, SetAlternative(side, refs[i], declared), SetAlternatives(side, refs[i + 1..], declared));
        Regrouped(found, Unknown(refs[i], declared), Missing(refs[i + 1..], declared));
      }
    }

    method AddressAlternatives(side: Side, cidrs: seq<Cidr>, refs: seq<string>) returns (out: seq<AddressMatch>)
      modifies this
      ensures out == Alternatives(side, cidrs, refs, declared) && problems == old(problems) + Missing(refs, declared)
      ensures problems == old(problems) <==> forall ref :: ref in refs ==> ref in declared
    {
      NoneMissingIs(refs, declared);
      out := [];
      var values := PrefixValues(IPv4, cidrs);
      if values != [] { out := out + [AddressMatch(Some(IPv4), [AddressIs(side, IPv4, values)])]; }
      values := PrefixValues(IPv6, cidrs);
      if values != [] { out := out + [AddressMatch(Some(IPv6), [AddressIs(side, IPv6, values)])]; }
      assert out == CidrAlternative(IPv4, side, cidrs) + CidrAlternative(IPv6, side, cidrs);
      var named := NamedSets(side, refs);
      out := out + named;
      if |out| == 0 { out := [ANYTHING]; }
    }

    method RowOf(r: FirewallRule, source: AddressMatch, destinations: seq<AddressMatch>) returns (out: seq<Rule>)
      ensures out == Row(r, source, destinations)
    {
      out := [];
      for j := 0 to |destinations|
        invariant out + Row(r, source, destinations[j..]) == Row(r, source, destinations)
      {
        assert destinations[j..][0] == destinations[j] && destinations[j..][1..] == destinations[j + 1..];
        if Agree(r.family, source.family, destinations[j].family) {
          out := out + [RuleFor(r, source, destinations[j])];
        }
      }
    }

    /** One declared rule, as the rules it takes. */
    method RulesFor(r: FirewallRule) returns (out: seq<Rule>)
      modifies this
      ensures out == Compiled(r, declared)
      ensures problems == old(problems) + (Missing(r.sourceSets, declared) + Missing(r.destinationSets, declared))
    {
      var sources := AddressAlternatives(Source, r.sourceCidrs, r.sourceSets);
      var destinations := AddressAlternatives(Destination, r.destinationCidrs, r.destinationSets);
      ghost var found := problems;
      Regrouped(old(problems), Missing(r.sourceSets, declared), Missing(r.destinationSets, declared));
      out := [];
      for i := 0 to |sources|
        invariant out + Product(r, sources[i..], destinations) == Product(r, sources, destinations) && problems == found
      {
        assert sources[i..][0] == sources[i] && sources[i..][1..] == sources[i + 1..];
        ghost var before := out;
        var row := RowOf(r, sources[i], destinations);
        out := out + row;
        Regrouped(before, row, Product(r, sources[i + 1..], destinations));
      }
    }

    method DeclaredRules(rules: seq<FirewallRule>) returns (out: seq<Rule>)
      modifies this
      ensures out == CompiledAll(rules, declared) && problems == old(problems) + MissingIn(rules, declared)
    {
      out := [];
      for i := 0 to |rules|
        invariant out + CompiledAll(rules[i..], declared) == CompiledAll(rules, declared)
        invariant problems + MissingIn(rules[i..], declared) == old(problems) + MissingIn(rules, declared)
      {
        ghost var before, found := out, problems;
        var more := RulesFor(rules[i]);
        out := out + more;
        Regrouped(before, more, CompiledAll(rules[i + 1..], declared));
        Regrouped(found, Missing(rules[i].sourceSets, declared) + Missing(rules[i].destinationSets, declared),
            MissingIn(rules[i + 1..], declared));
      }
    }

    /** The chain of one policy. */
    method Chain(policy: Policy) returns (rules: seq<Rule>)
      modifies this
      ensures rules == ChainOf(policy, declared) && problems == old(problems) + MissingIn(policy.rules, declared)
      ensures problems == old(problems) <==> AllDeclared(policy.rules, declared)
    {
      NoneMissingIn(policy.rules, declared);
      rules := [];
      if policy.stateful {
        rules := rules + [Rule([InState({Established, Related})], Decide(Accept)),
            Rule([InState({Invalid})], Decide(Drop))];
      }
      var more := DeclaredRules(policy.rules);
      rules := rules + more + [Rule([], Decide(policy.default))];
    }
  }

  // ----- meaning kept: addresses -----------------------------------------------------

  /** The sets the table holds are the declared ones, each of its declared family. */
  ghost predicate HoldsDeclared(sets: Sets, declared: map<string, Family>) {
    sets.addresses.Keys == declared.Keys && forall n :: n in declared ==> sets.addresses[n].family == declared[n]
  }

  /** An alternative tests the packet's family whenever it has one of its own. */
  ghost predicate FamilyTested(a: AddressMatch) {
    a.family.Some? ==> forall p, sets :: AllHold(a.matches, p, sets) ==> p.family == a.family.value
  }

  predicate Taken(alternatives: seq<AddressMatch>, p: Packet, sets: Sets) {
    exists a :: a in alternatives && AllHold(a.matches, p, sets)
  }

  lemma {:induction false} OneFamilyMembers(cidrs: seq<Cidr>, f: Family)
    ensures forall c :: c in PrefixValues(f, cidrs) <==> c in cidrs && c.family == f
  {
    OneFamilyKeeps(cidrs, f);
    SortKeeps(OfOneFamily(cidrs, f), CidrOrder);
  }

  lemma {:induction false} OneFamilyKeeps(cidrs: seq<Cidr>, f: Family)
    ensures forall c :: c in OfOneFamily(cidrs, f) <==> c in cidrs && c.family == f
  {
    if cidrs != [] {
      OneFamilyKeeps(cidrs[1..], f);
      assert cidrs == [cidrs[0]] + cidrs[1..];
    }
  }

  lemma {:induction false} CidrTaken(f: Family, side: Side, cidrs: seq<Cidr>, p: Packet, sets: Sets)
    ensures Taken(CidrAlternative(f, side, cidrs), p, sets) <==>
        p.family == f && CoveredBy(cidrs, f, AddressAt(p, side))
    ensures forall a :: a in CidrAlternative(f, side, cidrs) ==> FamilyTested(a)
    ensures CidrAlternative(f, side, cidrs) == [] <==> forall c :: c in cidrs ==> c.family != f
  {
    OneFamilyMembers(cidrs, f);
    var values := PrefixValues(f, cidrs);
    assert CoveredBy(values, f, AddressAt(p, side)) <==> CoveredBy(cidrs, f, AddressAt(p, side));
    if values == [] {
      assert forall c :: c in cidrs && c.family == f ==> c in values;
    } else {
      var a := AddressMatch(Some(f), [AddressIs(side, f, values)]);
      assert CidrAlternative(f, side, cidrs) == [a] && values[0] in values;
      OneMatch(AddressIs(side, f, values), f);
      AllHoldOne(AddressIs(side, f, values), p, sets);
      assert a in [a];
    }
  }

  lemma {:induction false} OneMatch(m: Match, f: Family)
    requires (m.AddressIs? || m.AddressInSet?) && m.family == f
    ensures FamilyTested(AddressMatch(Some(f), [m]))
  {
    forall p, sets | AllHold([m], p, sets) ensures p.family == f { AllHoldOne(m, p, sets); }
  }

  predicate SetTaken(refs: seq<string>, side: Side, p: Packet, sets: Sets) {
    exists ref :: ref in refs && ref in sets.addresses && sets.addresses[ref].family == p.family
      && CoveredBy(sets.addresses[ref].contents, p.family, AddressAt(p, side))
  }

  lemma {:induction false} SetsTaken(side: Side, refs: seq<string>, declared: map<string, Family>, p: Packet,
      sets: Sets)
    requires HoldsDeclared(sets, declared)
    ensures Taken(SetAlternatives(side, refs, declared), p, sets) <==> SetTaken(refs, side, p, sets)
    ensures forall a :: a in SetAlternatives(side, refs, declared) ==> FamilyTested(a)
  {
    if refs != [] {
      assert refs == [refs[0]] + refs[1..];
      SetsTaken(side, refs[1..], declared, p, sets);
      if refs[0] in declared {
        var m := AddressInSet(side, declared[refs[0]], refs[0]);
        var a := AddressMatch(Some(declared[refs[0]]), [m]);
        OneMatch(m, declared[refs[0]]);
        AllHoldOne(m, p, sets);
        assert Taken([a], p, sets) <==> Holds(m, p, sets) by { assert a in [a]; }
      } else {
        assert SetAlternatives(side, refs, declared) == SetAlternatives(side, refs[1..], declared);
      }
    }
  }

  /** The alternatives of a side are taken by exactly the packets the side is written for,
      when every set it names is declared. */
  lemma {:induction false} AlternativesMean(side: Side, cidrs: seq<Cidr>, refs: seq<string>,
      declared: map<string, Family>, p: Packet, sets: Sets)
    requires HoldsDeclared(sets, declared) && Missing(refs, declared) == []
    ensures Taken(Alternatives(side, cidrs, refs, declared), p, sets) <==> SideMeans(cidrs, refs, side, p, sets)
    ensures forall a :: a in Alternatives(side, cidrs, refs, declared) ==> FamilyTested(a)
  {
    var four, six := CidrAlternative(IPv4, side, cidrs), CidrAlternative(IPv6, side, cidrs);
    var named := SetAlternatives(side, refs, declared);
    CidrTaken(IPv4, side, cidrs, p, sets);
    CidrTaken(IPv6, side, cidrs, p, sets);
    SetsTaken(side, refs, declared, p, sets);
    assert p.family == IPv4 || p.family == IPv6;
    if four + six + named == [] {
      assert ANYTHING in Alternatives(side, cidrs, refs, declared) && AllHold(ANYTHING.matches, p, sets);
    }
  }

  // ----- meaning kept: one rule ------------------------------------------------------

  /** What is tested besides the addresses. */
  predicate OtherTests(r: FirewallRule, p: Packet, sets: Sets) {
    && AllHold(FamilyMatch(r.family), p, sets)
    && AllHold(ProtocolMatch(r.protocol, HasPorts(r)), p, sets)
    && AllHold(PortMatch(r.protocol, Source, r.sourcePorts), p, sets)
    && AllHold(PortMatch(r.protocol, Destination, r.destinationPorts), p, sets)
  }

  lemma {:induction false} RowMeans(r: FirewallRule, s: AddressMatch, ds: seq<AddressMatch>, p: Packet, sets: Sets)
    requires FamilyTested(s) && forall d :: d in ds ==> FamilyTested(d)
    ensures Any(Row(r, s, ds), p, sets) <==> OtherTests(r, p, sets) && AllHold(s.matches, p, sets) && Taken(ds, p, sets)
    ensures forall x :: x in Row(r, s, ds) ==> x.action == Decide(r.action)
  {
    if ds != [] {
      assert ds == [ds[0]] + ds[1..];
      RowMeans(r, s, ds[1..], p, sets);
      assert Taken([ds[0]], p, sets) <==> AllHold(ds[0].matches, p, sets) by { assert ds[0] in [ds[0]]; }
      Disagreement(r, s, ds[0], p, sets);
      if Agree(r.family, s.family, ds[0].family) { AnyCons(RuleFor(r, s, ds[0]), Row(r, s, ds[1..]), p, sets); }
      else { assert Row(r, s, ds) == Row(r, s, ds[1..]); }
    }
  }

  /** A combination whose families disagree would have matched nothing. */
  lemma {:induction false} Disagreement(r: FirewallRule, s: AddressMatch, d: AddressMatch, p: Packet, sets: Sets)
    requires FamilyTested(s) && FamilyTested(d)
    ensures OtherTests(r, p, sets) && AllHold(s.matches, p, sets) && AllHold(d.matches, p, sets) ==>
        Agree(r.family, s.family, d.family)
  {
    if OtherTests(r, p, sets) && r.family.Some? { AllHoldOne(OfFamily(r.family.value), p, sets); }
  }

  lemma {:induction false} AnyCons(r: Rule, rules: seq<Rule>, p: Packet, sets: Sets)
    ensures Any([r] + rules, p, sets) <==> AllHold(r.matches, p, sets) || Any(rules, p, sets)
  {
    if Any(rules, p, sets) { var x :| x in rules && AllHold(x.matches, p, sets); assert x in [r] + rules; }
    assert r in [r] + rules;
  }

  lemma {:induction false} ProductMeans(r: FirewallRule, ss: seq<AddressMatch>, ds: seq<AddressMatch>, p: Packet,
      sets: Sets)
    requires (forall s :: s in ss ==> FamilyTested(s)) && forall d :: d in ds ==> FamilyTested(d)
    ensures Any(Product(r, ss, ds), p, sets) <==> OtherTests(r, p, sets) && Taken(ss, p, sets) && Taken(ds, p, sets)
    ensures forall x :: x in Product(r, ss, ds) ==> x.action == Decide(r.action)
  {
    if ss != [] {
      assert ss == [ss[0]] + ss[1..];
      RowMeans(r, ss[0], ds, p, sets);
      ProductMeans(r, ss[1..], ds, p, sets);
      assert Taken([ss[0]], p, sets) <==> AllHold(ss[0].matches, p, sets) by { assert ss[0] in [ss[0]]; }
    }
  }

  /** A protocol written as zero is read as one left out. */
  function AsRead(r: FirewallRule): FirewallRule {
    if r.protocol.Some? && IsZero(r.protocol.value) then r.(protocol := None) else r
  }

  lemma {:induction false} OptionalTests(ms: seq<Match>, p: Packet, sets: Sets)
    requires |ms| <= 1
    ensures AllHold(ms, p, sets) <==> (ms != [] ==> Holds(ms[0], p, sets))
  {
    if ms != [] {
      assert ms == [ms[0]];
      AllHoldOne(ms[0], p, sets);
    }
  }

  lemma {:induction false} OtherTestsMean(r: FirewallRule, p: Packet, sets: Sets)
    requires r.protocol.Some? ==> IsProtocol(r.protocol.value)
    ensures OtherTests(r, p, sets) <==>
              && (r.family.Some? ==> p.family == r.family.value)
              && (if AsRead(r).protocol.Some? then Speaks(p, r.protocol.value) else HasPorts(r) ==>
                    p.protocol == TCP || p.protocol == UDP)
              && PortsMean(r.sourcePorts, p.sport) && PortsMean(r.destinationPorts, p.dport)
  {
    if r.protocol.Some? { SpeaksIs(p, r.protocol.value); }
    OptionalTests(FamilyMatch(r.family), p, sets);
    OptionalTests(ProtocolMatch(r.protocol, HasPorts(r)), p, sets);
    OptionalTests(PortMatch(r.protocol, Source, r.sourcePorts), p, sets);
    OptionalTests(PortMatch(r.protocol, Destination, r.destinationPorts), p, sets);
  }

  /** The rules one declared rule is spelt out into are matched by exactly the packets it is
      written for, its protocol as it is read. */
  lemma {:induction false} CompiledMeans(r: FirewallRule, declared: map<string, Family>, p: Packet, sets: Sets)
    requires HoldsDeclared(sets, declared) && (r.protocol.Some? ==> IsProtocol(r.protocol.value))
    requires Missing(r.sourceSets, declared) == [] && Missing(r.destinationSets, declared) == []
    ensures First(Compiled(r, declared), p, sets) == if Means(AsRead(r), p, sets) then Some(r.action) else None
  {
    var ss := Alternatives(Source, r.sourceCidrs, r.sourceSets, declared);
    var ds := Alternatives(Destination, r.destinationCidrs, r.destinationSets, declared);
    AlternativesMean(Source, r.sourceCidrs, r.sourceSets, declared, p, sets);
    AlternativesMean(Destination, r.destinationCidrs, r.destinationSets, declared, p, sets);
    ProductMeans(r, ss, ds, p, sets);
    OtherTestsMean(r, p, sets);
    FirstOfAlike(Compiled(r, declared), r.action, p, sets);
  }

  /** A rule is spelt out into what it says, for every packet, exactly when its protocol is
      not the number zero, or nothing else it asks for can be met. */
  lemma {:induction false} MeaningIsKept(r: FirewallRule, declared: map<string, Family>, sets: Sets)
    requires HoldsDeclared(sets, declared) && (r.protocol.Some? ==> IsProtocol(r.protocol.value))
    requires Missing(r.sourceSets, declared) == [] && Missing(r.destinationSets, declared) == []
    ensures (forall p :: (First(Compiled(r, declared), p, sets) == if Means(r, p, sets) then Some(r.action) else None))
            <==> (r.protocol.Some? && IsZero(r.protocol.value) ==> forall p :: !RestMeans(r, p, sets))
  {
    forall p
      ensures First(Compiled(r, declared), p, sets) == if Means(AsRead(r), p, sets) then Some(r.action) else None
    {
      CompiledMeans(r, declared, p, sets);
    }
    if r.protocol.Some? && IsZero(r.protocol.value) {
      forall p | RestMeans(r, p, sets)
        ensures exists q :: First(Compiled(r, declared), q, sets) != if Means(r, q, sets) then Some(r.action) else None
      {
        var q := p.(protocol := TCP);
        assert Means(AsRead(r), q, sets) && !Means(r, q, sets);
      }
    }
  }

  // ----- meaning kept: a policy ------------------------------------------------------

  /** Every set a rule names is declared. */
  ghost predicate AllDeclared(rules: seq<FirewallRule>, declared: map<string, Family>) {
    forall r, ref :: r in rules && (ref in r.sourceSets || ref in r.destinationSets) ==> ref in declared
  }

  lemma {:induction false} NoneMissingIs(refs: seq<string>, declared: map<string, Family>)
    ensures Missing(refs, declared) == [] <==> forall ref :: ref in refs ==> ref in declared
  {
    if refs != [] {
      assert refs == [refs[0]] + refs[1..];
      NoneMissingIs(refs[1..], declared);
    }
  }

  lemma {:induction false} NoneMissingIn(rules: seq<FirewallRule>, declared: map<string, Family>)
    ensures MissingIn(rules, declared) == [] <==> AllDeclared(rules, declared)
  {
    if rules != [] {
      assert rules == [rules[0]] + rules[1..];
      NoneMissingIs(rules[0].sourceSets, declared);
      NoneMissingIs(rules[0].destinationSets, declared);
      NoneMissingIn(rules[1..], declared);
    }
  }

  /** A policy every part of which resolves and is read as it is written. */
  ghost predicate Readable(policy: Policy, declared: map<string, Family>) {
    && AllDeclared(policy.rules, declared)
    && forall r :: r in policy.rules && r.protocol.Some? ==> IsProtocol(r.protocol.value) && !IsZero(r.protocol.value)
  }

  lemma {:induction false} AllMean(rules: seq<FirewallRule>, declared: map<string, Family>, p: Packet, sets: Sets)
    requires HoldsDeclared(sets, declared) && MissingIn(rules, declared) == []
    requires forall r :: r in rules && r.protocol.Some? ==> IsProtocol(r.protocol.value) && !IsZero(r.protocol.value)
    ensures First(CompiledAll(rules, declared), p, sets) == Declared(rules, p, sets)
  {
    if rules != [] {
      assert rules == [rules[0]] + rules[1..] && rules[0] in rules;
      assert AsRead(rules[0]) == rules[0];
      CompiledMeans(rules[0], declared, p, sets);
      AllMean(rules[1..], declared, p, sets);
      FirstJoin(Compiled(rules[0], declared), CompiledAll(rules[1..], declared), p, sets);
    }
  }

  lemma {:induction false} StatefulMeans(p: Packet, sets: Sets)
    ensures First(Stateful(true), p, sets) ==
              if p.state == Established || p.state == Related then Some(Accept)
              else if p.state == Invalid then Some(Drop) else None
  {
    var accept := Rule([InState({Established, Related})], Decide(Accept));
    var drop := Rule([InState({Invalid})], Decide(Drop));
    AllHoldOne(InState({Established, Related}), p, sets);
    AllHoldOne(InState({Invalid}), p, sets);
    assert Stateful(true) == [accept, drop] && [accept, drop][1..] == [drop] && [drop][1..] == [];
    assert First([drop], p, sets) == if p.state == Invalid then Some(Drop) else None;
  }

  /** For every packet the chain of a policy gives the verdict of its declaration. */
  lemma {:induction false} ChainMeans(policy: Policy, declared: map<string, Family>, p: Packet, sets: Sets)
    requires HoldsDeclared(sets, declared) && Readable(policy, declared)
    ensures First(ChainOf(policy, declared), p, sets) == Some(PolicyVerdict(policy, p, sets))
  {
    var last := [Rule([], Decide(policy.default))];
    assert First(last, p, sets) == Some(policy.default);
    NoneMissingIn(policy.rules, declared);
    AllMean(policy.rules, declared, p, sets);
    if policy.stateful { StatefulMeans(p, sets); }
    FirstJoin(Stateful(policy.stateful), CompiledAll(policy.rules, declared), p, sets);
    FirstJoin(Stateful(policy.stateful) + CompiledAll(policy.rules, declared), last, p, sets);
    assert ChainOf(policy, declared) == Stateful(policy.stateful) + CompiledAll(policy.rules, declared) + last;
    assert First(CompiledAll(policy.rules, declared), p, sets) == Declared(policy.rules, p, sets);
    assert !policy.stateful ==> First(Stateful(policy.stateful), p, sets) == None;
  }
}
