/** The input and forward chains: what decides a packet addressed to the host, and one passing
    through. */
module FilterChains {
  import opened Orders
  import opened Host
  import opened Families
  import opened Packets
  import opened PolicyChains
  import opened PortForwards

  const SELF := "self"

  // ----- the chains ------------------------------------------------------------------

  /** The order the base chains dispatch to policies in. */
  predicate PairOrder(a: Policy, b: Policy) {
    if a.zoneFrom != b.zoneFrom then TextLe(a.zoneFrom, b.zoneFrom)
    else if a.zoneTo != b.zoneTo then TextLe(a.zoneTo, b.zoneTo)
    else TextLe(a.name, b.name)
  }

  function AddressRule(f: PortForward, side: Side): Rule
    requires f.target.Some?
  {
    var t := f.target.value;
    Rule([Readdressed, OfFamily(t.family), AddressIs(side, t.family, [Cidr(t.family, t.address, Width(t.family))])]
           + PortMatch(Some(f.protocol), side, [TargetPorts(f)]), Decide(Accept))
  }

  function Opening(f: PortForward): seq<Rule> {
    if !f.opens || f.target.None? then [] else [AddressRule(f, Destination), AddressRule(f, Source)]
  }

  function Openings(forwards: seq<PortForward>): seq<Rule> {
    if forwards == [] then [] else Opening(forwards[0]) + Openings(forwards[1..])
  }

  predicate InputJump(p: Policy, zones: set<string>) { p.zoneFrom in zones && p.zoneTo == SELF }

  predicate ForwardJump(p: Policy, zones: set<string>) { p.zoneFrom in zones && p.zoneTo != SELF && p.zoneTo in zones }

  function InputAt(p: Policy, zones: set<string>): seq<Rule> {
    if InputJump(p, zones) then [Rule([FromZone(p.zoneFrom)], Jump(p.name))] else []
  }

  function ForwardAt(p: Policy, zones: set<string>): seq<Rule> {
    if ForwardJump(p, zones) then [Rule([FromZone(p.zoneFrom), ToZone(p.zoneTo)], Jump(p.name))] else []
  }

  function InputJumps(policies: seq<Policy>, zones: set<string>): seq<Rule> {
    if policies == [] then []
    else InputAt(policies[0], zones) + InputJumps(policies[1..], zones)
  }

  function ForwardJumps(policies: seq<Policy>, zones: set<string>): seq<Rule> {
    if policies == [] then []
    else ForwardAt(policies[0], zones) + ForwardJumps(policies[1..], zones)
  }

  function ZoneProblem(p: Policy, zones: set<string>): seq<Problem> {
    if p.zoneFrom !in zones then [NoZone(p.name, p.zoneFrom)]
    else if p.zoneTo != SELF && p.zoneTo !in zones then [NoZone(p.name, p.zoneTo)]
    else []
  }

  function ZoneProblems(policies: seq<Policy>, zones: set<string>): seq<Problem> {
    if policies == [] then [] else ZoneProblem(policies[0], zones) + ZoneProblems(policies[1..], zones)
  }

  /** The zones a policy is written between are declared; the host itself is none. */
  predicate Placed(p: Policy, zones: set<string>) {
    p.zoneFrom in zones && (p.zoneTo == SELF || p.zoneTo in zones)
  }

  const LOOPBACK := Rule([OnLoopback], Decide(Accept))

  datatype Filter = Filter(input: seq<Rule>, forward: seq<Rule>, chains: map<string, seq<Rule>>)

  function ChainsOf(policies: seq<Policy>, declared: map<string, Family>): map<string, seq<Rule>> {
    if policies == [] then map[]
    else
      var last := policies[|policies| - 1];
      ChainsOf(policies[..|policies| - 1], declared)[last.name := ChainOf(last, declared)]
  }

  /** A host without a policy has no filter at all. */
  function FilterOf(policies: seq<Policy>, forwards: seq<PortForward>, zones: set<string>,
      declared: map<string, Family>): Option<Filter> {
    if policies == [] then None
    else
      var sorted := Sort(policies, PairOrder);
      Some(Filter([LOOPBACK] + InputJumps(sorted, zones),
                  Openings(Sort(forwards, ByName)) + ForwardJumps(sorted, zones),
                  ChainsOf(sorted, declared)))
  }

  lemma {:induction false} ChainsStep(sorted: seq<Policy>, i: nat, declared: map<string, Family>)
    requires i < |sorted|
    ensures ChainsOf(sorted[..i + 1], declared) ==
        ChainsOf(sorted[..i], declared)[sorted[i].name := ChainOf(sorted[i], declared)]
  {
    assert sorted[..i + 1][..i] == sorted[..i];
  }

  function MissingAll(policies: seq<Policy>, declared: map<string, Family>): seq<Problem> {
    if policies == [] then []
    else MissingAll(policies[..|policies| - 1], declared) + MissingIn(policies[|policies| - 1].rules, declared)
  }

  lemma {:induction false} NoneMissing(policies: seq<Policy>, declared: map<string, Family>)
    ensures MissingAll(policies, declared) == [] <==> forall p :: p in policies ==> MissingIn(p.rules, declared) == []
  {
    if policies != [] {
      NoneMissing(policies[..|policies| - 1], declared);
      assert policies == policies[..|policies| - 1] + [policies[|policies| - 1]];
    }
  }

  method ChainsFor(sorted: seq<Policy>, declared: map<string, Family>)
      returns (chains: map<string, seq<Rule>>, missing: seq<Problem>)
    ensures chains == ChainsOf(sorted, declared) && missing == MissingAll(sorted, declared)
  {
    var renderer := new PolicyRenderer(declared);
    chains := map[];
    for i := 0 to |sorted|
      invariant fresh(renderer) && renderer.declared == declared
      invariant chains == ChainsOf(sorted[..i], declared) && renderer.problems == MissingAll(sorted[..i], declared)
    {
      ChainsStep(sorted, i, declared);
      assert sorted[..i + 1][..i] == sorted[..i];
      var rules := renderer.Chain(sorted[i]);
      chains := chains[sorted[i].name := rules];
    }
    assert sorted[..|sorted|] == sorted;
    missing := renderer.problems;
  }

  /** Where both base chains jump, policy by policy. */
  method Dispatch(sorted: seq<Policy>, zones: set<string>)
      returns (input: seq<Rule>, forward: seq<Rule>, problems: seq<Problem>)
    ensures input == InputJumps(sorted, zones) && forward == ForwardJumps(sorted, zones)
        && problems == ZoneProblems(sorted, zones)
  {
    input, forward, problems := [], [], [];
    for i := 0 to |sorted|
      invariant input + InputJumps(sorted[i..], zones) == InputJumps(sorted, zones)
      invariant forward + ForwardJumps(sorted[i..], zones) == ForwardJumps(sorted, zones)
      invariant problems + ZoneProblems(sorted[i..], zones) == ZoneProblems(sorted, zones)
    {
      var p := sorted[i];
      ghost var was, had, knew := input, forward, problems;
      if p.zoneFrom !in zones {
        problems := problems + [NoZone(p.name, p.zoneFrom)];
      } else if p.zoneTo == SELF {
        input := input + [Rule([FromZone(p.zoneFrom)], Jump(p.name))];
      } else if p.zoneTo !in zones {
        problems := problems + [NoZone(p.name, p.zoneTo)];
      } else {
        forward := forward + [Rule([FromZone(p.zoneFrom), ToZone(p.zoneTo)], Jump(p.name))];
      }
      assert input == was + InputAt(p, zones) && forward == had + ForwardAt(p, zones)
          && problems == knew + ZoneProblem(p, zones);
      Regrouped(was, InputAt(p, zones), InputJumps(sorted[i + 1..], zones));
      Regrouped(had, ForwardAt(p, zones), ForwardJumps(sorted[i + 1..], zones));
      Regrouped(knew, ZoneProblem(p, zones), ZoneProblems(sorted[i + 1..], zones));
    }
  }

  method OpeningRules(sorted: seq<PortForward>) returns (rules: seq<Rule>)
    ensures rules == Openings(sorted)
  {
    rules := [];
    for i := 0 to |sorted|
      invariant rules + Openings(sorted[i..]) == Openings(sorted)
    {
      assert sorted[i..][0] == sorted[i] && sorted[i..][1..] == sorted[i + 1..];
      rules := rules + Opening(sorted[i]);
    }
  }

  method RenderFilter(policies: seq<Policy>, forwards: seq<PortForward>, zones: set<string>,
      declared: map<string, Family>)
    returns (filter: Option<Filter>, problems: seq<Problem>)
    ensures filter == FilterOf(policies, forwards, zones, declared)
    ensures problems == [] <==> forall p :: p in policies ==> Placed(p, zones) && AllDeclared(p.rules, declared)
  {
    if policies == [] { return None, []; }
    var sorted := Sort(policies, PairOrder);
    SortKeeps(policies, PairOrder);
    var chains, missing := ChainsFor(sorted, declared);
    var input, forward, unresolved := Dispatch(sorted, zones);
    NoZoneProblems(sorted, zones);
    NoneMissing(sorted, declared);
    forall p: Policy ensures MissingIn(p.rules, declared) == [] <==> AllDeclared(p.rules, declared) {
      NoneMissingIn(p.rules, declared);
    }
    var openings := OpeningRules(Sort(forwards, ByName));
    filter := Some(Filter([LOOPBACK] + input, openings + forward, chains));
    problems := missing + unresolved;
  }

  lemma {:induction false} NoZoneProblems(policies: seq<Policy>, zones: set<string>)
    ensures ZoneProblems(policies, zones) == [] <==> forall p :: p in policies ==> ZoneProblem(p, zones) == []
  {
    if policies != [] {
      NoZoneProblems(policies[1..], zones);
      assert policies == [policies[0]] + policies[1..];
    }
  }

  // ----- what the declarations say ---------------------------------------------------

  /** The links of a packet are in the zones a policy is written between. */
  predicate Between(policy: Policy, p: Packet, sets: Sets, passing: bool) {
    && Holds(FromZone(policy.zoneFrom), p, sets)
    && (if passing then policy.zoneTo != SELF && Holds(ToZone(policy.zoneTo), p, sets) else policy.zoneTo == SELF)
  }

  /** One policy is written ahead of another: by the zone a packet comes from, then by the one it
      goes to, then by name. */
  predicate Ahead(a: Policy, b: Policy) {
    || (a.zoneFrom != b.zoneFrom && TextLe(a.zoneFrom, b.zoneFrom))
    || (a.zoneFrom == b.zoneFrom && a.zoneTo != b.zoneTo && TextLe(a.zoneTo, b.zoneTo))
    || (a.zoneFrom == b.zoneFrom && a.zoneTo == b.zoneTo && TextLe(a.name, b.name))
  }

  /** The policy a packet falls to: of those that hold its links, the one ahead of all. */
  ghost predicate FallsTo(policies: seq<Policy>, policy: Policy, p: Packet, sets: Sets, passing: bool) {
    && policy in policies && Between(policy, p, sets, passing)
    && forall other :: other in policies && Between(other, p, sets, passing) ==> Ahead(policy, other)
  }

  ghost predicate Uncovered(policies: seq<Policy>, p: Packet, sets: Sets, passing: bool) {
    forall policy :: policy in policies ==> !Between(policy, p, sets, passing)
  }

  /** A forward lets through what it readdressed, and the answers to it: to and from the ports
      its target names, or the ones it listens on when it names none. */
  predicate LetsThrough(f: PortForward, p: Packet) {
    && f.opens && f.target.Some? && p.dnat && p.family == f.target.value.family && Speaks(p, f.protocol)
    && var ports := if f.target.value.ports.Some? then f.target.value.ports.value
                    else if f.listen.Some? then f.listen.value else PortSpec(0, 0);
       || (p.destination == f.target.value.address && Within(ports, p.dport))
       || (p.source == f.target.value.address && Within(ports, p.sport))
  }

  /** What validation asks of the policies and forwards of an accepted configuration. */
  ghost predicate Sound(policies: seq<Policy>, forwards: seq<PortForward>, zones: set<string>,
      declared: map<string, Family>) {
    && (forall i, j :: 0 <= i < j < |policies| ==> policies[i].name != policies[j].name)
    && (forall p :: p in policies ==> Placed(p, zones) && Readable(p, declared))
    && forall f :: f in forwards ==> f.protocol.name == "tcp" || f.protocol.name == "udp"
  }

  // ----- what the chains decide ------------------------------------------------------

  ghost predicate HasChains(policies: seq<Policy>, chains: map<string, seq<Rule>>, declared: map<string, Family>) {
    forall p :: p in policies ==> p.name in chains && chains[p.name] == ChainOf(p, declared)
  }

  lemma {:induction false} ChainsFoundUpTo(policies: seq<Policy>, n: nat, k: nat, declared: map<string, Family>)
    requires (forall i, j :: 0 <= i < j < |policies| ==> policies[i].name != policies[j].name) && k < n <= |policies|
    ensures policies[k].name in ChainsOf(policies[..n], declared)
    ensures ChainsOf(policies[..n], declared)[policies[k].name] == ChainOf(policies[k], declared)
  {
    ChainsStep(policies, n - 1, declared);
    if k < n - 1 {
      ChainsFoundUpTo(policies, n - 1, k, declared);
      assert policies[k].name != policies[n - 1].name;
    }
  }

  lemma {:induction false} ChainsFound(policies: seq<Policy>, declared: map<string, Family>)
    requires forall i, j :: 0 <= i < j < |policies| ==> policies[i].name != policies[j].name
    ensures HasChains(policies, ChainsOf(policies, declared), declared)
  {
    assert policies[..|policies|] == policies;
    forall p | p in policies
      ensures p.name in ChainsOf(policies, declared) && ChainsOf(policies, declared)[p.name] == ChainOf(p, declared)
    {
      var k :| 0 <= k < |policies| && policies[k] == p;
      ChainsFoundUpTo(policies, |policies|, k, declared);
    }
  }

  lemma {:induction false} JumpDecides(matches: seq<Match>, policy: Policy, rest: seq<Rule>,
      chains: map<string, seq<Rule>>, declared: map<string, Family>, p: Packet, sets: Sets)
    requires policy.name in chains && chains[policy.name] == ChainOf(policy, declared)
    requires HoldsDeclared(sets, declared) && Readable(policy, declared)
    ensures Decision([Rule(matches, Jump(policy.name))] + rest, chains, p, sets) ==
              if AllHold(matches, p, sets) then Some(PolicyVerdict(policy, p, sets))
              else Decision(rest, chains, p, sets)
  {
    ChainMeans(policy, declared, p, sets);
    assert ([Rule(matches, Jump(policy.name))] + rest)[1..] == rest;
  }

  lemma {:induction false} TwoHold(a: Match, b: Match, p: Packet, sets: Sets)
    ensures AllHold([a, b], p, sets) <==> Holds(a, p, sets) && Holds(b, p, sets)
  {
    assert a in [a, b] && b in [a, b];
  }

  ghost predicate Falls(decision: Option<Verdict>, policies: seq<Policy>, p: Packet, sets: Sets, passing: bool) {
    && (Uncovered(policies, p, sets, passing) ==> decision == None)
    && forall policy :: FallsTo(policies, policy, p, sets, passing) ==> decision == Some(PolicyVerdict(policy, p, sets))
  }

  lemma {:induction false} FirstIsLeast(policies: seq<Policy>, q: Policy)
    requires policies != [] && Sorted(policies, PairOrder) && q in policies
    ensures PairOrder(policies[0], q)
  {
    TextOrder();
    var i :| 0 <= i < |policies| && policies[i] == q;
    if i > 0 { assert PairOrder(policies[0], policies[i]); }
  }

  lemma {:induction false} FallsFirst(policies: seq<Policy>, p: Packet, sets: Sets, passing: bool)
    requires policies != [] && (forall i, j :: 0 <= i < j < |policies| ==> policies[i].name != policies[j].name)
    requires Sorted(policies, PairOrder) && Between(policies[0], p, sets, passing)
    ensures Falls(Some(PolicyVerdict(policies[0], p, sets)), policies, p, sets, passing)
  {
    assert policies[0] in policies;
    forall policy | FallsTo(policies, policy, p, sets, passing) ensures policy == policies[0] {
      FirstIsLeast(policies, policy);
      PairsUntied(policies[0], policy);
    }
  }

  lemma {:induction false} PairsUntied(a: Policy, b: Policy)
    ensures PairOrder(a, b) && PairOrder(b, a) ==> a.name == b.name
  {
    TextOrder();
  }

  lemma {:induction false} PairsOrdered()
    ensures TotalPreorder(PairOrder)
  {
    TextOrder();
    forall a, b, c | PairOrder(a, b) && PairOrder(b, c) ensures PairOrder(a, c) {}
  }

  lemma {:induction false} FallsRest(decision: Option<Verdict>, policies: seq<Policy>, p: Packet, sets: Sets,
      passing: bool)
    requires policies != [] && !Between(policies[0], p, sets, passing)
        && Falls(decision, policies[1..], p, sets, passing)
    ensures Falls(decision, policies, p, sets, passing)
  {
    assert policies == [policies[0]] + policies[1..];
  }

  lemma {:induction false} InputFalls(policies: seq<Policy>, zones: set<string>, chains: map<string, seq<Rule>>,
      declared: map<string, Family>, p: Packet, sets: Sets)
    requires Sorted(policies, PairOrder)
    requires forall i, j :: 0 <= i < j < |policies| ==> policies[i].name != policies[j].name
    requires forall q :: q in policies ==> Placed(q, zones) && Readable(q, declared)
    requires HasChains(policies, chains, declared) && HoldsDeclared(sets, declared)
    ensures Falls(Decision(InputJumps(policies, zones), chains, p, sets), policies, p, sets, false)
  {
    if policies != [] {
      var q, rest := policies[0], InputJumps(policies[1..], zones);
      assert policies == [q] + policies[1..] && q in policies;
      InputFalls(policies[1..], zones, chains, declared, p, sets);
      if InputJump(q, zones) {
        AllHoldOne(FromZone(q.zoneFrom), p, sets);
        JumpDecides([FromZone(q.zoneFrom)], q, rest, chains, declared, p, sets);
      } else {
        assert InputJumps(policies, zones) == rest;
      }
      if Between(q, p, sets, false) { FallsFirst(policies, p, sets, false); }
      else { FallsRest(Decision(rest, chains, p, sets), policies, p, sets, false); }
    }
  }

  lemma {:induction false} ForwardFalls(policies: seq<Policy>, zones: set<string>, chains: map<string, seq<Rule>>,
      declared: map<string, Family>, p: Packet, sets: Sets)
    requires Sorted(policies, PairOrder)
    requires forall i, j :: 0 <= i < j < |policies| ==> policies[i].name != policies[j].name
    requires forall q :: q in policies ==> Placed(q, zones) && Readable(q, declared)
    requires HasChains(policies, chains, declared) && HoldsDeclared(sets, declared)
    ensures Falls(Decision(ForwardJumps(policies, zones), chains, p, sets), policies, p, sets, true)
  {
    if policies != [] {
      var q, rest := policies[0], ForwardJumps(policies[1..], zones);
      assert policies == [q] + policies[1..] && q in policies;
      ForwardFalls(policies[1..], zones, chains, declared, p, sets);
      if ForwardJump(q, zones) {
        TwoHold(FromZone(q.zoneFrom), ToZone(q.zoneTo), p, sets);
        JumpDecides([FromZone(q.zoneFrom), ToZone(q.zoneTo)], q, rest, chains, declared, p, sets);
      } else {
        assert ForwardJumps(policies, zones) == rest;
      }
      if Between(q, p, sets, true) { FallsFirst(policies, p, sets, true); }
      else { FallsRest(Decision(rest, chains, p, sets), policies, p, sets, true); }
    }
  }

  // ----- openings --------------------------------------------------------------------

  lemma {:induction false} AddressRuleMeans(f: PortForward, side: Side, p: Packet, sets: Sets)
    requires f.target.Some? && (f.protocol.name == "tcp" || f.protocol.name == "udp")
    ensures AllHold(AddressRule(f, side).matches, p, sets) <==>
              p.dnat && p.family == f.target.value.family && p.protocol == NumberOf(f.protocol)
              && AddressAt(p, side) == f.target.value.address && Within(TargetPorts(f), PortAt(p, side))
  {
    var t := f.target.value;
    var host := Cidr(t.family, t.address, Width(t.family));
    var a, b, c := Readdressed, OfFamily(t.family), AddressIs(side, t.family, [host]);
    var ports := PortMatch(Some(f.protocol), side, [TargetPorts(f)]);
    AllHoldJoin([a, b, c], ports, p, sets);
    assert AllHold([a, b, c], p, sets) <==> Holds(a, p, sets) && Holds(b, p, sets) && Holds(c, p, sets) by {
      assert a in [a, b, c] && b in [a, b, c] && c in [a, b, c];
    }
    assert CoveredBy([host], t.family, AddressAt(p, side)) <==> t.address == AddressAt(p, side) by {
      assert host in [host];
    }
    OptionalTests(ports, p, sets);
    assert InPorts([TargetPorts(f)], PortAt(p, side)) <==> Within(TargetPorts(f), PortAt(p, side)) by {
      assert TargetPorts(f) in [TargetPorts(f)];
    }
  }

  lemma {:induction false} OpeningMeans(f: PortForward, p: Packet, sets: Sets)
    requires f.protocol.name == "tcp" || f.protocol.name == "udp"
    ensures Any(Opening(f), p, sets) <==> LetsThrough(f, p)
    ensures forall r :: r in Opening(f) ==> r.action == Decide(Accept)
  {
    if f.opens && f.target.Some? {
      AddressRuleMeans(f, Destination, p, sets);
      AddressRuleMeans(f, Source, p, sets);
      assert AddressRule(f, Destination) in Opening(f) && AddressRule(f, Source) in Opening(f);
    }
  }

  lemma {:induction false} OpeningsMean(forwards: seq<PortForward>, p: Packet, sets: Sets)
    requires forall f :: f in forwards ==> f.protocol.name == "tcp" || f.protocol.name == "udp"
    ensures Any(Openings(forwards), p, sets) <==> exists f :: f in forwards && LetsThrough(f, p)
    ensures forall r :: r in Openings(forwards) ==> r.action == Decide(Accept)
  {
    if forwards != [] {
      assert forwards == [forwards[0]] + forwards[1..];
      OpeningMeans(forwards[0], p, sets);
      OpeningsMean(forwards[1..], p, sets);
    }
  }

  lemma {:induction false} AcceptedBy(rules: seq<Rule>, chains: map<string, seq<Rule>>, p: Packet, sets: Sets)
    requires forall r :: r in rules ==> r.action == Decide(Accept)
    ensures Decision(rules, chains, p, sets) == if Any(rules, p, sets) then Some(Accept) else None
  {
    if rules != [] {
      assert rules == [rules[0]] + rules[1..];
      AcceptedBy(rules[1..], chains, p, sets);
    }
  }

  // ----- the two hooks ---------------------------------------------------------------

  /** The verdict of a base chain whose policy is drop. */
  function VerdictOf(rules: seq<Rule>, chains: map<string, seq<Rule>>, p: Packet, sets: Sets): Verdict {
    var decision := Decision(rules, chains, p, sets);
    if decision.Some? then decision.value else Drop
  }

  lemma {:induction false} SortedPolicies(policies: seq<Policy>)
    requires forall i, j :: 0 <= i < j < |policies| ==> policies[i].name != policies[j].name
    ensures var s := Sort(policies, PairOrder);
            && Sorted(s, PairOrder) && (forall q :: q in s <==> q in policies)
            && forall i, j :: 0 <= i < j < |s| ==> s[i].name != s[j].name
  {
    PairsOrdered();
    SortSorted(policies, PairOrder);
    SortKeeps(policies, PairOrder);
    NamesStayDistinct(policies, Sort(policies, PairOrder));
  }

  lemma {:induction false} NamesStayDistinct(a: seq<Policy>, b: seq<Policy>)
    requires (forall i, j :: 0 <= i < j < |a| ==> a[i].name != a[j].name) && multiset(a) == multiset(b)
    ensures forall i, j :: 0 <= i < j < |b| ==> b[i].name != b[j].name
  {
    DistinctCounts(a);
    forall x ensures Once(b, x) { assert Once(a, x); }
    CountsDistinct(b);
    forall i, j | 0 <= i < j < |b| ensures b[i].name != b[j].name {
      assert b[i] in multiset(b) && b[j] in multiset(b);
    }
  }

  lemma {:induction false} LoopbackFirst(rest: seq<Rule>, chains: map<string, seq<Rule>>, p: Packet, sets: Sets)
    ensures Decision([LOOPBACK] + rest, chains, p, sets) ==
        if p.loopback then Some(Accept) else Decision(rest, chains, p, sets)
  {
    AllHoldOne(OnLoopback, p, sets);
    assert ([LOOPBACK] + rest)[1..] == rest;
  }

  lemma {:induction false} JumpsFall(policies: seq<Policy>, forwards: seq<PortForward>, zones: set<string>,
      declared: map<string, Family>, p: Packet, sets: Sets)
    requires Sound(policies, forwards, zones, declared) && HoldsDeclared(sets, declared)
    ensures var sorted := Sort(policies, PairOrder);
            var chains := ChainsOf(sorted, declared);
            && Falls(Decision(InputJumps(sorted, zones), chains, p, sets), policies, p, sets, false)
            && Falls(Decision(ForwardJumps(sorted, zones), chains, p, sets), policies, p, sets, true)
  {
    var sorted := Sort(policies, PairOrder);
    var chains := ChainsOf(sorted, declared);
    SortedPolicies(policies);
    ChainsFound(sorted, declared);
    InputFalls(sorted, zones, chains, declared, p, sets);
    ForwardFalls(sorted, zones, chains, declared, p, sets);
  }

  /** A packet addressed to the host: loopback is accepted; any other gets the verdict of the
      policy it falls to, and is dropped when it falls to none. */
  lemma {:induction false} InputMeans(policies: seq<Policy>, forwards: seq<PortForward>, zones: set<string>,
      declared: map<string, Family>, p: Packet, sets: Sets)
    requires policies != [] && Sound(policies, forwards, zones, declared) && HoldsDeclared(sets, declared)
    ensures var filter := FilterOf(policies, forwards, zones, declared).value;
            var verdict := VerdictOf(filter.input, filter.chains, p, sets);
            && (p.loopback ==> verdict == Accept)
            && (!p.loopback && Uncovered(policies, p, sets, false) ==> verdict == Drop)
            && forall policy :: !p.loopback && FallsTo(policies, policy, p, sets, false) ==>
                  verdict == PolicyVerdict(policy, p, sets)
  {
    var sorted := Sort(policies, PairOrder);
    JumpsFall(policies, forwards, zones, declared, p, sets);
    LoopbackFirst(InputJumps(sorted, zones), ChainsOf(sorted, declared), p, sets);
  }

  /** A packet passing through: what a forward lets through is accepted; any other gets the
      verdict of the policy it falls to, and is dropped when it falls to none. */
  lemma {:induction false} ForwardMeans(policies: seq<Policy>, forwards: seq<PortForward>, zones: set<string>,
      declared: map<string, Family>, p: Packet, sets: Sets)
    requires policies != [] && Sound(policies, forwards, zones, declared) && HoldsDeclared(sets, declared)
    ensures var filter := FilterOf(policies, forwards, zones, declared).value;
            var verdict := VerdictOf(filter.forward, filter.chains, p, sets);
            var open := exists f :: f in forwards && LetsThrough(f, p);
            && (open ==> verdict == Accept)
            && (!open && Uncovered(policies, p, sets, true) ==> verdict == Drop)
            && forall policy :: !open && FallsTo(policies, policy, p, sets, true) ==>
                  verdict == PolicyVerdict(policy, p, sets)
  {
    var sorted, openings := Sort(policies, PairOrder), Openings(Sort(forwards, ByName));
    var chains := ChainsOf(sorted, declared);
    JumpsFall(policies, forwards, zones, declared, p, sets);
    SortKeeps(forwards, ByName);
    OpeningsMean(Sort(forwards, ByName), p, sets);
    AcceptedBy(openings, chains, p, sets);
    DecisionJoin(openings, ForwardJumps(sorted, zones), chains, p, sets);
  }
}
