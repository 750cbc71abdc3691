/** Packets, the matches nftables tests them with, and what a list of rules decides. */
module Packets {
  import opened Host
  import opened Families
  import opened Powers

  // ----- packets ---------------------------------------------------------------------

  datatype ConnState = New | Established | Related | Invalid | Untracked

  /** A packet at a hook, with what connection tracking knows of its connection. */
  datatype Packet = Packet(
    family: Family, source: nat, destination: nat, protocol: nat, sport: nat, dport: nat,
    iif: string, oif: string, loopback: bool,
    state: ConnState, dnat: bool, reply: bool, connMark: nat)

  datatype Side = Source | Destination

  function AddressAt(p: Packet, side: Side): nat { if side == Source then p.source else p.destination }

  function PortAt(p: Packet, side: Side): nat { if side == Source then p.sport else p.dport }

  datatype Cidr = Cidr(family: Family, address: nat, bits: nat)

  predicate Covers(c: Cidr, family: Family, address: nat) {
    && c.family == family && c.bits <= Width(family)
    && c.address / Pow2(Width(family) - c.bits) == address / Pow2(Width(family) - c.bits)
  }

  predicate CoveredBy(cidrs: seq<Cidr>, family: Family, address: nat) {
    exists c :: c in cidrs && Covers(c, family, address)
  }

  predicate CidrOrder(a: Cidr, b: Cidr) {
    || Rank(a.family) < Rank(b.family)
    || (a.family == b.family && (a.address < b.address || (a.address == b.address && a.bits <= b.bits)))
  }

  /** Addresses written as a prefix or as a first and a last one. */
  datatype Range = Range(family: Family, first: nat, last: nat)

  predicate InRanges(ranges: seq<Range>, family: Family, address: nat) {
    exists r :: r in ranges && r.family == family && r.first <= address <= r.last
  }

  datatype PortSpec = PortSpec(first: nat, last: nat)

  predicate InPorts(ports: seq<PortSpec>, port: nat) { exists s :: s in ports && s.first <= port <= s.last }

  const TCP := 6
  const UDP := 17

  // ----- what the sets of the table hold ---------------------------------------------

  datatype AddressSet = AddressSet(family: Family, contents: seq<Cidr>)

  datatype UplinkSet = UplinkSet(link: string, family: Family)

  datatype Sets = Sets(addresses: map<string, AddressSet>, zones: map<string, set<string>>,
      uplinks: map<UplinkSet, set<nat>>)

  // ----- rules -----------------------------------------------------------------------

  datatype Match =
    | OfFamily(family: Family)
    | OfProtocol(protocols: set<nat>)
    | AddressIs(side: Side, family: Family, cidrs: seq<Cidr>)
    | AddressInSet(side: Side, family: Family, name: string)
    | AddressInUplink(family: Family, link: string)
    | SourceInRanges(family: Family, ranges: seq<Range>)
    | DestinationNotIn(family: Family, cidrs: seq<Cidr>)
    | PortIs(side: Side, header: Option<nat>, ports: seq<PortSpec>)
    | FromLink(link: string)
    | NotFromLink(link: string)
    | FromZone(zone: string)
    | ToZone(zone: string)
    | OnLoopback
    | InState(states: set<ConnState>)
    | Readdressed
    | IsReply
    | ConnMarked

  /** A match that reads a field of one family's header holds of that family alone. */
  predicate Holds(m: Match, p: Packet, sets: Sets) {
    match m
    case OfFamily(f) => p.family == f
    case OfProtocol(protocols) => p.protocol in protocols
    case AddressIs(side, f, cidrs) => p.family == f && CoveredBy(cidrs, f, AddressAt(p, side))
    case AddressInSet(side, f, name) =>
      p.family == f && name in sets.addresses && CoveredBy(sets.addresses[name].contents, f, AddressAt(p, side))
    case AddressInUplink(f, link) =>
      p.family == f && UplinkSet(link, f) in sets.uplinks && p.destination in sets.uplinks[UplinkSet(link, f)]
    case SourceInRanges(f, ranges) => p.family == f && InRanges(ranges, f, p.source)
    case DestinationNotIn(f, cidrs) => p.family == f && !CoveredBy(cidrs, f, p.destination)
    case PortIs(side, header, ports) => (header.Some? ==> p.protocol == header.value) && InPorts(ports, PortAt(p, side))
    case FromLink(link) => p.iif == link
    case NotFromLink(link) => p.iif != link
    case FromZone(zone) => zone in sets.zones && p.iif in sets.zones[zone]
    case ToZone(zone) => zone in sets.zones && p.oif in sets.zones[zone]
    case OnLoopback => p.loopback
    case InState(states) => p.state in states
    case Readdressed => p.dnat
    case IsReply => p.reply
    case ConnMarked => p.connMark != 0
  }

  predicate AllHold(ms: seq<Match>, p: Packet, sets: Sets) { forall m :: m in ms ==> Holds(m, p, sets) }

  lemma {:induction false} AllHoldJoin(a: seq<Match>, b: seq<Match>, p: Packet, sets: Sets)
    ensures AllHold(a + b, p, sets) <==> AllHold(a, p, sets) && AllHold(b, p, sets)
  {
    if AllHold(a + b, p, sets) {
      forall m | m in a ensures Holds(m, p, sets) { assert m in a + b; }
      forall m | m in b ensures Holds(m, p, sets) { assert m in a + b; }
    }
  }

  lemma {:induction false} AllHoldOne(m: Match, p: Packet, sets: Sets)
    ensures AllHold([m], p, sets) <==> Holds(m, p, sets)
  {
    assert m in [m];
  }

  datatype Verdict = Accept | Drop | Reject

  datatype Action = Decide(verdict: Verdict) | Jump(chain: string)

  datatype Rule = Rule(matches: seq<Match>, action: Action)

  /** What the rules of a chain without jumps decide: the first that holds wins. */
  function First(rules: seq<Rule>, p: Packet, sets: Sets): Option<Verdict> {
    if rules == [] then None
    else if rules[0].action.Decide? && AllHold(rules[0].matches, p, sets) then Some(rules[0].action.verdict)
    else First(rules[1..], p, sets)
  }

  /** What a base chain decides, with the chains it jumps to. */
  function Decision(rules: seq<Rule>, chains: map<string, seq<Rule>>, p: Packet, sets: Sets): Option<Verdict> {
    if rules == [] then None
    else
      var here :=
        if !AllHold(rules[0].matches, p, sets) then None
        else match rules[0].action
             case Decide(v) => Some(v)
             case Jump(chain) => if chain in chains then First(chains[chain], p, sets) else None;
      if here.Some? then here else Decision(rules[1..], chains, p, sets)
  }

  lemma {:induction false} FirstJoin(a: seq<Rule>, b: seq<Rule>, p: Packet, sets: Sets)
    ensures First(a + b, p, sets) == if First(a, p, sets).Some? then First(a, p, sets) else First(b, p, sets)
  {
    if a == [] {
      assert a + b == b;
    } else {
      assert (a + b)[1..] == a[1..] + b;
      FirstJoin(a[1..], b, p, sets);
    }
  }

  lemma {:induction false} DecisionJoin(a: seq<Rule>, b: seq<Rule>, chains: map<string, seq<Rule>>, p: Packet,
      sets: Sets)
    ensures Decision(a + b, chains, p, sets) ==
              if Decision(a, chains, p, sets).Some? then Decision(a, chains, p, sets) else Decision(b, chains, p, sets)
  {
    if a == [] {
      assert a + b == b;
    } else {
      assert (a + b)[1..] == a[1..] + b;
      DecisionJoin(a[1..], b, chains, p, sets);
    }
  }

  predicate Any(rules: seq<Rule>, p: Packet, sets: Sets) { exists r :: r in rules && AllHold(r.matches, p, sets) }

  /** Rules that all decide the same decide it when any one of them holds. */
  lemma {:induction false} FirstOfAlike(rules: seq<Rule>, v: Verdict, p: Packet, sets: Sets)
    requires forall r :: r in rules ==> r.action == Decide(v)
    ensures First(rules, p, sets) == if Any(rules, p, sets) then Some(v) else None
  {
    if rules != [] {
      assert rules == [rules[0]] + rules[1..];
      FirstOfAlike(rules[1..], v, p, sets);
    }
  }
}
