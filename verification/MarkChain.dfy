/** Which uplink a packet leaves by: the chain that marks packets and connections, the routing
    tables the marks select, and that a forward's replies go back the way they came. */
module MarkChain {
  import opened Orders
  import opened Host
  import opened Families
  import opened Packets
  import opened PolicyChains
  import opened PortForwards
  import Allocation
  import NumberFacts

  /** An egress policy: what its numbers are derived from, and what it selects. */
  datatype Egress = Egress(
    numbering: Allocation.Policy, uplink: string, ranges: seq<Range>, sets: seq<string>, exclusions: seq<Cidr>)

  datatype MarkAction = RestoreMark | SaveMark(mark: nat) | SetMark(mark: nat)

  datatype MarkRule = MarkRule(matches: seq<Match>, action: MarkAction)

  // ----- the chain -------------------------------------------------------------------

  predicate EgressOrder(a: Egress, b: Egress) { Allocation.PolicyOrder(a.numbering, b.numbering) }

  predicate RangeOrder(a: Range, b: Range) { a.first < b.first || (a.first == b.first && a.last <= b.last) }

  function RangesOf(f: Family, ranges: seq<Range>): seq<Range> {
    if ranges == [] then [] else (if ranges[0].family == f then [ranges[0]] else []) + RangesOf(f, ranges[1..])
  }

  function SetSources(f: Family, refs: seq<string>): seq<Match> {
    if refs == [] then [] else [AddressInSet(Source, f, refs[0])] + SetSources(f, refs[1..])
  }

  function SourceAlternatives(f: Family, ranges: seq<Range>, refs: seq<string>): seq<Match> {
    var values := RangesOf(f, Sort(ranges, RangeOrder));
    (if values == [] then [] else [SourceInRanges(f, values)]) + SetSources(f, refs)
  }

  function Exclusion(f: Family, exclusions: seq<Cidr>): seq<Match> {
    if PrefixValues(f, exclusions) == [] then [] else [DestinationNotIn(f, PrefixValues(f, exclusions))]
  }

  function EgressRulesFrom(sources: seq<Match>, exclusion: seq<Match>, mark: nat): seq<MarkRule> {
    if sources == [] then []
    else [MarkRule([sources[0]] + exclusion, SetMark(mark))] + EgressRulesFrom(sources[1..], exclusion, mark)
  }

  function EgressRules(e: Egress, mark: nat): seq<MarkRule> {
    var f := e.numbering.family;
    EgressRulesFrom(SourceAlternatives(f, e.ranges, e.sets), Exclusion(f, e.exclusions), mark)
  }

  function EgressAll(policies: seq<Egress>, routing: map<string, Allocation.Numbers>): seq<MarkRule> {
    if policies == [] then []
    else (if policies[0].numbering.name in routing
          then EgressRules(policies[0], routing[policies[0].numbering.name].mark) else [])
         + EgressAll(policies[1..], routing)
  }

  const RESTORE := MarkRule([IsReply, ConnMarked], RestoreMark)

  function SaveRule(r: Allocation.ForwardReturn, link: string): MarkRule {
    MarkRule([FromLink(link), OfFamily(r.key.family), InState({New}), Readdressed], SaveMark(r.mark))
  }

  function SaveRules(returns_: seq<Allocation.ForwardReturn>, links: Links): seq<MarkRule> {
    if returns_ == [] then []
    else (if LinkName(links, returns_[0].key.uplink).Some?
          then [SaveRule(returns_[0], LinkName(links, returns_[0].key.uplink).value)] else [])
         + SaveRules(returns_[1..], links)
  }

  function ReturnRules(returns_: seq<Allocation.ForwardReturn>, links: Links): seq<MarkRule> {
    if returns_ == [] then [] else [RESTORE] + SaveRules(returns_, links)
  }

  function MarkRules(policies: seq<Egress>, derived: Allocation.Derived, links: Links): seq<MarkRule> {
    ReturnRules(derived.returns_, links) + EgressAll(Sort(policies, EgressOrder), derived.policies)
  }

  class MarkRenderer {
    const links: Links
    var problems: seq<Problem>

    constructor (links: Links)
      ensures this.links == links && problems == []
    {
      this.links, problems := links, [];
    }

    /** The rule that restores a connection's mark on its replies, then those that save it. */
    method ForwardReturnRules(returns_: seq<Allocation.ForwardReturn>) returns (rules: seq<MarkRule>)
      modifies this
      ensures rules == ReturnRules(returns_, links)
      ensures problems == old(problems) <==> forall r :: r in returns_ ==> LinkName(links, r.key.uplink).Some?
    {
      if returns_ == [] { return []; }
      rules := [RESTORE];
      for i := 0 to |returns_|
        invariant rules + SaveRules(returns_[i..], links) == [RESTORE] + SaveRules(returns_, links)
        invariant |problems| >= |old(problems)|
        invariant problems == old(problems) <==>
            forall k :: 0 <= k < i ==> LinkName(links, returns_[k].key.uplink).Some?
        invariant problems != old(problems) ==> |problems| > |old(problems)|
      {
        assert returns_[i..][0] == returns_[i] && returns_[i..][1..] == returns_[i + 1..];
        var link := LinkName(links, returns_[i].key.uplink);
        if link.None? {
          problems := problems + [NoLink("PortForward", returns_[i].key.uplink)];
        } else {
          rules := rules + [SaveRule(returns_[i], link.value)];
        }
      }
    }

    /** The rules of a policy mark every packet it selects, and do nothing to any other. */
    method EgressChain(e: Egress, mark: nat) returns (rules: seq<MarkRule>)
      ensures rules == EgressRules(e, mark)
      ensures forall p, was, sets ::
                Marked(rules, p, was, sets) == Marks(if Selects(e, p, sets) then mark else was, p.connMark)
    {
      var f := e.numbering.family;
      rules := OnePerSource(SourceAlternatives(f, e.ranges, e.sets), Exclusion(f, e.exclusions), mark);
      forall p, was, sets
        ensures Marked(rules, p, was, sets) == Marks(if Selects(e, p, sets) then mark else was, p.connMark)
      {
        EgressMeans(e, mark, [], p, was, sets);
        assert rules + [] == rules;
      }
    }

    method OnePerSource(sources: seq<Match>, exclusion: seq<Match>, mark: nat) returns (rules: seq<MarkRule>)
      ensures rules == EgressRulesFrom(sources, exclusion, mark)
    {
      rules := [];
      for i := 0 to |sources|
        invariant rules + EgressRulesFrom(sources[i..], exclusion, mark) == EgressRulesFrom(sources, exclusion, mark)
      {
        assert sources[i..][0] == sources[i] && sources[i..][1..] == sources[i + 1..];
        rules := rules + [MarkRule([sources[i]] + exclusion, SetMark(mark))];
      }
    }

    method EgressChains(sorted: seq<Egress>, routing: map<string, Allocation.Numbers>) returns (rules: seq<MarkRule>)
      modifies this
      ensures rules == EgressAll(sorted, routing)
    {
      rules := [];
      for i := 0 to |sorted|
        invariant rules + EgressAll(sorted[i..], routing) == EgressAll(sorted, routing)
      {
        var name := sorted[i].numbering.name;
        assert sorted[i..][0] == sorted[i] && sorted[i..][1..] == sorted[i + 1..];
        if name !in routing {
          problems := problems + [NoMark(name)];
        } else {
          ghost var before := rules;
          var more := EgressChain(sorted[i], routing[name].mark);
          rules := rules + more;
          Regrouped(before, more, EgressAll(sorted[i + 1..], routing));
        }
      }
    }

    method Chain(policies: seq<Egress>, derived: Allocation.Derived) returns (rules: seq<MarkRule>)
      modifies this
      ensures rules == MarkRules(policies, derived, links)
    {
      var returning := ForwardReturnRules(derived.returns_);
      var leaving := EgressChains(Sort(policies, EgressOrder), derived.policies);
      rules := returning + leaving;
    }
  }

  // ----- what the chain does to a packet ---------------------------------------------

  /** The mark of a packet and of its connection once the chain is through with it. */
  datatype Marks = Marks(packet: nat, conn: nat)

  function Marked(rules: seq<MarkRule>, p: Packet, mark: nat, sets: Sets): Marks
    decreases |rules|
  {
    if rules == [] then Marks(mark, p.connMark)
    else if !AllHold(rules[0].matches, p, sets) then Marked(rules[1..], p, mark, sets)
    else match rules[0].action
         case RestoreMark => Marks(p.connMark, p.connMark)
         case SaveMark(m) => Marked(rules[1..], p.(connMark := m), mark, sets)
         case SetMark(m) => Marks(m, p.connMark)
  }

  // ----- the egress policies ---------------------------------------------------------

  /** What a policy selects. */
  predicate Selects(e: Egress, p: Packet, sets: Sets) {
    && p.family == e.numbering.family
    && (InRanges(e.ranges, p.family, p.source)
        || exists ref :: ref in e.sets && ref in sets.addresses
            && CoveredBy(sets.addresses[ref].contents, p.family, p.source))
    && !CoveredBy(e.exclusions, p.family, p.destination)
  }

  predicate AnySource(sources: seq<Match>, p: Packet, sets: Sets) { exists m :: m in sources && Holds(m, p, sets) }

  lemma {:induction false} RangesMembers(f: Family, ranges: seq<Range>)
    ensures forall r :: r in RangesOf(f, ranges) <==> r in ranges && r.family == f
  {
    if ranges != [] {
      RangesMembers(f, ranges[1..]);
      assert ranges == [ranges[0]] + ranges[1..];
    }
  }

  lemma {:induction false} SetSourcesMean(f: Family, refs: seq<string>, p: Packet, sets: Sets)
    ensures AnySource(SetSources(f, refs), p, sets) <==>
              p.family == f
              && (exists ref :: ref in refs && ref in sets.addresses
                    && CoveredBy(sets.addresses[ref].contents, p.family, p.source))
  {
    if refs != [] {
      assert refs == [refs[0]] + refs[1..];
      SetSourcesMean(f, refs[1..], p, sets);
      OneSource(AddressInSet(Source, f, refs[0]), p, sets);
    }
  }

  lemma {:induction false} OneSource(m: Match, p: Packet, sets: Sets)
    ensures AnySource([m], p, sets) <==> Holds(m, p, sets)
  {
    assert m in [m];
  }

  lemma {:induction false} SourcesMean(f: Family, ranges: seq<Range>, refs: seq<string>, p: Packet, sets: Sets)
    ensures AnySource(SourceAlternatives(f, ranges, refs), p, sets) <==>
              p.family == f && (InRanges(ranges, f, p.source)
                || exists ref :: ref in refs && ref in sets.addresses
                    && CoveredBy(sets.addresses[ref].contents, f, p.source))
  {
    var values := RangesOf(f, Sort(ranges, RangeOrder));
    SortKeeps(ranges, RangeOrder);
    RangesMembers(f, Sort(ranges, RangeOrder));
    assert InRanges(values, f, p.source) <==> InRanges(ranges, f, p.source);
    var first: seq<Match> := if values == [] then [] else [SourceInRanges(f, values)];
    OneSource(SourceInRanges(f, values), p, sets);
    SetSourcesMean(f, refs, p, sets);
  }

  lemma {:induction false} ExclusionMeans(f: Family, exclusions: seq<Cidr>, p: Packet, sets: Sets)
    requires p.family == f
    ensures AllHold(Exclusion(f, exclusions), p, sets) <==> !CoveredBy(exclusions, f, p.destination)
  {
    OneFamilyMembers(exclusions, f);
    OptionalTests(Exclusion(f, exclusions), p, sets);
    assert CoveredBy(PrefixValues(f, exclusions), f, p.destination) <==> CoveredBy(exclusions, f, p.destination);
  }

  lemma {:induction false} FromSources(sources: seq<Match>, exclusion: seq<Match>, mark: nat, rest: seq<MarkRule>,
      p: Packet, was: nat, sets: Sets)
    ensures Marked(EgressRulesFrom(sources, exclusion, mark) + rest, p, was, sets) ==
              if AnySource(sources, p, sets) && AllHold(exclusion, p, sets) then Marks(mark, p.connMark)
              else Marked(rest, p, was, sets)
  {
    if sources == [] {
      assert EgressRulesFrom(sources, exclusion, mark) + rest == rest;
    } else {
      var head := MarkRule([sources[0]] + exclusion, SetMark(mark));
      var more := EgressRulesFrom(sources[1..], exclusion, mark) + rest;
      assert sources == [sources[0]] + sources[1..];
      assert EgressRulesFrom(sources, exclusion, mark) + rest == [head] + more;
      assert ([head] + more)[1..] == more;
      FromSources(sources[1..], exclusion, mark, rest, p, was, sets);
      AllHoldJoin([sources[0]], exclusion, p, sets);
      AllHoldOne(sources[0], p, sets);
      OneSource(sources[0], p, sets);
    }
  }

  lemma {:induction false} EgressMeans(e: Egress, mark: nat, rest: seq<MarkRule>, p: Packet, was: nat, sets: Sets)
    ensures Marked(EgressRules(e, mark) + rest, p, was, sets) ==
              if Selects(e, p, sets) then Marks(mark, p.connMark) else Marked(rest, p, was, sets)
  {
    var f := e.numbering.family;
    SourcesMean(f, e.ranges, e.sets, p, sets);
    if p.family == f { ExclusionMeans(f, e.exclusions, p, sets); }
    FromSources(SourceAlternatives(f, e.ranges, e.sets), Exclusion(f, e.exclusions), mark, rest, p, was, sets);
  }

  /** The first policy that selects a packet, in the order they are given. */
  function Selected(policies: seq<Egress>, p: Packet, sets: Sets): Option<Egress> {
    if policies == [] then None
    else if Selects(policies[0], p, sets) then Some(policies[0])
    else Selected(policies[1..], p, sets)
  }

  ghost predicate Numbered(policies: seq<Egress>, routing: map<string, Allocation.Numbers>) {
    forall e :: e in policies ==> e.numbering.name in routing
  }

  /** The policies mark a packet for the first of them that selects it, and no connection. */
  lemma {:induction false} PoliciesMark(policies: seq<Egress>, routing: map<string, Allocation.Numbers>, p: Packet,
      was: nat, sets: Sets)
    requires Numbered(policies, routing)
    ensures var e := Selected(policies, p, sets);
            && (e.Some? ==> e.value in policies)
            && Marked(EgressAll(policies, routing), p, was, sets) ==
                 Marks(if e.Some? then routing[e.value.numbering.name].mark else was, p.connMark)
  {
    if policies != [] {
      assert policies == [policies[0]] + policies[1..];
      PoliciesMark(policies[1..], routing, p, was, sets);
      EgressMeans(policies[0], routing[policies[0].numbering.name].mark, EgressAll(policies[1..], routing), p, was,
          sets);
    }
  }

  // ----- returns ---------------------------------------------------------------------

  ghost predicate AllLinked(returns_: seq<Allocation.ForwardReturn>, links: Links) {
    Unshadowed(links) && forall r :: r in returns_ ==> r.key.uplink in links.uplinks
  }

  lemma {:induction false} SaveHolds(r: Allocation.ForwardReturn, link: string, p: Packet, sets: Sets)
    ensures AllHold(SaveRule(r, link).matches, p, sets) <==>
        p.iif == link && p.family == r.key.family && p.state == New && p.dnat
  {
    var a, b, c, d := FromLink(link), OfFamily(r.key.family), InState({New}), Readdressed;
    assert a in [a, b, c, d] && b in [a, b, c, d] && c in [a, b, c, d] && d in [a, b, c, d];
  }

  /** The connection's mark after the saving rules, for what they are followed by. */
  lemma {:induction false} Saving(returns_: seq<Allocation.ForwardReturn>, links: Links, rest: seq<MarkRule>, p: Packet,
      was: nat, sets: Sets)
    requires AllLinked(returns_, links)
    requires forall i, j :: 0 <= i < j < |returns_| ==> returns_[i].key != returns_[j].key
    ensures !(p.state == New && p.dnat)
            || (forall r :: r in returns_ ==> r.key != Allocation.ReturnKey(p.iif, p.family)) ==>
              Marked(SaveRules(returns_, links) + rest, p, was, sets) == Marked(rest, p, was, sets)
    ensures forall r :: r in returns_ && r.key == Allocation.ReturnKey(p.iif, p.family) && p.state == New && p.dnat ==>
              Marked(SaveRules(returns_, links) + rest, p, was, sets) == Marked(rest, p.(connMark := r.mark), was, sets)
  {
    if returns_ == [] {
      assert SaveRules(returns_, links) + rest == rest;
    } else {
      var r := returns_[0];
      assert returns_ == [r] + returns_[1..] && r in returns_;
      var head, more := SaveRule(r, r.key.uplink), SaveRules(returns_[1..], links) + rest;
      assert SaveRules(returns_, links) + rest == [head] + more && ([head] + more)[1..] == more;
      SaveHolds(r, r.key.uplink, p, sets);
      Saving(returns_[1..], links, rest, p, was, sets);
      Saving(returns_[1..], links, rest, p.(connMark := r.mark), was, sets);
      forall s | s in returns_[1..] ensures s.key != r.key {
        var j :| 0 <= j < |returns_[1..]| && returns_[1..][j] == s;
        assert returns_[j + 1] == s;
      }
    }
  }

  lemma {:induction false} ChainOnPacket(policies: seq<Egress>, derived: Allocation.Derived, links: Links, p: Packet,
      sets: Sets)
    requires AllLinked(derived.returns_, links) && derived.returns_ != []
    requires forall i, j :: 0 <= i < j < |derived.returns_| ==> derived.returns_[i].key != derived.returns_[j].key
    ensures Marked(MarkRules(policies, derived, links), p, 0, sets) ==
              if p.reply && p.connMark != 0 then Marks(p.connMark, p.connMark)
              else Marked(SaveRules(derived.returns_, links)
                          + EgressAll(Sort(policies, EgressOrder), derived.policies), p, 0, sets)
  {
    var rest := SaveRules(derived.returns_, links) + EgressAll(Sort(policies, EgressOrder), derived.policies);
    assert MarkRules(policies, derived, links) == [RESTORE] + rest;
    assert ([RESTORE] + rest)[1..] == rest;
    assert AllHold(RESTORE.matches, p, sets) <==> p.reply && p.connMark != 0 by {
      assert IsReply in RESTORE.matches && ConnMarked in RESTORE.matches;
    }
  }

  // ----- a connection ----------------------------------------------------------------

  /** The packets of one connection a forward readdressed as it arrived on an uplink: the
      first is its opening packet, and while it is new nothing of its original direction
      arrives on another link. */
  ghost predicate Arrived(packets: seq<Packet>, uplink: string, family: Family) {
    && packets != [] && !packets[0].reply && packets[0].state == New
    && forall i :: 0 <= i < |packets| ==>
         packets[i].family == family && packets[i].dnat
         && (!packets[i].reply && packets[i].state == New ==> packets[i].iif == uplink)
  }

  /** What each packet is marked, and the connection's mark carried from one to the next. */
  ghost predicate Through(rules: seq<MarkRule>, packets: seq<Packet>, marks: seq<nat>, conn: seq<nat>,
      sets: seq<Sets>) {
    && |marks| == |packets| == |sets| && |conn| == |packets| + 1 && conn[0] == 0
    && forall i :: 0 <= i < |packets| ==>
         Marked(rules, packets[i].(connMark := conn[i]), 0, sets[i]) == Marks(marks[i], conn[i + 1])
  }

  ghost predicate AcceptedNumbers(policies: seq<Egress>, numbering: seq<Allocation.Policy>,
      forwards: seq<Allocation.Forward>) {
    && (forall e :: e in policies ==> e.numbering in numbering)
    && NumberFacts.DistinctNames(numbering) && Allocation.Pins(numbering, 0, Allocation.NO_PINS).problems == []
    && Allocation.FIRST_MARK + 2 * |numbering| + |forwards| <= Allocation.MARKS
  }

  /** No mark, or that of an egress among the policies. */
  ghost predicate EgressOrNone(mark: nat, policies: seq<Egress>, derived: Allocation.Derived) {
    mark == 0
    || exists e :: e in policies && e.numbering.name in derived.policies
         && mark == derived.policies[e.numbering.name].mark
  }

  /** One packet of such a connection. */
  lemma {:induction false} OnePacket(policies: seq<Egress>, derived: Allocation.Derived, links: Links, p: Packet,
      uplink: string, r: Allocation.ForwardReturn, sets: Sets)
    requires AllLinked(derived.returns_, links) && NumberFacts.AllDistinct(derived)
        && Numbered(policies, derived.policies)
    requires r in derived.returns_ && r.key == Allocation.ReturnKey(uplink, p.family) && p.dnat
    requires p.connMark == r.mark || (!p.reply && p.state == New && p.connMark == 0)
    requires !p.reply && p.state == New ==> p.iif == uplink
    ensures var m := Marked(MarkRules(policies, derived, links), p, 0, sets);
            && m.conn == r.mark
            && (p.reply ==> m.packet == r.mark)
            && (!p.reply ==> EgressOrNone(m.packet, policies, derived))
  {
    var k :| 0 <= k < |derived.returns_| && derived.returns_[k] == r;
    assert r.mark != 0;
    ChainOnPacket(policies, derived, links, p, sets);
    if !p.reply {
      var sorted := Sort(policies, EgressOrder);
      var rest := EgressAll(sorted, derived.policies);
      Saving(derived.returns_, links, rest, p, 0, sets);
      SortKeeps(policies, EgressOrder);
      PoliciesMark(sorted, derived.policies, p, 0, sets);
      PoliciesMark(sorted, derived.policies, p.(connMark := r.mark), 0, sets);
    }
  }

  lemma {:induction false} WholeConnection(policies: seq<Egress>, derived: Allocation.Derived, links: Links,
      packets: seq<Packet>, marks: seq<nat>, conn: seq<nat>, sets: seq<Sets>,
      uplink: string, r: Allocation.ForwardReturn, family: Family, i: nat)
    requires AllLinked(derived.returns_, links) && NumberFacts.AllDistinct(derived)
        && Numbered(policies, derived.policies)
    requires r in derived.returns_ && r.key == Allocation.ReturnKey(uplink, family) && Arrived(packets, uplink, family)
    requires Through(MarkRules(policies, derived, links), packets, marks, conn, sets) && i < |packets|
    ensures conn[i + 1] == r.mark
    ensures packets[i].reply ==> marks[i] == r.mark
    ensures !packets[i].reply ==> EgressOrNone(marks[i], policies, derived)
  {
    if i > 0 { WholeConnection(policies, derived, links, packets, marks, conn, sets, uplink, r, family, i - 1); }
    OnePacket(policies, derived, links, packets[i].(connMark := conn[i]), uplink, r, sets[i]);
  }

  // ----- the tables the marks select -------------------------------------------------

  /** A default route in a table, on one link, and the rule by which a mark selects the table. */
  datatype Section = Section(link: string, family: Family, table: int, mark: nat)

  function PolicySection(e: Egress, routing: map<string, Allocation.Numbers>): Section
    requires e.numbering.name in routing
  {
    var numbers := routing[e.numbering.name];
    Section(e.uplink, e.numbering.family, numbers.table, numbers.mark)
  }

  function PolicySections(uplink: string, policies: seq<Egress>,
      routing: map<string, Allocation.Numbers>): seq<Section> {
    if policies == [] then []
    else if policies[0].uplink == uplink && policies[0].numbering.name in routing
    then [PolicySection(policies[0], routing)] + PolicySections(uplink, policies[1..], routing)
    else PolicySections(uplink, policies[1..], routing)
  }

  function ReturnSections(uplink: string, returns_: seq<Allocation.ForwardReturn>): seq<Section> {
    if returns_ == [] then []
    else (if returns_[0].key.uplink == uplink
          then [Section(uplink, returns_[0].key.family, returns_[0].table, returns_[0].mark)] else [])
         + ReturnSections(uplink, returns_[1..])
  }

  function Sections(uplinks: seq<string>, policies: seq<Egress>, derived: Allocation.Derived): seq<Section> {
    if uplinks == [] then []
    else PolicySections(uplinks[0], policies, derived.policies) + ReturnSections(uplinks[0], derived.returns_)
         + Sections(uplinks[1..], policies, derived)
  }

  method RenderPolicyRouting(uplink: string, policies: seq<Egress>, routing: map<string, Allocation.Numbers>)
      returns (sections: seq<Section>)
    ensures sections == PolicySections(uplink, policies, routing)
  {
    sections := [];
    for i := 0 to |policies|
      invariant sections + PolicySections(uplink, policies[i..], routing) == PolicySections(uplink, policies, routing)
    {
      assert policies[i..][0] == policies[i] && policies[i..][1..] == policies[i + 1..];
      var e := policies[i];
      if e.uplink == uplink && e.numbering.name in routing {
        Regrouped(sections, [PolicySection(e, routing)], PolicySections(uplink, policies[i + 1..], routing));
        sections := sections + [PolicySection(e, routing)];
      }
    }
  }

  method RenderForwardReturnRouting(uplink: string, returns_: seq<Allocation.ForwardReturn>)
      returns (sections: seq<Section>)
    ensures sections == ReturnSections(uplink, returns_)
  {
    sections := [];
    for i := 0 to |returns_|
      invariant sections + ReturnSections(uplink, returns_[i..]) == ReturnSections(uplink, returns_)
    {
      assert returns_[i..][0] == returns_[i] && returns_[i..][1..] == returns_[i + 1..];
      var r := returns_[i];
      if r.key.uplink == uplink { sections := sections + [Section(uplink, r.key.family, r.table, r.mark)]; }
    }
  }

  /** A section is a policy's, with its egress for the link, or a return's. */
  ghost predicate OfPolicy(s: Section, policies: seq<Egress>, derived: Allocation.Derived) {
    exists e :: e in policies && e.numbering.name in derived.policies
      && s == PolicySection(e, derived.policies)
  }

  ghost predicate OfReturn(s: Section, derived: Allocation.Derived) {
    exists r :: r in derived.returns_ && s == Section(r.key.uplink, r.key.family, r.table, r.mark)
  }

  lemma {:induction false} PolicySectionsAre(uplink: string, policies: seq<Egress>, derived: Allocation.Derived)
    ensures forall s :: s in PolicySections(uplink, policies, derived.policies) ==> OfPolicy(s, policies, derived)
  {
    if policies != [] {
      assert policies == [policies[0]] + policies[1..];
      PolicySectionsAre(uplink, policies[1..], derived);
      forall s | s in PolicySections(uplink, policies, derived.policies) ensures OfPolicy(s, policies, derived) {
        if s in PolicySections(uplink, policies[1..], derived.policies) {
          var e :| e in policies[1..] && e.numbering.name in derived.policies
            && s == PolicySection(e, derived.policies);
          assert e in policies;
        } else {
          assert policies[0] in policies;
        }
      }
    }
  }

  lemma {:induction false} ReturnSectionsAre(uplink: string, returns_: seq<Allocation.ForwardReturn>)
    ensures forall s :: s in ReturnSections(uplink, returns_) <==>
        exists r :: r in returns_ && r.key.uplink == uplink && s == Section(uplink, r.key.family, r.table, r.mark)
  {
    if returns_ != [] {
      ReturnSectionsAre(uplink, returns_[1..]);
      assert returns_ == [returns_[0]] + returns_[1..];
    }
  }

  lemma {:induction false} SectionsAre(uplinks: seq<string>, policies: seq<Egress>, derived: Allocation.Derived)
    ensures forall s :: s in Sections(uplinks, policies, derived) ==>
        OfPolicy(s, policies, derived) || OfReturn(s, derived)
    ensures forall r :: r in derived.returns_ && r.key.uplink in uplinks ==>
        Section(r.key.uplink, r.key.family, r.table, r.mark) in Sections(uplinks, policies, derived)
  {
    if uplinks != [] {
      assert uplinks == [uplinks[0]] + uplinks[1..];
      SectionsAre(uplinks[1..], policies, derived);
      PolicySectionsAre(uplinks[0], policies, derived);
      ReturnSectionsAre(uplinks[0], derived.returns_);
    }
  }

  lemma {:induction false} PolicyApart(s: Section, policies: seq<Egress>, derived: Allocation.Derived, k: nat)
    requires NumberFacts.AllDistinct(derived) && OfPolicy(s, policies, derived) && k < |derived.returns_|
    ensures s.table != derived.returns_[k].table && s.mark != derived.returns_[k].mark
  {
    var e :| e in policies && e.numbering.name in derived.policies
      && s == PolicySection(e, derived.policies);
    assert e.numbering.name in derived.policies;
  }

  /** A return's mark selects its own table, in its own link's section, and no other section
      puts a route in that table. */
  lemma {:induction false} MarkSelectsOneTable(uplinks: seq<string>, policies: seq<Egress>, derived: Allocation.Derived,
      r: Allocation.ForwardReturn)
    requires NumberFacts.AllDistinct(derived) && r in derived.returns_ && r.key.uplink in uplinks
    ensures var section := Section(r.key.uplink, r.key.family, r.table, r.mark);
            && section in Sections(uplinks, policies, derived)
            && forall s :: s in Sections(uplinks, policies, derived) && (s.mark == r.mark || s.table == r.table) ==>
                  s == section
  {
    SectionsAre(uplinks, policies, derived);
    var k :| 0 <= k < |derived.returns_| && derived.returns_[k] == r;
    forall s | s in Sections(uplinks, policies, derived) && (s.mark == r.mark || s.table == r.table)
      ensures s == Section(r.key.uplink, r.key.family, r.table, r.mark)
    {
      if OfPolicy(s, policies, derived) {
        PolicyApart(s, policies, derived, k);
      } else {
        var q :| q in derived.returns_ && s == Section(q.key.uplink, q.key.family, q.table, q.mark);
        var j :| 0 <= j < |derived.returns_| && derived.returns_[j] == q;
        assert j == k;
      }
    }
  }

  // ----- end to end ------------------------------------------------------------------

  /** For an accepted configuration: every reply of a connection a forward on an uplink
      readdressed is marked for that uplink, whatever the policies say; the mark selects one
      table, whose default route is on that uplink's link; and no packet of the connection's
      own direction carries the mark of any return. */
  lemma {:induction false} RepliesGoBack(policies: seq<Egress>, numbering: seq<Allocation.Policy>,
      forwards: seq<Allocation.Forward>, uplinks: seq<string>, links: Links,
      forward: Allocation.Forward, packets: seq<Packet>, marks: seq<nat>, conn: seq<nat>, sets: seq<Sets>)
    requires AcceptedNumbers(policies, numbering, forwards) && Unshadowed(links)
    requires forall f :: f in forwards ==> f.egress in links.uplinks && f.egress in uplinks
    requires forward in forwards && forward.egress != "" && forward.target.Some?
    requires Arrived(packets, forward.egress, forward.target.value)
    requires Through(MarkRules(policies, Allocation.Derive(numbering, forwards), links), packets, marks, conn, sets)
    ensures var derived := Allocation.Derive(numbering, forwards);
            exists r :: r in derived.returns_ && r.key == Allocation.ReturnKey(forward.egress, forward.target.value)
              && (forall i :: 0 <= i < |packets| && packets[i].reply ==> marks[i] == r.mark)
              && (forall i, q :: 0 <= i < |packets| && !packets[i].reply && q in derived.returns_ ==>
                    marks[i] != q.mark)
              && SelectsOnly(Sections(uplinks, policies, derived), r, forward.egress)
  {
    var derived := Allocation.Derive(numbering, forwards);
    NumberFacts.NumbersAreDistinct(numbering, forwards);
    var key := Allocation.ReturnKey(forward.egress, forward.target.value);
    var j :| 0 <= j < |forwards| && forwards[j] == forward;
    assert NumberFacts.Publishes(forwards[j], key) && NumberFacts.IsPublished(forwards, key);
    var k :| 0 <= k < |derived.returns_| && derived.returns_[k].key == key;
    var r := derived.returns_[k];
    ReturnsLinked(numbering, forwards, links, derived);
    assert Numbered(policies, derived.policies);
    forall i | 0 <= i < |packets|
      ensures packets[i].reply ==> marks[i] == r.mark
      ensures !packets[i].reply ==> forall q :: q in derived.returns_ ==> marks[i] != q.mark
    {
      WholeConnection(policies, derived, links, packets, marks, conn, sets, forward.egress, r, forward.target.value, i);
      if !packets[i].reply { NeverAReturnMark(policies, derived, marks[i]); }
    }
    MarkSelectsOneTable(uplinks, policies, derived, r);
  }

  /** Of all the sections, the mark and the table of a return are in its link's one alone. */
  ghost predicate SelectsOnly(sections: seq<Section>, r: Allocation.ForwardReturn, link: string) {
    && Section(link, r.key.family, r.table, r.mark) in sections
    && forall s :: s in sections && (s.mark == r.mark || s.table == r.table) ==>
          s == Section(link, r.key.family, r.table, r.mark)
  }

  lemma {:induction false} NeverAReturnMark(policies: seq<Egress>, derived: Allocation.Derived, mark: nat)
    requires NumberFacts.AllDistinct(derived) && Numbered(policies, derived.policies)
    requires EgressOrNone(mark, policies, derived)
    ensures forall q :: q in derived.returns_ ==> mark != q.mark
  {
    forall q | q in derived.returns_ ensures mark != q.mark {
      var k :| 0 <= k < |derived.returns_| && derived.returns_[k] == q;
    }
  }

  lemma {:induction false} ReturnsLinked(numbering: seq<Allocation.Policy>, forwards: seq<Allocation.Forward>,
      links: Links, derived: Allocation.Derived)
    requires Unshadowed(links) && forall f :: f in forwards ==> f.egress in links.uplinks
    requires forall k :: NumberFacts.HasReturn(derived.returns_, k) <==> NumberFacts.IsPublished(forwards, k)
    ensures AllLinked(derived.returns_, links)
  {
    forall r | r in derived.returns_ ensures r.key.uplink in links.uplinks {
      var i :| 0 <= i < |derived.returns_| && derived.returns_[i] == r;
      assert NumberFacts.HasReturn(derived.returns_, r.key);
      var j :| 0 <= j < |forwards| && NumberFacts.Publishes(forwards[j], r.key);
      assert forwards[j] in forwards;
    }
  }
}
