/** By which uplink a packet leaves when several egress policies select it. */
module EgressPaths {
  import opened Orders
  import opened Host
  import opened Packets
  import opened PortForwards
  import opened MarkChain
  import Allocation
  import NumberFacts
  import NumberOrder

  ghost predicate NamedApart(policies: seq<Egress>) {
    forall i, j :: 0 <= i < j < |policies| ==> policies[i].numbering.name != policies[j].numbering.name
  }

  /** Of the policies that select a packet, the one that is evaluated ahead of all others. */
  ghost predicate Wins(e: Egress, policies: seq<Egress>, p: Packet, sets: Sets) {
    && e in policies && Selects(e, p, sets)
    && forall other :: other in policies && other != e && Selects(other, p, sets) ==>
         NumberOrder.Earlier(e.numbering, other.numbering)
  }

  lemma {:induction false} EgressOrders()
    ensures TotalPreorder(EgressOrder)
  {
    NumberFacts.PolicyOrders();
    forall a, b ensures EgressOrder(a, b) || EgressOrder(b, a) {
      assert Allocation.PolicyOrder(a.numbering, b.numbering) || Allocation.PolicyOrder(b.numbering, a.numbering);
    }
    forall a, b, c | EgressOrder(a, b) && EgressOrder(b, c) ensures EgressOrder(a, c) {
      assert Allocation.PolicyOrder(a.numbering, b.numbering) && Allocation.PolicyOrder(b.numbering, c.numbering);
    }
  }

  /** The first in a list that selects the packet has those that do so too behind it. */
  lemma {:induction false} FirstSelected(policies: seq<Egress>, p: Packet, sets: Sets)
    requires Sorted(policies, EgressOrder)
    ensures var e := Selected(policies, p, sets);
            && (e.None? ==> forall o :: o in policies ==> !Selects(o, p, sets))
            && (e.Some? ==>
                  && e.value in policies && Selects(e.value, p, sets)
                  && forall o :: o in policies && o != e.value && Selects(o, p, sets) ==> EgressOrder(e.value, o))
  {
    if policies != [] {
      assert policies == [policies[0]] + policies[1..];
      FirstSelected(policies[1..], p, sets);
      forall o | o in policies && o != policies[0] ensures EgressOrder(policies[0], o) {
        var k :| 0 <= k < |policies| && policies[k] == o;
      }
    }
  }

  lemma {:induction false} SelectedWins(policies: seq<Egress>, p: Packet, sets: Sets)
    requires NamedApart(policies)
    ensures var e := Selected(Sort(policies, EgressOrder), p, sets);
            && (e.None? ==> forall o :: o in policies ==> !Selects(o, p, sets))
            && (e.Some? ==> Wins(e.value, policies, p, sets))
  {
    var sorted := Sort(policies, EgressOrder);
    EgressOrders();
    SortSorted(policies, EgressOrder);
    SortKeeps(policies, EgressOrder);
    FirstSelected(sorted, p, sets);
    var e := Selected(sorted, p, sets);
    if e.Some? {
      forall o | o in policies && o != e.value && Selects(o, p, sets)
        ensures NumberOrder.Earlier(e.value.numbering, o.numbering)
      {
        assert EgressOrder(e.value, o) && e.value.numbering.name != o.numbering.name;
        NumberOrder.EarlierIs(e.value.numbering, o.numbering);
      }
    }
  }

  lemma {:induction false} WinnerIsOne(e: Egress, f: Egress, policies: seq<Egress>, p: Packet, sets: Sets)
    requires Wins(e, policies, p, sets) && Wins(f, policies, p, sets)
    ensures e == f
  {
    if e != f {
      assert NumberOrder.Earlier(e.numbering, f.numbering) && NumberOrder.Earlier(f.numbering, e.numbering);
      NumberOrder.EarlierIs(e.numbering, f.numbering);
      NumberOrder.EarlierIs(f.numbering, e.numbering);
      NumberFacts.PolicyOrders();
      assert false;
    }
  }

  lemma {:induction false} MarkDoesNotSelect(policies: seq<Egress>, p: Packet, mark: nat, sets: Sets)
    ensures Selected(policies, p.(connMark := mark), sets) == Selected(policies, p, sets)
  {
    if policies != [] { MarkDoesNotSelect(policies[1..], p, mark, sets); }
  }

  /** What a packet is marked: for the policy that wins it, or not at all when none selects it. */
  ghost predicate MarkedFor(mark: nat, policies: seq<Egress>, derived: Allocation.Derived, p: Packet, sets: Sets)
    requires Numbered(policies, derived.policies)
  {
    && ((forall e :: e in policies ==> !Selects(e, p, sets)) ==> mark == 0)
    && forall e :: Wins(e, policies, p, sets) ==> mark == derived.policies[e.numbering.name].mark
  }

  /** Every packet but the replies of a connection that has a mark is marked by the chain for the
      policy that wins it: of those that select it the one of the lowest priority, and of one
      priority the one whose name comes first. */
  lemma {:induction false} ChainMarksWinner(policies: seq<Egress>, derived: Allocation.Derived, links: Links,
      p: Packet, sets: Sets)
    requires NamedApart(policies) && Numbered(policies, derived.policies) && AllLinked(derived.returns_, links)
    requires forall i, j :: 0 <= i < j < |derived.returns_| ==> derived.returns_[i].key != derived.returns_[j].key
    requires !(p.reply && p.connMark != 0 && derived.returns_ != [])
    ensures MarkedFor(Marked(MarkRules(policies, derived, links), p, 0, sets).packet, policies, derived, p, sets)
    ensures (exists e :: e in policies && Selects(e, p, sets)) <==> exists e :: Wins(e, policies, p, sets)
  {
    var sorted := Sort(policies, EgressOrder);
    SelectedWins(policies, p, sets);
    ChainSelects(policies, derived, links, p, sets);
    var s := Selected(sorted, p, sets);
    forall e | Wins(e, policies, p, sets) ensures s == Some(e) { WinnerIsOne(e, s.value, policies, p, sets); }
  }

  lemma {:induction false} ChainSelects(policies: seq<Egress>, derived: Allocation.Derived, links: Links, p: Packet,
      sets: Sets)
    requires Numbered(policies, derived.policies) && AllLinked(derived.returns_, links)
    requires forall i, j :: 0 <= i < j < |derived.returns_| ==> derived.returns_[i].key != derived.returns_[j].key
    requires !(p.reply && p.connMark != 0 && derived.returns_ != [])
    ensures var e := Selected(Sort(policies, EgressOrder), p, sets);
            && (e.Some? ==> e.value in policies)
            && Marked(MarkRules(policies, derived, links), p, 0, sets).packet ==
                 if e.Some? then derived.policies[e.value.numbering.name].mark else 0
  {
    var sorted := Sort(policies, EgressOrder);
    var rest := EgressAll(sorted, derived.policies);
    SortKeeps(policies, EgressOrder);
    PoliciesMark(sorted, derived.policies, p, 0, sets);
    if derived.returns_ == [] {
      assert MarkRules(policies, derived, links) == rest;
    } else {
      ChainOnPacket(policies, derived, links, p, sets);
      Saving(derived.returns_, links, rest, p, 0, sets);
      if r :| r in derived.returns_ && r.key == Allocation.ReturnKey(p.iif, p.family) && p.state == New && p.dnat {
        MarkDoesNotSelect(sorted, p, r.mark, sets);
        PoliciesMark(sorted, derived.policies, p.(connMark := r.mark), 0, sets);
      }
    }
  }

  // ----- where the marks lead --------------------------------------------------------

  lemma {:induction false} PolicySectionsHold(uplink: string, policies: seq<Egress>,
      routing: map<string, Allocation.Numbers>)
    ensures forall s :: s in PolicySections(uplink, policies, routing) <==>
              exists e :: e in policies && e.uplink == uplink && e.numbering.name in routing
                && s == Section(uplink, e.numbering.family, routing[e.numbering.name].table,
                                routing[e.numbering.name].mark)
  {
    if policies != [] {
      assert policies == [policies[0]] + policies[1..];
      PolicySectionsHold(uplink, policies[1..], routing);
    }
  }

  /** A policy's default route: on its uplink's link, in its table, for its mark. */
  function RouteOf(e: Egress, derived: Allocation.Derived): Section
    requires e.numbering.name in derived.policies
  {
    var numbers := derived.policies[e.numbering.name];
    Section(e.uplink, e.numbering.family, numbers.table, numbers.mark)
  }

  /** The sections of all uplinks are exactly the routes of the policies and of the returns that
      leave by one of them. */
  lemma {:induction false} AllSections(uplinks: seq<string>, policies: seq<Egress>, derived: Allocation.Derived)
    ensures forall s :: s in Sections(uplinks, policies, derived) <==>
              || (exists e :: e in policies && e.uplink in uplinks && e.numbering.name in derived.policies
                    && s == RouteOf(e, derived))
              || (exists r :: r in derived.returns_ && r.key.uplink in uplinks
                    && s == Section(r.key.uplink, r.key.family, r.table, r.mark))
  {
    if uplinks != [] {
      assert uplinks == [uplinks[0]] + uplinks[1..];
      AllSections(uplinks[1..], policies, derived);
      PolicySectionsHold(uplinks[0], policies, derived.policies);
      ReturnSectionsAre(uplinks[0], derived.returns_);
    }
  }

  /** Of all the sections one alone has the mark or the table. */
  ghost predicate Only(sections: seq<Section>, route: Section) {
    && route in sections
    && forall s :: s in sections && (s.mark == route.mark || s.table == route.table) ==> s == route
  }

  lemma {:induction false} RouteIsOnly(uplinks: seq<string>, policies: seq<Egress>, derived: Allocation.Derived,
      e: Egress)
    requires NumberFacts.AllDistinct(derived) && NamedApart(policies) && Numbered(policies, derived.policies)
    requires e in policies && e.uplink in uplinks
    ensures Only(Sections(uplinks, policies, derived), RouteOf(e, derived))
  {
    AllSections(uplinks, policies, derived);
    var route := RouteOf(e, derived);
    forall r | r in derived.returns_ ensures r.table != route.table && r.mark != route.mark {
      var k :| 0 <= k < |derived.returns_| && derived.returns_[k] == r;
    }
    forall s | s in Sections(uplinks, policies, derived) && (s.mark == route.mark || s.table == route.table)
      ensures s == route
    {
      var f :| f in policies && f.uplink in uplinks && f.numbering.name in derived.policies && s == RouteOf(f, derived);
      assert f.numbering.name == e.numbering.name;
      SameName(policies, e, f);
    }
  }

  lemma {:induction false} SameName(policies: seq<Egress>, e: Egress, f: Egress)
    requires NamedApart(policies) && e in policies && f in policies && e.numbering.name == f.numbering.name
    ensures e == f
  {}

  /** For an accepted configuration: a packet some policies select, and that is no reply of a
      connection with a mark, is marked for the one of them that wins it, and the mark selects
      one table, whose only route is on that policy's uplink. */
  lemma {:induction false} LeavesByTheWinner(policies: seq<Egress>, numbering: seq<Allocation.Policy>,
      forwards: seq<Allocation.Forward>, uplinks: seq<string>, links: Links, p: Packet, sets: Sets, e: Egress)
    requires AcceptedNumbers(policies, numbering, forwards) && Unshadowed(links) && NamedApart(policies)
    requires (forall f :: f in forwards ==> f.egress in links.uplinks) && e.uplink in uplinks
    requires Wins(e, policies, p, sets) && !(p.reply && p.connMark != 0)
    ensures var derived := Allocation.Derive(numbering, forwards);
            && e.numbering.name in derived.policies
            && Marked(MarkRules(policies, derived, links), p, 0, sets).packet == RouteOf(e, derived).mark
            && Only(Sections(uplinks, policies, derived), RouteOf(e, derived))
  {
    var derived := Allocation.Derive(numbering, forwards);
    NumberFacts.NumbersAreDistinct(numbering, forwards);
    ReturnsLinked(numbering, forwards, links, derived);
    assert Numbered(policies, derived.policies);
    ChainMarksWinner(policies, derived, links, p, sets);
    RouteIsOnly(uplinks, policies, derived, e);
  }
}
