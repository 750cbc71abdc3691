/** What the numbers handed out are: all different, none reserved, and the same whatever
    order the resources are declared in. */
module NumberFacts {
  import opened Orders
  import opened Host
  import opened Allocation

  // ----- pins ------------------------------------------------------------------------

  /** Policies of one kind are known by their names. */
  ghost predicate DistinctNames(policies: seq<Policy>) {
    forall i, j :: 0 <= i < j < |policies| ==> policies[i].name != policies[j].name
  }

  ghost predicate PinStands(policies: seq<Policy>, i: nat)
    requires i < |policies|
  {
    && (policies[i].table.Some? ==> policies[i].table.value !in RESERVED)
    && (policies[i].mark.Some? ==> policies[i].mark.value != 0)
    && forall k :: 0 <= k < i ==>
         && (policies[k].table.Some? ==> policies[k].table != policies[i].table)
         && (policies[k].mark.Some? ==> policies[k].mark != policies[i].mark)
  }

  /** No pinned table is the kernel's own, no pinned mark is zero, and no two pins are one. */
  ghost predicate Acceptable(policies: seq<Policy>) {
    forall i :: 0 <= i < |policies| ==> PinStands(policies, i)
  }

  function PinnedNumbers(p: Policy): Numbers {
    Numbers(if p.table.Some? then p.table.value else 0, if p.mark.Some? then p.mark.value else 0,
            p.table.Some?, p.mark.Some?)
  }

  function Unpinned(policies: seq<Policy>): seq<Policy> {
    if policies == [] then []
    else (if policies[0].table.Some? && policies[0].mark.Some? then [] else [policies[0]]) + Unpinned(policies[1..])
  }

  predicate PinsTable(p: Policy, t: int) { p.table.Some? && p.table.value == t }

  predicate PinsMark(p: Policy, m: int) { p.mark.Some? && p.mark.value == m }

  ghost predicate TableBy(policies: seq<Policy>, i: nat, t: int)
    requires i <= |policies|
  {
    exists k :: 0 <= k < i && PinsTable(policies[k], t)
  }

  ghost predicate MarkBy(policies: seq<Policy>, i: nat, m: int)
    requires i <= |policies|
  {
    exists k :: 0 <= k < i && PinsMark(policies[k], m)
  }

  ghost predicate NameBy(policies: seq<Policy>, i: nat, name: string)
    requires i <= |policies|
  {
    exists k :: 0 <= k < i && policies[k].name == name
  }

  ghost predicate Tracks(at: Pinned, policies: seq<Policy>, i: nat)
    requires i <= |policies|
  {
    && at.problems == []
    && (forall t :: t in at.tables <==> TableBy(policies, i, t))
    && (forall m :: m in at.marks <==> MarkBy(policies, i, m))
    && (forall n :: n in at.routing <==> NameBy(policies, i, n))
    && (forall k :: 0 <= k < i ==>
          policies[k].name in at.routing && at.routing[policies[k].name] == PinnedNumbers(policies[k]))
  }

  lemma {:induction false} OneMore(policies: seq<Policy>, i: nat)
    requires i < |policies|
    ensures forall t :: TableBy(policies, i + 1, t) <==> TableBy(policies, i, t) || PinsTable(policies[i], t)
    ensures forall m :: MarkBy(policies, i + 1, m) <==> MarkBy(policies, i, m) || PinsMark(policies[i], m)
    ensures forall n :: NameBy(policies, i + 1, n) <==> NameBy(policies, i, n) || policies[i].name == n
  {}

  lemma {:induction false} OwnersNext(at: Pinned, policies: seq<Policy>, i: nat)
    requires i < |policies| && Tracks(at, policies, i)
    requires TableProblem(policies[i], at) == [] && MarkProblem(policies[i], at) == []
    ensures var next := PinOne(policies[i], at);
            && (forall t :: t in next.tables <==> TableBy(policies, i + 1, t))
            && (forall m :: m in next.marks <==> MarkBy(policies, i + 1, m))
  {
    OneMore(policies, i);
    forall t ensures t in PinOne(policies[i], at).tables <==> t in at.tables || PinsTable(policies[i], t) {}
    forall m ensures m in PinOne(policies[i], at).marks <==> m in at.marks || PinsMark(policies[i], m) {}
  }

  lemma {:induction false} RoutingNext(at: Pinned, policies: seq<Policy>, i: nat)
    requires i < |policies| && Tracks(at, policies, i) && DistinctNames(policies)
    requires TableProblem(policies[i], at) == [] && MarkProblem(policies[i], at) == []
    ensures var next := PinOne(policies[i], at);
            && next.problems == []
            && (forall n :: n in next.routing <==> NameBy(policies, i + 1, n))
            && (forall k :: 0 <= k < i + 1 ==>
                  policies[k].name in next.routing && next.routing[policies[k].name] == PinnedNumbers(policies[k]))
  {
    var next := PinOne(policies[i], at);
    assert next.routing == at.routing[policies[i].name := PinnedNumbers(policies[i])];
    OneMore(policies, i);
  }

  lemma {:induction false} TracksNext(at: Pinned, policies: seq<Policy>, i: nat)
    requires i < |policies| && Tracks(at, policies, i) && DistinctNames(policies)
    requires TableProblem(policies[i], at) == [] && MarkProblem(policies[i], at) == []
    ensures Tracks(PinOne(policies[i], at), policies, i + 1)
  {
    OwnersNext(at, policies, i);
    RoutingNext(at, policies, i);
  }

  lemma {:induction false} TableStands(at: Pinned, policies: seq<Policy>, i: nat)
    requires i < |policies| && Tracks(at, policies, i)
    ensures TableProblem(policies[i], at) == [] <==>
              (policies[i].table.Some? ==> policies[i].table.value !in RESERVED) &&
              forall k :: 0 <= k < i ==> (policies[k].table.Some? ==> policies[k].table != policies[i].table)
  {
    if policies[i].table.Some? {
      var t := policies[i].table.value;
      assert TableBy(policies, i, t) <==> exists k :: 0 <= k < i && PinsTable(policies[k], t);
    }
  }

  lemma {:induction false} PinTracks(at: Pinned, policies: seq<Policy>, i: nat)
    requires i < |policies| && Tracks(at, policies, i) && DistinctNames(policies)
    ensures PinStands(policies, i) <==> PinOne(policies[i], at).problems == []
    ensures PinStands(policies, i) ==> Tracks(PinOne(policies[i], at), policies, i + 1)
    ensures PinStands(policies, i) ==> PinOne(policies[i], at).unpinned == at.unpinned + Unpinned([policies[i]])
  {
    TableStands(at, policies, i);
    if PinStands(policies, i) {
      assert Unpinned([policies[i]][1..]) == [];
      TracksNext(at, policies, i);
    }
  }

  lemma {:induction false} ProblemsStay(policies: seq<Policy>, i: nat, at: Pinned)
    requires i <= |policies| && at.problems != []
    ensures Pins(policies, i, at).problems != []
    decreases |policies| - i
  {
    if i < |policies| { ProblemsStay(policies, i + 1, PinOne(policies[i], at)); }
  }

  ghost predicate StandFrom(policies: seq<Policy>, i: nat) {
    forall k :: i <= k < |policies| ==> PinStands(policies, k)
  }

  lemma {:induction false} PinsClean(policies: seq<Policy>, i: nat, at: Pinned)
    requires i <= |policies| && Tracks(at, policies, i) && DistinctNames(policies) && StandFrom(policies, i)
    ensures Tracks(Pins(policies, i, at), policies, |policies|)
    ensures Pins(policies, i, at).unpinned == at.unpinned + Unpinned(policies[i..])
    decreases |policies| - i
  {
    if i < |policies| {
      PinTracks(at, policies, i);
      PinsClean(policies, i + 1, PinOne(policies[i], at));
    }
  }

  lemma {:induction false} PinsReport(policies: seq<Policy>, i: nat, at: Pinned)
    requires i <= |policies| && Tracks(at, policies, i) && DistinctNames(policies) && !StandFrom(policies, i)
    ensures Pins(policies, i, at).problems != []
    decreases |policies| - i
  {
    var next := PinOne(policies[i], at);
    PinTracks(at, policies, i);
    assert Pins(policies, i, at) == Pins(policies, i + 1, next);
    if PinStands(policies, i) {
      PinsReport(policies, i + 1, next);
    } else {
      ProblemsStay(policies, i + 1, next);
    }
  }

  /** Validation reports a problem with the pins exactly when they are not acceptable. */
  lemma {:induction false} PinsAreChecked(policies: seq<Policy>)
    requires DistinctNames(policies)
    ensures Pins(policies, 0, NO_PINS).problems == [] <==> Acceptable(policies)
    ensures Acceptable(policies) ==>
              Tracks(Pins(policies, 0, NO_PINS), policies, |policies|)
              && Pins(policies, 0, NO_PINS).unpinned == Unpinned(policies)
  {
    assert Acceptable(policies) <==> StandFrom(policies, 0);
    if Acceptable(policies) { PinsClean(policies, 0, NO_PINS); } else { PinsReport(policies, 0, NO_PINS); }
    assert policies[0..] == policies;
  }

  // ----- nothing handed out twice ----------------------------------------------------

  /** Everything handed out so far is spoken for, and no two holders have one number. */
  ghost predicate TablesSound(routing: map<string, Numbers>, given: seq<ForwardReturn>, taken: set<int>) {
    && (forall a :: a in routing && routing[a].table != 0 ==>
          routing[a].table in taken && routing[a].table !in RESERVED)
    && (forall a, b :: a in routing && b in routing && a != b && routing[a].table != 0 ==>
          routing[a].table != routing[b].table)
    && (forall i :: 0 <= i < |given| ==> given[i].table in taken && given[i].table !in RESERVED)
    && (forall i, j :: 0 <= i < j < |given| ==> given[i].table != given[j].table)
    && (forall a, i :: a in routing && 0 <= i < |given| ==> routing[a].table != given[i].table)
  }

  ghost predicate MarksSound(routing: map<string, Numbers>, given: seq<ForwardReturn>, taken: set<int>) {
    && (forall a :: a in routing && routing[a].mark != 0 ==> routing[a].mark in taken)
    && (forall a, b :: a in routing && b in routing && a != b && routing[a].mark != 0 ==>
          routing[a].mark != routing[b].mark)
    && (forall i :: 0 <= i < |given| ==> given[i].mark in taken && given[i].mark != 0)
    && (forall i, j :: 0 <= i < j < |given| ==> given[i].mark != given[j].mark)
    && (forall a, i :: a in routing && 0 <= i < |given| ==> routing[a].mark != given[i].mark)
  }

  /** Everything between the first mark and the cursor is spoken for, by so many at most. */
  ghost predicate Filled(c: Cursor, first: int, count: nat) {
    && c.next >= first && |c.taken| <= count
    && forall m :: first <= m < c.next ==> m in c.taken
  }

  lemma {:induction false} IntervalFits(s: set<int>, lo: int, hi: int)
    requires lo <= hi && forall m :: lo <= m < hi ==> m in s
    ensures hi - lo <= |s|
    decreases hi - lo
  {
    if lo < hi {
      assert |s - {lo}| == |s| - 1;
      IntervalFits(s - {lo}, lo + 1, hi);
    }
  }

  /** A draw is never further from the first number than there are numbers spoken for. */
  lemma {:induction false} DrawFills(c: Cursor, first: int, count: nat)
    requires Filled(c, first, count)
    ensures var (n, next) := Draw(c, {});
            Filled(next, first, count + 1) && first <= n <= first + count
            && n !in c.taken && next.taken == c.taken + {n}
  {
    var (n, next) := Draw(c, {});
    forall m | first <= m < n ensures m in c.taken { if m >= c.next { assert m in c.taken + {}; } }
    IntervalFits(c.taken, first, n);
  }

  ghost predicate Settled(h: Handing, name: string) {
    name in h.routing && h.routing[name].table != 0 && h.routing[name].mark != 0
  }

  ghost predicate HandingSound(h: Handing, count: nat) {
    && TablesSound(h.routing, [], h.tables.taken) && MarksSound(h.routing, [], h.marks.taken)
    && h.tables.next >= FIRST_TABLE && Filled(h.marks, FIRST_MARK, count)
    && forall a :: a in h.routing ==>
          (h.routing[a].tablePinned ==> h.routing[a].table != 0) && (h.routing[a].markPinned ==> h.routing[a].mark != 0)
  }

  /** What is settled stays settled, and pins stay what they are. */
  ghost predicate Keeps(h: Handing, next: Handing) {
    && next.routing.Keys == h.routing.Keys
    && (forall a :: Settled(h, a) ==> Settled(next, a))
    && (forall a :: a in h.routing ==>
          next.routing[a].tablePinned == h.routing[a].tablePinned
          && next.routing[a].markPinned == h.routing[a].markPinned)
    && (forall a :: a in h.routing && h.routing[a].tablePinned ==> next.routing[a].table == h.routing[a].table)
    && (forall a :: a in h.routing && h.routing[a].markPinned ==> next.routing[a].mark == h.routing[a].mark)
  }

  lemma {:induction false} HandTableSound(h: Handing, name: string, count: nat)
    requires HandingSound(h, count) && name in h.routing
    ensures HandingSound(HandTable(h, name), count) && HandTable(h, name).routing[name].table != 0
    ensures Keeps(h, HandTable(h, name))
  {}

  lemma {:induction false} HandMarkSound(h: Handing, name: string, count: nat)
    requires HandingSound(h, count) && name in h.routing && FIRST_MARK + count < MARKS
    ensures HandingSound(HandMark(h, name), count + 1) && HandMark(h, name).routing[name].mark != 0
    ensures HandMark(h, name).routing[name].table == h.routing[name].table
    ensures Keeps(h, HandMark(h, name))
  {
    DrawFills(h.marks, FIRST_MARK, count);
    var (n, marks) := Draw(h.marks, {});
    assert Truncated(n) == n;
  }

  lemma {:induction false} HandOne(h: Handing, name: string, count: nat)
    requires HandingSound(h, count) && name in h.routing && FIRST_MARK + count < MARKS
    ensures var next := HandMark(HandTable(h, name), name);
            HandingSound(next, count + 1) && Settled(next, name) && Keeps(h, next)
  {
    var middle := HandTable(h, name);
    HandTableSound(h, name, count);
    HandMarkSound(middle, name, count);
  }

  lemma {:induction false} HandPoliciesSound(sorted: seq<Policy>, i: nat, h: Handing, count: nat)
    requires i <= |sorted| && HandingSound(h, count) && FIRST_MARK + count + |sorted| - i <= MARKS
    requires forall p :: p in sorted ==> p.name in h.routing
    ensures HandingSound(HandPolicies(sorted, i, h), count + |sorted| - i)
    decreases |sorted| - i
  {
    if i < |sorted| {
      HandOne(h, sorted[i].name, count);
      HandPoliciesSound(sorted, i + 1, HandMark(HandTable(h, sorted[i].name), sorted[i].name), count + 1);
    }
  }

  lemma {:induction false} HandPoliciesKeep(sorted: seq<Policy>, i: nat, h: Handing, count: nat)
    requires i <= |sorted| && HandingSound(h, count) && FIRST_MARK + count + |sorted| - i <= MARKS
    requires forall p :: p in sorted ==> p.name in h.routing
    ensures Keeps(h, HandPolicies(sorted, i, h))
    decreases |sorted| - i
  {
    if i < |sorted| {
      var next := HandMark(HandTable(h, sorted[i].name), sorted[i].name);
      HandOne(h, sorted[i].name, count);
      HandPoliciesKeep(sorted, i + 1, next, count + 1);
    }
  }

  lemma {:induction false} HandPoliciesSettle(sorted: seq<Policy>, i: nat, h: Handing, count: nat, k: nat)
    requires i <= k < |sorted| && HandingSound(h, count) && FIRST_MARK + count + |sorted| - i <= MARKS
    requires forall p :: p in sorted ==> p.name in h.routing
    ensures Settled(HandPolicies(sorted, i, h), sorted[k].name)
    decreases |sorted| - i
  {
    var next := HandMark(HandTable(h, sorted[i].name), sorted[i].name);
    HandOne(h, sorted[i].name, count);
    if i < k {
      HandPoliciesSettle(sorted, i + 1, next, count + 1, k);
    } else {
      HandPoliciesKeep(sorted, i + 1, next, count + 1);
    }
  }

  lemma {:induction false} HandReturnsSound(keys: seq<ReturnKey>, i: nat, tables: Cursor, marks: Cursor,
      given: seq<ForwardReturn>, routing: map<string, Numbers>, count: nat)
    requires i <= |keys| && |given| == i && forall k :: 0 <= k < i ==> given[k].key == keys[k]
    requires TablesSound(routing, given, tables.taken) && MarksSound(routing, given, marks.taken)
    requires forall a :: a in routing ==> routing[a].table != 0 && routing[a].mark != 0
    requires tables.next >= FIRST_TABLE && Filled(marks, FIRST_MARK, count) && FIRST_MARK + count + |keys| - i <= MARKS
    ensures var all := HandReturns(keys, i, tables, marks, given);
            && |all| == |keys| && (forall k :: 0 <= k < |keys| ==> all[k].key == keys[k])
            && exists t: set<int>, m: set<int> :: TablesSound(routing, all, t) && MarksSound(routing, all, m)
    decreases |keys| - i
  {
    if i < |keys| {
      DrawFills(marks, FIRST_MARK, count);
      var (t, tables') := Draw(tables, RESERVED);
      var (m, marks') := Draw(marks, {});
      assert Truncated(m) == m;
      var more := given + [ForwardReturn(keys[i], t, Truncated(m))];
      OneMoreTable(routing, given, tables.taken, more[i]);
      OneMoreMark(routing, given, marks.taken, more[i]);
      HandReturnsSound(keys, i + 1, tables', marks', more, routing, count + 1);
    }
  }

  lemma {:induction false} OneMoreTable(routing: map<string, Numbers>, given: seq<ForwardReturn>, taken: set<int>,
      r: ForwardReturn)
    requires TablesSound(routing, given, taken) && r.table !in taken && r.table !in RESERVED
    requires forall a :: a in routing ==> routing[a].table != 0
    ensures TablesSound(routing, given + [r], taken + {r.table})
  {}

  lemma {:induction false} OneMoreMark(routing: map<string, Numbers>, given: seq<ForwardReturn>, taken: set<int>,
      r: ForwardReturn)
    requires MarksSound(routing, given, taken) && r.mark !in taken && r.mark != 0
    requires forall a :: a in routing ==> routing[a].mark != 0
    ensures MarksSound(routing, given + [r], taken + {r.mark})
  {}

  // ----- from the pins on ------------------------------------------------------------

  lemma {:induction false} UnpinnedMembers(policies: seq<Policy>)
    ensures forall p :: p in Unpinned(policies) <==> p in policies && !(p.table.Some? && p.mark.Some?)
    ensures |Unpinned(policies)| <= |policies|
  {
    if policies != [] {
      UnpinnedMembers(policies[1..]);
      assert policies == [policies[0]] + policies[1..];
    }
  }

  /** What stands pinned before anything is handed out. */
  function Start(policies: seq<Policy>): Handing {
    var pins := Pins(policies, 0, NO_PINS);
    Handing(pins.routing, Cursor(FIRST_TABLE, pins.tables.Keys), Cursor(FIRST_MARK, pins.marks.Keys))
  }

  /** The pins of two policies, as they stand in the routing. */
  lemma {:induction false} PinsApart(policies: seq<Policy>, pins: Pinned, a: string, b: string)
    requires Acceptable(policies) && Tracks(pins, policies, |policies|) && a in pins.routing && b in pins.routing
        && a != b
    ensures pins.routing[a].table != 0 ==> pins.routing[a].table != pins.routing[b].table
    ensures pins.routing[a].mark != 0 ==> pins.routing[a].mark != pins.routing[b].mark
  {
    var i :| 0 <= i < |policies| && policies[i].name == a;
    var j :| 0 <= j < |policies| && policies[j].name == b;
    assert PinStands(policies, i) && PinStands(policies, j);
    assert i < j || j < i;
  }

  lemma {:induction false} PinReserved(policies: seq<Policy>, pins: Pinned, a: string)
    requires Acceptable(policies) && Tracks(pins, policies, |policies|) && a in pins.routing
    ensures pins.routing[a].table != 0 ==> pins.routing[a].table in pins.tables && pins.routing[a].table !in RESERVED
    ensures pins.routing[a].mark != 0 ==> pins.routing[a].mark in pins.marks
    ensures (pins.routing[a].tablePinned ==> pins.routing[a].table != 0)
        && (pins.routing[a].markPinned ==> pins.routing[a].mark != 0)
  {
    var i :| 0 <= i < |policies| && policies[i].name == a;
    assert PinStands(policies, i);
    if policies[i].table.Some? { assert PinsTable(policies[i], policies[i].table.value); }
    if policies[i].mark.Some? { assert PinsMark(policies[i], policies[i].mark.value); }
  }

  lemma {:induction false} StartSound(policies: seq<Policy>)
    requires DistinctNames(policies) && Acceptable(policies)
    ensures HandingSound(Start(policies), |policies|)
  {
    var pins := Pins(policies, 0, NO_PINS);
    assert Tracks(pins, policies, |policies|) by { PinsAreChecked(policies); }
    assert |pins.marks.Keys| <= |policies| by { MarksCount(policies, 0, NO_PINS); }
    PinnedSound(policies, pins);
  }

  lemma {:induction false} PinnedSound(policies: seq<Policy>, pins: Pinned)
    requires Acceptable(policies) && Tracks(pins, policies, |policies|) && |pins.marks.Keys| <= |policies|
    ensures HandingSound(Handing(pins.routing, Cursor(FIRST_TABLE, pins.tables.Keys),
        Cursor(FIRST_MARK, pins.marks.Keys)), |policies|)
  {
    forall a, b | a in pins.routing && b in pins.routing && a != b
      ensures pins.routing[a].table != 0 ==> pins.routing[a].table != pins.routing[b].table
      ensures pins.routing[a].mark != 0 ==> pins.routing[a].mark != pins.routing[b].mark
    { PinsApart(policies, pins, a, b); }
    forall a | a in pins.routing
      ensures pins.routing[a].table != 0 ==> pins.routing[a].table in pins.tables && pins.routing[a].table !in RESERVED
      ensures pins.routing[a].mark != 0 ==> pins.routing[a].mark in pins.marks
      ensures (pins.routing[a].tablePinned ==> pins.routing[a].table != 0)
          && (pins.routing[a].markPinned ==> pins.routing[a].mark != 0)
    { PinReserved(policies, pins, a); }
  }

  lemma {:induction false} MarksCount(policies: seq<Policy>, i: nat, at: Pinned)
    requires i <= |policies|
    ensures |Pins(policies, i, at).marks| <= |at.marks| + |policies| - i
    ensures |Pins(policies, i, at).marks.Keys| == |Pins(policies, i, at).marks|
    decreases |policies| - i
  {
    if i < |policies| {
      var next := PinOne(policies[i], at);
      assert |next.marks| <= |at.marks| + 1 by {
        if policies[i].mark.Some? && MarkProblem(policies[i], at) == [] {
          assert next.marks.Keys == at.marks.Keys + {policies[i].mark.value};
          assert |next.marks| == |next.marks.Keys| && |at.marks| == |at.marks.Keys|;
        }
      }
      MarksCount(policies, i + 1, next);
    }
  }

  lemma {:induction false} KeysMembers(forwards: seq<Forward>, i: nat, keys: seq<ReturnKey>)
    requires i <= |forwards| && forall a, b :: 0 <= a < b < |keys| ==> keys[a] != keys[b]
    ensures var all := Keys(forwards, i, keys);
            && (forall k :: k in all <==> k in keys || exists j :: i <= j < |forwards| && Publishes(forwards[j], k))
            && (forall a, b :: 0 <= a < b < |all| ==> all[a] != all[b])
            && |all| <= |keys| + |forwards| - i
    decreases |forwards| - i
  {
    if i < |forwards| {
      var f := forwards[i];
      if f.egress == "" || f.target.None? || ReturnKey(f.egress, f.target.value) in keys {
        KeysMembers(forwards, i + 1, keys);
      } else {
        assert Publishes(f, ReturnKey(f.egress, f.target.value));
        KeysMembers(forwards, i + 1, keys + [ReturnKey(f.egress, f.target.value)]);
      }
    }
  }

  ghost predicate HasReturn(returns_: seq<ForwardReturn>, k: ReturnKey) {
    exists i :: 0 <= i < |returns_| && returns_[i].key == k
  }

  ghost predicate IsPublished(forwards: seq<Forward>, k: ReturnKey) {
    exists j :: 0 <= j < |forwards| && Publishes(forwards[j], k)
  }

  predicate Publishes(f: Forward, k: ReturnKey) { f.egress != "" && f.egress == k.uplink && f.target == Some(k.family) }

  ghost predicate AllDistinct(d: Derived) {
    && (forall a :: a in d.policies ==> d.policies[a].table !in RESERVED && d.policies[a].mark != 0)
    && (forall a, b :: a in d.policies && b in d.policies && a != b ==>
          d.policies[a].table != d.policies[b].table && d.policies[a].mark != d.policies[b].mark)
    && (forall i :: 0 <= i < |d.returns_| ==> d.returns_[i].table !in RESERVED && d.returns_[i].mark != 0)
    && (forall i, j :: 0 <= i < j < |d.returns_| ==>
          d.returns_[i].table != d.returns_[j].table
          && d.returns_[i].mark != d.returns_[j].mark && d.returns_[i].key != d.returns_[j].key)
    && (forall a, i :: a in d.policies && 0 <= i < |d.returns_| ==>
          d.policies[a].table != d.returns_[i].table && d.policies[a].mark != d.returns_[i].mark)
  }

  lemma {:induction false} HandAll(sorted: seq<Policy>, h: Handing, count: nat, more: nat)
    requires HandingSound(h, count) && count + |sorted| <= more && FIRST_MARK + more <= MARKS
    requires forall p :: p in sorted ==> p.name in h.routing
    ensures HandingSound(HandPolicies(sorted, 0, h), more) && Keeps(h, HandPolicies(sorted, 0, h))
    ensures forall p :: p in sorted ==> Settled(HandPolicies(sorted, 0, h), p.name)
  {
    HandPoliciesSound(sorted, 0, h, count);
    HandPoliciesKeep(sorted, 0, h, count);
    forall p | p in sorted ensures Settled(HandPolicies(sorted, 0, h), p.name) {
      var k :| 0 <= k < |sorted| && sorted[k] == p;
      HandPoliciesSettle(sorted, 0, h, count, k);
    }
  }

  lemma {:induction false} HandedFromStart(policies: seq<Policy>)
    requires DistinctNames(policies) && Acceptable(policies) && FIRST_MARK + 2 * |policies| <= MARKS
    ensures forall p :: p in Pins(policies, 0, NO_PINS).unpinned ==> p.name in Pins(policies, 0, NO_PINS).routing
    ensures var h := Handed(Pins(policies, 0, NO_PINS));
            && HandingSound(h, 2 * |policies|) && Keeps(Start(policies), h)
            && forall p :: p in Unpinned(policies) ==> Settled(h, p.name)
  {
    var pins := Pins(policies, 0, NO_PINS);
    assert pins.unpinned == Unpinned(policies) by { PinsAreChecked(policies); }
    assert |Unpinned(policies)| <= |policies| by { UnpinnedMembers(policies); }
    UnpinnedAreRouted(policies, 0, NO_PINS);
    SortKeeps(pins.unpinned, PolicyOrder);
    StartSound(policies);
    HandAll(Sort(pins.unpinned, PolicyOrder), Start(policies), |policies|, 2 * |policies|);
  }

  lemma {:induction false} PoliciesSettled(policies: seq<Policy>)
    requires DistinctNames(policies) && Acceptable(policies) && FIRST_MARK + 2 * |policies| <= MARKS
    ensures forall p :: p in Pins(policies, 0, NO_PINS).unpinned ==> p.name in Pins(policies, 0, NO_PINS).routing
    ensures var h := Handed(Pins(policies, 0, NO_PINS));
            && HandingSound(h, 2 * |policies|)
            && (forall n :: n in h.routing <==> exists p :: p in policies && p.name == n)
            && (forall a :: a in h.routing ==> Settled(h, a))
            && (forall p :: p in policies ==> (p.table.Some? ==> h.routing[p.name].table == p.table.value))
            && (forall p :: p in policies ==> (p.mark.Some? ==> h.routing[p.name].mark == p.mark.value))
  {
    PinsAreChecked(policies);
    HandedFromStart(policies);
    var h := Handed(Pins(policies, 0, NO_PINS));
    forall p | p in policies ensures p.name in h.routing && Settled(h, p.name)
      && (p.table.Some? ==> h.routing[p.name].table == p.table.value)
      && (p.mark.Some? ==> h.routing[p.name].mark == p.mark.value)
    {
      PolicySettled(policies, p, h);
    }
    NamesHanded(policies, h);
  }

  lemma {:induction false} NamesHanded(policies: seq<Policy>, h: Handing)
    requires Tracks(Pins(policies, 0, NO_PINS), policies, |policies|) && Keeps(Start(policies), h)
    ensures forall n :: n in h.routing <==> exists p :: p in policies && p.name == n
  {
    forall n ensures n in h.routing <==> exists p :: p in policies && p.name == n {
      assert n in h.routing <==> n in Pins(policies, 0, NO_PINS).routing;
      assert n in h.routing <==> NameBy(policies, |policies|, n);
      if p :| p in policies && p.name == n {
        var i :| 0 <= i < |policies| && policies[i] == p;
        assert policies[i].name == n;
      }
    }
  }

  lemma {:induction false} PolicySettled(policies: seq<Policy>, p: Policy, h: Handing)
    requires p in policies && Acceptable(policies) && Tracks(Pins(policies, 0, NO_PINS), policies, |policies|)
    requires Keeps(Start(policies), h) && forall q :: q in Unpinned(policies) ==> Settled(h, q.name)
    ensures p.name in h.routing && Settled(h, p.name)
    ensures p.table.Some? ==> h.routing[p.name].table == p.table.value
    ensures p.mark.Some? ==> h.routing[p.name].mark == p.mark.value
  {
    var i :| 0 <= i < |policies| && policies[i] == p;
    assert PinStands(policies, i);
    assert Start(policies).routing[p.name] == PinnedNumbers(p);
    UnpinnedMembers(policies);
    if p.table.Some? && p.mark.Some? { assert Settled(Start(policies), p.name); }
  }

  lemma {:induction false} ReturnsSettled(forwards: seq<Forward>, h: Handing, count: nat)
    requires HandingSound(h, count) && (forall a :: a in h.routing ==> Settled(h, a))
        && FIRST_MARK + count + |forwards| <= MARKS
    ensures var all := HandReturns(Sort(Keys(forwards, 0, []), KeyOrder), 0, h.tables, h.marks, []);
            && AllDistinct(Derived(h.routing, all))
            && (forall k :: HasReturn(all, k) <==> IsPublished(forwards, k))
  {
    var keys := Sort(Keys(forwards, 0, []), KeyOrder);
    KeysMembers(forwards, 0, []);
    SortKeeps(Keys(forwards, 0, []), KeyOrder);
    SortedDistinct(Keys(forwards, 0, []), KeyOrder);
    HandReturnsSound(keys, 0, h.tables, h.marks, [], h.routing, count);
    var all := HandReturns(keys, 0, h.tables, h.marks, []);
    forall k ensures HasReturn(all, k) <==> IsPublished(forwards, k) {
      assert HasReturn(all, k) <==> k in keys by {
        if k in keys { var i :| 0 <= i < |keys| && keys[i] == k; assert all[i].key == k; }
      }
    }
    forall a | a in h.routing ensures h.routing[a].table !in RESERVED && h.routing[a].mark != 0 {
      assert Settled(h, a);
    }
  }

  /** In an accepted configuration every policy has its pins and every uplink and family a
      forward is published on has exactly one entry; all tables are pairwise different and
      none is the kernel's own, all marks are pairwise different and none is zero. */
  lemma {:induction false} NumbersAreDistinct(policies: seq<Policy>, forwards: seq<Forward>)
    requires DistinctNames(policies) && Pins(policies, 0, NO_PINS).problems == []
    requires FIRST_MARK + 2 * |policies| + |forwards| <= MARKS
    ensures var d := Derive(policies, forwards);
            && AllDistinct(d)
            && (forall n :: n in d.policies <==> exists p :: p in policies && p.name == n)
            && (forall p :: p in policies ==> (p.table.Some? ==> d.policies[p.name].table == p.table.value))
            && (forall p :: p in policies ==> (p.mark.Some? ==> d.policies[p.name].mark == p.mark.value))
            && (forall k :: HasReturn(d.returns_, k) <==> IsPublished(forwards, k))
  {
    PinsAreChecked(policies);
    PoliciesSettled(policies);
    ReturnsSettled(forwards, Handed(Pins(policies, 0, NO_PINS)), 2 * |policies|);
  }

  // ----- the order of the file does not matter ---------------------------------------

  lemma {:induction false} SameMembers<T(!new)>(a: seq<T>, b: seq<T>)
    requires multiset(a) == multiset(b)
    ensures forall x :: x in a <==> x in b
  {
    forall x ensures x in a <==> x in b { assert x in multiset(a) <==> x in multiset(b); }
  }

  lemma {:induction false} UnpinnedDistinct(policies: seq<Policy>)
    requires DistinctNames(policies)
    ensures forall i, j :: 0 <= i < j < |Unpinned(policies)| ==> Unpinned(policies)[i] != Unpinned(policies)[j]
  {
    if policies != [] {
      UnpinnedDistinct(policies[1..]);
      UnpinnedMembers(policies[1..]);
      assert policies[0] !in policies[1..];
      var rest := Unpinned(policies[1..]);
      assert forall j :: 0 <= j < |rest| ==> rest[j] in rest;
    }
  }

  lemma {:induction false} PolicyOrders()
    ensures TotalPreorder(PolicyOrder)
    ensures forall a, b :: PolicyOrder(a, b) && PolicyOrder(b, a) ==> a.name == b.name
  {
    TextOrder();
  }

  lemma {:induction false} KeyOrders()
    ensures TotalPreorder(KeyOrder)
    ensures forall a, b :: KeyOrder(a, b) && KeyOrder(b, a) ==> a == b
  {
    TextOrder();
  }

  lemma {:induction false} SortedAlike(a: seq<Policy>, b: seq<Policy>)
    requires DistinctNames(a) && DistinctNames(b) && multiset(a) == multiset(b)
    ensures Sort(Unpinned(a), PolicyOrder) == Sort(Unpinned(b), PolicyOrder)
  {
    SameMembers(a, b);
    UnpinnedMembers(a);
    UnpinnedMembers(b);
    UnpinnedDistinct(a);
    UnpinnedDistinct(b);
    DistinctSameCounts(Unpinned(a), Unpinned(b));
    PolicyOrders();
    forall p, q | p in Unpinned(a) && q in Unpinned(a) && PolicyOrder(p, q) && PolicyOrder(q, p) ensures p == q {}
    SortIgnoresOrder(Unpinned(a), Unpinned(b), PolicyOrder);
  }

  lemma {:induction false} KeysAlike(a: seq<Forward>, b: seq<Forward>)
    requires multiset(a) == multiset(b)
    ensures Sort(Keys(a, 0, []), KeyOrder) == Sort(Keys(b, 0, []), KeyOrder)
  {
    SameMembers(a, b);
    KeysMembers(a, 0, []);
    KeysMembers(b, 0, []);
    forall k ensures k in Keys(a, 0, []) <==> k in Keys(b, 0, []) {
      if j :| 0 <= j < |a| && Publishes(a[j], k) { assert a[j] in b; }
      if j :| 0 <= j < |b| && Publishes(b[j], k) { assert b[j] in a; }
    }
    DistinctSameCounts(Keys(a, 0, []), Keys(b, 0, []));
    KeyOrders();
    SortIgnoresOrder(Keys(a, 0, []), Keys(b, 0, []), KeyOrder);
  }

  lemma {:induction false} AcceptableAlike(a: seq<Policy>, b: seq<Policy>)
    requires DistinctNames(a) && DistinctNames(b) && multiset(a) == multiset(b) && Acceptable(a)
    ensures Acceptable(b)
  {
    SameMembers(a, b);
    forall i | 0 <= i < |b| ensures PinStands(b, i) {
      assert b[i] in a;
      var x :| 0 <= x < |a| && a[x] == b[i];
      assert PinStands(a, x);
      forall k | 0 <= k < i
        ensures (b[k].table.Some? ==> b[k].table != b[i].table) && (b[k].mark.Some? ==> b[k].mark != b[i].mark)
      {
        assert b[k] in a;
        var y :| 0 <= y < |a| && a[y] == b[k];
        assert PinStands(a, y);
        assert x != y by { assert b[k].name != b[i].name; }
      }
    }
  }

  lemma {:induction false} PinsAlike(a: seq<Policy>, b: seq<Policy>)
    requires DistinctNames(a) && DistinctNames(b) && multiset(a) == multiset(b) && Acceptable(a) && Acceptable(b)
    ensures Start(a) == Start(b)
  {
    SameMembers(a, b);
    PinsAreChecked(a);
    PinsAreChecked(b);
    PinsWithin(a, b);
    PinsWithin(b, a);
    var s, t := Pins(a, 0, NO_PINS), Pins(b, 0, NO_PINS);
    assert s.routing == t.routing && s.tables.Keys == t.tables.Keys && s.marks.Keys == t.marks.Keys;
  }

  lemma {:induction false} PinsWithin(a: seq<Policy>, b: seq<Policy>)
    requires forall p :: p in a ==> p in b
    requires Tracks(Pins(a, 0, NO_PINS), a, |a|) && Tracks(Pins(b, 0, NO_PINS), b, |b|)
    ensures var s, t := Pins(a, 0, NO_PINS), Pins(b, 0, NO_PINS);
            && s.tables.Keys <= t.tables.Keys && s.marks.Keys <= t.marks.Keys
            && forall n :: n in s.routing ==> n in t.routing && s.routing[n] == t.routing[n]
  {
    var s, t := Pins(a, 0, NO_PINS), Pins(b, 0, NO_PINS);
    forall n | n in s.tables ensures n in t.tables {
      var k :| 0 <= k < |a| && a[k].table == Some(n);
      assert a[k] in b;
    }
    forall n | n in s.marks ensures n in t.marks {
      var k :| 0 <= k < |a| && a[k].mark.Some? && a[k].mark.value == n;
      assert a[k] in b;
    }
    forall n | n in s.routing ensures n in t.routing && s.routing[n] == t.routing[n] {
      var k :| 0 <= k < |a| && a[k].name == n;
      assert a[k] in b;
    }
  }

  /** Any order of the resources gives the same numbers, and is accepted alike. */
  lemma {:induction false} OrderDoesNotMatter(a: seq<Policy>, b: seq<Policy>, f: seq<Forward>, g: seq<Forward>)
    requires DistinctNames(a) && DistinctNames(b) && multiset(a) == multiset(b) && multiset(f) == multiset(g)
    requires Pins(a, 0, NO_PINS).problems == []
    ensures Pins(b, 0, NO_PINS).problems == [] && Derive(a, f) == Derive(b, g)
  {
    PinsAreChecked(a);
    AcceptableAlike(a, b);
    PinsAreChecked(b);
    PinsAlike(a, b);
    SortedAlike(a, b);
    KeysAlike(f, g);
    UnpinnedAreRouted(a, 0, NO_PINS);
    UnpinnedAreRouted(b, 0, NO_PINS);
    assert Handed(Pins(a, 0, NO_PINS)) == Handed(Pins(b, 0, NO_PINS));
  }
}
