/** Which numbers are handed out: in the order the policies are evaluated in, then to the
    uplinks by family and name, each the least that is left. */
module NumberOrder {
  import opened Orders
  import opened Host
  import opened Families
  import opened Allocation
  import opened NumberFacts

  /** One policy is evaluated ahead of another: IPv4 first, then the lower priority, then the
      name. One without a priority counts as the highest there is meant to be. */
  ghost predicate Earlier(a: Policy, b: Policy) {
    var first := if a.priority.Some? then a.priority.value else 0x4000_0000;
    var second := if b.priority.Some? then b.priority.value else 0x4000_0000;
    if a.family != b.family then a.family == IPv4
    else if first != second then first < second
    else a.name != b.name && TextLe(a.name, b.name)
  }

  /** One uplink and family comes ahead of another: IPv4 first, then by name. */
  ghost predicate KeyEarlier(a: ReturnKey, b: ReturnKey) {
    if a.family != b.family then a.family == IPv4 else a.uplink != b.uplink && TextLe(a.uplink, b.uplink)
  }

  lemma {:induction false} EarlierIs(a: Policy, b: Policy)
    ensures PolicyOrder(a, b) && a.name != b.name ==> Earlier(a, b)
    ensures Earlier(a, b) ==> !PolicyOrder(b, a)
  {
    if TextLe(a.name, b.name) && TextLe(b.name, a.name) { TextAntisymmetric(a.name, b.name); }
  }

  // ----- handing out to the policies -------------------------------------------------

  function Hand(h: Handing, name: string): Handing
    requires name in h.routing
  {
    HandMark(HandTable(h, name), name)
  }

  ghost predicate Names(sorted: seq<Policy>) {
    forall i, j :: 0 <= i < j < |sorted| ==> sorted[i].name != sorted[j].name
  }

  lemma {:induction false} Unmoved(sorted: seq<Policy>, i: nat, h: Handing, name: string)
    requires i <= |sorted| && (forall p :: p in sorted ==> p.name in h.routing) && name in h.routing
    requires forall k :: i <= k < |sorted| ==> sorted[k].name != name
    ensures var out := HandPolicies(sorted, i, h); name in out.routing && out.routing[name] == h.routing[name]
    decreases |sorted| - i
  {
    if i < |sorted| { Unmoved(sorted, i + 1, Hand(h, sorted[i].name), name); }
  }

  predicate SamePins(h: Handing, next: Handing) {
    && next.routing.Keys == h.routing.Keys
    && forall a :: a in h.routing ==>
         && next.routing[a].tablePinned == h.routing[a].tablePinned
         && next.routing[a].markPinned == h.routing[a].markPinned
  }

  /** What one step hands out lies between the cursor before it and the one after. */
  lemma {:induction false} HandBetween(h: Handing, name: string, count: nat)
    requires HandingSound(h, count) && name in h.routing && FIRST_MARK + count < MARKS
    ensures var next := Hand(h, name);
            && HandingSound(next, count + 1) && SamePins(h, next)
            && h.tables.next <= next.tables.next && h.marks.next <= next.marks.next
            && (!h.routing[name].tablePinned ==> h.tables.next <= next.routing[name].table < next.tables.next)
            && (!h.routing[name].markPinned ==> h.marks.next <= next.routing[name].mark < next.marks.next)
  {
    HandOne(h, name, count);
    DrawFills(HandTable(h, name).marks, FIRST_MARK, count);
  }

  /** From here on, what a policy is handed is at or above the cursors now, and below those at
      the end. */
  lemma {:induction false} HandedWithin(sorted: seq<Policy>, i: nat, h: Handing, count: nat, k: nat)
    requires i <= k < |sorted| && Names(sorted) && (forall p :: p in sorted ==> p.name in h.routing)
    requires HandingSound(h, count) && FIRST_MARK + count + |sorted| - i <= MARKS
    ensures var out, name := HandPolicies(sorted, i, h), sorted[k].name;
            && name in out.routing
            && (!h.routing[name].tablePinned ==> h.tables.next <= out.routing[name].table < out.tables.next)
            && (!h.routing[name].markPinned ==> h.marks.next <= out.routing[name].mark < out.marks.next)
    decreases |sorted| - i
  {
    var next := Hand(h, sorted[i].name);
    HandBetween(h, sorted[i].name, count);
    CursorsGrow(sorted, i + 1, next, count + 1);
    if i < k {
      HandedWithin(sorted, i + 1, next, count + 1, k);
    } else {
      Unmoved(sorted, i + 1, next, sorted[i].name);
    }
  }

  lemma {:induction false} CursorsGrow(sorted: seq<Policy>, i: nat, h: Handing, count: nat)
    requires i <= |sorted| && (forall p :: p in sorted ==> p.name in h.routing)
    requires HandingSound(h, count) && FIRST_MARK + count + |sorted| - i <= MARKS
    ensures var out := HandPolicies(sorted, i, h); h.tables.next <= out.tables.next && h.marks.next <= out.marks.next
    decreases |sorted| - i
  {
    if i < |sorted| {
      HandBetween(h, sorted[i].name, count);
      CursorsGrow(sorted, i + 1, Hand(h, sorted[i].name), count + 1);
    }
  }

  /** Of two policies handed a number, the one handed it first has the lower. */
  lemma {:induction false} HandedInOrder(sorted: seq<Policy>, i: nat, h: Handing, count: nat, j: nat, k: nat)
    requires i <= j < k < |sorted| && Names(sorted) && (forall p :: p in sorted ==> p.name in h.routing)
    requires HandingSound(h, count) && FIRST_MARK + count + |sorted| - i <= MARKS
    ensures var out, a, b := HandPolicies(sorted, i, h), sorted[j].name, sorted[k].name;
            && a in out.routing && b in out.routing
            && (!h.routing[a].tablePinned && !h.routing[b].tablePinned ==> out.routing[a].table < out.routing[b].table)
            && (!h.routing[a].markPinned && !h.routing[b].markPinned ==> out.routing[a].mark < out.routing[b].mark)
    decreases |sorted| - i
  {
    var next := Hand(h, sorted[i].name);
    HandBetween(h, sorted[i].name, count);
    if i < j {
      HandedInOrder(sorted, i + 1, next, count + 1, j, k);
    } else {
      Unmoved(sorted, i + 1, next, sorted[i].name);
      HandedWithin(sorted, i + 1, next, count + 1, k);
    }
  }

  // ----- handing out to the uplinks --------------------------------------------------

  /** Entries for some keys, each with a number above the cursor it was drawn at. */
  ghost predicate Rising(all: seq<ForwardReturn>, from: nat, tables: int, marks: int) {
    && (forall i :: from <= i < |all| ==> all[i].table >= tables && all[i].mark >= marks)
    && forall i, j :: from <= i < j < |all| ==> all[i].table < all[j].table && all[i].mark < all[j].mark
  }

  lemma {:induction false} ReturnsKeep(keys: seq<ReturnKey>, i: nat, tables: Cursor, marks: Cursor,
      given: seq<ForwardReturn>)
    requires i <= |keys| && |given| == i && forall k :: 0 <= k < i ==> given[k].key == keys[k]
    ensures var all := HandReturns(keys, i, tables, marks, given);
            given <= all && |all| == |keys| && forall k :: 0 <= k < |keys| ==> all[k].key == keys[k]
    decreases |keys| - i
  {
    if i < |keys| {
      var (t, tables') := Draw(tables, RESERVED);
      var (m, marks') := Draw(marks, {});
      ReturnsKeep(keys, i + 1, tables', marks', given + [ForwardReturn(keys[i], t, Truncated(m))]);
    }
  }

  lemma {:induction false} RisesFrom(all: seq<ForwardReturn>, i: nat, tables: int, marks: int, tables': int,
      marks': int)
    requires i < |all| && Rising(all, i + 1, tables', marks')
    requires tables <= all[i].table < tables' && marks <= all[i].mark < marks'
    ensures Rising(all, i, tables, marks)
  {}

  lemma {:induction false} ReturnsGrow(keys: seq<ReturnKey>, i: nat, tables: Cursor, marks: Cursor,
      given: seq<ForwardReturn>)
    requires i <= |keys|
    ensures given <= HandReturns(keys, i, tables, marks, given)
    ensures |HandReturns(keys, i, tables, marks, given)| == |given| + |keys| - i
    decreases |keys| - i
  {
    if i < |keys| {
      var (t, tables') := Draw(tables, RESERVED);
      var (m, marks') := Draw(marks, {});
      ReturnsGrow(keys, i + 1, tables', marks', given + [ForwardReturn(keys[i], t, Truncated(m))]);
    }
  }

  lemma {:induction false} BothDrawn(tables: Cursor, marks: Cursor, count: nat)
    requires Filled(marks, FIRST_MARK, count) && FIRST_MARK + count < MARKS
    ensures tables.next <= Draw(tables, RESERVED).0 < Draw(tables, RESERVED).1.next
    ensures marks.next <= Draw(marks, {}).0 < Draw(marks, {}).1.next
    ensures Truncated(Draw(marks, {}).0) == Draw(marks, {}).0
    ensures Filled(Draw(marks, {}).1, FIRST_MARK, count + 1)
  {
    DrawFills(marks, FIRST_MARK, count);
  }

  lemma {:induction false} ReturnsRise(keys: seq<ReturnKey>, i: nat, tables: Cursor, marks: Cursor,
      given: seq<ForwardReturn>, count: nat)
    requires i <= |keys| && Filled(marks, FIRST_MARK, count) && FIRST_MARK + count + |keys| - i <= MARKS
    ensures Rising(HandReturns(keys, i, tables, marks, given), |given|, tables.next, marks.next)
    decreases |keys| - i
  {
    ReturnsGrow(keys, i, tables, marks, given);
    if i < |keys| {
      var (t, tables') := Draw(tables, RESERVED);
      var (m, marks') := Draw(marks, {});
      var more := given + [ForwardReturn(keys[i], t, Truncated(m))];
      BothDrawn(tables, marks, count);
      ReturnsGrow(keys, i + 1, tables', marks', more);
      ReturnsRise(keys, i + 1, tables', marks', more, count + 1);
      RisesFrom(HandReturns(keys, i + 1, tables', marks', more), |given|, tables.next, marks.next, tables'.next,
          marks'.next);
    }
  }

  // ----- the whole derivation --------------------------------------------------------

  lemma {:induction false} SortedNames(policies: seq<Policy>)
    requires DistinctNames(policies)
    ensures var sorted := Sort(Unpinned(policies), PolicyOrder);
            && Names(sorted) && |sorted| == |Unpinned(policies)|
            && (forall p :: p in sorted <==> p in policies && !(p.table.Some? && p.mark.Some?))
  {
    var sorted := Sort(Unpinned(policies), PolicyOrder);
    UnpinnedMembers(policies);
    UnpinnedDistinct(policies);
    SortKeeps(Unpinned(policies), PolicyOrder);
    SortedDistinct(Unpinned(policies), PolicyOrder);
    forall i, j | 0 <= i < j < |sorted| ensures sorted[i].name != sorted[j].name {
      assert sorted[i] in policies && sorted[j] in policies;
    }
  }

  lemma {:induction false} SortedEarlier(policies: seq<Policy>, i: nat, j: nat)
    requires i < |Sort(policies, PolicyOrder)| && j < |Sort(policies, PolicyOrder)|
    requires Earlier(Sort(policies, PolicyOrder)[i], Sort(policies, PolicyOrder)[j])
    ensures i < j
  {
    var sorted := Sort(policies, PolicyOrder);
    PolicyOrders();
    SortSorted(policies, PolicyOrder);
    EarlierIs(sorted[i], sorted[j]);
  }

  ghost predicate AcceptedPins(policies: seq<Policy>, forwards: seq<Forward>) {
    && DistinctNames(policies) && Pins(policies, 0, NO_PINS).problems == []
    && FIRST_MARK + 2 * |policies| + |forwards| <= MARKS
  }

  /** The handing out as it starts, in the order it goes through the policies. */
  lemma {:induction false} HandingStarts(policies: seq<Policy>, forwards: seq<Forward>)
    requires AcceptedPins(policies, forwards)
    ensures var sorted, h := Sort(Unpinned(policies), PolicyOrder), Start(policies);
            && (forall p :: p in sorted ==> p.name in h.routing)
            && HandingSound(h, |policies|) && FIRST_MARK + |policies| + |sorted| <= MARKS
            && (forall p :: p in policies ==>
                  p.name in h.routing && h.routing[p.name] == PinnedNumbers(p))
            && Derive(policies, forwards).policies == HandPolicies(sorted, 0, h).routing
  {
    PinsAreChecked(policies);
    SortedNames(policies);
    UnpinnedMembers(policies);
    UnpinnedAreRouted(policies, 0, NO_PINS);
    StartSound(policies);
    forall p | p in policies ensures p.name in Start(policies).routing
      && Start(policies).routing[p.name] == PinnedNumbers(p)
    {
      var k :| 0 <= k < |policies| && policies[k] == p;
    }
  }

  /** Of two policies that leave a number to be handed out, the one evaluated first is handed the
      lower: IPv4 ahead of IPv6, and in a family by priority. */
  lemma {:induction false} NumbersFollowPriority(policies: seq<Policy>, forwards: seq<Forward>, p: Policy, q: Policy)
    requires AcceptedPins(policies, forwards) && p in policies && q in policies && Earlier(p, q)
    ensures p.name in Derive(policies, forwards).policies && q.name in Derive(policies, forwards).policies
    ensures var d := Derive(policies, forwards).policies;
            && (p.table.None? && q.table.None? ==> d[p.name].table < d[q.name].table)
            && (p.mark.None? && q.mark.None? ==> d[p.name].mark < d[q.name].mark)
  {
    NumbersAreDistinct(policies, forwards);
    if (p.table.None? && q.table.None?) || (p.mark.None? && q.mark.None?) {
      var sorted := Sort(Unpinned(policies), PolicyOrder);
      SortedNames(policies);
      HandingStarts(policies, forwards);
      var j :| 0 <= j < |sorted| && sorted[j] == p;
      var k :| 0 <= k < |sorted| && sorted[k] == q;
      SortedEarlier(Unpinned(policies), j, k);
      HandedInOrder(sorted, 0, Start(policies), |policies|, j, k);
    }
  }

  lemma {:induction false} ReturnsInOrder(policies: seq<Policy>, forwards: seq<Forward>)
    requires AcceptedPins(policies, forwards)
    ensures forall q :: q in Pins(policies, 0, NO_PINS).unpinned ==> q.name in Pins(policies, 0, NO_PINS).routing
    ensures var d, out := Derive(policies, forwards), Handed(Pins(policies, 0, NO_PINS));
            d.policies == out.routing && Rising(d.returns_, 0, out.tables.next, out.marks.next)
    ensures var d := Derive(policies, forwards);
            forall i, j :: 0 <= i < j < |d.returns_| ==> KeyEarlier(d.returns_[i].key, d.returns_[j].key)
  {
    PinsAreChecked(policies);
    PoliciesSettled(policies);
    var out, keys := Handed(Pins(policies, 0, NO_PINS)), Sort(Keys(forwards, 0, []), KeyOrder);
    KeysInOrder(forwards);
    ReturnsKeep(keys, 0, out.tables, out.marks, []);
    ReturnsRise(keys, 0, out.tables, out.marks, [], 2 * |policies|);
    assert Derive(policies, forwards) == Derived(out.routing, HandReturns(keys, 0, out.tables, out.marks, []));
  }

  /** The uplinks are handed theirs by family and name, and after every policy. */
  lemma {:induction false} ReturnsFollow(policies: seq<Policy>, forwards: seq<Forward>)
    requires AcceptedPins(policies, forwards)
    ensures var d := Derive(policies, forwards);
            && (forall i, j :: 0 <= i < j < |d.returns_| ==>
                  && KeyEarlier(d.returns_[i].key, d.returns_[j].key)
                  && d.returns_[i].table < d.returns_[j].table && d.returns_[i].mark < d.returns_[j].mark)
            && forall p, i :: p in policies && 0 <= i < |d.returns_| ==>
                  && p.name in d.policies
                  && (p.table.None? ==> d.policies[p.name].table < d.returns_[i].table)
                  && (p.mark.None? ==> d.policies[p.name].mark < d.returns_[i].mark)
  {
    ReturnsInOrder(policies, forwards);
    forall p | p in policies
      ensures var out := Handed(Pins(policies, 0, NO_PINS));
              && p.name in out.routing
              && (p.table.None? ==> out.routing[p.name].table < out.tables.next)
              && (p.mark.None? ==> out.routing[p.name].mark < out.marks.next)
    {
      BelowCursors(policies, forwards, p);
    }
  }

  lemma {:induction false} BelowCursors(policies: seq<Policy>, forwards: seq<Forward>, p: Policy)
    requires AcceptedPins(policies, forwards) && p in policies
    ensures forall q :: q in Pins(policies, 0, NO_PINS).unpinned ==> q.name in Pins(policies, 0, NO_PINS).routing
    ensures var out := Handed(Pins(policies, 0, NO_PINS));
            && p.name in out.routing
            && (p.table.None? ==> 100 <= out.routing[p.name].table < out.tables.next)
            && (p.mark.None? ==> 0x100 <= out.routing[p.name].mark < out.marks.next)
  {
    PinsAreChecked(policies);
    PoliciesSettled(policies);
    if p.table.None? || p.mark.None? {
      var sorted := Sort(Unpinned(policies), PolicyOrder);
      SortedNames(policies);
      HandingStarts(policies, forwards);
      var k :| 0 <= k < |sorted| && sorted[k] == p;
      HandedWithin(sorted, 0, Start(policies), |policies|, k);
    }
  }

  lemma {:induction false} KeysInOrder(forwards: seq<Forward>)
    ensures var keys := Sort(Keys(forwards, 0, []), KeyOrder);
            |keys| <= |forwards| && forall i, j :: 0 <= i < j < |keys| ==> KeyEarlier(keys[i], keys[j])
  {
    var keys := Sort(Keys(forwards, 0, []), KeyOrder);
    KeysMembers(forwards, 0, []);
    SortKeeps(Keys(forwards, 0, []), KeyOrder);
    SortedDistinct(Keys(forwards, 0, []), KeyOrder);
    KeyOrders();
    SortSorted(Keys(forwards, 0, []), KeyOrder);
    forall i, j | 0 <= i < j < |keys| ensures KeyEarlier(keys[i], keys[j]) {
      assert KeyOrder(keys[i], keys[j]) && keys[i] != keys[j];
    }
  }

  // ----- nothing is left out ---------------------------------------------------------

  /** Some policy or uplink has the number. */
  ghost predicate TableIsHeld(routing: map<string, Numbers>, given: seq<ForwardReturn>, n: int) {
    (exists a :: a in routing && routing[a].table == n) || exists i :: 0 <= i < |given| && given[i].table == n
  }

  ghost predicate MarkIsHeld(routing: map<string, Numbers>, given: seq<ForwardReturn>, n: int) {
    (exists a :: a in routing && routing[a].mark == n) || exists i :: 0 <= i < |given| && given[i].mark == n
  }

  /** Every number spoken for is somebody's, and up to the cursors each is, or is the kernel's. */
  ghost predicate Dense(routing: map<string, Numbers>, given: seq<ForwardReturn>, tables: Cursor, marks: Cursor) {
    && (forall n :: n in tables.taken ==> n != 0 && TableIsHeld(routing, given, n))
    && (forall n :: n in marks.taken ==> n != 0 && MarkIsHeld(routing, given, n))
    && (forall n :: 100 <= n < tables.next ==> n in {0, 253, 254, 255} || n in tables.taken)
    && (forall n :: 0x100 <= n < marks.next ==> n in marks.taken)
    && tables.next >= 100 && marks.next >= 0x100
  }

  /** What is passed over in a draw is spoken for, or the kernel's. */
  lemma {:induction false} PassedOver(c: Cursor, reserved: set<int>)
    ensures var (n, next) := Draw(c, reserved);
            && c.next <= n < next.next && next.taken == c.taken + {n}
            && forall m :: c.next <= m < n ==> m in c.taken || m in reserved
  {
    var (n, next) := Draw(c, reserved);
    forall m | c.next <= m < n ensures m in c.taken || m in reserved { assert m in c.taken + reserved; }
  }

  lemma {:induction false} HandTableDense(h: Handing, name: string)
    requires Dense(h.routing, [], h.tables, h.marks) && name in h.routing
    requires !h.routing[name].tablePinned ==> h.routing[name].table == 0
    ensures var next := HandTable(h, name); Dense(next.routing, [], next.tables, next.marks)
  {
    var next := HandTable(h, name);
    PassedOver(h.tables, RESERVED);
    forall n | n in next.tables.taken ensures n != 0 && TableIsHeld(next.routing, [], n) {
      if n in h.tables.taken {
        assert TableIsHeld(h.routing, [], n);
        var a :| a in h.routing && h.routing[a].table == n;
        assert next.routing[a].table == n;
      } else {
        assert next.routing[name].table == n;
      }
    }
    forall n | n in next.marks.taken ensures n != 0 && MarkIsHeld(next.routing, [], n) {
      assert MarkIsHeld(h.routing, [], n);
      var a :| a in h.routing && h.routing[a].mark == n;
      assert next.routing[a].mark == n;
    }
  }

  lemma {:induction false} HandMarkDense(h: Handing, name: string, count: nat)
    requires Dense(h.routing, [], h.tables, h.marks) && name in h.routing
    requires HandingSound(h, count) && FIRST_MARK + count < MARKS
    requires !h.routing[name].markPinned ==> h.routing[name].mark == 0
    ensures var next := HandMark(h, name); Dense(next.routing, [], next.tables, next.marks)
  {
    var next := HandMark(h, name);
    DrawFills(h.marks, FIRST_MARK, count);
    PassedOver(h.marks, {});
    forall n | n in next.marks.taken ensures n != 0 && MarkIsHeld(next.routing, [], n) {
      if n in h.marks.taken {
        assert MarkIsHeld(h.routing, [], n);
        var a :| a in h.routing && h.routing[a].mark == n;
        assert next.routing[a].mark == n;
      } else {
        assert next.routing[name].mark == n;
      }
    }
    forall n | n in next.tables.taken ensures n != 0 && TableIsHeld(next.routing, [], n) {
      assert TableIsHeld(h.routing, [], n);
      var a :| a in h.routing && h.routing[a].table == n;
      assert next.routing[a].table == n;
    }
  }

  /** The policies from here on have been handed nothing yet. */
  ghost predicate Waiting(sorted: seq<Policy>, i: nat, h: Handing) {
    forall k :: i <= k < |sorted| ==>
      && sorted[k].name in h.routing
      && (!h.routing[sorted[k].name].tablePinned ==> h.routing[sorted[k].name].table == 0)
      && (!h.routing[sorted[k].name].markPinned ==> h.routing[sorted[k].name].mark == 0)
  }

  lemma {:induction false} StillWaiting(sorted: seq<Policy>, i: nat, h: Handing)
    requires i < |sorted| && Names(sorted) && Waiting(sorted, i, h)
    ensures Waiting(sorted, i + 1, Hand(h, sorted[i].name))
  {
    var next := Hand(h, sorted[i].name);
    forall k | i + 1 <= k < |sorted|
      ensures sorted[k].name in h.routing && next.routing[sorted[k].name] == h.routing[sorted[k].name]
    {
      assert sorted[i].name != sorted[k].name;
    }
  }

  lemma {:induction false} HandPoliciesDense(sorted: seq<Policy>, i: nat, h: Handing, count: nat)
    requires i <= |sorted| && Names(sorted) && (forall p :: p in sorted ==> p.name in h.routing)
    requires Waiting(sorted, i, h) && Dense(h.routing, [], h.tables, h.marks)
    requires HandingSound(h, count) && FIRST_MARK + count + |sorted| - i <= MARKS
    ensures var out := HandPolicies(sorted, i, h); Dense(out.routing, [], out.tables, out.marks)
    decreases |sorted| - i
  {
    if i < |sorted| {
      var name := sorted[i].name;
      var middle, next := HandTable(h, name), Hand(h, name);
      HandTableDense(h, name);
      HandTableSound(h, name, count);
      HandMarkDense(middle, name, count);
      HandBetween(h, name, count);
      StillWaiting(sorted, i, h);
      HandPoliciesDense(sorted, i + 1, next, count + 1);
    }
  }

  lemma {:induction false} HandReturnsDense(keys: seq<ReturnKey>, i: nat, tables: Cursor, marks: Cursor,
      given: seq<ForwardReturn>, routing: map<string, Numbers>, count: nat) returns (t: Cursor, m: Cursor)
    requires i <= |keys| && Dense(routing, given, tables, marks)
    requires Filled(marks, FIRST_MARK, count) && FIRST_MARK + count + |keys| - i <= MARKS
    ensures Dense(routing, HandReturns(keys, i, tables, marks, given), t, m)
    ensures tables.next <= t.next && marks.next <= m.next
    ensures forall r :: r in HandReturns(keys, i, tables, marks, given) && r !in given ==>
              100 <= r.table < t.next && 0x100 <= r.mark < m.next
    decreases |keys| - i
  {
    if i == |keys| {
      t, m := tables, marks;
    } else {
      DrawFills(marks, FIRST_MARK, count);
      var (n, tables') := Draw(tables, RESERVED);
      var (k, marks') := Draw(marks, {});
      var more := given + [ForwardReturn(keys[i], n, Truncated(k))];
      OneMoreDense(routing, given, more[|given|], tables, marks);
      t, m := HandReturnsDense(keys, i + 1, tables', marks', more, routing, count + 1);
    }
  }

  lemma {:induction false} OneMoreDense(routing: map<string, Numbers>, given: seq<ForwardReturn>, r: ForwardReturn,
      tables: Cursor, marks: Cursor)
    requires Dense(routing, given, tables, marks)
    requires r.table == Draw(tables, RESERVED).0 && r.mark == Draw(marks, {}).0
    ensures Dense(routing, given + [r], Draw(tables, RESERVED).1, Draw(marks, {}).1)
  {
    var more := given + [r];
    PassedOver(tables, RESERVED);
    PassedOver(marks, {});
    assert more[|given|] == r;
    forall n | TableIsHeld(routing, given, n) ensures TableIsHeld(routing, more, n) {
      if i :| 0 <= i < |given| && given[i].table == n { assert more[i].table == n; }
    }
    forall n | MarkIsHeld(routing, given, n) ensures MarkIsHeld(routing, more, n) {
      if i :| 0 <= i < |given| && given[i].mark == n { assert more[i].mark == n; }
    }
  }

  lemma {:induction false} StartDense(policies: seq<Policy>)
    requires DistinctNames(policies) && Acceptable(policies)
    requires Tracks(Pins(policies, 0, NO_PINS), policies, |policies|)
    ensures var h := Start(policies); Dense(h.routing, [], h.tables, h.marks)
  {
    var h := Start(policies);
    forall n | n in h.tables.taken ensures n != 0 && TableIsHeld(h.routing, [], n) {
      var k :| 0 <= k < |policies| && PinsTable(policies[k], n);
      assert PinStands(policies, k) && h.routing[policies[k].name].table == n;
    }
    forall n | n in h.marks.taken ensures n != 0 && MarkIsHeld(h.routing, [], n) {
      var k :| 0 <= k < |policies| && PinsMark(policies[k], n);
      assert PinStands(policies, k) && h.routing[policies[k].name].mark == n;
    }
  }

  lemma {:induction false} StartWaits(sorted: seq<Policy>, policies: seq<Policy>, h: Handing)
    requires forall p :: p in sorted ==> p in policies
    requires forall p :: p in policies ==> p.name in h.routing && h.routing[p.name] == PinnedNumbers(p)
    ensures Waiting(sorted, 0, h)
  {
    forall k | 0 <= k < |sorted| ensures sorted[k] in policies { assert sorted[k] in sorted; }
  }

  lemma {:induction false} PoliciesDense(policies: seq<Policy>, forwards: seq<Forward>)
    requires AcceptedPins(policies, forwards)
    ensures forall q :: q in Pins(policies, 0, NO_PINS).unpinned ==> q.name in Pins(policies, 0, NO_PINS).routing
    ensures var h := Handed(Pins(policies, 0, NO_PINS)); Dense(h.routing, [], h.tables, h.marks)
  {
    var sorted, h := Sort(Unpinned(policies), PolicyOrder), Start(policies);
    PinsAreChecked(policies);
    UnpinnedAreRouted(policies, 0, NO_PINS);
    SortedNames(policies);
    HandingStarts(policies, forwards);
    StartDense(policies);
    StartWaits(sorted, policies, h);
    HandPoliciesDense(sorted, 0, h, |policies|);
  }

  /** Below a number that is handed out, and from the first on, every number is the kernel's own
      or somebody's. */
  ghost predicate LeastTable(d: Derived, table: int) {
    && table >= 100
    && forall n :: 100 <= n < table ==> n in {0, 253, 254, 255} || TableIsHeld(d.policies, d.returns_, n)
  }

  ghost predicate LeastMark(d: Derived, mark: int) {
    mark >= 0x100 && forall n :: 0x100 <= n < mark ==> MarkIsHeld(d.policies, d.returns_, n)
  }

  lemma {:induction false} BelowIsLeast(d: Derived, t: Cursor, m: Cursor)
    requires Dense(d.policies, d.returns_, t, m)
    ensures forall n :: 100 <= n < t.next ==> LeastTable(d, n)
    ensures forall n :: 0x100 <= n < m.next ==> LeastMark(d, n)
  {}

  /** No number is skipped: what is handed out, to policies and to uplinks, is the least that is
      left, from 100 and from 0x100 on. */
  lemma {:induction false} NumbersAreLeast(policies: seq<Policy>, forwards: seq<Forward>)
    requires AcceptedPins(policies, forwards)
    ensures var d := Derive(policies, forwards);
            && (forall p :: p in policies ==>
                  && p.name in d.policies
                  && (p.table.None? ==> LeastTable(d, d.policies[p.name].table))
                  && (p.mark.None? ==> LeastMark(d, d.policies[p.name].mark)))
            && forall r :: r in d.returns_ ==> LeastTable(d, r.table) && LeastMark(d, r.mark)
  {
    PinsAreChecked(policies);
    PoliciesSettled(policies);
    PoliciesDense(policies, forwards);
    KeysInOrder(forwards);
    var d, out := Derive(policies, forwards), Handed(Pins(policies, 0, NO_PINS));
    var keys := Sort(Keys(forwards, 0, []), KeyOrder);
    var t, m := HandReturnsDense(keys, 0, out.tables, out.marks, [], out.routing, 2 * |policies|);
    assert d == Derived(out.routing, HandReturns(keys, 0, out.tables, out.marks, []));
    BelowIsLeast(d, t, m);
    forall p | p in policies
      ensures p.name in d.policies
      ensures p.table.None? ==> LeastTable(d, d.policies[p.name].table)
      ensures p.mark.None? ==> LeastMark(d, d.policies[p.name].mark)
    {
      BelowCursors(policies, forwards, p);
    }
  }
}
