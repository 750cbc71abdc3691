/** The routing tables and firewall marks handed to egress policies and to the uplinks that
    forwards are published on. */
module Allocation {
  import opened Orders
  import opened Host
  import opened Families

  datatype Policy = Policy(name: string, family: Family, priority: Option<int>, table: Option<int>, mark: Option<nat>)

  datatype Forward = Forward(egress: string, target: Option<Family>)

  datatype Numbers = Numbers(table: int, mark: nat, tablePinned: bool, markPinned: bool)

  datatype ReturnKey = ReturnKey(uplink: string, family: Family)

  datatype ForwardReturn = ForwardReturn(key: ReturnKey, table: int, mark: nat)

  datatype Problem =
      | TableReserved(name: string)
      | TableTaken(name: string, owner: string)
      | MarkZero(name: string)
      | MarkTaken(name: string, owner: string)

  datatype Derived = Derived(policies: map<string, Numbers>, returns_: seq<ForwardReturn>)

  const FIRST_TABLE := 100
  const FIRST_MARK := 0x100
  const RESERVED: set<int> := {0, 253, 254, 255}
  const MARKS := 0x1_0000_0000

  // ----- the allocator ---------------------------------------------------------------

  datatype Cursor = Cursor(next: int, taken: set<int>)

  function Above(used: set<int>, from: int): set<int> { set x | x in used && x >= from }

  /** The least number at or above `from` that is not used. */
  function LeastFree(from: int, used: set<int>): (n: int)
    ensures n >= from && n !in used
    ensures forall m :: from <= m < n ==> m in used
    decreases |Above(used, from)|
  {
    if from !in used then from
    else
      assert Above(used, from) == Above(used, from + 1) + {from};
      LeastFree(from + 1, used)
  }

  function Draw(c: Cursor, reserved: set<int>): (int, Cursor) {
    var n := LeastFree(c.next, c.taken + reserved);
    (n, Cursor(n + 1, c.taken + {n}))
  }

  class Allocator {
    var next: int
    var taken: set<int>

    constructor (first: int)
      ensures View() == Cursor(first, {})
    {
      next, taken := first, {};
    }

    function View(): Cursor reads this { Cursor(next, taken) }

    method Reserve(n: int)
      modifies this
      ensures View() == Cursor(old(next), old(taken) + {n})
    {
      taken := taken + {n};
    }

    /** Hands out the least usable number at or above the cursor. It ends because only
        finitely many numbers are spoken for. */
    method Next(reserved: set<int>) returns (n: int)
      modifies this
      ensures old(next) <= n && n !in old(taken) && n !in reserved
      ensures forall m :: old(next) <= m < n ==> m in old(taken) + reserved
      ensures (n, View()) == Draw(old(View()), reserved)
    {
      ghost var used := taken + reserved;
      while next in taken || next in reserved
        invariant taken == old(taken) && next >= old(next)
        invariant forall m :: old(next) <= m < next ==> m in used
        invariant LeastFree(next, used) == LeastFree(old(next), used)
        decreases |Above(used, next)|
      {
        assert Above(used, next) == Above(used, next + 1) + {next};
        next := next + 1;
      }
      n := next;
      assert n == LeastFree(old(next), used);
      taken := taken + {n};
      next := next + 1;
      assert Draw(old(View()), reserved) == (n, Cursor(n + 1, old(taken) + {n}));
      assert View() == Cursor(n + 1, old(taken) + {n});
    }
  }

  // ----- pins ------------------------------------------------------------------------

  datatype Pinned = Pinned(
    routing: map<string, Numbers>, tables: map<int, string>, marks: map<int, string>,
    unpinned: seq<Policy>, problems: seq<Problem>)

  function TableProblem(p: Policy, at: Pinned): seq<Problem> {
    if p.table.None? then []
    else if p.table.value in RESERVED then [TableReserved(p.name)]
    else if p.table.value in at.tables then [TableTaken(p.name, at.tables[p.table.value])]
    else []
  }

  function MarkProblem(p: Policy, at: Pinned): seq<Problem> {
    if p.mark.None? then []
    else if p.mark.value == 0 then [MarkZero(p.name)]
    else if p.mark.value in at.marks then [MarkTaken(p.name, at.marks[p.mark.value])]
    else []
  }

  function PinOne(p: Policy, at: Pinned): Pinned {
    var t, m := TableProblem(p, at), MarkProblem(p, at);
    var table := p.table.Some? && t == [];
    var mark := p.mark.Some? && m == [];
    Pinned(
      at.routing[p.name := Numbers(if table then p.table.value else 0, if mark then p.mark.value else 0, table, mark)],
      if table then at.tables[p.table.value := p.name] else at.tables,
      if mark then at.marks[p.mark.value := p.name] else at.marks,
      if table && mark then at.unpinned else at.unpinned + [p],
      at.problems + t + m)
  }

  function Pins(policies: seq<Policy>, i: nat, at: Pinned): Pinned
    requires i <= |policies|
    decreases |policies| - i
  {
    if i == |policies| then at else Pins(policies, i + 1, PinOne(policies[i], at))
  }

  const NO_PINS := Pinned(map[], map[], map[], [], [])

  // ----- handing out -----------------------------------------------------------------

  /** A policy whose priority is missing comes last. */
  function PriorityOf(p: Policy): int { if p.priority.Some? then p.priority.value else 0x4000_0000 }

  predicate PolicyOrder(a: Policy, b: Policy) {
    || Rank(a.family) < Rank(b.family)
    || (a.family == b.family && PriorityOf(a) < PriorityOf(b))
    || (a.family == b.family && PriorityOf(a) == PriorityOf(b) && TextLe(a.name, b.name))
  }

  predicate KeyOrder(a: ReturnKey, b: ReturnKey) {
    Rank(a.family) < Rank(b.family) || (a.family == b.family && TextLe(a.uplink, b.uplink))
  }

  datatype Handing = Handing(routing: map<string, Numbers>, tables: Cursor, marks: Cursor)

  function Truncated(n: int): nat { n % MARKS }

  function HandTable(h: Handing, name: string): Handing
    requires name in h.routing
  {
    if h.routing[name].tablePinned then h
    else
      var (n, tables) := Draw(h.tables, RESERVED);
      h.(routing := h.routing[name := h.routing[name].(table := n)], tables := tables)
  }

  function HandMark(h: Handing, name: string): Handing
    requires name in h.routing
  {
    if h.routing[name].markPinned then h
    else
      var (n, marks) := Draw(h.marks, {});
      h.(routing := h.routing[name := h.routing[name].(mark := Truncated(n))], marks := marks)
  }

  function HandPolicies(sorted: seq<Policy>, i: nat, h: Handing): Handing
    requires i <= |sorted| && forall p :: p in sorted ==> p.name in h.routing
    decreases |sorted| - i
  {
    if i == |sorted| then h else HandPolicies(sorted, i + 1, HandMark(HandTable(h, sorted[i].name), sorted[i].name))
  }

  /** What the forwards are published on, each uplink and family once. */
  function Keys(forwards: seq<Forward>, i: nat, keys: seq<ReturnKey>): seq<ReturnKey>
    requires i <= |forwards|
    decreases |forwards| - i
  {
    if i == |forwards| then keys
    else
      var f := forwards[i];
      if f.egress == "" || f.target.None? || ReturnKey(f.egress, f.target.value) in keys
      then Keys(forwards, i + 1, keys)
      else Keys(forwards, i + 1, keys + [ReturnKey(f.egress, f.target.value)])
  }

  function HandReturns(keys: seq<ReturnKey>, i: nat, tables: Cursor, marks: Cursor,
      given: seq<ForwardReturn>): seq<ForwardReturn>
    requires i <= |keys|
    decreases |keys| - i
  {
    if i == |keys| then given
    else
      var (t, tables') := Draw(tables, RESERVED);
      var (m, marks') := Draw(marks, {});
      HandReturns(keys, i + 1, tables', marks', given + [ForwardReturn(keys[i], t, Truncated(m))])
  }

  function Handed(pins: Pinned): Handing
    requires forall p :: p in pins.unpinned ==> p.name in pins.routing
  {
    var sorted := Sort(pins.unpinned, PolicyOrder);
    var h := Handing(pins.routing, Cursor(FIRST_TABLE, pins.tables.Keys), Cursor(FIRST_MARK, pins.marks.Keys));
    SortKeeps(pins.unpinned, PolicyOrder);
    HandPolicies(sorted, 0, h)
  }

  lemma {:induction false} UnpinnedAreRouted(policies: seq<Policy>, i: nat, at: Pinned)
    requires i <= |policies| && forall p :: p in at.unpinned ==> p.name in at.routing
    ensures forall p :: p in Pins(policies, i, at).unpinned ==> p.name in Pins(policies, i, at).routing
    decreases |policies| - i
  {
    if i < |policies| { UnpinnedAreRouted(policies, i + 1, PinOne(policies[i], at)); }
  }

  function Derive(policies: seq<Policy>, forwards: seq<Forward>): Derived {
    UnpinnedAreRouted(policies, 0, NO_PINS);
    var h := Handed(Pins(policies, 0, NO_PINS));
    Derived(h.routing, HandReturns(Sort(Keys(forwards, 0, []), KeyOrder), 0, h.tables, h.marks, []))
  }

  method PublishedKeys(forwards: seq<Forward>) returns (keys: seq<ReturnKey>)
    ensures keys == Keys(forwards, 0, [])
  {
    keys := [];
    var seen: set<ReturnKey> := {};
    for i := 0 to |forwards|
      invariant Keys(forwards, i, keys) == Keys(forwards, 0, [])
      invariant forall k :: k in seen <==> k in keys
    {
      var f := forwards[i];
      if f.egress != "" && f.target.Some? {
        var key := ReturnKey(f.egress, f.target.value);
        if key !in seen {
          seen := seen + {key};
          keys := keys + [key];
        }
      }
    }
  }

  method ForwardReturns(forwards: seq<Forward>, tables: Allocator, marks: Allocator) returns (given: seq<ForwardReturn>)
    requires tables != marks
    modifies tables, marks
    ensures given == HandReturns(Sort(Keys(forwards, 0, []), KeyOrder), 0, old(tables.View()), old(marks.View()), [])
  {
    var keys := PublishedKeys(forwards);
    keys := Sort(keys, KeyOrder);
    given := [];
    for i := 0 to |keys|
      invariant HandReturns(keys, i, tables.View(), marks.View(), given)
             == HandReturns(keys, 0, old(tables.View()), old(marks.View()), [])
    {
      var table := tables.Next(RESERVED);
      var mark := marks.Next({});
      given := given + [ForwardReturn(keys[i], table, Truncated(mark))];
    }
  }

  /** Checks one policy's pins and reserves the ones that stand. */
  method PinPolicy(p: Policy, at: Pinned, tables: Allocator, marks: Allocator) returns (next: Pinned)
    requires tables != marks
    modifies tables, marks
    ensures next == PinOne(p, at)
    ensures tables.View() == Cursor(old(tables.next), old(tables.taken) + (next.tables.Keys - at.tables.Keys))
         && marks.View() == Cursor(old(marks.next), old(marks.taken) + (next.marks.Keys - at.marks.Keys))
  {
    var numbers := Numbers(0, 0, false, false);
    var tableOwner, markOwner, problems := at.tables, at.marks, at.problems;
    if p.table.Some? {
      if p.table.value in RESERVED {
        problems := problems + [TableReserved(p.name)];
      } else if p.table.value in tableOwner {
        problems := problems + [TableTaken(p.name, tableOwner[p.table.value])];
      } else {
        tableOwner := tableOwner[p.table.value := p.name];
        tables.Reserve(p.table.value);
        numbers := numbers.(table := p.table.value, tablePinned := true);
      }
    }
    if p.mark.Some? {
      if p.mark.value == 0 {
        problems := problems + [MarkZero(p.name)];
      } else if p.mark.value in markOwner {
        problems := problems + [MarkTaken(p.name, markOwner[p.mark.value])];
      } else {
        markOwner := markOwner[p.mark.value := p.name];
        marks.Reserve(p.mark.value);
        numbers := numbers.(mark := p.mark.value, markPinned := true);
      }
    }
    var unpinned := if numbers.tablePinned && numbers.markPinned then at.unpinned else at.unpinned + [p];
    next := Pinned(at.routing[p.name := numbers], tableOwner, markOwner, unpinned, problems);
  }

  /** Hands out what the policies did not pin, in the order they are evaluated in. */
  method HandOut(sorted: seq<Policy>, pinned: map<string, Numbers>, tables: Allocator, marks: Allocator)
      returns (routing: map<string, Numbers>)
    requires tables != marks && forall p :: p in sorted ==> p.name in pinned
    modifies tables, marks
    ensures Handing(routing, tables.View(), marks.View())
         == HandPolicies(sorted, 0, Handing(pinned, old(tables.View()), old(marks.View())))
  {
    routing := pinned;
    ghost var start := Handing(routing, tables.View(), marks.View());
    for i := 0 to |sorted|
      invariant forall p :: p in sorted ==> p.name in routing
      invariant HandPolicies(sorted, i, Handing(routing, tables.View(), marks.View())) == HandPolicies(sorted, 0, start)
    {
      ghost var before := Handing(routing, tables.View(), marks.View());
      var name := sorted[i].name;
      if !routing[name].tablePinned {
        var table := tables.Next(RESERVED);
        routing := routing[name := routing[name].(table := table)];
      }
      if !routing[name].markPinned {
        var mark := marks.Next({});
        routing := routing[name := routing[name].(mark := Truncated(mark))];
      }
      assert Handing(routing, tables.View(), marks.View()) == HandMark(HandTable(before, name), name);
    }
  }

  /** Numbers for every policy and every uplink a forward is published on, pins first. */
  method DeriveRouting(policies: seq<Policy>, forwards: seq<Forward>) returns (derived: Derived, problems: seq<Problem>)
    ensures derived == Derive(policies, forwards) && problems == Pins(policies, 0, NO_PINS).problems
  {
    var tables := new Allocator(FIRST_TABLE);
    var marks := new Allocator(FIRST_MARK);
    var pins := NO_PINS;
    for i := 0 to |policies|
      invariant fresh(tables) && fresh(marks) && tables != marks
      invariant Pins(policies, i, pins) == Pins(policies, 0, NO_PINS)
      invariant tables.View() == Cursor(FIRST_TABLE, pins.tables.Keys)
          && marks.View() == Cursor(FIRST_MARK, pins.marks.Keys)
    {
      pins := PinPolicy(policies[i], pins, tables, marks);
    }
    UnpinnedAreRouted(policies, 0, NO_PINS);
    SortKeeps(pins.unpinned, PolicyOrder);
    var routing := HandOut(Sort(pins.unpinned, PolicyOrder), pins.routing, tables, marks);
    var returns_ := ForwardReturns(forwards, tables, marks);
    derived, problems := Derived(routing, returns_), pins.problems;
  }
}
