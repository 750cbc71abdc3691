/** The line diff a dry run prints: the common-subsequence table, the greedy walk over it,
    the grouping into hunks, and what a reader of the hunks can rebuild from them. */
module Diff {
  datatype Op = Keep | Del | Add
  datatype Edit = Edit(op: Op, text: string)

  const CONTEXT_LINES := 3

  function Max(x: int, y: int): int { if x < y then y else x }

  function Min(x: int, y: int): int { if x < y then x else y }

  // ----- what a script says ----------------------------------------------------------

  function OldSide(edits: seq<Edit>): seq<string> {
    if edits == [] then []
    else (if edits[0].op == Add then [] else [edits[0].text]) + OldSide(edits[1..])
  }

  function NewSide(edits: seq<Edit>): seq<string> {
    if edits == [] then []
    else (if edits[0].op == Del then [] else [edits[0].text]) + NewSide(edits[1..])
  }

  function KeptLines(edits: seq<Edit>): seq<string> {
    if edits == [] then []
    else (if edits[0].op == Keep then [edits[0].text] else []) + KeptLines(edits[1..])
  }

  /** Exchanging the two texts: what was removed is added and what was added is removed. */
  function Flip(edits: seq<Edit>): (r: seq<Edit>)
    ensures |r| == |edits|
    ensures forall i :: 0 <= i < |edits| ==> r[i] == FlipOne(edits[i])
  {
    seq(|edits|, i requires 0 <= i < |edits| => FlipOne(edits[i]))
  }

  function FlipOne(e: Edit): Edit {
    match e.op
    case Keep => e
    case Del => Edit(Add, e.text)
    case Add => Edit(Del, e.text)
  }

  lemma {:induction false} OldConcat(a: seq<Edit>, b: seq<Edit>)
    ensures OldSide(a + b) == OldSide(a) + OldSide(b)
  {
    if a == [] {
      assert a + b == b;
    } else {
      assert (a + b)[1..] == a[1..] + b;
      OldConcat(a[1..], b);
    }
  }

  lemma {:induction false} NewConcat(a: seq<Edit>, b: seq<Edit>)
    ensures NewSide(a + b) == NewSide(a) + NewSide(b)
  {
    if a == [] {
      assert a + b == b;
    } else {
      assert (a + b)[1..] == a[1..] + b;
      NewConcat(a[1..], b);
    }
  }

  lemma {:induction false} SidesConcat(a: seq<Edit>, b: seq<Edit>)
    ensures OldSide(a + b) == OldSide(a) + OldSide(b)
    ensures NewSide(a + b) == NewSide(a) + NewSide(b)
  {
    OldConcat(a, b);
    NewConcat(a, b);
  }

  lemma {:induction false} SidesOfFlip(edits: seq<Edit>)
    ensures OldSide(Flip(edits)) == NewSide(edits)
    ensures NewSide(Flip(edits)) == OldSide(edits)
  {
    if edits != [] {
      assert Flip(edits)[1..] == Flip(edits[1..]);
      SidesOfFlip(edits[1..]);
    }
  }

  lemma {:induction false} SideLengths(edits: seq<Edit>)
    ensures |edits| + |KeptLines(edits)| == |OldSide(edits)| + |NewSide(edits)|
  {
    if edits != [] { SideLengths(edits[1..]); }
  }

  lemma {:induction false} KeepsAgree(edits: seq<Edit>)
    requires forall i :: 0 <= i < |edits| ==> edits[i].op == Keep
    ensures OldSide(edits) == NewSide(edits)
  {
    if edits != [] { KeepsAgree(edits[1..]); }
  }

  lemma {:induction false} ChangesNeedAChange(edits: seq<Edit>)
    requires OldSide(edits) != NewSide(edits)
    ensures exists i :: 0 <= i < |edits| && edits[i].op != Keep
  {
    if forall i :: 0 <= i < |edits| ==> edits[i].op == Keep { KeepsAgree(edits); }
  }

  // ----- longest common subsequence --------------------------------------------------

  predicate Subsequence(c: seq<string>, a: seq<string>) {
    c == [] ||
    (a != [] && ((c[0] == a[0] && Subsequence(c[1..], a[1..])) || Subsequence(c, a[1..])))
  }

  function Lcs(a: seq<string>, b: seq<string>): nat
    decreases |a| + |b|
  {
    if a == [] || b == [] then 0
    else if a[0] == b[0] then 1 + Lcs(a[1..], b[1..])
    else Max(Lcs(a[1..], b), Lcs(a, b[1..]))
  }

  lemma {:induction false} SubsequenceTail(c: seq<string>, a: seq<string>)
    requires c != [] && Subsequence(c, a)
    ensures a != [] && Subsequence(c[1..], a[1..])
  {
    if !(c[0] == a[0] && Subsequence(c[1..], a[1..])) {
      SubsequenceTail(c, a[1..]);
    }
  }

  /** No common subsequence is longer than the table says. */
  lemma {:induction false} LcsIsUpperBound(c: seq<string>, a: seq<string>, b: seq<string>)
    requires Subsequence(c, a) && Subsequence(c, b)
    ensures |c| <= Lcs(a, b)
    decreases |a| + |b|
  {
    if c == [] || a == [] || b == [] {
    } else if a[0] == b[0] {
      SubsequenceTail(c, a);
      SubsequenceTail(c, b);
      LcsIsUpperBound(c[1..], a[1..], b[1..]);
    } else if c[0] != a[0] {
      LcsIsUpperBound(c, a[1..], b);
    } else {
      LcsIsUpperBound(c, a, b[1..]);
    }
  }

  lemma {:induction false} KeptIsCommon(edits: seq<Edit>)
    ensures Subsequence(KeptLines(edits), OldSide(edits))
    ensures Subsequence(KeptLines(edits), NewSide(edits))
  {
    if edits != [] {
      KeptIsCommon(edits[1..]);
      var kept, o, n := KeptLines(edits[1..]), OldSide(edits[1..]), NewSide(edits[1..]);
      match edits[0].op
      case Keep =>
        assert KeptLines(edits)[1..] == kept && OldSide(edits)[1..] == o && NewSide(edits)[1..] == n;
      case Del =>
        assert KeptLines(edits) == kept && OldSide(edits)[1..] == o && NewSide(edits) == n;
      case Add =>
        assert KeptLines(edits) == kept && OldSide(edits) == o && NewSide(edits)[1..] == n;
    }
  }

  // ----- the script regied prints ----------------------------------------------------

  function Script(a: seq<string>, b: seq<string>): seq<Edit>
    decreases |a| + |b|
  {
    if a == [] && b == [] then []
    else if b == [] then [Edit(Del, a[0])] + Script(a[1..], b)
    else if a == [] then [Edit(Add, b[0])] + Script(a, b[1..])
    else if a[0] == b[0] then [Edit(Keep, a[0])] + Script(a[1..], b[1..])
    else if Lcs(a[1..], b) >= Lcs(a, b[1..]) then [Edit(Del, a[0])] + Script(a[1..], b)
    else [Edit(Add, b[0])] + Script(a, b[1..])
  }

  /** The script takes the old lines to the new ones and keeps a longest common subsequence. */
  lemma {:induction false} ScriptIsCorrect(a: seq<string>, b: seq<string>)
    ensures OldSide(Script(a, b)) == a
    ensures NewSide(Script(a, b)) == b
    ensures |KeptLines(Script(a, b))| == Lcs(a, b)
    decreases |a| + |b|
  {
    if a == [] && b == [] {
    } else if b == [] {
      ScriptIsCorrect(a[1..], b);
    } else if a == [] {
      ScriptIsCorrect(a, b[1..]);
    } else if a[0] == b[0] {
      ScriptIsCorrect(a[1..], b[1..]);
    } else if Lcs(a[1..], b) >= Lcs(a, b[1..]) {
      ScriptIsCorrect(a[1..], b);
    } else {
      ScriptIsCorrect(a, b[1..]);
    }
  }

  /** No script between the two texts is shorter than the one printed, and none keeps more. */
  lemma {:induction false} ScriptIsMinimal(other: seq<Edit>, a: seq<string>, b: seq<string>)
    requires OldSide(other) == a && NewSide(other) == b
    ensures |KeptLines(other)| <= |KeptLines(Script(a, b))|
    ensures |Script(a, b)| <= |other|
  {
    KeptIsCommon(other);
    LcsIsUpperBound(KeptLines(other), a, b);
    ScriptIsCorrect(a, b);
    SideLengths(other);
    SideLengths(Script(a, b));
  }

  /** Of two scripts of the same texts, the first keeps rather than removes, and removes rather than
      adds, where they part. */
  ghost predicate KeepsFirst(a: seq<Edit>, b: seq<Edit>)
    decreases |a|
  {
    if a == [] || b == [] then a == b
    else if a[0] == b[0] then KeepsFirst(a[1..], b[1..])
    else a[0].op == Keep || (a[0].op == Del && b[0].op == Add)
  }

  lemma {:induction false} SidesOfRest(edits: seq<Edit>)
    requires edits != []
    ensures edits[0].op != Add ==> OldSide(edits) == [edits[0].text] + OldSide(edits[1..])
    ensures edits[0].op != Del ==> NewSide(edits) == [edits[0].text] + NewSide(edits[1..])
    ensures edits[0].op == Add ==> OldSide(edits[1..]) == OldSide(edits)
    ensures edits[0].op == Del ==> NewSide(edits[1..]) == NewSide(edits)
    ensures |KeptLines(edits)| == |KeptLines(edits[1..])| + if edits[0].op == Keep then 1 else 0
  {}

  /** Of all the scripts that keep as much, the one printed keeps first, then removes, then adds. */
  lemma {:induction false} ScriptKeepsFirst(other: seq<Edit>, a: seq<string>, b: seq<string>)
    requires OldSide(other) == a && NewSide(other) == b && |KeptLines(other)| == Lcs(a, b)
    ensures KeepsFirst(Script(a, b), other)
    decreases |other|
  {
    ScriptIsCorrect(a, b);
    if other != [] {
      var script, rest := Script(a, b), other[1..];
      SidesOfRest(other);
      ScriptIsMinimal(rest, OldSide(rest), NewSide(rest));
      ScriptIsCorrect(OldSide(rest), NewSide(rest));
      if script[0] == other[0] {
        SidesOfRest(script);
        ScriptKeepsFirst(rest, OldSide(rest), NewSide(rest));
      }
    }
  }

  lemma {:induction false} ScriptOfEqual(a: seq<string>)
    ensures forall i :: 0 <= i < |Script(a, a)| ==> Script(a, a)[i].op == Keep
  {
    if a != [] { ScriptOfEqual(a[1..]); }
  }

  ghost predicate Filled(lengths: array2<int>, old_: seq<string>, new_: seq<string>, from: nat)
    reads lengths
    requires from <= |old_|
    requires lengths.Length0 == |old_| + 1 && lengths.Length1 == |new_| + 1
  {
    forall r, c :: from <= r <= |old_| && 0 <= c <= |new_| ==> lengths[r, c] == Lcs(old_[r..], new_[c..])
  }

  /** Row i of the table from row i + 1, right to left. */
  method FillRow(lengths: array2<int>, old_: seq<string>, new_: seq<string>, i: nat)
    requires i < |old_|
    requires lengths.Length0 == |old_| + 1 && lengths.Length1 == |new_| + 1
    requires Filled(lengths, old_, new_, i + 1)
    requires lengths[i, |new_|] == 0
    modifies lengths
    ensures Filled(lengths, old_, new_, i)
    ensures forall r, c :: 0 <= r < i && 0 <= c <= |new_| ==> lengths[r, c] == old(lengths[r, c])
  {
    var j := |new_|;
    while j > 0
      invariant 0 <= j <= |new_|
      invariant forall r, c :: 0 <= r <= |old_| && r != i && 0 <= c <= |new_| ==> lengths[r, c] == old(lengths[r, c])
      invariant forall c :: j <= c <= |new_| ==> lengths[i, c] == Lcs(old_[i..], new_[c..])
    {
      j := j - 1;
      assert old_[i..][1..] == old_[i + 1..] && new_[j..][1..] == new_[j + 1..];
      assert lengths[i + 1, j + 1] == Lcs(old_[i + 1..], new_[j + 1..]);
      assert lengths[i + 1, j] == Lcs(old_[i + 1..], new_[j..]);
      if old_[i] == new_[j] {
        lengths[i, j] := lengths[i + 1, j + 1] + 1;
      } else {
        lengths[i, j] := Max(lengths[i + 1, j], lengths[i, j + 1]);
      }
    }
  }

  method FillLengths(old_: seq<string>, new_: seq<string>) returns (lengths: array2<int>)
    ensures fresh(lengths)
    ensures lengths.Length0 == |old_| + 1 && lengths.Length1 == |new_| + 1
    ensures Filled(lengths, old_, new_, 0)
  {
    lengths := new int[|old_| + 1, |new_| + 1]((_, _) => 0);
    var i := |old_|;
    while i > 0
      invariant 0 <= i <= |old_|
      invariant Filled(lengths, old_, new_, i)
      invariant forall r, c :: 0 <= r < i && 0 <= c <= |new_| ==> lengths[r, c] == 0
    {
      i := i - 1;
      FillRow(lengths, old_, new_, i);
    }
  }

  /** What the walk does at one cell of the table, read off the table. */
  function Move(i: nat, j: nat, old_: seq<string>, new_: seq<string>): Edit
    requires i < |old_| && j < |new_|
  {
    if old_[i] == new_[j] then Edit(Keep, old_[i])
    else if Lcs(old_[i + 1..], new_[j..]) >= Lcs(old_[i..], new_[j + 1..]) then Edit(Del, old_[i])
    else Edit(Add, new_[j])
  }

  lemma {:induction false} ScriptMoves(i: nat, j: nat, old_: seq<string>, new_: seq<string>)
    requires i < |old_| && j < |new_|
    ensures var e := Move(i, j, old_, new_);
            Script(old_[i..], new_[j..]) ==
            [e] + Script(old_[if e.op == Add then i else i + 1..], new_[if e.op == Del then j else j + 1..])
  {
    assert old_[i..][1..] == old_[i + 1..] && new_[j..][1..] == new_[j + 1..];
  }

  /** One turn of the walk's switch. */
  method Choose(lengths: array2<int>, old_: seq<string>, new_: seq<string>, i: nat, j: nat) returns (e: Edit)
    requires i < |old_| && j < |new_|
    requires lengths.Length0 == |old_| + 1 && lengths.Length1 == |new_| + 1
    requires Filled(lengths, old_, new_, 0)
    ensures e == Move(i, j, old_, new_)
  {
    if old_[i] == new_[j] {
      e := Edit(Keep, old_[i]);
    } else if lengths[i + 1, j] >= lengths[i, j + 1] {
      e := Edit(Del, old_[i]);
    } else {
      e := Edit(Add, new_[j]);
    }
  }

  method LineEdits(old_: seq<string>, new_: seq<string>) returns (edits: seq<Edit>)
    ensures edits == Script(old_, new_)
  {
    var lengths := FillLengths(old_, new_);
    edits := [];
    var i, j := 0, 0;
    ghost var rest := Script(old_, new_);
    assert old_[0..] == old_ && new_[0..] == new_;
    while i < |old_| && j < |new_|
      invariant 0 <= i <= |old_| && 0 <= j <= |new_|
      invariant Filled(lengths, old_, new_, 0)
      invariant rest == Script(old_[i..], new_[j..]) && edits + rest == Script(old_, new_)
      decreases |old_| - i + |new_| - j
    {
      var e := Choose(lengths, old_, new_, i, j);
      ScriptMoves(i, j, old_, new_);
      rest := rest[1..];
      edits := edits + [e];
      i, j := if e.op == Add then i else i + 1, if e.op == Del then j else j + 1;
    }
    edits := Drain(old_, new_, i, j, edits);
  }

  /** The two loops that finish the walk: whatever is left of either text. */
  method Drain(old_: seq<string>, new_: seq<string>, i0: nat, j0: nat, head: seq<Edit>) returns (edits: seq<Edit>)
    requires i0 <= |old_| && j0 <= |new_| && (i0 == |old_| || j0 == |new_|)
    ensures edits == head + Script(old_[i0..], new_[j0..])
  {
    edits := head;
    var i, j := i0, j0;
    ghost var whole := head + Script(old_[i0..], new_[j0..]);
    while i < |old_|
      invariant 0 <= i <= |old_| && (i < |old_| ==> j == |new_|)
      invariant edits + Script(old_[i..], new_[j..]) == whole
    {
      assert old_[i..][1..] == old_[i + 1..];
      edits := edits + [Edit(Del, old_[i])];
      i := i + 1;
    }
    while j < |new_|
      invariant i == |old_| && 0 <= j <= |new_|
      invariant edits + Script(old_[i..], new_[j..]) == whole
    {
      assert new_[j..][1..] == new_[j + 1..];
      edits := edits + [Edit(Add, new_[j])];
      j := j + 1;
    }
  }

  // ----- hunks -----------------------------------------------------------------------

  datatype Hunk = Hunk(from: nat, to: nat, oldStart: nat, oldCount: nat, newStart: nat, newCount: nat)

  predicate Changed(edits: seq<Edit>, i: int) {
    0 <= i < |edits| && edits[i].op != Keep
  }

  /** [from, to) holds the changes first..last with their context and nothing more: up to
      three kept lines at each end, and at most six between one change and the next. */
  ghost predicate Spans(edits: seq<Edit>, from: nat, to: nat, first: nat, last: nat) {
    && Changed(edits, first) && Changed(edits, last) && first <= last
    && from == Max(0, first - 3)
    && to == Min(|edits|, last + 1 + 3)
    && (forall i :: from <= i < first || last < i < to ==> !Changed(edits, i))
    && forall i: nat :: first <= i && i + 6 < last ==> !QuietRun(edits, i)
  }

  /** Seven lines in a row that did not change: one too many to stay inside a hunk. */
  ghost predicate QuietRun(edits: seq<Edit>, i: nat) {
    forall j :: i <= j <= i + 6 ==> !Changed(edits, j)
  }

  ghost predicate Fits(edits: seq<Edit>, h: Hunk) {
    && h.from < h.to <= |edits|
    && (exists first: nat, last: nat :: Spans(edits, h.from, h.to, first, last))
    && h.oldStart == 1 + |OldSide(edits[..h.from])| && h.oldCount == |OldSide(edits[h.from..h.to])|
    && h.newStart == 1 + |NewSide(edits[..h.from])| && h.newCount == |NewSide(edits[h.from..h.to])|
  }

  ghost predicate Ordered(hunks: seq<Hunk>) {
    forall k, m :: 0 <= k < m < |hunks| ==> hunks[k].to < hunks[m].from
  }

  ghost predicate Covered(hunks: seq<Hunk>, i: int) {
    exists k :: 0 <= k < |hunks| && hunks[k].from <= i < hunks[k].to
  }

  ghost predicate AllCovered(edits: seq<Edit>, hunks: seq<Hunk>) {
    forall i :: Changed(edits, i) ==> Covered(hunks, i)
  }

  ghost predicate AllFit(edits: seq<Edit>, hunks: seq<Hunk>) {
    forall k {:trigger Fits(edits, hunks[k])} :: 0 <= k < |hunks| ==> Fits(edits, hunks[k])
  }

  /** What a grouping into hunks has to be. There is exactly one (GroupingIsUnique). */
  ghost predicate Grouping(edits: seq<Edit>, hunks: seq<Hunk>) {
    AllFit(edits, hunks) && Ordered(hunks) && AllCovered(edits, hunks)
  }

  /** Where hunk k leaves off, which is where the search for the next one starts. */
  function EndOf(hunks: seq<Hunk>, k: nat): nat
    requires k <= |hunks|
  {
    if k == 0 then 0 else hunks[k - 1].to
  }

  lemma {:induction false} HunkAt(edits: seq<Edit>, hunks: seq<Hunk>, k: nat) returns (first: nat, last: nat)
    requires AllFit(edits, hunks) && k < |hunks|
    ensures Fits(edits, hunks[k])
    ensures Spans(edits, hunks[k].from, hunks[k].to, first, last)
  {
    assert Fits(edits, hunks[k]);
    first, last :| Spans(edits, hunks[k].from, hunks[k].to, first, last);
  }

  lemma {:induction false} QuietBetween(edits: seq<Edit>, hunks: seq<Hunk>, k: nat, i: nat)
    requires Ordered(hunks) && AllFit(edits, hunks) && AllCovered(edits, hunks) && k <= |hunks|
    requires EndOf(hunks, k) <= i && (k < |hunks| ==> i < hunks[k].from)
    ensures !Changed(edits, i)
  {
    FitsInRange(edits, hunks);
    if Changed(edits, i) {
      assert Covered(hunks, i);
      var m :| 0 <= m < |hunks| && hunks[m].from <= i < hunks[m].to;
      assert false;
    }
  }

  /** The first change a hunk holds is the first one after the previous hunk. */
  lemma {:induction false} FirstChangeAfter(edits: seq<Edit>, hunks: seq<Hunk>, k: nat, first: nat, last: nat)
    requires Grouping(edits, hunks) && k < |hunks|
    requires Spans(edits, hunks[k].from, hunks[k].to, first, last)
    ensures EndOf(hunks, k) <= hunks[k].from
    ensures forall i :: EndOf(hunks, k) <= i < first ==> !Changed(edits, i)
  {
    if k > 0 { assert hunks[k - 1].to < hunks[k].from; }
    forall i | EndOf(hunks, k) <= i < first ensures !Changed(edits, i) {
      if i < hunks[k].from { QuietBetween(edits, hunks, k, i); }
    }
  }

  lemma {:induction false} QuietAfter(edits: seq<Edit>, hunks: seq<Hunk>, k: nat, first: nat, last: nat, j: nat)
    requires Grouping(edits, hunks) && k < |hunks|
    requires Spans(edits, hunks[k].from, hunks[k].to, first, last)
    requires last < j <= last + 1 + 2 * CONTEXT_LINES
    ensures !Changed(edits, j)
  {
    if Changed(edits, j) && hunks[k].to <= j {
      assert Covered(hunks, j);
      var m :| 0 <= m < |hunks| && hunks[m].from <= j < hunks[m].to;
      var _, _ := HunkAt(edits, hunks, m);
      assert false;
    }
  }

  lemma {:induction false} LastChangeBounded(edits: seq<Edit>, a: seq<Hunk>, k: nat, first: nat, lastA: nat, from: nat,
      to: nat, lastB: nat)
    requires Grouping(edits, a) && k < |a|
    requires Spans(edits, a[k].from, a[k].to, first, lastA) && Spans(edits, from, to, first, lastB)
    ensures lastB <= lastA
  {
    if lastA < lastB {
      forall j: nat | lastA < j <= lastA + 1 + 2 * CONTEXT_LINES ensures !Changed(edits, j) {
        QuietAfter(edits, a, k, first, lastA, j);
      }
      assert QuietRun(edits, lastA + 1);
      assert false;
    }
  }

  lemma {:induction false} SpansAgree(edits: seq<Edit>, a: seq<Hunk>, b: seq<Hunk>, k: nat, fa: nat, la: nat, fb: nat,
      lb: nat)
    requires Grouping(edits, a) && Grouping(edits, b)
    requires k < |a| && k < |b| && EndOf(a, k) == EndOf(b, k)
    requires Spans(edits, a[k].from, a[k].to, fa, la) && Spans(edits, b[k].from, b[k].to, fb, lb)
    ensures fa == fb && la == lb
  {
    FirstChangeAfter(edits, a, k, fa, la);
    FirstChangeAfter(edits, b, k, fb, lb);
    assert fa == fb by { assert fa < fb ==> !Changed(edits, fa); assert fb < fa ==> !Changed(edits, fb); }
    LastChangeBounded(edits, a, k, fa, la, b[k].from, b[k].to, lb);
    LastChangeBounded(edits, b, k, fb, lb, a[k].from, a[k].to, la);
  }

  lemma {:induction false} HunksAgree(edits: seq<Edit>, a: seq<Hunk>, b: seq<Hunk>, k: nat)
    requires Grouping(edits, a) && Grouping(edits, b)
    requires k < |a| && k < |b| && EndOf(a, k) == EndOf(b, k)
    ensures a[k] == b[k]
  {
    var fa, la := HunkAt(edits, a, k);
    var fb, lb := HunkAt(edits, b, k);
    SpansAgree(edits, a, b, k, fa, la, fb, lb);
  }

  lemma {:induction false} GroupingsAgree(edits: seq<Edit>, a: seq<Hunk>, b: seq<Hunk>, k: nat)
    requires Grouping(edits, a) && Grouping(edits, b)
    requires k <= |a| && k <= |b| && a[..k] == b[..k]
    ensures a == b
    decreases |a| - k
  {
    assert EndOf(a, k) == EndOf(b, k) by {
      if k > 0 { assert a[k - 1] == a[..k][k - 1] == b[..k][k - 1] == b[k - 1]; }
    }
    if k < |a| && k < |b| {
      HunksAgree(edits, a, b, k);
      assert a[..k + 1] == a[..k] + [a[k]] == b[..k + 1];
      GroupingsAgree(edits, a, b, k + 1);
    } else if k < |a| {
      NoHunkLeft(edits, a, b, k);
    } else if k < |b| {
      NoHunkLeft(edits, b, a, k);
    }
  }

  lemma {:induction false} NoHunkLeft(edits: seq<Edit>, a: seq<Hunk>, b: seq<Hunk>, k: nat)
    requires Grouping(edits, a) && Grouping(edits, b)
    requires k == |b| <= |a| && EndOf(a, |b|) == EndOf(b, |b|)
    ensures |a| <= |b|
  {
    if |a| > |b| {
      var fa, la := HunkAt(edits, a, k);
      FirstChangeAfter(edits, a, k, fa, la);
      QuietBetween(edits, b, k, fa);
      assert false;
    }
  }

  lemma {:induction false} GroupingIsUnique(edits: seq<Edit>, a: seq<Hunk>, b: seq<Hunk>)
    requires Grouping(edits, a) && Grouping(edits, b)
    ensures a == b
  {
    GroupingsAgree(edits, a, b, 0);
  }

  // ----- printing and reading back ---------------------------------------------------

  /** One printed hunk: its header and its lines. This is all a reader of the diff has. */
  datatype Chunk = Chunk(oldStart: nat, oldCount: nat, newStart: nat, newCount: nat, lines: seq<Edit>)

  predicate InRange(edits: seq<Edit>, hunks: seq<Hunk>) {
    forall k :: 0 <= k < |hunks| ==> hunks[k].from <= hunks[k].to <= |edits|
  }

  lemma {:induction false} FitsInRange(edits: seq<Edit>, hunks: seq<Hunk>)
    requires AllFit(edits, hunks)
    ensures InRange(edits, hunks)
  {
    forall k | 0 <= k < |hunks| ensures hunks[k].from <= hunks[k].to <= |edits| { assert Fits(edits, hunks[k]); }
  }

  function Printed(edits: seq<Edit>, hunks: seq<Hunk>): (chunks: seq<Chunk>)
    requires InRange(edits, hunks)
    ensures |chunks| == |hunks|
  {
    seq(|hunks|, k requires 0 <= k < |hunks| =>
      var h := hunks[k];
      Chunk(h.oldStart, h.oldCount, h.newStart, h.newCount, edits[h.from..h.to]))
  }

  /** Applying printed hunks to a text, checking every header and every line against it:
      the lines from `cursor` on, or nothing when some hunk does not fit. */
  function Patch(text: seq<string>, cursor: nat, chunks: seq<Chunk>): (r: (bool, seq<string>))
    requires cursor <= |text|
    decreases |chunks|
  {
    if chunks == [] then (true, text[cursor..])
    else
      var c := chunks[0];
      var start := c.oldStart - 1;
      if cursor <= start && start + c.oldCount <= |text| && OldSide(c.lines) == text[start..start + c.oldCount] then
        var (ok, rest) := Patch(text, start + c.oldCount, chunks[1..]);
        (ok, text[cursor..start] + NewSide(c.lines) + rest)
      else (false, [])
  }

  function Reverse(c: Chunk): Chunk {
    Chunk(c.newStart, c.newCount, c.oldStart, c.oldCount, Flip(c.lines))
  }

  function ReverseAll(chunks: seq<Chunk>): (r: seq<Chunk>)
    ensures |r| == |chunks|
    ensures forall k :: 0 <= k < |chunks| ==> r[k] == Reverse(chunks[k])
  {
    seq(|chunks|, k requires 0 <= k < |chunks| => Reverse(chunks[k]))
  }

  lemma {:induction false} SliceOfSide(edits: seq<Edit>, p: nat, q: nat)
    requires p <= q <= |edits|
    ensures |OldSide(edits[..p])| + |OldSide(edits[p..q])| == |OldSide(edits[..q])| <= |OldSide(edits)|
    ensures OldSide(edits)[|OldSide(edits[..p])|..|OldSide(edits[..q])|] == OldSide(edits[p..q])
    ensures NewSide(edits[p..]) == NewSide(edits[p..q]) + NewSide(edits[q..])
    ensures OldSide(edits)[|OldSide(edits[..p])|..] == OldSide(edits[p..])
  {
    assert edits[..q] == edits[..p] + edits[p..q];
    assert edits == edits[..q] + edits[q..];
    assert edits == edits[..p] + edits[p..];
    assert edits[p..] == edits[p..q] + edits[q..];
    SidesConcat(edits[..p], edits[p..q]);
    SidesConcat(edits[..q], edits[q..]);
    SidesConcat(edits[..p], edits[p..]);
    SidesConcat(edits[p..q], edits[q..]);
  }

  /** The lines between one hunk and the next are in both texts. */
  lemma {:induction false} GapAgrees(edits: seq<Edit>, hunks: seq<Hunk>, k: nat)
    requires Grouping(edits, hunks) && k <= |hunks|
    ensures var q := if k < |hunks| then hunks[k].from else |edits|;
            EndOf(hunks, k) <= q <= |edits| && OldSide(edits[EndOf(hunks, k)..q]) == NewSide(edits[EndOf(hunks, k)..q])
  {
    if k > 0 { assert Fits(edits, hunks[k - 1]); }
    if k < |hunks| {
      assert Fits(edits, hunks[k]);
      if k > 0 { assert hunks[k - 1].to < hunks[k].from; }
    }
    var p, q := EndOf(hunks, k), if k < |hunks| then hunks[k].from else |edits|;
    forall i | 0 <= i < |edits[p..q]| ensures edits[p..q][i].op == Keep { QuietBetween(edits, hunks, k, p + i); }
    KeepsAgree(edits[p..q]);
  }

  lemma {:induction false} PatchUnfold(text: seq<string>, cursor: nat, start: nat, end: nat, chunks: seq<Chunk>,
      rest: seq<string>)
    requires cursor <= start <= end <= |text| && chunks != []
    requires chunks[0].oldStart == start + 1 && chunks[0].oldCount == end - start
    requires OldSide(chunks[0].lines) == text[start..end]
    requires Patch(text, end, chunks[1..]) == (true, rest)
    ensures Patch(text, cursor, chunks) == (true, text[cursor..start] + NewSide(chunks[0].lines) + rest)
  {}

  lemma {:induction false} PatchStep(edits: seq<Edit>, p: nat, h: Hunk, chunks: seq<Chunk>)
    requires p <= h.from <= h.to <= |edits| && OldSide(edits[p..h.from]) == NewSide(edits[p..h.from])
    requires h.oldStart == 1 + |OldSide(edits[..h.from])| && h.oldCount == |OldSide(edits[h.from..h.to])|
    requires chunks != [] && chunks[0] == Chunk(h.oldStart, h.oldCount, h.newStart, h.newCount, edits[h.from..h.to])
    requires |OldSide(edits[..h.to])| <= |OldSide(edits)|
    requires Patch(OldSide(edits), |OldSide(edits[..h.to])|, chunks[1..]) == (true, NewSide(edits[h.to..]))
    ensures |OldSide(edits[..p])| <= |OldSide(edits)|
    ensures Patch(OldSide(edits), |OldSide(edits[..p])|, chunks) == (true, NewSide(edits[p..]))
  {
    RestOf(edits, p, h.from, h.to);
    Cursors(edits, p, h.from);
    Cursors(edits, h.from, h.to);
    PatchUnfold(OldSide(edits), |OldSide(edits[..p])|, |OldSide(edits[..h.from])|, |OldSide(edits[..h.to])|, chunks,
        NewSide(edits[h.to..]));
  }

  lemma {:induction false} Cursors(edits: seq<Edit>, p: nat, q: nat)
    requires p <= q <= |edits|
    ensures |OldSide(edits[..p])| + |OldSide(edits[p..q])| == |OldSide(edits[..q])| <= |OldSide(edits)|
    ensures OldSide(edits)[|OldSide(edits[..p])|..|OldSide(edits[..q])|] == OldSide(edits[p..q])
  {
    SliceOfSide(edits, p, q);
  }

  lemma {:induction false} NewFrom(edits: seq<Edit>, p: nat, q: nat)
    requires p <= q <= |edits|
    ensures NewSide(edits[p..]) == NewSide(edits[p..q]) + NewSide(edits[q..])
  {
    assert edits[p..] == edits[p..q] + edits[q..];
    NewConcat(edits[p..q], edits[q..]);
  }

  lemma {:induction false} RestOf(edits: seq<Edit>, p: nat, q: nat, r: nat)
    requires p <= q <= r <= |edits| && OldSide(edits[p..q]) == NewSide(edits[p..q])
    ensures NewSide(edits[p..]) == OldSide(edits[p..q]) + NewSide(edits[q..r]) + NewSide(edits[r..])
  {
    NewFrom(edits, p, q);
    NewFrom(edits, q, r);
  }

  /** Hunks whose headers and gaps are right patch the old lines into the new. */
  lemma {:induction false} PatchFrom(edits: seq<Edit>, hunks: seq<Hunk>, k: nat, chunks: seq<Chunk>)
    requires Grouping(edits, hunks) && InRange(edits, hunks) && k <= |hunks|
    requires chunks == Printed(edits, hunks)[k..]
    ensures |OldSide(edits[..EndOf(hunks, k)])| <= |OldSide(edits)|
    ensures Patch(OldSide(edits), |OldSide(edits[..EndOf(hunks, k)])|, chunks)
            == (true, NewSide(edits[EndOf(hunks, k)..]))
    decreases |hunks| - k
  {
    var p := EndOf(hunks, k);
    GapAgrees(edits, hunks, k);
    if k == |hunks| {
      SliceOfSide(edits, p, |edits|);
      assert edits[p..|edits|] == edits[p..];
    } else {
      var _, _ := HunkAt(edits, hunks, k);
      PatchFrom(edits, hunks, k + 1, chunks[1..]);
      PatchStep(edits, p, hunks[k], chunks);
    }
  }

  lemma {:induction false} PatchRebuildsNew(edits: seq<Edit>, hunks: seq<Hunk>)
    requires Grouping(edits, hunks) && InRange(edits, hunks)
    ensures Patch(OldSide(edits), 0, Printed(edits, hunks)) == (true, NewSide(edits))
  {
    PatchFrom(edits, hunks, 0, Printed(edits, hunks)[0..]);
    assert edits[..0] == [] && edits[0..] == edits;
    assert Printed(edits, hunks)[0..] == Printed(edits, hunks);
  }

  function FlipHunk(h: Hunk): Hunk { Hunk(h.from, h.to, h.newStart, h.newCount, h.oldStart, h.oldCount) }

  function FlipHunks(hunks: seq<Hunk>): (r: seq<Hunk>)
    ensures |r| == |hunks| && forall k :: 0 <= k < |hunks| ==> r[k] == FlipHunk(hunks[k])
  {
    seq(|hunks|, k requires 0 <= k < |hunks| => FlipHunk(hunks[k]))
  }

  lemma {:induction false} FlippedFits(edits: seq<Edit>, h: Hunk)
    requires Fits(edits, h)
    ensures Fits(Flip(edits), FlipHunk(h))
  {
    var flipped := Flip(edits);
    assert forall i :: Changed(flipped, i) <==> Changed(edits, i);
    var first: nat, last: nat :| Spans(edits, h.from, h.to, first, last);
    forall i: nat | first <= i && i + 2 * CONTEXT_LINES < last ensures !QuietRun(flipped, i) {
      assert !QuietRun(edits, i);
      var j :| i <= j <= i + 2 * CONTEXT_LINES && Changed(edits, j);
      assert Changed(flipped, j);
    }
    assert Spans(flipped, h.from, h.to, first, last);
    assert Flip(edits[..h.from]) == flipped[..h.from];
    assert Flip(edits[h.from..h.to]) == flipped[h.from..h.to];
    SidesOfFlip(edits[..h.from]);
    SidesOfFlip(edits[h.from..h.to]);
  }

  lemma {:induction false} FlippedGrouping(edits: seq<Edit>, hunks: seq<Hunk>)
    requires Grouping(edits, hunks)
    ensures Grouping(Flip(edits), FlipHunks(hunks))
  {
    var flipped, flippedHunks := Flip(edits), FlipHunks(hunks);
    forall k | 0 <= k < |hunks| ensures Fits(flipped, flippedHunks[k]) {
      var _, _ := HunkAt(edits, hunks, k);
      FlippedFits(edits, hunks[k]);
    }
    forall i | Changed(flipped, i) ensures Covered(flippedHunks, i) {
      assert Changed(edits, i) && Covered(hunks, i);
      var k :| 0 <= k < |hunks| && hunks[k].from <= i < hunks[k].to;
      assert flippedHunks[k].from <= i < flippedHunks[k].to;
    }
    forall k, m | 0 <= k < m < |hunks| ensures flippedHunks[k].to < flippedHunks[m].from {
      assert hunks[k].to < hunks[m].from;
    }
  }

  lemma {:induction false} FlippedPrint(edits: seq<Edit>, hunks: seq<Hunk>)
    requires InRange(edits, hunks)
    ensures InRange(Flip(edits), FlipHunks(hunks))
    ensures Printed(Flip(edits), FlipHunks(hunks)) == ReverseAll(Printed(edits, hunks))
  {
    var flipped := Flip(edits);
    forall k | 0 <= k < |hunks|
      ensures flipped[hunks[k].from..hunks[k].to] == Flip(edits[hunks[k].from..hunks[k].to])
    {}
  }

  /** The same hunks, read in reverse, take the new lines back to the old. */
  lemma {:induction false} PatchRebuildsOld(edits: seq<Edit>, hunks: seq<Hunk>)
    requires Grouping(edits, hunks) && InRange(edits, hunks)
    ensures Patch(NewSide(edits), 0, ReverseAll(Printed(edits, hunks))) == (true, OldSide(edits))
  {
    FlippedGrouping(edits, hunks);
    FlippedPrint(edits, hunks);
    PatchRebuildsNew(Flip(edits), FlipHunks(hunks));
    SidesOfFlip(edits);
  }

  // ----- finding the hunks -----------------------------------------------------------

  lemma {:induction false} PrefixSides(edits: seq<Edit>, i: nat)
    requires i < |edits|
    ensures |OldSide(edits[..i + 1])| == |OldSide(edits[..i])| + if edits[i].op == Add then 0 else 1
    ensures |NewSide(edits[..i + 1])| == |NewSide(edits[..i])| + if edits[i].op == Del then 0 else 1
  {
    assert edits[..i + 1] == edits[..i] + [edits[i]];
    SidesConcat(edits[..i], [edits[i]]);
    assert OldSide([edits[i]]) == if edits[i].op == Add then [] else [edits[i].text];
    assert NewSide([edits[i]]) == if edits[i].op == Del then [] else [edits[i].text];
  }

  /** The line numbers each edit begins at, in each text. */
  method LineNumbers(edits: seq<Edit>) returns (oldAt: array<nat>, newAt: array<nat>)
    ensures fresh(oldAt) && fresh(newAt) && Numbered(edits, oldAt, newAt)
  {
    oldAt, newAt := new nat[|edits|](_ => 0), new nat[|edits|](_ => 0);
    var oldLine: nat, newLine: nat := 1, 1;
    for i := 0 to |edits|
      invariant oldLine == 1 + |OldSide(edits[..i])| && newLine == 1 + |NewSide(edits[..i])|
      invariant forall k :: 0 <= k < i ==> oldAt[k] == 1 + |OldSide(edits[..k])|
      invariant forall k :: 0 <= k < i ==> newAt[k] == 1 + |NewSide(edits[..k])|
    {
      PrefixSides(edits, i);
      oldAt[i], newAt[i] := oldLine, newLine;
      if edits[i].op != Add { oldLine := oldLine + 1; }
      if edits[i].op != Del { newLine := newLine + 1; }
    }
  }

  /** How many of the lines belong to one side: all but the ones only the other has. */
  method CountOp(edits: seq<Edit>, exclude: Op) returns (n: nat)
    ensures exclude == Add ==> n == |OldSide(edits)|
    ensures exclude == Del ==> n == |NewSide(edits)|
  {
    n := 0;
    for i := 0 to |edits|
      invariant exclude == Add ==> n == |OldSide(edits[..i])|
      invariant exclude == Del ==> n == |NewSide(edits[..i])|
    {
      PrefixSides(edits, i);
      if edits[i].op != exclude { n := n + 1; }
    }
    assert edits[..|edits|] == edits;
  }

  /** How far the hunk that opens at change i reaches. */
  method Extent(edits: seq<Edit>, i: nat) returns (to: nat, ghost last: nat)
    requires Changed(edits, i)
    requires forall k :: Max(0, i - CONTEXT_LINES) <= k < i ==> !Changed(edits, k)
    ensures Spans(edits, Max(0, i - CONTEXT_LINES), to, i, last)
    ensures forall k :: last < k <= last + 1 + 2 * CONTEXT_LINES ==> !Changed(edits, k)
  {
    to, last := i, i;
    while to < |edits|
      invariant i <= to <= |edits| && i <= last && Changed(edits, last)
      invariant last == to || last == to - 1
      invariant forall k: nat :: i <= k && k + 2 * CONTEXT_LINES < last ==> !QuietRun(edits, k)
      decreases |edits| - to, to - last
    {
      if edits[to].op != Keep {
        forall k: nat | i <= k && k + 2 * CONTEXT_LINES < to ensures !QuietRun(edits, k) {
          if last <= k + 2 * CONTEXT_LINES { assert Changed(edits, last); }
        }
        last := to;
        to := to + 1;
        continue;
      }
      var next := to;
      while next < |edits| && edits[next].op == Keep
        invariant to <= next <= |edits|
        invariant forall k :: to <= k < next ==> !Changed(edits, k)
      {
        next := next + 1;
      }
      if next < |edits| && next - to <= 2 * CONTEXT_LINES {
        forall k: nat | i <= k && k + 2 * CONTEXT_LINES < next ensures !QuietRun(edits, k) {
          if last <= k + 2 * CONTEXT_LINES { assert Changed(edits, last); }
        }
        to, last := next, next;
        continue;
      }
      to := Min(|edits|, to + CONTEXT_LINES);
      return;
    }
  }

  /** The state of the search: what is grouped so far, and the quiet lines behind it. */
  ghost predicate Searched(edits: seq<Edit>, out: seq<Hunk>, i: nat, quiet: nat) {
    && AllFit(edits, out) && Ordered(out)
    && (forall k :: Changed(edits, k) && k < i ==> Covered(out, k))
    && (i < |edits| ==> quiet <= i + 1 + CONTEXT_LINES)
    && (forall k :: 0 <= k < |out| ==> out[k].to <= i && out[k].to < quiet - CONTEXT_LINES)
    && (forall k :: (out == [] || quiet - 2 * CONTEXT_LINES <= k + 1) && k < Max(i, quiet) ==> !Changed(edits, k))
  }

  lemma {:induction false} AppendHunk(edits: seq<Edit>, out: seq<Hunk>, h: Hunk, i: nat, quiet: nat, last: nat)
    requires Searched(edits, out, i, quiet) && (out == [] ==> quiet == 0) && Changed(edits, i)
    requires Fits(edits, h) && Spans(edits, h.from, h.to, i, last)
    requires forall k :: last < k <= last + 1 + 2 * CONTEXT_LINES ==> !Changed(edits, k)
    ensures Searched(edits, out + [h], h.to, last + 2 + 2 * CONTEXT_LINES)
  {
    assert quiet <= i && (out == [] || quiet - CONTEXT_LINES <= h.from);
    FitsGrow(edits, out, h);
    CoverageGrows(edits, out, h, i);
  }

  lemma {:induction false} FitsGrow(edits: seq<Edit>, out: seq<Hunk>, h: Hunk)
    requires AllFit(edits, out) && Ordered(out) && Fits(edits, h)
    requires forall k :: 0 <= k < |out| ==> out[k].to < h.from
    ensures AllFit(edits, out + [h]) && Ordered(out + [h])
  {
    forall k | 0 <= k < |out + [h]| ensures Fits(edits, (out + [h])[k]) {
      if k < |out| { assert Fits(edits, out[k]); }
    }
  }

  lemma {:induction false} CoverageGrows(edits: seq<Edit>, out: seq<Hunk>, h: Hunk, i: nat)
    requires forall k :: Changed(edits, k) && k < i ==> Covered(out, k)
    requires h.from <= i
    ensures forall k :: Changed(edits, k) && k < h.to ==> Covered(out + [h], k)
  {
    var more := out + [h];
    forall k | Changed(edits, k) && k < h.to ensures Covered(more, k) {
      if k < i {
        assert Covered(out, k);
        var m :| 0 <= m < |out| && out[m].from <= k < out[m].to;
        assert more[m].from <= k < more[m].to;
      } else {
        assert more[|out|].from <= k < more[|out|].to;
      }
    }
  }

  method HunkBetween(edits: seq<Edit>, oldAt: array<nat>, newAt: array<nat>, from: nat, to: nat) returns (h: Hunk)
    requires from < to <= |edits| && Numbered(edits, oldAt, newAt)
    ensures h == Hunk(from, to, 1 + |OldSide(edits[..from])|, |OldSide(edits[from..to])|,
                      1 + |NewSide(edits[..from])|, |NewSide(edits[from..to])|)
  {
    var oldCount := CountOp(edits[from..to], Add);
    var newCount := CountOp(edits[from..to], Del);
    h := Hunk(from, to, oldAt[from], oldCount, newAt[from], newCount);
  }

  ghost predicate Numbered(edits: seq<Edit>, oldAt: array<nat>, newAt: array<nat>)
    reads oldAt, newAt
  {
    && oldAt.Length == newAt.Length == |edits|
    && (forall i :: 0 <= i < |edits| ==> oldAt[i] == 1 + |OldSide(edits[..i])|)
    && (forall i :: 0 <= i < |edits| ==> newAt[i] == 1 + |NewSide(edits[..i])|)
  }

  lemma {:induction false} SkipKept(edits: seq<Edit>, out: seq<Hunk>, i: nat, quiet: nat)
    requires Searched(edits, out, i, quiet) && i < |edits| && !Changed(edits, i)
    ensures Searched(edits, out, i + 1, quiet)
  {}

  lemma {:induction false} QuietBefore(edits: seq<Edit>, out: seq<Hunk>, i: nat, quiet: nat)
    requires Searched(edits, out, i, quiet) && (out == [] ==> quiet == 0) && Changed(edits, i)
    ensures forall k :: Max(0, i - CONTEXT_LINES) <= k < i ==> !Changed(edits, k)
  {}

  method HunksOf(edits: seq<Edit>) returns (out: seq<Hunk>)
    ensures Grouping(edits, out)
  {
    out := [];
    var oldAt, newAt := LineNumbers(edits);
    var i: nat := 0;
    ghost var quiet: nat := 0;
    while i < |edits|
      invariant 0 <= i <= |edits|
      invariant Searched(edits, out, i, quiet) && (out == [] ==> quiet == 0)
      invariant Numbered(edits, oldAt, newAt)
    {
      if edits[i].op == Keep {
        SkipKept(edits, out, i, quiet);
        i := i + 1;
        continue;
      }
      QuietBefore(edits, out, i, quiet);
      var to, last := Extent(edits, i);
      var hunk := HunkBetween(edits, oldAt, newAt, Max(0, i - CONTEXT_LINES), to);
      assert Spans(edits, hunk.from, hunk.to, i, last);
      AppendHunk(edits, out, hunk, i, quiet, last);
      out := out + [hunk];
      i, quiet := to, last + 2 + 2 * CONTEXT_LINES;
    }
    Finished(edits, out, i, quiet);
  }

  lemma {:induction false} Finished(edits: seq<Edit>, out: seq<Hunk>, i: nat, quiet: nat)
    requires Searched(edits, out, i, quiet) && |edits| <= i
    ensures Grouping(edits, out)
  {}

  // ----- texts -----------------------------------------------------------------------

  function Split(text: string): (lines: seq<string>)
    ensures lines != []
  {
    if text == [] then [""]
    else
      var rest := Split(text[1..]);
      if text[0] == '\n' then [""] + rest else [[text[0]] + rest[0]] + rest[1..]
  }

  function Join(lines: seq<string>): string
    requires lines != []
  {
    if |lines| == 1 then lines[0] else lines[0] + "\n" + Join(lines[1..])
  }

  lemma {:induction false} JoinPrepends(c: char, lines: seq<string>)
    requires lines != []
    ensures Join([[c] + lines[0]] + lines[1..]) == [c] + Join(lines)
  {
    var longer := [[c] + lines[0]] + lines[1..];
    if |lines| > 1 {
      assert longer[1..] == lines[1..];
      assert Join(longer) == [c] + (lines[0] + "\n" + Join(lines[1..]));
    }
  }

  lemma {:induction false} JoinUndoesSplit(text: string)
    ensures Join(Split(text)) == text
  {
    if text != [] {
      var rest := Split(text[1..]);
      JoinUndoesSplit(text[1..]);
      assert text == [text[0]] + text[1..];
      if text[0] == '\n' {
        assert ([""] + rest)[1..] == rest;
        assert Join([""] + rest) == "" + "\n" + Join(rest) == "\n" + text[1..];
      } else {
        JoinPrepends(text[0], rest);
      }
    }
  }

  function TrimSuffix(text: string): string {
    if text != "" && text[|text| - 1] == '\n' then text[..|text| - 1] else text
  }

  function SplitLines(text: string): seq<string> {
    if text == "" then [] else Split(TrimSuffix(text))
  }

  method UnifiedDiff(before: string, after: string) returns (chunks: seq<Chunk>)
    ensures before == after ==> chunks == []
    ensures before != after ==>
      exists hunks :: Grouping(Script(SplitLines(before), SplitLines(after)), hunks) &&
        InRange(Script(SplitLines(before), SplitLines(after)), hunks) &&
        chunks == Printed(Script(SplitLines(before), SplitLines(after)), hunks)
    ensures Patch(SplitLines(before), 0, chunks) == (true, SplitLines(after))
    ensures Patch(SplitLines(after), 0, ReverseAll(chunks)) == (true, SplitLines(before))
    ensures chunks == [] <==> SplitLines(before) == SplitLines(after)
  {
    if before == after {
      assert ReverseAll([]) == [];
      return [];
    }
    var old_, new_ := SplitLines(before), SplitLines(after);
    var edits := LineEdits(old_, new_);
    var hunks := HunksOf(edits);
    ScriptIsCorrect(old_, new_);
    FitsInRange(edits, hunks);
    PatchRebuildsNew(edits, hunks);
    PatchRebuildsOld(edits, hunks);
    EmptyWhenEqual(old_, new_, hunks);
    chunks := Printed(edits, hunks);
  }

  lemma {:induction false} EmptyWhenEqual(old_: seq<string>, new_: seq<string>, hunks: seq<Hunk>)
    requires Grouping(Script(old_, new_), hunks)
    ensures hunks == [] <==> old_ == new_
  {
    var edits := Script(old_, new_);
    ScriptIsCorrect(old_, new_);
    if old_ == new_ {
      ScriptOfEqual(old_);
      if hunks != [] {
        var _, _ := HunkAt(edits, hunks, 0);
        assert false;
      }
    } else {
      ChangesNeedAChange(edits);
      var i :| 0 <= i < |edits| && edits[i].op != Keep;
      assert Changed(edits, i);
      assert Covered(hunks, i);
    }
  }

  /** Two texts read as the same lines exactly when at most a final newline tells them apart. */
  lemma {:induction false} SameLines(a: string, b: string)
    ensures SplitLines(a) == SplitLines(b) <==> TrimSuffix(a) == TrimSuffix(b) && (a == "" <==> b == "")
  {
    JoinUndoesSplit(TrimSuffix(a));
    JoinUndoesSplit(TrimSuffix(b));
  }
}
