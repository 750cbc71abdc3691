/** Orders on names and texts, and the sort the engine applies to its lists. Everything a
    sort decides is decided by the order alone: a list sorted by a total order is the only
    ordered arrangement of its elements. */
module Orders {

  // ----- text order ------------------------------------------------------------------

  /** Byte-wise text order, as cmp.Compare orders strings. */
  predicate TextLe(a: string, b: string) {
    a == "" || (b != "" && (a[0] < b[0] || (a[0] == b[0] && TextLe(a[1..], b[1..]))))
  }

  lemma {:induction false} TextTotal(a: string, b: string)
    ensures TextLe(a, b) || TextLe(b, a)
  {
    if a != "" && b != "" && a[0] == b[0] { TextTotal(a[1..], b[1..]); }
  }

  lemma {:induction false} TextAntisymmetric(a: string, b: string)
    requires TextLe(a, b) && TextLe(b, a)
    ensures a == b
  {
    if a != "" && b != "" {
      TextAntisymmetric(a[1..], b[1..]);
      assert a == [a[0]] + a[1..] && b == [b[0]] + b[1..];
    }
  }

  lemma {:induction false} TextTransitive(a: string, b: string, c: string)
    requires TextLe(a, b) && TextLe(b, c)
    ensures TextLe(a, c)
  {
    if a != "" && b != "" && c != "" && a[0] == b[0] == c[0] { TextTransitive(a[1..], b[1..], c[1..]); }
  }

  lemma {:induction false} TextOrder()
    ensures TotalPreorder(TextLe)
    ensures forall a, b :: TextLe(a, b) && TextLe(b, a) ==> a == b
  {
    forall a, b ensures TextLe(a, b) || TextLe(b, a) { TextTotal(a, b); }
    forall a, b | TextLe(a, b) && TextLe(b, a) ensures a == b { TextAntisymmetric(a, b); }
    forall a, b, c | TextLe(a, b) && TextLe(b, c) ensures TextLe(a, c) { TextTransitive(a, b, c); }
  }

  // ----- sorting ---------------------------------------------------------------------

  ghost predicate TotalPreorder<T(!new)>(le: (T, T) -> bool) {
    && (forall a, b :: le(a, b) || le(b, a))
    && forall a, b, c :: le(a, b) && le(b, c) ==> le(a, c)
  }

  ghost predicate Sorted<T>(s: seq<T>, le: (T, T) -> bool) {
    forall i, j :: 0 <= i < j < |s| ==> le(s[i], s[j])
  }

  function Insert<T>(x: T, s: seq<T>, le: (T, T) -> bool): seq<T> {
    if s == [] then [x]
    else if le(x, s[0]) then [x] + s
    else [s[0]] + Insert(x, s[1..], le)
  }

  /** A stable sort: what slices.SortFunc and slices.SortStableFunc leave behind. */
  function Sort<T>(s: seq<T>, le: (T, T) -> bool): seq<T> {
    if s == [] then [] else Insert(s[0], Sort(s[1..], le), le)
  }

  lemma {:induction false} InsertKeeps<T>(x: T, s: seq<T>, le: (T, T) -> bool)
    ensures multiset(Insert(x, s, le)) == multiset{x} + multiset(s)
  {
    if s != [] {
      assert s == [s[0]] + s[1..];
      if !le(x, s[0]) { InsertKeeps(x, s[1..], le); }
    }
  }

  lemma {:induction false} SortKeeps<T>(s: seq<T>, le: (T, T) -> bool)
    ensures multiset(Sort(s, le)) == multiset(s)
    ensures |Sort(s, le)| == |s|
    ensures forall x :: x in Sort(s, le) <==> x in s
  {
    if s != [] {
      assert s == [s[0]] + s[1..];
      SortKeeps(s[1..], le);
      InsertKeeps(s[0], Sort(s[1..], le), le);
    }
    assert |multiset(Sort(s, le))| == |Sort(s, le)|;
    forall x ensures x in Sort(s, le) <==> x in s {
      assert x in Sort(s, le) <==> x in multiset(Sort(s, le));
    }
  }

  lemma {:induction false} InsertSorted<T(!new)>(x: T, s: seq<T>, le: (T, T) -> bool)
    requires TotalPreorder(le) && Sorted(s, le)
    ensures Sorted(Insert(x, s, le), le)
  {
    if s != [] && !le(x, s[0]) {
      var rest := Insert(x, s[1..], le);
      InsertSorted(x, s[1..], le);
      InsertKeeps(x, s[1..], le);
      forall j | 0 <= j < |rest| ensures le(s[0], rest[j]) {
        assert rest[j] in multiset(rest);
        assert rest[j] == x || rest[j] in s[1..];
      }
    } else if s != [] {
      forall j | 0 <= j < |s| ensures le(x, s[j]) { assert j > 0 ==> le(s[0], s[j]); }
    }
  }

  lemma {:induction false} SortSorted<T(!new)>(s: seq<T>, le: (T, T) -> bool)
    requires TotalPreorder(le)
    ensures Sorted(Sort(s, le), le)
  {
    if s != [] {
      SortSorted(s[1..], le);
      InsertSorted(s[0], Sort(s[1..], le), le);
    }
  }

  /** No two different elements of the list tie. */
  ghost predicate Untied<T>(s: seq<T>, le: (T, T) -> bool) {
    forall a, b :: a in s && b in s && le(a, b) && le(b, a) ==> a == b
  }

  lemma {:induction false} SameTail<T>(a: seq<T>, b: seq<T>)
    requires a != [] && b != [] && a[0] == b[0] && multiset(a) == multiset(b)
    ensures multiset(a[1..]) == multiset(b[1..])
  {
    assert a == [a[0]] + a[1..] && b == [b[0]] + b[1..];
    assert multiset(a[1..]) == multiset(a) - multiset{a[0]};
  }

  lemma {:induction false} SortedUnique<T(!new)>(a: seq<T>, b: seq<T>, le: (T, T) -> bool)
    requires Sorted(a, le) && Sorted(b, le) && Untied(a, le)
    requires multiset(a) == multiset(b)
    ensures a == b
  {
    if a == [] || b == [] {
      assert |multiset(a)| == |a| && |multiset(b)| == |b|;
    } else {
      assert a[0] in multiset(b) && b[0] in multiset(a);
      SameTail(a, b);
      SortedUnique(a[1..], b[1..], le);
      assert a == [a[0]] + a[1..] && b == [b[0]] + b[1..];
    }
  }

  /** The order something is listed in does not reach what it is sorted into. */
  lemma {:induction false} SortIgnoresOrder<T(!new)>(a: seq<T>, b: seq<T>, le: (T, T) -> bool)
    requires TotalPreorder(le) && Untied(a, le)
    requires multiset(a) == multiset(b)
    ensures Sort(a, le) == Sort(b, le)
  {
    SortKeeps(a, le);
    SortKeeps(b, le);
    SortSorted(a, le);
    SortSorted(b, le);
    SortedUnique(Sort(a, le), Sort(b, le), le);
  }

  lemma {:induction false} SortOfSorted<T(!new)>(a: seq<T>, le: (T, T) -> bool)
    requires TotalPreorder(le) && Sorted(a, le)
    ensures Sort(a, le) == a
  {
    if a != [] {
      SortOfSorted(a[1..], le);
      if |a| > 1 { assert le(a[0], a[1..][0]); }
      assert a == [a[0]] + a[1..];
    }
  }

  // ----- texts as a set: sorted, and each once ---------------------------------------

  /** slices.Compact: every run of equal neighbours becomes one. */
  function Compact<T(==)>(s: seq<T>): seq<T> {
    if |s| <= 1 then s
    else if s[0] == s[1] then Compact(s[1..])
    else [s[0]] + Compact(s[1..])
  }

  lemma {:induction false} CompactKeeps<T>(s: seq<T>)
    ensures forall x :: x in Compact(s) <==> x in s
  {
    if |s| > 1 {
      CompactKeeps(s[1..]);
      assert s == [s[0]] + s[1..];
    }
  }

  /** Strictly increasing as text: what a set read back from the kernel always is. */
  ghost predicate StrictlyIncreasing(s: seq<string>) {
    forall i, j :: 0 <= i < j < |s| ==> TextLe(s[i], s[j]) && s[i] != s[j]
  }

  /** How the kernel's elements are read back: each once, in text order. */
  function Canonical(s: seq<string>): seq<string> {
    Compact(Sort(s, TextLe))
  }

  lemma {:induction false} CompactIncreasing(s: seq<string>)
    requires Sorted(s, TextLe)
    ensures StrictlyIncreasing(Compact(s))
    ensures s != [] ==> Compact(s) != [] && Compact(s)[0] == s[0]
  {
    if |s| > 1 {
      CompactIncreasing(s[1..]);
      CompactKeeps(s[1..]);
      if s[0] != s[1] {
        forall x | x in s[1..] ensures TextLe(s[0], x) && s[0] != x {
          var j :| 0 <= j < |s[1..]| && s[1..][j] == x;
          assert TextLe(s[0], s[j + 1]) && TextLe(s[0], s[1]);
          if s[0] == x {
            if j > 0 { assert TextLe(s[1], s[j + 1]); }
            TextAntisymmetric(s[0], s[1]);
          }
        }
        var c := Compact(s[1..]);
        forall j | 0 <= j < |c| ensures TextLe(s[0], c[j]) && s[0] != c[j] { assert c[j] in c; }
      }
    }
  }

  lemma {:induction false} CanonicalIncreasing(s: seq<string>)
    ensures StrictlyIncreasing(Canonical(s))
    ensures forall x :: x in Canonical(s) <==> x in s
  {
    TextOrder();
    SortSorted(s, TextLe);
    SortKeeps(s, TextLe);
    CompactIncreasing(Sort(s, TextLe));
    CompactKeeps(Sort(s, TextLe));
  }

  lemma {:induction false} CompactOfDistinct(s: seq<string>)
    requires StrictlyIncreasing(s)
    ensures Compact(s) == s
  {
    if |s| > 1 {
      assert StrictlyIncreasing(s[1..]);
      CompactOfDistinct(s[1..]);
      assert s[0] != s[1];
      assert s == [s[0]] + s[1..];
    }
  }

  /** A list is what it is read back as exactly when it is strictly increasing already. */
  lemma {:induction false} CanonicalFixedPoint(s: seq<string>)
    ensures Canonical(s) == s <==> StrictlyIncreasing(s)
  {
    CanonicalIncreasing(s);
    if StrictlyIncreasing(s) {
      TextOrder();
      SortOfSorted(s, TextLe);
      CompactOfDistinct(s);
    }
  }

  // ----- each once -------------------------------------------------------------------

  lemma {:induction false} SortedDistinct<T(!new)>(s: seq<T>, le: (T, T) -> bool)
    requires forall a, b :: 0 <= a < b < |s| ==> s[a] != s[b]
    ensures forall a, b :: 0 <= a < b < |Sort(s, le)| ==> Sort(s, le)[a] != Sort(s, le)[b]
  {
    SortKeeps(s, le);
    DistinctCounts(s);
    forall x ensures Once(Sort(s, le), x) { assert Once(s, x); }
    CountsDistinct(Sort(s, le));
  }

  predicate Once<T(==)>(s: seq<T>, x: T) { multiset(s)[x] <= 1 }

  lemma {:induction false} DistinctCounts<T(!new)>(s: seq<T>)
    requires forall a, b :: 0 <= a < b < |s| ==> s[a] != s[b]
    ensures forall x :: Once(s, x)
  {
    if s != [] {
      assert s == [s[0]] + s[1..];
      DistinctCounts(s[1..]);
      assert s[0] !in s[1..];
      forall x ensures Once(s, x) { assert Once(s[1..], x); assert multiset(s) == multiset{s[0]} + multiset(s[1..]); }
    }
  }

  lemma {:induction false} CountsDistinct<T(!new)>(s: seq<T>)
    requires forall x :: Once(s, x)
    ensures forall a, b :: 0 <= a < b < |s| ==> s[a] != s[b]
  {
    forall a, b | 0 <= a < b < |s| ensures s[a] != s[b] {
      assert s == s[..b] + [s[b]] + s[b + 1..];
      assert s[..b][a] == s[a];
      assert Once(s, s[b]);
      assert s[b] in s[..b] ==> multiset(s)[s[b]] >= 2;
    }
  }

  lemma {:induction false} DistinctSameCounts<T(!new)>(a: seq<T>, b: seq<T>)
    requires forall i, j :: 0 <= i < j < |a| ==> a[i] != a[j]
    requires forall i, j :: 0 <= i < j < |b| ==> b[i] != b[j]
    requires forall x :: x in a <==> x in b
    ensures multiset(a) == multiset(b)
  {
    DistinctCounts(a);
    DistinctCounts(b);
    forall x ensures multiset(a)[x] == multiset(b)[x] {
      assert Once(a, x) && Once(b, x);
      assert x in multiset(a) <==> x in a;
      assert x in multiset(b) <==> x in b;
    }
  }

  lemma {:induction false} Regrouped<T>(a: seq<T>, b: seq<T>, c: seq<T>)
    ensures (a + b) + c == a + (b + c)
  {}
}
