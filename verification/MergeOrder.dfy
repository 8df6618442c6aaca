/**
 * Stable sorting of dated items, newest first and undated last, and how it interacts with
 * concatenation and truncation. The date of an item is given by a function.
 */
module MergeOrder {
  import opened Prelude

  datatype Ordering = Less | Equal | Greater

  /** An item dated `k` may stand before one dated `l`. */
  predicate NewestFirst(k: Option<int>, l: Option<int>) {
    l.None? || (k.Some? && k.value >= l.value)
  }

  predicate Sorted<T(!new)>(date: T -> Option<int>, s: seq<T>) {
    forall i, j | 0 <= i < j < |s| :: NewestFirst(date(s[i]), date(s[j]))
  }

  /** Put `x` before the first item it may precede. */
  function Insert<T(!new)>(date: T -> Option<int>, x: T, s: seq<T>): seq<T> {
    if s == [] then [x]
    else if NewestFirst(date(x), date(s[0])) then [x] + s
    else [s[0]] + Insert(date, x, s[1..])
  }

  function StableSort<T(!new)>(date: T -> Option<int>, s: seq<T>): seq<T> {
    if s == [] then [] else Insert(date, s[0], StableSort(date, s[1..]))
  }

  // ---- StableSort is the stable sort ------------------------------------------------

  /** The items dated `k`, in their order of appearance. */
  function DatedAt<T(!new)>(date: T -> Option<int>, s: seq<T>, k: Option<int>): seq<T> {
    if s == [] then []
    else (if date(s[0]) == k then [s[0]] else []) + DatedAt(date, s[1..], k)
  }

  /** What a stable sort promises, without saying how it is done. */
  ghost predicate IsStableSortOf<T(!new)>(date: T -> Option<int>, r: seq<T>, s: seq<T>) {
    Sorted(date, r) && forall k :: DatedAt(date, r, k) == DatedAt(date, s, k)
  }

  lemma {:induction false} InsertContents<T(!new)>(date: T -> Option<int>, x: T, s: seq<T>)
    ensures multiset(Insert(date, x, s)) == multiset{x} + multiset(s)
  {
    if s != [] && !NewestFirst(date(x), date(s[0])) {
      InsertContents(date, x, s[1..]);
      assert s == [s[0]] + s[1..];
    }
  }

  lemma {:induction false} SortContents<T(!new)>(date: T -> Option<int>, s: seq<T>)
    ensures multiset(StableSort(date, s)) == multiset(s)
  {
    if s != [] {
      SortContents(date, s[1..]);
      InsertContents(date, s[0], StableSort(date, s[1..]));
      assert s == [s[0]] + s[1..];
    }
  }

  lemma {:induction false} InsertKeepsSorted<T(!new)>(date: T -> Option<int>, x: T, s: seq<T>)
    requires Sorted(date, s)
    ensures Sorted(date, Insert(date, x, s))
  {
    if s != [] && !NewestFirst(date(x), date(s[0])) {
      InsertKeepsSorted(date, x, s[1..]);
      InsertContents(date, x, s[1..]);
      var t := Insert(date, x, s[1..]);
      forall i | 0 <= i < |t| ensures NewestFirst(date(s[0]), date(t[i])) {
        assert t[i] in multiset(t);
        assert t[i] == x || t[i] in s[1..];
      }
    }
  }

  lemma {:induction false} InsertIsStable<T(!new)>(date: T -> Option<int>, x: T, s: seq<T>, k: Option<int>)
    requires Sorted(date, s)
    ensures DatedAt(date, Insert(date, x, s), k) == (if date(x) == k then [x] else []) + DatedAt(date, s, k)
  {
    if s != [] {
      if NewestFirst(date(x), date(s[0])) {
        assert ([x] + s)[1..] == s;
      } else {
        InsertIsStable(date, x, s[1..], k);
        var head, tail := if date(s[0]) == k then [s[0]] else [], DatedAt(date, s[1..], k);
        var mine := if date(x) == k then [x] else [];
        var rest := Insert(date, x, s[1..]);
        assert ([s[0]] + rest)[1..] == rest;
        assert head == [] || mine == [];
        assert head + (mine + tail) == mine + (head + tail);
      }
    }
  }

  lemma {:induction false} SortIsStableSort<T(!new)>(date: T -> Option<int>, s: seq<T>)
    ensures IsStableSortOf(date, StableSort(date, s), s)
  {
    if s != [] {
      SortIsStableSort(date, s[1..]);
      var t := StableSort(date, s[1..]);
      InsertKeepsSorted(date, s[0], t);
      forall k ensures DatedAt(date, StableSort(date, s), k) == DatedAt(date, s, k) {
        InsertIsStable(date, s[0], t, k);
        assert DatedAt(date, t, k) == DatedAt(date, s[1..], k);
      }
    }
  }

  lemma {:induction false} PresentAt<T(!new)>(date: T -> Option<int>, s: seq<T>, i: nat)
    requires i < |s|
    ensures DatedAt(date, s, date(s[i])) != []
  {
    if i > 0 {
      PresentAt(date, s[1..], i - 1);
    }
  }

  lemma {:induction false} FoundAt<T(!new)>(date: T -> Option<int>, s: seq<T>, k: Option<int>) returns (i: nat)
    requires DatedAt(date, s, k) != []
    ensures i < |s| && date(s[i]) == k
  {
    if date(s[0]) == k {
      i := 0;
    } else {
      i := FoundAt(date, s[1..], k);
      i := i + 1;
    }
  }

  lemma SameHead<T(!new)>(date: T -> Option<int>, r: seq<T>, t: seq<T>)
    requires Sorted(date, r) && Sorted(date, t) && r != []
    requires forall k :: DatedAt(date, r, k) == DatedAt(date, t, k)
    ensures t != [] && r[0] == t[0]
  {
    PresentAt(date, r, 0);
    assert DatedAt(date, t, date(r[0])) != [];
    var i := FoundAt(date, t, date(r[0]));
    PresentAt(date, t, 0);
    assert DatedAt(date, r, date(t[0])) != [];
    var j := FoundAt(date, r, date(t[0]));
    assert NewestFirst(date(t[0]), date(r[0])) && NewestFirst(date(r[0]), date(t[0]));
    assert DatedAt(date, r, date(r[0]))[0] == r[0];
    assert DatedAt(date, t, date(r[0]))[0] == t[0];
  }

  lemma NothingDated<T(!new)>(date: T -> Option<int>, s: seq<T>)
    requires forall k :: DatedAt(date, s, k) == []
    ensures s == []
  {
    if s != [] {
      PresentAt(date, s, 0);
    }
  }

  lemma {:induction false} StableSortsAgree<T(!new)>(date: T -> Option<int>, r: seq<T>, t: seq<T>)
    requires Sorted(date, r) && Sorted(date, t)
    requires forall k :: DatedAt(date, r, k) == DatedAt(date, t, k)
    ensures r == t
  {
    if r == [] {
      NothingDated(date, t);
    } else {
      SameHead(date, r, t);
      forall k ensures DatedAt(date, r[1..], k) == DatedAt(date, t[1..], k) {
        var head := if date(r[0]) == k then [r[0]] else [];
        assert DatedAt(date, r, k) == head + DatedAt(date, r[1..], k);
        assert DatedAt(date, t, k) == head + DatedAt(date, t[1..], k);
        assert (head + DatedAt(date, r[1..], k))[|head|..] == DatedAt(date, r[1..], k);
        assert (head + DatedAt(date, t[1..], k))[|head|..] == DatedAt(date, t[1..], k);
      }
      StableSortsAgree(date, r[1..], t[1..]);
      assert r == [r[0]] + r[1..] && t == [t[0]] + t[1..];
    }
  }

  /** There is exactly one stable sort of a list, and `StableSort` computes it. */
  lemma StableSortIsUnique<T(!new)>(date: T -> Option<int>, r: seq<T>, s: seq<T>)
    ensures IsStableSortOf(date, r, s) <==> r == StableSort(date, s)
  {
    SortIsStableSort(date, s);
    if IsStableSortOf(date, r, s) {
      forall k ensures DatedAt(date, r, k) == DatedAt(date, StableSort(date, s), k) {
        assert DatedAt(date, r, k) == DatedAt(date, s, k);
        assert DatedAt(date, StableSort(date, s), k) == DatedAt(date, s, k);
      }
      StableSortsAgree(date, r, StableSort(date, s));
    }
  }

  lemma {:induction false} SortedIsFixed<T(!new)>(date: T -> Option<int>, s: seq<T>)
    requires Sorted(date, s)
    ensures StableSort(date, s) == s
  {
    if s != [] {
      SortedIsFixed(date, s[1..]);
    }
  }

  // ---- Merging ----------------------------------------------------------------------

  /** Merge two lists, the left one first among equals. */
  function Merge<T(!new)>(date: T -> Option<int>, s: seq<T>, t: seq<T>): seq<T> {
    if s == [] then t
    else if t == [] then s
    else if NewestFirst(date(s[0]), date(t[0])) then [s[0]] + Merge(date, s[1..], t)
    else [t[0]] + Merge(date, s, t[1..])
  }

  lemma {:induction false} InsertIntoMerge<T(!new)>(date: T -> Option<int>, x: T, s: seq<T>, t: seq<T>)
    ensures Insert(date, x, Merge(date, s, t)) == Merge(date, Insert(date, x, s), t)
    decreases |s| + |t|
  {
    if t == [] {
    } else if s == [] {
      InsertIntoEmpty(date, x, t);
    } else if NewestFirst(date(s[0]), date(t[0])) {
      InsertIntoMerge(date, x, s[1..], t);
      if !NewestFirst(date(x), date(s[0])) {
        var rest := Insert(date, x, s[1..]);
        assert ([s[0]] + rest)[1..] == rest;
      } else {
        assert ([x] + s)[1..] == s;
      }
    } else {
      InsertIntoMerge(date, x, s, t[1..]);
      if NewestFirst(date(x), date(t[0])) {
        assert ([x] + s)[1..] == s;
      }
    }
  }

  lemma {:induction false} InsertIntoEmpty<T(!new)>(date: T -> Option<int>, x: T, t: seq<T>)
    ensures Insert(date, x, t) == Merge(date, [x], t)
  {
    if t != [] {
      InsertIntoEmpty(date, x, t[1..]);
    }
  }

  /** Sorting a concatenation is merging the sorted halves. */
  lemma {:induction false} SortConcat<T(!new)>(date: T -> Option<int>, a: seq<T>, b: seq<T>)
    ensures StableSort(date, a + b) == Merge(date, StableSort(date, a), StableSort(date, b))
  {
    if a == [] {
      assert a + b == b;
    } else {
      assert (a + b)[1..] == a[1..] + b;
      SortConcat(date, a[1..], b);
      InsertIntoMerge(date, a[0], StableSort(date, a[1..]), StableSort(date, b));
    }
  }

  /** The first `k` items, or all of them: `Vec::truncate`. */
  function Take<T>(k: nat, s: seq<T>): seq<T> {
    if k <= |s| then s[..k] else s
  }

  /** The first `k` of a merge need only the first `k` of each side. */
  lemma {:induction false} TakeMerge<T(!new)>(date: T -> Option<int>, k: nat, m: nat, n: nat, s: seq<T>, t: seq<T>)
    requires k <= m && k <= n
    ensures Take(k, Merge(date, s, t)) == Take(k, Merge(date, Take(m, s), Take(n, t)))
    decreases k, |s| + |t|
  {
    if k > 0 && s != [] && t != [] {
      var s', t' := Take(m, s), Take(n, t);
      if NewestFirst(date(s[0]), date(t[0])) {
        TakeMerge(date, k - 1, m - 1, n, s[1..], t);
        assert s'[1..] == Take(m - 1, s[1..]);
        TakeCons(k, s[0], Merge(date, s[1..], t));
        TakeCons(k, s[0], Merge(date, s'[1..], t'));
      } else {
        TakeMerge(date, k - 1, m, n - 1, s, t[1..]);
        assert t'[1..] == Take(n - 1, t[1..]);
        TakeCons(k, t[0], Merge(date, s, t[1..]));
        TakeCons(k, t[0], Merge(date, s', t'[1..]));
      }
    }
  }

  lemma TakeCons<T>(k: nat, x: T, s: seq<T>)
    requires k > 0
    ensures Take(k, [x] + s) == [x] + Take(k - 1, s)
  {
  }

  /** Truncating each half before sorting changes nothing among the first `k`. */
  lemma TakeSortConcat<T(!new)>(date: T -> Option<int>, k: nat, a: seq<T>, b: seq<T>)
    ensures Take(k, StableSort(date, a + b))
         == Take(k, Merge(date, Take(k, StableSort(date, a)), Take(k, StableSort(date, b))))
  {
    SortConcat(date, a, b);
    TakeMerge(date, k, k, k, StableSort(date, a), StableSort(date, b));
  }

  // ---- Dates alone ------------------------------------------------------------------

  function Dates<T(!new)>(date: T -> Option<int>, s: seq<T>): (r: seq<Option<int>>)
    ensures |r| == |s|
  {
    seq(|s|, i requires 0 <= i < |s| => date(s[i]))
  }

  lemma {:induction false} SameDates<T(!new)>(date: T -> Option<int>, r: seq<T>, t: seq<T>)
    requires Sorted(date, r) && Sorted(date, t)
    requires multiset(r) == multiset(t)
    ensures Dates(date, r) == Dates(date, t)
  {
    forall i | 0 <= i < |r| ensures i < |t| && date(r[i]) == date(t[i]) {
      CountUpTo(date, r, t, i);
      CountUpTo(date, t, r, i);
    }
    assert |r| == |multiset(r)| == |multiset(t)| == |t|;
  }

  /** Where `t` has an item strictly newer than `r` at the same place, their contents differ. */
  lemma CountUpTo<T(!new)>(date: T -> Option<int>, r: seq<T>, t: seq<T>, i: nat)
    requires Sorted(date, r) && Sorted(date, t) && multiset(r) == multiset(t) && i < |r|
    ensures i < |t| && NewestFirst(date(r[i]), date(t[i]))
  {
    assert |r| == |multiset(r)| == |multiset(t)| == |t|;
    if !NewestFirst(date(r[i]), date(t[i])) {
      var newer := t[..i + 1];
      forall x | x in newer ensures !NewestFirst(date(r[i]), date(x)) {
      }
      assert t == newer + t[i + 1..];
      assert r == r[..i] + r[i..];
      forall x | x in multiset(newer) ensures multiset(newer)[x] <= multiset(r[..i])[x] {
        assert x in newer;
        assert x !in r[i..];
        assert multiset(r)[x] == multiset(r[..i])[x] + multiset(r[i..])[x];
        assert multiset(t)[x] == multiset(newer)[x] + multiset(t[i + 1..])[x];
      }
      assert multiset(newer) <= multiset(r[..i]);
      assert |multiset(newer)| == i + 1 && |multiset(r[..i])| == i;
      FewerFit(multiset(newer), multiset(r[..i]));
    }
  }

  lemma FewerFit<T>(a: multiset<T>, b: multiset<T>)
    requires a <= b
    ensures |a| <= |b|
  {
    assert b == a + (b - a);
  }

  /** The first `k` of a sort are sorted, and nothing left out is newer than any of them. */
  lemma TopIsNewest<T(!new)>(date: T -> Option<int>, k: nat, s: seq<T>) returns (rest: seq<T>)
    ensures var r := Take(k, StableSort(date, s));
            && Sorted(date, r)
            && (|r| == k || rest == [])
            && |r| <= k
            && multiset(s) == multiset(r) + multiset(rest)
            && forall m, n | m in r && n in rest :: NewestFirst(date(m), date(n))
  {
    var all := StableSort(date, s);
    SortIsStableSort(date, s);
    SortContents(date, s);
    var r := Take(k, all);
    rest := all[|r|..];
    assert all == r + rest;
  }

  lemma SameContentsSameDates<T(!new)>(date: T -> Option<int>, k: nat, s: seq<T>, t: seq<T>)
    requires multiset(s) == multiset(t)
    ensures Dates(date, Take(k, StableSort(date, s))) == Dates(date, Take(k, StableSort(date, t)))
  {
    SortContents(date, s);
    SortContents(date, t);
    SortIsStableSort(date, s);
    SortIsStableSort(date, t);
    SameDates(date, StableSort(date, s), StableSort(date, t));
    assert Dates(date, Take(k, StableSort(date, s))) == Take(k, Dates(date, StableSort(date, s)));
    assert Dates(date, Take(k, StableSort(date, t))) == Take(k, Dates(date, StableSort(date, t)));
  }

  // ---- In place ---------------------------------------------------------------------

  /**
   * `Vec::sort_by`: a stable sort in place by a comparison that ranks items by date.
   * An insertion sort stands for the library's merge sort.
   */
  method SortBy<T(!new)>(compare: (T, T) -> Ordering, ghost date: T -> Option<int>, a: array<T>)
    requires forall x, y :: compare(x, y) != Greater <==> NewestFirst(date(x), date(y))
    modifies a
    ensures a[..] == StableSort(date, old(a[..]))
  {
    ghost var was := a[..];
    var i := a.Length;
    while i > 0
      invariant 0 <= i <= a.Length
      invariant a[..i] == was[..i]
      invariant a[i..] == StableSort(date, was[i..])
    {
      i := i - 1;
      ghost var x, tail := a[i], a[i + 1..];
      assert was[i..][1..] == was[i + 1..];
      assert x == was[i] by { assert a[..i + 1][i] == was[..i + 1][i]; }
      assert a[..i] == was[..i];
      SinkInto(compare, date, a, i);
    }
    assert a[..] == a[0..] && was == was[0..];
  }

  lemma InsertPast<T(!new)>(date: T -> Option<int>, before: seq<T>, x: T, rest: seq<T>)
    requires rest != [] && !NewestFirst(date(x), date(rest[0]))
    ensures before + Insert(date, x, rest) == before + [rest[0]] + Insert(date, x, rest[1..])
  {
    assert Insert(date, x, rest) == [rest[0]] + Insert(date, x, rest[1..]);
  }

  /** Move the item at `i` behind every newer one of the sorted rest. */
  method SinkInto<T(!new)>(compare: (T, T) -> Ordering, ghost date: T -> Option<int>, a: array<T>, i: nat)
    requires forall x, y :: compare(x, y) != Greater <==> NewestFirst(date(x), date(y))
    requires i < a.Length
    modifies a
    ensures a[..i] == old(a[..i])
    ensures a[i..] == Insert(date, old(a[i]), old(a[i + 1..]))
  {
    ghost var front, x, tail := a[..i], a[i], a[i + 1..];
    ghost var passed, rest := [], tail;
    assert a[..] == front + passed + [x] + rest;
    var j := i;
    while j + 1 < a.Length && compare(a[j], a[j + 1]) == Greater
      invariant |front| == i && j == i + |passed| < a.Length
      invariant a[..] == front + passed + [x] + rest
      invariant Insert(date, x, tail) == passed + Insert(date, x, rest)
    {
      InsertPast(date, passed, x, rest);
      SwapPast(front + passed, x, rest);
      assert a[j] == a[..][j] && a[j + 1] == a[..][j + 1];
      a[j], a[j + 1] := a[j + 1], a[j];
      passed, rest := passed + [rest[0]], rest[1..];
      assert front + passed == front + passed[..|passed| - 1] + [passed[|passed| - 1]];
      j := j + 1;
    }
    assert j + 1 < a.Length ==> a[j] == a[..][j] && a[j + 1] == a[..][j + 1];
    assert Insert(date, x, rest) == [x] + rest;
    assert a[..i] == a[..][..i] && a[i..] == a[..][i..];
  }

  lemma SwapPast<T>(before: seq<T>, x: T, rest: seq<T>)
    requires rest != []
    ensures var s, j := before + [x] + rest, |before|;
            s[j] == x && s[j + 1] == rest[0] && s[j := rest[0]][j + 1 := x] == before + [rest[0]] + [x] + rest[1..]
  {
  }
}
