/**
 * The catalog order: LINQ's OrderBy(data => data.Number), a stable sort,
 * modelled as an insertion sort that places each record after every record
 * whose Number is not larger.
 */
module Ordering {
  import opened Structures

  predicate SortedByNumber(s: seq<ActionData>) {
    forall i, j :: 0 <= i < j < |s| ==> s[i].number <= s[j].number
  }

  /** The records of `s` whose Number is `n`, in their order in `s`. */
  function WithNumber(s: seq<ActionData>, n: nat): seq<ActionData> {
    if s == [] then []
    else WithNumber(s[..|s| - 1], n) + (if s[|s| - 1].number == n then [s[|s| - 1]] else [])
  }

  function InsertByNumber(s: seq<ActionData>, x: ActionData): seq<ActionData> {
    if s == [] || s[|s| - 1].number <= x.number then s + [x]
    else InsertByNumber(s[..|s| - 1], x) + [s[|s| - 1]]
  }

  function SortByNumber(s: seq<ActionData>): seq<ActionData> {
    if s == [] then [] else InsertByNumber(SortByNumber(s[..|s| - 1]), s[|s| - 1])
  }

  lemma {:induction false} InsertByNumberPermutes(s: seq<ActionData>, x: ActionData)
    ensures multiset(InsertByNumber(s, x)) == multiset(s) + multiset{x}
  {
    if !(s == [] || s[|s| - 1].number <= x.number) {
      var init := s[..|s| - 1];
      InsertByNumberPermutes(init, x);
      assert s == init + [s[|s| - 1]];
    }
  }

  /** Inserting a record no larger than a bound keeps every Number within the bound. */
  lemma {:induction false} InsertByNumberBounded(s: seq<ActionData>, x: ActionData, b: nat)
    requires forall i :: 0 <= i < |s| ==> s[i].number <= b
    requires x.number <= b
    ensures forall i :: 0 <= i < |InsertByNumber(s, x)| ==> InsertByNumber(s, x)[i].number <= b
  {
    if !(s == [] || s[|s| - 1].number <= x.number) {
      InsertByNumberBounded(s[..|s| - 1], x, b);
    }
  }

  lemma {:induction false} InsertByNumberSorted(s: seq<ActionData>, x: ActionData)
    requires SortedByNumber(s)
    ensures SortedByNumber(InsertByNumber(s, x))
  {
    if !(s == [] || s[|s| - 1].number <= x.number) {
      var init, last := s[..|s| - 1], s[|s| - 1];
      InsertByNumberSorted(init, x);
      InsertByNumberBounded(init, x, last.number);
      var t := InsertByNumber(init, x);
      assert InsertByNumber(s, x) == t + [last];
      assert forall i :: 0 <= i < |t| ==> t[i].number <= last.number;
    }
  }

  lemma WithNumberSingle(y: ActionData, n: nat)
    ensures WithNumber([y], n) == if y.number == n then [y] else []
  {
    assert [y][..0] == [];
  }

  lemma {:induction false} WithNumberAppend(a: seq<ActionData>, b: seq<ActionData>, n: nat)
    ensures WithNumber(a + b, n) == WithNumber(a, n) + WithNumber(b, n)
  {
    if b == [] {
      assert a + b == a;
    } else {
      var b' := b[..|b| - 1];
      assert (a + b)[..|a + b| - 1] == a + b';
      WithNumberAppend(a, b', n);
    }
  }

  /** Appending two sequences of which one is empty does not depend on their order. */
  lemma AppendSwap<T>(a: seq<T>, b: seq<T>, c: seq<T>)
    requires b == [] || c == []
    ensures (a + b) + c == (a + c) + b
  {
    if b == [] {
      assert a + b == a;
      assert (a + c) + b == a + c;
    } else {
      assert a + c == a;
      assert (a + b) + c == a + b;
    }
  }

  /** Moving a record with a larger Number past `x` keeps both filtered orders. */
  lemma InsertPastLastStable(init: seq<ActionData>, last: ActionData, x: ActionData, n: nat)
    requires x.number < last.number
    requires WithNumber(InsertByNumber(init, x), n) == WithNumber(init, n) + WithNumber([x], n)
    ensures WithNumber(InsertByNumber(init, x) + [last], n) == WithNumber(init + [last], n) + WithNumber([x], n)
  {
    var t := InsertByNumber(init, x);
    WithNumberAppend(t, [last], n);
    WithNumberAppend(init, [last], n);
    WithNumberSingle(x, n);
    WithNumberSingle(last, n);
    AppendSwap(WithNumber(init, n), WithNumber([x], n), WithNumber([last], n));
  }

  lemma {:induction false} InsertByNumberStable(s: seq<ActionData>, x: ActionData, n: nat)
    ensures WithNumber(InsertByNumber(s, x), n) == WithNumber(s, n) + WithNumber([x], n)
  {
    if s == [] || s[|s| - 1].number <= x.number {
      WithNumberAppend(s, [x], n);
    } else {
      var init, last := s[..|s| - 1], s[|s| - 1];
      assert InsertByNumber(s, x) == InsertByNumber(init, x) + [last];
      assert init + [last] == s;
      InsertByNumberStable(init, x, n);
      InsertPastLastStable(init, last, x, n);
    }
  }

  /** OrderBy yields a non-decreasing sequence. */
  lemma {:induction false} SortByNumberSorted(s: seq<ActionData>)
    ensures SortedByNumber(SortByNumber(s))
  {
    if s != [] {
      SortByNumberSorted(s[..|s| - 1]);
      InsertByNumberSorted(SortByNumber(s[..|s| - 1]), s[|s| - 1]);
    }
  }

  /** OrderBy neither loses nor duplicates records. */
  lemma {:induction false} SortByNumberPermutes(s: seq<ActionData>)
    ensures multiset(SortByNumber(s)) == multiset(s)
  {
    if s != [] {
      var init := s[..|s| - 1];
      SortByNumberPermutes(init);
      InsertByNumberPermutes(SortByNumber(init), s[|s| - 1]);
      assert s == init + [s[|s| - 1]];
    }
  }

  /** OrderBy is stable: records with equal Number keep their input order. */
  lemma {:induction false} SortByNumberStable(s: seq<ActionData>, n: nat)
    ensures WithNumber(SortByNumber(s), n) == WithNumber(s, n)
  {
    if s != [] {
      var init, last := s[..|s| - 1], s[|s| - 1];
      SortByNumberStable(init, n);
      InsertByNumberStable(SortByNumber(init), last, n);
      assert [last][..0] == [];
    }
  }
}
