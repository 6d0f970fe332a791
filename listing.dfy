/** The listing step shared by the store-backed code: records read back from hashes are
    ordered with `Array.prototype.sort((a, b) => b[field] - a[field])`, a stable sort on a
    numeric field, largest first. */
module Listing {
  import opened KeyValue

  /** The numeric value of `field`; a record without an integer there sorts as 0. */
  function NumField(h: Hash, field: string): int {
    if field in h && h[field].Int? then h[field].i else 0
  }

  ghost predicate SortedDesc(rows: seq<Hash>, field: string) {
    forall i, j :: 0 <= i < j < |rows| ==> NumField(rows[i], field) >= NumField(rows[j], field)
  }

  /** Places `x` after every element whose field is at least as large, which keeps equal
      elements in their original order. */
  function Insert(x: Hash, sorted: seq<Hash>, field: string): (r: seq<Hash>)
    ensures multiset(r) == multiset(sorted) + multiset{x}
    ensures |r| == |sorted| + 1
  {
    if sorted == [] then [x]
    else if NumField(x, field) > NumField(sorted[0], field) then [x] + sorted
    else
      assert sorted == [sorted[0]] + sorted[1..];
      [sorted[0]] + Insert(x, sorted[1..], field)
  }

  /** Inserting below a bound that bounds every element keeps every element below it. */
  lemma {:induction false} InsertBelow(x: Hash, sorted: seq<Hash>, field: string, bound: int)
    requires NumField(x, field) <= bound
    requires forall k :: 0 <= k < |sorted| ==> NumField(sorted[k], field) <= bound
    ensures forall k :: 0 <= k < |Insert(x, sorted, field)| ==> NumField(Insert(x, sorted, field)[k], field) <= bound
  {
    if sorted != [] && NumField(x, field) <= NumField(sorted[0], field) {
      InsertBelow(x, sorted[1..], field, bound);
    }
  }

  lemma {:induction false} InsertSorted(x: Hash, sorted: seq<Hash>, field: string)
    requires SortedDesc(sorted, field)
    ensures SortedDesc(Insert(x, sorted, field), field)
  {
    if sorted != [] && NumField(x, field) <= NumField(sorted[0], field) {
      var tail := sorted[1..];
      InsertSorted(x, tail, field);
      InsertBelow(x, tail, field, NumField(sorted[0], field));
    }
  }

  /** The stable sort, largest `field` first. */
  function SortDesc(rows: seq<Hash>, field: string): seq<Hash>
  {
    if rows == [] then []
    else Insert(rows[|rows| - 1], SortDesc(rows[..|rows| - 1], field), field)
  }

  /** The sort returns a permutation of its input, ordered by `field`, largest first. */
  lemma SortDescSpec(rows: seq<Hash>, field: string)
    ensures multiset(SortDesc(rows, field)) == multiset(rows)
    ensures SortedDesc(SortDesc(rows, field), field)
  {
    SortDescPermutes(rows, field);
    SortDescSorted(rows, field);
  }

  lemma {:induction false} SortDescPermutes(rows: seq<Hash>, field: string)
    ensures multiset(SortDesc(rows, field)) == multiset(rows)
  {
    if rows != [] {
      var init := rows[..|rows| - 1];
      SortDescPermutes(init, field);
      assert rows == init + [rows[|rows| - 1]];
      assert multiset(rows) == multiset(init) + multiset{rows[|rows| - 1]};
    }
  }

  lemma {:induction false} SortDescSorted(rows: seq<Hash>, field: string)
    ensures SortedDesc(SortDesc(rows, field), field)
  {
    if rows != [] {
      var init := rows[..|rows| - 1];
      SortDescSorted(init, field);
      InsertSorted(rows[|rows| - 1], SortDesc(init, field), field);
    }
  }

  /** The rows whose `field` equals `v`, in their order. */
  function WithKey(rows: seq<Hash>, field: string, v: int): (r: seq<Hash>)
    ensures |r| <= |rows|
  {
    if rows == [] then []
    else (if NumField(rows[0], field) == v then [rows[0]] else []) + WithKey(rows[1..], field, v)
  }

  /** The rows of one row followed by more. */
  lemma WithKeyCons(x: Hash, rest: seq<Hash>, field: string, v: int)
    ensures WithKey([x] + rest, field, v) == (if NumField(x, field) == v then [x] else []) + WithKey(rest, field, v)
  {
    assert ([x] + rest)[0] == x;
    assert ([x] + rest)[1..] == rest;
  }

  lemma {:induction false} WithKeyAppend(a: seq<Hash>, b: seq<Hash>, field: string, v: int)
    ensures WithKey(a + b, field, v) == WithKey(a, field, v) + WithKey(b, field, v)
  {
    if a != [] {
      assert a + b == [a[0]] + (a[1..] + b);
      assert a == [a[0]] + a[1..];
      WithKeyCons(a[0], a[1..] + b, field, v);
      WithKeyCons(a[0], a[1..], field, v);
      WithKeyAppend(a[1..], b, field, v);
    } else {
      assert a + b == b;
    }
  }

  /** No row of a listing bounded below `v` has the key `v`. */
  lemma {:induction false} WithKeyNone(rows: seq<Hash>, field: string, v: int)
    requires forall k :: 0 <= k < |rows| ==> NumField(rows[k], field) < v
    ensures WithKey(rows, field, v) == []
  {
    if rows != [] {
      var tail := rows[1..];
      assert forall k :: 0 <= k < |tail| ==> tail[k] == rows[k + 1];
      WithKeyNone(tail, field, v);
      assert NumField(rows[0], field) < v;
    }
  }

  /** The rows with key `v` after inserting `x` ahead of a sorted listing, when `x` ranks
      strictly first. */
  lemma InsertFirstWithKey(x: Hash, sorted: seq<Hash>, field: string, v: int)
    requires SortedDesc(sorted, field)
    requires sorted != [] && NumField(x, field) > NumField(sorted[0], field)
    ensures WithKey([x] + sorted, field, v)
         == WithKey(sorted, field, v) + (if NumField(x, field) == v then [x] else [])
  {
    WithKeyCons(x, sorted, field, v);
    if NumField(x, field) == v {
      WithKeyNone(sorted, field, v);
    }
  }

  /** Inserting into a sorted listing puts the new row after every row with the same key. */
  lemma {:induction false} InsertWithKey(x: Hash, sorted: seq<Hash>, field: string, v: int)
    requires SortedDesc(sorted, field)
    ensures WithKey(Insert(x, sorted, field), field, v)
         == WithKey(sorted, field, v) + (if NumField(x, field) == v then [x] else [])
    decreases |sorted|, 1
  {
    if sorted == [] {
      WithKeyCons(x, [], field, v);
      assert [x] + [] == [x];
    } else if NumField(x, field) > NumField(sorted[0], field) {
      InsertFirstWithKey(x, sorted, field, v);
    } else {
      var tail := sorted[1..];
      InsertAfterWithKey(x, sorted[0], tail, field, v);
      assert sorted == [sorted[0]] + tail;
    }
  }

  lemma {:induction false} InsertAfterWithKey(x: Hash, head: Hash, tail: seq<Hash>, field: string, v: int)
    requires SortedDesc([head] + tail, field)
    requires NumField(x, field) <= NumField(head, field)
    ensures WithKey([head] + Insert(x, tail, field), field, v)
         == WithKey([head] + tail, field, v) + (if NumField(x, field) == v then [x] else [])
    decreases |tail| + 1, 0
  {
    SortedTail(head, tail, field);
    InsertWithKey(x, tail, field, v);
    WithKeyCons(head, Insert(x, tail, field), field, v);
    WithKeyCons(head, tail, field, v);
    var h := if NumField(head, field) == v then [head] else [];
    var e := if NumField(x, field) == v then [x] else [];
    assert h + (WithKey(tail, field, v) + e) == (h + WithKey(tail, field, v)) + e;
  }

  lemma SortedTail(head: Hash, tail: seq<Hash>, field: string)
    requires SortedDesc([head] + tail, field)
    ensures SortedDesc(tail, field)
  {
    assert forall k :: 0 <= k < |tail| ==> tail[k] == ([head] + tail)[k + 1];
  }

  /** The sort is stable: the rows sharing any one key keep their input order. */
  lemma {:induction false} SortDescStable(rows: seq<Hash>, field: string, v: int)
    ensures WithKey(SortDesc(rows, field), field, v) == WithKey(rows, field, v)
  {
    if rows != [] {
      var init := rows[..|rows| - 1];
      var last := rows[|rows| - 1];
      SortDescStable(init, field, v);
      SortDescSorted(init, field);
      InsertWithKey(last, SortDesc(init, field), field, v);
      assert rows == init + [last];
      WithKeyAppend(init, [last], field, v);
      WithKeyCons(last, [], field, v);
      assert [last] + [] == [last];
    }
  }

  /** The sort keeps the number of rows and which rows there are. */
  lemma SortDescSameRows(rows: seq<Hash>, field: string)
    ensures |SortDesc(rows, field)| == |rows|
    ensures forall h :: h in SortDesc(rows, field) <==> h in rows
  {
    var sorted := SortDesc(rows, field);
    SortDescPermutes(rows, field);
    assert |multiset(sorted)| == |multiset(rows)|;
    forall h
      ensures h in sorted <==> h in rows
    {
      assert h in sorted <==> h in multiset(sorted);
      assert h in rows <==> h in multiset(rows);
    }
  }
}
