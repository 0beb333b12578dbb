/** Option and Result, the failure-carrying wrappers used by every module. */
module Wrappers {
  datatype Option<+T> = None | Some(value: T)

  datatype Result<+T, +E> = Success(value: T) | Failure(error: E)
}

/**
 * Generic operations on a table held as a sequence of rows: filtering
 * (a bulk DELETE keeps the rows that do not match), key uniqueness (a
 * UNIQUE constraint or a primary key) and lookup by key.
 */
module Tables {
  import opened Wrappers

  /** The rows of `s` that satisfy `keep`, in their original order. */
  function Filter<T>(s: seq<T>, keep: T -> bool): (r: seq<T>)
    ensures |r| <= |s|
    decreases |s|
  {
    if s == [] then []
    else (if keep(s[0]) then [s[0]] else []) + Filter(s[1..], keep)
  }

  /** The rows a filter keeps are exactly the rows of `s` that satisfy `keep`. */
  lemma {:induction false} FilterMembers<T>(s: seq<T>, keep: T -> bool)
    ensures forall x :: x in Filter(s, keep) <==> x in s && keep(x)
    decreases |s|
  {
    if s != [] {
      FilterMembers(s[1..], keep);
      assert s == [s[0]] + s[1..];
    }
  }

  /** A row a filter keeps is a row of `s` that satisfies `keep`. */
  lemma FilterMember<T>(s: seq<T>, keep: T -> bool, x: T)
    requires x in Filter(s, keep)
    ensures x in s && keep(x)
  {
    FilterMembers(s, keep);
  }

  /** No two rows of `s` share a key. */
  ghost predicate UniqueOn<T, K>(s: seq<T>, key: T -> K) {
    forall i, j :: 0 <= i < j < |s| ==> key(s[i]) != key(s[j])
  }

  /** Every key is below `bound`: the autoincrement counter has never handed a key out twice. */
  ghost predicate KeysBelow<T>(s: seq<T>, key: T -> nat, bound: int) {
    forall i :: 0 <= i < |s| ==> key(s[i]) < bound
  }

  /** A table whose rows all come from a table with keys below `bound` has keys below `bound`. */
  lemma KeysBelowSubset<T>(s: seq<T>, t: seq<T>, key: T -> nat, bound: int)
    requires KeysBelow(t, key, bound) && forall x :: x in s ==> x in t
    ensures KeysBelow(s, key, bound)
  {
    forall i | 0 <= i < |s| ensures key(s[i]) < bound {
      assert s[i] in t;
      var j :| 0 <= j < |t| && t[j] == s[i];
    }
  }

  /** Rewriting one row without changing its key keeps a uniqueness constraint. */
  lemma UniqueUpdate<T, K>(s: seq<T>, i: nat, x: T, key: T -> K)
    requires UniqueOn(s, key) && i < |s| && key(x) == key(s[i])
    ensures UniqueOn(s[i := x], key)
  {
    var u := s[i := x];
    forall j, k | 0 <= j < k < |u| ensures key(u[j]) != key(u[k]) {
      assert key(u[j]) == key(s[j]) && key(u[k]) == key(s[k]);
    }
  }

  /** Rewriting one row without changing its key keeps the keys below a bound. */
  lemma KeysBelowUpdate<T>(s: seq<T>, i: nat, x: T, key: T -> nat, bound: int)
    requires KeysBelow(s, key, bound) && i < |s| && key(x) == key(s[i])
    ensures KeysBelow(s[i := x], key, bound)
  {
    var u := s[i := x];
    forall j | 0 <= j < |u| ensures key(u[j]) < bound {
      assert key(u[j]) == key(s[j]);
    }
  }

  /** Inserting a row keyed with the next autoincrement value keeps the key unique and below the advanced counter. */
  lemma InsertFresh<T>(s: seq<T>, x: T, key: T -> nat, bound: nat)
    requires KeysBelow(s, key, bound) && key(x) == bound
    ensures KeysBelow(s + [x], key, bound + 1)
    ensures UniqueOn(s, key) ==> UniqueOn(s + [x], key)
  {
    var u := s + [x];
    forall j | 0 <= j < |u| ensures key(u[j]) < bound + 1 {
      if j < |s| { assert u[j] == s[j]; }
    }
    if UniqueOn(s, key) {
      forall j, k | 0 <= j < k < |u| ensures key(u[j]) != key(u[k]) {
        assert u[j] == s[j];
        if k < |s| { assert u[k] == s[k]; }
      }
    }
  }

  /**
   * Rewriting row `k` into one a filter drops removes exactly that row's key
   * from the filtered table and keeps every other row it kept.
   */
  lemma FilterAfterDisable<T, K>(s: seq<T>, k: nat, x: T, keep: T -> bool, key: T -> K)
    requires UniqueOn(s, key) && k < |s| && key(x) == key(s[k]) && !keep(x)
    ensures forall y :: y in Filter(s[k := x], keep) <==> y in Filter(s, keep) && key(y) != key(s[k])
  {
    var u := s[k := x];
    FilterMembers(s, keep);
    FilterMembers(u, keep);
    forall y | y in Filter(u, keep) ensures y in Filter(s, keep) && key(y) != key(s[k]) {
      FilterMember(u, keep, y);
      var j :| 0 <= j < |u| && u[j] == y;
      assert j != k;
      assert s[j] == y;
      if j < k { assert key(s[j]) != key(s[k]); } else { assert key(s[k]) != key(s[j]); }
    }
    forall y | y in Filter(s, keep) && key(y) != key(s[k]) ensures y in Filter(u, keep) {
      FilterMember(s, keep, y);
      var j :| 0 <= j < |s| && s[j] == y;
      assert j != k;
      assert u[j] == y;
    }
  }

  /** The position of the first row whose key is `k`, if any. */
  function IndexOf<T, K(==)>(s: seq<T>, key: T -> K, k: K): (r: Option<nat>)
    ensures r.Some? ==> r.value < |s| && key(s[r.value]) == k
    ensures r.Some? ==> forall j :: 0 <= j < r.value ==> key(s[j]) != k
    ensures r.None? <==> forall j :: 0 <= j < |s| ==> key(s[j]) != k
    decreases |s|
  {
    if s == [] then None
    else if key(s[0]) == k then Some(0)
    else match IndexOf(s[1..], key, k)
      case None => None
      case Some(j) => Some(j + 1)
  }

  /** Under a uniqueness constraint, looking a row up by its own key finds that very row. */
  lemma {:induction false} IndexOfUnique<T, K>(s: seq<T>, key: T -> K, i: nat)
    requires UniqueOn(s, key) && i < |s|
    ensures IndexOf(s, key, key(s[i])) == Some(i)
  {
    assert key(s[i]) == key(s[i]);
  }

  /** Filtering keeps the rows in order, so it keeps every uniqueness constraint. */
  lemma {:induction false} FilterKeepsUnique<T, K>(s: seq<T>, keep: T -> bool, key: T -> K)
    requires UniqueOn(s, key)
    ensures UniqueOn(Filter(s, keep), key)
    decreases |s|
  {
    if s != [] {
      var tail := s[1..];
      UniqueOnTail(s, key);
      FilterKeepsUnique(tail, keep, key);
      var ft := Filter(tail, keep);
      forall x | x in ft ensures key(x) != key(s[0]) {
        FilterMember(tail, keep, x);
        var j :| 0 <= j < |tail| && tail[j] == x;
        assert s[j + 1] == x;
      }
      var head := if keep(s[0]) then [s[0]] else [];
      assert Filter(s, keep) == head + ft;
      UniqueAppend(head, ft, key);
    }
  }

  lemma UniqueOnTail<T, K>(s: seq<T>, key: T -> K)
    requires UniqueOn(s, key) && s != []
    ensures UniqueOn(s[1..], key)
  {
    var tail := s[1..];
    forall i, j | 0 <= i < j < |tail| ensures key(tail[i]) != key(tail[j]) {
      assert tail[i] == s[i + 1] && tail[j] == s[j + 1];
    }
  }

  /** Two unique tables whose keys do not meet concatenate to a unique table. */
  lemma UniqueAppend<T, K>(a: seq<T>, b: seq<T>, key: T -> K)
    requires UniqueOn(a, key) && UniqueOn(b, key)
    requires forall x, y :: x in a && y in b ==> key(x) != key(y)
    ensures UniqueOn(a + b, key)
  {
    var c := a + b;
    forall i, j | 0 <= i < j < |c| ensures key(c[i]) != key(c[j]) {
      if j < |a| {
        assert c[i] == a[i] && c[j] == a[j];
      } else if i >= |a| {
        assert c[i] == b[i - |a|] && c[j] == b[j - |a|];
      } else {
        assert c[i] in a && c[j] in b;
      }
    }
  }

  /** Filtering distributes over concatenation. */
  lemma {:induction false} FilterAppend<T>(a: seq<T>, b: seq<T>, keep: T -> bool)
    ensures Filter(a + b, keep) == Filter(a, keep) + Filter(b, keep)
    decreases |a|
  {
    if a != [] {
      assert (a + b)[1..] == a[1..] + b;
      FilterAppend(a[1..], b, keep);
    } else {
      assert a + b == b;
    }
  }

  /** A sequence whose first part keeps exactly `x` filters to `x` followed by the filtered rest. */
  lemma FilterSplit<T>(w: seq<T>, c: seq<T>, rest: seq<T>, keep: T -> bool, x: T)
    requires w == c + rest && Filter(c, keep) == [x]
    ensures Filter(w, keep) == [x] + Filter(rest, keep)
  {
    FilterAppend(c, rest, keep);
  }

  lemma AppendIndex<T>(a: seq<T>, b: seq<T>, i: nat)
    requires i < |b|
    ensures (a + b)[|a| + i] == b[i]
  {
  }

  lemma AppendAssoc<T>(a: seq<T>, b: seq<T>, c: seq<T>)
    ensures (a + b) + c == a + (b + c)
  {
  }

  /** A filter that keeps every row is the identity. */
  lemma {:induction false} FilterKeepsAll<T>(s: seq<T>, keep: T -> bool)
    requires forall x :: x in s ==> keep(x)
    ensures Filter(s, keep) == s
    decreases |s|
  {
    if s != [] {
      assert s[0] in s;
      forall x | x in s[1..] ensures keep(x) { assert x in s; }
      FilterKeepsAll(s[1..], keep);
      assert s == [s[0]] + s[1..];
    }
  }
}
