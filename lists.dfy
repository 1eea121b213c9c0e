/**
 * The array operations every record list of the application is built from:
 * `filter`, `map` over the entries whose id matches, and `reduce` to a sum.
 * Predicates are passed as named function values so that two uses of the same
 * selection are provably the same function.
 */
module Lists {
  import opened Wrappers

  /** `s.filter(keep)`: the entries that satisfy `keep`, in their original order. */
  function Filter<T>(s: seq<T>, keep: T -> bool): (r: seq<T>)
    ensures |r| <= |s|
    ensures forall i :: 0 <= i < |r| ==> r[i] in s && keep(r[i])
    ensures forall i :: 0 <= i < |s| && keep(s[i]) ==> s[i] in r
  {
    if s == [] then [] else (if keep(s[0]) then [s[0]] else []) + Filter(s[1..], keep)
  }

  /** The complement of a selection. */
  function Not<T>(keep: T -> bool): T -> bool {
    x => !keep(x)
  }

  /** The selection "id differs from `id`" used by every delete. */
  function IdIsNot<T>(idOf: T -> string, id: string): T -> bool {
    x => idOf(x) != id
  }

  /** `s.filter(x => x.id !== id)`: every entry with the given id removed. */
  function WithoutId<T>(s: seq<T>, idOf: T -> string, id: string): (r: seq<T>)
    ensures |r| <= |s|
    ensures forall i :: 0 <= i < |r| ==> r[i] in s && idOf(r[i]) != id
    ensures forall i :: 0 <= i < |s| && idOf(s[i]) != id ==> s[i] in r
  {
    Filter(s, IdIsNot(idOf, id))
  }

  /** `s.map(x => x.id === id ? apply(x, patch) : x)`: only the entries with that id change. */
  function UpdateById<T, P>(s: seq<T>, idOf: T -> string, id: string, patch: P, apply: (T, P) -> T): (r: seq<T>)
    ensures |r| == |s|
    ensures forall i :: 0 <= i < |s| ==> r[i] == if idOf(s[i]) == id then apply(s[i], patch) else s[i]
  {
    if s == [] then []
    else [if idOf(s[0]) == id then apply(s[0], patch) else s[0]] + UpdateById(s[1..], idOf, id, patch, apply)
  }

  /** The update that discards the old entry: the mock pages replace the edited entry wholesale. */
  function Overwrite<T>(current: T, replacement: T): T {
    replacement
  }

  /** `s.map(x => x.id === id ? replacement : x)`. */
  function ReplaceById<T>(s: seq<T>, idOf: T -> string, id: string, replacement: T): (r: seq<T>)
    ensures |r| == |s|
    ensures forall i :: 0 <= i < |s| ==> r[i] == if idOf(s[i]) == id then replacement else s[i]
  {
    UpdateById(s, idOf, id, replacement, Overwrite)
  }

  /** `s.findIndex(x => x.id === id)`, with `|s|` for "not found": the position of the first entry with the id. */
  function FindIndex<T>(s: seq<T>, idOf: T -> string, id: string): (k: nat)
    ensures k <= |s|
    ensures forall j :: 0 <= j < k ==> idOf(s[j]) != id
    ensures k < |s| ==> idOf(s[k]) == id
  {
    if s == [] then 0
    else if idOf(s[0]) == id then 0
    else 1 + FindIndex(s[1..], idOf, id)
  }

  /** A position before which no entry has the id, and which holds the id or is the end, is the first position. */
  lemma {:induction false} FindIndexIs<T>(s: seq<T>, idOf: T -> string, id: string, k: nat)
    requires k <= |s|
    requires forall j :: 0 <= j < k ==> idOf(s[j]) != id
    requires k < |s| ==> idOf(s[k]) == id
    ensures FindIndex(s, idOf, id) == k
  {
    if s != [] && k > 0 {
      FindIndexIs(s[1..], idOf, id, k - 1);
    }
  }

  /** Appending an entry does not move an id already present; an absent id is found at the new entry or not at all. */
  lemma FindIndexAppend<T>(s: seq<T>, x: T, idOf: T -> string, id: string)
    ensures FindIndex(s, idOf, id) < |s| ==> FindIndex(s + [x], idOf, id) == FindIndex(s, idOf, id)
    ensures FindIndex(s, idOf, id) == |s| && idOf(x) == id ==> FindIndex(s + [x], idOf, id) == |s|
    ensures FindIndex(s, idOf, id) == |s| && idOf(x) != id ==> FindIndex(s + [x], idOf, id) == |s| + 1
  {
    var k := FindIndex(s, idOf, id);
    var t := s + [x];
    if k < |s| {
      FindIndexIs(t, idOf, id, k);
    } else if idOf(x) == id {
      FindIndexIs(t, idOf, id, |s|);
    } else {
      FindIndexIs(t, idOf, id, |s| + 1);
    }
  }

  /** `s.find(x => x.id === id)`: the first entry with the id, if any. */
  function FindById<T>(s: seq<T>, idOf: T -> string, id: string): (r: Option<T>)
    ensures r.None? <==> forall i :: 0 <= i < |s| ==> idOf(s[i]) != id
    ensures r.Some? ==> r.value == s[FindIndex(s, idOf, id)] && idOf(r.value) == id
  {
    var k := FindIndex(s, idOf, id);
    if k < |s| then Some(s[k]) else None
  }

  /** `s.map(f)`. */
  function Map<T, U>(s: seq<T>, f: T -> U): (r: seq<U>)
    ensures |r| == |s|
    ensures forall i :: 0 <= i < |s| ==> r[i] == f(s[i])
  {
    if s == [] then [] else [f(s[0])] + Map(s[1..], f)
  }

  /** `s.reduce((total, x) => total + f(x), 0)`: a left fold. */
  function SumOf<T>(s: seq<T>, f: T -> int): (total: int)
    ensures (forall i :: 0 <= i < |s| ==> f(s[i]) >= 0) ==> total >= 0
  {
    if s == [] then 0 else SumOf(s[..|s| - 1], f) + f(s[|s| - 1])
  }

  /** With no negative entries, no single entry exceeds the sum. */
  lemma {:induction false} SumBoundsEach<T>(s: seq<T>, f: T -> int)
    ensures (forall i :: 0 <= i < |s| ==> f(s[i]) >= 0) ==> forall i :: 0 <= i < |s| ==> f(s[i]) <= SumOf(s, f)
  {
    if s != [] {
      SumBoundsEach(s[..|s| - 1], f);
      assert forall i :: 0 <= i < |s| - 1 ==> s[..|s| - 1][i] == s[i];
    }
  }

  /** Entries that are all worth nothing sum to nothing. */
  lemma {:induction false} SumZero<T>(s: seq<T>, f: T -> int)
    requires forall i :: 0 <= i < |s| ==> f(s[i]) == 0
    ensures SumOf(s, f) == 0
  {
    if s != [] {
      SumZero(s[..|s| - 1], f);
    }
  }

  /** A sum does not depend on the order of the entries: any rearrangement has the same total. */
  lemma {:induction false} SumPermutation<T>(a: seq<T>, b: seq<T>, f: T -> int)
    requires multiset(a) == multiset(b)
    ensures SumOf(a, f) == SumOf(b, f)
  {
    if a == [] {
      assert |b| == |multiset(b)| == 0;
    } else {
      var n := |a| - 1;
      var x := a[n];
      assert x in multiset(b) by { assert a == a[..n] + [x]; }
      var k :| 0 <= k < |b| && b[k] == x;
      var rest := b[..k] + b[k + 1..];
      assert b == b[..k] + [x] + b[k + 1..];
      assert a == a[..n] + [x];
      calc {
        multiset(a[..n]);
        multiset(a) - multiset{x};
        multiset(b) - multiset{x};
        multiset(b[..k]) + multiset{x} + multiset(b[k + 1..]) - multiset{x};
        multiset(rest);
      }
      SumPermutation(a[..n], rest, f);
      SumAppend(b[..k] + [x], b[k + 1..], f);
      SumAppend(b[..k], [x], f);
      SumAppend(b[..k], b[k + 1..], f);
      assert [x][..0] == [];
    }
  }

  lemma {:induction false} FilterAppend<T>(a: seq<T>, b: seq<T>, keep: T -> bool)
    ensures Filter(a + b, keep) == Filter(a, keep) + Filter(b, keep)
  {
    if a == [] {
      assert a + b == b;
    } else {
      assert (a + b)[1..] == a[1..] + b;
      FilterAppend(a[1..], b, keep);
    }
  }

  lemma {:induction false} FilterKeepsAll<T>(s: seq<T>, keep: T -> bool)
    requires forall i :: 0 <= i < |s| ==> keep(s[i])
    ensures Filter(s, keep) == s
  {
    if s != [] {
      FilterKeepsAll(s[1..], keep);
    }
  }

  /** Nothing is selected when no entry qualifies. */
  lemma {:induction false} FilterNone<T>(s: seq<T>, keep: T -> bool)
    requires forall i :: 0 <= i < |s| ==> !keep(s[i])
    ensures Filter(s, keep) == []
  {
    if s != [] {
      FilterNone(s[1..], keep);
    }
  }

  /** Two selections that agree on every entry select the same sub-list. */
  lemma {:induction false} FilterSame<T>(s: seq<T>, keep: T -> bool, other: T -> bool)
    requires forall i :: 0 <= i < |s| ==> keep(s[i]) == other(s[i])
    ensures Filter(s, keep) == Filter(s, other)
  {
    if s != [] {
      FilterSame(s[1..], keep, other);
    }
  }

  lemma {:induction false} FilterPartition<T>(s: seq<T>, keep: T -> bool)
    ensures |Filter(s, keep)| + |Filter(s, Not(keep))| == |s|
  {
    if s != [] {
      FilterPartition(s[1..], keep);
    }
  }

  /** Deleting an id that is not in the list changes nothing. */
  lemma WithoutAbsentId<T>(s: seq<T>, idOf: T -> string, id: string)
    requires forall i :: 0 <= i < |s| ==> idOf(s[i]) != id
    ensures WithoutId(s, idOf, id) == s
  {
    FilterKeepsAll(s, IdIsNot(idOf, id));
  }

  /** Deleting preserves the order of what is left: it acts on each part of a list separately. */
  lemma WithoutIdAppend<T>(a: seq<T>, b: seq<T>, idOf: T -> string, id: string)
    ensures WithoutId(a + b, idOf, id) == WithoutId(a, idOf, id) + WithoutId(b, idOf, id)
  {
    FilterAppend(a, b, IdIsNot(idOf, id));
  }

  /** Deleting twice is deleting once. */
  lemma WithoutIdIdempotent<T>(s: seq<T>, idOf: T -> string, id: string)
    ensures WithoutId(WithoutId(s, idOf, id), idOf, id) == WithoutId(s, idOf, id)
  {
    var r := WithoutId(s, idOf, id);
    assert forall i :: 0 <= i < |r| ==> idOf(r[i]) != id by {
      forall i | 0 <= i < |r| ensures idOf(r[i]) != id {
        assert r[i] in r;
      }
    }
    WithoutAbsentId(r, idOf, id);
  }

  /** Deleting the id of an entry just put in front of a list without that id gives the list back. */
  lemma WithoutIdPrepend<T>(x: T, s: seq<T>, idOf: T -> string)
    requires forall i :: 0 <= i < |s| ==> idOf(s[i]) != idOf(x)
    ensures WithoutId([x] + s, idOf, idOf(x)) == s
  {
    WithoutIdAppend([x], s, idOf, idOf(x));
    WithoutAbsentId(s, idOf, idOf(x));
    assert WithoutId([x], idOf, idOf(x)) == [] + Filter([], IdIsNot(idOf, idOf(x)));
  }

  /** Updating an id that is not in the list changes nothing. */
  lemma UpdateAbsentId<T, P>(s: seq<T>, idOf: T -> string, id: string, patch: P, apply: (T, P) -> T)
    requires forall i :: 0 <= i < |s| ==> idOf(s[i]) != id
    ensures UpdateById(s, idOf, id, patch, apply) == s
  {
  }

  /** The difference of two sums over the same list is the sum of the differences. */
  lemma {:induction false} SumMinus<T>(s: seq<T>, f: T -> int, g: T -> int, h: T -> int)
    requires forall i :: 0 <= i < |s| ==> h(s[i]) == f(s[i]) - g(s[i])
    ensures SumOf(s, f) - SumOf(s, g) == SumOf(s, h)
  {
    if s != [] {
      SumMinus(s[..|s| - 1], f, g, h);
    }
  }

  lemma {:induction false} SumAppend<T>(a: seq<T>, b: seq<T>, f: T -> int)
    ensures SumOf(a + b, f) == SumOf(a, f) + SumOf(b, f)
  {
    if b == [] {
      assert a + b == a;
    } else {
      assert (a + b)[..|a + b| - 1] == a + b[..|b| - 1];
      SumAppend(a, b[..|b| - 1], f);
    }
  }

  /** Replacing one entry changes the sum by the difference of the two values. */
  lemma {:induction false} SumUpdate<T>(s: seq<T>, k: nat, v: T, f: T -> int)
    requires k < |s|
    ensures SumOf(s[k := v], f) == SumOf(s, f) - f(s[k]) + f(v)
  {
    var n := |s| - 1;
    if k == n {
      assert s[k := v][..n] == s[..n];
    } else {
      assert s[k := v][..n] == s[..n][k := v];
      SumUpdate(s[..n], k, v, f);
    }
  }

  /** Appending an entry adds its value to the sum over a selection exactly when the selection keeps it. */
  lemma SumFilterAppend<T>(s: seq<T>, x: T, keep: T -> bool, f: T -> int)
    ensures SumOf(Filter(s + [x], keep), f) == SumOf(Filter(s, keep), f) + (if keep(x) then f(x) else 0)
  {
    FilterAppend(s, [x], keep);
    assert Filter([x], keep) == (if keep(x) then [x] else []) + Filter([], keep);
    SumAppend(Filter(s, keep), Filter([x], keep), f);
    if keep(x) {
      assert [x][..0] == [];
    }
  }

  /** The sum over the first entry and the rest (what a prepend adds to a total). */
  lemma SumCons<T>(x: T, s: seq<T>, f: T -> int)
    ensures SumOf([x] + s, f) == f(x) + SumOf(s, f)
  {
    SumAppend([x], s, f);
    assert [x][..0] == [];
  }

  /** A sum splits over the two sides of any selection. */
  lemma {:induction false} SumSplit<T>(s: seq<T>, keep: T -> bool, f: T -> int)
    ensures SumOf(s, f) == SumOf(Filter(s, keep), f) + SumOf(Filter(s, Not(keep)), f)
  {
    if s != [] {
      var rest := s[1..];
      SumSplit(rest, keep, f);
      assert s == [s[0]] + rest;
      SumCons(s[0], rest, f);
      var yes, no := Filter(rest, keep), Filter(rest, Not(keep));
      if keep(s[0]) {
        assert Filter(s, keep) == [s[0]] + yes;
        assert Filter(s, Not(keep)) == no;
        SumCons(s[0], yes, f);
      } else {
        assert Filter(s, keep) == yes;
        assert Filter(s, Not(keep)) == [s[0]] + no;
        SumCons(s[0], no, f);
      }
    }
  }
}
