/** Value wrappers and keyed-sequence helpers shared by the storage, analytics and
    cashier models. A repository's collection is an ordered sequence of records, each
    with a string key (its `id`); these functions are the `findIndex`, `find` and
    `filter` calls the repositories are built from. */
module Common {

  datatype Option<T> = None | Some(value: T)

  /** One field of a partial update: leave the current value, or set a new one. */
  datatype Change<T> = Keep | Set(value: T) {
    function Or(current: T): (r: T)
      ensures Keep? ==> r == current
      ensures Set? ==> r == value
    {
      match this
      case Keep => current
      case Set(v) => v
    }
  }

  predicate Distinct<T(==)>(s: seq<T>) {
    forall i, j :: 0 <= i < j < |s| ==> s[i] != s[j]
  }

  /** No two elements share a key. */
  predicate DistinctKeys<T>(s: seq<T>, key: T -> string) {
    forall i, j :: 0 <= i < j < |s| ==> key(s[i]) != key(s[j])
  }

  /** Some element has key `id`. */
  predicate Present<T>(s: seq<T>, key: T -> string, id: string) {
    exists j :: 0 <= j < |s| && key(s[j]) == id
  }

  /** Index of the first element whose key is `id`, or -1 (`Array.prototype.findIndex`).
      Its characterisation is the lemma `FirstIndexSpec`. */
  function FirstIndex<T>(s: seq<T>, key: T -> string, id: string): (r: int)
    ensures -1 <= r < |s|
    ensures r >= 0 ==> key(s[r]) == id
  {
    if s == [] then -1
    else if key(s[0]) == id then 0
    else
      var k := FirstIndex(s[1..], key, id);
      if k == -1 then -1 else k + 1
  }

  /** `findIndex` answers -1 exactly when no element has the key, and otherwise the
      position of the first one that does. */
  lemma {:induction false} FirstIndexSpec<T>(s: seq<T>, key: T -> string, id: string)
    ensures FirstIndex(s, key, id) == -1 <==> !Present(s, key, id)
    ensures FirstIndex(s, key, id) >= 0 ==> forall j :: 0 <= j < FirstIndex(s, key, id) ==> key(s[j]) != id
  {
    if s != [] && key(s[0]) != id {
      FirstIndexSpec(s[1..], key, id);
      if Present(s, key, id) {
        var j :| 0 <= j < |s| && key(s[j]) == id;
        assert key(s[1..][j - 1]) == id;
      }
      if Present(s[1..], key, id) {
        var j :| 0 <= j < |s| - 1 && key(s[1..][j]) == id;
        assert key(s[j + 1]) == id;
      }
    }
  }

  /** The first element whose key is `id` (`Array.prototype.find`). */
  function Find<T>(s: seq<T>, key: T -> string, id: string): (r: Option<T>)
    ensures r.None? <==> FirstIndex(s, key, id) == -1
    ensures r.Some? ==> key(r.value) == id
  {
    var i := FirstIndex(s, key, id);
    if i < 0 then None else Some(s[i])
  }

  /** The elements that satisfy `keep`, in their original order (`Array.prototype.filter`). */
  function Filter<T(!new)>(s: seq<T>, keep: T -> bool): (r: seq<T>)
    ensures |r| <= |s|
    ensures forall x :: x in r <==> x in s && keep(x)
  {
    if s == [] then []
    else (if keep(s[0]) then [s[0]] else []) + Filter(s[1..], keep)
  }

  lemma {:induction false} FilterAppend<T(!new)>(a: seq<T>, b: seq<T>, keep: T -> bool)
    ensures Filter(a + b, keep) == Filter(a, keep) + Filter(b, keep)
  {
    if a == [] {
      assert a + b == b;
    } else {
      assert (a + b)[1..] == a[1..] + b;
      FilterAppend(a[1..], b, keep);
    }
  }

  /** Filtering keeps the length exactly when every element is kept, and then it is the identity. */
  lemma {:induction false} FilterKeepsLength<T(!new)>(s: seq<T>, keep: T -> bool)
    ensures |Filter(s, keep)| == |s| <==> forall j :: 0 <= j < |s| ==> keep(s[j])
    ensures (forall j :: 0 <= j < |s| ==> keep(s[j])) ==> Filter(s, keep) == s
  {
    if s != [] {
      FilterKeepsLength(s[1..], keep);
      assert Filter(s, keep) == (if keep(s[0]) then [s[0]] else []) + Filter(s[1..], keep);
      if forall j :: 0 <= j < |s| ==> keep(s[j]) {
        assert forall j :: 0 <= j < |s| - 1 ==> keep(s[1..][j]) by {
          forall j | 0 <= j < |s| - 1 ensures keep(s[1..][j]) { assert s[1..][j] == s[j + 1]; }
        }
      } else if keep(s[0]) {
        var j :| 0 <= j < |s| && !keep(s[j]);
        assert !keep(s[1..][j - 1]);
      }
    }
  }

  /** Nothing kept, nothing returned. */
  lemma {:induction false} FilterNone<T(!new)>(s: seq<T>, keep: T -> bool)
    requires forall j :: 0 <= j < |s| ==> !keep(s[j])
    ensures Filter(s, keep) == []
  {
    if s != [] {
      assert forall j :: 0 <= j < |s| - 1 ==> !keep(s[1..][j]) by {
        forall j | 0 <= j < |s| - 1 ensures !keep(s[1..][j]) { assert s[1..][j] == s[j + 1]; }
      }
      FilterNone(s[1..], keep);
    }
  }

  /** Two tests that agree on every element select the same elements. */
  lemma {:induction false} FilterAgree<T(!new)>(s: seq<T>, f: T -> bool, g: T -> bool)
    requires forall j :: 0 <= j < |s| ==> f(s[j]) == g(s[j])
    ensures Filter(s, f) == Filter(s, g)
  {
    if s != [] {
      assert forall j :: 0 <= j < |s| - 1 ==> f(s[1..][j]) == g(s[1..][j]) by {
        forall j | 0 <= j < |s| - 1 ensures f(s[1..][j]) == g(s[1..][j]) { assert s[1..][j] == s[j + 1]; }
      }
      FilterAgree(s[1..], f, g);
    }
  }

  /** Every element whose key is not `id`, in order (`filter(x => x.id !== id)`). */
  function RemoveAll<T(!new)>(s: seq<T>, key: T -> string, id: string): (r: seq<T>)
    ensures forall x :: x in r <==> x in s && key(x) != id
    ensures |r| == |s| <==> !Present(s, key, id)
    ensures DistinctKeys(s, key) ==> DistinctKeys(r, key)
  {
    FilterKeepsLength(s, x => key(x) != id);
    FilterKeepsDistinct(s, key, x => key(x) != id);
    Filter(s, x => key(x) != id)
  }

  /** A filtered sequence keeps distinct keys distinct. */
  lemma {:induction false} FilterKeepsDistinct<T(!new)>(s: seq<T>, key: T -> string, keep: T -> bool)
    ensures DistinctKeys(s, key) ==> DistinctKeys(Filter(s, keep), key)
  {
    if s != [] && DistinctKeys(s, key) {
      assert DistinctKeys(s[1..], key) by {
        forall a, b | 0 <= a < b < |s| - 1 ensures key(s[1..][a]) != key(s[1..][b]) {
          assert s[1..][a] == s[a + 1] && s[1..][b] == s[b + 1];
        }
      }
      FilterKeepsDistinct(s[1..], key, keep);
      var rest := Filter(s[1..], keep);
      if keep(s[0]) {
        var r := [s[0]] + rest;
        forall a, b | 0 <= a < b < |r| ensures key(r[a]) != key(r[b]) {
          if a == 0 {
            assert r[b] in rest;
            var k :| 0 <= k < |s| - 1 && s[1..][k] == r[b];
            assert s[k + 1] == r[b];
          } else {
            assert r[a] == rest[a - 1] && r[b] == rest[b - 1];
          }
        }
      } else {
        assert Filter(s, keep) == rest;
      }
    }
  }

  /** Deleting keeps the survivors in their original order: it works element by element
      and distributes over concatenation. */
  lemma RemoveAllAppend<T(!new)>(a: seq<T>, b: seq<T>, key: T -> string, id: string)
    ensures RemoveAll(a + b, key, id) == RemoveAll(a, key, id) + RemoveAll(b, key, id)
    ensures RemoveAll([], key, id) == []
  {
    FilterAppend(a, b, y => key(y) != id);
  }

  /** On one element, deleting keeps it exactly when its key is not `id`. */
  lemma RemoveAllOne<T(!new)>(x: T, key: T -> string, id: string)
    ensures RemoveAll([x], key, id) == if key(x) != id then [x] else []
  {
    assert [x][1..] == [];
  }

  /** An element appended at the end is present exactly when it or an earlier one has the key. */
  lemma PresentSnoc<T>(s: seq<T>, x: T, key: T -> string, id: string)
    ensures Present(s + [x], key, id) <==> Present(s, key, id) || key(x) == id
  {
    var t := s + [x];
    if Present(t, key, id) && key(x) != id {
      var j :| 0 <= j < |t| && key(t[j]) == id;
      assert t[j] == s[j];
    }
    if Present(s, key, id) {
      var j :| 0 <= j < |s| && key(s[j]) == id;
      assert t[j] == s[j];
    }
    if key(x) == id {
      assert t[|s|] == x;
    }
  }

  /** Deleting an absent key is the identity. */
  lemma RemoveAbsent<T(!new)>(s: seq<T>, key: T -> string, id: string)
    requires !Present(s, key, id)
    ensures RemoveAll(s, key, id) == s
  {
    FilterKeepsLength(s, x => key(x) != id);
  }

  /** Replace the first element with key `id` by `f` of it; without one, nothing changes
      (`findIndex`, then `s[index] = f(s[index])`). */
  function UpdateFirst<T>(s: seq<T>, key: T -> string, id: string, f: T -> T): (r: seq<T>)
    ensures |r| == |s|
    ensures var i := FirstIndex(s, key, id);
      (i == -1 ==> r == s) &&
      (i >= 0 ==> r[i] == f(s[i]) && forall j :: 0 <= j < |s| && j != i ==> r[j] == s[j])
  {
    var i := FirstIndex(s, key, id);
    if i < 0 then s else s[i := f(s[i])]
  }

  /** With distinct keys, the first element with a given element's key is that element. */
  lemma FirstIndexOfDistinct<T>(s: seq<T>, key: T -> string, j: int)
    requires DistinctKeys(s, key)
    requires 0 <= j < |s|
    ensures FirstIndex(s, key, key(s[j])) == j
  {
    FirstIndexSpec(s, key, key(s[j]));
  }
}
