/** Calendar days as the storage layer sees them: the part of an ISO 8601 timestamp
    before the `T`, compared as strings. */
module Dates {

  /** The day part of a timestamp, `stamp.split('T')[0]`: everything before the first
      'T', or the whole string when it has none. */
  function DayOf(stamp: string): (d: string)
    ensures d <= stamp
    ensures 'T' !in d
    ensures |d| < |stamp| ==> stamp[|d|] == 'T'
  {
    if stamp == [] || stamp[0] == 'T' then [] else [stamp[0]] + DayOf(stamp[1..])
  }

  /** JavaScript's `a <= b` on strings: lexicographic by character, a proper prefix
      coming first; so a prefix is never greater, and a string is never below its own
      proper prefix. */
  predicate LexLe(a: string, b: string): (r: bool)
    ensures a <= b ==> r
    ensures r && b <= a ==> a == b
  {
    if a == [] then true
    else if b == [] then false
    else if a[0] != b[0] then a[0] < b[0]
    else LexLe(a[1..], b[1..])
  }

  /** Position `k` is where `a` and `b` first differ, and `a` is smaller there. */
  predicate FirstDiffLess(a: string, b: string, k: int) {
    0 <= k < |a| && k < |b| && a[..k] == b[..k] && a[k] < b[k]
  }

  /** JavaScript's rule, stated outright: `a <= b` holds exactly when `a` is a prefix of
      `b`, or at the first position where they differ `a` has the smaller character. */
  lemma {:induction false} LexLeSpec(a: string, b: string)
    ensures LexLe(a, b) <==> a <= b || exists k :: FirstDiffLess(a, b, k)
  {
    if a != [] && b != [] {
      if a[0] != b[0] {
        if a[0] < b[0] {
          assert FirstDiffLess(a, b, 0);
        }
        forall k | FirstDiffLess(a, b, k) ensures a[0] < b[0] {
          if k > 0 {
            assert a[..k][0] == b[..k][0];
          }
        }
      } else {
        LexLeSpec(a[1..], b[1..]);
        assert a == [a[0]] + a[1..] && b == [b[0]] + b[1..];
        assert a <= b <==> a[1..] <= b[1..];
        forall k | FirstDiffLess(a[1..], b[1..], k) ensures FirstDiffLess(a, b, k + 1) {
          assert a[..k + 1] == [a[0]] + a[1..][..k];
          assert b[..k + 1] == [b[0]] + b[1..][..k];
        }
        forall k | FirstDiffLess(a, b, k) ensures FirstDiffLess(a[1..], b[1..], k - 1) {
          assert k != 0;
          assert a[1..][..k - 1] == a[..k][1..];
          assert b[1..][..k - 1] == b[..k][1..];
        }
      }
    }
  }

  /** The day `d` lies in the inclusive range `start..end` (`d >= start && d <= end`). */
  predicate InRange(d: string, start: string, end: string) {
    LexLe(start, d) && LexLe(d, end)
  }

  lemma {:induction false} LexLeReflexive(a: string)
    ensures LexLe(a, a)
  {
    if a != [] {
      LexLeReflexive(a[1..]);
    }
  }

  lemma {:induction false} LexLeAntisymmetric(a: string, b: string)
    requires LexLe(a, b) && LexLe(b, a)
    ensures a == b
  {
    if a != [] && b != [] {
      LexLeAntisymmetric(a[1..], b[1..]);
      assert a == [a[0]] + a[1..];
      assert b == [b[0]] + b[1..];
    }
  }

  lemma {:induction false} LexLeTransitive(a: string, b: string, c: string)
    requires LexLe(a, b) && LexLe(b, c)
    ensures LexLe(a, c)
  {
    if a != [] && b != [] && c != [] && a[0] == b[0] && b[0] == c[0] {
      LexLeTransitive(a[1..], b[1..], c[1..]);
    }
  }

  /** A one-day range holds exactly that day. */
  lemma SingleDayRange(d: string, day: string)
    ensures InRange(d, day, day) <==> d == day
  {
    if InRange(d, day, day) {
      LexLeAntisymmetric(d, day);
    } else {
      LexLeReflexive(day);
    }
  }
}
