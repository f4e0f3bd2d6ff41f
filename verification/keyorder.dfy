/**
 * The order `Object.keys(data).sort()` puts journal keys in: the default
 * comparison of `Array.prototype.sort`, character by character, a proper
 * prefix first. For YYYY-MM-DD keys this is chronological order. Characters
 * are compared as code points, while JavaScript compares UTF-16 code units; the
 * two orders differ only for characters above U+FFFF, which date keys never hold.
 */
module KeyOrder {

  /**
   * `a` sorts strictly before `b`: a proper prefix sorts first, a string never
   * sorts before one of its prefixes, and otherwise the first differing
   * character decides.
   */
  function Less(a: string, b: string): (r: bool)
    ensures a < b ==> r
    ensures b <= a ==> !r
    ensures |a| > 0 && |b| > 0 && a[0] != b[0] ==> (r <==> a[0] < b[0])
    decreases |a|
  {
    if |b| == 0 then false
    else if |a| == 0 then true
    else a[0] < b[0] || (a[0] == b[0] && Less(a[1..], b[1..]))
  }

  /** `a` and `b` agree before position i and `a` has the smaller character at i. */
  predicate DiffersFirstAt(a: string, b: string, i: int) {
    0 <= i < |a| && i < |b| && a[..i] == b[..i] && a[i] < b[i]
  }

  /** The order is decided by the first differing character, or else by a proper prefix. */
  lemma LessIsFirstDifference(a: string, b: string)
    ensures Less(a, b) <==> a < b || exists i :: DiffersFirstAt(a, b, i)
  {
    if Less(a, b) {
      LessHasFirstDifference(a, b);
    }
    if i :| DiffersFirstAt(a, b, i) {
      FirstDifferenceIsLess(a, b, i);
    }
  }

  lemma {:induction false} LessHasFirstDifference(a: string, b: string)
    requires Less(a, b)
    ensures a < b || exists i :: DiffersFirstAt(a, b, i)
    decreases |a|
  {
    if |a| > 0 && a[0] < b[0] {
      assert DiffersFirstAt(a, b, 0);
    } else if |a| > 0 {
      LessHasFirstDifference(a[1..], b[1..]);
      if a[1..] < b[1..] {
        assert a == [a[0]] + a[1..] && b == [b[0]] + b[1..];
      } else {
        var j :| DiffersFirstAt(a[1..], b[1..], j);
        assert a[..j + 1] == [a[0]] + a[1..][..j];
        assert b[..j + 1] == [b[0]] + b[1..][..j];
        assert DiffersFirstAt(a, b, j + 1);
      }
    }
  }

  lemma {:induction false} FirstDifferenceIsLess(a: string, b: string, i: int)
    requires DiffersFirstAt(a, b, i)
    ensures Less(a, b)
    decreases i
  {
    if i > 0 {
      assert a[0] == a[..i][0] == b[..i][0] == b[0];
      assert a[1..][..i - 1] == a[..i][1..] == b[..i][1..] == b[1..][..i - 1];
      FirstDifferenceIsLess(a[1..], b[1..], i - 1);
    }
  }

  lemma {:induction false} LessIrreflexive(a: string)
    ensures !Less(a, a)
    decreases |a|
  {
    if |a| > 0 {
      LessIrreflexive(a[1..]);
    }
  }

  lemma {:induction false} LessTransitive(a: string, b: string, c: string)
    requires Less(a, b) && Less(b, c)
    ensures Less(a, c)
    decreases |a|
  {
    if |a| > 0 && a[0] == b[0] && b[0] == c[0] {
      LessTransitive(a[1..], b[1..], c[1..]);
    }
  }

  lemma {:induction false} LessTotal(a: string, b: string)
    ensures a == b || Less(a, b) || Less(b, a)
    decreases |a|
  {
    if |a| > 0 && |b| > 0 && a[0] == b[0] {
      LessTotal(a[1..], b[1..]);
      if a[1..] == b[1..] {
        assert a == [a[0]] + a[1..] && b == [b[0]] + b[1..];
      }
    }
  }

  /** `m` sorts before every other member of `s`. */
  ghost predicate IsLeast(m: string, s: set<string>) {
    m in s && forall x :: x in s && x != m ==> Less(m, x)
  }

  /** Every finite non-empty set of keys has a least one. */
  lemma {:induction false} LeastExists(s: set<string>)
    requires s != {}
    ensures exists m :: IsLeast(m, s)
    decreases |s|
  {
    var x :| x in s;
    if s - {x} == {} {
      assert s == {x};
      assert IsLeast(x, s);
    } else {
      LeastExists(s - {x});
      var m :| IsLeast(m, s - {x});
      LessTotal(x, m);
      if Less(x, m) {
        forall y | y in s && y != x
          ensures Less(x, y)
        {
          if y != m {
            LessTransitive(x, m, y);
          }
        }
        assert IsLeast(x, s);
      } else {
        assert IsLeast(m, s);
      }
    }
  }

  /** The keys of a set in ascending order, each exactly once. */
  ghost function Ascending(s: set<string>): (r: seq<string>)
    ensures |r| == |s|
    ensures forall i :: 0 <= i < |r| ==> r[i] in s
    ensures forall x :: x in s ==> x in r
    ensures forall i, j :: 0 <= i < j < |r| ==> Less(r[i], r[j])
    decreases |s|
  {
    if s == {} then []
    else
      LeastExists(s);
      var m :| IsLeast(m, s);
      var rest := Ascending(s - {m});
      [m] + rest
  }
}
