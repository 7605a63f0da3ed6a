/**
 * west_env/util.py: the two host checks of the doctor, the Python version
 * and the presence of `west`.
 */
module Util {
  import opened Environment

  const MinPython: seq<int> := [3, 10]

  /** Python's `<` on tuples of integers: the first differing position decides, and a proper prefix is smaller. */
  function TupleLess(a: seq<int>, b: seq<int>): bool
    decreases |a|
  {
    if |b| == 0 then false
    else if |a| == 0 then true
    else if a[0] != b[0] then a[0] < b[0]
    else TupleLess(a[1..], b[1..])
  }

  /** A common prefix, then either the end of `a` or a smaller element of `a`: the lexicographic order. */
  predicate LexLessAt(a: seq<int>, b: seq<int>, k: int) {
    0 <= k < |b| && k <= |a| && a[..k] == b[..k] && (k == |a| || a[k] < b[k])
  }

  /** `TupleLess` is the lexicographic order: `a < b` iff they agree up to some position where `a` ends or is smaller. */
  lemma {:induction false} TupleLessLexicographic(a: seq<int>, b: seq<int>)
    ensures TupleLess(a, b) <==> exists k :: LexLessAt(a, b, k)
    decreases |a|
  {
    if |b| == 0 {
    } else if |a| == 0 {
      assert LexLessAt(a, b, 0);
    } else if a[0] != b[0] {
      if TupleLess(a, b) {
        assert LexLessAt(a, b, 0);
      } else {
        forall k | 0 <= k ensures !LexLessAt(a, b, k) {
          if 0 < k <= |a| && k < |b| {
            assert a[..k][0] == a[0] && b[..k][0] == b[0];
          }
        }
      }
    } else {
      TupleLessLexicographic(a[1..], b[1..]);
      if TupleLess(a, b) {
        var k :| LexLessAt(a[1..], b[1..], k);
        assert a[..k + 1] == [a[0]] + a[1..][..k] && b[..k + 1] == [b[0]] + b[1..][..k];
        assert LexLessAt(a, b, k + 1);
      } else {
        forall k | 0 <= k ensures !LexLessAt(a, b, k) {
          if 0 < k <= |a| && k < |b| && a[..k] == b[..k] {
            assert a[1..][..k - 1] == a[..k][1..] && b[1..][..k - 1] == b[..k][1..];
            assert !LexLessAt(a[1..], b[1..], k - 1);
          }
        }
      }
    }
  }

  /** A tuple that extends `a` is never smaller than `a`. */
  lemma {:induction false} ExtensionNotLess(a: seq<int>, rest: seq<int>)
    ensures !TupleLess(a + rest, a)
  {
    if |a| > 0 {
      assert (a + rest)[0] == a[0];
      assert (a + rest)[1..] == a[1..] + rest;
      ExtensionNotLess(a[1..], rest);
    }
  }

  function VersionTuple(v: VersionInfo): seq<int> {
    [v.major, v.minor, v.micro]
  }

  /** `check_python()`: fails exactly on versions before 3.10, whatever the micro version. */
  function CheckPython(v: VersionInfo): (ok: bool)
    ensures ok <==> v.major > 3 || (v.major == 3 && v.minor >= 10)
  {
    var t := VersionTuple(v);
    assert t[1..] == [v.minor, v.micro] && MinPython[1..] == [10];
    assert TupleLess(t[1..], MinPython[1..]) <==> v.minor < 10 by {
      assert t[1..][1..] == [v.micro] && MinPython[1..][1..] == [];
    }
    !TupleLess(t, MinPython)
  }

  /** The probe `check_west()` runs. */
  const WestVersionProbe: seq<string> := ["west", "--version"]

  /** `check_west()`: the probe's failure of any kind becomes False and is never raised. */
  function CheckWest(h: Host): (ok: bool)
    ensures ok <==> WestVersionProbe in h.succeeds
  {
    h.Runs(WestVersionProbe)
  }
}
