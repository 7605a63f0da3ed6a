/**
 * Strings and host paths as the bridge handles them: Python's `str.join`,
 * `str.split` on one character, and `pathlib` paths on a POSIX host, an
 * absolute path being the sequence of its components below "/".
 */
module Paths {

  /** `sep.join(parts)` */
  function Join(parts: seq<string>, sep: string): string
    decreases |parts|
  {
    if |parts| == 0 then ""
    else if |parts| == 1 then parts[0]
    else parts[0] + sep + Join(parts[1..], sep)
  }

  /** `s.split(d)`: the pieces between occurrences of `d`; never empty. */
  function Split(s: string, d: char): (pieces: seq<string>)
    ensures |pieces| > 0
    decreases |s|
  {
    if |s| == 0 then [""]
    else
      var rest := Split(s[1..], d);
      if s[0] == d then [""] + rest else [[s[0]] + rest[0]] + rest[1..]
  }

  lemma {:induction false} SplitWithout(a: string, d: char)
    requires d !in a
    ensures Split(a, d) == [a]
  {
    if |a| > 0 {
      assert d !in a[1..];
      SplitWithout(a[1..], d);
      assert [a[0]] + a[1..] == a;
    }
  }

  /** Splitting distributes over a separator placed between two strings. */
  lemma {:induction false} SplitAround(a: string, d: char, b: string)
    ensures Split(a + [d] + b, d) == Split(a, d) + Split(b, d)
    decreases |a|
  {
    if |a| == 0 {
      assert a + [d] + b == [d] + b;
      assert ([d] + b)[1..] == b;
    } else {
      SplitAround(a[1..], d, b);
      SplitAroundStep(a, d, b);
    }
  }

  /** The inductive step of `SplitAround`: one more leading character on the left. */
  lemma SplitAroundStep(a: string, d: char, b: string)
    requires |a| > 0
    requires Split(a[1..] + [d] + b, d) == Split(a[1..], d) + Split(b, d)
    ensures Split(a + [d] + b, d) == Split(a, d) + Split(b, d)
  {
    var s := a + [d] + b;
    assert s[0] == a[0] && s[1..] == a[1..] + [d] + b;
    var rest, tail := Split(a[1..], d), Split(b, d);
    if a[0] == d {
      ConsAssoc("", rest, tail);
    } else {
      HeadTail(rest, tail);
      ConsAssoc([a[0]] + rest[0], rest[1..], tail);
    }
  }

  /** Prepending an element associates with concatenation. */
  lemma ConsAssoc<T>(x: T, r: seq<T>, t: seq<T>)
    ensures [x] + (r + t) == ([x] + r) + t
  {
  }

  /** The head and tail of a concatenation with a non-empty left part. */
  lemma HeadTail<T>(r: seq<T>, t: seq<T>)
    requires |r| > 0
    ensures (r + t)[0] == r[0] && (r + t)[1..] == r[1..] + t
  {
  }

  /** Joining pieces free of `d` with `d` and splitting again gives the pieces back. */
  lemma {:induction false} SplitJoin(parts: seq<string>, d: char)
    requires |parts| > 0
    requires forall i :: 0 <= i < |parts| ==> d !in parts[i]
    ensures Split(Join(parts, [d]), d) == parts
  {
    SplitWithout(parts[0], d);
    if |parts| > 1 {
      SplitAround(parts[0], d, Join(parts[1..], [d]));
      SplitJoin(parts[1..], d);
      assert [parts[0]] + parts[1..] == parts;
    }
  }

  /** A component of a resolved path: not empty, not "." or "..", no separator. */
  predicate IsName(c: string) {
    c != "" && c != "." && c != ".." && '/' !in c
  }

  /** An absolute host path, as its components below the root. */
  type Path = seq<string>

  /** What `Path.resolve()` returns has only proper names as components. */
  predicate Resolved(p: Path) {
    forall i :: 0 <= i < |p| ==> IsName(p[i])
  }

  /** `str(p)` for an absolute POSIX path. */
  function Text(p: Path): string {
    "/" + Join(p, "/")
  }

  /** `rel.as_posix()` for a relative path: "." when it has no components. */
  function Posix(rel: Path): string {
    if |rel| == 0 then "." else Join(rel, "/")
  }

  /** The pieces `pathlib` keeps when it parses a string: empty and "." pieces are dropped. */
  function Kept(pieces: seq<string>): seq<string>
    decreases |pieces|
  {
    if |pieces| == 0 then []
    else (if pieces[0] == "" || pieces[0] == "." then [] else [pieces[0]]) + Kept(pieces[1..])
  }

  /** `base / s`: a string starting with "/" replaces the base. */
  function Append(base: seq<string>, s: string): seq<string> {
    if |s| > 0 && s[0] == '/' then Kept(Split(s, '/')) else base + Kept(Split(s, '/'))
  }

  /**
   * `Path.resolve()` on a path none of whose directories is a symbolic link:
   * ".." removes the component before it and never climbs above the root.
   */
  function Normalize(cs: seq<string>): Path
    decreases |cs|
  {
    if |cs| == 0 then []
    else
      var head := Normalize(cs[..|cs| - 1]);
      if cs[|cs| - 1] == ".." then (if |head| == 0 then [] else head[..|head| - 1])
      else head + [cs[|cs| - 1]]
  }

  /** Resolving an already resolved path changes nothing. */
  lemma {:induction false} NormalizeResolved(p: Path)
    requires Resolved(p)
    ensures Normalize(p) == p
  {
    if |p| > 0 {
      NormalizeResolved(p[..|p| - 1]);
      assert p[..|p| - 1] + [p[|p| - 1]] == p;
    }
  }

  /** Appending a plain name adds it as the last component. */
  lemma AppendName(base: Path, name: string)
    requires IsName(name)
    ensures Append(base, name) == base + [name]
  {
    SplitWithout(name, '/');
    assert name[0] in name;
    assert [name][1..] == [];
    assert Kept([name]) == [name] + Kept([]);
  }

  /** Appending "." leaves a path as it is. */
  lemma AppendDot(base: Path)
    ensures Append(base, ".") == base
  {
    SplitWithout(".", '/');
    assert ["."][1..] == [];
  }

  /** No piece of a split contains the separator. */
  lemma {:induction false} SplitPieces(s: string, d: char)
    ensures forall i :: 0 <= i < |Split(s, d)| ==> d !in Split(s, d)[i]
    decreases |s|
  {
    if |s| > 0 {
      SplitPieces(s[1..], d);
      var rest := Split(s[1..], d);
      if s[0] != d {
        assert d !in [s[0]] + rest[0];
      }
    }
  }

  /** Parsing keeps only pieces that are there, and none that is empty or ".". */
  lemma {:induction false} KeptPieces(pieces: seq<string>)
    ensures forall c :: c in Kept(pieces) ==> c in pieces && c != "" && c != "."
    decreases |pieces|
  {
    if |pieces| > 0 {
      KeptPieces(pieces[1..]);
    }
  }

  /** Appending a string adds only pieces of it that are neither empty nor "." and hold no "/". */
  lemma AppendPieces(base: Path, s: string)
    ensures forall c :: c in Append(base, s) ==> c in base || (c != "" && c != "." && '/' !in c)
  {
    var pieces := Split(s, '/');
    SplitPieces(s, '/');
    KeptPieces(pieces);
    forall c | c in Kept(pieces) ensures '/' !in c {
      var i :| 0 <= i < |pieces| && pieces[i] == c;
    }
  }

  /** Resolving keeps only components that were there, and never "..". */
  lemma {:induction false} NormalizePieces(cs: seq<string>)
    ensures forall c :: c in Normalize(cs) ==> c in cs && c != ".."
    decreases |cs|
  {
    if |cs| > 0 {
      var init := cs[..|cs| - 1];
      NormalizePieces(init);
      assert forall c :: c in init ==> c in cs;
      var head, last := Normalize(init), cs[|cs| - 1];
      if last != ".." {
        assert Normalize(cs) == head + [last];
        assert last in cs;
        assert forall c :: c in head + [last] ==> c in head || c == last;
      } else if |head| > 0 {
        assert Normalize(cs) == head[..|head| - 1];
        forall c | c in head[..|head| - 1] ensures c in cs && c != ".." {
          var i :| 0 <= i < |head| - 1 && head[..|head| - 1][i] == c;
          assert head[i] in head;
        }
      } else {
        assert Normalize(cs) == [];
      }
    }
  }
}
