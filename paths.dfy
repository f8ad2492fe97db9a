/** Path handling as the tool uses it on Windows (`os.path` is `ntpath`
    there): `basename`, `join`, and `resource_path`, which places a relative
    resource under the bundle directory or the working directory. Drive
    prefixes such as `C:` are not modelled; `normpath` is a parameter about
    which only one fact is assumed. */
module Paths {
  import opened Wrappers

  /** ntpath accepts both separators and writes a backslash. */
  predicate IsSep(c: char)
  {
    c == '\\' || c == '/'
  }

  const Sep: char := '\\'

  predicate NoSep(s: string)
  {
    forall i :: 0 <= i < |s| ==> !IsSep(s[i])
  }

  /** `os.path.basename`: the longest suffix without a separator. */
  function BaseName(p: string): (b: string)
    ensures |b| <= |p| && b == p[|p| - |b|..]
    ensures NoSep(b)
    ensures |b| < |p| ==> IsSep(p[|p| - |b| - 1])
    decreases |p|
  {
    if p == [] || IsSep(p[|p| - 1]) then []
    else
      var q, c := p[..|p| - 1], p[|p| - 1];
      var b := BaseName(q);
      assert q[|q| - |b|..] + [c] == p[|p| - 1 - |b|..];
      assert NoSep(b + [c]) by {
        forall i | 0 <= i < |b + [c]|
          ensures !IsSep((b + [c])[i])
        {
          if i < |b| {
            assert (b + [c])[i] == b[i];
          }
        }
      }
      assert |b| < |q| ==> p[|p| - |b| - 2] == q[|q| - |b| - 1];
      b + [c]
  }

  /** A suffix's characters are the path's last characters. */
  lemma SuffixAt(p: string, b: string, i: int)
    requires |b| <= |p| && b == p[|p| - |b|..] && 0 <= i < |b|
    ensures b[i] == p[|p| - |b| + i]
  {
  }

  /** What BaseName's contract says of its result, as a property of a
      candidate suffix `b` of `p`. */
  predicate IsBaseName(p: string, b: string)
  {
    && |b| <= |p| && b == p[|p| - |b|..]
    && NoSep(b)
    && (|b| < |p| ==> IsSep(p[|p| - |b| - 1]))
  }

  /** At most one suffix has those properties. */
  lemma IsBaseNameUnique(p: string, b: string, c: string)
    requires IsBaseName(p, b) && IsBaseName(p, c)
    ensures b == c
  {
    if |b| < |c| {
      SuffixAt(p, c, |c| - |b| - 1);
      assert false;
    } else if |c| < |b| {
      SuffixAt(p, b, |b| - |c| - 1);
      assert false;
    }
  }

  /** The three properties in BaseName's contract single out its result. */
  lemma BaseNameUnique(p: string, b: string)
    requires IsBaseName(p, b)
    ensures b == BaseName(p)
  {
    IsBaseNameUnique(p, b, BaseName(p));
  }

  /** The last `n` characters of `x + y`, for `n` up to `|y|`, are those of `y`. */
  lemma SuffixOfConcat(x: string, y: string, n: int)
    requires 0 <= n <= |y|
    ensures (x + y)[|x| + |y| - n..] == y[|y| - n..]
  {
    var p, k := x + y, |x| + |y| - n;
    assert p[|x|..] == y;
    assert p[k..] == p[|x|..][k - |x|..];
  }

  /** A suffix with BaseName's properties keeps them when a path ending in a
      separator is put in front. */
  lemma IsBaseNameAfterSep(x: string, y: string, b: string)
    requires x == [] || IsSep(x[|x| - 1])
    requires IsBaseName(y, b)
    ensures IsBaseName(x + y, b)
  {
    var p := x + y;
    SuffixOfConcat(x, y, |b|);
    assert b == p[|p| - |b|..];
    if |b| < |y| {
      assert p[|p| - |b| - 1] == y[|y| - |b| - 1];
    } else if |b| < |p| {
      assert p[|p| - |b| - 1] == x[|x| - 1];
    }
  }

  /** Whatever stands before a separator has no say in the base name. */
  lemma BaseNameAfterSep(x: string, y: string)
    requires x == [] || IsSep(x[|x| - 1])
    ensures BaseName(x + y) == BaseName(y)
  {
    var b := BaseName(y);
    assert IsBaseName(y, b);
    IsBaseNameAfterSep(x, y, b);
    BaseNameUnique(x + y, b);
  }

  /** A component without separators is its own base name. */
  lemma BaseNameOfName(y: string)
    requires NoSep(y)
    ensures BaseName(y) == y
  {
    BaseNameUnique(y, y);
  }

  /** `os.path.join(a, b)` for two paths without drive letters: a rooted `b`
      replaces `a`; otherwise a separator is inserted unless `a` is empty or
      already ends in one. */
  function Join(a: string, b: string): string
  {
    if b != [] && IsSep(b[0]) then b
    else if a == [] || IsSep(a[|a| - 1]) then a + b
    else a + [Sep] + b
  }

  /** Joining never changes the last component of the second path. */
  lemma JoinKeepsBaseName(a: string, b: string)
    ensures BaseName(Join(a, b)) == BaseName(b)
  {
    if b != [] && IsSep(b[0]) {
    } else if a == [] || IsSep(a[|a| - 1]) {
      BaseNameAfterSep(a, b);
    } else {
      assert a + [Sep] + b == (a + [Sep]) + b;
      BaseNameAfterSep(a + [Sep], b);
    }
  }

  /** Where the program runs from: the directory a packaged build unpacks
      into (`sys._MEIPASS`), if there is one, and the absolute working
      directory (`os.path.abspath(".")`). */
  datatype Host = Host(bundleDir: Option<string>, workingDir: string)

  function BaseDir(h: Host): string
  {
    match h.bundleDir
    case Some(d) => d
    case None => h.workingDir
  }

  /** A last component that `normpath` leaves alone: not empty, `.` or `..`. */
  predicate OrdinaryName(n: string)
  {
    n != [] && n != "." && n != ".."
  }

  /** `os.path.normpath`, left abstract. */
  type Normalizer = string -> string

  /** The one property of `normpath` the tool depends on: collapsing `.`,
      `..` and doubled separators never touches an ordinary last component. */
  ghost predicate KeepsLastComponent(norm: Normalizer)
  {
    forall p :: OrdinaryName(BaseName(p)) ==> BaseName(norm(p)) == BaseName(p)
  }

  /** `resource_path(relative_path)`. Re-encoding the normalised path as
      UTF-8 and decoding it again gives back the same string, and the
      fallback for an encoding error returns it unchanged, so both branches
      return the normalised join. */
  function ResourcePath(h: Host, norm: Normalizer, relative: string): string
  {
    norm(Join(BaseDir(h), relative))
  }

  /** A resource keeps its file name wherever the program runs from. */
  lemma ResourcePathKeepsBaseName(h: Host, norm: Normalizer, relative: string)
    requires KeepsLastComponent(norm)
    requires OrdinaryName(BaseName(relative))
    ensures BaseName(ResourcePath(h, norm, relative)) == BaseName(relative)
  {
    JoinKeepsBaseName(BaseDir(h), relative);
  }
}
