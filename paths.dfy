/** POSIX path computations: `os.path.join` and `os.path.basename` as the
    Python standard library's `posixpath` module defines them on strings. */
module Paths {

  predicate StartsWithSep(p: string) {
    |p| > 0 && p[0] == '/'
  }

  predicate EndsWithSep(p: string) {
    |p| > 0 && p[|p| - 1] == '/'
  }

  /** `os.path.join(a, b)`: an absolute right part replaces the left part;
      otherwise a single '/' is inserted between the two, unless the left part
      is empty or already ends in '/'. */
  function Join(a: string, b: string): string {
    if StartsWithSep(b) then b
    else if a == [] || EndsWithSep(a) then a + b
    else a + "/" + b
  }

  /** A plain name: no separator anywhere in it. */
  predicate PlainName(s: string) {
    forall k | 0 <= k < |s| :: s[k] != '/'
  }

  /** Where the file name of `p[..j]` starts: just after the last '/'
      before position `j`, or 0 when there is none. */
  function NameStart(p: string, j: nat): (i: nat)
    requires j <= |p|
    ensures i <= j
    ensures forall k | i <= k < j :: p[k] != '/'
    ensures i > 0 ==> p[i - 1] == '/'
  {
    if j == 0 || p[j - 1] == '/' then j else NameStart(p, j - 1)
  }

  lemma PlainSuffix(p: string, i: nat)
    requires i <= |p| && forall k | i <= k < |p| :: p[k] != '/'
    ensures PlainName(p[i..])
  {
    assert forall k | 0 <= k < |p| - i :: p[i..][k] == p[i + k];
  }

  /** `os.path.basename(p)`: the part of `p` after its last '/'. */
  function Basename(p: string): (r: string)
    ensures |r| <= |p| && r == p[|p| - |r|..]
    ensures PlainName(r)
  {
    var i := NameStart(p, |p|);
    PlainSuffix(p, i);
    p[i..]
  }

  /** The basename is the only suffix that holds no '/' and follows a '/'
      or the start of the path. */
  lemma BasenameUnique(p: string, i: nat)
    requires i <= |p| && PlainName(p[i..]) && (i == 0 || p[i - 1] == '/')
    ensures Basename(p) == p[i..]
  {
    var m := NameStart(p, |p|);
    assert forall k | i <= k < |p| :: p[i..][k - i] == p[k];
  }

  /** Unless it is the whole path, the basename follows a '/'. */
  lemma BasenameFollowsSep(p: string)
    ensures var r := Basename(p); |r| < |p| ==> p[|p| - |r| - 1] == '/'
  {
    var i := NameStart(p, |p|);
    assert |Basename(p)| == |p| - i;
  }

  /** A name without a separator is its own basename. */
  lemma BasenameOfName(x: string)
    requires PlainName(x)
    ensures Basename(x) == x
  {
    assert x[0..] == x;
    BasenameUnique(x, 0);
  }

  /** Whatever precedes a separator does not affect the basename. */
  lemma BasenameAfterSep(x: string, y: string)
    requires x == [] || EndsWithSep(x)
    ensures Basename(x + y) == Basename(y)
  {
    var r := Basename(y);
    var i := |y| - |r|;
    assert (x + y)[|x| + i..] == r;
    if i == 0 && x != [] {
      assert (x + y)[|x| - 1] == x[|x| - 1];
    } else if i > 0 {
      assert (x + y)[|x| + i - 1] == y[i - 1];
    }
    BasenameUnique(x + y, |x| + i);
  }

  /** The basename of a joined path is the basename of its right part. */
  lemma BasenameOfJoin(a: string, b: string)
    ensures Basename(Join(a, b)) == Basename(b)
  {
    if StartsWithSep(b) {
    } else if a == [] || EndsWithSep(a) {
      BasenameAfterSep(a, b);
    } else {
      assert a + "/" + b == (a + "/") + b;
      BasenameAfterSep(a + "/", b);
    }
  }

  /** `os.path.join(a, b, c)` folds from the left; the fold can be regrouped,
      so joining a directory with two components is joining it with their
      relative path. */
  lemma JoinAssociative(a: string, b: string, c: string)
    ensures Join(Join(a, b), c) == Join(a, Join(b, c))
  {
    if StartsWithSep(c) {
    } else if StartsWithSep(b) {
      JoinKeepsLeadingSep(b, c);
    } else if b == [] {
      JoinEmptyMiddle(a, c);
    } else {
      JoinRelativeMiddle(a, b, c);
    }
  }

  lemma JoinKeepsLeadingSep(b: string, c: string)
    requires StartsWithSep(b)
    ensures StartsWithSep(Join(b, c))
  {
    if !StartsWithSep(c) {
      if EndsWithSep(b) {
        assert (b + c)[0] == b[0];
      } else {
        assert (b + "/" + c)[0] == b[0];
      }
    }
  }

  lemma JoinEmptyMiddle(a: string, c: string)
    requires !StartsWithSep(c)
    ensures Join(Join(a, []), c) == Join(a, Join([], c))
  {
    assert a + [] == a;
    if a != [] && !EndsWithSep(a) {
      assert EndsWithSep(a + "/");
    }
  }

  lemma JoinRelativeMiddle(a: string, b: string, c: string)
    requires !StartsWithSep(c) && !StartsWithSep(b) && b != []
    ensures Join(Join(a, b), c) == Join(a, Join(b, c))
  {
    var bc := Join(b, c);
    JoinKeepsFirst(b, c);
    var left := if a == [] || EndsWithSep(a) then a else a + "/";
    assert Join(a, b) == left + b;
    assert Join(a, bc) == left + bc;
    EndsWithSepOfConcat(left, b);
    if EndsWithSep(b) {
      assert (left + b) + c == left + (b + c);
    } else {
      assert (left + b) + "/" + c == left + (b + "/" + c);
    }
  }

  lemma JoinKeepsFirst(b: string, c: string)
    requires !StartsWithSep(c) && b != []
    ensures Join(b, c)[0] == b[0]
  {
  }

  lemma EndsWithSepOfConcat(a: string, b: string)
    requires b != []
    ensures EndsWithSep(a + b) == EndsWithSep(b)
  {
    assert (a + b)[|a + b| - 1] == b[|b| - 1];
  }

  /** Joining one directory with two different plain names gives two
      different paths. */
  lemma JoinNamesDistinct(d: string, x: string, y: string)
    requires PlainName(x) && PlainName(y) && x != y
    ensures Join(d, x) != Join(d, y)
  {
    BasenameOfJoin(d, x);
    BasenameOfJoin(d, y);
    BasenameOfName(x);
    BasenameOfName(y);
  }
}
