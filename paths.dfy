/**
 * The string-level path operations the two deployers use: POSIX
 * `os.path.join`, `str.lstrip("/")` and the slice `s[1:None]`.
 */
module Paths {

  /** A POSIX path is absolute when it begins with the separator. */
  predicate IsAbsolute(p: string) {
    |p| > 0 && p[0] == '/'
  }

  /** True when `p` ends with the separator. */
  predicate EndsWithSeparator(p: string) {
    |p| > 0 && p[|p| - 1] == '/'
  }

  /**
   * POSIX `os.path.join(a, b)`: an absolute `b` discards `a`; otherwise
   * `b` is appended with one separator, none being added when `a` is empty
   * or already ends with one. A join of more components is the left fold
   * of this one.
   */
  function Join(a: string, b: string): string
  {
    if IsAbsolute(b) then b
    else if a == [] || EndsWithSeparator(a) then a + b
    else a + "/" + b
  }

  /**
   * `str.lstrip("/")`: every leading separator is removed, nothing else.
   * The result is a suffix of the input, what was cut off is all
   * separators, and the result no longer starts with one.
   */
  function LStripSlash(s: string): (r: string)
    ensures !IsAbsolute(r)
    ensures |r| <= |s| && r == s[|s| - |r|..]
    ensures forall i :: 0 <= i < |s| - |r| ==> s[i] == '/'
    ensures !IsAbsolute(s) ==> r == s
  {
    if IsAbsolute(s) then LStripSlash(s[1..]) else s
  }

  /** The slice `s[1:None]`: the first character, whatever it is, is dropped. */
  function DropFirst(s: string): (r: string)
    ensures s == [] ==> r == []
    ensures s != [] ==> |r| == |s| - 1 && s == [s[0]] + r
  {
    if s == [] then s else s[1..]
  }

  /** The separator `Join` inserts before a relative component. */
  function Separator(a: string): string {
    if a == [] || EndsWithSeparator(a) then "" else "/"
  }

  lemma JoinRelative(a: string, b: string)
    requires !IsAbsolute(b)
    ensures Join(a, b) == a + Separator(a) + b
  {
  }

  lemma SeparatorAfter(a: string, b: string)
    requires b != []
    ensures Separator(a + Separator(a) + b) == Separator(b)
  {
    var ab := a + Separator(a) + b;
    assert ab[|ab| - 1] == b[|b| - 1];
  }

  lemma JoinAssocAbsoluteMiddle(a: string, b: string, c: string)
    requires !IsAbsolute(c) && IsAbsolute(b)
    ensures Join(Join(a, b), c) == Join(a, Join(b, c))
  {
    JoinRelative(b, c);
    assert Join(b, c)[0] == b[0];
  }

  lemma JoinAssocEmptyMiddle(a: string, c: string)
    requires !IsAbsolute(c)
    ensures Join(Join(a, []), c) == Join(a, Join([], c))
  {
    assert Join([], c) == c;
    if a == [] {
      assert Join(a, []) == [];
    } else if EndsWithSeparator(a) {
      assert Join(a, []) == a;
    } else {
      var slashed := a + "/";
      assert Join(a, []) == slashed;
      assert EndsWithSeparator(slashed);
      assert Join(slashed, c) == slashed + c;
    }
  }

  lemma JoinAssocRelative(a: string, b: string, c: string)
    requires !IsAbsolute(c) && !IsAbsolute(b) && b != []
    ensures Join(Join(a, b), c) == Join(a, Join(b, c))
  {
    var ab := a + Separator(a) + b;
    var bc := b + Separator(b) + c;
    assert Join(a, b) == ab by {
      JoinRelative(a, b);
    }
    assert Join(b, c) == bc && !IsAbsolute(bc) by {
      JoinRelative(b, c);
      assert bc[0] == b[0];
    }
    assert Join(ab, c) == ab + Separator(b) + c by {
      JoinRelative(ab, c);
      SeparatorAfter(a, b);
    }
    assert Join(a, bc) == a + Separator(a) + bc by {
      JoinRelative(a, bc);
    }
    ConcatRegroup(a, Separator(a), b, Separator(b), c);
  }

  lemma ConcatRegroup(a: string, s: string, b: string, t: string, c: string)
    ensures a + s + b + t + c == a + s + (b + t + c)
  {
  }

  /**
   * What a join keeps: an absolute right component replaces the left one;
   * otherwise both components survive, in order, with at most one
   * separator between them, and exactly one between a non-empty left part
   * that does not already end with one and the right part.
   */
  lemma JoinKeepsComponents(a: string, b: string)
    ensures IsAbsolute(b) ==> Join(a, b) == b
    ensures !IsAbsolute(b) ==> |a| + |b| <= |Join(a, b)| <= |a| + |b| + 1
    ensures !IsAbsolute(b) ==> Join(a, b)[..|a|] == a && Join(a, b)[|Join(a, b)| - |b|..] == b
    ensures !IsAbsolute(b) && a != [] && !EndsWithSeparator(a) ==> Join(a, b) == a + "/" + b
  {
  }

  /** Joining is associative, so `os.path.join(a, b, c)` may be regrouped. */
  lemma {:induction false} JoinAssoc(a: string, b: string, c: string)
    ensures Join(Join(a, b), c) == Join(a, Join(b, c))
  {
    if IsAbsolute(c) {
    } else if IsAbsolute(b) {
      JoinAssocAbsoluteMiddle(a, b, c);
    } else if b == [] {
      JoinAssocEmptyMiddle(a, c);
    } else {
      JoinAssocRelative(a, b, c);
    }
  }

  /**
   * Dropping the first character agrees with stripping the leading
   * separators exactly when the input is empty or has one single leading
   * separator; a prefix without one loses a real character, and a prefix
   * with two keeps an absolute remainder.
   */
  lemma DropFirstAgreesWithLStrip(s: string)
    ensures DropFirst(s) == LStripSlash(s) <==> s == [] || (IsAbsolute(s) && !IsAbsolute(s[1..]))
  {
    if s != [] && !IsAbsolute(s) {
      assert |DropFirst(s)| < |LStripSlash(s)|;
    }
  }
}
