/** Facts about lines assembled from short pieces: how cleaning, occurrences
    and greedy runs behave across the joins. The worked examples of the two
    output normalisers are stated on such lines. */
module Pieces {
  import opened Base
  import opened Text
  import opened Cleaning

  /** ASCII and single-spaced: a canonical line may still start or end with
      its one space. */
  predicate Tidy(s: string) {
    AllAscii(s) && SingleSpaced(s)
  }

  /** Printable ASCII characters and single spaces only: a form of `Tidy`
      that is cheap to check on a literal. */
  predicate Plain(s: string) {
    && (forall i :: 0 <= i < |s| ==> ('!' <= s[i] <= '~' || s[i] == ' '))
    && (forall i :: 0 <= i < |s| - 1 ==> !(s[i] == ' ' && s[i + 1] == ' '))
  }

  lemma {:induction false} PlainTidy(s: string)
    requires Plain(s)
    ensures Tidy(s)
  {
    forall i | 0 <= i < |s| ensures IsSpace(s[i]) ==> s[i] == ' ' {
    }
  }

  /** Joining `x` and `y` does not put two spaces together. */
  predicate Joinable(x: string, y: string) {
    x == [] || y == [] || x[|x| - 1] != ' ' || y[0] != ' '
  }

  /** Plain pieces that do not put two spaces together make a plain line. */
  lemma {:induction false} PlainAppend(x: string, y: string)
    requires Plain(x) && Plain(y) && Joinable(x, y)
    ensures Plain(x + y)
  {
    var s := x + y;
    forall i | 0 <= i < |s| - 1 ensures !(s[i] == ' ' && s[i + 1] == ' ') {
      if i + 1 < |x| {
        assert s[i] == x[i] && s[i + 1] == x[i + 1];
      } else if i + 1 == |x| {
        assert s[i] == x[|x| - 1] && s[i + 1] == y[0];
      } else {
        assert s[i] == y[i - |x|] && s[i + 1] == y[i + 1 - |x|];
      }
    }
  }

  /** Plain pieces that join without two spaces, the first not starting and
      the last not ending with a space, make a line that is its own
      cleaning. */
  lemma {:induction false} CleanOfPlainThree(a: string, b: string, c: string)
    requires Plain(a) && Plain(b) && Plain(c) && a != [] && b != [] && c != []
    requires a[0] != ' ' && c[|c| - 1] != ' ' && Joinable(a, b) && Joinable(b, c)
    ensures Clean(a + b + c) == a + b + c
  {
    PlainAppend(a, b);
    assert (a + b)[|a + b| - 1] == b[|b| - 1];
    PlainAppend(a + b, c);
    assert (a + b + c)[0] == a[0] && (a + b + c)[|a + b + c| - 1] == c[|c| - 1];
    CleanOfPlain(a + b + c);
  }

  lemma {:induction false} CleanOfPlainFour(a: string, b: string, c: string, d: string)
    requires Plain(a) && Plain(b) && Plain(c) && Plain(d) && a != [] && b != [] && c != [] && d != []
    requires a[0] != ' ' && d[|d| - 1] != ' ' && Joinable(a, b) && Joinable(b, c) && Joinable(c, d)
    ensures Clean(a + b + c + d) == a + b + c + d
  {
    PlainAppend(a, b);
    assert (a + b)[0] == a[0] && (a + b)[|a + b| - 1] == b[|b| - 1];
    CleanOfPlainThree(a + b, c, d);
  }

  lemma {:induction false} CleanOfPlainFive(a: string, b: string, c: string, d: string, e: string)
    requires Plain(a) && Plain(b) && Plain(c) && Plain(d) && Plain(e)
    requires a != [] && b != [] && c != [] && d != [] && e != []
    requires a[0] != ' ' && e[|e| - 1] != ' '
    requires Joinable(a, b) && Joinable(b, c) && Joinable(c, d) && Joinable(d, e)
    ensures Clean(a + b + c + d + e) == a + b + c + d + e
  {
    PlainAppend(a, b);
    assert (a + b)[0] == a[0] && (a + b)[|a + b| - 1] == b[|b| - 1];
    CleanOfPlainFour(a + b, c, d, e);
  }

  /** A plain line that neither starts nor ends with a space is its own
      cleaning. */
  lemma {:induction false} CleanOfPlain(s: string)
    requires Plain(s) && s != [] && s[0] != ' ' && s[|s| - 1] != ' '
    ensures Clean(s) == s
  {
    PlainTidy(s);
    CleanOfTidy(s);
  }

  /** A tidy line without white space at either end is its own cleaning. */
  lemma {:induction false} CleanOfTidy(s: string)
    requires Tidy(s) && s != [] && !IsSpace(s[0]) && !IsSpace(s[|s| - 1])
    ensures Clean(s) == s
  {
    CleanOfCanonical(s);
  }

  /** An occurrence in the left piece is one in the whole. */
  lemma {:induction false} OccursLeft(x: string, y: string, pat: string, i: nat)
    requires OccursAt(x, pat, i)
    ensures OccursAt(x + y, pat, i)
  {
    assert (x + y)[i..i + |pat|] == x[i..i + |pat|];
  }

  /** An occurrence in the right piece is one in the whole, shifted. */
  lemma {:induction false} OccursRight(x: string, y: string, pat: string, i: nat)
    requires OccursAt(y, pat, i)
    ensures OccursAt(x + y, pat, |x| + i)
  {
    assert (x + y)[|x| + i..|x| + i + |pat|] == y[i..i + |pat|];
  }

  /** The right piece is the slice of the whole after the left piece. */
  lemma {:induction false} RightSlice(x: string, y: string)
    ensures (x + y)[|x|..|x + y|] == y
  {
  }

  /** The middle piece is the slice of the whole between the others. */
  lemma {:induction false} MiddleSlice(x: string, m: string, y: string)
    ensures (x + m + y)[|x|..|x| + |m|] == m
  {
    assert (x + m + y)[|x|..|x| + |m|] == (x + m)[|x|..|x| + |m|];
  }

  /** `c` does not occur in `s`. */
  predicate Lacks(s: string, c: char) {
    forall i :: 0 <= i < |s| ==> s[i] != c
  }

  lemma {:induction false} LacksAppend(x: string, y: string, c: char)
    requires Lacks(x, c) && Lacks(y, c)
    ensures Lacks(x + y, c)
  {
    forall i | 0 <= i < |x + y| ensures (x + y)[i] != c {
      if i < |x| {
        assert (x + y)[i] == x[i];
      } else {
        assert (x + y)[i] == y[i - |x|];
      }
    }
  }

  /** A line without one of the characters of `pat` does not contain `pat`. */
  lemma {:induction false} LacksNotContains(s: string, pat: string, k: nat)
    requires k < |pat| && Lacks(s, pat[k])
    ensures !Contains(s, pat)
  {
    if i: nat :| i <= |s| && OccursAt(s, pat, i) {
      assert s[i + k] == s[i..i + |pat|][k];
    }
  }

  /** A single space before a word is a run of white space of its own. */
  lemma {:induction false} SingleSpace(s: string, j: nat, w: string)
    requires OccursAt(s, " ", j) && OccursAt(s, w, j + 1) && w != [] && !IsSpace(w[0])
    ensures RunEnd(s, j, Space) == j + 1
  {
    assert s[j] == s[j..j + 1][0];
    assert s[j + 1] == s[j + 1..j + 1 + |w|][0];
    assert RunEnd(s, j + 1, Space) == j + 1;
  }

  /** Each of six pieces occurs in their concatenation where it was put. */
  lemma {:induction false} PiecesAt(p1: string, p2: string, p3: string, p4: string, p5: string, p6: string)
    ensures var s := p1 + p2 + p3 + p4 + p5 + p6;
      && OccursAt(s, p1, 0) && OccursAt(s, p2, |p1|) && OccursAt(s, p3, |p1 + p2|)
      && OccursAt(s, p4, |p1 + p2 + p3|) && OccursAt(s, p5, |p1 + p2 + p3 + p4|)
      && OccursAt(s, p6, |p1 + p2 + p3 + p4 + p5|)
  {
    var s2, s3, s4, s5 := p1 + p2, p1 + p2 + p3, p1 + p2 + p3 + p4, p1 + p2 + p3 + p4 + p5;
    assert s2[..|p1|] == p1 && s3[..|s2|] == s2 && s4[..|s3|] == s3 && s5[..|s4|] == s4;
    assert (s5 + p6)[..|s5|] == s5;
    assert s2[|p1|..] == p2 && s3[|s2|..] == p3 && s4[|s3|..] == p4 && s5[|s4|..] == p5;
    assert (s5 + p6)[|s5|..] == p6;
  }

  /** Where a string without characters of class `k` occurs, `s` has none. */
  lemma {:induction false} ClassFree(s: string, x: string, i: nat, k: CharClass)
    requires OccursAt(s, x, i) && forall j :: 0 <= j < |x| ==> !InClass(x[j], k)
    ensures forall r :: i <= r < i + |x| ==> !InClass(s[r], k)
  {
    forall r | i <= r < i + |x| ensures !InClass(s[r], k) {
      assert s[r] == s[i..i + |x|][r - i];
    }
  }

  /** `a` is never directly followed by `b` in `s`. */
  predicate NoBigram(s: string, a: char, b: char) {
    forall i :: 0 <= i < |s| - 1 ==> !(s[i] == a && s[i + 1] == b)
  }

  lemma {:induction false} NoBigramAppend(x: string, y: string, a: char, b: char)
    requires NoBigram(x, a, b) && NoBigram(y, a, b)
    requires x == [] || y == [] || x[|x| - 1] != a || y[0] != b
    ensures NoBigram(x + y, a, b)
  {
    var s := x + y;
    forall i | 0 <= i < |s| - 1 ensures !(s[i] == a && s[i + 1] == b) {
      if i + 1 < |x| {
        assert s[i] == x[i] && s[i + 1] == x[i + 1];
      } else if i + 1 == |x| {
        assert s[i] == x[|x| - 1] && s[i + 1] == y[0];
      } else {
        assert s[i] == y[i - |x|] && s[i + 1] == y[i + 1 - |x|];
      }
    }
  }

  /** No character of class `k` in `s` is directly followed by `c`. */
  predicate NoPair(s: string, k: CharClass, c: char) {
    forall i :: 0 <= i < |s| - 1 ==> !(InClass(s[i], k) && s[i + 1] == c)
  }

  lemma {:induction false} NoPairAppend(x: string, y: string, k: CharClass, c: char)
    requires NoPair(x, k, c) && NoPair(y, k, c)
    requires x == [] || y == [] || !InClass(x[|x| - 1], k) || y[0] != c
    ensures NoPair(x + y, k, c)
  {
    var s := x + y;
    forall i | 0 <= i < |s| - 1 ensures !(InClass(s[i], k) && s[i + 1] == c) {
      if i + 1 < |x| {
        assert s[i] == x[i] && s[i + 1] == x[i + 1];
      } else if i + 1 == |x| {
        assert s[i] == x[|x| - 1] && s[i + 1] == y[0];
      } else {
        assert s[i] == y[i - |x|] && s[i + 1] == y[i + 1 - |x|];
      }
    }
  }

  /** In a left piece that ends outside class `k`, a run of `k` started in
      the piece ends inside it, and not at a `c` when the run is nonempty and
      no `k` character of the piece is followed by `c`. */
  lemma {:induction false} RunStops(x: string, y: string, k: CharClass, c: char, r: nat)
    requires r < |x| && !InClass(x[|x| - 1], k) && NoPair(x, k, c)
    ensures var a := RunEnd(x + y, r, k); a < |x| && (a == r || (x + y)[a] != c)
  {
    var s := x + y;
    var a := RunEnd(s, r, k);
    RunEndRun(s, r, k);
    assert s[|x| - 1] == x[|x| - 1];
    if a > r {
      assert s[a - 1] == x[a - 1] && s[a] == x[a];
    }
  }

  /** A word with none of its characters equal to the last character of the
      left piece, and whose characters `k` and `k + 1` never appear in a row in
      the piece, does not start inside the piece. */
  lemma {:induction false} WordNotIn(x: string, y: string, w: string, k: nat, r: nat)
    requires k + 1 < |w| && r < |x| && Lacks(w, x[|x| - 1]) && NoBigram(x, w[k], w[k + 1])
    ensures !OccursAt(x + y, w, r)
  {
    var s := x + y;
    if r + |w| <= |s| {
      if r + |w| >= |x| {
        WindowChar(s, w, r, |x| - 1);
      } else {
        WindowChar(s, w, r, r + k);
        WindowChar(s, w, r, r + k + 1);
      }
    }
  }

  /** The characters of an occurrence are those of the word. */
  lemma {:induction false} WindowChar(s: string, w: string, r: nat, j: nat)
    requires r <= j < r + |w| <= |s|
    ensures OccursAt(s, w, r) ==> s[j] == w[j - r]
  {
    assert s[r..r + |w|][j - r] == s[j];
  }

  /** A word whose first character the left piece lacks can only occur in
      the right piece. */
  lemma {:induction false} NotContainsAfter(x: string, y: string, w: string)
    requires w != [] && Lacks(x, w[0]) && !Contains(y, w)
    ensures !Contains(x + y, w)
  {
    var s := x + y;
    if i: nat :| i <= |s| && OccursAt(s, w, i) {
      WindowChar(s, w, i, i);
      if i < |x| {
        assert s[i] == x[i];
      } else {
        assert s[i..i + |w|] == y[i - |x|..i - |x| + |w|];
        assert OccursAt(y, w, i - |x|);
      }
    }
  }

  /** A line in which `w[k]` is never directly followed by `w[k + 1]` does
      not contain `w`. */
  lemma {:induction false} NoBigramNotContains(s: string, w: string, k: nat)
    requires k + 1 < |w| && NoBigram(s, w[k], w[k + 1])
    ensures !Contains(s, w)
  {
    if i: nat :| i <= |s| && OccursAt(s, w, i) {
      WindowChar(s, w, i, i + k);
      WindowChar(s, w, i, i + k + 1);
    }
  }

  /** A word with a space at `k` can only occur in `x + y`, where `y` has no
      white space, when its part up to that space occurs in `x`. */
  lemma {:induction false} SpaceBound(x: string, y: string, w: string, k: nat)
    requires k < |w| && w[k] == ' ' && forall j :: 0 <= j < |y| ==> !IsSpace(y[j])
    requires !Contains(x, w[..k + 1])
    ensures !Contains(x + y, w)
  {
    var s := x + y;
    if i: nat :| i <= |s| && OccursAt(s, w, i) {
      WindowChar(s, w, i, i + k);
      assert i + k < |x|;
      assert x[i..i + k + 1] == s[i..i + k + 1] == w[..k + 1];
      assert OccursAt(x, w[..k + 1], i);
    }
  }

  /** Two clean pieces joined by one space make a clean line. */
  lemma {:induction false} CanonicalSpaceJoin(x: string, y: string)
    requires Canonical(x) && Canonical(y) && x != [] && y != []
    ensures Canonical(x + " " + y)
  {
    var s := x + " " + y;
    forall i | 0 <= i < |s| ensures IsAscii(s[i]) && (IsSpace(s[i]) ==> s[i] == ' ') {
      if i < |x| {
        assert s[i] == x[i];
      } else if i > |x| {
        assert s[i] == y[i - |x| - 1];
      }
    }
    forall i | 0 <= i < |s| - 1 ensures !(IsSpace(s[i]) && IsSpace(s[i + 1])) {
      if i + 1 < |x| {
        assert s[i] == x[i] && s[i + 1] == x[i + 1];
      } else if i + 1 == |x| {
        assert s[i] == x[|x| - 1];
      } else if i == |x| {
        assert s[i + 1] == y[0];
      } else {
        assert s[i] == y[i - |x| - 1] && s[i + 1] == y[i - |x|];
      }
    }
    assert s[0] == x[0] && s[|s| - 1] == y[|y| - 1];
  }

  /** A space in front of an ASCII line that does not start with white
      space is cleaned away. */
  lemma {:induction false} CleanLeadingSpace(z: string)
    requires AllAscii(z) && z != [] && !IsSpace(z[0])
    ensures Clean(" " + z) == Clean(z)
  {
    var s := " " + z;
    assert AllAscii(s) by {
      forall i | 0 <= i < |s| ensures IsAscii(s[i]) {
        if i > 0 {
          assert s[i] == z[i - 1];
        }
      }
    }
    AsciiUnchanged(z);
    AsciiUnchanged(s);
    CollapseLeadingRun(" ", z);
    var u := Collapse(z);
    TrimStartAt(" " + u, 1);
    assert (" " + u)[1..] == u;
    TrimStartAt(u, 0);
  }
}
