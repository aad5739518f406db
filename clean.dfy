/** The cleaning step shared by `cleanPingOutput` and `cleanTracertOutput`
    (ping-server/server.js:162-166 and 218-222): the three replacement glyphs
    and then every non-ASCII character become spaces, each run of white space
    becomes one space, and the result is trimmed. */
module Cleaning {
  import opened Base
  import opened Text

  /** The characters of the class `[♦◊�]`. */
  predicate IsGlyph(c: char) {
    c == '\U{2666}' || c == '\U{25CA}' || c == '\U{FFFD}'
  }

  /** `.replace(/[♦◊�]/g, ' ')` */
  function ReplaceGlyphs(s: string): (r: string)
    ensures |r| == |s|
    ensures forall i :: 0 <= i < |r| ==> !IsGlyph(r[i])
    ensures forall i :: 0 <= i < |s| && !IsGlyph(s[i]) ==> r[i] == s[i]
  {
    seq(|s|, i requires 0 <= i < |s| => if IsGlyph(s[i]) then ' ' else s[i])
  }

  /** `.replace(/[^\x00-\x7F]/g, ' ')` */
  function ReplaceNonAscii(s: string): (r: string)
    ensures |r| == |s| && AllAscii(r)
    ensures forall i :: 0 <= i < |s| && IsAscii(s[i]) ==> r[i] == s[i]
  {
    seq(|s|, i requires 0 <= i < |s| => if IsAscii(s[i]) then s[i] else ' ')
  }

  /** The glyph replacement is subsumed by the non-ASCII replacement: all three
      glyphs lie outside ASCII. */
  lemma {:induction false} GlyphStepSubsumed(s: string)
    ensures ReplaceNonAscii(ReplaceGlyphs(s)) == ReplaceNonAscii(s)
  {
    var a, b := ReplaceNonAscii(ReplaceGlyphs(s)), ReplaceNonAscii(s);
    forall i | 0 <= i < |s| ensures a[i] == b[i] {
      if IsGlyph(s[i]) {
        assert !IsAscii(s[i]);
      }
    }
  }

  /** Only the plain space is left as white space, and never two in a row. */
  predicate SingleSpaced(s: string) {
    && (forall i :: 0 <= i < |s| && IsSpace(s[i]) ==> s[i] == ' ')
    && (forall i :: 0 <= i < |s| - 1 ==> !(IsSpace(s[i]) && IsSpace(s[i + 1])))
  }

  /** `.replace(/\s+/g, ' ')`: each maximal run of white space becomes one space. */
  function Collapse(s: string): (r: string)
    ensures |r| <= |s|
    ensures (r == []) == (s == [])
    ensures s != [] ==> (IsSpace(r[0]) <==> IsSpace(s[0]))
    ensures SingleSpaced(r)
    ensures AllAscii(s) ==> AllAscii(r)
    decreases |s|
  {
    if s == [] then []
    else if IsSpace(s[0]) then " " + Collapse(s[RunEnd(s, 0, Space)..])
    else [s[0]] + Collapse(s[1..])
  }

  /** A run of white space between two pieces that do not touch it with
      white space of their own becomes exactly one space: the pieces are
      collapsed on their own and joined by a single space. */
  lemma {:induction false} CollapseRun(x: string, w: string, y: string)
    requires x == [] || !IsSpace(x[|x| - 1])
    requires w != [] && forall i :: 0 <= i < |w| ==> IsSpace(w[i])
    requires y == [] || !IsSpace(y[0])
    ensures Collapse(x + w + y) == Collapse(x) + " " + Collapse(y)
    decreases |x|, 3
  {
    if x == [] {
      assert x + w + y == w + y;
      CollapseLeadingRun(w, y);
    } else {
      CollapseRunAfter(x, w, y);
    }
  }

  /** The inductive case of `CollapseRun`: the first step of the collapse of
      `x` is the first step of the collapse of the whole. */
  lemma {:induction false} CollapseRunAfter(x: string, w: string, y: string)
    requires x != [] && !IsSpace(x[|x| - 1])
    requires w != [] && forall i :: 0 <= i < |w| ==> IsSpace(w[i])
    requires y == [] || !IsSpace(y[0])
    ensures Collapse(x + w + y) == Collapse(x) + " " + Collapse(y)
    decreases |x|, 2
  {
    var e := CollapseRunParts(x, w, y);
    CollapseRunStep(x, e, w, y);
  }

  /** The three equations `CollapseRunStep` combines. */
  lemma {:induction false} CollapseRunParts(x: string, w: string, y: string) returns (e: nat)
    requires x != [] && !IsSpace(x[|x| - 1])
    requires w != [] && forall i :: 0 <= i < |w| ==> IsSpace(w[i])
    requires y == [] || !IsSpace(y[0])
    ensures 0 < e <= |x|
    ensures Collapse(x + (w + y)) == (if IsSpace(x[0]) then " " else [x[0]]) + Collapse(x[e..] + (w + y))
    ensures Collapse(x + []) == (if IsSpace(x[0]) then " " else [x[0]]) + Collapse(x[e..] + [])
    ensures Collapse(x[e..] + w + y) == Collapse(x[e..]) + " " + Collapse(y)
    decreases |x|, 1
  {
    e := if IsSpace(x[0]) then RunEnd(x, 0, Space) else 1;
    CollapseFront(x, w + y);
    CollapseFront(x, []);
    CollapseRunTail(x, e, w, y);
  }

  lemma {:induction false} CollapseRunTail(x: string, e: nat, w: string, y: string)
    requires 0 < e <= |x| && !IsSpace(x[|x| - 1])
    requires w != [] && forall i :: 0 <= i < |w| ==> IsSpace(w[i])
    requires y == [] || !IsSpace(y[0])
    ensures Collapse(x[e..] + w + y) == Collapse(x[e..]) + " " + Collapse(y)
    decreases |x|, 0
  {
    assert x[e..] == [] || x[e..][|x| - e - 1] == x[|x| - 1];
    CollapseRun(x[e..], w, y);
  }

  /** The equational step of `CollapseRun`. */
  lemma {:induction false} CollapseRunStep(x: string, e: nat, w: string, y: string)
    requires 0 < e <= |x|
    requires Collapse(x + (w + y)) == (if IsSpace(x[0]) then " " else [x[0]]) + Collapse(x[e..] + (w + y))
    requires Collapse(x + []) == (if IsSpace(x[0]) then " " else [x[0]]) + Collapse(x[e..] + [])
    requires Collapse(x[e..] + w + y) == Collapse(x[e..]) + " " + Collapse(y)
    ensures Collapse(x + w + y) == Collapse(x) + " " + Collapse(y)
  {
    var head: string := if IsSpace(x[0]) then " " else [x[0]];
    var rest, tail := Collapse(x[e..]), Collapse(y);
    AppendAssociates(x, w, y);
    AppendAssociates(x[e..], w, y);
    assert x + [] == x && x[e..] + [] == x[e..];
    AppendAssociates(head, rest + " ", tail);
    AppendAssociates(head, rest, " ");
  }

  /** A leading run of white space becomes one space. */
  lemma {:induction false} CollapseLeadingRun(w: string, y: string)
    requires w != [] && forall i :: 0 <= i < |w| ==> IsSpace(w[i])
    requires y == [] || !IsSpace(y[0])
    ensures Collapse(w + y) == " " + Collapse(y)
  {
    var s := w + y;
    RunEndUnique(s, 0, Space, |w|);
    assert s[|w|..] == y;
  }

  /** The first step of the collapse on a string that does not end in white
      space: its leading character, or its leading run of white space as one
      space. */
  lemma {:induction false} CollapseFront(x: string, t: string)
    requires x != [] && !IsSpace(x[|x| - 1])
    ensures var e := if IsSpace(x[0]) then RunEnd(x, 0, Space) else 1;
      && 0 < e <= |x|
      && Collapse(x + t) == (if IsSpace(x[0]) then " " else [x[0]]) + Collapse(x[e..] + t)
  {
    var s := x + t;
    assert s[0] == x[0];
    if IsSpace(x[0]) {
      var e := RunEnd(x, 0, Space);
      RunEndRun(x, 0, Space);
      RunEndUnique(s, 0, Space, e);
      assert s[e..] == x[e..] + t;
    } else {
      assert s[1..] == x[1..] + t;
    }
  }

  /** The shape every cleaned line has. */
  predicate Canonical(s: string) {
    && AllAscii(s)
    && SingleSpaced(s)
    && (s == [] || (!IsSpace(s[0]) && !IsSpace(s[|s| - 1])))
  }

  /** The whole cleaning pipeline. */
  function Clean(text: string): (r: string)
    ensures Canonical(r)
  {
    var collapsed := Collapse(ReplaceNonAscii(ReplaceGlyphs(text)));
    TrimCanonical(collapsed);
    Trim(collapsed)
  }

  /** Trimming an ASCII, single-spaced string makes it canonical. */
  lemma {:induction false} TrimCanonical(c: string)
    requires AllAscii(c) && SingleSpaced(c)
    ensures Canonical(Trim(c))
  {
    TrimIsSlice(c);
    var lo := |c| - |TrimStart(c)|;
    var r := Trim(c);
    forall j | 0 <= j < |r| ensures r[j] == c[lo + j] {
    }
    assert AllAscii(r);
    assert SingleSpaced(r);
  }

  /** A string already single-spaced is left alone by the collapse. */
  lemma {:induction false} CollapseOfSingleSpaced(s: string)
    requires SingleSpaced(s)
    ensures Collapse(s) == s
    decreases |s|
  {
    if s != [] {
      if IsSpace(s[0]) {
        RunEndUnique(s, 0, Space, 1);
      }
      assert SingleSpaced(s[1..]) by {
        forall i | 0 <= i < |s[1..]| - 1
          ensures !(IsSpace(s[1..][i]) && IsSpace(s[1..][i + 1]))
        {
          assert s[1..][i] == s[i + 1] && s[1..][i + 1] == s[i + 2];
        }
      }
      CollapseOfSingleSpaced(s[1..]);
      assert s == [s[0]] + s[1..];
    }
  }

  /** Cleaning leaves a canonical line unchanged. */
  lemma {:induction false} CleanOfCanonical(s: string)
    requires Canonical(s)
    ensures Clean(s) == s
  {
    assert ReplaceGlyphs(s) == s by {
      forall i | 0 <= i < |s| ensures !IsGlyph(s[i]) {
        assert IsAscii(s[i]);
      }
    }
    assert ReplaceNonAscii(s) == s;
    CollapseOfSingleSpaced(s);
    TrimOfTrimmed(s);
  }

  /** Cleaning a clean piece, white space and an ASCII piece without white
      space at either end gives the clean piece, one space and the cleaned
      second piece. */
  lemma {:induction false} CleanJoin(x: string, w: string, y: string)
    requires Canonical(x) && x != []
    requires w != [] && forall i :: 0 <= i < |w| ==> w[i] == ' '
    requires AllAscii(y) && y != [] && !IsSpace(y[0]) && !IsSpace(y[|y| - 1])
    ensures Clean(x + w + y) == x + " " + Clean(y)
  {
    var s := x + w + y;
    assert AllAscii(s);
    AsciiUnchanged(s);
    AsciiUnchanged(y);
    CollapseRun(x, w, y);
    CollapseOfSingleSpaced(x);
    CollapseLast(y);
    var z := x + " " + Collapse(y);
    assert z[0] == x[0] && z[|z| - 1] == Collapse(y)[|Collapse(y)| - 1];
    TrimOfTrimmed(z);
    TrimOfTrimmed(Collapse(y));
  }

  /** A string that ends in a character other than white space still does so
      once collapsed. */
  lemma {:induction false} CollapseLast(s: string)
    requires s != [] && !IsSpace(s[|s| - 1])
    ensures Collapse(s) != [] && !IsSpace(Collapse(s)[|Collapse(s)| - 1])
    decreases |s|
  {
    CollapseStep(s);
    if IsSpace(s[0]) {
      var e := RunEnd(s, 0, Space);
      RunEndRun(s, 0, Space);
      assert !InClass(s[|s| - 1], Space);
      assert e < |s|;
      var t := s[e..];
      assert t[|t| - 1] == s[|s| - 1];
      CollapseLast(t);
      var c := Collapse(t);
      assert (" " + c)[|" " + c| - 1] == c[|c| - 1];
    } else if |s| > 1 {
      var t := s[1..];
      assert t[|t| - 1] == s[|s| - 1];
      CollapseLast(t);
      var c := Collapse(t);
      assert ([s[0]] + c)[|[s[0]] + c| - 1] == c[|c| - 1];
    }
  }

  /** The two replacements leave an ASCII string alone. */
  lemma {:induction false} AsciiUnchanged(s: string)
    requires AllAscii(s)
    ensures ReplaceNonAscii(ReplaceGlyphs(s)) == s
  {
    assert ReplaceGlyphs(s) == s by {
      forall i | 0 <= i < |s| ensures !IsGlyph(s[i]) {
        assert IsAscii(s[i]);
      }
    }
  }

  /** Cleaning twice is cleaning once. */
  lemma {:induction false} CleanIdempotent(text: string)
    ensures Clean(Clean(text)) == Clean(text)
  {
    CleanOfCanonical(Clean(text));
  }

  // ---------------------------------------------------------------------------
  // Nothing but white space is lost

  /** The characters of `s` that are not white space, in order. */
  function Visible(s: string): (r: string)
    ensures |r| <= |s|
  {
    if s == [] then [] else (if IsSpace(s[0]) then [] else [s[0]]) + Visible(s[1..])
  }

  lemma {:induction false} VisibleAppend(s: string, t: string)
    ensures Visible(s + t) == Visible(s) + Visible(t)
    decreases |s|
  {
    if s != [] {
      var head: string := if IsSpace(s[0]) then [] else [s[0]];
      assert (s + t)[0] == s[0] && (s + t)[1..] == s[1..] + t;
      VisibleAppend(s[1..], t);
      calc {
        Visible(s + t);
        head + Visible(s[1..] + t);
        head + (Visible(s[1..]) + Visible(t));
        (head + Visible(s[1..])) + Visible(t);
      }
    } else {
      assert s + t == t;
    }
  }

  lemma {:induction false} VisibleOfSpaces(s: string)
    requires forall i :: 0 <= i < |s| ==> IsSpace(s[i])
    ensures Visible(s) == []
    decreases |s|
  {
    if s != [] {
      VisibleOfSpaces(s[1..]);
    }
  }

  /** Collapsing white space keeps every other character, in order. */
  lemma {:induction false} VisibleCollapse(s: string)
    ensures Visible(Collapse(s)) == Visible(s)
    decreases |s|
  {
    if s != [] {
      if IsSpace(s[0]) {
        var e := RunEnd(s, 0, Space);
        RunEndRun(s, 0, Space);
        VisibleCollapse(s[e..]);
        VisibleAppend(" ", Collapse(s[e..]));
        assert s == s[..e] + s[e..];
        VisibleAppend(s[..e], s[e..]);
        VisibleOfSpaces(s[..e]);
      } else {
        VisibleCollapse(s[1..]);
        VisibleAppend([s[0]], Collapse(s[1..]));
      }
    }
  }

  /** Trimming keeps every character that is not white space. */
  lemma {:induction false} VisibleTrim(s: string)
    ensures Visible(Trim(s)) == Visible(s)
  {
    TrimIsSlice(s);
    var lo := |s| - |TrimStart(s)|;
    var hi := lo + |Trim(s)|;
    var front, middle, back := s[..lo], s[lo..hi], s[hi..];
    assert s == front + middle + back;
    assert middle == Trim(s);
    forall i | 0 <= i < |front| ensures IsSpace(front[i]) {
      assert front[i] == s[i];
    }
    forall i | 0 <= i < |back| ensures IsSpace(back[i]) {
      assert back[i] == s[hi + i];
    }
    VisibleAppend(front + middle, back);
    VisibleAppend(front, middle);
    VisibleOfSpaces(front);
    VisibleOfSpaces(back);
  }

  /** A cleaned line holds exactly the ASCII characters of the raw line that
      are not white space, in their original order, and nothing else. */
  lemma {:induction false} CleanKeepsVisible(text: string)
    ensures Visible(Clean(text)) == Visible(ReplaceNonAscii(text))
  {
    var a := ReplaceNonAscii(ReplaceGlyphs(text));
    GlyphStepSubsumed(text);
    VisibleCollapse(a);
    VisibleTrim(Collapse(a));
  }

  // ---------------------------------------------------------------------------
  // Words survive

  /** No white space in `v[p..q]`. */
  predicate SpaceFree(v: string, p: nat, q: nat)
  {
    p <= q <= |v| && forall i :: p <= i < q ==> !IsSpace(v[i])
  }

  /** `v[p..q]` occurs in `u` at `k`, and where `u` goes on after it with a
      character that is not white space, `v` goes on with the same one. */
  predicate WordAt(u: string, k: nat, v: string, p: nat, q: nat)
  {
    p <= q <= |v| && k + (q - p) <= |u| && u[k..k + (q - p)] == v[p..q]
    && (k + (q - p) < |u| && !IsSpace(u[k + (q - p)]) ==> q < |v| && v[q] == u[k + (q - p)])
  }

  /** A word of the collapsed string, one without white space, is a word of
      the original; where the original goes on with a character that is not
      white space, the collapsed string goes on with the same character. */
  lemma {:induction false} CollapseWord(u: string, p: nat, q: nat) returns (k: nat)
    requires p < q && SpaceFree(Collapse(u), p, q)
    ensures WordAt(u, k, Collapse(u), p, q)
    ensures p == 0 ==> k == 0
    decreases |u|, 2
  {
    CollapseStep(u);
    if IsSpace(u[0]) {
      var e := RunEnd(u, 0, Space);
      k := CollapseWordAfterSpace(u, Collapse(u), e, Collapse(u[e..]), p, q);
    } else {
      k := CollapseWordAfterChar(u, Collapse(u), Collapse(u[1..]), p, q);
    }
  }

  /** `CollapseWord` where `u` starts with white space, which collapses to the
      single space in front of `w`. */
  lemma {:induction false} CollapseWordAfterSpace(u: string, v: string, e: nat, w: string, p: nat, q: nat) returns (k: nat)
    requires 0 < e <= |u| && v == " " + w && w == Collapse(u[e..])
    requires p < q && SpaceFree(v, p, q)
    ensures WordAt(u, k, v, p, q) && p > 0
    decreases |u|, 1
  {
    CollapseWordTail(v, w, p, q);
    var j := CollapseWord(u[e..], p - 1, q - 1);
    k := e + j;
    CollapseWordShift(u, v, w, e, j, p, q);
  }

  /** `CollapseWord` where `u` starts with a character that is not white
      space, which stays in front of `w`. */
  lemma {:induction false} CollapseWordAfterChar(u: string, v: string, w: string, p: nat, q: nat) returns (k: nat)
    requires u != [] && !IsSpace(u[0]) && v == [u[0]] + w && w == Collapse(u[1..])
    requires p < q && SpaceFree(v, p, q)
    ensures WordAt(u, k, v, p, q)
    ensures p == 0 ==> k == 0
    decreases |u|, 1
  {
    if p > 0 {
      CollapseWordTail(v, w, p, q);
      var j := CollapseWord(u[1..], p - 1, q - 1);
      k := 1 + j;
      CollapseWordShift(u, v, w, 1, j, p, q);
    } else {
      k := 0;
      CollapseWordFront(u, v, w, q);
    }
  }

  /** A word at the very start of the collapsed string starts the original. */
  lemma {:induction false} CollapseWordFront(u: string, v: string, w: string, q: nat)
    requires u != [] && !IsSpace(u[0]) && v == [u[0]] + w && w == Collapse(u[1..])
    requires 0 < q && SpaceFree(v, 0, q)
    ensures WordAt(u, 0, v, 0, q)
    decreases |u|, 0
  {
    if q == 1 {
      CollapseWordSingle(u, v, w);
    } else {
      CollapseWordTail(v, w, 1, q);
      var j := CollapseWord(u[1..], 0, q - 1);
      CollapseWordShift(u, v, w, 1, 0, 1, q);
      CollapseWordJoin(u, v, q);
    }
  }

  /** The first character alone, when `v` starts with it and goes on as `w`. */
  lemma {:induction false} CollapseWordSingle(u: string, v: string, w: string)
    requires u != [] && !IsSpace(u[0]) && v == [u[0]] + w && w == Collapse(u[1..])
    ensures WordAt(u, 0, v, 0, 1)
  {
    if 1 < |u| && !IsSpace(u[1]) {
      CollapseHead(u[1..]);
    }
    assert u[0..1] == [u[0]] == v[0..1];
  }

  /** The first character followed by the word from index 1. */
  lemma {:induction false} CollapseWordJoin(u: string, v: string, q: nat)
    requires 1 < q && u != [] && v != [] && v[0] == u[0] && WordAt(u, 1, v, 1, q)
    ensures WordAt(u, 0, v, 0, q)
  {
    assert u[0..q] == [u[0]] + u[1..q];
    assert v[0..q] == [v[0]] + v[1..q];
  }

  /** A word of `v` after its first character is a word of the rest. */
  lemma {:induction false} CollapseWordTail(v: string, w: string, p: nat, q: nat)
    requires p < q && SpaceFree(v, p, q) && v != [] && v == v[..1] + w
    requires v[0] == ' ' || p > 0
    ensures 0 < p && SpaceFree(w, p - 1, q - 1)
  {
    assert p > 0;
    forall i | p - 1 <= i < q - 1 ensures !IsSpace(w[i]) {
      assert w[i] == v[i + 1];
    }
  }

  /** The step of `CollapseWord` past the first `e` characters of `u`, which
      collapse to the first character of `v`; the rest collapses to `w`. */
  lemma {:induction false} CollapseWordShift(u: string, v: string, w: string, e: nat, j: nat, p: nat, q: nat)
    requires 0 < e <= |u| && 0 < p < q <= |v| && v == v[..1] + w
    requires WordAt(u[e..], j, w, p - 1, q - 1)
    ensures WordAt(u, e + j, v, p, q)
  {
    assert u[e + j..e + j + (q - p)] == u[e..][j..j + (q - p)];
    assert v[p..q] == w[p - 1..q - 1];
  }

  /** One step of the collapse. */
  lemma {:induction false} CollapseStep(u: string)
    requires u != []
    ensures IsSpace(u[0]) ==> Collapse(u) == " " + Collapse(u[RunEnd(u, 0, Space)..])
    ensures !IsSpace(u[0]) ==> Collapse(u) == [u[0]] + Collapse(u[1..])
  {
  }

  /** A string that does not start with white space keeps its first
      character. */
  lemma {:induction false} CollapseHead(s: string)
    requires s != [] && !IsSpace(s[0])
    ensures Collapse(s)[0] == s[0]
  {
    assert Collapse(s) == [s[0]] + Collapse(s[1..]);
  }

  /** A word of the trimmed string is a word of the original. */
  lemma {:induction false} TrimWord(s: string, p: nat, q: nat) returns (m: nat)
    requires p < q && SpaceFree(Trim(s), p, q)
    ensures WordAt(s, m, Trim(s), p, q) && SpaceFree(s, m, m + (q - p))
  {
    TrimIsSlice(s);
    var lo := |s| - |TrimStart(s)|;
    var t := Trim(s);
    m := lo + p;
    assert s[m..m + (q - p)] == t[p..q] by {
      forall i | 0 <= i < q - p ensures s[m..m + (q - p)][i] == t[p..q][i] {
        assert t[p + i] == s[m + i];
      }
    }
    forall i | m <= i < m + (q - p) ensures !IsSpace(s[i]) {
      assert s[i] == t[i - lo];
    }
    if m + (q - p) < |s| && !IsSpace(s[m + (q - p)]) {
      assert q < |t|;
      assert t[q] == s[lo + q];
    }
  }

  /** Words found at two levels compose. */
  lemma {:induction false} WordAtCompose(a: string, k: nat, b: string, m: nat, c: string, p: nat, q: nat)
    requires WordAt(b, m, c, p, q) && WordAt(a, k, b, m, m + (q - p))
    ensures WordAt(a, k, c, p, q)
  {
  }

  /** `c[p..q]` occurs in `text` at `k`, and where `text` goes on after it
      with an ASCII character that is not white space, `c` goes on with the
      same one. */
  predicate WordOfText(text: string, k: nat, c: string, p: nat, q: nat) {
    && p <= q <= |c| && k + (q - p) <= |text| && text[k..k + (q - p)] == c[p..q]
    && (k + (q - p) < |text| && IsAscii(text[k + (q - p)]) && !IsSpace(text[k + (q - p)])
      ==> q < |c| && c[q] == text[k + (q - p)])
  }

  /** A word that survives the non-ASCII replacement was ASCII all along. */
  lemma {:induction false} AsciiWord(text: string, k: nat, c: string, p: nat, q: nat)
    requires WordAt(ReplaceNonAscii(text), k, c, p, q) && SpaceFree(c, p, q)
    ensures WordOfText(text, k, c, p, q)
  {
    var a := ReplaceNonAscii(text);
    forall i | k <= i < k + (q - p) ensures text[i] == a[i] {
      assert a[i] == c[p + (i - k)];
    }
    assert text[k..k + (q - p)] == a[k..k + (q - p)];
  }

  /** A word of the cleaned text, a stretch without white space, occurs in
      the text itself; where the text goes on after it with an ASCII
      character that is not white space, the cleaned text goes on with the
      same character. */
  lemma {:induction false} CleanWord(text: string, p: nat, q: nat) returns (k: nat)
    requires p < q && SpaceFree(Clean(text), p, q)
    ensures WordOfText(text, k, Clean(text), p, q)
  {
    GlyphStepSubsumed(text);
    k := CleanWordParts(text, ReplaceNonAscii(text), Collapse(ReplaceNonAscii(text)), Clean(text), p, q);
  }

  lemma {:induction false} CleanWordParts(text: string, a: string, b: string, c: string, p: nat, q: nat) returns (k: nat)
    requires a == ReplaceNonAscii(text) && b == Collapse(a) && c == Trim(b)
    requires p < q && SpaceFree(c, p, q)
    ensures WordOfText(text, k, c, p, q)
  {
    var m := TrimWord(b, p, q);
    k := CollapseWord(a, m, m + (q - p));
    WordAtCompose(a, k, b, m, c, p, q);
    AsciiWord(text, k, c, p, q);
  }
}
