/** What each regular expression of `Patterns` matches, stated without the
    matchers: `XAt(s, p)` succeeds with end `e` and captures `g` exactly when
    `s[p..e]` is a text of the regular expression with those captures and,
    where the expression ends in a greedy run, that run cannot be extended.
    The `==>` half of each `AtIff` lemma says the matcher is sound, the `<==`
    half that it finds every match and captures the longest runs. */
module Matches {
  import opened Base
  import opened Text
  import opened Patterns

  // ---------------------------------------------------------------------------
  // Words separated by optional white space

  /** `t` is the words `ws`, each after the first preceded by optional white
      space: the text of `w0\s*w1\s*…\s*wn`. */
  predicate Spaced(t: string, ws: seq<string>)
    decreases |ws|
  {
    if |ws| == 0 then t == []
    else if |ws| == 1 then t == ws[0]
    else OccursAt(t, ws[0], 0) && Spaced(TrimStart(t[|ws[0]|..]), ws[1..])
  }

  /** `Spaced`, read at positions of a larger string `s`. */
  predicate SpacedAt(s: string, i: nat, e: nat, ws: seq<string>)
    requires i <= e <= |s|
    decreases |ws|
  {
    if |ws| == 0 then i == e
    else if |ws| == 1 then e == i + |ws[0]| && OccursAt(s, ws[0], i)
    else
      && i + |ws[0]| <= e && OccursAt(s, ws[0], i)
      && var j := RunEnd(s, i + |ws[0]|, Space); j <= e && SpacedAt(s, j, e, ws[1..])
  }

  /** Words after the first are nonempty and do not start with white space. */
  predicate Words(ws: seq<string>) {
    forall k :: 1 <= k < |ws| ==> ws[k] != [] && !IsSpace(ws[k][0])
  }

  lemma {:induction false} SpacedIff(s: string, i: nat, e: nat, ws: seq<string>)
    requires i <= e <= |s| && Words(ws)
    ensures Spaced(s[i..e], ws) <==> SpacedAt(s, i, e, ws)
    decreases |ws|
  {
    if |ws| >= 2 {
      var t := s[i..e];
      var a := i + |ws[0]|;
      if a <= e {
        assert t[|ws[0]|..] == s[a..e];
        OccursInSlice(s, i, e, ws[0], 0);
        var j := RunEnd(s, a, Space);
        TrimStartOfSlice(s, a, e);
        assert Words(ws[1..]) by {
          forall k | 1 <= k < |ws[1..]| ensures ws[1..][k] != [] && !IsSpace(ws[1..][k][0]) {
            assert ws[1..][k] == ws[k + 1];
          }
        }
        if j <= e {
          SpacedIff(s, j, e, ws[1..]);
        } else {
          assert TrimStart(t[|ws[0]|..]) == [];
          assert ws[1..][0] == ws[1] != [];
        }
      }
    }
  }

  /** Trimming the start of a slice of `s` skips the run of white space of `s`,
      up to the end of the slice. */
  lemma {:induction false} TrimStartOfSlice(s: string, a: nat, e: nat)
    requires a <= e <= |s|
    ensures var j := RunEnd(s, a, Space);
      TrimStart(s[a..e]) == if j <= e then s[j..e] else []
  {
    var j := RunEnd(s, a, Space);
    RunEndRun(s, a, Space);
    var k := if j <= e then j else e;
    var u := s[a..e];
    forall x | 0 <= x < k - a ensures IsSpace(u[x]) {
      assert u[x] == s[a + x];
    }
    if k < e {
      assert u[k - a] == s[k];
    }
    TrimStartAt(u, k - a);
    assert u[k - a..] == s[k..e];
  }

  /** A run of class `k` sitting at `lo` and stopped by a character outside it. */
  lemma {:induction false} RunOf(s: string, lo: nat, x: string, k: CharClass)
    requires OccursAt(s, x, lo) && forall i :: 0 <= i < |x| ==> InClass(x[i], k)
    requires lo + |x| == |s| || !InClass(s[lo + |x|], k)
    ensures RunEnd(s, lo, k) == lo + |x| && s[lo..lo + |x|] == x
  {
    forall j | lo <= j < lo + |x| ensures InClass(s[j], k) {
      assert s[j] == s[lo..lo + |x|][j - lo];
    }
    RunEndUnique(s, lo, k, lo + |x|);
  }

  /** The two words of a `SpacedAt` of two words, by position: returns where
      the second starts. */
  lemma {:induction false} SpacedTwo(s: string, i: nat, e: nat, w0: string, w1: string) returns (w: nat)
    requires i <= e <= |s| && SpacedAt(s, i, e, [w0, w1])
    ensures i + |w0| <= w && w + |w1| == e && w == RunEnd(s, i + |w0|, Space)
    ensures OccursAt(s, w0, i) && OccursAt(s, w1, w)
  {
    assert [w0, w1][1..] == [w1];
    w := RunEnd(s, i + |w0|, Space);
  }

  /** A run `x` of class `k` at `lo`, followed by white space and then by a
      word starting with `c` outside `k`, is the whole run of `k` at `lo`. */
  lemma {:induction false} RunBeforeWord(s: string, lo: nat, x: string, w: nat, c: char, k: CharClass)
    requires OccursAt(s, x, lo) && Captured(x, k) && lo + |x| <= w < |s|
    requires w == RunEnd(s, lo + |x|, Space) && s[w] == c && !InClass(c, k)
    requires k == Digit || k == DigitOrDot
    ensures RunEnd(s, lo, k) == lo + |x| && s[lo..lo + |x|] == x
  {
    var a := lo + |x|;
    if a < w {
      assert IsSpace(s[a]);
      SpaceIsNoDigit(s[a]);
    }
    assert s[a] == c || IsSpace(s[a]);
    RunOf(s, lo, x, k);
  }

  /** The first character of an occurrence. */
  lemma {:induction false} OccursFirst(s: string, w: string, i: nat)
    requires OccursAt(s, w, i) && w != []
    ensures s[i] == w[0]
  {
    assert s[i] == s[i..i + |w|][0];
  }

  lemma {:induction false} SpaceIsNoDigit(c: char)
    ensures IsSpace(c) ==> !IsDigit(c) && c != '.'
  {
  }

  // ---------------------------------------------------------------------------
  // /time=([0-9.]+)\s*ms/

  /** `time=`, the digits and dots `g`, optional white space, `ms`. */
  predicate ReplyTimeText(t: string, g: string) {
    Captured(g, DigitOrDot) && Spaced(t, ["time=" + g, "ms"])
  }

  lemma {:induction false} ReplyTimeAtIff(s: string, p: nat, e: nat, g: string)
    requires p <= e <= |s|
    ensures ReplyTimeAt(s, p) == Some(Match(p, e, [g])) <==> ReplyTimeText(s[p..e], g)
  {
    var ws := ["time=" + g, "ms"];
    assert Words(ws) && ws[1..] == ["ms"];
    SpacedIff(s, p, e, ws);
    if ReplyTimeAt(s, p) == Some(Match(p, e, [g])) {
      ReplyTimeSound(s, p, e, g);
    }
    if ReplyTimeText(s[p..e], g) {
      ReplyTimeComplete(s, p, e, g);
    }
  }

  lemma {:induction false} ReplyTimeSound(s: string, p: nat, e: nat, g: string)
    requires p <= e <= |s| && ReplyTimeAt(s, p) == Some(Match(p, e, [g]))
    ensures Captured(g, DigitOrDot) && SpacedAt(s, p, e, ["time=" + g, "ms"])
  {
    var a := RunEnd(s, p + 5, DigitOrDot);
    assert OccursAt(s, "time=", p) && g == s[p + 5..a];
    OccursAtSplit(s, "time=", g, p);
    assert ["time=" + g, "ms"][1..] == ["ms"];
  }

  lemma {:induction false} ReplyTimeComplete(s: string, p: nat, e: nat, g: string)
    requires p <= e <= |s| && Captured(g, DigitOrDot) && SpacedAt(s, p, e, ["time=" + g, "ms"])
    ensures ReplyTimeAt(s, p) == Some(Match(p, e, [g]))
  {
    var w := SpacedTwo(s, p, e, "time=" + g, "ms");
    OccursAtSplit(s, "time=", g, p);
    var a := p + 5 + |g|;
    OccursFirst(s, "ms", w);
    RunBeforeWord(s, p + 5, g, w, 'm', DigitOrDot);
    ReplyTimeAtRuns(s, p, a, w, g);
  }

  lemma {:induction false} ReplyTimeAtRuns(s: string, p: nat, a: nat, w: nat, g: string)
    requires p + 5 <= a <= w && w + 2 <= |s| && OccursAt(s, "time=", p) && OccursAt(s, "ms", w)
    requires RunEnd(s, p + 5, DigitOrDot) == a && RunEnd(s, a, Space) == w && s[p + 5..a] == g && g != []
    ensures ReplyTimeAt(s, p) == Some(Match(p, w + 2, [g]))
  {
  }

  // ---------------------------------------------------------------------------
  // /(\d+)\s*received/

  /** The digits `g`, optional white space, `received`. */
  predicate ReceivedText(t: string, g: string) {
    Captured(g, Digit) && Spaced(t, [g, "received"])
  }

  lemma {:induction false} ReceivedAtIff(s: string, p: nat, e: nat, g: string)
    requires p <= e <= |s|
    ensures ReceivedAt(s, p) == Some(Match(p, e, [g])) <==> ReceivedText(s[p..e], g)
  {
    var ws := [g, "received"];
    assert Words(ws) && ws[1..] == ["received"];
    SpacedIff(s, p, e, ws);
    if ReceivedAt(s, p) == Some(Match(p, e, [g])) {
      ReceivedSound(s, p, e, g);
    }
    if ReceivedText(s[p..e], g) {
      ReceivedComplete(s, p, e, g);
    }
  }

  lemma {:induction false} ReceivedSound(s: string, p: nat, e: nat, g: string)
    requires p <= e <= |s| && ReceivedAt(s, p) == Some(Match(p, e, [g]))
    ensures Captured(g, Digit) && SpacedAt(s, p, e, [g, "received"])
  {
    var a := RunEnd(s, p, Digit);
    assert g == s[p..a];
    assert [g, "received"][1..] == ["received"];
  }

  lemma {:induction false} ReceivedComplete(s: string, p: nat, e: nat, g: string)
    requires p <= e <= |s| && Captured(g, Digit) && SpacedAt(s, p, e, [g, "received"])
    ensures ReceivedAt(s, p) == Some(Match(p, e, [g]))
  {
    var w := SpacedTwo(s, p, e, g, "received");
    OccursFirst(s, "received", w);
    RunBeforeWord(s, p, g, w, 'r', Digit);
    ReceivedAtRuns(s, p, p + |g|, w, g);
  }

  lemma {:induction false} ReceivedAtRuns(s: string, p: nat, a: nat, w: nat, g: string)
    requires p < a <= w && w + 8 <= |s| && OccursAt(s, "received", w)
    requires RunEnd(s, p, Digit) == a && RunEnd(s, a, Space) == w && s[p..a] == g
    ensures ReceivedAt(s, p) == Some(Match(p, w + 8, [g]))
  {
  }

  // ---------------------------------------------------------------------------
  // /([0-9.]+)\s*ms/

  /** The digits and dots `g`, optional white space, `ms`. */
  predicate TimeMsText(t: string, g: string) {
    Captured(g, DigitOrDot) && Spaced(t, [g, "ms"])
  }

  lemma {:induction false} TimeMsAtIff(s: string, p: nat, e: nat, g: string)
    requires p <= e <= |s|
    ensures TimeMsAt(s, p) == Some(Match(p, e, [g])) <==> TimeMsText(s[p..e], g)
  {
    var ws := [g, "ms"];
    assert Words(ws) && ws[1..] == ["ms"];
    SpacedIff(s, p, e, ws);
    if TimeMsAt(s, p) == Some(Match(p, e, [g])) {
      TimeMsSound(s, p, e, g);
    }
    if TimeMsText(s[p..e], g) {
      TimeMsComplete(s, p, e, g);
    }
  }

  lemma {:induction false} TimeMsSound(s: string, p: nat, e: nat, g: string)
    requires p <= e <= |s| && TimeMsAt(s, p) == Some(Match(p, e, [g]))
    ensures Captured(g, DigitOrDot) && SpacedAt(s, p, e, [g, "ms"])
  {
    var a := RunEnd(s, p, DigitOrDot);
    assert g == s[p..a];
    assert [g, "ms"][1..] == ["ms"];
  }

  lemma {:induction false} TimeMsComplete(s: string, p: nat, e: nat, g: string)
    requires p <= e <= |s| && Captured(g, DigitOrDot) && SpacedAt(s, p, e, [g, "ms"])
    ensures TimeMsAt(s, p) == Some(Match(p, e, [g]))
  {
    var w := SpacedTwo(s, p, e, g, "ms");
    OccursFirst(s, "ms", w);
    RunBeforeWord(s, p, g, w, 'm', DigitOrDot);
    TimeMsAtRuns(s, p, p + |g|, w, g);
  }

  lemma {:induction false} TimeMsAtRuns(s: string, p: nat, a: nat, w: nat, g: string)
    requires p < a <= w && w + 2 <= |s| && OccursAt(s, "ms", w)
    requires RunEnd(s, p, DigitOrDot) == a && RunEnd(s, a, Space) == w && s[p..a] == g
    ensures TimeMsAt(s, p) == Some(Match(p, w + 2, [g]))
  {
  }

  /** The three words of a `SpacedAt` of three words, by position: returns
      where the second and the third start. */
  lemma {:induction false} SpacedThree(s: string, i: nat, e: nat, w0: string, w1: string, w2: string) returns (w: nat, z: nat)
    requires i <= e <= |s| && SpacedAt(s, i, e, [w0, w1, w2])
    ensures i + |w0| <= w && w + |w1| <= z && z + |w2| == e
    ensures w == RunEnd(s, i + |w0|, Space) && z == RunEnd(s, w + |w1|, Space)
    ensures OccursAt(s, w0, i) && OccursAt(s, w1, w) && OccursAt(s, w2, z)
  {
    assert [w0, w1, w2][1..] == [w1, w2];
    w := RunEnd(s, i + |w0|, Space);
    z := SpacedTwo(s, w, e, w1, w2);
  }

  /** Builds a `SpacedAt` of two words from positions. */
  lemma {:induction false} SpacedTwoOf(s: string, i: nat, e: nat, w0: string, w1: string, w: nat)
    requires i + |w0| <= w && w + |w1| == e <= |s| && w == RunEnd(s, i + |w0|, Space)
    requires OccursAt(s, w0, i) && OccursAt(s, w1, w)
    ensures SpacedAt(s, i, e, [w0, w1])
  {
    assert [w0, w1][1..] == [w1];
  }

  /** Builds a `SpacedAt` of three words from positions. */
  lemma {:induction false} SpacedThreeOf(s: string, i: nat, e: nat, w0: string, w1: string, w2: string, w: nat, z: nat)
    requires i + |w0| <= w && w + |w1| <= z && z + |w2| == e <= |s|
    requires w == RunEnd(s, i + |w0|, Space) && z == RunEnd(s, w + |w1|, Space)
    requires OccursAt(s, w0, i) && OccursAt(s, w1, w) && OccursAt(s, w2, z)
    ensures SpacedAt(s, i, e, [w0, w1, w2])
  {
    SpacedTwoOf(s, w, e, w1, w2, z);
    assert [w0, w1, w2][1..] == [w1, w2];
  }

  /** `\s*word` from `i` ends after the word that follows the run of white
      space. */
  lemma {:induction false} SpaceThenAt(s: string, i: nat, word: string, w: nat)
    requires i <= w && w + |word| <= |s| && RunEnd(s, i, Space) == w && OccursAt(s, word, w)
    ensures SpaceThen(s, i, word) == Some(w + |word|)
    decreases |s| - i
  {
    if i < w {
      SpaceThenAt(s, i + 1, word, w);
    }
  }

  /** `\s*word` succeeds exactly when `word` follows the run of white space. */
  lemma {:induction false} SpaceThenFound(s: string, i: nat, word: string)
    requires i <= |s|
    ensures var w := RunEnd(s, i, Space);
      SpaceThen(s, i, word) == if OccursAt(s, word, w) then Some(w + |word|) else None
    decreases |s| - i
  {
    if i < |s| && IsSpace(s[i]) {
      SpaceThenFound(s, i + 1, word);
    }
  }

  /** Three spaced words read as two `\s*word` steps after the first word:
      returns where the second word starts and where it ends. */
  lemma {:induction false} SpacedThenWords(s: string, p: nat, e: nat, f: string, u: string, v: string) returns (w: nat, x: nat)
    requires p <= e <= |s| && SpacedAt(s, p, e, [f, u, v]) && v != []
    ensures OccursAt(s, f, p) && p + |f| <= w && x == w + |u| <= e
    ensures w == RunEnd(s, p + |f|, Space) && OccursAt(s, u, w)
    ensures SpaceThen(s, p + |f|, u) == Some(x) && SpaceThen(s, x, v) == Some(e)
    ensures x < |s| && (IsSpace(s[x]) || s[x] == v[0])
  {
    var z;
    w, z := SpacedThree(s, p, e, f, u, v);
    x := w + |u|;
    SpaceThenAt(s, p + |f|, u, w);
    SpaceThenAt(s, x, v, z);
    SpacesBefore(s, x, z);
    OccursFirst(s, v, z);
  }

  /** Two `\s*word` steps after the run `s[p..a]` give three spaced words. */
  lemma {:induction false} SpacedOfThen(s: string, p: nat, a: nat, u: string, x: nat, v: string, e: nat)
    requires p <= a <= |s| && SpaceThen(s, a, u) == Some(x) && x <= |s| && SpaceThen(s, x, v) == Some(e)
    ensures p <= e <= |s| && SpacedAt(s, p, e, [s[p..a], u, v])
  {
    var w := SpaceThenWord(s, a, u, x);
    var z := SpaceThenWord(s, x, v, e);
    var f := s[p..a];
    assert p + |f| == a && OccursAt(s, f, p);
    SpacedThreeOf(s, p, e, f, u, v, w, z);
  }

  /** Where the word of a successful `\s*word` starts. */
  lemma {:induction false} SpaceThenWord(s: string, i: nat, u: string, x: nat) returns (w: nat)
    requires i <= |s| && SpaceThen(s, i, u) == Some(x)
    ensures w == RunEnd(s, i, Space) && OccursAt(s, u, w) && x == w + |u| && i <= w
  {
    SpaceThenFound(s, i, u);
    w := RunEnd(s, i, Space);
  }

  /** `\s*word` followed by the character `c` is `\s*` followed by the word
      `word + [c]`. */
  lemma {:induction false} SpaceThenLonger(s: string, i: nat, word: string, c: char, x: nat)
    requires i <= |s| && SpaceThen(s, i, word) == Some(x) && x < |s| && s[x] == c
    ensures SpaceThen(s, i, word + [c]) == Some(x + 1)
  {
    SpaceThenFound(s, i, word);
    SpaceThenFound(s, i, word + [c]);
    var w := RunEnd(s, i, Space);
    assert s[x..x + 1] == [c];
    OccursAtSplit(s, word, [c], w);
  }

  /** The converse of `SpaceThenLonger`. */
  lemma {:induction false} SpaceThenShorter(s: string, i: nat, word: string, c: char, long: string, x: nat)
    requires i <= |s| && long == word + [c] && SpaceThen(s, i, long) == Some(x)
    ensures 0 < x <= |s| && SpaceThen(s, i, word) == Some(x - 1) && s[x - 1] == c
  {
    SpaceThenFound(s, i, word);
    SpaceThenFound(s, i, word + [c]);
    var w := RunEnd(s, i, Space);
    OccursAtSplit(s, word, [c], w);
    OccursFirst(s, [c], x - 1);
  }

  // ---------------------------------------------------------------------------
  // /(\d+)\s*packets?\s*transmitted/

  /** The digits `g`, optional white space, `packet` or `packets`, optional
      white space, `transmitted`. */
  predicate SentText(t: string, g: string) {
    && Captured(g, Digit)
    && (Spaced(t, [g, "packet", "transmitted"]) || Spaced(t, [g, "packets", "transmitted"]))
  }

  lemma {:induction false} SentAtIff(s: string, p: nat, e: nat, g: string)
    requires p <= e <= |s|
    ensures SentAt(s, p) == Some(Match(p, e, [g])) <==> SentText(s[p..e], g)
  {
    SentTextAt(s, p, e, g);
    if SentAt(s, p) == Some(Match(p, e, [g])) {
      SentSound(s, p, e, g);
    }
    if SentText(s[p..e], g) {
      SentComplete(s, p, e, g);
    }
  }

  lemma {:induction false} SentTextAt(s: string, p: nat, e: nat, g: string)
    requires p <= e <= |s|
    ensures SentText(s[p..e], g) <==>
      Captured(g, Digit) && (SpacedAt(s, p, e, [g, "packet", "transmitted"]) || SpacedAt(s, p, e, [g, "packets", "transmitted"]))
  {
    var ws1, ws2 := [g, "packet", "transmitted"], [g, "packets", "transmitted"];
    assert Words(ws1) && Words(ws2);
    SpacedIff(s, p, e, ws1);
    SpacedIff(s, p, e, ws2);
  }

  lemma {:induction false} SentComplete(s: string, p: nat, e: nat, g: string)
    requires p <= e <= |s| && Captured(g, Digit)
    requires SpacedAt(s, p, e, [g, "packet", "transmitted"]) || SpacedAt(s, p, e, [g, "packets", "transmitted"])
    ensures SentAt(s, p) == Some(Match(p, e, [g]))
  {
    if SpacedAt(s, p, e, [g, "packet", "transmitted"]) {
      SentCompleteSingular(s, p, e, g);
    } else {
      SentCompletePlural(s, p, e, g);
    }
  }

  lemma {:induction false} SentCompleteSingular(s: string, p: nat, e: nat, g: string)
    requires p <= e <= |s| && Captured(g, Digit) && SpacedAt(s, p, e, [g, "packet", "transmitted"])
    ensures SentAt(s, p) == Some(Match(p, e, [g]))
  {
    var x := SpacedDigitsThen(s, p, e, g, "packet", "transmitted");
    assert s[x] != 's';
    SentAtRuns(s, p, p + |g|, x, x, e, g);
  }

  lemma {:induction false} SentCompletePlural(s: string, p: nat, e: nat, g: string)
    requires p <= e <= |s| && Captured(g, Digit) && SpacedAt(s, p, e, [g, "packets", "transmitted"])
    ensures SentAt(s, p) == Some(Match(p, e, [g]))
  {
    var x := SpacedDigitsThen(s, p, e, g, "packets", "transmitted");
    SentAtPluralRuns(s, p, p + |g|, x, e, g);
  }

  lemma {:induction false} SentAtPluralRuns(s: string, p: nat, a: nat, x: nat, e: nat, g: string)
    requires p < a <= |s| && RunEnd(s, p, Digit) == a && s[p..a] == g
    requires SpaceThen(s, a, "packets") == Some(x) && x <= |s| && SpaceThen(s, x, "transmitted") == Some(e)
    ensures SentAt(s, p) == Some(Match(p, e, [g]))
  {
    SpaceThenShorter(s, a, "packet", 's', "packets", x);
    SentAtRuns(s, p, a, x - 1, x, e, g);
  }

  /** Digits and two spaced words, read as the run of digits and two
      `\s*word` steps. */
  lemma {:induction false} SpacedDigitsThen(s: string, p: nat, e: nat, g: string, u: string, v: string) returns (x: nat)
    requires p <= e <= |s| && Captured(g, Digit) && SpacedAt(s, p, e, [g, u, v])
    requires u != [] && !IsDigit(u[0]) && v != []
    ensures RunEnd(s, p, Digit) == p + |g| && s[p..p + |g|] == g
    ensures SpaceThen(s, p + |g|, u) == Some(x) && x <= e && SpaceThen(s, x, v) == Some(e)
    ensures x < |s| && (IsSpace(s[x]) || s[x] == v[0])
  {
    var w;
    w, x := SpacedThenWords(s, p, e, g, u, v);
    OccursFirst(s, u, w);
    RunBeforeWord(s, p, g, w, u[0], Digit);
  }

  lemma {:induction false} SentSound(s: string, p: nat, e: nat, g: string)
    requires p <= e <= |s| && SentAt(s, p) == Some(Match(p, e, [g]))
    ensures Captured(g, Digit)
    ensures SpacedAt(s, p, e, [g, "packet", "transmitted"]) || SpacedAt(s, p, e, [g, "packets", "transmitted"])
  {
    var a := RunEnd(s, p, Digit);
    SentAtFound(s, p);
    var x := SpaceThen(s, a, "packet").value;
    if x < |s| && s[x] == 's' {
      SpaceThenLonger(s, a, "packet", 's', x);
      assert "packet" + ['s'] == "packets";
      SpacedOfThen(s, p, a, "packets", x + 1, "transmitted", e);
    } else {
      SpacedOfThen(s, p, a, "packet", x, "transmitted", e);
    }
  }

  /** The character at `i` is white space or the one the run of white space
      from `i` stops at. */
  lemma {:induction false} SpacesBefore(s: string, i: nat, z: nat)
    requires i <= z < |s| && z == RunEnd(s, i, Space)
    ensures IsSpace(s[i]) || s[i] == s[z]
  {
    RunEndRun(s, i, Space);
  }

  lemma {:induction false} SentAtRuns(s: string, p: nat, a: nat, x: nat, y: nat, e: nat, g: string)
    requires p < a <= |s| && RunEnd(s, p, Digit) == a && s[p..a] == g
    requires SpaceThen(s, a, "packet") == Some(x) && x <= |s|
    requires y == if x < |s| && s[x] == 's' then x + 1 else x
    requires y <= |s| && SpaceThen(s, y, "transmitted") == Some(e)
    ensures SentAt(s, p) == Some(Match(p, e, [g]))
  {
  }

  /** What a match of `SentAt` is made of. */
  lemma {:induction false} SentAtFound(s: string, p: nat)
    requires p <= |s| && SentAt(s, p).Some?
    ensures var a := RunEnd(s, p, Digit);
      && a != p && SpaceThen(s, a, "packet").Some?
      && var x := SpaceThen(s, a, "packet").value;
      var y := if x < |s| && s[x] == 's' then x + 1 else x;
      && SpaceThen(s, y, "transmitted") == Some(SentAt(s, p).value.end)
      && SentAt(s, p).value.groups == [s[p..a]]
  {
  }

  // ---------------------------------------------------------------------------
  // /(\d+)%\s*packet\s*loss/

  /** The digits `g`, `%`, optional white space, `packet`, optional white
      space, `loss`. */
  predicate LossText(t: string, g: string) {
    Captured(g, Digit) && Spaced(t, [g + "%", "packet", "loss"])
  }

  lemma {:induction false} LossAtIff(s: string, p: nat, e: nat, g: string)
    requires p <= e <= |s|
    ensures LossAt(s, p) == Some(Match(p, e, [g])) <==> LossText(s[p..e], g)
  {
    var ws := [g + "%", "packet", "loss"];
    assert Words(ws);
    SpacedIff(s, p, e, ws);
    if LossAt(s, p) == Some(Match(p, e, [g])) {
      LossSound(s, p, e, g);
    }
    if LossText(s[p..e], g) {
      LossComplete(s, p, e, g);
    }
  }

  lemma {:induction false} LossSound(s: string, p: nat, e: nat, g: string)
    requires p <= e <= |s| && LossAt(s, p) == Some(Match(p, e, [g]))
    ensures Captured(g, Digit) && SpacedAt(s, p, e, [g + "%", "packet", "loss"])
  {
    var a := RunEnd(s, p, Digit);
    LossAtFound(s, p);
    var x := SpaceThen(s, a + 1, "packet").value;
    assert [g] == [s[p..a]] && g == [g][0];
    LossSpaced(s, p, a, g, x, e, "packet", "loss");
  }

  /** Digits, `%` and two `\s*word` steps give the spaced words. */
  lemma {:induction false} LossSpaced(s: string, p: nat, a: nat, g: string, x: nat, e: nat, u: string, v: string)
    requires p <= a < |s| && s[p..a] == g && s[a] == '%'
    requires SpaceThen(s, a + 1, u) == Some(x) && x <= |s| && SpaceThen(s, x, v) == Some(e)
    ensures p <= e <= |s| && SpacedAt(s, p, e, [g + "%", u, v])
  {
    SpacedOfThen(s, p, a + 1, u, x, v, e);
    assert s[p..a + 1] == g + "%" by {
      assert s[p..a + 1] == s[p..a] + [s[a]];
    }
  }

  lemma {:induction false} LossComplete(s: string, p: nat, e: nat, g: string)
    requires p <= e <= |s| && Captured(g, Digit) && SpacedAt(s, p, e, [g + "%", "packet", "loss"])
    ensures LossAt(s, p) == Some(Match(p, e, [g]))
  {
    var w, x := SpacedThenWords(s, p, e, g + "%", "packet", "loss");
    LossRun(s, p, g);
    LossAtRuns(s, p, p + |g|, x, e, g);
  }

  /** The digits before the `%` are the whole run of digits. */
  lemma {:induction false} LossRun(s: string, p: nat, g: string)
    requires Captured(g, Digit) && OccursAt(s, g + "%", p)
    ensures p + |g| < |s| && s[p + |g|] == '%' && RunEnd(s, p, Digit) == p + |g| && s[p..p + |g|] == g
  {
    OccursAtSplit(s, g, "%", p);
    OccursFirst(s, "%", p + |g|);
    RunOf(s, p, g, Digit);
  }

  lemma {:induction false} LossAtRuns(s: string, p: nat, a: nat, x: nat, e: nat, g: string)
    requires p < a < |s| && s[a] == '%' && RunEnd(s, p, Digit) == a && s[p..a] == g
    requires SpaceThen(s, a + 1, "packet") == Some(x) && x <= |s| && SpaceThen(s, x, "loss") == Some(e)
    ensures LossAt(s, p) == Some(Match(p, e, [g]))
  {
  }

  /** What a match of `LossAt` is made of. */
  lemma {:induction false} LossAtFound(s: string, p: nat)
    requires p <= |s| && LossAt(s, p).Some?
    ensures var a := RunEnd(s, p, Digit);
      && a != p && a < |s| && s[a] == '%' && SpaceThen(s, a + 1, "packet").Some?
      && SpaceThen(s, SpaceThen(s, a + 1, "packet").value, "loss") == Some(LossAt(s, p).value.end)
      && LossAt(s, p).value.groups == [s[p..a]]
  {
  }

  // ---------------------------------------------------------------------------
  // /(\d+)ms/

  /** The digits `g` followed directly by `ms`. */
  predicate DigitsMsText(t: string, g: string) {
    Captured(g, Digit) && t == g + "ms"
  }

  lemma {:induction false} DigitsMsAtIff(s: string, p: nat, e: nat, g: string)
    requires p <= e <= |s|
    ensures DigitsMsAt(s, p) == Some(Match(p, e, [g])) <==> DigitsMsText(s[p..e], g)
  {
    if DigitsMsAt(s, p) == Some(Match(p, e, [g])) {
      var a := RunEnd(s, p, Digit);
      assert g == s[p..a] && OccursAt(s, "ms", a) && e == a + 2;
      assert s[p..e] == s[p..a] + s[a..a + 2];
    }
    if DigitsMsText(s[p..e], g) {
      DigitsMsComplete(s, p, e, g);
    }
  }

  lemma {:induction false} DigitsMsComplete(s: string, p: nat, e: nat, g: string)
    requires p <= e <= |s| && Captured(g, Digit) && s[p..e] == g + "ms"
    ensures DigitsMsAt(s, p) == Some(Match(p, e, [g]))
  {
    var a := p + |g|;
    assert OccursAt(s, g + "ms", p);
    OccursAtSplit(s, g, "ms", p);
    OccursFirst(s, "ms", a);
    RunOf(s, p, g, Digit);
    assert s[p..a] == g;
    DigitsMsAtRuns(s, p, a, g);
  }

  lemma {:induction false} DigitsMsAtRuns(s: string, p: nat, a: nat, g: string)
    requires p < a && a + 2 <= |s| && RunEnd(s, p, Digit) == a && OccursAt(s, "ms", a) && s[p..a] == g
    ensures DigitsMsAt(s, p) == Some(Match(p, a + 2, [g]))
  {
  }

  // ---------------------------------------------------------------------------
  // /(\d+\.\d+\.\d+\.\d+)/

  /** The capture is the whole match, a dotted quad. */
  predicate DottedQuadText(t: string, g: string) {
    t == g && IsDottedQuad(g)
  }

  /** The last run of digits is greedy: the match stops before a digit only at
      the end of `s`. */
  lemma {:induction false} DottedQuadAtIff(s: string, p: nat, e: nat, g: string)
    requires p <= e <= |s|
    ensures DottedQuadAt(s, p) == Some(Match(p, e, [g])) <==>
      DottedQuadText(s[p..e], g) && (e == |s| || !IsDigit(s[e]))
  {
    if DottedQuadAt(s, p) == Some(Match(p, e, [g])) {
      DottedQuadSound(s, p, e, g);
    }
    if DottedQuadText(s[p..e], g) && (e == |s| || !IsDigit(s[e])) {
      DottedQuadComplete(s, p, e, g);
    }
  }

  lemma {:induction false} DottedQuadSound(s: string, p: nat, e: nat, g: string)
    requires p <= e <= |s| && DottedQuadAt(s, p) == Some(Match(p, e, [g]))
    ensures g == s[p..e] && IsDottedQuad(g) && (e == |s| || !IsDigit(s[e]))
  {
    var a := RunEnd(s, p, Digit);
    var b := RunEnd(s, a + 1, Digit);
    var c := RunEnd(s, b + 1, Digit);
    assert e == RunEnd(s, c + 1, Digit);
    RunEndRun(s, p, Digit);
    RunEndRun(s, a + 1, Digit);
    RunEndRun(s, b + 1, Digit);
    RunEndRun(s, c + 1, Digit);
    QuadShape(s, p, a, b, c, e);
  }

  lemma {:induction false} DottedQuadComplete(s: string, p: nat, e: nat, g: string)
    requires p <= e <= |s| && g == s[p..e] && IsDottedQuad(g) && (e == |s| || !IsDigit(s[e]))
    ensures DottedQuadAt(s, p) == Some(Match(p, e, [g]))
  {
    var x := Split(g, '.');
    QuadPieces(g);
    DigitsCaptured(x[0]);
    DigitsCaptured(x[1]);
    DigitsCaptured(x[2]);
    DigitsCaptured(x[3]);
    assert OccursAt(s, g, p);
    DottedQuadPlaced(s, p, e, x[0], x[1], x[2], x[3]);
  }

  lemma {:induction false} DigitsCaptured(x: string)
    requires x != [] && AllDigits(x)
    ensures Captured(x, Digit)
  {
  }

  lemma {:induction false} DottedQuadPlaced(s: string, p: nat, e: nat, x0: string, x1: string, x2: string, x3: string)
    requires Captured(x0, Digit) && Captured(x1, Digit) && Captured(x2, Digit) && Captured(x3, Digit)
    requires OccursAt(s, (x0 + ".") + ((x1 + ".") + ((x2 + ".") + x3)), p)
    requires e == p + |x0| + |x1| + |x2| + |x3| + 3 && (e == |s| || !IsDigit(s[e]))
    ensures DottedQuadAt(s, p) == Some(Match(p, e, [s[p..e]]))
  {
    var a := SepThen(s, p, x0, '.', (x1 + ".") + ((x2 + ".") + x3), Digit);
    var b, c := QuadTail(s, a + 1, e, x1, x2, x3);
    DottedQuadAtRuns(s, p, a, b, c, e);
  }

  /** The last three digit groups of a dotted quad, placed at `lo`. */
  lemma {:induction false} QuadTail(s: string, lo: nat, e: nat, x1: string, x2: string, x3: string) returns (b: nat, c: nat)
    requires Captured(x1, Digit) && Captured(x2, Digit) && Captured(x3, Digit)
    requires OccursAt(s, (x1 + ".") + ((x2 + ".") + x3), lo)
    requires e == lo + |x1| + |x2| + |x3| + 2 && (e == |s| || !IsDigit(s[e]))
    ensures lo < b && b + 1 < c && c + 1 < e <= |s| && s[b] == '.' && s[c] == '.'
    ensures RunEnd(s, lo, Digit) == b && RunEnd(s, b + 1, Digit) == c && RunEnd(s, c + 1, Digit) == e
  {
    b := SepThen(s, lo, x1, '.', (x2 + ".") + x3, Digit);
    assert "." == ['.'];
    c := PairTail(s, b + 1, e, x2, x3, '.', Digit);
  }

  lemma {:induction false} DottedQuadAtRuns(s: string, p: nat, a: nat, b: nat, c: nat, e: nat)
    requires p < a && a + 1 < b && b + 1 < c && c + 1 < e <= |s|
    requires s[a] == '.' && s[b] == '.' && s[c] == '.'
    requires RunEnd(s, p, Digit) == a && RunEnd(s, a + 1, Digit) == b
    requires RunEnd(s, b + 1, Digit) == c && RunEnd(s, c + 1, Digit) == e
    ensures DottedQuadAt(s, p) == Some(Match(p, e, [s[p..e]]))
  {
  }

  /** A run `x` of class `k`, then the separator `sep` outside `k`, then
      `rest`. */
  lemma {:induction false} SepThen(s: string, lo: nat, x: string, sep: char, rest: string, k: CharClass) returns (d: nat)
    requires x != [] && (forall i :: 0 <= i < |x| ==> InClass(x[i], k)) && !InClass(sep, k)
    requires OccursAt(s, (x + [sep]) + rest, lo)
    ensures d == lo + |x| && d < |s| && RunEnd(s, lo, k) == d && s[d] == sep && s[lo..d] == x
    ensures OccursAt(s, rest, d + 1)
  {
    d := lo + |x|;
    OccursAtSplit(s, x + [sep], rest, lo);
    OccursAtSplit(s, x, [sep], lo);
    OccursFirst(s, [sep], lo + |x|);
    RunOf(s, lo, x, k);
  }

  /** The dotted quad split at its dots. */
  lemma {:induction false} QuadPieces(g: string)
    requires IsDottedQuad(g)
    ensures var x := Split(g, '.');
      g == (x[0] + ".") + ((x[1] + ".") + ((x[2] + ".") + x[3]))
  {
    var x := Split(g, '.');
    JoinSplit(g, '.');
    assert x[1..][1..] == x[2..] && x[2..][1..] == x[3..];
    assert Join(x[3..], '.') == x[3];
    assert Join(x[2..], '.') == (x[2] + ".") + x[3];
    assert Join(x[1..], '.') == (x[1] + ".") + ((x[2] + ".") + x[3]);
  }

  // ---------------------------------------------------------------------------
  // /([0-9.]+)\/([0-9.]+)\/([0-9.]+)/

  /** Three runs of digits and dots joined by slashes, captured in order. */
  predicate TripleText(t: string, g: seq<string>) {
    && |g| == 3
    && (forall k :: 0 <= k < 3 ==> Captured(g[k], DigitOrDot))
    && t == g[0] + "/" + g[1] + "/" + g[2]
  }

  /** The last run is greedy: the match stops before a digit or a dot only at
      the end of `s`. */
  lemma {:induction false} TripleAtIff(s: string, p: nat, e: nat, g: seq<string>)
    requires p <= e <= |s|
    ensures TripleAt(s, p) == Some(Match(p, e, g)) <==>
      TripleText(s[p..e], g) && (e == |s| || !InClass(s[e], DigitOrDot))
  {
    if TripleAt(s, p) == Some(Match(p, e, g)) {
      var a := RunEnd(s, p, DigitOrDot);
      var b := RunEnd(s, a + 1, DigitOrDot);
      assert e == RunEnd(s, b + 1, DigitOrDot) && g == [s[p..a], s[a + 1..b], s[b + 1..e]];
      TripleJoin(s, p, a, b, e);
    }
    if TripleText(s[p..e], g) && (e == |s| || !InClass(s[e], DigitOrDot)) {
      TripleComplete(s, p, e, g);
    }
  }

  lemma {:induction false} TripleComplete(s: string, p: nat, e: nat, g: seq<string>)
    requires p <= e <= |s| && TripleText(s[p..e], g) && (e == |s| || !InClass(s[e], DigitOrDot))
    ensures TripleAt(s, p) == Some(Match(p, e, g))
  {
    var g0, g1, g2 := g[0], g[1], g[2];
    assert Captured(g0, DigitOrDot) && Captured(g1, DigitOrDot) && Captured(g2, DigitOrDot);
    assert s[p..e] == (g0 + "/") + ((g1 + "/") + g2);
    assert OccursAt(s, (g0 + "/") + ((g1 + "/") + g2), p);
    TriplePlaced(s, p, e, g0, g1, g2);
    assert g == [g0, g1, g2];
  }

  lemma {:induction false} TriplePlaced(s: string, p: nat, e: nat, g0: string, g1: string, g2: string)
    requires Captured(g0, DigitOrDot) && Captured(g1, DigitOrDot) && Captured(g2, DigitOrDot)
    requires OccursAt(s, (g0 + "/") + ((g1 + "/") + g2), p)
    requires e == p + |g0| + |g1| + |g2| + 2 && (e == |s| || !InClass(s[e], DigitOrDot))
    ensures TripleAt(s, p) == Some(Match(p, e, [g0, g1, g2]))
  {
    var a := SepThen(s, p, g0, '/', (g1 + "/") + g2, DigitOrDot);
    assert "/" == ['/'];
    var b := PairTail(s, a + 1, e, g1, g2, '/', DigitOrDot);
    TripleAtRuns(s, p, a, b, e);
  }

  /** Two runs of class `k` joined by `sep`, placed at `lo` and stopped at
      `e`: returns where the separator sits. */
  lemma {:induction false} PairTail(s: string, lo: nat, e: nat, x: string, y: string, sep: char, k: CharClass) returns (b: nat)
    requires Captured(x, k) && Captured(y, k) && !InClass(sep, k)
    requires OccursAt(s, (x + [sep]) + y, lo)
    requires e == lo + |x| + |y| + 1 && (e == |s| || !InClass(s[e], k))
    ensures lo < b && b + 1 < e <= |s| && s[b] == sep && s[lo..b] == x && s[b + 1..e] == y
    ensures RunEnd(s, lo, k) == b && RunEnd(s, b + 1, k) == e
  {
    b := SepThen(s, lo, x, sep, y, k);
    assert b + 1 + |y| == e;
    RunOf(s, b + 1, y, k);
  }

  lemma {:induction false} TripleAtRuns(s: string, p: nat, a: nat, b: nat, e: nat)
    requires p < a && a + 1 < b && b + 1 < e <= |s| && s[a] == '/' && s[b] == '/'
    requires RunEnd(s, p, DigitOrDot) == a && RunEnd(s, a + 1, DigitOrDot) == b
    requires RunEnd(s, b + 1, DigitOrDot) == e
    ensures TripleAt(s, p) == Some(Match(p, e, [s[p..a], s[a + 1..b], s[b + 1..e]]))
  {
  }

  // ---------------------------------------------------------------------------
  // /traceroute to ([^\s]+)/

  /** `traceroute to ` and the word `g`. */
  predicate TracerouteToText(t: string, g: string) {
    Captured(g, NonSpace) && t == "traceroute to " + g
  }

  /** The word is greedy: the match stops at white space or at the end. */
  lemma {:induction false} TracerouteToAtIff(s: string, p: nat, e: nat, g: string)
    requires p <= e <= |s|
    ensures TracerouteToAt(s, p) == Some(Match(p, e, [g])) <==>
      TracerouteToText(s[p..e], g) && (e == |s| || IsSpace(s[e]))
  {
    if TracerouteToAt(s, p) == Some(Match(p, e, [g])) {
      assert OccursAt(s, "traceroute to ", p) && g == s[p + 14..e];
      assert s[p..e] == s[p..p + 14] + s[p + 14..e];
    }
    if TracerouteToText(s[p..e], g) && (e == |s| || IsSpace(s[e])) {
      TracerouteToComplete(s, p, e, g);
    }
  }

  lemma {:induction false} TracerouteToComplete(s: string, p: nat, e: nat, g: string)
    requires p <= e <= |s| && Captured(g, NonSpace) && s[p..e] == "traceroute to " + g
    requires e == |s| || IsSpace(s[e])
    ensures TracerouteToAt(s, p) == Some(Match(p, e, [g]))
  {
    assert OccursAt(s, "traceroute to " + g, p);
    OccursAtSplit(s, "traceroute to ", g, p);
    RunOf(s, p + 14, g, NonSpace);
    assert s[p + 14..e] == g;
    TracerouteToAtRuns(s, p, e, g);
  }

  lemma {:induction false} TracerouteToAtRuns(s: string, p: nat, e: nat, g: string)
    requires p + 14 < e <= |s| && OccursAt(s, "traceroute to ", p)
    requires RunEnd(s, p + 14, NonSpace) == e && s[p + 14..e] == g
    ensures TracerouteToAt(s, p) == Some(Match(p, e, [g]))
  {
  }

  // ---------------------------------------------------------------------------
  // /^\s*(\d+)/

  /** After the leading white space, the digits `g`. */
  predicate LeadingNumberText(t: string, g: string) {
    Captured(g, Digit) && TrimStart(t) == g
  }

  /** The pattern is anchored and its digits greedy. */
  lemma {:induction false} LeadingNumberAtIff(s: string, p: nat, e: nat, g: string)
    requires p <= e <= |s|
    ensures LeadingNumberAt(s, p) == Some(Match(p, e, [g])) <==>
      p == 0 && LeadingNumberText(s[..e], g) && (e == |s| || !IsDigit(s[e]))
  {
    if LeadingNumberAt(s, p) == Some(Match(p, e, [g])) {
      var w := RunEnd(s, 0, Space);
      assert e == RunEnd(s, w, Digit) && g == s[w..e];
      LeadingTrim(s, w, e);
    }
    if p == 0 && LeadingNumberText(s[..e], g) && (e == |s| || !IsDigit(s[e])) {
      LeadingNumberComplete(s, e, g);
    }
  }

  /** Trimming the start of `s[..e]` skips the white space before `w`. */
  lemma {:induction false} LeadingTrim(s: string, w: nat, e: nat)
    requires w < e <= |s| && w == RunEnd(s, 0, Space)
    ensures TrimStart(s[..e]) == s[w..e]
  {
    var u := s[..e];
    RunEndRun(s, 0, Space);
    forall j | 0 <= j < w ensures IsSpace(u[j]) {
      assert u[j] == s[j];
    }
    assert u[w] == s[w];
    TrimStartAt(u, w);
    assert u[w..] == s[w..e];
  }

  /** Where the text left after trimming the start of `s[..e]` begins. */
  lemma {:induction false} TrimmedPrefix(s: string, e: nat) returns (w: nat)
    requires e <= |s| && TrimStart(s[..e]) != []
    ensures w < e && w == RunEnd(s, 0, Space) && TrimStart(s[..e]) == s[w..e]
  {
    var u := s[..e];
    var r := TrimStart(u);
    w := e - |r|;
    forall j | 0 <= j < w ensures IsSpace(s[j]) {
      assert s[j] == u[j];
    }
    assert s[w] == u[w] == r[0];
    RunEndUnique(s, 0, Space, w);
    assert r == u[w..] == s[w..e];
  }

  lemma {:induction false} LeadingNumberComplete(s: string, e: nat, g: string)
    requires e <= |s| && LeadingNumberText(s[..e], g) && (e == |s| || !IsDigit(s[e]))
    ensures LeadingNumberAt(s, 0) == Some(Match(0, e, [g]))
  {
    var w := TrimmedPrefix(s, e);
    assert OccursAt(s, g, w);
    RunOf(s, w, g, Digit);
    LeadingNumberAtRuns(s, w, e, g);
  }

  lemma {:induction false} LeadingNumberAtRuns(s: string, w: nat, e: nat, g: string)
    requires w < e <= |s| && RunEnd(s, 0, Space) == w && RunEnd(s, w, Digit) == e && s[w..e] == g
    ensures LeadingNumberAt(s, 0) == Some(Match(0, e, [g]))
  {
  }

  // ---------------------------------------------------------------------------
  // /^\s*\d+\s+/

  /** After the leading white space, digits followed by at least one white
      space character and nothing else. */
  predicate HopPrefixText(t: string) {
    var u := TrimStart(t);
    Captured(TrimEnd(u), Digit) && |TrimEnd(u)| < |u|
  }

  /** The pattern is anchored and its trailing white space greedy. */
  lemma {:induction false} HopPrefixAtIff(s: string, p: nat, e: nat)
    requires p <= e <= |s|
    ensures HopPrefixAt(s, p) == Some(Match(p, e, [])) <==>
      p == 0 && HopPrefixText(s[..e]) && (e == |s| || !IsSpace(s[e]))
  {
    if HopPrefixAt(s, p) == Some(Match(p, e, [])) {
      HopPrefixSound(s, e);
    }
    if p == 0 && HopPrefixText(s[..e]) && (e == |s| || !IsSpace(s[e])) {
      HopPrefixComplete(s, e);
    }
  }

  lemma {:induction false} HopPrefixSound(s: string, e: nat)
    requires e <= |s| && HopPrefixAt(s, 0) == Some(Match(0, e, []))
    ensures HopPrefixText(s[..e]) && (e == |s| || !IsSpace(s[e]))
  {
    var w := RunEnd(s, 0, Space);
    var d := RunEnd(s, w, Digit);
    assert w < d < e && e == RunEnd(s, d, Space);
    LeadingTrim(s, w, e);
    var x := DigitsThenSpaces(s, w, d, e);
    CapturedRun(s, w, Digit);
  }

  /** The digits of `s[w..e]` before its trailing white space. */
  lemma {:induction false} DigitsThenSpaces(s: string, w: nat, d: nat, e: nat) returns (x: string)
    requires w < d < e <= |s| && d == RunEnd(s, w, Digit) && e == RunEnd(s, d, Space)
    ensures x == TrimEnd(s[w..e]) == s[w..d]
  {
    var u := s[w..e];
    RunEndRun(s, w, Digit);
    RunEndRun(s, d, Space);
    forall j | d - w <= j < |u| ensures IsSpace(u[j]) {
      assert u[j] == s[w + j];
    }
    assert u[d - w - 1] == s[d - 1];
    TrimEndAt(u, d - w);
    assert u[..d - w] == s[w..d];
    x := s[w..d];
  }

  /** A nonempty run is captured as a run of its class. */
  lemma {:induction false} CapturedRun(s: string, i: nat, k: CharClass)
    requires i <= |s| && i < RunEnd(s, i, k)
    ensures Captured(s[i..RunEnd(s, i, k)], k)
  {
    var e := RunEnd(s, i, k);
    RunEndRun(s, i, k);
    forall j | 0 <= j < e - i ensures InClass(s[i..e][j], k) {
      assert s[i..e][j] == s[i + j];
    }
  }

  lemma {:induction false} HopPrefixComplete(s: string, e: nat)
    requires e <= |s| && HopPrefixText(s[..e]) && (e == |s| || !IsSpace(s[e]))
    ensures HopPrefixAt(s, 0) == Some(Match(0, e, []))
  {
    var w := TrimmedPrefix(s, e);
    var u := s[w..e];
    var x := TrimEnd(u);
    var d := w + |x|;
    assert OccursAt(s, x, w) by {
      assert s[w..d] == u[..|x|];
    }
    assert IsSpace(u[|x|]) && s[d] == u[|x|];
    RunOf(s, w, x, Digit);
    SpacesOfSlice(s, w, d, e);
    RunEndUnique(s, d, Space, e);
    HopPrefixAtRuns(s, w, d, e);
  }

  /** White space at the end of the slice `s[w..e]` is white space of `s`. */
  lemma {:induction false} SpacesOfSlice(s: string, w: nat, d: nat, e: nat)
    requires w <= d <= e <= |s| && forall j :: d - w <= j < e - w ==> IsSpace(s[w..e][j])
    ensures forall j :: d <= j < e ==> IsSpace(s[j])
  {
    forall j | d <= j < e ensures IsSpace(s[j]) {
      assert s[j] == s[w..e][j - w];
    }
  }

  lemma {:induction false} HopPrefixAtRuns(s: string, w: nat, d: nat, e: nat)
    requires w < d < e <= |s| && RunEnd(s, 0, Space) == w && RunEnd(s, w, Digit) == d
    requires RunEnd(s, d, Space) == e
    ensures HopPrefixAt(s, 0) == Some(Match(0, e, []))
  {
  }

  // ---------------------------------------------------------------------------
  // The leftmost match, `s.match(pat)`

  lemma {:induction false} PingDispatch(pat: Pattern, s: string, q: nat)
    requires q <= |s| && PingPattern(pat)
    ensures MatchAt(pat, s, q) == PingMatcher(pat)(s, q)
  {
  }

  lemma {:induction false} TraceDispatch(pat: Pattern, s: string, q: nat)
    requires q <= |s| && !PingPattern(pat)
    ensures MatchAt(pat, s, q) == TraceMatcher(pat)(s, q)
  {
  }

  lemma {:induction false} ReplyTimeMatchAt(s: string, q: nat)
    requires q <= |s|
    ensures MatchAt(ReplyTime, s, q) == ReplyTimeAt(s, q)
  {
    PingDispatch(ReplyTime, s, q);
    assert PingMatcher(ReplyTime) == ReplyTimeAt;
  }

  lemma {:induction false} DottedQuadMatchAt(s: string, q: nat)
    requires q <= |s|
    ensures MatchAt(DottedQuad, s, q) == DottedQuadAt(s, q)
  {
    PingDispatch(DottedQuad, s, q);
    assert PingMatcher(DottedQuad) == DottedQuadAt;
  }

  lemma {:induction false} DigitsMsMatchAt(s: string, q: nat)
    requires q <= |s|
    ensures MatchAt(DigitsMs, s, q) == DigitsMsAt(s, q)
  {
    PingDispatch(DigitsMs, s, q);
    assert PingMatcher(DigitsMs) == DigitsMsAt;
  }

  lemma {:induction false} SentMatchAt(s: string, q: nat)
    requires q <= |s|
    ensures MatchAt(Sent, s, q) == SentAt(s, q)
  {
    PingDispatch(Sent, s, q);
    assert PingMatcher(Sent) == SentAt;
  }

  lemma {:induction false} ReceivedMatchAt(s: string, q: nat)
    requires q <= |s|
    ensures MatchAt(Received, s, q) == ReceivedAt(s, q)
  {
    PingDispatch(Received, s, q);
    assert PingMatcher(Received) == ReceivedAt;
  }

  lemma {:induction false} LossMatchAt(s: string, q: nat)
    requires q <= |s|
    ensures MatchAt(Loss, s, q) == LossAt(s, q)
  {
    PingDispatch(Loss, s, q);
    assert PingMatcher(Loss) == LossAt;
  }

  lemma {:induction false} TripleMatchAt(s: string, q: nat)
    requires q <= |s|
    ensures MatchAt(Triple, s, q) == TripleAt(s, q)
  {
    PingDispatch(Triple, s, q);
    assert PingMatcher(Triple) == TripleAt;
  }

  lemma {:induction false} TracerouteToMatchAt(s: string, q: nat)
    requires q <= |s|
    ensures MatchAt(TracerouteTo, s, q) == TracerouteToAt(s, q)
  {
    TraceDispatch(TracerouteTo, s, q);
    assert TraceMatcher(TracerouteTo) == TracerouteToAt;
  }

  lemma {:induction false} TimeMsMatchAt(s: string, q: nat)
    requires q <= |s|
    ensures MatchAt(TimeMs, s, q) == TimeMsAt(s, q)
  {
    TraceDispatch(TimeMs, s, q);
    assert TraceMatcher(TimeMs) == TimeMsAt;
  }

  lemma {:induction false} LeadingNumberMatchAt(s: string, q: nat)
    requires q <= |s|
    ensures MatchAt(LeadingNumber, s, q) == LeadingNumberAt(s, q)
  {
    TraceDispatch(LeadingNumber, s, q);
    assert TraceMatcher(LeadingNumber) == LeadingNumberAt;
  }

  lemma {:induction false} HopPrefixMatchAt(s: string, q: nat)
    requires q <= |s|
    ensures MatchAt(HopPrefix, s, q) == HopPrefixAt(s, q)
  {
    TraceDispatch(HopPrefix, s, q);
    assert TraceMatcher(HopPrefix) == HopPrefixAt;
  }

  /** `s.match(/time=([0-9.]+)\s*ms/)` is the leftmost text of the pattern. */
  lemma {:induction false} ReplyTimeFound(s: string)
    requires Exec(ReplyTime, s).Some?
    ensures ReplyTimeText(MatchedText(ReplyTime, s), Capture(ReplyTime, s))
  {
    var m := Exec(ReplyTime, s).value;
    ReplyTimeMatchAt(s, m.start);
    assert m.groups == [m.groups[0]];
    ReplyTimeAtIff(s, m.start, m.end, m.groups[0]);
  }

  /** `s.match(/(\d+\.\d+\.\d+\.\d+)/)` is the leftmost dotted quad, with
      its last group of digits complete. */
  lemma {:induction false} DottedQuadFound(s: string)
    requires Exec(DottedQuad, s).Some?
    ensures var m := Exec(DottedQuad, s).value;
      && DottedQuadText(MatchedText(DottedQuad, s), Capture(DottedQuad, s))
      && (m.end == |s| || !IsDigit(s[m.end]))
  {
    var m := Exec(DottedQuad, s).value;
    DottedQuadMatchAt(s, m.start);
    assert m.groups == [m.groups[0]];
    DottedQuadAtIff(s, m.start, m.end, m.groups[0]);
  }

  lemma {:induction false} DigitsMsFound(s: string)
    requires Exec(DigitsMs, s).Some?
    ensures DigitsMsText(MatchedText(DigitsMs, s), Capture(DigitsMs, s))
  {
    var m := Exec(DigitsMs, s).value;
    DigitsMsMatchAt(s, m.start);
    assert m.groups == [m.groups[0]];
    DigitsMsAtIff(s, m.start, m.end, m.groups[0]);
  }

  lemma {:induction false} SentFound(s: string)
    requires Exec(Sent, s).Some?
    ensures SentText(MatchedText(Sent, s), Capture(Sent, s))
  {
    var m := Exec(Sent, s).value;
    SentMatchAt(s, m.start);
    assert m.groups == [m.groups[0]];
    SentAtIff(s, m.start, m.end, m.groups[0]);
  }

  lemma {:induction false} ReceivedFound(s: string)
    requires Exec(Received, s).Some?
    ensures ReceivedText(MatchedText(Received, s), Capture(Received, s))
  {
    var m := Exec(Received, s).value;
    ReceivedMatchAt(s, m.start);
    assert m.groups == [m.groups[0]];
    ReceivedAtIff(s, m.start, m.end, m.groups[0]);
  }

  lemma {:induction false} LossFound(s: string)
    requires Exec(Loss, s).Some?
    ensures LossText(MatchedText(Loss, s), Capture(Loss, s))
  {
    var m := Exec(Loss, s).value;
    LossMatchAt(s, m.start);
    assert m.groups == [m.groups[0]];
    LossAtIff(s, m.start, m.end, m.groups[0]);
  }

  /** `s.match(/([0-9.]+)\/([0-9.]+)\/([0-9.]+)/)`, with its last run complete. */
  lemma {:induction false} TripleFound(s: string)
    requires Exec(Triple, s).Some?
    ensures var m := Exec(Triple, s).value;
      && TripleText(MatchedText(Triple, s), m.groups)
      && (m.end == |s| || !InClass(s[m.end], DigitOrDot))
  {
    var m := Exec(Triple, s).value;
    TripleMatchAt(s, m.start);
    TripleAtIff(s, m.start, m.end, m.groups);
  }

  /** `s.match(/traceroute to ([^\s]+)/)`, with the whole word captured. */
  lemma {:induction false} TracerouteToFound(s: string)
    requires Exec(TracerouteTo, s).Some?
    ensures var m := Exec(TracerouteTo, s).value;
      && TracerouteToText(MatchedText(TracerouteTo, s), Capture(TracerouteTo, s))
      && (m.end == |s| || IsSpace(s[m.end]))
  {
    var m := Exec(TracerouteTo, s).value;
    TracerouteToMatchAt(s, m.start);
    assert m.groups == [m.groups[0]];
    TracerouteToAtIff(s, m.start, m.end, m.groups[0]);
  }

  lemma {:induction false} TimeMsFound(s: string)
    requires Exec(TimeMs, s).Some?
    ensures TimeMsText(MatchedText(TimeMs, s), Capture(TimeMs, s))
  {
    var m := Exec(TimeMs, s).value;
    TimeMsMatchAt(s, m.start);
    assert m.groups == [m.groups[0]];
    TimeMsAtIff(s, m.start, m.end, m.groups[0]);
  }

  /** A line with a `<number> ms` time mentions `ms`. */
  lemma {:induction false} TimeMsMentionsMs(s: string)
    requires Exec(TimeMs, s).Some?
    ensures Contains(s, "ms")
  {
    var m := Exec(TimeMs, s).value;
    TimeMsMatchAt(s, m.start);
    assert OccursAt(s, "ms", m.end - 2);
  }

  /** `s.match(/^\s*(\d+)/)`: the digits after the leading white space. */
  lemma {:induction false} LeadingNumberFound(s: string)
    requires Exec(LeadingNumber, s).Some?
    ensures var m := Exec(LeadingNumber, s).value;
      && m.start == 0 && LeadingNumberText(MatchedText(LeadingNumber, s), Capture(LeadingNumber, s))
      && (m.end == |s| || !IsDigit(s[m.end]))
  {
    var m := Exec(LeadingNumber, s).value;
    LeadingNumberMatchAt(s, m.start);
    assert m.groups == [m.groups[0]];
    LeadingNumberAtIff(s, m.start, m.end, m.groups[0]);
    assert s[..m.end] == s[m.start..m.end];
  }

  /** `line.replace(/^\s*\d+\s+/, '')` finds the hop number with all the white
      space around it, from the start of the line. */
  lemma {:induction false} HopPrefixFound(s: string)
    requires Exec(HopPrefix, s).Some?
    ensures var m := Exec(HopPrefix, s).value;
      && m.start == 0 && HopPrefixText(MatchedText(HopPrefix, s))
      && (m.end == |s| || !IsSpace(s[m.end]))
  {
    var m := Exec(HopPrefix, s).value;
    HopPrefixMatchAt(s, m.start);
    assert m.groups == [];
    HopPrefixAtIff(s, m.start, m.end);
    assert s[..m.end] == s[m.start..m.end];
  }
}
