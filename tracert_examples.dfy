/** A worked example of `cleanTracertOutput` on a hop line whose columns
    are separated by runs of spaces. */
module TracertExamples {
  import opened Base
  import opened Text
  import opened Cleaning
  import opened Pieces
  import opened TracertOutput

  /** A Linux hop line with doubled spaces: each run of spaces becomes one
      space and the hop number is padded to two columns. */
  lemma {:induction false} HopLineExample()
    ensures CleanTracertOutput("1" + "  " + "192.168.1.1 (192.168.1.1)" + "  " + "0.123 ms" + "  " + "0.456 ms" + "  " + "0.789 ms")
      == " 1" + " " + "192.168.1.1 (192.168.1.1)" + " " + "0.123 ms" + " " + "0.456 ms" + " " + "0.789 ms"
  {
    var a, b, c, d, e, w := "1", "192.168.1.1 (192.168.1.1)", "0.123 ms", "0.456 ms", "0.789 ms", "  ";
    HopPiecesCanonical(a, b, c, d, e, w);
    assert CleanWords([a, b, c, d, e]);
    CleanOfRuns([a, b, c, d, e], w);
    JoinFive(a, b, c, d, e, w);
    JoinFive(a, b, c, d, e, " ");
    var rest := b + " " + (c + " " + (d + " " + e));
    HopLineMentionsMs(a, b, c, d, e);
    HopLineRendering(a + w + b + w + c + w + d + w + e, a, rest);
    PadOne();
    WordsRegroup(" 1", b, c, d, e);
  }

  lemma {:induction false} HopPiecesCanonical(a: string, b: string, c: string, d: string, e: string, w: string)
    requires a == "1" && b == "192.168.1.1 (192.168.1.1)" && c == "0.123 ms" && d == "0.456 ms" && e == "0.789 ms"
    requires w == "  "
    ensures Canonical(a) && Canonical(b) && Canonical(c) && Canonical(d) && Canonical(e)
    ensures Blanks(w) && AllDigits(a)
  {
    PlainCanonical(a);
    PlainCanonical(b);
    TimesCanonical(c, d, e);
  }

  lemma {:induction false} TimesCanonical(c: string, d: string, e: string)
    requires c == "0.123 ms" && d == "0.456 ms" && e == "0.789 ms"
    ensures Canonical(c) && Canonical(d) && Canonical(e)
  {
    PlainCanonical(c);
    PlainCanonical(d);
    PlainCanonical(e);
  }

  /** A plain word is clean. */
  lemma {:induction false} PlainCanonical(s: string)
    requires Plain(s) && s != [] && s[0] != ' ' && s[|s| - 1] != ' '
    ensures Canonical(s)
  {
    CleanOfPlain(s);
  }

  lemma {:induction false} HopLineMentionsMs(a: string, b: string, c: string, d: string, e: string)
    requires c == "0.123 ms"
    ensures Contains(a + " " + (b + " " + (c + " " + (d + " " + e))), "ms")
  {
    assert OccursAt(c, "ms", 6);
    OccursLeft(c, " " + (d + " " + e), "ms", 6);
    AppendAssociates(c, " ", d + " " + e);
    OccursRight(b + " ", c + " " + (d + " " + e), "ms", 6);
    AppendAssociates(b, " ", c + " " + (d + " " + e));
    OccursRight(a + " ", b + " " + (c + " " + (d + " " + e)), "ms", |b + " "| + 6);
    AppendAssociates(a, " ", b + " " + (c + " " + (d + " " + e)));
  }

  lemma {:induction false} JoinFive(a: string, b: string, c: string, d: string, e: string, w: string)
    ensures JoinBy([a, b, c, d, e], w) == a + w + (b + w + (c + w + (d + w + e)))
    ensures a + w + (b + w + (c + w + (d + w + e))) == a + w + b + w + c + w + d + w + e
  {
    assert [d, e][1..] == [e];
    assert JoinBy([d, e], w) == d + w + e;
    assert [c, d, e][1..] == [d, e];
    assert JoinBy([c, d, e], w) == c + w + (d + w + e);
    assert [b, c, d, e][1..] == [c, d, e];
    assert JoinBy([b, c, d, e], w) == b + w + (c + w + (d + w + e));
    assert [a, b, c, d, e][1..] == [b, c, d, e];
  }

  lemma {:induction false} PadOne()
    ensures PadStart("1", 2) == " 1"
  {
    assert Spaces(1) == " ";
  }

  lemma {:induction false} WordsRegroup(a: string, b: string, c: string, d: string, e: string)
    ensures a + " " + (b + " " + (c + " " + (d + " " + e))) == a + " " + b + " " + c + " " + d + " " + e
  {
  }

  /** A nonempty run of spaces. */
  predicate Blanks(w: string) {
    w != [] && forall i :: 0 <= i < |w| ==> w[i] == ' '
  }

  /** Nonempty ASCII text with no white space at either end. */
  predicate Bare(s: string) {
    s != [] && AllAscii(s) && !IsSpace(s[0]) && !IsSpace(s[|s| - 1])
  }

  /** A clean word, a run of spaces and a rest whose cleaning is `cy`. */
  lemma {:induction false} CleanStep(x: string, w: string, y: string, cy: string)
    requires Canonical(x) && x != [] && Blanks(w) && Bare(y) && Clean(y) == cy
    ensures Clean(x + w + y) == x + " " + cy
  {
    CleanJoin(x, w, y);
  }

  /** The word, the run and the rest together are bare text again. */
  lemma {:induction false} BareJoin(x: string, w: string, y: string)
    requires Canonical(x) && x != [] && Blanks(w) && Bare(y)
    ensures Bare(x + w + y)
  {
    var s := x + w + y;
    forall i | 0 <= i < |s| ensures IsAscii(s[i]) {
      if i < |x| {
        assert s[i] == x[i];
      } else if i < |x| + |w| {
        assert s[i] == w[i - |x|];
      } else {
        assert s[i] == y[i - |x| - |w|];
      }
    }
    assert s[0] == x[0] && s[|s| - 1] == y[|y| - 1];
  }

  /** The words `ws` with `sep` between each two. */
  function JoinBy(ws: seq<string>, sep: string): string
    requires ws != []
  {
    if |ws| == 1 then ws[0] else ws[0] + sep + JoinBy(ws[1..], sep)
  }

  /** Nonempty words, each its own cleaning. */
  predicate CleanWords(ws: seq<string>) {
    forall k :: 0 <= k < |ws| ==> Canonical(ws[k]) && ws[k] != []
  }

  /** Clean words separated by runs of spaces clean to the words separated
      by one space each. */
  lemma {:induction false} CleanOfRuns(ws: seq<string>, w: string)
    requires ws != [] && CleanWords(ws) && Blanks(w)
    ensures Clean(JoinBy(ws, w)) == JoinBy(ws, " ") && Bare(JoinBy(ws, w))
  {
    assert Canonical(ws[0]) && ws[0] != [];
    if |ws| == 1 {
      CleanOfCanonical(ws[0]);
    } else {
      CleanWordsTail(ws);
      CleanOfRuns(ws[1..], w);
      CleanStep(ws[0], w, JoinBy(ws[1..], w), JoinBy(ws[1..], " "));
      BareJoin(ws[0], w, JoinBy(ws[1..], w));
    }
  }

  lemma {:induction false} CleanWordsTail(ws: seq<string>)
    requires ws != [] && CleanWords(ws)
    ensures CleanWords(ws[1..])
  {
    forall k | 0 <= k < |ws| - 1 ensures Canonical(ws[1..][k]) && ws[1..][k] != [] {
      assert ws[1..][k] == ws[k + 1];
    }
  }
}
