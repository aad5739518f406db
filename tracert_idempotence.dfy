/** `cleanTracertOutput` (ping-server/server.js:217-282) is idempotent: each
    line it writes is written again unchanged when fed back, because every
    rewritten form is taken by its own recogniser, or by none, with the same
    captures. */
module TracertIdempotence {
  import opened Base
  import opened Text
  import opened Cleaning
  import opened Patterns
  import opened Matches
  import opened Pieces
  import opened TracertOutput

  /** Normalising a normalised line changes nothing. */
  lemma {:induction false} CleanTracertOutputIdempotent(text: string)
    ensures CleanTracertOutput(CleanTracertOutput(text)) == CleanTracertOutput(text)
  {
    var c := Clean(text);
    CleanTracertOutputSkipsLinuxHop(text);
    if HopRule(c).Some? {
      HopOutputFixed(c);
    } else if BannerRule(c).Some? {
      BannerOutputFixed(c);
    } else if TimeoutRule(c).Some? {
      TimeoutOutputFixed(c);
    } else if MentionsResolveError(c) {
      ResolveErrorFixed();
    } else if MentionsUnreachable(c) {
      UnreachableFixed();
    } else if |c| > 5 {
      LinuxHopBranchDead(c);
      CleanOfCanonical(c);
    } else {
      EmptyFixed();
    }
  }

  // ---------------------------------------------------------------------------
  // The hop line

  /** A hop line cleans back to the line it was made from: the padding of a
      one-digit hop number is trimmed away again. */
  lemma {:induction false} HopOutputFixed(c: string)
    requires Canonical(c) && HopRule(c).Some?
    ensures CleanTracertOutput(HopRule(c).value) == HopRule(c).value
  {
    var d, rest := CanonicalHopLine(c);
    HopRuleOfWords(c, d, rest);
    AppendAssociates(d, " ", rest);
    AppendAssociates(PadStart(d, 2), " ", rest);
    PadStartClean(d, " " + rest);
    CleanOfCanonical(c);
  }

  /** The space that pads a one-digit hop number does not survive cleaning. */
  lemma {:induction false} PadStartClean(d: string, s: string)
    requires d != [] && !IsSpace(d[0]) && AllAscii(d + s)
    ensures Clean(PadStart(d, 2) + s) == Clean(d + s)
  {
    if |d| < 2 {
      assert PadStart(d, 2) == " " + d;
      AppendAssociates(" ", d, s);
      assert (d + s)[0] == d[0];
      CleanLeadingSpace(d + s);
    }
  }

  /** A clean line that `HopLine` matches is its number, one space and the
      rest. */
  lemma {:induction false} CanonicalHopLine(c: string) returns (d: string, rest: string)
    requires Canonical(c) && Exec(HopLine, c).Some?
    ensures d != [] && AllDigits(d) && c == d + " " + rest
  {
    ExecHopLine(c);
    RunEndUnique(c, 0, Space, 0);
    var e := RunEnd(c, 0, Digit);
    RunEndRun(c, 0, Digit);
    assert e < |c| && IsSpace(c[e]);
    d, rest := c[..e], c[e + 1..];
    assert c == c[..e] + [c[e]] + c[e + 1..];
  }

  // ---------------------------------------------------------------------------
  // The banner

  /** `Tracing route to <host>` mentions neither `traceroute to`, nor a
      number at its start, nor an error: it is passed through as it is. */
  lemma {:induction false} BannerOutputFixed(c: string)
    requires Canonical(c) && HopRule(c).None? && BannerRule(c).Some?
    ensures CleanTracertOutput(BannerRule(c).value) == BannerRule(c).value
  {
    var h := BannerHost(c);
    var x := "Tracing route to ";
    var r := x + h;
    assert r == BannerRule(c).value;
    BannerLineClean(x, h);
    NoLeadingNumber(r);
    BannerLineLacks(x, h);
    PassedThrough(r);
  }

  /** A clean line with no leading number that mentions none of the
      recognisers' words is passed through. */
  lemma {:induction false} PassedThrough(s: string)
    requires Clean(s) == s && Exec(LeadingNumber, s).None? && !Contains(s, "traceroute to")
    requires !MentionsResolveError(s) && !MentionsUnreachable(s) && |s| > 5
    ensures CleanTracertOutput(s) == s
  {
    LinuxHopBranchDead(s);
  }

  lemma {:induction false} BannerLineClean(x: string, h: string)
    requires x == "Tracing route to " && Canonical(h) && h != []
    ensures Clean(x + h) == x + h
  {
    var t := "Tracing route to";
    assert Plain(t);
    CleanOfPlain(t);
    CanonicalSpaceJoin(t, h);
    assert t + " " + h == x + h;
    CleanOfCanonical(x + h);
  }

  /** Every word the later recognisers look for has a space, and the part
      before its first space is not in the banner's fixed text. */
  lemma {:induction false} BannerLineLacks(x: string, h: string)
    requires x == "Tracing route to " && forall j :: 0 <= j < |h| ==> !IsSpace(h[j])
    ensures !Contains(x + h, "traceroute to")
    ensures !MentionsResolveError(x + h) && !MentionsUnreachable(x + h)
  {
    BannerLetters(x);
    BannerLacksResolve(x, h);
    BannerLacksUnreachable(x, h);
  }

  lemma {:induction false} BannerLetters(x: string)
    requires x == "Tracing route to "
    ensures NoBigram(x, 'c', 'e') && Lacks(x, 'd') && Lacks(x, 'k') && Lacks(x, 'N') && Lacks(x, 'D')
  {
  }

  lemma {:induction false} BannerLacksResolve(x: string, h: string)
    requires NoBigram(x, 'c', 'e') && Lacks(x, 'd') && Lacks(x, 'k') && Lacks(x, 'N')
    requires forall j :: 0 <= j < |h| ==> !IsSpace(h[j])
    ensures !Contains(x + h, "traceroute to") && !MentionsResolveError(x + h)
  {
    NoBigramNotContains(x, "traceroute to"[..11], 3);
    SpaceBound(x, h, "traceroute to", 10);
    LacksNotContains(x, "could not resolve"[..6], 4);
    SpaceBound(x, h, "could not resolve", 5);
    LacksNotContains(x, "unknown host"[..8], 2);
    SpaceBound(x, h, "unknown host", 7);
    LacksNotContains(x, "Name or service not known"[..5], 0);
    SpaceBound(x, h, "Name or service not known", 4);
  }

  lemma {:induction false} BannerLacksUnreachable(x: string, h: string)
    requires Lacks(x, 'N') && Lacks(x, 'D') && forall j :: 0 <= j < |h| ==> !IsSpace(h[j])
    ensures !MentionsUnreachable(x + h)
  {
    LacksNotContains(x, "Network is unreachable"[..8], 0);
    SpaceBound(x, h, "Network is unreachable", 7);
    LacksNotContains(x, "Destination host unreachable"[..12], 0);
    SpaceBound(x, h, "Destination host unreachable", 11);
  }

  /** The host of the banner is a clean word. */
  lemma {:induction false} BannerHost(c: string) returns (h: string)
    requires Canonical(c) && BannerRule(c).Some?
    ensures h == Capture(TracerouteTo, c) && Canonical(h) && h != []
    ensures forall j :: 0 <= j < |h| ==> !IsSpace(h[j])
  {
    h := Capture(TracerouteTo, c);
    TracerouteToFound(c);
    var m := Exec(TracerouteTo, c).value;
    assert c[m.start..m.end] == "traceroute to " + h;
    forall j | 0 <= j < |h| ensures IsAscii(h[j]) && !IsSpace(h[j]) {
      assert h[j] == c[m.start..m.end][14 + j] == c[m.start + 14 + j];
      assert InClass(h[j], NonSpace);
    }
  }

  /** A line starting with neither white space nor a digit has no leading
      number. */
  lemma {:induction false} NoLeadingNumber(s: string)
    requires s != [] && !IsSpace(s[0]) && !IsDigit(s[0])
    ensures Exec(LeadingNumber, s).None?
  {
    ExecLeadingNumber(s);
    RunEndUnique(s, 0, Space, 0);
    RunEndUnique(s, 0, Digit, 0);
  }

  // ---------------------------------------------------------------------------
  // The timeout line

  /** A timeout line cleans to its hop number followed by `* * * Request
      timed out`, which the timeout recogniser writes back as it was. */
  lemma {:induction false} TimeoutOutputFixed(c: string)
    requires Canonical(c) && HopRule(c).None? && BannerRule(c).None? && TimeoutRule(c).Some?
    ensures CleanTracertOutput(TimeoutRule(c).value) == TimeoutRule(c).value
  {
    var d := Capture(LeadingNumber, c);
    ExecLeadingNumber(c);
    TimeoutClean(d);
    var q := d + " * * * Request timed out";
    TimeoutLineRules(d, q);
    LinuxHopBranchDead(q);
  }

  /** The cleaning of a timeout line. */
  lemma {:induction false} TimeoutClean(d: string)
    requires Captured(d, Digit)
    ensures Clean(PadStart(d, 2) + TimedOut) == d + " * * * Request timed out"
  {
    var w, t, u := "   ", "* * *     Request timed out", "* * * Request timed out";
    TimeoutParts(w, t, u);
    TimeoutTailClean(t);
    PaddedClean(d, w, t, u);
    AppendAssociates(PadStart(d, 2), w, t);
    AppendAssociates(d, " ", u);
  }

  /** The padded hop number, a run of spaces and a tail clean to the hop
      number, one space and the cleaned tail. */
  lemma {:induction false} PaddedClean(d: string, w: string, t: string, u: string)
    requires Captured(d, Digit) && w != [] && forall i :: 0 <= i < |w| ==> w[i] == ' '
    requires AllAscii(t) && t != [] && !IsSpace(t[0]) && !IsSpace(t[|t| - 1]) && Clean(t) == u
    ensures Clean(PadStart(d, 2) + w + t) == d + " " + u
  {
    DigitsCanonical(d);
    CleanJoin(d, w, t);
    AsciiJoin(d, w, t);
    AppendAssociates(d, w, t);
    AppendAssociates(PadStart(d, 2), w, t);
    PadStartClean(d, w + t);
  }

  lemma {:induction false} AsciiJoin(d: string, w: string, t: string)
    requires AllAscii(d) && AllAscii(t) && forall i :: 0 <= i < |w| ==> w[i] == ' '
    ensures AllAscii(d + w + t)
  {
    var s := d + w + t;
    forall j | 0 <= j < |s| ensures IsAscii(s[j]) {
      if j < |d| {
        assert s[j] == d[j];
      } else if j < |d| + |w| {
        assert s[j] == w[j - |d|];
      } else {
        assert s[j] == t[j - |d| - |w|];
      }
    }
  }

  /** A hop number is a clean word. */
  lemma {:induction false} DigitsCanonical(d: string)
    requires Captured(d, Digit)
    ensures Canonical(d) && !IsSpace(d[0]) && !IsSpace(d[|d| - 1])
  {
    forall j | 0 <= j < |d| ensures IsAscii(d[j]) && !IsSpace(d[j]) {
      assert InClass(d[j], Digit);
    }
  }

  /** The fixed text of a timeout line, once cleaned. */
  lemma {:induction false} TimeoutTailClean(t: string)
    requires t == "* * *     Request timed out"
    ensures Clean(t) == "* * * Request timed out"
    ensures AllAscii(t) && t != [] && !IsSpace(t[0]) && !IsSpace(t[|t| - 1])
  {
    var x, v, a := "* * *", "     ", "Request timed out";
    TimeoutTailParts(x, v, a, t);
    CleanOfPlain(a);
    CleanJoin(x, v, a);
  }

  /** The pieces of the timeout text. */
  lemma {:induction false} TimeoutParts(w: string, t: string, u: string)
    requires w == "   " && t == "* * *     Request timed out" && u == "* * * Request timed out"
    ensures TimedOut == w + t && " * * * Request timed out" == " " + u
    ensures w != [] && forall i :: 0 <= i < |w| ==> w[i] == ' '
  {
    TimedOutParts(w, t);
    CleanTimeoutParts(u);
  }

  lemma {:induction false} TimedOutParts(w: string, t: string)
    requires w == "   " && t == "* * *     Request timed out"
    ensures TimedOut == w + t
  {
  }

  lemma {:induction false} CleanTimeoutParts(u: string)
    requires u == "* * * Request timed out"
    ensures " * * * Request timed out" == " " + u
  {
  }

  lemma {:induction false} TimeoutTailParts(x: string, v: string, a: string, t: string)
    requires x == "* * *" && v == "     " && a == "Request timed out" && t == "* * *     Request timed out"
    ensures t == x + v + a && "* * * Request timed out" == x + " " + a
    ensures Canonical(x) && x != [] && v != [] && forall i :: 0 <= i < |v| ==> v[i] == ' '
    ensures Plain(a) && AllAscii(a) && a != [] && a[0] == 'R' && a[|a| - 1] == 't'
    ensures AllAscii(t) && t[0] == '*' && t[|t| - 1] == 't'
  {
    TimeoutTailJoins(x, v, a, t);
    TimeoutTailPieces(x, v, a);
    assert AllAscii(t) by {
      AsciiJoin(x, v, a);
    }
  }

  lemma {:induction false} TimeoutTailJoins(x: string, v: string, a: string, t: string)
    requires x == "* * *" && v == "     " && a == "Request timed out" && t == "* * *     Request timed out"
    ensures t == x + v + a && "* * * Request timed out" == x + " " + a
  {
  }

  lemma {:induction false} TimeoutTailPieces(x: string, v: string, a: string)
    requires x == "* * *" && v == "     " && a == "Request timed out"
    ensures Canonical(x) && x != [] && v != [] && forall i :: 0 <= i < |v| ==> v[i] == ' '
    ensures Plain(a) && AllAscii(a) && a != [] && a[0] == 'R' && a[|a| - 1] == 't'
  {
  }

  /** On the cleaned timeout line only the timeout recogniser fires, and it
      finds the same hop number. */
  lemma {:induction false} TimeoutLineRules(d: string, q: string)
    requires Captured(d, Digit) && q == d + " * * * Request timed out"
    ensures HopRule(q).None? && BannerRule(q).None? && TimeoutRule(q) == Some(PadStart(d, 2) + TimedOut)
  {
    var y := " * * * Request timed out";
    TimeoutLineLetters(y);
    assert Lacks(d, 'm') && Lacks(d, 't');
    NoBigramNotContains(y, "ms", 0);
    NotContainsAfter(d, y, "ms");
    LacksNotContains(y, "traceroute to", 3);
    NotContainsAfter(d, y, "traceroute to");
    OccursRight(d, y, "*", 1);
    ExecLeadingNumber(q);
    RunEndUnique(q, 0, Space, 0);
    RunEndUnique(q, 0, Digit, |d|);
    assert q[0..|d|] == d;
  }

  lemma {:induction false} TimeoutLineLetters(y: string)
    requires y == " * * * Request timed out"
    ensures NoBigram(y, 'm', 's') && Lacks(y, 'c') && OccursAt(y, "*", 1) && y[0] == ' '
  {
    assert y[1] == '*';
    assert y[1..2] == "*";
  }

  // ---------------------------------------------------------------------------
  // The fixed lines

  /** The resolution error mentions none of the recognisers' words. */
  lemma {:induction false} ResolveErrorFixed()
    ensures CleanTracertOutput(ResolveError) == ResolveError
  {
    var r := ResolveError;
    ResolveErrorLetters();
    CleanOfPlain(r);
    NoLeadingNumber(r);
    WithoutCAndW(r);
    LinuxHopBranchDead(r);
  }

  lemma {:induction false} ResolveErrorLetters()
    ensures Plain(ResolveError) && ResolveError[0] == 'E' && ResolveError[|ResolveError| - 1] == 'e'
    ensures Lacks(ResolveError, 'c') && Lacks(ResolveError, 'w')
  {
    ResolveErrorPlain();
    ResolveErrorLacks();
  }

  lemma {:induction false} ResolveErrorPlain()
    ensures Plain(ResolveError) && ResolveError[0] == 'E' && ResolveError[|ResolveError| - 1] == 'e'
  {
  }

  lemma {:induction false} ResolveErrorLacks()
    ensures Lacks(ResolveError, 'c') && Lacks(ResolveError, 'w')
  {
  }

  /** Each word the recognisers look for has a `c` or a `w`. */
  lemma {:induction false} WithoutCAndW(r: string)
    requires Lacks(r, 'c') && Lacks(r, 'w')
    ensures !Contains(r, "traceroute to") && !MentionsResolveError(r) && !MentionsUnreachable(r)
  {
    WordLetters();
    LacksNotContains(r, "traceroute to", 3);
    LacksNotContains(r, "could not resolve", 0);
    LacksNotContains(r, "unknown host", 5);
    LacksNotContains(r, "Name or service not known", 13);
    LacksNotContains(r, "Network is unreachable", 3);
    LacksNotContains(r, "Destination host unreachable", 22);
  }

  lemma {:induction false} WordLetters()
    ensures "traceroute to"[3] == 'c' && "could not resolve"[0] == 'c' && "unknown host"[5] == 'w'
    ensures "Name or service not known"[13] == 'c' && "Network is unreachable"[3] == 'w'
    ensures "Destination host unreachable"[22] == 'c'
    ensures "traceroute to"[0] == 't' && "traceroute to"[1] == 'r' && "could not resolve"[4] == 'd'
    ensures "unknown host"[2] == 'k' && "unknown host"[3] == 'n' && "Name or service not known"[2] == 'm'
  {
  }

  /** The reachability error is recognised as itself. */
  lemma {:induction false} UnreachableFixed()
    ensures CleanTracertOutput(Unreachable) == Unreachable
  {
    var r := Unreachable;
    UnreachableLetters();
    UnreachableWords();
    CleanOfPlain(r);
    NoLeadingNumber(r);
    MentionsOnlyUnreachable(r);
    LinuxHopBranchDead(r);
  }

  lemma {:induction false} UnreachableLetters()
    ensures Plain(Unreachable) && Unreachable[0] == 'E' && Unreachable[|Unreachable| - 1] == 'e'
  {
  }

  lemma {:induction false} UnreachableWords()
    ensures NoBigram(Unreachable, 't', 'r') && Lacks(Unreachable, 'd')
    ensures NoBigram(Unreachable, 'k', 'n') && Lacks(Unreachable, 'm')
    ensures OccursAt(Unreachable, "Network is unreachable", 7)
  {
    UnreachableBigrams();
    UnreachableLacks();
    UnreachableAt();
  }

  lemma {:induction false} UnreachableBigrams()
    ensures NoBigram(Unreachable, 't', 'r') && NoBigram(Unreachable, 'k', 'n')
  {
  }

  lemma {:induction false} UnreachableLacks()
    ensures Lacks(Unreachable, 'd') && Lacks(Unreachable, 'm')
  {
  }

  lemma {:induction false} UnreachableAt()
    ensures OccursAt(Unreachable, "Network is unreachable", 7)
  {
    var a, b := "Error: ", "Network is unreachable";
    assert Unreachable == a + b;
    assert (a + b)[|a|..] == b;
  }

  /** A line with `Network is unreachable` and without the letters that start
      the earlier recognisers' words is taken as unreachable. */
  lemma {:induction false} MentionsOnlyUnreachable(r: string)
    requires NoBigram(r, 't', 'r') && Lacks(r, 'd') && NoBigram(r, 'k', 'n') && Lacks(r, 'm')
    requires OccursAt(r, "Network is unreachable", 7)
    ensures !Contains(r, "traceroute to") && !MentionsResolveError(r) && MentionsUnreachable(r)
  {
    WordLetters();
    NoBigramNotContains(r, "traceroute to", 0);
    LacksNotContains(r, "could not resolve", 4);
    NoBigramNotContains(r, "unknown host", 2);
    LacksNotContains(r, "Name or service not known", 2);
  }

  /** The empty line stays empty. */
  lemma {:induction false} EmptyFixed()
    ensures CleanTracertOutput("") == ""
  {
    CleanOfCanonical("");
    LinuxHopBranchDead("");
  }
}
