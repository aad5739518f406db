/** `cleanPingOutput` (ping-server/server.js:161-214) is idempotent: each
    line it writes is written again unchanged when fed back, because every
    rewritten form is taken by its own recogniser with the same captures, and
    a line passed through is rejected again by every recogniser. */
module PingIdempotence {
  import opened Base
  import opened Text
  import opened Cleaning
  import opened Patterns
  import opened Matches
  import opened Pieces
  import opened PingOutput
  import opened PingExamples

  // ---------------------------------------------------------------------------
  // Captures are digits and dots

  /** The characters of a dotted quad are digits and dots. */
  lemma {:induction false} QuadChars(g: string)
    requires IsDottedQuad(g)
    ensures Captured(g, DigitOrDot)
  {
    assert g[0..|g|] == g;
    DottedQuadAtIff(g, 0, |g|, g);
  }

  lemma {:induction false} DigitsChars(g: string)
    requires Captured(g, Digit)
    ensures Captured(g, DigitOrDot)
  {
  }

  /** Digits and dots are printable and are not spaces. */
  lemma {:induction false} CapturedPlain(g: string)
    requires Captured(g, DigitOrDot)
    ensures Plain(g) && g != [] && g[0] != ' ' && g[|g| - 1] != ' '
  {
  }

  /** A capture of digits and dots lacks every other character. */
  lemma {:induction false} CapturedLacks(g: string, c: char)
    requires Captured(g, DigitOrDot) && !InClass(c, DigitOrDot)
    ensures Lacks(g, c)
  {
  }

  /** Nor is anything in it followed by such a character. */
  lemma {:induction false} CapturedNoBigram(g: string, a: char, b: char)
    requires Captured(g, DigitOrDot) && !InClass(b, DigitOrDot)
    ensures NoBigram(g, a, b)
  {
    forall i | 0 <= i < |g| - 1 ensures !(g[i] == a && g[i + 1] == b) {
      assert InClass(g[i + 1], DigitOrDot);
    }
  }

  lemma {:induction false} CapturedNoPair(g: string, k: CharClass, c: char)
    requires Captured(g, DigitOrDot) && !InClass(c, DigitOrDot)
    ensures NoPair(g, k, c)
  {
    forall i | 0 <= i < |g| - 1 ensures !(InClass(g[i], k) && g[i + 1] == c) {
      assert InClass(g[i + 1], DigitOrDot);
    }
  }

  // ---------------------------------------------------------------------------
  // A line passed through

  /** A dotted quad of the cleaned text is one of the text itself: cleaning
      keeps its characters together, and a digit after it in the text would
      have stayed after it in the cleaned text. */
  lemma {:induction false} QuadSurvivesClean(text: string)
    requires Exec(DottedQuad, Clean(text)).Some?
    ensures Exec(DottedQuad, text).Some?
  {
    var c := Clean(text);
    var p, e, g := QuadFoundAt(c);
    var k := CleanWord(text, p, e);
    QuadInText(text, k, c, p, e, g);
  }

  /** The leftmost dotted quad of `c` is `c[p..e]`, followed by no digit. */
  predicate QuadAt(c: string, p: nat, e: nat, g: string) {
    p < e <= |c| && DottedQuadText(c[p..e], g) && (e == |c| || !IsDigit(c[e]))
  }

  /** Where the leftmost dotted quad lies; it has no white space. */
  lemma {:induction false} QuadFoundAt(c: string) returns (p: nat, e: nat, g: string)
    requires Exec(DottedQuad, c).Some?
    ensures QuadAt(c, p, e, g) && SpaceFree(c, p, e)
  {
    DottedQuadFound(c);
    var m := Exec(DottedQuad, c).value;
    p, e, g := m.start, m.end, m.groups[0];
    QuadChars(g);
    forall i | p <= i < e ensures !IsSpace(c[i]) {
      assert c[i] == g[i - p];
      SpaceIsNoDigit(c[i]);
    }
  }

  /** The quad found in the cleaned text at `p`, placed in the text at `k`. */
  lemma {:induction false} QuadInText(text: string, k: nat, c: string, p: nat, e: nat, g: string)
    requires QuadAt(c, p, e, g) && WordOfText(text, k, c, p, e)
    ensures Exec(DottedQuad, text).Some?
  {
    var f := k + (e - p);
    if f < |text| {
      SpaceIsNoDigit(text[f]);
    }
    assert f == |text| || !IsDigit(text[f]);
    DottedQuadAtIff(text, k, f, g);
    DottedQuadMatchAt(text, k);
  }

  // ---------------------------------------------------------------------------
  // The echo reply

  /** A reply line is written back unchanged: it is its own cleaning, mentions
      `64 bytes` and `time=`, and its leftmost address and time are the ones
      it was written with. */
  lemma {:induction false} ReplyFixed(ip: string, t: string)
    requires IsDottedQuad(ip) && Captured(t, DigitOrDot)
    ensures var r := "64 bytes from " + ip + ": time=" + t + "ms"; CleanPingOutput(r) == r
  {
    var x, y, z := "64 bytes from ", ": time=", "ms";
    QuadChars(ip);
    ReplyFormClean(x, ip, y, t, z);
    ReplyFormMentions(x, ip, y, t, z);
    ReplyFormTime(x, ip, y, t, z);
    ReplyFormAddress(x, ip, y, t, z);
    ReplyCase(x + ip + y + t + z, ip, t);
  }

  lemma {:induction false} ReplyFormClean(x: string, ip: string, y: string, t: string, z: string)
    requires x == "64 bytes from " && y == ": time=" && z == "ms"
    requires Captured(ip, DigitOrDot) && Captured(t, DigitOrDot)
    ensures Clean(x + ip + y + t + z) == x + ip + y + t + z
  {
    CapturedPlain(ip);
    CapturedPlain(t);
    assert Plain(x) && Plain(y) && Plain(z);
    CleanOfPlainFive(x, ip, y, t, z);
  }

  lemma {:induction false} ReplyFormMentions(x: string, ip: string, y: string, t: string, z: string)
    requires x == "64 bytes from " && y == ": time="
    ensures Contains(x + ip + y + t + z, "64 bytes") && Contains(x + ip + y + t + z, "time=")
  {
    assert OccursAt(x, "64 bytes", 0);
    OccursLeft(x, ip, "64 bytes", 0);
    OccursLeft(x + ip, y, "64 bytes", 0);
    OccursLeft(x + ip + y, t, "64 bytes", 0);
    OccursLeft(x + ip + y + t, z, "64 bytes", 0);
    assert OccursAt(y, "time=", 2);
    OccursRight(x + ip, y, "time=", 2);
    OccursLeft(x + ip + y, t, "time=", |x + ip| + 2);
    OccursLeft(x + ip + y + t, z, "time=", |x + ip| + 2);
  }

  lemma {:induction false} ReplyFormTime(x: string, ip: string, y: string, t: string, z: string)
    requires x == "64 bytes from " && y == ": time=" && z == "ms"
    requires Captured(ip, DigitOrDot) && Captured(t, DigitOrDot)
    ensures var r := x + ip + y + t + z; Exec(ReplyTime, r).Some? && Exec(ReplyTime, r).value.groups == [t]
  {
    var p := x + ip + ": ";
    ReplyPrefix(x, ip, ": ");
    assert y == ": " + "time=";
    AppendAssociates(x + ip, ": ", "time=");
    ReplyTimeAfter(p, t);
  }

  /** The part of a reply line before `time=` has no `e=` and ends in a
      space. */
  lemma {:induction false} ReplyPrefix(x: string, ip: string, w: string)
    requires x == "64 bytes from " && w == ": " && Captured(ip, DigitOrDot)
    ensures var p := x + ip + w; p != [] && p[|p| - 1] == ' ' && NoBigram(p, 'e', '=')
  {
    assert NoBigram(x, 'e', '=') && NoBigram(w, 'e', '=');
    CapturedNoBigram(ip, 'e', '=');
    NoBigramAppend(x, ip, 'e', '=');
    NoBigramAppend(x + ip, w, 'e', '=');
  }

  /** `time=` after a prefix that does not contain it, then the time and
      `ms`: the time is found. */
  lemma {:induction false} ReplyTimeAfter(p: string, t: string)
    requires p != [] && p[|p| - 1] == ' ' && NoBigram(p, 'e', '=') && Captured(t, DigitOrDot)
    ensures Exec(ReplyTime, p + "time=" + t + "ms") == Some(Match(|p|, |p| + |t| + 7, [t]))
  {
    var s := p + "time=" + t + "ms";
    ReplyTimeNotBefore(p, "time=" + t + "ms");
    AppendAssociates(p, "time=", t);
    AppendAssociates(p, "time=" + t, "ms");
    ReplyTimeAtPrefix(p, t, s);
    ExecFindsFirst(ReplyTime, s, |p|);
  }

  /** No `time=` starts inside the prefix. */
  lemma {:induction false} ReplyTimeNotBefore(p: string, tm: string)
    requires p != [] && p[|p| - 1] == ' ' && NoBigram(p, 'e', '=')
    ensures forall r :: 0 <= r < |p| ==> MatchAt(ReplyTime, p + tm, r).None?
  {
    TimeWord();
    forall r | 0 <= r < |p| ensures MatchAt(ReplyTime, p + tm, r).None? {
      WordNotIn(p, tm, "time=", 3, r);
      ReplyTimeMatchAt(p + tm, r);
    }
  }

  lemma {:induction false} ReplyTimeAtPrefix(p: string, t: string, s: string)
    requires s == p + "time=" + t + "ms" && Captured(t, DigitOrDot)
    ensures MatchAt(ReplyTime, s, |p|) == Some(Match(|p|, |p| + |t| + 7, [t]))
  {
    var a := |p| + 5 + |t|;
    TimePieces(p, t, s);
    RunOf(s, |p| + 5, t, DigitOrDot);
    ReplyTimeAtRuns(s, |p|, a, a, t);
    ReplyTimeMatchAt(s, |p|);
  }

  lemma {:induction false} TimeWord()
    ensures Lacks("time=", ' ') && "time="[3] == 'e' && "time="[4] == '='
  {
  }

  /** Where the pieces of `time=…ms` sit. */
  lemma {:induction false} TimePieces(p: string, t: string, s: string)
    requires s == p + "time=" + t + "ms" && Captured(t, DigitOrDot)
    ensures var a := |p| + 5 + |t|;
      && OccursAt(s, "time=", |p|) && OccursAt(s, t, |p| + 5) && OccursAt(s, "ms", a)
      && s[a] == 'm' && RunEnd(s, a, Space) == a
  {
    var a := |p| + 5 + |t|;
    assert s[|p|..|p| + 5] == "time=";
    assert s[|p| + 5..a] == t;
    assert s[a..a + 2] == "ms";
  }

  lemma {:induction false} ReplyFormAddress(x: string, ip: string, y: string, t: string, z: string)
    requires x == "64 bytes from " && y == ": time=" && IsDottedQuad(ip)
    ensures var r := x + ip + y + t + z; Exec(DottedQuad, r).Some? && Exec(DottedQuad, r).value.groups == [ip]
  {
    assert NoPair(x, Digit, '.');
    AppendAssociates(x + ip, y, t);
    AppendAssociates(x + ip, y + t, z);
    QuadAfter(x, ip, y + t + z);
  }

  // ---------------------------------------------------------------------------
  // The Windows reply

  /** A Windows reply line is written back unchanged: it does not mention
      `64 bytes`, mentions `32` and `TTL`, and its leftmost address and time
      are the ones it was written with. */
  lemma {:induction false} WindowsFixed(ip: string, n: string)
    requires IsDottedQuad(ip) && Captured(n, Digit)
    ensures var r := "Reply from " + ip + ": bytes=32 time=" + n + "ms TTL=63"; CleanPingOutput(r) == r
  {
    var w1, w2, w3 := "Reply from ", ": bytes=32 time=", "ms TTL=63";
    QuadChars(ip);
    DigitsChars(n);
    WindowsFormClean(w1, ip, w2, n, w3);
    WindowsFormNoSix(w1, ip, w2, n, w3);
    WindowsFormMentions(w1, ip, w2, n, w3);
    WindowsFormTime(w1, ip, w2, n, w3);
    WindowsFormAddress(w1, ip, w2, n, w3);
    WindowsCase(w1 + ip + w2 + n + w3, ip, n);
  }

  lemma {:induction false} WindowsFormClean(w1: string, ip: string, w2: string, n: string, w3: string)
    requires w1 == "Reply from " && w2 == ": bytes=32 time=" && w3 == "ms TTL=63"
    requires Captured(ip, DigitOrDot) && Captured(n, DigitOrDot)
    ensures Clean(w1 + ip + w2 + n + w3) == w1 + ip + w2 + n + w3
  {
    CapturedPlain(ip);
    CapturedPlain(n);
    assert Plain(w1) && Plain(w2) && Plain(w3);
    CleanOfPlainFive(w1, ip, w2, n, w3);
  }

  /** No `4` of the line is followed by a space, so it does not mention
      `64 bytes`. */
  lemma {:induction false} WindowsFormNoSix(w1: string, ip: string, w2: string, n: string, w3: string)
    requires w1 == "Reply from " && w2 == ": bytes=32 time=" && w3 == "ms TTL=63"
    requires Captured(ip, DigitOrDot) && Captured(n, DigitOrDot)
    ensures !Contains(w1 + ip + w2 + n + w3, "64 bytes")
  {
    assert NoBigram(w1, '4', ' ') && NoBigram(w2, '4', ' ') && NoBigram(w3, '4', ' ');
    CapturedNoBigram(ip, '4', ' ');
    CapturedNoBigram(n, '4', ' ');
    NoBigramAppend(w1, ip, '4', ' ');
    NoBigramAppend(w1 + ip, w2, '4', ' ');
    NoBigramAppend(w1 + ip + w2, n, '4', ' ');
    NoBigramAppend(w1 + ip + w2 + n, w3, '4', ' ');
    SixtyFour();
    NoBigramNotContains(w1 + ip + w2 + n + w3, "64 bytes", 1);
  }

  lemma {:induction false} SixtyFour()
    ensures "64 bytes"[1] == '4' && "64 bytes"[2] == ' '
  {
  }

  lemma {:induction false} WindowsFormMentions(w1: string, ip: string, w2: string, n: string, w3: string)
    requires w2 == ": bytes=32 time=" && w3 == "ms TTL=63"
    ensures Contains(w1 + ip + w2 + n + w3, "32") && Contains(w1 + ip + w2 + n + w3, "TTL")
  {
    assert OccursAt(w2, "32", 8);
    OccursRight(w1 + ip, w2, "32", 8);
    OccursLeft(w1 + ip + w2, n, "32", |w1 + ip| + 8);
    OccursLeft(w1 + ip + w2 + n, w3, "32", |w1 + ip| + 8);
    assert OccursAt(w3, "TTL", 3);
    OccursRight(w1 + ip + w2 + n, w3, "TTL", 3);
  }

  lemma {:induction false} WindowsFormTime(w1: string, ip: string, w2: string, n: string, w3: string)
    requires w1 == "Reply from " && w2 == ": bytes=32 time=" && w3 == "ms TTL=63"
    requires Captured(ip, DigitOrDot) && Captured(n, Digit)
    ensures var r := w1 + ip + w2 + n + w3; Exec(DigitsMs, r).Some? && Exec(DigitsMs, r).value.groups == [n]
  {
    var x := w1 + ip + w2;
    WindowsPrefix(w1, ip, w2);
    assert w3 == "ms" + " TTL=63";
    AppendAssociates(x + n, "ms", " TTL=63");
    AppendAssociates(x, n, "ms");
    WindowsTime(x, n, " TTL=63");
  }

  /** Before the time of a Windows reply no digit is followed by `m`. */
  lemma {:induction false} WindowsPrefix(w1: string, ip: string, w2: string)
    requires w1 == "Reply from " && w2 == ": bytes=32 time=" && Captured(ip, DigitOrDot)
    ensures var x := w1 + ip + w2; x != [] && !IsDigit(x[|x| - 1]) && NoPair(x, Digit, 'm')
  {
    assert NoPair(w1, Digit, 'm') && NoPair(w2, Digit, 'm');
    CapturedNoPair(ip, Digit, 'm');
    NoPairAppend(w1, ip, Digit, 'm');
    NoPairAppend(w1 + ip, w2, Digit, 'm');
  }

  lemma {:induction false} WindowsFormAddress(w1: string, ip: string, w2: string, n: string, w3: string)
    requires w1 == "Reply from " && w2 == ": bytes=32 time=" && IsDottedQuad(ip)
    ensures var r := w1 + ip + w2 + n + w3; Exec(DottedQuad, r).Some? && Exec(DottedQuad, r).value.groups == [ip]
  {
    assert NoPair(w1, Digit, '.');
    AppendAssociates(w1 + ip, w2, n);
    AppendAssociates(w1 + ip, w2 + n, w3);
    QuadAfter(w1, ip, w2 + n + w3);
  }

  // ---------------------------------------------------------------------------
  // The banner

  /** A banner is written back unchanged: it has no `=` and no `T`, so neither
      reply recogniser takes it, and its leftmost address is the first of the
      two it was written with. */
  lemma {:induction false} BannerFixed(ip: string)
    requires IsDottedQuad(ip)
    ensures var r := "PING " + ip + " (" + ip + ") 56(84) bytes of data."; CleanPingOutput(r) == r
  {
    var b1, b2, b3 := "PING ", " (", ") 56(84) bytes of data.";
    QuadChars(ip);
    BannerFormClean(b1, ip, b2, b3);
    BannerFormLacks(b1, ip, b2, b3);
    BannerFormMentions(b1, ip, b2, b3);
    BannerFormAddress(b1, ip, b2, b3);
    BannerCase(b1 + ip + b2 + ip + b3, ip);
  }

  lemma {:induction false} BannerFormClean(b1: string, ip: string, b2: string, b3: string)
    requires b1 == "PING " && b2 == " (" && b3 == ") 56(84) bytes of data." && Captured(ip, DigitOrDot)
    ensures Clean(b1 + ip + b2 + ip + b3) == b1 + ip + b2 + ip + b3
  {
    CapturedPlain(ip);
    assert Plain(b1) && Plain(b2) && Plain(b3);
    CleanOfPlainFive(b1, ip, b2, ip, b3);
  }

  lemma {:induction false} BannerFormLacks(b1: string, ip: string, b2: string, b3: string)
    requires b1 == "PING " && b2 == " (" && b3 == ") 56(84) bytes of data." && Captured(ip, DigitOrDot)
    ensures !Contains(b1 + ip + b2 + ip + b3, "time=") && !Contains(b1 + ip + b2 + ip + b3, "TTL")
  {
    assert Lacks(b1, '=') && Lacks(b2, '=') && Lacks(b3, '=');
    CapturedLacks(ip, '=');
    LacksFive(b1, ip, b2, ip, b3, '=');
    LacksNotContains(b1 + ip + b2 + ip + b3, "time=", 4);
    assert Lacks(b1, 'T') && Lacks(b2, 'T') && Lacks(b3, 'T');
    CapturedLacks(ip, 'T');
    LacksFive(b1, ip, b2, ip, b3, 'T');
    LacksNotContains(b1 + ip + b2 + ip + b3, "TTL", 0);
  }

  lemma {:induction false} LacksFive(p1: string, p2: string, p3: string, p4: string, p5: string, c: char)
    requires Lacks(p1, c) && Lacks(p2, c) && Lacks(p3, c) && Lacks(p4, c) && Lacks(p5, c)
    ensures Lacks(p1 + p2 + p3 + p4 + p5, c)
  {
    LacksAppend(p1, p2, c);
    LacksAppend(p1 + p2, p3, c);
    LacksAppend(p1 + p2 + p3, p4, c);
    LacksAppend(p1 + p2 + p3 + p4, p5, c);
  }

  lemma {:induction false} BannerFormMentions(b1: string, ip: string, b2: string, b3: string)
    requires b1 == "PING " && b2 == " ("
    ensures Contains(b1 + ip + b2 + ip + b3, "PING") && Contains(b1 + ip + b2 + ip + b3, "(")
  {
    assert OccursAt(b1, "PING", 0);
    OccursLeft(b1, ip, "PING", 0);
    OccursLeft(b1 + ip, b2, "PING", 0);
    OccursLeft(b1 + ip + b2, ip, "PING", 0);
    OccursLeft(b1 + ip + b2 + ip, b3, "PING", 0);
    assert OccursAt(b2, "(", 1);
    OccursRight(b1 + ip, b2, "(", 1);
    OccursLeft(b1 + ip + b2, ip, "(", |b1 + ip| + 1);
    OccursLeft(b1 + ip + b2 + ip, b3, "(", |b1 + ip| + 1);
  }

  lemma {:induction false} BannerFormAddress(b1: string, ip: string, b2: string, b3: string)
    requires b1 == "PING " && b2 == " (" && IsDottedQuad(ip)
    ensures var r := b1 + ip + b2 + ip + b3; Exec(DottedQuad, r).Some? && Exec(DottedQuad, r).value.groups == [ip]
  {
    assert NoPair(b1, Digit, '.');
    AppendAssociates(b1 + ip, b2, ip);
    AppendAssociates(b1 + ip, b2 + ip, b3);
    QuadAfter(b1, ip, b2 + ip + b3);
  }

  // ---------------------------------------------------------------------------
  // The summary line

  /** A summary line as the recogniser writes it comes back unchanged. */
  lemma {:induction false} SummaryFixed(n: string, m: string, l: string)
    requires Captured(n, Digit) && Captured(m, Digit) && Captured(l, Digit)
    ensures var r := n + " packets transmitted, " + m + " received, " + l + "% packet loss"; CleanPingOutput(r) == r
  {
    var p2, p4, p6 := " packets transmitted, ", " received, ", "% packet loss";
    SummaryFormClean(n, p2, m, p4, l, p6);
    SummaryFormLacks(n, p2, m, p4, l, p6);
    SummaryFormAt(n, p2, m, p4, l, p6);
    var r := n + p2 + m + p4 + l + p6;
    SummaryCounts(r, n, m, l);
    SummaryLoss(r, n, m, l);
    SummaryCase(r, n, m, l);
  }

  lemma {:induction false} SummaryFormClean(n: string, p2: string, m: string, p4: string, l: string, p6: string)
    requires p2 == " packets transmitted, " && p4 == " received, " && p6 == "% packet loss"
    requires Captured(n, Digit) && Captured(m, Digit) && Captured(l, Digit)
    ensures Clean(n + p2 + m + p4 + l + p6) == n + p2 + m + p4 + l + p6
  {
    DigitsChars(n);
    DigitsChars(m);
    DigitsChars(l);
    CapturedPlain(n);
    CapturedPlain(m);
    CapturedPlain(l);
    assert Plain(p2) && Plain(p4) && Plain(p6);
    PlainAppend(n, p2);
    assert (n + p2)[0] == n[0] && (n + p2)[|n + p2| - 1] == p2[|p2| - 1];
    CleanOfPlainFive(n + p2, m, p4, l, p6);
  }

  /** No `=`, `T` or `P`: neither reply recogniser nor the banner one takes
      the line. */
  lemma {:induction false} SummaryFormLacks(n: string, p2: string, m: string, p4: string, l: string, p6: string)
    requires p2 == " packets transmitted, " && p4 == " received, " && p6 == "% packet loss"
    requires Captured(n, Digit) && Captured(m, Digit) && Captured(l, Digit)
    ensures var r := n + p2 + m + p4 + l + p6;
      !Contains(r, "time=") && !Contains(r, "TTL") && !Contains(r, "PING")
  {
    DigitsChars(n);
    DigitsChars(m);
    DigitsChars(l);
    SummaryFormLacksChar(n, p2, m, p4, l, p6, '=');
    LacksNotContains(n + p2 + m + p4 + l + p6, "time=", 4);
    SummaryFormLacksChar(n, p2, m, p4, l, p6, 'T');
    LacksNotContains(n + p2 + m + p4 + l + p6, "TTL", 0);
    SummaryFormLacksChar(n, p2, m, p4, l, p6, 'P');
    LacksNotContains(n + p2 + m + p4 + l + p6, "PING", 0);
  }

  lemma {:induction false} SummaryFormLacksChar(n: string, p2: string, m: string, p4: string, l: string, p6: string, c: char)
    requires p2 == " packets transmitted, " && p4 == " received, " && p6 == "% packet loss"
    requires Captured(n, DigitOrDot) && Captured(m, DigitOrDot) && Captured(l, DigitOrDot)
    requires c == '=' || c == 'T' || c == 'P'
    ensures Lacks(n + p2 + m + p4 + l + p6, c)
  {
    assert Lacks(p2, c) && Lacks(p4, c) && Lacks(p6, c);
    CapturedLacks(n, c);
    CapturedLacks(m, c);
    CapturedLacks(l, c);
    SummaryLacks(n, p2, m, p4, l, p6, c);
  }

  lemma {:induction false} SummaryFormAt(n: string, p2: string, m: string, p4: string, l: string, p6: string)
    requires p2 == " packets transmitted, " && p4 == " received, " && p6 == "% packet loss"
    requires Captured(n, Digit) && Captured(m, Digit) && Captured(l, Digit)
    ensures SummaryAt(n + p2 + m + p4 + l + p6, n, m, l)
  {
    PiecesAt(n, p2, m, p4, l, p6);
    assert |n + p2| == |n| + 22 && |n + p2 + m + p4| == |n| + |m| + 33;
  }

  // ---------------------------------------------------------------------------
  // The round-trip line

  /** A round-trip line as the recogniser writes it comes back unchanged. */
  lemma {:induction false} RoundTripFixed(a: string, b: string, c: string)
    requires Captured(a, DigitOrDot) && Captured(b, DigitOrDot) && Captured(c, DigitOrDot)
    ensures var r := "round-trip min/avg/max = " + a + "/" + b + "/" + c + " ms"; CleanPingOutput(r) == r
  {
    var q1, t, q3 := "round-trip min/avg/max = ", a + "/" + b + "/" + c, " ms";
    TimesText(a, b, c);
    RoundTripFormClean(q1, t, q3);
    RoundTripFormLacks(q1, t, q3);
    RoundTripFormMentions(q1, t, q3);
    RoundTripFormTimes(q1, t, q3, a, b, c);
    RoundTripCase(q1 + t + q3, a, b, c);
    Regroup(q1, a, b, c, q3);
  }

  lemma {:induction false} Regroup(q1: string, a: string, b: string, c: string, q3: string)
    ensures q1 + a + "/" + b + "/" + c + q3 == q1 + (a + "/" + b + "/" + c) + q3
  {
    AppendAssociates(q1, a + "/" + b + "/", c);
    AppendAssociates(q1, a + "/" + b, "/");
    AppendAssociates(q1, a + "/", b);
    AppendAssociates(q1, a, "/");
  }

  /** The three times joined by slashes: digits, dots and slashes only. */
  predicate TimesChars(t: string) {
    t != [] && forall i :: 0 <= i < |t| ==> InClass(t[i], DigitOrDot) || t[i] == '/'
  }

  lemma {:induction false} TimesText(a: string, b: string, c: string)
    requires Captured(a, DigitOrDot) && Captured(b, DigitOrDot) && Captured(c, DigitOrDot)
    ensures TimesChars(a + "/" + b + "/" + c)
  {
    var t := a + "/" + b + "/" + c;
    forall i | 0 <= i < |t| ensures InClass(t[i], DigitOrDot) || t[i] == '/' {
      if i < |a| {
        assert t[i] == a[i];
      } else if i == |a| {
      } else if i < |a| + 1 + |b| {
        assert t[i] == b[i - |a| - 1];
      } else if i == |a| + 1 + |b| {
      } else {
        assert t[i] == c[i - |a| - |b| - 2];
      }
    }
  }

  lemma {:induction false} TimesLack(t: string, ch: char)
    requires TimesChars(t) && !InClass(ch, DigitOrDot) && ch != '/'
    ensures Lacks(t, ch)
  {
  }

  lemma {:induction false} RoundTripFormClean(q1: string, t: string, q3: string)
    requires q1 == "round-trip min/avg/max = " && q3 == " ms" && TimesChars(t)
    ensures Clean(q1 + t + q3) == q1 + t + q3
  {
    assert Plain(q1) && Plain(t) && Plain(q3);
    CleanOfPlainThree(q1, t, q3);
  }

  /** No `b`, `T`, `P` or `k`: none of the earlier recognisers takes the
      line. */
  lemma {:induction false} RoundTripFormLacks(q1: string, t: string, q3: string)
    requires q1 == "round-trip min/avg/max = " && q3 == " ms" && TimesChars(t)
    ensures var r := q1 + t + q3;
      && !Contains(r, "64 bytes") && !Contains(r, "TTL") && !Contains(r, "PING")
      && !Contains(r, "packets transmitted") && !Contains(r, "packet loss")
  {
    var r := q1 + t + q3;
    RoundTripFormLacksChar(q1, t, q3, 'b');
    LacksNotContains(r, "64 bytes", 3);
    RoundTripFormLacksChar(q1, t, q3, 'T');
    LacksNotContains(r, "TTL", 0);
    RoundTripFormLacksChar(q1, t, q3, 'P');
    LacksNotContains(r, "PING", 0);
    RoundTripFormLacksChar(q1, t, q3, 'k');
    LacksNotContains(r, "packets transmitted", 3);
    LacksNotContains(r, "packet loss", 3);
  }

  lemma {:induction false} RoundTripFormLacksChar(q1: string, t: string, q3: string, ch: char)
    requires q1 == "round-trip min/avg/max = " && q3 == " ms" && TimesChars(t)
    requires ch == 'b' || ch == 'T' || ch == 'P' || ch == 'k'
    ensures Lacks(q1 + t + q3, ch)
  {
    assert Lacks(q1, ch) && Lacks(q3, ch);
    TimesLack(t, ch);
    RoundTripLacks(q1, t, q3, ch);
  }

  lemma {:induction false} RoundTripFormMentions(q1: string, t: string, q3: string)
    requires q1 == "round-trip min/avg/max = "
    ensures Contains(q1 + t + q3, "min/avg/max")
  {
    assert OccursAt(q1, "min/avg/max", 11);
    OccursLeft(q1, t + q3, "min/avg/max", 11);
    AppendAssociates(q1, t, q3);
  }

  /** The leftmost triple is the three times: nothing before them is a digit
      or a dot, and a space follows them. */
  lemma {:induction false} RoundTripFormTimes(q1: string, t: string, q3: string, a: string, b: string, c: string)
    requires q1 == "round-trip min/avg/max = " && q3 == " ms" && t == a + "/" + b + "/" + c
    requires Captured(a, DigitOrDot) && Captured(b, DigitOrDot) && Captured(c, DigitOrDot)
    ensures Exec(Triple, q1 + t + q3).Some? && Exec(Triple, q1 + t + q3).value.groups == [a, b, c]
  {
    var r := q1 + t + q3;
    AppendAssociates(q1, t, q3);
    OccursLeft(q1, t + q3, q1, 0);
    ClassFree(r, q1, 0, DigitOrDot);
    forall i | 0 <= i < |q1| ensures MatchAt(Triple, r, i).None? {
      assert RunEnd(r, i, DigitOrDot) == i;
      TripleMatchAt(r, i);
    }
    MiddleSlice(q1, t, q3);
    var g := [a, b, c];
    assert forall k :: 0 <= k < 3 ==> Captured(g[k], DigitOrDot);
    assert r[|q1| + |t|] == q3[0];
    TripleAtIff(r, |q1|, |q1| + |t|, g);
    TripleMatchAt(r, |q1|);
    ExecFindsFirst(Triple, r, |q1|);
  }

  // ---------------------------------------------------------------------------
  // Lines no recogniser takes

  /** A line no recogniser takes is passed through cleaned, and its cleaned
      form is again taken by none: cleaning changes none of the tests, and a
      dotted quad in the cleaned line was already in the raw text. */
  lemma {:induction false} PassedThroughFixed(text: string)
    requires Unrecognised(text) && |Clean(text)| > 5
    ensures CleanPingOutput(CleanPingOutput(text)) == CleanPingOutput(text)
  {
    var c := Clean(text);
    CleanIdempotent(text);
    if Exec(DottedQuad, c).Some? {
      QuadSurvivesClean(text);
    }
    assert Unrecognised(c);
  }

  /** The empty line stays empty. */
  lemma {:induction false} EmptyFixed()
    ensures CleanPingOutput("") == ""
  {
    assert Clean("") == "";
    assert !Contains("", "64 bytes") && !Contains("", "32") && !Contains("", "PING");
    assert !Contains("", "packets transmitted") && !Contains("", "packet loss");
    assert !Contains("", "min/avg/max") && !Contains("", "min");
  }

  // ---------------------------------------------------------------------------
  // What each recogniser writes

  lemma {:induction false} ReplyOutputFixed(text: string)
    requires ReplyRule(text, Clean(text)).Some?
    ensures var v := ReplyRule(text, Clean(text)).value; CleanPingOutput(v) == v
  {
    DottedQuadFound(text);
    ReplyTimeFound(Clean(text));
    ReplyFixed(Capture(DottedQuad, text), Capture(ReplyTime, Clean(text)));
  }

  lemma {:induction false} WindowsOutputFixed(text: string)
    requires WindowsReplyRule(text, Clean(text)).Some?
    ensures var v := WindowsReplyRule(text, Clean(text)).value; CleanPingOutput(v) == v
  {
    DottedQuadFound(text);
    DigitsMsFound(Clean(text));
    WindowsFixed(Capture(DottedQuad, text), Capture(DigitsMs, Clean(text)));
  }

  lemma {:induction false} BannerOutputFixed(text: string)
    requires BannerRule(text, Clean(text)).Some?
    ensures var v := BannerRule(text, Clean(text)).value; CleanPingOutput(v) == v
  {
    DottedQuadFound(text);
    BannerFixed(Capture(DottedQuad, text));
  }

  lemma {:induction false} SummaryOutputFixed(c: string)
    requires SummaryRule(c).Some?
    ensures var v := SummaryRule(c).value; CleanPingOutput(v) == v
  {
    SentFound(c);
    ReceivedFound(c);
    LossFound(c);
    SummaryFixed(Capture(Sent, c), Capture(Received, c), Capture(Loss, c));
  }

  lemma {:induction false} RoundTripOutputFixed(c: string)
    requires RoundTripRule(c).Some?
    ensures var v := RoundTripRule(c).value; CleanPingOutput(v) == v
  {
    TripleFound(c);
    var g := Exec(Triple, c).value.groups;
    RoundTripFixed(g[0], g[1], g[2]);
  }

  /** `cleanPingOutput` is idempotent: what it writes, cleaned again, comes
      back unchanged. */
  lemma {:induction false} CleanPingOutputIdempotent(text: string)
    ensures CleanPingOutput(CleanPingOutput(text)) == CleanPingOutput(text)
  {
    var c := Clean(text);
    if ReplyRule(text, c).Some? {
      ReplyOutputFixed(text);
    } else if WindowsReplyRule(text, c).Some? {
      WindowsOutputFixed(text);
    } else if BannerRule(text, c).Some? {
      BannerOutputFixed(text);
    } else if SummaryRule(c).Some? {
      SummaryOutputFixed(c);
    } else if RoundTripRule(c).Some? {
      RoundTripOutputFixed(c);
    } else if |c| > 5 {
      PassedThroughFixed(text);
    } else {
      EmptyFixed();
    }
  }
}
