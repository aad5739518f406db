/** Worked examples of `cleanPingOutput`, one per recogniser: each line is
    written as a few short pieces joined together. */
module PingExamples {
  import opened Base
  import opened Text
  import opened Cleaning
  import opened Patterns
  import opened Matches
  import opened Pieces
  import opened PingOutput

  /** A Linux echo reply keeps the address and the time and drops the
      sequence number and the TTL. */
  lemma {:induction false} ReplyExample()
    ensures CleanPingOutput("64 bytes from " + "93.184.216.34" + ": icmp_seq=1 ttl=56 " + "time=11.2 ms")
      == "64 bytes from " + "93.184.216.34" + ": time=" + "11.2" + "ms"
  {
    var x, ip, z, tm := "64 bytes from ", "93.184.216.34", ": icmp_seq=1 ttl=56 ", "time=11.2 ms";
    ReplyLineClean(x, ip, z, tm);
    ReplyLineMentions(x, ip, z, tm);
    ReplyLineTime(x, ip, z, tm);
    ReplyLineAddress(x, ip, z, tm);
    ReplyCase(x + ip + z + tm, ip, "11.2");
  }

  lemma {:induction false} ReplyLineTime(x: string, ip: string, z: string, tm: string)
    requires x == "64 bytes from " && ip == "93.184.216.34" && z == ": icmp_seq=1 ttl=56 " && tm == "time=11.2 ms"
    ensures Exec(ReplyTime, x + ip + z + tm).Some? && Exec(ReplyTime, x + ip + z + tm).value.groups == ["11.2"]
  {
    ReplyLineNoEarlierTime(x, ip, z);
    ReplyTimeOfExample(x + ip + z, tm);
  }

  lemma {:induction false} ReplyLineAddress(x: string, ip: string, z: string, tm: string)
    requires x == "64 bytes from " && ip == "93.184.216.34" && z == ": icmp_seq=1 ttl=56 " && tm == "time=11.2 ms"
    ensures Exec(DottedQuad, x + ip + z + tm).Some? && Exec(DottedQuad, x + ip + z + tm).value.groups == [ip]
  {
    ReplyAddress(x, ip, z + tm);
    AppendAssociates(x + ip, z, tm);
  }

  /** A line that is its own cleaned form and mentions `64 bytes` and
      `time=` is rendered from its leftmost address and time. */
  lemma {:induction false} ReplyCase(s: string, ip: string, t: string)
    requires Clean(s) == s && Contains(s, "64 bytes") && Contains(s, "time=")
    requires Exec(ReplyTime, s).Some? && Exec(ReplyTime, s).value.groups == [t]
    requires Exec(DottedQuad, s).Some? && Exec(DottedQuad, s).value.groups == [ip]
    ensures CleanPingOutput(s) == "64 bytes from " + ip + ": time=" + t + "ms"
  {
  }

  lemma {:induction false} ReplyLineClean(x: string, ip: string, z: string, tm: string)
    requires x == "64 bytes from " && ip == "93.184.216.34" && z == ": icmp_seq=1 ttl=56 " && tm == "time=11.2 ms"
    ensures Clean(x + ip + z + tm) == x + ip + z + tm
  {
    assert Plain(x) && Plain(ip) && Plain(z) && Plain(tm);
    CleanOfPlainFour(x, ip, z, tm);
  }

  lemma {:induction false} ReplyLineMentions(x: string, ip: string, z: string, tm: string)
    requires x == "64 bytes from " && tm == "time=11.2 ms"
    ensures Contains(x + ip + z + tm, "64 bytes") && Contains(x + ip + z + tm, "time=")
  {
    assert OccursAt(x, "64 bytes", 0);
    OccursLeft(x, ip + z + tm, "64 bytes", 0);
    AppendAssociates(x, ip, z);
    AppendAssociates(x, ip + z, tm);
    assert OccursAt(tm, "time=", 0);
    OccursRight(x + ip + z, tm, "time=", 0);
  }

  lemma {:induction false} ReplyLineNoEarlierTime(x: string, ip: string, z: string)
    requires x == "64 bytes from " && ip == "93.184.216.34" && z == ": icmp_seq=1 ttl=56 "
    ensures NoBigram(x + ip + z, 'e', '=') && (x + ip + z)[|x + ip + z| - 1] == ' '
  {
    assert NoBigram(x, 'e', '=') && NoBigram(ip, 'e', '=') && NoBigram(z, 'e', '=');
    NoBigramAppend(x, ip, 'e', '=');
    NoBigramAppend(x + ip, z, 'e', '=');
  }

  lemma {:induction false} ReplyAddress(x: string, ip: string, rest: string)
    requires x == "64 bytes from " && ip == "93.184.216.34" && rest != [] && rest[0] == ':'
    ensures Exec(DottedQuad, x + ip + rest) == Some(Match(|x|, |x| + |ip|, [ip]))
  {
    assert NoPair(x, Digit, '.');
    assert AllDigits("93") && AllDigits("184") && AllDigits("216") && AllDigits("34");
    ReplyAddressParts();
    QuadOf("93", "184", "216", "34");
    QuadAfter(x, ip, rest);
  }

  lemma {:induction false} ReplyAddressParts()
    ensures "93" + "." + "184" + "." + "216" + "." + "34" == "93.184.216.34"
  {
  }

  /** The time of the reply line is the one of its last piece: `time=` does
      not occur earlier. */
  lemma {:induction false} ReplyTimeOfExample(p: string, tm: string)
    requires |p| > 0 && p[|p| - 1] == ' ' && tm == "time=11.2 ms" && NoBigram(p, 'e', '=')
    ensures Exec(ReplyTime, p + tm) == Some(Match(|p|, |p + tm|, ["11.2"]))
  {
    var s := p + tm;
    assert Lacks("time=", ' ');
    forall r | 0 <= r < |p| ensures MatchAt(ReplyTime, s, r).None? {
      WordNotIn(p, tm, "time=", 3, r);
      ReplyTimeMatchAt(s, r);
    }
    RightSlice(p, tm);
    assert ReplyTimeText(tm, "11.2") by {
      assert Captured("11.2", DigitOrDot);
      assert OccursAt(tm, "time=" + "11.2", 0);
      assert tm[9..] == " ms";
      TrimStartAt(" ms", 1);
      assert ["time=" + "11.2", "ms"][1..] == ["ms"];
    }
    ReplyTimeAtIff(s, |p|, |s|, "11.2");
    ReplyTimeMatchAt(s, |p|);
    ExecFindsFirst(ReplyTime, s, |p|);
  }

  /** A Windows reply: the byte count and the TTL are replaced by the fixed
      `bytes=32` and `TTL=63`, and the time becomes the digits before `ms`. */
  lemma {:induction false} WindowsReplyExample()
    ensures CleanPingOutput("Reply from " + "8.8.8.8" + ": bytes=32 time=" + "5ms" + " TTL=118")
      == "Reply from " + "8.8.8.8" + ": bytes=32 time=" + "5" + "ms TTL=63"
  {
    var w1, ip, w2, t, w3 := "Reply from ", "8.8.8.8", ": bytes=32 time=", "5ms", " TTL=118";
    WindowsLineClean(w1, ip, w2, t, w3);
    WindowsLineNoSix(w1, ip, w2, t, w3);
    WindowsLineMentions(w1, ip, w2, t, w3);
    WindowsLineTime(w1, ip, w2, t, w3);
    WindowsLineAddress(w1, ip, w2, t, w3);
    WindowsCase(w1 + ip + w2 + t + w3, ip, "5");
  }

  lemma {:induction false} WindowsLineTime(w1: string, ip: string, w2: string, t: string, w3: string)
    requires w1 == "Reply from " && ip == "8.8.8.8" && w2 == ": bytes=32 time=" && t == "5ms" && w3 == " TTL=118"
    ensures var s := w1 + ip + w2 + t + w3; Exec(DigitsMs, s).Some? && Exec(DigitsMs, s).value.groups == ["5"]
  {
    WindowsNoEarlierTime(w1 + ip + w2);
    assert t == "5" + "ms" && Captured("5", Digit);
    WindowsTime(w1 + ip + w2, "5", w3);
  }

  lemma {:induction false} WindowsLineAddress(w1: string, ip: string, w2: string, t: string, w3: string)
    requires w1 == "Reply from " && ip == "8.8.8.8" && w2 == ": bytes=32 time=" && t == "5ms" && w3 == " TTL=118"
    ensures var s := w1 + ip + w2 + t + w3; Exec(DottedQuad, s).Some? && Exec(DottedQuad, s).value.groups == [ip]
  {
    WindowsAddress(w1, ip, w2 + t + w3);
    AppendAssociates(w1 + ip, w2, t);
    AppendAssociates(w1 + ip, w2 + t, w3);
  }

  /** A line that is its own cleaned form, does not mention `64 bytes` and
      mentions `32` and `TTL` is rendered as a Windows reply. */
  lemma {:induction false} WindowsCase(s: string, ip: string, n: string)
    requires Clean(s) == s && !Contains(s, "64 bytes") && Contains(s, "32") && Contains(s, "TTL")
    requires Exec(DigitsMs, s).Some? && Exec(DigitsMs, s).value.groups == [n]
    requires Exec(DottedQuad, s).Some? && Exec(DottedQuad, s).value.groups == [ip]
    ensures CleanPingOutput(s) == "Reply from " + ip + ": bytes=32 time=" + n + "ms TTL=63"
  {
  }

  lemma {:induction false} WindowsLineClean(w1: string, ip: string, w2: string, t: string, w3: string)
    requires w1 == "Reply from " && ip == "8.8.8.8" && w2 == ": bytes=32 time=" && t == "5ms" && w3 == " TTL=118"
    ensures Clean(w1 + ip + w2 + t + w3) == w1 + ip + w2 + t + w3
  {
    assert Plain(w1) && Plain(ip) && Plain(w2) && Plain(t) && Plain(w3);
    CleanOfPlainFive(w1, ip, w2, t, w3);
  }

  /** The line has no `6`, so it does not mention `64 bytes`. */
  lemma {:induction false} WindowsLineNoSix(w1: string, ip: string, w2: string, t: string, w3: string)
    requires w1 == "Reply from " && ip == "8.8.8.8" && w2 == ": bytes=32 time=" && t == "5ms" && w3 == " TTL=118"
    ensures !Contains(w1 + ip + w2 + t + w3, "64 bytes")
  {
    assert Lacks(w1, '6') && Lacks(ip, '6') && Lacks(w2, '6') && Lacks(t, '6') && Lacks(w3, '6');
    LacksAppend(w1, ip, '6');
    LacksAppend(w1 + ip, w2, '6');
    LacksAppend(w1 + ip + w2, t, '6');
    LacksAppend(w1 + ip + w2 + t, w3, '6');
    LacksNotContains(w1 + ip + w2 + t + w3, "64 bytes", 0);
  }

  lemma {:induction false} WindowsLineMentions(w1: string, ip: string, w2: string, t: string, w3: string)
    requires w2 == ": bytes=32 time=" && w3 == " TTL=118"
    ensures Contains(w1 + ip + w2 + t + w3, "32") && Contains(w1 + ip + w2 + t + w3, "TTL")
  {
    assert OccursAt(w2, "32", 8);
    OccursRight(w1 + ip, w2, "32", 8);
    OccursLeft(w1 + ip + w2, t + w3, "32", |w1 + ip| + 8);
    AppendAssociates(w1 + ip + w2, t, w3);
    assert OccursAt(w3, "TTL", 1);
    OccursRight(w1 + ip + w2 + t, w3, "TTL", 1);
  }

  /** The time is the first run of digits directly followed by `m`. */
  lemma {:induction false} WindowsTime(x: string, n: string, y: string)
    requires x != [] && !IsDigit(x[|x| - 1]) && NoPair(x, Digit, 'm') && Captured(n, Digit)
    ensures Exec(DigitsMs, x + (n + "ms") + y) == Some(Match(|x|, |x| + |n| + 2, [n]))
  {
    var s := x + (n + "ms") + y;
    AppendAssociates(x, n + "ms", y);
    DigitsMsNotBefore(x, n + "ms" + y);
    DigitsMsAtPiece(x, n, y);
    ExecFindsFirst(DigitsMs, s, |x|);
  }

  /** No run of digits followed by `ms` starts in a prefix that ends outside
      the digits and has no digit followed by `m`. */
  lemma {:induction false} DigitsMsNotBefore(x: string, y: string)
    requires x != [] && !IsDigit(x[|x| - 1]) && NoPair(x, Digit, 'm')
    ensures forall r :: 0 <= r < |x| ==> MatchAt(DigitsMs, x + y, r).None?
  {
    forall r | 0 <= r < |x| ensures MatchAt(DigitsMs, x + y, r).None? {
      RunStops(x, y, Digit, 'm', r);
      DigitsMsMatchAt(x + y, r);
    }
  }

  lemma {:induction false} DigitsMsAtPiece(x: string, n: string, y: string)
    requires Captured(n, Digit)
    ensures MatchAt(DigitsMs, x + (n + "ms") + y, |x|) == Some(Match(|x|, |x| + |n| + 2, [n]))
  {
    var t := n + "ms";
    var s := x + t + y;
    MiddleSlice(x, t, y);
    assert DigitsMsText(t, n);
    DigitsMsAtIff(s, |x|, |x| + |t|, n);
    DigitsMsMatchAt(s, |x|);
  }

  lemma {:induction false} WindowsNoEarlierTime(x: string)
    requires x == "Reply from " + "8.8.8.8" + ": bytes=32 time="
    ensures NoPair(x, Digit, 'm') && x != [] && !IsDigit(x[|x| - 1])
  {
    var w1, ip, w2 := "Reply from ", "8.8.8.8", ": bytes=32 time=";
    assert NoPair(w1, Digit, 'm') && NoPair(ip, Digit, 'm') && NoPair(w2, Digit, 'm');
    NoPairAppend(w1, ip, Digit, 'm');
    NoPairAppend(w1 + ip, w2, Digit, 'm');
  }

  lemma {:induction false} WindowsAddress(x: string, ip: string, rest: string)
    requires x == "Reply from " && ip == "8.8.8.8" && rest != [] && rest[0] == ':'
    ensures Exec(DottedQuad, x + ip + rest) == Some(Match(|x|, |x| + |ip|, [ip]))
  {
    assert NoPair(x, Digit, '.');
    assert AllDigits("8");
    WindowsAddressParts();
    QuadOf("8", "8", "8", "8");
    QuadAfter(x, ip, rest);
  }

  lemma {:induction false} WindowsAddressParts()
    ensures "8" + "." + "8" + "." + "8" + "." + "8" == "8.8.8.8"
  {
  }

  /** The banner names the address twice and keeps the packet size. */
  lemma {:induction false} BannerExample()
    ensures CleanPingOutput("PING google.com (" + "142.250.196.110" + ") 56(84) bytes of data.")
      == "PING " + "142.250.196.110" + " (" + "142.250.196.110" + ") 56(84) bytes of data."
  {
    var b1, ip, b2 := "PING google.com (", "142.250.196.110", ") 56(84) bytes of data.";
    BannerLineClean(b1, ip, b2);
    BannerLineLacks(b1, ip, b2);
    BannerLineMentions(b1, ip, b2);
    BannerAddress(b1, ip, b2);
    BannerCase(b1 + ip + b2, ip);
  }

  lemma {:induction false} BannerLineMentions(b1: string, ip: string, b2: string)
    requires b1 == "PING google.com ("
    ensures Contains(b1 + ip + b2, "PING") && Contains(b1 + ip + b2, "(")
  {
    assert OccursAt(b1, "PING", 0) && OccursAt(b1, "(", 16);
    OccursLeft(b1, ip + b2, "PING", 0);
    OccursLeft(b1, ip + b2, "(", 16);
    AppendAssociates(b1, ip, b2);
  }

  /** A line that is its own cleaned form, mentions neither `time=` nor
      `TTL` and mentions `PING` and `(` is rendered as the banner. */
  lemma {:induction false} BannerCase(s: string, ip: string)
    requires Clean(s) == s && !Contains(s, "time=") && !Contains(s, "TTL")
    requires Contains(s, "PING") && Contains(s, "(")
    requires Exec(DottedQuad, s).Some? && Exec(DottedQuad, s).value.groups == [ip]
    ensures CleanPingOutput(s) == "PING " + ip + " (" + ip + ") 56(84) bytes of data."
  {
  }

  lemma {:induction false} BannerLineClean(b1: string, ip: string, b2: string)
    requires b1 == "PING google.com (" && ip == "142.250.196.110" && b2 == ") 56(84) bytes of data."
    ensures Clean(b1 + ip + b2) == b1 + ip + b2
  {
    BannerPiecesPlain(b1, ip, b2);
    CleanOfPlainThree(b1, ip, b2);
  }

  /** Each piece of the banner is printable and single-spaced. */
  lemma {:induction false} BannerPiecesPlain(b1: string, ip: string, b2: string)
    requires b1 == "PING google.com (" && ip == "142.250.196.110" && b2 == ") 56(84) bytes of data."
    ensures Plain(b1) && Plain(ip) && Plain(b2)
  {
    assert Plain(b1);
    assert Plain(ip);
  }

  /** The banner has no `=` and no `T`, so neither reply recogniser takes it. */
  lemma {:induction false} BannerLineLacks(b1: string, ip: string, b2: string)
    requires b1 == "PING google.com (" && ip == "142.250.196.110" && b2 == ") 56(84) bytes of data."
    ensures !Contains(b1 + ip + b2, "time=") && !Contains(b1 + ip + b2, "TTL")
  {
    assert Lacks(b1, '=') && Lacks(ip, '=') && Lacks(b2, '=');
    LacksAppend(b1, ip, '=');
    LacksAppend(b1 + ip, b2, '=');
    LacksNotContains(b1 + ip + b2, "time=", 4);
    assert Lacks(b1, 'T') && Lacks(ip, 'T') && Lacks(b2, 'T');
    LacksAppend(b1, ip, 'T');
    LacksAppend(b1 + ip, b2, 'T');
    LacksNotContains(b1 + ip + b2, "TTL", 0);
  }

  lemma {:induction false} BannerAddress(x: string, ip: string, rest: string)
    requires x == "PING google.com (" && ip == "142.250.196.110" && rest != [] && rest[0] == ')'
    ensures Exec(DottedQuad, x + ip + rest).Some? && Exec(DottedQuad, x + ip + rest).value.groups == [ip]
  {
    assert NoPair(x, Digit, '.');
    assert AllDigits("142") && AllDigits("250") && AllDigits("196") && AllDigits("110");
    BannerAddressParts();
    QuadOf("142", "250", "196", "110");
    QuadAfter(x, ip, rest);
  }

  lemma {:induction false} BannerAddressParts()
    ensures "142" + "." + "250" + "." + "196" + "." + "110" == "142.250.196.110"
  {
  }

  /** A summary line is already in the form the recogniser writes, so it
      comes back unchanged. */
  lemma {:induction false} SummaryExample()
    ensures CleanPingOutput("4" + " packets transmitted, " + "4" + " received, " + "0" + "% packet loss")
      == "4" + " packets transmitted, " + "4" + " received, " + "0" + "% packet loss"
  {
    var p1, p2, p3, p4, p5, p6 := "4", " packets transmitted, ", "4", " received, ", "0", "% packet loss";
    SummaryLineClean(p1, p2, p3, p4, p5, p6);
    SummaryLineLacks(p1, p2, p3, p4, p5, p6);
    SummaryLineCounts(p1, p2, p3, p4, p5, p6);
    SummaryLineLoss(p1, p2, p3, p4, p5, p6);
    SummaryCase(p1 + p2 + p3 + p4 + p5 + p6, "4", "4", "0");
  }

  lemma {:induction false} SummaryLineCounts(p1: string, p2: string, p3: string, p4: string, p5: string, p6: string)
    requires p1 == "4" && p2 == " packets transmitted, " && p3 == "4" && p4 == " received, "
    requires p5 == "0" && p6 == "% packet loss"
    ensures var s := p1 + p2 + p3 + p4 + p5 + p6;
      && Contains(s, "packets transmitted")
      && Exec(Sent, s).Some? && Exec(Sent, s).value.groups == ["4"]
      && Exec(Received, s).Some? && Exec(Received, s).value.groups == ["4"]
  {
    PiecesAt(p1, p2, p3, p4, p5, p6);
    assert Captured("4", Digit) && Captured("0", Digit);
    SummaryCounts(p1 + p2 + p3 + p4 + p5 + p6, "4", "4", "0");
  }

  lemma {:induction false} SummaryLineLoss(p1: string, p2: string, p3: string, p4: string, p5: string, p6: string)
    requires p1 == "4" && p2 == " packets transmitted, " && p3 == "4" && p4 == " received, "
    requires p5 == "0" && p6 == "% packet loss"
    ensures var s := p1 + p2 + p3 + p4 + p5 + p6; Exec(Loss, s).Some? && Exec(Loss, s).value.groups == ["0"]
  {
    PiecesAt(p1, p2, p3, p4, p5, p6);
    assert Captured("4", Digit) && Captured("0", Digit);
    SummaryLoss(p1 + p2 + p3 + p4 + p5 + p6, "4", "4", "0");
  }

  /** A line that is its own cleaned form, mentions none of `time=`, `TTL`
      and `PING` and mentions `packets transmitted` is rendered from its
      three counts. */
  lemma {:induction false} SummaryCase(s: string, sent: string, received: string, loss: string)
    requires Clean(s) == s && !Contains(s, "time=") && !Contains(s, "TTL") && !Contains(s, "PING")
    requires Contains(s, "packets transmitted")
    requires Exec(Sent, s).Some? && Exec(Sent, s).value.groups == [sent]
    requires Exec(Received, s).Some? && Exec(Received, s).value.groups == [received]
    requires Exec(Loss, s).Some? && Exec(Loss, s).value.groups == [loss]
    ensures CleanPingOutput(s) == sent + " packets transmitted, " + received + " received, " + loss + "% packet loss"
  {
  }

  lemma {:induction false} SummaryLineClean(p1: string, p2: string, p3: string, p4: string, p5: string, p6: string)
    requires p1 == "4" && p2 == " packets transmitted, " && p3 == "4" && p4 == " received, "
    requires p5 == "0" && p6 == "% packet loss"
    ensures Clean(p1 + p2 + p3 + p4 + p5 + p6) == p1 + p2 + p3 + p4 + p5 + p6
  {
    assert Plain(p1) && Plain(p2) && Plain(p3) && Plain(p4) && Plain(p5) && Plain(p6);
    PlainAppend(p1, p2);
    assert (p1 + p2)[0] == p1[0] && (p1 + p2)[|p1 + p2| - 1] == p2[|p2| - 1];
    CleanOfPlainFive(p1 + p2, p3, p4, p5, p6);
  }

  /** No `=`, `T` or `P`: neither reply recogniser nor the banner one takes
      the line. */
  lemma {:induction false} SummaryLineLacks(p1: string, p2: string, p3: string, p4: string, p5: string, p6: string)
    requires p1 == "4" && p2 == " packets transmitted, " && p3 == "4" && p4 == " received, "
    requires p5 == "0" && p6 == "% packet loss"
    ensures var s := p1 + p2 + p3 + p4 + p5 + p6;
      !Contains(s, "time=") && !Contains(s, "TTL") && !Contains(s, "PING")
  {
    SummaryLacks(p1, p2, p3, p4, p5, p6, '=');
    LacksNotContains(p1 + p2 + p3 + p4 + p5 + p6, "time=", 4);
    SummaryLacks(p1, p2, p3, p4, p5, p6, 'T');
    LacksNotContains(p1 + p2 + p3 + p4 + p5 + p6, "TTL", 0);
    SummaryLacks(p1, p2, p3, p4, p5, p6, 'P');
    LacksNotContains(p1 + p2 + p3 + p4 + p5 + p6, "PING", 0);
  }

  lemma {:induction false} SummaryLacks(p1: string, p2: string, p3: string, p4: string, p5: string, p6: string, c: char)
    requires Lacks(p1, c) && Lacks(p2, c) && Lacks(p3, c) && Lacks(p4, c) && Lacks(p5, c) && Lacks(p6, c)
    ensures Lacks(p1 + p2 + p3 + p4 + p5 + p6, c)
  {
    LacksAppend(p1, p2, c);
    LacksAppend(p1 + p2, p3, c);
    LacksAppend(p1 + p2 + p3, p4, c);
    LacksAppend(p1 + p2 + p3 + p4, p5, c);
    LacksAppend(p1 + p2 + p3 + p4 + p5, p6, c);
  }

  /** `s` is a summary line with counts `n`, `m` and `l`, as the recogniser
      writes it. */
  predicate SummaryAt(s: string, n: string, m: string, l: string) {
    && Captured(n, Digit) && Captured(m, Digit) && Captured(l, Digit)
    && OccursAt(s, n, 0) && OccursAt(s, " packets transmitted, ", |n|)
    && OccursAt(s, m, |n| + 22) && OccursAt(s, " received, ", |n| + 22 + |m|)
    && OccursAt(s, l, |n| + |m| + 33) && OccursAt(s, "% packet loss", |n| + |m| + |l| + 33)
  }

  /** The words the two count recognisers look for, one by one. */
  predicate CountWordsAt(s: string, n: string, m: string) {
    && OccursAt(s, " ", |n|) && OccursAt(s, "packets", |n| + 1)
    && OccursAt(s, " ", |n| + 8) && OccursAt(s, "transmitted", |n| + 9)
    && OccursAt(s, " ", |n| + 22 + |m|) && OccursAt(s, "received", |n| + 23 + |m|)
  }

  /** The sent and received counts: the leading number, and the first
      number followed by `received`. */
  lemma {:induction false} SummaryCounts(s: string, n: string, m: string, l: string)
    requires SummaryAt(s, n, m, l)
    ensures Contains(s, "packets transmitted")
    ensures Exec(Sent, s) == Some(Match(0, |n| + 20, [n]))
    ensures Exec(Received, s).Some? && Exec(Received, s).value.groups == [m]
  {
    CountWords(s, n, m, l);
    SummarySent(s, n, m);
    SummaryReceived(s, n, m, l);
  }

  lemma {:induction false} CountWords(s: string, n: string, m: string, l: string)
    requires SummaryAt(s, n, m, l)
    ensures CountWordsAt(s, n, m) && Contains(s, "packets transmitted")
  {
    SentWords();
    OccursAtSplit(s, " ", "packets" + " " + "transmitted" + ", ", |n|);
    OccursAtSplit(s, "packets" + " " + "transmitted", ", ", |n| + 1);
    OccursAtSplit(s, "packets" + " ", "transmitted", |n| + 1);
    OccursAtSplit(s, "packets", " ", |n| + 1);
    PacketsTransmitted();
    ReceivedWords();
    OccursAtSplit(s, " ", "received" + ", ", |n| + 22 + |m|);
    OccursAtSplit(s, "received", ", ", |n| + 23 + |m|);
  }

  lemma {:induction false} SentWords()
    ensures " packets transmitted, " == " " + ("packets" + " " + "transmitted" + ", ")
  {
  }

  lemma {:induction false} PacketsTransmitted()
    ensures "packets" + " " + "transmitted" == "packets transmitted"
  {
  }

  lemma {:induction false} ReceivedWords()
    ensures " received, " == " " + ("received" + ", ")
  {
  }

  /** The packet count is the leading number. */
  lemma {:induction false} SummarySent(s: string, n: string, m: string)
    requires Captured(n, Digit) && OccursAt(s, n, 0) && CountWordsAt(s, n, m)
    ensures Exec(Sent, s) == Some(Match(0, |n| + 20, [n]))
  {
    SingleSpace(s, |n|, "packets");
    SingleSpace(s, |n| + 8, "transmitted");
    SpacedThreeOf(s, 0, |n| + 20, n, "packets", "transmitted", |n| + 1, |n| + 9);
    SentComplete(s, 0, |n| + 20, n);
    SentMatchAt(s, 0);
    ExecFindsFirst(Sent, s, 0);
  }

  /** `pat` matches nowhere before `i`. */
  predicate NoneBefore(pat: Pattern, s: string, i: nat) {
    i <= |s| && forall r :: 0 <= r < i ==> MatchAt(pat, s, r).None?
  }

  /** The received count is the first number followed by `received`: the
      packet count before it is followed by `packets`, and nothing else
      before it is a digit. */
  lemma {:induction false} SummaryReceived(s: string, n: string, m: string, l: string)
    requires SummaryAt(s, n, m, l) && CountWordsAt(s, n, m)
    ensures Exec(Received, s).Some? && Exec(Received, s).value.groups == [m]
  {
    SummaryNoEarlierReceived(s, n, m, l);
    FirstReceived(s, |n| + 22, |n| + |m| + 31, m);
  }

  lemma {:induction false} SummaryNoEarlierReceived(s: string, n: string, m: string, l: string)
    requires SummaryAt(s, n, m, l) && CountWordsAt(s, n, m)
    ensures NoneBefore(Received, s, |n| + 22)
  {
    DigitFree(s, " packets transmitted, ", |n|);
    NoDigitsNoCount(s, |n|, |n| + 22);
    ReceivedNotInNumber(s, n, 0, "packets");
  }

  /** A number at `i` followed by `received`, with no received count before
      it, is the one the recogniser finds. */
  lemma {:induction false} FirstReceived(s: string, i: nat, e: nat, m: string)
    requires Captured(m, Digit) && OccursAt(s, m, i) && OccursAt(s, " ", i + |m|) && OccursAt(s, "received", i + |m| + 1)
    requires e == i + |m| + 9 && NoneBefore(Received, s, i)
    ensures Exec(Received, s) == Some(Match(i, e, [m]))
    ensures Exec(Received, s).Some? && Exec(Received, s).value.groups == [m]
  {
    SingleSpace(s, i + |m|, "received");
    SpacedTwoOf(s, i, i + |m| + 9, m, "received", i + |m| + 1);
    ReceivedComplete(s, i, i + |m| + 9, m);
    ReceivedMatchAt(s, i);
    ExecFindsFirst(Received, s, i);
  }

  /** The loss is the first number directly followed by `%`: the two counts
      before it are followed by spaces. */
  lemma {:induction false} SummaryLoss(s: string, n: string, m: string, l: string)
    requires SummaryAt(s, n, m, l)
    ensures Exec(Loss, s).Some? && Exec(Loss, s).value.groups == [l]
  {
    SummaryNoEarlierLoss(s, n, m, l);
    FirstLoss(s, |n| + |m| + 33, |n| + |m| + |l| + 33, |n| + |m| + |l| + 46, l);
  }

  /** A number at `i` followed by `% packet loss`, with no loss before it, is
      the one the recogniser finds. */
  lemma {:induction false} FirstLoss(s: string, i: nat, j: nat, e: nat, l: string)
    requires Captured(l, Digit) && OccursAt(s, l, i) && j == i + |l| && OccursAt(s, "% packet loss", j) && e == j + 13
    requires NoneBefore(Loss, s, i)
    ensures Exec(Loss, s) == Some(Match(i, e, [l]))
    ensures Exec(Loss, s).Some? && Exec(Loss, s).value.groups == [l]
  {
    LossWordsAt(s, l, i);
    SummaryLossAt(s, l, i);
    LossMatchAt(s, i);
    ExecFindsFirst(Loss, s, i);
  }

  lemma {:induction false} LossWordsAt(s: string, l: string, i: nat)
    requires OccursAt(s, l, i) && OccursAt(s, "% packet loss", i + |l|)
    ensures OccursAt(s, l + "%", i) && OccursAt(s, " ", i + |l| + 1)
    ensures OccursAt(s, "packet", i + |l| + 2) && OccursAt(s, " ", i + |l| + 8) && OccursAt(s, "loss", i + |l| + 9)
  {
    var j := i + |l|;
    LossWords();
    OccursAtSplit(s, "%" + " " + "packet", " " + "loss", j);
    PercentPacket(s, j);
    OccursAtSplit(s, " ", "loss", j + 8);
    OccursAtSplit(s, l, "%", i);
  }

  lemma {:induction false} PercentPacket(s: string, j: nat)
    requires OccursAt(s, "%" + " " + "packet", j)
    ensures OccursAt(s, "%", j) && OccursAt(s, " ", j + 1) && OccursAt(s, "packet", j + 2)
  {
    OccursAtSplit(s, "%" + " ", "packet", j);
    OccursAtSplit(s, "%", " ", j);
  }

  lemma {:induction false} SummaryLossAt(s: string, l: string, i: nat)
    requires Captured(l, Digit) && OccursAt(s, l + "%", i) && OccursAt(s, " ", i + |l| + 1)
    requires OccursAt(s, "packet", i + |l| + 2) && OccursAt(s, " ", i + |l| + 8) && OccursAt(s, "loss", i + |l| + 9)
    ensures LossAt(s, i) == Some(Match(i, i + |l| + 13, [l]))
  {
    var g, e := l + "%", i + |l| + 13;
    assert |g| == |l| + 1;
    SingleSpace(s, i + |g|, "packet");
    SingleSpace(s, i + |l| + 8, "loss");
    SpacedThreeOf(s, i, e, g, "packet", "loss", i + |g| + 1, i + |l| + 9);
    LossComplete(s, i, e, l);
  }

  lemma {:induction false} SummaryNoEarlierLoss(s: string, n: string, m: string, l: string)
    requires SummaryAt(s, n, m, l)
    ensures NoneBefore(Loss, s, |n| + |m| + 33)
  {
    DigitFree(s, " packets transmitted, ", |n|);
    DigitFree(s, " received, ", |n| + 22 + |m|);
    NoDigitsNoCount(s, |n|, |n| + 22);
    NoDigitsNoCount(s, |n| + 22 + |m|, |n| + |m| + 33);
    OccursFirst(s, " packets transmitted, ", |n|);
    OccursFirst(s, " received, ", |n| + 22 + |m|);
    LossNotInNumber(s, n, 0);
    LossNotInNumber(s, m, |n| + 22);
  }

  /** The two fixed parts of the summary have no digit. */
  lemma {:induction false} DigitFree(s: string, x: string, i: nat)
    requires OccursAt(s, x, i) && (x == " packets transmitted, " || x == " received, ")
    ensures forall r :: i <= r < i + |x| ==> !InClass(s[r], Digit)
  {
    assert forall j :: 0 <= j < |x| ==> !InClass(x[j], Digit);
    ClassFree(s, x, i, Digit);
  }

  /** Neither count recogniser matches where there is no digit. */
  lemma {:induction false} NoDigitsNoCount(s: string, lo: nat, hi: nat)
    requires lo <= hi <= |s| && forall r :: lo <= r < hi ==> !InClass(s[r], Digit)
    ensures forall r :: lo <= r < hi ==> MatchAt(Received, s, r).None? && MatchAt(Loss, s, r).None?
  {
    forall r | lo <= r < hi ensures MatchAt(Received, s, r).None? && MatchAt(Loss, s, r).None? {
      assert RunEnd(s, r, Digit) == r;
      ReceivedMatchAt(s, r);
      LossMatchAt(s, r);
    }
  }

  /** Every run of digits started inside the number `n` at `lo` ends where
      `n` does. */
  lemma {:induction false} NumberRun(s: string, n: string, lo: nat, r: nat)
    requires Captured(n, Digit) && OccursAt(s, n, lo) && lo <= r < lo + |n|
    requires lo + |n| == |s| || !IsDigit(s[lo + |n|])
    ensures RunEnd(s, r, Digit) == lo + |n|
  {
    forall j | r <= j < lo + |n| ensures InClass(s[j], Digit) {
      assert s[j] == s[lo..lo + |n|][j - lo];
    }
    RunEndUnique(s, r, Digit, lo + |n|);
  }

  /** A number followed by a space and a word other than `received` is no
      received count. */
  lemma {:induction false} ReceivedNotInNumber(s: string, n: string, lo: nat, w: string)
    requires Captured(n, Digit) && OccursAt(s, n, lo) && OccursAt(s, " ", lo + |n|)
    requires OccursAt(s, w, lo + |n| + 1) && w != [] && !IsSpace(w[0]) && w[0] != 'r'
    ensures forall r :: lo <= r < lo + |n| ==> MatchAt(Received, s, r).None?
  {
    var a := lo + |n|;
    OccursFirst(s, " ", a);
    SingleSpace(s, a, w);
    OccursFirst(s, w, a + 1);
    forall r | lo <= r < a ensures MatchAt(Received, s, r).None? {
      NumberRun(s, n, lo, r);
      ReceivedMatchAt(s, r);
    }
  }

  /** A number followed by a space is no loss. */
  lemma {:induction false} LossNotInNumber(s: string, n: string, lo: nat)
    requires Captured(n, Digit) && OccursAt(s, n, lo) && OccursAt(s, " ", lo + |n|)
    ensures forall r :: lo <= r < lo + |n| ==> MatchAt(Loss, s, r).None?
  {
    OccursFirst(s, " ", lo + |n|);
    forall r | lo <= r < lo + |n| ensures MatchAt(Loss, s, r).None? {
      NumberRun(s, n, lo, r);
      LossMatchAt(s, r);
    }
  }

  lemma {:induction false} LossWords()
    ensures "% packet loss" == ("%" + " " + "packet") + (" " + "loss")
  {
  }

  /** The round-trip line keeps the first three times and drops the
      deviation. */
  lemma {:induction false} RoundTripExample()
    ensures CleanPingOutput("rtt min/avg/max/mdev = " + "10.1/11.2/12.3" + "/0.5 ms")
      == "round-trip min/avg/max = " + "10.1" + "/" + "11.2" + "/" + "12.3" + " ms"
  {
    var q1, q2, q3 := "rtt min/avg/max/mdev = ", "10.1/11.2/12.3", "/0.5 ms";
    RoundTripLineClean(q1, q2, q3);
    RoundTripLineLacks(q1, q2, q3);
    RoundTripLineMentions(q1, q2, q3);
    RoundTripTimes(q1, q2, q3);
    RoundTripCase(q1 + q2 + q3, "10.1", "11.2", "12.3");
  }

  /** A line that is its own cleaned form, mentions none of the earlier
      recognisers' words and mentions `min/avg/max` is rendered from its
      first three times. */
  lemma {:induction false} RoundTripCase(s: string, t1: string, t2: string, t3: string)
    requires Clean(s) == s && !Contains(s, "64 bytes") && !Contains(s, "TTL") && !Contains(s, "PING")
    requires !Contains(s, "packets transmitted") && !Contains(s, "packet loss") && Contains(s, "min/avg/max")
    requires Exec(Triple, s).Some? && Exec(Triple, s).value.groups == [t1, t2, t3]
    ensures CleanPingOutput(s) == "round-trip min/avg/max = " + t1 + "/" + t2 + "/" + t3 + " ms"
  {
    assert ReplyRule(s, s).None?;
    assert WindowsReplyRule(s, s).None?;
    assert BannerRule(s, s).None?;
    assert SummaryRule(s).None?;
    assert MentionsRoundTrip(s);
    assert RoundTripRule(s) == Some("round-trip min/avg/max = " + t1 + "/" + t2 + "/" + t3 + " ms");
  }

  lemma {:induction false} RoundTripLineMentions(q1: string, q2: string, q3: string)
    requires q1 == "rtt min/avg/max/mdev = "
    ensures Contains(q1 + q2 + q3, "min/avg/max")
  {
    assert OccursAt(q1, "min/avg/max", 4);
    OccursLeft(q1, q2 + q3, "min/avg/max", 4);
    AppendAssociates(q1, q2, q3);
  }

  lemma {:induction false} RoundTripLineClean(q1: string, q2: string, q3: string)
    requires q1 == "rtt min/avg/max/mdev = " && q2 == "10.1/11.2/12.3" && q3 == "/0.5 ms"
    ensures Clean(q1 + q2 + q3) == q1 + q2 + q3
  {
    assert Plain(q1) && Plain(q2) && Plain(q3);
    CleanOfPlainThree(q1, q2, q3);
  }

  /** No `b`, `T`, `P` or `k`: none of the earlier recognisers takes the
      line. */
  lemma {:induction false} RoundTripLineLacks(q1: string, q2: string, q3: string)
    requires q1 == "rtt min/avg/max/mdev = " && q2 == "10.1/11.2/12.3" && q3 == "/0.5 ms"
    ensures var s := q1 + q2 + q3;
      && !Contains(s, "64 bytes") && !Contains(s, "TTL") && !Contains(s, "PING")
      && !Contains(s, "packets transmitted") && !Contains(s, "packet loss")
  {
    var s := q1 + q2 + q3;
    RoundTripLacks(q1, q2, q3, 'b');
    LacksNotContains(s, "64 bytes", 3);
    RoundTripLacks(q1, q2, q3, 'T');
    LacksNotContains(s, "TTL", 0);
    RoundTripLacks(q1, q2, q3, 'P');
    LacksNotContains(s, "PING", 0);
    RoundTripLacks(q1, q2, q3, 'k');
    LacksNotContains(s, "packets transmitted", 3);
    LacksNotContains(s, "packet loss", 3);
  }

  lemma {:induction false} RoundTripLacks(q1: string, q2: string, q3: string, c: char)
    requires Lacks(q1, c) && Lacks(q2, c) && Lacks(q3, c)
    ensures Lacks(q1 + q2 + q3, c)
  {
    LacksAppend(q1, q2, c);
    LacksAppend(q1 + q2, q3, c);
  }

  /** The three times are the first numbers separated by slashes; the label
      before them has neither digits nor dots. */
  lemma {:induction false} RoundTripTimes(q1: string, q2: string, q3: string)
    requires q1 == "rtt min/avg/max/mdev = " && q2 == "10.1/11.2/12.3" && q3 == "/0.5 ms"
    ensures Exec(Triple, q1 + q2 + q3).Some? && Exec(Triple, q1 + q2 + q3).value.groups == ["10.1", "11.2", "12.3"]
  {
    var s := q1 + q2 + q3;
    AppendAssociates(q1, q2, q3);
    OccursLeft(q1, q2 + q3, q1, 0);
    ClassFree(s, q1, 0, DigitOrDot);
    forall r | 0 <= r < |q1| ensures MatchAt(Triple, s, r).None? {
      assert RunEnd(s, r, DigitOrDot) == r;
      TripleMatchAt(s, r);
    }
    MiddleSlice(q1, q2, q3);
    RoundTripParts();
    var g := ["10.1", "11.2", "12.3"];
    assert forall k :: 0 <= k < 3 ==> Captured(g[k], DigitOrDot);
    assert s[|q1| + |q2|] == q3[0];
    TripleAtIff(s, |q1|, |q1| + |q2|, g);
    TripleMatchAt(s, |q1|);
    ExecFindsFirst(Triple, s, |q1|);
  }

  lemma {:induction false} RoundTripParts()
    ensures "10.1" + "/" + "11.2" + "/" + "12.3" == "10.1/11.2/12.3"
  {
  }

  /** The leftmost dotted quad of a line is the one after a prefix in which
      no digit is followed by a dot. */
  lemma {:induction false} QuadAfter(x: string, ip: string, rest: string)
    requires x != [] && !IsDigit(x[|x| - 1]) && NoPair(x, Digit, '.') && IsDottedQuad(ip)
    requires rest == [] || !IsDigit(rest[0])
    ensures Exec(DottedQuad, x + ip + rest) == Some(Match(|x|, |x| + |ip|, [ip]))
  {
    var s := x + ip + rest;
    forall r | 0 <= r < |x| ensures MatchAt(DottedQuad, s, r).None? {
      AppendAssociates(x, ip, rest);
      RunStops(x, ip + rest, Digit, '.', r);
      DottedQuadMatchAt(s, r);
    }
    MiddleSlice(x, ip, rest);
    if rest != [] {
      assert s[|x| + |ip|] == rest[0];
    }
    DottedQuadAtIff(s, |x|, |x| + |ip|, ip);
    DottedQuadMatchAt(s, |x|);
    ExecFindsFirst(DottedQuad, s, |x|);
  }
}
