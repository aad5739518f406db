/** `cleanPingOutput` (ping-server/server.js:161-214): one line of `ping`
    output is cleaned and then offered to five recognisers in a fixed order;
    the first that succeeds rewrites the line, and a line no recogniser takes
    is passed through when it is longer than five characters. */
module PingOutput {
  import opened Base
  import opened Text
  import opened Cleaning
  import opened Patterns
  import opened Matches

  /** A Linux or macOS echo reply: `64 bytes from <ip>: time=<t>ms`. The time
      comes from the cleaned line, the address from the raw text. */
  function ReplyRule(text: string, c: string): Option<string> {
    if Contains(c, "64 bytes") && Contains(c, "time=") then
      var time, ip := Exec(ReplyTime, c), Exec(DottedQuad, text);
      if time.Some? && ip.Some? then
        Some("64 bytes from " + ip.value.groups[0] + ": time=" + time.value.groups[0] + "ms")
      else None
    else None
  }

  /** A Windows echo reply, always shown with `bytes=32` and `TTL=63`. */
  function WindowsReplyRule(text: string, c: string): Option<string> {
    if Contains(c, "32") && Contains(c, "TTL") then
      var time, ip := Exec(DigitsMs, c), Exec(DottedQuad, text);
      if time.Some? && ip.Some? then
        Some("Reply from " + ip.value.groups[0] + ": bytes=32 time=" + time.value.groups[0] + "ms TTL=63")
      else None
    else None
  }

  /** The banner, always shown with `56(84)`. */
  function BannerRule(text: string, c: string): Option<string> {
    if Contains(c, "PING") && Contains(c, "(") then
      var ip := Exec(DottedQuad, text);
      if ip.Some? then
        Some("PING " + ip.value.groups[0] + " (" + ip.value.groups[0] + ") 56(84) bytes of data.")
      else None
    else None
  }

  /** The packet statistics line. */
  function SummaryRule(c: string): Option<string> {
    if Contains(c, "packets transmitted") || Contains(c, "packet loss") then
      var sent, received, loss := Exec(Sent, c), Exec(Received, c), Exec(Loss, c);
      if sent.Some? && received.Some? && loss.Some? then
        Some(sent.value.groups[0] + " packets transmitted, " + received.value.groups[0] + " received, "
          + loss.value.groups[0] + "% packet loss")
      else None
    else None
  }

  /** The test that guards the round-trip recogniser. */
  predicate MentionsRoundTrip(c: string) {
    Contains(c, "min/avg/max") || (Contains(c, "min") && Contains(c, "avg") && Contains(c, "max"))
  }

  /** The round-trip statistics line. */
  function RoundTripRule(c: string): Option<string> {
    if MentionsRoundTrip(c) then
      var times := Exec(Triple, c);
      if times.Some? then
        var g := times.value.groups;
        Some("round-trip min/avg/max = " + g[0] + "/" + g[1] + "/" + g[2] + " ms")
      else None
    else None
  }

  /** No recogniser took the line. */
  predicate Unrecognised(text: string) {
    var c := Clean(text);
    ReplyRule(text, c).None? && WindowsReplyRule(text, c).None? && BannerRule(text, c).None?
      && SummaryRule(c).None? && RoundTripRule(c).None?
  }

  /** `cleanPingOutput(text)` */
  function CleanPingOutput(text: string): (r: string)
    ensures r == "" || |r| > 5
    ensures r == "" <==> Unrecognised(text) && |Clean(text)| <= 5
    ensures Unrecognised(text) && |Clean(text)| > 5 ==> r == Clean(text)
  {
    var c := Clean(text);
    var reply := ReplyRule(text, c);
    if reply.Some? then reply.value
    else
      var windows := WindowsReplyRule(text, c);
      if windows.Some? then windows.value
      else
        var banner := BannerRule(text, c);
        if banner.Some? then banner.value
        else
          var summary := SummaryRule(c);
          if summary.Some? then summary.value
          else
            var roundTrip := RoundTripRule(c);
            if roundTrip.Some? then roundTrip.value
            else if |c| > 5 then c
            else ""
  }

  // ---------------------------------------------------------------------------
  // How each kind of line is rendered

  /** A reply line: the leftmost dotted quad of the raw text, whole, and the
      digits and dots of the leftmost `time=…ms` of the cleaned line. */
  lemma {:induction false} ReplyRendering(text: string)
    requires var c := Clean(text);
      Contains(c, "64 bytes") && Contains(c, "time=") && Exec(ReplyTime, c).Some? && Exec(DottedQuad, text).Some?
    ensures var ip, t := Capture(DottedQuad, text), Capture(ReplyTime, Clean(text));
      && CleanPingOutput(text) == "64 bytes from " + ip + ": time=" + t + "ms"
      && DottedQuadText(MatchedText(DottedQuad, text), ip)
      && ReplyTimeText(MatchedText(ReplyTime, Clean(text)), t)
  {
    DottedQuadFound(text);
    ReplyTimeFound(Clean(text));
  }

  /** A Windows reply that the first recogniser did not take: whatever byte
      count and TTL the line carried, the output says `bytes=32` and `TTL=63`;
      the time is the leftmost run of digits directly followed by `ms`. */
  lemma {:induction false} WindowsReplyRendering(text: string)
    requires var c := Clean(text);
      ReplyRule(text, c).None? && Contains(c, "32") && Contains(c, "TTL")
      && Exec(DigitsMs, c).Some? && Exec(DottedQuad, text).Some?
    ensures var ip, n := Capture(DottedQuad, text), Capture(DigitsMs, Clean(text));
      && CleanPingOutput(text) == "Reply from " + ip + ": bytes=32 time=" + n + "ms TTL=63"
      && DottedQuadText(MatchedText(DottedQuad, text), ip)
      && DigitsMsText(MatchedText(DigitsMs, Clean(text)), n)
  {
    DottedQuadFound(text);
    DigitsMsFound(Clean(text));
  }

  /** A banner that neither reply recogniser took names the address twice and
      always claims 56(84) bytes. */
  lemma {:induction false} BannerRendering(text: string)
    requires var c := Clean(text);
      ReplyRule(text, c).None? && WindowsReplyRule(text, c).None?
      && Contains(c, "PING") && Contains(c, "(") && Exec(DottedQuad, text).Some?
    ensures var ip := Capture(DottedQuad, text);
      && CleanPingOutput(text) == "PING " + ip + " (" + ip + ") 56(84) bytes of data."
      && DottedQuadText(MatchedText(DottedQuad, text), ip)
  {
    DottedQuadFound(text);
  }

  /** A statistics line that no earlier recogniser took, with all three
      numbers present: each is the number of the leftmost text of its
      pattern. */
  lemma {:induction false} SummaryRendering(text: string)
    requires var c := Clean(text);
      ReplyRule(text, c).None? && WindowsReplyRule(text, c).None? && BannerRule(text, c).None?
      && (Contains(c, "packets transmitted") || Contains(c, "packet loss"))
      && Exec(Sent, c).Some? && Exec(Received, c).Some? && Exec(Loss, c).Some?
    ensures var c := Clean(text);
      var sent, received, loss := Capture(Sent, c), Capture(Received, c), Capture(Loss, c);
      && CleanPingOutput(text) == sent + " packets transmitted, " + received + " received, " + loss + "% packet loss"
      && SentText(MatchedText(Sent, c), sent)
      && ReceivedText(MatchedText(Received, c), received)
      && LossText(MatchedText(Loss, c), loss)
  {
    var c := Clean(text);
    SentFound(c);
    ReceivedFound(c);
    LossFound(c);
  }

  /** `min/avg/max` in a line implies `min`, `avg` and `max`: the first half
      of the round-trip test adds nothing. */
  lemma {:induction false} RoundTripTest(c: string)
    ensures MentionsRoundTrip(c) <==> Contains(c, "min") && Contains(c, "avg") && Contains(c, "max")
  {
    if Contains(c, "min/avg/max") {
      var w := "min/avg/max";
      assert w[0..3] == "min" && w[4..7] == "avg" && w[8..11] == "max";
      ContainsPart(c, "min/avg/max", 0, 3);
      ContainsPart(c, "min/avg/max", 4, 7);
      ContainsPart(c, "min/avg/max", 8, 11);
    }
  }

  /** A round-trip line that no earlier recogniser took: the three numbers of
      the leftmost `a/b/c`, each made of digits and dots. */
  lemma {:induction false} RoundTripRendering(text: string)
    requires var c := Clean(text);
      ReplyRule(text, c).None? && WindowsReplyRule(text, c).None? && BannerRule(text, c).None?
      && SummaryRule(c).None?
      && Contains(c, "min") && Contains(c, "avg") && Contains(c, "max") && Exec(Triple, c).Some?
    ensures var c := Clean(text);
      var g := Exec(Triple, c).value.groups;
      && CleanPingOutput(text) == "round-trip min/avg/max = " + g[0] + "/" + g[1] + "/" + g[2] + " ms"
      && TripleText(MatchedText(Triple, c), g)
  {
    RoundTripTest(Clean(text));
    TripleFound(Clean(text));
  }
}
