/** `cleanTracertOutput` (ping-server/server.js:217-282): one line of
    `tracert` or `traceroute` output is cleaned and then offered to the
    recognisers below in order; the first that succeeds rewrites the line, and
    a line no recogniser takes is passed through when it is longer than five
    characters. */
module TracertOutput {
  import opened Base
  import opened Text
  import opened Cleaning
  import opened Patterns
  import opened Matches

  const ResolveError := "Error: Unable to resolve target host name"
  const Unreachable := "Error: Network is unreachable"
  const TimedOut := "   * * *     Request timed out"

  /** A hop line that mentions `ms`: the hop number padded to two columns, one
      space, and the rest of the line. */
  function HopRule(c: string): Option<string> {
    if Contains(c, "ms") && Exec(LeadingNumber, c).Some? then
      var hop := Exec(HopLine, c);
      if hop.Some? then Some(PadStart(hop.value.groups[0], 2) + " " + Trim(hop.value.groups[1]))
      else None
    else None
  }

  /** The `traceroute to <host> …` banner. */
  function BannerRule(c: string): Option<string> {
    if Contains(c, "traceroute to") then
      var host := Exec(TracerouteTo, c);
      if host.Some? then Some("Tracing route to " + host.value.groups[0]) else None
    else None
  }

  /** The Linux and macOS hop recogniser: hop number, the first time with its
      unit padded to eight columns, and the first address. */
  function LinuxHopRule(c: string): Option<string> {
    if Exec(HopPrefix, c).Some? then
      var hop := Exec(HopLine, c);
      if hop.Some? then
        var info := Trim(hop.value.groups[1]);
        var ip, times := Exec(DottedQuad, info), Exec(TimeMs, info);
        if ip.Some? && times.Some? then
          Some(PadStart(hop.value.groups[0], 2) + "   " + PadEnd(MatchedText(TimeMs, info), 8) + " " + ip.value.groups[0])
        else None
      else None
    else None
  }

  /** A line with a star or a timeout message and a leading hop number. */
  function TimeoutRule(c: string): Option<string> {
    if Contains(c, "*") || Contains(c, "timeout") || Contains(c, "Request timed out") then
      var hop := Exec(LeadingNumber, c);
      if hop.Some? then Some(PadStart(hop.value.groups[0], 2) + TimedOut) else None
    else None
  }

  predicate MentionsResolveError(c: string) {
    Contains(c, "could not resolve") || Contains(c, "unknown host") || Contains(c, "Name or service not known")
  }

  predicate MentionsUnreachable(c: string) {
    Contains(c, "Network is unreachable") || Contains(c, "Destination host unreachable")
  }

  /** No recogniser took the line. */
  predicate Unrecognised(c: string) {
    && HopRule(c).None? && BannerRule(c).None? && LinuxHopRule(c).None? && TimeoutRule(c).None?
    && !MentionsResolveError(c) && !MentionsUnreachable(c)
  }

  /** `cleanTracertOutput(text)` */
  function CleanTracertOutput(text: string): (r: string)
    ensures r == "" <==> Unrecognised(Clean(text)) && |Clean(text)| <= 5
    ensures Unrecognised(Clean(text)) && |Clean(text)| > 5 ==> r == Clean(text)
  {
    var c := Clean(text);
    var hop := HopRule(c);
    if hop.Some? then hop.value
    else
      var banner := BannerRule(c);
      if banner.Some? then banner.value
      else
        var linux := LinuxHopRule(c);
        if linux.Some? then linux.value
        else
          var timeout := TimeoutRule(c);
          if timeout.Some? then timeout.value
          else if MentionsResolveError(c) then ResolveError
          else if MentionsUnreachable(c) then Unreachable
          else if |c| > 5 then c
          else ""
  }

  // ---------------------------------------------------------------------------
  // Properties

  /** Whatever the Linux and macOS hop recogniser accepts, the earlier hop
      recogniser has already taken: its branch can never produce output. */
  lemma {:induction false} LinuxHopBranchDead(c: string)
    ensures LinuxHopRule(c).Some? ==> HopRule(c).Some?
  {
    if LinuxHopRule(c).Some? {
      LinuxHopNeeds(c);
      HopWithTimeMentionsMs(c);
      HopRuleTakes(c);
    }
  }

  /** What the Linux and macOS recogniser needs: a hop line whose rest, trimmed,
      holds a time. */
  lemma {:induction false} LinuxHopNeeds(c: string)
    requires LinuxHopRule(c).Some?
    ensures var hop := Exec(HopLine, c);
      hop.Some? && |hop.value.groups| == 2 && Exec(TimeMs, Trim(hop.value.groups[1])).Some?
  {
    ExecHopLine(c);
  }

  /** A hop line whose rest holds a time mentions `ms` and starts with a
      number. */
  lemma {:induction false} HopWithTimeMentionsMs(c: string)
    requires var hop := Exec(HopLine, c);
      hop.Some? && |hop.value.groups| == 2 && Exec(TimeMs, Trim(hop.value.groups[1])).Some?
    ensures Contains(c, "ms") && Exec(LeadingNumber, c).Some?
  {
    var g := Exec(HopLine, c).value.groups[1];
    TimeMsMentionsMs(Trim(g));
    TrimContains(g, "ms");
    HopLineRest(c, "ms");
    HopLineNumber(c);
  }

  /** The first recogniser takes every hop line that mentions `ms`. */
  lemma {:induction false} HopRuleTakes(c: string)
    requires Exec(HopLine, c).Some? && Contains(c, "ms") && Exec(LeadingNumber, c).Some?
    ensures HopRule(c).Some?
  {
  }

  /** So the output never comes from that branch. */
  lemma {:induction false} CleanTracertOutputSkipsLinuxHop(text: string)
    ensures CleanTracertOutput(text) == CleanTracertWithoutLinuxHop(text)
  {
    LinuxHopBranchDead(Clean(text));
  }

  /** The recognisers that can actually fire, in their order. */
  function CleanTracertWithoutLinuxHop(text: string): string {
    var c := Clean(text);
    if HopRule(c).Some? then HopRule(c).value
    else if BannerRule(c).Some? then BannerRule(c).value
    else if TimeoutRule(c).Some? then TimeoutRule(c).value
    else if MentionsResolveError(c) then ResolveError
    else if MentionsUnreachable(c) then Unreachable
    else if |c| > 5 then c
    else ""
  }

  /** A cleaned hop line `<hop> <rest>` that mentions `ms` becomes the hop
      number padded to two columns, one space and the rest unchanged. */
  lemma {:induction false} HopLineRendering(text: string, hop: string, rest: string)
    requires Clean(text) == hop + " " + rest && hop != [] && AllDigits(hop)
    requires Contains(Clean(text), "ms")
    ensures CleanTracertOutput(text) == PadStart(hop, 2) + " " + rest
  {
    HopRuleOfWords(Clean(text), hop, rest);
  }

  /** The hop recogniser on such a line. */
  lemma {:induction false} HopRuleOfWords(c: string, hop: string, rest: string)
    requires c == hop + " " + rest && hop != [] && AllDigits(hop) && Canonical(c) && Contains(c, "ms")
    ensures HopRule(c) == Some(PadStart(hop, 2) + " " + rest)
  {
    assert c[|hop|] == ' ';
    assert rest != [] && rest[0] == c[|hop| + 1] && rest[|rest| - 1] == c[|c| - 1];
    forall i | 0 <= i < |rest| ensures !IsLineTerminator(rest[i]) {
      assert rest[i] == c[|hop| + 1 + i];
      if IsLineTerminator(rest[i]) {
        LineTerminatorIsSpace(rest[i]);
      }
    }
    HopLineOfWords(c, hop, rest);
    HopLineNumber(c);
    TrimOfTrimmed(rest);
  }

  /** A banner line that is not a hop line names the first word after
      `traceroute to`. */
  lemma {:induction false} BannerRendering(text: string)
    requires var c := Clean(text);
      HopRule(c).None? && Contains(c, "traceroute to") && Exec(TracerouteTo, c).Some?
    ensures var host := Capture(TracerouteTo, Clean(text));
      && CleanTracertOutput(text) == "Tracing route to " + host
      && TracerouteToText(MatchedText(TracerouteTo, Clean(text)), host)
  {
    TracerouteToFound(Clean(text));
  }

  /** A timeout line that no earlier recogniser took starts with its hop
      number, which is padded with spaces to two columns. */
  lemma {:induction false} TimeoutRendering(text: string)
    requires var c := Clean(text);
      HopRule(c).None? && BannerRule(c).None?
      && (Contains(c, "*") || Contains(c, "timeout") || Contains(c, "Request timed out"))
      && Exec(LeadingNumber, c).Some?
    ensures var c, hop := Clean(text), Capture(LeadingNumber, Clean(text));
      && CleanTracertOutput(text) == PadStart(hop, 2) + TimedOut
      && Captured(hop, Digit) && |hop| <= |c| && c[..|hop|] == hop
  {
    var c := Clean(text);
    LinuxHopBranchDead(c);
    ExecLeadingNumber(c);
    LeadingNumberPrefix(c);
  }

  /** A line that does not start with a number is never shown as a hop or a
      timeout: it is the banner, one of the two error messages, the cleaned
      line itself or nothing. */
  lemma {:induction false} NoNumberNoHop(text: string)
    requires Exec(LeadingNumber, Clean(text)).None?
    ensures var c, r := Clean(text), CleanTracertOutput(text);
      || (BannerRule(c).Some? && r == BannerRule(c).value)
      || r == ResolveError || r == Unreachable || r == c || r == ""
  {
    var c := Clean(text);
    if Exec(HopLine, c).Some? {
      HopLineNumber(c);
    }
  }

  /** The resolution and reachability failures are reported by fixed
      messages: two lines that reach the same one are shown alike. */
  lemma {:induction false} ErrorMessagesFixed(text1: string, text2: string)
    requires var c1, c2 := Clean(text1), Clean(text2);
      && HopRule(c1).None? && BannerRule(c1).None? && TimeoutRule(c1).None?
      && HopRule(c2).None? && BannerRule(c2).None? && TimeoutRule(c2).None?
      && MentionsResolveError(c1) == MentionsResolveError(c2)
      && (MentionsResolveError(c1) || (MentionsUnreachable(c1) && MentionsUnreachable(c2)))
    ensures CleanTracertOutput(text1) == CleanTracertOutput(text2)
    ensures CleanTracertOutput(text1) == if MentionsResolveError(Clean(text1)) then ResolveError else Unreachable
  {
    LinuxHopBranchDead(Clean(text1));
    LinuxHopBranchDead(Clean(text2));
  }
}
