/** The regular expressions of ping-server/server.js and
    traceroute-server/src/routes/traceroute.ts, written out by hand.

    `MatchAt(pat, s, p)` says what the JavaScript engine finds when it tries
    `pat` at position `p`, greedy quantifiers and backtracking included, and
    `Exec(pat, s)` is `s.match(pat)`: the leftmost position where `MatchAt`
    succeeds. For every pattern but `HopLine` a greedy quantifier never gives
    characters back, because the character that follows a run can never be
    matched by what comes next in the pattern; `HopLine` backtracks its `\s+`
    so that `(.+)` can start (see `RestStart`). */
module Patterns {
  import opened Base
  import opened Text

  datatype Pattern =
    | ReplyTime     // /time=([0-9.]+)\s*ms/
    | DottedQuad    // /(\d+\.\d+\.\d+\.\d+)/
    | DigitsMs      // /(\d+)ms/
    | Sent          // /(\d+)\s*packets?\s*transmitted/
    | Received      // /(\d+)\s*received/
    | Loss          // /(\d+)%\s*packet\s*loss/
    | Triple        // /([0-9.]+)\/([0-9.]+)\/([0-9.]+)/
    | TracerouteTo  // /traceroute to ([^\s]+)/
    | TimeMs        // /([0-9.]+)\s*ms/
    | LeadingNumber // /^\s*(\d+)/, also tested as /^\s*\d+/
    | HopLine       // /^\s*(\d+)\s+(.+)/
    | HopPrefix     // /^\s*\d+\s+/
    | LeadingHop    // /^\s*(\d+)\s/

  /** A successful match: where it starts and ends, and its capture groups. */
  datatype Match = Match(start: nat, end: nat, groups: seq<string>)

  predicate Anchored(pat: Pattern) {
    pat.LeadingNumber? || pat.HopLine? || pat.HopPrefix? || pat.LeadingHop?
  }

  function GroupCount(pat: Pattern): nat {
    match pat
    case Triple => 3
    case HopLine => 2
    case HopPrefix => 0
    case _ => 1
  }

  /** Where `(.+)` of `HopLine` starts once `\s+` has taken `s[e..x]`: the
      engine gives back white space one character at a time until `.` can
      match, so the start is the largest `j` in `e+1..x` whose character is not
      a line terminator. */
  function RestStart(s: string, e: nat, j: nat): (r: Option<nat>)
    requires e < j <= |s|
    ensures r.Some? ==> e < r.value <= j && r.value < |s| && !IsLineTerminator(s[r.value])
    ensures r.Some? ==> forall i :: r.value < i <= j && i < |s| ==> IsLineTerminator(s[i])
    ensures r.None? ==> forall i :: e < i <= j && i < |s| ==> IsLineTerminator(s[i])
    decreases j
  {
    if j < |s| && !IsLineTerminator(s[j]) then Some(j)
    else if j - 1 > e then RestStart(s, e, j - 1)
    else None
  }

  /** A capture group: at least one character, all of class `k`. */
  predicate Captured(g: string, k: CharClass) {
    g != [] && forall i :: 0 <= i < |g| ==> InClass(g[i], k)
  }

  /** `/time=([0-9.]+)\s*ms/` tried at `p`. */
  function ReplyTimeAt(s: string, p: nat): (m: Option<Match>)
    requires p <= |s|
    ensures m.Some? ==> m.value.start == p <= m.value.end <= |s| && |m.value.groups| == 1
    ensures m.Some? ==> Captured(m.value.groups[0], DigitOrDot)
  {
    if !OccursAt(s, "time=", p) then None
    else
      var e := RunEnd(s, p + 5, DigitOrDot);
      RunEndRun(s, p + 5, DigitOrDot);
      var w := RunEnd(s, e, Space);
      RunEndRun(s, e, Space);
      if e == p + 5 || !OccursAt(s, "ms", w) then None
      else Some(Match(p, w + 2, [s[p + 5..e]]))
  }

  /** Four nonempty strings of digits joined by dots. */
  predicate IsDottedQuad(g: string) {
    var parts := Split(g, '.');
    |parts| == 4 && forall k :: 0 <= k < 4 ==> parts[k] != [] && AllDigits(parts[k])
  }

  /** Four nonempty digit strings joined by dots form a dotted quad. */
  lemma {:induction false} QuadOf(x1: string, x2: string, x3: string, x4: string)
    requires x1 != [] && x2 != [] && x3 != [] && x4 != []
    requires AllDigits(x1) && AllDigits(x2) && AllDigits(x3) && AllDigits(x4)
    ensures IsDottedQuad(x1 + "." + x2 + "." + x3 + "." + x4)
  {
    var parts := [x1, x2, x3, x4];
    forall k | 0 <= k < 4 ensures '.' !in parts[k] {
      assert forall i :: 0 <= i < |parts[k]| ==> IsDigit(parts[k][i]);
    }
    assert Join(parts[3..], '.') == x4;
    assert Join(parts[2..], '.') == x3 + "." + x4 by {
      assert parts[2..][1..] == parts[3..];
    }
    assert Join(parts[1..], '.') == x2 + "." + x3 + "." + x4 by {
      assert parts[1..][1..] == parts[2..];
    }
    assert Join(parts, '.') == x1 + "." + x2 + "." + x3 + "." + x4;
    SplitJoin(parts, '.');
    assert forall k :: 0 <= k < 4 ==> parts[k] != [] && AllDigits(parts[k]);
  }

  /** `s[p..d]` is a dotted quad when the three dots sit at `a`, `b` and `c`
      and digits fill the gaps. */
  lemma {:induction false} QuadShape(s: string, p: nat, a: nat, b: nat, c: nat, d: nat)
    requires p < a && a + 1 < b && b + 1 < c && c + 1 < d <= |s|
    requires s[a] == '.' && s[b] == '.' && s[c] == '.'
    requires forall i :: p <= i < a || a < i < b || b < i < c || c < i < d ==> IsDigit(s[i])
    ensures IsDottedQuad(s[p..d])
  {
    var x1, x2, x3, x4 := s[p..a], s[a + 1..b], s[b + 1..c], s[c + 1..d];
    assert AllDigits(x1) && AllDigits(x2) && AllDigits(x3) && AllDigits(x4);
    QuadOf(x1, x2, x3, x4);
    assert s[p..d] == x1 + "." + x2 + "." + x3 + "." + x4 by {
      assert s[p..d] == s[p..a] + s[a..a + 1] + s[a + 1..b] + s[b..b + 1] + s[b + 1..c] + s[c..c + 1] + s[c + 1..d];
    }
  }

  /** `/(\d+\.\d+\.\d+\.\d+)/` tried at `p`. */
  function DottedQuadAt(s: string, p: nat): (m: Option<Match>)
    requires p <= |s|
    ensures m.Some? ==> m.value.start == p <= m.value.end <= |s| && |m.value.groups| == 1
    ensures m.Some? ==> Captured(m.value.groups[0], DigitOrDot)
  {
    var a := RunEnd(s, p, Digit);
    RunEndRun(s, p, Digit);
    if a == p || a == |s| || s[a] != '.' then None
    else
      var b := RunEnd(s, a + 1, Digit);
      RunEndRun(s, a + 1, Digit);
      if b == a + 1 || b == |s| || s[b] != '.' then None
      else
        var c := RunEnd(s, b + 1, Digit);
        RunEndRun(s, b + 1, Digit);
        if c == b + 1 || c == |s| || s[c] != '.' then None
        else
          var d := RunEnd(s, c + 1, Digit);
          RunEndRun(s, c + 1, Digit);
          if d == c + 1 then None
          else Some(Match(p, d, [s[p..d]]))
  }

  /** `/(\d+)ms/` tried at `p`. */
  function DigitsMsAt(s: string, p: nat): (m: Option<Match>)
    requires p <= |s|
    ensures m.Some? ==> m.value.start == p <= m.value.end <= |s| && |m.value.groups| == 1
    ensures m.Some? ==> Captured(m.value.groups[0], Digit)
  {
    var a := RunEnd(s, p, Digit);
    RunEndRun(s, p, Digit);
    if a == p || !OccursAt(s, "ms", a) then None
    else
      assert s[p..a + 2] == s[p..a] + s[a..a + 2];
      Some(Match(p, a + 2, [s[p..a]]))
  }

  /** `\s*word` tried at `i`: where `word` ends, after the optional white
      space. */
  function SpaceThen(s: string, i: nat, word: string): (r: Option<nat>)
    requires i <= |s|
    ensures r.Some? ==> i <= r.value <= |s|
    decreases |s| - i
  {
    if i < |s| && IsSpace(s[i]) then SpaceThen(s, i + 1, word)
    else if OccursAt(s, word, i) then Some(i + |word|)
    else None
  }

  /** `/(\d+)\s*packets?\s*transmitted/` tried at `p`. */
  function SentAt(s: string, p: nat): (m: Option<Match>)
    requires p <= |s|
    ensures m.Some? ==> m.value.start == p <= m.value.end <= |s| && |m.value.groups| == 1
    ensures m.Some? ==> Captured(m.value.groups[0], Digit)
  {
    var a := RunEnd(s, p, Digit);
    RunEndRun(s, p, Digit);
    var packet := SpaceThen(s, a, "packet");
    if a == p || packet.None? then None
    else
      var x := packet.value;
      var y := if x < |s| && s[x] == 's' then x + 1 else x;
      var transmitted := SpaceThen(s, y, "transmitted");
      if transmitted.None? then None
      else Some(Match(p, transmitted.value, [s[p..a]]))
  }

  /** `/(\d+)\s*received/` tried at `p`. */
  function ReceivedAt(s: string, p: nat): (m: Option<Match>)
    requires p <= |s|
    ensures m.Some? ==> m.value.start == p <= m.value.end <= |s| && |m.value.groups| == 1
    ensures m.Some? ==> Captured(m.value.groups[0], Digit)
  {
    var a := RunEnd(s, p, Digit);
    RunEndRun(s, p, Digit);
    var w := RunEnd(s, a, Space);
    RunEndRun(s, a, Space);
    if a == p || !OccursAt(s, "received", w) then None
    else Some(Match(p, w + 8, [s[p..a]]))
  }

  /** `/(\d+)%\s*packet\s*loss/` tried at `p`. */
  function LossAt(s: string, p: nat): (m: Option<Match>)
    requires p <= |s|
    ensures m.Some? ==> m.value.start == p <= m.value.end <= |s| && |m.value.groups| == 1
    ensures m.Some? ==> Captured(m.value.groups[0], Digit)
  {
    var a := RunEnd(s, p, Digit);
    RunEndRun(s, p, Digit);
    if a == p || a == |s| || s[a] != '%' then None
    else
      var packet := SpaceThen(s, a + 1, "packet");
      if packet.None? then None
      else
        var loss := SpaceThen(s, packet.value, "loss");
        if loss.None? then None
        else Some(Match(p, loss.value, [s[p..a]]))
  }

  /** `/([0-9.]+)\/([0-9.]+)\/([0-9.]+)/` tried at `p`. */
  function TripleAt(s: string, p: nat): (m: Option<Match>)
    requires p <= |s|
    ensures m.Some? ==> m.value.start == p <= m.value.end <= |s| && |m.value.groups| == 3
    ensures m.Some? ==> forall k :: 0 <= k < 3 ==> Captured(m.value.groups[k], DigitOrDot)
  {
    var a := RunEnd(s, p, DigitOrDot);
    RunEndRun(s, p, DigitOrDot);
    if a == p || a == |s| || s[a] != '/' then None
    else
      var b := RunEnd(s, a + 1, DigitOrDot);
      RunEndRun(s, a + 1, DigitOrDot);
      if b == a + 1 || b == |s| || s[b] != '/' then None
      else
        var c := RunEnd(s, b + 1, DigitOrDot);
        RunEndRun(s, b + 1, DigitOrDot);
        if c == b + 1 then None
        else Some(Match(p, c, [s[p..a], s[a + 1..b], s[b + 1..c]]))
  }

  /** Three runs separated by the slashes at `a` and `b`. */
  lemma {:induction false} TripleJoin(s: string, p: nat, a: nat, b: nat, c: nat)
    requires p < a < b < c <= |s| && s[a] == '/' && s[b] == '/'
    ensures s[p..c] == s[p..a] + "/" + s[a + 1..b] + "/" + s[b + 1..c]
  {
    assert s[b..c] == "/" + s[b + 1..c];
    assert s[a + 1..c] == s[a + 1..b] + s[b..c];
    assert s[a..c] == "/" + s[a + 1..c];
    assert s[p..c] == s[p..a] + s[a..c];
  }

  /** `/traceroute to ([^\s]+)/` tried at `p`. */
  function TracerouteToAt(s: string, p: nat): (m: Option<Match>)
    requires p <= |s|
    ensures m.Some? ==> m.value.start == p <= m.value.end <= |s| && |m.value.groups| == 1
    ensures m.Some? ==> Captured(m.value.groups[0], NonSpace)
    ensures m.Some? ==> m.value.end == |s| || IsSpace(s[m.value.end])
  {
    if !OccursAt(s, "traceroute to ", p) then None
    else
      var e := RunEnd(s, p + 14, NonSpace);
      RunEndRun(s, p + 14, NonSpace);
      if e == p + 14 then None
      else Some(Match(p, e, [s[p + 14..e]]))
  }

  /** `/([0-9.]+)\s*ms/` tried at `p`. */
  function TimeMsAt(s: string, p: nat): (m: Option<Match>)
    requires p <= |s|
    ensures m.Some? ==> m.value.start == p <= m.value.end <= |s| && |m.value.groups| == 1
    ensures m.Some? ==> Captured(m.value.groups[0], DigitOrDot)
  {
    var a := RunEnd(s, p, DigitOrDot);
    RunEndRun(s, p, DigitOrDot);
    var w := RunEnd(s, a, Space);
    RunEndRun(s, a, Space);
    if a == p || !OccursAt(s, "ms", w) then None
    else Some(Match(p, w + 2, [s[p..a]]))
  }

  /** `/^\s*(\d+)/` tried at `p`. */
  function LeadingNumberAt(s: string, p: nat): (m: Option<Match>)
    requires p <= |s|
    ensures m.Some? ==> m.value.start == p <= m.value.end <= |s| && |m.value.groups| == 1 && p == 0
    ensures m.Some? ==> Captured(m.value.groups[0], Digit)
    ensures m.Some? ==>
      (|m.value.groups[0]| <= m.value.end && m.value.groups[0] == s[m.value.end - |m.value.groups[0]|..m.value.end])
    ensures m.Some? ==> forall i :: 0 <= i < m.value.end - |m.value.groups[0]| ==> IsSpace(s[i])
    ensures m.Some? ==> m.value.end == |s| || !IsDigit(s[m.value.end])
  {
    if p != 0 then None
    else
      var w := RunEnd(s, 0, Space);
      RunEndRun(s, 0, Space);
      var e := RunEnd(s, w, Digit);
      RunEndRun(s, w, Digit);
      if e == w then None else Some(Match(0, e, [s[w..e]]))
  }

  /** `/^\s*(\d+)\s+(.+)/` tried at `p`. */
  function HopLineAt(s: string, p: nat): (m: Option<Match>)
    requires p <= |s|
    ensures m.Some? ==> m.value.start == p <= m.value.end <= |s| && |m.value.groups| == 2 && p == 0
    ensures m.Some? ==> Captured(m.value.groups[0], Digit) && Captured(m.value.groups[1], NonTerminator)
    ensures m.Some? ==>
      (|m.value.groups[1]| <= m.value.end && m.value.groups[1] == s[m.value.end - |m.value.groups[1]|..m.value.end])
    ensures m.Some? ==>
      (LeadingNumberAt(s, 0).Some? && LeadingNumberAt(s, 0).value.groups[0] == m.value.groups[0])
  {
    if p != 0 then None
    else
      var w := RunEnd(s, 0, Space);
      RunEndRun(s, 0, Space);
      var e := RunEnd(s, w, Digit);
      RunEndRun(s, w, Digit);
      if e == w then None
      else
        var x := RunEnd(s, e, Space);
        RunEndRun(s, e, Space);
        if x == e then None
        else
          var j := RestStart(s, e, x);
          if j.None? then None
          else
            var end := RunEnd(s, j.value, NonTerminator);
            RunEndRun(s, j.value, NonTerminator);
            Some(Match(0, end, [s[w..e], s[j.value..end]]))
  }

  /** `/^\s*\d+\s+/` tried at `p`. */
  function HopPrefixAt(s: string, p: nat): (m: Option<Match>)
    requires p <= |s|
    ensures m.Some? ==> m.value.start == p <= m.value.end <= |s| && |m.value.groups| == 0 && p == 0
  {
    if p != 0 then None
    else
      var w := RunEnd(s, 0, Space);
      RunEndRun(s, 0, Space);
      var e := RunEnd(s, w, Digit);
      RunEndRun(s, w, Digit);
      if e == w then None
      else
        var x := RunEnd(s, e, Space);
        RunEndRun(s, e, Space);
        if x == e then None else Some(Match(0, x, []))
  }

  /** `/^\s*(\d+)\s/` tried at `p`. */
  function LeadingHopAt(s: string, p: nat): (m: Option<Match>)
    requires p <= |s|
    ensures m.Some? ==> m.value.start == p <= m.value.end <= |s| && |m.value.groups| == 1 && p == 0
    ensures m.Some? ==> Captured(m.value.groups[0], Digit)
    ensures m.Some? ==>
      (LeadingNumberAt(s, 0).Some? && LeadingNumberAt(s, 0).value.groups[0] == m.value.groups[0])
  {
    if p != 0 then None
    else
      var w := RunEnd(s, 0, Space);
      RunEndRun(s, 0, Space);
      var e := RunEnd(s, w, Digit);
      RunEndRun(s, w, Digit);
      if e == w || e == |s| || !IsSpace(s[e]) then None
      else Some(Match(0, e + 1, [s[w..e]]))
  }

  /** The patterns of `cleanPingOutput`. */
  predicate PingPattern(pat: Pattern) {
    pat.ReplyTime? || pat.DottedQuad? || pat.DigitsMs? || pat.Sent? || pat.Received? || pat.Loss? || pat.Triple?
  }

  /** The matcher of a pattern of `cleanPingOutput`. */
  function PingMatcher(pat: Pattern): (string, nat) --> Option<Match>
    requires PingPattern(pat)
  {
    match pat
    case ReplyTime => ReplyTimeAt
    case DottedQuad => DottedQuadAt
    case DigitsMs => DigitsMsAt
    case Sent => SentAt
    case Received => ReceivedAt
    case Loss => LossAt
    case Triple => TripleAt
  }

  /** The matcher of a pattern of `cleanTracertOutput` or of the traceroute route. */
  function TraceMatcher(pat: Pattern): (string, nat) --> Option<Match>
    requires !PingPattern(pat)
  {
    match pat
    case TracerouteTo => TracerouteToAt
    case TimeMs => TimeMsAt
    case LeadingNumber => LeadingNumberAt
    case HopLine => HopLineAt
    case HopPrefix => HopPrefixAt
    case LeadingHop => LeadingHopAt
  }

  function PingMatchAt(pat: Pattern, s: string, p: nat): (m: Option<Match>)
    requires p <= |s| && PingPattern(pat)
    ensures m.Some? ==> m.value.start == p <= m.value.end <= |s|
    ensures m.Some? ==> |m.value.groups| == GroupCount(pat)
  {
    PingMatcher(pat)(s, p)
  }

  function TraceMatchAt(pat: Pattern, s: string, p: nat): (m: Option<Match>)
    requires p <= |s| && !PingPattern(pat)
    ensures m.Some? ==> m.value.start == p <= m.value.end <= |s|
    ensures m.Some? ==> |m.value.groups| == GroupCount(pat)
    ensures m.Some? && Anchored(pat) ==> p == 0
  {
    TraceMatcher(pat)(s, p)
  }

  /** The result of trying `pat` at position `p` of `s`. */
  function MatchAt(pat: Pattern, s: string, p: nat): (m: Option<Match>)
    requires p <= |s|
    ensures m.Some? ==> m.value.start == p <= m.value.end <= |s|
    ensures m.Some? ==> |m.value.groups| == GroupCount(pat)
    ensures m.Some? && Anchored(pat) ==> p == 0
  {
    if PingPattern(pat) then PingMatchAt(pat, s, p) else TraceMatchAt(pat, s, p)
  }

  /** The outcome of trying `pat` at each position of `s`, left to right. */
  function Attempts(pat: Pattern, s: string): (a: seq<Option<Match>>)
    ensures |a| == |s| + 1
    ensures forall q :: 0 <= q <= |s| ==> a[q] == MatchAt(pat, s, q)
  {
    seq(|s| + 1, q requires 0 <= q <= |s| => MatchAt(pat, s, q))
  }

  /** The first position at or after `from` whose attempt succeeded. */
  function FirstSuccess(a: seq<Option<Match>>, from: nat): (r: Option<nat>)
    ensures r.Some? ==> from <= r.value < |a| && a[r.value].Some?
    ensures r.Some? ==> forall q :: from <= q < r.value ==> a[q].None?
    ensures r.None? ==> forall q :: from <= q < |a| ==> a[q].None?
    decreases |a| - from
  {
    if from >= |a| then None
    else if a[from].Some? then Some(from)
    else FirstSuccess(a, from + 1)
  }

  /** `s.match(pat)` without the `g` flag: the leftmost match. */
  function Exec(pat: Pattern, s: string): (m: Option<Match>)
    ensures m.Some? ==> m.value.start <= |s| && MatchAt(pat, s, m.value.start) == m
    ensures m.Some? ==> forall q :: 0 <= q < m.value.start ==> MatchAt(pat, s, q).None?
    ensures m.None? ==> forall q :: 0 <= q <= |s| ==> MatchAt(pat, s, q).None?
  {
    var a := Attempts(pat, s);
    var r := FirstSuccess(a, 0);
    if r.None? then None else a[r.value]
  }

  /** The first capture group of a successful `s.match(pat)`. */
  function Capture(pat: Pattern, s: string): string
    requires Exec(pat, s).Some? && GroupCount(pat) >= 1
  {
    Exec(pat, s).value.groups[0]
  }

  /** `s.match(pat)[0]`: the whole text of the leftmost match. */
  function MatchedText(pat: Pattern, s: string): string
    requires Exec(pat, s).Some?
  {
    var m := Exec(pat, s).value;
    s[m.start..m.end]
  }

  /** A match at `q` with none before it is the leftmost one. */
  lemma {:induction false} ExecFindsFirst(pat: Pattern, s: string, q: nat)
    requires q <= |s| && MatchAt(pat, s, q).Some?
    requires forall r :: 0 <= r < q ==> MatchAt(pat, s, r).None?
    ensures Exec(pat, s) == MatchAt(pat, s, q)
  {
  }

  /** A pattern that starts with `^` is only ever tried at the start. */
  lemma {:induction false} ExecAnchored(pat: Pattern, s: string)
    requires Anchored(pat)
    ensures Exec(pat, s) == MatchAt(pat, s, 0)
  {
  }

  // ---------------------------------------------------------------------------
  // The anchored patterns

  /** A line that does not start with white space and matches `^\s*(\d+)`
      starts with the captured digits. */
  lemma {:induction false} LeadingNumberPrefix(s: string)
    requires Exec(LeadingNumber, s).Some? && !IsSpace(s[0])
    ensures Captured(Capture(LeadingNumber, s), Digit)
    ensures |Capture(LeadingNumber, s)| <= |s| && s[..|Capture(LeadingNumber, s)|] == Capture(LeadingNumber, s)
  {
    ExecLeadingNumber(s);
  }

  /** Whatever `HopLine` matches, `LeadingNumber` matches too, with the same
      number. */
  lemma {:induction false} HopLineNumber(s: string)
    requires Exec(HopLine, s).Some?
    ensures Exec(LeadingNumber, s).Some? && Capture(LeadingNumber, s) == Capture(HopLine, s)
  {
    ExecHopLine(s);
    ExecLeadingNumber(s);
  }

  /** `HopLine` is anchored: its match is the one at the start. */
  lemma {:induction false} ExecHopLine(s: string)
    ensures Exec(HopLine, s) == HopLineAt(s, 0)
  {
    ExecAnchored(HopLine, s);
    assert MatchAt(HopLine, s, 0) == TraceMatchAt(HopLine, s, 0);
    assert TraceMatcher(HopLine) == HopLineAt;
    assert TraceMatchAt(HopLine, s, 0) == HopLineAt(s, 0);
  }

  /** `LeadingNumber` is anchored: its match is the one at the start. */
  lemma {:induction false} ExecLeadingNumber(s: string)
    ensures Exec(LeadingNumber, s) == LeadingNumberAt(s, 0)
  {
    ExecAnchored(LeadingNumber, s);
    assert MatchAt(LeadingNumber, s, 0) == TraceMatchAt(LeadingNumber, s, 0);
    assert TraceMatcher(LeadingNumber) == LeadingNumberAt;
    assert TraceMatchAt(LeadingNumber, s, 0) == LeadingNumberAt(s, 0);
  }

  /** `LeadingHop` is anchored: its match is the one at the start. */
  lemma {:induction false} ExecLeadingHop(s: string)
    ensures Exec(LeadingHop, s) == LeadingHopAt(s, 0)
  {
    ExecAnchored(LeadingHop, s);
    assert MatchAt(LeadingHop, s, 0) == TraceMatchAt(LeadingHop, s, 0);
    assert TraceMatcher(LeadingHop) == LeadingHopAt;
    assert TraceMatchAt(LeadingHop, s, 0) == LeadingHopAt(s, 0);
  }

  /** Anything in the rest of a hop line is in the line. */
  lemma {:induction false} HopLineRest(s: string, pat: string)
    requires Exec(HopLine, s).Some? && Contains(Exec(HopLine, s).value.groups[1], pat)
    ensures Contains(s, pat)
  {
    ExecHopLine(s);
    var m := HopLineAt(s, 0).value;
    assert Exec(HopLine, s).value.groups[1] == s[m.end - |m.groups[1]|..m.end];
    ContainsInSlice(s, m.end - |m.groups[1]|, m.end, pat);
  }

  /** On a line `d + " " + rest`, where `d` is a number and `rest` starts
      with a character that is not white space and holds no line terminator,
      `HopLine` captures `d` and `rest`. */
  lemma {:induction false} HopLineOfWords(s: string, d: string, rest: string)
    requires s == d + " " + rest && d != [] && AllDigits(d) && rest != [] && !IsSpace(rest[0])
    requires forall i :: 0 <= i < |rest| ==> !IsLineTerminator(rest[i])
    ensures Exec(HopLine, s) == Some(Match(0, |s|, [d, rest]))
  {
    HopLineAtWords(s, d, rest);
    ExecHopLine(s);
  }

  lemma {:induction false} HopLineAtWords(s: string, d: string, rest: string)
    requires s == d + " " + rest && d != [] && AllDigits(d) && rest != [] && !IsSpace(rest[0])
    requires forall i :: 0 <= i < |rest| ==> !IsLineTerminator(rest[i])
    ensures HopLineAt(s, 0) == Some(Match(0, |s|, [d, rest]))
  {
    var e := |d|;
    assert IsDigit(s[0]);
    RunEndUnique(s, 0, Space, 0);
    RunEndUnique(s, 0, Digit, e);
    RunEndUnique(s, e, Space, e + 1);
    assert RestStart(s, e, e + 1) == Some(e + 1);
    RunEndUnique(s, e + 1, NonTerminator, |s|);
    assert s[0..e] == d && s[e + 1..|s|] == rest;
  }
}
