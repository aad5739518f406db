/** The `POST /api/tracert` route of traceroute-server/src/routes/traceroute.ts.
    It checks that the body's host is a non-empty string, strips it to the
    characters a host name can hold, builds the `tracert`/`traceroute`
    arguments, and streams the process: each non-blank stdout chunk becomes
    one `output` event carrying the whole chunk and the highest hop number
    seen so far, each stderr chunk an `error` event, and the exit a
    `complete` event that ends the stream. */
module TracerouteRoute {
  import opened Base
  import opened Text
  import opened Patterns
  import DiagnosticStream

  /** A field of the JSON request body: absent, `null`, an integer, a string
      or a boolean. */
  datatype Json = Absent | Null | Num(n: int) | Str(s: string) | Bool(b: bool)

  const InvalidHost := "Invalid host parameter"
  const StartFailure := "Failed to start traceroute process"

  // ---------------------------------------------------------------------------
  // Host

  /** `!host || typeof host !== 'string'` lets the host through: a string that
      is not empty. */
  predicate HostAccepted(host: Json) {
    host.Str? && host.s != ""
  }

  /** `[a-zA-Z0-9.-]` */
  predicate IsHostChar(c: char) {
    IsAlnum(c) || c == '.' || c == '-'
  }

  /** `host.replace(/[^a-zA-Z0-9.-]/g, '')` */
  function Sanitize(s: string): (r: string)
    ensures |r| <= |s|
    ensures forall i :: 0 <= i < |r| ==> IsHostChar(r[i])
  {
    if s == [] then [] else (if IsHostChar(s[0]) then [s[0]] else []) + Sanitize(s[1..])
  }

  /** Sanitising works piece by piece: the kept characters of a string are
      the kept characters of its parts, in order. */
  lemma {:induction false} SanitizeAppend(a: string, b: string)
    ensures Sanitize(a + b) == Sanitize(a) + Sanitize(b)
    decreases |a|
  {
    if a != [] {
      assert (a + b)[0] == a[0] && (a + b)[1..] == a[1..] + b;
      SanitizeAppend(a[1..], b);
    } else {
      assert a + b == b;
    }
  }

  /** One character is kept exactly when it is allowed. */
  lemma {:induction false} SanitizeChar(c: char)
    ensures Sanitize([c]) == if IsHostChar(c) then [c] else []
  {
    assert [c][1..] == [];
  }

  /** A string is left alone exactly when all its characters are allowed. */
  lemma {:induction false} SanitizeIdentity(s: string)
    ensures Sanitize(s) == s <==> forall i :: 0 <= i < |s| ==> IsHostChar(s[i])
    decreases |s|
  {
    if s != [] && forall i :: 0 <= i < |s| ==> IsHostChar(s[i]) {
      SanitizeIdentity(s[1..]);
      assert forall i :: 0 <= i < |s[1..]| ==> s[1..][i] == s[i + 1];
      assert s == [s[0]] + s[1..];
    }
  }

  lemma {:induction false} SanitizeIdempotent(s: string)
    ensures Sanitize(Sanitize(s)) == Sanitize(s)
  {
    SanitizeIdentity(Sanitize(s));
  }

  /** Every allowed character keeps all its occurrences, and every other
      character loses all of them. */
  lemma {:induction false} SanitizeCounts(s: string, c: char)
    ensures multiset(Sanitize(s))[c] == if IsHostChar(c) then multiset(s)[c] else 0
    decreases |s|
  {
    if s != [] {
      SanitizeCounts(s[1..], c);
      assert s == [s[0]] + s[1..];
    }
  }

  // ---------------------------------------------------------------------------
  // Arguments

  /** What `spawn` is given. */
  datatype Invocation = Invocation(command: string, args: seq<string>)

  /** `value.toString()`, or `None` where that throws (`null`, and an absent
      field that has no default). */
  function ToText(v: Json): (r: Option<string>)
    ensures r.None? <==> v.Null? || v.Absent?
    ensures v.Num? ==> r == Some(IntToString(v.n))
    ensures v.Str? ==> r == Some(v.s)
  {
    match v
    case Absent => None
    case Null => None
    case Num(n) => Some(IntToString(n))
    case Str(s) => Some(s)
    case Bool(b) => Some(if b then "true" else "false")
  }

  /** A body field with its destructuring default, which only an absent field
      takes. */
  function WithDefault(v: Json, default: int): Json {
    if v.Absent? then Num(default) else v
  }

  /** The command and arguments for a platform. The ternary only evaluates
      the branch it takes, so the timeout is converted on Windows alone;
      `None` is a conversion that throws. */
  function BuildInvocation(platform: string, maxHops: Json, timeout: Json, host: string): (r: Option<Invocation>)
    ensures r.None? <==> maxHops.Null? || (platform == "win32" && timeout.Null?)
  {
    var hops := ToText(WithDefault(maxHops, 30));
    if platform == "win32" then
      var wait := ToText(WithDefault(timeout, 5000));
      if hops.None? || wait.None? then None
      else Some(Invocation("tracert", ["-h", hops.value, "-w", wait.value, host]))
    else if hops.None? then None
    else Some(Invocation("traceroute", ["-m", hops.value, "-w", "1", host]))
  }

  /** On Windows the hop limit and the timeout are passed as given; elsewhere
      the wait is one second whatever the timeout, and the timeout is never
      looked at. The host is always the last argument. */
  lemma {:induction false} InvocationShape(platform: string, maxHops: Json, timeout: Json, timeout2: Json, host: string)
    requires BuildInvocation(platform, maxHops, timeout, host).Some?
    ensures var inv := BuildInvocation(platform, maxHops, timeout, host).value;
      && |inv.args| == 5 && inv.args[4] == host && inv.args[2] == "-w"
      && (platform == "win32" ==>
            (inv.command == "tracert" && inv.args[0] == "-h" && inv.args[3] == ToText(WithDefault(timeout, 5000)).value))
      && (platform != "win32" ==>
            (inv.command == "traceroute" && inv.args[0] == "-m" && inv.args[3] == "1"
             && BuildInvocation(platform, maxHops, timeout2, host) == Some(inv)))
      && inv.args[1] == ToText(WithDefault(maxHops, 30)).value
  {
  }

  /** With neither field given the limits are 30 hops and 5000 ms. */
  lemma {:induction false} DefaultInvocation(host: string)
    ensures BuildInvocation("win32", Absent, Absent, host) == Some(Invocation("tracert", ["-h", "30", "-w", "5000", host]))
    ensures BuildInvocation("linux", Absent, Absent, host) == Some(Invocation("traceroute", ["-m", "30", "-w", "1", host]))
  {
    assert IntToString(30) == "30" by {
      assert NatToString(30) == NatToString(3) + [DigitChar(0)];
    }
    assert IntToString(5000) == "5000" by {
      assert NatToString(5000) == NatToString(500) + [DigitChar(0)];
      assert NatToString(500) == NatToString(50) + [DigitChar(0)];
      assert NatToString(50) == NatToString(5) + [DigitChar(0)];
    }
  }

  // ---------------------------------------------------------------------------
  // Hop count

  /** A successful `/^\s*(\d+)\s/` captures digits. */
  lemma {:induction false} LeadingHopDigits(s: string)
    ensures Exec(LeadingHop, s).Some? ==> AllDigits(Capture(LeadingHop, s))
  {
    if Exec(LeadingHop, s).Some? {
      ExecLeadingHop(s);
    }
  }

  /** `parseInt(output.match(/^\s*(\d+)\s/)[1])`, when the chunk matches. */
  function ChunkHop(output: string): Option<nat> {
    LeadingHopDigits(output);
    if Exec(LeadingHop, output).None? then None else Some(DigitsValue(Capture(LeadingHop, output)))
  }

  /** A chunk that starts with a number followed by white space gives that
      number. */
  lemma {:induction false} ChunkHopOfLine(s: string, d: string, c: char, rest: string)
    requires s == d + [c] + rest && d != [] && AllDigits(d) && IsSpace(c)
    ensures ChunkHop(s) == Some(DigitsValue(d))
  {
    var e := |d|;
    assert !IsSpace(s[0]) by {
      assert s[0] == d[0] && IsDigit(d[0]);
    }
    RunEndUnique(s, 0, Space, 0);
    RunEndUnique(s, 0, Digit, e);
    assert s[0..e] == d;
    assert LeadingHopAt(s, 0) == Some(Match(0, e + 1, [d]));
    ExecLeadingHop(s);
  }

  /** A trimmed chunk only gives a number when it starts with digits that
      are followed by white space, and the number is their value. */
  lemma {:induction false} ChunkHopNeedsLeadingNumber(s: string)
    requires ChunkHop(s).Some? && !IsSpace(s[0])
    ensures exists k :: 0 < k < |s| && AllDigits(s[..k]) && IsSpace(s[k]) && ChunkHop(s).value == DigitsValue(s[..k])
  {
    ExecLeadingHop(s);
    RunEndUnique(s, 0, Space, 0);
    var e := RunEnd(s, 0, Digit);
    assert s[0..e] == s[..e];
    assert 0 < e < |s| && AllDigits(s[..e]) && IsSpace(s[e]);
  }

  function Max(a: nat, b: nat): (r: nat)
    ensures r >= a && r >= b && (r == a || r == b)
  {
    if a >= b then a else b
  }

  /** `hopCount = Math.max(hopCount, …)` for one non-blank chunk. */
  function NextHopCount(hop: nat, output: string): (r: nat)
    ensures r >= hop
    ensures ChunkHop(output).Some? ==> r == Max(hop, ChunkHop(output).value)
    ensures ChunkHop(output).None? ==> r == hop
  {
    var h := ChunkHop(output);
    if h.Some? then Max(hop, h.value) else hop
  }

  /** The hop number of a raw stdout chunk, as the listener sees it. */
  function ChunkNumber(chunk: string): Option<nat> {
    if Trim(chunk) == "" then None else ChunkHop(Trim(chunk))
  }

  /** `hopCount` after the listener has seen `chunks`, starting at 0. */
  function HopCountAfter(chunks: seq<string>): nat {
    if chunks == [] then 0
    else
      var prev := HopCountAfter(chunks[..|chunks| - 1]);
      var output := Trim(chunks[|chunks| - 1]);
      if output == "" then prev else NextHopCount(prev, output)
  }

  /** `h` is the largest number `read` finds among the chunks, or 0 when it
      finds none. */
  predicate IsHighestHop(read: string -> Option<nat>, chunks: seq<string>, h: nat) {
    && (forall k :: 0 <= k < |chunks| && read(chunks[k]).Some? ==> read(chunks[k]).value <= h)
    && (h == 0 || exists k :: 0 <= k < |chunks| && read(chunks[k]) == Some(h))
  }

  /** One more chunk raises the accumulator to its number, if that is
      higher. */
  lemma {:induction false} HopCountStep(chunks: seq<string>)
    requires chunks != []
    ensures var prev, n := HopCountAfter(chunks[..|chunks| - 1]), ChunkNumber(chunks[|chunks| - 1]);
      HopCountAfter(chunks) == if n.Some? then Max(prev, n.value) else prev
  {
  }

  /** The accumulator holds exactly the highest hop number seen. */
  lemma {:induction false} HopCountIsHighest(chunks: seq<string>)
    ensures IsHighestHop(ChunkNumber, chunks, HopCountAfter(chunks))
    decreases |chunks|
  {
    if chunks != [] {
      var init := chunks[..|chunks| - 1];
      HopCountIsHighest(init);
      HopCountStep(chunks);
      HighestOfExtended(ChunkNumber, chunks, HopCountAfter(init), HopCountAfter(chunks));
    }
  }

  /** Taking the larger of the running maximum and the next chunk's number
      keeps it the maximum. */
  lemma {:induction false} HighestOfExtended(read: string -> Option<nat>, chunks: seq<string>, prev: nat, h: nat)
    requires chunks != [] && IsHighestHop(read, chunks[..|chunks| - 1], prev)
    requires var n := read(chunks[|chunks| - 1]);
      h == if n.Some? then Max(prev, n.value) else prev
    ensures IsHighestHop(read, chunks, h)
  {
    var init := chunks[..|chunks| - 1];
    forall k | 0 <= k < |chunks| && read(chunks[k]).Some?
      ensures read(chunks[k]).value <= h
    {
      if k < |init| {
        assert chunks[k] == init[k];
      }
    }
    if h != 0 && h == prev {
      var k :| 0 <= k < |init| && read(init[k]) == Some(h);
      assert chunks[k] == init[k];
    }
  }

  /** The accumulator never decreases. */
  lemma {:induction false} HopCountMonotone(chunks: seq<string>, i: nat)
    requires i <= |chunks|
    ensures HopCountAfter(chunks[..i]) <= HopCountAfter(chunks)
    decreases |chunks|
  {
    if i < |chunks| {
      var init := chunks[..|chunks| - 1];
      assert chunks[..i] == init[..i];
      HopCountMonotone(init, i);
    } else {
      assert chunks[..i] == chunks;
    }
  }

  // ---------------------------------------------------------------------------
  // The stream

  /** One server-sent event, without its JSON layout. */
  datatype Event =
    | Output(message: string, timestamp: string, hopCount: nat)
    | Error(message: string, timestamp: string)
    | Complete(message: string, success: bool, timestamp: string, hopCount: nat)

  /** What the child process and the client do after the spawn. The route
      has no listener for the process `error` event. */
  datatype Callback =
    | Stdout(chunk: string, time: string)
    | Stderr(chunk: string, time: string)
    | Exit(code: Option<int>, time: string)
    | ClientClose

  datatype State = State(events: seq<Event>, ended: bool, connected: bool, hopCount: nat)

  /** Right after the headers: no event yet, and `hopCount` 0. */
  const Initial := State([], false, true, 0)

  /** `res.write`: nothing reaches a client that is gone or a stream that has
      ended. */
  function Deliver(st: State, e: Event): State {
    if st.ended || !st.connected then st else st.(events := st.events + [e])
  }

  function CompleteMessage(code: Option<int>): string {
    "Traceroute completed with exit code " + DiagnosticStream.CodeText(code)
  }

  function Step(st: State, cb: Callback): State {
    match cb
    case Stdout(chunk, time) =>
      var output := Trim(chunk);
      if output == "" then st
      else
        var hop := NextHopCount(st.hopCount, output);
        Deliver(st.(hopCount := hop), Output(output, time, hop))
    case Stderr(chunk, time) => Deliver(st, Error(Trim(chunk), time))
    case Exit(code, time) =>
      Deliver(st, Complete(CompleteMessage(code), code == Some(0), time, st.hopCount)).(ended := true)
    case ClientClose => st.(connected := false)
  }

  function Run(st: State, cbs: seq<Callback>): State
    decreases |cbs|
  {
    if cbs == [] then st else Run(Step(st, cbs[0]), cbs[1..])
  }

  /** The stdout chunks among the callbacks, in order. */
  function StdoutChunks(cbs: seq<Callback>): seq<string> {
    if cbs == [] then []
    else (if cbs[0].Stdout? then [cbs[0].chunk] else []) + StdoutChunks(cbs[1..])
  }

  predicate CarriesHop(e: Event) {
    e.Output? || e.Complete?
  }

  /** A `complete` event only last and only once the stream has ended, and
      the hop counts on the events never go down and never pass the
      accumulator. */
  predicate Valid(st: State) {
    && (forall i :: 0 <= i < |st.events| && st.events[i].Complete? ==> i == |st.events| - 1)
    && (!st.ended ==> forall i :: 0 <= i < |st.events| ==> !st.events[i].Complete?)
    && (forall i :: 0 <= i < |st.events| && CarriesHop(st.events[i]) ==> st.events[i].hopCount <= st.hopCount)
    && (forall i, j :: 0 <= i < j < |st.events| && CarriesHop(st.events[i]) && CarriesHop(st.events[j]) ==>
          st.events[i].hopCount <= st.events[j].hopCount)
  }

  lemma {:induction false} StepValid(st: State, cb: Callback)
    requires Valid(st)
    ensures Valid(Step(st, cb)) && Step(st, cb).hopCount >= st.hopCount
  {
    match cb
    case Stdout(chunk, time) =>
      var output := Trim(chunk);
      if output != "" {
        var hop := NextHopCount(st.hopCount, output);
        RaiseAndDeliverValid(st, hop, Output(output, time, hop));
      }
    case Stderr(chunk, time) =>
      RaiseAndDeliverValid(st, st.hopCount, Error(Trim(chunk), time));
    case Exit(code, time) =>
      ExitValid(st, Complete(CompleteMessage(code), code == Some(0), time, st.hopCount));
    case ClientClose =>
  }

  /** Raising the accumulator and writing an `output` or `error` event that
      carries the new value keeps the invariant. */
  lemma {:induction false} RaiseAndDeliverValid(st: State, hop: nat, e: Event)
    requires Valid(st) && hop >= st.hopCount && !e.Complete? && (e.Output? ==> e.hopCount == hop)
    ensures Valid(Deliver(st.(hopCount := hop), e))
  {
  }

  /** Writing the `complete` event with the accumulator and ending keeps the
      invariant. */
  lemma {:induction false} ExitValid(st: State, e: Event)
    requires Valid(st) && e.Complete? && e.hopCount == st.hopCount
    ensures Valid(Deliver(st, e).(ended := true))
  {
  }

  lemma {:induction false} RunValid(st: State, cbs: seq<Callback>)
    requires Valid(st)
    ensures Valid(Run(st, cbs))
    decreases |cbs|
  {
    if cbs != [] {
      StepValid(st, cbs[0]);
      RunValid(Step(st, cbs[0]), cbs[1..]);
    }
  }

  /** Running the callbacks feeds the accumulator the stdout chunks, whatever
      else happens: so its final value, which the `complete` event carries,
      is the highest hop number of all of them. */
  lemma {:induction false} RunHopCount(prefix: seq<string>, st: State, cbs: seq<Callback>)
    requires st.hopCount == HopCountAfter(prefix)
    ensures Run(st, cbs).hopCount == HopCountAfter(prefix + StdoutChunks(cbs))
    decreases |cbs|
  {
    if cbs == [] {
      assert prefix + StdoutChunks(cbs) == prefix;
    } else {
      var head := if cbs[0].Stdout? then [cbs[0].chunk] else [];
      StepHopCount(prefix, st, cbs[0]);
      RunHopCount(prefix + head, Step(st, cbs[0]), cbs[1..]);
      assert StdoutChunks(cbs) == head + StdoutChunks(cbs[1..]);
      AppendAssociates(prefix, head, StdoutChunks(cbs[1..]));
    }
  }

  /** One callback feeds the accumulator its stdout chunk, if it has one. */
  lemma {:induction false} StepHopCount(prefix: seq<string>, st: State, cb: Callback)
    requires st.hopCount == HopCountAfter(prefix)
    ensures Step(st, cb).hopCount == HopCountAfter(prefix + if cb.Stdout? then [cb.chunk] else [])
  {
    if cb.Stdout? {
      assert (prefix + [cb.chunk])[..|prefix|] == prefix;
    } else {
      assert prefix + [] == prefix;
    }
  }

  /** The accumulator ends up at the highest hop number of all stdout
      chunks, those that arrive after the exit included. */
  lemma {:induction false} HighestHopOfRun(cbs: seq<Callback>)
    ensures IsHighestHop(ChunkNumber, StdoutChunks(cbs), Run(Initial, cbs).hopCount)
  {
    RunHopCount([], Initial, cbs);
    assert [] + StdoutChunks(cbs) == StdoutChunks(cbs);
    HopCountIsHighest(StdoutChunks(cbs));
  }

  /** Running two lists of callbacks is running the first and then the second. */
  lemma {:induction false} RunAppend(st: State, a: seq<Callback>, b: seq<Callback>)
    ensures Run(st, a + b) == Run(Run(st, a), b)
    decreases |a|
  {
    if a == [] {
      assert a + b == b;
    } else {
      assert (a + b)[0] == a[0] && (a + b)[1..] == a[1..] + b;
      RunAppend(Step(st, a[0]), a[1..], b);
    }
  }

  /** Without an exit or a disconnect the stream stays open to its client. */
  lemma {:induction false} RunStaysOpen(st: State, cbs: seq<Callback>)
    requires !st.ended && st.connected
    requires forall i :: 0 <= i < |cbs| ==> !cbs[i].Exit? && !cbs[i].ClientClose?
    ensures !Run(st, cbs).ended && Run(st, cbs).connected
    decreases |cbs|
  {
    if cbs != [] {
      RunStaysOpen(Step(st, cbs[0]), cbs[1..]);
    }
  }

  /** Once the stream has ended, no callback adds an event. */
  lemma {:induction false} RunAfterEnd(st: State, cbs: seq<Callback>)
    requires st.ended
    ensures Run(st, cbs).ended && Run(st, cbs).events == st.events
    decreases |cbs|
  {
    if cbs != [] {
      RunAfterEnd(Step(st, cbs[0]), cbs[1..]);
    }
  }

  /** The first exit of a connected run writes the last event, the only
      `complete` one, and it carries the highest hop number of the stdout
      chunks that came before it; chunks after the exit raise the
      accumulator but reach no event. */
  lemma {:induction false} CompleteCarriesHighestHop(pre: seq<Callback>, code: Option<int>, time: string, post: seq<Callback>)
    requires forall i :: 0 <= i < |pre| ==> !pre[i].Exit? && !pre[i].ClientClose?
    ensures var events, h := Run(Initial, pre + [Exit(code, time)] + post).events, HopCountAfter(StdoutChunks(pre));
      && |events| > 0
      && events[|events| - 1] == Complete(CompleteMessage(code), code == Some(0), time, h)
      && (forall i :: 0 <= i < |events| - 1 ==> !events[i].Complete?)
      && IsHighestHop(ChunkNumber, StdoutChunks(pre), h)
  {
    var st := Run(Initial, pre);
    RunStaysOpen(Initial, pre);
    RunValid(Initial, pre);
    RunFromStartHopCount(pre);
    var exited := Step(st, Exit(code, time));
    ExitWritesLast(st, code, time);
    RunAroundExit(pre, code, time, post);
    RunAfterEnd(exited, post);
    HopCountIsHighest(StdoutChunks(pre));
  }

  /** From the start, the accumulator is the fold over the stdout chunks. */
  lemma {:induction false} RunFromStartHopCount(cbs: seq<Callback>)
    ensures Run(Initial, cbs).hopCount == HopCountAfter(StdoutChunks(cbs))
  {
    RunHopCount([], Initial, cbs);
    assert [] + StdoutChunks(cbs) == StdoutChunks(cbs);
  }

  /** On an open stream that satisfies the invariant, the exit appends the
      one `complete` event, after events none of which is one. */
  lemma {:induction false} ExitWritesLast(st: State, code: Option<int>, time: string)
    requires Valid(st) && !st.ended && st.connected
    ensures var after := Step(st, Exit(code, time));
      && after.ended
      && after.events == st.events + [Complete(CompleteMessage(code), code == Some(0), time, st.hopCount)]
      && forall i :: 0 <= i < |after.events| - 1 ==> !after.events[i].Complete?
  {
  }

  /** Running callbacks around an exit is running those before it, the exit,
      and then those after it. */
  lemma {:induction false} RunAroundExit(pre: seq<Callback>, code: Option<int>, time: string, post: seq<Callback>)
    ensures Run(Initial, pre + [Exit(code, time)] + post)
      == Run(Step(Run(Initial, pre), Exit(code, time)), post)
  {
    var st := Run(Initial, pre);
    assert Run(st, [Exit(code, time)]) == Step(st, Exit(code, time));
    RunAppend(Initial, pre, [Exit(code, time)]);
    RunAppend(Initial, pre + [Exit(code, time)], post);
  }

  /** A non-blank stdout chunk gives one event with the whole trimmed chunk,
      however many lines it holds; a blank one gives none. */
  lemma {:induction false} StdoutOneEvent(st: State, chunk: string, time: string)
    requires !st.ended && st.connected
    ensures var after := Step(st, Stdout(chunk, time));
      && (Trim(chunk) == "" ==> after == st)
      && (Trim(chunk) != "" ==>
            after.events == st.events + [Output(Trim(chunk), time, after.hopCount)]
            && after.hopCount == NextHopCount(st.hopCount, Trim(chunk)))
  {
  }

  /** Every stderr chunk gives an `error` event, even a blank one. */
  lemma {:induction false} StderrAlwaysReported(st: State, chunk: string, time: string)
    requires !st.ended && st.connected
    ensures Step(st, Stderr(chunk, time)).events == st.events + [Error(Trim(chunk), time)]
  {
  }

  /** The exit ends the stream with a `complete` event that reports success
      exactly for code 0 and carries the accumulator. */
  lemma {:induction false} ExitCompletes(st: State, code: Option<int>, time: string)
    requires !st.ended && st.connected
    ensures var after := Step(st, Exit(code, time));
      && after.ended
      && after.events == st.events + [Complete(CompleteMessage(code), code == Some(0), time, st.hopCount)]
      && (after.events[|after.events| - 1].success <==> code == Some(0))
  {
  }

  // ---------------------------------------------------------------------------
  // The response object

  class Session {
    var events: seq<Event>
    var ended: bool
    var connected: bool
    var hopCount: nat

    function Current(): State
      reads this
    {
      State(events, ended, connected, hopCount)
    }

    /** The SSE headers, and `let hopCount = 0`. */
    constructor ()
      ensures Current() == Initial
    {
      events := [];
      ended := false;
      connected := true;
      hopCount := 0;
    }

    /** `res.write(e)` */
    method Write(e: Event)
      modifies this
      ensures Current() == Deliver(old(Current()), e)
    {
      if !ended && connected {
        events := events + [e];
      }
    }

    /** The stdout `data` listener. */
    method OnStdout(chunk: string, time: string)
      modifies this
      ensures Current() == Step(old(Current()), Stdout(chunk, time))
    {
      var output := Trim(chunk);
      if output != "" {
        var hop := ChunkHop(output);
        if hop.Some? {
          hopCount := Max(hopCount, hop.value);
        }
        Write(Output(output, time, hopCount));
      }
    }

    /** The stderr `data` listener. */
    method OnStderr(chunk: string, time: string)
      modifies this
      ensures Current() == Step(old(Current()), Stderr(chunk, time))
    {
      Write(Error(Trim(chunk), time));
    }

    /** The `close` listener. */
    method OnClose(code: Option<int>, time: string)
      modifies this
      ensures Current() == Step(old(Current()), Exit(code, time))
    {
      Write(Complete(CompleteMessage(code), code == Some(0), time, hopCount));
      ended := true;
    }

    /** The request `close` listener: the process is killed and the client is
        gone. */
    method OnClientClose()
      modifies this
      ensures Current() == Step(old(Current()), ClientClose)
    {
      connected := false;
    }

    /** The `catch` block: one fixed `error` event, then the end. */
    method OnStartFailure(time: string)
      modifies this
      ensures Current() == Deliver(old(Current()), Error(StartFailure, time)).(ended := true)
    {
      Write(Error(StartFailure, time));
      ended := true;
    }

    method Dispatch(cb: Callback)
      modifies this
      ensures Current() == Step(old(Current()), cb)
    {
      match cb
      case Stdout(chunk, time) => OnStdout(chunk, time);
      case Stderr(chunk, time) => OnStderr(chunk, time);
      case Exit(code, time) => OnClose(code, time);
      case ClientClose => OnClientClose();
    }

    /** Feeds the callbacks to their listeners, in order. */
    method Replay(cbs: seq<Callback>)
      modifies this
      ensures Current() == Run(old(Current()), cbs)
    {
      var i := 0;
      while i < |cbs|
        invariant 0 <= i <= |cbs|
        invariant Run(Current(), cbs[i..]) == Run(old(Current()), cbs)
      {
        assert Run(Current(), cbs[i..]) == Run(Step(Current(), cbs[i]), cbs[i + 1..]) by {
          assert cbs[i..][0] == cbs[i] && cbs[i..][1..] == cbs[i + 1..];
        }
        Dispatch(cbs[i]);
        i := i + 1;
      }
    }
  }

  // ---------------------------------------------------------------------------
  // The whole request

  /** What the client gets: a JSON error with a status, or an event stream. */
  datatype Response = Rejected(status: int, error: string) | Streamed(events: seq<Event>)

  /** A request with body fields `host`, `maxHops` and `timeout` on
      `platform`. `spawnThrows` says whether `spawn` itself throws; otherwise
      `callbacks` is what the process and the client did. */
  method Handle(platform: string, host: Json, maxHops: Json, timeout: Json, spawnThrows: bool,
                callbacks: seq<Callback>, time: string)
    returns (r: Response)
    ensures !HostAccepted(host) ==> r == Rejected(400, InvalidHost)
    ensures HostAccepted(host) && (BuildInvocation(platform, maxHops, timeout, Sanitize(host.s)).None? || spawnThrows) ==>
      r == Streamed([Error(StartFailure, time)])
    ensures HostAccepted(host) && BuildInvocation(platform, maxHops, timeout, Sanitize(host.s)).Some? && !spawnThrows ==>
      r == Streamed(Run(Initial, callbacks).events)
  {
    if !HostAccepted(host) {
      return Rejected(400, InvalidHost);
    }
    var sanitized := Sanitize(host.s);
    var session := new Session();
    var invocation := BuildInvocation(platform, maxHops, timeout, sanitized);
    if invocation.None? || spawnThrows {
      session.OnStartFailure(time);
    } else {
      session.Replay(callbacks);
    }
    r := Streamed(session.events);
  }

  /** Whatever happens, a streamed response holds at most one `complete`
      event, last, and the hop counts on its events never go down. */
  lemma {:induction false} StreamShape(callbacks: seq<Callback>)
    ensures Valid(Run(Initial, callbacks))
  {
    RunValid(Initial, callbacks);
  }
}
