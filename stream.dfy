/** The `/api/ping` and `/api/tracert` handlers of ping-server/server.js
    (lines 319-454 and 457-592). After the request is admitted the handler
    writes a `start` event, builds and spawns the command, and from then on
    reacts to the child process: every stdout chunk is split into lines and
    each line that survives normalisation becomes an `output` event, every
    non-blank stderr chunk an `error` event, and the exit a `complete` event
    that ends the stream. The process callbacks are an input sequence here,
    and each carries the timestamp its events get. */
module DiagnosticStream {
  import opened Base
  import opened Text
  import opened Admission
  import opened Platform
  import PingOutput
  import TracertOutput

  datatype Tool = Ping | Tracert

  /** `cleanPingOutput` or `cleanTracertOutput`, the line normaliser of the
      tool. The stream is specified for any normaliser `clean`; a session
      uses its tool's. */
  function Normaliser(tool: Tool): string -> string {
    match tool
    case Ping => PingOutput.CleanPingOutput
    case Tracert => TracertOutput.CleanTracertOutput
  }

  /** One server-sent event, without its JSON layout and `server` field. */
  datatype Event =
    | Start(message: string, timestamp: string)
    | Output(message: string, timestamp: string)
    | Error(message: string, timestamp: string)
    | Complete(message: string, success: bool, timestamp: string)

  /** What the child process and the client do after the spawn. */
  datatype Callback =
    | Stdout(chunk: string, time: string)
    | Stderr(chunk: string, time: string)
    | Exit(code: Option<int>, time: string)
    | ProcessError(message: string, time: string)
    | ClientClose

  /** The events the client has received, whether `res.end()` has been
      called, and whether the client is still there. */
  datatype State = State(events: seq<Event>, ended: bool, connected: bool)

  function StartMessage(tool: Tool, server: string, host: string, n: int): string {
    match tool
    case Ping => "PING " + host + " from " + server + " - Starting ping test with " + IntToString(n) + " packets..."
    case Tracert => "TRACERT " + host + " from " + server + " - Starting traceroute with max " + IntToString(n) + " hops..."
  }

  /** `${code}`: the exit code, or `null` when the process was killed. */
  function CodeText(code: Option<int>): string {
    if code.None? then "null" else IntToString(code.value)
  }

  function CompleteMessage(tool: Tool, code: Option<int>): string {
    match tool
    case Ping => "Ping test completed with exit code " + CodeText(code)
    case Tracert => "Traceroute completed with exit code " + CodeText(code)
  }

  function FailureMessage(tool: Tool, message: string): string {
    match tool
    case Ping => "Failed to execute ping: " + message
    case Tracert => "Failed to execute traceroute: " + message
  }

  // ---------------------------------------------------------------------------
  // Specification of each step

  /** The `output` event one stdout line gives, if any: the line is trimmed,
      and a blank line or one that normalises to nothing gives none. */
  function LineEvent(clean: string -> string, line: string, time: string): seq<Event> {
    var t := Trim(line);
    if t != "" && clean(t) != "" then [Output(clean(t), time)] else []
  }

  /** The events of the lines, in order. */
  function LineEvents(clean: string -> string, lines: seq<string>, time: string): (es: seq<Event>)
    ensures |es| <= |lines|
  {
    if lines == [] then []
    else LineEvents(clean, lines[..|lines| - 1], time) + LineEvent(clean, lines[|lines| - 1], time)
  }

  /** The lines of a stdout chunk: the chunk is trimmed and split on `\n`. */
  function ChunkLines(chunk: string): seq<string> {
    var output := Trim(chunk);
    if output == "" then [] else Split(output, '\n')
  }

  /** The `error` message of a stderr chunk, if it is not blank: the
      normalised text, or the raw trimmed text when normalising drops it. */
  function StderrMessage(clean: string -> string, chunk: string): Option<string> {
    var error := Trim(chunk);
    if error == "" then None
    else
      var cleaned := clean(error);
      Some(if cleaned != "" then cleaned else error)
  }

  /** `res.write`: nothing reaches a client that is gone or a stream that has
      ended. */
  function Deliver(st: State, es: seq<Event>): State {
    if st.ended || !st.connected then st else st.(events := st.events + es)
  }

  /** Two writes in a row deliver what one write of both would. */
  lemma {:induction false} DeliverTwice(st: State, a: seq<Event>, b: seq<Event>)
    ensures Deliver(Deliver(st, a), b) == Deliver(st, a + b)
  {
    AppendAssociates(st.events, a, b);
  }

  /** `res.end()` */
  function Finish(st: State): State {
    st.(ended := true)
  }

  /** The stream right after admission: only the `start` event. */
  function Opened(tool: Tool, server: string, host: string, n: int, time: string): State {
    State([Start(StartMessage(tool, server, host, n), time)], false, true)
  }

  /** The `catch` around build and spawn: the error's own message, then the
      end. */
  function SpawnFailed(st: State, message: string, time: string): State {
    Finish(Deliver(st, [Error(message, time)]))
  }

  function Step(tool: Tool, clean: string -> string, st: State, cb: Callback): State {
    match cb
    case Stdout(chunk, time) => Deliver(st, LineEvents(clean, ChunkLines(chunk), time))
    case Stderr(chunk, time) =>
      var m := StderrMessage(clean, chunk);
      if m.None? then st else Deliver(st, [Error(m.value, time)])
    case Exit(code, time) => Finish(Deliver(st, [Complete(CompleteMessage(tool, code), code == Some(0), time)]))
    case ProcessError(message, time) => Finish(Deliver(st, [Error(FailureMessage(tool, message), time)]))
    case ClientClose => st.(connected := false)
  }

  function Run(tool: Tool, clean: string -> string, st: State, cbs: seq<Callback>): State
    decreases |cbs|
  {
    if cbs == [] then st else Run(tool, clean, Step(tool, clean, st, cbs[0]), cbs[1..])
  }

  // ---------------------------------------------------------------------------
  // The shape of every stream

  /** One `start` event, first, and a `complete` event only last. */
  predicate Shaped(events: seq<Event>) {
    && |events| >= 1 && events[0].Start?
    && (forall i :: 1 <= i < |events| ==> !events[i].Start?)
    && (forall i :: 0 <= i < |events| && events[i].Complete? ==> i == |events| - 1)
  }

  /** The shape, and no `complete` event while the stream is open. */
  predicate Valid(st: State) {
    Shaped(st.events) && (!st.ended ==> forall i :: 0 <= i < |st.events| ==> !st.events[i].Complete?)
  }

  lemma {:induction false} OpenedValid(tool: Tool, server: string, host: string, n: int, time: string)
    ensures Valid(Opened(tool, server, host, n, time))
  {
  }

  lemma {:induction false} StepValid(tool: Tool, clean: string -> string, st: State, cb: Callback)
    requires Valid(st)
    ensures Valid(Step(tool, clean, st, cb))
  {
    match cb
    case Stdout(chunk, time) =>
      LineEventsFromLines(clean, ChunkLines(chunk), time);
      DeliverValid(st, LineEvents(clean, ChunkLines(chunk), time));
    case Stderr(chunk, time) =>
      var m := StderrMessage(clean, chunk);
      if m.Some? {
        DeliverValid(st, [Error(m.value, time)]);
      }
    case Exit(code, time) =>
      FinishValid(st, Complete(CompleteMessage(tool, code), code == Some(0), time));
    case ProcessError(message, time) =>
      FinishValid(st, Error(FailureMessage(tool, message), time));
    case ClientClose =>
  }

  /** Writing `output` and `error` events keeps the shape. */
  lemma {:induction false} DeliverValid(st: State, es: seq<Event>)
    requires Valid(st)
    requires forall e :: e in es ==> e.Output? || e.Error?
    ensures Valid(Deliver(st, es))
  {
    if !st.ended && st.connected {
      var all := st.events + es;
      forall i | |st.events| <= i < |all|
        ensures all[i].Output? || all[i].Error?
      {
        assert all[i] == es[i - |st.events|] && es[i - |st.events|] in es;
      }
    }
  }

  /** Writing a last event and ending keeps the shape. */
  lemma {:induction false} FinishValid(st: State, e: Event)
    requires Valid(st) && !e.Start?
    ensures Valid(Finish(Deliver(st, [e])))
  {
  }

  /** Once ended, a stream takes no more events and stays ended. */
  lemma {:induction false} StepWhenEnded(tool: Tool, clean: string -> string, st: State, cb: Callback)
    requires st.ended
    ensures Step(tool, clean, st, cb).events == st.events && Step(tool, clean, st, cb).ended
  {
  }

  lemma {:induction false} SpawnFailedValid(st: State, message: string, time: string)
    requires Valid(st)
    ensures Valid(SpawnFailed(st, message, time))
  {
  }

  /** Every stream keeps the shape, whatever the process and the client do. */
  lemma {:induction false} RunValid(tool: Tool, clean: string -> string, st: State, cbs: seq<Callback>)
    requires Valid(st)
    ensures Valid(Run(tool, clean, st, cbs))
    decreases |cbs|
  {
    if cbs != [] {
      StepValid(tool, clean, st, cbs[0]);
      RunValid(tool, clean, Step(tool, clean, st, cbs[0]), cbs[1..]);
    }
  }

  /** `Run` takes the first callback first. */
  lemma {:induction false} RunUnfolds(tool: Tool, clean: string -> string, st: State, cbs: seq<Callback>)
    requires cbs != []
    ensures Run(tool, clean, st, cbs) == Run(tool, clean, Step(tool, clean, st, cbs[0]), cbs[1..])
  {
  }

  /** One callback only adds events at the end. */
  lemma {:induction false} StepExtends(tool: Tool, clean: string -> string, st: State, cb: Callback)
    ensures var after := Step(tool, clean, st, cb);
      |st.events| <= |after.events| && after.events[..|st.events|] == st.events
  {
  }

  /** Callbacks only ever add events at the end. */
  lemma {:induction false} RunExtends(tool: Tool, clean: string -> string, st: State, cbs: seq<Callback>)
    ensures |st.events| <= |Run(tool, clean, st, cbs).events|
    ensures Run(tool, clean, st, cbs).events[..|st.events|] == st.events
    decreases |cbs|
  {
    if cbs != [] {
      var next := Step(tool, clean, st, cbs[0]);
      StepExtends(tool, clean, st, cbs[0]);
      RunExtends(tool, clean, next, cbs[1..]);
      assert Run(tool, clean, st, cbs) == Run(tool, clean, next, cbs[1..]);
      var final := Run(tool, clean, next, cbs[1..]).events;
      assert final[..|st.events|] == final[..|next.events|][..|st.events|];
    }
  }

  /** After `res.end()` nothing more reaches the client. */
  lemma {:induction false} EndedStreamFrozen(tool: Tool, clean: string -> string, st: State, cbs: seq<Callback>)
    requires st.ended
    ensures Run(tool, clean, st, cbs).events == st.events && Run(tool, clean, st, cbs).ended
    decreases |cbs|
  {
    if cbs != [] {
      StepWhenEnded(tool, clean, st, cbs[0]);
      EndedStreamFrozen(tool, clean, Step(tool, clean, st, cbs[0]), cbs[1..]);
    }
  }

  /** A failed spawn leaves exactly `start` and the error, and never a
      `complete` event. */
  lemma {:induction false} SpawnFailureStream(tool: Tool, clean: string -> string, server: string, host: string, n: int,
                           time: string, message: string, errorTime: string, cbs: seq<Callback>)
    ensures var st := Run(tool, clean, SpawnFailed(Opened(tool, server, host, n, time), message, errorTime), cbs);
      st.events == [Start(StartMessage(tool, server, host, n), time), Error(message, errorTime)] && st.ended
  {
    EndedStreamFrozen(tool, clean, SpawnFailed(Opened(tool, server, host, n, time), message, errorTime), cbs);
  }

  /** The `complete` event reports success exactly for exit code 0, and the
      stream ends with it. */
  lemma {:induction false} ExitCompletes(tool: Tool, clean: string -> string, st: State, code: Option<int>, time: string)
    requires Valid(st) && !st.ended && st.connected
    ensures var after := Step(tool, clean, st, Exit(code, time));
      && after.ended && after.events == st.events + [Complete(CompleteMessage(tool, code), code == Some(0), time)]
      && (after.events[|after.events| - 1].success <==> code == Some(0))
  {
  }

  /** The loop step of the stdout listener: the next line adds its event,
      if any, after the earlier ones. */
  lemma {:induction false} LineEventsOfNextLine(clean: string -> string, lines: seq<string>, i: nat, time: string)
    requires i < |lines|
    ensures LineEvents(clean, lines[..i + 1], time) == LineEvents(clean, lines[..i], time) + LineEvent(clean, lines[i], time)
  {
    assert lines[..i + 1][..i] == lines[..i];
  }

  /** Each event of a chunk is an `output` event with the chunk's time whose
      message is the non-empty normalised form of one non-blank line. */
  lemma {:induction false} LineEventsFromLines(clean: string -> string, lines: seq<string>, time: string)
    ensures forall e :: e in LineEvents(clean, lines, time) ==>
      && e.Output? && e.timestamp == time && e.message != ""
      && exists l :: l in lines && Trim(l) != "" && e.message == clean(Trim(l))
    decreases |lines|
  {
    if lines != [] {
      var init := lines[..|lines| - 1];
      LineEventsFromLines(clean, init, time);
      forall e | e in LineEvents(clean, lines, time)
        ensures && e.Output? && e.timestamp == time && e.message != ""
          && exists l :: l in lines && Trim(l) != "" && e.message == clean(Trim(l))
      {
        if e in LineEvents(clean, init, time) {
          var l :| l in init && Trim(l) != "" && e.message == clean(Trim(l));
          assert l in lines;
        } else {
          assert e in LineEvent(clean, lines[|lines| - 1], time);
        }
      }
    }
  }

  /** When every line is kept, each gives its own event, in order. */
  lemma {:induction false} LineEventsOneEach(clean: string -> string, lines: seq<string>, time: string)
    requires forall j :: 0 <= j < |lines| ==> Trim(lines[j]) != "" && clean(Trim(lines[j])) != ""
    ensures |LineEvents(clean, lines, time)| == |lines|
    ensures forall j :: 0 <= j < |lines| ==> LineEvents(clean, lines, time)[j] == Output(clean(Trim(lines[j])), time)
    decreases |lines|
  {
    if lines != [] {
      var init, last := lines[..|lines| - 1], lines[|lines| - 1];
      LineEventsOneEach(clean, init, time);
      assert LineEvent(clean, last, time) == [Output(clean(Trim(last)), time)];
      var es := LineEvents(clean, lines, time);
      assert es == LineEvents(clean, init, time) + [Output(clean(Trim(last)), time)];
      forall j | 0 <= j < |lines|
        ensures es[j] == Output(clean(Trim(lines[j])), time)
      {
        if j < |init| {
          assert lines[j] == init[j];
        }
      }
    }
  }

  /** On the ping stream every `output` message is longer than five
      characters. */
  lemma {:induction false} PingOutputsLong(lines: seq<string>, time: string)
    ensures forall e :: e in LineEvents(Normaliser(Ping), lines, time) ==> |e.message| > 5
  {
    LineEventsFromLines(Normaliser(Ping), lines, time);
    forall e | e in LineEvents(Normaliser(Ping), lines, time) ensures |e.message| > 5 {
      var l :| l in lines && Trim(l) != "" && e.message == Normaliser(Ping)(Trim(l));
      assert e.message == PingOutput.CleanPingOutput(Trim(l));
    }
  }

  // ---------------------------------------------------------------------------
  // The response object

  class Session {
    const tool: Tool
    const clean: string -> string
    var events: seq<Event>
    var ended: bool
    var connected: bool

    function Current(): State
      reads this
    {
      State(events, ended, connected)
    }

    /** `res.writeHead(200, …)` and the `start` event. */
    constructor (tool: Tool, server: string, host: string, n: int, time: string)
      ensures this.tool == tool && clean == Normaliser(tool)
      ensures Current() == Opened(tool, server, host, n, time) && Valid(Current())
    {
      this.tool := tool;
      clean := Normaliser(tool);
      events := [Start(StartMessage(tool, server, host, n), time)];
      ended := false;
      connected := true;
    }

    /** `res.write(e)` */
    method Write(e: Event)
      modifies this
      ensures Current() == Deliver(old(Current()), [e])
    {
      if !ended && connected {
        events := events + [e];
      }
    }

    /** The `catch` around build and spawn. */
    method OnSpawnFailure(message: string, time: string)
      modifies this
      requires Valid(Current())
      ensures Current() == SpawnFailed(old(Current()), message, time) && Valid(Current())
    {
      Write(Error(message, time));
      ended := true;
      SpawnFailedValid(old(Current()), message, time);
    }

    /** The stdout `data` listener: one `output` event per line that
        survives normalisation, in order. */
    method OnStdout(chunk: string, time: string)
      modifies this
      requires Valid(Current())
      ensures Current() == Step(tool, clean, old(Current()), Stdout(chunk, time)) && Valid(Current())
    {
      var output := Trim(chunk);
      if output != "" {
        WriteLines(Split(output, '\n'), time);
      }
      StepValid(tool, clean, old(Current()), Stdout(chunk, time));
    }

    /** The body of the `forEach`: a non-blank line that normalises to
        something is written. */
    method WriteLine(line: string, time: string)
      modifies this
      ensures Current() == Deliver(old(Current()), LineEvent(clean, line, time))
    {
      var trimmed := Trim(line);
      if trimmed != "" {
        var cleaned := clean(trimmed);
        if cleaned != "" {
          Write(Output(cleaned, time));
        }
      }
    }

    /** The `forEach` over the lines of one chunk. */
    method WriteLines(lines: seq<string>, time: string)
      modifies this
      ensures Current() == Deliver(old(Current()), LineEvents(clean, lines, time))
    {
      var i := 0;
      while i < |lines|
        invariant 0 <= i <= |lines|
        invariant Current() == Deliver(old(Current()), LineEvents(clean, lines[..i], time))
      {
        WriteLine(lines[i], time);
        DeliverTwice(old(Current()), LineEvents(clean, lines[..i], time), LineEvent(clean, lines[i], time));
        LineEventsOfNextLine(clean, lines, i, time);
        i := i + 1;
      }
      assert lines[..i] == lines;
    }

    /** The stderr `data` listener. */
    method OnStderr(chunk: string, time: string)
      modifies this
      requires Valid(Current())
      ensures Current() == Step(tool, clean, old(Current()), Stderr(chunk, time)) && Valid(Current())
    {
      var error := Trim(chunk);
      if error != "" {
        var cleaned := clean(error);
        Write(Error(if cleaned != "" then cleaned else error, time));
      }
      StepValid(tool, clean, old(Current()), Stderr(chunk, time));
    }

    /** The `close` listener: `complete`, then the end. */
    method OnClose(code: Option<int>, time: string)
      modifies this
      requires Valid(Current())
      ensures Current() == Step(tool, clean, old(Current()), Exit(code, time)) && Valid(Current())
    {
      Write(Complete(CompleteMessage(tool, code), code == Some(0), time));
      ended := true;
      StepValid(tool, clean, old(Current()), Exit(code, time));
    }

    /** The process `error` listener. */
    method OnProcessError(message: string, time: string)
      modifies this
      requires Valid(Current())
      ensures Current() == Step(tool, clean, old(Current()), ProcessError(message, time)) && Valid(Current())
    {
      Write(Error(FailureMessage(tool, message), time));
      ended := true;
      StepValid(tool, clean, old(Current()), ProcessError(message, time));
    }

    /** The request `close` listener: the process is killed and the client is
        gone. */
    method OnClientClose()
      modifies this
      requires Valid(Current())
      ensures Current() == Step(tool, clean, old(Current()), ClientClose) && Valid(Current())
    {
      connected := false;
    }

    /** Hands one callback to its listener. */
    method Dispatch(cb: Callback)
      modifies this
      requires Valid(Current())
      ensures Current() == Step(tool, clean, old(Current()), cb) && Valid(Current())
    {
      match cb
      case Stdout(chunk, time) => OnStdout(chunk, time);
      case Stderr(chunk, time) => OnStderr(chunk, time);
      case Exit(code, time) => OnClose(code, time);
      case ProcessError(message, time) => OnProcessError(message, time);
      case ClientClose => OnClientClose();
    }

    /** Feeds the callbacks to their listeners, in order. */
    method Replay(cbs: seq<Callback>)
      modifies this
      requires Valid(Current())
      ensures Current() == Run(tool, clean, old(Current()), cbs) && Valid(Current())
    {
      var i := 0;
      while i < |cbs|
        invariant 0 <= i <= |cbs|
        invariant Valid(Current())
        invariant Run(tool, clean, Current(), cbs[i..]) == Run(tool, clean, old(Current()), cbs)
      {
        RunUnfolds(tool, clean, Current(), cbs[i..]);
        Dispatch(cbs[i]);
        assert cbs[i..][1..] == cbs[i + 1..];
        i := i + 1;
      }
    }
  }

  // ---------------------------------------------------------------------------
  // The whole request

  /** What the client gets: a JSON error with a status, or an event stream. */
  datatype Response = Rejected(status: int, error: string) | Streamed(events: seq<Event>)

  /** The number rule of the tool's schema. */
  function Bounds(tool: Tool, number: Option<int>): Result<int, string> {
    match tool
    case Ping => CountParam(number)
    case Tracert => MaxHopsParam(number)
  }

  /** `buildPingCommand` or `buildTracertCommand`: neither ever throws. */
  function BuildCommand(tool: Tool, platform: string, host: string, n: int, env: map<string, string>): (r: Result<Command, string>)
    ensures r.Success?
  {
    match tool
    case Ping => BuildPingCommand(platform, host, n, env)
    case Tracert => BuildTracertCommand(platform, host, n, env)
  }

  /** A request to `/api/ping` (`tool == Ping`, `number` is the count) or
      `/api/tracert` (`number` is the hop limit). `spawnError` is the message
      of an exception thrown by `spawn`; when there is none, `callbacks` is
      what the process and the client did. */
  method Handle(tool: Tool, server: string, platform: string, env: map<string, string>,
                header: Option<string>, apiKey: string, host: Option<string>, number: Option<int>,
                spawnError: Option<string>, callbacks: seq<Callback>, time: string)
    returns (r: Response)
    ensures AuthenticateApiKey(header, apiKey).Some? ==> r == Rejected(401, AuthenticateApiKey(header, apiKey).value)
    ensures AuthenticateApiKey(header, apiKey).None? && Validate(host, Bounds(tool, number)).Failure? ==>
      r == Rejected(400, "Invalid input")
    ensures r.Streamed? <==> AuthenticateApiKey(header, apiKey).None? && Validate(host, Bounds(tool, number)).Success?
    ensures r.Streamed? ==> Shaped(r.events)
    ensures r.Streamed? ==>
      var req := Validate(host, Bounds(tool, number)).value;
      var begun := Opened(tool, server, req.host, req.n, time);
      r.events == if spawnError.Some? then SpawnFailed(begun, spawnError.value, time).events
                  else Run(tool, Normaliser(tool), begun, callbacks).events
  {
    var denied := AuthenticateApiKey(header, apiKey);
    if denied.Some? {
      return Rejected(401, denied.value);
    }
    var request := Validate(host, Bounds(tool, number));
    if request.Failure? {
      return Rejected(400, "Invalid input");
    }
    var req := request.value;
    var session := new Session(tool, server, req.host, req.n, time);
    var command := BuildCommand(tool, platform, req.host, req.n, env);
    if spawnError.Some? {
      session.OnSpawnFailure(spawnError.value, time);
    } else {
      session.Replay(callbacks);
    }
    r := Streamed(session.events);
  }
}
