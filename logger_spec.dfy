/**
 The behaviour of one `Marvin` logger as pure functions over its state:
 the lazy file sink (`_fileLog`), the dispatch of one message to the
 console and file callbacks (`_writeLog`), and the level gate of the six
 emitters.  The class in module Logger is proved to follow these functions;
 the lemmas here state what they guarantee.
 */
module LoggerSpec {

  import opened Wrappers
  import opened Strings
  import opened Colors
  import opened Levels
  import opened Formatting

  /** What `fs.mkdirSync` does: create the directory, or throw an error with a `code`. */
  datatype MkdirOutcome = Created | Failed(code: string)

  /** The options the logger hands to `FileStreamRotator.getStream`. */
  datatype StreamOptions = StreamOptions(dateFormat: string, filename: string, frequency: string, verbose: bool)

  /** `path.resolve(dir, './PID_<pid>-%DATE%.log')` for an already resolved `dir`. */
  function LogFilePattern(dir: string, pid: nat): string {
    var name := PidToken(pid) + "-%DATE%.log";
    if |dir| > 0 && dir[|dir| - 1] == '/' then dir + name else dir + "/" + name
  }

  /** The one stream a logger opens: a daily rotated file named after the pid and the date. */
  function StreamFor(dir: string, pid: nat): StreamOptions {
    StreamOptions("YYYY-MM-DD", LogFilePattern(dir, pid), "daily", false)
  }

  /**
   The file sink as the logger sees it: whether it has made sure the output
   directory exists, its stream (`_logStream`), everything appended to that
   stream, and how many streams it has opened.
   */
  datatype Sink = Sink(directoryEnsured: bool, stream: Option<StreamOptions>, appended: seq<string>, streamsOpened: nat)

  const NoSink: Sink := Sink(false, None, [], 0)

  /**
   The sink's invariant: at most one stream, opened only after the output
   directory was made sure of, for that directory and pid, and nothing is
   appended before it is open.
   */
  predicate SinkValid(s: Sink, dir: Option<string>, pid: nat) {
    s.streamsOpened == (if s.stream.Some? then 1 else 0) &&
    (s.stream.Some? ==> dir.Some? && s.directoryEnsured && s.stream.value == StreamFor(dir.value, pid)) &&
    (s.stream.None? ==> s.appended == [])
  }

  /** The sink after a call of `_fileLog`, and the code of the error it threw, if any. */
  datatype FileLogResult = FileLogResult(sink: Sink, error: Option<string>)

  /**
   `_fileLog(data)`: nothing without an output directory; otherwise, when
   no stream is open yet, create the directory (an `EEXIST` error counts as
   success, any other error is thrown) and open the stream; then append.
   */
  function FileLog(dir: Option<string>, pid: nat, sink: Sink, data: string, mkdir: MkdirOutcome): FileLogResult {
    if dir.None? then FileLogResult(sink, None)
    else if sink.stream.None? && mkdir.Failed? && mkdir.code != "EEXIST" then FileLogResult(sink, Some(mkdir.code))
    else
      var ready :=
        if sink.stream.None? then Sink(true, Some(StreamFor(dir.value, pid)), sink.appended, sink.streamsOpened + 1)
        else sink;
      FileLogResult(ready.(appended := ready.appended + [data]), None)
  }

  /** Without an output directory the file sink is disabled: nothing changes, nothing is thrown. */
  lemma FileLogDisabled(pid: nat, sink: Sink, data: string, mkdir: MkdirOutcome)
    ensures FileLog(None, pid, sink, data, mkdir) == FileLogResult(sink, None)
  {
  }

  /**
   What one call of `_fileLog` does with an output directory: it throws
   exactly when no stream is open and creating the directory failed with a
   code other than `EEXIST`, and then leaves the sink as it was; otherwise
   the data is appended to the stream, which is the old one when there was
   one and the newly opened one otherwise.
   */
  lemma FileLogEffect(dir: string, pid: nat, sink: Sink, data: string, mkdir: MkdirOutcome)
    requires SinkValid(sink, Some(dir), pid)
    ensures var r := FileLog(Some(dir), pid, sink, data, mkdir);
      (r.error.Some? <==> sink.stream.None? && mkdir.Failed? && mkdir.code != "EEXIST") &&
      (r.error.Some? ==> r.sink == sink && r.error.value == mkdir.code) &&
      (r.error.None? ==>
         r.sink.appended == sink.appended + [data] &&
         r.sink.stream == Some(StreamFor(dir, pid)) &&
         (sink.stream.Some? ==> r.sink.streamsOpened == sink.streamsOpened))
  {
  }

  /** `_fileLog` keeps the sink's invariant. */
  lemma FileLogValid(dir: Option<string>, pid: nat, sink: Sink, data: string, mkdir: MkdirOutcome)
    requires SinkValid(sink, dir, pid)
    ensures SinkValid(FileLog(dir, pid, sink, data, mkdir).sink, dir, pid)
  {
  }

  /**
   Several calls of `_fileLog` in a row, one line and one answer of
   `mkdirSync` each, stopping at the first error thrown.
   */
  function FileLogAll(dir: Option<string>, pid: nat, sink: Sink, lines: seq<string>, mkdirs: seq<MkdirOutcome>): FileLogResult
    requires |mkdirs| == |lines|
    decreases |lines|
  {
    if |lines| == 0 then FileLogResult(sink, None)
    else
      var r := FileLog(dir, pid, sink, lines[0], mkdirs[0]);
      if r.error.Some? then r else FileLogAll(dir, pid, r.sink, lines[1..], mkdirs[1..])
  }

  /**
   However many lines are logged, at most one stream is ever opened, and
   once it is open no later call fails: every line then lands, in order, in
   that single stream whatever `mkdirSync` would have answered.
   */
  lemma {:induction false} FileLogAllOneStream(dir: string, pid: nat, sink: Sink, lines: seq<string>, mkdirs: seq<MkdirOutcome>)
    requires |mkdirs| == |lines|
    requires SinkValid(sink, Some(dir), pid)
    ensures var r := FileLogAll(Some(dir), pid, sink, lines, mkdirs);
      SinkValid(r.sink, Some(dir), pid) && r.sink.streamsOpened <= 1 &&
      (sink.stream.Some? ==> r.error.None? && r.sink.stream == sink.stream && r.sink.appended == sink.appended + lines)
    decreases |lines|
  {
    if |lines| > 0 {
      var r := FileLog(Some(dir), pid, sink, lines[0], mkdirs[0]);
      FileLogEffect(dir, pid, sink, lines[0], mkdirs[0]);
      if r.error.None? {
        FileLogAllOneStream(dir, pid, r.sink, lines[1..], mkdirs[1..]);
        assert sink.appended + [lines[0]] + lines[1..] == sink.appended + lines;
      }
    }
  }

  /** A call of a callback, with the arguments it was given. */
  datatype Callback =
    | ConsoleCallback(time: string, pid: string, data: string)
    | FileCallback(line: string)

  /**
   What a logger was constructed with: the output directory, the process
   id, and whether the file callback is the built-in `_fileLog`.
   */
  datatype Config = Config(logOutputDirectory: Option<string>, pid: nat, defaultFileSink: bool)

  /** What changes as the logger is used: the level, the file sink, and the callbacks made so far. */
  datatype LoggerState = LoggerState(level: Severity, sink: Sink, calls: seq<Callback>)

  /** What an emitter call does for its caller: return a boolean, or throw an error with a code. */
  datatype Outcome = Returned(value: bool) | Threw(code: string)

  datatype Step = Step(state: LoggerState, outcome: Outcome)

  /**
   What the world answers during one call: the two readings of the clock
   (`new Date()` is evaluated once for the console and once for the file),
   and what `mkdirSync` would do.
   */
  datatype Env = Env(consoleNow: DateTime, fileNow: DateTime, mkdir: MkdirOutcome)

  predicate Valid(cfg: Config, st: LoggerState) {
    SinkValid(st.sink, cfg.logOutputDirectory, cfg.pid)
  }

  /** The three arguments of the console callback. */
  function ConsoleCall(now: DateTime, pid: nat, data: string, color: Color): Callback {
    ConsoleCallback(FormattedTime(now), ColoredPid(pid), ColoredString(data, color))
  }

  /**
   `_writeLog(args, color)`: render the message, hand the console callback
   its three parts, hand the file callback the plain line, and return true,
   unless the built-in file sink throws.
   */
  function WriteLog(cfg: Config, st: LoggerState, args: seq<Arg>, color: Color, env: Env): Step {
    var data := Render(args);
    var line := FileLine(env.fileNow, cfg.pid, data);
    var calls := st.calls + [ConsoleCall(env.consoleNow, cfg.pid, data, color), FileCallback(line)];
    if cfg.defaultFileSink then
      var r := FileLog(cfg.logOutputDirectory, cfg.pid, st.sink, line, env.mkdir);
      Step(LoggerState(st.level, r.sink, calls), if r.error.Some? then Threw(r.error.value) else Returned(true))
    else
      Step(st.(calls := calls), Returned(true))
  }

  /** `debug`, `info`, `warn`, `error`, `important` and `http`: the level gate, then `_writeLog`. */
  function Emit(cfg: Config, st: LoggerState, ch: Channel, args: seq<Arg>, env: Env): Step {
    if Blocked(ch, st.level) then Step(st, Returned(false))
    else WriteLog(cfg, st, args, ChannelColor(ch), env)
  }

  /**
   A call returns false and calls neither callback exactly when its
   channel is gated above the configured level; `important` and `http`
   always go through to `_writeLog`.
   */
  lemma EmitGate(cfg: Config, st: LoggerState, ch: Channel, args: seq<Arg>, env: Env)
    ensures Emit(cfg, st, ch, args, env) == Step(st, Returned(false)) <==> Blocked(ch, st.level)
    ensures Emit(cfg, st, ch, args, env).outcome == Returned(false) <==> Blocked(ch, st.level)
    ensures ch == Important || ch == Http ==> Emit(cfg, st, ch, args, env) == WriteLog(cfg, st, args, ChannelColor(ch), env)
  {
    if !Blocked(ch, st.level) {
      assert |Emit(cfg, st, ch, args, env).state.calls| == |st.calls| + 2;
    }
  }

  /**
   A call that passes the gate invokes the console callback once and then
   the file callback once, with the console parts and the file line of the
   rendered message, and leaves the level alone.
   */
  lemma EmitCallbacks(cfg: Config, st: LoggerState, ch: Channel, args: seq<Arg>, env: Env)
    requires !Blocked(ch, st.level)
    ensures var s := Emit(cfg, st, ch, args, env).state;
      s.level == st.level &&
      s.calls == st.calls + [
        ConsoleCallback(FormattedTime(env.consoleNow), ColoredPid(cfg.pid), ColoredString(Render(args), ChannelColor(ch))),
        FileCallback(FileLine(env.fileNow, cfg.pid, Render(args)))]
  {
  }

  /**
   A call that passes the gate returns true, except that it throws exactly
   when the built-in file sink has to create the output directory and that
   fails with a code other than `EEXIST`.
   */
  lemma EmitOutcome(cfg: Config, st: LoggerState, ch: Channel, args: seq<Arg>, env: Env)
    requires !Blocked(ch, st.level)
    ensures var o := Emit(cfg, st, ch, args, env).outcome;
      (o.Threw? <==> cfg.defaultFileSink && cfg.logOutputDirectory.Some? && st.sink.stream.None? &&
                     env.mkdir.Failed? && env.mkdir.code != "EEXIST") &&
      (!o.Threw? ==> o == Returned(true)) &&
      (o.Threw? ==> o.code == env.mkdir.code)
  {
  }

  /**
   With the built-in file sink and an output directory, a call that
   returns true has appended its file line to the logger's single stream;
   with a custom file callback the sink is never touched.
   */
  lemma EmitFileSink(cfg: Config, st: LoggerState, ch: Channel, args: seq<Arg>, env: Env)
    requires Valid(cfg, st)
    ensures var r := Emit(cfg, st, ch, args, env);
      Valid(cfg, r.state) &&
      (!cfg.defaultFileSink ==> r.state.sink == st.sink) &&
      (cfg.defaultFileSink && cfg.logOutputDirectory.Some? && r.outcome == Returned(true) ==>
         r.state.sink.appended == st.sink.appended + [FileLine(env.fileNow, cfg.pid, Render(args))] &&
         r.state.sink.stream == Some(StreamFor(cfg.logOutputDirectory.value, cfg.pid)))
  {
    if !Blocked(ch, st.level) && cfg.defaultFileSink {
      var line := FileLine(env.fileNow, cfg.pid, Render(args));
      FileLogValid(cfg.logOutputDirectory, cfg.pid, st.sink, line, env.mkdir);
      if cfg.logOutputDirectory.Some? {
        FileLogEffect(cfg.logOutputDirectory.value, cfg.pid, st.sink, line, env.mkdir);
      }
    }
  }

  /**
   The logger's level tests, which give a console callback of their own and
   either a file callback of their own or no output directory: at level
   'none' the four gated channels return false and `important` and `http`
   return true; at level 'debug' every channel returns true.
   */
  lemma LevelScenarios(cfg: Config, st: LoggerState, ch: Channel, args: seq<Arg>, env: Env)
    requires !cfg.defaultFileSink || cfg.logOutputDirectory.None?
    ensures st.level == LevelValue("none") ==>
              Emit(cfg, st, ch, args, env).outcome == Returned(ch == Important || ch == Http)
    ensures st.level == LevelValue("debug") ==> Emit(cfg, st, ch, args, env).outcome == Returned(true)
  {
  }

  /**
   Read at one instant, the console parts are the file line's time, pid
   and message in colour: removing the colour codes gives back the fields
   of the file line.
   */
  lemma ConsoleAgreesWithFile(now: DateTime, pid: nat, args: seq<Arg>, color: Color)
    requires forall i :: 0 <= i < |args| ==> NoEsc(ArgText(args[i]))
    ensures var c := ConsoleCall(now, pid, Render(args), color);
      FileLine(now, pid, Render(args)) ==
        CalendarDate(now) + " " + Strip(c.time) + " " + Strip(c.pid) + " " + Strip(c.data) + "\n"
  {
    RenderPlain(args);
    ConsoleStampsStrip(now, pid);
    ColoredStringStrip(Render(args), color);
  }
}
