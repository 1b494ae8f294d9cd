/**
 The `Marvin` logger object.  Its fields are the configured level, the
 output directory, the process id and whether the file callback is the
 built-in file sink; beside them it keeps the state of that sink and the
 calls made to the two callbacks.  Every method is proved to do what the
 functions of module LoggerSpec say.
 */
module Logger {

  import opened Wrappers
  import opened Colors
  import opened Levels
  import opened Formatting
  import opened LoggerSpec

  /**
   The recognised constructor options: `level`, `logOutputDirectory`, and
   whether a `fileCallback` was given (a `consoleCallback` changes nothing
   the model records: its calls are recorded either way).
   */
  datatype Options = Options(level: Option<string>, logOutputDirectory: Option<string>, fileCallback: bool)

  class Marvin {
    var level: Severity
    const logOutputDirectory: Option<string>
    const pid: nat
    const defaultFileSink: bool

    // The built-in file sink.
    var directoryEnsured: bool
    var logStream: Option<StreamOptions>
    var appended: seq<string>
    var streamsOpened: nat

    // Every call made to the console and file callbacks, in order.
    var calls: seq<Callback>

    function Config(): LoggerSpec.Config {
      LoggerSpec.Config(logOutputDirectory, pid, defaultFileSink)
    }

    function State(): LoggerState
      reads this
    {
      LoggerState(level, Sink(directoryEnsured, logStream, appended, streamsOpened), calls)
    }

    predicate Valid()
      reads this
    {
      LoggerSpec.Valid(Config(), State())
    }

    /**
     `new Marvin(opts)`: the level defaults to 'debug', an absent or empty
     output directory disables the file sink, and no stream is open yet.
     */
    constructor (opts: Options, processId: nat)
      ensures Valid()
      ensures level == LevelValue(if opts.level.None? || opts.level.value == "" then "debug" else opts.level.value)
      ensures logOutputDirectory ==
                if opts.logOutputDirectory.Some? && opts.logOutputDirectory.value != "" then opts.logOutputDirectory else None
      ensures pid == processId && defaultFileSink == !opts.fileCallback
      ensures State().sink == NoSink && calls == []
    {
      level := LevelValue(if opts.level.None? || opts.level.value == "" then "debug" else opts.level.value);
      logOutputDirectory :=
        if opts.logOutputDirectory.Some? && opts.logOutputDirectory.value != "" then opts.logOutputDirectory else None;
      pid := processId;
      defaultFileSink := !opts.fileCallback;
      directoryEnsured, logStream, appended, streamsOpened := false, None, [], 0;
      calls := [];
    }

    /** `setLogLevel(name)`: only the level changes. */
    method SetLogLevel(name: string)
      requires Valid()
      modifies this
      ensures Valid()
      ensures State() == old(State()).(level := LevelValue(name))
    {
      level := LevelValue(name);
    }

    method Debug(args: seq<Arg>, env: Env) returns (r: Outcome)
      requires Valid()
      modifies this
      ensures Valid()
      ensures Step(State(), r) == Emit(Config(), old(State()), Channel.Debug, args, env)
    {
      if level > DEBUG {
        return Returned(false);
      }
      r := WriteLog(args, ChannelColor(Channel.Debug), env);
    }

    method Info(args: seq<Arg>, env: Env) returns (r: Outcome)
      requires Valid()
      modifies this
      ensures Valid()
      ensures Step(State(), r) == Emit(Config(), old(State()), Channel.Info, args, env)
    {
      if level > INFO {
        return Returned(false);
      }
      r := WriteLog(args, ChannelColor(Channel.Info), env);
    }

    method Warn(args: seq<Arg>, env: Env) returns (r: Outcome)
      requires Valid()
      modifies this
      ensures Valid()
      ensures Step(State(), r) == Emit(Config(), old(State()), Channel.Warn, args, env)
    {
      if level > WARN {
        return Returned(false);
      }
      r := WriteLog(args, ChannelColor(Channel.Warn), env);
    }

    method Error(args: seq<Arg>, env: Env) returns (r: Outcome)
      requires Valid()
      modifies this
      ensures Valid()
      ensures Step(State(), r) == Emit(Config(), old(State()), Channel.Error, args, env)
    {
      if level > ERROR {
        return Returned(false);
      }
      r := WriteLog(args, ChannelColor(Channel.Error), env);
    }

    method Important(args: seq<Arg>, env: Env) returns (r: Outcome)
      requires Valid()
      modifies this
      ensures Valid()
      ensures Step(State(), r) == Emit(Config(), old(State()), Channel.Important, args, env)
    {
      r := WriteLog(args, ChannelColor(Channel.Important), env);
    }

    method Http(args: seq<Arg>, env: Env) returns (r: Outcome)
      requires Valid()
      modifies this
      ensures Valid()
      ensures Step(State(), r) == Emit(Config(), old(State()), Channel.Http, args, env)
    {
      r := WriteLog(args, ChannelColor(Channel.Http), env);
    }

    /**
     `_fileLog(data)`: open the stream on first use (creating the directory,
     tolerating `EEXIST`) and append to it; the error code is what it throws.
     */
    method FileLog(data: string, mkdir: MkdirOutcome) returns (error: Option<string>)
      requires Valid()
      modifies this
      ensures Valid()
      ensures level == old(level) && calls == old(calls)
      ensures FileLogResult(State().sink, error) ==
                LoggerSpec.FileLog(logOutputDirectory, pid, old(State()).sink, data, mkdir)
    {
      error := None;
      if logOutputDirectory.Some? {
        if logStream.None? {
          if mkdir.Failed? && mkdir.code != "EEXIST" {
            return Some(mkdir.code);
          }
          directoryEnsured := true;
          logStream := Some(StreamFor(logOutputDirectory.value, pid));
          streamsOpened := streamsOpened + 1;
        }
        appended := appended + [data];
      }
    }

    /**
     `_writeLog(args, color)`: render the message, call the console callback
     with its three parts, then the file callback with the plain line.
     */
    method WriteLog(args: seq<Arg>, color: Color, env: Env) returns (r: Outcome)
      requires Valid()
      modifies this
      ensures Valid()
      ensures Step(State(), r) == LoggerSpec.WriteLog(Config(), old(State()), args, color, env)
    {
      var data := RenderData(args);
      ghost var before := calls;
      calls := calls + [ConsoleCallback(FormattedTime(env.consoleNow), ColoredPid(pid), ColoredString(data, color))];
      var line := FileLine(env.fileNow, pid, data);
      calls := calls + [FileCallback(line)];
      assert calls == before + [ConsoleCall(env.consoleNow, pid, data, color), FileCallback(line)];
      if defaultFileSink {
        var error := FileLog(line, env.mkdir);
        if error.Some? {
          return Threw(error.value);
        }
      }
      r := Returned(true);
    }
  }
}
