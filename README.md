# marvin-logger, modelled in Dafny

This project models the `Marvin` logger class of marvin-logger (`index.js`).
`Marvin` is a levelled logger with six channels: `debug`, `info`, `warn`,
`error`, `important` and `http`. A call that passes the level gate does three
things:

- It renders its arguments into one message.
- It hands the console callback three coloured parts: the time, the pid token
  and the message.
- It hands the file callback one plain line. By default that callback is the
  built-in file sink, which lazily creates the output directory and opens one
  daily-rotated stream.

The project has these modules:

- `Wrappers`: the `Option` type.
- `Strings`: JavaScript's `split`/`join` on one character, `replace` of the
  first occurrence, decimal rendering of numbers, and parsers that invert that
  rendering.
- `Colors`: the theme's colours, the wrap function
  `ESC[<code>m … ESC[39m`, and `Strip`, which removes escape sequences.
- `Levels`: the severities DEBUG=0 < INFO=1 < WARN=2 < ERROR=3 < NONE=4, the
  permissive parser `_levelValue`, and the channels with their threshold and
  colour.
- `Formatting`: the pure helpers `_formattedDateForLogging`,
  `_formattedTimeForLogging`, `_pid`, `_coloredPid` and `_coloredString`, the
  argument loop of `_writeLog` (the method `RenderData`), and the file line.
- `LoggerSpec`: pure functions that describe the state changes of `_fileLog`,
  `_writeLog` and the six emitters. The lemmas about the logger's behaviour are
  stated over these functions.
- `Logger`: the class `Marvin`. It holds the fields `level`,
  `logOutputDirectory`, the pid, and which file callback is in use. It also
  holds the state of the file sink and a record of every callback invocation.
  Each of its methods is proved to change the state exactly as the matching
  `LoggerSpec` function says.

The following are passed in as parameters:

- **The clock:** the two `new Date()` readings of one call, one for the console
  and one for the file.
- **The process id.**
- **The outcome of `fs.mkdirSync`:** success, or an error with a `code`.

A callback invocation is recorded as a value together with its arguments.

Two things in the repository's other files do not match `index.js`:

- The example scripts and tests call `expressMiddleWare` and
  `sharedInstance`, which this version of `index.js` does not define.
- The stream's filename pattern is `PID_<pid>-%DATE%.log` (index.js:170),
  but the test at test/test-marvin.js:599 looks for `<date>.log`.

The model follows `index.js` in both cases.

## Model

| member | source | states |
|---|---|---|
| Levels.LevelValueByFirstChar | index.js:87-104 | the level is NONE, ERROR, WARN or INFO exactly when the first character is n/N, e/E, w/W or i/I/ı; every other first character, and the empty name, give DEBUG |
| Levels.LevelValueFirstCharOnly | index.js:88 | only the first character of the name matters |
| Levels.LevelNameRoundTrip | index.js:87-104 | each level's name parses back to that level, even with more text after it |
| Levels.LevelValueExamples | test/test-marvin.js:28-92 | the spellings the tests use ("Debug", "d", "#", "Info", "Warning", "e", "None", …) give the levels the tests expect |
| Levels.BlockedMonotone | index.js:47-77 | raising the configured level never unblocks a channel |
| Levels.BlockedExtremes | index.js:47-85 | at DEBUG nothing is blocked; at NONE exactly debug, info, warn and error are blocked |
| Colors.StripPaint | index.js:29-39 | removing the colour codes from coloured text that has no escapes gives back the text |
| Strings.JoinSplit | index.js:143-152 | joining the pieces of `split(d)` with `d` restores the string |
| Strings.SplitManyFields | index.js:145 | `split` gives more than one piece exactly when the separator occurs |
| Strings.SplitJoin | index.js:181-194 | splitting a join of fields that contain no separator gives back the fields |
| Strings.RemoveFirst | index.js:146 | `replace(c, '')` removes exactly the first occurrence of `c`, or nothing when there is none |
| Strings.NatToString | index.js:132 | the decimal form of a number is non-empty, all digits, and ends in the units digit |
| Strings.ParseNatToString | index.js:110-118 | reading back the decimal form of a number gives that number |
| Formatting.Pad2Digits | index.js:110-118 | `('0' + n).slice(-2)` is the tens digit then the units digit of `n`, for every `n` |
| Formatting.Pad2RoundTrip | index.js:110-118 | a two-digit field reads back as the number below 100 it was made from |
| Formatting.FormattedDateRoundTrip | index.js:106-119 | `YYYY/MM/DD hh:mm:ss`, with month = month0 + 1, reads back as the date for every date a clock can give |
| Formatting.ConsoleStampsStrip | index.js:121-137 | without its colour, the console time is the file line's `hh:mm:ss` and the coloured pid is `PID_<pid>` |
| Formatting.ColoredStringTagged | index.js:139-153 | when the message starts with '[' and holds a ']', the result is `'[' + color(str[1..k]) + str[k..]`, with k the first ']' |
| Formatting.ColoredStringUnclosed | index.js:142-152 | a leading '[' without any ']' leaves the message unchanged |
| Formatting.ColoredStringUntagged | index.js:148-149 | a message that does not start with '[', including the empty one, is coloured whole |
| Formatting.ColoredStringStrip | index.js:139-153 | removing the colour codes from `_coloredString(str)` gives `str` |
| Formatting.RenderData | index.js:181-194 | the argument loop produces the arguments' texts in order, joined by single spaces; no arguments give the empty string |
| Formatting.RenderFields | index.js:181-194 | split at spaces, the message of arguments without spaces is exactly those arguments |
| Formatting.RenderPlain | index.js:181-194 | arguments without colour codes give a message without colour codes |
| Formatting.FileLineFields | index.js:201-203 | split at spaces, the file line is `YYYY/MM/DD`, `hh:mm:ss`, `PID_<pid>`, then the fields of the message followed by a newline |
| Formatting.FileLinePlain | index.js:201-203 | the file line contains a colour code exactly when the message does |
| LoggerSpec.FileLogDisabled | index.js:156 | without an output directory `_fileLog` changes nothing and throws nothing |
| LoggerSpec.FileLogEffect | index.js:155-178 | `_fileLog` throws exactly when no stream is open yet and mkdir fails with a code other than `EEXIST`. The error carries that code and leaves the sink unchanged. Otherwise the data is appended to the stream for `PID_<pid>-%DATE%.log`, and an open stream is reused |
| LoggerSpec.FileLogValid | index.js:155-178 | `_fileLog` keeps the sink invariant: a stream is opened at most once, only after the directory is ensured, and nothing is written before it opens |
| LoggerSpec.FileLogAllOneStream | index.js:157-176 | over any number of calls at most one stream is opened; once it is open, every later line is appended to it in order and no call throws |
| LoggerSpec.EmitGate | index.js:47-85 | a call returns false without invoking either callback exactly when its channel's severity is below the configured level; `important` and `http` always reach `_writeLog` |
| LoggerSpec.EmitCallbacks | index.js:180-203 | a call past the gate invokes the console callback once with the coloured time, coloured pid and `_coloredString(data)`, then the file callback once with the file line; the level is unchanged |
| LoggerSpec.EmitOutcome | index.js:155-206 | a call past the gate returns true. The only error the model represents is the mkdir error: the call throws its code exactly when the built-in sink must create the directory and mkdir fails with a code other than `EEXIST` |
| LoggerSpec.EmitFileSink | index.js:155-206 | a call keeps the sink invariant. With a custom file callback the sink is untouched. With the built-in sink and a directory, a call that returns true has appended its file line to the single stream |
| LoggerSpec.LevelScenarios | test/test-marvin.js:98-286 | with a console callback of their own and no output directory (or a file callback of their own), level 'none' lets only `important` and `http` return true, and level 'debug' lets every channel return true |
| LoggerSpec.ConsoleAgreesWithFile | index.js:196-203 | at one instant, the file line is the calendar date followed by the console's three parts with their colour codes removed |
| Logger.Marvin.constructor | index.js:12-41 | the level comes from `opts.level`, or 'debug' when it is absent or empty; an absent or empty output directory disables the file sink; the file callback is the built-in sink unless one was given; no stream is open and no callback has been called |
| Logger.Marvin.SetLogLevel | index.js:43-45 | only the level changes, to `_levelValue(name)` |
| Logger.Marvin.Debug | index.js:47-53 | the new state and the result are those of the gate-then-write specification for the debug channel |
| Logger.Marvin.Info | index.js:55-61 | the same, for the info channel |
| Logger.Marvin.Warn | index.js:63-69 | the same, for the warn channel |
| Logger.Marvin.Error | index.js:71-77 | the same, for the error channel |
| Logger.Marvin.Important | index.js:79-81 | the same, for the ungated important channel |
| Logger.Marvin.Http | index.js:83-85 | the same, for the ungated http channel |
| Logger.Marvin.FileLog | index.js:155-178 | on the object, `_fileLog` changes the sink exactly as the `_fileLog` specification says, throws what it throws, and changes nothing else |
| Logger.Marvin.WriteLog | index.js:180-206 | on the object, `_writeLog` records the two callback invocations, updates the sink and returns exactly as the `_writeLog` specification says |

## Left out

- `colors/safe` is a third-party library, so the model uses a fixed colour function `ESC[<code>m` + text + `ESC[39m` in its place. Its codes are blue 34, green 32, yellow 33, red 31, magenta 35, cyan 36 and grey 90. The library's own special cases are not modelled:
  - an empty string stays uncoloured;
  - colour is not re-opened around newlines;
  - an inner reset is not replaced;
  - colour is not switched off when the terminal lacks support.
- `colors.setTheme` is global state, and the model does not cover it. The theme's unused `data: 'black'` entry is also not modelled.
- `JSON.stringify(x, null, 2)` is a library serializer. An object argument is given as its already-serialized text, `Composite(json)`, and a primitive as its `'' + x` text, `Text(s)`.
- `path.resolve` is a library call. The output directory is stored as given. The log file pattern joins it to the file name with one '/'. Path normalisation is not modelled.
- `FileStreamRotator` is treated as an external sink: the model records the options passed to `getStream` and everything appended to the stream. Daily rotation, file creation and the `%DATE%` substitution belong to that library.
- `fs.mkdirSync` is reduced to its outcome, which is passed in. The model does not cover whether the directory existed before, or the file system itself.
- `console.log` is I/O. The default console callback is recorded like any other callback, as one invocation with three arguments. Printing to stdout is not modelled.
- `process.pid` and `new Date()` become parameters.
- `LoggerSpec.EmitOutcome` covers only the mkdir error. The model has no other error paths, and these throws are left out:
  - `JSON.stringify` rejecting an object argument, such as a circular structure or a BigInt field (index.js:185-186);
  - `tmpData + ' '` throwing on a Symbol argument (index.js:189);
  - `path.resolve` rejecting a truthy output directory that is not a string (index.js:23).
  `Arg` holds only an argument's text, so none of these can arise in the model.
- A callback that throws is not modelled. Neither is a callback's return value, which the logger ignores.
- `Levels.Upper` covers only ASCII lower-case letters and the dotless i (U+0131), which upper-cases to 'I'. Other Unicode case mappings are left out because none of them yields 'N', 'E', 'W' or 'I'. A non-string `level` option is not modelled either.
- `Formatting.ColoredStringStrip` is stated only for messages that contain no ESC character. Stripping a message that already holds escape sequences would remove those as well.
- `Colors.StripPaint` carries the same restriction, for the same reason.
- The example scripts and the test helper `deleteFolderRecursive` are not part of this model: they only do I/O.
- `expressMiddleWare` and `sharedInstance` are not part of this model. The example scripts and tests refer to them, but this version of `index.js` does not define them.
