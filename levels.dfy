/**
 Severity levels, the permissive parser for level names, and the six
 logging channels with their threshold and theme colour.
 */
module Levels {

  import opened Wrappers
  import opened Colors

  /** DEBUG = 0 < INFO = 1 < WARN = 2 < ERROR = 3 < NONE = 4. */
  type Severity = n: int | 0 <= n <= 4

  const DEBUG: Severity := 0
  const INFO: Severity := 1
  const WARN: Severity := 2
  const ERROR: Severity := 3
  const NONE: Severity := 4

  /**
   The upper-case form of a character, as far as it matters for the level
   switch: ASCII letters, and the dotless i (U+0131), whose upper-case form
   is 'I'.  No other character upper-cases to a single 'N', 'E', 'W' or 'I'.
   */
  function Upper(c: char): (u: char)
    ensures 'A' <= u <= 'Z' ==> u == c || 'a' <= c <= 'z' || c == '\U{131}'
  {
    if 'a' <= c <= 'z' then (c as int - 32) as char
    else if c == '\U{131}' then 'I'
    else c
  }

  /** `_levelValue`: the level named by the upper-cased first character; anything else is DEBUG. */
  function LevelValue(name: string): Severity {
    if |name| == 0 then DEBUG
    else
      match Upper(name[0])
      case 'N' => NONE
      case 'E' => ERROR
      case 'W' => WARN
      case 'I' => INFO
      case _ => DEBUG
  }

  /** The lower-case name of each level, as the configuration spells it. */
  function LevelName(s: Severity): (name: string)
    ensures |name| > 0
  {
    if s == DEBUG then "debug"
    else if s == INFO then "info"
    else if s == WARN then "warn"
    else if s == ERROR then "error"
    else "none"
  }

  /** Which raw first characters select which level. */
  lemma LevelValueByFirstChar(name: string)
    ensures LevelValue(name) == NONE <==> |name| > 0 && (name[0] == 'n' || name[0] == 'N')
    ensures LevelValue(name) == ERROR <==> |name| > 0 && (name[0] == 'e' || name[0] == 'E')
    ensures LevelValue(name) == WARN <==> |name| > 0 && (name[0] == 'w' || name[0] == 'W')
    ensures LevelValue(name) == INFO <==>
              |name| > 0 && (name[0] == 'i' || name[0] == 'I' || name[0] == '\U{131}')
  {
  }

  /** Only the first character is looked at. */
  lemma LevelValueFirstCharOnly(a: string, b: string)
    requires |a| > 0
    ensures LevelValue(a + b) == LevelValue(a)
  {
    assert (a + b)[0] == a[0];
  }

  /** Every level's name parses back to that level, and so does any word it begins. */
  lemma LevelNameRoundTrip(s: Severity, suffix: string)
    ensures LevelValue(LevelName(s) + suffix) == s
  {
    LevelValueFirstCharOnly(LevelName(s), suffix);
  }

  /** The spellings exercised by the logger's own tests. */
  lemma LevelValueExamples()
    ensures LevelValue("Debug") == DEBUG && LevelValue("d") == DEBUG && LevelValue("#") == DEBUG
    ensures LevelValue("") == DEBUG && LevelValue("debug") == DEBUG
    ensures LevelValue("Info") == INFO && LevelValue("i") == INFO
    ensures LevelValue("Warning") == WARN && LevelValue("w") == WARN
    ensures LevelValue("Error") == ERROR && LevelValue("e") == ERROR
    ensures LevelValue("None") == NONE && LevelValue("n") == NONE
  {
  }

  /** The six emitting entry points of the logger. */
  datatype Channel = Debug | Info | Warn | Error | Important | Http

  /** The severity a channel is gated at; `important` and `http` are never gated. */
  function Threshold(ch: Channel): Option<Severity> {
    match ch
    case Debug => Some(DEBUG)
    case Info => Some(INFO)
    case Warn => Some(WARN)
    case Error => Some(ERROR)
    case Important => None
    case Http => None
  }

  /** A call on `ch` is short-circuited when the configured level exceeds the channel's. */
  predicate Blocked(ch: Channel, level: Severity) {
    Threshold(ch).Some? && level > Threshold(ch).value
  }

  /** The theme colour of each channel's text. */
  function ChannelColor(ch: Channel): Color {
    match ch
    case Debug => Blue
    case Info => Green
    case Warn => Yellow
    case Error => Red
    case Important => Magenta
    case Http => Cyan
  }

  const DatetimeColor: Color := Grey
  const PidColor: Color := Magenta

  /** Raising the configured level never lets a blocked channel through. */
  lemma BlockedMonotone(ch: Channel, low: Severity, high: Severity)
    requires low <= high
    ensures Blocked(ch, low) ==> Blocked(ch, high)
  {
  }

  /** DEBUG lets everything through; NONE blocks exactly the four gated channels. */
  lemma BlockedExtremes(ch: Channel)
    ensures !Blocked(ch, DEBUG)
    ensures Blocked(ch, NONE) <==> ch !in {Important, Http}
  {
  }
}
