/**
 The pure formatting helpers of the `Marvin` logger: the date and clock
 stamps, the pid token, the bracket-tag colouring of the message, the
 rendering of the variadic arguments, and the plain line of the file sink.
 */
module Formatting {

  import opened Wrappers
  import opened Strings
  import opened Colors
  import opened Levels

  /**
   What the logger reads off a JavaScript `Date`: `getFullYear()`,
   `getMonth()` (0-based), `getDate()`, `getHours()`, `getMinutes()` and
   `getSeconds()`.
   */
  datatype DateTime = DateTime(year: int, month0: nat, day: nat, hours: nat, minutes: nat, seconds: nat)

  /** The ranges a JavaScript `Date` keeps its fields in. */
  predicate ValidDate(d: DateTime) {
    d.month0 < 12 && 1 <= d.day <= 31 && d.hours < 24 && d.minutes < 60 && d.seconds < 60
  }

  /** `('0' + n).slice(-2)`: the last two characters of n's decimal form after a '0'. */
  function Pad2(n: nat): (r: string)
    ensures |r| == 2 && IsDigit(r[0]) && IsDigit(r[1])
  {
    var s := "0" + NatToString(n);
    assert s[|s| - 2] == if |s| == 2 then '0' else NatToString(n)[|s| - 3];
    s[|s| - 2..]
  }

  /**
   The characters a date, clock or pid stamp is made of: digits, the
   separators '/', ':' and '-', and the letters of `PID_`.
   */
  predicate StampChar(x: char) {
    IsDigit(x) || x == '/' || x == ':' || x == '-' || x == 'P' || x == 'I' || x == 'D' || x == '_'
  }

  predicate Stamp(s: string) {
    forall i :: 0 <= i < |s| ==> StampChar(s[i])
  }

  lemma StampConcat(a: string, b: string)
    requires Stamp(a) && Stamp(b)
    ensures Stamp(a + b)
  {
    assert forall i :: 0 <= i < |a + b| ==> (a + b)[i] == if i < |a| then a[i] else b[i - |a|];
  }

  /** A stamp holds neither a space nor a colour escape. */
  lemma StampClean(s: string)
    requires Stamp(s)
    ensures ' ' !in s && NoEsc(s)
  {
  }

  /** Whatever the number, `Pad2` gives its tens digit and its units digit. */
  lemma Pad2Digits(n: nat)
    ensures Pad2(n) == [Digit((n / 10) % 10), Digit(n % 10)]
  {
    var t := NatToString(n);
    var s := "0" + t;
    if n >= 10 {
      assert t == NatToString(n / 10) + [Digit(n % 10)];
      assert s[|s| - 2] == NatToString(n / 10)[|NatToString(n / 10)| - 1];
    }
  }

  /** Two-digit fields read back as the number they were made from. */
  lemma Pad2RoundTrip(n: nat)
    requires n < 100
    ensures ParseNat(Pad2(n)) == Some(n)
  {
    Pad2Digits(n);
    var p := Pad2(n);
    assert p[..1] == [Digit(n / 10)];
  }

  /** `YYYY/MM/DD`, with the 0-based month shifted to 1-based. */
  function CalendarDate(d: DateTime): string {
    IntToString(d.year) + "/" + Pad2(d.month0 + 1) + "/" + Pad2(d.day)
  }

  /** `hh:mm:ss`. */
  function ClockTime(d: DateTime): string {
    Pad2(d.hours) + ":" + Pad2(d.minutes) + ":" + Pad2(d.seconds)
  }

  /** `_formattedDateForLogging`: `YYYY/MM/DD hh:mm:ss`. */
  function FormattedDate(d: DateTime): string {
    CalendarDate(d) + " " + ClockTime(d)
  }

  /** `_formattedTimeForLogging`: `hh:mm:ss` in the datetime colour. */
  function FormattedTime(d: DateTime): string {
    Paint(DatetimeColor, ClockTime(d))
  }

  /** `_pid`: `PID_` followed by the process id. */
  function PidToken(pid: nat): string {
    "PID_" + NatToString(pid)
  }

  /** `_coloredPid`: the pid token in the pid colour. */
  function ColoredPid(pid: nat): string {
    Paint(PidColor, PidToken(pid))
  }

  /**
   Reads a `YYYY/MM/DD hh:mm:ss` stamp: the last fifteen characters hold the
   fixed-width fields and separators, everything before them is the year.
   */
  function ParseLogDate(s: string): Option<DateTime> {
    if |s| < 16 then None
    else
      var k := |s| - 15;
      if s[k] != '/' || s[k + 3] != '/' || s[k + 6] != ' ' || s[k + 9] != ':' || s[k + 12] != ':' then None
      else
        var y, mo, dd := ParseInt(s[..k]), ParseNat(s[k + 1..k + 3]), ParseNat(s[k + 4..k + 6]);
        var h, mi, sec := ParseNat(s[k + 7..k + 9]), ParseNat(s[k + 10..k + 12]), ParseNat(s[k + 13..k + 15]);
        if y.Some? && mo.Some? && dd.Some? && h.Some? && mi.Some? && sec.Some? && mo.value >= 1 then
          Some(DateTime(y.value, mo.value - 1, dd.value, h.value, mi.value, sec.value))
        else
          None
  }

  /** Reading a stamp whose separators sit in place and whose fields each read back as a number. */
  lemma ParseLogDateOfFields(s: string, year: int, month: nat, day: nat, hours: nat, minutes: nat, seconds: nat)
    requires |s| >= 16
    requires s[|s| - 15] == '/' && s[|s| - 12] == '/' && s[|s| - 9] == ' ' && s[|s| - 6] == ':' && s[|s| - 3] == ':'
    requires ParseInt(s[..|s| - 15]) == Some(year)
    requires ParseNat(s[|s| - 14..|s| - 12]) == Some(month) && month >= 1
    requires ParseNat(s[|s| - 11..|s| - 9]) == Some(day)
    requires ParseNat(s[|s| - 8..|s| - 6]) == Some(hours)
    requires ParseNat(s[|s| - 5..|s| - 3]) == Some(minutes)
    requires ParseNat(s[|s| - 2..]) == Some(seconds)
    ensures ParseLogDate(s) == Some(DateTime(year, month - 1, day, hours, minutes, seconds))
  {
    assert s[|s| - 2..] == s[|s| - 15 + 13..|s| - 15 + 15];
  }

  /** Where the fields of an assembled stamp sit. */
  lemma StampLayout(y: string, mo: string, dd: string, h: string, mi: string, sec: string)
    requires |y| >= 1 && |mo| == 2 && |dd| == 2 && |h| == 2 && |mi| == 2 && |sec| == 2
    ensures var s := y + "/" + mo + "/" + dd + " " + h + ":" + mi + ":" + sec;
      |s| == |y| + 15 &&
      s[|s| - 15] == '/' && s[|s| - 12] == '/' && s[|s| - 9] == ' ' && s[|s| - 6] == ':' && s[|s| - 3] == ':' &&
      s[..|s| - 15] == y && s[|s| - 14..|s| - 12] == mo && s[|s| - 11..|s| - 9] == dd &&
      s[|s| - 8..|s| - 6] == h && s[|s| - 5..|s| - 3] == mi && s[|s| - 2..] == sec
  {
    var s := y + "/" + mo + "/" + dd + " " + h + ":" + mi + ":" + sec;
    var k := |y|;
    assert s[..k] == y;
    assert s[k + 1..k + 3] == mo;
    assert s[k + 4..k + 6] == dd;
    assert s[k + 7..k + 9] == h;
    assert s[k + 10..k + 12] == mi;
    assert s[k + 13..] == sec;
  }

  /** The file stamp of a date the clock can produce reads back as that date. */
  lemma FormattedDateRoundTrip(d: DateTime)
    requires ValidDate(d)
    ensures ParseLogDate(FormattedDate(d)) == Some(d)
  {
    var y, mo, dd := IntToString(d.year), Pad2(d.month0 + 1), Pad2(d.day);
    var h, mi, sec := Pad2(d.hours), Pad2(d.minutes), Pad2(d.seconds);
    var s := FormattedDate(d);
    assert s == y + "/" + mo + "/" + dd + " " + h + ":" + mi + ":" + sec;
    StampLayout(y, mo, dd, h, mi, sec);
    ParseIntToString(d.year);
    Pad2RoundTrip(d.month0 + 1);
    Pad2RoundTrip(d.day);
    Pad2RoundTrip(d.hours);
    Pad2RoundTrip(d.minutes);
    Pad2RoundTrip(d.seconds);
    ParseLogDateOfFields(s, d.year, d.month0 + 1, d.day, d.hours, d.minutes, d.seconds);
  }

  /**
   `_coloredString`: a message that starts with '[' is split at ']', the
   first piece loses its '[' and is coloured, and the pieces are joined
   again; any other message is coloured whole.
   */
  function ColoredString(str: string, c: Color): string {
    var splitted :=
      if |str| > 0 && str[0] == '[' then
        var parts := Split(str, ']');
        if |parts| > 1 then parts[0 := "[" + Paint(c, RemoveFirst(parts[0], '['))] else parts
      else
        [Paint(c, str)];
    Join(splitted, ']')
  }

  /**
   Splitting a message with a leading '[' at ']': the first piece is the tag
   with its '[', and replacing that piece before joining again replaces the
   tag and keeps everything from the first ']' on.
   */
  lemma RetagFirstPiece(str: string, x: string)
    requires |str| > 0 && str[0] == '[' && ']' in str
    ensures Split(str, ']')[0] == str[..FirstIndex(str, ']')]
    ensures RemoveFirst(Split(str, ']')[0], '[') == str[1..FirstIndex(str, ']')]
    ensures |Split(str, ']')| > 1
    ensures Join(Split(str, ']')[0 := x], ']') == x + str[FirstIndex(str, ']')..]
  {
    var k := FirstIndex(str, ']');
    SplitFirst(str, ']');
    var rest := Split(str[k + 1..], ']');
    assert Split(str, ']') == [str[..k]] + rest;
    assert str[..k][0] == '[';
    assert Split(str, ']')[0 := x] == [x] + rest;
    JoinSplit(str[k + 1..], ']');
    assert str[k..] == "]" + str[k + 1..];
  }

  /** A leading `[...]` tag: only its inside is coloured, the brackets and the rest stay plain. */
  lemma ColoredStringTagged(str: string, c: Color)
    requires |str| > 0 && str[0] == '[' && ']' in str
    ensures ColoredString(str, c) == "[" + Paint(c, str[1..FirstIndex(str, ']')]) + str[FirstIndex(str, ']')..]
  {
    var k := FirstIndex(str, ']');
    var x := "[" + Paint(c, str[1..k]);
    RetagFirstPiece(str, x);
  }

  /** A leading '[' that is never closed leaves the message uncoloured. */
  lemma ColoredStringUnclosed(str: string, c: Color)
    requires |str| > 0 && str[0] == '[' && ']' !in str
    ensures ColoredString(str, c) == str
  {
    SplitNoSeparator(str, ']');
  }

  /** Without a leading '[' the whole message is coloured. */
  lemma ColoredStringUntagged(str: string, c: Color)
    requires |str| == 0 || str[0] != '['
    ensures ColoredString(str, c) == Paint(c, str)
  {
  }

  lemma StripTag(str: string, k: nat, c: Color)
    requires NoEsc(str) && 1 <= k <= |str| && str[0] == '['
    ensures Strip("[" + Paint(c, str[1..k]) + str[k..]) == str
  {
    var inner, tail := str[1..k], str[k..];
    assert NoEsc(inner) by { assert forall x :: x in inner ==> x in str; }
    assert NoEsc(tail) by { assert forall x :: x in tail ==> x in str; }
    assert "[" + Paint(c, inner) + tail == "[" + (Paint(c, inner) + tail);
    StripPlainPrefix("[", Paint(c, inner) + tail);
    StripPaintPrefix(c, inner, tail);
    StripPlain(tail);
    assert str == "[" + inner + tail;
  }

  /** With the colour codes removed, the coloured message is the message. */
  lemma ColoredStringStrip(str: string, c: Color)
    requires NoEsc(str)
    ensures Strip(ColoredString(str, c)) == str
  {
    if |str| > 0 && str[0] == '[' {
      if ']' in str {
        ColoredStringTagged(str, c);
        StripTag(str, FirstIndex(str, ']'), c);
      } else {
        ColoredStringUnclosed(str, c);
        StripPlain(str);
      }
    } else {
      ColoredStringUntagged(str, c);
      StripPaint(c, str);
    }
  }

  lemma Pad2Stamp(n: nat)
    ensures Stamp(Pad2(n))
  {
    var r := Pad2(n);
    forall i | 0 <= i < |r|
      ensures StampChar(r[i])
    {
      assert i == 0 || i == 1;
    }
  }

  lemma CalendarDateStamp(d: DateTime)
    ensures Stamp(CalendarDate(d))
  {
    var y := IntToString(d.year);
    assert Stamp(y);
    Pad2Stamp(d.month0 + 1);
    Pad2Stamp(d.day);
    StampConcat(y, "/");
    StampConcat(y + "/", Pad2(d.month0 + 1));
    StampConcat(y + "/" + Pad2(d.month0 + 1), "/");
    StampConcat(y + "/" + Pad2(d.month0 + 1) + "/", Pad2(d.day));
  }

  lemma ClockTimeStamp(d: DateTime)
    ensures Stamp(ClockTime(d))
  {
    Pad2Stamp(d.hours);
    Pad2Stamp(d.minutes);
    Pad2Stamp(d.seconds);
    StampConcat(Pad2(d.hours), ":");
    StampConcat(Pad2(d.hours) + ":", Pad2(d.minutes));
    StampConcat(Pad2(d.hours) + ":" + Pad2(d.minutes), ":");
    StampConcat(Pad2(d.hours) + ":" + Pad2(d.minutes) + ":", Pad2(d.seconds));
  }

  lemma PidTokenStamp(pid: nat)
    ensures Stamp(PidToken(pid))
  {
    assert Stamp(NatToString(pid));
    StampConcat("PID_", NatToString(pid));
  }

  /** The three stamps are made of stamp characters only. */
  lemma StampsAreStamps(d: DateTime, pid: nat)
    ensures Stamp(CalendarDate(d)) && Stamp(ClockTime(d)) && Stamp(PidToken(pid))
  {
    CalendarDateStamp(d);
    ClockTimeStamp(d);
    PidTokenStamp(pid);
  }

  /** The console and file stamps agree once the console's colour is removed. */
  lemma ConsoleStampsStrip(d: DateTime, pid: nat)
    ensures Strip(FormattedTime(d)) == ClockTime(d)
    ensures Strip(ColoredPid(pid)) == PidToken(pid)
  {
    StampsAreStamps(d, pid);
    StampClean(ClockTime(d));
    StampClean(PidToken(pid));
    StripPaint(DatetimeColor, ClockTime(d));
    StripPaint(PidColor, PidToken(pid));
  }

  /**
   A logged argument: a primitive, already in the string form `'' + x`
   gives it, or an object, already in the 2-space indented form
   `JSON.stringify(x, null, 2)` gives it.
   */
  datatype Arg = Text(s: string) | Composite(json: string)

  function ArgText(a: Arg): string {
    match a
    case Text(s) => s
    case Composite(json) => json
  }

  function Texts(args: seq<Arg>): (r: seq<string>)
    ensures |r| == |args|
  {
    seq(|args|, i requires 0 <= i < |args| => ArgText(args[i]))
  }

  /** The message of a call: the arguments' texts in order, one space between each two. */
  function Render(args: seq<Arg>): string {
    Join(Texts(args), ' ')
  }

  /** What the rendering loop has accumulated: every text followed by a space. */
  ghost function Spaced(parts: seq<string>): string {
    if |parts| == 0 then "" else Spaced(parts[..|parts| - 1]) + parts[|parts| - 1] + " "
  }

  lemma {:induction false} SpacedIsJoin(parts: seq<string>)
    requires |parts| >= 1
    ensures Spaced(parts) == Join(parts, ' ') + " "
  {
    var n := |parts|;
    if n > 1 {
      var init := parts[..n - 1];
      SpacedIsJoin(init);
      JoinSnoc(init, parts[n - 1], ' ');
      assert init + [parts[n - 1]] == parts;
    }
  }

  /**
   The argument loop of `_writeLog`: every argument's text followed by a
   space is appended, then the last character is dropped when there is one.
   */
  method RenderData(args: seq<Arg>) returns (data: string)
    ensures data == Render(args)
  {
    ghost var texts := Texts(args);
    data := "";
    var i := 0;
    while i < |args|
      invariant 0 <= i <= |args|
      invariant data == Spaced(texts[..i])
    {
      var tmpData := ArgText(args[i]);
      data := data + tmpData + " ";
      i := i + 1;
      assert texts[..i][..i - 1] == texts[..i - 1];
    }
    assert texts[..i] == texts;
    if |data| > 0 {
      data := data[..|data| - 1];
    }
    if |args| > 0 {
      SpacedIsJoin(texts);
    }
  }

  /** Arguments free of spaces are exactly the space-separated fields of the message. */
  lemma RenderFields(args: seq<Arg>)
    requires |args| >= 1
    requires forall i :: 0 <= i < |args| ==> ' ' !in ArgText(args[i])
    ensures Split(Render(args), ' ') == Texts(args)
  {
    SplitJoin(Texts(args), ' ');
  }

  lemma {:induction false} JoinPlain(parts: seq<string>, d: char)
    requires d != ESC
    requires forall i :: 0 <= i < |parts| ==> NoEsc(parts[i])
    ensures NoEsc(Join(parts, d))
  {
    if |parts| > 1 {
      JoinPlain(parts[1..], d);
    }
  }

  /** Arguments without colour codes give a message without colour codes. */
  lemma RenderPlain(args: seq<Arg>)
    requires forall i :: 0 <= i < |args| ==> NoEsc(ArgText(args[i]))
    ensures NoEsc(Render(args))
  {
    JoinPlain(Texts(args), ' ');
  }

  /** The line the file callback receives: `YYYY/MM/DD hh:mm:ss PID_<pid> <data>` and a newline. */
  function FileLine(d: DateTime, pid: nat, data: string): string {
    FormattedDate(d) + " " + PidToken(pid) + " " + data + "\n"
  }

  /** Split at spaces, the file line is the date, the time, the pid token, then the message's fields. */
  lemma FileLineFields(d: DateTime, pid: nat, data: string)
    ensures Split(FileLine(d, pid, data), ' ') ==
              [CalendarDate(d), ClockTime(d), PidToken(pid)] + Split(data + "\n", ' ')
  {
    var cal, clock, tok := CalendarDate(d), ClockTime(d), PidToken(pid);
    StampsAreStamps(d, pid);
    StampClean(cal);
    StampClean(clock);
    StampClean(tok);
    var tail := data + "\n";
    var rest2 := tok + [' '] + tail;
    var rest1 := clock + [' '] + rest2;
    assert FileLine(d, pid, data) == cal + [' '] + rest1;
    SplitAtSeparator(cal, rest1, ' ');
    SplitAtSeparator(clock, rest2, ' ');
    SplitAtSeparator(tok, tail, ' ');
  }

  /** The file line carries a colour code only if the message does. */
  lemma FileLinePlain(d: DateTime, pid: nat, data: string)
    ensures NoEsc(FileLine(d, pid, data)) <==> NoEsc(data)
  {
    StampsAreStamps(d, pid);
    StampClean(CalendarDate(d));
    StampClean(ClockTime(d));
    StampClean(PidToken(pid));
    var head := CalendarDate(d) + " " + ClockTime(d) + " " + PidToken(pid) + " ";
    assert NoEsc(head);
    assert FileLine(d, pid, data) == head + (data + "\n");
  }
}
