/**
 The terminal colours of the logger's theme, modelled as a fixed wrapping
 function: a coloured string is an ANSI "open" escape, the text, and the
 ANSI "reset foreground" escape.  `Strip` removes escapes again, so that the
 coloured console output can be compared with the plain file output.
 */
module Colors {

  const ESC: char := '\U{1b}'

  /** The colours the theme assigns (pid, datetime and the six channels). */
  datatype Color = Blue | Green | Yellow | Red | Magenta | Cyan | Grey

  /** The SGR parameter that selects each colour. */
  function Code(c: Color): (r: string)
    ensures |r| == 2 && 'm' !in r && ESC !in r
  {
    match c
    case Blue => "34"
    case Green => "32"
    case Yellow => "33"
    case Red => "31"
    case Magenta => "35"
    case Cyan => "36"
    case Grey => "90"
  }

  function Open(c: Color): string {
    [ESC] + "[" + Code(c) + "m"
  }

  const Close: string := [ESC] + "[39m"

  /** The colour function of the theme: `colors.<name>(s)`. */
  function Paint(c: Color, s: string): string {
    Open(c) + s + Close
  }

  predicate NoEsc(s: string) {
    ESC !in s
  }

  /** What follows the first 'm' of `s` (the end of an escape sequence). */
  function AfterCode(s: string): (r: string)
    ensures |r| <= |s|
  {
    if |s| == 0 then ""
    else if s[0] == 'm' then s[1..]
    else AfterCode(s[1..])
  }

  /** `s` with every escape sequence (ESC up to and including the next 'm') removed. */
  function Strip(s: string): string
    decreases |s|
  {
    if |s| == 0 then ""
    else if s[0] == ESC then Strip(AfterCode(s[1..]))
    else [s[0]] + Strip(s[1..])
  }

  lemma {:induction false} AfterCodeSkips(u: string, v: string)
    requires 'm' !in u
    ensures AfterCode(u + "m" + v) == v
  {
    if |u| == 0 {
      assert u + "m" + v == "m" + v;
    } else {
      assert (u + "m" + v)[1..] == u[1..] + "m" + v;
      AfterCodeSkips(u[1..], v);
    }
  }

  /** Stripping leaves text without escapes as it is, in front of anything. */
  lemma {:induction false} StripPlainPrefix(a: string, b: string)
    requires NoEsc(a)
    ensures Strip(a + b) == a + Strip(b)
  {
    if |a| == 0 {
      assert a + b == b;
    } else {
      assert (a + b)[0] == a[0];
      assert (a + b)[1..] == a[1..] + b;
      StripPlainPrefix(a[1..], b);
    }
  }

  lemma StripPlain(s: string)
    requires NoEsc(s)
    ensures Strip(s) == s
  {
    StripPlainPrefix(s, "");
    assert s + "" == s;
  }

  /** An opening escape disappears under `Strip`. */
  lemma StripOpen(c: Color, b: string)
    ensures Strip(Open(c) + b) == Strip(b)
  {
    var u := "[" + Code(c);
    assert 'm' !in u;
    assert Open(c) + b == [ESC] + (u + "m" + b);
    AfterCodeSkips(u, b);
  }

  lemma StripClose()
    ensures Strip(Close) == ""
  {
    assert Close == [ESC] + ("[39" + "m" + "");
    AfterCodeSkips("[39", "");
  }

  /** Colouring text that holds no escapes and then stripping gives the text back. */
  lemma StripPaint(c: Color, s: string)
    requires NoEsc(s)
    ensures Strip(Paint(c, s)) == s
  {
    assert Paint(c, s) == Open(c) + (s + Close);
    StripOpen(c, s + Close);
    StripPlainPrefix(s, Close);
    StripClose();
    assert s + "" == s;
  }

  /** `Strip` distributes over a concatenation whose left part is itself coloured text. */
  lemma StripPaintPrefix(c: Color, s: string, b: string)
    requires NoEsc(s)
    ensures Strip(Paint(c, s) + b) == s + Strip(b)
  {
    assert Paint(c, s) + b == Open(c) + (s + (Close + b));
    StripOpen(c, s + (Close + b));
    StripPlainPrefix(s, Close + b);
    assert Close + b == [ESC] + ("[39" + "m" + b);
    AfterCodeSkips("[39", b);
  }
}
