/** The JSON string escaper used for the `file`, `func` and `msg` fields of a
    record, and a decoder for the string grammar of section 7 of RFC 8259
    that serves as its partner. */
module JsonString {
  import opened Basics

  const Backspace: char := '\U{8}'
  const FormFeed: char := '\U{C}'

  /** Lower-case hexadecimal digit, as `%x` prints it. */
  function HexDigit(d: nat): (c: char)
    requires d < 16
    ensures c as int >= 0x20 && c != '"' && c != '\\'
  {
    "0123456789abcdef"[d]
  }

  /** The value of a hexadecimal digit in either case (RFC 8259 allows both). */
  function HexValue(c: char): (v: Option<nat>)
    ensures v.Some? ==> v.value < 16
  {
    if '0' <= c <= '9' then Some(c as int - '0' as int)
    else if 'a' <= c <= 'f' then Some(c as int - 'a' as int + 10)
    else if 'A' <= c <= 'F' then Some(c as int - 'A' as int + 10)
    else None
  }

  function Hex4(s: string): (v: Option<nat>)
    requires |s| == 4
    ensures v.Some? ==> v.value < 0x10000
  {
    match (HexValue(s[0]), HexValue(s[1]), HexValue(s[2]), HexValue(s[3]))
    case (Some(a), Some(b), Some(c), Some(d)) => Some(((a * 16 + b) * 16 + c) * 16 + d)
    case _ => None
  }

  /** The image of one character: quote, backslash, backspace, form feed,
      newline, carriage return and tab get a two-character escape; any other
      character below 0x20 becomes `\u00xx` in lower-case hex; everything
      else is copied. */
  function EscapeChar(c: char): (r: string)
    ensures 1 <= |r| <= 6
  {
    if c == '"' then "\\\""
    else if c == '\\' then "\\\\"
    else if c == Backspace then "\\b"
    else if c == FormFeed then "\\f"
    else if c == '\n' then "\\n"
    else if c == '\r' then "\\r"
    else if c == '\t' then "\\t"
    else if c as int < 0x20 then "\\u00" + [HexDigit(c as int / 16), HexDigit(c as int % 16)]
    else [c]
  }

  /** The escaped text: the concatenation of the images of the characters. */
  function Escaped(s: string): (r: string)
    ensures |s| <= |r| <= 6 * |s|
  {
    if |s| == 0 then [] else EscapeChar(s[0]) + Escaped(s[1..])
  }

  /** `jsonEscape`: appends the image of each character in turn. */
  method JsonEscape(s: string) returns (out: string)
    ensures out == Escaped(s)
  {
    out := [];
    var i := 0;
    while i < |s|
      invariant 0 <= i <= |s|
      invariant out == Escaped(s[..i])
    {
      EscapedAppend(s[..i], [s[i]]);
      assert s[..i] + [s[i]] == s[..i + 1];
      out := out + EscapeChar(s[i]);
      i := i + 1;
    }
    assert s[..i] == s;
  }

  /** The character a two-character escape `\e` stands for (section 7 of
      RFC 8259: `"`, `\`, `/`, b, f, n, r, t). */
  function SimpleEscape(e: char): (r: Option<char>)
  {
    if e == '"' then Some('"')
    else if e == '\\' then Some('\\')
    else if e == '/' then Some('/')
    else if e == 'b' then Some(Backspace)
    else if e == 'f' then Some(FormFeed)
    else if e == 'n' then Some('\n')
    else if e == 'r' then Some('\r')
    else if e == 't' then Some('\t')
    else None
  }

  function Prepend(c: char, r: Option<(string, string)>): Option<(string, string)> {
    match r
    case None => None
    case Some((d, rest)) => Some(([c] + d, rest))
  }

  /** Decodes the body of a JSON string that starts right after its opening
      quote: returns the decoded characters and the text after the closing
      quote, or None when the text is not a well-formed string body (a raw
      character below 0x20, an unknown escape, bad hex digits, a missing
      closing quote). A `\u` escape of a UTF-16 surrogate is not decoded. */
  function ScanString(s: string): (r: Option<(string, string)>)
    ensures r.Some? ==> |r.value.1| < |s|
    decreases |s|
  {
    if |s| == 0 then None
    else if s[0] == '"' then Some(([], s[1..]))
    else if s[0] == '\\' then
      if |s| < 2 then None
      else if s[1] == 'u' then
        if |s| < 6 then None
        else match Hex4(s[2..6])
          case None => None
          case Some(v) =>
            if 0xD800 <= v < 0xE000 then None
            else Prepend(v as char, ScanString(s[6..]))
      else match SimpleEscape(s[1])
        case None => None
        case Some(c) => Prepend(c, ScanString(s[2..]))
    else if s[0] as int < 0x20 then None
    else Prepend(s[0], ScanString(s[1..]))
  }

  /** Decodes a whole JSON string literal, quotes included. */
  function DecodeString(s: string): (r: Option<string>)
  {
    if |s| == 0 || s[0] != '"' then None
    else match ScanString(s[1..])
      case Some((d, rest)) => if rest == [] then Some(d) else None
      case None => None
  }

  // ---------------------------------------------------------------------
  // Properties

  lemma {:induction false} EscapedAppend(a: string, b: string)
    ensures Escaped(a + b) == Escaped(a) + Escaped(b)
  {
    if |a| > 0 {
      assert (a + b)[0] == a[0] && (a + b)[1..] == a[1..] + b;
      EscapedAppend(a[1..], b);
    } else {
      assert a + b == b;
    }
  }

  /** The three classes of image, and what each one encodes. */
  lemma EscapeCharShape(c: char)
    ensures c in "\"\\\n\r\t" || c == Backspace || c == FormFeed ==>
              |EscapeChar(c)| == 2 && EscapeChar(c)[0] == '\\' && SimpleEscape(EscapeChar(c)[1]) == Some(c)
    ensures c as int < 0x20 && !(c in "\n\r\t" || c == Backspace || c == FormFeed) ==>
              |EscapeChar(c)| == 6 && EscapeChar(c)[..4] == "\\u00" && Hex4(EscapeChar(c)[2..]) == Some(c as int)
    ensures c as int >= 0x20 && c != '"' && c != '\\' ==> EscapeChar(c) == [c]
  {
    if c as int < 0x20 && !(c in "\n\r\t" || c == Backspace || c == FormFeed) {
      HexRoundTrip(c as int / 16);
      HexRoundTrip(c as int % 16);
    }
  }

  lemma HexRoundTrip(d: nat)
    requires d < 16
    ensures HexValue(HexDigit(d)) == Some(d)
  {
  }

  /** The escaped text contains no raw character below 0x20. */
  lemma {:induction false} EscapedHasNoControl(s: string)
    ensures forall i :: 0 <= i < |Escaped(s)| ==> Escaped(s)[i] as int >= 0x20
  {
    if |s| > 0 {
      EscapedHasNoControl(s[1..]);
      var img := EscapeChar(s[0]);
      assert forall i :: 0 <= i < |img| ==> img[i] as int >= 0x20;
    }
  }

  /** Decoding one image yields its character and continues after it. */
  lemma ScanImage(c: char, t: string)
    ensures ScanString(EscapeChar(c) + t) == Prepend(c, ScanString(t))
  {
    var s := EscapeChar(c) + t;
    EscapeCharShape(c);
    if c as int < 0x20 && !(c in "\n\r\t" || c == Backspace || c == FormFeed) {
      assert s[2..6] == EscapeChar(c)[2..];
      assert s[6..] == t;
    } else if |EscapeChar(c)| == 2 {
      assert s[2..] == t;
    } else {
      assert s[1..] == t;
    }
  }

  /** The round trip: escaping a text and closing the string with a quote
      decodes back to exactly that text, and the decoder stops at that quote. */
  lemma {:induction false} ScanEscaped(x: string, rest: string)
    ensures ScanString(Escaped(x) + ("\"" + rest)) == Some((x, rest))
  {
    if |x| == 0 {
      assert Escaped(x) + ("\"" + rest) == "\"" + rest;
      assert ("\"" + rest)[1..] == rest;
    } else {
      var t := Escaped(x[1..]) + ("\"" + rest);
      assert Escaped(x) + ("\"" + rest) == EscapeChar(x[0]) + t;
      ScanImage(x[0], t);
      ScanEscaped(x[1..], rest);
      assert [x[0]] + x[1..] == x;
    }
  }

  /** Hence a quoted escaped text is a JSON string literal whose value is the
      original text. */
  lemma DecodeEscaped(x: string)
    ensures DecodeString("\"" + Escaped(x) + "\"") == Some(x)
  {
    ScanEscaped(x, []);
    assert ("\"" + Escaped(x) + "\"")[1..] == Escaped(x) + ("\"" + []);
  }

  /** Text without quote, backslash or control characters is its own image. */
  predicate Plain(s: string) {
    forall i :: 0 <= i < |s| ==> s[i] as int >= 0x20 && s[i] != '"' && s[i] != '\\'
  }

  lemma {:induction false} PlainEscaped(s: string)
    requires Plain(s)
    ensures Escaped(s) == s
  {
    if |s| > 0 {
      PlainEscaped(s[1..]);
      assert [s[0]] + s[1..] == s;
    }
  }
}
