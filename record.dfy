/** Building one JSON-lines record, as the `LogLine` destructor does: the
    threshold test, stripping trailing line terminators, and the layout
    `{"time":..,"level":..,[file,line,func,]"msg":..}` followed by a newline.
    A reader for that layout is the partner of the renderer. */
module Record {
  import opened Basics
  import opened Levels
  import opened Decimal
  import opened JsonString

  /** Broken-down local time as the environment supplies it: the full year
      (`tm_year + 1900`), the month 1-12 (`tm_mon + 1`), day, hour, minute,
      second. */
  datatype DateTime = DateTime(year: nat, month: nat, day: nat, hour: nat, minute: nat, second: nat)

  /** The ranges `localtime` produces (a leap second included). */
  predicate InRange(t: DateTime) {
    t.year < 10000 && 1 <= t.month <= 12 && 1 <= t.day <= 31
    && t.hour < 24 && t.minute < 60 && t.second <= 60
  }

  /** `strftime("%Y-%m-%d %H:%M:%S")`. */
  function TimeText(t: DateTime): (s: string)
  {
    Padded(t.year, 4) + "-" + Padded(t.month, 2) + "-" + Padded(t.day, 2) + " "
    + Padded(t.hour, 2) + ":" + Padded(t.minute, 2) + ":" + Padded(t.second, 2)
  }

  /** What a `LOG_*_F` macro captures: `__FILE__`, `__LINE__` and
      `__FUNCTION__`; the function name may be null. A plain `LOG_*`
      macro captures nothing: its record has no call site (file name null). */
  datatype Callsite = Callsite(file: string, line: int, func: Option<string>)

  function FuncText(c: Callsite): string {
    match c.func
    case None => ""
    case Some(f) => f
  }

  /** The call site of the plain macros and of the `_F` macros. */
  function PlainMacroSite(): Option<Callsite> {
    None
  }

  function CallsiteMacroSite(file: string, line: int, func: string): Option<Callsite> {
    Some(Callsite(file, line, Some(func)))
  }

  predicate IsTerminator(c: char) {
    c == '\n' || c == '\r'
  }

  /** The message with trailing newline and carriage-return characters
      removed, one at a time from the back. */
  function StripTrailing(s: string): (r: string)
    ensures |r| <= |s|
  {
    if |s| > 0 && IsTerminator(s[|s| - 1]) then StripTrailing(s[..|s| - 1]) else s
  }

  /** The optional `file`, `line` and `func` members. Concatenations are
      grouped from the right, in the order a reader consumes the text. */
  function SiteFields(site: Option<Callsite>): (r: string)
  {
    match site
    case None => ""
    case Some(c) => ",\"file\":\"" + (Escaped(c.file) + ("\"" + LineFuncFields(c)))
  }

  /** The `line` and `func` members of a call site. */
  function LineFuncFields(c: Callsite): string {
    ",\"line\":" + (IntText(c.line) + (",\"func\":\"" + (Escaped(FuncText(c)) + "\"")))
  }

  /** The layout of a record, given the time text, the level name, the call
      site and the already escaped message. */
  function Layout(time: string, name: string, site: Option<Callsite>, body: string): (line: string)
  {
    "{\"time\":\"" + (time + ("\"" + (",\"level\":\"" + (name + ("\"" + (SiteFields(site)
    + (",\"msg\":\"" + (body + ("\"" + "}\n")))))))))
  }

  /** The text of one record for a message that passed the threshold. */
  function RenderLine(level: LogLevel, site: Option<Callsite>, msg: string, time: DateTime): (line: string)
  {
    Layout(TimeText(time), LevelName(level), site, Escaped(StripTrailing(msg)))
  }

  /** What the destructor produces: nothing when logging is disabled or the
      level fails the threshold, the rendered record otherwise. */
  function Emitted(enable: bool, threshold: LogLevel, level: LogLevel, site: Option<Callsite>,
                   msg: string, time: DateTime): (r: Option<string>)
    ensures r.None? <==> !enable || !Admits(threshold, level)
  {
    if !enable || !Admits(threshold, level) then None else Some(RenderLine(level, site, msg, time))
  }

  /** `LogLine::~LogLine`, up to the hand-off to the queue. */
  method FinishLine(enable: bool, threshold: LogLevel, level: LogLevel, site: Option<Callsite>,
                    text: string, time: DateTime) returns (line: Option<string>)
    ensures line == Emitted(enable, threshold, level, site, text, time)
  {
    if !enable || level.Rank() > threshold.Rank() {
      return None;
    }
    var msg := text;
    while |msg| > 0 && (msg[|msg| - 1] == '\n' || msg[|msg| - 1] == '\r')
      invariant StripTrailing(msg) == StripTrailing(text)
      decreases |msg|
    {
      msg := msg[..|msg| - 1];
    }
    assert msg == StripTrailing(text);
    var fields := "";
    if site.Some? {
      var f := JsonEscape(site.value.file);
      var fn := JsonEscape(FuncText(site.value));
      fields := ",\"file\":\"" + (f + ("\"" + (",\"line\":" + (IntText(site.value.line)
                + (",\"func\":\"" + (fn + "\""))))));
    }
    var m := JsonEscape(msg);
    var out := "{\"time\":\"" + (TimeText(time) + ("\"" + (",\"level\":\"" + (LevelName(level)
               + ("\"" + (fields + (",\"msg\":\"" + (m + ("\"" + "}\n")))))))));
    line := Some(out);
  }

  // ---------------------------------------------------------------------
  // Reading a record back

  datatype ParsedSite = ParsedSite(file: string, line: int, func: string)
  datatype ParsedLine = ParsedLine(time: string, level: string, site: Option<ParsedSite>, msg: string)

  /** Consumes the literal `lit` at the front of `s`. */
  function Expect(lit: string, s: string): (r: Option<string>)
  {
    if lit <= s then Some(s[|lit|..]) else None
  }

  function ParseSite(s: string): Option<(Option<ParsedSite>, string)>
  {
    if ",\"file\":\"" <= s then
      var f :- ScanString(s[9..]);
      ParseLineFunc(f.0, f.1)
    else
      Some((None, s))
  }

  /** The `line` and `func` members that follow the `file` member. */
  function ParseLineFunc(file: string, s: string): Option<(Option<ParsedSite>, string)>
  {
    var r1 :- Expect(",\"line\":", s);
    var n :- ParseInt(r1);
    var r2 :- Expect(",\"func\":\"", n.1);
    var fn :- ScanString(r2);
    Some((Some(ParsedSite(file, n.0, fn.0)), fn.1))
  }

  /** Reads a record line: the members time, level, optionally file, line and
      func, and msg, in that order, then `}` and the newline. */
  function ParseLine(s: string): (r: Option<ParsedLine>)
  {
    var r1 :- Expect("{\"time\":\"", s);
    var t :- ScanString(r1);
    ParseAfterTime(t.0, t.1)
  }

  function ParseAfterTime(time: string, s: string): Option<ParsedLine>
  {
    var r2 :- Expect(",\"level\":\"", s);
    var l :- ScanString(r2);
    var ps :- ParseSite(l.1);
    ParseMsg(time, l.0, ps.0, ps.1)
  }

  function ParseMsg(time: string, level: string, site: Option<ParsedSite>, s: string): Option<ParsedLine>
  {
    var r3 :- Expect(",\"msg\":\"", s);
    var m :- ScanString(r3);
    if m.1 == "}\n" then Some(ParsedLine(time, level, site, m.0)) else None
  }

  function SiteView(site: Option<Callsite>): Option<ParsedSite> {
    match site
    case None => None
    case Some(c) => Some(ParsedSite(c.file, c.line, FuncText(c)))
  }

  // ---------------------------------------------------------------------
  // Properties

  /** Only trailing terminators are removed: the result is a prefix of the
      message, it does not end in a terminator, and everything removed is a
      terminator. */
  lemma {:induction false} StripTrailingSpec(s: string)
    ensures StripTrailing(s) == s[..|StripTrailing(s)|]
    ensures |StripTrailing(s)| == 0 || !IsTerminator(StripTrailing(s)[|StripTrailing(s)| - 1])
    ensures forall i :: |StripTrailing(s)| <= i < |s| ==> IsTerminator(s[i])
  {
    if |s| > 0 && IsTerminator(s[|s| - 1]) {
      StripTrailingSpec(s[..|s| - 1]);
    }
  }

  /** Those three facts determine the stripped message. */
  lemma {:induction false} StripTrailingUnique(s: string, k: nat)
    requires k <= |s|
    requires k == 0 || !IsTerminator(s[k - 1])
    requires forall i :: k <= i < |s| ==> IsTerminator(s[i])
    ensures StripTrailing(s) == s[..k]
  {
    if k < |s| {
      var p := s[..|s| - 1];
      assert p[..k] == s[..k];
      StripTrailingUnique(p, k);
    } else {
      assert s[..k] == s;
    }
  }

  /** Interior terminators survive: stripping only touches the end, and
      removes exactly a trailing run of terminators. */
  lemma StripKeepsInterior(a: string, b: string, t: string)
    requires |b| > 0 && !IsTerminator(b[|b| - 1])
    requires forall i :: 0 <= i < |t| ==> IsTerminator(t[i])
    ensures StripTrailing(a + b) == a + b
    ensures StripTrailing(a + b + t) == a + b
  {
    var s := a + b + t;
    StripTrailingUnique(s, |a + b|);
    assert s[..|a + b|] == a + b;
    StripTrailingUnique(a + b, |a + b|);
    assert (a + b)[..|a + b|] == a + b;
  }

  lemma TimeTextPlain(t: DateTime)
    ensures Plain(TimeText(t))
  {
  }

  lemma LevelNamePlain(l: LogLevel)
    ensures Plain(LevelName(l))
  {
  }

  /** A string member whose value is plain reads back as itself. */
  lemma ScanPlain(x: string, rest: string)
    requires Plain(x)
    ensures ScanString(x + ("\"" + rest)) == Some((x, rest))
  {
    PlainEscaped(x);
    ScanEscaped(x, rest);
  }

  lemma ExpectLit(lit: string, rest: string)
    ensures Expect(lit, lit + rest) == Some(rest)
  {
    assert lit <= lit + rest;
    assert (lit + rest)[|lit|..] == rest;
  }

  /** The rendered texts, regrouped from the right in the order a reader
      consumes them. */
  lemma LineFuncNested(c: Callsite, rest: string)
    ensures LineFuncFields(c) + rest
         == ",\"line\":" + (IntText(c.line) + (",\"func\":\"" + (Escaped(FuncText(c)) + ("\"" + rest))))
  {
  }

  lemma SiteNested(c: Callsite, rest: string)
    ensures SiteFields(Some(c)) + rest == ",\"file\":\"" + (Escaped(c.file) + ("\"" + (LineFuncFields(c) + rest)))
  {
  }

  lemma ParseLineFuncRoundTrip(c: Callsite, rest: string)
    ensures ParseLineFunc(c.file, LineFuncFields(c) + rest) == Some((SiteView(Some(c)), rest))
  {
    var fnTail := Escaped(FuncText(c)) + ("\"" + rest);
    var lineTail := IntText(c.line) + (",\"func\":\"" + fnTail);
    LineFuncNested(c, rest);
    ExpectLit(",\"line\":", lineTail);
    IntTextRoundTrip(c.line, ",\"func\":\"" + fnTail);
    ExpectLit(",\"func\":\"", fnTail);
    ScanEscaped(FuncText(c), rest);
  }

  lemma FileKey(t: string)
    ensures ",\"file\":\"" <= ",\"file\":\"" + t && (",\"file\":\"" + t)[9..] == t
  {
  }

  /** The `msg` member cannot be mistaken for a `file` member. */
  lemma MsgIsNotFile(t: string)
    ensures !(",\"file\":\"" <= ",\"msg\":\"" + t)
  {
    assert (",\"msg\":\"" + t)[2] == 'm';
  }

  lemma ParseSiteRoundTrip(site: Option<Callsite>, t: string)
    ensures ParseSite(SiteFields(site) + (",\"msg\":\"" + t)) == Some((SiteView(site), ",\"msg\":\"" + t))
  {
    var rest := ",\"msg\":\"" + t;
    match site
    case None =>
      assert SiteFields(site) + rest == rest;
      MsgIsNotFile(t);
    case Some(c) =>
      var lineTail := LineFuncFields(c) + rest;
      var fileTail := Escaped(c.file) + ("\"" + lineTail);
      SiteNested(c, rest);
      FileKey(fileTail);
      ScanEscaped(c.file, lineTail);
      ParseLineFuncRoundTrip(c, rest);
  }

  lemma ParseMsgRoundTrip(time: string, level: string, site: Option<ParsedSite>, msg: string)
    ensures ParseMsg(time, level, site, ",\"msg\":\"" + (Escaped(msg) + ("\"" + "}\n")))
         == Some(ParsedLine(time, level, site, msg))
  {
    ExpectLit(",\"msg\":\"", Escaped(msg) + ("\"" + "}\n"));
    ScanEscaped(msg, "}\n");
  }

  lemma ParseAfterTimeRoundTrip(time: string, name: string, site: Option<Callsite>, msg: string)
    requires Plain(name)
    ensures ParseAfterTime(time, ",\"level\":\"" + (name + ("\"" + (SiteFields(site)
                                 + (",\"msg\":\"" + (Escaped(msg) + ("\"" + "}\n")))))))
         == Some(ParsedLine(time, name, SiteView(site), msg))
  {
    var msgTail := Escaped(msg) + ("\"" + "}\n");
    var siteTail := SiteFields(site) + (",\"msg\":\"" + msgTail);
    ExpectLit(",\"level\":\"", name + ("\"" + siteTail));
    ScanPlain(name, siteTail);
    ParseSiteRoundTrip(site, msgTail);
    ParseMsgRoundTrip(time, name, SiteView(site), msg);
  }

  /** Reading the layout back, for plain time and level texts. */
  lemma ParseLayout(time: string, name: string, site: Option<Callsite>, msg: string)
    requires Plain(time) && Plain(name)
    ensures ParseLine(Layout(time, name, site, Escaped(msg)))
         == Some(ParsedLine(time, name, SiteView(site), msg))
  {
    var afterTime := ",\"level\":\"" + (name + ("\"" + (SiteFields(site)
                     + (",\"msg\":\"" + (Escaped(msg) + ("\"" + "}\n"))))));
    ExpectLit("{\"time\":\"", time + ("\"" + afterTime));
    ScanPlain(time, afterTime);
    ParseAfterTimeRoundTrip(time, name, site, msg);
  }

  /** The round trip of a record: reading the rendered line gives back the
      time text, the level name, the call site exactly when one was supplied
      (a null function name reads as the empty string), and the message with
      its trailing terminators stripped. */
  lemma ParseRenderLine(level: LogLevel, site: Option<Callsite>, msg: string, time: DateTime)
    ensures ParseLine(RenderLine(level, site, msg, time))
         == Some(ParsedLine(TimeText(time), LevelName(level), SiteView(site), StripTrailing(msg)))
  {
    TimeTextPlain(time);
    LevelNamePlain(level);
    ParseLayout(TimeText(time), LevelName(level), site, StripTrailing(msg));
  }

  /** The plain macros never produce call-site members; the `_F` macros
      always do. */
  lemma MacroSites(level: LogLevel, msg: string, time: DateTime, file: string, line: int, func: string)
    ensures ParseLine(RenderLine(level, PlainMacroSite(), msg, time))
         == Some(ParsedLine(TimeText(time), LevelName(level), None, StripTrailing(msg)))
    ensures ParseLine(RenderLine(level, CallsiteMacroSite(file, line, func), msg, time))
         == Some(ParsedLine(TimeText(time), LevelName(level), Some(ParsedSite(file, line, func)), StripTrailing(msg)))
  {
    ParseRenderLine(level, PlainMacroSite(), msg, time);
    ParseRenderLine(level, CallsiteMacroSite(file, line, func), msg, time);
  }

  /** No character below 0x20 occurs in the text. */
  predicate NoControl(s: string) {
    forall i :: 0 <= i < |s| ==> s[i] as int >= 0x20
  }

  /** The text is one record line: it ends with `}` and a newline, and no
      character before that newline is below 0x20 (so no other newline). */
  predicate RecordLine(s: string) {
    |s| >= 2 && s[|s| - 2] == '}' && s[|s| - 1] == '\n'
    && forall i :: 0 <= i < |s| - 1 ==> s[i] as int >= 0x20
  }

  lemma NoControlAppend(a: string, b: string)
    requires NoControl(a) && NoControl(b)
    ensures NoControl(a + b)
  {
    assert forall i :: |a| <= i < |a + b| ==> (a + b)[i] == b[i - |a|];
  }

  lemma RecordLineAppend(a: string, b: string)
    requires NoControl(a) && RecordLine(b)
    ensures RecordLine(a + b)
  {
    assert forall i :: |a| <= i < |a + b| ==> (a + b)[i] == b[i - |a|];
  }

  lemma SiteFieldsNoControl(site: Option<Callsite>)
    ensures NoControl(SiteFields(site))
  {
    if site.Some? {
      var c := site.value;
      EscapedHasNoControl(c.file);
      EscapedHasNoControl(FuncText(c));
      NoControlAppend(Escaped(FuncText(c)), "\"");
      NoControlAppend(",\"func\":\"", Escaped(FuncText(c)) + "\"");
      NoControlAppend(IntText(c.line), ",\"func\":\"" + (Escaped(FuncText(c)) + "\""));
      NoControlAppend(",\"line\":", IntText(c.line) + (",\"func\":\"" + (Escaped(FuncText(c)) + "\"")));
      NoControlAppend("\"", LineFuncFields(c));
      NoControlAppend(Escaped(c.file), "\"" + LineFuncFields(c));
      NoControlAppend(",\"file\":\"", Escaped(c.file) + ("\"" + LineFuncFields(c)));
    }
  }

  /** A record is exactly one line: for plain time and level texts and a
      body free of control characters, it starts with `{"time":"`, ends with
      `}` and a newline, and no newline or other control character occurs
      before that final newline. */
  lemma LayoutShape(time: string, name: string, site: Option<Callsite>, body: string)
    requires Plain(time) && Plain(name) && NoControl(body)
    ensures "{\"time\":\"" <= Layout(time, name, site, body)
    ensures RecordLine(Layout(time, name, site, body))
  {
    var t0 := "\"" + "}\n";
    var t1 := body + t0;
    var t2 := ",\"msg\":\"" + t1;
    var t3 := SiteFields(site) + t2;
    var t4 := "\"" + t3;
    var t5 := name + t4;
    var t6 := ",\"level\":\"" + t5;
    var t7 := "\"" + t6;
    var t8 := time + t7;
    assert RecordLine(t0);
    RecordLineAppend(body, t0);
    RecordLineAppend(",\"msg\":\"", t1);
    SiteFieldsNoControl(site);
    RecordLineAppend(SiteFields(site), t2);
    RecordLineAppend("\"", t3);
    RecordLineAppend(name, t4);
    RecordLineAppend(",\"level\":\"", t5);
    RecordLineAppend("\"", t6);
    RecordLineAppend(time, t7);
    RecordLineAppend("{\"time\":\"", t8);
  }

  /** Every rendered record has that shape, whatever its message holds. */
  lemma RenderLineShape(level: LogLevel, site: Option<Callsite>, msg: string, time: DateTime)
    ensures "{\"time\":\"" <= RenderLine(level, site, msg, time)
    ensures RecordLine(RenderLine(level, site, msg, time))
  {
    TimeTextPlain(time);
    LevelNamePlain(level);
    EscapedHasNoControl(StripTrailing(msg));
    LayoutShape(TimeText(time), LevelName(level), site, Escaped(StripTrailing(msg)));
  }
}
