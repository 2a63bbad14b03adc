/**
 * Server-sent events for streaming answers: each chunk of the answer
 * becomes one `data: <json>` event, and a last event with `done` set closes
 * the stream, carrying the error message when the stream failed.
 *
 * The JSON text is that of Python's `json.dumps` with its defaults
 * (`", "` and `": "` separators, every character outside printable ASCII
 * escaped). A reference client is modelled beside it: the JSON string
 * decoding of section 7 of RFC 8259 and the event-stream interpretation of
 * section 9.2.6 of the WHATWG HTML Living Standard.
 */
module Sse {
  import opened Wrappers
  import opened Seqs

  /** `StreamResponse`: a piece of the answer, and whether the stream is over. */
  datatype StreamResponse = StreamResponse(content: string, done: bool)

  // ---------------------------------------------------------------- JSON string escaping

  predicate Printable(c: char)
  {
    ' ' <= c <= '~'
  }

  predicate AllPrintable(s: string)
  {
    forall i :: 0 <= i < |s| ==> Printable(s[i])
  }

  /** A lower-case hexadecimal digit. */
  function HexDigit(d: nat): (c: char)
    requires d < 16
    ensures Printable(c)
  {
    if d < 10 then ('0' as int + d) as char else ('a' as int + d - 10) as char
  }

  /** The value of a hexadecimal digit of either case. */
  function HexValue(c: char): (r: Option<nat>)
    ensures r.Some? ==> r.value < 16
  {
    if '0' <= c <= '9' then Some(c as int - '0' as int)
    else if 'a' <= c <= 'f' then Some(c as int - 'a' as int + 10)
    else if 'A' <= c <= 'F' then Some(c as int - 'A' as int + 10)
    else None
  }

  lemma HexValueOfDigit(d: nat)
    requires d < 16
    ensures HexValue(HexDigit(d)) == Some(d)
  {
  }

  /** `'{:04x}'.format(n)`: four lower-case hexadecimal digits, most significant first. */
  function Hex4(n: nat): (r: string)
    requires n < 0x10000
    ensures |r| == 4
  {
    var q1 := n / 16;
    var q2 := q1 / 16;
    [HexDigit(q2 / 16), HexDigit(q2 % 16), HexDigit(q1 % 16), HexDigit(n % 16)]
  }

  /** Four hexadecimal digits read as a number. */
  function ParseHex4(s: string): (r: Option<nat>)
    requires |s| == 4
    ensures r.Some? ==> r.value < 0x10000
  {
    match (HexValue(s[0]), HexValue(s[1]), HexValue(s[2]), HexValue(s[3]))
    case (Some(a), Some(b), Some(c), Some(d)) => Some(((a * 16 + b) * 16 + c) * 16 + d)
    case _ => None
  }

  lemma ParseHex4Of(n: nat)
    requires n < 0x10000
    ensures ParseHex4(Hex4(n)) == Some(n)
  {
    var q1 := n / 16;
    var q2 := q1 / 16;
    HexValueOfDigit(q2 / 16);
    HexValueOfDigit(q2 % 16);
    HexValueOfDigit(q1 % 16);
    HexValueOfDigit(n % 16);
    assert ((q2 / 16 * 16 + q2 % 16) * 16 + q1 % 16) * 16 + n % 16 == n;
  }

  /** `\uXXXX` for a UTF-16 code unit. */
  function UEscape(n: nat): (r: string)
    requires n < 0x10000
    ensures |r| == 6 && r[0] == '\\' && r[1] == 'u' && r[2..] == Hex4(n)
  {
    "\\u" + Hex4(n)
  }

  /** The high and low surrogates of a character beyond the Basic Multilingual Plane. */
  function HighSurrogate(c: char): (r: nat)
    requires c as int >= 0x10000
    ensures 0xD800 <= r < 0xDC00
  {
    0xD800 + (c as int - 0x10000) / 0x400
  }

  function LowSurrogate(c: char): (r: nat)
    requires c as int >= 0x10000
    ensures 0xDC00 <= r < 0xE000
  {
    0xDC00 + (c as int - 0x10000) % 0x400
  }

  /**
   * How `json.dumps` writes one character of a string: quote and backslash
   * and the five named controls as two-character escapes, the rest of
   * printable ASCII as itself, anything else as `\uXXXX`, or as a
   * surrogate pair of them beyond U+FFFF.
   */
  function EscapeChar(c: char): (r: string)
    ensures |r| >= 1
    ensures r[0] == '\\' || (r == [c] && Printable(c) && c != '"' && c != '\\')
  {
    if c == '"' then "\\\""
    else if c == '\\' then "\\\\"
    else if c == '\n' then "\\n"
    else if c == '\r' then "\\r"
    else if c == '\t' then "\\t"
    else if c == '\U{8}' then "\\b"
    else if c == '\U{C}' then "\\f"
    else if Printable(c) then [c]
    else if c as int < 0x10000 then UEscape(c as int)
    else UEscape(HighSurrogate(c)) + UEscape(LowSurrogate(c))
  }

  /** The escaped body of a JSON string: every character escaped in turn. */
  function Escape(s: string): string
  {
    if s == [] then "" else EscapeChar(s[0]) + Escape(s[1..])
  }

  lemma UEscapePrintable(n: nat)
    requires n < 0x10000
    ensures AllPrintable(UEscape(n))
  {
    var q1 := n / 16;
    var q2 := q1 / 16;
    assert UEscape(n) == ['\\', 'u', HexDigit(q2 / 16), HexDigit(q2 % 16), HexDigit(q1 % 16), HexDigit(n % 16)];
  }

  lemma EscapeCharPrintable(c: char)
    ensures AllPrintable(EscapeChar(c))
  {
    if c == '"' || c == '\\' || c == '\n' || c == '\r' || c == '\t' || c == '\U{8}' || c == '\U{C}' || Printable(c) {
    } else if c as int < 0x10000 {
      UEscapePrintable(c as int);
    } else {
      UEscapePrintable(HighSurrogate(c));
      UEscapePrintable(LowSurrogate(c));
    }
  }

  /** The escaped text is printable ASCII: in particular it holds no line break. */
  lemma {:induction false} EscapePrintable(s: string)
    ensures AllPrintable(Escape(s))
  {
    if s != [] {
      EscapeCharPrintable(s[0]);
      EscapePrintable(s[1..]);
    }
  }

  // ---------------------------------------------------------------- JSON string decoding

  /** The character a two-character escape stands for. */
  function SimpleEscape(e: char): Option<char>
  {
    match e
    case '"' => Some('"')
    case '\\' => Some('\\')
    case '/' => Some('/')
    case 'b' => Some('\U{8}')
    case 'f' => Some('\U{C}')
    case 'n' => Some('\n')
    case 'r' => Some('\r')
    case 't' => Some('\t')
    case _ => None
  }

  /**
   * The escape at the start of `s`: the character it denotes and its
   * length. A high surrogate must be followed by an escaped low surrogate;
   * a lone surrogate denotes no character.
   */
  function Unit(s: string): (r: Option<(char, nat)>)
    ensures r.Some? ==> 2 <= r.value.1 <= |s|
  {
    if |s| < 2 || s[0] != '\\' then None
    else if s[1] != 'u' then
      match SimpleEscape(s[1])
      case None => None
      case Some(c) => Some((c, 2))
    else if |s| < 6 then None
    else
      match ParseHex4(s[2..6])
      case None => None
      case Some(v) =>
        if 0xD800 <= v < 0xDC00 then Pair(s, v)
        else if 0xDC00 <= v < 0xE000 then None
        else Some((v as char, 6))
  }

  /** A high surrogate `v` at the start of `s`, completed by the low surrogate escaped after it. */
  function Pair(s: string, v: nat): (r: Option<(char, nat)>)
    requires 0xD800 <= v < 0xDC00
    ensures r.Some? ==> r.value.1 == 12 <= |s|
  {
    if |s| < 12 || s[6] != '\\' || s[7] != 'u' then None
    else
      match ParseHex4(s[8..12])
      case None => None
      case Some(w) =>
        if 0xDC00 <= w < 0xE000 then Some(((0x10000 + (v - 0xD800) * 0x400 + (w - 0xDC00)) as char, 12))
        else None
  }

  /**
   * The rest of a JSON string after its opening quote: the characters up
   * to the closing quote, and what follows that quote. Raw control
   * characters and malformed escapes make it fail.
   */
  function DecodeFrom(s: string): Option<(string, string)>
    decreases |s|
  {
    if s == [] then None
    else if s[0] == '"' then Some(("", s[1..]))
    else if s[0] == '\\' then
      match Unit(s)
      case None => None
      case Some(u) =>
        match DecodeFrom(s[u.1..])
        case None => None
        case Some(d) => Some(([u.0] + d.0, d.1))
    else if s[0] < ' ' then None
    else
      match DecodeFrom(s[1..])
      case None => None
      case Some(d) => Some(([s[0]] + d.0, d.1))
  }

  lemma UnitOfSurrogates(c: char, rest: string)
    requires c as int >= 0x10000
    ensures Unit(UEscape(HighSurrogate(c)) + UEscape(LowSurrogate(c)) + rest) == Some((c, 12))
  {
    var hi := HighSurrogate(c);
    var lo := LowSurrogate(c);
    var s := UEscape(hi) + UEscape(lo) + rest;
    assert s[2..6] == Hex4(hi);
    assert s[6] == '\\' && s[7] == 'u';
    assert s[8..12] == Hex4(lo);
    ParseHex4Of(hi);
    ParseHex4Of(lo);
    var m := c as int - 0x10000;
    assert 0x10000 + (hi - 0xD800) * 0x400 + (lo - 0xDC00) == 0x10000 + m / 0x400 * 0x400 + m % 0x400 == c as int;
  }

  lemma UnitOfBmp(c: char, rest: string)
    requires c as int < 0x10000
    ensures Unit(UEscape(c as int) + rest) == Some((c, 6))
  {
    var s := UEscape(c as int) + rest;
    assert s[2..6] == Hex4(c as int);
    ParseHex4Of(c as int);
  }

  /** An escaped character is read back whole by `Unit`. */
  lemma UnitOfEscape(c: char, rest: string)
    requires EscapeChar(c)[0] == '\\'
    ensures Unit(EscapeChar(c) + rest) == Some((c, |EscapeChar(c)|))
  {
    if c == '"' || c == '\\' || c == '\n' || c == '\r' || c == '\t' || c == '\U{8}' || c == '\U{C}' {
    } else if c as int < 0x10000 {
      UnitOfBmp(c, rest);
    } else {
      UnitOfSurrogates(c, rest);
    }
  }

  /** An escaped character is decoded back before whatever follows it. */
  lemma DecodeEscapedChar(c: char, tail: string, x: string, y: string)
    requires DecodeFrom(tail) == Some((x, y))
    ensures DecodeFrom(EscapeChar(c) + tail) == Some(([c] + x, y))
  {
    var e := EscapeChar(c);
    assert (e + tail)[|e|..] == tail;
    if e[0] == '\\' {
      UnitOfEscape(c, tail);
    }
  }

  /** Decoding an escaped string up to its closing quote gives the string back, and leaves what follows. */
  lemma {:induction false} DecodeEscaped(s: string, rest: string)
    ensures DecodeFrom(Escape(s) + ("\"" + rest)) == Some((s, rest))
  {
    if s == [] {
      assert Escape(s) + ("\"" + rest) == "\"" + rest;
      assert ("\"" + rest)[1..] == rest;
    } else {
      var tail := Escape(s[1..]) + ("\"" + rest);
      assert Escape(s) + ("\"" + rest) == EscapeChar(s[0]) + tail;
      DecodeEscaped(s[1..], rest);
      DecodeEscapedChar(s[0], tail, s[1..], rest);
      assert [s[0]] + s[1..] == s;
    }
  }

  // ---------------------------------------------------------------- the event payload

  function ContentPrefix(): string
  {
    "{\"content\": \""
  }

  function DoneInfix(): string
  {
    ", \"done\": "
  }

  function BoolText(b: bool): string
  {
    if b then "true" else "false"
  }

  /** `json.dumps(response.model_dump())`. */
  function Dumps(r: StreamResponse): string
  {
    ContentPrefix() + Escape(r.content) + Closing(r.done)
  }

  /** What follows the content: its closing quote, then `done`. */
  function Closing(done: bool): string
  {
    "\"" + (DoneInfix() + BoolText(done) + "}")
  }

  /** Every payload is printable ASCII. */
  lemma DumpsPrintable(r: StreamResponse)
    ensures AllPrintable(Dumps(r))
  {
    EscapePrintable(r.content);
    assert AllPrintable(ContentPrefix());
    assert AllPrintable(Closing(r.done));
    PrintableConcat(ContentPrefix(), Escape(r.content));
    PrintableConcat(ContentPrefix() + Escape(r.content), Closing(r.done));
  }

  lemma PrintableConcat(a: string, b: string)
    requires AllPrintable(a) && AllPrintable(b)
    ensures AllPrintable(a + b)
  {
    forall i | 0 <= i < |a + b|
      ensures Printable((a + b)[i])
    {
      if i >= |a| {
        assert (a + b)[i] == b[i - |a|];
      }
    }
  }

  /** A client's reading of the payload: the JSON object with a string `content` and a boolean `done`. */
  function ParsePayload(d: string): Option<StreamResponse>
  {
    var p := ContentPrefix();
    if |d| < |p| || d[..|p|] != p then None
    else
      match DecodeFrom(d[|p|..])
      case None => None
      case Some(x) =>
        if x.1 == DoneInfix() + BoolText(true) + "}" then Some(StreamResponse(x.0, true))
        else if x.1 == DoneInfix() + BoolText(false) + "}" then Some(StreamResponse(x.0, false))
        else None
  }

  /** Every payload reads back as the response it was made from. */
  lemma ParsePayloadDumps(r: StreamResponse)
    ensures ParsePayload(Dumps(r)) == Some(r)
  {
    var p := ContentPrefix();
    var rest := DoneInfix() + BoolText(r.done) + "}";
    var d := Dumps(r);
    DumpsParts(r);
    PrefixSplit(p, Escape(r.content) + ("\"" + rest));
    DecodeEscaped(r.content, rest);
    ParsePayloadOf(d, r.content, r.done);
  }

  lemma DumpsParts(r: StreamResponse)
    ensures Dumps(r) == ContentPrefix() + (Escape(r.content) + ("\"" + (DoneInfix() + BoolText(r.done) + "}")))
  {
  }

  lemma PrefixSplit(p: string, x: string)
    ensures |p + x| >= |p| && (p + x)[..|p|] == p && (p + x)[|p|..] == x
  {
  }

  /** A payload that opens with the content key and whose string is followed by `done` reads as that response. */
  lemma ParsePayloadOf(d: string, content: string, done: bool)
    requires |d| >= |ContentPrefix()| && d[..|ContentPrefix()|] == ContentPrefix()
    requires DecodeFrom(d[|ContentPrefix()|..]) == Some((content, DoneInfix() + BoolText(done) + "}"))
    ensures ParsePayload(d) == Some(StreamResponse(content, done))
  {
    if !done {
      assert |DoneInfix() + BoolText(done) + "}"| != |DoneInfix() + BoolText(true) + "}"|;
    }
  }

  // ---------------------------------------------------------------- events

  /** `f"data: {payload}\n\n"`. */
  function Frame(payload: string): string
  {
    "data: " + payload + "\n\n"
  }

  function Event(r: StreamResponse): string
  {
    Frame(Dumps(r))
  }

  /** The closing response: empty when the stream ended, the error's message when it raised. */
  function Final(error: Option<string>): (r: StreamResponse)
    ensures r.done
    ensures error.None? ==> r.content == ""
    ensures error.Some? ==> r.content == error.value
  {
    StreamResponse(if error.Some? then error.value else "", true)
  }

  /**
   * `sse_event_generator` over the chunks the stream yielded before it
   * ended (`error` is `None`) or raised (`error` is the exception's
   * message): one response per chunk, then the closing one.
   */
  function Responses(chunks: seq<string>, error: Option<string>): (rs: seq<StreamResponse>)
    ensures |rs| == |chunks| + 1
  {
    if chunks == [] then [Final(error)]
    else [StreamResponse(chunks[0], false)] + Responses(chunks[1..], error)
  }

  function EventsOf(rs: seq<StreamResponse>): (es: seq<string>)
    ensures |es| == |rs|
  {
    if rs == [] then [] else [Event(rs[0])] + EventsOf(rs[1..])
  }

  /** The events the generator yields, in order. */
  function Events(chunks: seq<string>, error: Option<string>): seq<string>
  {
    EventsOf(Responses(chunks, error))
  }

  /**
   * One event per chunk, in order, not done; then exactly one closing
   * event, done, empty or carrying the error; nothing after it.
   */
  lemma {:induction false} EventsInOrder(chunks: seq<string>, error: Option<string>)
    ensures |Events(chunks, error)| == |chunks| + 1
    ensures forall i :: 0 <= i < |chunks| ==>
      Events(chunks, error)[i] == "data: " + Dumps(StreamResponse(chunks[i], false)) + "\n\n"
    ensures Events(chunks, error)[|chunks|] == "data: " + Dumps(Final(error)) + "\n\n"
  {
    if chunks != [] {
      EventsInOrder(chunks[1..], error);
      var rest := Events(chunks[1..], error);
      assert Events(chunks, error) == [Event(StreamResponse(chunks[0], false))] + rest;
    }
  }

  /** A chunk's payload: `{"content": <chunk>, "done": false}`. */
  lemma ChunkPayload(chunk: string)
    ensures Dumps(StreamResponse(chunk, false)) == "{\"content\": \"" + Escape(chunk) + "\", \"done\": false}"
  {
  }

  // ---------------------------------------------------------------- reading the stream

  predicate IsLineBreak(c: char)
  {
    c == '\n' || c == '\r'
  }

  predicate NoLineBreak(s: string)
  {
    forall i :: 0 <= i < |s| ==> !IsLineBreak(s[i])
  }

  /** Where the first line of `s` ends: at the first CR or LF, or at the end. */
  function LineEnd(s: string): (k: nat)
    ensures k <= |s|
    ensures k < |s| ==> IsLineBreak(s[k])
  {
    if s == [] || IsLineBreak(s[0]) then 0 else 1 + LineEnd(s[1..])
  }

  lemma {:induction false} LineEndAfter(x: string, rest: string)
    requires NoLineBreak(x)
    ensures LineEnd(x + rest) == |x| + LineEnd(rest)
  {
    if x != [] {
      assert (x + rest)[1..] == x[1..] + rest;
      LineEndAfter(x[1..], rest);
    } else {
      assert x + rest == rest;
    }
  }

  /** The position of the first colon of a line, or its length. */
  function FirstColon(line: string): (k: nat)
    ensures k <= |line|
  {
    if line == [] || line[0] == ':' then 0 else 1 + FirstColon(line[1..])
  }

  /** A line's field name and value: split at the first colon, one leading space dropped from the value. */
  function FieldValue(line: string): (string, string)
  {
    var k := FirstColon(line);
    if k == |line| then (line, "")
    else
      var value := line[k + 1..];
      (line[..k], if value != [] && value[0] == ' ' then value[1..] else value)
  }

  /** The data buffer without its last line feed. */
  function DropLastLineFeed(b: string): string
  {
    if b != [] && b[|b| - 1] == '\n' then b[..|b| - 1] else b
  }

  /**
   * The data of the events a client dispatches from `s` with `buffer`
   * pending: lines end at CR, LF or CRLF; a blank line dispatches the
   * buffer unless it is empty; a line starting with a colon is a comment; a
   * `data` field appends its value and a line feed; other fields do not
   * touch the data. An unterminated last line and an undispatched buffer
   * are dropped at the end of the stream.
   */
  function ParseStream(s: string, buffer: string): seq<string>
    decreases |s|
  {
    var k := LineEnd(s);
    if k == |s| then []
    else
      var next := if s[k] == '\r' && k + 1 < |s| && s[k + 1] == '\n' then k + 2 else k + 1;
      var line := s[..k];
      if line == "" then
        if buffer == "" then ParseStream(s[next..], "")
        else [DropLastLineFeed(buffer)] + ParseStream(s[next..], "")
      else if line[0] == ':' then ParseStream(s[next..], buffer)
      else if FieldValue(line).0 == "data" then ParseStream(s[next..], buffer + FieldValue(line).1 + "\n")
      else ParseStream(s[next..], buffer)
  }

  lemma DataLine(p: string)
    ensures FieldValue("data: " + p) == ("data", p)
  {
    var line := "data: " + p;
    assert line[4..] == ": " + p;
    assert FirstColon(line[4..]) == 0;
    assert line[3..][1..] == line[4..];
    assert FirstColon(line[3..]) == 1;
    assert line[2..][1..] == line[3..];
    assert FirstColon(line[2..]) == 2;
    assert line[1..][1..] == line[2..];
    assert FirstColon(line[1..]) == 3;
    assert FirstColon(line) == 4;
    assert line[5..] == " " + p;
    assert line[..4] == "data";
  }

  /** A terminated `data` line appends its value and a line feed to the buffer. */
  lemma DataFieldLine(line: string, value: string, rest: string, buffer: string)
    requires NoLineBreak(line) && line != "" && line[0] != ':' && FieldValue(line) == ("data", value)
    ensures ParseStream(line + ("\n" + rest), buffer) == ParseStream(rest, buffer + value + "\n")
  {
    var s := line + ("\n" + rest);
    LineEndAfter(line, "\n" + rest);
    assert LineEnd("\n" + rest) == 0;
    assert s[|line|] == '\n';
    assert s[..|line|] == line;
    assert s[|line| + 1..] == rest;
  }

  lemma DataLineNoBreak(p: string)
    requires NoLineBreak(p)
    ensures NoLineBreak("data: " + p)
  {
    var head := "data: " + p;
    forall i | 0 <= i < |head|
      ensures !IsLineBreak(head[i])
    {
      if i >= 6 {
        assert head[i] == p[i - 6];
      }
    }
  }

  /** The `data` line of a frame puts its payload and a line feed in the buffer. */
  lemma FrameDataLine(p: string, rest: string)
    requires NoLineBreak(p)
    ensures ParseStream(Frame(p) + rest, "") == ParseStream("\n" + rest, p + "\n")
  {
    var head := "data: " + p;
    assert Frame(p) + rest == head + ("\n" + ("\n" + rest));
    DataLineNoBreak(p);
    DataLine(p);
    DataFieldLine(head, p, "\n" + rest, "");
    assert "" + p + "\n" == p + "\n";
  }

  /** A blank line dispatches a non-empty buffer. */
  lemma BlankLineDispatches(buffer: string, rest: string)
    requires buffer != ""
    ensures ParseStream("\n" + rest, buffer) == [DropLastLineFeed(buffer)] + ParseStream(rest, "")
  {
    var s := "\n" + rest;
    assert LineEnd(s) == 0;
    assert s[1..] == rest;
  }

  /** A frame whose payload has no line break is read as one event carrying that payload. */
  lemma ParseFrame(p: string, rest: string)
    requires NoLineBreak(p)
    ensures ParseStream(Frame(p) + rest, "") == [p] + ParseStream(rest, "")
  {
    FrameDataLine(p, rest);
    BlankLineDispatches(p + "\n", rest);
    assert DropLastLineFeed(p + "\n") == p;
  }

  /**
   * A client reading the written-out events gets one payload per event,
   * and each payload reads back as the response the event was made from.
   */
  lemma {:induction false} ClientReadsResponses(rs: seq<StreamResponse>)
    ensures |ParseStream(Concat(EventsOf(rs)), "")| == |rs|
    ensures forall i :: 0 <= i < |rs| ==> ParsePayload(ParseStream(Concat(EventsOf(rs)), "")[i]) == Some(rs[i])
  {
    if rs != [] {
      ClientReadsResponses(rs[1..]);
      var tail := Concat(EventsOf(rs[1..]));
      assert Concat(EventsOf(rs)) == Frame(Dumps(rs[0])) + tail;
      DumpsPrintable(rs[0]);
      ParseFrame(Dumps(rs[0]), tail);
      ParsePayloadDumps(rs[0]);
    }
  }

  /**
   * The stream a client reads back from `sse_event_generator` is the
   * chunks, not done, in order, then the closing response.
   */
  lemma ClientReadsStream(chunks: seq<string>, error: Option<string>)
    ensures var data := ParseStream(Concat(Events(chunks, error)), "");
      |data| == |chunks| + 1 &&
      (forall i :: 0 <= i < |chunks| ==> ParsePayload(data[i]) == Some(StreamResponse(chunks[i], false))) &&
      ParsePayload(data[|chunks|]) == Some(Final(error))
  {
    ClientReadsResponses(Responses(chunks, error));
    ResponsesAt(chunks, error);
  }

  lemma {:induction false} ResponsesAt(chunks: seq<string>, error: Option<string>)
    ensures forall i :: 0 <= i < |chunks| ==> Responses(chunks, error)[i] == StreamResponse(chunks[i], false)
    ensures Responses(chunks, error)[|chunks|] == Final(error)
  {
    if chunks != [] {
      ResponsesAt(chunks[1..], error);
    }
  }
}
