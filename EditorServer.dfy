/**
 * The editor's HTTP front end: the byte-by-byte request reader, the routing of
 * a request to an endpoint, the event-stream check, and the server's table of
 * open streams and latest statistics.
 */
module EditorRequests {
  import opened Wrappers
  import opened JavaText
  import opened JavaStrings

  datatype RequestLine = RequestLine(verb: string, uri: string, version: string)

  datatype Header = Header(name: string, value: string)

  /** A parsed request; the request line is absent when no full line arrived. */
  datatype Request = Request(line: Option<RequestLine>, headers: seq<Header>)

  /**
   * What read_request ends with: a request, the null it returns on a bad
   * request line, or the exception a header line without ':' throws.
   */
  datatype Outcome = Parsed(request: Request) | Invalid | Threw

  const Cr: Byte := 0x0D
  const Lf: Byte := 0x0A
  const EolBytes: seq<Byte> := [Cr, Lf]
  const EomBytes: seq<Byte> := [Cr, Lf, Cr, Lf]

  /** The request line's text: method, URI and version separated by single spaces. */
  function LineText(l: RequestLine): string
  {
    l.verb + " " + l.uri + " " + l.version
  }

  /**
   * `t.split(" ", 3)` with exactly three tokens: the text up to the first
   * space, the text up to the second, and all the rest.
   */
  function SplitTokens(t: string): (r: Option<RequestLine>)
    ensures r.Some? ==> ' ' !in r.value.verb && ' ' !in r.value.uri && t == LineText(r.value)
  {
    match IndexOf(t, ' ')
    case None => None
    case Some(i) =>
      var tail := t[i + 1..];
      (match IndexOf(tail, ' ')
       case None => None
       case Some(j) =>
         var l := RequestLine(t[..i], tail[..j], tail[j + 1..]);
         SplitAround(t, i);
         SplitAround(tail, j);
         JoinWithSpaces(l.verb, l.uri, l.version);
         Some(l))
  }

  lemma JoinWithSpaces(a: string, b: string, c: string)
    ensures a + [' '] + (b + [' '] + c) == a + " " + b + " " + c
  {
  }

  /** `raw.trim().split(" ", 3)`, None where the source finds fewer than three tokens. */
  function SplitRequestLine(raw: string): (r: Option<RequestLine>)
    ensures r.Some? ==> ' ' !in r.value.verb && ' ' !in r.value.uri
    ensures r.Some? ==> Trim(raw) == LineText(r.value)
  {
    SplitTokens(Trim(raw))
  }

  /** The request line splits exactly when its trimmed text holds two spaces. */
  lemma SplitRequestLineNeedsTwoSpaces(raw: string)
    ensures SplitRequestLine(raw).Some? <==>
      exists i, j :: 0 <= i < j < |Trim(raw)| && Trim(raw)[i] == ' ' && Trim(raw)[j] == ' '
  {
    var t := Trim(raw);
    if exists i, j :: 0 <= i < j < |t| && t[i] == ' ' && t[j] == ' ' {
      var i, j :| 0 <= i < j < |t| && t[i] == ' ' && t[j] == ' ';
      var k := IndexOf(t, ' ').value;
      assert k <= i;
      assert t[k + 1..][j - k - 1] == ' ';
    }
  }

  /** A request line written as `method uri version` reads back as itself. */
  lemma SplitOfLineText(pre: string, l: RequestLine, post: string)
    requires ' ' !in l.verb && ' ' !in l.uri && IsTrimmed(LineText(l))
    requires AllBlank(pre) && AllBlank(post)
    ensures SplitRequestLine(pre + LineText(l) + post) == Some(l)
  {
    TrimOfPadded(pre, LineText(l), post);
    SplitTokensOfLineText(l);
  }

  lemma SplitTokensOfLineText(l: RequestLine)
    requires ' ' !in l.verb && ' ' !in l.uri
    ensures SplitTokens(LineText(l)) == Some(l)
  {
    var tail := l.uri + [' '] + l.version;
    JoinWithSpaces(l.verb, l.uri, l.version);
    IndexOfAfter(l.verb, ' ', tail);
    Around(l.verb, ' ', tail);
    IndexOfAfter(l.uri, ' ', l.version);
    Around(l.uri, ' ', l.version);
  }

  /**
   * `raw.split(":", 2)` and the two trimmed tokens; None where the source
   * reads `tokens[1]` of a one-token split, which throws.
   */
  function SplitHeader(raw: string): (r: Option<Header>)
    ensures r.None? <==> ':' !in raw
    ensures r.Some? ==> ':' !in r.value.name && IsTrimmed(r.value.name) && IsTrimmed(r.value.value)
  {
    match IndexOf(raw, ':')
    case None => None
    case Some(i) =>
      TrimKeepsAbsent(raw[..i], ':');
      Some(Header(Trim(raw[..i]), Trim(raw[i + 1..])))
  }

  /** The text of a header line as a client writes it. */
  function HeaderText(h: Header): string
  {
    h.name + ": " + h.value
  }

  /** A header line `name: value` reads back as the header. */
  lemma {:induction false} SplitOfHeaderText(h: Header, post: string)
    requires ':' !in h.name && IsTrimmed(h.name) && IsTrimmed(h.value)
    requires AllBlank(post)
    ensures SplitHeader(HeaderText(h) + post) == Some(h)
  {
    var rest := " " + h.value + post;
    HeaderTextParts(h, post);
    SplitAtFirstColon(h.name, rest);
    TrimmedAlone(h.name);
    assert AllBlank(" ");
    TrimOfPadded(" ", h.value, post);
    assert Trim(rest) == h.value;
    assert SplitHeader(h.name + [':'] + rest) == Some(Header(h.name, h.value));
    assert Header(h.name, h.value) == h;
  }

  /** A header line is its name, a colon, and the rest of the line. */
  lemma HeaderTextParts(h: Header, post: string)
    ensures HeaderText(h) + post == h.name + [':'] + (" " + h.value + post)
  {
  }

  /** A line whose name part has no colon splits at the colon after the name. */
  lemma SplitAtFirstColon(name: string, rest: string)
    requires ':' !in name
    ensures SplitHeader(name + [':'] + rest) == Some(Header(Trim(name), Trim(rest)))
  {
    var raw := name + [':'] + rest;
    IndexOfAfter(name, ':', rest);
    assert raw[..|name|] == name && raw[|name| + 1..] == rest;
  }

  /** Trimming text that is already trimmed changes nothing. */
  lemma TrimmedAlone(t: string)
    requires IsTrimmed(t)
    ensures Trim(t) == t
  {
    assert [] + t + [] == t;
    TrimOfPadded([], t, []);
  }

  /** Reader status: still reading, stopped at the blank line, or stopped by an error. */
  datatype Status = Reading | AtEnd | Rejected | Thrown

  /**
   * The state of read_request's loop: the last four bytes read (eom_buffer),
   * the bytes of the current line (input_buffer), what has been parsed so far.
   */
  datatype Reader = Reader(window: seq<Byte>, pending: seq<Byte>, line: Option<RequestLine>,
                           headers: seq<Header>, status: Status)

  const Start: Reader := Reader([0, 0, 0, 0], [], None, [], Reading)

  predicate IsReader(st: Reader)
  {
    |st.window| == 4
  }

  /** A complete line: the request line first, header lines after it. */
  function HandleLine(st: Reader, raw: string): Reader
  {
    if st.line.None? then
      match SplitRequestLine(raw)
      case None => st.(status := Rejected)
      case Some(l) => st.(line := Some(l))
    else
      match SplitHeader(raw)
      case None => st.(status := Thrown)
      case Some(h) => st.(headers := st.headers + [h])
  }

  /** One pass of the loop: shift the byte in, then check for the blank line and for a line end. */
  function Step(st: Reader, b: Byte): (r: Reader)
    requires IsReader(st)
    ensures IsReader(r)
  {
    var window := st.window[1..] + [b];
    var pending := st.pending + [b];
    if window == EomBytes then st.(window := window, pending := pending, status := AtEnd)
    else if window[2..] == EolBytes then HandleLine(st.(window := window, pending := []), Text(pending))
    else st.(window := window, pending := pending)
  }

  /** The loop over the whole input: it stops at the end of input or once the status leaves Reading. */
  function Run(st: Reader, input: seq<Byte>): (r: Reader)
    requires IsReader(st)
    ensures IsReader(r)
    decreases |input|
  {
    if st.status != Reading || |input| == 0 then st else Run(Step(st, input[0]), input[1..])
  }

  /** read_request on the bytes the client sends. */
  function Parse(input: seq<Byte>): Outcome
  {
    var st := Run(Start, input);
    match st.status
    case Rejected => Invalid
    case Thrown => Threw
    case _ => Parsed(Request(st.line, st.headers))
  }

  /**
   * read_request: bytes are consumed one at a time while no error and no
   * blank line has been seen; `eom` holds the last four bytes.
   */
  method ReadRequest(input: seq<Byte>) returns (outcome: Outcome)
    ensures outcome == Parse(input)
  {
    var i := 0;
    var buffer: seq<Byte> := [];
    var eom := new Byte[4](_ => 0);
    var atEnd, error := false, false;
    var line: Option<RequestLine> := None;
    var headers: seq<Header> := [];
    ghost var st := Start;
    assert eom[..] == st.window;
    while !error && !atEnd && i < |input|
      invariant 0 <= i <= |input|
      invariant eom.Length == 4 && IsReader(st)
      invariant st.window == eom[..] && st.pending == buffer && st.line == line && st.headers == headers
      invariant st.status == if error then Rejected else if atEnd then AtEnd else Reading
      invariant Run(Start, input) == Run(st, input[i..])
    {
      var next := input[i];
      RunFirst(st, input, i);
      st := Step(st, next);
      i := i + 1;
      buffer := buffer + [next];
      ShiftIn(eom, next);
      atEnd := eom[..] == EomBytes;
      var eol := eom[2..] == EolBytes;
      if !atEnd && eol {
        var raw := Text(buffer);
        buffer := [];
        if line.None? {
          var tokens := SplitRequestLine(raw);
          if tokens.None? {
            error := true;
            continue;
          }
          line := tokens;
        } else {
          var header := SplitHeader(raw);
          if header.None? {
            return Threw;
          }
          headers := headers + [header.value];
        }
      }
    }
    if error {
      return Invalid;
    }
    return Parsed(Request(line, headers));
  }

  /** Moves the last three bytes of the window forward and puts b behind them. */
  method ShiftIn(eom: array<Byte>, b: Byte)
    requires eom.Length == 4
    modifies eom
    ensures eom[..] == old(eom[..])[1..] + [b]
  {
    eom[0], eom[1], eom[2], eom[3] := eom[1], eom[2], eom[3], b;
  }

  /** Running from position i of the input takes one step on the byte there. */
  lemma RunFirst(st: Reader, input: seq<Byte>, i: nat)
    requires IsReader(st) && st.status == Reading && i < |input|
    ensures Run(st, input[i..]) == Run(Step(st, input[i]), input[i + 1..])
  {
    assert input[i..][0] == input[i] && input[i..][1..] == input[i + 1..];
  }



  /** The last four bytes of s. */
  function Last4<T>(s: seq<T>): seq<T>
    requires |s| >= 4
  {
    s[|s| - 4..]
  }

  /** Running over a concatenation is running over each part in turn. */
  lemma {:induction false} RunConcat(st: Reader, a: seq<Byte>, b: seq<Byte>)
    requires IsReader(st)
    ensures Run(st, a + b) == Run(Run(st, a), b)
    decreases |a|
  {
    if |a| == 0 {
      assert a + b == b;
    } else if st.status == Reading {
      assert (a + b)[0] == a[0];
      assert (a + b)[1..] == a[1..] + b;
      RunConcat(Step(st, a[0]), a[1..], b);
    }
  }

  /** Once reading has stopped, later bytes change nothing. */
  lemma RunStopped(st: Reader, input: seq<Byte>)
    requires IsReader(st) && st.status != Reading
    ensures Run(st, input) == st
  {
  }

  /** Everything after the point where reading stops is ignored. */
  lemma ParseIgnoresRest(prefix: seq<Byte>, rest: seq<Byte>)
    requires Run(Start, prefix).status != Reading
    ensures Parse(prefix + rest) == Parse(prefix)
  {
    RunConcat(Start, prefix, rest);
  }

  /** Reading one byte other than LF from a reader that is still reading. */
  lemma FeedOne(st: Reader, bytes: seq<Byte>, rest: seq<Byte>)
    requires IsReader(st) && st.status == Reading
    requires |bytes| > 0 && bytes[0] != Lf
    ensures Run(st, bytes + rest) ==
      Run(st.(window := st.window[1..] + [bytes[0]], pending := st.pending + [bytes[0]]), bytes[1..] + rest)
  {
    StepPlain(st, bytes[0]);
    assert (bytes + rest)[0] == bytes[0];
    assert (bytes + rest)[1..] == bytes[1..] + rest;
  }

  lemma {:induction false} FeedWithoutLf(st: Reader, bytes: seq<Byte>, rest: seq<Byte>)
    requires IsReader(st) && st.status == Reading
    requires Lf !in bytes
    ensures Run(st, bytes + rest) ==
      Run(st.(window := Last4(st.window + bytes), pending := st.pending + bytes), rest)
    decreases |bytes|
  {
    var target := st.(window := Last4(st.window + bytes), pending := st.pending + bytes);
    if |bytes| == 0 {
      calc {
        Run(st, bytes + rest);
        { assert bytes + rest == rest; }
        Run(st, rest);
        { assert st.window + bytes == st.window && st.pending + bytes == st.pending; }
        Run(target, rest);
      }
    } else {
      var b := bytes[0];
      var next := st.(window := st.window[1..] + [b], pending := st.pending + [b]);
      var after := next.(window := Last4(next.window + bytes[1..]), pending := next.pending + bytes[1..]);
      calc {
        Run(st, bytes + rest);
        { FeedOne(st, bytes, rest); }
        Run(next, bytes[1..] + rest);
        { FeedWithoutLf(next, bytes[1..], rest); }
        Run(after, rest);
        { Last4Shift(st.window, bytes);
          AppendFirst(st.pending, bytes); }
        Run(target, rest);
      }
    }
  }


  /** A byte other than LF ends neither a line nor the request: it is only shifted in. */
  lemma StepPlain(st: Reader, b: Byte)
    requires IsReader(st) && b != Lf
    ensures Step(st, b) == st.(window := st.window[1..] + [b], pending := st.pending + [b])
  {
    var window := st.window[1..] + [b];
    assert window[3] == b;
  }

  /**
   * A line with no line feed in it, ended by CR LF, is handed over whole as
   * soon as its LF arrives, provided the byte before the CR is no LF.
   */
  lemma ReadLine(st: Reader, t: seq<Byte>, rest: seq<Byte>)
    requires IsReader(st) && st.status == Reading && st.pending == []
    requires Lf !in t
    requires |t| > 0 || st.window[3] != Lf
    ensures Run(st, t + EolBytes + rest) ==
      Run(HandleLine(st.(window := Last4(st.window + t + EolBytes), pending := []), Text(t + EolBytes)), rest)
  {
    var body := t + [Cr];
    var mid := st.(window := Last4(st.window + body), pending := st.pending + body);
    var window := Last4(st.window + t + EolBytes);
    calc {
      Run(st, t + EolBytes + rest);
      { SplitEol(t, rest); }
      Run(st, body + ([Lf] + rest));
      { FeedWithoutLf(st, body, [Lf] + rest); }
      Run(mid, [Lf] + rest);
      { assert ([Lf] + rest)[0] == Lf && ([Lf] + rest)[1..] == rest; }
      Run(Step(mid, Lf), rest);
      { StepEndsLine(st, t, mid); }
      Run(HandleLine(st.(window := window, pending := []), Text(t + EolBytes)), rest);
    }
  }

  /** The LF after a CR ends the line read so far, and not the request unless the line is empty. */
  lemma StepEndsLine(st: Reader, t: seq<Byte>, mid: Reader)
    requires IsReader(st) && st.status == Reading && st.pending == []
    requires Lf !in t
    requires |t| > 0 || st.window[3] != Lf
    requires mid == st.(window := Last4(st.window + t + [Cr]), pending := t + [Cr])
    ensures Step(mid, Lf) ==
      HandleLine(st.(window := Last4(st.window + t + EolBytes), pending := []), Text(t + EolBytes))
  {
    var window := mid.window[1..] + [Lf];
    ShiftLast4(st.window + t, Cr, Lf);
    AppendEol(st.window + t);
    AppendEol(t);
    assert window != EomBytes by {
      if |t| > 0 {
        assert t[|t| - 1] != Lf;
      }
    }
  }

  lemma Last4Shift<T>(w: seq<T>, bytes: seq<T>)
    requires |w| == 4 && |bytes| > 0
    ensures Last4(w[1..] + [bytes[0]] + bytes[1..]) == Last4(w + bytes)
  {
    assert w[1..] + [bytes[0]] + bytes[1..] == (w + bytes)[1..];
  }

  /** Shifting d into the last four of u + [c]: the last four of u + [c, d], with u's last element second. */
  lemma ShiftLast4<T>(u: seq<T>, c: T, d: T)
    requires |u| >= 4
    ensures Last4(u + [c])[1..] + [d] == Last4(u + [c] + [d])
    ensures (Last4(u + [c])[1..] + [d])[1] == u[|u| - 1]
  {
  }

  lemma SplitEol(t: seq<Byte>, rest: seq<Byte>)
    ensures t + EolBytes + rest == t + [Cr] + ([Lf] + rest)
  {
  }

  lemma AppendEol(u: seq<Byte>)
    ensures u + [Cr] + [Lf] == u + EolBytes
  {
  }


  /** After a line end, CR LF is the blank line: reading stops with nothing more parsed. */
  lemma ReadBlankLine(st: Reader, rest: seq<Byte>)
    requires IsReader(st) && st.status == Reading && st.window[2..] == EolBytes
    ensures Run(st, EolBytes + rest) ==
      st.(window := EomBytes, pending := st.pending + EolBytes, status := AtEnd)
  {
    var first := st.(window := st.window[1..] + [Cr], pending := st.pending + [Cr]);
    var last := st.(window := EomBytes, pending := st.pending + EolBytes, status := AtEnd);
    calc {
      Run(st, EolBytes + rest);
      { FeedOne(st, [Cr] + [Lf], rest); }
      Run(first, [Lf] + rest);
      { assert first.window[1..] + [Lf] == EomBytes;
        assert first.pending + [Lf] == st.pending + EolBytes;
        assert Step(first, Lf) == last; }
      Run(last, rest);
    }
  }


  /** A line that is well formed and ASCII, with no line feed inside. */
  predicate IsLineText(s: string)
  {
    IsAscii(s) && '\n' !in s
  }

  lemma NoLfInAscii(s: string)
    requires IsLineText(s)
    ensures Lf !in Ascii(s)
  {
    forall i | 0 <= i < |s|
      ensures Ascii(s)[i] != Lf
    {
      assert s[i] != '\n';
    }
  }

  lemma TextOfLine(s: string)
    requires IsAscii(s)
    ensures Text(Ascii(s) + EolBytes) == s + "\r\n"
  {
    TextOfAscii(s);
    TextAppend(Ascii(s), EolBytes);
    assert Text(EolBytes) == "\r\n" by {
      assert Text(EolBytes) == ['\r'] + Text([Lf]);
      assert Text([Lf]) == ['\n'] + Text([]);
    }
  }

  /** A request line a client may send: no space in method or URI, no blank at either end. */
  predicate IsWellFormedLine(l: RequestLine)
  {
    ' ' !in l.verb && ' ' !in l.uri && IsTrimmed(LineText(l)) && IsLineText(LineText(l))
  }

  /** A header line a client may send: a name without ':', no blank at either end of name or value. */
  predicate IsWellFormedHeader(h: Header)
  {
    ':' !in h.name && IsTrimmed(h.name) && IsTrimmed(h.value) && IsLineText(HeaderText(h))
  }

  /** The header lines of a request, each ended by CR LF. */
  function HeaderBytes(hs: seq<Header>): seq<Byte>
    requires forall i :: 0 <= i < |hs| ==> IsWellFormedHeader(hs[i])
  {
    if |hs| == 0 then []
    else
      assert IsWellFormedHeader(hs[0]);
      Ascii(HeaderText(hs[0])) + EolBytes + HeaderBytes(hs[1..])
  }

  /** The bytes of a request as a client writes it: request line, header lines, blank line. */
  function RequestBytes(l: RequestLine, hs: seq<Header>): seq<Byte>
    requires IsWellFormedLine(l)
    requires forall i :: 0 <= i < |hs| ==> IsWellFormedHeader(hs[i])
  {
    Ascii(LineText(l)) + EolBytes + HeaderBytes(hs) + EolBytes
  }

  /** A line of text, ended by CR LF, is handed to `HandleLine` with its line end. */
  lemma ReadTextLine(st: Reader, s: string, rest: seq<Byte>)
    requires IsReader(st) && st.status == Reading && st.pending == []
    requires IsLineText(s) && (|s| > 0 || st.window[3] != Lf)
    ensures Run(st, Ascii(s) + EolBytes + rest) ==
      Run(HandleLine(st.(window := Last4(st.window + Ascii(s) + EolBytes), pending := []), s + "\r\n"), rest)
  {
    NoLfInAscii(s);
    ReadLine(st, Ascii(s), rest);
    TextOfLine(s);
  }

  /** After a line end the window ends with CR LF. */
  lemma WindowAfterLine(w: seq<Byte>, t: seq<Byte>)
    requires |w| == 4
    ensures |Last4(w + t + EolBytes)| == 4 && Last4(w + t + EolBytes)[2..] == EolBytes
  {
  }

  /** A well-formed request line, as the first line, becomes the request line. */
  lemma HandleOfRequestLine(st: Reader, l: RequestLine)
    requires st.line.None? && IsWellFormedLine(l)
    ensures HandleLine(st, LineText(l) + "\r\n") == st.(line := Some(l))
  {
    SplitOfLineText([], l, "\r\n");
    assert [] + LineText(l) + "\r\n" == LineText(l) + "\r\n";
  }

  /** A well-formed header line, after the request line, adds its header. */
  lemma HandleOfHeader(st: Reader, h: Header)
    requires st.line.Some? && IsWellFormedHeader(h)
    ensures HandleLine(st, HeaderText(h) + "\r\n") == st.(headers := st.headers + [h])
  {
    SplitOfHeaderText(h, "\r\n");
  }

  /** One well-formed header line adds its header and leaves CR LF at the end of the window. */
  lemma ReadHeaderLine(st: Reader, h: Header, more: seq<Byte>) returns (next: Reader)
    requires IsReader(st) && st.status == Reading && st.pending == [] && st.line.Some?
    requires st.window[2..] == EolBytes
    requires IsWellFormedHeader(h)
    ensures IsReader(next) && next.status == Reading && next.pending == []
    ensures next.window[2..] == EolBytes
    ensures next.line == st.line && next.headers == st.headers + [h]
    ensures Run(st, Ascii(HeaderText(h)) + EolBytes + more) == Run(next, more)
  {
    var t := Ascii(HeaderText(h));
    var window := Last4(st.window + t + EolBytes);
    next := st.(window := window, pending := [], headers := st.headers + [h]);
    ReadTextLine(st, HeaderText(h), more);
    HandleOfHeader(st.(window := window, pending := []), h);
    WindowAfterLine(st.window, t);
  }

  lemma {:induction false} HeaderBytesFirst(hs: seq<Header>, rest: seq<Byte>)
    requires |hs| > 0 && forall i :: 0 <= i < |hs| ==> IsWellFormedHeader(hs[i])
    ensures HeaderBytes(hs) + EolBytes + rest ==
      Ascii(HeaderText(hs[0])) + EolBytes + (HeaderBytes(hs[1..]) + EolBytes + rest)
  {
    var first := Ascii(HeaderText(hs[0])) + EolBytes;
    assert HeaderBytes(hs) == first + HeaderBytes(hs[1..]);
    Regroup(first, HeaderBytes(hs[1..]), EolBytes, rest);
  }

  lemma Regroup<T>(p: seq<T>, y: seq<T>, e: seq<T>, r: seq<T>)
    ensures p + y + e + r == p + (y + e + r)
  {
  }

  lemma AppendFirst<T>(a: seq<T>, b: seq<T>)
    requires |b| > 0
    ensures a + [b[0]] + b[1..] == a + b
  {
  }

  /** Each well-formed header line adds its header; the blank line then ends the reading. */
  lemma {:induction false} ReadHeaders(st: Reader, hs: seq<Header>, rest: seq<Byte>)
    requires IsReader(st) && st.status == Reading && st.pending == [] && st.line.Some?
    requires st.window[2..] == EolBytes
    requires forall i :: 0 <= i < |hs| ==> IsWellFormedHeader(hs[i])
    ensures Run(st, HeaderBytes(hs) + EolBytes + rest) ==
      st.(window := EomBytes, pending := EolBytes, headers := st.headers + hs, status := AtEnd)
    decreases |hs|
  {
    if |hs| == 0 {
      assert HeaderBytes(hs) + EolBytes + rest == EolBytes + rest;
      ReadBlankLine(st, rest);
      assert st.headers + hs == st.headers;
    } else {
      var h := hs[0];
      var more := HeaderBytes(hs[1..]) + EolBytes + rest;
      HeaderBytesFirst(hs, rest);
      var next := ReadHeaderLine(st, h, more);
      ReadHeaders(next, hs[1..], rest);
      AppendFirst(st.headers, hs);
    }
  }

  /** A well-formed request line, read first, becomes the request line. */
  lemma ReadRequestLine(l: RequestLine, more: seq<Byte>) returns (next: Reader)
    requires IsWellFormedLine(l)
    ensures IsReader(next) && next.status == Reading && next.pending == []
    ensures next.window[2..] == EolBytes
    ensures next.line == Some(l) && next.headers == []
    ensures Run(Start, Ascii(LineText(l)) + EolBytes + more) == Run(next, more)
  {
    var t := Ascii(LineText(l));
    var window := Last4(Start.window + t + EolBytes);
    next := Start.(window := window, pending := [], line := Some(l));
    ReadTextLine(Start, LineText(l), more);
    HandleOfRequestLine(Start.(window := window, pending := []), l);
    WindowAfterLine(Start.window, t);
  }

  /** A line without ':' after the request line makes the header split throw. */
  lemma HandleOfLineWithoutColon(st: Reader, s: string)
    requires st.line.Some? && ':' !in s
    ensures HandleLine(st, s + "\r\n") == st.(status := Thrown)
  {
    assert ':' !in s + "\r\n";
  }

  /**
   * A well-formed request reads back as itself, whatever follows the blank
   * line that ends it.
   */
  lemma ParseOfRequestBytes(l: RequestLine, hs: seq<Header>, rest: seq<Byte>)
    requires IsWellFormedLine(l)
    requires forall i :: 0 <= i < |hs| ==> IsWellFormedHeader(hs[i])
    ensures Parse(RequestBytes(l, hs) + rest) == Parsed(Request(Some(l), hs))
  {
    var first := Ascii(LineText(l)) + EolBytes;
    Regroup(first, HeaderBytes(hs), EolBytes, rest);
    var next := ReadRequestLine(l, HeaderBytes(hs) + EolBytes + rest);
    ReadHeaders(next, hs, rest);
  }

  /** A first line that does not split into three tokens makes read_request return null. */
  lemma ParseOfBadRequestLine(s: string, rest: seq<Byte>)
    requires IsLineText(s)
    requires SplitRequestLine(s + "\r\n").None?
    ensures Parse(Ascii(s) + EolBytes + rest) == Invalid
  {
    ReadTextLine(Start, s, rest);
  }

  /** A header line without ':' throws out of read_request. */
  lemma ParseOfHeaderWithoutColon(l: RequestLine, s: string, rest: seq<Byte>)
    requires IsWellFormedLine(l)
    requires IsLineText(s) && |s| > 0 && ':' !in s
    ensures Parse(Ascii(LineText(l)) + EolBytes + Ascii(s) + EolBytes + rest) == Threw
  {
    var first := Ascii(LineText(l)) + EolBytes;
    Regroup(first, Ascii(s), EolBytes, rest);
    var next := ReadRequestLine(l, Ascii(s) + EolBytes + rest);
    ReadTextLine(next, s, rest);
    HandleOfLineWithoutColon(next.(window := Last4(next.window + Ascii(s) + EolBytes), pending := []), s);
  }

  /** Without a blank line the request ends with the input and keeps what was read. */
  lemma ParseOfUnterminatedRequest(l: RequestLine)
    requires IsWellFormedLine(l)
    ensures Parse(Ascii(LineText(l)) + EolBytes) == Parsed(Request(Some(l), []))
  {
    var first := Ascii(LineText(l)) + EolBytes;
    assert first + [] == first;
    var next := ReadRequestLine(l, []);
  }
}
