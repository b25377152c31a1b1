/** Requests whose fate depends on how TCP cuts them: one that meets the input
    limit, one with a head too long, and one whose body is too large before it
    is malformed (readClient in apps/webserv/src/Server.cpp, parseRequest in
    Http.cpp). */
module CutInputs {
  import opened Strings
  import opened HttpText
  import opened Limits
  import opened Cuttings
  import opened ChunkLoop
  import opened Chunked
  import opened ChunkedCodec
  import opened HttpPath
  import opened HttpRequest
  import opened HttpBodies
  import opened HttpHeads
  import opened HttpCuts

  // ---------------------------------------------------------- a request head

  /** A header value of letters and digits. */
  predicate Plain(s: string) { s != "" && forall i :: 0 <= i < |s| ==> IsLower(s[i]) || IsDigit(s[i]) }

  predicate NameOk(name: string) {
    name != "" && forall i {:trigger name[i]} :: 0 <= i < |name| ==> IsLower(name[i]) || name[i] == '-'
  }

  function Fields(host: string, name: string, value: string): seq<Field> {
    [Field("host", " " + host), Field(name, " " + value)]
  }

  function HeadText(host: string, name: string, value: string): string {
    "GET / HTTP/1.1" + (CRLF + (("host: " + host) + (CRLF + (name + ": " + value))))
  }

  function HeadFor(host: string, name: string, value: string): Head {
    GoodHead("GET", "/", "/", "", "HTTP/1.1", map["host" := host, name := value])
  }

  lemma TwoFields(f: Field, g: Field)
    ensures FieldText([f, g]) == CRLF + (f.Line() + (CRLF + g.Line()))
  {
    assert [f, g][1..] == [g] && [g][1..] == [];
    FieldTextIs([f, g]);
    FieldTextIs([g]);
    assert FieldText([]) == "" && g.Line() + "" == g.Line();
  }

  lemma LineIs(name: string, value: string)
    ensures Field(name, " " + value).Line() == name + ": " + value
  {
  }

  /** Such a head as HttpHeads prints it. */
  lemma HeadPrinted(host: string, name: string, value: string)
    ensures HttpHeads.HeadText("GET", "/", "HTTP/1.1", Fields(host, name, value)) == HeadText(host, name, value)
  {
    TwoFields(Field("host", " " + host), Field(name, " " + value));
    LineIs("host", host);
    LineIs(name, value);
    assert StartLine("GET", "/", "HTTP/1.1") == "GET / HTTP/1.1";
    assert "host" + ": " + host == "host: " + host;
  }

  lemma PlainTrims(s: string)
    requires s != "" && !Blank(s[0]) && !Blank(s[|s| - 1])
    ensures Trim(s) == s && Trim(" " + s) == s
  {
    assert (" " + s)[1..] == s;
  }

  lemma NameIsKey(name: string, text: string)
    requires NameOk(name)
    ensures Field(name, text).Key() == name && ValidToken(name) && ':' !in name && '\r' !in name && '\n' !in name
  {
    PlainTrims(name);
    assert ToLower(name) == name;
    forall i | 0 <= i < |name| ensures TokenByte(name[i]) { assert IsLower(name[i]) || name[i] == '-'; }
  }

  lemma FieldsFine(host: string, name: string, value: string)
    requires Plain(host) && Plain(value) && NameOk(name) && name != "host"
    ensures var fields := Fields(host, name, value);
      && FieldsOk(fields) && KeysOk(fields) && HasHost(fields)
      && fields[0].Key() == "host" && fields[1].Key() == name
  {
    var fields := Fields(host, name, value);
    assert NameOk("host");
    NameIsKey("host", " " + host);
    NameIsKey(name, " " + value);
    assert fields[0].Key() == "host";
  }

  lemma RootPath()
    ensures Path("/") == Some("/")
  {
    RootIsFixed();
    assert UnescapeFrom("/", 1) == Some("");
  }

  lemma HeadProper(fields: seq<Field>)
    requires FieldsOk(fields) && KeysOk(fields) && HasHost(fields)
    ensures NoSpace("GET") && NoSpace("/") && NoSpace("HTTP/1.1") && SplitsTarget("/", "/", "")
    ensures Proper("GET", "/", "HTTP/1.1", fields, "/") && Path("/") == Some("/")
  {
    RootPath();
  }

  lemma TwoHeld(headers: map<string, string>, fields: seq<Field>, a: string, x: string, b: string, y: string)
    requires |fields| == 2 && HoldsFields(headers, fields)
    requires fields[0].Key() == a && Trim(fields[0].text) == x && fields[1].Key() == b && Trim(fields[1].text) == y
    ensures a in headers && headers[a] == x && b in headers && headers[b] == y
    ensures forall key :: key in headers ==> key == a || key == b
  {
    assert fields[0].Key() in headers && fields[1].Key() in headers;
    forall key | key in headers ensures key == a || key == b {
      var i :| 0 <= i < |fields| && key == fields[i].Key();
    }
  }

  lemma HeldAsMap(headers: map<string, string>, host: string, name: string, value: string)
    requires Plain(host) && Plain(value) && NameOk(name) && name != "host"
    requires HoldsFields(headers, Fields(host, name, value))
    ensures headers == map["host" := host, name := value]
  {
    FieldsFine(host, name, value);
    PlainTrims(host);
    PlainTrims(value);
    TwoHeld(headers, Fields(host, name, value), "host", host, name, value);
  }

  lemma HeadParses(host: string, name: string, value: string)
    requires Plain(host) && Plain(value) && NameOk(name) && name != "host"
    ensures ParseHead(HeadText(host, name, value)) == HeadFor(host, name, value)
  {
    var fields := Fields(host, name, value);
    FieldsFine(host, name, value);
    HeadProper(fields);
    HeadPrinted(host, name, value);
    HeadExactly("GET", "/", "HTTP/1.1", fields, "/", "");
    HeldAsMap(ParseHead(HeadText(host, name, value)).headers, host, name, value);
  }

  // ------------------------------------------------------- whole requests

  function RequestText(host: string, name: string, value: string, payload: string): string {
    HeadText(host, name, value) + ((CRLF + CRLF) + payload)
  }

  function HeadLength(host: string, name: string, value: string): nat { |HeadText(host, name, value)| + 4 }

  lemma HeadEnds(host: string, name: string, value: string, payload: string)
    requires Plain(host) && Plain(value) && NameOk(name) && name != "host"
    ensures var s, head := RequestText(host, name, value, payload), HeadText(host, name, value);
      HeadEnd(s) == |head| + 4 <= |s| && s[..|head|] == head && s[|head| + 4..] == payload
  {
    var s, head := RequestText(host, name, value, payload), HeadText(host, name, value);
    var fields := Fields(host, name, value);
    FieldsFine(host, name, value);
    HeadProper(fields);
    HeadPrinted(host, name, value);
    assert s == head + (CRLF + (CRLF + payload));
    HttpHeads.HeadEnds("GET", "/", "HTTP/1.1", fields, payload, s);
    assert |s[..FindBlankLine(s, 0)]| == |head|;
  }

  lemma RequestParses(host: string, name: string, value: string, payload: string, maxBody: nat)
    requires Plain(host) && Plain(value) && NameOk(name) && name != "host"
    ensures Parse(RequestText(host, name, value, payload), maxBody)
         == ParseBody(HeadFor(host, name, value), payload, maxBody)
  {
    HeadEnds(host, name, value, payload);
    HeadParses(host, name, value);
  }

  /** The verdict on a prefix that has the head. */
  lemma RequestVerdict(host: string, name: string, value: string, payload: string, stream: string, n: nat,
                       maxBody: nat)
    requires Plain(host) && Plain(value) && NameOk(name) && name != "host"
    requires stream == RequestText(host, name, value, payload)
    requires HeadLength(host, name, value) <= n <= |stream| && n <= RequestLimit(maxBody)
    ensures n - HeadLength(host, name, value) <= |payload|
    ensures Verdicts(stream, maxBody)[n]
         == ParseBody(HeadFor(host, name, value), payload[..n - HeadLength(host, name, value)], maxBody)
  {
    var k := n - HeadLength(host, name, value);
    var early := RequestText(host, name, value, payload[..k]);
    assert stream[..n] == early;
    VerdictIs(stream, n, early, maxBody);
    RequestParses(host, name, value, payload[..k], maxBody);
  }

  // ----------------------------------------------------- a body of known length

  lemma DecimalPlain(n: nat)
    ensures Plain(Decimal(n))
  {
  }

  lemma LengthName()
    ensures NameOk("content-length")
  {
  }

  lemma FixedFraming(host: string, length: nat)
    requires length <= SIZE_MAX
    ensures FramingOf(HeadFor(host, "content-length", Decimal(length))) == ByLength(length)
  {
    var text := Decimal(length);
    assert IsDigit(text[0]);
    assert forall i :: 0 <= i < |text| ==> IsDigit(text[i]);
    ContentLengthExactly(text);
  }

  lemma FixedBody(h: Head, length: nat, payload: string, k: nat, maxBody: nat)
    requires h.GoodHead? && FramingOf(h) == ByLength(length) && length <= maxBody && k <= |payload|
    ensures ParseBody(h, payload[..k], maxBody)
         == if k < length then Incomplete else AcceptWith(h, payload[..length])
  {
    if k >= length { assert payload[..k][..length] == payload[..length]; }
  }

  lemma FixedVerdict(host: string, length: nat, payload: string, stream: string, n: nat, maxBody: nat)
    requires Plain(host) && length <= maxBody <= MAX_BODY
    requires stream == RequestText(host, "content-length", Decimal(length), payload)
    requires HeadLength(host, "content-length", Decimal(length)) <= n <= |stream| && n <= RequestLimit(maxBody)
    ensures var k := n - HeadLength(host, "content-length", Decimal(length));
      k <= |payload| && Verdicts(stream, maxBody)[n]
        == if k < length then Incomplete
           else AcceptWith(HeadFor(host, "content-length", Decimal(length)), payload[..length])
  {
    DecimalPlain(length);
    LengthName();
    FixedFraming(host, length);
    FixedVerdictOf(host, "content-length", Decimal(length), length, payload, stream, n, maxBody);
  }

  lemma FixedVerdictOf(host: string, name: string, value: string, length: nat, payload: string, stream: string, n: nat,
                       maxBody: nat)
    requires Plain(host) && Plain(value) && NameOk(name) && name != "host"
    requires length <= maxBody && FramingOf(HeadFor(host, name, value)) == ByLength(length)
    requires stream == RequestText(host, name, value, payload)
    requires HeadLength(host, name, value) <= n <= |stream| && n <= RequestLimit(maxBody)
    ensures var k := n - HeadLength(host, name, value);
      k <= |payload| && Verdicts(stream, maxBody)[n]
        == if k < length then Incomplete else AcceptWith(HeadFor(host, name, value), payload[..length])
  {
    RequestVerdict(host, name, value, payload, stream, n, maxBody);
    FixedBody(HeadFor(host, name, value), length, payload, n - HeadLength(host, name, value), maxBody);
  }

  /** The whole request as it should be accepted. */
  function Whole(host: string, length: nat, payload: string): ParseResult
    requires length <= |payload|
  {
    AcceptWith(HeadFor(host, "content-length", Decimal(length)), payload[..length])
  }

  /** A final verdict of a stream whose cuttings were settled. */
  lemma CuttingTo(stream: string, maxBody: nat, e: nat) returns (pieces: seq<string>)
    requires Ends(Verdicts(stream, maxBody), Incomplete, e)
    ensures Cuts(pieces, stream) && Outcome(pieces, maxBody) == Verdicts(stream, maxBody)[e]
  {
    var gaps := CutEnds(Verdicts(stream, maxBody), Incomplete, e);
    pieces := WholePieces(stream, gaps);
    WholeIsWalk(Reader(maxBody), Incomplete, stream, pieces);
  }

  lemma ShortCutting(stream: string, maxBody: nat, m: nat, e: nat) returns (pieces: seq<string>)
    requires HeadEnd(stream) <= MAX_HEAD + 1 && maxBody <= MAX_BODY
    requires m == First(Verdicts(stream, maxBody), Incomplete, 0) && m <= e <= LastCut(stream, m) <= |stream|
    ensures Cuts(pieces, stream) && Outcome(pieces, maxBody) == Verdicts(stream, maxBody)[e]
  {
    VerdictsLawful(stream, maxBody);
    ShortSettles(Verdicts(stream, maxBody), HeadEnd(stream), RequestLimit(maxBody));
    SettledEnds(Verdicts(stream, maxBody), Incomplete, m, e);
    pieces := CuttingTo(stream, maxBody, e);
  }

  lemma PastLimit(stream: string, n: nat, maxBody: nat)
    requires RequestLimit(maxBody) < n <= |stream|
    ensures Verdicts(stream, maxBody)[n] == TooLarge
  {
    VerdictIs(stream, n, stream[..n], maxBody);
  }

  lemma LengthSettles(host: string, length: nat, payload: string, stream: string, h: nat, m: nat, whole: ParseResult,
                      maxBody: nat)
    requires Plain(host) && length <= maxBody <= MAX_BODY && length <= |payload|
    requires stream == RequestText(host, "content-length", Decimal(length), payload)
    requires h == HeadLength(host, "content-length", Decimal(length)) && m == h + length
    requires whole == Whole(host, length, payload)
    requires h <= |stream| && m <= RequestLimit(maxBody)
    ensures h == HeadEnd(stream) && m <= |stream|
    ensures Verdicts(stream, maxBody)[m] == whole && whole.Accepted?
    ensures First(Verdicts(stream, maxBody), Incomplete, h) == m
    ensures h <= MAX_HEAD + 1 ==> First(Verdicts(stream, maxBody), Incomplete, 0) == m
  {
    var v := Verdicts(stream, maxBody);
    DecimalPlain(length);
    LengthName();
    HeadEnds(host, "content-length", Decimal(length), payload);
    VerdictsLawful(stream, maxBody);
    forall n | h <= n <= m ensures v[n] == if n < m then Incomplete else whole {
      FixedVerdict(host, length, payload, stream, n, maxBody);
    }
    FirstIs(v, Incomplete, h, m);
    if h <= MAX_HEAD + 1 { FirstIs(v, Incomplete, 0, m); }
  }

  /** The request as it should be accepted, then bytes that take the stream past
      the input limit. */
  lemma SettledCuttings(stream: string, m: nat, whole: ParseResult, maxBody: nat)
    returns (pieces: seq<string>, others: seq<string>)
    requires HeadEnd(stream) <= MAX_HEAD + 1 && maxBody <= MAX_BODY && m <= |stream|
    requires m == First(Verdicts(stream, maxBody), Incomplete, 0) && Verdicts(stream, maxBody)[m] == whole
    requires RequestLimit(maxBody) < LastCut(stream, m)
    ensures Cuts(pieces, stream) && Outcome(pieces, maxBody) == whole
    ensures Cuts(others, stream) && Outcome(others, maxBody) == TooLarge
  {
    var top := LastCut(stream, m);
    PastLimit(stream, top, maxBody);
    pieces := ShortCutting(stream, maxBody, m, m);
    others := ShortCutting(stream, maxBody, m, top);
  }

  /** A request with a head within its limit and a body within its own, and more
      bytes behind it that take it past the input limit: accepted if a piece ends
      with the body, 413 if a recv brings those bytes too. */
  lemma LimitDependsOnCuts(host: string, length: nat, payload: string, stream: string, h: nat, m: nat,
                           whole: ParseResult, maxBody: nat)
    returns (pieces: seq<string>, others: seq<string>)
    requires Plain(host) && length <= maxBody <= MAX_BODY && length <= |payload|
    requires stream == RequestText(host, "content-length", Decimal(length), payload)
    requires h == HeadLength(host, "content-length", Decimal(length)) && m == h + length
    requires whole == Whole(host, length, payload)
    requires h <= MAX_HEAD + 1 && h <= |stream| && m <= RequestLimit(maxBody) < LastCut(stream, m)
    ensures whole.Accepted? && Cuts(pieces, stream) && Outcome(pieces, maxBody) == whole
    ensures Cuts(others, stream) && Outcome(others, maxBody) == TooLarge
  {
    LengthSettles(host, length, payload, stream, h, m, whole, maxBody);
    pieces, others := SettledCuttings(stream, m, whole, maxBody);
  }

  /** Both verdicts of a stream with a long head can count. */
  lemma LongCuttings(stream: string, v: seq<ParseResult>, h: nat, n: nat, whole: ParseResult, maxBody: nat)
    returns (pieces: seq<string>, others: seq<string>)
    requires v == Verdicts(stream, maxBody) && h == HeadEnd(stream) && 0 < maxBody <= MAX_BODY
    requires MAX_HEAD + 1 < h < MAX_HEAD + 1 + READ_SIZE && h <= |stream| && n == First(v, Incomplete, h) <= |stream|
    requires v[n] == whole
    ensures Cuts(pieces, stream) && Outcome(pieces, maxBody) == whole
    ensures Cuts(others, stream) && Outcome(others, maxBody) == Bad
  {
    VerdictsLawful(stream, maxBody);
    LongReopens(v, h, RequestLimit(maxBody), n);
    LongEnds(v, h, n, n);
    LongEnds(v, h, n, MAX_HEAD + 1);
    pieces := CuttingTo(stream, maxBody, n);
    others := CuttingTo(stream, maxBody, MAX_HEAD + 1);
  }

  /** A head past its limit, over within one recv of it: refused if a piece ends
      between the two, accepted if one piece brings both. */
  lemma LongHeadDependsOnCuts(host: string, length: nat, payload: string, stream: string, h: nat, m: nat,
                              whole: ParseResult, maxBody: nat)
    returns (pieces: seq<string>, others: seq<string>)
    requires Plain(host) && length <= maxBody <= MAX_BODY && length <= |payload|
    requires stream == RequestText(host, "content-length", Decimal(length), payload)
    requires h == HeadLength(host, "content-length", Decimal(length)) && m == h + length
    requires whole == Whole(host, length, payload)
    requires MAX_HEAD + 1 < h < MAX_HEAD + 1 + READ_SIZE && h <= |stream| && m <= RequestLimit(maxBody)
    ensures whole.Accepted? && Cuts(pieces, stream) && Outcome(pieces, maxBody) == whole
    ensures Cuts(others, stream) && Outcome(others, maxBody) == Bad
  {
    LengthSettles(host, length, payload, stream, h, m, whole, maxBody);
    pieces, others := LongCuttings(stream, Verdicts(stream, maxBody), h, m, whole, maxBody);
  }

  // -------------------------------------------------- such requests exist

  function Tens(k: nat): nat { if k == 0 then 1 else 10 * Tens(k - 1) }

  lemma {:induction false} DecimalShort(n: nat, k: nat)
    requires k > 0 && n < Tens(k)
    ensures |Decimal(n)| <= k
    decreases k
  {
    if n >= 10 { DecimalShort(n / 10, k - 1); }
  }

  lemma EightDigits(n: nat)
    requires n <= MAX_BODY
    ensures |Decimal(n)| <= 8
  {
    assert Tens(4) == 10000 by { assert Tens(2) == 100; }
    assert Tens(8) == 100000000 by { assert Tens(6) == 1000000; }
    DecimalShort(n, 8);
  }

  /** A host that brings the head to this many bytes. */
  lemma HostFor(size: nat, length: nat) returns (host: string)
    requires 60 <= size && length <= MAX_BODY
    ensures Plain(host) && HeadLength(host, "content-length", Decimal(length)) == size
  {
    EightDigits(length);
    host := seq(size - 44 - |Decimal(length)|, _ => 'a');
  }

  /** For every body limit: a head of 65,530 bytes, a body at its limit, and 100
      more bytes. */
  lemma LimitStrikes(body: string, more: string)
    returns (host: string, stream: string, pieces: seq<string>, others: seq<string>)
    requires |body| <= MAX_BODY && |more| == 100
    ensures Plain(host) && stream == RequestText(host, "content-length", Decimal(|body|), body + more)
    ensures ShortHead(stream) && HeadEnd(stream) == 65530
    ensures Cuts(pieces, stream) && Cuts(others, stream)
    ensures Outcome(pieces, |body|) == AcceptWith(HeadFor(host, "content-length", Decimal(|body|)), body)
    ensures Outcome(others, |body|) == TooLarge
  {
    host := HostFor(65530, |body|);
    stream := RequestText(host, "content-length", Decimal(|body|), body + more);
    DecimalPlain(|body|);
    LengthName();
    HeadEnds(host, "content-length", Decimal(|body|), body + more);
    assert (body + more)[..|body|] == body;
    var whole := Whole(host, |body|, body + more);
    pieces, others := LimitDependsOnCuts(host, |body|, body + more, stream, 65530, 65530 + |body|, whole, |body|);
  }

  /** For every end of a head past the limit, yet within one recv of it. */
  lemma LongHeadStrikes(end: nat, maxBody: nat)
    returns (host: string, stream: string, pieces: seq<string>, others: seq<string>)
    requires MAX_HEAD - 2 <= end < MAX_HEAD - 3 + READ_SIZE && end + 4 <= RequestLimit(maxBody) && maxBody <= MAX_BODY
    ensures Plain(host) && stream == RequestText(host, "content-length", Decimal(0), "")
    ensures FindBlankLine(stream, 0) == end
    ensures Cuts(pieces, stream) && Outcome(pieces, maxBody).Accepted?
    ensures Cuts(others, stream) && Outcome(others, maxBody) == Bad
  {
    host := HostFor(end + 4, 0);
    stream := RequestText(host, "content-length", Decimal(0), "");
    DecimalPlain(0);
    LengthName();
    HeadEnds(host, "content-length", Decimal(0), "");
    pieces, others := LongHeadDependsOnCuts(host, 0, "", stream, end + 4, end + 4, Whole(host, 0, ""), maxBody);
  }

  // ----------------------------------------------------- a chunk too large

  function OneChunk(data: string, more: string): string {
    HexText(|data|) + (CRLF + (data + (CRLF + more)))
  }

  function Sixteens(k: nat): nat { if k == 0 then 1 else 16 * Sixteens(k - 1) }

  lemma {:induction false} HexShort(n: nat, k: nat)
    requires k > 0 && n < Sixteens(k)
    ensures |HexText(n)| <= k
    decreases k
  {
    if n >= 16 { HexShort(n / 16, k - 1); }
  }

  lemma SevenDigits(n: nat)
    requires n <= 2 * MAX_BODY
    ensures |HexText(n)| <= 7
  {
    assert Sixteens(4) == 65536 by { assert Sixteens(2) == 256; }
    assert Sixteens(7) == 268435456 by { assert Sixteens(6) == 16777216; }
    HexShort(n, 7);
  }

  /** The chunk is read, and decoding goes on after it. */
  lemma ChunkRead(data: string, more: string, input: string)
    requires input == OneChunk(data, more) && data != "" && |input| <= TEXT_MAX
    ensures var next := |input| - |more|;
      ChunkAt(input, 0) == Go(next, data, false) && input[next..] == more
  {
    assert input[0..] == input;
    HexLine(HexText(|data|));
    PieceRead(input, 0, Piece(HexText(|data|), data), more);
  }

  lemma NextTurn(input: string, next: nat, data: string, ending: Ending)
    requires next <= |input| && ChunkAt(input, 0) == Go(next, data, false) && ChunkAt(input, next) == Halt(ending)
    requires next > 0
    ensures Decode(input) == Ended(ending, data)
  {
    var t := Table(input);
    assert t[0] == ChunkAt(input, 0) && t[next] == ChunkAt(input, next);
    assert JumpOk(t, 0) && JumpOk(t, next);
    assert "" + data == data;
    assert Run(t, next, data, |input|) == Ended(ending, data);
  }

  /** Then nothing, or half a line end. */
  lemma ChunkThenWants(data: string, more: string)
    requires data != "" && |OneChunk(data, more)| <= TEXT_MAX && |more| <= 1
    ensures Decode(OneChunk(data, more)) == Partial(data)
  {
    var input := OneChunk(data, more);
    ChunkRead(data, more, input);
    var next := |input| - |more|;
    FindLineEndIs(input, next, |input|);
    NextTurn(input, next, data, Wants);
  }

  /** Then an empty size line. */
  lemma ChunkThenEmpty(data: string, more: string)
    requires data != "" && |OneChunk(data, CRLF + more)| <= TEXT_MAX
    ensures Decode(OneChunk(data, CRLF + more)) == Rejected
  {
    var input := OneChunk(data, CRLF + more);
    ChunkRead(data, CRLF + more, input);
    var next := |input| - |CRLF + more|;
    CrlfCut(input, next, more);
    FindLineEndIs(input, next, next);
    assert SizeOf("") == None by { assert ""[..0] == ""; }
    ChunkAtIs(input, next, next, "");
    NextTurn(input, next, data, Refuses);
  }

  /** All but the last byte of the chunk: no data yet. */
  lemma ChunkCutShort(data: string, line: string, input: string)
    requires line == HexText(|data|) && input == line + (CRLF + (data + "\r")) && data != "" && |input| <= TEXT_MAX
    ensures Decode(input) == Partial("")
  {
    HexLine(line);
    assert input[0..] == input;
    LineHere(input, 0, line, data + "\r");
    ChunkAtIs(input, 0, |line|, line);
    assert ChunkAt(input, 0) == Halt(Wants);
    assert Table(input)[0] == ChunkAt(input, 0);
  }

  lemma Fronts(front: string, payload: string, one: string, short: string, q: nat)
    requires payload == front + (CRLF + CRLF) && q == |payload| - 2
    requires one == front + (CRLF + "") && short == front + "\r"
    ensures q > 0 && payload[..q - 1] == short && payload[..q] == one && payload[..q + 2] == payload
  {
  }

  lemma Regroup(line: string, data: string, more: string)
    ensures line + (CRLF + (data + more)) == (line + (CRLF + data)) + more
  {
  }

  /** The three prefixes of the payload that count. */
  lemma PayloadPrefixes(data: string, payload: string, q: nat)
    requires payload == OneChunk(data, CRLF) && q == |payload| - 2
    ensures payload[..q] == OneChunk(data, "") && payload[..q + 2] == payload
    ensures q > 0 && payload[..q - 1] == HexText(|data|) + (CRLF + (data + "\r"))
  {
    var line := HexText(|data|);
    Regroup(line, data, CRLF + CRLF);
    Regroup(line, data, CRLF + "");
    Regroup(line, data, "\r");
    Fronts(line + (CRLF + data), payload, OneChunk(data, ""), line + (CRLF + (data + "\r")), q);
  }

  lemma PayloadVerdicts(data: string, payload: string, q: nat, h: Head, maxBody: nat)
    requires payload == OneChunk(data, CRLF) && q == |payload| - 2 && |payload| <= TEXT_MAX && h.GoodHead?
    requires maxBody < |data|
    ensures q > 0 && ChunkedBody(h, Decode(payload[..q - 1]), maxBody) == Incomplete
    ensures ChunkedBody(h, Decode(payload[..q]), maxBody) == TooLarge
    ensures ChunkedBody(h, Decode(payload[..q + 2]), maxBody) == Bad
  {
    PayloadPrefixes(data, payload, q);
    ChunkCutShort(data, HexText(|data|), payload[..q - 1]);
    ChunkThenWants(data, "");
    assert CRLF + "" == CRLF;
    ChunkThenEmpty(data, "");
  }

  lemma ChunkedNames()
    ensures NameOk("transfer-encoding") && Plain("chunked") && Plain("a")
    ensures HeadLength("a", "transfer-encoding", "chunked") == 55
  {
  }

  lemma ChunkedVerdict(payload: string, stream: string, k: nat, maxBody: nat)
    requires stream == RequestText("a", "transfer-encoding", "chunked", payload) && k <= |payload|
    requires 55 + k <= RequestLimit(maxBody)
    ensures 55 + k <= |stream| && HeadEnd(stream) == 55
    ensures Verdicts(stream, maxBody)[55 + k]
         == ChunkedBody(HeadFor("a", "transfer-encoding", "chunked"), Decode(payload[..k]), maxBody)
  {
    ChunkedNames();
    HeadEnds("a", "transfer-encoding", "chunked", payload);
    RequestVerdict("a", "transfer-encoding", "chunked", payload, stream, 55 + k, maxBody);
    PlainTrims("chunked");
  }

  /** A chunk too large and then a malformed size line: 413 if a piece ends with
      the chunk, 400 if the line comes with it. */
  lemma OversizedDependsOnCuts(data: string, maxBody: nat)
    returns (stream: string, pieces: seq<string>, others: seq<string>)
    requires maxBody < |data| <= maxBody + 60000 && maxBody <= MAX_BODY
    ensures stream == RequestText("a", "transfer-encoding", "chunked", OneChunk(data, CRLF))
    ensures Cuts(pieces, stream) && Outcome(pieces, maxBody) == TooLarge
    ensures Cuts(others, stream) && Outcome(others, maxBody) == Bad
  {
    var payload := OneChunk(data, CRLF);
    stream := RequestText("a", "transfer-encoding", "chunked", payload);
    SevenDigits(|data|);
    var q := |payload| - 2;
    PayloadVerdicts(data, payload, q, HeadFor("a", "transfer-encoding", "chunked"), maxBody);
    ChunkedVerdict(payload, stream, q - 1, maxBody);
    ChunkedVerdict(payload, stream, q, maxBody);
    ChunkedVerdict(payload, stream, q + 2, maxBody);
    VerdictsLawful(stream, maxBody);
    FirstAfter(Verdicts(stream, maxBody), 55, RequestLimit(maxBody), 55 + q);
    pieces := ShortCutting(stream, maxBody, 55 + q, 55 + q);
    others := ShortCutting(stream, maxBody, 55 + q, 55 + q + 2);
  }

  /** Incomplete just before: the first final verdict. */
  lemma FirstAfter(v: seq<ParseResult>, h: nat, limit: nat, m: nat)
    requires Lawful(v, h, limit) && h <= MAX_HEAD + 1 && 0 < m < |v|
    requires v[m - 1] == Incomplete && v[m] != Incomplete
    ensures First(v, Incomplete, 0) == m
  {
    ShortSettles(v, h, limit);
  }
}
