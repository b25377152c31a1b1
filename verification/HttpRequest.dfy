/** Parsing a request from the bytes received so far (parseRequest in
    apps/webserv/src/Http.cpp): the head, the body-length decision of section
    6.3 of RFC 9112, and why parsing again on a grown buffer is safe. */
module HttpRequest {
  import opened Strings
  import opened HttpText
  import opened ChunkLoop
  import opened Chunked
  import opened HttpPath

  const MAX_HEAD: nat := 65536

  datatype Request = Request(
    verb: string,
    target: string,
    path: string,
    query: string,
    version: string,
    headers: map<string, string>,
    body: string)

  /** The five results of the source, and what a chunk size that wraps may lead
      to instead: an exception that leaves the parser, or no return at all. */
  datatype ParseResult =
    | Incomplete
    | Accepted(request: Request)
    | Bad
    | TooLarge
    | VersionNotSupported
    | Crashed
    | Stuck

  // ------------------------------------------------------------------ lines

  /** What getline reads one after the other: a final LF starts no line. */
  function Lines(head: string): seq<string> {
    var parts := SplitFrom(head, '\n', 0);
    if parts[|parts| - 1] == "" then parts[..|parts| - 1] else parts
  }

  function WordEnd(s: string, from: nat): (r: nat)
    requires from <= |s|
    ensures from <= r <= |s|
    ensures forall i :: from <= i < r ==> !IsSpace(s[i])
    ensures r < |s| ==> IsSpace(s[r])
    decreases |s| - from
  {
    if from < |s| && !IsSpace(s[from]) then WordEnd(s, from + 1) else from
  }

  /** What `stream >> word` reads one after the other. */
  function Words(s: string, from: nat): seq<string>
    requires from <= |s|
    decreases |s| - from
  {
    var start := SpaceEnd(s, from);
    if start == |s| then [] else [s[start..WordEnd(s, start)]] + Words(s, WordEnd(s, start))
  }

  predicate TokenByte(c: char) {
    IsLower(c) || IsUpper(c) || IsDigit(c) || c in "!#$%&'*+-.^_`|~"
  }

  predicate ValidToken(s: string) {
    s != "" && forall i {:trigger TokenByte(s[i])} :: 0 <= i < |s| ==> TokenByte(s[i])
  }

  method IsValidToken(value: string) returns (ok: bool)
    ensures ok == ValidToken(value)
  {
    if value == "" {
      return false;
    }
    for i := 0 to |value|
      invariant forall j {:trigger TokenByte(value[j])} :: 0 <= j < i ==> TokenByte(value[j])
    {
      if !TokenByte(value[i]) {
        return false;
      }
    }
    return true;
  }

  // ---------------------------------------------------------------- headers

  /** One header line added to those read so far; no header twice. */
  function AddHeader(headers: map<string, string>, line: string): Option<map<string, string>> {
    var colon := Find(line, ':', 0);
    if colon == |line| then None
    else
      var key := ToLower(Trim(line[..colon]));
      if !ValidToken(key) || key in headers then None
      else Some(headers[key := Trim(line[colon + 1..])])
  }

  function Headers(headers: map<string, string>, lines: seq<string>): Option<map<string, string>>
    decreases |lines|
  {
    if lines == [] then Some(headers)
    else
      var next := AddHeader(headers, StripCr(lines[0]));
      if next == None then None else Headers(next.value, lines[1..])
  }

  datatype Head =
    | BadHead
    | OtherVersion
    | GoodHead(verb: string, target: string, path: string, query: string, version: string,
               headers: map<string, string>)

  /** Method, target and version of the request line. */
  function RequestLine(line: string): Option<(string, string, string)> {
    var words := Words(line, 0);
    if |words| != 3 || !ValidToken(words[0]) then None else Some((words[0], words[1], words[2]))
  }

  function HeadOf(verb: string, target: string, version: string, headers: map<string, string>): Head {
    var mark := Find(target, '?', 0);
    var path := Path(target[..mark]);
    if "host" !in headers || path == None then BadHead
    else GoodHead(verb, target, path.value, if mark == |target| then "" else target[mark + 1..], version, headers)
  }

  function ParseHead(head: string): Head {
    var lines := Lines(head);
    if lines == [] then BadHead
    else
      var first := RequestLine(StripCr(lines[0]));
      if first == None then BadHead
      else if first.value.2 != "HTTP/1.1" then OtherVersion
      else if first.value.1 == "" || first.value.1[0] != '/' then BadHead
      else
        var headers := Headers(map[], lines[1..]);
        if headers == None then BadHead
        else HeadOf(first.value.0, first.value.1, first.value.2, headers.value)
  }

  method ReadHeaders(lines: seq<string>) returns (headers: Option<map<string, string>>)
    ensures headers == Headers(map[], lines)
  {
    var found: map<string, string> := map[];
    for i := 0 to |lines|
      invariant Headers(found, lines[i..]) == Headers(map[], lines)
    {
      assert lines[i..][1..] == lines[i + 1..];
      var line := StripCr(lines[i]);
      var colon := Find(line, ':', 0);
      if colon == |line| {
        return None;
      }
      var key := ToLower(Trim(line[..colon]));
      var valid := IsValidToken(key);
      if !valid || key in found {
        return None;
      }
      found := found[key := Trim(line[colon + 1..])];
    }
    return Some(found);
  }

  // ------------------------------------------------------------ body length

  function DigitsEnd(s: string, from: nat): (r: nat)
    requires from <= |s|
    ensures from <= r <= |s|
    ensures forall i :: from <= i < r ==> IsDigit(s[i])
    ensures r < |s| ==> !IsDigit(s[r])
    decreases |s| - from
  {
    if from < |s| && IsDigit(s[from]) then DigitsEnd(s, from + 1) else from
  }

  /** strtoul on a C string: space and a sign are skipped, digits must follow
      up to the end, a minus negates modulo 2^64. */
  function StrToUl(s: string): Option<nat> {
    var i := SpaceEnd(s, 0);
    var negative := i < |s| && s[i] == '-';
    var j := if i < |s| && (s[i] == '-' || s[i] == '+') then i + 1 else i;
    var e := DigitsEnd(s, j);
    if s == "" then Some(0)
    else if e == j || e < |s| then None
    else
      var value := DecimalValue(s[j..e]);
      if value > SIZE_MAX then None
      else Some(if negative && value > 0 then SIZE_MAX + 1 - value else value)
  }

  /** The Content-Length value; the C string ends at the first NUL. */
  function ContentLength(text: string): Option<nat> {
    if text == "" || text[0] == '-' || text[0] == '+' then None
    else StrToUl(text[..Find(text, NUL, 0)])
  }

  lemma DigitsEndAll(text: string, from: nat)
    requires from <= |text|
    ensures DigitsEnd(text, from) == |text| <==> forall i :: from <= i < |text| ==> IsDigit(text[i])
  {
  }

  /** A value that holds no NUL and does not start with space is accepted if and
      only if it is a decimal number that fits; signs are refused. */
  lemma ContentLengthExactly(text: string)
    requires text != "" && NUL !in text && !IsSpace(text[0])
    ensures ContentLength(text)
         == if AllDigits(text) && DecimalValue(text) <= SIZE_MAX then Some(DecimalValue(text)) else None
  {
    FindIs(text, NUL, 0, |text|);
    assert text[..|text|] == text && text[0..|text|] == text;
    assert SpaceEnd(text, 0) == 0;
    DigitsEndAll(text, 0);
  }

  /** Section 6.3 of RFC 9112: chunked, fixed, or none. */
  datatype Framing = Refused | ByChunks | ByLength(length: nat)

  function FramingOf(h: Head): Framing
    requires h.GoodHead?
  {
    var chunked := "transfer-encoding" in h.headers;
    var fixed := "content-length" in h.headers;
    if chunked && fixed then Refused
    else if chunked then
      if ToLower(Trim(h.headers["transfer-encoding"])) != "chunked" then Refused else ByChunks
    else if fixed then
      var length := ContentLength(h.headers["content-length"]);
      if length == None then Refused else ByLength(length.value)
    else if h.verb == "POST" then Refused
    else ByLength(0)
  }

  function AcceptWith(h: Head, body: string): ParseResult
    requires h.GoodHead?
  {
    Accepted(Request(h.verb, h.target, h.path, h.query, h.version, h.headers, body))
  }

  function ChunkedBody(h: Head, verdict: Verdict, maxBody: nat): ParseResult
    requires h.GoodHead?
  {
    match verdict
    case Rejected => Bad
    case Thrown => Crashed
    case Endless => Stuck
    case Partial(body) => if |body| > maxBody then TooLarge else Incomplete
    case Complete(body) => if |body| > maxBody then TooLarge else AcceptWith(h, body)
  }

  function ParseBody(h: Head, payload: string, maxBody: nat): ParseResult {
    match h
    case BadHead => Bad
    case OtherVersion => VersionNotSupported
    case GoodHead(_, _, _, _, _, _) =>
      match FramingOf(h)
      case Refused => Bad
      case ByChunks => ChunkedBody(h, Decode(payload), maxBody)
      case ByLength(length) =>
        if length > maxBody then TooLarge
        else if |payload| < length then Incomplete
        else AcceptWith(h, payload[..length])
  }

  /** The verdict on what has been received so far. */
  function Parse(raw: string, maxBody: nat): ParseResult {
    var end := FindBlankLine(raw, 0);
    if end == |raw| then (if |raw| > MAX_HEAD then Bad else Incomplete)
    else ParseBody(ParseHead(raw[..end]), raw[end + 4..], maxBody)
  }

  method ParseRequest(raw: string, maxBody: nat) returns (result: ParseResult)
    ensures result == Parse(raw, maxBody)
  {
    var headerEnd := FindBlankLine(raw, 0);
    if headerEnd == |raw| {
      return if |raw| > MAX_HEAD then Bad else Incomplete;
    }
    var h := ReadHead(raw[..headerEnd]);
    match h {
      case BadHead => return Bad;
      case OtherVersion => return VersionNotSupported;
      case GoodHead(_, _, _, _, _, _) => result := ReadBody(h, raw[headerEnd + 4..], maxBody);
    }
  }

  method ReadHead(text: string) returns (head: Head)
    ensures head == ParseHead(text)
  {
    var lines := Lines(text);
    if lines == [] {
      return BadHead;
    }
    var first := RequestLine(StripCr(lines[0]));
    if first == None {
      return BadHead;
    }
    var (verb, target, version) := first.value;
    if version != "HTTP/1.1" {
      return OtherVersion;
    }
    if target == "" || target[0] != '/' {
      return BadHead;
    }
    var headers := ReadHeaders(lines[1..]);
    if headers == None || "host" !in headers.value {
      return BadHead;
    }
    var query := Find(target, '?', 0);
    var path := DecodePath(target[..query]);
    if path == None {
      return BadHead;
    }
    return GoodHead(verb, target, path.value, if query == |target| then "" else target[query + 1..], version,
                    headers.value);
  }

  method ReadBody(h: Head, payload: string, maxBody: nat) returns (result: ParseResult)
    requires h.GoodHead?
    ensures result == ParseBody(h, payload, maxBody)
  {
    var chunked := "transfer-encoding" in h.headers;
    var fixed := "content-length" in h.headers;
    if chunked && fixed {
      return Bad;
    }
    if chunked {
      if ToLower(Trim(h.headers["transfer-encoding"])) != "chunked" {
        return Bad;
      }
      var verdict := ParseChunked(payload);
      return ChunkedBody(h, verdict, maxBody);
    }
    var length := 0;
    if fixed {
      var parsed := ContentLength(h.headers["content-length"]);
      if parsed == None {
        return Bad;
      }
      length := parsed.value;
    } else if h.verb == "POST" {
      return Bad;
    }
    if length > maxBody {
      return TooLarge;
    }
    if |payload| < length {
      return Incomplete;
    }
    return AcceptWith(h, payload[..length]);
  }

  // -------------------------------------------------------------- stability

  predicate HeadPresent(raw: string) { FindBlankLine(raw, 0) < |raw| }

  /** What may become of a verdict as bytes arrive. */
  predicate Holds(early: ParseResult, late: ParseResult) {
    match early
    case Incomplete => true
    case Accepted(r) =>
      late.TooLarge?
      || (late.Accepted? && late.request.(body := r.body) == r && |r.body| <= |late.request.body|)
    case TooLarge => late.TooLarge? || late.Bad? || late.Crashed? || late.Stuck?
    case _ => late == early
  }

  lemma ChunkedLater(h: Head, payload: string, more: string, maxBody: nat)
    requires h.GoodHead? && |payload + more| <= TEXT_MAX
    ensures Holds(ChunkedBody(h, Decode(payload), maxBody), ChunkedBody(h, Decode(payload + more), maxBody))
  {
    DecodeLater(payload, more);
  }

  lemma BodyLater(h: Head, payload: string, more: string, maxBody: nat)
    requires |payload + more| <= TEXT_MAX
    ensures Holds(ParseBody(h, payload, maxBody), ParseBody(h, payload + more, maxBody))
  {
    if h.GoodHead? {
      ChunkedLater(h, payload, more, maxBody);
      if FramingOf(h).ByLength? && FramingOf(h).length <= |payload| {
        assert (payload + more)[..FramingOf(h).length] == payload[..FramingOf(h).length];
      }
    }
  }

  lemma HeadStable(raw: string, more: string)
    requires HeadPresent(raw)
    ensures HeadPresent(raw + more)
    ensures var end := FindBlankLine(raw, 0);
      && FindBlankLine(raw + more, 0) == end
      && (raw + more)[..end] == raw[..end]
      && (raw + more)[end + 4..] == raw[end + 4..] + more
  {
    FindBlankLineStable(raw, more, 0);
  }

  /** Once the head is there, a refused request is never accepted later, and an
      accepted one keeps all but its body, which may at most grow: until it is
      too large. A body too large may turn out malformed as well. */
  lemma ParseLater(raw: string, more: string, maxBody: nat)
    requires HeadPresent(raw) && |raw + more| <= TEXT_MAX
    ensures Holds(Parse(raw, maxBody), Parse(raw + more, maxBody))
  {
    HeadStable(raw, more);
    var end := FindBlankLine(raw, 0);
    BodyLater(ParseHead(raw[..end]), raw[end + 4..], more, maxBody);
  }

  /** If the body is chunked, no size that the decoder goes on past wraps. */
  predicate Steady(raw: string)
    requires HeadPresent(raw)
  {
    var end := FindBlankLine(raw, 0);
    var h := ParseHead(raw[..end]);
    h.GoodHead? && FramingOf(h).ByChunks? ==> NoWrap(raw[end + 4..])
  }

  lemma ChunkedSteadyIff(h: Head, payload: string, more: string, maxBody: nat)
    requires h.GoodHead? && ChunkedBody(h, Decode(payload), maxBody).Accepted?
    requires more != "" && |payload + more| <= TEXT_MAX
    ensures ChunkedBody(h, Decode(payload + more), maxBody) == ChunkedBody(h, Decode(payload), maxBody)
       <==> NoWrap(payload)
  {
    DecodeLater(payload, more);
    CompleteStableIff(payload, more);
  }

  lemma BodySteadyIff(h: Head, payload: string, more: string, maxBody: nat)
    requires ParseBody(h, payload, maxBody).Accepted? && more != "" && |payload + more| <= TEXT_MAX
    ensures h.GoodHead?
    ensures ParseBody(h, payload + more, maxBody) == ParseBody(h, payload, maxBody)
       <==> (FramingOf(h).ByChunks? ==> NoWrap(payload))
  {
    if FramingOf(h).ByChunks? {
      ChunkedSteadyIff(h, payload, more, maxBody);
    } else {
      assert (payload + more)[..FramingOf(h).length] == payload[..FramingOf(h).length];
    }
  }

  /** "An accepted request never changes" does not hold. More bytes leave it as it
      is if and only if no chunk size has wrapped. */
  lemma AcceptedStableIff(raw: string, more: string, maxBody: nat)
    requires HeadPresent(raw) && Parse(raw, maxBody).Accepted? && more != "" && |raw + more| <= TEXT_MAX
    ensures Parse(raw + more, maxBody) == Parse(raw, maxBody) <==> Steady(raw)
  {
    HeadStable(raw, more);
    var end := FindBlankLine(raw, 0);
    BodySteadyIff(ParseHead(raw[..end]), raw[end + 4..], more, maxBody);
  }

  lemma NoVerdictIsChunked(h: Head, payload: string, maxBody: nat)
    requires ParseBody(h, payload, maxBody) == Crashed || ParseBody(h, payload, maxBody) == Stuck
    ensures Decode(payload) == Thrown || Decode(payload) == Endless
  {
  }

  lemma PastHead(raw: string, maxBody: nat, result: ParseResult) returns (h: Head, payload: string)
    requires result == Parse(raw, maxBody) && result != Incomplete && result != Bad
    ensures HeadPresent(raw) && payload == raw[FindBlankLine(raw, 0) + 4..]
    ensures result == ParseBody(h, payload, maxBody)
  {
    var end := FindBlankLine(raw, 0);
    h, payload := ParseHead(raw[..end]), raw[end + 4..];
  }

  /** No verdict at all needs a chunked body and a size that wraps. */
  lemma NoVerdictNeedsChunks(raw: string, maxBody: nat) returns (payload: string, pos: nat)
    requires |raw| <= TEXT_MAX && (Parse(raw, maxBody) == Crashed || Parse(raw, maxBody) == Stuck)
    ensures HeadPresent(raw) && payload == raw[FindBlankLine(raw, 0) + 4..]
    ensures pos <= |payload| && WrapsLine(payload, pos)
  {
    var h;
    h, payload := PastHead(raw, maxBody, Parse(raw, maxBody));
    NoVerdictIsChunked(h, payload, maxBody);
    pos := NoVerdictNeedsWrap(payload);
  }
}
