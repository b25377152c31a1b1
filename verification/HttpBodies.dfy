/** What parseRequest answers, said over the headers and the payload: where the
    body of a request ends, which lengths are refused, and that a request as
    printed is read as printed (apps/webserv/src/Http.cpp:186-265, sections 6.3
    and 7.1 of RFC 9112). */
module HttpBodies {
  import opened Strings
  import opened HttpText
  import opened Chunked
  import opened ChunkSizes
  import opened ChunkedCodec
  import opened HttpPath
  import opened HttpRequest

  // ---------------------------------------------------------- Content-Length

  /** The text as a C string: up to its first NUL. */
  predicate CString(text: string, t: string) {
    t <= text && NUL !in t && (|t| < |text| ==> text[|t|] == NUL)
  }

  predicate IsDecimal(t: string, lead: string, sign: string, digits: string) {
    && t == lead + (sign + digits) && Spaces(lead)
    && (sign == "" || sign == "+" || sign == "-")
    && digits != "" && AllDigits(digits) && DecimalValue(digits) <= SIZE_MAX
  }

  /** A minus negates modulo 2^64. */
  function Signed(sign: string, value: nat): nat
    requires value <= SIZE_MAX
  {
    if sign == "-" && value > 0 then SIZE_MAX + 1 - value else value
  }

  /** A Content-Length of n: not begun with a sign, a decimal number of at most
      2^64 - 1 once space is skipped, or nothing before a NUL. */
  ghost predicate IsLength(text: string, n: nat) {
    && text != "" && text[0] != '-' && text[0] != '+'
    && exists t :: CString(text, t) &&
         ((t == "" && n == 0)
          || exists lead, sign, digits :: IsDecimal(t, lead, sign, digits) && n == Signed(sign, DecimalValue(digits)))
  }

  lemma CStringIs(text: string, t: string)
    requires CString(text, t)
    ensures text[..Find(text, NUL, 0)] == t
  {
    forall i | 0 <= i < |t| ensures text[i] != NUL { assert text[i] == t[i]; }
    FindIs(text, NUL, 0, |t|);
  }

  lemma FoundIsCString(text: string)
    ensures CString(text, text[..Find(text, NUL, 0)])
  {
    var t := text[..Find(text, NUL, 0)];
    forall i | 0 <= i < |t| ensures t[i] != NUL { assert t[i] == text[i]; }
  }

  lemma DigitsEndIs(s: string, from: nat, at: nat)
    requires from <= at <= |s| && forall i :: from <= i < at ==> IsDigit(s[i])
    requires at < |s| ==> !IsDigit(s[at])
    ensures HttpRequest.DigitsEnd(s, from) == at
    decreases at - from
  {
    if from < at { DigitsEndIs(s, from + 1, at); }
  }

  lemma LeadEnds(t: string, lead: string, rest: string)
    requires t == lead + rest && Spaces(lead) && rest != "" && !IsSpace(rest[0])
    ensures SpaceEnd(t, 0) == |lead| < |t| && t[|lead|] == rest[0]
  {
    SpaceEndIs(t, 0, |lead|);
  }

  lemma DigitsReachEnd(t: string, head: string, digits: string)
    requires t == head + digits && AllDigits(digits)
    ensures t[|head|..] == digits && HttpRequest.DigitsEnd(t, |head|) == |t|
  {
    forall k | |head| <= k < |t| ensures IsDigit(t[k]) { assert t[k] == digits[k - |head|]; }
    DigitsEndIs(t, |head|, |t|);
  }

  /** Where the extractor finds the sign and the digits. */
  predicate ReadAt(t: string, i: nat, j: nat, sign: string, digits: string) {
    && i <= j <= |t| && SpaceEnd(t, 0) == i < |t|
    && j == (if t[i] == '-' || t[i] == '+' then i + 1 else i)
    && (sign == "-" <==> t[i] == '-')
    && t[j..] == digits && HttpRequest.DigitsEnd(t, j) == |t|
  }

  lemma DecimalAt(t: string, lead: string, sign: string, digits: string)
    requires IsDecimal(t, lead, sign, digits)
    ensures ReadAt(t, |lead|, |lead| + |sign|, sign, digits)
  {
    var rest := sign + digits;
    assert rest[0] == if sign == "" then digits[0] else sign[0];
    LeadEnds(t, lead, rest);
    assert t == (lead + sign) + digits;
    DigitsReachEnd(t, lead + sign, digits);
  }

  lemma ReadIs(t: string, i: nat, j: nat, sign: string, digits: string, value: nat)
    requires ReadAt(t, i, j, sign, digits) && digits != "" && AllDigits(digits)
    requires value == DecimalValue(digits) <= SIZE_MAX
    ensures StrToUl(t) == Some(Signed(sign, value))
  {
    assert t[j..|t|] == digits;
  }

  lemma DecimalRead(t: string, lead: string, sign: string, digits: string)
    requires IsDecimal(t, lead, sign, digits)
    ensures StrToUl(t) == Some(Signed(sign, DecimalValue(digits)))
  {
    DecimalAt(t, lead, sign, digits);
    ReadIs(t, |lead|, |lead| + |sign|, sign, digits, DecimalValue(digits));
  }

  lemma FoundAt(t: string) returns (i: nat, j: nat)
    requires t != "" && StrToUl(t).Some?
    ensures i <= j < |t| && forall k :: 0 <= k < i ==> IsSpace(t[k])
    ensures j == i || (j == i + 1 && (t[i] == '-' || t[i] == '+'))
    ensures AllDigits(t[j..]) && DecimalValue(t[j..]) <= SIZE_MAX
    ensures StrToUl(t) == Some(Signed(t[i..j], DecimalValue(t[j..])))
  {
    i := SpaceEnd(t, 0);
    j := if i < |t| && (t[i] == '-' || t[i] == '+') then i + 1 else i;
    assert t[j..|t|] == t[j..];
    assert j == i + 1 ==> t[i..j] == [t[i]];
  }

  lemma DecimalFound(t: string) returns (lead: string, sign: string, digits: string)
    requires t != "" && StrToUl(t).Some?
    ensures IsDecimal(t, lead, sign, digits) && StrToUl(t) == Some(Signed(sign, DecimalValue(digits)))
  {
    var i, j := FoundAt(t);
    lead, sign, digits := t[..i], t[i..j], t[j..];
    assert t == lead + (sign + digits);
    assert j == i + 1 ==> sign == [t[i]];
  }

  /** Exactly the values accepted, with the length each denotes. */
  lemma LengthExactly(text: string, n: nat)
    ensures ContentLength(text) == Some(n) <==> IsLength(text, n)
  {
    FoundIsCString(text);
    if ContentLength(text) == Some(n) {
      var t := text[..Find(text, NUL, 0)];
      if t != "" { var lead, sign, digits := DecimalFound(t); }
    }
    if IsLength(text, n) {
      var t :| CString(text, t) &&
         ((t == "" && n == 0)
          || exists lead, sign, digits :: IsDecimal(t, lead, sign, digits) && n == Signed(sign, DecimalValue(digits)));
      CStringIs(text, t);
      if t != "" || n != 0 {
        var lead, sign, digits :| IsDecimal(t, lead, sign, digits) && n == Signed(sign, DecimalValue(digits));
        DecimalRead(t, lead, sign, digits);
      }
    }
  }

  // ------------------------------------------------------------- body length

  /** The request of that head with that body. */
  predicate IsRequest(h: Head, body: string, r: Request) {
    && h.GoodHead?
    && r.verb == h.verb && r.target == h.target && r.path == h.path && r.query == h.query
    && r.version == h.version && r.headers == h.headers && r.body == body
  }

  predicate Answers(h: Head, body: string, maxBody: nat, result: ParseResult) {
    if |body| > maxBody then result.TooLarge? else result.Accepted? && IsRequest(h, body, result.request)
  }

  /** The payload is an encoding of the body cut short. */
  ghost predicate Begins(payload: string, body: string) {
    !Encodes(payload, body) && exists more :: |payload + more| <= TEXT_MAX && Encodes(payload + more, body)
  }

  /** A chunked body. Nothing but an encoding is accepted and every encoding is,
      with its data as body, as long as no size wraps. What is refused as
      malformed stays so whatever follows; the start of an encoding waits for
      the rest. */
  ghost predicate ChunksDecide(h: Head, payload: string, maxBody: nat, result: ParseResult) {
    && (forall body :: Encodes(payload, body) ==> Answers(h, body, maxBody, result))
    && (result.Accepted? && NoWrap(payload) ==>
          Encodes(payload, result.request.body) && Answers(h, result.request.body, maxBody, result))
    && (result.Bad? ==> forall more, body :: |payload + more| <= TEXT_MAX ==> !Encodes(payload + more, body))
    && (NoWrap(payload) ==> forall body :: Begins(payload, body) && |body| <= maxBody ==> result.Incomplete?)
    && (result.Crashed? || result.Stuck? ==> exists pos: nat :: pos <= |payload| && WrapsLine(payload, pos))
    && !result.VersionNotSupported?
  }

  /** A body of n bytes. */
  predicate LengthDecides(h: Head, payload: string, n: nat, maxBody: nat, result: ParseResult) {
    if n > maxBody then result.TooLarge?
    else if |payload| < n then result.Incomplete?
    else result.Accepted? && IsRequest(h, payload[..n], result.request)
  }

  /** How the headers decide where the body ends. Both headers, a transfer coding
      other than chunked, a length that is no length, and a POST with neither
      header are each refused. */
  ghost predicate BodyDecided(h: Head, payload: string, maxBody: nat, result: ParseResult)
    requires h.GoodHead?
  {
    var coded := "transfer-encoding" in h.headers;
    var sized := "content-length" in h.headers;
    if coded then
      if sized || ToLower(Trim(h.headers["transfer-encoding"])) != "chunked" then result.Bad?
      else ChunksDecide(h, payload, maxBody, result)
    else if sized then
      && ((forall n :: !IsLength(h.headers["content-length"], n)) ==> result.Bad?)
      && (forall n :: IsLength(h.headers["content-length"], n) ==> LengthDecides(h, payload, n, maxBody, result))
    else if h.verb == "POST" then result.Bad?
    else result.Accepted? && IsRequest(h, "", result.request)
  }

  lemma RefusedForGood(payload: string, more: string, body: string)
    requires Decode(payload).Rejected? && |payload + more| <= TEXT_MAX
    ensures !Encodes(payload + more, body)
  {
    DecodeLater(payload, more);
    CompletesExactlyOnEncodings(payload + more, body);
  }

  lemma BegunIsPartial(payload: string, body: string)
    requires NoWrap(payload) && Begins(payload, body)
    ensures Decode(payload).Partial? && |Decode(payload).body| <= |body|
  {
    var more :| |payload + more| <= TEXT_MAX && Encodes(payload + more, body);
    CompletesExactlyOnEncodings(payload + more, body);
    CompletesExactlyOnEncodings(payload, body);
    DecodeStable(payload, more);
  }

  lemma ChunkedDecides(h: Head, payload: string, maxBody: nat, result: ParseResult)
    requires h.GoodHead? && |payload| <= TEXT_MAX
    requires result == ChunkedBody(h, Decode(payload), maxBody)
    ensures ChunksDecide(h, payload, maxBody, result)
  {
    forall body | Encodes(payload, body) ensures Answers(h, body, maxBody, result) {
      CompletesExactlyOnEncodings(payload, body);
    }
    if result.Accepted? { CompletesExactlyOnEncodings(payload, result.request.body); }
    if result.Bad? {
      forall more, body | |payload + more| <= TEXT_MAX ensures !Encodes(payload + more, body) {
        RefusedForGood(payload, more, body);
      }
    }
    if NoWrap(payload) {
      forall body | Begins(payload, body) && |body| <= maxBody ensures result.Incomplete? {
        BegunIsPartial(payload, body);
      }
    }
    if result.Crashed? || result.Stuck? { var pos := NoVerdictNeedsWrap(payload); }
  }

  lemma HeadersDecide(h: Head, payload: string, maxBody: nat, result: ParseResult)
    requires h.GoodHead? && |payload| <= TEXT_MAX && result == ParseBody(h, payload, maxBody)
    ensures BodyDecided(h, payload, maxBody, result)
  {
    var coded := "transfer-encoding" in h.headers;
    var sized := "content-length" in h.headers;
    if coded {
      if !sized && ToLower(Trim(h.headers["transfer-encoding"])) == "chunked" {
        ChunkedDecides(h, payload, maxBody, result);
      }
    } else if sized {
      SizedDecides(h, payload, maxBody, result);
    }
  }

  lemma SizedDecides(h: Head, payload: string, maxBody: nat, result: ParseResult)
    requires h.GoodHead? && "transfer-encoding" !in h.headers && "content-length" in h.headers
    requires result == ParseBody(h, payload, maxBody)
    ensures (forall n :: !IsLength(h.headers["content-length"], n)) ==> result.Bad?
    ensures forall n :: IsLength(h.headers["content-length"], n) ==> LengthDecides(h, payload, n, maxBody, result)
  {
    var text := h.headers["content-length"];
    forall n: nat ensures ContentLength(text) == Some(n) <==> IsLength(text, n) { LengthExactly(text, n); }
    if ContentLength(text).Some? { assert IsLength(text, ContentLength(text).value); }
  }

  /** The verdict on the bytes received. Without the blank line that ends the head
      it waits, up to 65536 bytes; a head that is no head, or of another version,
      is refused; else the headers and the payload decide as said above. */
  lemma ParseDecided(raw: string, maxBody: nat)
    requires |raw| <= TEXT_MAX
    ensures var end, result := FindBlankLine(raw, 0), Parse(raw, maxBody);
      if end == |raw| then if |raw| > 65536 then result.Bad? else result.Incomplete?
      else
        match ParseHead(raw[..end])
        case BadHead => result.Bad?
        case OtherVersion => result.VersionNotSupported?
        case GoodHead(_, _, _, _, _, _) => BodyDecided(ParseHead(raw[..end]), raw[end + 4..], maxBody, result)
  {
    var end := FindBlankLine(raw, 0);
    if end < |raw| && ParseHead(raw[..end]).GoodHead? {
      HeadersDecide(ParseHead(raw[..end]), raw[end + 4..], maxBody, Parse(raw, maxBody));
    }
  }

  // --------------------------------------------------------------- the head

  /** The target's path before the first question mark, its query after it. */
  predicate SplitsTarget(target: string, encoded: string, query: string) {
    '?' !in encoded && ((target == encoded && query == "") || target == encoded + "?" + query)
  }

  /** Whatever head is accepted: a token, a target and the version HTTP/1.1, a
      Host header, a decoded path and the query as it stands. */
  lemma HeadMeans(text: string, h: Head) returns (encoded: string)
    requires h == ParseHead(text) && h.GoodHead?
    ensures ValidToken(h.verb) && h.version == "HTTP/1.1" && "host" in h.headers
    ensures h.target != "" && h.target[0] == '/'
    ensures SplitsTarget(h.target, encoded, h.query) && Path(encoded) == Some(h.path)
  {
    var mark := Find(h.target, '?', 0);
    encoded := h.target[..mark];
    if mark < |h.target| { assert h.target == encoded + "?" + h.target[mark + 1..]; }
  }
}
