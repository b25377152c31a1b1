/** How TCP cuts a request and what comes of it: the server looks at all it has
    after each recv, and the first final verdict stands (readClient in
    apps/webserv/src/Server.cpp). For every stream: whether all cuttings lead to
    the same verdict. */
module HttpCuts {
  import opened HttpText
  import opened Limits
  import opened Cuttings
  import opened Chunked
  import opened HttpRequest

  // ------------------------------------------------------------ one recv

  /** The limit comes first, then the parser on all that has come. */
  function ReadOne(seen: string, piece: string, maxBody: nat): ParseResult {
    if |seen| > RequestLimit(maxBody) - |piece| then TooLarge else Parse(seen + piece, maxBody)
  }

  /** The same, of all that has come. */
  function Judge(raw: string, maxBody: nat): ParseResult {
    if |raw| > RequestLimit(maxBody) then TooLarge else Parse(raw, maxBody)
  }

  lemma ReadOneJudges(seen: string, piece: string, maxBody: nat)
    ensures ReadOne(seen, piece, maxBody) == Judge(seen + piece, maxBody)
  {
  }

  function Reader(maxBody: nat): string -> ParseResult { (raw: string) => Judge(raw, maxBody) }

  /** What the server makes of a request that comes in these pieces. */
  ghost function Outcome(pieces: seq<string>, maxBody: nat): ParseResult {
    Feed(Reader(maxBody), Incomplete, "", pieces)
  }

  ghost predicate Agreeing(stream: string, maxBody: nat) { CutsAgree(Reader(maxBody), Incomplete, stream) }

  /** The verdict if a piece ends after n bytes, for each n. */
  function Verdicts(stream: string, maxBody: nat): (v: seq<ParseResult>)
    ensures |v| == |stream| + 1
  {
    Judged(Reader(maxBody), stream)
  }

  // ------------------------------------------------ verdicts on prefixes

  /** Where the body begins; past the end if the head is not over. */
  function HeadEnd(stream: string): nat { FindBlankLine(stream, 0) + 4 }

  /** The head ends early enough for its 65536-byte limit never to strike. */
  predicate ShortHead(stream: string) { HeadPresent(stream) && HeadEnd(stream) <= MAX_HEAD + 1 }

  /** Before the head is over, and past the limit, the length alone counts. */
  ghost predicate Heading(v: seq<ParseResult>, h: nat, limit: nat) {
    forall n {:trigger v[n]} :: 0 <= n < |v| ==>
      (n > limit ==> v[n] == TooLarge)
      && (n < h && n <= limit ==> v[n] == if n > MAX_HEAD then Bad else Incomplete)
  }

  /** After it verdicts change only in the ways the parser allows. */
  ghost predicate Holding(v: seq<ParseResult>, h: nat, limit: nat) {
    forall n, k {:trigger Holds(v[n], v[k])} :: h <= n <= k < |v| && k <= limit ==> Holds(v[n], v[k])
  }

  /** An accepted request is changed by any more bytes or by none. */
  ghost predicate Steadying(v: seq<ParseResult>, h: nat, limit: nat) {
    forall m, j, k {:trigger v[m], v[j], v[k]} ::
      h <= m < j < |v| && m < k < |v| && j <= limit && k <= limit && v[m].Accepted? ==>
        (v[j] == v[m] <==> v[k] == v[m])
  }

  ghost predicate Lawful(v: seq<ParseResult>, h: nat, limit: nat) {
    Heading(v, h, limit) && Holding(v, h, limit) && Steadying(v, h, limit)
    && 0 < h && MAX_HEAD <= limit
  }

  lemma BeforeHead(stream: string, n: nat, raw: string, maxBody: nat)
    requires n <= |stream| && n < HeadEnd(stream) && raw == stream[..n]
    ensures Parse(raw, maxBody) == if n > MAX_HEAD then Bad else Incomplete
  {
    forall i {:trigger BlankLine(raw, i)} | 0 <= i < n ensures !BlankLine(raw, i) {
      if BlankLine(raw, i) { assert BlankLine(stream, i); }
    }
    FindBlankLineIs(raw, 0, n);
  }

  lemma AfterHead(stream: string, n: nat)
    requires HeadEnd(stream) <= n <= |stream|
    ensures HeadPresent(stream[..n])
  {
    assert BlankLine(stream[..n], FindBlankLine(stream, 0));
  }

  lemma VerdictIs(stream: string, n: nat, raw: string, maxBody: nat)
    requires n <= |stream| && raw == stream[..n]
    ensures Verdicts(stream, maxBody)[n] == if n > RequestLimit(maxBody) then TooLarge else Parse(raw, maxBody)
  {
  }

  lemma VerdictsHold(stream: string, n: nat, k: nat, maxBody: nat)
    requires HeadEnd(stream) <= n <= k <= |stream| && k <= RequestLimit(maxBody) && maxBody <= MAX_BODY
    ensures Holds(Verdicts(stream, maxBody)[n], Verdicts(stream, maxBody)[k])
  {
    AfterHead(stream, n);
    assert stream[..k] == stream[..n] + stream[n..k];
    VerdictIs(stream, n, stream[..n], maxBody);
    VerdictIs(stream, k, stream[..k], maxBody);
    ParseLater(stream[..n], stream[n..k], maxBody);
  }

  lemma AcceptedOn(raw: string, more: string, whole: string, maxBody: nat)
    requires HeadPresent(raw) && Parse(raw, maxBody).Accepted? && more != "" && |whole| <= TEXT_MAX
    requires whole == raw + more
    ensures Parse(whole, maxBody) == Parse(raw, maxBody) <==> Steady(raw)
  {
    AcceptedStableIff(raw, more, maxBody);
  }

  /** More bytes, within the limit, leave an accepted request alone exactly if no
      chunk size has wrapped. */
  lemma VerdictsSteady(stream: string, n: nat, k: nat, raw: string, maxBody: nat)
    requires HeadEnd(stream) <= n < k <= |stream| && k <= RequestLimit(maxBody) && maxBody <= MAX_BODY
    requires raw == stream[..n] && Verdicts(stream, maxBody)[n].Accepted?
    ensures HeadPresent(raw)
    ensures Verdicts(stream, maxBody)[k] == Verdicts(stream, maxBody)[n] <==> Steady(raw)
  {
    AfterHead(stream, n);
    assert stream[..k] == stream[..n] + stream[n..k];
    VerdictIs(stream, n, raw, maxBody);
    VerdictIs(stream, k, stream[..k], maxBody);
    AcceptedOn(raw, stream[n..k], stream[..k], maxBody);
  }

  lemma VerdictsLawful(stream: string, maxBody: nat)
    requires maxBody <= MAX_BODY
    ensures Lawful(Verdicts(stream, maxBody), HeadEnd(stream), RequestLimit(maxBody))
  {
    var v, h, limit := Verdicts(stream, maxBody), HeadEnd(stream), RequestLimit(maxBody);
    forall n | 0 <= n < |v|
      ensures n > limit ==> v[n] == TooLarge
      ensures n < h && n <= limit ==> v[n] == if n > MAX_HEAD then Bad else Incomplete
    {
      VerdictIs(stream, n, stream[..n], maxBody);
      if n < h { BeforeHead(stream, n, stream[..n], maxBody); }
    }
    forall n, k | h <= n <= k < |v| && k <= limit ensures Holds(v[n], v[k]) { VerdictsHold(stream, n, k, maxBody); }
    forall m, j, k | h <= m < j < |v| && m < k < |v| && j <= limit && k <= limit && v[m].Accepted?
      ensures v[j] == v[m] <==> v[k] == v[m]
    {
      VerdictsSteady(stream, m, j, stream[..m], maxBody);
      VerdictsSteady(stream, m, k, stream[..m], maxBody);
    }
  }

  // ------------------------------------------------------- one verdict

  function Least(a: nat, b: nat): nat { if a < b then a else b }

  /** One verdict from m up to `top`: a matter of two positions. */
  predicate OneVerdict(v: seq<ParseResult>, limit: nat, m: nat, top: nat)
    requires m <= top < |v|
  {
    m > limit || ((v[m] == TooLarge || top <= limit) && v[Least(top, limit)] == v[m])
  }

  lemma SameBetween(v: seq<ParseResult>, h: nat, limit: nat, m: nat, n: nat, d: nat)
    requires Lawful(v, h, limit) && h <= m <= n <= d < |v| && d <= limit
    requires v[m] != Incomplete && v[d] == v[m]
    ensures v[n] == v[m]
  {
    if m < n && !v[m].Accepted? {
      assert Holds(v[m], v[n]) && Holds(v[n], v[d]);
    }
  }

  lemma OneVerdictMeans(v: seq<ParseResult>, h: nat, limit: nat, m: nat, top: nat)
    requires Lawful(v, h, limit) && h <= m <= top < |v| && v[m] != Incomplete
    ensures OneVerdict(v, limit, m, top) <==> forall n {:trigger v[n]} :: m <= n <= top ==> v[n] == v[m]
  {
    if m <= limit && OneVerdict(v, limit, m, top) {
      forall n | m <= n <= top ensures v[n] == v[m] {
        if n <= limit { SameBetween(v, h, limit, m, n, Least(top, limit)); }
      }
    } else if m <= limit {
      assert v[top] == v[m] ==> v[m] == TooLarge || top <= limit;
    }
  }

  /** Final after the head means final from there. */
  lemma StaysFinal(v: seq<ParseResult>, h: nat, limit: nat, m: nat)
    requires Lawful(v, h, limit) && h <= m < |v| && v[m] != Incomplete
    ensures Final(v, Incomplete, m, |v|)
  {
    forall n | m <= n < |v| ensures v[n] != Incomplete {
      if n <= limit { assert Holds(v[m], v[n]); }
    }
  }

  // -------------------------------------------- heads within the limit

  lemma ShortSettles(v: seq<ParseResult>, h: nat, limit: nat)
    requires Lawful(v, h, limit) && h <= MAX_HEAD + 1 && First(v, Incomplete, 0) < |v|
    ensures var m := First(v, Incomplete, 0);
      h <= m && 0 < m && Waits(v, Incomplete, 0, m) && Final(v, Incomplete, m, |v|)
  {
    var m := First(v, Incomplete, 0);
    StaysFinal(v, h, limit, m);
  }

  /** What can come of a stream with a short head: the verdicts from the first
      final one up to one recv further. */
  lemma ShortOutcomes(stream: string, maxBody: nat, result: ParseResult)
    requires ShortHead(stream) && maxBody <= MAX_BODY
    requires First(Verdicts(stream, maxBody), Incomplete, 0) <= |stream|
    ensures (exists pieces :: Cuts(pieces, stream) && Outcome(pieces, maxBody) == result)
       <==> var v := Verdicts(stream, maxBody);
            var m := First(v, Incomplete, 0);
            exists n: nat {:trigger v[n]} :: m <= n <= LastCut(stream, m) && v[n] == result
  {
    var v := Verdicts(stream, maxBody);
    var m := First(v, Incomplete, 0);
    VerdictsLawful(stream, maxBody);
    ShortSettles(v, HeadEnd(stream), RequestLimit(maxBody));
    OutcomesFrom(stream, maxBody, v, m, result);
  }

  lemma OutcomesFrom(stream: string, maxBody: nat, v: seq<ParseResult>, m: nat, result: ParseResult)
    requires v == Verdicts(stream, maxBody) && 0 < m < |v|
    requires Waits(v, Incomplete, 0, m) && Final(v, Incomplete, m, |v|)
    ensures (exists pieces :: Cuts(pieces, stream) && Outcome(pieces, maxBody) == result)
       <==> exists n: nat {:trigger v[n]} :: m <= n <= LastCut(stream, m) && v[n] == result
  {
    Outcomes(Reader(maxBody), Incomplete, stream, result);
    forall n: nat ensures Ends(v, Incomplete, n) <==> m <= n <= LastCut(stream, m) {
      SettledEnds(v, Incomplete, m, n);
    }
  }

  lemma SettledAgree(stream: string, maxBody: nat, v: seq<ParseResult>, m: nat)
    requires v == Verdicts(stream, maxBody) && 0 < m < |v|
    requires Waits(v, Incomplete, 0, m) && Final(v, Incomplete, m, |v|)
    ensures Agreeing(stream, maxBody) <==> forall n {:trigger v[n]} :: m <= n <= LastCut(stream, m) ==> v[n] == v[m]
  {
    CutsAgreeMeans(Reader(maxBody), Incomplete, stream);
    AgreeIff(v, Incomplete);
    forall n: nat ensures Ends(v, Incomplete, n) <==> m <= n <= LastCut(stream, m) {
      SettledEnds(v, Incomplete, m, n);
    }
  }

  /** No cutting matters while nothing is final. */
  lemma NeverFinal(stream: string, maxBody: nat)
    requires First(Verdicts(stream, maxBody), Incomplete, 0) > |stream|
    ensures Agreeing(stream, maxBody)
  {
    CutsAgreeMeans(Reader(maxBody), Incomplete, stream);
    if stream != "" { AgreeIff(Verdicts(stream, maxBody), Incomplete); } else { OnlyEmpty(); }
  }

  lemma OnlyEmpty()
    ensures forall gaps :: Fits(gaps, 0, 0) ==> gaps == []
  {
  }

  /** A short head: all cuttings agree exactly if the verdict one recv after the
      first final one, or at the limit, is that one; past the limit only if it
      is 413. */
  lemma ShortAgreeIff(stream: string, maxBody: nat)
    requires ShortHead(stream) && maxBody <= MAX_BODY
    ensures var v := Verdicts(stream, maxBody);
      var m := First(v, Incomplete, 0);
      Agreeing(stream, maxBody) <==>
        m > |stream| || OneVerdict(v, RequestLimit(maxBody), m, LastCut(stream, m))
  {
    var v := Verdicts(stream, maxBody);
    var m := First(v, Incomplete, 0);
    if m > |stream| {
      NeverFinal(stream, maxBody);
    } else {
      VerdictsLawful(stream, maxBody);
      ShortSettles(v, HeadEnd(stream), RequestLimit(maxBody));
      SettledAgree(stream, maxBody, v, m);
      OneVerdictMeans(v, HeadEnd(stream), RequestLimit(maxBody), m, LastCut(stream, m));
    }
  }

  // --------------------------------------------------- heads too long

  /** Refused where the head exceeds its limit, if a piece ends there, and judged
      again once the head is over. */
  lemma LongReopens(v: seq<ParseResult>, h: nat, limit: nat, n: nat)
    requires Lawful(v, h, limit) && MAX_HEAD + 1 < h && MAX_HEAD + 1 < |v|
    requires n == if h >= |v| then h else First(v, Incomplete, h)
    ensures Reopens(v, Incomplete, MAX_HEAD + 1, h, n)
    ensures v[MAX_HEAD + 1] == if limit == MAX_HEAD then TooLarge else Bad
  {
    if n < |v| { StaysFinal(v, h, limit, n); }
  }

  /** The last position where a verdict may count. */
  function LongTop(stream: string, h: nat, n: nat): nat {
    LastCut(stream, if h >= MAX_HEAD + 1 + READ_SIZE || h > |stream| || n == h then MAX_HEAD + 1 else n)
  }

  /** All verdicts that may count are 400: the blank line comes too late to be
      seen, or what follows it is malformed anyway, and the limit is not met. */
  predicate AllBad(stream: string, v: seq<ParseResult>, h: nat, n: nat, limit: nat) {
    && LongTop(stream, h, n) <= limit
    && (h >= MAX_HEAD + 1 + READ_SIZE || h > |stream| || (n < |v| && v[n] == Bad))
  }

  /** Where a verdict of such a stream may count. */
  predicate Plausible(v: seq<ParseResult>, h: nat, n: nat, at: nat) {
    if h >= MAX_HEAD + 1 + READ_SIZE then MAX_HEAD < at < |v| && at < MAX_HEAD + 1 + READ_SIZE
    else
      && at < |v| && (MAX_HEAD < at < h || n <= at || at == |v| - 1 >= h)
      && at < (if n == h || |v| <= h then MAX_HEAD + 1 else n) + READ_SIZE
  }

  lemma LongEnds(v: seq<ParseResult>, h: nat, n: nat, at: nat)
    requires Reopens(v, Incomplete, MAX_HEAD + 1, h, n)
    ensures Ends(v, Incomplete, at) <==> Plausible(v, h, n, at)
  {
    if h >= MAX_HEAD + 1 + READ_SIZE { FarEnds(v, Incomplete, MAX_HEAD + 1, h, n, at); }
    else { NearEnds(v, Incomplete, MAX_HEAD + 1, h, n, at); }
  }

  lemma PlausibleBad(stream: string, v: seq<ParseResult>, h: nat, limit: nat, n: nat)
    requires Lawful(v, h, limit) && MAX_HEAD < limit && |v| == |stream| + 1
    requires Reopens(v, Incomplete, MAX_HEAD + 1, h, n)
    ensures AllBad(stream, v, h, n, limit) <==> forall at: nat :: Plausible(v, h, n, at) ==> v[at] == Bad
  {
    var top := LongTop(stream, h, n);
    assert Plausible(v, h, n, if h <= |stream| < n && h < MAX_HEAD + 1 + READ_SIZE then |stream| else top);
    if AllBad(stream, v, h, n, limit) {
      forall at: nat | Plausible(v, h, n, at) ensures v[at] == Bad {
        if at >= h { assert Holds(v[n], v[at]); }
      }
    } else if n < |v| && h < MAX_HEAD + 1 + READ_SIZE {
      assert Plausible(v, h, n, n);
    }
  }

  /** A head that goes on past its limit: some cutting is refused for it, so all
      agree exactly if no other verdict can count. */
  lemma LongAgreeIff(stream: string, maxBody: nat)
    requires !ShortHead(stream) && |stream| > MAX_HEAD && maxBody <= MAX_BODY
    ensures var v, h := Verdicts(stream, maxBody), HeadEnd(stream);
      var n := if h > |stream| then h else First(v, Incomplete, h);
      Agreeing(stream, maxBody) <==> maxBody == 0 || AllBad(stream, v, h, n, RequestLimit(maxBody))
  {
    var v, h, limit := Verdicts(stream, maxBody), HeadEnd(stream), RequestLimit(maxBody);
    var n := if h > |stream| then h else First(v, Incomplete, h);
    VerdictsLawful(stream, maxBody);
    LongReopens(v, h, limit, n);
    CutsAgreeMeans(Reader(maxBody), Incomplete, stream);
    AgreeIff(v, Incomplete);
    forall at: nat ensures Ends(v, Incomplete, at) <==> Plausible(v, h, n, at) { LongEnds(v, h, n, at); }
    assert Plausible(v, h, n, MAX_HEAD + 1);
    if maxBody > 0 { PlausibleBad(stream, v, h, limit, n); }
  }

  // ----------------------------------------------------- in every case

  /** Whether the cuts of a stream do not matter. */
  predicate Harmless(stream: string, maxBody: nat) {
    var v, h, limit := Verdicts(stream, maxBody), HeadEnd(stream), RequestLimit(maxBody);
    if ShortHead(stream) then
      var m := First(v, Incomplete, 0);
      m > |stream| || OneVerdict(v, limit, m, LastCut(stream, m))
    else
      |stream| <= MAX_HEAD || maxBody == 0
      || AllBad(stream, v, h, if h > |stream| then h else First(v, Incomplete, h), limit)
  }

  /** "The verdict does not depend on the cuts" does not hold; it holds of exactly
      these streams. */
  lemma CutsAgreeExactly(stream: string, maxBody: nat)
    requires maxBody <= MAX_BODY
    ensures Agreeing(stream, maxBody) <==> Harmless(stream, maxBody)
  {
    if ShortHead(stream) {
      ShortAgreeIff(stream, maxBody);
    } else if |stream| > MAX_HEAD {
      LongAgreeIff(stream, maxBody);
    } else {
      VerdictsLawful(stream, maxBody);
      NeverFinal(stream, maxBody);
    }
  }

  // ----------------------------------------------------------- acceptance

  /** Where a cutting had its request accepted. */
  lemma AcceptedAt(stream: string, pieces: seq<string>, maxBody: nat) returns (e: nat)
    requires Cuts(pieces, stream) && Outcome(pieces, maxBody).Accepted? && maxBody <= MAX_BODY
    ensures HeadEnd(stream) <= e <= |stream| && e <= RequestLimit(maxBody)
    ensures Verdicts(stream, maxBody)[e].Accepted? && Ends(Verdicts(stream, maxBody), Incomplete, e)
  {
    VerdictsLawful(stream, maxBody);
    WholeIsWalk(Reader(maxBody), Incomplete, stream, pieces);
    e := WalkEnds(Verdicts(stream, maxBody), Incomplete, 0, Lengths(pieces));
  }

  lemma FirstAccepted(v: seq<ParseResult>, h: nat, limit: nat, e: nat)
    requires Lawful(v, h, limit) && h <= e < |v| && e <= limit && v[e].Accepted? && h <= MAX_HEAD + 1
    ensures var m := First(v, Incomplete, 0);
      h <= m <= e && v[m].Accepted?
  {
    var m := First(v, Incomplete, 0);
    assert Holds(v[m], v[e]) by { ShortSettles(v, h, limit); }
  }

  lemma AcceptedTop(stream: string, maxBody: nat, v: seq<ParseResult>, m: nat, raw: string)
    requires v == Verdicts(stream, maxBody) && HeadEnd(stream) <= m <= |stream| && v[m].Accepted?
    requires raw == stream[..m] && maxBody <= MAX_BODY
    ensures m <= RequestLimit(maxBody) && HeadPresent(raw)
    ensures var top, limit := LastCut(stream, m), RequestLimit(maxBody);
      v[Least(top, limit)] == v[m] <==> Least(top, limit) == m || Steady(raw)
  {
    AfterHead(stream, m);
    VerdictIs(stream, m, raw, maxBody);
    var d := Least(LastCut(stream, m), RequestLimit(maxBody));
    if m < d { VerdictsSteady(stream, m, d, raw, maxBody); }
  }

  lemma ShortAccepted(stream: string, maxBody: nat, v: seq<ParseResult>, m: nat, raw: string)
    requires v == Verdicts(stream, maxBody) && m == First(v, Incomplete, 0) && HeadEnd(stream) <= m <= |stream|
    requires raw == stream[..m] && ShortHead(stream) && maxBody <= MAX_BODY && v[m].Accepted?
    ensures HeadPresent(raw)
    ensures Agreeing(stream, maxBody) <==>
      m == |stream| || (Steady(raw) && LastCut(stream, m) <= RequestLimit(maxBody))
  {
    ShortAgreeIff(stream, maxBody);
    AcceptedTop(stream, maxBody, v, m, raw);
  }

  lemma LongDisagree(stream: string, maxBody: nat, v: seq<ParseResult>, e: nat)
    requires v == Verdicts(stream, maxBody) && !ShortHead(stream) && maxBody <= MAX_BODY
    requires HeadEnd(stream) <= e <= |stream| && v[e].Accepted? && Ends(v, Incomplete, e)
    ensures !Agreeing(stream, maxBody)
  {
    var h := HeadEnd(stream);
    var n := First(v, Incomplete, h);
    VerdictsLawful(stream, maxBody);
    LongReopens(v, h, RequestLimit(maxBody), n);
    CutsAgreeMeans(Reader(maxBody), Incomplete, stream);
    AgreeIff(v, Incomplete);
    LongEnds(v, h, n, MAX_HEAD + 1);
  }

  /** "However TCP cuts it, the same request is accepted" does not hold. Of a
      stream that some cutting gets accepted, all cuttings agree if and only if
      the head is within its limit and either the stream ends with the request or
      no chunk size wraps and one recv more stays within the input limit. */
  lemma AcceptanceIgnoresCutsIff(stream: string, pieces: seq<string>, maxBody: nat)
    requires Cuts(pieces, stream) && Outcome(pieces, maxBody).Accepted? && maxBody <= MAX_BODY
    ensures var m := First(Verdicts(stream, maxBody), Incomplete, 0);
      m <= |stream| && (ShortHead(stream) ==> HeadPresent(stream[..m])) &&
      (Agreeing(stream, maxBody) <==>
         ShortHead(stream)
         && (m == |stream| || (Steady(stream[..m]) && LastCut(stream, m) <= RequestLimit(maxBody))))
  {
    var v := Verdicts(stream, maxBody);
    var m := First(v, Incomplete, 0);
    var e := AcceptedAt(stream, pieces, maxBody);
    if ShortHead(stream) {
      VerdictsLawful(stream, maxBody);
      FirstAccepted(v, HeadEnd(stream), RequestLimit(maxBody), e);
      ShortAccepted(stream, maxBody, v, m, stream[..m]);
    } else {
      LongDisagree(stream, maxBody, v, e);
    }
  }

  /** Of a stream with a short head whose first final verdict is a refusal, all
      cuttings agree if and only if that verdict stays: a body too large is not
      found malformed within one recv, and no other refusal is overtaken by the
      input limit. */
  lemma RefusalIgnoresCutsIff(stream: string, maxBody: nat)
    requires ShortHead(stream) && maxBody <= MAX_BODY
    requires var v := Verdicts(stream, maxBody);
      var m := First(v, Incomplete, 0);
      m <= |stream| && !v[m].Accepted?
    ensures var v, limit := Verdicts(stream, maxBody), RequestLimit(maxBody);
      var m := First(v, Incomplete, 0);
      Agreeing(stream, maxBody) <==>
        if v[m] == TooLarge then m > limit || v[Least(LastCut(stream, m), limit)] == TooLarge
        else LastCut(stream, m) <= limit
  {
    var v, limit := Verdicts(stream, maxBody), RequestLimit(maxBody);
    var m := First(v, Incomplete, 0);
    VerdictsLawful(stream, maxBody);
    ShortSettles(v, HeadEnd(stream), limit);
    ShortAgreeIff(stream, maxBody);
    if v[m] != TooLarge && LastCut(stream, m) <= limit { assert Holds(v[m], v[LastCut(stream, m)]); }
  }
}
