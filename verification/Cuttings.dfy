/** A stream received piece by piece, each piece at most what one recv brings,
    and a verdict on every prefix: the verdict that counts is the first, at the
    end of a piece, that is not "wait". Which verdicts can count, over all ways
    of cutting the stream (readClient in apps/webserv/src/Server.cpp). */
module Cuttings {
  import opened Strings
  import opened Limits

  /** The lengths of the pieces lead from one position to the other. */
  predicate Fits(gaps: seq<nat>, at: nat, end: nat): (b: bool)
    ensures b ==> at <= end
  {
    if gaps == [] then at == end
    else 0 < gaps[0] <= READ_SIZE && Fits(gaps[1..], at + gaps[0], end)
  }

  /** The first verdict at the end of a piece that is not to wait. */
  ghost function Walk<T>(verdicts: seq<T>, wait: T, at: nat, gaps: seq<nat>): T
    requires verdicts != [] && Fits(gaps, at, |verdicts| - 1)
    decreases |gaps|
  {
    if gaps == [] then wait
    else
      var next := at + gaps[0];
      assert Fits(gaps[1..], next, |verdicts| - 1);
      if verdicts[next] != wait then verdicts[next] else Walk(verdicts, wait, next, gaps[1..])
  }

  /** Some cutting is still waiting at this position. */
  ghost predicate Open<T>(verdicts: seq<T>, wait: T, at: nat)
    requires at < |verdicts|
  {
    at == 0 ||
    (verdicts[at] == wait && exists from: nat :: from < at <= from + READ_SIZE && Open(verdicts, wait, from))
  }

  /** Some cutting has its verdict here. */
  ghost predicate Ends<T>(verdicts: seq<T>, wait: T, at: nat) {
    && 0 < at < |verdicts| && (verdicts[at] != wait || at == |verdicts| - 1)
    && exists from: nat :: from < at <= from + READ_SIZE && Open(verdicts, wait, from)
  }

  lemma OpenBefore<T>(verdicts: seq<T>, wait: T, at: nat) returns (from: nat)
    requires 0 < at < |verdicts| && Open(verdicts, wait, at)
    ensures from < at <= from + READ_SIZE && Open(verdicts, wait, from) && verdicts[at] == wait
  {
    from :| from < at <= from + READ_SIZE && Open(verdicts, wait, from);
  }

  lemma {:induction false} WalkEnds<T>(verdicts: seq<T>, wait: T, at: nat, gaps: seq<nat>) returns (end: nat)
    requires gaps != [] && at < |verdicts| && Fits(gaps, at, |verdicts| - 1) && Open(verdicts, wait, at)
    ensures Ends(verdicts, wait, end) && Walk(verdicts, wait, at, gaps) == verdicts[end]
    decreases |gaps|
  {
    end := at + gaps[0];
    if verdicts[end] == wait && gaps[1..] != [] { end := WalkEnds(verdicts, wait, end, gaps[1..]); }
  }

  /** A cutting that is still waiting at an open position, and goes on. */
  lemma {:induction false} WayTo<T>(verdicts: seq<T>, wait: T, at: nat, rest: seq<nat>) returns (gaps: seq<nat>)
    requires at < |verdicts| && Open(verdicts, wait, at) && Fits(rest, at, |verdicts| - 1)
    ensures Fits(gaps, 0, |verdicts| - 1) && (rest != [] ==> gaps != [])
    ensures Walk(verdicts, wait, 0, gaps) == Walk(verdicts, wait, at, rest)
    decreases at
  {
    if at == 0 {
      gaps := rest;
    } else {
      var from := OpenBefore(verdicts, wait, at);
      var longer := [at - from] + rest;
      assert longer[1..] == rest;
      gaps := WayTo(verdicts, wait, from, longer);
    }
  }

  lemma {:induction false} ByBytes(at: nat, end: nat) returns (gaps: seq<nat>)
    requires at <= end
    ensures Fits(gaps, at, end)
    decreases end - at
  {
    if at == end { gaps := []; } else {
      var rest := ByBytes(at + 1, end);
      gaps := [1] + rest;
      assert gaps[1..] == rest;
    }
  }

  lemma CutEnds<T>(verdicts: seq<T>, wait: T, end: nat) returns (gaps: seq<nat>)
    requires Ends(verdicts, wait, end)
    ensures gaps != [] && Fits(gaps, 0, |verdicts| - 1) && Walk(verdicts, wait, 0, gaps) == verdicts[end]
  {
    var from: nat :| from < end <= from + READ_SIZE && Open(verdicts, wait, from);
    var rest := ByBytes(end, |verdicts| - 1);
    var longer := [end - from] + rest;
    assert longer[1..] == rest;
    gaps := WayTo(verdicts, wait, from, longer);
  }

  ghost predicate Agree<T>(verdicts: seq<T>, wait: T)
    requires verdicts != []
  {
    forall gaps, others {:trigger Fits(gaps, 0, |verdicts| - 1), Fits(others, 0, |verdicts| - 1)} ::
      Fits(gaps, 0, |verdicts| - 1) && Fits(others, 0, |verdicts| - 1) ==>
      Walk(verdicts, wait, 0, gaps) == Walk(verdicts, wait, 0, others)
  }

  /** All cuttings agree exactly when all positions where one has its verdict do. */
  lemma AgreeIff<T>(verdicts: seq<T>, wait: T)
    requires |verdicts| > 1
    ensures Agree(verdicts, wait) <==>
            forall a: nat, b: nat :: Ends(verdicts, wait, a) && Ends(verdicts, wait, b) ==> verdicts[a] == verdicts[b]
  {
    if Agree(verdicts, wait) {
      forall a: nat, b: nat | Ends(verdicts, wait, a) && Ends(verdicts, wait, b) ensures verdicts[a] == verdicts[b] {
        var gaps := CutEnds(verdicts, wait, a);
        var others := CutEnds(verdicts, wait, b);
      }
    }
    if forall a: nat, b: nat :: Ends(verdicts, wait, a) && Ends(verdicts, wait, b) ==> verdicts[a] == verdicts[b] {
      forall gaps, others | Fits(gaps, 0, |verdicts| - 1) && Fits(others, 0, |verdicts| - 1)
        ensures Walk(verdicts, wait, 0, gaps) == Walk(verdicts, wait, 0, others)
      {
        var a := WalkEnds(verdicts, wait, 0, gaps);
        var b := WalkEnds(verdicts, wait, 0, others);
      }
    }
  }

  // ------------------------------------------- a verdict that stays final

  /** To wait from a to b. */
  ghost predicate Waits<T>(verdicts: seq<T>, wait: T, a: nat, b: nat) {
    forall n {:trigger verdicts[n]} :: a <= n < b && n < |verdicts| ==> verdicts[n] == wait
  }

  ghost predicate Final<T>(verdicts: seq<T>, wait: T, a: nat, b: nat) {
    forall n {:trigger verdicts[n]} :: a <= n < b && n < |verdicts| ==> verdicts[n] != wait
  }

  /** Waiting byte by byte. */
  lemma {:induction false} OpenThrough<T>(verdicts: seq<T>, wait: T, a: nat, b: nat)
    requires a <= b < |verdicts| && Open(verdicts, wait, a) && Waits(verdicts, wait, a, b + 1)
    ensures Open(verdicts, wait, b)
    decreases b
  {
    if a < b { OpenThrough(verdicts, wait, a, b - 1); }
  }

  /** Waiting before m and never again: a verdict counts at m or within one piece
      after it. */
  lemma SettledEnds<T>(verdicts: seq<T>, wait: T, m: nat, at: nat)
    requires 0 < m < |verdicts| && Waits(verdicts, wait, 0, m) && Final(verdicts, wait, m, |verdicts|)
    ensures Ends(verdicts, wait, at) <==> m <= at < |verdicts| && at < m + READ_SIZE
  {
    if m <= at < |verdicts| && at < m + READ_SIZE { OpenThrough(verdicts, wait, 0, m - 1); }
  }

  /** Waiting before m, final up to h, waiting up to n, final from there. */
  ghost predicate Reopens<T>(verdicts: seq<T>, wait: T, m: nat, h: nat, n: nat) {
    && 0 < m < h <= n && m < |verdicts|
    && Waits(verdicts, wait, 0, m) && Final(verdicts, wait, m, h)
    && Waits(verdicts, wait, h, n) && Final(verdicts, wait, n, |verdicts|)
  }

  /** The second wait is out of reach of a piece. */
  lemma {:induction false} NotReopened<T>(verdicts: seq<T>, wait: T, m: nat, h: nat, n: nat, at: nat)
    requires Reopens(verdicts, wait, m, h, n) && h >= m + READ_SIZE && at < |verdicts|
    ensures Open(verdicts, wait, at) <==> at < m
    decreases at
  {
    if at < m {
      OpenThrough(verdicts, wait, 0, at);
    } else if Open(verdicts, wait, at) {
      var from := OpenBefore(verdicts, wait, at);
      NotReopened(verdicts, wait, m, h, n, from);
    }
  }

  lemma FarEnds<T>(verdicts: seq<T>, wait: T, m: nat, h: nat, n: nat, at: nat)
    requires Reopens(verdicts, wait, m, h, n) && h >= m + READ_SIZE
    ensures Ends(verdicts, wait, at) <==> m <= at < |verdicts| && at < m + READ_SIZE
  {
    if Ends(verdicts, wait, at) {
      var from: nat :| from < at <= from + READ_SIZE && Open(verdicts, wait, from);
      NotReopened(verdicts, wait, m, h, n, from);
    }
    if m <= at < |verdicts| && at < m + READ_SIZE { OpenThrough(verdicts, wait, 0, m - 1); }
  }

  lemma Reopened<T>(verdicts: seq<T>, wait: T, m: nat, h: nat, n: nat, at: nat)
    requires Reopens(verdicts, wait, m, h, n) && h < m + READ_SIZE && h <= at < n && at < |verdicts|
    ensures Open(verdicts, wait, at)
  {
    OpenThrough(verdicts, wait, 0, m - 1);
    assert Open(verdicts, wait, h);
    OpenThrough(verdicts, wait, h, at);
  }

  /** Within reach: also up to one piece after the last wait, and at the end if it
      is still waited for. */
  lemma NearEnds<T>(verdicts: seq<T>, wait: T, m: nat, h: nat, n: nat, at: nat)
    requires Reopens(verdicts, wait, m, h, n) && h < m + READ_SIZE
    ensures Ends(verdicts, wait, at) <==>
      && at < |verdicts| && (m <= at < h || n <= at || at == |verdicts| - 1 >= h)
      && at < (if n == h || |verdicts| <= h then m else n) + READ_SIZE
  {
    if at < |verdicts| && m <= at < m + READ_SIZE { OpenThrough(verdicts, wait, 0, m - 1); }
    if h <= at < |verdicts| && h < n && at < n + READ_SIZE && (n <= at || at == |verdicts| - 1) {
      Reopened(verdicts, wait, m, h, n, if at >= n then n - 1 else if at == h then h else at - 1);
    }
  }

  // ------------------------------------------------------- pieces of text

  /** Piece after piece, all that has come judged each time, until the judgement
      is not to wait. */
  ghost function Feed<T>(judge: string -> T, wait: T, seen: string, pieces: seq<string>): T
    decreases |pieces|
  {
    if pieces == [] then wait
    else
      var grown := seen + pieces[0];
      if judge(grown) != wait then judge(grown) else Feed(judge, wait, grown, pieces[1..])
  }

  /** The stream in pieces that one recv can bring. */
  predicate Cuts(pieces: seq<string>, stream: string) {
    Concat(pieces) == stream && forall i {:trigger pieces[i]} :: 0 <= i < |pieces| ==> 0 < |pieces[i]| <= READ_SIZE
  }

  /** The verdict if a piece ends after n bytes, for each n. */
  function Judged<T>(judge: string -> T, stream: string): (verdicts: seq<T>)
    ensures |verdicts| == |stream| + 1
    ensures forall n {:trigger verdicts[n]} :: 0 <= n <= |stream| ==> verdicts[n] == judge(stream[..n])
  {
    seq(|stream| + 1, n requires 0 <= n <= |stream| => judge(stream[..n]))
  }

  function Lengths(pieces: seq<string>): seq<nat> {
    if pieces == [] then [] else [|pieces[0]|] + Lengths(pieces[1..])
  }

  lemma CutsTail(pieces: seq<string>, stream: string)
    requires Cuts(pieces, stream) && pieces != []
    ensures 0 < |pieces[0]| <= READ_SIZE && |pieces[0]| <= |stream| && stream[..|pieces[0]|] == pieces[0]
    ensures Cuts(pieces[1..], stream[|pieces[0]|..])
  {
    forall i | 0 <= i < |pieces[1..]| ensures 0 < |pieces[1..][i]| <= READ_SIZE {
      assert pieces[1..][i] == pieces[i + 1];
    }
  }

  lemma FeedStep<T>(judge: string -> T, wait: T, stream: string, at: nat, pieces: seq<string>, next: nat)
    requires at <= |stream| && pieces != [] && Cuts(pieces, stream[at..]) && next == at + |pieces[0]|
    ensures at < next <= |stream| && next <= at + READ_SIZE && Cuts(pieces[1..], stream[next..])
    ensures Feed(judge, wait, stream[..at], pieces)
         == if judge(stream[..next]) != wait then judge(stream[..next])
            else Feed(judge, wait, stream[..next], pieces[1..])
  {
    CutsTail(pieces, stream[at..]);
    assert stream[at..][|pieces[0]|..] == stream[next..] && stream[at..next] == stream[at..][..|pieces[0]|];
    assert stream[..at] + pieces[0] == stream[..next];
  }

  lemma WalkStep<T>(verdicts: seq<T>, wait: T, at: nat, gap: nat, gaps: seq<nat>)
    requires verdicts != [] && 0 < gap <= READ_SIZE && Fits(gaps, at + gap, |verdicts| - 1)
    ensures Fits([gap] + gaps, at, |verdicts| - 1)
    ensures Walk(verdicts, wait, at, [gap] + gaps)
         == if verdicts[at + gap] != wait then verdicts[at + gap] else Walk(verdicts, wait, at + gap, gaps)
  {
    assert ([gap] + gaps)[1..] == gaps;
  }

  /** Feeding the pieces is walking their lengths. */
  lemma {:induction false} FedIsWalk<T>(judge: string -> T, wait: T, stream: string, at: nat, pieces: seq<string>)
    requires at <= |stream| && Cuts(pieces, stream[at..])
    ensures Fits(Lengths(pieces), at, |stream|)
    ensures Feed(judge, wait, stream[..at], pieces) == Walk(Judged(judge, stream), wait, at, Lengths(pieces))
    decreases |pieces|
  {
    if pieces != [] {
      var next := at + |pieces[0]|;
      FeedStep(judge, wait, stream, at, pieces, next);
      FedIsWalk(judge, wait, stream, next, pieces[1..]);
      WalkStep(Judged(judge, stream), wait, at, |pieces[0]|, Lengths(pieces[1..]));
    }
  }

  lemma {:induction false} PiecesFor(stream: string, gaps: seq<nat>, at: nat) returns (pieces: seq<string>)
    requires at <= |stream| && Fits(gaps, at, |stream|)
    ensures Cuts(pieces, stream[at..]) && Lengths(pieces) == gaps
    decreases |gaps|
  {
    if gaps == [] {
      pieces := [];
    } else {
      var next := at + gaps[0];
      var rest := PiecesFor(stream, gaps[1..], next);
      pieces := [stream[at..next]] + rest;
      assert pieces[1..] == rest && stream[at..] == stream[at..next] + stream[next..];
    }
  }

  lemma WholeIsWalk<T>(judge: string -> T, wait: T, stream: string, pieces: seq<string>)
    requires Cuts(pieces, stream)
    ensures Fits(Lengths(pieces), 0, |stream|)
    ensures Feed(judge, wait, "", pieces) == Walk(Judged(judge, stream), wait, 0, Lengths(pieces))
  {
    assert stream[0..] == stream && stream[..0] == "";
    FedIsWalk(judge, wait, stream, 0, pieces);
  }

  lemma WholePieces(stream: string, gaps: seq<nat>) returns (pieces: seq<string>)
    requires Fits(gaps, 0, |stream|)
    ensures Cuts(pieces, stream) && Lengths(pieces) == gaps
  {
    pieces := PiecesFor(stream, gaps, 0);
    assert stream[0..] == stream;
  }

  /** The same verdict however the stream is cut. */
  ghost predicate CutsAgree<T(!new)>(judge: string -> T, wait: T, stream: string) {
    forall pieces, others {:trigger Cuts(pieces, stream), Cuts(others, stream)} ::
      Cuts(pieces, stream) && Cuts(others, stream) ==>
      Feed(judge, wait, "", pieces) == Feed(judge, wait, "", others)
  }

  lemma CutsAgreeMeans<T(!new)>(judge: string -> T, wait: T, stream: string)
    ensures CutsAgree(judge, wait, stream) <==> Agree(Judged(judge, stream), wait)
  {
    var verdicts := Judged(judge, stream);
    if CutsAgree(judge, wait, stream) {
      forall gaps, others | Fits(gaps, 0, |stream|) && Fits(others, 0, |stream|)
        ensures Walk(verdicts, wait, 0, gaps) == Walk(verdicts, wait, 0, others)
      {
        var pieces := WholePieces(stream, gaps);
        var more := WholePieces(stream, others);
        WholeIsWalk(judge, wait, stream, pieces);
        WholeIsWalk(judge, wait, stream, more);
      }
    }
    if Agree(verdicts, wait) {
      forall pieces, others | Cuts(pieces, stream) && Cuts(others, stream)
        ensures Feed(judge, wait, "", pieces) == Feed(judge, wait, "", others)
      {
        WholeIsWalk(judge, wait, stream, pieces);
        WholeIsWalk(judge, wait, stream, others);
      }
    }
  }

  /** The first verdict from a position on that is not to wait, or past the end. */
  function First<T(==)>(verdicts: seq<T>, wait: T, from: nat): (m: nat)
    requires from <= |verdicts|
    ensures from <= m <= |verdicts| && (m < |verdicts| ==> verdicts[m] != wait)
    ensures forall n {:trigger verdicts[n]} :: from <= n < m ==> verdicts[n] == wait
    decreases |verdicts| - from
  {
    if from == |verdicts| || verdicts[from] != wait then from else First(verdicts, wait, from + 1)
  }

  lemma FirstIs<T>(verdicts: seq<T>, wait: T, from: nat, m: nat)
    requires from <= m < |verdicts| && Waits(verdicts, wait, from, m) && verdicts[m] != wait
    ensures First(verdicts, wait, from) == m
  {
  }

  /** The last end of a piece that can be the first at or after m. */
  function LastCut(stream: string, m: nat): nat {
    if m + READ_SIZE - 1 < |stream| then m + READ_SIZE - 1 else |stream|
  }

  /** What can come of a stream: the verdicts where some cutting has its verdict. */
  lemma Outcomes<T(!new)>(judge: string -> T, wait: T, stream: string, result: T)
    requires stream != ""
    ensures (exists pieces :: Cuts(pieces, stream) && Feed(judge, wait, "", pieces) == result)
       <==> exists n: nat :: Ends(Judged(judge, stream), wait, n) && Judged(judge, stream)[n] == result
  {
    var verdicts := Judged(judge, stream);
    if pieces :| Cuts(pieces, stream) && Feed(judge, wait, "", pieces) == result {
      WholeIsWalk(judge, wait, stream, pieces);
      var n := WalkEnds(verdicts, wait, 0, Lengths(pieces));
    }
    if n: nat :| Ends(verdicts, wait, n) && verdicts[n] == result {
      var gaps := CutEnds(verdicts, wait, n);
      var pieces := WholePieces(stream, gaps);
      WholeIsWalk(judge, wait, stream, pieces);
    }
  }
}
