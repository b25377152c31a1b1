/** The chunked body decoder (parseChunked in apps/webserv/src/Http.cpp,
    section 7.1 of RFC 9112), the encodings it accepts, and its stability under
    bytes that arrive later. */
module Chunked {
  import opened Strings
  import opened HttpText
  import opened ChunkLoop

  // -------------------------------------------------- the stream extractor

  predicate IsHex(c: char) { IsDigit(c) || 'a' <= c <= 'f' || 'A' <= c <= 'F' }

  function HexDigit(c: char): (d: nat)
    requires IsHex(c)
    ensures d <= 15
  {
    if IsDigit(c) then c as int - '0' as int
    else if 'a' <= c <= 'f' then c as int - 'a' as int + 10
    else c as int - 'A' as int + 10
  }

  function SpaceEnd(s: string, from: nat): (r: nat)
    requires from <= |s|
    ensures from <= r <= |s|
    ensures forall i :: from <= i < r ==> IsSpace(s[i])
    ensures r < |s| ==> !IsSpace(s[r])
    decreases |s| - from
  {
    if from < |s| && IsSpace(s[from]) then SpaceEnd(s, from + 1) else from
  }

  function HexEnd(s: string, from: nat): (r: nat)
    requires from <= |s|
    ensures from <= r <= |s|
    ensures forall i :: from <= i < r ==> IsHex(s[i])
    ensures r < |s| ==> !IsHex(s[r])
    decreases |s| - from
  {
    if from < |s| && IsHex(s[from]) then HexEnd(s, from + 1) else from
  }

  predicate AllHex(s: string) {
    forall i :: 0 <= i < |s| ==> IsHex(s[i])
  }

  function HexValue(s: string): nat
    requires AllHex(s)
  {
    if s == "" then 0 else 16 * HexValue(s[..|s| - 1]) + HexDigit(s[|s| - 1])
  }

  lemma HexSlice(s: string, k: nat, e: nat)
    requires k <= e <= |s| && forall i :: k <= i < e ==> IsHex(s[i])
    ensures AllHex(s[k..e])
  {
    forall i | 0 <= i < e - k ensures IsHex(s[k..e][i]) { assert s[k..e][i] == s[k + i]; }
  }

  predicate HexPrefix(text: string, i: nat) {
    i + 2 <= |text| && text[i] == '0' && (text[i + 1] == 'x' || text[i + 1] == 'X')
  }

  /** `stream >> std::hex >> value` followed by `!(stream >> extra)`, for an
      unsigned value of at most `max`: leading space is skipped, a sign and a
      0x are accepted, a minus negates modulo max + 1, and anything but space
      after the digits is refused. */
  function HexField(text: string, max: nat): Option<nat> {
    var i := SpaceEnd(text, 0);
    var negative := i < |text| && text[i] == '-';
    var j := if i < |text| && (text[i] == '-' || text[i] == '+') then i + 1 else i;
    var k := if HexPrefix(text, j) then j + 2 else j;
    var e := HexEnd(text, k);
    if e == k then None
    else
      HexSlice(text, k, e);
      var value := HexValue(text[k..e]);
      if value > max || SpaceEnd(text, e) < |text| then None
      else Some(if negative && value > 0 then max + 1 - value else value)
  }

  lemma HexEndAll(s: string, from: nat)
    requires from <= |s| && AllHex(s)
    ensures HexEnd(s, from) == |s|
  {
  }

  /** A field of hex digits alone denotes its value. */
  lemma HexFieldPlain(text: string, max: nat)
    requires text != "" && AllHex(text)
    ensures HexField(text, max) == if HexValue(text) <= max then Some(HexValue(text)) else None
  {
    assert IsHex(text[0]);
    assert SpaceEnd(text, 0) == 0;
    assert !HexPrefix(text, 0) by { assert |text| >= 2 ==> IsHex(text[1]); }
    HexEndAll(text, 0);
    assert text[0..|text|] == text;
  }

  /** What `std::hex << n` prints. */
  function HexChar(d: nat): (c: char)
    requires d <= 15
    ensures IsHex(c) && HexDigit(c) == d
  {
    if d < 10 then '0' + d as char else 'a' + (d - 10) as char
  }

  function HexText(n: nat): (s: string)
    ensures s != "" && AllHex(s) && HexValue(s) == n
  {
    if n < 16 then
      var s := [HexChar(n)];
      assert s[..0] == "" && HexValue(s[..0]) == 0;
      s
    else
      var head := HexText(n / 16);
      var s := head + [HexChar(n % 16)];
      assert s[..|s| - 1] == head;
      s
  }

  // -------------------------------------------------------------- decoder

  /** The size on a chunk-size line, its extension dropped. */
  function SizeOf(line: string): Option<nat> {
    var text := Trim(line[..Find(line, ';', 0)]);
    if text == "" then None else HexField(text, SIZE_MAX)
  }

  /** The trailer line at `pos` has a colon; the position after it. */
  function NextTrailer(input: string, pos: nat): (next: Option<nat>)
    requires pos <= |input|
    ensures next.Some? ==> pos < next.value <= |input|
  {
    var end := FindLineEnd(input, pos);
    if end == |input| || Find(input, ':', pos) >= end then None else Some(end + 2)
  }

  /** Every trailer line from `pos` to the blank line at `stop` has a colon. */
  predicate TrailersOk(input: string, pos: nat, stop: nat)
    requires pos <= |input|
    decreases |input| - pos
  {
    pos >= stop ||
    (NextTrailer(input, pos).Some? && TrailersOk(input, NextTrailer(input, pos).value, stop))
  }

  /** What the trailer section at `pos` comes to. */
  function Trailers(input: string, pos: nat): (e: Ending)
    requires pos <= |input|
    ensures e != Throws
  {
    if LineEnd(input, pos) then Finishes
    else
      var stop := FindBlankLine(input, pos);
      if stop == |input| then Wants else if TrailersOk(input, pos, stop) then Finishes else Refuses
  }

  const WORD: nat := SIZE_MAX + 1

  /** std::size_t arithmetic is modulo 2^64: whole words are dropped. */
  function Low(n: nat): (r: nat)
    ensures r < WORD && r <= n && (n < WORD ==> r == n)
  {
    if n < WORD then n else Low(n - WORD)
  }

  lemma {:induction false} LowIsModulo(n: nat)
    ensures Low(n) == n % WORD
    decreases n
  {
    if n >= WORD { LowIsModulo(n - WORD); }
  }

  /** What `body.append(input, pos, n)` appends: no more than there is. */
  function Taken(input: string, pos: nat, n: nat): string
    requires pos <= |input|
  {
    if pos + n <= |input| then input[pos..pos + n] else input[pos..]
  }

  predicate Wraps(pos: nat, size: nat) { pos + size + 2 > SIZE_MAX }

  /** One chunk: its size line, its data and the CRLF after them. */
  function ChunkAt(input: string, pos: nat): (j: Jump)
    requires pos <= |input|
    ensures j.Go? ==> j.next <= |input| && (!j.wraps ==> pos < j.next)
  {
    var end := FindLineEnd(input, pos);
    if end == |input| then Halt(Wants) else SizedChunk(input, end + 2, SizeOf(input[pos..end]))
  }

  function SizedChunk(input: string, pos: nat, size: Option<nat>): (j: Jump)
    requires pos <= |input|
    ensures j.Go? ==> j.next <= |input| && (!j.wraps ==> pos < j.next)
  {
    if size == None then Halt(Refuses)
    else if size.value == 0 then Halt(Trailers(input, pos))
    else DataAt(input, pos, size.value)
  }

  /** `pos + size + 2` and `pos + size` wrap; comparing at a position past the
      end throws. */
  function DataAt(input: string, pos: nat, size: nat): (j: Jump)
    requires pos <= |input| && size > 0
    ensures j.Go? ==> j.next <= |input| && (!j.wraps ==> pos < j.next)
  {
    if |input| < Low(pos + size + 2) then Halt(Wants)
    else
      var at := Low(pos + size);
      if at > |input| then Halt(Throws)
      else if !LineEnd(input, at) then Halt(Refuses)
      else Go(at + 2, Taken(input, pos, size), Wraps(pos, size))
  }

  lemma TableIsOk(input: string, t: seq<Jump>)
    requires |t| == |input| + 1 && forall p {:trigger t[p]} :: 0 <= p < |t| ==> t[p] == ChunkAt(input, p)
    ensures TableOk(t)
  {
    forall p | 0 <= p < |t| ensures JumpOk(t, p) { assert t[p] == ChunkAt(input, p); }
  }

  /** Where each position leads. */
  function Table(input: string): (t: seq<Jump>)
    ensures |t| == |input| + 1 && TableOk(t)
    ensures forall p {:trigger t[p]} :: 0 <= p <= |input| ==> t[p] == ChunkAt(input, p)
  {
    var t := seq(|input| + 1, p requires 0 <= p <= |input| => ChunkAt(input, p));
    TableIsOk(input, t);
    t
  }

  /** The loop from the start; one that takes more turns than there are positions
      never ends (EndlessMeans). */
  function Decode(input: string): Verdict { Run(Table(input), 0, "", |input| + 1) }

  lemma TurnIs(input: string, t: seq<Jump>, pos: nat, body: string, turns: nat)
    requires t == Table(input) && pos < |t| && turns > 0
    ensures var j := ChunkAt(input, pos);
      && (j.Halt? ==> Run(t, pos, body, turns) == Ended(j.ending, body))
      && (j.Go? ==> Run(t, pos, body, turns) == Run(t, j.next, body + j.taken, turns - 1))
  {
    assert t[pos] == ChunkAt(input, pos);
  }

  /** The loop of the source; `turns` is there to give up where it never ends. */
  method ParseChunked(input: string) returns (verdict: Verdict)
    ensures verdict == Decode(input)
  {
    ghost var t := Table(input);
    var pos: nat, body := 0, "";
    var turns: nat := |input| + 1;
    while turns > 0
      invariant pos <= |input| && Run(t, pos, body, turns) == Run(t, 0, "", |input| + 1)
    {
      TurnIs(input, t, pos, body, turns);
      var ended;
      ended, pos, body := ParseChunk(input, pos, body);
      if ended.Some? {
        return ended.value;
      }
      turns := turns - 1;
    }
    return Endless;
  }

  /** One turn of the loop: its verdict, or the new position and body. */
  method ParseChunk(input: string, from: nat, so: string) returns (ended: Option<Verdict>, pos: nat, body: string)
    requires from <= |input|
    ensures ended == match ChunkAt(input, from) case Halt(ending) => Some(Ended(ending, so)) case Go(_, _, _) => None
    ensures ended == None ==>
      ChunkAt(input, from).next == pos && pos <= |input| && body == so + ChunkAt(input, from).taken
  {
    pos, body := from, so;
    var end := FindLineEnd(input, pos);
    if end == |input| {
      return Some(Partial(body)), pos, body;
    }
    var size := SizeOf(input[pos..end]);
    if size == None {
      return Some(Rejected), pos, body;
    }
    pos := end + 2;
    if size.value == 0 {
      var verdict := ParseTrailers(input, pos, body);
      return Some(verdict), pos, body;
    }
    ended, pos, body := ParseData(input, pos, size.value, body);
  }

  method ParseData(input: string, from: nat, chunkSize: nat, so: string)
    returns (ended: Option<Verdict>, pos: nat, body: string)
    requires from <= |input| && chunkSize > 0
    ensures ended == match DataAt(input, from, chunkSize)
                     case Halt(ending) => Some(Ended(ending, so)) case Go(_, _, _) => None
    ensures ended == None ==>
      DataAt(input, from, chunkSize).next == pos && pos <= |input|
      && body == so + DataAt(input, from, chunkSize).taken
  {
    pos, body := from, so;
    if |input| < Low(pos + chunkSize + 2) {
      return Some(Partial(body)), pos, body;
    }
    body := body + Taken(input, pos, chunkSize);
    pos := Low(pos + chunkSize);
    if pos > |input| {
      return Some(Thrown), pos, body;
    }
    if !LineEnd(input, pos) {
      return Some(Rejected), pos, body;
    }
    pos := pos + 2;
    ended := None;
  }

  method ParseTrailers(input: string, pos: nat, body: string) returns (verdict: Verdict)
    requires pos <= |input|
    ensures verdict == Ended(Trailers(input, pos), body)
  {
    if LineEnd(input, pos) {
      return Complete(body);
    }
    var trailersEnd := FindBlankLine(input, pos);
    if trailersEnd == |input| {
      return Partial(body);
    }
    var trailer := pos;
    while trailer < trailersEnd
      invariant pos <= trailer <= |input|
      invariant TrailersOk(input, trailer, trailersEnd) == TrailersOk(input, pos, trailersEnd)
      decreases |input| - trailer
    {
      var trailerEnd := FindLineEnd(input, trailer);
      ghost var next := NextTrailer(input, trailer);
      if trailerEnd == |input| || Find(input, ':', trailer) >= trailerEnd {
        return Rejected;
      }
      trailer := trailerEnd + 2;
      assert next == Some(trailer);
    }
    return Complete(body);
  }

  // ------------------------------------------------------------ the verdict

  /** The verdict is Endless if and only if the loop is still running after any
      number of turns. */
  lemma EndlessMeans(input: string)
    ensures Decode(input) == Endless <==> forall n: nat :: After(Table(input), 0, n) >= 0
  {
    var t := Table(input);
    StillRunning(t, 0, "", |input| + 1);
    if Decode(input) == Endless {
      forall n: nat ensures After(t, 0, n) >= 0 { NeverEnds(t, 0, n); }
    }
  }

  /** No size that the loop goes on past takes the position past 2^64. */
  predicate NoWrap(input: string) { Straight(Table(input), 0) }

  /** The longest std::string. */
  const TEXT_MAX: nat := SIZE_MAX / 2

  /** The line at `pos` holds a size that takes the position past 2^64. */
  predicate WrapsLine(input: string, pos: nat)
    requires pos <= |input|
  {
    var end := FindLineEnd(input, pos);
    end < |input| && SizeOf(input[pos..end]).Some? && SizeOf(input[pos..end]).value > 0
    && Wraps(end + 2, SizeOf(input[pos..end]).value)
  }

  lemma OnlyWrapped(input: string, pos: nat)
    requires pos <= |input| <= TEXT_MAX
    requires var j := ChunkAt(input, pos); j == Halt(Throws) || (j.Go? && j.wraps)
    ensures WrapsLine(input, pos)
  {
  }

  /** The exception and the endless loop need a size that wraps. */
  lemma NoVerdictNeedsWrap(input: string) returns (pos: nat)
    requires |input| <= TEXT_MAX && (Decode(input) == Thrown || Decode(input) == Endless)
    ensures pos <= |input| && WrapsLine(input, pos)
  {
    var t := Table(input);
    if Decode(input) == Thrown {
      pos := ThrowsSomewhere(t, 0, "", |input| + 1);
    } else {
      if NoWrap(input) { StraightEnds(t, 0, "", |input| + 1); }
      pos := WrapsSomewhere(t, 0);
    }
    assert t[pos] == ChunkAt(input, pos);
    OnlyWrapped(input, pos);
  }

  // ------------------------------------------------------------- stability

  lemma NextTrailerStable(input: string, more: string, pos: nat)
    requires pos <= |input| && FindLineEnd(input, pos) < |input|
    ensures NextTrailer(input + more, pos) == NextTrailer(input, pos)
  {
    FindLineEndStable(input, more, pos);
    FindStable(input, more, ':', pos);
  }

  lemma {:induction false} TrailersOkStable(input: string, more: string, pos: nat, stop: nat)
    requires pos <= |input| && stop < |input| && BlankLine(input, stop)
    ensures TrailersOk(input + more, pos, stop) <==> TrailersOk(input, pos, stop)
    decreases |input| - pos
  {
    if pos < stop {
      NextTrailerStable(input, more, pos);
      if NextTrailer(input, pos).Some? {
        TrailersOkStable(input, more, NextTrailer(input, pos).value, stop);
      }
    }
  }

  lemma TrailersStable(input: string, more: string, pos: nat)
    requires pos <= |input|
    ensures Trailers(input, pos) == Wants || Trailers(input + more, pos) == Trailers(input, pos)
  {
    if !LineEnd(input, pos) {
      var stop := FindBlankLine(input, pos);
      if stop < |input| {
        FindBlankLineStable(input, more, pos);
        TrailersOkStable(input, more, pos, stop);
      }
    }
  }

  lemma SameSlices(input: string, more: string, a: nat, b: nat)
    requires a <= b <= |input|
    ensures (input + more)[a..b] == input[a..b]
    ensures (input + more)[a..] == input[a..] + more
  {
  }

  lemma LineEndStays(input: string, more: string, at: nat)
    requires at + 2 <= |input|
    ensures LineEnd(input + more, at) <==> LineEnd(input, at)
  {
  }

  /** Positions that wrap: just before the one the sum wraps to, or out of reach
      of any string. */
  lemma LowTwoLess(n: nat)
    requires WORD <= n + 2 < 2 * WORD
    ensures Low(n + 2) == n + 2 - WORD
    ensures Low(n) == if n >= WORD then n - WORD else n
  {
  }

  lemma DataStable(input: string, more: string, pos: nat, size: nat)
    requires pos <= |input| && 0 < size <= SIZE_MAX && |input + more| <= TEXT_MAX
    ensures Follows(DataAt(input, pos, size), DataAt(input + more, pos, size), more)
  {
    if Wraps(pos, size) { LowTwoLess(pos + size); }
    if |input| >= Low(pos + size + 2) && Low(pos + size) <= |input| {
      LineEndStays(input, more, Low(pos + size));
      SameSlices(input, more, pos, if pos + size <= |input| then pos + size else |input|);
    }
  }

  lemma ChunkAtIs(input: string, pos: nat, end: nat, line: string)
    requires pos <= end < |input| && FindLineEnd(input, pos) == end && input[pos..end] == line
    ensures end + 2 <= |input| && ChunkAt(input, pos) == SizedChunk(input, end + 2, SizeOf(line))
  {
  }

  lemma SizeFits(line: string)
    ensures SizeOf(line).Some? ==> SizeOf(line).value <= SIZE_MAX
  {
  }

  lemma ChunkStable(input: string, more: string, pos: nat)
    requires pos <= |input| && |input + more| <= TEXT_MAX
    ensures Follows(ChunkAt(input, pos), ChunkAt(input + more, pos), more)
  {
    var end := FindLineEnd(input, pos);
    if end < |input| {
      FindLineEndStable(input, more, pos);
      SameSlices(input, more, pos, end);
      var line := input[pos..end];
      ChunkAtIs(input, pos, end, line);
      ChunkAtIs(input + more, pos, end, line);
      TrailersStable(input, more, end + 2);
      SizeFits(line);
      if SizeOf(line).Some? && SizeOf(line).value > 0 { DataStable(input, more, end + 2, SizeOf(line).value); }
    }
  }

  lemma TableGrows(input: string, more: string)
    requires |input + more| <= TEXT_MAX
    ensures Grown(Table(input), Table(input + more), more)
  {
    var t, u := Table(input), Table(input + more);
    forall p | 0 <= p < |t| ensures Follows(t[p], u[p], more) { ChunkStable(input, more, p); }
  }

  /** Decoding again on a grown buffer never gives another kind of final verdict
      and never a shorter body. */
  lemma DecodeLater(input: string, more: string)
    requires |input + more| <= TEXT_MAX
    ensures Later(Decode(input), Decode(input + more))
  {
    TableGrows(input, more);
    WholeGrown(Table(input), Table(input + more), more);
  }

  /** Where nothing wraps it never contradicts itself: a complete body stays as
      it is, and a partial body only grows. */
  lemma DecodeStable(input: string, more: string)
    requires NoWrap(input) && |input + more| <= TEXT_MAX
    ensures Extends(Decode(input), Decode(input + more))
  {
    TableGrows(input, more);
    StraightGrown(Table(input), Table(input + more), more, 0, "", |input| + 1, |input + more| + 1);
  }

  lemma WrappedGrows(input: string, more: string)
    requires Decode(input).Complete? && more != "" && |input + more| <= TEXT_MAX && !NoWrap(input)
    ensures var late := Decode(input + more);
      late.Complete? && |late.body| > |Decode(input).body|
  {
    TableGrows(input, more);
    WrappedGrown(Table(input), Table(input + more), more, 0, "", "", |input| + 1, |input + more| + 1);
  }

  /** And there only: once a size has wrapped, every byte that arrives after a
      complete body makes it longer. */
  lemma CompleteStableIff(input: string, more: string)
    requires Decode(input).Complete? && more != "" && |input + more| <= TEXT_MAX
    ensures Decode(input + more) == Decode(input) <==> NoWrap(input)
  {
    if NoWrap(input) { DecodeStable(input, more); } else { WrappedGrows(input, more); }
  }
}
