/** Chunked encodings, and the law that the decoder accepts exactly them and
    gives back exactly the data, however a body is split into chunks
    (parseChunked in apps/webserv/src/Http.cpp). */
module ChunkedCodec {
  import opened Strings
  import opened HttpText
  import opened ChunkLoop
  import opened Chunked

  // -------------------------------------------------------------- encodings

  predicate SingleLine(line: string) { FindLineEnd(line, 0) == |line| }

  /** A chunk: its size line, with whatever extension, and its data. */
  datatype Piece = Piece(line: string, data: string)

  predicate PieceOk(p: Piece) {
    p.data != "" && SingleLine(p.line) && SizeOf(p.line) == Some(|p.data|)
  }

  predicate PiecesOk(pieces: seq<Piece>) {
    forall i {:trigger PieceOk(pieces[i])} :: 0 <= i < |pieces| ==> PieceOk(pieces[i])
  }

  predicate LastOk(line: string) {
    SingleLine(line) && SizeOf(line) == Some(0)
  }

  predicate TrailerOk(line: string) { SingleLine(line) && ':' in line }

  predicate TrailerLinesOk(lines: seq<string>) {
    forall i {:trigger TrailerOk(lines[i])} :: 0 <= i < |lines| ==> TrailerOk(lines[i])
  }

  /** The trailers and the blank line, then `end`. */
  function TrailersOnto(lines: seq<string>, end: string): string {
    if lines == [] then CRLF + end else lines[0] + (CRLF + TrailersOnto(lines[1..], end))
  }

  /** The chunks, then `end`. */
  function EncodeOnto(pieces: seq<Piece>, end: string): string {
    if pieces == [] then end
    else pieces[0].line + (CRLF + (pieces[0].data + (CRLF + EncodeOnto(pieces[1..], end))))
  }

  function DataOf(pieces: seq<Piece>): string {
    if pieces == [] then "" else pieces[0].data + DataOf(pieces[1..])
  }

  /** Chunks, the last size line, the trailers, and whatever follows the body. */
  function Encoding(pieces: seq<Piece>, last: string, trailers: seq<string>, rest: string): string {
    EncodeOnto(pieces, last + (CRLF + TrailersOnto(trailers, rest)))
  }

  predicate EncodingOk(pieces: seq<Piece>, last: string, trailers: seq<string>) {
    PiecesOk(pieces) && LastOk(last) && TrailerLinesOk(trailers)
  }

  // ------------------------------------------------------ reading a position

  lemma CrlfCut(input: string, pos: nat, more: string)
    requires pos <= |input| && input[pos..] == CRLF + more
    ensures LineEnd(input, pos) && input[pos + 2..] == more
  {
    SuffixSplits(input, pos, CRLF, more);
    assert input[pos] == input[pos..pos + 2][0] && input[pos + 1] == input[pos..pos + 2][1];
  }

  lemma NoEndInside(input: string, pos: nat, line: string)
    requires pos + |line| < |input| && input[pos..pos + |line|] == line && SingleLine(line)
    requires input[pos + |line|] == '\r'
    ensures forall i {:trigger LineEnd(input, i)} :: pos <= i < pos + |line| ==> !LineEnd(input, i)
  {
    forall i {:trigger LineEnd(input, i)} | pos <= i < pos + |line| ensures !LineEnd(input, i) {
      assert input[i] == line[i - pos];
      if i + 1 < pos + |line| {
        assert input[i + 1] == line[i + 1 - pos];
        assert !LineEnd(line, i - pos);
      }
    }
  }

  lemma LineHere(input: string, pos: nat, line: string, more: string)
    requires pos <= |input| && input[pos..] == line + (CRLF + more) && SingleLine(line)
    ensures FindLineEnd(input, pos) == pos + |line| < |input|
    ensures input[pos..pos + |line|] == line
    ensures pos + |line| + 2 <= |input| && input[pos + |line| + 2..] == more
  {
    SuffixSplits(input, pos, line, CRLF + more);
    CrlfCut(input, pos + |line|, more);
    NoEndInside(input, pos, line);
    FindLineEndIs(input, pos, pos + |line|);
  }

  lemma DataHere(input: string, pos: nat, data: string, more: string)
    requires pos <= |input| && input[pos..] == data + (CRLF + more)
    ensures pos + |data| + 2 <= |input| && LineEnd(input, pos + |data|)
    ensures input[pos..pos + |data|] == data && input[pos + |data| + 2..] == more
  {
    SuffixSplits(input, pos, data, CRLF + more);
    CrlfCut(input, pos + |data|, more);
  }

  // ------------------------------------------------------------- trailers

  /** The trailers at `pos` are read up to the blank line at `stop`. */
  predicate TailStops(input: string, pos: nat, stop: nat)
    requires pos <= |input|
  {
    FindBlankLine(input, pos) == stop < |input| && TrailersOk(input, pos, stop) && !LineEnd(input, pos)
  }

  /** A line, a line end and no blank line: the search goes on after it. */
  lemma NoBlankBetween(input: string, pos: nat, end: nat, stop: nat)
    requires pos <= end < |input| && FindLineEnd(input, pos) == end && !LineEnd(input, end + 2)
    requires FindBlankLine(input, end + 2) == stop
    ensures FindBlankLine(input, pos) == stop
  {
    forall i {:trigger BlankLine(input, i)} | pos <= i < stop ensures !BlankLine(input, i) {
      if i < end { assert !LineEnd(input, i); }
    }
    FindBlankLineIs(input, pos, stop);
  }

  lemma OneTrailer(input: string, pos: nat, end: nat)
    requires pos < end && end + 2 <= |input| && FindLineEnd(input, pos) == end && LineEnd(input, end + 2)
    requires Find(input, ':', pos) < end
    ensures TailStops(input, pos, end)
  {
    forall i {:trigger BlankLine(input, i)} | pos <= i < end ensures !BlankLine(input, i) {
      assert !LineEnd(input, i);
    }
    FindBlankLineIs(input, pos, end);
  }

  lemma TwoTrailers(input: string, pos: nat, end: nat, stop: nat)
    requires pos < end && end + 2 <= |input| && FindLineEnd(input, pos) == end
    requires Find(input, ':', pos) < end && TailStops(input, end + 2, stop)
    ensures TailStops(input, pos, stop)
  {
    NoBlankBetween(input, pos, end, stop);
    assert NextTrailer(input, pos) == Some(end + 2);
  }

  lemma ColonHere(input: string, pos: nat, end: nat, line: string)
    requires pos <= end <= |input| && input[pos..end] == line
    ensures ':' in line <==> Find(input, ':', pos) < end
  {
    var at := Find(input, ':', pos);
    if at < end { assert line[at - pos] == ':'; }
    if i :| 0 <= i < |line| && line[i] == ':' { assert input[pos + i] == ':'; }
  }

  /** The trailer section at `pos` is one the decoder reads whole. */
  predicate TailReads(input: string, pos: nat)
    requires pos <= |input|
  {
    LineEnd(input, pos) || TailStops(input, pos, FindBlankLine(input, pos))
  }

  lemma TrailerReads(input: string, pos: nat, line: string, next: nat)
    requires next == pos + |line| + 2 <= |input| && line != "" && ':' in line
    requires FindLineEnd(input, pos) == pos + |line| && input[pos..pos + |line|] == line
    requires TailReads(input, next)
    ensures TailReads(input, pos)
  {
    var end := pos + |line|;
    ColonHere(input, pos, end, line);
    if LineEnd(input, end + 2) { OneTrailer(input, pos, end); }
    else { TwoTrailers(input, pos, end, FindBlankLine(input, end + 2)); }
  }

  lemma {:induction false} TailParses(input: string, pos: nat, trailers: seq<string>, rest: string)
    requires pos <= |input| && input[pos..] == TrailersOnto(trailers, rest) && TrailerLinesOk(trailers)
    ensures TailReads(input, pos)
    decreases |trailers|
  {
    if trailers == [] {
      CrlfCut(input, pos, rest);
    } else {
      var line := trailers[0];
      FirstTrailer(trailers);
      LineHere(input, pos, line, TrailersOnto(trailers[1..], rest));
      var next := pos + |line| + 2;
      TailParses(input, next, trailers[1..], rest);
      TrailerReads(input, pos, line, next);
    }
  }

  lemma FirstTrailer(lines: seq<string>)
    requires TrailerLinesOk(lines) && lines != []
    ensures TrailerOk(lines[0]) && lines[0] != "" && TrailerLinesOk(lines[1..])
  {
    assert TrailerOk(lines[0]);
    forall i | 0 <= i < |lines[1..]| ensures TrailerOk(lines[1..][i]) { assert TrailerOk(lines[i + 1]); }
  }

  lemma TailRead(input: string, pos: nat)
    requires pos <= |input| && TailReads(input, pos)
    ensures Trailers(input, pos) == Finishes
  {
  }

  lemma TrailersRead(input: string, pos: nat, trailers: seq<string>, rest: string)
    requires pos <= |input| && input[pos..] == TrailersOnto(trailers, rest) && TrailerLinesOk(trailers)
    ensures Trailers(input, pos) == Finishes
  {
    TailParses(input, pos, trailers, rest);
    TailRead(input, pos);
  }

  // ------------------------------------------------------ decode of encode

  lemma DataRead(input: string, pos: nat, data: string)
    requires pos + |data| + 2 <= |input| <= TEXT_MAX && data != "" && LineEnd(input, pos + |data|)
    requires input[pos..pos + |data|] == data
    ensures SizedChunk(input, pos, Some(|data|)) == Go(pos + |data| + 2, data, false)
  {
  }

  lemma PieceRead(input: string, pos: nat, piece: Piece, more: string)
    requires pos <= |input| <= TEXT_MAX && PieceOk(piece)
    requires input[pos..] == piece.line + (CRLF + (piece.data + (CRLF + more)))
    ensures var next := pos + |piece.line| + |piece.data| + 4;
      && next <= |input| && input[next..] == more
      && ChunkAt(input, pos) == Go(next, piece.data, false)
  {
    LineHere(input, pos, piece.line, piece.data + (CRLF + more));
    var at := pos + |piece.line| + 2;
    DataHere(input, at, piece.data, more);
    DataRead(input, at, piece.data);
    ChunkAtIs(input, pos, pos + |piece.line|, piece.line);
  }

  lemma LastRead(input: string, pos: nat, last: string, trailers: seq<string>, rest: string)
    requires pos <= |input| && LastOk(last) && TrailerLinesOk(trailers)
    requires input[pos..] == last + (CRLF + TrailersOnto(trailers, rest))
    ensures ChunkAt(input, pos) == Halt(Finishes)
  {
    var more := TrailersOnto(trailers, rest);
    LineHere(input, pos, last, more);
    var at := pos + |last| + 2;
    assert input[at..] == more;
    TrailersRead(input, at, trailers, rest);
    LastChunk(input, pos, last, at);
  }

  lemma LastChunk(input: string, pos: nat, last: string, at: nat)
    requires at == pos + |last| + 2 <= |input| && FindLineEnd(input, pos) == pos + |last|
    requires input[pos..pos + |last|] == last && LastOk(last) && Trailers(input, at) == Finishes
    ensures ChunkAt(input, pos) == Halt(Finishes)
  {
    ChunkAtIs(input, pos, pos + |last|, last);
  }

  lemma RestOk(pieces: seq<Piece>)
    requires PiecesOk(pieces) && pieces != []
    ensures PieceOk(pieces[0]) && PiecesOk(pieces[1..])
  {
    forall i | 0 <= i < |pieces[1..]| ensures PieceOk(pieces[1..][i]) { assert PieceOk(pieces[i + 1]); }
  }

  /** The same way through the loop, said of the input. */
  predicate WayIn(input: string, ps: seq<nat>, datas: seq<string>) {
    && |ps| == |datas| + 1
    && (forall k {:trigger ps[k]} :: 0 <= k < |ps| ==> ps[k] <= |input|)
    && (forall i, k {:trigger datas[i], ps[k]} :: 0 <= i < |datas| && k == i + 1 ==>
          ChunkAt(input, ps[i]) == Go(ps[k], datas[i], false))
    && ChunkAt(input, ps[|datas|]) == Halt(Finishes)
  }

  lemma WayInTable(input: string, ps: seq<nat>, datas: seq<string>)
    ensures WayIn(input, ps, datas) <==> Way(Table(input), ps, datas)
  {
    var t := Table(input);
    assert forall k {:trigger ps[k]} :: 0 <= k < |ps| && ps[k] <= |input| ==> t[ps[k]] == ChunkAt(input, ps[k]);
  }

  function DatasOf(pieces: seq<Piece>): (datas: seq<string>)
    ensures |datas| == |pieces| && Concat(datas) == DataOf(pieces)
  {
    if pieces == [] then []
    else
      var datas := [pieces[0].data] + DatasOf(pieces[1..]);
      assert datas[1..] == DatasOf(pieces[1..]);
      datas
  }

  lemma WayInGrows(input: string, pos: nat, data: string, ps: seq<nat>, datas: seq<string>)
    requires pos <= |input| && WayIn(input, ps, datas) && ChunkAt(input, pos) == Go(ps[0], data, false)
    ensures WayIn(input, [pos] + ps, [data] + datas)
  {
    WayInTable(input, ps, datas);
    assert Table(input)[pos] == ChunkAt(input, pos);
    WayGrows(Table(input), pos, data, ps, datas);
    WayInTable(input, [pos] + ps, [data] + datas);
  }

  lemma {:induction false} EncodingRead(input: string, pos: nat, pieces: seq<Piece>, last: string,
                                        trailers: seq<string>, rest: string) returns (ps: seq<nat>)
    requires pos <= |input| <= TEXT_MAX && EncodingOk(pieces, last, trailers)
    requires input[pos..] == Encoding(pieces, last, trailers, rest)
    ensures WayIn(input, ps, DatasOf(pieces)) && ps[0] == pos && |pieces| <= |input| - pos
    decreases |pieces|
  {
    if pieces == [] {
      LastRead(input, pos, last, trailers, rest);
      ps := [pos];
    } else {
      RestOk(pieces);
      PieceRead(input, pos, pieces[0], Encoding(pieces[1..], last, trailers, rest));
      var next := pos + |pieces[0].line| + |pieces[0].data| + 4;
      ps := EncodingRead(input, next, pieces[1..], last, trailers, rest);
      WayInGrows(input, pos, pieces[0].data, ps, DatasOf(pieces[1..]));
      ps := [pos] + ps;
    }
  }

  /** Decoding inverts encoding: whatever the split into chunks, the extensions,
      the trailers and the bytes that follow, the data comes back exactly. */
  lemma DecodeInvertsEncoding(pieces: seq<Piece>, last: string, trailers: seq<string>, rest: string)
    requires EncodingOk(pieces, last, trailers) && |Encoding(pieces, last, trailers, rest)| <= TEXT_MAX
    ensures Decode(Encoding(pieces, last, trailers, rest)) == Complete(DataOf(pieces))
    ensures NoWrap(Encoding(pieces, last, trailers, rest))
  {
    var input := Encoding(pieces, last, trailers, rest);
    assert input[0..] == input;
    var ps := EncodingRead(input, 0, pieces, last, trailers, rest);
    WayInTable(input, ps, DatasOf(pieces));
    WayFinishes(Table(input), ps, DatasOf(pieces), "", |input| + 1);
    assert "" + DataOf(pieces) == DataOf(pieces);
  }

  // --------------------------------------------- nothing else is accepted

  lemma LineInTail(input: string, pos: nat, stop: nat, end: nat)
    requires pos < stop && pos <= |input| && TailStops(input, pos, stop) && end == FindLineEnd(input, pos)
    ensures pos < end <= stop && end < |input| && Find(input, ':', pos) < end
    ensures end < stop ==> TrailersOk(input, end + 2, stop)
  {
    assert LineEnd(input, stop);
  }

  lemma NextTailStops(input: string, pos: nat, end: nat, stop: nat)
    requires pos <= end < stop && pos <= |input| && TailStops(input, pos, stop)
    requires end == FindLineEnd(input, pos) && TrailersOk(input, end + 2, stop)
    ensures end + 2 < stop && TailStops(input, end + 2, stop)
  {
    assert !BlankLine(input, end);
    assert input[stop] == '\r' && input[end + 1] == '\n';
    FindBlankLineIs(input, end + 2, stop);
  }

  lemma TailStep(input: string, pos: nat, stop: nat, end: nat)
    requires pos < stop && pos <= |input| && TailStops(input, pos, stop) && end == FindLineEnd(input, pos)
    ensures pos < end <= stop && end < |input| && Find(input, ':', pos) < end
    ensures end < stop ==> end + 2 < stop && TailStops(input, end + 2, stop)
  {
    LineInTail(input, pos, stop, end);
    if end < stop { NextTailStops(input, pos, end, stop); }
  }

  lemma {:induction false} TailFound(input: string, pos: nat, stop: nat) returns (trailers: seq<string>)
    requires pos < stop && pos <= |input| && TailStops(input, pos, stop)
    ensures TrailerLinesOk(trailers)
    ensures input[pos..] == TrailersOnto(trailers, input[stop + 4..])
    decreases stop - pos
  {
    var end := FindLineEnd(input, pos);
    TailStep(input, pos, stop, end);
    TrailerLine(input, pos, end);
    var others := [];
    if end == stop {
      LastBlank(input, end + 2);
    } else {
      others := TailFound(input, end + 2, stop);
    }
    TailBuilt(input, pos, end, others, input[stop + 4..]);
    trailers := [input[pos..end]] + others;
  }

  lemma TailBuilt(input: string, pos: nat, end: nat, others: seq<string>, rest: string)
    requires pos <= end && LineEnd(input, end) && TrailerOk(input[pos..end]) && TrailerLinesOk(others)
    requires input[end + 2..] == TrailersOnto(others, rest)
    ensures TrailerLinesOk([input[pos..end]] + others)
    ensures input[pos..] == TrailersOnto([input[pos..end]] + others, rest)
  {
    CutAtCrlf(input, pos, end);
    MoreTrailers(input[pos..end], others, rest, input[end + 2..]);
  }

  lemma LastBlank(input: string, at: nat)
    requires LineEnd(input, at)
    ensures input[at..] == TrailersOnto([], input[at + 2..])
  {
  }

  lemma TrailerLine(input: string, pos: nat, end: nat)
    requires pos < end < |input| && FindLineEnd(input, pos) == end && Find(input, ':', pos) < end
    ensures TrailerOk(input[pos..end])
  {
    LineIsSingle(input, pos, end);
    ColonHere(input, pos, end, input[pos..end]);
  }

  lemma MoreTrailers(line: string, others: seq<string>, end: string, more: string)
    requires TrailerOk(line) && TrailerLinesOk(others) && more == TrailersOnto(others, end)
    ensures TrailerLinesOk([line] + others)
    ensures TrailersOnto([line] + others, end) == line + (CRLF + more)
  {
    var all := [line] + others;
    assert all[1..] == others;
    forall i | 0 <= i < |all| ensures TrailerOk(all[i]) {
      if i > 0 { assert TrailerOk(others[i - 1]); }
    }
  }

  lemma TrailersFound(input: string, pos: nat) returns (trailers: seq<string>, rest: string)
    requires pos <= |input| && Trailers(input, pos) == Finishes
    ensures TrailerLinesOk(trailers) && input[pos..] == TrailersOnto(trailers, rest)
  {
    if LineEnd(input, pos) {
      trailers, rest := [], input[pos + 2..];
    } else {
      var stop := FindBlankLine(input, pos);
      trailers := TailFound(input, pos, stop);
      rest := input[stop + 4..];
    }
  }

  lemma LineIsSingle(input: string, pos: nat, end: nat)
    requires pos <= end < |input| && FindLineEnd(input, pos) == end
    ensures end + 2 <= |input| && SingleLine(input[pos..end])
  {
    var line := input[pos..end];
    forall i {:trigger LineEnd(line, i)} | 0 <= i < |line| ensures !LineEnd(line, i) {
      assert !LineEnd(input, pos + i);
    }
    FindLineEndIs(line, 0, |line|);
  }

  lemma CutAtCrlf(input: string, pos: nat, end: nat)
    requires pos <= end && LineEnd(input, end)
    ensures input[pos..] == input[pos..end] + (CRLF + input[end + 2..])
  {
  }

  lemma PieceFound(input: string, pos: nat) returns (piece: Piece)
    requires pos <= |input| <= TEXT_MAX && ChunkAt(input, pos).Go? && !ChunkAt(input, pos).wraps
    ensures PieceOk(piece)
    ensures var j := ChunkAt(input, pos);
      && j.taken == piece.data
      && input[pos..] == piece.line + (CRLF + (piece.data + (CRLF + input[j.next..])))
  {
    var end := FindLineEnd(input, pos);
    LineIsSingle(input, pos, end);
    var line := input[pos..end];
    ChunkAtIs(input, pos, end, line);
    var size := SizeOf(line).value;
    piece := Piece(line, input[end + 2..end + 2 + size]);
    CutAtCrlf(input, pos, end);
    CutAtCrlf(input, end + 2, end + 2 + size);
  }

  lemma LastFound(input: string, pos: nat) returns (last: string, trailers: seq<string>, rest: string)
    requires pos <= |input| && ChunkAt(input, pos) == Halt(Finishes)
    ensures LastOk(last) && TrailerLinesOk(trailers)
    ensures input[pos..] == last + (CRLF + TrailersOnto(trailers, rest))
  {
    var end := FindLineEnd(input, pos);
    LineIsSingle(input, pos, end);
    last := input[pos..end];
    ChunkAtIs(input, pos, end, last);
    trailers, rest := TrailersFound(input, end + 2);
    CutAtCrlf(input, pos, end);
  }

  lemma FrontOk(piece: Piece, pieces: seq<Piece>, end: string)
    requires PieceOk(piece) && PiecesOk(pieces)
    ensures PiecesOk([piece] + pieces)
    ensures DataOf([piece] + pieces) == piece.data + DataOf(pieces)
    ensures EncodeOnto([piece] + pieces, end)
         == piece.line + (CRLF + (piece.data + (CRLF + EncodeOnto(pieces, end))))
  {
    var all := [piece] + pieces;
    assert all[1..] == pieces;
    forall i | 0 <= i < |all| ensures PieceOk(all[i]) {
      if i > 0 { assert PieceOk(pieces[i - 1]); }
    }
  }

  lemma WayInTail(input: string, ps: seq<nat>, datas: seq<string>)
    requires WayIn(input, ps, datas) && datas != []
    ensures WayIn(input, ps[1..], datas[1..]) && ChunkAt(input, ps[0]) == Go(ps[1], datas[0], false)
  {
    WayInTable(input, ps, datas);
    WayTail(Table(input), ps, datas);
    WayInTable(input, ps[1..], datas[1..]);
  }

  lemma FoundBefore(text: string, rest: string, piece: Piece, others: seq<Piece>, last: string, trailers: seq<string>,
                    end: string)
    requires text == piece.line + (CRLF + (piece.data + (CRLF + rest))) && PieceOk(piece)
    requires rest == Encoding(others, last, trailers, end) && EncodingOk(others, last, trailers)
    ensures EncodingOk([piece] + others, last, trailers) && text == Encoding([piece] + others, last, trailers, end)
    ensures DatasOf([piece] + others) == [piece.data] + DatasOf(others)
  {
    FrontOk(piece, others, last + (CRLF + TrailersOnto(trailers, end)));
    assert ([piece] + others)[1..] == others;
  }

  lemma {:induction false} EncodingFound(input: string, ps: seq<nat>, datas: seq<string>)
    returns (pieces: seq<Piece>, last: string, trailers: seq<string>, rest: string)
    requires WayIn(input, ps, datas) && |input| <= TEXT_MAX
    ensures EncodingOk(pieces, last, trailers) && DatasOf(pieces) == datas
    ensures ps[0] <= |input| && input[ps[0]..] == Encoding(pieces, last, trailers, rest)
    decreases |datas|
  {
    pieces := [];
    if datas == [] {
      last, trailers, rest := LastFound(input, ps[0]);
    } else {
      WayInTail(input, ps, datas);
      var piece := PieceFound(input, ps[0]);
      var others;
      others, last, trailers, rest := EncodingFound(input, ps[1..], datas[1..]);
      FoundBefore(input[ps[0]..], input[ps[1]..], piece, others, last, trailers, rest);
      pieces := [piece] + others;
    }
  }

  /** The input is a chunked encoding of the body, and whatever follows. */
  ghost predicate Encodes(input: string, body: string) {
    exists pieces, last, trailers, rest ::
      EncodingOk(pieces, last, trailers) && input == Encoding(pieces, last, trailers, rest) && DataOf(pieces) == body
  }

  lemma EncodesDecodes(input: string, body: string)
    requires |input| <= TEXT_MAX && Encodes(input, body)
    ensures Decode(input) == Complete(body) && NoWrap(input)
  {
    var pieces, last, trailers, rest :|
      EncodingOk(pieces, last, trailers) && input == Encoding(pieces, last, trailers, rest) && DataOf(pieces) == body;
    DecodeInvertsEncoding(pieces, last, trailers, rest);
  }

  lemma DecodedEncodes(input: string, body: string)
    requires |input| <= TEXT_MAX && Decode(input) == Complete(body) && NoWrap(input)
    ensures Encodes(input, body)
  {
    var ps, datas := FinishingWay(Table(input), 0, "", |input| + 1);
    WayInTable(input, ps, datas);
    var pieces, last, trailers, rest := EncodingFound(input, ps, datas);
    assert input[0..] == input;
    assert "" + Concat(datas) == Concat(datas);
    assert input == Encoding(pieces, last, trailers, rest);
  }

  /** Completing without a size that wraps is being an encoding. */
  lemma CompletesExactlyOnEncodings(input: string, body: string)
    requires |input| <= TEXT_MAX
    ensures Encodes(input, body) <==> Decode(input) == Complete(body) && NoWrap(input)
  {
    if Encodes(input, body) { EncodesDecodes(input, body); }
    if Decode(input) == Complete(body) && NoWrap(input) { DecodedEncodes(input, body); }
  }

  /** "The decoder completes on encodings and on nothing else" does not hold. It
      holds of an input exactly when no size wraps or the loop does not complete. */
  lemma EncodingsOnlyIff(input: string)
    requires |input| <= TEXT_MAX
    ensures (forall body :: Decode(input) == Complete(body) <==> Encodes(input, body))
       <==> NoWrap(input) || !Decode(input).Complete?
  {
    forall body ensures Encodes(input, body) <==> Decode(input) == Complete(body) && NoWrap(input) {
      CompletesExactlyOnEncodings(input, body);
    }
    if Decode(input).Complete? { assert Decode(input) == Complete(Decode(input).body); }
  }

  // ------------------------------------------------------ the plain encoder

  /** One chunk per part, sizes in lower-case hex, no extension, no trailer. */
  function Encode(parts: seq<string>): string {
    if parts == [] then "0\r\n\r\n"
    else HexText(|parts[0]|) + (CRLF + (parts[0] + (CRLF + Encode(parts[1..]))))
  }

  function PiecesOf(parts: seq<string>): seq<Piece> {
    if parts == [] then [] else [Piece(HexText(|parts[0]|), parts[0])] + PiecesOf(parts[1..])
  }

  predicate NonEmptyParts(parts: seq<string>) {
    forall i :: 0 <= i < |parts| ==> parts[i] != ""
  }

  lemma HexLine(text: string)
    requires text != "" && AllHex(text) && HexValue(text) <= SIZE_MAX
    ensures SingleLine(text) && SizeOf(text) == Some(HexValue(text))
  {
    assert forall i :: 0 <= i < |text| ==> IsHex(text[i]);
    FindLineEndIs(text, 0, |text|);
    HexSize(text);
  }

  lemma HexSize(text: string)
    requires text != "" && AllHex(text) && HexValue(text) <= SIZE_MAX
    ensures SizeOf(text) == Some(HexValue(text))
  {
    assert IsHex(text[0]) && IsHex(text[|text| - 1]);
    FindIs(text, ';', 0, |text|);
    assert text[..|text|] == text;
    HexFieldPlain(text, SIZE_MAX);
  }

  lemma {:induction false} EncodeIsEncoding(parts: seq<string>)
    requires NonEmptyParts(parts) && |Encode(parts)| <= TEXT_MAX
    ensures Encode(parts) == Encoding(PiecesOf(parts), "0", [], "")
    ensures PiecesOk(PiecesOf(parts)) && DataOf(PiecesOf(parts)) == Concat(parts)
  {
    if parts == [] {
      assert "0" + (CRLF + TrailersOnto([], "")) == "0\r\n\r\n";
    } else {
      assert forall i :: 1 <= i < |parts| ==> parts[i] == parts[1..][i - 1];
      EncodeIsEncoding(parts[1..]);
      HexLine(HexText(|parts[0]|));
      FrontOk(Piece(HexText(|parts[0]|), parts[0]), PiecesOf(parts[1..]), "0" + (CRLF + TrailersOnto([], "")));
    }
  }

  lemma ZeroLine()
    ensures LastOk("0")
  {
    assert "0"[..0] == "" && HexValue("") == 0;
    HexLine("0");
  }

  /** For every body and every way of splitting it into non-empty parts, the
      decoder gives back the body, and keeps to it whatever bytes follow. */
  lemma DecodeInvertsEncode(parts: seq<string>, rest: string)
    requires NonEmptyParts(parts) && |Encode(parts) + rest| <= TEXT_MAX
    ensures Decode(Encode(parts) + rest) == Complete(Concat(parts))
  {
    EncodeIsEncoding(parts);
    ZeroLine();
    DecodeInvertsEncoding(PiecesOf(parts), "0", [], "");
    DecodeStable(Encode(parts), rest);
  }
}
