/** Chunked inputs whose sizes wrap, and what the decoder makes of them: a body
    that is no encoding's and grows with every byte that follows, an exception,
    and a loop that never ends (parseChunked in apps/webserv/src/Http.cpp). */
module ChunkWraps {
  import opened HttpText
  import opened ChunkLoop
  import opened Chunked
  import opened ChunkSizes
  import opened ChunkedCodec

  /** The size line at `pos`, of one signed digit. */
  lemma SignedLine(input: string, pos: nat, digit: char, more: string)
    requires pos <= |input| && input[pos..] == ['-', digit] + (CRLF + more) && IsHex(digit) && HexDigit(digit) > 0
    ensures pos + 4 <= |input| && input[pos + 4..] == more
    ensures ChunkAt(input, pos) == DataAt(input, pos + 4, WORD - HexDigit(digit))
  {
    var line := ['-', digit];
    assert Number("-", "", [digit]).Text() == line;
    DigitLine(Number("-", "", [digit]), line, HexDigit(digit));
    FindLineEndIs(line, 0, 2);
    LineHere(input, pos, line, more);
    ChunkAtIs(input, pos, pos + 2, line);
  }

  lemma Negative(size: nat, pos: nat)
    requires 0 < size < WORD && pos < WORD
    ensures Low(pos + (WORD - size)) == if pos >= size then pos - size else pos + WORD - size
    ensures Wraps(pos, WORD - size) <==> pos + 2 >= size
  {
  }

  // --------------------------------------------------- a body out of nothing

  /** After "-2" the loop stands where it stood, with all that follows appended. */
  lemma TwoBack(input: string, more: string)
    requires input == "-2" + (CRLF + more) && |input| <= TEXT_MAX
    ensures ChunkAt(input, 0) == Go(4, more, true)
  {
    assert input[0..] == input && "-2" == ['-', '2'];
    SignedLine(input, 0, '2', more);
    Negative(2, 4);
    Negative(2, 6);
    assert LineEnd(input, 2);
  }

  lemma LastHere(input: string, pos: nat, rest: string)
    requires pos <= |input| && input[pos..] == "0" + (CRLF + (CRLF + rest))
    ensures ChunkAt(input, pos) == Halt(Finishes)
  {
    ZeroLine();
    LastRead(input, pos, "0", [], rest);
  }

  lemma TwoTurns(t: seq<Jump>, at: nat, more: string, turns: nat)
    requires TableOk(t) && 0 < at < |t| && t[0] == Go(at, more, true) && t[at] == Halt(Finishes) && turns >= 2
    ensures Run(t, 0, "", turns) == Complete(more) && !Straight(t, 0)
  {
    assert JumpOk(t, 0) && JumpOk(t, at);
    assert "" + more == more;
    assert Run(t, at, more, turns - 1) == Complete(more);
  }

  lemma WrappedFinishes(input: string, more: string, rest: string)
    requires input == "-2" + (CRLF + more) && more == "0" + (CRLF + (CRLF + rest)) && |input| <= TEXT_MAX
    ensures Decode(input) == Complete(more) && !NoWrap(input)
  {
    var t := Table(input);
    TwoBack(input, more);
    assert input[4..] == more;
    LastHere(input, 4, rest);
    assert t[0] == ChunkAt(input, 0) && t[4] == ChunkAt(input, 4);
    TwoTurns(t, 4, more, |input| + 1);
  }

  /** "-2", then a last chunk: complete, with the last chunk and everything after
      it for a body, which no encoding has; so each byte that follows counts. */
  lemma WrappedSizeCompletes(rest: string)
    requires |rest| + 10 <= TEXT_MAX
    ensures var input := "-2\r\n0\r\n\r\n" + rest;
      Decode(input) == Complete("0\r\n\r\n" + rest) && forall body :: !Encodes(input, body)
  {
    var more := "0" + (CRLF + (CRLF + rest));
    var input := "-2\r\n0\r\n\r\n" + rest;
    assert more == "0\r\n\r\n" + rest && input == "-2" + (CRLF + more);
    WrappedFinishes(input, more, rest);
    forall body ensures !Encodes(input, body) { CompletesExactlyOnEncodings(input, body); }
  }

  // ------------------------------------------------- no verdict at all

  lemma SixBack(input: string, more: string)
    requires input == "-6" + (CRLF + more) && |input| <= TEXT_MAX
    ensures ChunkAt(input, 0) == Halt(Throws)
  {
    assert input[0..] == input && "-6" == ['-', '6'];
    SignedLine(input, 0, '6', more);
    Negative(6, 4);
    Negative(6, 6);
  }

  /** A size line of "-6" first: the comparison is past the end, and throws. */
  lemma WrappedSizeThrows(rest: string)
    requires |rest| + 10 <= TEXT_MAX
    ensures Decode("-6\r\n" + rest) == Thrown
  {
    var input := "-6\r\n" + rest;
    assert input == "-6" + (CRLF + rest);
    SixBack(input, rest);
    assert Table(input)[0] == ChunkAt(input, 0);
  }

  lemma OneByte(input: string, more: string)
    requires input == "1" + (CRLF + ("a" + (CRLF + more))) && |input| <= TEXT_MAX
    ensures ChunkAt(input, 0) == Go(6, "a", false) && input[6..] == more && LineEnd(input, 4)
  {
    assert input[0..] == input;
    assert "1"[..0] == "" && HexValue("") == 0;
    HexLine("1");
    PieceRead(input, 0, Piece("1", "a"), more);
    assert input[4] == '\r' && input[5] == '\n';
  }

  lemma BackToItself(input: string, rest: string)
    requires 10 <= |input| <= TEXT_MAX && input[6..] == "-6" + (CRLF + rest) && LineEnd(input, 4)
    ensures ChunkAt(input, 6).Go? && ChunkAt(input, 6).next == 6
  {
    assert "-6" == ['-', '6'];
    SignedLine(input, 6, '6', rest);
    Negative(6, 10);
    Negative(6, 12);
  }

  /** A chunk of one byte and then "-6": the loop comes back to the same line for
      ever. */
  lemma WrappedSizeSpins(rest: string)
    requires |rest| + 10 <= TEXT_MAX
    ensures Decode("1\r\na\r\n-6\r\n" + rest) == Endless
  {
    var input := "1\r\na\r\n-6\r\n" + rest;
    var more := "-6" + (CRLF + rest);
    assert input == "1" + (CRLF + ("a" + (CRLF + more)));
    OneByte(input, more);
    BackToItself(input, rest);
    Spins(input, Table(input));
  }

  lemma Spins(input: string, t: seq<Jump>)
    requires t == Table(input) && |input| >= 6 && ChunkAt(input, 0) == Go(6, "a", false)
    requires ChunkAt(input, 6).Go? && ChunkAt(input, 6).next == 6
    ensures Decode(input) == Endless
  {
    assert t[0] == ChunkAt(input, 0) && t[6] == ChunkAt(input, 6);
    assert JumpOk(t, 0) && JumpOk(t, 6);
    assert After(t, 6, 1) == 6;
    RoundAgain(t, 6, 1, |input|);
    assert After(t, 0, |input| + 1) == After(t, 6, |input|);
    StillRunning(t, 0, "", |input| + 1);
  }
}
