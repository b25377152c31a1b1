/** Cutting the receive buffer into lines (services/irc/prd/util/BufferUtil.cpp)
    and the drain loop built on it (receiveFromClient in
    services/irc/prd/interface/ServerNetwork.cpp). */
module BufferUtil {
  import opened IrcUtil
  import opened Strings

  datatype Found = Extracted(line: string, consumed: nat) | TooLong(consumed: nat) | Incomplete

  /** The first line of the buffer. Whatever is found consumes something, and
      an extracted line has at most 510 bytes and no LF. */
  function FindLine(buffer: string): (f: Found)
    ensures f.Extracted? ==> 1 <= f.consumed <= |buffer| && |f.line| <= IRC_MAX_CONTENT && '\n' !in f.line
    ensures f.TooLong? ==> 1 <= f.consumed <= |buffer|
    ensures f.Incomplete? <==> '\n' !in buffer && |buffer| < IRC_MAX_LINE
  {
    var pos := Find(buffer, '\n', 0);
    if pos == |buffer| then
      if |buffer| >= IRC_MAX_LINE then TooLong(|buffer|) else Incomplete
    else
      var raw := StripCr(buffer[..pos]);
      if |raw| > IRC_MAX_CONTENT then TooLong(pos + 1) else Extracted(raw, pos + 1)
  }

  /** The lines taken so far and the residue; no residue once a line was too
      long, because the connection is then given up. */
  datatype Framed = Framed(lines: seq<string>, rest: Option<string>)

  /** Draining a buffer until no complete line is left. */
  function Drain(buffer: string): (f: Framed)
    ensures f.rest.Some? ==> |f.rest.value| < IRC_MAX_LINE && '\n' !in f.rest.value
    decreases |buffer|
  {
    match FindLine(buffer)
    case Extracted(line, consumed) =>
      var f := Drain(buffer[consumed..]);
      Framed([line] + f.lines, f.rest)
    case TooLong(_) => Framed([], None)
    case Incomplete => Framed([], Some(buffer))
  }

  /** One recv: append the chunk to the residue, then drain. */
  function Receive(f: Framed, chunk: string): Framed {
    match f.rest
    case None => f
    case Some(rest) =>
      var g := Drain(rest + chunk);
      Framed(f.lines + g.lines, g.rest)
  }

  function ReceiveAll(chunks: seq<string>): Framed {
    if chunks == [] then Framed([], Some(""))
    else Receive(ReceiveAll(chunks[..|chunks| - 1]), chunks[|chunks| - 1])
  }

  /** Bytes that arrive later do not change what the first line is. */
  lemma FindLineStable(a: string, b: string)
    ensures FindLine(a).Extracted? ==> FindLine(a + b) == FindLine(a)
    ensures FindLine(a).TooLong? ==> FindLine(a + b).TooLong?
  {
    var pos := Find(a, '\n', 0);
    assert forall i :: 0 <= i < pos ==> (a + b)[i] == a[i];
    if pos < |a| {
      FindIs(a + b, '\n', 0, pos);
      assert (a + b)[..pos] == a[..pos];
    } else if |a| >= IRC_MAX_LINE {
      var later := Find(a + b, '\n', 0);
      assert later >= |a|;
      assert |StripCr((a + b)[..later])| > IRC_MAX_CONTENT;
    }
  }

  /** A line already taken stays in front. */
  lemma ReceiveBehind(line: string, f: Framed, chunk: string)
    ensures var g := Receive(f, chunk);
      Receive(Framed([line] + f.lines, f.rest), chunk) == Framed([line] + g.lines, g.rest)
  {
    if f.rest.Some? {
      var g := Drain(f.rest.value + chunk);
      assert [line] + (f.lines + g.lines) == [line] + f.lines + g.lines;
    }
  }

  lemma {:induction false} DrainAppend(a: string, b: string)
    ensures Drain(a + b) == Receive(Drain(a), b)
    decreases |a|
  {
    FindLineStable(a, b);
    match FindLine(a) {
      case Extracted(line, consumed) =>
        assert (a + b)[consumed..] == a[consumed..] + b;
        DrainAppend(a[consumed..], b);
        ReceiveBehind(line, Drain(a[consumed..]), b);
      case TooLong(_) =>
      case Incomplete =>
        assert [] + Drain(a + b).lines == Drain(a + b).lines;
    }
  }

  /** Receiving chunk by chunk is draining the whole stream at once. */
  lemma {:induction false} FramingIgnoresCuts(chunks: seq<string>)
    ensures ReceiveAll(chunks) == Drain(Concat(chunks))
  {
    if chunks != [] {
      var init := chunks[..|chunks| - 1];
      FramingIgnoresCuts(init);
      ConcatLast(init, chunks[|chunks| - 1]);
      assert init + [chunks[|chunks| - 1]] == chunks;
      DrainAppend(Concat(init), chunks[|chunks| - 1]);
    }
  }

  /** Receive framing is confluent: however TCP cuts a stream, the same lines
      come out in the same order, with the same residue or, both ways, with a
      line too long. */
  lemma FramingConfluent(cuts: seq<string>, otherCuts: seq<string>)
    requires Concat(cuts) == Concat(otherCuts)
    ensures ReceiveAll(cuts) == ReceiveAll(otherCuts)
  {
    FramingIgnoresCuts(cuts);
    FramingIgnoresCuts(otherCuts);
  }

  function CrLf(lines: seq<string>): string {
    if lines == [] then "" else lines[0] + "\r\n" + CrLf(lines[1..])
  }

  predicate LinesFit(lines: seq<string>) {
    forall i :: 0 <= i < |lines| ==> |lines[i]| <= IRC_MAX_CONTENT && '\n' !in lines[i]
  }

  lemma FirstCrLfLine(line: string, rest: string)
    requires |line| <= IRC_MAX_CONTENT && '\n' !in line
    ensures FindLine(line + "\r\n" + rest) == Extracted(line, |line| + 2)
  {
    var buffer := line + "\r\n" + rest;
    var pos := |line| + 1;
    assert buffer[pos] == '\n';
    assert forall i :: 0 <= i < |line| ==> buffer[i] == line[i];
    FindIs(buffer, '\n', 0, pos);
    assert buffer[..pos] == line + "\r";
    assert StripCr(line + "\r") == line;
  }

  /** Framing inverts CRLF termination: a peer's lines of at most 510 bytes
      come out exactly as sent, whatever the cuts. */
  lemma {:induction false} FramingInvertsCrLf(lines: seq<string>)
    requires LinesFit(lines)
    ensures Drain(CrLf(lines)) == Framed(lines, Some(""))
  {
    if lines != [] {
      var rest := CrLf(lines[1..]);
      FirstCrLfLine(lines[0], rest);
      var buffer := lines[0] + "\r\n" + rest;
      assert buffer[|lines[0]| + 2..] == rest;
      FramingInvertsCrLf(lines[1..]);
      assert [lines[0]] + lines[1..] == lines;
    }
  }
}
