/** What a poll entry amounts to for a connected client: which of its lines are
    carried out, and what gives the connection up
    (receiveFromClient and handleClientEvent in
    services/irc/prd/interface/ServerNetwork.cpp). */
module Hearing {
  import opened Strings
  import opened Domain
  import opened Parser
  import opened BufferUtil
  import opened Commands
  import opened Answers
  import opened Delivery
  import opened Traces
  import opened EventLoop

  /** The lines that parse, as steps of a run. */
  function Said(fd: int, lines: seq<string>): seq<Step> {
    if lines == [] then []
    else (match ParseLine(lines[0]) case None => [] case Some(m) => [Says(fd, m)]) + Said(fd, lines[1..])
  }

  /** Of the lines of the received bytes the first n were carried out; all of
      them, and the residue kept, unless the client is being given up; and it is
      being given up when a line is too long. */
  ghost predicate Heard(w: View, fd: int, bytes: string, steps: seq<Step>, n: nat) {
    var f := Drain(bytes);
    && n <= |f.lines| && steps == Said(fd, f.lines[..n])
    && fd in w.io.ports
    && (fd !in w.io.pending ==> n == |f.lines| && f.rest == Some(w.io.ports[fd].receiveBuffer))
  }

  lemma HeardBehind(w: View, fd: int, bytes: string, line: string, consumed: nat, steps: seq<Step>, n: nat)
    requires FindLine(bytes) == Extracted(line, consumed) && Heard(w, fd, bytes[consumed..], steps, n)
    ensures Heard(w, fd, bytes, LineTrace(fd, line) + steps, n + 1)
  {
    var f := Drain(bytes[consumed..]);
    assert ([line] + f.lines)[..n + 1] == [line] + f.lines[..n];
    assert ([line] + f.lines[..n])[1..] == f.lines[..n];
  }

  lemma FirstOnly(w: View, fd: int, bytes: string, line: string, consumed: nat)
    requires FindLine(bytes) == Extracted(line, consumed) && fd in w.io.pending && fd in w.io.ports
    ensures Heard(w, fd, bytes, LineTrace(fd, line), 1)
  {
    var f := Drain(bytes);
    assert f.lines[..1] == [line] && [line][1..] == [];
    assert LineTrace(fd, line) + [] == LineTrace(fd, line);
  }

  lemma FirstLineLeaves(cfg: Config, v: View, fd: int)
    requires ViewOk(cfg, v) && fd in v.io.ports && FindLine(v.io.ports[fd].receiveBuffer).Extracted?
    ensures var found := FindLine(v.io.ports[fd].receiveBuffer);
      var w := RunFirstLine(cfg, v, fd);
      && ViewOk(cfg, w) && fd in w.io.ports
      && w.io.ports[fd].receiveBuffer == v.io.ports[fd].receiveBuffer[found.consumed..]
  {
    var found := FindLine(v.io.ports[fd].receiveBuffer);
    TrimmedKeeps(cfg, v, fd, found.consumed);
    LineKeeps(cfg, Trimmed(v, fd, found.consumed), fd, found.line);
  }

  lemma {:induction false} LinesHeard(cfg: Config, v: View, fd: int) returns (n: nat)
    requires ViewOk(cfg, v) && fd in v.io.ports
    ensures Heard(DrainLines(cfg, v, fd), fd, v.io.ports[fd].receiveBuffer, DrainLinesTrace(cfg, v, fd), n)
    decreases |v.io.ports[fd].receiveBuffer|
  {
    var bytes := v.io.ports[fd].receiveBuffer;
    match FindLine(bytes) {
      case Extracted(line, consumed) =>
        FirstLineLeaves(cfg, v, fd);
        DrainLinesUnfold(cfg, v, fd);
        var w := RunFirstLine(cfg, v, fd);
        if fd in w.io.pending {
          FirstOnly(w, fd, bytes, line, consumed);
          assert LineTrace(fd, line) + [] == LineTrace(fd, line);
          n := 1;
        } else {
          var k := LinesHeard(cfg, w, fd);
          HeardBehind(DrainLines(cfg, w, fd), fd, bytes, line, consumed, DrainLinesTrace(cfg, w, fd), k);
          n := k + 1;
        }
      case TooLong(consumed) =>
        TooLongSteps(cfg, v, fd, consumed);
        n := 0;
      case Incomplete =>
        n := 0;
    }
  }

  /** One read: of the lines of the residue and the new bytes together a first part
      is carried out, and all of them unless the client is being given up. */
  lemma ReadHeard(cfg: Config, v: View, fd: int, data: string) returns (n: nat)
    requires ViewOk(cfg, v) && fd in v.io.ports && data != ""
    requires |v.io.ports[fd].receiveBuffer + data| <= MAX_RECEIVE_BUFFER
    ensures Heard(EventLoop.Receive(cfg, v, fd, data), fd, v.io.ports[fd].receiveBuffer + data,
                  ReceiveTrace(cfg, v, fd, data), n)
  {
    ReceivedSteps(cfg, v, fd, data);
    n := LinesHeard(cfg, v.(io := Received(v.io, fd, data)), fd);
  }

  /** The end of the stream, a failed or hung-up connection and an invalid
      descriptor each give the client up, and none of them says anything. */
  lemma GivenUp(cfg: Config, v: View, fd: int, ev: Event)
    requires ViewOk(cfg, v) && fd in v.core.clients && ev.Legal(cfg)
    requires ev.invalid || ev.hangup || (ev.readable && ev.data == "")
    ensures fd in ClientEvent(cfg, v, fd, ev).io.pending
    ensures ev.invalid || !ev.readable || ev.data == "" ==> ClientEvent(cfg, v, fd, ev).core == v.core
  {
    if !ev.invalid && ev.readable { ReceiveSteps(cfg, v, fd, ev.data); }
  }

  /** An entry that only writes: the socket takes a prefix of what waits, and a
      client whose socket takes nothing is given up. */
  lemma Written(cfg: Config, v: View, fd: int, ev: Event)
    requires ViewOk(cfg, v) && fd in v.core.clients
    requires !ev.invalid && !ev.readable && ev.writable && !ev.hangup
    ensures var w, waiting := ClientEvent(cfg, v, fd, ev), v.io.ports[fd].sendBuffer;
      && w.core == v.core && fd in w.io.ports
      && if waiting != "" && ev.sent <= 0 then
           w.io.ports == v.io.ports && w.io.pending == v.io.pending + {fd}
         else
           var k := if ev.sent < 0 then 0 else if ev.sent > |waiting| then |waiting| else ev.sent;
           && w.io.pending == v.io.pending
           && w.io.ports[fd].sent == v.io.ports[fd].sent + waiting[..k]
           && w.io.ports[fd].sendBuffer == waiting[k..]
  {
  }

  lemma Carried(cfg: Config, v: View, fd: int, m: Message, e: Effect)
    requires ViewOk(cfg, v) && fd in v.core.clients && v.core.clients[fd].fd == fd
    requires e == Dispatch(cfg, v.core, fd, m)
    ensures Execute(cfg, v, fd, m) == ReserveQuit(Perform(v, e), fd, QuitReason(v.core, fd, m))
  {
  }

  lemma OffersKeepReasons(v: View, e: Effect)
    ensures Perform(v, e).io.reasons == v.io.reasons
    ensures e == Effect(v.core, []) ==> Perform(v, e) == v
  {
    DeliverFrame(v.io, e.sends);
  }

  /** QUIT reserves its sender for disconnection, with the reason to give the
      others; no other command records a reason. */
  lemma QuitReserves(cfg: Config, v: View, fd: int, m: Message)
    requires ViewOk(cfg, v) && fd in v.core.clients
    ensures var w := Execute(cfg, v, fd, m);
      if m.command == "QUIT" then
        && w.core == v.core && w.io.ports == v.io.ports && w.io.pending == v.io.pending + {fd}
        && w.io.reasons == v.io.reasons[fd := if |m.params| == 0 then "Client Quit" else m.params[0]]
      else w.io.reasons == v.io.reasons
  {
    Gates(cfg, v.core, fd, m);
    var e := Dispatch(cfg, v.core, fd, m);
    Carried(cfg, v, fd, m, e);
    OffersKeepReasons(v, e);
  }
}
