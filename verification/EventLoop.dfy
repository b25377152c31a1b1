/** One pass of the poll loop as a function of the state before it and of what
    the operating system reported: lines cut from the receive buffer and
    dispatched, buffers flushed, connections accepted, and at the end the
    reserved clients disconnected
    (services/irc/prd/interface/ServerNetwork.cpp, ServerRelations.cpp). */
module EventLoop {
  import opened IrcUtil
  import opened Strings
  import opened Domain
  import opened Ordered
  import opened Parser
  import opened BufferUtil
  import opened Commands
  import opened Moves
  import opened CommandMoves
  import opened Delivery
  import opened Sends
  import opened Traces

  const RECV_CHUNK_SIZE: nat := 4096
  const MAX_RECEIVE_BUFFER: nat := 65536
  const MAX_RESIDUE: nat := 511

  datatype View = View(core: Core, io: Io)

  /** The invariant of the whole server. */
  ghost predicate ViewOk(cfg: Config, v: View) {
    && SafeToken(cfg.serverName)
    && Inv(v.core)
    && IoOk(v.io, cfg.listenFd)
    && v.io.ports.Keys == v.core.clients.Keys
  }

  /** What one poll entry reported, and what the calls it led to returned:
      `data` is what recv gave ("" for end of stream or failure), `sent` what
      send returned, `accepted` the connection accept gave, if any. */
  datatype Event = Event(
    invalid: bool,
    readable: bool,
    writable: bool,
    hangup: bool,
    data: string,
    sent: int,
    accepted: Option<(int, string)>)
  {
    predicate Silent() { !invalid && !readable && !writable && !hangup }

    predicate Legal(cfg: Config) {
      && |data| <= RECV_CHUNK_SIZE
      && (accepted.Some? ==> accepted.value.0 != cfg.listenFd && SafeToken(accepted.value.1))
    }
  }

  // ------------------------------------------------------------ one command

  ghost function Perform(v: View, e: Effect): View {
    View(e.core, Deliver(v.io, e.sends))
  }

  ghost function ReserveQuit(v: View, fd: int, reason: Option<string>): View {
    if reason == None then v else v.(io := ScheduleQuit(v.io, fd, reason.value))
  }

  ghost function Execute(cfg: Config, v: View, fd: int, m: Message): View
    requires ViewOk(cfg, v)
  {
    assert fd in v.core.clients ==> ClientOk(v.core.clients[fd], fd);
    ReserveQuit(Perform(v, Dispatch(cfg, v.core, fd, m)), fd, QuitReason(v.core, fd, m))
  }

  /** A step that leaves connections, poll entries and receive buffers be. */
  predicate ReceiveSame(v: View, w: View) {
    && w.io.ports.Keys == v.io.ports.Keys
    && v.io.pending <= w.io.pending
    && |w.io.poll| == |v.io.poll|
    && (forall i {:trigger w.io.poll[i]} :: 0 <= i < |v.io.poll| ==> w.io.poll[i].fd == v.io.poll[i].fd)
    && (forall fd {:trigger w.io.ports[fd]} :: fd in v.io.ports ==>
          w.io.ports[fd].receiveBuffer == v.io.ports[fd].receiveBuffer)
  }

  lemma PerformKeeps(cfg: Config, v: View, e: Effect)
    requires ViewOk(cfg, v) && Inv(e.core) && e.core.clients.Keys == v.core.clients.Keys
    requires GoodSends(e.sends)
    ensures ViewOk(cfg, Perform(v, e)) && ReceiveSame(v, Perform(v, e))
  {
    DeliverKeeps(v.io, cfg.listenFd, e.sends);
    DeliverFrame(v.io, e.sends);
  }

  lemma ExecuteKeeps(cfg: Config, v: View, fd: int, m: Message)
    requires ViewOk(cfg, v)
    ensures ViewOk(cfg, Execute(cfg, v, fd, m)) && ReceiveSame(v, Execute(cfg, v, fd, m))
    ensures Leads(cfg, v.core, [Says(fd, m)], Execute(cfg, v, fd, m).core)
  {
    DispatchSame(cfg, v.core, fd, m);
    OneStep(cfg, v.core, Says(fd, m));
    DispatchGood(cfg, v.core, fd, m);
    var e := Dispatch(cfg, v.core, fd, m);
    PerformKeeps(cfg, v, e);
    ReserveQuitKeeps(cfg, v, Perform(v, e), fd, QuitReason(v.core, fd, m));
  }

  /** A command connects and disconnects nobody. */
  lemma DispatchSame(cfg: Config, c: Core, fd: int, m: Message)
    requires Inv(c)
    ensures fd in c.clients ==> c.clients[fd].fd == fd
    ensures var d := Dispatch(cfg, c, fd, m).core;
      Inv(d) && d.clients.Keys == c.clients.Keys
  {
    var deeds := DispatchDeeds(cfg, c, fd, m);
    RunKeeps(c, deeds);
    SameConnections(c, deeds, fd);
  }

  lemma ReserveQuitKeeps(cfg: Config, v: View, w: View, fd: int, reason: Option<string>)
    requires ViewOk(cfg, w) && ReceiveSame(v, w)
    requires reason != None ==> fd in w.io.ports
    ensures ViewOk(cfg, ReserveQuit(w, fd, reason)) && ReceiveSame(v, ReserveQuit(w, fd, reason))
  {
  }

  // ------------------------------------------------------- received bytes

  ghost function Line(cfg: Config, v: View, fd: int, line: string): View
    requires ViewOk(cfg, v)
  {
    match ParseLine(line)
    case None => v
    case Some(m) => Execute(cfg, v, fd, m)
  }

  /** The command of a line, if it parses. */
  function LineTrace(fd: int, line: string): seq<Step> {
    match ParseLine(line)
    case None => []
    case Some(m) => [Says(fd, m)]
  }

  lemma LineKeeps(cfg: Config, v: View, fd: int, line: string)
    requires ViewOk(cfg, v)
    ensures ViewOk(cfg, Line(cfg, v, fd, line)) && ReceiveSame(v, Line(cfg, v, fd, line))
    ensures Leads(cfg, v.core, LineTrace(fd, line), Line(cfg, v, fd, line).core)
  {
    match ParseLine(line) {
      case None => LeadsNowhere(cfg, v.core);
      case Some(m) => ExecuteKeeps(cfg, v, fd, m);
    }
  }

  /** The server gives the connection up, telling it why. */
  ghost function GiveUp(v: View, fd: int, text: string): View {
    v.(io := Schedule(Offer(v.io, {fd}, text), fd))
  }

  ghost function Trimmed(v: View, fd: int, n: nat): View
    requires fd in v.io.ports && n <= |v.io.ports[fd].receiveBuffer|
  {
    v.(io := Consumed(v.io, fd, n))
  }

  lemma TrimmedKeeps(cfg: Config, v: View, fd: int, n: nat)
    requires ViewOk(cfg, v) && fd in v.io.ports && n <= |v.io.ports[fd].receiveBuffer|
    ensures ViewOk(cfg, Trimmed(v, fd, n))
  {
    ReceiveSideKeeps(v.io, cfg.listenFd, fd, v.io.ports[fd].receiveBuffer[n..]);
  }

  lemma GiveUpKeeps(cfg: Config, v: View, fd: int, text: string)
    requires ViewOk(cfg, v) && fd in v.io.ports && GoodLine(text)
    ensures ViewOk(cfg, GiveUp(v, fd, text)) && ReceiveSame(v, GiveUp(v, fd, text))
    ensures fd in GiveUp(v, fd, text).io.pending
  {
    OfferKeeps(v.io, cfg.listenFd, {fd}, text);
    OfferFrame(v.io, {fd}, text);
    ScheduleKeeps(Offer(v.io, {fd}, text), cfg.listenFd, fd);
  }

  const LINE_TOO_LONG: string := "ERROR :Input line too long"
  const BUFFER_EXCEEDED: string := "ERROR :Receive buffer limit exceeded"

  lemma LineOk(cfg: Config, v: View, fd: int, line: string)
    requires ViewOk(cfg, v)
    ensures ViewOk(cfg, Line(cfg, v, fd, line)) && ReceiveSame(v, Line(cfg, v, fd, line))
  {
    LineKeeps(cfg, v, fd, line);
  }

  /** The first line of the buffer taken off and run. */
  ghost function RunFirstLine(cfg: Config, v: View, fd: int): View
    requires ViewOk(cfg, v) && fd in v.io.ports
    requires FindLine(v.io.ports[fd].receiveBuffer).Extracted?
  {
    var found := FindLine(v.io.ports[fd].receiveBuffer);
    TrimmedKeeps(cfg, v, fd, found.consumed);
    Line(cfg, Trimmed(v, fd, found.consumed), fd, found.line)
  }

  /** Lines are taken and run until none is complete, one is too long, or the
      client is reserved for disconnection. */
  ghost function DrainLines(cfg: Config, v: View, fd: int): View
    requires ViewOk(cfg, v) && fd in v.io.ports
    decreases |v.io.ports[fd].receiveBuffer|
  {
    match FindLine(v.io.ports[fd].receiveBuffer)
    case Extracted(line, n) =>
      TrimmedKeeps(cfg, v, fd, n);
      LineOk(cfg, Trimmed(v, fd, n), fd, line);
      var w := RunFirstLine(cfg, v, fd);
      if fd in w.io.pending then w else DrainLines(cfg, w, fd)
    case TooLong(n) => GiveUp(Trimmed(v, fd, n), fd, LINE_TOO_LONG)
    case Incomplete => v
  }

  /** The commands run by the line loop, in order. */
  ghost function DrainLinesTrace(cfg: Config, v: View, fd: int): seq<Step>
    requires ViewOk(cfg, v) && fd in v.io.ports
    decreases |v.io.ports[fd].receiveBuffer|
  {
    match FindLine(v.io.ports[fd].receiveBuffer)
    case Extracted(line, n) =>
      TrimmedKeeps(cfg, v, fd, n);
      LineOk(cfg, Trimmed(v, fd, n), fd, line);
      var w := RunFirstLine(cfg, v, fd);
      LineTrace(fd, line) + (if fd in w.io.pending then [] else DrainLinesTrace(cfg, w, fd))
    case TooLong(n) => []
    case Incomplete => []
  }

  /** A step that touches the receive side of one client only. */
  predicate OnlyReceiverOf(v: View, w: View, fd: int) {
    && v.io.ports.Keys == w.io.ports.Keys
    && v.io.pending <= w.io.pending
    && |w.io.poll| == |v.io.poll|
    && (forall i {:trigger w.io.poll[i]} :: 0 <= i < |v.io.poll| ==> w.io.poll[i].fd == v.io.poll[i].fd)
    && (forall x {:trigger w.io.ports[x]} :: x in v.io.ports && x != fd ==>
          w.io.ports[x].receiveBuffer == v.io.ports[x].receiveBuffer)
  }

  /** An undoomed client keeps at most 511 bytes between passes. */
  predicate Settled(v: View, fd: int) {
    fd in v.io.ports ==> |v.io.ports[fd].receiveBuffer| <= MAX_RESIDUE || fd in v.io.pending
  }

  /** A step for client fd: the invariant holds after it, only its receive
      buffer may have changed, and not grown beyond `room` more bytes, and the
      relational state is what the trace makes of it. */
  ghost predicate Steps(cfg: Config, v: View, w: View, fd: int, room: nat, trace: seq<Step>) {
    && ViewOk(cfg, w)
    && OnlyReceiverOf(v, w, fd)
    && (fd in v.io.ports ==>
          |w.io.ports[fd].receiveBuffer| <= |v.io.ports[fd].receiveBuffer| + room)
    && Leads(cfg, v.core, trace, w.core)
  }

  lemma StepsThen(cfg: Config, v: View, w: View, x: View, fd: int, room: nat, a: seq<Step>, b: seq<Step>)
    requires Steps(cfg, v, w, fd, room, a) && Steps(cfg, w, x, fd, 0, b)
    ensures Steps(cfg, v, x, fd, room, a + b)
  {
    LeadsThen(cfg, v.core, a, w.core, b, x.core);
  }

  lemma StepsFrom(cfg: Config, v: View, w: View, x: View, fd: int, room: nat, trace: seq<Step>)
    requires Steps(cfg, v, w, fd, room, []) && Steps(cfg, w, x, fd, 0, trace)
    ensures Steps(cfg, v, x, fd, room, trace)
  {
    StepsThen(cfg, v, w, x, fd, room, [], trace);
    assert [] + trace == trace;
  }

  lemma LineSteps(cfg: Config, v: View, fd: int, line: string)
    requires ViewOk(cfg, v) && fd in v.io.ports
    ensures Steps(cfg, v, Line(cfg, v, fd, line), fd, 0, LineTrace(fd, line))
    ensures |Line(cfg, v, fd, line).io.ports[fd].receiveBuffer| == |v.io.ports[fd].receiveBuffer|
  {
    LineKeeps(cfg, v, fd, line);
  }

  lemma TrimmedSteps(cfg: Config, v: View, fd: int, n: nat)
    requires ViewOk(cfg, v) && fd in v.io.ports && n <= |v.io.ports[fd].receiveBuffer|
    ensures Steps(cfg, v, Trimmed(v, fd, n), fd, 0, [])
    ensures fd in Trimmed(v, fd, n).io.ports
    ensures |Trimmed(v, fd, n).io.ports[fd].receiveBuffer| == |v.io.ports[fd].receiveBuffer| - n
  {
    TrimmedKeeps(cfg, v, fd, n);
    LeadsNowhere(cfg, v.core);
  }

  lemma FirstLineSteps(cfg: Config, v: View, fd: int)
    requires ViewOk(cfg, v) && fd in v.io.ports
    requires FindLine(v.io.ports[fd].receiveBuffer).Extracted?
    ensures Steps(cfg, v, RunFirstLine(cfg, v, fd), fd, 0, LineTrace(fd, FindLine(v.io.ports[fd].receiveBuffer).line))
    ensures |RunFirstLine(cfg, v, fd).io.ports[fd].receiveBuffer| < |v.io.ports[fd].receiveBuffer|
  {
    var found := FindLine(v.io.ports[fd].receiveBuffer);
    var w := Trimmed(v, fd, found.consumed);
    TrimmedSteps(cfg, v, fd, found.consumed);
    LineSteps(cfg, w, fd, found.line);
    StepsFrom(cfg, v, w, Line(cfg, w, fd, found.line), fd, 0, LineTrace(fd, found.line));
  }

  lemma TooLongSteps(cfg: Config, v: View, fd: int, n: nat)
    requires ViewOk(cfg, v) && fd in v.io.ports && n <= |v.io.ports[fd].receiveBuffer|
    ensures var w := GiveUp(Trimmed(v, fd, n), fd, LINE_TOO_LONG);
      Steps(cfg, v, w, fd, 0, []) && fd in w.io.pending
  {
    TrimmedKeeps(cfg, v, fd, n);
    LiteralGood(LINE_TOO_LONG);
    LeadsNowhere(cfg, v.core);
    GiveUpKeeps(cfg, Trimmed(v, fd, n), fd, LINE_TOO_LONG);
  }

  lemma {:induction false} DrainLinesSteps(cfg: Config, v: View, fd: int)
    requires ViewOk(cfg, v) && fd in v.io.ports
    ensures Steps(cfg, v, DrainLines(cfg, v, fd), fd, 0, DrainLinesTrace(cfg, v, fd))
    ensures Settled(DrainLines(cfg, v, fd), fd)
    decreases |v.io.ports[fd].receiveBuffer|
  {
    var found := FindLine(v.io.ports[fd].receiveBuffer);
    if found.Extracted? {
      FirstLineSteps(cfg, v, fd);
      var w := RunFirstLine(cfg, v, fd);
      DrainLinesUnfold(cfg, v, fd);
      var first := LineTrace(fd, found.line);
      if fd in w.io.pending {
        assert first + [] == first;
      } else {
        DrainLinesSteps(cfg, w, fd);
        StepsThen(cfg, v, w, DrainLines(cfg, w, fd), fd, 0, first, DrainLinesTrace(cfg, w, fd));
      }
    } else if found.TooLong? {
      TooLongSteps(cfg, v, fd, found.consumed);
    } else {
      LeadsNowhere(cfg, v.core);
    }
  }

  lemma DrainLinesUnfold(cfg: Config, v: View, fd: int)
    requires ViewOk(cfg, v) && fd in v.io.ports
    requires FindLine(v.io.ports[fd].receiveBuffer).Extracted?
    ensures ViewOk(cfg, RunFirstLine(cfg, v, fd))
    ensures var w := RunFirstLine(cfg, v, fd);
      var first := LineTrace(fd, FindLine(v.io.ports[fd].receiveBuffer).line);
      && fd in w.io.ports
      && DrainLines(cfg, v, fd) == (if fd in w.io.pending then w else DrainLines(cfg, w, fd))
      && DrainLinesTrace(cfg, v, fd) == first + (if fd in w.io.pending then [] else DrainLinesTrace(cfg, w, fd))
  {
    FirstLineSteps(cfg, v, fd);
  }

  lemma LiteralGood(text: string)
    requires text == LINE_TOO_LONG || text == BUFFER_EXCEEDED
    ensures GoodLine(text)
  {
  }

  /** A client already reserved gets at most one more line run. */
  lemma DoomedClientRunsOneLine(cfg: Config, v: View, fd: int)
    requires ViewOk(cfg, v) && fd in v.io.ports && fd in v.io.pending
    ensures FindLine(v.io.ports[fd].receiveBuffer).Extracted? ==>
      DrainLines(cfg, v, fd) == RunFirstLine(cfg, v, fd)
    ensures !FindLine(v.io.ports[fd].receiveBuffer).Extracted? ==>
      DrainLines(cfg, v, fd).core == v.core
  {
    if FindLine(v.io.ports[fd].receiveBuffer).Extracted? {
      DrainLinesUnfold(cfg, v, fd);
      FirstLineSteps(cfg, v, fd);
    }
  }

  /** One recv of at most 4096 bytes. */
  ghost function Receive(cfg: Config, v: View, fd: int, data: string): View
    requires ViewOk(cfg, v) && fd in v.io.ports
  {
    if data == "" then v.(io := Schedule(v.io, fd))
    else
      var w := v.(io := Received(v.io, fd, data));
      if |w.io.ports[fd].receiveBuffer| > MAX_RECEIVE_BUFFER then GiveUp(w, fd, BUFFER_EXCEEDED)
      else
        ReceiveSideKeeps(v.io, cfg.listenFd, fd, v.io.ports[fd].receiveBuffer + data);
        DrainLines(cfg, w, fd)
  }

  ghost function ReceiveTrace(cfg: Config, v: View, fd: int, data: string): seq<Step>
    requires ViewOk(cfg, v) && fd in v.io.ports
  {
    if data == "" then []
    else
      var w := v.(io := Received(v.io, fd, data));
      if |w.io.ports[fd].receiveBuffer| > MAX_RECEIVE_BUFFER then []
      else
        ReceiveSideKeeps(v.io, cfg.listenFd, fd, v.io.ports[fd].receiveBuffer + data);
        DrainLinesTrace(cfg, w, fd)
  }

  lemma ReceiveSteps(cfg: Config, v: View, fd: int, data: string)
    requires ViewOk(cfg, v) && fd in v.io.ports
    ensures Steps(cfg, v, Receive(cfg, v, fd, data), fd, |data|, ReceiveTrace(cfg, v, fd, data))
    ensures Settled(Receive(cfg, v, fd, data), fd)
  {
    if data == "" {
      LeadsNowhere(cfg, v.core);
    } else {
      var w := v.(io := Received(v.io, fd, data));
      ReceivedSteps(cfg, v, fd, data);
      if |w.io.ports[fd].receiveBuffer| > MAX_RECEIVE_BUFFER {
        ExceededSteps(cfg, w, fd);
        StepsFrom(cfg, v, w, GiveUp(w, fd, BUFFER_EXCEEDED), fd, |data|, []);
      } else {
        DrainLinesSteps(cfg, w, fd);
        StepsFrom(cfg, v, w, DrainLines(cfg, w, fd), fd, |data|, DrainLinesTrace(cfg, w, fd));
      }
    }
  }

  lemma ExceededSteps(cfg: Config, v: View, fd: int)
    requires ViewOk(cfg, v) && fd in v.io.ports
    ensures Steps(cfg, v, GiveUp(v, fd, BUFFER_EXCEEDED), fd, 0, [])
    ensures fd in GiveUp(v, fd, BUFFER_EXCEEDED).io.pending
  {
    LiteralGood(BUFFER_EXCEEDED);
    LeadsNowhere(cfg, v.core);
    GiveUpKeeps(cfg, v, fd, BUFFER_EXCEEDED);
  }

  lemma ReceivedSteps(cfg: Config, v: View, fd: int, data: string)
    requires ViewOk(cfg, v) && fd in v.io.ports
    ensures Steps(cfg, v, v.(io := Received(v.io, fd, data)), fd, |data|, [])
  {
    ReceiveSideKeeps(v.io, cfg.listenFd, fd, v.io.ports[fd].receiveBuffer + data);
    LeadsNowhere(cfg, v.core);
  }

  /** send takes at most what is waiting. */
  function Taken(io: Io, fd: int, sent: int): int
    requires fd in io.ports
  {
    if sent > |io.ports[fd].sendBuffer| then |io.ports[fd].sendBuffer| else sent
  }

  function Flush(v: View, fd: int, sent: int): View
    requires fd in v.io.ports
  {
    v.(io := Flushed(v.io, fd, Taken(v.io, fd, sent)))
  }

  lemma FlushSteps(cfg: Config, v: View, fd: int, sent: int)
    requires ViewOk(cfg, v) && fd in v.io.ports
    ensures Steps(cfg, v, Flush(v, fd, sent), fd, 0, [])
  {
    FlushedKeeps(v.io, cfg.listenFd, fd, Taken(v.io, fd, sent));
    FlushFrame(v, fd, sent);
    LeadsNowhere(cfg, v.core);
  }

  lemma FlushFrame(v: View, fd: int, sent: int)
    requires fd in v.io.ports
    ensures var w := Flush(v, fd, sent);
      w.core == v.core && OnlyReceiverOf(v, w, fd)
      && w.io.ports[fd].receiveBuffer == v.io.ports[fd].receiveBuffer
  {
  }

  // ------------------------------------------------------------ one entry

  ghost function AfterReceive(cfg: Config, v: View, fd: int, ev: Event): View
    requires ViewOk(cfg, v) && fd in v.io.ports
  {
    if ev.readable then Receive(cfg, v, fd, ev.data) else v
  }

  /** Output and hang-up of an entry whose input was handled. */
  function AfterInput(v: View, fd: int, ev: Event): View
    requires fd in v.io.ports
  {
    var w := if ev.writable then Flush(v, fd, ev.sent) else v;
    if ev.writable && fd in w.io.pending then w
    else if ev.hangup then w.(io := Schedule(w.io, fd))
    else w
  }

  ghost function ClientEvent(cfg: Config, v: View, fd: int, ev: Event): View
    requires ViewOk(cfg, v)
  {
    if fd !in v.core.clients then v
    else if ev.invalid then v.(io := Schedule(v.io, fd))
    else
      var w := AfterReceive(cfg, v, fd, ev);
      if (ev.readable && fd in w.io.pending) || fd !in w.io.ports then w else AfterInput(w, fd, ev)
  }

  /** The line that the entry completes at the head of the receive buffer, when
      the entry is one that reads. */
  function HeardLine(v: View, fd: int, ev: Event): Option<Message>
    requires fd in v.io.ports
  {
    var bytes := v.io.ports[fd].receiveBuffer + ev.data;
    if ev.invalid || !ev.readable || ev.data == "" || |bytes| > MAX_RECEIVE_BUFFER then None
    else
      match FindLine(bytes)
      case Extracted(line, n) => ParseLine(line)
      case TooLong(n) => None
      case Incomplete => None
  }

  /** "A reserved descriptor is not given to a new handler" does not hold. It
      holds of an entry exactly when HeardLine is None: a reserved client still
      has the first line that its entry completes executed, and never a second. */
  lemma ReservedClientRuns(cfg: Config, v: View, fd: int, ev: Event)
    requires ViewOk(cfg, v) && fd in v.core.clients && fd in v.io.pending
    ensures ClientEventTrace(cfg, v, fd, ev) == match HeardLine(v, fd, ev) case None => [] case Some(m) => [Says(fd, m)]
    ensures v.core.clients[fd].fd == fd
    ensures ClientEvent(cfg, v, fd, ev).core
         == match HeardLine(v, fd, ev) case None => v.core case Some(m) => Dispatch(cfg, v.core, fd, m).core
  {
    assert ClientOk(v.core.clients[fd], fd);
    if !ev.invalid && ev.readable && ev.data != "" {
      ReservedReceives(cfg, v, fd, ev);
    }
  }

  lemma ReservedReceives(cfg: Config, v: View, fd: int, ev: Event)
    requires ViewOk(cfg, v) && fd in v.io.ports && fd in v.io.pending
    requires !ev.invalid && ev.readable && ev.data != ""
    requires fd in v.core.clients && v.core.clients[fd].fd == fd
    ensures ReceiveTrace(cfg, v, fd, ev.data)
         == match HeardLine(v, fd, ev) case None => [] case Some(m) => [Says(fd, m)]
    ensures Receive(cfg, v, fd, ev.data).core
         == match HeardLine(v, fd, ev) case None => v.core case Some(m) => Dispatch(cfg, v.core, fd, m).core
    ensures fd in Receive(cfg, v, fd, ev.data).io.pending && fd in Receive(cfg, v, fd, ev.data).io.ports
  {
    var w := v.(io := Received(v.io, fd, ev.data));
    ReceivedSteps(cfg, v, fd, ev.data);
    ReceiveSteps(cfg, v, fd, ev.data);
    if |w.io.ports[fd].receiveBuffer| <= MAX_RECEIVE_BUFFER {
      ReservedDrains(cfg, w, fd);
    }
  }

  lemma LineCore(cfg: Config, v: View, fd: int, line: string)
    requires ViewOk(cfg, v) && fd in v.core.clients && v.core.clients[fd].fd == fd
    ensures Line(cfg, v, fd, line).core
         == match ParseLine(line) case None => v.core case Some(m) => Dispatch(cfg, v.core, fd, m).core
  {
  }

  lemma FirstLineCore(cfg: Config, v: View, fd: int)
    requires ViewOk(cfg, v) && fd in v.io.ports && fd in v.core.clients && v.core.clients[fd].fd == fd
    requires FindLine(v.io.ports[fd].receiveBuffer).Extracted?
    ensures RunFirstLine(cfg, v, fd).core
         == match ParseLine(FindLine(v.io.ports[fd].receiveBuffer).line)
            case None => v.core
            case Some(m) => Dispatch(cfg, v.core, fd, m).core
  {
    var found := FindLine(v.io.ports[fd].receiveBuffer);
    TrimmedKeeps(cfg, v, fd, found.consumed);
    LineCore(cfg, Trimmed(v, fd, found.consumed), fd, found.line);
  }

  lemma ReservedDrains(cfg: Config, v: View, fd: int)
    requires ViewOk(cfg, v) && fd in v.io.ports && fd in v.io.pending
    requires fd in v.core.clients && v.core.clients[fd].fd == fd
    ensures var found := FindLine(v.io.ports[fd].receiveBuffer);
      var heard := if found.Extracted? then ParseLine(found.line) else None;
      && DrainLinesTrace(cfg, v, fd) == (match heard case None => [] case Some(m) => [Says(fd, m)])
      && DrainLines(cfg, v, fd).core
         == (match heard case None => v.core case Some(m) => Dispatch(cfg, v.core, fd, m).core)
  {
    DoomedClientRunsOneLine(cfg, v, fd);
    var found := FindLine(v.io.ports[fd].receiveBuffer);
    if found.Extracted? {
      FirstLineCore(cfg, v, fd);
      DrainLinesUnfold(cfg, v, fd);
      FirstLineSteps(cfg, v, fd);
      assert LineTrace(fd, found.line) + [] == LineTrace(fd, found.line);
    }
  }

  lemma NoStep(cfg: Config, v: View, fd: int)
    requires ViewOk(cfg, v)
    ensures Steps(cfg, v, v, fd, 0, [])
  {
    LeadsNowhere(cfg, v.core);
  }

  lemma HangUpSteps(cfg: Config, v: View, w: View, fd: int)
    requires Steps(cfg, v, w, fd, 0, []) && fd in w.io.ports
    ensures Steps(cfg, v, w.(io := Schedule(w.io, fd)), fd, 0, [])
  {
    ScheduleKeeps(w.io, cfg.listenFd, fd);
  }

  lemma AfterInputSteps(cfg: Config, v: View, fd: int, ev: Event)
    requires ViewOk(cfg, v) && fd in v.io.ports
    ensures Steps(cfg, v, AfterInput(v, fd, ev), fd, 0, [])
    ensures Settled(v, fd) ==> Settled(AfterInput(v, fd, ev), fd)
  {
    var w := if ev.writable then Flush(v, fd, ev.sent) else v;
    if ev.writable { FlushSteps(cfg, v, fd, ev.sent); } else { NoStep(cfg, v, fd); }
    HangUpSteps(cfg, v, w, fd);
  }

  ghost function ClientEventTrace(cfg: Config, v: View, fd: int, ev: Event): seq<Step>
    requires ViewOk(cfg, v)
  {
    if fd !in v.core.clients || ev.invalid || !ev.readable then [] else ReceiveTrace(cfg, v, fd, ev.data)
  }

  lemma ClientEventSteps(cfg: Config, v: View, fd: int, ev: Event)
    requires ViewOk(cfg, v) && ev.Legal(cfg)
    ensures Steps(cfg, v, ClientEvent(cfg, v, fd, ev), fd, RECV_CHUNK_SIZE, ClientEventTrace(cfg, v, fd, ev))
    ensures Settled(v, fd) ==> Settled(ClientEvent(cfg, v, fd, ev), fd)
  {
    LeadsNowhere(cfg, v.core);
    if fd in v.core.clients && !ev.invalid {
      var w := AfterReceive(cfg, v, fd, ev);
      var trace := ClientEventTrace(cfg, v, fd, ev);
      if ev.readable { ReceiveSteps(cfg, v, fd, ev.data); }
      if !(ev.readable && fd in w.io.pending) {
        AfterInputSteps(cfg, w, fd, ev);
        StepsThen(cfg, v, w, AfterInput(w, fd, ev), fd, RECV_CHUNK_SIZE, trace, []);
        assert trace + [] == trace;
      }
    }
  }

  function Accepted(v: View, who: Option<(int, string)>): View {
    match who
    case None => v
    case Some((fd, hostname)) =>
      if fd in v.core.clients then v
      else View(Connected(v.core, fd, hostname), Opened(v.io, fd))
  }

  /** New connections come last in the poll list, with empty buffers. */
  predicate Grown(v: View, w: View) {
    && v.io.ports.Keys <= w.io.ports.Keys
    && v.io.pending == w.io.pending
    && v.io.poll <= w.io.poll
    && (forall fd {:trigger w.io.ports[fd]} :: fd in w.io.ports ==>
          w.io.ports[fd].receiveBuffer == if fd in v.io.ports then v.io.ports[fd].receiveBuffer else "")
  }

  function AcceptedTrace(who: Option<(int, string)>): seq<Step> {
    match who
    case None => []
    case Some((fd, hostname)) => [Arrives(fd, hostname)]
  }

  lemma AcceptedKeeps(cfg: Config, v: View, who: Option<(int, string)>)
    requires ViewOk(cfg, v)
    requires who.Some? ==> who.value.0 != cfg.listenFd && SafeToken(who.value.1)
    ensures ViewOk(cfg, Accepted(v, who)) && Grown(v, Accepted(v, who))
    ensures Leads(cfg, v.core, AcceptedTrace(who), Accepted(v, who).core)
  {
    if who == None {
      LeadsNowhere(cfg, v.core);
    } else {
      OneStep(cfg, v.core, Arrives(who.value.0, who.value.1));
      if who.value.0 !in v.core.clients {
        OpenedKeeps(v.io, cfg.listenFd, who.value.0);
        ConnectKeeps(v.core, who.value.0, who.value.1);
      }
    }
  }

  // ------------------------------------------------------------- one pass

  /** What poll reported for the entries present when it returned. */
  predicate LegalEvents(cfg: Config, v: View, events: seq<Event>) {
    |events| == |v.io.poll| && forall i {:trigger events[i]} :: 0 <= i < |events| ==> events[i].Legal(cfg)
  }

  ghost function EntryEvent(cfg: Config, v: View, i: nat, ev: Event): View
    requires ViewOk(cfg, v) && i < |v.io.poll|
  {
    var fd := v.io.poll[i].fd;
    if ev.Silent() then v
    else if fd == cfg.listenFd then Accepted(v, if ev.readable then ev.accepted else None)
    else ClientEvent(cfg, v, fd, ev)
  }

  ghost function EntryTrace(cfg: Config, v: View, i: nat, ev: Event): seq<Step>
    requires ViewOk(cfg, v) && i < |v.io.poll|
  {
    var fd := v.io.poll[i].fd;
    if ev.Silent() then []
    else if fd == cfg.listenFd then AcceptedTrace(if ev.readable then ev.accepted else None)
    else ClientEventTrace(cfg, v, fd, ev)
  }

  /** Between passes every connection holds at most 511 received bytes. */
  predicate AllSettled(v: View) {
    forall fd {:trigger v.io.ports[fd]} :: fd in v.io.ports ==> |v.io.ports[fd].receiveBuffer| <= MAX_RESIDUE
  }

  /** In the middle of a pass: entries before `n` were handled. */
  ghost predicate MidPass(cfg: Config, start: View, v: View, n: nat) {
    && ViewOk(cfg, v)
    && |v.io.poll| >= |start.io.poll|
    && (forall i {:trigger v.io.poll[i]} :: 0 <= i < |start.io.poll| ==> v.io.poll[i].fd == start.io.poll[i].fd)
    && (forall fd {:trigger v.io.ports[fd]} :: fd in v.io.ports ==>
          Settled(v, fd) && |v.io.ports[fd].receiveBuffer| <= MAX_RESIDUE + RECV_CHUNK_SIZE)
    && (forall i {:trigger start.io.poll[i]} :: n <= i < |start.io.poll| && start.io.poll[i].fd in v.io.ports ==>
          |v.io.ports[start.io.poll[i].fd].receiveBuffer| <= MAX_RESIDUE)
  }

  lemma EntryStep(cfg: Config, start: View, v: View, n: nat, ev: Event)
    requires MidPass(cfg, start, v, n) && n < |start.io.poll| && ev.Legal(cfg)
    requires Distinct(start.io.poll)
    ensures MidPass(cfg, start, EntryEvent(cfg, v, n, ev), n + 1)
    ensures Leads(cfg, v.core, EntryTrace(cfg, v, n, ev), EntryEvent(cfg, v, n, ev).core)
  {
    var fd := v.io.poll[n].fd;
    if ev.Silent() {
      LeadsNowhere(cfg, v.core);
    } else if fd == cfg.listenFd {
      var who := if ev.readable then ev.accepted else None;
      AcceptedKeeps(cfg, v, who);
      GrownMidPass(cfg, start, v, Accepted(v, who), n);
    } else {
      ClientEventSteps(cfg, v, fd, ev);
      StepMidPass(cfg, start, v, ClientEvent(cfg, v, fd, ev), n, ClientEventTrace(cfg, v, fd, ev));
    }
  }

  lemma GrownMidPass(cfg: Config, start: View, v: View, w: View, n: nat)
    requires MidPass(cfg, start, v, n) && ViewOk(cfg, w) && Grown(v, w)
    ensures MidPass(cfg, start, w, n + 1)
  {
    forall fd | fd in w.io.ports
      ensures Settled(w, fd) && |w.io.ports[fd].receiveBuffer| <= MAX_RESIDUE + RECV_CHUNK_SIZE
    {
      if fd in v.io.ports { assert Settled(v, fd) && |v.io.ports[fd].receiveBuffer| <= MAX_RESIDUE + RECV_CHUNK_SIZE; }
    }
    forall i | n + 1 <= i < |start.io.poll| && start.io.poll[i].fd in w.io.ports
      ensures |w.io.ports[start.io.poll[i].fd].receiveBuffer| <= MAX_RESIDUE
    {
    }
  }

  lemma StepSettled(cfg: Config, start: View, v: View, w: View, n: nat, trace: seq<Step>)
    requires MidPass(cfg, start, v, n) && n < |start.io.poll| && Distinct(start.io.poll)
    requires Steps(cfg, v, w, v.io.poll[n].fd, RECV_CHUNK_SIZE, trace)
    requires Settled(v, v.io.poll[n].fd) ==> Settled(w, v.io.poll[n].fd)
    ensures forall x :: x in w.io.ports ==>
      Settled(w, x) && |w.io.ports[x].receiveBuffer| <= MAX_RESIDUE + RECV_CHUNK_SIZE
  {
    forall x | x in w.io.ports
      ensures Settled(w, x) && |w.io.ports[x].receiveBuffer| <= MAX_RESIDUE + RECV_CHUNK_SIZE
    {
      assert x in v.io.ports && Settled(v, x) && |v.io.ports[x].receiveBuffer| <= MAX_RESIDUE + RECV_CHUNK_SIZE;
    }
  }

  lemma StepMidPass(cfg: Config, start: View, v: View, w: View, n: nat, trace: seq<Step>)
    requires MidPass(cfg, start, v, n) && n < |start.io.poll| && Distinct(start.io.poll)
    requires Steps(cfg, v, w, v.io.poll[n].fd, RECV_CHUNK_SIZE, trace)
    requires Settled(v, v.io.poll[n].fd) ==> Settled(w, v.io.poll[n].fd)
    ensures MidPass(cfg, start, w, n + 1)
  {
    StepSettled(cfg, start, v, w, n, trace);
    forall i | n + 1 <= i < |start.io.poll| && start.io.poll[i].fd in w.io.ports
      ensures |w.io.ports[start.io.poll[i].fd].receiveBuffer| <= MAX_RESIDUE
    {
      assert start.io.poll[i].fd != start.io.poll[n].fd;
    }
  }

  lemma EntryOk(cfg: Config, start: View, v: View, n: nat, ev: Event)
    requires MidPass(cfg, start, v, n) && n < |start.io.poll| && ev.Legal(cfg)
    requires Distinct(start.io.poll)
    ensures MidPass(cfg, start, EntryEvent(cfg, v, n, ev), n + 1)
  {
    EntryStep(cfg, start, v, n, ev);
  }

  ghost function NextEntry(cfg: Config, start: View, v: View, n: nat, ev: Event): (w: View)
    requires MidPass(cfg, start, v, n) && n < |start.io.poll| && ev.Legal(cfg)
    requires Distinct(start.io.poll)
    ensures MidPass(cfg, start, w, n + 1)
  {
    EntryOk(cfg, start, v, n, ev);
    EntryEvent(cfg, v, n, ev)
  }

  lemma PassBegins(cfg: Config, v: View)
    requires ViewOk(cfg, v) && AllSettled(v)
    ensures MidPass(cfg, v, v, 0)
  {
  }

  /** The first `n` entries handled, in poll order. */
  ghost function PassUpTo(cfg: Config, v: View, events: seq<Event>, n: nat): (w: View)
    requires ViewOk(cfg, v) && AllSettled(v) && LegalEvents(cfg, v, events) && n <= |events|
    ensures MidPass(cfg, v, w, n)
  {
    if n == 0 then
      PassBegins(cfg, v);
      v
    else
      NextEntry(cfg, v, PassUpTo(cfg, v, events, n - 1), n - 1, events[n - 1])
  }

  // --------------------------------------------------------------- the drain

  function ReasonOf(v: View, fd: int): string {
    if fd in v.io.reasons then v.io.reasons[fd] else "Connection closed"
  }

  ghost function DisconnectOne(v: View, fd: int): View {
    if fd !in v.core.clients then v
    else
      var e := Disconnect(v.core, fd, ReasonOf(v, fd));
      View(e.core, Closed(Deliver(v.io, e.sends), fd))
  }

  lemma ClosedAfter(io: Io, listenFd: int, fd: int, sends: seq<Send>)
    requires IoOk(io, listenFd) && fd in io.ports && GoodSends(sends)
    ensures var next := Closed(Deliver(io, sends), fd);
      && IoOk(next, listenFd) && next.ports.Keys == io.ports.Keys - {fd}
      && io.pending <= next.pending <= io.pending + io.ports.Keys
      && forall x {:trigger next.ports[x]} :: x in io.ports && x != fd ==>
           next.ports[x].receiveBuffer == io.ports[x].receiveBuffer
  {
    DeliverKeeps(io, listenFd, sends);
    DeliverFrame(io, sends);
    ClosedKeeps(Deliver(io, sends), listenFd, fd);
  }

  lemma DisconnectOneKeeps(cfg: Config, v: View, fd: int)
    requires ViewOk(cfg, v)
    ensures ViewOk(cfg, DisconnectOne(v, fd))
    ensures DisconnectOne(v, fd).io.ports.Keys == v.io.ports.Keys - {fd}
    ensures v.io.pending <= DisconnectOne(v, fd).io.pending <= v.io.pending + v.io.ports.Keys
    ensures forall x {:trigger DisconnectOne(v, fd).io.ports[x]} :: x in v.io.ports && x != fd ==>
      DisconnectOne(v, fd).io.ports[x].receiveBuffer == v.io.ports[x].receiveBuffer
  {
    if fd in v.core.clients {
      DropKeeps(v.core, fd);
      DisconnectGood(v.core, fd, ReasonOf(v, fd));
      ClosedAfter(v.io, cfg.listenFd, fd, Disconnect(v.core, fd, ReasonOf(v, fd)).sends);
    }
  }

  /** The first `n` of the snapshot disconnected, in order. */
  ghost function DrainUpTo(cfg: Config, v: View, order: seq<int>, n: nat): (w: View)
    requires ViewOk(cfg, v) && n <= |order|
    ensures ViewOk(cfg, w)
  {
    if n == 0 then v
    else
      var w := DrainUpTo(cfg, v, order, n - 1);
      DisconnectOneKeeps(cfg, w, order[n - 1]);
      DisconnectOne(w, order[n - 1])
  }

  /** processPendingDisconnects: the set is copied and emptied first. */
  ghost function DrainPending(cfg: Config, v: View): (w: View)
    requires ViewOk(cfg, v)
    ensures ViewOk(cfg, w)
  {
    var order := Ascending(v.io.pending);
    DrainUpTo(cfg, v.(io := v.io.(pending := {})), order, |order|)
  }

  /** Connection x is gone or still there, its receive buffer as it was. */
  predicate LeftAs(v: View, w: View, x: int, gone: bool) {
    && (x in w.io.ports <==> x in v.io.ports && !gone)
    && (x in w.io.ports ==> w.io.ports[x].receiveBuffer == v.io.ports[x].receiveBuffer)
  }

  lemma DisconnectOneFrame(cfg: Config, v: View, fd: int, x: int)
    requires ViewOk(cfg, v)
    ensures LeftAs(v, DisconnectOne(v, fd), x, x == fd)
  {
    if fd in v.core.clients {
      DeliverFrame(v.io, Disconnect(v.core, fd, ReasonOf(v, fd)).sends);
    }
  }

  lemma TakeNext(order: seq<int>, n: nat, x: int)
    requires 0 < n <= |order|
    ensures x in order[..n] <==> x in order[..n - 1] || x == order[n - 1]
  {
    assert order[..n] == order[..n - 1] + [order[n - 1]];
  }

  lemma LeftThen(v: View, w: View, u: View, x: int, gone: bool, more: bool, all: bool)
    requires LeftAs(v, w, x, gone) && LeftAs(w, u, x, more) && (all <==> gone || more)
    ensures LeftAs(v, u, x, all)
  {
  }

  lemma DrainUpToNext(cfg: Config, v: View, order: seq<int>, n: nat)
    requires ViewOk(cfg, v) && 0 < n <= |order|
    ensures DrainUpTo(cfg, v, order, n) == DisconnectOne(DrainUpTo(cfg, v, order, n - 1), order[n - 1])
  {
  }

  /** One view after another, each as the one before but for one disconnection. */
  predicate Leaving(views: seq<View>, order: seq<int>, x: int) {
    |views| == |order| + 1 &&
    forall i, j {:trigger views[i], views[j]} :: 0 <= i < |order| && j == i + 1 ==>
      LeftAs(views[i], views[j], x, x == order[i])
  }

  lemma {:induction false} AllLeft(views: seq<View>, order: seq<int>, n: nat, x: int)
    requires Leaving(views, order, x) && n <= |order|
    ensures LeftAs(views[0], views[n], x, x in order[..n])
    decreases n
  {
    if n > 0 {
      AllLeft(views, order, n - 1, x);
      TakeNext(order, n, x);
      LeftThen(views[0], views[n - 1], views[n], x, x in order[..n - 1], x == order[n - 1], x in order[..n]);
    }
  }

  lemma TurnLeaves(cfg: Config, v: View, w: View, fd: int, x: int)
    requires ViewOk(cfg, v) && w == DisconnectOne(v, fd)
    ensures LeftAs(v, w, x, x == fd)
  {
    DisconnectOneFrame(cfg, v, fd, x);
  }

  lemma OneLeaves(cfg: Config, v: View, order: seq<int>, i: nat, j: nat, x: int)
    requires ViewOk(cfg, v) && i < |order| && j == i + 1
    ensures LeftAs(DrainUpTo(cfg, v, order, i), DrainUpTo(cfg, v, order, j), x, x == order[i])
  {
    DrainUpToNext(cfg, v, order, j);
    TurnLeaves(cfg, DrainUpTo(cfg, v, order, i), DrainUpTo(cfg, v, order, j), order[i], x);
  }

  /** What is left of a connection after the first `n`. */
  lemma DrainUpToLeaves(cfg: Config, v: View, order: seq<int>, n: nat, x: int, w: View)
    requires ViewOk(cfg, v) && n <= |order| && w == DrainUpTo(cfg, v, order, n)
    ensures LeftAs(v, w, x, x in order[..n])
  {
    var views := seq(|order| + 1, i requires 0 <= i <= |order| => DrainUpTo(cfg, v, order, i));
    forall i, j | 0 <= i < |order| && j == i + 1 ensures LeftAs(views[i], views[j], x, x == order[i]) {
      OneLeaves(cfg, v, order, i, j, x);
    }
    AllLeft(views, order, n, x);
  }

  /** One pass of the loop: entries in order, then the drain. */
  ghost function OnePass(cfg: Config, v: View, events: seq<Event>): View
    requires ViewOk(cfg, v) && AllSettled(v) && LegalEvents(cfg, v, events)
  {
    DrainPending(cfg, PassUpTo(cfg, v, events, |events|))
  }

  /** Draining removes every snapshotted descriptor from everywhere: clients,
      members, operators, invites, nickname index, poll list and reasons. */
  lemma DrainRemovesSnapshot(cfg: Config, v: View, fd: int)
    requires ViewOk(cfg, v) && fd in v.io.pending
    ensures var w := DrainPending(cfg, v);
      && fd !in w.core.clients && fd !in w.io.ports && fd !in w.io.reasons
      && (fd != cfg.listenFd ==> fd !in Fds(w.io.poll))
      && (forall k :: !HasMember(w.core, fd, k) && !IsOperator(w.core, fd, k) && !IsInvited(w.core, fd, k))
      && (forall nick :: !Indexed(w.core, nick, fd))
  {
    var order := Ascending(v.io.pending);
    AscendingEnumerates(v.io.pending);
    var start := v.(io := v.io.(pending := {}));
    DrainUpToLeaves(cfg, start, order, |order|, fd, DrainUpTo(cfg, start, order, |order|));
    assert order[..|order|] == order;
    var w := DrainPending(cfg, v);
    forall k ensures !HasMember(w.core, fd, k) && !IsOperator(w.core, fd, k) && !IsInvited(w.core, fd, k) {
      assert HasMember(w.core, fd, k) <==> HasJoined(w.core, fd, k);
      assert k in w.core.channels ==> ChannelOk(w.core.channels[k], k);
    }
    forall nick ensures !Indexed(w.core, nick, fd) {
      assert Indexed(w.core, nick, fd) <==> Named(w.core, nick, fd);
    }
  }

  /** Everyone not in the snapshot is still there. */
  lemma DrainSparesOthers(cfg: Config, v: View, fd: int)
    requires ViewOk(cfg, v) && fd !in v.io.pending
    ensures var w := DrainPending(cfg, v);
      && (fd in w.core.clients <==> fd in v.core.clients)
      && (fd in w.io.ports ==> w.io.ports[fd].receiveBuffer == v.io.ports[fd].receiveBuffer)
  {
    var order := Ascending(v.io.pending);
    AscendingEnumerates(v.io.pending);
    var start := v.(io := v.io.(pending := {}));
    DrainUpToLeaves(cfg, start, order, |order|, fd, DrainUpTo(cfg, start, order, |order|));
    assert order[..|order|] == order;
  }

  /** A pass keeps the whole invariant and leaves at most 511 received bytes in
      every buffer, so no buffer ever exceeds 4607 and the 65536-byte limit is
      never met. */
  lemma PassKeeps(cfg: Config, v: View, events: seq<Event>)
    requires ViewOk(cfg, v) && AllSettled(v) && LegalEvents(cfg, v, events)
    ensures ViewOk(cfg, OnePass(cfg, v, events)) && AllSettled(OnePass(cfg, v, events))
  {
    var w := PassUpTo(cfg, v, events, |events|);
    var x := DrainPending(cfg, w);
    forall fd | fd in x.io.ports ensures |x.io.ports[fd].receiveBuffer| <= MAX_RESIDUE {
      if fd in w.io.pending {
        DrainRemovesSnapshot(cfg, w, fd);
      } else {
        DrainSparesOthers(cfg, w, fd);
        assert fd in w.io.ports && Settled(w, fd);
      }
    }
  }
}
