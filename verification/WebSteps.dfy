/** What the web server does with one reported poll entry, with a pass over the
    poll list, with exited CGIs and with expired connections, as functions of
    the tables and of what the operating system returned; and the proof that
    every step keeps the tables (apps/webserv/src/Server.cpp). */
module WebSteps {
  import opened Limits
  import opened HttpRequest
  import opened Router
  import opened Descriptors

  // ------------------------------------------------- the operating system

  datatype Recv = WouldBlock | Ended | Data(bytes: string)

  /** accept gave a descriptor; `ok` when it could be made non-blocking. */
  datatype Arrival = Arrival(fd: int, ok: bool)

  /** What looking for a CGI script and starting it came to. */
  datatype CgiOutcome =
    | NotCgi
    | NoScript(status: int)
    | StartFailed
    | Started(pid: int, inputFd: int, outputFd: int, timeout: nat)

  /** Everything one step may ask of the system and of the handlers: `error`
      gives the serialized error response for a status, `normal` the response of
      the dispatcher, `script` the response made of the output of a CGI. waitpid
      tells whether a CGI exited, and `success` whether with status 0. */
  datatype Os = Os(
    arrivals: seq<Arrival>,
    recv: Recv,
    count: int,
    again: bool,
    exited: bool,
    success: bool,
    now: int,
    cgi: CgiOutcome,
    error: int -> string,
    normal: string,
    script: (ServerConfig, string) -> string)
  {
    /** Serialized responses are never empty; recv and read give at most the
        buffer size and something when they give data. */
    ghost predicate Sound() {
      && (forall status :: error(status) != "") && normal != ""
      && (forall config, text :: script(config, text) != "")
      && (recv.Data? ==> 0 < |recv.bytes| <= READ_SIZE)
    }
  }

  // ----------------------------------------------------------------- steps

  function AcceptOne(w: Web, config: ServerConfig, a: Arrival, now: int): Web {
    if |w.clients.Keys| >= MAX_CONNECTIONS || !a.ok then w else Admit(w, a.fd, config, now)
  }

  function AcceptUpTo(w: Web, config: ServerConfig, arrivals: seq<Arrival>, now: int, n: nat): Web
    requires n <= |arrivals|
  {
    if n == 0 then w else AcceptOne(AcceptUpTo(w, config, arrivals, now, n - 1), config, arrivals[n - 1], now)
  }

  function ReplyTo(result: ParseResult, o: Os): string {
    match result
    case TooLarge => o.error(413)
    case VersionNotSupported => o.error(505)
    case Bad => o.error(400)
    case _ => o.normal
  }

  /** startCgi, for a request that leads to a CGI script. */
  ghost function StartCgi(w: Web, c: Client, body: string, o: Os): Web
    requires !o.cgi.NotCgi?
  {
    if |Running(w)| >= MAX_CGI_PROCESSES then Answer(w, c, o.error(503))
    else
      match o.cgi
      case NoScript(status) => Answer(w, c, o.error(status))
      case StartFailed => Answer(w, c, o.error(500))
      case Started(pid, inputFd, outputFd, timeout) =>
        Launch(w, c.(touched := o.now), pid, inputFd, outputFd, body, timeout)
  }

  /** A request that is complete, refused, or still arriving; or one on which the
      parser throws, out of the loop in run, or does not return. */
  ghost function Settle(w: Web, c: Client, result: ParseResult, o: Os): Web {
    if result.Incomplete? then Refresh(w, c)
    else if result.Crashed? || result.Stuck? then Refresh(w, c).(down := true)
    else if result.Accepted? && !o.cgi.NotCgi? then StartCgi(w, c, result.request.body, o)
    else Answer(w, c, ReplyTo(result, o))
  }

  ghost function Serve(w: Web, c: Client, o: Os): Web { Settle(w, c, Parse(c.input, c.config.maxBody), o) }

  ghost function ReadClient(w: Web, fd: int, o: Os): Web
    requires fd in w.clients
  {
    var c := w.clients[fd];
    match o.recv
    case WouldBlock => w
    case Ended => Close(w, fd)
    case Data(bytes) =>
      if |c.input| > RequestLimit(c.config.maxBody) - |bytes| then Answer(w, c, o.error(413))
      else Serve(w, c.(input := c.input + bytes, touched := o.now), o)
  }

  function WriteClient(w: Web, fd: int, o: Os): Web
    requires fd in w.clients && o.count <= |w.clients[fd].output| - w.clients[fd].sent
  {
    var c := w.clients[fd];
    if o.count < 0 && o.again then w
    else if o.count <= 0 then Close(w, fd)
    else
      var v := Sent(w, c.(touched := o.now), o.count);
      if c.sent + o.count == |c.output| then Close(v, fd) else v
  }

  /** The pipe to the script took n bytes more of its input. */
  function Fed(c: Client, n: nat, now: int): Client
    requires c.cgiWritten + n <= |c.cgiInput|
  {
    c.(cgiWritten := c.cgiWritten + n, fed := c.fed + c.cgiInput[c.cgiWritten..c.cgiWritten + n], touched := now)
  }

  /** A piece read from the script. */
  function Heard(c: Client, bytes: string, now: int): Client {
    c.(cgiOutput := c.cgiOutput + bytes, heard := c.heard + [bytes], touched := now)
  }

  function WriteCgi(w: Web, fd: int, o: Os): Web
    requires fd in w.clients && o.count <= |w.clients[fd].cgiInput| - w.clients[fd].cgiWritten
  {
    var c := w.clients[fd];
    if o.count < 0 && o.again then w
    else
      var d := if o.count > 0 then Fed(c, o.count, o.now) else c;
      var v := Refresh(w, d);
      if fd in v.clients && (o.count <= 0 || d.cgiWritten == |d.cgiInput|) then DropInput(v, fd) else v
  }

  /** What finishCgi answers: the script's output made a response, if it exited
      with status 0. */
  function FinalReply(c: Client, success: bool, script: (ServerConfig, string) -> string, error: int -> string): string
  {
    if success then script(c.config, c.cgiOutput) else error(500)
  }

  function CgiReply(c: Client, o: Os): string { FinalReply(c, o.success, o.script, o.error) }

  function ReadCgi(w: Web, fd: int, o: Os): Web
    requires fd in w.clients
  {
    var c := w.clients[fd];
    match o.recv
    case WouldBlock => w
    case Data(bytes) =>
      var d := Heard(c, bytes, o.now);
      if |d.cgiOutput| > MAX_CGI_OUTPUT then Finish(Refresh(w, d), fd, CgiReply(d, o), o.now) else Refresh(w, d)
    case Ended =>
      var v := DropOutput(w, fd);
      if o.exited then Finish(v, fd, CgiReply(c, o), o.now) else v
  }

  /** One reported entry, by what its descriptor is. */
  ghost function HandleEntry(w: Web, i: nat, o: Os): Web
    requires i < |w.pollfds| && Tables(w) && LegalOs(w, i, o)
  {
    var p := w.pollfds[i];
    if IsListener(w, p.fd) then
      if p.revents.readable then AcceptUpTo(w, ListenerConfig(w, p.fd), o.arrivals, o.now, |o.arrivals|) else w
    else if p.fd in w.outputOwners then
      OwnerIs(w, p.fd);
      if p.revents.readable || p.revents.hangup || p.revents.error then ReadCgi(w, w.outputOwners[p.fd], o)
      else if p.revents.invalid then Close(w, w.outputOwners[p.fd])
      else w
    else if p.fd in w.inputOwners then
      OwnerIs(w, p.fd);
      if p.revents.writable then WriteCgi(w, w.inputOwners[p.fd], o) else Close(w, w.inputOwners[p.fd])
    else
      EntryIsClient(w, i);
      if p.revents.error || p.revents.hangup || p.revents.invalid then Close(w, p.fd)
      else if p.revents.readable then ReadClient(w, p.fd, o)
      else if p.revents.writable then WriteClient(w, p.fd, o)
      else w
  }

  predicate IsListener(w: Web, fd: int) { exists l :: l in w.listeners && l.fd == fd }

  /** The configuration of the first listener with the descriptor. */
  function ConfigOf(listeners: seq<Listener>, fd: int): ServerConfig
    requires exists l :: l in listeners && l.fd == fd
  {
    if listeners[0].fd == fd then listeners[0].config else ConfigOf(listeners[1..], fd)
  }

  function ListenerConfig(w: Web, fd: int): ServerConfig
    requires IsListener(w, fd)
  {
    ConfigOf(w.listeners, fd)
  }

  lemma OwnerIs(w: Web, pipe: int)
    requires OwnersOk(w)
    ensures pipe in w.outputOwners ==> w.outputOwners[pipe] in w.clients && Drains(w, pipe, w.outputOwners[pipe])
    ensures pipe in w.inputOwners ==> w.inputOwners[pipe] in w.clients && Feeds(w, pipe, w.inputOwners[pipe])
  {
    if pipe in w.outputOwners { assert OwnsOutput(w, pipe, w.outputOwners[pipe]); }
    if pipe in w.inputOwners { assert OwnsInput(w, pipe, w.inputOwners[pipe]); }
  }

  /** No lookup invents a connection: an entry that is neither a listener nor a
      pipe belongs to a connection in the table. */
  lemma EntryIsClient(w: Web, i: nat)
    requires i < |w.pollfds| && PolledExactly(w)
    requires !IsListener(w, w.pollfds[i].fd)
    requires w.pollfds[i].fd !in w.outputOwners && w.pollfds[i].fd !in w.inputOwners
    ensures w.pollfds[i].fd in w.clients
  {
    var fd := w.pollfds[i].fd;
    assert fd in Fds(w.pollfds);
    assert Kinds(w, fd, fd in ListenerFds(w), fd in Fds(w.pollfds));
  }

  // ------------------------------------------------- what the system may do

  /** Every accepted descriptor is free when accept returns it. */
  ghost predicate LegalArrivals(w: Web, config: ServerConfig, arrivals: seq<Arrival>, now: int) {
    forall n {:trigger arrivals[n]} :: 0 <= n < |arrivals| ==>
      Free(AcceptUpTo(w, config, arrivals, now, n), arrivals[n].fd)
  }

  ghost predicate LegalCgi(w: Web, cgi: CgiOutcome) {
    cgi.Started? ==>
      cgi.pid > 0 && Free(w, cgi.inputFd) && Free(w, cgi.outputFd) && cgi.inputFd != cgi.outputFd
  }

  /** send and write take at most what they are given. */
  predicate LegalCount(w: Web, fd: int, o: Os) {
    && (fd in w.clients ==> o.count <= |w.clients[fd].output| - w.clients[fd].sent)
    && (fd in w.inputOwners && w.inputOwners[fd] in w.clients ==>
          var c := w.clients[w.inputOwners[fd]];
          o.count <= |c.cgiInput| - c.cgiWritten)
  }

  ghost predicate LegalOs(w: Web, i: nat, o: Os)
    requires i < |w.pollfds|
  {
    var fd := w.pollfds[i].fd;
    && o.Sound()
    && (IsListener(w, fd) ==> LegalArrivals(w, ListenerConfig(w, fd), o.arrivals, o.now))
    && LegalCgi(w, o.cgi)
    && LegalCount(w, fd, o)
  }

  // ----------------------------------------------------------- what is kept

  /** Responses given stay given; bytes sent stay sent. */
  predicate Keeps(w: Web, v: Web) {
    && w.accepted <= v.accepted
    && (forall s {:trigger s in v.responses} {:trigger s in w.responses} :: s in w.responses ==>
          s in v.responses && v.responses[s] == w.responses[s])
    && (forall s {:trigger s in v.wire} {:trigger s in w.wire} :: s in w.wire ==>
          s in v.wire && w.wire[s] <= v.wire[s])
  }

  lemma KeepsThen(w: Web, v: Web, u: Web)
    requires Keeps(w, v) && Keeps(v, u)
    ensures Keeps(w, u)
  {
  }

  /** An entry at or after position i that poll reported. */
  ghost predicate Reported(pollfds: seq<PollFd>, i: nat, fd: int, r: Report) {
    !r.Silent() && exists j :: i <= j < |pollfds| && pollfds[j].fd == fd && pollfds[j].revents == r
  }

  /** Reported entries only disappear or move forward. */
  ghost predicate Shrinks(p: seq<PollFd>, q: seq<PollFd>) {
    forall i: nat, fd, r {:trigger Reported(q, i, fd, r)} :: Reported(q, i, fd, r) ==> Reported(p, i, fd, r)
  }

  lemma ShrinksThen(p: seq<PollFd>, q: seq<PollFd>, r: seq<PollFd>)
    requires Shrinks(p, q) && Shrinks(q, r)
    ensures Shrinks(p, r)
  {
  }

  ghost predicate Quiet(p: seq<PollFd>, fd: int) {
    forall r :: !Reported(p, 0, fd, r)
  }

  lemma {:induction false} WithoutReported(p: seq<PollFd>, gone: int, i: nat, fd: int, r: Report)
    requires Distinct(p) && Reported(Without(p, gone), i, fd, r)
    ensures Reported(p, i, fd, r) && fd != gone
    decreases |p|
  {
    var q := Without(p, gone);
    var j :| i <= j < |q| && q[j].fd == fd && q[j].revents == r;
    if p[0].fd == gone {
      assert q[j] == p[j + 1];
    } else if j == 0 {
      assert q[0] == p[0];
    } else {
      var below := if i == 0 then 0 else i - 1;
      assert q[j] == Without(p[1..], gone)[j - 1];
      assert forall k :: 0 <= k < |p[1..]| ==> p[1..][k] == p[k + 1];
      WithoutReported(p[1..], gone, below, fd, r);
      var k :| below <= k < |p[1..]| && p[1..][k].fd == fd && p[1..][k].revents == r;
      assert p[k + 1].fd == fd;
    }
  }

  lemma WithoutShrinks(p: seq<PollFd>, gone: int)
    requires Distinct(p)
    ensures Shrinks(p, Without(p, gone)) && Quiet(Without(p, gone), gone)
  {
    forall i: nat, fd, r | Reported(Without(p, gone), i, fd, r) ensures Reported(p, i, fd, r) && fd != gone {
      WithoutReported(p, gone, i, fd, r);
    }
  }

  lemma WithEventsShrinks(p: seq<PollFd>, fd: int, events: Interest)
    ensures Shrinks(p, WithEvents(p, fd, events))
  {
    var q := WithEvents(p, fd, events);
    forall i: nat, x, r | Reported(q, i, x, r) ensures Reported(p, i, x, r) {
      var j :| i <= j < |q| && q[j].fd == x && q[j].revents == r;
      assert p[j].fd == x;
    }
  }

  lemma AppendShrinks(p: seq<PollFd>, e: PollFd)
    requires e.revents.Silent()
    ensures Shrinks(p, p + [e])
  {
    forall i: nat, x, r | Reported(p + [e], i, x, r) ensures Reported(p, i, x, r) {
      var j :| i <= j < |p + [e]| && (p + [e])[j].fd == x && (p + [e])[j].revents == r;
      assert p[j].fd == x;
    }
  }

  lemma QuietStays(p: seq<PollFd>, q: seq<PollFd>, fd: int)
    requires Quiet(p, fd) && Shrinks(p, q)
    ensures Quiet(q, fd)
  {
  }

  /** Other connections are as they were; a new one has a descriptor that was
      not in the poll list. */
  ghost predicate OthersSame(w: Web, v: Web, fd: int) {
    forall x {:trigger x in v.clients} :: x in v.clients && x != fd ==>
      (x in w.clients && v.clients[x] == w.clients[x]) || x !in Fds(w.pollfds)
  }

  /** The entry at i was dealt with: it is still there, or no report of it is left. */
  ghost predicate DealtWith(v: Web, i: nat, fd: int) {
    (i < |v.pollfds| && v.pollfds[i].fd == fd) || Quiet(v.pollfds, fd)
  }

  /** All that one step guarantees: entry i of descriptor fd, done for the
      connection `owner`. */
  ghost predicate StepOk(w: Web, v: Web, i: nat, fd: int, owner: int) {
    && Tables(v) && Keeps(w, v) && Shrinks(w.pollfds, v.pollfds)
    && DealtWith(v, i, fd) && OthersSame(w, v, owner)
  }

  ghost predicate At(w: Web, i: nat, fd: int) { i < |w.pollfds| && w.pollfds[i].fd == fd }

  // ------------------------------------------------ elementary changes move

  ghost predicate OthersKept(w: Web, v: Web, fd: int) {
    forall x {:trigger x in v.clients} :: x in v.clients && x != fd ==>
      x in w.clients && v.clients[x] == w.clients[x]
  }

  ghost predicate Moves(w: Web, v: Web, fd: int) {
    Keeps(w, v) && Shrinks(w.pollfds, v.pollfds) && OthersKept(w, v, fd)
  }

  lemma MovesThen(w: Web, v: Web, u: Web, fd: int)
    requires Moves(w, v, fd) && Moves(v, u, fd)
    ensures Moves(w, u, fd)
  {
    KeepsThen(w, v, u);
    ShrinksThen(w.pollfds, v.pollfds, u.pollfds);
  }

  lemma RefreshMoves(w: Web, d: Client)
    ensures Moves(w, Refresh(w, d), d.fd)
  {
  }

  lemma AnswerMoves(w: Web, c: Client, response: string)
    requires Tables(w) && Answerable(w, c) && response != ""
    ensures Moves(w, Answer(w, c, response), c.fd)
  {
    AnswerHistory(w, c, response);
    WithEventsShrinks(w.pollfds, c.fd, Writing);
  }

  lemma DropInputMoves(w: Web, fd: int)
    requires Distinct(w.pollfds) && fd in w.clients
    ensures Moves(w, DropInput(w, fd), fd)
    ensures w.clients[fd].cgiInputFd >= 0 ==> Quiet(DropInput(w, fd).pollfds, w.clients[fd].cgiInputFd)
  {
    WithoutShrinks(w.pollfds, w.clients[fd].cgiInputFd);
  }

  lemma DropOutputMoves(w: Web, fd: int)
    requires Distinct(w.pollfds) && fd in w.clients
    ensures Moves(w, DropOutput(w, fd), fd)
    ensures w.clients[fd].cgiOutputFd >= 0 ==> Quiet(DropOutput(w, fd).pollfds, w.clients[fd].cgiOutputFd)
  {
    WithoutShrinks(w.pollfds, w.clients[fd].cgiOutputFd);
  }

  lemma EraseMoves(w: Web, fd: int)
    requires Distinct(w.pollfds)
    ensures Moves(w, Erase(w, fd), fd) && Quiet(Erase(w, fd).pollfds, fd)
  {
    WithoutShrinks(w.pollfds, fd);
  }

  lemma LaunchMoves(w: Web, c: Client, pid: int, inputFd: int, outputFd: int, body: string, timeout: nat)
    ensures Moves(w, Launch(w, c, pid, inputFd, outputFd, body, timeout), c.fd)
  {
    var v := Launch(w, c, pid, inputFd, outputFd, body, timeout);
    var first := PollFd(outputFd, Reading, SILENT);
    var muted := WithEvents(w.pollfds, c.fd, Muted);
    WithEventsShrinks(w.pollfds, c.fd, Muted);
    AppendShrinks(muted, first);
    ShrinksThen(w.pollfds, muted, muted + [first]);
    if body != "" {
      AppendShrinks(muted + [first], PollFd(inputFd, Writing, SILENT));
      ShrinksThen(w.pollfds, muted + [first], v.pollfds);
    }
  }

  lemma SentMoves(w: Web, c: Client, n: nat)
    requires c.sent + n <= |c.output|
    ensures Moves(w, Sent(w, c, n), c.fd)
  {
  }

  /** The descriptors of a connection: its own and its pipes. */
  predicate Belongs(c: Client, fd: int) {
    fd == c.fd || (c.cgiInputFd >= 0 && fd == c.cgiInputFd) || (c.cgiOutputFd >= 0 && fd == c.cgiOutputFd)
  }

  /** Dropping the pipes leaves no report of either. */
  lemma PipesMove(w: Web, fd: int)
    requires Tables(w) && fd in w.clients
    ensures var b := DropOutput(DropInput(w, fd), fd);
      && Moves(w, b, fd)
      && (w.clients[fd].cgiInputFd >= 0 ==> Quiet(b.pollfds, w.clients[fd].cgiInputFd))
      && (w.clients[fd].cgiOutputFd >= 0 ==> Quiet(b.pollfds, w.clients[fd].cgiOutputFd))
  {
    var a := DropInput(w, fd);
    DropInputMoves(w, fd);
    DropInputKeeps(w, fd);
    DropOutputMoves(a, fd);
    MovesThen(w, a, DropOutput(a, fd), fd);
    if w.clients[fd].cgiInputFd >= 0 {
      QuietStays(a.pollfds, DropOutput(a, fd).pollfds, w.clients[fd].cgiInputFd);
    }
  }

  lemma CloseMoves(w: Web, fd: int, x: int)
    requires Tables(w) && fd in w.clients && Belongs(w.clients[fd], x)
    ensures Moves(w, Close(w, fd), fd) && Quiet(Close(w, fd).pollfds, x)
  {
    assert ClientOk(w.clients[fd], fd);
    PipesMove(w, fd);
    PipesDropped(w, fd);
    var b := DropOutput(DropInput(w, fd), fd);
    EraseMoves(b, fd);
    MovesThen(w, b, Close(w, fd), fd);
    if x != fd { QuietStays(b.pollfds, Close(w, fd).pollfds, x); }
  }

  lemma FinishMoves(w: Web, fd: int, response: string, now: int)
    requires Tables(w) && fd in w.clients && w.clients[fd].output == "" && response != ""
    ensures Moves(w, Finish(w, fd, response, now), fd)
    ensures w.clients[fd].cgiOutputFd >= 0 ==>
      Quiet(Finish(w, fd, response, now).pollfds, w.clients[fd].cgiOutputFd)
  {
    PipesMove(w, fd);
    PipesDropped(w, fd);
    var b := DropOutput(DropInput(w, fd), fd);
    var c := b.clients[fd].(touched := now);
    assert ClientOk(b.clients[fd], fd);
    AnswerMoves(b, c, response);
    MovesThen(w, b, Answer(b, c, response), fd);
    if w.clients[fd].cgiOutputFd >= 0 {
      QuietStays(b.pollfds, Finish(w, fd, response, now).pollfds, w.clients[fd].cgiOutputFd);
    }
  }

  // ------------------------------------------------------------- each step

  lemma MovesStep(w: Web, v: Web, i: nat, fd: int, owner: int)
    requires Tables(v) && Moves(w, v, owner) && DealtWith(v, i, fd)
    ensures StepOk(w, v, i, fd, owner)
  {
  }

  lemma NothingDone(w: Web, i: nat, fd: int, owner: int)
    requires Tables(w) && At(w, i, fd)
    ensures StepOk(w, w, i, fd, owner)
  {
  }

  lemma CloseStep(w: Web, i: nat, fd: int, owner: int)
    requires Tables(w) && owner in w.clients && Belongs(w.clients[owner], fd)
    ensures StepOk(w, Close(w, owner), i, fd, owner)
  {
    CloseMoves(w, owner, fd);
    CloseKeeps(w, owner);
    MovesStep(w, Close(w, owner), i, fd, owner);
  }

  lemma RefreshStep(w: Web, d: Client, i: nat, fd: int)
    requires Tables(w) && At(w, i, fd) && d.fd in w.clients && SameShape(w.clients[d.fd], d) && ClientOk(d, d.fd)
    ensures StepOk(w, Refresh(w, d), i, fd, d.fd)
  {
    RefreshKeeps(w, d);
    RefreshMoves(w, d);
    MovesStep(w, Refresh(w, d), i, fd, d.fd);
  }

  lemma AnswerStep(w: Web, c: Client, response: string, i: nat)
    requires Tables(w) && At(w, i, c.fd) && Answerable(w, c) && response != ""
    ensures StepOk(w, Answer(w, c, response), i, c.fd, c.fd)
  {
    AnswerKeeps(w, c, response);
    AnswerMoves(w, c, response);
    assert At(Answer(w, c, response), i, c.fd);
    MovesStep(w, Answer(w, c, response), i, c.fd, c.fd);
  }

  lemma LaunchStep(w: Web, c: Client, pid: int, inputFd: int, outputFd: int, body: string, timeout: nat, i: nat)
    requires Tables(w) && At(w, i, c.fd) && Launchable(w, c, pid, inputFd, outputFd)
    requires |Running(w)| < MAX_CGI_PROCESSES
    ensures StepOk(w, Launch(w, c, pid, inputFd, outputFd, body, timeout), i, c.fd, c.fd)
  {
    LaunchKeeps(w, c, pid, inputFd, outputFd, body, timeout);
    LaunchMoves(w, c, pid, inputFd, outputFd, body, timeout);
    assert At(Launch(w, c, pid, inputFd, outputFd, body, timeout), i, c.fd);
    MovesStep(w, Launch(w, c, pid, inputFd, outputFd, body, timeout), i, c.fd, c.fd);
  }

  // ------------------------------------------------------------- accepting

  lemma AdmitMoves(w: Web, fd: int, config: ServerConfig, now: int)
    requires Tables(w) && Free(w, fd)
    ensures var v := Admit(w, fd, config, now);
      && Keeps(w, v) && Shrinks(w.pollfds, v.pollfds) && OthersSame(w, v, -1)
      && w.pollfds <= v.pollfds
  {
    var v := Admit(w, fd, config, now);
    AppendShrinks(w.pollfds, PollFd(fd, Reading, SILENT));
    assert w.accepted in w.wire ==> WireOk(w, w.accepted);
  }

  /** Connections only added, at the end of the poll list. */
  ghost predicate Grows(w: Web, v: Web) {
    && Tables(v) && Keeps(w, v) && Shrinks(w.pollfds, v.pollfds) && OthersSame(w, v, -1)
    && w.pollfds <= v.pollfds
  }

  lemma AcceptOneStep(w: Web, config: ServerConfig, a: Arrival, now: int)
    requires Tables(w) && Free(w, a.fd)
    ensures Grows(w, AcceptOne(w, config, a, now))
  {
    if |w.clients.Keys| < MAX_CONNECTIONS && a.ok {
      AdmitKeeps(w, a.fd, config, now);
      AdmitMoves(w, a.fd, config, now);
    }
  }

  lemma GrowsThen(w: Web, v: Web, u: Web)
    requires Grows(w, v) && Grows(v, u)
    ensures Grows(w, u)
  {
    KeepsThen(w, v, u);
    ShrinksThen(w.pollfds, v.pollfds, u.pollfds);
    forall x | x in Fds(w.pollfds) ensures x in Fds(v.pollfds) {
      var i :| 0 <= i < |w.pollfds| && w.pollfds[i].fd == x;
      assert v.pollfds[i] in v.pollfds;
    }
  }

  lemma AcceptStep(w: Web, config: ServerConfig, arrivals: seq<Arrival>, now: int)
    requires Tables(w) && LegalArrivals(w, config, arrivals, now)
    ensures Grows(w, AcceptUpTo(w, config, arrivals, now, |arrivals|))
  {
    var v := w;
    for n := 0 to |arrivals|
      invariant v == AcceptUpTo(w, config, arrivals, now, n) && Grows(w, v)
    {
      assert Free(v, arrivals[n].fd);
      AcceptOneStep(v, config, arrivals[n], now);
      var u := AcceptOne(v, config, arrivals[n], now);
      GrowsThen(w, v, u);
      v := u;
    }
  }

  // ------------------------------------------------------------ connections

  /** The report fits what the connection waits for. */
  predicate Expected(w: Web, fd: int, r: Report) {
    fd in w.clients ==>
      (r.readable ==> InterestOf(w.clients[fd]) == Reading) && (r.writable ==> InterestOf(w.clients[fd]) == Writing)
  }

  lemma ReadingIsAnswerable(w: Web, fd: int, c: Client)
    requires Tables(w) && fd in w.clients && InterestOf(w.clients[fd]) == Reading
    requires SameShape(w.clients[fd], c) && ClientOk(c, fd)
    ensures Answerable(w, c)
  {
    assert ClientOk(w.clients[fd], fd);
  }

  lemma StartCgiStep(w: Web, c: Client, body: string, o: Os, i: nat)
    requires Tables(w) && At(w, i, c.fd) && c.fd in w.clients && InterestOf(w.clients[c.fd]) == Reading
    requires SameShape(w.clients[c.fd], c) && ClientOk(c, c.fd)
    requires !o.cgi.NotCgi? && o.Sound() && LegalCgi(w, o.cgi)
    ensures StepOk(w, StartCgi(w, c, body, o), i, c.fd, c.fd)
  {
    ReadingIsAnswerable(w, c.fd, c);
    if |Running(w)| >= MAX_CGI_PROCESSES {
      AnswerStep(w, c, o.error(503), i);
    } else {
      match o.cgi {
        case NoScript(status) => AnswerStep(w, c, o.error(status), i);
        case StartFailed => AnswerStep(w, c, o.error(500), i);
        case Started(pid, inputFd, outputFd, timeout) =>
          LaunchStep(w, c.(touched := o.now), pid, inputFd, outputFd, body, timeout, i);
      }
    }
  }

  lemma ReplyIsText(result: ParseResult, o: Os)
    requires o.Sound()
    ensures ReplyTo(result, o) != ""
  {
  }

  lemma DownStep(w: Web, v: Web, i: nat, fd: int, owner: int)
    requires StepOk(w, v, i, fd, owner)
    ensures StepOk(w, v.(down := true), i, fd, owner)
  {
    DownKeeps(v);
  }

  lemma SettleStep(w: Web, c: Client, result: ParseResult, o: Os, i: nat)
    requires Tables(w) && At(w, i, c.fd) && c.fd in w.clients && InterestOf(w.clients[c.fd]) == Reading
    requires SameShape(w.clients[c.fd], c) && ClientOk(c, c.fd)
    requires o.Sound() && LegalCgi(w, o.cgi)
    ensures StepOk(w, Settle(w, c, result, o), i, c.fd, c.fd)
  {
    if result.Incomplete? {
      RefreshStep(w, c, i, c.fd);
    } else if result.Crashed? || result.Stuck? {
      RefreshStep(w, c, i, c.fd);
      DownStep(w, Refresh(w, c), i, c.fd, c.fd);
    } else if result.Accepted? && !o.cgi.NotCgi? {
      StartCgiStep(w, c, result.request.body, o, i);
    } else {
      ReadingIsAnswerable(w, c.fd, c);
      ReplyIsText(result, o);
      AnswerStep(w, c, ReplyTo(result, o), i);
    }
  }

  lemma ReadClientStep(w: Web, fd: int, o: Os, i: nat)
    requires Tables(w) && At(w, i, fd) && fd in w.clients && InterestOf(w.clients[fd]) == Reading
    requires o.Sound() && LegalCgi(w, o.cgi)
    ensures StepOk(w, ReadClient(w, fd, o), i, fd, fd)
  {
    var c := w.clients[fd];
    assert ClientOk(c, fd);
    match o.recv {
      case WouldBlock => NothingDone(w, i, fd, fd);
      case Ended => CloseStep(w, i, fd, fd);
      case Data(bytes) =>
        if |c.input| > RequestLimit(c.config.maxBody) - |bytes| {
          ReadingIsAnswerable(w, fd, c);
          AnswerStep(w, c, o.error(413), i);
        } else {
          var d := c.(input := c.input + bytes, touched := o.now);
          SettleStep(w, d, Parse(d.input, d.config.maxBody), o, i);
        }
    }
  }

  lemma SentStep(w: Web, c: Client, n: nat, i: nat)
    requires Tables(w) && At(w, i, c.fd) && c.fd in w.clients && SameShape(w.clients[c.fd], c) && ClientOk(c, c.fd)
    requires c.output != "" && 0 < n && c.sent + n <= |c.output|
    ensures var v := Sent(w, c, n);
      StepOk(w, if c.sent + n == |c.output| then Close(v, c.fd) else v, i, c.fd, c.fd)
  {
    var v := Sent(w, c, n);
    SentMoves(w, c, n);
    if c.sent + n == |c.output| {
      SentAllKeeps(w, c, n);
      LastCloseMoves(w, c, n);
      MovesThen(w, v, Close(v, c.fd), c.fd);
      MovesStep(w, Close(v, c.fd), i, c.fd, c.fd);
    } else {
      SentKeeps(w, c, n);
      MovesStep(w, v, i, c.fd, c.fd);
    }
  }

  /** Closing looks at the pipes and the poll list alone. */
  lemma LastCloseMoves(w: Web, c: Client, n: nat)
    requires Tables(w) && c.fd in w.clients && SameShape(w.clients[c.fd], c) && ClientOk(c, c.fd)
    requires c.sent + n <= |c.output|
    ensures var v := Sent(w, c, n);
      Moves(v, Close(v, c.fd), c.fd) && Quiet(Close(v, c.fd).pollfds, c.fd)
  {
    var v := Sent(w, c, n);
    CloseMoves(w, c.fd, c.fd);
    assert Close(v, c.fd).pollfds == Close(w, c.fd).pollfds;
  }

  lemma WriteClientStep(w: Web, fd: int, o: Os, i: nat)
    requires Tables(w) && At(w, i, fd) && fd in w.clients && InterestOf(w.clients[fd]) == Writing
    requires o.count <= |w.clients[fd].output| - w.clients[fd].sent
    ensures StepOk(w, WriteClient(w, fd, o), i, fd, fd)
  {
    var c := w.clients[fd];
    assert ClientOk(c, fd);
    if o.count < 0 && o.again {
      NothingDone(w, i, fd, fd);
    } else if o.count <= 0 {
      CloseStep(w, i, fd, fd);
    } else {
      SentStep(w, c.(touched := o.now), o.count, i);
    }
  }

  // ------------------------------------------------------------- CGI pipes

  lemma WriteCgiStep(w: Web, pipe: int, fd: int, o: Os, i: nat)
    requires Tables(w) && At(w, i, pipe) && Feeds(w, pipe, fd)
    requires o.count <= |w.clients[fd].cgiInput| - w.clients[fd].cgiWritten
    ensures StepOk(w, WriteCgi(w, fd, o), i, pipe, fd)
  {
    var c := w.clients[fd];
    assert ClientOk(c, fd);
    if o.count < 0 && o.again {
      NothingDone(w, i, pipe, fd);
    } else {
      var d := if o.count > 0 then Fed(c, o.count, o.now) else c;
      var v := Refresh(w, d);
      RefreshMoves(w, d);
      if o.count <= 0 || d.cgiWritten == |d.cgiInput| {
        WrittenStep(w, d, pipe, i);
      } else {
        RefreshStep(w, d, i, pipe);
      }
    }
  }

  /** All written, or the pipe broken: the pipe goes. */
  lemma WrittenStep(w: Web, d: Client, pipe: int, i: nat)
    requires Tables(w) && Feeds(w, pipe, d.fd) && SameShape(w.clients[d.fd], d)
    requires ClientOk(d.(cgiInputFd := -1), d.fd)
    ensures StepOk(w, DropInput(Refresh(w, d), d.fd), i, pipe, d.fd)
  {
    var v := Refresh(w, d);
    var u := DropInput(v, d.fd);
    RefreshMoves(w, d);
    DropInputMoves(v, d.fd);
    MovesThen(w, v, u, d.fd);
    var a := DropInput(w, d.fd);
    DropInputKeeps(w, d.fd);
    RefreshKeeps(a, d.(cgiInputFd := -1));
    assert u == Refresh(a, d.(cgiInputFd := -1));
    MovesStep(w, u, i, pipe, d.fd);
  }

  lemma PipeMeansRunning(w: Web, pipe: int, fd: int)
    requires Tables(w) && Drains(w, pipe, fd)
    ensures w.clients[fd].cgiPid > 0 && w.clients[fd].output == ""
  {
    assert ClientOk(w.clients[fd], fd);
  }

  /** The same connection but for its CGI bytes and the time. */
  predicate SameButBytes(c: Client, d: Client) {
    d == c.(cgiOutput := d.cgiOutput, heard := d.heard, touched := d.touched)
  }

  /** Too much CGI output: the bytes are kept for a moment only. */
  lemma OverflowStep(w: Web, pipe: int, d: Client, response: string, now: int, i: nat)
    requires Tables(w) && Drains(w, pipe, d.fd) && SameButBytes(w.clients[d.fd], d)
    requires |d.cgiOutput| <= MAX_CGI_OUTPUT + READ_SIZE && response != ""
    ensures StepOk(w, Finish(Refresh(w, d), d.fd, response, now), i, pipe, d.fd)
  {
    var plain := Finish(w, d.fd, response, now);
    var e := FinishedClient(w, d, response, now);
    PipeMeansRunning(w, pipe, d.fd);
    FinishMoves(w, d.fd, response, now);
    FinishKeeps(w, d.fd, response, now);
    assert ClientOk(plain.clients[d.fd], d.fd);
    RefreshKeeps(plain, e);
    RefreshMoves(plain, e);
    MovesThen(w, plain, Refresh(plain, e), d.fd);
    MovesStep(w, Refresh(plain, e), i, pipe, d.fd);
  }

  function WithBytes(c: Client, d: Client): Client {
    c.(cgiOutput := d.cgiOutput, heard := d.heard, touched := d.touched)
  }

  lemma DropInputBytes(w: Web, d: Client)
    requires d.fd in w.clients && SameButBytes(w.clients[d.fd], d)
    ensures var a := DropInput(w, d.fd);
      DropInput(Refresh(w, d), d.fd) == Refresh(a, WithBytes(a.clients[d.fd], d))
  {
    var a := DropInput(w, d.fd);
    assert DropInput(Refresh(w, d), d.fd).clients == Refresh(a, WithBytes(a.clients[d.fd], d)).clients;
  }

  lemma DropOutputBytes(w: Web, d: Client)
    requires d.fd in w.clients && SameButBytes(w.clients[d.fd], d)
    ensures var a := DropOutput(w, d.fd);
      DropOutput(Refresh(w, d), d.fd) == Refresh(a, WithBytes(a.clients[d.fd], d))
  {
    var a := DropOutput(w, d.fd);
    assert DropOutput(Refresh(w, d), d.fd).clients == Refresh(a, WithBytes(a.clients[d.fd], d)).clients;
  }

  lemma AnswerBytes(w: Web, c: Client, d: Client, response: string)
    requires d.fd == c.fd && c.fd in w.clients && SameButBytes(w.clients[c.fd], d)
    requires c == w.clients[c.fd].(touched := c.touched)
    ensures var e := Answer(w, c, response).clients[c.fd].(cgiOutput := d.cgiOutput, heard := d.heard);
      Answer(Refresh(w, d), d.(touched := c.touched), response) == Refresh(Answer(w, c, response), e)
  {
    var e := Answer(w, c, response).clients[c.fd].(cgiOutput := d.cgiOutput, heard := d.heard);
    assert Answer(Refresh(w, d), d.(touched := c.touched), response).clients
        == Refresh(Answer(w, c, response), e).clients;
  }

  /** Dropping both pipes carries the other bytes along. */
  lemma PipesBytes(w: Web, d: Client)
    requires d.fd in w.clients && SameButBytes(w.clients[d.fd], d)
    ensures var b := DropOutput(DropInput(w, d.fd), d.fd);
      && d.fd in b.clients
      && DropOutput(DropInput(Refresh(w, d), d.fd), d.fd) == Refresh(b, WithBytes(b.clients[d.fd], d))
  {
    var a := DropInput(w, d.fd);
    DropInputBytes(w, d);
    DropOutputBytes(a, WithBytes(a.clients[d.fd], d));
  }

  /** Finishing with other CGI bytes differs in those bytes alone. */
  lemma FinishedClient(w: Web, d: Client, response: string, now: int) returns (e: Client)
    requires d.fd in w.clients && SameButBytes(w.clients[d.fd], d)
    ensures d.fd in Finish(w, d.fd, response, now).clients
    ensures e == Finish(w, d.fd, response, now).clients[d.fd].(cgiOutput := d.cgiOutput, heard := d.heard)
    ensures Finish(Refresh(w, d), d.fd, response, now) == Refresh(Finish(w, d.fd, response, now), e)
  {
    PipesBytes(w, d);
    e := AnsweredClient(DropOutput(DropInput(w, d.fd), d.fd), d, response, now);
  }

  lemma AnsweredClient(b: Web, d: Client, response: string, now: int) returns (e: Client)
    requires d.fd in b.clients && b.clients[d.fd].fd == d.fd
    ensures var c := b.clients[d.fd];
      var v := Answer(b, c.(touched := now), response);
      && d.fd in v.clients && e == v.clients[d.fd].(cgiOutput := d.cgiOutput, heard := d.heard)
      && Answer(Refresh(b, WithBytes(c, d)), WithBytes(c, d).(touched := now), response) == Refresh(v, e)
  {
    var c := b.clients[d.fd];
    e := Answer(b, c.(touched := now), response).clients[d.fd].(cgiOutput := d.cgiOutput, heard := d.heard);
    AnswerBytes(b, c.(touched := now), WithBytes(c, d), response);
  }

  lemma DropOutputStep(w: Web, pipe: int, fd: int, i: nat)
    requires Tables(w) && Drains(w, pipe, fd)
    ensures StepOk(w, DropOutput(w, fd), i, pipe, fd)
  {
    DropOutputKeeps(w, fd);
    DropOutputMoves(w, fd);
    MovesStep(w, DropOutput(w, fd), i, pipe, fd);
  }

  lemma EndedStep(w: Web, pipe: int, fd: int, o: Os, i: nat)
    requires Tables(w) && Drains(w, pipe, fd) && o.Sound()
    ensures var v := DropOutput(w, fd);
      StepOk(w, if o.exited then Finish(v, fd, CgiReply(w.clients[fd], o), o.now) else v, i, pipe, fd)
  {
    var v := DropOutput(w, fd);
    PipeMeansRunning(w, pipe, fd);
    DropOutputStep(w, pipe, fd, i);
    if o.exited {
      DropOutputMoves(w, fd);
      var response := CgiReply(w.clients[fd], o);
      FinishMoves(v, fd, response, o.now);
      FinishKeeps(v, fd, response, o.now);
      MovesThen(w, v, Finish(v, fd, response, o.now), fd);
      QuietStays(v.pollfds, Finish(v, fd, response, o.now).pollfds, pipe);
      MovesStep(w, Finish(v, fd, response, o.now), i, pipe, fd);
    }
  }

  lemma ReadCgiStep(w: Web, pipe: int, fd: int, o: Os, i: nat)
    requires Tables(w) && At(w, i, pipe) && Drains(w, pipe, fd) && o.Sound()
    ensures StepOk(w, ReadCgi(w, fd, o), i, pipe, fd)
  {
    var c := w.clients[fd];
    assert ClientOk(c, fd);
    PipeMeansRunning(w, pipe, fd);
    match o.recv {
      case WouldBlock => NothingDone(w, i, pipe, fd);
      case Ended => EndedStep(w, pipe, fd, o, i);
      case Data(bytes) =>
        var d := Heard(c, bytes, o.now);
        if |d.cgiOutput| > MAX_CGI_OUTPUT {
          OverflowStep(w, pipe, d, CgiReply(d, o), o.now, i);
        } else {
          RefreshStep(w, d, i, pipe);
        }
    }
  }
}
