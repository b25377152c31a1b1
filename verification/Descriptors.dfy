/** The tables of the web server that share descriptor numbers, as values: the
    poll list, the connections, and the owners of the CGI pipes
    (apps/webserv/src/Server.cpp). Each elementary change is shown to keep all
    tables consistent; the methods of WebServer are made of these changes. */
module Descriptors {
  import opened Limits
  import opened Router

  /** The `events` of a pollfd: nothing, POLLIN or POLLOUT. */
  datatype Interest = Muted | Reading | Writing

  /** The `revents` of a pollfd. */
  datatype Report = Report(readable: bool, writable: bool, error: bool, hangup: bool, invalid: bool) {
    predicate Silent() { !readable && !writable && !error && !hangup && !invalid }
  }

  const SILENT: Report := Report(false, false, false, false, false)

  datatype PollFd = PollFd(fd: int, events: Interest, revents: Report)

  /** A connection. A pid or pipe that is not there is -1. The last three are
      history, read by no operation: the pieces read from the CGI's output pipe
      and the bytes its input pipe took, since it was started, and the
      how-manieth accepted connection this is. */
  datatype Client = Client(
    fd: int,
    config: ServerConfig,
    input: string,
    output: string,
    sent: nat,
    touched: int,
    timeoutSeconds: nat,
    cgiPid: int,
    cgiInputFd: int,
    cgiOutputFd: int,
    cgiInput: string,
    cgiWritten: nat,
    cgiOutput: string,
    heard: seq<string>,
    fed: string,
    serial: nat)

  datatype Listener = Listener(fd: int, config: ServerConfig)

  /** The server's tables, and three records of history: how many connections
      were accepted, the response each got, the bytes each was sent. `down` once
      the parser has thrown, which ends the program, or does not return. */
  datatype Web = Web(
    listeners: seq<Listener>,
    clients: map<int, Client>,
    inputOwners: map<int, int>,
    outputOwners: map<int, int>,
    pollfds: seq<PollFd>,
    accepted: nat,
    responses: map<nat, string>,
    wire: map<nat, string>,
    down: bool)

  // ------------------------------------------------------------- invariant

  ghost function Fds(pollfds: seq<PollFd>): set<int> {
    set p | p in pollfds :: p.fd
  }

  predicate Distinct(pollfds: seq<PollFd>) {
    forall i, j :: 0 <= i < j < |pollfds| ==> pollfds[i].fd != pollfds[j].fd
  }

  function InterestOf(c: Client): Interest {
    if c.cgiPid > 0 then Muted else if c.output != "" then Writing else Reading
  }

  ghost function ListenerFds(w: Web): set<int> {
    set l | l in w.listeners :: l.fd
  }

  /** A running CGI means no output yet; pipes mean a running CGI; buffers and
      positions are in range. */
  predicate ClientOk(c: Client, fd: int) {
    && c.fd == fd && fd >= 0
    && (c.output == "" ==> c.sent == 0)
    && (c.output != "" ==> c.sent < |c.output|)
    && (c.cgiPid > 0 ==> c.output == "")
    && (c.cgiPid <= 0 ==> c.cgiInputFd == -1 && c.cgiOutputFd == -1)
    && c.cgiInputFd >= -1 && c.cgiOutputFd >= -1
    && |c.input| <= c.config.maxBody + MAX_HEADER_OVERHEAD
    && |c.cgiOutput| <= MAX_CGI_OUTPUT + READ_SIZE
    && (c.cgiPid > 0 ==> |c.cgiOutput| <= MAX_CGI_OUTPUT)
    && c.cgiWritten <= |c.cgiInput|
    && (c.cgiInputFd >= 0 ==> c.cgiWritten < |c.cgiInput|)
  }

  ghost predicate ClientsOk(w: Web) {
    forall fd {:trigger ClientOk(w.clients[fd], fd)} {:trigger fd in w.clients} ::
      fd in w.clients ==> ClientOk(w.clients[fd], fd)
  }

  /** Every descriptor in the poll list is exactly one of listener, connection,
      CGI input and CGI output, and all of those are in the poll list. */
  predicate Kinds(w: Web, fd: int, listener: bool, polled: bool) {
    && (polled <==> listener || fd in w.clients || fd in w.inputOwners || fd in w.outputOwners)
    && !(listener && fd in w.clients)
    && !(listener && fd in w.inputOwners)
    && !(listener && fd in w.outputOwners)
    && !(fd in w.clients && fd in w.inputOwners)
    && !(fd in w.clients && fd in w.outputOwners)
    && !(fd in w.inputOwners && fd in w.outputOwners)
  }

  ghost predicate PolledExactly(w: Web) {
    forall fd :: Kinds(w, fd, fd in ListenerFds(w), fd in Fds(w.pollfds))
  }

  /** The owner maps are inverse to the pipe fields of the connections. */
  predicate Feeds(w: Web, pipe: int, fd: int) {
    fd in w.clients && w.clients[fd].cgiInputFd == pipe && pipe >= 0
  }

  predicate Drains(w: Web, pipe: int, fd: int) {
    fd in w.clients && w.clients[fd].cgiOutputFd == pipe && pipe >= 0
  }

  predicate OwnsInput(w: Web, pipe: int, fd: int) {
    pipe in w.inputOwners && w.inputOwners[pipe] == fd
  }

  predicate OwnsOutput(w: Web, pipe: int, fd: int) {
    pipe in w.outputOwners && w.outputOwners[pipe] == fd
  }

  ghost predicate OwnersOk(w: Web) {
    && (forall pipe, fd :: OwnsInput(w, pipe, fd) <==> Feeds(w, pipe, fd))
    && (forall pipe, fd :: OwnsOutput(w, pipe, fd) <==> Drains(w, pipe, fd))
  }

  /** What a poll entry waits for follows from what its descriptor is. */
  predicate EntryOk(w: Web, p: PollFd) {
    p.events == if p.fd in w.clients then InterestOf(w.clients[p.fd])
                else if p.fd in w.inputOwners then Writing else Reading
  }

  ghost predicate EntriesOk(w: Web) {
    forall i {:trigger w.pollfds[i]} :: 0 <= i < |w.pollfds| ==> EntryOk(w, w.pollfds[i])
  }

  ghost function Running(w: Web): set<int> {
    set fd | fd in w.clients && w.clients[fd].cgiPid > 0
  }

  ghost predicate CountsOk(w: Web) {
    |w.clients.Keys| <= MAX_CONNECTIONS && |Running(w)| <= MAX_CGI_PROCESSES
  }

  /** A connection has output exactly when it was given its response, and was
      sent the first `sent` bytes of it. */
  predicate RecordOk(w: Web, c: Client) {
    && c.serial < w.accepted
    && (c.output == "" <==> c.serial !in w.responses)
    && (c.output != "" ==> w.responses[c.serial] == c.output)
    && c.serial in w.wire && w.wire[c.serial] == c.output[..if c.sent <= |c.output| then c.sent else 0]
  }

  predicate WireOk(w: Web, serial: nat) {
    serial in w.wire && w.wire[serial] <= if serial in w.responses then w.responses[serial] else ""
  }

  ghost predicate HistoryOk(w: Web) {
    && (forall fd {:trigger RecordOk(w, w.clients[fd])} {:trigger fd in w.clients} ::
          fd in w.clients ==> RecordOk(w, w.clients[fd]))
    && (forall fd, other {:trigger w.clients[fd], w.clients[other]} ::
          fd in w.clients && other in w.clients && w.clients[fd].serial == w.clients[other].serial ==> fd == other)
    && (forall serial {:trigger serial in w.wire} :: serial in w.wire ==> serial < w.accepted && WireOk(w, serial))
    && (forall serial {:trigger serial in w.responses} :: serial in w.responses ==> serial in w.wire)
  }

  ghost predicate Tables(w: Web) {
    && Distinct(w.pollfds) && PolledExactly(w) && OwnersOk(w) && ClientsOk(w) && EntriesOk(w)
    && CountsOk(w) && HistoryOk(w)
  }

  // -------------------------------------------------------- list operations

  /** removePollFd: the first entry of the descriptor removed. */
  function Without(pollfds: seq<PollFd>, fd: int): seq<PollFd> {
    if pollfds == [] then []
    else if pollfds[0].fd == fd then pollfds[1..]
    else [pollfds[0]] + Without(pollfds[1..], fd)
  }

  function WithEvents(pollfds: seq<PollFd>, fd: int, events: Interest): seq<PollFd> {
    seq(|pollfds|, i requires 0 <= i < |pollfds| =>
      if pollfds[i].fd == fd then pollfds[i].(events := events) else pollfds[i])
  }

  lemma {:induction false} WithoutIs(pollfds: seq<PollFd>, fd: int)
    requires Distinct(pollfds)
    ensures Distinct(Without(pollfds, fd))
    ensures forall p :: p in Without(pollfds, fd) <==> p in pollfds && p.fd != fd
  {
    if pollfds != [] {
      assert forall j :: 1 <= j < |pollfds| ==> pollfds[j] == pollfds[1..][j - 1];
      WithoutIs(pollfds[1..], fd);
      assert forall p :: p in pollfds <==> p == pollfds[0] || p in pollfds[1..];
      assert forall p :: p in pollfds[1..] ==> p.fd != pollfds[0].fd;
    }
  }

  lemma WithoutFds(pollfds: seq<PollFd>, fd: int, x: int)
    requires Distinct(pollfds)
    ensures Distinct(Without(pollfds, fd))
    ensures x in Fds(Without(pollfds, fd)) <==> x in Fds(pollfds) && x != fd
  {
    WithoutIs(pollfds, fd);
    if x in Fds(Without(pollfds, fd)) { var p :| p in Without(pollfds, fd) && p.fd == x; assert p in pollfds; }
    if x in Fds(pollfds) && x != fd { var p :| p in pollfds && p.fd == x; assert p in Without(pollfds, fd); }
  }

  lemma WithEventsFds(pollfds: seq<PollFd>, fd: int, events: Interest, x: int)
    ensures Distinct(pollfds) ==> Distinct(WithEvents(pollfds, fd, events))
    ensures x in Fds(WithEvents(pollfds, fd, events)) <==> x in Fds(pollfds)
  {
    var q := WithEvents(pollfds, fd, events);
    if x in Fds(pollfds) {
      var i :| 0 <= i < |pollfds| && pollfds[i].fd == x;
      assert q[i] in q;
    }
    if x in Fds(q) {
      var i :| 0 <= i < |q| && q[i].fd == x;
      assert pollfds[i] in pollfds;
    }
  }

  lemma AddedFds(pollfds: seq<PollFd>, p: PollFd, x: int)
    requires p.fd !in Fds(pollfds) && Distinct(pollfds)
    ensures Distinct(pollfds + [p])
    ensures x in Fds(pollfds + [p]) <==> x in Fds(pollfds) || x == p.fd
  {
    var q := pollfds + [p];
    assert q[|pollfds|] == p;
    forall i | 0 <= i < |pollfds| ensures pollfds[i].fd != p.fd { assert pollfds[i].fd in Fds(pollfds); }
    if x in Fds(pollfds) {
      var i :| 0 <= i < |pollfds| && pollfds[i].fd == x;
      assert q[i] in q;
    }
  }

  // ----------------------------------------------------- elementary changes

  /** Bytes, positions and times of a connection, nothing structural. */
  function Refresh(w: Web, c: Client): Web { w.(clients := w.clients[c.fd := c]) }

  /** The one response of a connection; its entry waits for output now. */
  function Answer(w: Web, c: Client, response: string): Web {
    w.(clients := w.clients[c.fd := c.(output := response, sent := 0, cgiPid := if c.cgiPid > 0 then -1 else c.cgiPid)],
       pollfds := WithEvents(w.pollfds, c.fd, Writing),
       responses := w.responses[c.serial := response])
  }

  function DropInput(w: Web, fd: int): Web
    requires fd in w.clients
  {
    var c := w.clients[fd];
    if c.cgiInputFd < 0 then w
    else w.(clients := w.clients[fd := c.(cgiInputFd := -1)],
            inputOwners := w.inputOwners - {c.cgiInputFd},
            pollfds := Without(w.pollfds, c.cgiInputFd))
  }

  function DropOutput(w: Web, fd: int): Web
    requires fd in w.clients
  {
    var c := w.clients[fd];
    if c.cgiOutputFd < 0 then w
    else w.(clients := w.clients[fd := c.(cgiOutputFd := -1)],
            outputOwners := w.outputOwners - {c.cgiOutputFd},
            pollfds := Without(w.pollfds, c.cgiOutputFd))
  }

  /** A connection without pipes taken out of the tables. */
  function Erase(w: Web, fd: int): Web {
    w.(clients := w.clients - {fd}, pollfds := Without(w.pollfds, fd))
  }

  function NewClient(fd: int, config: ServerConfig, now: int, serial: nat): Client {
    Client(fd, config, "", "", 0, now, 30, -1, -1, -1, "", 0, "", [], "", serial)
  }

  function Admit(w: Web, fd: int, config: ServerConfig, now: int): Web {
    w.(clients := w.clients[fd := NewClient(fd, config, now, w.accepted)],
       pollfds := w.pollfds + [PollFd(fd, Reading, SILENT)],
       accepted := w.accepted + 1,
       wire := w.wire[w.accepted := ""])
  }

  /** A CGI started: the connection is muted and its pipes are watched. */
  function Launch(w: Web, c: Client, pid: int, inputFd: int, outputFd: int, body: string, timeout: nat): Web {
    var d := c.(cgiPid := pid, cgiInputFd := if body == "" then -1 else inputFd, cgiOutputFd := outputFd,
                cgiInput := body, cgiWritten := 0, cgiOutput := "", heard := [], fed := "",
                timeoutSeconds := timeout);
    var muted := WithEvents(w.pollfds, c.fd, Muted) + [PollFd(outputFd, Reading, SILENT)];
    w.(clients := w.clients[c.fd := d],
       outputOwners := w.outputOwners[outputFd := c.fd],
       inputOwners := if body == "" then w.inputOwners else w.inputOwners[inputFd := c.fd],
       pollfds := if body == "" then muted else muted + [PollFd(inputFd, Writing, SILENT)])
  }

  /** Bytes of the output handed to the peer. */
  function Wired(w: Web, serial: nat, bytes: string): Web {
    w.(wire := w.wire[serial := (if serial in w.wire then w.wire[serial] else "") + bytes])
  }

  // -------------------------------------------------- each keeps the tables

  /** Same pipes, pid, output and identity. */
  predicate SameShape(c: Client, d: Client) {
    && d.fd == c.fd && d.serial == c.serial && d.output == c.output && d.sent == c.sent
    && d.cgiPid == c.cgiPid && d.cgiInputFd == c.cgiInputFd && d.cgiOutputFd == c.cgiOutputFd
  }

  lemma RefreshKeeps(w: Web, d: Client)
    requires Tables(w) && d.fd in w.clients && SameShape(w.clients[d.fd], d) && ClientOk(d, d.fd)
    ensures Tables(Refresh(w, d))
  {
    var v := Refresh(w, d);
    assert v.clients.Keys == w.clients.Keys;
    assert ListenerFds(v) == ListenerFds(w);
    forall fd ensures Kinds(v, fd, fd in ListenerFds(v), fd in Fds(v.pollfds)) {
      assert Kinds(w, fd, fd in ListenerFds(w), fd in Fds(w.pollfds));
    }
    RefreshOwners(w, d);
    forall i | 0 <= i < |v.pollfds| ensures EntryOk(v, v.pollfds[i]) { assert EntryOk(w, w.pollfds[i]); }
    assert Running(v) == Running(w);
    RefreshHistory(w, d);
  }

  lemma RefreshOwners(w: Web, d: Client)
    requires OwnersOk(w) && d.fd in w.clients && SameShape(w.clients[d.fd], d)
    ensures OwnersOk(Refresh(w, d))
  {
    var v := Refresh(w, d);
    forall pipe, fd ensures OwnsInput(v, pipe, fd) <==> Feeds(v, pipe, fd) {
      assert OwnsInput(w, pipe, fd) <==> Feeds(w, pipe, fd);
    }
    forall pipe, fd ensures OwnsOutput(v, pipe, fd) <==> Drains(v, pipe, fd) {
      assert OwnsOutput(w, pipe, fd) <==> Drains(w, pipe, fd);
    }
  }

  lemma RefreshHistory(w: Web, d: Client)
    requires HistoryOk(w) && d.fd in w.clients && SameShape(w.clients[d.fd], d)
    ensures HistoryOk(Refresh(w, d))
  {
    var v := Refresh(w, d);
    forall fd | fd in v.clients ensures RecordOk(v, v.clients[fd]) { assert RecordOk(w, w.clients[fd]); }
    forall serial | serial in v.wire ensures WireOk(v, serial) { assert WireOk(w, serial); }
  }

  /** Ready for its response: none yet, and no pipe left. */
  predicate Answerable(w: Web, c: Client) {
    && c.fd in w.clients && c.output == "" && c.cgiInputFd == -1 && c.cgiOutputFd == -1
    && SameShape(w.clients[c.fd], c) && ClientOk(c, c.fd)
  }

  lemma AnswerPolled(w: Web, c: Client, response: string)
    requires Distinct(w.pollfds) && PolledExactly(w) && c.fd in w.clients
    ensures Distinct(Answer(w, c, response).pollfds) && PolledExactly(Answer(w, c, response))
  {
    var v := Answer(w, c, response);
    assert v.clients.Keys == w.clients.Keys && ListenerFds(v) == ListenerFds(w);
    WithEventsFds(w.pollfds, c.fd, Writing, 0);
    forall fd ensures Kinds(v, fd, fd in ListenerFds(v), fd in Fds(v.pollfds)) {
      WithEventsFds(w.pollfds, c.fd, Writing, fd);
      assert Kinds(w, fd, fd in ListenerFds(w), fd in Fds(w.pollfds));
    }
  }

  lemma AnswerKeeps(w: Web, c: Client, response: string)
    requires Tables(w) && Answerable(w, c) && response != ""
    ensures Tables(Answer(w, c, response))
  {
    var v := Answer(w, c, response);
    AnswerPolled(w, c, response);
    AnswerOwners(w, c, response);
    forall i | 0 <= i < |v.pollfds| ensures EntryOk(v, v.pollfds[i]) { assert EntryOk(w, w.pollfds[i]); }
    assert v.clients.Keys == w.clients.Keys;
    RunningShrinks(w, v);
    AnswerHistory(w, c, response);
  }

  lemma AnswerOwners(w: Web, c: Client, response: string)
    requires OwnersOk(w) && Answerable(w, c)
    ensures OwnersOk(Answer(w, c, response))
  {
    var v := Answer(w, c, response);
    forall pipe, fd ensures OwnsInput(v, pipe, fd) <==> Feeds(v, pipe, fd) {
      assert OwnsInput(w, pipe, fd) <==> Feeds(w, pipe, fd);
    }
    forall pipe, fd ensures OwnsOutput(v, pipe, fd) <==> Drains(v, pipe, fd) {
      assert OwnsOutput(w, pipe, fd) <==> Drains(w, pipe, fd);
    }
  }

  lemma RunningShrinks(w: Web, v: Web)
    requires Running(v) <= Running(w)
    ensures |Running(v)| <= |Running(w)|
  {
    assert Running(w) == Running(v) + (Running(w) - Running(v));
  }

  lemma AnswerHistory(w: Web, c: Client, response: string)
    requires HistoryOk(w) && Answerable(w, c) && response != ""
    ensures HistoryOk(Answer(w, c, response))
    ensures c.serial !in w.responses
  {
    var v := Answer(w, c, response);
    assert RecordOk(w, w.clients[c.fd]);
    assert response[..0] == "";
    forall fd | fd in v.clients ensures RecordOk(v, v.clients[fd]) {
      assert RecordOk(w, w.clients[fd]);
    }
    forall serial | serial in v.wire ensures serial < v.accepted && WireOk(v, serial) { assert WireOk(w, serial); }
  }

  lemma DropInputPolled(w: Web, fd: int)
    requires Distinct(w.pollfds) && PolledExactly(w) && OwnersOk(w) && fd in w.clients
    ensures Distinct(DropInput(w, fd).pollfds) && PolledExactly(DropInput(w, fd))
  {
    var v := DropInput(w, fd);
    var pipe := w.clients[fd].cgiInputFd;
    if pipe >= 0 {
      assert Feeds(w, pipe, fd) && OwnsInput(w, pipe, fd);
      assert v.clients.Keys == w.clients.Keys && ListenerFds(v) == ListenerFds(w);
      WithoutIs(w.pollfds, pipe);
      forall x ensures Kinds(v, x, x in ListenerFds(v), x in Fds(v.pollfds)) {
        WithoutFds(w.pollfds, pipe, x);
        assert Kinds(w, x, x in ListenerFds(w), x in Fds(w.pollfds));
      }
    }
  }

  lemma DropInputEntries(w: Web, fd: int)
    requires EntriesOk(w) && Distinct(w.pollfds) && fd in w.clients
    ensures EntriesOk(DropInput(w, fd))
  {
    var v := DropInput(w, fd);
    var pipe := w.clients[fd].cgiInputFd;
    if pipe >= 0 {
      forall i | 0 <= i < |v.pollfds| ensures EntryOk(v, v.pollfds[i]) { WithoutEntry(w, v, pipe, v.pollfds[i]); }
    }
  }

  lemma DropInputClients(w: Web, fd: int)
    requires ClientsOk(w) && CountsOk(w) && HistoryOk(w) && fd in w.clients
    ensures var v := DropInput(w, fd);
      ClientsOk(v) && CountsOk(v) && HistoryOk(v)
  {
    var v := DropInput(w, fd);
    assert ClientOk(w.clients[fd], fd);
    if w.clients[fd].cgiInputFd >= 0 {
      assert v.clients.Keys == w.clients.Keys && Running(v) == Running(w);
      SameHistory(w, v);
    }
  }

  lemma DropInputKeeps(w: Web, fd: int)
    requires Tables(w) && fd in w.clients
    ensures Tables(DropInput(w, fd))
  {
    DropInputPolled(w, fd);
    DropInputEntries(w, fd);
    DropInputClients(w, fd);
    DropInputOwners(w, fd);
  }

  /** An entry that stays was fine and, its descriptor being another, still is. */
  lemma WithoutEntry(w: Web, v: Web, gone: int, p: PollFd)
    requires EntriesOk(w) && Distinct(w.pollfds) && p in Without(w.pollfds, gone)
    requires forall x :: x != gone ==> (x in v.inputOwners <==> x in w.inputOwners)
    requires forall x :: x != gone ==> (x in v.clients <==> x in w.clients)
    requires forall x :: x != gone && x in w.clients ==> InterestOf(v.clients[x]) == InterestOf(w.clients[x])
    ensures EntryOk(v, p)
  {
    WithoutIs(w.pollfds, gone);
    var i :| 0 <= i < |w.pollfds| && w.pollfds[i] == p;
    assert EntryOk(w, w.pollfds[i]);
  }

  lemma DropInputOwners(w: Web, fd: int)
    requires OwnersOk(w) && fd in w.clients
    ensures OwnersOk(DropInput(w, fd))
  {
    var v := DropInput(w, fd);
    var gone := w.clients[fd].cgiInputFd;
    if gone >= 0 {
      assert OwnsInput(w, gone, fd) <==> Feeds(w, gone, fd);
      forall pipe, x ensures OwnsInput(v, pipe, x) <==> Feeds(v, pipe, x) {
        assert OwnsInput(w, pipe, x) <==> Feeds(w, pipe, x);
      }
      forall pipe, x ensures OwnsOutput(v, pipe, x) <==> Drains(v, pipe, x) {
        assert OwnsOutput(w, pipe, x) <==> Drains(w, pipe, x);
      }
    }
  }

  /** Records look at serial, output and sent alone. */
  lemma SameHistory(w: Web, v: Web)
    requires HistoryOk(w) && v.clients.Keys <= w.clients.Keys
    requires v.accepted == w.accepted && v.responses == w.responses && v.wire == w.wire
    requires forall fd :: fd in v.clients ==>
      v.clients[fd].serial == w.clients[fd].serial && v.clients[fd].output == w.clients[fd].output
      && v.clients[fd].sent == w.clients[fd].sent
    ensures HistoryOk(v)
  {
    forall fd | fd in v.clients ensures RecordOk(v, v.clients[fd]) { assert RecordOk(w, w.clients[fd]); }
    forall fd, other | fd in v.clients && other in v.clients && v.clients[fd].serial == v.clients[other].serial
      ensures fd == other
    {
      assert w.clients[fd].serial == w.clients[other].serial;
    }
    forall serial | serial in v.wire ensures WireOk(v, serial) { assert WireOk(w, serial); }
  }

  lemma DropOutputPolled(w: Web, fd: int)
    requires Distinct(w.pollfds) && PolledExactly(w) && OwnersOk(w) && fd in w.clients
    ensures Distinct(DropOutput(w, fd).pollfds) && PolledExactly(DropOutput(w, fd))
  {
    var v := DropOutput(w, fd);
    var pipe := w.clients[fd].cgiOutputFd;
    if pipe >= 0 {
      assert Drains(w, pipe, fd) && OwnsOutput(w, pipe, fd);
      assert v.clients.Keys == w.clients.Keys && ListenerFds(v) == ListenerFds(w);
      WithoutIs(w.pollfds, pipe);
      forall x ensures Kinds(v, x, x in ListenerFds(v), x in Fds(v.pollfds)) {
        WithoutFds(w.pollfds, pipe, x);
        assert Kinds(w, x, x in ListenerFds(w), x in Fds(w.pollfds));
      }
    }
  }

  lemma DropOutputEntries(w: Web, fd: int)
    requires EntriesOk(w) && Distinct(w.pollfds) && fd in w.clients
    ensures EntriesOk(DropOutput(w, fd))
  {
    var v := DropOutput(w, fd);
    var pipe := w.clients[fd].cgiOutputFd;
    if pipe >= 0 {
      forall i | 0 <= i < |v.pollfds| ensures EntryOk(v, v.pollfds[i]) { WithoutEntry(w, v, pipe, v.pollfds[i]); }
    }
  }

  lemma DropOutputClients(w: Web, fd: int)
    requires ClientsOk(w) && CountsOk(w) && HistoryOk(w) && fd in w.clients
    ensures var v := DropOutput(w, fd);
      ClientsOk(v) && CountsOk(v) && HistoryOk(v)
  {
    var v := DropOutput(w, fd);
    assert ClientOk(w.clients[fd], fd);
    if w.clients[fd].cgiOutputFd >= 0 {
      assert v.clients.Keys == w.clients.Keys && Running(v) == Running(w);
      SameHistory(w, v);
    }
  }

  lemma DropOutputKeeps(w: Web, fd: int)
    requires Tables(w) && fd in w.clients
    ensures Tables(DropOutput(w, fd))
  {
    DropOutputPolled(w, fd);
    DropOutputEntries(w, fd);
    DropOutputClients(w, fd);
    DropOutputOwners(w, fd);
  }

  lemma DropOutputOwners(w: Web, fd: int)
    requires OwnersOk(w) && fd in w.clients
    ensures OwnersOk(DropOutput(w, fd))
  {
    var v := DropOutput(w, fd);
    var gone := w.clients[fd].cgiOutputFd;
    if gone >= 0 {
      assert OwnsOutput(w, gone, fd) <==> Drains(w, gone, fd);
      forall pipe, x ensures OwnsInput(v, pipe, x) <==> Feeds(v, pipe, x) {
        assert OwnsInput(w, pipe, x) <==> Feeds(w, pipe, x);
      }
      forall pipe, x ensures OwnsOutput(v, pipe, x) <==> Drains(v, pipe, x) {
        assert OwnsOutput(w, pipe, x) <==> Drains(w, pipe, x);
      }
    }
  }

  predicate Pipeless(w: Web, fd: int) {
    fd in w.clients && w.clients[fd].cgiInputFd == -1 && w.clients[fd].cgiOutputFd == -1
  }

  lemma KeysMinus(w: Web, fd: int)
    ensures |(w.clients - {fd}).Keys| <= |w.clients.Keys|
  {
    assert (w.clients - {fd}).Keys == w.clients.Keys - {fd};
    assert w.clients.Keys == (w.clients.Keys - {fd}) + (w.clients.Keys * {fd});
  }

  lemma EraseKeeps(w: Web, fd: int)
    requires Tables(w) && Pipeless(w, fd)
    ensures Tables(Erase(w, fd))
  {
    var v := Erase(w, fd);
    assert ListenerFds(v) == ListenerFds(w);
    WithoutIs(w.pollfds, fd);
    forall x ensures Kinds(v, x, x in ListenerFds(v), x in Fds(v.pollfds)) {
      WithoutFds(w.pollfds, fd, x);
      assert Kinds(w, x, x in ListenerFds(w), x in Fds(w.pollfds));
      assert Kinds(w, fd, fd in ListenerFds(w), fd in Fds(w.pollfds));
    }
    forall pipe, x ensures OwnsInput(v, pipe, x) <==> Feeds(v, pipe, x) {
      assert OwnsInput(w, pipe, x) <==> Feeds(w, pipe, x);
    }
    forall pipe, x ensures OwnsOutput(v, pipe, x) <==> Drains(v, pipe, x) {
      assert OwnsOutput(w, pipe, x) <==> Drains(w, pipe, x);
    }
    forall i | 0 <= i < |v.pollfds| ensures EntryOk(v, v.pollfds[i]) { WithoutEntry(w, v, fd, v.pollfds[i]); }
    RunningShrinks(w, v);
    KeysMinus(w, fd);
    SameHistory(w, v);
  }

  /** accept and pipe return descriptors that are not open. */
  ghost predicate Free(w: Web, fd: int) { fd >= 0 && fd !in Fds(w.pollfds) }

  lemma AdmitPolled(w: Web, fd: int, config: ServerConfig, now: int)
    requires Distinct(w.pollfds) && PolledExactly(w) && Free(w, fd)
    ensures var v := Admit(w, fd, config, now);
      Distinct(v.pollfds) && PolledExactly(v) && fd !in w.clients
  {
    var v := Admit(w, fd, config, now);
    assert ListenerFds(v) == ListenerFds(w);
    assert Kinds(w, fd, fd in ListenerFds(w), fd in Fds(w.pollfds));
    AddedFds(w.pollfds, PollFd(fd, Reading, SILENT), 0);
    forall x ensures Kinds(v, x, x in ListenerFds(v), x in Fds(v.pollfds)) {
      AddedFds(w.pollfds, PollFd(fd, Reading, SILENT), x);
      assert Kinds(w, x, x in ListenerFds(w), x in Fds(w.pollfds));
    }
  }

  lemma OneMore(keys: set<int>, fd: int)
    requires |keys| < MAX_CONNECTIONS
    ensures |keys + {fd}| <= MAX_CONNECTIONS
  {
  }

  lemma AdmitClients(w: Web, fd: int, config: ServerConfig, now: int)
    requires ClientsOk(w) && CountsOk(w) && fd >= 0 && fd !in w.clients && |w.clients.Keys| < MAX_CONNECTIONS
    ensures var v := Admit(w, fd, config, now);
      ClientsOk(v) && CountsOk(v)
  {
    var v := Admit(w, fd, config, now);
    assert Running(v) == Running(w) && v.clients.Keys == w.clients.Keys + {fd};
    OneMore(w.clients.Keys, fd);
  }

  lemma AdmitKeeps(w: Web, fd: int, config: ServerConfig, now: int)
    requires Tables(w) && Free(w, fd) && |w.clients.Keys| < MAX_CONNECTIONS
    ensures Tables(Admit(w, fd, config, now))
  {
    AdmitPolled(w, fd, config, now);
    AdmitClients(w, fd, config, now);
    AdmitOwners(w, fd, config, now);
    AdmitEntries(w, fd, config, now);
    AdmitHistory(w, fd, config, now);
  }

  lemma AdmitOwners(w: Web, fd: int, config: ServerConfig, now: int)
    requires OwnersOk(w) && fd !in w.clients
    ensures OwnersOk(Admit(w, fd, config, now))
  {
    var v := Admit(w, fd, config, now);
    forall pipe, x ensures OwnsInput(v, pipe, x) <==> Feeds(v, pipe, x) {
      assert OwnsInput(w, pipe, x) <==> Feeds(w, pipe, x);
    }
    forall pipe, x ensures OwnsOutput(v, pipe, x) <==> Drains(v, pipe, x) {
      assert OwnsOutput(w, pipe, x) <==> Drains(w, pipe, x);
    }
  }

  lemma AdmitEntries(w: Web, fd: int, config: ServerConfig, now: int)
    requires EntriesOk(w) && fd !in Fds(w.pollfds)
    ensures EntriesOk(Admit(w, fd, config, now))
  {
    var v := Admit(w, fd, config, now);
    forall i | 0 <= i < |v.pollfds| ensures EntryOk(v, v.pollfds[i]) {
      if i < |w.pollfds| {
        assert EntryOk(w, w.pollfds[i]);
        assert w.pollfds[i].fd in Fds(w.pollfds);
      }
    }
  }

  lemma AdmitHistory(w: Web, fd: int, config: ServerConfig, now: int)
    requires HistoryOk(w) && fd !in w.clients
    ensures HistoryOk(Admit(w, fd, config, now))
  {
    var v := Admit(w, fd, config, now);
    assert w.accepted !in w.wire && w.accepted !in w.responses;
    forall x | x in v.clients ensures RecordOk(v, v.clients[x]) {
      if x != fd { assert RecordOk(w, w.clients[x]); }
    }
    forall x, other | x in v.clients && other in v.clients && v.clients[x].serial == v.clients[other].serial
      ensures x == other
    {
      if x != fd { assert RecordOk(w, w.clients[x]); }
      if other != fd { assert RecordOk(w, w.clients[other]); }
    }
    forall serial | serial in v.wire ensures serial < v.accepted && WireOk(v, serial) {
      if serial != w.accepted { assert WireOk(w, serial); }
    }
  }

  /** A connection that may start a CGI on pipes not open yet. */
  ghost predicate Launchable(w: Web, c: Client, pid: int, inputFd: int, outputFd: int) {
    && c.fd in w.clients && SameShape(w.clients[c.fd], c) && ClientOk(c, c.fd)
    && c.output == "" && c.cgiPid <= 0 && pid > 0
    && Free(w, inputFd) && Free(w, outputFd) && inputFd != outputFd
  }

  ghost function LaunchedFds(w: Web, inputFd: int, outputFd: int, body: string): set<int> {
    Fds(w.pollfds) + {outputFd} + (if body == "" then {} else {inputFd})
  }

  lemma LaunchFds(w: Web, c: Client, pid: int, inputFd: int, outputFd: int, body: string, timeout: nat)
    requires Distinct(w.pollfds) && Free(w, inputFd) && Free(w, outputFd) && inputFd != outputFd
    ensures var v := Launch(w, c, pid, inputFd, outputFd, body, timeout);
      Distinct(v.pollfds) && Fds(v.pollfds) == LaunchedFds(w, inputFd, outputFd, body)
  {
    var v := Launch(w, c, pid, inputFd, outputFd, body, timeout);
    var quiet := WithEvents(w.pollfds, c.fd, Muted);
    var first := PollFd(outputFd, Reading, SILENT);
    forall x ensures x in Fds(quiet) <==> x in Fds(w.pollfds) { WithEventsFds(w.pollfds, c.fd, Muted, x); }
    WithEventsFds(w.pollfds, c.fd, Muted, 0);
    AddedFds(quiet, first, inputFd);
    forall x ensures x in Fds(v.pollfds) <==> x in LaunchedFds(w, inputFd, outputFd, body) {
      AddedFds(quiet, first, x);
      if body != "" { AddedFds(quiet + [first], PollFd(inputFd, Writing, SILENT), x); }
    }
    if body != "" { AddedFds(quiet + [first], PollFd(inputFd, Writing, SILENT), 0); }
  }

  lemma LaunchPolled(w: Web, c: Client, pid: int, inputFd: int, outputFd: int, body: string, timeout: nat)
    requires Distinct(w.pollfds) && PolledExactly(w) && Launchable(w, c, pid, inputFd, outputFd)
    ensures PolledExactly(Launch(w, c, pid, inputFd, outputFd, body, timeout))
  {
    var v := Launch(w, c, pid, inputFd, outputFd, body, timeout);
    LaunchFds(w, c, pid, inputFd, outputFd, body, timeout);
    assert v.clients.Keys == w.clients.Keys && ListenerFds(v) == ListenerFds(w);
    forall x ensures Kinds(v, x, x in ListenerFds(v), x in Fds(v.pollfds)) {
      assert Kinds(w, x, x in ListenerFds(w), x in Fds(w.pollfds));
    }
  }

  lemma LaunchOwners(w: Web, c: Client, pid: int, inputFd: int, outputFd: int, body: string, timeout: nat)
    requires OwnersOk(w) && PolledExactly(w) && Launchable(w, c, pid, inputFd, outputFd)
    ensures OwnersOk(Launch(w, c, pid, inputFd, outputFd, body, timeout))
  {
    var v := Launch(w, c, pid, inputFd, outputFd, body, timeout);
    assert Kinds(w, inputFd, inputFd in ListenerFds(w), inputFd in Fds(w.pollfds));
    assert Kinds(w, outputFd, outputFd in ListenerFds(w), outputFd in Fds(w.pollfds));
    forall pipe, x ensures OwnsInput(v, pipe, x) <==> Feeds(v, pipe, x) {
      assert OwnsInput(w, pipe, x) <==> Feeds(w, pipe, x);
    }
    forall pipe, x ensures OwnsOutput(v, pipe, x) <==> Drains(v, pipe, x) {
      assert OwnsOutput(w, pipe, x) <==> Drains(w, pipe, x);
    }
  }

  lemma LaunchEntries(w: Web, c: Client, pid: int, inputFd: int, outputFd: int, body: string, timeout: nat)
    requires EntriesOk(w) && PolledExactly(w) && Launchable(w, c, pid, inputFd, outputFd)
    ensures EntriesOk(Launch(w, c, pid, inputFd, outputFd, body, timeout))
  {
    var v := Launch(w, c, pid, inputFd, outputFd, body, timeout);
    assert Kinds(w, inputFd, inputFd in ListenerFds(w), inputFd in Fds(w.pollfds));
    assert Kinds(w, outputFd, outputFd in ListenerFds(w), outputFd in Fds(w.pollfds));
    forall i | 0 <= i < |v.pollfds| ensures EntryOk(v, v.pollfds[i]) {
      if i < |w.pollfds| {
        assert EntryOk(w, w.pollfds[i]);
        assert w.pollfds[i].fd in Fds(w.pollfds);
        assert Kinds(w, w.pollfds[i].fd, w.pollfds[i].fd in ListenerFds(w), true);
      }
    }
  }

  lemma LaunchKeeps(w: Web, c: Client, pid: int, inputFd: int, outputFd: int, body: string, timeout: nat)
    requires Tables(w) && Launchable(w, c, pid, inputFd, outputFd) && |Running(w)| < MAX_CGI_PROCESSES
    ensures Tables(Launch(w, c, pid, inputFd, outputFd, body, timeout))
  {
    var v := Launch(w, c, pid, inputFd, outputFd, body, timeout);
    LaunchFds(w, c, pid, inputFd, outputFd, body, timeout);
    LaunchPolled(w, c, pid, inputFd, outputFd, body, timeout);
    LaunchOwners(w, c, pid, inputFd, outputFd, body, timeout);
    LaunchEntries(w, c, pid, inputFd, outputFd, body, timeout);
    LaunchClients(w, c, pid, inputFd, outputFd, body, timeout);
    SameHistory(w, v);
  }

  lemma LaunchClients(w: Web, c: Client, pid: int, inputFd: int, outputFd: int, body: string, timeout: nat)
    requires ClientsOk(w) && CountsOk(w) && Launchable(w, c, pid, inputFd, outputFd)
    requires |Running(w)| < MAX_CGI_PROCESSES
    ensures var v := Launch(w, c, pid, inputFd, outputFd, body, timeout);
      ClientsOk(v) && CountsOk(v)
  {
    var v := Launch(w, c, pid, inputFd, outputFd, body, timeout);
    assert v.clients.Keys == w.clients.Keys;
    assert Running(v) == Running(w) + {c.fd};
    assert ClientOk(v.clients[c.fd], c.fd);
  }

  // -------------------------------------------------------------- sending

  /** The first n waiting bytes sent. */
  function Sent(w: Web, c: Client, n: nat): Web
    requires c.sent + n <= |c.output|
  {
    Wired(Refresh(w, c.(sent := c.sent + n)), c.serial, c.output[c.sent..c.sent + n])
  }

  lemma SentHistory(w: Web, c: Client, n: nat)
    requires HistoryOk(w) && c.fd in w.clients && SameShape(w.clients[c.fd], c)
    requires c.sent + n <= |c.output| && c.output != ""
    ensures HistoryOk(Sent(w, c, n))
  {
    var v := Sent(w, c, n);
    assert RecordOk(w, w.clients[c.fd]);
    assert c.output[..c.sent] + c.output[c.sent..c.sent + n] == c.output[..c.sent + n];
    forall fd | fd in v.clients ensures RecordOk(v, v.clients[fd]) { assert RecordOk(w, w.clients[fd]); }
    forall serial | serial in v.wire ensures serial < v.accepted && WireOk(v, serial) { assert WireOk(w, serial); }
  }

  lemma SentTables(w: Web, c: Client, n: nat)
    requires PolledExactly(w) && EntriesOk(w) && CountsOk(w) && c.fd in w.clients && SameShape(w.clients[c.fd], c)
    requires c.sent + n <= |c.output|
    ensures var v := Sent(w, c, n);
      PolledExactly(v) && EntriesOk(v) && CountsOk(v)
  {
    var v := Sent(w, c, n);
    assert v.clients.Keys == w.clients.Keys && ListenerFds(v) == ListenerFds(w) && Running(v) == Running(w);
    forall fd ensures Kinds(v, fd, fd in ListenerFds(v), fd in Fds(v.pollfds)) {
      assert Kinds(w, fd, fd in ListenerFds(w), fd in Fds(w.pollfds));
    }
    forall i | 0 <= i < |v.pollfds| ensures EntryOk(v, v.pollfds[i]) { assert EntryOk(w, w.pollfds[i]); }
  }

  lemma SentOwners(w: Web, c: Client, n: nat)
    requires OwnersOk(w) && c.fd in w.clients && SameShape(w.clients[c.fd], c) && c.sent + n <= |c.output|
    ensures OwnersOk(Sent(w, c, n))
  {
    var v := Sent(w, c, n);
    forall pipe, fd ensures OwnsInput(v, pipe, fd) <==> Feeds(v, pipe, fd) {
      assert OwnsInput(w, pipe, fd) <==> Feeds(w, pipe, fd);
    }
    forall pipe, fd ensures OwnsOutput(v, pipe, fd) <==> Drains(v, pipe, fd) {
      assert OwnsOutput(w, pipe, fd) <==> Drains(w, pipe, fd);
    }
  }

  lemma SentKeeps(w: Web, c: Client, n: nat)
    requires Tables(w) && c.fd in w.clients && SameShape(w.clients[c.fd], c) && ClientOk(c, c.fd)
    requires c.sent + n < |c.output|
    ensures Tables(Sent(w, c, n))
  {
    SentTables(w, c, n);
    SentOwners(w, c, n);
    SentHistory(w, c, n);
  }

  // ------------------------------------------------------- compound changes

  /** closeClient: pipes first, then the connection. */
  function Close(w: Web, fd: int): Web {
    if fd !in w.clients then w
    else
      var a := DropInput(w, fd);
      Erase(DropOutput(a, fd), fd)
  }

  /** finishCgi: both pipes dropped, the CGI gone, the response given. */
  function Finish(w: Web, fd: int, response: string, now: int): Web {
    if fd !in w.clients then w
    else
      var b := DropOutput(DropInput(w, fd), fd);
      Answer(b, b.clients[fd].(touched := now), response)
  }

  lemma PipesDropped(w: Web, fd: int)
    requires Tables(w) && fd in w.clients
    ensures var b := DropOutput(DropInput(w, fd), fd);
      && Tables(b) && Pipeless(b, fd)
      && b.clients[fd] == w.clients[fd].(cgiInputFd := -1, cgiOutputFd := -1)
  {
    DropInputKeeps(w, fd);
    DropOutputKeeps(DropInput(w, fd), fd);
    assert ClientOk(w.clients[fd], fd);
  }

  lemma CloseKeeps(w: Web, fd: int)
    requires Tables(w)
    ensures Tables(Close(w, fd)) && fd !in Close(w, fd).clients
  {
    if fd in w.clients {
      PipesDropped(w, fd);
      EraseKeeps(DropOutput(DropInput(w, fd), fd), fd);
    }
  }

  lemma FinishKeeps(w: Web, fd: int, response: string, now: int)
    requires Tables(w) && response != "" && (fd in w.clients ==> w.clients[fd].output == "")
    ensures Tables(Finish(w, fd, response, now))
  {
    if fd in w.clients {
      PipesDropped(w, fd);
      var b := DropOutput(DropInput(w, fd), fd);
      assert ClientOk(b.clients[fd], fd);
      AnswerKeeps(b, b.clients[fd].(touched := now), response);
    }
  }

  /** The last bytes sent and the connection closed: the wire holds the whole
      response. */
  lemma SentAllKeeps(w: Web, c: Client, n: nat)
    requires Tables(w) && c.fd in w.clients && SameShape(w.clients[c.fd], c) && ClientOk(c, c.fd)
    requires c.output != "" && c.sent + n == |c.output|
    ensures var v := Close(Sent(w, c, n), c.fd);
      Tables(v) && c.serial in v.wire && c.serial in v.responses && v.wire[c.serial] == v.responses[c.serial]
  {
    var u := Sent(w, c, n);
    var v := Close(u, c.fd);
    var plain := Close(w, c.fd);
    CloseKeeps(w, c.fd);
    assert v.clients == plain.clients;
    assert v == plain.(wire := v.wire, down := v.down);
    SentHistory(w, c, n);
    SameHistory(u, v);
    assert RecordOk(u, u.clients[c.fd]);
    assert c.output[..|c.output|] == c.output;
    OnlyWire(plain, v);
  }

  /** The program gone, the tables as they were. */
  lemma DownKeeps(w: Web)
    requires Tables(w)
    ensures Tables(w.(down := true))
  {
    SameHistory(w, w.(down := true));
    OnlyWire(w, w.(down := true));
  }

  lemma OnlyWire(w: Web, v: Web)
    requires Tables(w) && HistoryOk(v) && v == w.(wire := v.wire, down := v.down)
    ensures Tables(v)
  {
    assert ListenerFds(v) == ListenerFds(w) && Running(v) == Running(w);
    forall fd ensures Kinds(v, fd, fd in ListenerFds(v), fd in Fds(v.pollfds)) {
      assert Kinds(w, fd, fd in ListenerFds(w), fd in Fds(w.pollfds));
    }
    forall pipe, fd ensures OwnsInput(v, pipe, fd) <==> Feeds(v, pipe, fd) {
      assert OwnsInput(w, pipe, fd) <==> Feeds(w, pipe, fd);
    }
    forall pipe, fd ensures OwnsOutput(v, pipe, fd) <==> Drains(v, pipe, fd) {
      assert OwnsOutput(w, pipe, fd) <==> Drains(w, pipe, fd);
    }
    forall i | 0 <= i < |v.pollfds| ensures EntryOk(v, v.pollfds[i]) { assert EntryOk(w, w.pollfds[i]); }
  }
}
