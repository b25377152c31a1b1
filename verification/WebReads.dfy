/** What a read from a connection leads to: the verdicts of HttpCuts on the bytes
    received so far, and when the program goes down (readClient and run in
    apps/webserv/src/Server.cpp, main in main.cpp). */
module WebReads {
  import opened HttpText
  import opened Limits
  import opened Chunked
  import opened HttpRequest
  import opened HttpCuts
  import opened Router
  import opened Descriptors
  import opened WebSteps

  /** The verdict on a piece just received. */
  function VerdictOf(c: Client, bytes: string): ParseResult { ReadOne(c.input, bytes, c.config.maxBody) }

  lemma ReadSettles(w: Web, fd: int, o: Os, result: ParseResult)
    requires fd in w.clients && o.recv.Data? && result == VerdictOf(w.clients[fd], o.recv.bytes)
    ensures var c := w.clients[fd];
      ReadClient(w, fd, o)
        == if |c.input| > RequestLimit(c.config.maxBody) - |o.recv.bytes| then Answer(w, c, o.error(413))
           else Settle(w, c.(input := c.input + o.recv.bytes, touched := o.now), result, o)
    ensures |w.clients[fd].input| > RequestLimit(w.clients[fd].config.maxBody) - |o.recv.bytes| ==> result == TooLarge
  {
  }

  lemma StartStaysUp(w: Web, c: Client, body: string, o: Os)
    requires !o.cgi.NotCgi?
    ensures c.fd in StartCgi(w, c, body, o).clients && StartCgi(w, c, body, o).down == w.down
  {
    if |Running(w)| < MAX_CGI_PROCESSES && o.cgi.Started? {
      LaunchStaysUp(w, c.(touched := o.now), o.cgi.pid, o.cgi.inputFd, o.cgi.outputFd, body, o.cgi.timeout);
    }
  }

  lemma LaunchStaysUp(w: Web, c: Client, pid: int, inputFd: int, outputFd: int, body: string, timeout: nat)
    ensures var v := Launch(w, c, pid, inputFd, outputFd, body, timeout);
      c.fd in v.clients && v.down == w.down
  {
  }

  lemma SettleFollows(w: Web, c: Client, result: ParseResult, o: Os)
    ensures var v := Settle(w, c, result, o);
      && c.fd in v.clients
      && (result == Incomplete ==> v.clients[c.fd] == c)
      && (result == Bad ==> v.clients[c.fd].output == o.error(400))
      && (result == TooLarge ==> v.clients[c.fd].output == o.error(413))
      && (result == VersionNotSupported ==> v.clients[c.fd].output == o.error(505))
      && (v.down <==> w.down || result == Crashed || result == Stuck)
  {
    if result.Accepted? && !o.cgi.NotCgi? { StartStaysUp(w, c, result.request.body, o); }
  }

  /** Until the verdict the bytes are kept; a refusal is answered with its status;
      an exception or a loop that does not end takes the program down. */
  lemma ReadFollowsVerdict(w: Web, fd: int, o: Os, result: ParseResult)
    requires fd in w.clients && w.clients[fd].fd == fd && o.recv.Data?
    requires result == VerdictOf(w.clients[fd], o.recv.bytes)
    ensures var c, v := w.clients[fd], ReadClient(w, fd, o);
      && fd in v.clients
      && (result == Incomplete ==> v.clients[fd].input == c.input + o.recv.bytes && v.clients[fd].output == c.output)
      && (result == Bad ==> v.clients[fd].output == o.error(400))
      && (result == TooLarge ==> v.clients[fd].output == o.error(413))
      && (result == VersionNotSupported ==> v.clients[fd].output == o.error(505))
      && (v.down <==> w.down || result == Crashed || result == Stuck)
  {
    var c := w.clients[fd];
    ReadSettles(w, fd, o, result);
    SettleFollows(w, c.(input := c.input + o.recv.bytes, touched := o.now), result, o);
  }

  // ---------------------------------------------------------- going down

  /** A connection that is waiting for its request has something to read, and
      nothing else is reported of it. */
  predicate ReadsAt(w: Web, i: nat)
    requires i < |w.pollfds|
  {
    var p := w.pollfds[i];
    && !IsListener(w, p.fd) && p.fd !in w.outputOwners && p.fd !in w.inputOwners && p.fd in w.clients
    && p.revents.readable && !p.revents.error && !p.revents.hangup && !p.revents.invalid
  }

  lemma DropsStayUp(w: Web, fd: int)
    requires fd in w.clients
    ensures DropInput(w, fd).down == w.down && DropOutput(w, fd).down == w.down
    ensures fd in DropInput(w, fd).clients && fd in DropOutput(w, fd).clients
  {
  }

  lemma CloseStaysUp(w: Web, fd: int, response: string, now: int)
    ensures Close(w, fd).down == w.down && Finish(w, fd, response, now).down == w.down
  {
    if fd in w.clients {
      DropsStayUp(w, fd);
      DropsStayUp(DropInput(w, fd), fd);
    }
  }

  lemma AcceptStaysUp(w: Web, config: ServerConfig, arrivals: seq<Arrival>, now: int)
    ensures AcceptUpTo(w, config, arrivals, now, |arrivals|).down == w.down
  {
    for n := 0 to |arrivals|
      invariant AcceptUpTo(w, config, arrivals, now, n).down == w.down
    {
    }
  }

  lemma ReadCgiStaysUp(w: Web, fd: int, o: Os)
    requires fd in w.clients && w.clients[fd].fd == fd
    ensures ReadCgi(w, fd, o).down == w.down
  {
    var c := w.clients[fd];
    DropsStayUp(w, fd);
    CloseStaysUp(DropOutput(w, fd), fd, CgiReply(c, o), o.now);
    if o.recv.Data? {
      var d := Heard(c, o.recv.bytes, o.now);
      CloseStaysUp(Refresh(w, d), fd, CgiReply(d, o), o.now);
    }
  }

  lemma WriteCgiStaysUp(w: Web, fd: int, o: Os)
    requires fd in w.clients && w.clients[fd].fd == fd
    requires o.count <= |w.clients[fd].cgiInput| - w.clients[fd].cgiWritten
    ensures WriteCgi(w, fd, o).down == w.down
  {
  }

  lemma SendStaysUp(w: Web, fd: int, o: Os)
    requires fd in w.clients && o.count <= |w.clients[fd].output| - w.clients[fd].sent
    ensures WriteClient(w, fd, o).down == w.down
  {
    var c := w.clients[fd];
    CloseStaysUp(w, fd, o.normal, o.now);
    if o.count > 0 { CloseStaysUp(Sent(w, c.(touched := o.now), o.count), fd, o.normal, o.now); }
  }

  lemma OutputEntryStaysUp(w: Web, i: nat, o: Os)
    requires i < |w.pollfds| && Tables(w) && LegalOs(w, i, o) && !IsListener(w, w.pollfds[i].fd)
    requires w.pollfds[i].fd in w.outputOwners
    ensures HandleEntry(w, i, o).down == w.down
  {
    var owner := w.outputOwners[w.pollfds[i].fd];
    OwnerIs(w, w.pollfds[i].fd);
    assert ClientOk(w.clients[owner], owner);
    CloseStaysUp(w, owner, o.normal, o.now);
    ReadCgiStaysUp(w, owner, o);
  }

  lemma InputEntryStaysUp(w: Web, i: nat, o: Os)
    requires i < |w.pollfds| && Tables(w) && LegalOs(w, i, o) && !IsListener(w, w.pollfds[i].fd)
    requires w.pollfds[i].fd !in w.outputOwners && w.pollfds[i].fd in w.inputOwners
    ensures HandleEntry(w, i, o).down == w.down
  {
    var owner := w.inputOwners[w.pollfds[i].fd];
    OwnerIs(w, w.pollfds[i].fd);
    assert ClientOk(w.clients[owner], owner);
    CloseStaysUp(w, owner, o.normal, o.now);
    WriteCgiStaysUp(w, owner, o);
  }

  lemma ConnectionDownIff(w: Web, i: nat, o: Os, result: ParseResult)
    requires i < |w.pollfds| && Tables(w) && LegalOs(w, i, o) && !IsListener(w, w.pollfds[i].fd) && !w.down
    requires w.pollfds[i].fd !in w.outputOwners && w.pollfds[i].fd !in w.inputOwners
    requires w.pollfds[i].fd in w.clients
    requires o.recv.Data? ==> result == VerdictOf(w.clients[w.pollfds[i].fd], o.recv.bytes)
    ensures HandleEntry(w, i, o).down <==> ReadsAt(w, i) && o.recv.Data? && (result == Crashed || result == Stuck)
  {
    var fd := w.pollfds[i].fd;
    assert ClientOk(w.clients[fd], fd);
    CloseStaysUp(w, fd, o.normal, o.now);
    SendStaysUp(w, fd, o);
    if o.recv.Data? { ReadFollowsVerdict(w, fd, o, result); }
  }

  /** The program goes down exactly when it reads a piece on which the parser
      throws or does not end. */
  lemma DownIff(w: Web, i: nat, o: Os)
    requires i < |w.pollfds| && Tables(w) && LegalOs(w, i, o) && !w.down
    ensures HandleEntry(w, i, o).down <==>
      ReadsAt(w, i) && o.recv.Data?
      && (var result := VerdictOf(w.clients[w.pollfds[i].fd], o.recv.bytes); result == Crashed || result == Stuck)
  {
    var fd := w.pollfds[i].fd;
    if IsListener(w, fd) {
      AcceptStaysUp(w, ListenerConfig(w, fd), o.arrivals, o.now);
    } else if fd in w.outputOwners {
      OutputEntryStaysUp(w, i, o);
    } else if fd in w.inputOwners {
      InputEntryStaysUp(w, i, o);
    } else {
      EntryIsClient(w, i);
      if o.recv.Data? {
        ConnectionDownIff(w, i, o, VerdictOf(w.clients[fd], o.recv.bytes));
      } else {
        ConnectionDownIff(w, i, o, Incomplete);
      }
    }
  }

  lemma VerdictNeedsWrap(seen: string, piece: string, maxBody: nat)
    returns (raw: string, payload: string, pos: nat)
    requires ReadOne(seen, piece, maxBody) in {Crashed, Stuck} && maxBody <= MAX_BODY
    ensures raw == seen + piece && HeadPresent(raw) && payload == raw[FindBlankLine(raw, 0) + 4..]
    ensures pos <= |payload| && WrapsLine(payload, pos)
  {
    raw := seen + piece;
    payload, pos := NoVerdictNeedsChunks(raw, maxBody);
  }

  /** It takes a chunked request with a size that wraps. */
  lemma DownNeedsWrap(w: Web, i: nat, o: Os) returns (raw: string, payload: string, pos: nat)
    requires i < |w.pollfds| && Tables(w) && LegalOs(w, i, o) && !w.down && HandleEntry(w, i, o).down
    requires forall fd :: fd in w.clients ==> w.clients[fd].config.maxBody <= MAX_BODY
    ensures ReadsAt(w, i) && o.recv.Data? && raw == w.clients[w.pollfds[i].fd].input + o.recv.bytes
    ensures HeadPresent(raw) && payload == raw[FindBlankLine(raw, 0) + 4..]
    ensures pos <= |payload| && WrapsLine(payload, pos)
  {
    DownIff(w, i, o);
    var c := w.clients[w.pollfds[i].fd];
    raw, payload, pos := VerdictNeedsWrap(c.input, o.recv.bytes, c.config.maxBody);
  }
}
