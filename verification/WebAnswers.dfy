/** What the web server answers: a connection accepted, a request refused,
    handed to a script or complete, and a connection that has been silent for too long
    (acceptClient, readClient, startCgi and expireClients in apps/webserv/src/Server.cpp). */
module WebAnswers {
  import opened Ordered
  import opened Limits
  import opened HttpRequest
  import opened Router
  import opened Descriptors
  import opened WebSteps
  import opened WebRuns
  import opened WebScripts

  // ---------------------------------------------------------- a new connection

  /** A connection just accepted: nothing received, nothing to send, no script,
      30 seconds to begin. */
  predicate JustCome(c: Client, fd: int, config: ServerConfig, now: int) {
    && c.fd == fd && c.config == config && c.input == "" && c.output == "" && c.sent == 0
    && c.cgiPid == -1 && c.cgiInputFd == -1 && c.cgiOutputFd == -1
    && c.touched == now && c.timeoutSeconds == 30
  }

  /** Of the connections accept gives, each is admitted, at the end of the poll
      list and waiting for input, exactly while there are fewer than 128 and it
      can be made non-blocking. */
  lemma AcceptAnswers(w: Web, config: ServerConfig, arrivals: seq<Arrival>, now: int, n: nat)
    requires n < |arrivals|
    ensures var v, u := AcceptUpTo(w, config, arrivals, now, n), AcceptUpTo(w, config, arrivals, now, n + 1);
      var fd := arrivals[n].fd;
      if |v.clients.Keys| < 128 && arrivals[n].ok then
        && fd in u.clients && JustCome(u.clients[fd], fd, config, now) && u.clients[fd].serial == v.accepted
        && u.clients == v.clients[fd := u.clients[fd]] && u.accepted == v.accepted + 1
        && u.pollfds == v.pollfds + [PollFd(fd, Reading, SILENT)]
      else u == v
  {
    var v := AcceptUpTo(w, config, arrivals, now, n);
    assert AcceptUpTo(w, config, arrivals, now, n + 1) == AcceptOne(v, config, arrivals[n], now);
  }

  // --------------------------------------------------------- a piece received

  /** The connection has its response and waits to send it. */
  predicate Answered(c: Client, d: Client, response: string, now: int) {
    d.output == response && d.sent == 0 && d.cgiPid <= 0 && d.input == c.input && d.touched == now
  }

  /** The status a verdict is refused with. */
  predicate RefusedWith(result: ParseResult, status: int) {
    || (result.TooLarge? && status == 413)
    || (result.VersionNotSupported? && status == 505)
    || (result.Bad? && status == 400)
  }

  /** How many CGIs run. */
  ghost function ScriptCount(w: Web): nat { |set fd | fd in w.clients && w.clients[fd].cgiPid > 0| }

  /** What the script of an accepted request comes to. */
  ghost predicate ScriptBegun(w: Web, c: Client, body: string, o: Os, d: Client) {
    if ScriptCount(w) >= 16 then Answered(c, d, o.error(503), c.touched)
    else
      match o.cgi
      case NotCgi => Answered(c, d, o.normal, c.touched)
      case NoScript(status) => Answered(c, d, o.error(status), c.touched)
      case StartFailed => Answered(c, d, o.error(500), c.touched)
      case Started(pid, inputFd, outputFd, timeout) =>
        && d.output == "" && d.cgiPid == pid && d.cgiOutputFd == outputFd
        && d.cgiInputFd == (if body == "" then -1 else inputFd)
        && d.cgiInput == body && d.cgiWritten == 0 && d.cgiOutput == "" && d.heard == [] && d.fed == ""
        && d.timeoutSeconds == timeout && d.touched == o.now
  }

  lemma StartAnswers(w: Web, c: Client, body: string, o: Os)
    requires !o.cgi.NotCgi? && c.output == "" && c.cgiPid <= 0 && c.sent == 0
    ensures var v := StartCgi(w, c, body, o);
      c.fd in v.clients && v.down == w.down && ScriptBegun(w, c, body, o, v.clients[c.fd])
  {
    assert ScriptCount(w) == |Running(w)|;
  }

  /** What becomes of a connection on a verdict. */
  ghost predicate Settled(w: Web, c: Client, result: ParseResult, o: Os, v: Web) {
    && c.fd in v.clients
    && (v.down <==> w.down || result.Crashed? || result.Stuck?)
    && (result.Incomplete? ==> v.clients[c.fd] == c)
    && (forall status :: RefusedWith(result, status) ==> Answered(c, v.clients[c.fd], o.error(status), c.touched))
    && (result.Accepted? && o.cgi.NotCgi? ==> Answered(c, v.clients[c.fd], o.normal, c.touched))
    && (result.Accepted? && !o.cgi.NotCgi? ==> ScriptBegun(w, c, result.request.body, o, v.clients[c.fd]))
  }

  lemma VerdictSettles(w: Web, c: Client, result: ParseResult, o: Os)
    requires c.output == "" && c.cgiPid <= 0 && c.sent == 0
    ensures Settled(w, c, result, o, Settle(w, c, result, o))
  {
    if result.Accepted? && !o.cgi.NotCgi? { StartAnswers(w, c, result.request.body, o); }
  }

  lemma ReadIs(w: Web, fd: int, o: Os, result: ParseResult)
    requires fd in w.clients && o.recv.Data?
    requires result == Parse(w.clients[fd].input + o.recv.bytes, w.clients[fd].config.maxBody)
    ensures var c := w.clients[fd];
      ReadClient(w, fd, o)
        == if |c.input| > RequestLimit(c.config.maxBody) - |o.recv.bytes| then Answer(w, c, o.error(413))
           else Settle(w, c.(input := c.input + o.recv.bytes, touched := o.now), result, o)
  {
  }

  /** A piece received on a connection that waits for its request: answered 413
      without being looked at when more than the limit would have arrived;
      otherwise looked at together with what came before, and kept, refused with
      the status of the verdict, handed to a script, or answered. */
  lemma ReadAnswers(w: Web, fd: int, o: Os, result: ParseResult)
    requires Tables(w) && fd in w.clients && InterestOf(w.clients[fd]) == Reading && o.recv.Data?
    requires result == Parse(w.clients[fd].input + o.recv.bytes, w.clients[fd].config.maxBody)
    ensures var c, v := w.clients[fd], ReadClient(w, fd, o);
      if |c.input + o.recv.bytes| > RequestLimit(c.config.maxBody) then
        fd in v.clients && v.down == w.down && Answered(c, v.clients[fd], o.error(413), c.touched)
      else Settled(w, c.(input := c.input + o.recv.bytes, touched := o.now), result, o, v)
  {
    var c := w.clients[fd];
    assert ClientOk(c, fd);
    ReadIs(w, fd, o, result);
    VerdictSettles(w, c.(input := c.input + o.recv.bytes, touched := o.now), result, o);
  }

  // ------------------------------------------------------- sending and feeding

  /** What send makes of a response: not ready, nothing; failed, closed; else the
      peer was sent that many bytes more, and the connection closes with the last. */
  lemma WriteAnswers(w: Web, fd: int, o: Os)
    requires Tables(w) && fd in w.clients && InterestOf(w.clients[fd]) == Writing
    requires o.count <= |w.clients[fd].output| - w.clients[fd].sent
    ensures var c, v := w.clients[fd], WriteClient(w, fd, o);
      if o.count < 0 && o.again then v == w
      else if o.count <= 0 then fd !in v.clients && v.wire == w.wire
      else
        && c.serial in w.wire && v.wire == w.wire[c.serial := w.wire[c.serial] + c.output[c.sent..c.sent + o.count]]
        && if c.sent + o.count == |c.output| then fd !in v.clients
           else fd in v.clients && v.clients[fd] == c.(sent := c.sent + o.count, touched := o.now)
  {
    var c := w.clients[fd];
    assert ClientOk(c, fd) && RecordOk(w, c);
    CloseWire(w, fd);
    if o.count > 0 { SentAnswers(w, c.(touched := o.now), o.count); }
  }

  lemma SentAnswers(w: Web, c: Client, n: nat)
    requires c.serial in w.wire && c.sent + n <= |c.output|
    ensures var v := Sent(w, c, n);
      && v.wire == w.wire[c.serial := w.wire[c.serial] + c.output[c.sent..c.sent + n]]
      && c.fd in v.clients && v.clients[c.fd] == c.(sent := c.sent + n)
      && Close(v, c.fd).wire == v.wire && c.fd !in Close(v, c.fd).clients
  {
    CloseWire(Sent(w, c, n), c.fd);
  }

  lemma CloseWire(w: Web, fd: int)
    ensures Close(w, fd).wire == w.wire && fd !in Close(w, fd).clients
  {
    if fd in w.clients { PipesWire(w, fd); }
  }

  lemma PipesWire(w: Web, fd: int)
    requires fd in w.clients
    ensures DropInput(w, fd).wire == w.wire && fd in DropInput(w, fd).clients
    ensures DropOutput(DropInput(w, fd), fd).wire == w.wire
  {
  }

  /** What write makes of a script's input: not ready, nothing; else that many
      bytes were handed over, and the pipe goes when it broke or took all. */
  lemma FeedAnswers(w: Web, fd: int, o: Os)
    requires Tables(w) && fd in w.clients && w.clients[fd].cgiInputFd >= 0
    requires o.count <= |w.clients[fd].cgiInput| - w.clients[fd].cgiWritten
    ensures var c, v := w.clients[fd], WriteCgi(w, fd, o);
      if o.count < 0 && o.again then v == w
      else
        var n := if o.count > 0 then o.count else 0;
        var over := o.count <= 0 || c.cgiWritten + n == |c.cgiInput|;
        && fd in v.clients
        && v.clients[fd] == c.(cgiWritten := c.cgiWritten + n, fed := v.clients[fd].fed,
                               touched := if n > 0 then o.now else c.touched,
                               cgiInputFd := if over then -1 else c.cgiInputFd)
        && v.clients[fd].fed == c.fed + c.cgiInput[c.cgiWritten..c.cgiWritten + n]
        && (over <==> c.cgiInputFd !in v.inputOwners)
  {
    var c := w.clients[fd];
    assert ClientOk(c, fd);
    assert Feeds(w, c.cgiInputFd, fd) && OwnsInput(w, c.cgiInputFd, fd);
  }

  // ------------------------------------------------------------- too long silent

  /** What expiry makes of a connection: 504 for a script still running, 408 for
      a request that does not come, no more for a response not taken. */
  predicate Expired(c: Client, v: Web, fd: int, error: int -> string, now: int) {
    if c.cgiPid > 0 then fd in v.clients && Answered(c, v.clients[fd], error(504), now)
    else if c.output == "" then fd in v.clients && Answered(c, v.clients[fd], error(408), now)
    else fd !in v.clients
  }

  ghost predicate ExpiredSo(w: Web, v: Web, x: int, done: bool, error: int -> string, now: int) {
    && (x !in w.clients ==> x !in v.clients)
    && (x in w.clients ==> if done then Expired(w.clients[x], v, x, error, now)
                           else x in v.clients && v.clients[x] == w.clients[x])
  }

  lemma ExpireIs(w: Web, fd: int, error: int -> string, now: int)
    requires fd in w.clients && w.clients[fd].fd == fd
    ensures var v := ExpireOne(w, fd, error, now);
      && Expired(w.clients[fd], v, fd, error, now)
      && forall x :: x != fd ==>
           (x in v.clients <==> x in w.clients) && (x in w.clients ==> v.clients[x] == w.clients[x])
  {
    FinishedSame(w, fd, error(504), now);
    PipesSame(w, fd);
  }

  lemma ExpiredNext(w: Web, v: Web, fds: seq<int>, n: nat, m: nat, error: int -> string, now: int)
    requires NoRepeats(fds) && n < |fds| && m == n + 1 && fds[n] in w.clients && w.clients[fds[n]].fd == fds[n]
    requires forall x :: ExpiredSo(w, v, x, x in fds[..n], error, now)
    ensures forall x :: ExpiredSo(w, ExpireOne(v, fds[n], error, now), x, x in fds[..m], error, now)
  {
    var fd := fds[n];
    NotBefore(fds, n);
    assert ExpiredSo(w, v, fd, fd in fds[..n], error, now);
    ExpireIs(v, fd, error, now);
    var u := ExpireOne(v, fd, error, now);
    forall x ensures ExpiredSo(w, u, x, x in fds[..m], error, now) {
      TakenOne(fds, n, x);
      assert ExpiredSo(w, v, x, x in fds[..n], error, now);
    }
  }

  lemma ExpireUpToNext(w: Web, fds: seq<int>, error: int -> string, now: int, n: nat, v: Web)
    requires n < |fds| && v == ExpireUpTo(w, fds, error, now, n)
    ensures ExpireUpTo(w, fds, error, now, n + 1) == ExpireOne(v, fds[n], error, now)
  {
  }

  lemma {:induction false} ExpiredUpTo(w: Web, fds: seq<int>, error: int -> string, now: int, n: nat)
    returns (v: Web)
    requires NoRepeats(fds) && n <= |fds| && forall fd :: fd in fds ==> fd in w.clients && InPlace(w, fd)
    ensures v == ExpireUpTo(w, fds, error, now, n) && forall x :: ExpiredSo(w, v, x, x in fds[..n], error, now)
    decreases n
  {
    v := w;
    if n > 0 {
      v := ExpiredUpTo(w, fds, error, now, n - 1);
      ExpireUpToNext(w, fds, error, now, n - 1, v);
      ExpiredNext(w, v, fds, n - 1, n, error, now);
      v := ExpireOne(v, fds[n - 1], error, now);
    }
  }

  /** Expiry deals with exactly the connections untouched for longer than their
      timeout, each as it stands. */
  lemma ExpireAnswers(w: Web, error: int -> string, now: int, fd: int)
    requires Tables(w) && fd in w.clients
    ensures var c, v := w.clients[fd], Expire(w, error, now);
      if now - c.touched > c.timeoutSeconds then Expired(c, v, fd, error, now)
      else fd in v.clients && v.clients[fd] == c
  {
    var fds := StaleList(w, now);
    forall x ensures x in fds <==> Stale(w, x, now) { StaleListIs(w, now, x); }
    StaleListIs(w, now, fd);
    forall x | x in fds ensures x in w.clients && InPlace(w, x) { assert ClientOk(w.clients[x], x); }
    assert ClientOk(w.clients[fd], fd);
    var v := ExpiredUpTo(w, fds, error, now, |fds|);
    assert fds[..|fds|] == fds;
    assert ExpiredSo(w, v, fd, fd in fds[..|fds|], error, now);
  }

  lemma StaleListIs(w: Web, now: int, x: int)
    ensures x in StaleList(w, now) <==> Stale(w, x, now)
    ensures NoRepeats(StaleList(w, now))
  {
    var keep := set fd | fd in w.clients && Stale(w, fd, now);
    AscendingEnumerates(w.clients.Keys);
    AscendingOnce(w.clients.Keys);
    FilterIn(Ascending(w.clients.Keys), keep, x);
    FilterOnce(Ascending(w.clients.Keys), keep);
  }
}
