/** What a CGI script is given and what is made of what it writes. In every
    reachable state the output collected is the pieces read, in the order read;
    the bytes handed to the script are a prefix of the body of the request that
    started it; and the response given when it exits is made of that output
    (writeCgi, readCgi, finishCgi and reapCgi in apps/webserv/src/Server.cpp). */
module WebScripts {
  import opened Strings
  import opened Ordered
  import opened Limits
  import opened HttpRequest
  import opened Router
  import opened Descriptors
  import opened WebSteps
  import opened WebRuns

  /** The request received is accepted and has this body. */
  predicate Asked(input: string, maxBody: nat, body: string) {
    var result := Parse(input, maxBody);
    result.Accepted? && result.request.body == body
  }

  predicate ScriptOk(c: Client) {
    && c.cgiOutput == Concat(c.heard)
    && c.cgiWritten <= |c.cgiInput| && c.fed == c.cgiInput[..c.cgiWritten]
    && (c.cgiPid > 0 ==> Asked(c.input, c.config.maxBody, c.cgiInput))
  }

  ghost predicate ScriptsOk(w: Web) {
    forall fd {:trigger w.clients[fd]} {:trigger fd in w.clients} :: fd in w.clients ==> ScriptOk(w.clients[fd])
  }

  // ----------------------------------------------------- elementary changes

  /** Nothing about the script but that it may be over. */
  predicate SameScript(c: Client, d: Client) {
    && d.config == c.config && d.input == c.input && d.cgiInput == c.cgiInput && d.cgiWritten == c.cgiWritten
    && d.cgiOutput == c.cgiOutput && d.heard == c.heard && d.fed == c.fed
    && (d.cgiPid > 0 ==> c.cgiPid > 0)
  }

  lemma SameScriptOk(c: Client, d: Client)
    requires ScriptOk(c) && SameScript(c, d)
    ensures ScriptOk(d)
  {
  }

  /** One connection changed, or gone. */
  ghost predicate Changed(w: Web, v: Web, fd: int) {
    forall x {:trigger v.clients[x]} {:trigger x in v.clients} ::
      x in v.clients && x != fd ==> x in w.clients && v.clients[x] == w.clients[x]
  }

  lemma ChangedOk(w: Web, v: Web, fd: int)
    requires ScriptsOk(w) && Changed(w, v, fd) && (fd in v.clients ==> ScriptOk(v.clients[fd]))
    ensures ScriptsOk(v)
  {
  }

  lemma DropInputSame(w: Web, fd: int)
    requires fd in w.clients
    ensures var v := DropInput(w, fd);
      && v.clients.Keys == w.clients.Keys && Changed(w, v, fd)
      && SameScript(w.clients[fd], v.clients[fd]) && v.clients[fd].fd == w.clients[fd].fd
  {
  }

  lemma DropOutputSame(w: Web, fd: int)
    requires fd in w.clients
    ensures var v := DropOutput(w, fd);
      && v.clients.Keys == w.clients.Keys && Changed(w, v, fd)
      && SameScript(w.clients[fd], v.clients[fd]) && v.clients[fd].fd == w.clients[fd].fd
  {
  }

  lemma PipesSame(w: Web, fd: int)
    requires fd in w.clients
    ensures var v := DropOutput(DropInput(w, fd), fd);
      && v.clients.Keys == w.clients.Keys && Changed(w, v, fd)
      && SameScript(w.clients[fd], v.clients[fd]) && v.clients[fd].fd == w.clients[fd].fd
  {
    DropInputSame(w, fd);
    DropOutputSame(DropInput(w, fd), fd);
  }

  lemma ClosedScripts(w: Web, fd: int)
    requires ScriptsOk(w)
    ensures ScriptsOk(Close(w, fd))
  {
    if fd in w.clients {
      PipesSame(w, fd);
      ChangedOk(w, Close(w, fd), fd);
    }
  }

  /** The script over, the response given, nothing of it sent yet. */
  predicate Over(c: Client, d: Client, response: string, now: int) {
    SameScript(c, d) && d.fd == c.fd && d.output == response && d.sent == 0 && d.cgiPid <= 0 && d.touched == now
  }

  lemma FinishedSame(w: Web, fd: int, response: string, now: int)
    requires fd in w.clients && w.clients[fd].fd == fd
    ensures var v := Finish(w, fd, response, now);
      && v.clients.Keys == w.clients.Keys && Changed(w, v, fd) && Over(w.clients[fd], v.clients[fd], response, now)
  {
    PipesSame(w, fd);
  }

  lemma FinishedScripts(w: Web, fd: int, response: string, now: int)
    requires ScriptsOk(w) && (fd in w.clients ==> w.clients[fd].fd == fd)
    ensures ScriptsOk(Finish(w, fd, response, now))
  {
    if fd in w.clients {
      FinishedSame(w, fd, response, now);
      SameScriptOk(w.clients[fd], Finish(w, fd, response, now).clients[fd]);
      ChangedOk(w, Finish(w, fd, response, now), fd);
    }
  }

  lemma RefreshedScripts(w: Web, c: Client)
    requires ScriptsOk(w) && ScriptOk(c)
    ensures ScriptsOk(Refresh(w, c))
  {
    ChangedOk(w, Refresh(w, c), c.fd);
  }

  lemma AnsweredScripts(w: Web, c: Client, response: string)
    requires ScriptsOk(w) && ScriptOk(c)
    ensures ScriptsOk(Answer(w, c, response))
  {
    SameScriptOk(c, Answer(w, c, response).clients[c.fd]);
    ChangedOk(w, Answer(w, c, response), c.fd);
  }

  lemma LaunchedScripts(w: Web, c: Client, pid: int, inputFd: int, outputFd: int, body: string, timeout: nat)
    requires ScriptsOk(w) && Asked(c.input, c.config.maxBody, body)
    ensures ScriptsOk(Launch(w, c, pid, inputFd, outputFd, body, timeout))
  {
    var v := Launch(w, c, pid, inputFd, outputFd, body, timeout);
    assert body[..0] == "";
    ChangedOk(w, v, c.fd);
  }

  lemma SentScripts(w: Web, c: Client, n: nat)
    requires ScriptsOk(w) && ScriptOk(c) && c.sent + n <= |c.output|
    ensures ScriptsOk(Sent(w, c, n))
  {
    var v := Sent(w, c, n);
    SameScriptOk(c, v.clients[c.fd]);
    ChangedOk(w, v, c.fd);
  }

  lemma {:induction false} AcceptedScripts(w: Web, config: ServerConfig, arrivals: seq<Arrival>, now: int, n: nat)
    requires ScriptsOk(w) && n <= |arrivals|
    ensures ScriptsOk(AcceptUpTo(w, config, arrivals, now, n))
    decreases n
  {
    if n > 0 { AcceptedScripts(w, config, arrivals, now, n - 1); }
  }

  // ------------------------------------------------------------------ steps

  /** A piece read is collected behind the others. */
  lemma HeardOk(c: Client, bytes: string, now: int)
    requires ScriptOk(c)
    ensures ScriptOk(Heard(c, bytes, now))
  {
    ConcatLast(c.heard, bytes);
  }

  /** What the script takes is the next part of the body. */
  lemma FedOk(c: Client, n: nat, now: int)
    requires ScriptOk(c) && c.cgiWritten + n <= |c.cgiInput|
    ensures ScriptOk(Fed(c, n, now))
  {
    assert c.cgiInput[..c.cgiWritten] + c.cgiInput[c.cgiWritten..c.cgiWritten + n] == c.cgiInput[..c.cgiWritten + n];
  }

  lemma ReadCgiScripts(w: Web, fd: int, o: Os)
    requires ScriptsOk(w) && fd in w.clients && w.clients[fd].fd == fd
    ensures ScriptsOk(ReadCgi(w, fd, o))
  {
    var c := w.clients[fd];
    match o.recv {
      case WouldBlock =>
      case Data(bytes) =>
        var d := Heard(c, bytes, o.now);
        HeardOk(c, bytes, o.now);
        RefreshedScripts(w, d);
        FinishedScripts(Refresh(w, d), fd, CgiReply(d, o), o.now);
      case Ended =>
        var v := DropOutput(w, fd);
        DropOutputSame(w, fd);
        SameScriptOk(c, v.clients[fd]);
        ChangedOk(w, v, fd);
        FinishedScripts(v, fd, CgiReply(c, o), o.now);
    }
  }

  lemma WriteCgiScripts(w: Web, fd: int, o: Os)
    requires ScriptsOk(w) && fd in w.clients && w.clients[fd].fd == fd
    requires o.count <= |w.clients[fd].cgiInput| - w.clients[fd].cgiWritten
    ensures ScriptsOk(WriteCgi(w, fd, o))
  {
    var c := w.clients[fd];
    if o.count > 0 { FedOk(c, o.count, o.now); }
    var d := if o.count > 0 then Fed(c, o.count, o.now) else c;
    var v := Refresh(w, d);
    RefreshedScripts(w, d);
    DropInputSame(v, fd);
    SameScriptOk(d, DropInput(v, fd).clients[fd]);
    ChangedOk(v, DropInput(v, fd), fd);
  }

  lemma WriteClientScripts(w: Web, fd: int, o: Os)
    requires ScriptsOk(w) && fd in w.clients && o.count <= |w.clients[fd].output| - w.clients[fd].sent
    ensures ScriptsOk(WriteClient(w, fd, o))
  {
    var c := w.clients[fd];
    ClosedScripts(w, fd);
    if o.count > 0 {
      var d := c.(touched := o.now);
      SameScriptOk(c, d);
      SentScripts(w, d, o.count);
      ClosedScripts(Sent(w, d, o.count), fd);
    }
  }

  lemma SettledScripts(w: Web, c: Client, result: ParseResult, o: Os)
    requires ScriptsOk(w) && ScriptOk(c)
    requires result.Accepted? ==> Asked(c.input, c.config.maxBody, result.request.body)
    ensures ScriptsOk(Settle(w, c, result, o))
  {
    RefreshedScripts(w, c);
    if result.Accepted? && !o.cgi.NotCgi? {
      StartedScripts(w, c, result.request.body, o);
    } else {
      AnsweredScripts(w, c, ReplyTo(result, o));
    }
  }

  lemma StartLaunches(w: Web, c: Client, body: string, o: Os)
    requires |Running(w)| < MAX_CGI_PROCESSES && o.cgi.Started?
    ensures StartCgi(w, c, body, o)
         == Launch(w, c.(touched := o.now), o.cgi.pid, o.cgi.inputFd, o.cgi.outputFd, body, o.cgi.timeout)
  {
  }

  lemma StartRefuses(w: Web, c: Client, body: string, o: Os) returns (response: string)
    requires !o.cgi.NotCgi? && (|Running(w)| >= MAX_CGI_PROCESSES || !o.cgi.Started?)
    ensures StartCgi(w, c, body, o) == Answer(w, c, response)
  {
    response := if |Running(w)| >= MAX_CGI_PROCESSES then o.error(503)
                else if o.cgi.NoScript? then o.error(o.cgi.status) else o.error(500);
  }

  lemma StartedScripts(w: Web, c: Client, body: string, o: Os)
    requires ScriptsOk(w) && ScriptOk(c) && Asked(c.input, c.config.maxBody, body) && !o.cgi.NotCgi?
    ensures ScriptsOk(StartCgi(w, c, body, o))
  {
    if |Running(w)| < MAX_CGI_PROCESSES && o.cgi.Started? {
      StartLaunches(w, c, body, o);
      LaunchedScripts(w, c.(touched := o.now), o.cgi.pid, o.cgi.inputFd, o.cgi.outputFd, body, o.cgi.timeout);
    } else {
      var response := StartRefuses(w, c, body, o);
      AnsweredScripts(w, c, response);
    }
  }

  lemma ReadClientScripts(w: Web, fd: int, o: Os)
    requires ScriptsOk(w) && fd in w.clients && w.clients[fd].cgiPid <= 0
    ensures ScriptsOk(ReadClient(w, fd, o))
  {
    var c := w.clients[fd];
    match o.recv {
      case WouldBlock =>
      case Ended => ClosedScripts(w, fd);
      case Data(bytes) =>
        AnsweredScripts(w, c, o.error(413));
        var d := c.(input := c.input + bytes, touched := o.now);
        SettledScripts(w, d, Parse(d.input, d.config.maxBody), o);
    }
  }

  /** Handling one entry keeps what is said of every script. */
  lemma HandledScripts(w: Web, i: nat, o: Os)
    requires i < |w.pollfds| && Tables(w) && LegalOs(w, i, o) && ScriptsOk(w)
    requires Expected(w, w.pollfds[i].fd, w.pollfds[i].revents)
    ensures ScriptsOk(HandleEntry(w, i, o))
  {
    var fd := w.pollfds[i].fd;
    OwnerIs(w, fd);
    if IsListener(w, fd) {
      AcceptedScripts(w, ListenerConfig(w, fd), o.arrivals, o.now, |o.arrivals|);
    } else if fd in w.outputOwners {
      assert ClientOk(w.clients[w.outputOwners[fd]], w.outputOwners[fd]);
      ReadCgiScripts(w, w.outputOwners[fd], o);
      ClosedScripts(w, w.outputOwners[fd]);
    } else if fd in w.inputOwners {
      assert ClientOk(w.clients[w.inputOwners[fd]], w.inputOwners[fd]);
      WriteCgiScripts(w, w.inputOwners[fd], o);
      ClosedScripts(w, w.inputOwners[fd]);
    } else {
      EntryIsClient(w, i);
      ClosedScripts(w, fd);
      WriteClientScripts(w, fd, o);
      if w.pollfds[i].revents.readable { ReadClientScripts(w, fd, o); }
    }
  }

  // ------------------------------------------------------------- whole runs

  lemma EntryScripts(w: Web, i: nat, handled: set<int>, o: Os)
    requires PassOk(w, i, handled) && i < |w.pollfds| && !w.pollfds[i].revents.Silent() && LegalOs(w, i, o)
    requires ScriptsOk(w)
    ensures var fd, v := w.pollfds[i].fd, HandleEntry(w, i, o);
      PassOk(v, NextIndex(v, i, fd), handled + {fd}) && ScriptsOk(v)
  {
    EntryReported(w, i);
    EntryHandled(w, i, handled, o);
    HandledScripts(w, i, o);
  }

  lemma {:induction false} PassScripts(w: Web, i: nat, handled: set<int>, ready: nat, os: seq<Os>) returns (u: Web)
    requires PassOk(w, i, handled) && ScriptsOk(w)
    ensures u == PassFrom(w, i, handled, ready, os) && ScriptsOk(u)
    decreases ready, |w.pollfds| - i
  {
    if Skips(w, i, ready) {
      SkipOk(w, i, handled);
      u := PassScripts(w, i + 1, handled, ready, os);
    } else if Meets(w, i, ready, os) {
      EntryScripts(w, i, handled, os[0]);
      var v := HandleEntry(w, i, os[0]);
      u := PassScripts(v, NextIndex(v, i, w.pollfds[i].fd), handled + {w.pollfds[i].fd}, ready - 1, os[1..]);
    } else {
      u := w;
    }
  }

  // --------------------------------------------------- exited CGIs collected

  predicate InPlace(w: Web, fd: int) { fd in w.clients ==> w.clients[fd].fd == fd }

  /** What finishing the first n of a list makes of connection x. */
  ghost predicate ReapedSo(w: Web, v: Web, x: int, done: bool, t: Turn) {
    && v.clients.Keys == w.clients.Keys
    && (x in w.clients ==>
          if done then Over(w.clients[x], v.clients[x], ReapReply(w, x, t), t.now) else v.clients[x] == w.clients[x])
  }

  lemma ReapedNext(w: Web, v: Web, fd: int, x: int, done: bool, t: Turn)
    requires ReapedSo(w, v, x, done, t) && ReapedSo(w, v, fd, false, t) && fd in w.clients && InPlace(w, fd)
    requires !done || x != fd
    ensures ReapedSo(w, Finish(v, fd, ReapReply(v, fd, t), t.now), x, done || x == fd, t)
  {
    FinishedSame(v, fd, ReapReply(v, fd, t), t.now);
  }

  lemma TakenOne<T>(xs: seq<T>, n: nat, x: T)
    requires n < |xs|
    ensures x in xs[..n + 1] <==> x in xs[..n] || x == xs[n]
  {
    assert xs[..n + 1] == xs[..n] + [xs[n]];
  }

  lemma NotBefore(fds: seq<int>, n: nat)
    requires NoRepeats(fds) && n < |fds|
    ensures fds[n] !in fds[..n]
  {
  }

  lemma ReapedMore(w: Web, v: Web, fds: seq<int>, n: nat, m: nat, t: Turn)
    requires NoRepeats(fds) && n < |fds| && m == n + 1 && fds[n] in w.clients && InPlace(w, fds[n])
    requires forall x :: ReapedSo(w, v, x, x in fds[..n], t)
    ensures forall x :: ReapedSo(w, Finish(v, fds[n], ReapReply(v, fds[n], t), t.now), x, x in fds[..m], t)
  {
    var fd := fds[n];
    NotBefore(fds, n);
    assert ReapedSo(w, v, fd, fd in fds[..n], t);
    var u := Finish(v, fd, ReapReply(v, fd, t), t.now);
    forall x ensures ReapedSo(w, u, x, x in fds[..m], t) {
      TakenOne(fds, n, x);
      assert ReapedSo(w, v, x, x in fds[..n], t);
      ReapedNext(w, v, fd, x, x in fds[..n], t);
    }
  }

  lemma {:induction false} ReapedUpTo(w: Web, fds: seq<int>, t: Turn, n: nat) returns (v: Web)
    requires NoRepeats(fds) && n <= |fds| && forall fd :: fd in fds ==> fd in w.clients && InPlace(w, fd)
    ensures v == FinishUpTo(w, fds, t, n) && forall x :: ReapedSo(w, v, x, x in fds[..n], t)
    decreases n
  {
    v := w;
    if n > 0 {
      v := ReapedUpTo(w, fds, t, n - 1);
      FinishUpToNext(w, fds, t, n - 1, v);
      ReapedMore(w, v, fds, n - 1, n, t);
      v := Finish(v, fds[n - 1], ReapReply(v, fds[n - 1], t), t.now);
    }
  }

  lemma ReapListIs(w: Web, t: Turn, x: int)
    requires Tables(w)
    ensures x in ReapList(w, t.exited) <==> Reapable(w, x, t.exited)
    ensures NoRepeats(ReapList(w, t.exited))
  {
    var keep := set fd | fd in w.clients && Reapable(w, fd, t.exited);
    AscendingEnumerates(w.clients.Keys);
    AscendingOnce(w.clients.Keys);
    FilterIn(Ascending(w.clients.Keys), keep, x);
    FilterOnce(Ascending(w.clients.Keys), keep);
  }

  /** Collecting exited CGIs answers exactly the connections whose script's
      output is at its end and whose script has exited: with the response made
      of the pieces read, if it exited with status 0, and else with 500. */
  lemma ReapAnswers(w: Web, t: Turn, fd: int)
    requires Tables(w) && ScriptsOk(w) && fd in w.clients
    ensures var c, v := w.clients[fd], Reap(w, t);
      && fd in v.clients
      && if c.cgiPid > 0 && c.cgiOutputFd < 0 && fd in t.exited then
           && v.clients[fd].cgiPid <= 0 && v.clients[fd].sent == 0 && v.clients[fd].touched == t.now
           && v.clients[fd].output == if t.exited[fd] then t.script(c.config, Concat(c.heard)) else t.error(500)
         else v.clients[fd] == c
  {
    var fds := ReapList(w, t.exited);
    forall x ensures x in fds <==> Reapable(w, x, t.exited) { ReapListIs(w, t, x); }
    ReapListIs(w, t, fd);
    forall x | x in fds ensures x in w.clients && InPlace(w, x) { assert ClientOk(w.clients[x], x); }
    var v := ReapedUpTo(w, fds, t, |fds|);
    assert fds[..|fds|] == fds;
    assert ReapedSo(w, v, fd, fd in fds[..|fds|], t);
    assert ScriptOk(w.clients[fd]);
  }

  lemma ReapedScripts(w: Web, t: Turn)
    requires Tables(w) && ScriptsOk(w)
    ensures ScriptsOk(Reap(w, t))
  {
    var fds := ReapList(w, t.exited);
    forall x ensures x in fds <==> Reapable(w, x, t.exited) { ReapListIs(w, t, x); }
    ReapListIs(w, t, 0);
    forall x | x in fds ensures x in w.clients && InPlace(w, x) { assert ClientOk(w.clients[x], x); }
    var v := ReapedUpTo(w, fds, t, |fds|);
    forall fd | fd in v.clients ensures ScriptOk(v.clients[fd]) {
      assert ReapedSo(w, v, fd, fd in fds[..|fds|], t);
      if v.clients[fd] != w.clients[fd] { SameScriptOk(w.clients[fd], v.clients[fd]); }
    }
  }

  /** The end of a script's output. If waitpid finds the script exited there and
      then, the response is made of the pieces read, or is 500. */
  lemma EndAnswers(w: Web, fd: int, o: Os)
    requires Tables(w) && ScriptsOk(w) && fd in w.clients && o.recv.Ended? && o.exited
    ensures var c, v := w.clients[fd], ReadCgi(w, fd, o);
      && fd in v.clients && v.clients[fd].cgiPid <= 0 && v.clients[fd].sent == 0 && v.clients[fd].touched == o.now
      && v.clients[fd].output == if o.success then o.script(c.config, Concat(c.heard)) else o.error(500)
  {
    assert ClientOk(w.clients[fd], fd) && ScriptOk(w.clients[fd]);
    DropOutputSame(w, fd);
    FinishedSame(DropOutput(w, fd), fd, CgiReply(w.clients[fd], o), o.now);
  }

  lemma PieceHeard(w: Web, fd: int, o: Os, d: Client)
    requires fd in w.clients && w.clients[fd].fd == fd && o.recv.Data? && d == Heard(w.clients[fd], o.recv.bytes, o.now)
    ensures var v := ReadCgi(w, fd, o);
      && fd in v.clients
      && if |d.cgiOutput| > MAX_CGI_OUTPUT then Over(d, v.clients[fd], CgiReply(d, o), o.now) else v.clients[fd] == d
  {
    FinishedSame(Refresh(w, d), fd, CgiReply(d, o), o.now);
  }

  /** A piece read from a script. A script that has written more than 16 MiB is
      stopped, its last piece counted; any other goes on. */
  lemma PieceAnswers(w: Web, fd: int, o: Os)
    requires Tables(w) && ScriptsOk(w) && fd in w.clients && o.recv.Data?
    ensures var c, v := w.clients[fd], ReadCgi(w, fd, o);
      var heard := c.heard + [o.recv.bytes];
      && fd in v.clients && v.clients[fd].heard == heard && v.clients[fd].touched == o.now
      && if |Concat(heard)| > 16 * 1024 * 1024 then
           && v.clients[fd].cgiPid <= 0 && v.clients[fd].sent == 0
           && v.clients[fd].output == if o.success then o.script(c.config, Concat(heard)) else o.error(500)
         else v.clients[fd].cgiPid == c.cgiPid && v.clients[fd].output == c.output
  {
    var c := w.clients[fd];
    assert ClientOk(c, fd) && ScriptOk(c);
    var d := Heard(c, o.recv.bytes, o.now);
    HeardOk(c, o.recv.bytes, o.now);
    PieceHeard(w, fd, o, d);
  }

  // ------------------------------------------------------------- whole runs

  lemma ExpiredOneScripts(w: Web, fd: int, error: int -> string, now: int)
    requires ScriptsOk(w) && InPlace(w, fd)
    ensures ScriptsOk(ExpireOne(w, fd, error, now))
  {
    if fd in w.clients {
      var c := w.clients[fd].(touched := now);
      FinishedScripts(w, fd, error(504), now);
      SameScriptOk(w.clients[fd], c);
      AnsweredScripts(w, c, error(408));
      ClosedScripts(w, fd);
    }
  }

  lemma ExpiredScripts(w: Web, error: int -> string, now: int)
    requires Tables(w) && ScriptsOk(w) && forall status :: error(status) != ""
    ensures ScriptsOk(Expire(w, error, now))
  {
    var fds := StaleList(w, now);
    var v := w;
    for n := 0 to |fds|
      invariant v == ExpireUpTo(w, fds, error, now, n) && Tables(v) && ScriptsOk(v)
    {
      if fds[n] in v.clients { assert ClientOk(v.clients[fds[n]], fds[n]); }
      ExpireOneKeeps(v, fds[n], error, now);
      ExpiredOneScripts(v, fds[n], error, now);
      v := ExpireOne(v, fds[n], error, now);
    }
  }

  lemma TurnScripts(w: Web, t: Turn)
    requires Tables(w) && LegalTurn(w, t) && ScriptsOk(w)
    ensures ScriptsOk(TakeTurn(w, t))
  {
    if !w.down {
      PassBegins(w, t.reports);
      var scanned := PassScripts(Polled(w, t.reports), 0, {}, t.ready, t.os);
      PassFromKeeps(Polled(w, t.reports), 0, {}, t.ready, t.os);
      if !scanned.down {
        ReapKeeps(scanned, t);
        ReapedScripts(scanned, t);
        ExpiredScripts(Reap(scanned, t), t.error, t.now);
      }
    }
  }

  lemma {:induction false} RunScripts(w: Web, turns: seq<Turn>)
    requires Tables(w) && LegalTurns(w, turns) && ScriptsOk(w)
    ensures ScriptsOk(RunTurns(w, turns))
    decreases |turns|
  {
    if turns != [] {
      TurnKeeps(w, turns[0]);
      TurnScripts(w, turns[0]);
      RunScripts(TakeTurn(w, turns[0]), turns[1..]);
    }
  }

  /** Conservation towards the scripts. In every reachable state of the server,
      for every connection: the output collected is the pieces read since the
      script was started, in their order; the bytes the script was handed are the
      first of its input; and while it runs, its input is the body of the
      request received on that connection, which is an accepted one. */
  lemma ScriptsConserved(listeners: seq<Listener>, turns: seq<Turn>, fd: int)
    requires forall i, j :: 0 <= i < j < |listeners| ==> listeners[i].fd != listeners[j].fd
    requires (OpenedTables(listeners); LegalTurns(Opened(listeners), turns))
    ensures var v := (OpenedTables(listeners); RunTurns(Opened(listeners), turns));
      fd in v.clients ==>
        var c := v.clients[fd];
        && c.cgiOutput == Concat(c.heard)
        && c.cgiWritten <= |c.cgiInput| && c.fed == c.cgiInput[..c.cgiWritten]
        && (c.cgiPid > 0 ==>
              var result := Parse(c.input, c.config.maxBody);
              result.Accepted? && result.request.body == c.cgiInput)
  {
    OpenedTables(listeners);
    RunScripts(Opened(listeners), turns);
    var v := RunTurns(Opened(listeners), turns);
    if fd in v.clients { assert ScriptOk(v.clients[fd]); }
  }
}
