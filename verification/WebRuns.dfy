/** Passes of the web server's loop and whole runs: the tables stay consistent,
    no reported entry is handled twice although entries are erased while the
    list is scanned, and each connection gets one response at most
    (run, reapCgi and expireClients in apps/webserv/src/Server.cpp). */
module WebRuns {
  import opened Ordered
  import opened Router
  import opened Descriptors
  import opened WebSteps

  // ------------------------------------------------------------- one entry

  /** The connection a descriptor works for. */
  function OwnerOf(w: Web, fd: int): int {
    if fd in w.outputOwners then w.outputOwners[fd]
    else if fd in w.inputOwners then w.inputOwners[fd]
    else if fd in w.clients then fd
    else -1
  }

  lemma ListenerIsNothingElse(w: Web, fd: int)
    requires PolledExactly(w) && IsListener(w, fd)
    ensures fd !in w.clients && fd !in w.inputOwners && fd !in w.outputOwners
  {
    var l :| l in w.listeners && l.fd == fd;
    assert fd in ListenerFds(w);
    assert Kinds(w, fd, fd in ListenerFds(w), fd in Fds(w.pollfds));
  }

  lemma HandleListener(w: Web, i: nat, fd: int, o: Os)
    requires Tables(w) && At(w, i, fd) && IsListener(w, fd) && LegalOs(w, i, o)
    ensures StepOk(w, AcceptUpTo(w, ListenerConfig(w, fd), o.arrivals, o.now, |o.arrivals|), i, fd, -1)
  {
    AcceptStep(w, ListenerConfig(w, fd), o.arrivals, o.now);
  }

  lemma HandleOutputPipe(w: Web, i: nat, fd: int, o: Os)
    requires Tables(w) && At(w, i, fd) && fd in w.outputOwners && o.Sound()
    ensures w.outputOwners[fd] in w.clients
    ensures var owner := w.outputOwners[fd];
      && StepOk(w, ReadCgi(w, owner, o), i, fd, owner)
      && StepOk(w, Close(w, owner), i, fd, owner)
      && StepOk(w, w, i, fd, owner)
  {
    var owner := w.outputOwners[fd];
    OwnerIs(w, fd);
    ReadCgiStep(w, fd, owner, o, i);
    CloseStep(w, i, fd, owner);
    NothingDone(w, i, fd, owner);
  }

  lemma HandleInputPipe(w: Web, i: nat, fd: int, o: Os)
    requires Tables(w) && At(w, i, fd) && fd in w.inputOwners && LegalCount(w, fd, o)
    ensures w.inputOwners[fd] in w.clients
    ensures var owner := w.inputOwners[fd];
      && o.count <= |w.clients[owner].cgiInput| - w.clients[owner].cgiWritten
      && StepOk(w, WriteCgi(w, owner, o), i, fd, owner)
      && StepOk(w, Close(w, owner), i, fd, owner)
  {
    var owner := w.inputOwners[fd];
    OwnerIs(w, fd);
    WriteCgiStep(w, fd, owner, o, i);
    CloseStep(w, i, fd, owner);
  }

  /** A connection's entry, with a report that fits what it waits for. */
  lemma HandleClient(w: Web, i: nat, fd: int, o: Os)
    requires Tables(w) && At(w, i, fd) && fd in w.clients && o.Sound() && LegalCgi(w, o.cgi) && LegalCount(w, fd, o)
    ensures StepOk(w, Close(w, fd), i, fd, fd) && StepOk(w, w, i, fd, fd)
    ensures InterestOf(w.clients[fd]) == Reading ==> StepOk(w, ReadClient(w, fd, o), i, fd, fd)
    ensures InterestOf(w.clients[fd]) == Writing ==> StepOk(w, WriteClient(w, fd, o), i, fd, fd)
  {
    assert ClientOk(w.clients[fd], fd);
    CloseStep(w, i, fd, fd);
    NothingDone(w, i, fd, fd);
    if InterestOf(w.clients[fd]) == Reading { ReadClientStep(w, fd, o, i); }
    if InterestOf(w.clients[fd]) == Writing { WriteClientStep(w, fd, o, i); }
  }

  /** Whatever was reported and whatever the system answers, handling one entry
      keeps the tables, changes no other connection, and deals with the entry. */
  lemma HandleStep(w: Web, i: nat, o: Os)
    requires i < |w.pollfds| && Tables(w) && LegalOs(w, i, o)
    requires Expected(w, w.pollfds[i].fd, w.pollfds[i].revents)
    ensures StepOk(w, HandleEntry(w, i, o), i, w.pollfds[i].fd, OwnerOf(w, w.pollfds[i].fd))
  {
    var fd := w.pollfds[i].fd;
    if IsListener(w, fd) {
      ListenerIsNothingElse(w, fd);
      HandleListener(w, i, fd, o);
      NothingDone(w, i, fd, -1);
    } else if fd in w.outputOwners {
      HandleOutputPipe(w, i, fd, o);
    } else if fd in w.inputOwners {
      HandleInputPipe(w, i, fd, o);
    } else {
      EntryIsClient(w, i);
      HandleClient(w, i, fd, o);
    }
  }

  // -------------------------------------------------------------- one pass

  /** In a pass: entries from i on that are still reported were not handled
      before, and their reports fit. */
  ghost predicate PassOk(w: Web, i: nat, handled: set<int>) {
    && Tables(w)
    && forall fd, r {:trigger Reported(w.pollfds, i, fd, r)} :: Reported(w.pollfds, i, fd, r) ==>
         fd !in handled && Expected(w, fd, r)
  }

  /** Where the scan goes on: past the entry if it is still in its place. */
  function NextIndex(v: Web, i: nat, fd: int): nat {
    if i < |v.pollfds| && v.pollfds[i].fd == fd then i + 1 else i
  }

  lemma EntryReported(w: Web, i: nat)
    requires i < |w.pollfds| && !w.pollfds[i].revents.Silent()
    ensures Reported(w.pollfds, i, w.pollfds[i].fd, w.pollfds[i].revents)
  {
  }

  lemma ReportedLater(p: seq<PollFd>, i: nat, j: nat, fd: int, r: Report)
    requires i <= j && Reported(p, j, fd, r)
    ensures Reported(p, i, fd, r)
  {
    var k :| j <= k < |p| && p[k].fd == fd && p[k].revents == r;
    assert p[k].fd == fd;
  }

  lemma SkipOk(w: Web, i: nat, handled: set<int>)
    requires PassOk(w, i, handled)
    ensures PassOk(w, i + 1, handled)
  {
    PassOkLater(w, i, i + 1, handled);
  }

  lemma PassOkLater(w: Web, i: nat, j: nat, handled: set<int>)
    requires PassOk(w, i, handled) && i <= j
    ensures PassOk(w, j, handled)
  {
    forall fd, r | Reported(w.pollfds, j, fd, r) ensures fd !in handled && Expected(w, fd, r) {
      ReportedLater(w.pollfds, i, j, fd, r);
    }
  }

  /** The owner of a pipe is muted. */
  lemma PipeOwnerMuted(w: Web, fd: int)
    requires Tables(w) && OwnerOf(w, fd) != fd && OwnerOf(w, fd) in w.clients
    ensures InterestOf(w.clients[OwnerOf(w, fd)]) == Muted
  {
    OwnerIs(w, fd);
    var owner := OwnerOf(w, fd);
    assert ClientOk(w.clients[owner], owner);
  }

  /** After an entry was handled, no report of it is left further on. */
  lemma NotAgain(v: Web, i: nat, fd: int, x: int, r: Report)
    requires Distinct(v.pollfds) && DealtWith(v, i, fd) && Reported(v.pollfds, NextIndex(v, i, fd), x, r)
    ensures x != fd && Reported(v.pollfds, i, x, r)
  {
    ReportedLater(v.pollfds, i, NextIndex(v, i, fd), x, r);
    ReportedLater(v.pollfds, 0, i, x, r);
  }

  lemma StillExpected(w: Web, v: Web, i: nat, fd: int, x: int, r: Report)
    requires Tables(w) && Tables(v) && OthersSame(w, v, OwnerOf(w, fd)) && x != fd
    requires Reported(w.pollfds, i, x, r) && Expected(w, x, r)
    ensures Expected(v, x, r)
  {
    var j :| i <= j < |w.pollfds| && w.pollfds[j].fd == x && w.pollfds[j].revents == r;
    assert w.pollfds[j] in w.pollfds;
    if x in v.clients && x == OwnerOf(w, fd) {
      assert ClientOk(v.clients[x], x);
      OwnerIs(w, fd);
      PipeOwnerMuted(w, fd);
    }
  }

  lemma PassStep(w: Web, v: Web, i: nat, handled: set<int>)
    requires PassOk(w, i, handled) && i < |w.pollfds| && !w.pollfds[i].revents.Silent()
    requires StepOk(w, v, i, w.pollfds[i].fd, OwnerOf(w, w.pollfds[i].fd))
    ensures w.pollfds[i].fd !in handled
    ensures PassOk(v, NextIndex(v, i, w.pollfds[i].fd), handled + {w.pollfds[i].fd})
  {
    var fd := w.pollfds[i].fd;
    EntryReported(w, i);
    forall x, r | Reported(v.pollfds, NextIndex(v, i, fd), x, r)
      ensures x !in handled + {fd} && Expected(v, x, r)
    {
      NotAgain(v, i, fd, x, r);
      assert Reported(w.pollfds, i, x, r);
      StillExpected(w, v, i, fd, x, r);
    }
  }

  /** One reported entry of a pass handled. */
  lemma EntryHandled(w: Web, i: nat, handled: set<int>, o: Os)
    requires PassOk(w, i, handled) && i < |w.pollfds| && !w.pollfds[i].revents.Silent()
    requires LegalOs(w, i, o)
    ensures var fd := w.pollfds[i].fd;
      var v := HandleEntry(w, i, o);
      fd !in handled && Keeps(w, v) && Shrinks(w.pollfds, v.pollfds)
      && PassOk(v, NextIndex(v, i, fd), handled + {fd})
  {
    EntryReported(w, i);
    HandleStep(w, i, o);
    PassStep(w, HandleEntry(w, i, o), i, handled);
  }

  /** The scan has something to handle at i, and a legal answer of the system to
      handle it with. */
  ghost predicate Meets(w: Web, i: nat, ready: nat, os: seq<Os>) {
    i < |w.pollfds| && ready > 0 && !w.down && !w.pollfds[i].revents.Silent() && os != [] && LegalOs(w, i, os[0])
  }

  ghost predicate Skips(w: Web, i: nat, ready: nat) {
    i < |w.pollfds| && ready > 0 && !w.down && w.pollfds[i].revents.Silent()
  }

  /** The answers of the system are legal where they are met. */
  ghost predicate LegalPass(w: Web, i: nat, handled: set<int>, ready: nat, os: seq<Os>)
    requires PassOk(w, i, handled)
    decreases ready, |w.pollfds| - i
  {
    if Skips(w, i, ready) then
      SkipOk(w, i, handled);
      LegalPass(w, i + 1, handled, ready, os)
    else if i < |w.pollfds| && ready > 0 && !w.down then
      Meets(w, i, ready, os)
      && (EntryHandled(w, i, handled, os[0]);
          var v := HandleEntry(w, i, os[0]);
          LegalPass(v, NextIndex(v, i, w.pollfds[i].fd), handled + {w.pollfds[i].fd}, ready - 1, os[1..]))
    else true
  }

  /** The scan of the poll list: `ready` reports at most, the index moving as
      the source moves it; it ends where the answers are not legal. */
  ghost function PassFrom(w: Web, i: nat, handled: set<int>, ready: nat, os: seq<Os>): Web
    requires PassOk(w, i, handled)
    decreases ready, |w.pollfds| - i
  {
    if Skips(w, i, ready) then
      SkipOk(w, i, handled);
      PassFrom(w, i + 1, handled, ready, os)
    else if Meets(w, i, ready, os) then
      EntryHandled(w, i, handled, os[0]);
      var v := HandleEntry(w, i, os[0]);
      PassFrom(v, NextIndex(v, i, w.pollfds[i].fd), handled + {w.pollfds[i].fd}, ready - 1, os[1..])
    else w
  }

  lemma {:induction false} PassThrough(w: Web, i: nat, handled: set<int>, ready: nat, os: seq<Os>) returns (u: Web)
    requires PassOk(w, i, handled)
    ensures u == PassFrom(w, i, handled, ready, os) && Tables(u) && Keeps(w, u)
    decreases ready, |w.pollfds| - i
  {
    if Skips(w, i, ready) {
      SkipOk(w, i, handled);
      u := PassThrough(w, i + 1, handled, ready, os);
    } else if Meets(w, i, ready, os) {
      EntryHandled(w, i, handled, os[0]);
      var v := HandleEntry(w, i, os[0]);
      u := PassThrough(v, NextIndex(v, i, w.pollfds[i].fd), handled + {w.pollfds[i].fd}, ready - 1, os[1..]);
      KeepsThen(w, v, u);
    } else {
      u := w;
    }
  }

  lemma PassFromKeeps(w: Web, i: nat, handled: set<int>, ready: nat, os: seq<Os>)
    requires PassOk(w, i, handled)
    ensures Tables(PassFrom(w, i, handled, ready, os)) && Keeps(w, PassFrom(w, i, handled, ready, os))
  {
    var u := PassThrough(w, i, handled, ready, os);
  }

  /** Reported by poll in this pass, at position i or further on. */
  ghost predicate ReportedFrom(w: Web, i: nat, fd: int) { exists r :: Reported(w.pollfds, i, fd, r) }

  predicate NoRepeats(fds: seq<int>) {
    forall a, b :: 0 <= a < b < |fds| ==> fds[a] != fds[b]
  }

  /** Each handled once, none of them before, all of them reported at i or further
      on. */
  ghost predicate OnceOk(w: Web, i: nat, handled: set<int>, fds: seq<int>, ready: nat) {
    NoRepeats(fds) && |fds| <= ready && forall fd :: fd in fds ==> fd !in handled && ReportedFrom(w, i, fd)
  }

  lemma FirstHandled(w: Web, v: Web, i: nat, next: nat, handled: set<int>, fd: int, rest: seq<int>, ready: nat)
    requires i < |w.pollfds| && !w.pollfds[i].revents.Silent() && fd == w.pollfds[i].fd && fd !in handled
    requires i <= next && Shrinks(w.pollfds, v.pollfds) && OnceOk(v, next, handled + {fd}, rest, ready)
    ensures OnceOk(w, i, handled, [fd] + rest, ready + 1)
  {
    EntryReported(w, i);
    forall j | 0 <= j < |rest| ensures rest[j] != fd { assert rest[j] in rest; }
    forall x | x in rest ensures ReportedFrom(w, i, x) {
      var r :| Reported(v.pollfds, next, x, r);
      ReportedLater(v.pollfds, i, next, x, r);
      assert Reported(w.pollfds, i, x, r);
    }
  }

  lemma LaterHandled(w: Web, i: nat, handled: set<int>, fds: seq<int>, ready: nat)
    requires OnceOk(w, i + 1, handled, fds, ready)
    ensures OnceOk(w, i, handled, fds, ready)
  {
    forall x | x in fds ensures ReportedFrom(w, i, x) {
      var r :| Reported(w.pollfds, i + 1, x, r);
      ReportedLater(w.pollfds, i, i + 1, x, r);
    }
  }

  /** The descriptors handled by the scan, in order. */
  ghost function HandledFrom(w: Web, i: nat, handled: set<int>, ready: nat, os: seq<Os>): (fds: seq<int>)
    requires PassOk(w, i, handled)
    ensures OnceOk(w, i, handled, fds, ready)
    decreases ready, |w.pollfds| - i
  {
    if Skips(w, i, ready) then
      SkipOk(w, i, handled);
      var fds := HandledFrom(w, i + 1, handled, ready, os);
      LaterHandled(w, i, handled, fds, ready);
      fds
    else if Meets(w, i, ready, os) then
      var fd := w.pollfds[i].fd;
      EntryHandled(w, i, handled, os[0]);
      var v := HandleEntry(w, i, os[0]);
      var rest := HandledFrom(v, NextIndex(v, i, fd), handled + {fd}, ready - 1, os[1..]);
      FirstHandled(w, v, i, NextIndex(v, i, fd), handled, fd, rest, ready - 1);
      [fd] + rest
    else []
  }

  // ------------------------------------------------------------ the reports

  /** poll reports input or output only where it was asked to watch for it;
      errors, hang-ups and bad descriptors it may always report. */
  predicate LegalReports(w: Web, reports: seq<Report>) {
    |reports| == |w.pollfds|
    && forall j {:trigger reports[j]} {:trigger w.pollfds[j]} :: 0 <= j < |reports| ==>
         (reports[j].readable ==> w.pollfds[j].events == Reading)
         && (reports[j].writable ==> w.pollfds[j].events == Writing)
  }

  function Polled(w: Web, reports: seq<Report>): Web
    requires |reports| == |w.pollfds|
  {
    w.(pollfds := seq(|w.pollfds|, j requires 0 <= j < |w.pollfds| => w.pollfds[j].(revents := reports[j])))
  }

  lemma PolledTables(w: Web, reports: seq<Report>)
    requires Tables(w) && |reports| == |w.pollfds|
    ensures Tables(Polled(w, reports))
  {
    var v := Polled(w, reports);
    assert ListenerFds(v) == ListenerFds(w) && Running(v) == Running(w);
    forall fd ensures Kinds(v, fd, fd in ListenerFds(v), fd in Fds(v.pollfds)) {
      PolledFds(w, reports, fd);
      assert Kinds(w, fd, fd in ListenerFds(w), fd in Fds(w.pollfds));
    }
    forall pipe, fd ensures OwnsInput(v, pipe, fd) <==> Feeds(v, pipe, fd) {
      assert OwnsInput(w, pipe, fd) <==> Feeds(w, pipe, fd);
    }
    forall pipe, fd ensures OwnsOutput(v, pipe, fd) <==> Drains(v, pipe, fd) {
      assert OwnsOutput(w, pipe, fd) <==> Drains(w, pipe, fd);
    }
    forall i | 0 <= i < |v.pollfds| ensures EntryOk(v, v.pollfds[i]) { assert EntryOk(w, w.pollfds[i]); }
    SameHistory(w, v);
  }

  lemma PolledFds(w: Web, reports: seq<Report>, fd: int)
    requires |reports| == |w.pollfds|
    ensures fd in Fds(Polled(w, reports).pollfds) <==> fd in Fds(w.pollfds)
  {
    var q := Polled(w, reports).pollfds;
    if fd in Fds(w.pollfds) {
      var i :| 0 <= i < |w.pollfds| && w.pollfds[i].fd == fd;
      assert q[i] in q;
    }
    if fd in Fds(q) {
      var i :| 0 <= i < |q| && q[i].fd == fd;
      assert w.pollfds[i] in w.pollfds;
    }
  }

  /** A pass may begin on what poll reported. */
  lemma PassBegins(w: Web, reports: seq<Report>)
    requires Tables(w) && LegalReports(w, reports)
    ensures PassOk(Polled(w, reports), 0, {})
  {
    PolledTables(w, reports);
    var v := Polled(w, reports);
    forall fd, r | Reported(v.pollfds, 0, fd, r) ensures Expected(v, fd, r) {
      var j :| 0 <= j < |v.pollfds| && v.pollfds[j].fd == fd && v.pollfds[j].revents == r;
      assert EntryOk(v, v.pollfds[j]);
      assert w.pollfds[j].fd == fd;
    }
  }

  /** No poll entry is handled twice in one pass, although handling one may
      erase entries before or after it, and only reported ones are handled, no
      more than poll announced. */
  lemma NoEntryTwice(w: Web, reports: seq<Report>, ready: nat, os: seq<Os>)
    requires Tables(w) && LegalReports(w, reports)
    ensures var fds := (PassBegins(w, reports); HandledFrom(Polled(w, reports), 0, {}, ready, os));
      && NoRepeats(fds) && |fds| <= ready
      && forall fd :: fd in fds ==> ReportedFrom(Polled(w, reports), 0, fd)
  {
    PassBegins(w, reports);
    assert OnceOk(Polled(w, reports), 0, {}, HandledFrom(Polled(w, reports), 0, {}, ready, os), ready);
  }

  // --------------------------------------------------- after the scan

  /** The connections whose CGI output is at its end and whose CGI waitpid
      found exited. */
  ghost predicate Reapable(w: Web, fd: int, exited: map<int, bool>) {
    fd in w.clients && w.clients[fd].cgiPid > 0 && w.clients[fd].cgiOutputFd < 0 && fd in exited
  }

  ghost predicate Stale(w: Web, fd: int, now: int) {
    fd in w.clients && now - w.clients[fd].touched > w.clients[fd].timeoutSeconds
  }

  /** The members of a list that satisfy a condition, in order. */
  function Filter(fds: seq<int>, keep: set<int>): seq<int> {
    if fds == [] then []
    else Filter(fds[..|fds| - 1], keep) + (if fds[|fds| - 1] in keep then [fds[|fds| - 1]] else [])
  }

  ghost function ReapList(w: Web, exited: map<int, bool>): seq<int> {
    Filter(Ascending(w.clients.Keys), set fd | fd in w.clients && Reapable(w, fd, exited))
  }

  ghost function StaleList(w: Web, now: int): seq<int> {
    Filter(Ascending(w.clients.Keys), set fd | fd in w.clients && Stale(w, fd, now))
  }

  /** The response of a connection whose CGI exited with the status collected. */
  function ReapReply(w: Web, fd: int, t: Turn): string {
    if fd in w.clients then FinalReply(w.clients[fd], fd in t.exited && t.exited[fd], t.script, t.error)
    else t.error(500)
  }

  ghost function FinishUpTo(w: Web, fds: seq<int>, t: Turn, n: nat): Web
    requires n <= |fds|
  {
    if n == 0 then w
    else
      var v := FinishUpTo(w, fds, t, n - 1);
      Finish(v, fds[n - 1], ReapReply(v, fds[n - 1], t), t.now)
  }

  /** An expired connection: a CGI is stopped and answered 504, a silent client
      answered 408, one that does not take its response closed. */
  function ExpireOne(w: Web, fd: int, error: int -> string, now: int): Web {
    if fd !in w.clients then w
    else if w.clients[fd].cgiPid > 0 then Finish(w, fd, error(504), now)
    else if w.clients[fd].output == "" then Answer(w, w.clients[fd].(touched := now), error(408))
    else Close(w, fd)
  }

  ghost function ExpireUpTo(w: Web, fds: seq<int>, error: int -> string, now: int, n: nat): Web
    requires n <= |fds|
  {
    if n == 0 then w else ExpireOne(ExpireUpTo(w, fds, error, now, n - 1), fds[n - 1], error, now)
  }

  lemma {:induction false} FilterIn(fds: seq<int>, keep: set<int>, x: int)
    ensures x in Filter(fds, keep) <==> x in fds && x in keep
  {
    if fds != [] {
      FilterIn(fds[..|fds| - 1], keep, x);
      assert fds == fds[..|fds| - 1] + [fds[|fds| - 1]];
    }
  }

  lemma {:induction false} FilterOnce(fds: seq<int>, keep: set<int>)
    requires NoRepeats(fds)
    ensures NoRepeats(Filter(fds, keep))
  {
    if fds != [] {
      FilterOnce(fds[..|fds| - 1], keep);
      FilterIn(fds[..|fds| - 1], keep, fds[|fds| - 1]);
    }
  }

  /** Still running its CGI, or gone. */
  predicate Unanswered(w: Web, fd: int) {
    fd in w.clients ==> w.clients[fd].output == ""
  }

  lemma FinishOne(w: Web, fd: int, response: string, now: int)
    requires Tables(w) && Unanswered(w, fd) && response != ""
    ensures var v := Finish(w, fd, response, now);
      Tables(v) && Keeps(w, v) && OthersKept(w, v, fd)
  {
    FinishKeeps(w, fd, response, now);
    if fd in w.clients { FinishMoves(w, fd, response, now); }
  }

  lemma UnansweredStays(w: Web, v: Web, fd: int, x: int)
    requires OthersKept(w, v, fd) && Unanswered(w, x) && x != fd
    ensures Unanswered(v, x)
  {
  }

  /** Tables kept, history kept, and the rest of the list still unanswered. */
  ghost predicate FinishedSoFar(w: Web, v: Web, fds: seq<int>, n: nat) {
    n <= |fds| && Tables(v) && Keeps(w, v) && forall j :: n <= j < |fds| ==> Unanswered(v, fds[j])
  }

  lemma FinishNext(w: Web, v: Web, fds: seq<int>, n: nat, response: string, now: int)
    requires FinishedSoFar(w, v, fds, n) && n < |fds| && NoRepeats(fds) && response != ""
    ensures FinishedSoFar(w, Finish(v, fds[n], response, now), fds, n + 1)
  {
    var u := Finish(v, fds[n], response, now);
    FinishOne(v, fds[n], response, now);
    KeepsThen(w, v, u);
    forall j | n + 1 <= j < |fds| ensures Unanswered(u, fds[j]) { UnansweredStays(v, u, fds[n], fds[j]); }
  }

  lemma ReapReplyIsText(w: Web, fd: int, t: Turn)
    requires t.Sound()
    ensures ReapReply(w, fd, t) != ""
  {
  }

  lemma FinishUpToNext(w: Web, fds: seq<int>, t: Turn, n: nat, v: Web)
    requires n < |fds| && v == FinishUpTo(w, fds, t, n)
    ensures FinishUpTo(w, fds, t, n + 1) == Finish(v, fds[n], ReapReply(v, fds[n], t), t.now)
  {
  }

  lemma FinishAllKeeps(w: Web, fds: seq<int>, t: Turn)
    requires FinishedSoFar(w, w, fds, 0) && NoRepeats(fds) && t.Sound()
    ensures var v := FinishUpTo(w, fds, t, |fds|);
      Tables(v) && Keeps(w, v)
  {
    var v := w;
    for n := 0 to |fds|
      invariant v == FinishUpTo(w, fds, t, n) && FinishedSoFar(w, v, fds, n)
    {
      var response := ReapReply(v, fds[n], t);
      ReapReplyIsText(v, fds[n], t);
      FinishNext(w, v, fds, n, response, t.now);
      FinishUpToNext(w, fds, t, n, v);
      v := Finish(v, fds[n], response, t.now);
    }
  }

  ghost function Reap(w: Web, t: Turn): Web {
    FinishUpTo(w, ReapList(w, t.exited), t, |ReapList(w, t.exited)|)
  }

  lemma AscendingOnce(s: set<int>)
    ensures NoRepeats(Ascending(s))
  {
    AscendingEnumerates(s);
  }

  lemma ReapKeeps(w: Web, t: Turn)
    requires Tables(w) && t.Sound()
    ensures Tables(Reap(w, t)) && Keeps(w, Reap(w, t))
  {
    var keep := set fd | fd in w.clients && Reapable(w, fd, t.exited);
    var fds := ReapList(w, t.exited);
    AscendingOnce(w.clients.Keys);
    FilterOnce(Ascending(w.clients.Keys), keep);
    forall j | 0 <= j < |fds| ensures Unanswered(w, fds[j]) {
      FilterIn(Ascending(w.clients.Keys), keep, fds[j]);
      assert ClientOk(w.clients[fds[j]], fds[j]);
    }
    FinishAllKeeps(w, fds, t);
  }

  lemma ExpireOneKeeps(w: Web, fd: int, error: int -> string, now: int)
    requires Tables(w) && forall status :: error(status) != ""
    ensures Tables(ExpireOne(w, fd, error, now)) && Keeps(w, ExpireOne(w, fd, error, now))
  {
    if fd in w.clients {
      var c := w.clients[fd];
      assert ClientOk(c, fd);
      if c.cgiPid > 0 {
        FinishOne(w, fd, error(504), now);
      } else if c.output == "" {
        AnswerKeeps(w, c.(touched := now), error(408));
        AnswerMoves(w, c.(touched := now), error(408));
      } else {
        CloseKeeps(w, fd);
        CloseMoves(w, fd, fd);
      }
    }
  }

  ghost function Expire(w: Web, error: int -> string, now: int): Web {
    ExpireUpTo(w, StaleList(w, now), error, now, |StaleList(w, now)|)
  }

  lemma ExpireKeeps(w: Web, error: int -> string, now: int)
    requires Tables(w) && forall status :: error(status) != ""
    ensures Tables(Expire(w, error, now)) && Keeps(w, Expire(w, error, now))
  {
    var fds := StaleList(w, now);
    var v := w;
    for n := 0 to |fds|
      invariant v == ExpireUpTo(w, fds, error, now, n) && Tables(v) && Keeps(w, v)
    {
      ExpireOneKeeps(v, fds[n], error, now);
      KeepsThen(w, v, ExpireOne(v, fds[n], error, now));
      v := ExpireOne(v, fds[n], error, now);
    }
  }

  // ------------------------------------------------------------ whole runs

  /** One turn of the loop in run; once the program is down nothing happens.
      `exited` holds the connections whose CGI waitpid finds exited, and whether
      with status 0. */
  datatype Turn = Turn(
    reports: seq<Report>,
    ready: nat,
    os: seq<Os>,
    exited: map<int, bool>,
    script: (ServerConfig, string) -> string,
    error: int -> string,
    now: int)
  {
    ghost predicate Sound() {
      (forall config, text :: script(config, text) != "") && forall status :: error(status) != ""
    }
  }

  ghost predicate LegalTurn(w: Web, t: Turn)
    requires Tables(w)
  {
    !w.down ==>
    && LegalReports(w, t.reports)
    && t.Sound()
    && (PassBegins(w, t.reports); LegalPass(Polled(w, t.reports), 0, {}, t.ready, t.os))
  }

  ghost function TakeTurn(w: Web, t: Turn): Web
    requires Tables(w) && LegalTurn(w, t)
  {
    if w.down then w
    else
      PassBegins(w, t.reports);
      var scanned := PassFrom(Polled(w, t.reports), 0, {}, t.ready, t.os);
      if scanned.down then scanned else Expire(Reap(scanned, t), t.error, t.now)
  }

  lemma ScannedKeeps(w: Web, t: Turn) returns (scanned: Web)
    requires Tables(w) && LegalTurn(w, t) && !w.down
    ensures (PassBegins(w, t.reports); scanned == PassFrom(Polled(w, t.reports), 0, {}, t.ready, t.os))
    ensures Tables(scanned) && Keeps(w, scanned)
  {
    PassBegins(w, t.reports);
    scanned := PassFrom(Polled(w, t.reports), 0, {}, t.ready, t.os);
    PassFromKeeps(Polled(w, t.reports), 0, {}, t.ready, t.os);
    KeepsThen(w, Polled(w, t.reports), scanned);
  }

  lemma TurnKeeps(w: Web, t: Turn)
    requires Tables(w) && LegalTurn(w, t)
    ensures Tables(TakeTurn(w, t)) && Keeps(w, TakeTurn(w, t))
  {
    if !w.down {
      var scanned := ScannedKeeps(w, t);
      var reaped := Reap(scanned, t);
      ReapKeeps(scanned, t);
      ExpireKeeps(reaped, t.error, t.now);
      KeepsThen(scanned, reaped, Expire(reaped, t.error, t.now));
      KeepsThen(w, scanned, Expire(reaped, t.error, t.now));
    }
  }

  ghost predicate LegalTurns(w: Web, turns: seq<Turn>)
    requires Tables(w)
    decreases |turns|
  {
    turns == [] || (LegalTurn(w, turns[0]) && (TurnKeeps(w, turns[0]); LegalTurns(TakeTurn(w, turns[0]), turns[1..])))
  }

  ghost function RunTurns(w: Web, turns: seq<Turn>): Web
    requires Tables(w) && LegalTurns(w, turns)
    decreases |turns|
  {
    if turns == [] then w
    else
      TurnKeeps(w, turns[0]);
      RunTurns(TakeTurn(w, turns[0]), turns[1..])
  }

  /** From any consistent state, whatever happens later, the tables stay
      consistent, a response once given stays the only one of its connection,
      and what each peer was sent only grows. */
  lemma {:induction false} RunKeeps(w: Web, turns: seq<Turn>)
    requires Tables(w) && LegalTurns(w, turns)
    ensures Tables(RunTurns(w, turns)) && Keeps(w, RunTurns(w, turns))
    decreases |turns|
  {
    if turns != [] {
      TurnKeeps(w, turns[0]);
      var v := TakeTurn(w, turns[0]);
      RunKeeps(v, turns[1..]);
      KeepsThen(w, v, RunTurns(v, turns[1..]));
    }
  }

  /** The server after openListeners. */
  function Opened(listeners: seq<Listener>): Web {
    Web(listeners, map[], map[], map[],
        seq(|listeners|, i requires 0 <= i < |listeners| => PollFd(listeners[i].fd, Reading, SILENT)),
        0, map[], map[], false)
  }

  lemma OpenedTables(listeners: seq<Listener>)
    requires forall i, j :: 0 <= i < j < |listeners| ==> listeners[i].fd != listeners[j].fd
    ensures Tables(Opened(listeners))
  {
    var w := Opened(listeners);
    forall fd ensures fd in Fds(w.pollfds) <==> fd in ListenerFds(w) {
      if fd in Fds(w.pollfds) {
        var i :| 0 <= i < |w.pollfds| && w.pollfds[i].fd == fd;
        assert listeners[i] in listeners;
      }
      if fd in ListenerFds(w) {
        var i :| 0 <= i < |listeners| && listeners[i].fd == fd;
        assert w.pollfds[i] in w.pollfds;
      }
    }
    assert Running(w) == {};
  }

  /** The peer was sent the first `sent` bytes of the output. */
  predicate SentSoFar(w: Web, c: Client) {
    c.serial in w.wire && c.sent <= |c.output| && w.wire[c.serial] == c.output[..c.sent]
  }

  /** At most one response per connection, over every run: what a connection
      has been sent is always a prefix of the one response it was given, two
      states of one run never show different responses for it, and a running
      CGI means no response yet and a muted poll entry. */
  lemma OneResponse(w: Web, turns: seq<Turn>, serial: nat)
    requires Tables(w) && LegalTurns(w, turns)
    ensures var v := RunTurns(w, turns);
      && (serial in w.responses ==> serial in v.responses && v.responses[serial] == w.responses[serial])
      && (serial in w.wire ==> serial in v.wire && w.wire[serial] <= v.wire[serial])
      && (serial in v.wire ==> v.wire[serial] <= if serial in v.responses then v.responses[serial] else "")
      && (forall fd :: fd in v.clients && v.clients[fd].serial == serial ==>
            (v.clients[fd].output != "" <==> serial in v.responses)
            && (v.clients[fd].cgiPid > 0 ==> v.clients[fd].output == "")
            && SentSoFar(v, v.clients[fd]))
  {
    RunKeeps(w, turns);
    var v := RunTurns(w, turns);
    if serial in v.wire { assert WireOk(v, serial); }
    forall fd | fd in v.clients && v.clients[fd].serial == serial
      ensures (v.clients[fd].output != "" <==> serial in v.responses)
        && (v.clients[fd].cgiPid > 0 ==> v.clients[fd].output == "")
        && SentSoFar(v, v.clients[fd])
    {
      assert ClientOk(v.clients[fd], fd) && RecordOk(v, v.clients[fd]);
    }
  }

  /** The bounds in every reachable state. */
  lemma WithinBounds(listeners: seq<Listener>, turns: seq<Turn>, fd: int)
    requires forall i, j :: 0 <= i < j < |listeners| ==> listeners[i].fd != listeners[j].fd
    requires (OpenedTables(listeners); LegalTurns(Opened(listeners), turns))
    ensures var v := (OpenedTables(listeners); RunTurns(Opened(listeners), turns));
      && Tables(v)
      && |v.clients.Keys| <= 128 && |Running(v)| <= 16
      && (fd in v.clients ==>
            && |v.clients[fd].input| <= v.clients[fd].config.maxBody + 65536
            && |v.clients[fd].cgiOutput| <= 16 * 1024 * 1024 + 16384
            && (v.clients[fd].output != "" ==> v.clients[fd].sent < |v.clients[fd].output|))
  {
    OpenedTables(listeners);
    RunKeeps(Opened(listeners), turns);
    var v := RunTurns(Opened(listeners), turns);
    if fd in v.clients { assert ClientOk(v.clients[fd], fd); }
  }
}
