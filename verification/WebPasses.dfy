/** Which reported entries a pass over the poll list handles. Handling one entry
    may take others off the list, and the index does not follow entries taken
    off in front of it: an entry that slides below the index is passed over until
    the next pass (run in apps/webserv/src/Server.cpp). */
module WebPasses {
  import opened Limits
  import opened HttpRequest
  import opened Router
  import opened Descriptors
  import opened WebSteps
  import opened WebRuns

  // ---------------------------------------------------- what leaves the list

  function InputPipe(c: Client): set<int> { if c.cgiInputFd >= 0 then {c.cgiInputFd} else {} }

  function OutputPipe(c: Client): set<int> { if c.cgiOutputFd >= 0 then {c.cgiOutputFd} else {} }

  function Pipes(c: Client): set<int> { InputPipe(c) + OutputPipe(c) }

  /** A connection closed: its descriptor and its pipes. */
  function Whole(w: Web, fd: int): set<int>
    requires fd in w.clients
  {
    Pipes(w.clients[fd]) + {fd}
  }

  function GoneByRead(c: Client, o: Os): set<int> {
    match o.recv
    case WouldBlock => {}
    case Data(bytes) => if |c.cgiOutput + bytes| > MAX_CGI_OUTPUT then Pipes(c) else {}
    case Ended => if o.exited then Pipes(c) else OutputPipe(c)
  }

  function GoneByWrite(c: Client, o: Os): set<int> {
    if o.count < 0 && o.again then {}
    else if o.count <= 0 || c.cgiWritten + o.count == |c.cgiInput| then InputPipe(c)
    else {}
  }

  function GoneBySend(w: Web, fd: int, o: Os): set<int>
    requires fd in w.clients
  {
    var c := w.clients[fd];
    if o.count < 0 && o.again then {}
    else if o.count <= 0 || c.sent + o.count == |c.output| then Whole(w, fd)
    else {}
  }

  /** The descriptors that handling entry i takes off the list. */
  ghost function Gone(w: Web, i: nat, o: Os): set<int>
    requires i < |w.pollfds| && Tables(w)
  {
    var p := w.pollfds[i];
    OwnerIs(w, p.fd);
    if IsListener(w, p.fd) then {}
    else if p.fd in w.outputOwners then
      if p.revents.readable || p.revents.hangup || p.revents.error then
        GoneByRead(w.clients[w.outputOwners[p.fd]], o)
      else if p.revents.invalid then Whole(w, w.outputOwners[p.fd])
      else {}
    else if p.fd in w.inputOwners then
      if p.revents.writable then GoneByWrite(w.clients[w.inputOwners[p.fd]], o) else Whole(w, w.inputOwners[p.fd])
    else
      EntryIsClient(w, i);
      if p.revents.error || p.revents.hangup || p.revents.invalid then Whole(w, p.fd)
      else if p.revents.readable then (if o.recv.Ended? then Whole(w, p.fd) else {})
      else if p.revents.writable then GoneBySend(w, p.fd, o)
      else {}
  }

  // -------------------------------------------------- lists that get thinner

  /** What the scan looks at: descriptor and report. */
  function View(p: seq<PollFd>): (xs: seq<(int, Report)>)
    ensures |xs| == |p|
  {
    seq(|p|, j requires 0 <= j < |p| => (p[j].fd, p[j].revents))
  }

  function Keep(xs: seq<(int, Report)>, gone: set<int>): (ys: seq<(int, Report)>)
    ensures |ys| <= |xs|
  {
    if xs == [] then [] else (if xs[0].0 in gone then [] else [xs[0]]) + Keep(xs[1..], gone)
  }

  predicate AllSilent(xs: seq<(int, Report)>) { forall k :: 0 <= k < |xs| ==> xs[k].1.Silent() }

  /** Without some descriptors, and perhaps with new entries, not reported, at
      the end. */
  predicate Thinned(p: seq<PollFd>, q: seq<PollFd>, gone: set<int>) {
    Keep(View(p), gone) <= View(q) && AllSilent(View(q)[|Keep(View(p), gone)|..])
  }

  lemma {:induction false} KeepAll(xs: seq<(int, Report)>)
    ensures Keep(xs, {}) == xs
  {
    if xs != [] { KeepAll(xs[1..]); }
  }

  lemma {:induction false} KeepOn(xs: seq<(int, Report)>, ys: seq<(int, Report)>, gone: set<int>)
    ensures Keep(xs + ys, gone) == Keep(xs, gone) + Keep(ys, gone)
  {
    if xs == [] {
      assert xs + ys == ys;
    } else {
      assert (xs + ys)[1..] == xs[1..] + ys;
      KeepOn(xs[1..], ys, gone);
    }
  }

  lemma {:induction false} KeepTwice(xs: seq<(int, Report)>, a: set<int>, b: set<int>)
    ensures Keep(Keep(xs, a), b) == Keep(xs, a + b)
  {
    if xs != [] {
      KeepTwice(xs[1..], a, b);
      KeepOn(if xs[0].0 in a then [] else [xs[0]], Keep(xs[1..], a), b);
    }
  }

  lemma {:induction false} WithoutView(p: seq<PollFd>, fd: int)
    requires Distinct(p)
    ensures View(Without(p, fd)) == Keep(View(p), {fd})
  {
    if p != [] {
      assert View(p)[1..] == View(p[1..]);
      if p[0].fd == fd {
        NothingLeft(p[1..], fd);
      } else {
        assert forall k :: 0 <= k < |p[1..]| ==> p[1..][k] == p[k + 1];
        WithoutView(p[1..], fd);
        assert View([p[0]] + Without(p[1..], fd)) == [(p[0].fd, p[0].revents)] + View(Without(p[1..], fd));
      }
    }
  }

  lemma {:induction false} NothingLeft(p: seq<PollFd>, fd: int)
    requires forall k :: 0 <= k < |p| ==> p[k].fd != fd
    ensures Keep(View(p), {fd}) == View(p)
  {
    if p != [] {
      assert View(p)[1..] == View(p[1..]);
      NothingLeft(p[1..], fd);
    }
  }

  lemma {:induction false} KeepSilent(xs: seq<(int, Report)>, gone: set<int>)
    requires AllSilent(xs)
    ensures AllSilent(Keep(xs, gone))
  {
    if xs != [] {
      assert forall k :: 0 <= k < |xs[1..]| ==> xs[1..][k] == xs[k + 1];
      KeepSilent(xs[1..], gone);
    }
  }

  lemma ThinnedThen(p: seq<PollFd>, q: seq<PollFd>, r: seq<PollFd>, a: set<int>, b: set<int>)
    requires Thinned(p, q, a) && Thinned(q, r, b)
    ensures Thinned(p, r, a + b)
  {
    var kept := Keep(View(p), a);
    var rest := View(q)[|kept|..];
    assert View(q) == kept + rest;
    KeepTwice(View(p), a, b);
    KeepOn(kept, rest, b);
    KeepSilent(rest, b);
    SilentTail(Keep(kept, b), Keep(rest, b), View(r));
  }

  lemma SilentTail(xs: seq<(int, Report)>, ys: seq<(int, Report)>, zs: seq<(int, Report)>)
    requires xs + ys <= zs && AllSilent(ys) && AllSilent(zs[|xs + ys|..])
    ensures xs <= zs && AllSilent(zs[|xs|..])
  {
    forall k | 0 <= k < |zs[|xs|..]| ensures zs[|xs|..][k].1.Silent() {
      if k < |ys| { assert zs[|xs| + k] == ys[k]; } else { assert zs[|xs|..][k] == zs[|xs + ys|..][k - |ys|]; }
    }
  }

  lemma {:induction false} KeepClean(xs: seq<(int, Report)>, gone: set<int>)
    ensures forall k :: 0 <= k < |Keep(xs, gone)| ==> Keep(xs, gone)[k].0 !in gone
  {
    if xs != [] { KeepClean(xs[1..], gone); }
  }

  /** Entry j, if it stays, comes after those in front of it that stay. */
  lemma KeptAt(xs: seq<(int, Report)>, gone: set<int>, j: nat)
    requires j < |xs| && xs[j].0 !in gone
    ensures var k := |Keep(xs[..j], gone)|;
      k < |Keep(xs, gone)| && Keep(xs, gone)[k] == xs[j]
  {
    assert xs == xs[..j] + xs[j..];
    KeepOn(xs[..j], xs[j..], gone);
    assert xs[j..][0] == xs[j];
  }

  // ------------------------------------------------- what each change removes

  lemma SameThinned(p: seq<PollFd>, q: seq<PollFd>)
    requires View(p) <= View(q) && forall k :: |p| <= k < |q| ==> q[k].revents.Silent()
    ensures Thinned(p, q, {})
  {
    KeepAll(View(p));
  }

  lemma SameViewThins(p: seq<PollFd>, q: seq<PollFd>, r: seq<PollFd>, gone: set<int>)
    requires Thinned(p, q, gone) && View(r) == View(q)
    ensures Thinned(p, r, gone)
  {
  }

  lemma WithEventsView(p: seq<PollFd>, fd: int, events: Interest)
    ensures View(WithEvents(p, fd, events)) == View(p)
  {
  }

  lemma PrefixView(p: seq<PollFd>, q: seq<PollFd>)
    requires p <= q
    ensures View(p) <= View(q)
  {
  }

  lemma AnswerThins(w: Web, c: Client, response: string)
    ensures Thinned(w.pollfds, Answer(w, c, response).pollfds, {})
  {
    WithEventsView(w.pollfds, c.fd, Writing);
    SameThinned(w.pollfds, Answer(w, c, response).pollfds);
  }

  lemma LaunchThins(w: Web, c: Client, pid: int, inputFd: int, outputFd: int, body: string, timeout: nat)
    ensures Thinned(w.pollfds, Launch(w, c, pid, inputFd, outputFd, body, timeout).pollfds, {})
  {
    var q := WithEvents(w.pollfds, c.fd, Muted);
    WithEventsView(w.pollfds, c.fd, Muted);
    PrefixView(q, Launch(w, c, pid, inputFd, outputFd, body, timeout).pollfds);
    SameThinned(w.pollfds, Launch(w, c, pid, inputFd, outputFd, body, timeout).pollfds);
  }

  lemma DropInputThins(w: Web, fd: int)
    requires Distinct(w.pollfds) && fd in w.clients
    ensures Thinned(w.pollfds, DropInput(w, fd).pollfds, InputPipe(w.clients[fd]))
  {
    if w.clients[fd].cgiInputFd >= 0 { WithoutView(w.pollfds, w.clients[fd].cgiInputFd); }
    else { SameThinned(w.pollfds, w.pollfds); }
  }

  lemma DropOutputThins(w: Web, fd: int)
    requires Distinct(w.pollfds) && fd in w.clients
    ensures Thinned(w.pollfds, DropOutput(w, fd).pollfds, OutputPipe(w.clients[fd]))
  {
    if w.clients[fd].cgiOutputFd >= 0 { WithoutView(w.pollfds, w.clients[fd].cgiOutputFd); }
    else { SameThinned(w.pollfds, w.pollfds); }
  }

  lemma PipesThin(w: Web, fd: int)
    requires Tables(w) && fd in w.clients
    ensures var b := DropOutput(DropInput(w, fd), fd);
      Distinct(b.pollfds) && fd in b.clients && Thinned(w.pollfds, b.pollfds, Pipes(w.clients[fd]))
  {
    var a := DropInput(w, fd);
    PipesDropped(w, fd);
    DropInputKeeps(w, fd);
    DropInputThins(w, fd);
    DropOutputThins(a, fd);
    ThinnedThen(w.pollfds, a.pollfds, DropOutput(a, fd).pollfds, InputPipe(w.clients[fd]), OutputPipe(w.clients[fd]));
  }

  lemma CloseThins(w: Web, fd: int)
    requires Tables(w) && fd in w.clients
    ensures Thinned(w.pollfds, Close(w, fd).pollfds, Whole(w, fd))
  {
    var b := DropOutput(DropInput(w, fd), fd);
    PipesThin(w, fd);
    WithoutView(b.pollfds, fd);
    ThinnedThen(w.pollfds, b.pollfds, Close(w, fd).pollfds, Pipes(w.clients[fd]), {fd});
  }

  lemma FinishThins(w: Web, fd: int, response: string, now: int)
    requires Tables(w) && fd in w.clients
    ensures Thinned(w.pollfds, Finish(w, fd, response, now).pollfds, Pipes(w.clients[fd]))
  {
    var b := DropOutput(DropInput(w, fd), fd);
    PipesThin(w, fd);
    WithEventsView(b.pollfds, b.clients[fd].fd, Writing);
    SameViewThins(w.pollfds, b.pollfds, Finish(w, fd, response, now).pollfds, Pipes(w.clients[fd]));
  }

  // ------------------------------------------------------ and each entry

  lemma StartCgiThins(w: Web, c: Client, body: string, o: Os)
    requires !o.cgi.NotCgi?
    ensures Thinned(w.pollfds, StartCgi(w, c, body, o).pollfds, {})
  {
    if |Running(w)| >= MAX_CGI_PROCESSES {
      AnswerThins(w, c, o.error(503));
    } else {
      match o.cgi {
        case NoScript(status) => AnswerThins(w, c, o.error(status));
        case StartFailed => AnswerThins(w, c, o.error(500));
        case Started(pid, inputFd, outputFd, timeout) =>
          LaunchThins(w, c.(touched := o.now), pid, inputFd, outputFd, body, timeout);
      }
    }
  }

  lemma SettleThins(w: Web, c: Client, result: ParseResult, o: Os)
    ensures Thinned(w.pollfds, Settle(w, c, result, o).pollfds, {})
  {
    SameThinned(w.pollfds, w.pollfds);
    if result.Accepted? && !o.cgi.NotCgi? {
      StartCgiThins(w, c, result.request.body, o);
    } else {
      AnswerThins(w, c, ReplyTo(result, o));
    }
  }

  lemma ReadClientThins(w: Web, fd: int, o: Os)
    requires Tables(w) && fd in w.clients
    ensures Thinned(w.pollfds, ReadClient(w, fd, o).pollfds, if o.recv.Ended? then Whole(w, fd) else {})
  {
    var c := w.clients[fd];
    match o.recv {
      case WouldBlock => SameThinned(w.pollfds, w.pollfds);
      case Ended => CloseThins(w, fd);
      case Data(bytes) =>
        var d := c.(input := c.input + bytes, touched := o.now);
        AnswerThins(w, c, o.error(413));
        SettleThins(w, d, Parse(d.input, d.config.maxBody), o);
    }
  }

  lemma WriteClientThins(w: Web, fd: int, o: Os)
    requires Tables(w) && fd in w.clients && o.count <= |w.clients[fd].output| - w.clients[fd].sent
    ensures Thinned(w.pollfds, WriteClient(w, fd, o).pollfds, GoneBySend(w, fd, o))
  {
    var c := w.clients[fd];
    SameThinned(w.pollfds, w.pollfds);
    CloseThins(w, fd);
    assert ClientOk(c, fd);
    if o.count > 0 {
      var v := Sent(w, c.(touched := o.now), o.count);
      assert Close(v, fd).pollfds == Close(w, fd).pollfds;
    }
  }

  lemma WriteCgiThins(w: Web, fd: int, o: Os)
    requires Tables(w) && fd in w.clients && o.count <= |w.clients[fd].cgiInput| - w.clients[fd].cgiWritten
    ensures Thinned(w.pollfds, WriteCgi(w, fd, o).pollfds, GoneByWrite(w.clients[fd], o))
  {
    SameThinned(w.pollfds, w.pollfds);
    DropInputThins(w, fd);
    assert ClientOk(w.clients[fd], fd);
  }

  lemma EndedThinsTo(w: Web, v: Web, fd: int, response: string, now: int)
    requires Tables(w) && fd in w.clients && v == DropOutput(w, fd)
    ensures fd in v.clients
    ensures Thinned(w.pollfds, Finish(v, fd, response, now).pollfds, OutputPipe(w.clients[fd]) + Pipes(v.clients[fd]))
  {
    DropOutputKeeps(w, fd);
    DropOutputThins(w, fd);
    FinishThins(v, fd, response, now);
    ThinnedThen(w.pollfds, v.pollfds, Finish(v, fd, response, now).pollfds,
                OutputPipe(w.clients[fd]), Pipes(v.clients[fd]));
  }

  lemma EndedThins(w: Web, fd: int, response: string, now: int)
    requires Tables(w) && fd in w.clients
    ensures Thinned(w.pollfds, Finish(DropOutput(w, fd), fd, response, now).pollfds, Pipes(w.clients[fd]))
  {
    var c, v := w.clients[fd], DropOutput(w, fd);
    assert ClientOk(c, fd);
    assert fd in v.clients && OutputPipe(c) + Pipes(v.clients[fd]) == Pipes(c);
    EndedThinsTo(w, v, fd, response, now);
  }

  lemma ReadCgiThins(w: Web, fd: int, o: Os)
    requires Tables(w) && fd in w.clients
    ensures Thinned(w.pollfds, ReadCgi(w, fd, o).pollfds, GoneByRead(w.clients[fd], o))
  {
    var c := w.clients[fd];
    assert ClientOk(c, fd);
    match o.recv {
      case WouldBlock => SameThinned(w.pollfds, w.pollfds);
      case Data(bytes) =>
        SameThinned(w.pollfds, w.pollfds);
        RefreshedFinish(w, Heard(c, bytes, o.now), CgiReply(Heard(c, bytes, o.now), o), o.now);
      case Ended =>
        DropOutputThins(w, fd);
        EndedThins(w, fd, CgiReply(c, o), o.now);
    }
  }

  lemma RefreshedFinish(w: Web, d: Client, response: string, now: int)
    requires Tables(w) && d.fd in w.clients && SameButBytes(w.clients[d.fd], d)
    ensures Thinned(w.pollfds, Finish(Refresh(w, d), d.fd, response, now).pollfds, Pipes(w.clients[d.fd]))
  {
    var e := FinishedClient(w, d, response, now);
    FinishThins(w, d.fd, response, now);
  }

  lemma GrownThins(w: Web, v: Web)
    requires Grows(w, v)
    ensures Thinned(w.pollfds, v.pollfds, {})
  {
    PrefixView(w.pollfds, v.pollfds);
    forall k | |w.pollfds| <= k < |v.pollfds| ensures v.pollfds[k].revents.Silent() {
      if !v.pollfds[k].revents.Silent() {
        assert Reported(v.pollfds, k, v.pollfds[k].fd, v.pollfds[k].revents);
      }
    }
    SameThinned(w.pollfds, v.pollfds);
  }

  lemma ListenerThins(w: Web, i: nat, o: Os)
    requires i < |w.pollfds| && Tables(w) && IsListener(w, w.pollfds[i].fd) && LegalOs(w, i, o)
    ensures Thinned(w.pollfds, HandleEntry(w, i, o).pollfds, {})
  {
    var config := ListenerConfig(w, w.pollfds[i].fd);
    var v := AcceptUpTo(w, config, o.arrivals, o.now, |o.arrivals|);
    AcceptStep(w, config, o.arrivals, o.now);
    SameThinned(w.pollfds, w.pollfds);
    GrownThins(w, v);
  }

  lemma ConnectionThins(w: Web, i: nat, o: Os)
    requires i < |w.pollfds| && Tables(w) && LegalOs(w, i, o) && !IsListener(w, w.pollfds[i].fd)
    requires w.pollfds[i].fd !in w.outputOwners && w.pollfds[i].fd !in w.inputOwners
    ensures Thinned(w.pollfds, HandleEntry(w, i, o).pollfds, Gone(w, i, o))
  {
    var fd := w.pollfds[i].fd;
    EntryIsClient(w, i);
    SameThinned(w.pollfds, w.pollfds);
    CloseThins(w, fd);
    ReadClientThins(w, fd, o);
    WriteClientThins(w, fd, o);
  }

  /** Handling an entry takes exactly those descriptors off the list, and leaves
      the others with their reports in their order. */
  lemma HandleThins(w: Web, i: nat, o: Os)
    requires i < |w.pollfds| && Tables(w) && LegalOs(w, i, o)
    ensures Thinned(w.pollfds, HandleEntry(w, i, o).pollfds, Gone(w, i, o))
  {
    var fd := w.pollfds[i].fd;
    OwnerIs(w, fd);
    if IsListener(w, fd) {
      ListenerThins(w, i, o);
    } else if fd in w.outputOwners {
      SameThinned(w.pollfds, w.pollfds);
      CloseThins(w, w.outputOwners[fd]);
      ReadCgiThins(w, w.outputOwners[fd], o);
    } else if fd in w.inputOwners {
      CloseThins(w, w.inputOwners[fd]);
      WriteCgiThins(w, w.inputOwners[fd], o);
    } else {
      ConnectionThins(w, i, o);
    }
  }

  // --------------------------------------------------------- passed over

  /** How many entries stay. */
  function Staying(p: seq<PollFd>, gone: set<int>): nat { |Keep(View(p), gone)| }

  /** More entries leave in front of the index than stay from the index up to
      entry j: the entry slides below the index. */
  predicate Slides(p: seq<PollFd>, i: nat, j: nat, gone: set<int>)
    requires i <= j <= |p|
  {
    Staying(p[i..j], gone) < i - Staying(p[..i], gone)
  }

  lemma StayingSplits(p: seq<PollFd>, i: nat, j: nat, gone: set<int>)
    requires i <= j <= |p|
    ensures Staying(p[..j], gone) == Staying(p[..i], gone) + Staying(p[i..j], gone)
    ensures Staying(p[..i], gone) <= i
  {
    assert View(p[..j]) == View(p[..i]) + View(p[i..j]);
    KeepOn(View(p[..i]), View(p[i..j]), gone);
  }

  lemma StaysAt(p: seq<PollFd>, q: seq<PollFd>, gone: set<int>, j: nat)
    requires Thinned(p, q, gone) && j < |p| && p[j].fd !in gone
    ensures var k := Staying(p[..j], gone);
      k < |q| && q[k].fd == p[j].fd && q[k].revents == p[j].revents
  {
    KeptAt(View(p), gone, j);
    assert View(p)[..j] == View(p[..j]);
    assert View(q)[Staying(p[..j], gone)] == View(p)[j];
  }

  lemma SlidesStep(p: seq<PollFd>, q: seq<PollFd>, i: nat, j: nat, gone: set<int>, next: nat)
    requires Thinned(p, q, gone) && Distinct(q) && i < j < |p| && p[j].fd !in gone
    requires next == if i < |q| && q[i].fd == p[i].fd then i + 1 else i
    ensures Staying(p[..j], gone) < next <==> Slides(p, i, j, gone)
  {
    StayingSplits(p, i, j, gone);
    StayingSplits(p, i, i + 1, gone);
    StaysAt(p, q, gone, j);
    assert View(p[i..j])[0] == (p[i].fd, p[i].revents);
    if p[i].fd !in gone { StaysAt(p, q, gone, i); }
    KeepClean(View(p), gone);
    KeptAt(View(p), gone, j);
    assert View(p)[..j] == View(p[..j]);
    assert i < |Keep(View(p), gone)| ==> View(q)[i] == Keep(View(p), gone)[i];
  }

  /** What handling entry i does to entry j further on, if it was reported: it is
      off the list, below the index, or still to come. */
  lemma StepDecides(w: Web, i: nat, j: nat, handled: set<int>, o: Os)
    requires PassOk(w, i, handled) && i < j < |w.pollfds| && LegalOs(w, i, o)
    requires !w.pollfds[i].revents.Silent() && !w.pollfds[j].revents.Silent()
    ensures var v, gone, fd := HandleEntry(w, i, o), Gone(w, i, o), w.pollfds[j].fd;
      var next := NextIndex(v, i, w.pollfds[i].fd);
      if fd in gone then Quiet(v.pollfds, fd)
      else
        var k := Staying(w.pollfds[..j], gone);
        && k < |v.pollfds| && v.pollfds[k].fd == fd && v.pollfds[k].revents == w.pollfds[j].revents
        && (k < next <==> Slides(w.pollfds, i, j, gone))
  {
    var v, gone := HandleEntry(w, i, o), Gone(w, i, o);
    HandleThins(w, i, o);
    EntryHandled(w, i, handled, o);
    if w.pollfds[j].fd in gone {
      GoneQuiet(w.pollfds, v.pollfds, gone, w.pollfds[j].fd);
    } else {
      StaysAt(w.pollfds, v.pollfds, gone, j);
      SlidesStep(w.pollfds, v.pollfds, i, j, gone, NextIndex(v, i, w.pollfds[i].fd));
    }
  }

  lemma GoneQuiet(p: seq<PollFd>, q: seq<PollFd>, gone: set<int>, fd: int)
    requires Thinned(p, q, gone) && fd in gone
    ensures Quiet(q, fd)
  {
    var kept := Keep(View(p), gone);
    KeepClean(View(p), gone);
    forall k | 0 <= k < |kept| ensures k < |q| && q[k].fd !in gone { assert View(q)[k] == kept[k]; }
    forall k | |kept| <= k < |q| ensures q[k].revents.Silent() {
      assert View(q)[|kept|..][k - |kept|] == View(q)[k];
    }
  }

  // --------------------------------------------------------- a whole pass

  /** The descriptors reported at i or further on; poll returns their number. */
  function ReportedFds(p: seq<PollFd>, i: nat): set<int> {
    set k | i <= k < |p| && !p[k].revents.Silent() :: p[k].fd
  }

  lemma ReportedIn(p: seq<PollFd>, i: nat, fd: int)
    ensures fd in ReportedFds(p, i) <==> exists r :: Reported(p, i, fd, r)
  {
    if k :| i <= k < |p| && !p[k].revents.Silent() && p[k].fd == fd { assert Reported(p, i, fd, p[k].revents); }
  }

  lemma Fewer(a: set<int>, b: set<int>, x: int)
    requires a <= b - {x} && x in b
    ensures |a| < |b|
  {
    assert b == a + (b - a) && x in b - a;
  }

  /** One report fewer for each entry handled. */
  lemma ReportsShrink(p: seq<PollFd>, i: nat, q: seq<PollFd>, next: nat, fd: int)
    requires Shrinks(p, q) && i <= next && fd in ReportedFds(p, i)
    requires forall r :: !Reported(q, next, fd, r)
    ensures |ReportedFds(q, next)| < |ReportedFds(p, i)|
  {
    forall x | x in ReportedFds(q, next) ensures x in ReportedFds(p, i) - {fd} {
      ReportedIn(q, next, x);
      var r :| Reported(q, next, x, r);
      ReportedLater(q, i, next, x, r);
      assert Reported(p, i, x, r);
      ReportedIn(p, i, x);
    }
    Fewer(ReportedFds(q, next), ReportedFds(p, i), fd);
  }

  /** What is handled was reported at the index or further on. */
  lemma Ahead(w: Web, i: nat, handled: set<int>, ready: nat, os: seq<Os>, fd: int)
    requires PassOk(w, i, handled) && fd in HandledFrom(w, i, handled, ready, os)
    ensures !Quiet(w.pollfds, fd) && forall k :: 0 <= k < i && k < |w.pollfds| ==> w.pollfds[k].fd != fd
  {
    assert ReportedFrom(w, i, fd);
    var r :| Reported(w.pollfds, i, fd, r);
    ReportedLater(w.pollfds, 0, i, fd, r);
  }

  /** An entry taken off, or below the index, is not handled any more; another is
      if it is handled later. */
  lemma StepInList(w: Web, i: nat, j: nat, handled: set<int>, ready: nat, os: seq<Os>)
    requires PassOk(w, i, handled) && Meets(w, i, ready, os)
    requires i < j < |w.pollfds| && !w.pollfds[j].revents.Silent()
    ensures Tables(w)
    ensures var v, gone, fd := HandleEntry(w, i, os[0]), Gone(w, i, os[0]), w.pollfds[j].fd;
      var next, after := NextIndex(v, i, w.pollfds[i].fd), handled + {w.pollfds[i].fd};
      var k := Staying(w.pollfds[..j], gone);
      && PassOk(v, next, after)
      && if fd in gone || Slides(w.pollfds, i, j, gone) then fd !in HandledFrom(w, i, handled, ready, os)
         else
           && next <= k < |v.pollfds| && v.pollfds[k].fd == fd && v.pollfds[k].revents == w.pollfds[j].revents
           && (fd in HandledFrom(w, i, handled, ready, os) <==> fd in HandledFrom(v, next, after, ready - 1, os[1..]))
  {
    var v, fd := HandleEntry(w, i, os[0]), w.pollfds[j].fd;
    var next, after := NextIndex(v, i, w.pollfds[i].fd), handled + {w.pollfds[i].fd};
    EntryHandled(w, i, handled, os[0]);
    StepDecides(w, i, j, handled, os[0]);
    assert w.pollfds[i].fd != fd;
    if fd in HandledFrom(v, next, after, ready - 1, os[1..]) { Ahead(v, next, after, ready - 1, os[1..], fd); }
  }

  /** One report less, and the same end. */
  lemma StepInScan(w: Web, i: nat, handled: set<int>, ready: nat, os: seq<Os>)
    requires PassOk(w, i, handled) && Meets(w, i, ready, os)
    ensures Tables(w)
    ensures var v := HandleEntry(w, i, os[0]);
      var next, after := NextIndex(v, i, w.pollfds[i].fd), handled + {w.pollfds[i].fd};
      && PassOk(v, next, after)
      && (LegalPass(w, i, handled, ready, os) ==> LegalPass(v, next, after, ready - 1, os[1..]))
      && (PassFrom(w, i, handled, ready, os).down <==> PassFrom(v, next, after, ready - 1, os[1..]).down)
      && |ReportedFds(v.pollfds, next)| < |ReportedFds(w.pollfds, i)|
  {
    var v := HandleEntry(w, i, os[0]);
    EntryHandled(w, i, handled, os[0]);
    assert w.pollfds[i].fd in ReportedFds(w.pollfds, i);
    ReportsShrink(w.pollfds, i, v.pollfds, NextIndex(v, i, w.pollfds[i].fd), w.pollfds[i].fd);
  }

  lemma SkipsOn(w: Web, i: nat, handled: set<int>, ready: nat, os: seq<Os>)
    requires PassOk(w, i, handled) && Skips(w, i, ready)
    ensures PassOk(w, i + 1, handled)
    ensures LegalPass(w, i, handled, ready, os) <==> LegalPass(w, i + 1, handled, ready, os)
    ensures HandledFrom(w, i, handled, ready, os) == HandledFrom(w, i + 1, handled, ready, os)
    ensures PassFrom(w, i, handled, ready, os) == PassFrom(w, i + 1, handled, ready, os)
    ensures ReportedFds(w.pollfds, i + 1) == ReportedFds(w.pollfds, i)
  {
    SkipOk(w, i, handled);
  }

  lemma HandledHere(w: Web, i: nat, handled: set<int>, ready: nat, os: seq<Os>)
    requires PassOk(w, i, handled) && Meets(w, i, ready, os)
    ensures w.pollfds[i].fd in HandledFrom(w, i, handled, ready, os)
  {
  }

  /** Where the pass ends before entry j. */
  lemma EndsHere(w: Web, i: nat, j: nat, handled: set<int>, ready: nat, os: seq<Os>)
    requires PassOk(w, i, handled) && i <= j < |w.pollfds| && !w.pollfds[j].revents.Silent()
    requires !Skips(w, i, ready) && !Meets(w, i, ready, os)
    ensures w.pollfds[j].fd !in HandledFrom(w, i, handled, ready, os)
    ensures |ReportedFds(w.pollfds, i)| > ready || w.down || !LegalPass(w, i, handled, ready, os)
    ensures PassFrom(w, i, handled, ready, os).down <==> w.down
  {
    assert w.pollfds[j].fd in ReportedFds(w.pollfds, i);
  }

  /** What a pass comes to for one reported entry: handled, off the list before
      its turn, below the index before its turn, or the pass over before. */
  datatype Fate = Handled | Removed | PassedOver | Unreached

  /** Entry j was reported, and the scan may yet come to it. */
  ghost predicate Waiting(w: Web, i: nat, j: nat, handled: set<int>) {
    PassOk(w, i, handled) && i <= j < |w.pollfds| && !w.pollfds[j].revents.Silent()
  }

  /** What the fate of entry j means. */
  ghost predicate FateMeans(w: Web, i: nat, j: nat, handled: set<int>, ready: nat, os: seq<Os>, fate: Fate) {
    Waiting(w, i, j, handled) ==>
      && (fate == Handled <==> w.pollfds[j].fd in HandledFrom(w, i, handled, ready, os))
      && (fate == Unreached && LegalPass(w, i, handled, ready, os) ==>
            |ReportedFds(w.pollfds, i)| > ready || PassFrom(w, i, handled, ready, os).down)
  }

  lemma SkipMeans(w: Web, i: nat, j: nat, handled: set<int>, ready: nat, os: seq<Os>, fate: Fate)
    requires Skips(w, i, ready) && FateMeans(w, i + 1, j, handled, ready, os, fate)
    ensures FateMeans(w, i, j, handled, ready, os, fate)
  {
    if Waiting(w, i, j, handled) { SkipsOn(w, i, handled, ready, os); }
  }

  lemma EndMeans(w: Web, i: nat, j: nat, handled: set<int>, ready: nat, os: seq<Os>)
    requires !Skips(w, i, ready) && (!Meets(w, i, ready, os) || !Tables(w) || j >= |w.pollfds|)
    ensures FateMeans(w, i, j, handled, ready, os, Unreached)
  {
    if Waiting(w, i, j, handled) { EndsHere(w, i, j, handled, ready, os); }
  }

  lemma HereMeans(w: Web, i: nat, j: nat, handled: set<int>, ready: nat, os: seq<Os>)
    requires Meets(w, i, ready, os) && i >= j
    ensures FateMeans(w, i, j, handled, ready, os, Handled)
  {
    if Waiting(w, i, j, handled) { HandledHere(w, i, handled, ready, os); }
  }

  lemma DecidedMeans(w: Web, i: nat, j: nat, handled: set<int>, ready: nat, os: seq<Os>, fate: Fate)
    requires Meets(w, i, ready, os) && Tables(w) && i < j < |w.pollfds| && (fate == Removed || fate == PassedOver)
    requires w.pollfds[j].fd in Gone(w, i, os[0]) || Slides(w.pollfds, i, j, Gone(w, i, os[0]))
    ensures FateMeans(w, i, j, handled, ready, os, fate)
  {
    if Waiting(w, i, j, handled) { StepInList(w, i, j, handled, ready, os); }
  }

  lemma StepMeans(w: Web, i: nat, j: nat, handled: set<int>, ready: nat, os: seq<Os>, v: Web, next: nat, fate: Fate)
    requires Meets(w, i, ready, os) && Tables(w) && i < j < |w.pollfds|
    requires w.pollfds[j].fd !in Gone(w, i, os[0]) && !Slides(w.pollfds, i, j, Gone(w, i, os[0]))
    requires v == HandleEntry(w, i, os[0]) && next == NextIndex(v, i, w.pollfds[i].fd)
    requires FateMeans(v, next, Staying(w.pollfds[..j], Gone(w, i, os[0])), handled + {w.pollfds[i].fd},
                       ready - 1, os[1..], fate)
    ensures FateMeans(w, i, j, handled, ready, os, fate)
  {
    if Waiting(w, i, j, handled) {
      StepInList(w, i, j, handled, ready, os);
      StepInScan(w, i, handled, ready, os);
    }
  }

  /** An entry is handled exactly if that is its fate; with poll's count, and the
      program still up at the end, the pass is not over before its turn. */
  ghost function FateOf(w: Web, i: nat, j: nat, handled: set<int>, ready: nat, os: seq<Os>): (fate: Fate)
    ensures FateMeans(w, i, j, handled, ready, os, fate)
    decreases ready, |w.pollfds| - i
  {
    if Skips(w, i, ready) then
      var fate := FateOf(w, i + 1, j, handled, ready, os);
      SkipMeans(w, i, j, handled, ready, os, fate);
      fate
    else if !Meets(w, i, ready, os) || !Tables(w) || j >= |w.pollfds| then
      EndMeans(w, i, j, handled, ready, os);
      Unreached
    else if i >= j then
      HereMeans(w, i, j, handled, ready, os);
      Handled
    else
      var v, gone := HandleEntry(w, i, os[0]), Gone(w, i, os[0]);
      if w.pollfds[j].fd in gone || Slides(w.pollfds, i, j, gone) then
        var fate := if w.pollfds[j].fd in gone then Removed else PassedOver;
        DecidedMeans(w, i, j, handled, ready, os, fate);
        fate
      else
        var next := NextIndex(v, i, w.pollfds[i].fd);
        var fate := FateOf(v, next, Staying(w.pollfds[..j], gone), handled + {w.pollfds[i].fd}, ready - 1, os[1..]);
        StepMeans(w, i, j, handled, ready, os, v, next, fate);
        fate
  }

  /** "Every reported poll entry is handled in its pass" does not hold. With
      poll's count and the program still up, a reported entry is left out if and
      only if handling one in front of it takes it off the list, or takes more
      entries off in front of the index than stay from the index up to it. */
  lemma MissedIff(w: Web, reports: seq<Report>, ready: nat, os: seq<Os>, j: nat)
    requires Tables(w) && LegalReports(w, reports) && j < |reports| && !reports[j].Silent()
    requires (PassBegins(w, reports); LegalPass(Polled(w, reports), 0, {}, ready, os))
    requires |ReportedFds(Polled(w, reports).pollfds, 0)| <= ready
    requires (PassBegins(w, reports); !PassFrom(Polled(w, reports), 0, {}, ready, os).down)
    ensures var p := (PassBegins(w, reports); Polled(w, reports));
      var fate := FateOf(p, 0, j, {}, ready, os);
      w.pollfds[j].fd !in HandledFrom(p, 0, {}, ready, os) <==> fate == Removed || fate == PassedOver
  {
    PassBegins(w, reports);
    assert FateMeans(Polled(w, reports), 0, j, {}, ready, os, FateOf(Polled(w, reports), 0, j, {}, ready, os));
  }

  // ------------------------------------------------------- such a pass

  /** A connection 5 whose CGI is fed through 7 and read through 6, and a
      connection 8 accepted after it. */
  function Busy(config: ServerConfig): Web {
    var accepted := Admit(Opened([Listener(3, config)]), 5, config, 0);
    Admit(Launch(accepted, accepted.clients[5], 100, 7, 6, "x", 30), 8, config, 0)
  }

  lemma BusyList(config: ServerConfig)
    ensures Busy(config).pollfds
         == [PollFd(3, Reading, SILENT), PollFd(5, Muted, SILENT), PollFd(6, Reading, SILENT),
             PollFd(7, Writing, SILENT), PollFd(8, Reading, SILENT)]
  {
  }

  lemma AcceptedTables(config: ServerConfig, v: Web)
    requires v == Admit(Opened([Listener(3, config)]), 5, config, 0)
    ensures Tables(v) && 5 in v.clients && Running(v) == {} && |v.clients.Keys| == 1
    ensures Launchable(v, v.clients[5], 100, 7, 6) && Free(v, 8)
  {
    OpenedTables([Listener(3, config)]);
    AdmitKeeps(Opened([Listener(3, config)]), 5, config, 0);
    assert v.clients.Keys == {5};
  }

  lemma BusyTables(config: ServerConfig)
    ensures Tables(Busy(config))
  {
    var v := Admit(Opened([Listener(3, config)]), 5, config, 0);
    AcceptedTables(config, v);
    LaunchKeeps(v, v.clients[5], 100, 7, 6, "x", 30);
    var u := Launch(v, v.clients[5], 100, 7, 6, "x", 30);
    assert u.clients.Keys == v.clients.Keys;
    LaunchFds(v, v.clients[5], 100, 7, 6, "x", 30);
    AdmitKeeps(u, 8, config, 0);
  }

  const BROKEN: Report := Report(false, false, true, false, false)
  const ARRIVED: Report := Report(true, false, false, false, false)

  const QUIET_OS: Os :=
    Os([], Recv.WouldBlock, 0, false, false, false, 0, NotCgi, (status: int) => "e", "n",
       (config: ServerConfig, text: string) => "s")

  /** The pipe to the CGI reported broken, bytes on 8. */
  function Ready(config: ServerConfig): Web {
    Polled(Busy(config), [SILENT, SILENT, SILENT, BROKEN, ARRIVED])
  }

  lemma BusyMaps(config: ServerConfig)
    ensures var w := Busy(config);
      && !w.down && w.listeners == [Listener(3, config)]
      && w.inputOwners == map[7 := 5] && w.outputOwners == map[6 := 5]
      && 5 in w.clients && w.clients[5].cgiInputFd == 7 && w.clients[5].cgiOutputFd == 6
      && w.clients[5].cgiInput == "x" && w.clients[5].cgiWritten == 0 && 7 !in w.clients
  {
  }

  lemma ReadyList(config: ServerConfig)
    ensures Ready(config).pollfds
         == [PollFd(3, Reading, SILENT), PollFd(5, Muted, SILENT), PollFd(6, Reading, SILENT),
             PollFd(7, Writing, BROKEN), PollFd(8, Reading, ARRIVED)]
  {
    BusyList(config);
  }

  lemma ReadyBegins(config: ServerConfig)
    ensures Tables(Busy(config)) && LegalReports(Busy(config), [SILENT, SILENT, SILENT, BROKEN, ARRIVED])
    ensures PassOk(Ready(config), 0, {})
  {
    BusyTables(config);
    BusyList(config);
    PassBegins(Busy(config), [SILENT, SILENT, SILENT, BROKEN, ARRIVED]);
  }

  lemma WithoutFirst(a: PollFd, rest: seq<PollFd>, fd: int)
    ensures Without([a] + rest, fd) == if a.fd == fd then rest else [a] + Without(rest, fd)
  {
    assert ([a] + rest)[1..] == rest;
  }

  lemma ClosedList(a: PollFd, b: PollFd, c: PollFd, d: PollFd, e: seq<PollFd>)
    requires Distinct([a, b, c, d])
    ensures Without(Without(Without([a] + ([b] + ([c] + ([d] + e))), d.fd), c.fd), b.fd) == [a] + e
  {
    assert [a, b, c, d][0] == a && [a, b, c, d][1] == b && [a, b, c, d][2] == c && [a, b, c, d][3] == d;
    WithoutFirst(d, e, d.fd);
    WithoutFirst(c, [d] + e, d.fd);
    WithoutFirst(b, [c] + ([d] + e), d.fd);
    WithoutFirst(a, [b] + ([c] + ([d] + e)), d.fd);
    WithoutFirst(c, e, c.fd);
    WithoutFirst(b, [c] + e, c.fd);
    WithoutFirst(a, [b] + ([c] + e), c.fd);
    WithoutFirst(b, e, b.fd);
    WithoutFirst(a, [b] + e, b.fd);
  }

  lemma ClosedBusy(config: ServerConfig, w: Web)
    requires w == Ready(config)
    ensures Close(w, 5).pollfds == [PollFd(3, Reading, SILENT), PollFd(8, Reading, ARRIVED)]
  {
    ReadyList(config);
    BusyMaps(config);
    var a, b, c := PollFd(3, Reading, SILENT), PollFd(5, Muted, SILENT), PollFd(6, Reading, SILENT);
    var d, e := PollFd(7, Writing, BROKEN), [PollFd(8, Reading, ARRIVED)];
    ClosedList(a, b, c, d, e);
    assert w.pollfds == [a] + ([b] + ([c] + ([d] + e)));
    assert Close(w, 5).pollfds == Without(Without(Without(w.pollfds, 7), 6), 5);
  }

  /** A pipe to a CGI whose reader is gone: its connection is closed. */
  lemma PipeBroken(w: Web, i: nat, o: Os)
    requires i < |w.pollfds| && Tables(w) && LegalOs(w, i, o)
    requires w.pollfds[i].fd in w.inputOwners && !w.pollfds[i].revents.writable
    ensures HandleEntry(w, i, o) == Close(w, w.inputOwners[w.pollfds[i].fd])
  {
    var fd := w.pollfds[i].fd;
    assert Kinds(w, fd, fd in ListenerFds(w), fd in Fds(w.pollfds));
    if IsListener(w, fd) { ListenerIsNothingElse(w, fd); }
  }

  lemma QuietIsLegal(config: ServerConfig, w: Web)
    requires w == Ready(config)
    ensures |w.pollfds| == 5 && LegalOs(w, 3, QUIET_OS)
  {
    ReadyList(config);
    BusyMaps(config);
    assert !IsListener(w, 7);
  }

  lemma AtTheEnd(v: Web, i: nat, handled: set<int>, ready: nat, os: seq<Os>)
    requires PassOk(v, i, handled) && i >= |v.pollfds|
    ensures LegalPass(v, i, handled, ready, os) && HandledFrom(v, i, handled, ready, os) == []
  {
  }

  lemma OnlyThis(w: Web, i: nat, handled: set<int>, ready: nat, os: seq<Os>)
    requires PassOk(w, i, handled) && i < |w.pollfds| && !w.pollfds[i].revents.Silent() && !w.down && ready > 0
    requires os != [] && LegalOs(w, i, os[0])
    requires var v := HandleEntry(w, i, os[0]);
      NextIndex(v, i, w.pollfds[i].fd) >= |v.pollfds|
    ensures LegalPass(w, i, handled, ready, os) && HandledFrom(w, i, handled, ready, os) == [w.pollfds[i].fd]
  {
    var v := HandleEntry(w, i, os[0]);
    EntryHandled(w, i, handled, os[0]);
    AtTheEnd(v, NextIndex(v, i, w.pollfds[i].fd), handled + {w.pollfds[i].fd}, ready - 1, os[1..]);
  }

  lemma PassFromPipe(config: ServerConfig, w: Web)
    requires w == Ready(config) && PassOk(w, 3, {})
    ensures LegalPass(w, 3, {}, 2, [QUIET_OS, QUIET_OS])
    ensures HandledFrom(w, 3, {}, 2, [QUIET_OS, QUIET_OS]) == [7]
  {
    QuietIsLegal(config, w);
    ClosedBusy(config, w);
    ReadyList(config);
    BusyMaps(config);
    PipeBroken(w, 3, QUIET_OS);
    OnlyThis(w, 3, {}, 2, [QUIET_OS, QUIET_OS]);
  }

  /** An entry that was not reported makes no difference. */
  lemma SkipsBack(w: Web, i: nat, next: nat, ready: nat, os: seq<Os>, fds: seq<int>)
    requires PassOk(w, i, {}) && PassOk(w, next, {}) && Skips(w, i, ready) && next == i + 1
    requires LegalPass(w, next, {}, ready, os) && HandledFrom(w, next, {}, ready, os) == fds
    ensures LegalPass(w, i, {}, ready, os) && HandledFrom(w, i, {}, ready, os) == fds
  {
  }

  lemma PassFromStart(config: ServerConfig, w: Web, os: seq<Os>)
    requires w == Ready(config) && PassOk(w, 0, {}) && os == [QUIET_OS, QUIET_OS]
    ensures LegalPass(w, 0, {}, 2, os) && HandledFrom(w, 0, {}, 2, os) == [7]
  {
    ReadyList(config);
    BusyMaps(config);
    PassOkLater(w, 0, 1, {});
    PassOkLater(w, 0, 2, {});
    PassOkLater(w, 0, 3, {});
    PassFromPipe(config, w);
    SkipsBack(w, 2, 3, 2, os, [7]);
    SkipsBack(w, 1, 2, 2, os, [7]);
    SkipsBack(w, 0, 1, 2, os, [7]);
  }

  lemma ReadyReports(config: ServerConfig)
    ensures ReportedFds(Ready(config).pollfds, 0) == {7, 8}
  {
    var p := Ready(config).pollfds;
    ReadyList(config);
    assert p[3].fd == 7 && p[4].fd == 8;
    forall k | 0 <= k < |p| && !p[k].revents.Silent() ensures p[k].fd in {7, 8} { assert k == 3 || k == 4; }
  }

  /** The pipe to a CGI is reported broken and its connection closed: three
      entries go, and the entry of 8, reported readable, slides from index 4 to 1
      while the scan stays at 3. It is not handled. */
  lemma ReportPassedOver(config: ServerConfig)
    ensures PassOk(Ready(config), 0, {}) && LegalPass(Ready(config), 0, {}, 2, [QUIET_OS, QUIET_OS])
    ensures ReportedFds(Ready(config).pollfds, 0) == {7, 8}
    ensures HandledFrom(Ready(config), 0, {}, 2, [QUIET_OS, QUIET_OS]) == [7]
  {
    ReadyBegins(config);
    ReadyList(config);
    BusyMaps(config);
    PassFromStart(config, Ready(config), [QUIET_OS, QUIET_OS]);
    ReadyReports(config);
  }
}
