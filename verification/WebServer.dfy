/** The web server's engine, its tables updated in place as in
    apps/webserv/src/Server.cpp. Each method is proved to do what the functions
    of Descriptors, WebSteps and WebRuns say, so what is proved there holds of
    the running loop. */
module WebServer {
  import opened Strings
  import opened Ordered
  import opened Limits
  import opened HttpRequest
  import opened Router
  import opened Descriptors
  import opened WebSteps
  import opened WebRuns

  /** Where the descriptor is first, if it is there. */
  lemma {:induction false} WithoutAt(pollfds: seq<PollFd>, fd: int, i: nat)
    requires i <= |pollfds| && forall j :: 0 <= j < i ==> pollfds[j].fd != fd
    requires i < |pollfds| ==> pollfds[i].fd == fd
    ensures Without(pollfds, fd) == if i < |pollfds| then pollfds[..i] + pollfds[i + 1..] else pollfds
    decreases i
  {
    if pollfds != [] && i > 0 {
      WithoutAt(pollfds[1..], fd, i - 1);
      if i < |pollfds| {
        assert pollfds[..i] == [pollfds[0]] + pollfds[1..][..i - 1];
        assert pollfds[i + 1..] == pollfds[1..][i..];
      }
    }
  }

  lemma WithEventsAt(pollfds: seq<PollFd>, fd: int, events: Interest, i: nat)
    requires Distinct(pollfds) && i < |pollfds| && pollfds[i].fd == fd
    ensures WithEvents(pollfds, fd, events) == pollfds[i := pollfds[i].(events := events)]
  {
  }

  /** Changing a connection twice is changing it once. */
  lemma AnswerRefreshed(w: Web, c: Client, response: string)
    ensures Answer(Refresh(w, c), c, response) == Answer(w, c, response)
  {
    var d := c.(output := response, sent := 0, cgiPid := if c.cgiPid > 0 then -1 else c.cgiPid);
    assert w.clients[c.fd := c][c.fd := d] == w.clients[c.fd := d];
  }

  lemma LaunchRefreshed(w: Web, c: Client, d: Client, pid: int, inputFd: int, outputFd: int, body: string, timeout: nat)
    requires d.fd == c.fd
    ensures Launch(Refresh(w, c), d, pid, inputFd, outputFd, body, timeout)
         == Launch(w, d, pid, inputFd, outputFd, body, timeout)
  {
    var v := Launch(w, d, pid, inputFd, outputFd, body, timeout);
    assert w.clients[c.fd := c][c.fd := v.clients[c.fd]] == w.clients[c.fd := v.clients[c.fd]];
  }

  lemma StartCgiRefreshed(w: Web, c: Client, body: string, o: Os)
    requires c.fd in w.clients && SameShape(w.clients[c.fd], c) && !o.cgi.NotCgi?
    ensures StartCgi(Refresh(w, c), c, body, o) == StartCgi(w, c, body, o)
  {
    assert Running(Refresh(w, c)) == Running(w);
    if |Running(w)| >= MAX_CGI_PROCESSES {
      AnswerRefreshed(w, c, o.error(503));
    } else {
      match o.cgi {
        case NoScript(status) => AnswerRefreshed(w, c, o.error(status));
        case StartFailed => AnswerRefreshed(w, c, o.error(500));
        case Started(pid, inputFd, outputFd, timeout) =>
          LaunchRefreshed(w, c, c.(touched := o.now), pid, inputFd, outputFd, body, timeout);
      }
    }
  }

  lemma ServeRefreshed(w: Web, c: Client, o: Os)
    requires c.fd in w.clients && SameShape(w.clients[c.fd], c)
    ensures Serve(Refresh(w, c), c, o) == Serve(w, c, o)
  {
    var result := Parse(c.input, c.config.maxBody);
    assert w.clients[c.fd := c][c.fd := c] == w.clients[c.fd := c];
    if result.Accepted? && !o.cgi.NotCgi? { StartCgiRefreshed(w, c, result.request.body, o); }
    AnswerRefreshed(w, c, ReplyTo(result, o));
  }

  lemma ClosedNotPolled(w: Web, fd: int)
    requires Tables(w) && fd in w.clients
    ensures fd !in Fds(Close(w, fd).pollfds)
  {
    PipesDropped(w, fd);
    WithoutFds(DropOutput(DropInput(w, fd), fd).pollfds, fd, fd);
  }

  lemma ClosedMovesOn(w: Web, fd: int, i: nat)
    requires Tables(w) && fd in w.clients
    ensures NextIndex(Close(w, fd), i, fd) == i
  {
    ClosedNotPolled(w, fd);
    var q := Close(w, fd).pollfds;
    assert forall j :: 0 <= j < |q| ==> q[j] in q;
  }

  lemma AcceptedMovesOn(w: Web, config: ServerConfig, arrivals: seq<Arrival>, now: int, i: nat)
    requires Tables(w) && i < |w.pollfds| && LegalArrivals(w, config, arrivals, now)
    ensures NextIndex(AcceptUpTo(w, config, arrivals, now, |arrivals|), i, w.pollfds[i].fd) == i + 1
  {
    AcceptStep(w, config, arrivals, now);
  }

  /** The scan is at index i and will end in `target`. */
  ghost predicate ScanAt(w: Web, i: nat, handled: set<int>, ready: nat, os: seq<Os>, target: Web) {
    PassOk(w, i, handled) && LegalPass(w, i, handled, ready, os) && PassFrom(w, i, handled, ready, os) == target
  }

  /** The scan at a silent entry goes on with the next. */
  lemma ScanSkips(w: Web, i: nat, handled: set<int>, ready: nat, os: seq<Os>, target: Web)
    requires ScanAt(w, i, handled, ready, os, target)
    requires i < |w.pollfds| && ready > 0 && !w.down && w.pollfds[i].revents.Silent()
    ensures ScanAt(w, i + 1, handled, ready, os, target)
  {
    SkipOk(w, i, handled);
  }

  /** The scan at a reported entry handles it and goes on where that leads. */
  lemma ScanHandles(w: Web, i: nat, handled: set<int>, ready: nat, os: seq<Os>, target: Web)
    requires ScanAt(w, i, handled, ready, os, target)
    requires i < |w.pollfds| && ready > 0 && !w.down && !w.pollfds[i].revents.Silent()
    ensures Tables(w)
    ensures |os| > 0 && LegalOs(w, i, os[0]) && Expected(w, w.pollfds[i].fd, w.pollfds[i].revents)
    ensures var v := HandleEntry(w, i, os[0]);
      ScanAt(v, NextIndex(v, i, w.pollfds[i].fd), handled + {w.pollfds[i].fd}, ready - 1, os[1..], target)
  {
    EntryReported(w, i);
    EntryHandled(w, i, handled, os[0]);
  }

  lemma ScanEnds(w: Web, i: nat, handled: set<int>, ready: nat, os: seq<Os>, target: Web)
    requires ScanAt(w, i, handled, ready, os, target) && (i >= |w.pollfds| || ready == 0 || w.down)
    ensures w == target
  {
  }

  /** Every listed connection is there, once, with a CGI running. */
  lemma ReapListed(w: Web, exited: map<int, bool>)
    ensures NoRepeats(ReapList(w, exited))
    ensures forall fd :: fd in ReapList(w, exited) ==> fd in w.clients && w.clients[fd].cgiPid > 0
  {
    var keep := set fd | fd in w.clients && Reapable(w, fd, exited);
    AscendingOnce(w.clients.Keys);
    FilterOnce(Ascending(w.clients.Keys), keep);
    forall fd | fd in ReapList(w, exited) ensures fd in w.clients && w.clients[fd].cgiPid > 0 {
      FilterIn(Ascending(w.clients.Keys), keep, fd);
    }
  }

  lemma FilterStep(done: seq<int>, fd: int, keep: set<int>)
    ensures Filter(done + [fd], keep) == Filter(done, keep) + (if fd in keep then [fd] else [])
  {
    assert (done + [fd])[..|done|] == done;
  }

  /** Finishing others leaves a connection still running its CGI in place. */
  lemma FinishKeepsPlace(w: Web, fd: int, response: string, now: int, x: int)
    requires Tables(w) && Unanswered(w, fd) && response != "" && x != fd
    requires x in w.clients ==> w.clients[x].cgiPid > 0
    ensures var v := Finish(w, fd, response, now);
      Tables(v) && (x in v.clients ==> v.clients[x].cgiPid > 0)
  {
    FinishOne(w, fd, response, now);
  }

  lemma TablesPlace(w: Web, fd: int)
    requires Tables(w) && fd in w.clients
    ensures w.clients[fd].fd == fd && (w.clients[fd].cgiPid > 0 ==> w.clients[fd].output == "")
    ensures w.clients[fd].sent <= |w.clients[fd].output|
    ensures w.clients[fd].output == "" ==> w.clients[fd].sent == 0
  {
    assert ClientOk(w.clients[fd], fd);
  }

  class Server {
    var listeners: seq<Listener>
    var clients: map<int, Client>
    var inputOwners: map<int, int>
    var outputOwners: map<int, int>
    var pollfds: seq<PollFd>
    var accepted: nat
    ghost var responses: map<nat, string>
    ghost var wire: map<nat, string>
    /** Where the source has left its loop for good. */
    var down: bool

    ghost function State(): Web
      reads this
    {
      Web(listeners, clients, inputOwners, outputOwners, pollfds, accepted, responses, wire, down)
    }

    /** openListeners, on sockets already bound. */
    constructor (bound: seq<Listener>)
      ensures State() == Opened(bound)
    {
      listeners, clients, inputOwners, outputOwners, pollfds := [], map[], map[], map[], [];
      accepted, responses, wire, down := 0, map[], map[], false;
      new;
      for i := 0 to |bound|
        invariant State() == Opened(bound[..i])
      {
        listeners := listeners + [bound[i]];
        pollfds := pollfds + [PollFd(bound[i].fd, Reading, SILENT)];
        assert listeners == bound[..i + 1];
        assert pollfds == Opened(bound[..i + 1]).pollfds;
      }
      assert bound[..|bound|] == bound;
    }

    method RemovePollFd(fd: int)
      modifies this`pollfds
      ensures pollfds == Without(old(pollfds), fd)
    {
      for i := 0 to |pollfds|
        invariant pollfds == old(pollfds)
        invariant forall j :: 0 <= j < i ==> pollfds[j].fd != fd
      {
        if pollfds[i].fd == fd {
          WithoutAt(pollfds, fd, i);
          pollfds := pollfds[..i] + pollfds[i + 1..];
          return;
        }
      }
      WithoutAt(pollfds, fd, |pollfds|);
    }

    /** The loop at the end of finishCgi: the first entry, then done. */
    method WatchFirst(fd: int)
      requires Distinct(pollfds)
      modifies this`pollfds
      ensures pollfds == WithEvents(old(pollfds), fd, Writing)
    {
      for i := 0 to |pollfds|
        invariant pollfds == old(pollfds)
        invariant forall j :: 0 <= j < i ==> pollfds[j].fd != fd
      {
        if pollfds[i].fd == fd {
          WithEventsAt(pollfds, fd, Writing, i);
          pollfds := pollfds[i := pollfds[i].(events := Writing)];
          return;
        }
      }
    }

    /** The loops of expireClients: every entry of the descriptor. */
    method WatchAll(fd: int)
      modifies this`pollfds
      ensures pollfds == WithEvents(old(pollfds), fd, Writing)
    {
      for j := 0 to |pollfds|
        invariant |pollfds| == |old(pollfds)|
        invariant pollfds[..j] == WithEvents(old(pollfds), fd, Writing)[..j]
        invariant pollfds[j..] == old(pollfds)[j..]
      {
        assert pollfds[j] == pollfds[j..][0] == old(pollfds)[j];
        if pollfds[j].fd == fd {
          pollfds := pollfds[j := pollfds[j].(events := Writing)];
        }
        assert pollfds[..j + 1] == pollfds[..j] + [pollfds[j]];
      }
    }

    /** isListener: the configuration of the first listener with the descriptor. */
    method FindListener(fd: int) returns (config: Option<ServerConfig>)
      ensures config.Some? <==> IsListener(State(), fd)
      ensures config.Some? ==> config.value == ListenerConfig(State(), fd)
    {
      for i := 0 to |listeners|
        invariant forall j :: 0 <= j < i ==> listeners[j].fd != fd
        invariant IsListener(State(), fd) <==> exists l :: l in listeners[i..] && l.fd == fd
        invariant IsListener(State(), fd) ==> ConfigOf(listeners, fd) == ConfigOf(listeners[i..], fd)
      {
        if listeners[i].fd == fd {
          assert listeners[i..][0] == listeners[i];
          return Some(listeners[i].config);
        }
        assert listeners[i..] == [listeners[i]] + listeners[i + 1..];
      }
      return None;
    }

    method AcceptClient(index: nat, arrivals: seq<Arrival>, now: int)
      requires index < |pollfds| && IsListener(State(), pollfds[index].fd)
      modifies this
      ensures State()
           == AcceptUpTo(old(State()), ListenerConfig(old(State()), old(pollfds[index].fd)), arrivals, now, |arrivals|)
    {
      var found := FindListener(pollfds[index].fd);
      var config := found.value;
      for n := 0 to |arrivals|
        invariant State() == AcceptUpTo(old(State()), config, arrivals, now, n)
      {
        var fd := arrivals[n].fd;
        if |clients.Keys| >= MAX_CONNECTIONS {
          continue;
        }
        if !arrivals[n].ok {
          continue;
        }
        var client := NewClient(fd, config, now, accepted);
        clients := clients[fd := client];
        pollfds := pollfds + [PollFd(fd, Reading, SILENT)];
        wire := wire[accepted := ""];
        accepted := accepted + 1;
      }
    }

    method CloseClient(fd: int)
      modifies this
      ensures State() == Close(old(State()), fd)
    {
      if fd !in clients {
        return;
      }
      var client := clients[fd];
      ghost var w := State();
      if client.cgiInputFd >= 0 {
        inputOwners := inputOwners - {client.cgiInputFd};
        RemovePollFd(client.cgiInputFd);
      }
      if client.cgiOutputFd >= 0 {
        outputOwners := outputOwners - {client.cgiOutputFd};
        RemovePollFd(client.cgiOutputFd);
      }
      RemovePollFd(fd);
      clients := clients - {fd};
      assert State().clients == Close(w, fd).clients;
    }

    /** The connection is where its descriptor says, once in the poll list. */
    ghost predicate Placed(fd: int)
      reads this
    {
      Distinct(pollfds) && (fd in clients ==> clients[fd].fd == fd)
    }

    method FinishCgi(fd: int, response: string, now: int)
      requires Placed(fd) && (fd in clients ==> clients[fd].cgiPid > 0)
      modifies this
      ensures State() == Finish(old(State()), fd, response, now)
    {
      if fd !in clients {
        return;
      }
      ghost var w := State();
      if clients[fd].cgiInputFd >= 0 {
        WithoutIs(pollfds, clients[fd].cgiInputFd);
        inputOwners := inputOwners - {clients[fd].cgiInputFd};
        RemovePollFd(clients[fd].cgiInputFd);
        clients := clients[fd := clients[fd].(cgiInputFd := -1)];
      }
      assert State() == DropInput(w, fd);
      if clients[fd].cgiOutputFd >= 0 {
        WithoutIs(pollfds, clients[fd].cgiOutputFd);
        outputOwners := outputOwners - {clients[fd].cgiOutputFd};
        RemovePollFd(clients[fd].cgiOutputFd);
        clients := clients[fd := clients[fd].(cgiOutputFd := -1)];
      }
      assert State() == DropOutput(DropInput(w, fd), fd);
      Answered(clients[fd].(touched := now), response);
    }

    /** The CGI over and the response given. */
    method Answered(client: Client, response: string)
      requires Distinct(pollfds) && client.cgiPid > 0
      modifies this
      ensures State() == Answer(old(State()), client, response)
    {
      clients := clients[client.fd := client.(cgiPid := -1, output := response, sent := 0)];
      responses := responses[client.serial := response];
      WatchFirst(client.fd);
    }

    /** The three assignments that give a reading connection its response. */
    method Respond(index: nat, client: Client, response: string)
      requires Distinct(pollfds) && index < |pollfds| && pollfds[index].fd == client.fd
      requires client.cgiPid <= 0 && client.sent == 0
      modifies this
      ensures State() == Answer(old(State()), client, response)
    {
      WithEventsAt(pollfds, client.fd, Writing, index);
      clients := clients[client.fd := client.(output := response)];
      responses := responses[client.serial := response];
      pollfds := pollfds[index := pollfds[index].(events := Writing)];
    }

    /** How many connections have a CGI running. */
    method RunningCgi() returns (running: nat)
      ensures running == |Running(State())|
    {
      var keys := clients.Keys;
      running := 0;
      ghost var counted := {};
      while keys != {}
        invariant keys <= clients.Keys
        invariant counted == set fd | fd in clients.Keys - keys && clients[fd].cgiPid > 0
        invariant running == |counted|
        decreases |keys|
      {
        ghost var any := AnyOf(keys);
        var fd: int :| fd in keys;
        if clients[fd].cgiPid > 0 {
          running := running + 1;
          counted := counted + {fd};
        }
        keys := keys - {fd};
      }
      assert counted == Running(State());
    }

    /** startCgi: false when the request leads to no CGI script. `client` is the
        connection as readClient has just updated it. */
    method TryStartCgi(index: nat, client: Client, body: string, o: Os) returns (handled: bool)
      requires Distinct(pollfds) && index < |pollfds| && pollfds[index].fd == client.fd
      requires client.fd in clients && clients[client.fd] == client && client.cgiPid <= 0 && client.sent == 0
      modifies this
      ensures handled <==> !o.cgi.NotCgi?
      ensures State() == if handled then StartCgi(old(State()), client, body, o) else old(State())
    {
      if o.cgi.NotCgi? {
        return false;
      }
      var running := RunningCgi();
      if running >= MAX_CGI_PROCESSES {
        Respond(index, client, o.error(503));
        return true;
      }
      match o.cgi {
        case NoScript(status) =>
          Respond(index, client, o.error(status));
        case StartFailed =>
          Respond(index, client, o.error(500));
        case Started(pid, inputFd, outputFd, timeout) =>
          StartProcess(index, client.(touched := o.now), pid, inputFd, outputFd, body, timeout);
      }
      return true;
    }

    method StartProcess(index: nat, client: Client, pid: int, inputFd: int, outputFd: int, body: string, timeout: nat)
      requires Distinct(pollfds) && index < |pollfds| && pollfds[index].fd == client.fd
      modifies this
      ensures State() == Launch(old(State()), client, pid, inputFd, outputFd, body, timeout)
    {
      var started := client.(cgiPid := pid, cgiInputFd := inputFd, cgiOutputFd := outputFd, cgiInput := body,
                             cgiWritten := 0, cgiOutput := "", heard := [], fed := "", timeoutSeconds := timeout);
      WithEventsAt(pollfds, client.fd, Muted, index);
      pollfds := pollfds[index := pollfds[index].(events := Muted)];
      pollfds := pollfds + [PollFd(outputFd, Reading, SILENT)];
      outputOwners := outputOwners[outputFd := client.fd];
      if started.cgiInput == "" {
        started := started.(cgiInputFd := -1);
      } else {
        pollfds := pollfds + [PollFd(inputFd, Writing, SILENT)];
        inputOwners := inputOwners[inputFd := client.fd];
      }
      clients := clients[client.fd := started];
    }

    method ReadClient(index: nat, o: Os)
      requires index < |pollfds| && pollfds[index].fd in clients && Tables(State())
      requires InterestOf(clients[pollfds[index].fd]) == Reading && o.Sound()
      modifies this
      ensures State() == WebSteps.ReadClient(old(State()), old(pollfds[index].fd), o)
    {
      var fd := pollfds[index].fd;
      ghost var w := State();
      assert ClientOk(clients[fd], fd);
      if o.recv.WouldBlock? {
        return;
      }
      if o.recv.Ended? {
        CloseClient(fd);
        return;
      }
      var bytes := o.recv.bytes;
      var client := clients[fd];
      var requestLimit := RequestLimit(client.config.maxBody);
      if |client.input| > requestLimit - |bytes| {
        Respond(index, client, o.error(413));
        return;
      }
      client := client.(input := client.input + bytes, touched := o.now);
      clients := clients[fd := client];
      ServeRefreshed(w, client, o);
      var result := ParseRequest(client.input, client.config.maxBody);
      if result.Incomplete? {
        return;
      }
      if result.Crashed? || result.Stuck? {
        down := true;
        return;
      }
      if result.Accepted? {
        var handled := TryStartCgi(index, client, result.request.body, o);
        if handled {
          return;
        }
      }
      Respond(index, client, ReplyTo(result, o));
    }

    method WriteClient(index: nat, o: Os)
      requires index < |pollfds| && pollfds[index].fd in clients && clients[pollfds[index].fd].fd == pollfds[index].fd
      requires clients[pollfds[index].fd].sent <= |clients[pollfds[index].fd].output|
      requires o.count <= |clients[pollfds[index].fd].output| - clients[pollfds[index].fd].sent
      modifies this
      ensures State() == WebSteps.WriteClient(old(State()), old(pollfds[index].fd), o)
    {
      var fd := pollfds[index].fd;
      var client := clients[fd];
      if o.count < 0 && o.again {
        return;
      }
      if o.count <= 0 {
        CloseClient(fd);
        return;
      }
      client := MarkSent(client.(touched := o.now), o.count);
      if client.sent == |client.output| {
        CloseClient(fd);
      }
    }

    /** The peer has taken n bytes more. */
    method MarkSent(client: Client, n: nat) returns (updated: Client)
      requires client.sent + n <= |client.output|
      modifies this
      ensures updated == client.(sent := client.sent + n) && State() == Sent(old(State()), client, n)
    {
      ghost var bytes := client.output[client.sent..client.sent + n];
      wire := wire[client.serial := (if client.serial in wire then wire[client.serial] else "") + bytes];
      updated := client.(sent := client.sent + n);
      clients := clients[client.fd := updated];
    }

    method WriteCgi(index: nat, o: Os)
      requires index < |pollfds| && pollfds[index].fd in inputOwners
      requires Feeds(State(), pollfds[index].fd, inputOwners[pollfds[index].fd])
      requires clients[inputOwners[pollfds[index].fd]].fd == inputOwners[pollfds[index].fd]
      requires o.count <= |clients[inputOwners[pollfds[index].fd]].cgiInput|
                          - clients[inputOwners[pollfds[index].fd]].cgiWritten
      modifies this
      ensures State() == WebSteps.WriteCgi(old(State()), old(inputOwners[pollfds[index].fd]), o)
    {
      var pipeFd := pollfds[index].fd;
      var clientFd := inputOwners[pipeFd];
      ghost var w := State();
      if o.count < 0 && o.again {
        return;
      }
      if o.count > 0 {
        var client := clients[clientFd];
        var took := client.cgiInput[client.cgiWritten..client.cgiWritten + o.count];
        clients := clients[clientFd := client.(cgiWritten := client.cgiWritten + o.count, fed := client.fed + took,
                                               touched := o.now)];
      }
      assert State() == Refresh(w, clients[clientFd]);
      if o.count <= 0 || clients[clientFd].cgiWritten == |clients[clientFd].cgiInput| {
        clients := clients[clientFd := clients[clientFd].(cgiInputFd := -1)];
        inputOwners := inputOwners - {pipeFd};
        RemovePollFd(pipeFd);
      }
    }

    method ReadCgi(index: nat, o: Os)
      requires index < |pollfds| && pollfds[index].fd in outputOwners
      requires Drains(State(), pollfds[index].fd, outputOwners[pollfds[index].fd])
      requires Placed(outputOwners[pollfds[index].fd]) && clients[outputOwners[pollfds[index].fd]].cgiPid > 0
      modifies this
      ensures State() == WebSteps.ReadCgi(old(State()), old(outputOwners[pollfds[index].fd]), o)
    {
      var pipeFd := pollfds[index].fd;
      var clientFd := outputOwners[pipeFd];
      ghost var w := State();
      if o.recv.WouldBlock? {
        return;
      }
      if o.recv.Data? {
        var client := clients[clientFd];
        clients := clients[clientFd := client.(cgiOutput := client.cgiOutput + o.recv.bytes,
                                               heard := client.heard + [o.recv.bytes], touched := o.now)];
        assert State() == Refresh(w, clients[clientFd]);
        if |clients[clientFd].cgiOutput| > MAX_CGI_OUTPUT {
          FinishCgi(clientFd, CgiReply(clients[clientFd], o), o.now);
        }
        return;
      }
      clients := clients[clientFd := clients[clientFd].(cgiOutputFd := -1)];
      outputOwners := outputOwners - {pipeFd};
      WithoutIs(pollfds, pipeFd);
      RemovePollFd(pipeFd);
      assert State() == DropOutput(w, clientFd);
      if o.exited {
        FinishCgi(clientFd, CgiReply(clients[clientFd], o), o.now);
      }
    }

    /** The body of the scan in run, for a reported entry: the entry handled by
        what its descriptor is, and the index to go on from. */
    method HandleReported(i: nat, o: Os) returns (next: nat)
      requires i < |pollfds| && Tables(State()) && LegalOs(State(), i, o)
      requires Expected(State(), pollfds[i].fd, pollfds[i].revents)
      modifies this
      ensures State() == HandleEntry(old(State()), i, o)
      ensures next == NextIndex(State(), i, old(pollfds[i].fd))
    {
      ghost var w := State();
      var events := pollfds[i].revents;
      var fd := pollfds[i].fd;
      var listener := FindListener(fd);
      if listener.Some? {
        if events.readable {
          AcceptClient(i, o.arrivals, o.now);
          AcceptedMovesOn(w, ListenerConfig(w, fd), o.arrivals, o.now, i);
        }
        return i + 1;
      }
      OwnerIs(w, fd);
      if fd in outputOwners {
        TablesPlace(w, outputOwners[fd]);
        PipeMeansRunning(w, fd, outputOwners[fd]);
        if events.readable || events.hangup || events.error {
          ReadCgi(i, o);
        } else if events.invalid {
          CloseClient(outputOwners[fd]);
        }
      } else if fd in inputOwners {
        TablesPlace(w, inputOwners[fd]);
        if events.writable {
          WriteCgi(i, o);
        } else {
          CloseClient(inputOwners[fd]);
        }
      } else {
        EntryIsClient(w, i);
        next := HandleConnection(i, o);
        return;
      }
      return if i < |pollfds| && pollfds[i].fd == fd then i + 1 else i;
    }

    method HandleConnection(i: nat, o: Os) returns (next: nat)
      requires i < |pollfds| && pollfds[i].fd in clients && Tables(State()) && LegalOs(State(), i, o)
      requires Expected(State(), pollfds[i].fd, pollfds[i].revents)
      modifies this
      ensures State() == (var e := old(pollfds[i].revents);
                          var fd := old(pollfds[i].fd);
                          if e.error || e.hangup || e.invalid then Close(old(State()), fd)
                          else if e.readable then WebSteps.ReadClient(old(State()), fd, o)
                          else if e.writable then WebSteps.WriteClient(old(State()), fd, o)
                          else old(State()))
      ensures next == NextIndex(State(), i, old(pollfds[i].fd))
    {
      ghost var w := State();
      var events := pollfds[i].revents;
      var fd := pollfds[i].fd;
      TablesPlace(w, fd);
      if events.error || events.hangup || events.invalid {
        CloseClient(fd);
        ClosedMovesOn(w, fd, i);
        return i;
      }
      if events.readable {
        ReadClient(i, o);
      } else if events.writable {
        WriteClient(i, o);
      }
      return if i < |pollfds| && pollfds[i].fd == fd then i + 1 else i;
    }

    /** One reported entry of the scan. */
    method HandleNext(i: nat, answers: seq<Os>, ghost left: nat, ghost handled: set<int>, ghost target: Web)
      returns (next: nat, rest: seq<Os>, ghost more: set<int>)
      requires ScanAt(State(), i, handled, left + 1, answers, target)
      requires i < |pollfds| && !down && !pollfds[i].revents.Silent()
      modifies this
      ensures ScanAt(State(), next, more, left, rest, target)
    {
      ScanHandles(State(), i, handled, left + 1, answers, target);
      more := handled + {pollfds[i].fd};
      next := HandleReported(i, answers[0]);
      rest := answers[1..];
    }

    /** One entry of the scan: passed over when nothing was reported. */
    method ScanOne(i: nat, ready: nat, answers: seq<Os>, ghost handled: set<int>, ghost target: Web)
      returns (next: nat, left: nat, rest: seq<Os>, ghost more: set<int>)
      requires ScanAt(State(), i, handled, ready, answers, target)
      requires i < |pollfds| && ready > 0 && !down
      modifies this
      ensures ScanAt(State(), next, more, left, rest, target)
      ensures left < ready || (left == ready && next == i + 1 && |pollfds| == old(|pollfds|))
    {
      if pollfds[i].revents.Silent() {
        ScanSkips(State(), i, handled, ready, answers, target);
        return i + 1, ready, answers, handled;
      }
      left := ready - 1;
      next, rest, more := HandleNext(i, answers, left, handled, target);
    }

    /** The scan of the poll list in run. */
    method Scan(reported: nat, os: seq<Os>)
      requires PassOk(State(), 0, {}) && LegalPass(State(), 0, {}, reported, os)
      modifies this
      ensures State() == PassFrom(old(State()), 0, {}, reported, os)
    {
      ScanList(reported, os, PassFrom(State(), 0, {}, reported, os));
    }

    method ScanList(reported: nat, os: seq<Os>, ghost target: Web)
      requires ScanAt(State(), 0, {}, reported, os, target)
      modifies this
      ensures State() == target
    {
      var i: nat, ready: nat, answers := 0, reported, os;
      ghost var handled: set<int> := {};
      while i < |pollfds| && ready > 0 && !down
        invariant ScanAt(State(), i, handled, ready, answers, target)
        decreases ready, |pollfds| - i
      {
        i, ready, answers, handled := ScanOne(i, ready, answers, handled, target);
      }
      ScanEnds(State(), i, handled, ready, answers, target);
    }

    /** reapCgi: the exited CGIs are listed first, then finished. */
    method ReapCgi(t: Turn)
      requires Tables(State()) && t.Sound()
      modifies this
      ensures State() == Reap(old(State()), t)
    {
      var found := ListExited(t.exited);
      ReapListed(State(), t.exited);
      forall j | 0 <= j < |found| ensures found[j] in clients && clients[found[j]].cgiPid > 0 {
        assert found[j] in found;
      }
      FinishListed(found, t);
    }

    method ListExited(exited: map<int, bool>) returns (found: seq<int>)
      ensures found == ReapList(State(), exited)
    {
      ghost var keep := set fd | fd in clients && Reapable(State(), fd, exited);
      var keys := clients.Keys;
      found := [];
      ghost var done: seq<int> := [];
      while keys != {}
        invariant keys <= clients.Keys
        invariant Ascending(clients.Keys) == done + Ascending(keys)
        invariant found == Filter(done, keep)
        decreases |keys|
      {
        ghost var least := MinExists(keys);
        var fd: int :| fd in keys && forall x :: x in keys ==> fd <= x;
        AscendingNext(done, keys, clients.Keys, fd);
        FilterStep(done, fd, keep);
        keys := keys - {fd};
        done := done + [fd];
        if clients[fd].cgiPid <= 0 || clients[fd].cgiOutputFd >= 0 {
          continue;
        }
        if fd in exited {
          found := found + [fd];
        }
      }
      assert done + Ascending({}) == done;
    }

    method ListStale(now: int) returns (expired: seq<int>)
      ensures expired == StaleList(State(), now)
    {
      ghost var keep := set fd | fd in clients && Stale(State(), fd, now);
      var keys := clients.Keys;
      expired := [];
      ghost var done: seq<int> := [];
      while keys != {}
        invariant keys <= clients.Keys
        invariant Ascending(clients.Keys) == done + Ascending(keys)
        invariant expired == Filter(done, keep)
        decreases |keys|
      {
        ghost var least := MinExists(keys);
        var fd: int :| fd in keys && forall x :: x in keys ==> fd <= x;
        AscendingNext(done, keys, clients.Keys, fd);
        FilterStep(done, fd, keep);
        keys := keys - {fd};
        done := done + [fd];
        if now - clients[fd].touched > clients[fd].timeoutSeconds {
          expired := expired + [fd];
        }
      }
      assert done + Ascending({}) == done;
    }

    /** expireClients: the stale connections are listed first, then answered or
        closed. */
    method ExpireClients(error: int -> string, now: int)
      requires Tables(State()) && forall status :: error(status) != ""
      modifies this
      ensures State() == Expire(old(State()), error, now)
    {
      ghost var w := State();
      var expired := ListStale(now);
      for n := 0 to |expired|
        invariant State() == ExpireUpTo(w, expired, error, now, n) && Tables(State())
      {
        ExpireOneKeeps(State(), expired[n], error, now);
        if expired[n] !in clients {
          continue;
        }
        TablesPlace(State(), expired[n]);
        ExpireOneClient(expired[n], error, now);
      }
    }

    method ExpireOneClient(fd: int, error: int -> string, now: int)
      requires Placed(fd) && fd in clients && (clients[fd].output == "" ==> clients[fd].sent == 0)
      modifies this
      ensures State() == ExpireOne(old(State()), fd, error, now)
    {
      if clients[fd].cgiPid > 0 {
        FinishCgi(fd, error(504), now);
      } else if clients[fd].output == "" {
        ghost var client := clients[fd].(touched := now);
        clients := clients[fd := clients[fd].(output := error(408), sent := 0, touched := now)];
        responses := responses[clients[fd].serial := error(408)];
        WatchAll(fd);
      } else {
        CloseClient(fd);
      }
    }

    /** One turn of run: poll's reports, the scan, the exited CGIs, the stale
        connections. */
    method Turn(t: Turn)
      requires Tables(State()) && LegalTurn(State(), t)
      modifies this
      ensures State() == TakeTurn(old(State()), t)
      ensures Tables(State()) && Keeps(old(State()), State())
    {
      TurnKeeps(State(), t);
      if down {
        return;
      }
      PassBegins(State(), t.reports);
      TakeReports(t.reports);
      PassFromKeeps(State(), 0, {}, t.ready, t.os);
      Scan(t.ready, t.os);
      if down {
        return;
      }
      ReapKeeps(State(), t);
      ReapCgi(t);
      ExpireClients(t.error, t.now);
    }

    /** poll writing the reports into the list. */
    method TakeReports(reports: seq<Report>)
      requires |reports| == |pollfds|
      modifies this`pollfds
      ensures State() == Polled(old(State()), reports)
    {
      var before := pollfds;
      pollfds := seq(|before|, j requires 0 <= j < |before| && j < |reports| => before[j].(revents := reports[j]));
    }

    method FinishListed(fds: seq<int>, t: Turn)
      requires Tables(State()) && NoRepeats(fds) && t.Sound()
      requires forall j :: 0 <= j < |fds| ==> fds[j] in clients && clients[fds[j]].cgiPid > 0
      modifies this
      ensures State() == FinishUpTo(old(State()), fds, t, |fds|)
    {
      ghost var w := State();
      for n := 0 to |fds|
        invariant State() == FinishUpTo(w, fds, t, n) && Tables(State())
        invariant forall j :: n <= j < |fds| ==> fds[j] in clients ==> clients[fds[j]].cgiPid > 0
      {
        ghost var v := State();
        if fds[n] in clients { TablesPlace(v, fds[n]); }
        var response := t.error(500);
        if fds[n] in clients {
          response := FinalReply(clients[fds[n]], fds[n] in t.exited && t.exited[fds[n]], t.script, t.error);
        }
        FinishOne(v, fds[n], response, t.now);
        FinishCgi(fds[n], response, t.now);
        forall j | n + 1 <= j < |fds| ensures fds[j] in clients ==> clients[fds[j]].cgiPid > 0 {
          FinishKeepsPlace(v, fds[n], response, t.now, fds[j]);
        }
      }
    }
  }
}