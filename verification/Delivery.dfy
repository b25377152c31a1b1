/** Send buffers, the poll list and deferred disconnects
    (queueToClient in services/irc/prd/interface/ServerRelations.cpp,
    the poll list in services/irc/prd/interface/ServerNetwork.cpp). */
module Delivery {
  import opened IrcUtil
  import opened Strings
  import opened Commands

  const MAX_SEND_BUFFER: nat := 1048576

  /** The byte buffers of one connection. `accepted` and `sent` record history,
      read by no operation: the messages queued so far, each with its CRLF, and
      the bytes the socket took. */
  datatype Port = Port(receiveBuffer: string, sendBuffer: string, accepted: seq<string>, sent: string)

  /** A pollfd. POLLIN is always watched, POLLOUT when `out`. */
  datatype Watch = Watch(fd: int, out: bool)

  datatype Io = Io(
    ports: map<int, Port>,
    poll: seq<Watch>,
    pending: set<int>,
    reasons: map<int, string>)

  // ---------------------------------------------------------------- queueing

  predicate EndsInCrLf(s: string) {
    |s| >= 2 && s[|s| - 2..] == "\r\n"
  }

  function Normalize(text: string): string {
    if EndsInCrLf(text) then text else text + "\r\n"
  }

  predicate Fits(port: Port, text: string) {
    |port.sendBuffer| + |Normalize(text)| <= MAX_SEND_BUFFER
  }

  function Accept(port: Port, text: string): Port {
    port.(sendBuffer := port.sendBuffer + Normalize(text),
          accepted := port.accepted + [Normalize(text)])
  }

  predicate Takes(io: Io, fds: set<int>, text: string, fd: int) {
    fd in io.ports && fd in fds && Fits(io.ports[fd], text)
  }

  /** POLLOUT follows the send buffer, for the descriptors that changed. */
  function WatchOutput(poll: seq<Watch>, fds: set<int>): seq<Watch> {
    seq(|poll|, i requires 0 <= i < |poll| =>
      if poll[i].fd in fds then Watch(poll[i].fd, true) else poll[i])
  }

  /** A message offered to a set of clients at once: each one with room takes
      it, each one without is reserved for disconnection and takes nothing. */
  function Offer(io: Io, fds: set<int>, text: string): Io {
    var takers := set fd | fd in io.ports && Takes(io, fds, text, fd);
    Io(
      map fd | fd in io.ports :: if fd in takers then Accept(io.ports[fd], text) else io.ports[fd],
      WatchOutput(io.poll, takers),
      io.pending + (set fd | fd in io.ports && fd in fds && fd !in takers),
      io.reasons)
  }

  /** A list of messages, in order. */
  function Deliver(io: Io, sends: seq<Send>): Io {
    if sends == [] then io
    else
      var last := sends[|sends| - 1];
      Offer(Deliver(io, sends[..|sends| - 1]), last.to, last.text)
  }

  lemma DeliverOne(io: Io, send: Send)
    ensures Deliver(io, [send]) == Offer(io, send.to, send.text)
  {
    assert [send][..0] == [];
  }

  lemma {:induction false} DeliverAppend(io: Io, a: seq<Send>, b: seq<Send>)
    ensures Deliver(io, a + b) == Deliver(Deliver(io, a), b)
    decreases |b|
  {
    if b == [] {
      assert a + b == a;
    } else {
      assert (a + b)[..|a + b| - 1] == a + b[..|b| - 1];
      DeliverAppend(io, a, b[..|b| - 1]);
    }
  }

  /** Offering to one client after another is offering to all at once. */
  lemma OfferGrows(io: Io, done: set<int>, fd: int, text: string)
    requires fd !in done
    ensures Offer(Offer(io, done, text), {fd}, text) == Offer(io, done + {fd}, text)
  {
    var mid := Offer(io, done, text);
    var left := Offer(mid, {fd}, text);
    var right := Offer(io, done + {fd}, text);
    assert fd in io.ports ==> mid.ports[fd] == io.ports[fd];
    assert left.ports == right.ports;
    assert left.poll == right.poll;
    assert left.pending == right.pending;
  }

  lemma OfferNobody(io: Io, text: string)
    ensures Offer(io, {}, text) == io
  {
    assert Offer(io, {}, text).ports == io.ports;
    assert Offer(io, {}, text).poll == io.poll;
  }

  /** A message for one client that has no room for it. */
  lemma OfferRefused(io: Io, x: int, text: string)
    requires x in io.ports && !Fits(io.ports[x], text)
    ensures Offer(io, {x}, text) == io.(pending := io.pending + {x})
  {
    var next := Offer(io, {x}, text);
    assert (set fd | fd in io.ports && Takes(io, {x}, text, fd)) == {};
    assert next.ports == io.ports && next.poll == io.poll;
  }

  // ----------------------------------------------------- poll list and rest

  ghost function Fds(poll: seq<Watch>): set<int> {
    set w | w in poll :: w.fd
  }

  predicate Distinct(poll: seq<Watch>) {
    forall i, j :: 0 <= i < j < |poll| ==> poll[i].fd != poll[j].fd
  }

  /** The first entry of the descriptor removed. */
  function WithoutFd(poll: seq<Watch>, fd: int): seq<Watch> {
    if poll == [] then []
    else if poll[0].fd == fd then poll[1..]
    else [poll[0]] + WithoutFd(poll[1..], fd)
  }

  function SetWatch(poll: seq<Watch>, fd: int, out: bool): seq<Watch> {
    seq(|poll|, i requires 0 <= i < |poll| => if poll[i].fd == fd then Watch(fd, out) else poll[i])
  }

  function Schedule(io: Io, fd: int): Io { io.(pending := io.pending + {fd}) }

  function ScheduleQuit(io: Io, fd: int, reason: string): Io {
    Schedule(io.(reasons := io.reasons[fd := reason]), fd)
  }

  function Opened(io: Io, fd: int): Io {
    io.(ports := io.ports[fd := Port("", "", [], "")], poll := io.poll + [Watch(fd, false)])
  }

  function Closed(io: Io, fd: int): Io {
    io.(ports := io.ports - {fd}, poll := WithoutFd(io.poll, fd), reasons := io.reasons - {fd})
  }

  function Received(io: Io, fd: int, chunk: string): Io
    requires fd in io.ports
  {
    var p := io.ports[fd];
    io.(ports := io.ports[fd := p.(receiveBuffer := p.receiveBuffer + chunk)])
  }

  function Consumed(io: Io, fd: int, n: nat): Io
    requires fd in io.ports && n <= |io.ports[fd].receiveBuffer|
  {
    var p := io.ports[fd];
    io.(ports := io.ports[fd := p.(receiveBuffer := p.receiveBuffer[n..])])
  }

  /** send() took the first n bytes, or failed when n is not positive. */
  function Flushed(io: Io, fd: int, n: int): Io
    requires fd in io.ports && n <= |io.ports[fd].sendBuffer|
  {
    var p := io.ports[fd];
    if p.sendBuffer != "" && n <= 0 then Schedule(io, fd)
    else
      var k := if p.sendBuffer == "" then 0 else n;
      var q := p.(sendBuffer := p.sendBuffer[k..], sent := p.sent + p.sendBuffer[..k]);
      io.(ports := io.ports[fd := q], poll := SetWatch(io.poll, fd, q.sendBuffer != ""))
  }

  // ------------------------------------------------------------- invariant

  predicate GoodLine(s: string) { s != "" && OneLine(s) }

  /** One non-empty line and its CRLF. */
  predicate FramedLine(a: string) {
    |a| > 2 && EndsInCrLf(a) && OneLine(a[..|a| - 2])
  }

  /** Bytes sent and bytes waiting are together the accepted messages in queue
      order; at most 1 MiB waits; every message is one non-empty line. */
  ghost predicate PortOk(p: Port) {
    && p.sent + p.sendBuffer == Concat(p.accepted)
    && |p.sendBuffer| <= MAX_SEND_BUFFER
    && forall i {:trigger FramedLine(p.accepted[i])} :: 0 <= i < |p.accepted| ==> FramedLine(p.accepted[i])
  }

  /** POLLOUT is watched exactly when bytes are waiting. */
  predicate WatchOk(ports: map<int, Port>, w: Watch) {
    if w.fd in ports then w.out <==> ports[w.fd].sendBuffer != "" else !w.out
  }

  ghost predicate IoOk(io: Io, listenFd: int) {
    && listenFd !in io.ports
    && Distinct(io.poll)
    && Fds(io.poll) == io.ports.Keys + {listenFd}
    && (forall i {:trigger io.poll[i]} :: 0 <= i < |io.poll| ==> WatchOk(io.ports, io.poll[i]))
    && (forall fd {:trigger PortOk(io.ports[fd])} :: fd in io.ports ==> PortOk(io.ports[fd]))
    && io.reasons.Keys <= io.ports.Keys
  }

  predicate GoodSends(sends: seq<Send>) {
    forall i {:trigger sends[i]} :: 0 <= i < |sends| ==> GoodLine(sends[i].text)
  }

  lemma AcceptKeeps(p: Port, text: string)
    requires PortOk(p) && GoodLine(text) && Fits(p, text)
    ensures PortOk(Accept(p, text))
    ensures Accept(p, text).sendBuffer != ""
  {
    var a := Normalize(text);
    var q := Accept(p, text);
    GoodLineNormal(text);
    ConcatLast(p.accepted, a);
    assert p.sent + (p.sendBuffer + a) == p.sent + p.sendBuffer + a;
    forall i | 0 <= i < |q.accepted| ensures FramedLine(q.accepted[i]) {
      if i < |p.accepted| { assert FramedLine(p.accepted[i]); }
    }
  }

  lemma GoodLineNormal(text: string)
    requires GoodLine(text)
    ensures Normalize(text) == text + "\r\n" && FramedLine(Normalize(text))
  {
    assert LineChar(text[|text| - 1]);
    assert |text| >= 2 ==> text[|text| - 1] == text[|text| - 2..][1];
    var a := text + "\r\n";
    assert a[|a| - 2..] == "\r\n" && a[..|a| - 2] == text;
  }

  lemma FdsSame(poll: seq<Watch>, other: seq<Watch>)
    requires |poll| == |other| && forall i :: 0 <= i < |poll| ==> poll[i].fd == other[i].fd
    ensures Fds(poll) == Fds(other) && (Distinct(poll) <==> Distinct(other))
  {
    forall fd ensures fd in Fds(poll) <==> fd in Fds(other) {
      if fd in Fds(poll) {
        var i :| 0 <= i < |poll| && poll[i].fd == fd;
        assert other[i] in other;
      }
      if fd in Fds(other) {
        var i :| 0 <= i < |other| && other[i].fd == fd;
        assert poll[i] in poll;
      }
    }
  }

  lemma OfferKeeps(io: Io, listenFd: int, fds: set<int>, text: string)
    requires IoOk(io, listenFd) && GoodLine(text)
    ensures IoOk(Offer(io, fds, text), listenFd)
  {
    var next := Offer(io, fds, text);
    FdsSame(io.poll, next.poll);
    forall fd | fd in next.ports ensures PortOk(next.ports[fd]) {
      assert PortOk(io.ports[fd]);
      if Takes(io, fds, text, fd) { AcceptKeeps(io.ports[fd], text); }
    }
    forall i | 0 <= i < |next.poll| ensures WatchOk(next.ports, next.poll[i]) {
      assert WatchOk(io.ports, io.poll[i]);
      var fd := io.poll[i].fd;
      if Takes(io, fds, text, fd) {
        assert PortOk(io.ports[fd]);
        AcceptKeeps(io.ports[fd], text);
      }
    }
  }

  /** What delivery never touches. */
  predicate SendSideOnly(io: Io, next: Io) {
    && next.ports.Keys == io.ports.Keys
    && next.reasons == io.reasons
    && io.pending <= next.pending <= io.pending + io.ports.Keys
    && |next.poll| == |io.poll|
    && (forall i {:trigger next.poll[i]} :: 0 <= i < |io.poll| ==> next.poll[i].fd == io.poll[i].fd)
    && (forall fd {:trigger next.ports[fd]} :: fd in io.ports ==>
          next.ports[fd].receiveBuffer == io.ports[fd].receiveBuffer)
  }

  lemma OfferFrame(io: Io, fds: set<int>, text: string)
    ensures SendSideOnly(io, Offer(io, fds, text))
  {
  }

  lemma {:induction false} DeliverFrame(io: Io, sends: seq<Send>)
    ensures SendSideOnly(io, Deliver(io, sends))
  {
    if sends != [] {
      DeliverFrame(io, sends[..|sends| - 1]);
    }
  }

  /** Delivering well-formed messages keeps conservation, framing, the 1 MiB
      bound and the POLLOUT rule. */
  lemma {:induction false} DeliverKeeps(io: Io, listenFd: int, sends: seq<Send>)
    requires IoOk(io, listenFd) && GoodSends(sends)
    ensures IoOk(Deliver(io, sends), listenFd)
  {
    if sends != [] {
      var init := sends[..|sends| - 1];
      var last := sends[|sends| - 1];
      assert forall i :: 0 <= i < |init| ==> init[i] == sends[i];
      DeliverKeeps(io, listenFd, init);
      OfferKeeps(Deliver(io, init), listenFd, last.to, last.text);
    }
  }

  // -------------------------------------------------- what the peer can read

  /** Cutting a stream after each LF, the line end removed. */
  function SplitCrLf(s: string): seq<string>
    decreases |s|
  {
    var p := Find(s, '\n', 0);
    if p == |s| then [] else [if p > 0 then s[..p - 1] else ""] + SplitCrLf(s[p + 1..])
  }

  function Bodies(accepted: seq<string>): seq<string> {
    seq(|accepted|, i requires 0 <= i < |accepted| =>
      if |accepted[i]| >= 2 then accepted[i][..|accepted[i]| - 2] else "")
  }

  predicate AllFramed(accepted: seq<string>) {
    forall i {:trigger FramedLine(accepted[i])} :: 0 <= i < |accepted| ==> FramedLine(accepted[i])
  }

  lemma FirstLineOf(a: string, rest: string)
    requires FramedLine(a)
    ensures Find(a + rest, '\n', 0) == |a| - 1
    ensures (a + rest)[|a|..] == rest && (a + rest)[..|a| - 2] == a[..|a| - 2]
  {
    var s := a + rest;
    assert a[|a| - 1] == a[|a| - 2..][1];
    assert a[|a| - 2] == a[|a| - 2..][0];
    forall i | 0 <= i < |a| - 1 ensures s[i] != '\n' {
      if i < |a| - 2 { assert LineChar(a[..|a| - 2][i]); }
    }
    FindIs(s, '\n', 0, |a| - 1);
  }

  lemma SplitHead(a: string, rest: string)
    requires FramedLine(a)
    ensures SplitCrLf(a + rest) == [a[..|a| - 2]] + SplitCrLf(rest)
  {
    FirstLineOf(a, rest);
  }

  lemma BodiesHead(accepted: seq<string>)
    requires AllFramed(accepted) && accepted != []
    ensures AllFramed(accepted[1..]) && FramedLine(accepted[0])
    ensures Bodies(accepted) == [accepted[0][..|accepted[0]| - 2]] + Bodies(accepted[1..])
  {
    assert FramedLine(accepted[0]);
    forall i | 0 <= i < |accepted[1..]| ensures FramedLine(accepted[1..][i]) {
      assert FramedLine(accepted[i + 1]);
    }
  }

  lemma {:induction false} SplitRecovers(accepted: seq<string>)
    requires AllFramed(accepted)
    ensures SplitCrLf(Concat(accepted)) == Bodies(accepted)
    decreases |accepted|
  {
    if accepted != [] {
      BodiesHead(accepted);
      SplitHead(accepted[0], Concat(accepted[1..]));
      SplitRecovers(accepted[1..]);
    }
  }

  /** What the peer sees: once everything waiting is sent, cutting its stream at
      CRLF gives back exactly the accepted messages, in order, none empty, none
      split and none merged. */
  lemma StreamRecoversMessages(io: Io, listenFd: int, fd: int)
    requires IoOk(io, listenFd) && fd in io.ports
    ensures var p := io.ports[fd];
      && SplitCrLf(p.sent + p.sendBuffer) == Bodies(p.accepted)
      && |Bodies(p.accepted)| == |p.accepted|
      && forall i :: 0 <= i < |p.accepted| ==>
           Bodies(p.accepted)[i] != "" && p.accepted[i] == Bodies(p.accepted)[i] + "\r\n"
  {
    var p := io.ports[fd];
    assert PortOk(p);
    SplitRecovers(p.accepted);
    forall i | 0 <= i < |p.accepted|
      ensures Bodies(p.accepted)[i] != "" && p.accepted[i] == Bodies(p.accepted)[i] + "\r\n"
    {
      var a := p.accepted[i];
      assert FramedLine(a);
      assert a == a[..|a| - 2] + a[|a| - 2..];
    }
  }

  // ----------------------------------------------------- other transitions

  lemma ScheduleKeeps(io: Io, listenFd: int, fd: int)
    requires IoOk(io, listenFd)
    ensures IoOk(Schedule(io, fd), listenFd)
  {
  }

  lemma OpenedFds(io: Io, listenFd: int, fd: int)
    requires IoOk(io, listenFd) && fd !in io.ports && fd != listenFd
    ensures Distinct(Opened(io, fd).poll) && Fds(Opened(io, fd).poll) == Fds(io.poll) + {fd}
  {
    var next := Opened(io, fd);
    forall x ensures x in Fds(next.poll) <==> x in Fds(io.poll) || x == fd {
      assert next.poll[|io.poll|] == Watch(fd, false);
      if x in Fds(io.poll) {
        var i :| 0 <= i < |io.poll| && io.poll[i].fd == x;
        assert next.poll[i] in next.poll;
      }
    }
    forall i | 0 <= i < |io.poll| ensures io.poll[i].fd != fd { assert io.poll[i].fd in Fds(io.poll); }
  }

  lemma OpenedKeeps(io: Io, listenFd: int, fd: int)
    requires IoOk(io, listenFd) && fd !in io.ports && fd != listenFd
    ensures IoOk(Opened(io, fd), listenFd)
  {
    var next := Opened(io, fd);
    OpenedFds(io, listenFd, fd);
    forall x | x in next.ports ensures PortOk(next.ports[x]) {
      if x != fd { assert PortOk(io.ports[x]); }
    }
    forall i | 0 <= i < |next.poll| ensures WatchOk(next.ports, next.poll[i]) {
      if i < |io.poll| { assert WatchOk(io.ports, io.poll[i]); }
    }
  }

  lemma {:induction false} WithoutFdIs(poll: seq<Watch>, fd: int)
    requires Distinct(poll)
    ensures Distinct(WithoutFd(poll, fd))
    ensures forall w :: w in WithoutFd(poll, fd) <==> w in poll && w.fd != fd
  {
    if poll != [] {
      assert forall j :: 1 <= j < |poll| ==> poll[j] == poll[1..][j - 1];
      WithoutFdIs(poll[1..], fd);
      assert forall w :: w in poll <==> w == poll[0] || w in poll[1..];
      assert forall w :: w in poll[1..] ==> w.fd != poll[0].fd;
    }
  }

  lemma ClosedKeeps(io: Io, listenFd: int, fd: int)
    requires IoOk(io, listenFd) && fd in io.ports
    ensures IoOk(Closed(io, fd), listenFd)
  {
    var next := Closed(io, fd);
    WithoutFdIs(io.poll, fd);
    forall x ensures x in Fds(next.poll) <==> x in Fds(io.poll) && x != fd {
      if x in Fds(next.poll) { var w :| w in next.poll && w.fd == x; assert w in io.poll; }
      if x in Fds(io.poll) && x != fd { var w :| w in io.poll && w.fd == x; assert w in next.poll; }
    }
    forall x | x in next.ports ensures PortOk(next.ports[x]) { assert PortOk(io.ports[x]); }
    forall i | 0 <= i < |next.poll| ensures WatchOk(next.ports, next.poll[i]) {
      var w := next.poll[i];
      assert w in io.poll;
      var j :| 0 <= j < |io.poll| && io.poll[j] == w;
      assert WatchOk(io.ports, io.poll[j]);
    }
  }

  /** A change of buffers that leaves output alone. */
  lemma ReceiveSideKeeps(io: Io, listenFd: int, fd: int, buffer: string)
    requires IoOk(io, listenFd) && fd in io.ports
    ensures IoOk(io.(ports := io.ports[fd := io.ports[fd].(receiveBuffer := buffer)]), listenFd)
  {
    var next := io.(ports := io.ports[fd := io.ports[fd].(receiveBuffer := buffer)]);
    forall x | x in next.ports ensures PortOk(next.ports[x]) { assert PortOk(io.ports[x]); }
    forall i | 0 <= i < |next.poll| ensures WatchOk(next.ports, next.poll[i]) {
      assert WatchOk(io.ports, io.poll[i]);
    }
  }

  lemma FlushedPort(p: Port, k: nat)
    requires PortOk(p) && k <= |p.sendBuffer|
    ensures PortOk(p.(sendBuffer := p.sendBuffer[k..], sent := p.sent + p.sendBuffer[..k]))
  {
    assert p.sent + p.sendBuffer[..k] + p.sendBuffer[k..] == p.sent + p.sendBuffer;
  }

  lemma FlushedWatches(io: Io, listenFd: int, fd: int, n: int)
    requires IoOk(io, listenFd) && fd in io.ports && n <= |io.ports[fd].sendBuffer|
    requires io.ports[fd].sendBuffer == "" || n > 0
    ensures var next := Flushed(io, fd, n);
      && Distinct(next.poll) && Fds(next.poll) == Fds(io.poll)
      && forall i {:trigger next.poll[i]} :: 0 <= i < |next.poll| ==> WatchOk(next.ports, next.poll[i])
  {
    var next := Flushed(io, fd, n);
    FdsSame(io.poll, next.poll);
    forall i | 0 <= i < |next.poll| ensures WatchOk(next.ports, next.poll[i]) {
      assert WatchOk(io.ports, io.poll[i]);
    }
  }

  /** Sending moves bytes from waiting to sent and loses none. */
  lemma FlushedKeeps(io: Io, listenFd: int, fd: int, n: int)
    requires IoOk(io, listenFd) && fd in io.ports && n <= |io.ports[fd].sendBuffer|
    ensures IoOk(Flushed(io, fd, n), listenFd)
  {
    var p := io.ports[fd];
    assert PortOk(p);
    if p.sendBuffer == "" || n > 0 {
      var next := Flushed(io, fd, n);
      FlushedPort(p, if p.sendBuffer == "" then 0 else n);
      FlushedWatches(io, listenFd, fd, n);
      forall x | x in next.ports ensures PortOk(next.ports[x]) { assert PortOk(io.ports[x]); }
    }
  }
}
