/** What draining the reserved disconnections does to everyone else: each QUIT
    is offered once, to exactly the clients that share a channel, and a client
    already erased stays reserved exactly when the QUITs before its own turn
    did not fit its send buffer
    (processPendingDisconnects and disconnectClient in
    services/irc/prd/interface/ServerRelations.cpp). */
module Disconnects {
  import opened IrcUtil
  import opened Domain
  import opened Ordered
  import opened Reply
  import opened Commands
  import opened Moves
  import opened Delivery
  import opened EventLoop

  /** Sharing a channel, however many are shared. */
  lemma NeighboursMeaning(c: Core, fd: int, x: int)
    requires Inv(c) && fd in c.clients
    ensures x in Neighbours(c, fd) <==> x != fd && exists k :: HasMember(c, fd, k) && HasMember(c, x, k)
    ensures x in Neighbours(c, fd) ==> x in c.clients
  {
    if x in Neighbours(c, fd) {
      var k :| k in c.clients[fd].joined && Fold(k) in c.channels && x in c.channels[Fold(k)].members;
      JoinedFolded(c, fd);
      assert HasJoined(c, fd, k);
      assert HasMember(c, fd, k) && HasMember(c, x, k);
      assert HasJoined(c, x, k);
    }
    if k :| x != fd && HasMember(c, fd, k) && HasMember(c, x, k) {
      assert HasJoined(c, fd, k);
      JoinedFolded(c, fd);
    }
  }

  ghost predicate Hears(v: View, fd: int, x: int) {
    fd in v.core.clients && x in Neighbours(v.core, fd)
  }

  ghost function QuitText(v: View, fd: int): string {
    if fd in v.core.clients then Notice(v.core, fd, "QUIT", ":" + ReasonOf(v, fd)) else ""
  }

  /** The QUIT of a client gives the reason it left behind, or the usual one. */
  lemma QuitTextIs(v: View, fd: int)
    requires fd in v.core.clients
    ensures QuitText(v, fd)
         == Command(ClientPrefix(v.core.clients[fd]), "QUIT",
                    ":" + if fd in v.io.reasons then v.io.reasons[fd] else "Connection closed")
  {
  }

  /** One disconnection seen by one other client: the QUIT is queued once, or
      not at all for want of room, and then the client is reserved itself. */
  lemma QuitOffered(cfg: Config, v: View, fd: int, x: int)
    requires ViewOk(cfg, v) && x in v.io.ports && x != fd
    ensures var w := DisconnectOne(v, fd);
      var quit := QuitText(v, fd);
      && x in w.io.ports
      && w.io.ports[x] == (if Hears(v, fd, x) && Fits(v.io.ports[x], quit)
                           then Accept(v.io.ports[x], quit) else v.io.ports[x])
      && (x in w.io.pending <==> x in v.io.pending || (Hears(v, fd, x) && !Fits(v.io.ports[x], quit)))
  {
    if fd in v.core.clients {
      DeliverOne(v.io, Send(Neighbours(v.core, fd), QuitText(v, fd)));
    }
  }

  /** One disconnection seen by a client that is not connected, or by itself. */
  lemma QuitNotOffered(cfg: Config, v: View, fd: int, x: int)
    requires ViewOk(cfg, v) && (x !in v.io.ports || x == fd)
    ensures x in DisconnectOne(v, fd).io.pending <==> x in v.io.pending
  {
    if fd in v.core.clients {
      DeliverOne(v.io, Send(Neighbours(v.core, fd), QuitText(v, fd)));
    }
  }

  lemma MembersAfter(c: Core, fd: int, x: int, k: string)
    requires Inv(c) && fd in c.clients && x != fd
    ensures HasMember(Erased(c, fd), x, k) <==> HasMember(c, x, k)
  {
    if HasMember(c, x, k) { assert x in c.channels[k].members - {fd}; }
  }

  lemma AudienceSame(c: Core, fd: int, y: int, x: int)
    requires Inv(c) && fd in c.clients && y in c.clients && y != fd && x != fd
    ensures x in Neighbours(Erased(c, fd), y) <==> x in Neighbours(c, y)
  {
    ErasedKeeps(c, fd);
    var d := Erased(c, fd);
    NeighboursMeaning(c, y, x);
    NeighboursMeaning(d, y, x);
    forall k ensures HasMember(d, y, k) && HasMember(d, x, k) <==> HasMember(c, y, k) && HasMember(c, x, k) {
      MembersAfter(c, fd, y, k);
      MembersAfter(c, fd, x, k);
    }
  }

  /** The same parting words to x, or as little. */
  ghost predicate SameAudience(v: View, w: View, y: int, x: int) {
    (Hears(w, y, x) <==> Hears(v, y, x)) && QuitText(w, y) == QuitText(v, y)
  }

  lemma DisconnectOneLeaves(v: View, fd: int)
    requires Inv(v.core) && fd in v.core.clients
    ensures DisconnectOne(v, fd).core == Erased(v.core, fd)
    ensures fd in v.io.reasons ==> DisconnectOne(v, fd).io.reasons == v.io.reasons - {fd}
    ensures fd !in v.io.reasons ==> DisconnectOne(v, fd).io.reasons == v.io.reasons
  {
    DisconnectedErases(v.core, fd);
    DeliverFrame(v.io, Disconnect(v.core, fd, ReasonOf(v, fd)).sends);
    assert fd !in v.io.reasons ==> v.io.reasons - {fd} == v.io.reasons;
  }

  /** Nobody else's audience or parting words change. */
  lemma HearsSame(cfg: Config, v: View, w: View, fd: int, y: int, x: int)
    requires ViewOk(cfg, v) && w == DisconnectOne(v, fd) && y != fd && x != fd
    ensures SameAudience(v, w, y, x)
  {
    if fd in v.core.clients {
      DisconnectOneLeaves(v, fd);
      if y in v.core.clients { AudienceSame(v.core, fd, y, x); }
    }
  }

  predicate Once(order: seq<int>) {
    forall i, j :: 0 <= i < j < |order| ==> order[i] != order[j]
  }

  lemma {:induction false} AudienceLasts(views: seq<View>, n: nat, y: int, x: int)
    requires n < |views|
    requires forall i, k {:trigger views[i], views[k]} :: 0 <= i && k == i + 1 <= n ==>
      SameAudience(views[i], views[k], y, x)
    ensures SameAudience(views[0], views[n], y, x)
    decreases n
  {
    if n > 0 { AudienceLasts(views, n - 1, y, x); }
  }

  lemma HearsNext(cfg: Config, v: View, order: seq<int>, i: nat, k: nat, y: int, x: int)
    requires ViewOk(cfg, v) && i < |order| && k == i + 1 && y != order[i] && x != order[i]
    ensures SameAudience(DrainUpTo(cfg, v, order, i), DrainUpTo(cfg, v, order, k), y, x)
  {
    DrainUpToNext(cfg, v, order, k);
    HearsSame(cfg, DrainUpTo(cfg, v, order, i), DrainUpTo(cfg, v, order, k), order[i], y, x);
  }

  lemma DrainHears(cfg: Config, v: View, order: seq<int>, n: nat, y: int, x: int)
    requires ViewOk(cfg, v) && n <= |order| && y !in order[..n] && x !in order[..n]
    ensures SameAudience(v, DrainUpTo(cfg, v, order, n), y, x)
  {
    var views := seq(|order| + 1, i requires 0 <= i <= |order| => DrainUpTo(cfg, v, order, i));
    forall i, k | 0 <= i && k == i + 1 <= n ensures SameAudience(views[i], views[k], y, x) {
      assert order[i] in order[..n];
      HearsNext(cfg, v, order, i, k, y, x);
    }
    AudienceLasts(views, n, y, x);
  }

  /** The QUITs that the first `n` disconnections offer to x, in order. */
  ghost function QuitsFor(v: View, order: seq<int>, n: nat, x: int): seq<string>
    requires n <= |order|
  {
    if n == 0 then []
    else
      QuitsFor(v, order, n - 1, x)
      + (if Hears(v, order[n - 1], x) then [Normalize(QuitText(v, order[n - 1]))] else [])
  }

  /** Bytes of the QUIT of fd, if x hears it. */
  ghost function QuitSize(v: View, fd: int, x: int): nat {
    if Hears(v, fd, x) then |Normalize(QuitText(v, fd))| else 0
  }

  /** Bytes of the QUITs that the first `n` disconnections offer to x. */
  ghost function QuitBytes(v: View, order: seq<int>, n: nat, x: int): nat
    requires n <= |order|
  {
    if n == 0 then 0 else QuitBytes(v, order, n - 1, x) + QuitSize(v, order[n - 1], x)
  }

  ghost predicate RoomFor(v: View, order: seq<int>, n: nat, x: int)
    requires n <= |order| && x in v.io.ports
  {
    |v.io.ports[x].sendBuffer| + QuitBytes(v, order, n, x) <= MAX_SEND_BUFFER
  }

  /** As long as x waits its turn, it is reserved exactly when the QUITs so far
      did not fit, and holds them all otherwise. */
  ghost predicate Waits(v: View, w: View, order: seq<int>, n: nat, x: int)
    requires n <= |order| && x in v.io.ports
  {
    && x in w.io.ports
    && (x in w.io.pending <==> !RoomFor(v, order, n, x))
    && (x !in w.io.pending ==>
          |w.io.ports[x].sendBuffer| == |v.io.ports[x].sendBuffer| + QuitBytes(v, order, n, x)
          && w.io.ports[x].accepted == v.io.ports[x].accepted + QuitsFor(v, order, n, x))
  }

  /** From w to u, x was offered the message if it heard it, and nothing else. */
  predicate OfferedTo(w: View, u: View, x: int, heard: bool, quit: string) {
    && x in w.io.ports && x in u.io.ports
    && u.io.ports[x] == (if heard && Fits(w.io.ports[x], quit) then Accept(w.io.ports[x], quit) else w.io.ports[x])
    && (x in u.io.pending <==> x in w.io.pending || (heard && !Fits(w.io.ports[x], quit)))
  }

  lemma WaitsStep(v: View, w: View, u: View, order: seq<int>, n: nat, x: int)
    requires 0 < n <= |order| && x in v.io.ports && Waits(v, w, order, n - 1, x)
    requires OfferedTo(w, u, x, Hears(v, order[n - 1], x), QuitText(v, order[n - 1]))
    ensures Waits(v, u, order, n, x)
  {
  }

  lemma WaitsAtFirst(cfg: Config, v: View, order: seq<int>, x: int)
    requires ViewOk(cfg, v) && v.io.pending == {} && x in v.io.ports
    ensures Waits(v, v, order, 0, x)
  {
    assert PortOk(v.io.ports[x]);
    assert v.io.ports[x].accepted + [] == v.io.ports[x].accepted;
  }

  lemma {:induction false} WaitsLast(v: View, views: seq<View>, order: seq<int>, n: nat, x: int)
    requires n <= |order| && |views| == |order| + 1 && x in v.io.ports && Waits(v, views[0], order, 0, x)
    requires forall i, k {:trigger views[i], views[k]} :: 0 <= i && k == i + 1 <= n ==>
      OfferedTo(views[i], views[k], x, Hears(v, order[i], x), QuitText(v, order[i]))
    ensures Waits(v, views[n], order, n, x)
    decreases n
  {
    if n > 0 {
      WaitsLast(v, views, order, n - 1, x);
      WaitsStep(v, views[n - 1], views[n], order, n, x);
    }
  }

  lemma OfferedNext(cfg: Config, v: View, order: seq<int>, i: nat, k: nat, x: int)
    requires ViewOk(cfg, v) && Once(order) && i < |order| && k == i + 1 && x !in order[..k] && x in v.io.ports
    ensures OfferedTo(DrainUpTo(cfg, v, order, i), DrainUpTo(cfg, v, order, k), x,
                      Hears(v, order[i], x), QuitText(v, order[i]))
  {
    var w := DrainUpTo(cfg, v, order, i);
    assert order[i] in order[..k];
    TakeNext(order, k, x);
    assert order[i] !in order[..i];
    DrainHears(cfg, v, order, i, order[i], x);
    DrainUpToLeaves(cfg, v, order, i, x, DrainUpTo(cfg, v, order, i));
    DrainUpToNext(cfg, v, order, k);
    QuitOffered(cfg, w, order[i], x);
  }

  lemma DrainWaits(cfg: Config, v: View, order: seq<int>, n: nat, x: int)
    requires ViewOk(cfg, v) && v.io.pending == {} && Once(order) && n <= |order|
    requires x in v.io.ports && x !in order[..n]
    ensures Waits(v, DrainUpTo(cfg, v, order, n), order, n, x)
  {
    var views := seq(|order| + 1, i requires 0 <= i <= |order| => DrainUpTo(cfg, v, order, i));
    WaitsAtFirst(cfg, v, order, x);
    forall i, k | 0 <= i && k == i + 1 <= n
      ensures OfferedTo(views[i], views[k], x, Hears(v, order[i], x), QuitText(v, order[i]))
    {
      assert order[..k] <= order[..n];
      OfferedNext(cfg, v, order, i, k, x);
    }
    WaitsLast(v, views, order, n, x);
  }

  lemma NotReserved(cfg: Config, u: View, w: View, fd: int, x: int)
    requires ViewOk(cfg, u) && w == DisconnectOne(u, fd) && (x !in u.io.ports || x == fd)
    ensures x in w.io.pending <==> x in u.io.pending
  {
    QuitNotOffered(cfg, u, fd, x);
  }

  lemma GoneAfterTurn(cfg: Config, v: View, order: seq<int>, j: nat, n: nat, w: View)
    requires ViewOk(cfg, v) && j <= n < |order| && w == DrainUpTo(cfg, v, order, n)
    ensures order[j] !in w.io.ports || order[j] == order[n]
  {
    var x := order[j];
    DrainUpToLeaves(cfg, v, order, n, x, w);
    GoneOnceTaken(v, w, order, j, n, x);
  }

  lemma GoneOnceTaken(v: View, w: View, order: seq<int>, j: nat, n: nat, x: int)
    requires j <= n < |order| && x == order[j] && LeftAs(v, w, x, x in order[..n])
    ensures x !in w.io.ports || x == order[n]
  {
    if j < n { assert x == order[..n][j]; }
  }

  predicate AlikeReserved(v: View, w: View, x: int) { x in w.io.pending <==> x in v.io.pending }

  lemma {:induction false} AlwaysAlike(views: seq<View>, from: nat, n: nat, x: int)
    requires from <= n < |views|
    requires forall i, k {:trigger views[i], views[k]} :: from <= i && k == i + 1 <= n ==>
      AlikeReserved(views[i], views[k], x)
    ensures AlikeReserved(views[from], views[n], x)
    decreases n
  {
    if n > from { AlwaysAlike(views, from, n - 1, x); }
  }

  lemma AfterItsTurnNext(cfg: Config, v: View, order: seq<int>, j: nat, i: nat, k: nat)
    requires ViewOk(cfg, v) && j <= i < |order| && k == i + 1
    ensures AlikeReserved(DrainUpTo(cfg, v, order, i), DrainUpTo(cfg, v, order, k), order[j])
  {
    GoneAfterTurn(cfg, v, order, j, i, DrainUpTo(cfg, v, order, i));
    DrainUpToNext(cfg, v, order, k);
    NotReserved(cfg, DrainUpTo(cfg, v, order, i), DrainUpTo(cfg, v, order, k), order[i], order[j]);
  }

  /** After its turn, nothing reserves it any more. */
  lemma AfterItsTurn(cfg: Config, v: View, order: seq<int>, j: nat, n: nat)
    requires ViewOk(cfg, v) && j <= n <= |order| && j < |order|
    ensures AlikeReserved(DrainUpTo(cfg, v, order, j), DrainUpTo(cfg, v, order, n), order[j])
  {
    var views := seq(|order| + 1, i requires 0 <= i <= |order| => DrainUpTo(cfg, v, order, i));
    forall i, k | j <= i && k == i + 1 <= n ensures AlikeReserved(views[i], views[k], order[j]) {
      AfterItsTurnNext(cfg, v, order, j, i, k);
    }
    AlwaysAlike(views, j, n, order[j]);
  }

  /** The state the drain loop starts from: the reserved set copied and emptied. */
  function Emptied(v: View): View { v.(io := v.io.(pending := {})) }

  /** One snapshotted client after the whole drain: gone, and reserved all the
      same exactly when the QUITs offered before its own turn did not fit. */
  lemma ReservedThoughGone(cfg: Config, v: View, j: nat)
    requires ViewOk(cfg, v) && j < |Ascending(v.io.pending)|
    ensures var order := Ascending(v.io.pending);
      var x := order[j];
      var w := DrainPending(cfg, v);
      && x !in w.core.clients
      && (x in w.io.pending <==> x in v.io.ports && !RoomFor(Emptied(v), order, j, x))
  {
    var order := Ascending(v.io.pending);
    AscendingEnumerates(v.io.pending);
    var x := order[j];
    var start := Emptied(v);
    assert x in order && x in v.io.pending;
    DrainRemovesSnapshot(cfg, v, x);
    AfterItsTurn(cfg, start, order, j, |order|);
    if x in v.io.ports {
      assert x !in order[..j];
      DrainWaits(cfg, start, order, j, x);
    } else {
      DrainNeverReserves(cfg, start, order, j, x);
    }
  }

  /** What a drain is to a client that stays: it takes the QUIT of each reserved
      client it shares a channel with, once, in ascending order of descriptor,
      and nothing else; unless they do not all fit, and then it is reserved. */
  lemma SurvivorTakesEachQuit(cfg: Config, v: View, x: int)
    requires ViewOk(cfg, v) && x in v.io.ports && x !in v.io.pending
    ensures var order := Ascending(v.io.pending);
      var w := DrainPending(cfg, v);
      && x in w.io.ports
      && (x in w.io.pending <==> !RoomFor(Emptied(v), order, |order|, x))
      && (x !in w.io.pending ==>
            w.io.ports[x].accepted == v.io.ports[x].accepted + QuitsFor(Emptied(v), order, |order|, x))
  {
    var order := Ascending(v.io.pending);
    AscendingEnumerates(v.io.pending);
    assert order[..|order|] == order;
    DrainWaits(cfg, Emptied(v), order, |order|, x);
  }

  /** Neither connected nor reserved. */
  predicate Absent(v: View, x: int) {
    x !in v.io.ports && x !in v.io.pending
  }

  lemma AbsentNext(cfg: Config, u: View, w: View, fd: int, x: int)
    requires ViewOk(cfg, u) && w == DisconnectOne(u, fd) && Absent(u, x)
    ensures Absent(w, x)
  {
    DisconnectOneFrame(cfg, u, fd, x);
    NotReserved(cfg, u, w, fd, x);
  }

  lemma DrainNeverReserves(cfg: Config, v: View, order: seq<int>, n: nat, x: int)
    requires ViewOk(cfg, v) && n <= |order| && Absent(v, x)
    ensures Absent(DrainUpTo(cfg, v, order, n), x)
  {
    var u := v;
    for i := 0 to n
      invariant ViewOk(cfg, u) && Absent(u, x) && u == DrainUpTo(cfg, v, order, i)
    {
      DrainUpToNext(cfg, v, order, i + 1);
      DisconnectOneKeeps(cfg, u, order[i]);
      AbsentNext(cfg, u, DisconnectOne(u, order[i]), order[i], x);
      u := DisconnectOne(u, order[i]);
    }
  }

  /** What a reserved client needs for not staying reserved when it is gone. */
  ghost predicate RoomInTurn(v: View, order: seq<int>, j: nat) {
    j < |order| && (order[j] in v.io.ports ==> RoomFor(v, order, j, order[j]))
  }

  lemma DanglingHadNoRoom(cfg: Config, v: View, x: int) returns (j: nat)
    requires ViewOk(cfg, v) && x in DrainPending(cfg, v).io.pending && x !in DrainPending(cfg, v).core.clients
    ensures j < |Ascending(v.io.pending)| && !RoomInTurn(Emptied(v), Ascending(v.io.pending), j)
  {
    var order := Ascending(v.io.pending);
    AscendingEnumerates(v.io.pending);
    assert x in order by {
      if x !in order {
        DrainSparesOthers(cfg, v, x);
        DrainNeverReserves(cfg, Emptied(v), order, |order|, x);
      }
    }
    j :| 0 <= j < |order| && order[j] == x;
    ReservedThoughGone(cfg, v, j);
  }

  ghost predicate RoomForEach(v: View, order: seq<int>) {
    forall j: nat {:trigger RoomInTurn(v, order, j)} :: j < |order| ==> RoomInTurn(v, order, j)
  }

  lemma RoomKeepsConnected(cfg: Config, v: View)
    requires ViewOk(cfg, v) && RoomForEach(Emptied(v), Ascending(v.io.pending))
    ensures DrainPending(cfg, v).io.pending <= DrainPending(cfg, v).core.clients.Keys
  {
    var w := DrainPending(cfg, v);
    forall x | x in w.io.pending ensures x in w.core.clients {
      if x !in w.core.clients { var j := DanglingHadNoRoom(cfg, v, x); }
    }
  }

  lemma ConnectedHadRoom(cfg: Config, v: View)
    requires ViewOk(cfg, v) && DrainPending(cfg, v).io.pending <= DrainPending(cfg, v).core.clients.Keys
    ensures RoomForEach(Emptied(v), Ascending(v.io.pending))
  {
    var order := Ascending(v.io.pending);
    forall j: nat | j < |order| ensures RoomInTurn(Emptied(v), order, j) { ReservedThoughGone(cfg, v, j); }
  }

  /** "Reserved clients are connected" is not kept by the drain. It is kept
      exactly when every reserved client has room, before its own turn, for the
      QUITs of the reserved clients before it that share a channel with it. */
  lemma ReservedAreConnectedIff(cfg: Config, v: View)
    requires ViewOk(cfg, v)
    ensures DrainPending(cfg, v).io.pending <= DrainPending(cfg, v).core.clients.Keys
      <==> RoomForEach(Emptied(v), Ascending(v.io.pending))
  {
    if DrainPending(cfg, v).io.pending <= DrainPending(cfg, v).core.clients.Keys { ConnectedHadRoom(cfg, v); }
    if RoomForEach(Emptied(v), Ascending(v.io.pending)) { RoomKeepsConnected(cfg, v); }
  }
}
