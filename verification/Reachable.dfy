/** Runs of the server in which the two claims that fail do fail: two clients
    register and join one channel, one fills the other's send buffer line by
    line until a line no longer fits, and quits in the same chunk
    (services/irc/prd/interface/ServerRelations.cpp,
    services/irc/prd/interface/ServerNetwork.cpp). */
module Reachable {
  import opened IrcUtil
  import opened Strings
  import opened Domain
  import opened Ordered
  import opened Commands
  import opened Moves
  import opened Traces
  import opened Delivery
  import opened EventLoop
  import opened Disconnects
  import opened ServerRuns
  import opened Scripts
  import opened SinglePasses

  // ------------------------------------------------------ roomy buffers

  predicate Roomy(io: Io, n: nat) {
    forall fd {:trigger io.ports[fd]} :: fd in io.ports ==> |io.ports[fd].sendBuffer| <= n
  }

  lemma OfferFits(io: Io, fds: set<int>, text: string, n: nat)
    requires Roomy(io, n) && |Normalize(text)| <= LINE_BOUND && n + LINE_BOUND <= MAX_SEND_BUFFER
    ensures Offer(io, fds, text).pending == io.pending && Roomy(Offer(io, fds, text), n + LINE_BOUND)
  {
    assert (set fd | fd in io.ports && fd in fds && !Takes(io, fds, text, fd)) == {};
  }

  /** Small messages to roomy buffers reserve nobody. */
  lemma {:induction false} DeliverFits(io: Io, sends: seq<Send>, n: nat)
    requires Roomy(io, n) && Small(sends) && n + LINE_BOUND * |sends| <= MAX_SEND_BUFFER
    ensures Deliver(io, sends).pending == io.pending && Roomy(Deliver(io, sends), n + LINE_BOUND * |sends|)
    decreases |sends|
  {
    if sends != [] {
      var init, last := sends[..|sends| - 1], sends[|sends| - 1];
      forall i | 0 <= i < |init| ensures |Normalize(init[i].text)| <= LINE_BOUND { assert init[i] == sends[i]; }
      DeliverFits(io, init, n);
      OfferFits(Deliver(io, init), last.to, last.text, n + LINE_BOUND * |init|);
    }
  }

  // ----------------------------------------------------- runs, pass by pass

  /** The run leads from the empty server to v. */
  ghost predicate On(cfg: Config, batches: seq<seq<Event>>, v: View) {
    SafeToken(cfg.serverName) && LegalServerRun(cfg, batches) && v == ServerState(cfg, batches)
  }

  lemma OnMore(cfg: Config, batches: seq<seq<Event>>, v: View, events: seq<Event>)
    requires On(cfg, batches, v) && ViewOk(cfg, v) && AllSettled(v) && LegalEvents(cfg, v, events)
    ensures On(cfg, batches + [events], OnePass(cfg, v, events))
  {
    FreshOk(cfg);
    OneMorePass(cfg, Fresh(cfg), batches, v, events);
  }

  /** The two clients connected, nobody reserved, nothing half received. */
  ghost predicate Quietly(cfg: Config, v: View) {
    && ViewOk(cfg, v) && v.io.pending == {} && v.io.ports.Keys == {5, 6}
    && |v.io.poll| == 3 && v.io.poll[0].fd == cfg.listenFd && v.io.poll[1].fd == 5 && v.io.poll[2].fd == 6
    && Holds(v, 5, "") && Holds(v, 6, "")
  }

  lemma QuietlySettled(cfg: Config, v: View)
    requires Quietly(cfg, v)
    ensures AllSettled(v)
  {
  }

  /** A command that offers little and is not QUIT. */
  lemma SmallExecute(cfg: Config, v: View, fd: int, m: Message, n: nat)
    requires Quietly(cfg, v) && fd in v.core.clients && v.core.clients[fd].fd == fd && m.command != "QUIT"
    requires var e := Dispatch(cfg, v.core, fd, m);
      Small(e.sends) && Roomy(v.io, n) && n + LINE_BOUND * |e.sends| <= MAX_SEND_BUFFER
    ensures var e := Dispatch(cfg, v.core, fd, m);
      var w := Execute(cfg, v, fd, m);
      Quietly(cfg, w) && w.core == e.core && Roomy(w.io, n + LINE_BOUND * |e.sends|)
  {
    DeliverFits(v.io, Dispatch(cfg, v.core, fd, m).sends, n);
    ExecuteKeeps(cfg, v, fd, m);
  }

  /** A pass with one chunk of one client. */
  lemma ChunkPass(cfg: Config, batches: seq<seq<Event>>, v: View, fd: int, data: string, w: View)
      returns (more: seq<seq<Event>>)
    requires On(cfg, batches, v) && Quietly(cfg, v) && (fd == 5 || fd == 6) && fd != cfg.listenFd
    requires data != "" && |data| <= RECV_CHUNK_SIZE
    requires w == EventLoop.Receive(cfg, v, fd, data) && ViewOk(cfg, w) && fd in w.io.ports
    ensures On(cfg, more, DrainPending(cfg, w))
  {
    var j := if fd == 5 then 1 else 2;
    ChunkEntry(cfg, v, j, fd, data);
    QuietlySettled(cfg, v);
    var u := OneEvent(cfg, v, j, Chunk(data));
    more := batches + [Batch(3, j, Chunk(data))];
    OnMore(cfg, batches, v, Batch(3, j, Chunk(data)));
  }

  /** A pass with one line of one client, if it reserves nobody. */
  lemma QuietPass(cfg: Config, batches: seq<seq<Event>>, v: View, fd: int, command: string, words: seq<string>, w: View)
      returns (more: seq<seq<Event>>)
    requires On(cfg, batches, v) && Quietly(cfg, v) && (fd == 5 || fd == 6) && fd != cfg.listenFd
    requires Typable(command, words) && w == Execute(cfg, v, fd, Message("", command, words)) && Quietly(cfg, w)
    ensures On(cfg, more, w)
  {
    var u := TypedReceive(cfg, v, fd, command, words);
    more := ChunkPass(cfg, batches, v, fd, Typed(command, words) + "\r\n", w);
    NothingToDrain(cfg, w);
  }

  /** One line of one client whose consequences are small. */
  lemma LinePass(cfg: Config, batches: seq<seq<Event>>, v: View, fd: int, command: string,
                 words: seq<string>, n: nat) returns (more: seq<seq<Event>>, w: View)
    requires On(cfg, batches, v) && Quietly(cfg, v) && Typable(command, words) && command != "QUIT"
    requires (fd == 5 || fd == 6) && fd != cfg.listenFd && v.core.clients[fd].fd == fd
    requires var e := Dispatch(cfg, v.core, fd, Message("", command, words));
      Small(e.sends) && Roomy(v.io, n) && n + LINE_BOUND * |e.sends| <= MAX_SEND_BUFFER
    ensures On(cfg, more, w) && Quietly(cfg, w)
    ensures var e := Dispatch(cfg, v.core, fd, Message("", command, words));
      w.core == e.core && Roomy(w.io, n + LINE_BOUND * |e.sends|)
  {
    SmallExecute(cfg, v, fd, Message("", command, words), n);
    w := Execute(cfg, v, fd, Message("", command, words));
    more := QuietPass(cfg, batches, v, fd, command, words, w);
  }

  // -------------------------------------------------------------- the set-up

  /** Nobody reserved, nothing half received. */
  ghost predicate Calm(cfg: Config, v: View) {
    ViewOk(cfg, v) && AllSettled(v) && v.io.pending == {} && 0 < |v.io.poll| && v.io.poll[0].fd == cfg.listenFd
  }

  lemma OpenedCalm(cfg: Config, v: View, w: View, fd: int)
    requires Calm(cfg, v) && ViewOk(cfg, w) && w.io == Opened(v.io, fd)
    ensures Calm(cfg, w)
  {
  }

  lemma ArriveOn(cfg: Config, batches: seq<seq<Event>>, v: View, fd: int) returns (more: seq<seq<Event>>, w: View)
    requires On(cfg, batches, v) && Calm(cfg, v) && fd !in v.core.clients && fd != cfg.listenFd
    ensures On(cfg, more, w) && Calm(cfg, w) && w == View(Connected(v.core, fd, "h"), Opened(v.io, fd))
  {
    w := ArrivalPass(cfg, v, fd, "h");
    OpenedCalm(cfg, v, w, fd);
    NothingToDrain(cfg, w);
    var events := Batch(|v.io.poll|, 0, Comes(fd, "h"));
    OnMore(cfg, batches, v, events);
    more := batches + [events];
  }

  lemma BeginsCalm(cfg: Config)
    requires SafeToken(cfg.serverName)
    ensures On(cfg, [], Fresh(cfg)) && Calm(cfg, Fresh(cfg))
  {
    FreshOk(cfg);
  }

  lemma TwoArrived(cfg: Config, v: View)
    requires ViewOk(cfg, v) && v.io == Opened(Opened(Fresh(cfg).io, 5), 6)
    requires v.core == Connected(Connected(EMPTY_CORE, 5, "h"), 6, "h")
    ensures Quietly(cfg, v) && Roomy(v.io, 0) && v.core == Pair(Stranger(5), Stranger(6), map[], map[])
  {
  }

  lemma BothConnected(cfg: Config) returns (batches: seq<seq<Event>>, v: View)
    requires Modest(cfg)
    ensures On(cfg, batches, v) && Quietly(cfg, v) && Roomy(v.io, 0)
    ensures v.core == Pair(Stranger(5), Stranger(6), map[], map[])
  {
    BeginsCalm(cfg);
    batches, v := ArriveOn(cfg, [], Fresh(cfg), 5);
    batches, v := ArriveOn(cfg, batches, v, 6);
    TwoArrived(cfg, v);
  }

  // ----------------------------------------------- one line after another

  /** At this point of a run: the two clients have so much in their buffers. */
  ghost predicate At(cfg: Config, batches: seq<seq<Event>>, v: View, c: Core, n: nat) {
    On(cfg, batches, v) && Quietly(cfg, v) && v.core == c && Roomy(v.io, n)
  }

  lemma Type(cfg: Config, batches: seq<seq<Event>>, v: View, n: nat, s: Input, c: Core, d: Core)
      returns (more: seq<seq<Event>>, w: View)
    requires Modest(cfg) && At(cfg, batches, v, c, n) && Proper(cfg, c, s, d) && n + 5 * LINE_BOUND <= MAX_SEND_BUFFER
    ensures At(cfg, more, w, d, n + 5 * LINE_BOUND)
  {
    assert ClientOk(c.clients[s.fd], s.fd);
    more, w := LinePass(cfg, batches, v, s.fd, s.command, s.words, n);
  }

  /** One of the pair registers. */
  lemma RegisterOn(cfg: Config, batches: seq<seq<Event>>, v: View, n: nat, fd: int, nick: string, other: Client,
                   nicks: map<string, int>) returns (more: seq<seq<Event>>, w: View)
    requires Modest(cfg) && (fd == 5 || fd == 6) && IsNick(nick) && nick !in nicks
    requires At(cfg, batches, v, PairOf(fd, Stranger(fd), other, map[], nicks), n)
    requires n + 15 * LINE_BOUND <= MAX_SEND_BUFFER
    ensures At(cfg, more, w, PairOf(fd, Person(fd, nick), other, map[], nicks[nick := fd]), n + 15 * LINE_BOUND)
  {
    Registering(cfg, fd, nick, other, nicks);
    var c0 := PairOf(fd, Stranger(fd), other, map[], nicks);
    var c1 := PairOf(fd, Trusted(fd), other, map[], nicks);
    var c2 := PairOf(fd, Nicknamed(fd, nick), other, map[], nicks[nick := fd]);
    var c3 := PairOf(fd, Person(fd, nick), other, map[], nicks[nick := fd]);
    more, w := Type(cfg, batches, v, n, Input(fd, "PASS", [cfg.password]), c0, c1);
    more, w := Type(cfg, more, w, n + 5 * LINE_BOUND, Input(fd, "NICK", [nick]), c1, c2);
    more, w := Type(cfg, more, w, n + 10 * LINE_BOUND, Input(fd, "USER", ["u", "0", "*", "r"]), c2, c3);
  }

  lemma OneRegistered(cfg: Config) returns (batches: seq<seq<Event>>, v: View)
    requires Modest(cfg)
    ensures At(cfg, batches, v, PairOf(6, Stranger(6), Person(5, "a"), map[], map["a" := 5]), 15 * LINE_BOUND)
  {
    batches, v := BothConnected(cfg);
    batches, v := RegisterOn(cfg, batches, v, 0, 5, "a", Stranger(6), map[]);
    PairTurned();
  }

  lemma BothRegistered(cfg: Config) returns (batches: seq<seq<Event>>, v: View)
    requires Modest(cfg)
    ensures At(cfg, batches, v, Pair(Person(5, "a"), Person(6, "b"), map[], map["a" := 5, "b" := 6]), 30 * LINE_BOUND)
  {
    batches, v := OneRegistered(cfg);
    batches, v := RegisterOn(cfg, batches, v, 15 * LINE_BOUND, 6, "b", Person(5, "a"), map["a" := 5]);
    PairTurned();
  }

  /** Both registered and in the channel: a state the server reaches. */
  lemma MeetingReached(cfg: Config) returns (batches: seq<seq<Event>>, v: View)
    requires Modest(cfg)
    ensures At(cfg, batches, v, Meeting(), 40 * LINE_BOUND)
  {
    batches, v := BothRegistered(cfg);
    var c := v.core;
    var d := Pair(Guest(5, "a"), Person(6, "b"), map[CHANNEL := Founder()], map["a" := 5, "b" := 6]);
    FoundingPlays(cfg, c);
    batches, v := Type(cfg, batches, v, 30 * LINE_BOUND, Input(5, "JOIN", [CHANNEL]), c, d);
    EnteringPlays(cfg, d);
    batches, v := Type(cfg, batches, v, 35 * LINE_BOUND, Input(6, "JOIN", [CHANNEL]), d, Meeting());
  }

  // ------------------------------------------------------ filling a buffer

  /** Both in the channel, the second client reading nothing. */
  ghost predicate Filling(cfg: Config, batches: seq<seq<Event>>, v: View) {
    On(cfg, batches, v) && Quietly(cfg, v) && v.core == Meeting()
  }

  /** The line run where it may be queued or not. */
  lemma Poked(cfg: Config, v: View) returns (w: View)
    requires ViewOk(cfg, v) && v.core == Meeting()
    ensures w == Execute(cfg, v, 5, POKE) && ViewOk(cfg, w) && w.core == v.core
    ensures w.io == Offer(v.io, {6}, Poke())
  {
    PokeDone(cfg, v.core);
    DeliverOne(v.io, Send({6}, Poke()));
    ExecuteKeeps(cfg, v, 5, POKE);
    w := Execute(cfg, v, 5, POKE);
  }

  lemma PokeFits(cfg: Config, v: View, w: View)
    requires Quietly(cfg, v) && ViewOk(cfg, w) && w.io == Offer(v.io, {6}, Poke()) && Fits(v.io.ports[6], Poke())
    ensures Quietly(cfg, w)
    ensures |w.io.ports[6].sendBuffer| == |v.io.ports[6].sendBuffer| + |Normalize(Poke())|
  {
    OfferFrame(v.io, {6}, Poke());
  }

  lemma PokePass(cfg: Config, batches: seq<seq<Event>>, v: View) returns (more: seq<seq<Event>>, w: View)
    requires Modest(cfg) && Filling(cfg, batches, v) && Fits(v.io.ports[6], Poke())
    ensures Filling(cfg, more, w)
    ensures |w.io.ports[6].sendBuffer| == |v.io.ports[6].sendBuffer| + |Normalize(Poke())|
  {
    w := Poked(cfg, v);
    PokeFits(cfg, v, w);
    PokeTypable();
    more := QuietPass(cfg, batches, v, 5, "PRIVMSG", ["b", "x"], w);
  }

  /** The same line again and again, until it has no room any more. */
  lemma FullReached(cfg: Config) returns (batches: seq<seq<Event>>, v: View)
    requires Modest(cfg)
    ensures Filling(cfg, batches, v) && !Fits(v.io.ports[6], Poke())
  {
    batches, v := MeetingReached(cfg);
    while Fits(v.io.ports[6], Poke())
      invariant Filling(cfg, batches, v)
      decreases MAX_SEND_BUFFER - |v.io.ports[6].sendBuffer|
    {
      batches, v := PokePass(cfg, batches, v);
    }
  }

  // ------------------------------------------------------ the overflowing pass

  function ByeLine(): string { Typed("QUIT", ["goodbye"]) + "\r\n" }

  /** The last chunk of the first client: the line once more, then QUIT. */
  function LastWords(): string { Typed("PRIVMSG", ["b", "x"]) + "\r\n" + ByeLine() }

  /** The second client has been reserved and its buffer is as full as before. */
  ghost predicate Overflown(cfg: Config, v: View, w: View, data: string) {
    && ViewOk(cfg, w) && w.core == Meeting() && w.io.pending == {6} && 6 in v.io.ports && 6 in w.io.ports
    && w.io.ports[6].sendBuffer == v.io.ports[6].sendBuffer && Holds(w, 5, data)
  }

  lemma PokeOverflows(cfg: Config, v: View, u: View, w: View, data: string)
    requires Quietly(cfg, v) && !Fits(v.io.ports[6], Poke())
    requires u == With(v, 5, data) && ViewOk(cfg, w) && w.core == Meeting() && w.io == Offer(u.io, {6}, Poke())
    ensures Overflown(cfg, v, w, data)
  {
    OfferRefused(u.io, 6, Poke());
  }

  lemma LastChunk()
    ensures 0 < |LastWords()| <= 2 * IRC_MAX_CONTENT + 4
  {
    PokeTypable();
    ByeTypable();
  }

  lemma FirstOfTwo(cfg: Config, v: View) returns (u: View)
    requires Quietly(cfg, v) && v.core == Meeting() && !Fits(v.io.ports[6], Poke())
    ensures Overflown(cfg, v, u, ByeLine())
    ensures EventLoop.Receive(cfg, v, 5, LastWords()) == DrainLines(cfg, u, 5)
  {
    LastChunk();
    ReceiveDrains(cfg, v, 5, LastWords());
    WithOver(v, 5, LastWords(), ByeLine());
    PokeTypable();
    u := FirstTyped(cfg, With(v, 5, LastWords()), 5, "PRIVMSG", ["b", "x"], ByeLine());
    var x := Poked(cfg, With(v, 5, ByeLine()));
    PokeOverflows(cfg, v, With(v, 5, ByeLine()), u, ByeLine());
  }

  /** Both reserved, and as little room for the parting line as before. */
  ghost predicate Doomed(cfg: Config, w: View) {
    && ViewOk(cfg, w) && w.core == Meeting() && w.io.pending == {5, 6} && w.io.ports.Keys == {5, 6}
    && !Fits(w.io.ports[6], Poke()) && ReasonOf(w, 5) == "goodbye"
  }

  lemma ByeReserves(cfg: Config, u: View)
    requires ViewOk(cfg, u) && u.core == Meeting()
    ensures Execute(cfg, u, 5, BYE) == u.(io := ScheduleQuit(u.io, 5, "goodbye"))
  {
    ByeDone(cfg, u.core);
    assert Deliver(u.io, []) == u.io;
  }

  lemma Dooms(cfg: Config, v: View, u: View, w: View)
    requires Overflown(cfg, v, u, ByeLine()) && !Fits(v.io.ports[6], Poke()) && ViewOk(cfg, w)
    requires w == With(u, 5, "").(io := ScheduleQuit(With(u, 5, "").io, 5, "goodbye"))
    ensures Doomed(cfg, w)
  {
    assert w.core.clients.Keys == {5, 6};
  }

  lemma SecondOfTwo(cfg: Config, v: View, u: View) returns (w: View)
    requires Overflown(cfg, v, u, ByeLine()) && !Fits(v.io.ports[6], Poke())
    ensures Doomed(cfg, w) && w == DrainLines(cfg, u, 5)
  {
    ByeTypable();
    assert ByeLine() == ByeLine() + "";
    w := FirstTyped(cfg, u, 5, "QUIT", ["goodbye"], "");
    ByeReserves(cfg, With(u, 5, ""));
    Dooms(cfg, v, u, w);
  }

  /** The state before the drain of the last pass. */
  lemma DoomReached(cfg: Config) returns (batches: seq<seq<Event>>, w: View)
    requires Modest(cfg)
    ensures Doomed(cfg, w) && On(cfg, batches, DrainPending(cfg, w))
  {
    var v;
    batches, v := FullReached(cfg);
    var u := FirstOfTwo(cfg, v);
    w := SecondOfTwo(cfg, v, u);
    LastChunk();
    batches := ChunkPass(cfg, batches, v, 5, LastWords(), w);
  }

  // ------------------------------------------------ reserved, though gone

  lemma MeetingNeighbours(w: View)
    requires Inv(w.core) && w.core == Meeting()
    ensures Hears(w, 5, 6)
  {
    assert HasMember(w.core, 5, CHANNEL) && HasMember(w.core, 6, CHANNEL);
    NeighboursMeaning(w.core, 5, 6);
  }

  lemma FiveThenSix()
    ensures Ascending({5, 6}) == [5, 6]
  {
    assert Min({5, 6}) == 5;
    assert {5, 6} - {5} == {6};
    assert Ascending({6}) == [6];
  }

  /** The parting line of the first has no room at the turn of the second. */
  lemma NoRoomForBye(cfg: Config, w: View)
    requires Doomed(cfg, w)
    ensures !RoomFor(Emptied(w), [5, 6], 1, 6)
  {
    var v := Emptied(w);
    MeetingNeighbours(v);
    assert QuitBytes(v, [5, 6], 1, 6) == QuitBytes(v, [5, 6], 0, 6) + QuitSize(v, 5, 6);
    assert QuitText(v, 5) == Bye();
    ByeIsLonger();
  }

  /** Both gone, the second still reserved. */
  ghost predicate Dangling(cfg: Config, w: View) {
    ViewOk(cfg, w) && AllSettled(w) && 6 in w.io.pending && w.io.ports == map[]
  }

  lemma DoomDangles(cfg: Config, w: View)
    requires Doomed(cfg, w)
    ensures Dangling(cfg, DrainPending(cfg, w))
  {
    var x := DrainPending(cfg, w);
    FiveThenSix();
    NoRoomForBye(cfg, w);
    ReservedThoughGone(cfg, w, 1);
    forall fd ensures fd !in x.core.clients {
      if fd in w.io.pending { DrainRemovesSnapshot(cfg, w, fd); } else { DrainSparesOthers(cfg, w, fd); }
    }
  }

  /** "Reserved clients are connected" fails in a run of the server: at the end
      of it descriptor 6 is reserved and belongs to nobody. */
  lemma ReservationDangles(cfg: Config) returns (batches: seq<seq<Event>>)
    requires Modest(cfg)
    ensures LegalServerRun(cfg, batches) && Dangling(cfg, ServerState(cfg, batches))
    ensures 6 in ServerState(cfg, batches).io.pending && 6 !in ServerState(cfg, batches).core.clients
  {
    var w;
    batches, w := DoomReached(cfg);
    DoomDangles(cfg, w);
  }

  // ------------------------------------------------------- the consequence

  lemma EntryReserves(cfg: Config, start: View, v: View, n: nat, ev: Event)
    requires MidPass(cfg, start, v, n) && n < |start.io.poll| && ev.Legal(cfg) && Distinct(start.io.poll)
    ensures v.io.pending <= NextEntry(cfg, start, v, n, ev).io.pending
  {
    var fd := v.io.poll[n].fd;
    if ev.Silent() {
    } else if fd == cfg.listenFd {
      AcceptedKeeps(cfg, v, if ev.readable then ev.accepted else None);
    } else {
      ClientEventSteps(cfg, v, fd, ev);
    }
  }

  lemma {:induction false} StaysReserved(views: seq<View>, n: nat, x: int)
    requires n < |views| && x in views[0].io.pending
    requires forall i, j {:trigger views[i], views[j]} :: 0 <= i && j == i + 1 <= n ==>
      views[i].io.pending <= views[j].io.pending
    ensures x in views[n].io.pending
    decreases n
  {
    if n > 0 { StaysReserved(views, n - 1, x); }
  }

  lemma EntryAfterEntry(cfg: Config, v: View, events: seq<Event>, i: nat, j: nat)
    requires ViewOk(cfg, v) && AllSettled(v) && LegalEvents(cfg, v, events) && i < |events| && j == i + 1
    ensures PassUpTo(cfg, v, events, i).io.pending <= PassUpTo(cfg, v, events, j).io.pending
  {
    var w := PassUpTo(cfg, v, events, i);
    var x := PassUpToNext(cfg, v, events, i, w);
    EntryReserves(cfg, v, w, i, events[i]);
  }

  lemma PassReserves(cfg: Config, v: View, events: seq<Event>, x: int)
    requires ViewOk(cfg, v) && AllSettled(v) && LegalEvents(cfg, v, events) && x in v.io.pending
    ensures x in PassUpTo(cfg, v, events, |events|).io.pending
  {
    var n := |events|;
    var views := seq(n + 1, i requires 0 <= i <= n => PassUpTo(cfg, v, events, i));
    forall i, j | 0 <= i && j == i + 1 <= n ensures views[i].io.pending <= views[j].io.pending {
      EntryAfterEntry(cfg, v, events, i, j);
    }
    StaysReserved(views, n, x);
  }

  /** Whoever holds a reserved descriptor at the end of the next pass is dropped
      then, whether it held the descriptor when it was reserved or not. */
  lemma ReservedIsDropped(cfg: Config, v: View, events: seq<Event>, x: int)
    requires ViewOk(cfg, v) && AllSettled(v) && LegalEvents(cfg, v, events) && x in v.io.pending
    ensures x !in OnePass(cfg, v, events).core.clients
  {
    PassReserves(cfg, v, events, x);
    DrainRemovesSnapshot(cfg, PassUpTo(cfg, v, events, |events|), x);
  }

  lemma OtherEntry(poll: seq<Watch>, fd: int)
    requires Distinct(poll) && |poll| > 1
    ensures exists i :: 0 <= i < |poll| && poll[i].fd != fd
  {
    if poll[0].fd == fd { assert poll[1].fd != fd; }
  }

  lemma OnlyListener(cfg: Config, v: View)
    requires ViewOk(cfg, v) && v.io.ports == map[]
    ensures |v.io.poll| == 1 && v.io.poll[0].fd == cfg.listenFd
  {
    assert cfg.listenFd in Fds(v.io.poll);
    forall i | 0 <= i < |v.io.poll| ensures v.io.poll[i].fd == cfg.listenFd {
      assert v.io.poll[i].fd in Fds(v.io.poll);
    }
    if |v.io.poll| > 1 { OtherEntry(v.io.poll, cfg.listenFd); }
  }

  lemma NewcomerPass(cfg: Config, batches: seq<seq<Event>>, v: View, hostname: string) returns (last: seq<Event>)
    requires On(cfg, batches, v) && ViewOk(cfg, v) && AllSettled(v) && |v.io.poll| == 1
    requires v.io.poll[0].fd == cfg.listenFd != 6 && 6 in v.io.pending && 6 !in v.core.clients && SafeToken(hostname)
    ensures last == [Comes(6, hostname)] && On(cfg, batches + [last], OnePass(cfg, v, last))
    ensures 6 !in OnePass(cfg, v, last).core.clients
  {
    last := Batch(1, 0, Comes(6, hostname));
    assert last == [Comes(6, hostname)];
    var w := ArrivalPass(cfg, v, 6, hostname);
    OnMore(cfg, batches, v, last);
    ReservedIsDropped(cfg, v, last, 6);
  }

  /** A newcomer pays for it: a run whose last pass accepts a connection on the
      dangling descriptor and drops it again, unheard. */
  lemma NewcomerDropped(cfg: Config, hostname: string) returns (batches: seq<seq<Event>>, last: seq<Event>)
    requires Modest(cfg) && SafeToken(hostname)
    ensures LegalServerRun(cfg, batches) && LegalServerRun(cfg, batches + [last])
    ensures 6 !in ServerState(cfg, batches).core.clients && last == [Comes(6, hostname)]
    ensures 6 !in ServerState(cfg, batches + [last]).core.clients
  {
    batches := ReservationDangles(cfg);
    var v := ServerState(cfg, batches);
    OnlyListener(cfg, v);
    last := NewcomerPass(cfg, batches, v, hostname);
  }

  // ------------------------------------------- a reserved client still heard

  /** One client types a line, then the other does, in the same pass. */
  function Both(five: string, six: string): seq<Event> { [SILENCE, Chunk(five + "\r\n"), Chunk(six + "\r\n")] }

  lemma BothLegal(cfg: Config, v: View, five: string, six: string)
    requires Quietly(cfg, v) && |five| <= IRC_MAX_CONTENT && |six| <= IRC_MAX_CONTENT
    ensures LegalEvents(cfg, v, Both(five, six))
  {
  }

  /** After the entry of the first: the second is reserved, its input untouched. */
  ghost predicate Overheard(cfg: Config, w: View) {
    ViewOk(cfg, w) && w.core == Meeting() && 6 in w.io.pending && Holds(w, 6, "")
  }

  lemma PokeEntry(cfg: Config, v: View) returns (w: View)
    requires Modest(cfg) && Quietly(cfg, v) && v.core == Meeting() && !Fits(v.io.ports[6], Poke())
    ensures w == EntryEvent(cfg, v, 1, Chunk(Typed("PRIVMSG", ["b", "x"]) + "\r\n")) && Overheard(cfg, w)
  {
    PokeTypable();
    var u := TypedReceive(cfg, v, 5, "PRIVMSG", ["b", "x"]);
    w := Poked(cfg, v);
    OfferRefused(v.io, 6, Poke());
    ChunkEntry(cfg, v, 1, 5, Typed("PRIVMSG", ["b", "x"]) + "\r\n");
  }

  lemma RenameReceived(w: View, ev: Event)
    requires Holds(w, 6, "") && ev == Chunk(Typed("NICK", ["z"]) + "\r\n")
    ensures HeardLine(w, 6, ev) == Some(RENAME)
  {
    RenameTypable();
    TypedLine("NICK", ["z"], "");
    HeardAlone(w, 6, Typed("NICK", ["z"]), RENAME, ev);
  }

  lemma RenameHeard(cfg: Config, w: View, ev: Event)
    requires Overheard(cfg, w) && ev == Chunk(Typed("NICK", ["z"]) + "\r\n")
    ensures 6 in w.core.clients && ClientEventTrace(cfg, w, 6, ev) == [Says(6, RENAME)]
    ensures w.core.clients[6].nickname == "b"
    ensures 6 in ClientEvent(cfg, w, 6, ev).core.clients && ClientEvent(cfg, w, 6, ev).core.clients[6].nickname == "z"
  {
    RenameReceived(w, ev);
    ReservedClientRuns(cfg, w, 6, ev);
    RenameDone(cfg, w.core);
  }

  lemma PokeIsNext(cfg: Config, v: View, u: View, ev: Event)
    requires Modest(cfg) && Quietly(cfg, v) && v.core == Meeting() && !Fits(v.io.ports[6], Poke())
    requires ev == Chunk(Typed("PRIVMSG", ["b", "x"]) + "\r\n") && u == EntryEvent(cfg, v, 1, ev)
    ensures Overheard(cfg, u)
  {
    var w := PokeEntry(cfg, v);
  }

  lemma SecondEntry(cfg: Config, v: View, last: seq<Event>) returns (u: View)
    requires ViewOk(cfg, v) && AllSettled(v) && LegalEvents(cfg, v, last) && |last| > 1 && last[0].Silent()
    ensures u == PassUpTo(cfg, v, last, 2) && MidPass(cfg, v, u, 2) && u == EntryEvent(cfg, v, 1, last[1])
  {
    SilentFirst(cfg, v, last, 1);
    u := PassUpToNext(cfg, v, last, 1, v);
  }

  /** The pass, entry by entry. */
  lemma PokeInPass(cfg: Config, v: View, last: seq<Event>) returns (u: View)
    requires Modest(cfg) && Quietly(cfg, v) && v.core == Meeting() && !Fits(v.io.ports[6], Poke()) && AllSettled(v)
    requires last == Both(Typed("PRIVMSG", ["b", "x"]), Typed("NICK", ["z"])) && LegalEvents(cfg, v, last)
    ensures u == PassUpTo(cfg, v, last, 2) && MidPass(cfg, v, u, 2) && Overheard(cfg, u)
  {
    u := SecondEntry(cfg, v, last);
    PokeIsNext(cfg, v, u, last[1]);
  }

  lemma HeardInPass(cfg: Config, v: View, last: seq<Event>)
    requires Modest(cfg) && Quietly(cfg, v) && v.core == Meeting() && !Fits(v.io.ports[6], Poke()) && AllSettled(v)
    requires last == Both(Typed("PRIVMSG", ["b", "x"]), Typed("NICK", ["z"])) && LegalEvents(cfg, v, last)
    ensures var w, x := PassUpTo(cfg, v, last, 2), PassUpTo(cfg, v, last, 3);
      && Overheard(cfg, w) && x == EntryEvent(cfg, w, 2, last[2]) && w.io.poll[2].fd == 6
  {
    var u := PokeInPass(cfg, v, last);
    var x := PassUpToNext(cfg, v, last, 2, u);
  }

  lemma EntryOfSecond(cfg: Config, v: View, last: seq<Event>, w: View)
    requires ViewOk(cfg, v) && AllSettled(v) && LegalEvents(cfg, v, last) && |last| == 3
    requires w == PassUpTo(cfg, v, last, 2)
    requires ViewOk(cfg, w) && 2 < |w.io.poll| && w.io.poll[2].fd == 6 && cfg.listenFd != 6 && last[2].readable
    ensures EntryTraces(cfg, v, last)[2] == ClientEventTrace(cfg, w, 6, last[2])
    ensures EntryEvent(cfg, w, 2, last[2]) == ClientEvent(cfg, w, 6, last[2])
  {
  }

  /** "A reserved descriptor is not given to a new handler" fails in a run of the
      server: before its last entry the second client is reserved and called b,
      and the entry has its NICK executed. */
  lemma ReservedClientHeard(cfg: Config) returns (batches: seq<seq<Event>>, last: seq<Event>)
    requires Modest(cfg)
    ensures LegalServerRun(cfg, batches) && LegalServerRun(cfg, batches + [last])
    ensures var v := ServerState(cfg, batches);
      && ViewOk(cfg, v) && AllSettled(v) && LegalEvents(cfg, v, last) && |last| == 3
      && var w, x := PassUpTo(cfg, v, last, 2), PassUpTo(cfg, v, last, 3);
      && 6 in w.io.pending && 6 in w.core.clients && 6 in x.core.clients
      && EntryTraces(cfg, v, last)[2] == [Says(6, RENAME)]
      && w.core.clients[6].nickname == "b" && x.core.clients[6].nickname == "z"
  {
    var v;
    batches, v := FullReached(cfg);
    QuietlySettled(cfg, v);
    PokeTypable();
    RenameTypable();
    last := Both(Typed("PRIVMSG", ["b", "x"]), Typed("NICK", ["z"]));
    BothLegal(cfg, v, Typed("PRIVMSG", ["b", "x"]), Typed("NICK", ["z"]));
    OnMore(cfg, batches, v, last);
    HeardInPass(cfg, v, last);
    var w := PassUpTo(cfg, v, last, 2);
    RenameHeard(cfg, w, last[2]);
    EntryOfSecond(cfg, v, last, w);
  }
}
