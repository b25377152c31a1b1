/** Passes in which poll reports one thing: a connection, or one line of one
    client. Used to build runs step by step. */
module SinglePasses {
  import opened IrcUtil
  import opened Strings
  import opened Domain
  import opened Ordered
  import opened Parser
  import opened BufferUtil
  import opened Commands
  import opened Delivery
  import opened EventLoop
  import opened ServerRuns
  import opened Scripts

  const SILENCE: Event := Event(false, false, false, false, "", 0, None)

  function Chunk(data: string): Event { Event(false, true, false, false, data, 0, None) }

  function Comes(fd: int, hostname: string): Event { Event(false, true, false, false, "", 0, Some((fd, hostname))) }

  /** One event, for entry j of n. */
  function Batch(n: nat, j: nat, ev: Event): seq<Event> {
    seq(n, i => if i == j then ev else SILENCE)
  }

  lemma SilentStep(cfg: Config, v: View, events: seq<Event>, i: nat, j: nat)
    requires ViewOk(cfg, v) && AllSettled(v) && LegalEvents(cfg, v, events) && i < |events| && j == i + 1
    requires events[i].Silent()
    ensures PassUpTo(cfg, v, events, i) == PassUpTo(cfg, v, events, j)
  {
    var x := PassUpToNext(cfg, v, events, i, PassUpTo(cfg, v, events, i));
  }

  lemma {:induction false} Unchanged(views: seq<View>, from: nat, upto: nat)
    requires from <= upto < |views|
    requires forall i, j {:trigger views[i], views[j]} :: from <= i && j == i + 1 <= upto ==> views[i] == views[j]
    ensures views[from] == views[upto]
    decreases upto - from
  {
    if from < upto { Unchanged(views, from, upto - 1); }
  }

  lemma SilentStretch(cfg: Config, v: View, events: seq<Event>, from: nat, upto: nat)
    requires ViewOk(cfg, v) && AllSettled(v) && LegalEvents(cfg, v, events) && from <= upto <= |events|
    requires forall i :: from <= i < upto ==> events[i].Silent()
    ensures PassUpTo(cfg, v, events, from) == PassUpTo(cfg, v, events, upto)
  {
    var views := seq(|events| + 1, i requires 0 <= i <= |events| => PassUpTo(cfg, v, events, i));
    forall i, j | from <= i && j == i + 1 <= upto ensures views[i] == views[j] {
      SilentStep(cfg, v, events, i, j);
    }
    Unchanged(views, from, upto);
  }

  /** One event, at entry j. */
  predicate OnlyAt(events: seq<Event>, j: nat, ev: Event) {
    j < |events| && events[j] == ev && forall i :: 0 <= i < |events| && i != j ==> events[i].Silent()
  }

  lemma BatchIsOne(cfg: Config, v: View, j: nat, ev: Event)
    requires j < |v.io.poll| && ev.Legal(cfg)
    ensures LegalEvents(cfg, v, Batch(|v.io.poll|, j, ev)) && OnlyAt(Batch(|v.io.poll|, j, ev), j, ev)
  {
  }

  lemma SilentFirst(cfg: Config, v: View, events: seq<Event>, j: nat)
    requires ViewOk(cfg, v) && AllSettled(v) && LegalEvents(cfg, v, events) && j <= |events|
    requires forall i :: 0 <= i < j ==> events[i].Silent()
    ensures PassUpTo(cfg, v, events, j) == v && MidPass(cfg, v, v, j)
  {
    SilentStretch(cfg, v, events, 0, j);
  }

  lemma SilentLast(cfg: Config, v: View, events: seq<Event>, j: nat) returns (w: View)
    requires ViewOk(cfg, v) && AllSettled(v) && LegalEvents(cfg, v, events) && j <= |events|
    requires forall i :: j <= i < |events| ==> events[i].Silent()
    ensures w == PassUpTo(cfg, v, events, j) && ViewOk(cfg, w) && OnePass(cfg, v, events) == DrainPending(cfg, w)
  {
    SilentStretch(cfg, v, events, j, |events|);
    w := PassUpTo(cfg, v, events, |events|);
  }

  lemma AfterTheEvent(cfg: Config, v: View, events: seq<Event>, j: nat, k: nat) returns (w: View)
    requires ViewOk(cfg, v) && AllSettled(v) && LegalEvents(cfg, v, events) && j < |events| && k == j + 1
    requires forall i :: 0 <= i < j ==> events[i].Silent()
    ensures j < |v.io.poll| && w == EntryEvent(cfg, v, j, events[j]) && w == PassUpTo(cfg, v, events, k)
  {
    SilentFirst(cfg, v, events, j);
    w := PassUpToNext(cfg, v, events, j, v);
  }

  lemma OneEventRuns(cfg: Config, v: View, events: seq<Event>, j: nat, ev: Event) returns (w: View)
    requires ViewOk(cfg, v) && AllSettled(v) && LegalEvents(cfg, v, events) && OnlyAt(events, j, ev)
    ensures w == EntryEvent(cfg, v, j, ev) && ViewOk(cfg, w)
    ensures OnePass(cfg, v, events) == DrainPending(cfg, w)
  {
    var k := j + 1;
    var x := AfterTheEvent(cfg, v, events, j, k);
    w := SilentLast(cfg, v, events, k);
  }

  /** The pass does what its one event does, then drains. */
  lemma OneEvent(cfg: Config, v: View, j: nat, ev: Event) returns (w: View)
    requires ViewOk(cfg, v) && AllSettled(v) && j < |v.io.poll| && ev.Legal(cfg)
    ensures LegalEvents(cfg, v, Batch(|v.io.poll|, j, ev)) && w == EntryEvent(cfg, v, j, ev) && ViewOk(cfg, w)
    ensures OnePass(cfg, v, Batch(|v.io.poll|, j, ev)) == DrainPending(cfg, w)
  {
    BatchIsOne(cfg, v, j, ev);
    w := OneEventRuns(cfg, v, Batch(|v.io.poll|, j, ev), j, ev);
  }

  lemma NothingToDrain(cfg: Config, v: View)
    requires ViewOk(cfg, v) && v.io.pending == {}
    ensures DrainPending(cfg, v) == v
  {
    assert Ascending({}) == [];
  }

  lemma OnlyPass(cfg: Config, v: View, events: seq<Event>)
    requires ViewOk(cfg, v) && AllSettled(v) && LegalEvents(cfg, v, events)
    ensures LegalRun(cfg, v, [events]) && RunPasses(cfg, v, [events]) == OnePass(cfg, v, events)
  {
    PassKeeps(cfg, v, events);
    PassThenRun(cfg, v, events, OnePass(cfg, v, events), []);
    assert [events] + [] == [events];
  }

  lemma AllButFirst(batches: seq<seq<Event>>, events: seq<Event>)
    requires batches != []
    ensures batches + [events] == [batches[0]] + (batches[1..] + [events])
  {
  }

  /** One more pass at the end of a run. */
  lemma {:induction false} OneMorePass(cfg: Config, v: View, batches: seq<seq<Event>>, w: View, events: seq<Event>)
    requires ViewOk(cfg, v) && AllSettled(v) && LegalRun(cfg, v, batches) && w == RunPasses(cfg, v, batches)
    requires ViewOk(cfg, w) && AllSettled(w) && LegalEvents(cfg, w, events)
    ensures LegalRun(cfg, v, batches + [events])
    ensures RunPasses(cfg, v, batches + [events]) == OnePass(cfg, w, events)
    decreases |batches|
  {
    if batches == [] {
      OnlyPass(cfg, v, events);
      assert batches + [events] == [events];
    } else {
      var u := FirstPass(cfg, v, batches);
      OneMorePass(cfg, u, batches[1..], w, events);
      PassThenRun(cfg, v, batches[0], u, batches[1..] + [events]);
      AllButFirst(batches, events);
    }
  }

  /** A connection arrives, and nothing else happens. */
  lemma ArrivalPass(cfg: Config, v: View, fd: int, hostname: string) returns (w: View)
    requires ViewOk(cfg, v) && AllSettled(v) && 0 < |v.io.poll| && v.io.poll[0].fd == cfg.listenFd
    requires fd !in v.core.clients && fd != cfg.listenFd && SafeToken(hostname)
    ensures LegalEvents(cfg, v, Batch(|v.io.poll|, 0, Comes(fd, hostname)))
    ensures w == View(Connected(v.core, fd, hostname), Opened(v.io, fd)) && ViewOk(cfg, w)
    ensures OnePass(cfg, v, Batch(|v.io.poll|, 0, Comes(fd, hostname))) == DrainPending(cfg, w)
  {
    w := OneEvent(cfg, v, 0, Comes(fd, hostname));
  }

  // ----------------------------------------------------------- one line

  lemma TypedLine(command: string, words: seq<string>, rest: string)
    requires Typable(command, words)
    ensures ParseLine(Typed(command, words)) == Some(Message("", command, words))
    ensures FindLine(Typed(command, words) + "\r\n" + rest)
         == Extracted(Typed(command, words), |Typed(command, words)| + 2)
  {
    WordsSurviveTheWire("", command, words);
    NoLf(Typed(command, words));
    FirstCrLfLine(Typed(command, words), rest);
  }

  lemma NoLf(line: string)
    requires OneLine(line)
    ensures '\n' !in line
  {
    forall i | 0 <= i < |line| ensures line[i] != '\n' { assert LineChar(line[i]); }
  }

  /** The client holds nothing but `data`. */
  predicate Holds(v: View, fd: int, data: string) {
    fd in v.io.ports && v.io.ports[fd].receiveBuffer == data
  }

  lemma HeardAlone(w: View, fd: int, line: string, m: Message, ev: Event)
    requires Holds(w, fd, "") && line != "" && |line| + 2 <= MAX_RECEIVE_BUFFER && ev == Chunk(line + "\r\n")
    requires FindLine(line + "\r\n" + "") == Extracted(line, |line| + 2) && ParseLine(line) == Some(m)
    ensures HeardLine(w, fd, ev) == Some(m)
  {
    assert "" + (line + "\r\n") == line + "\r\n" + "";
  }

  /** The view with other received bytes. */
  function With(v: View, fd: int, data: string): View
    requires fd in v.io.ports
  {
    v.(io := v.io.(ports := v.io.ports[fd := v.io.ports[fd].(receiveBuffer := data)]))
  }

  lemma WithOk(cfg: Config, v: View, fd: int, data: string)
    requires ViewOk(cfg, v) && fd in v.io.ports
    ensures ViewOk(cfg, With(v, fd, data)) && Holds(With(v, fd, data), fd, data)
  {
    ReceiveSideKeeps(v.io, cfg.listenFd, fd, data);
  }

  /** The first of the lines held is taken off and executed; then the loop goes
      on with the rest, unless the client is now reserved. */
  lemma FirstTyped(cfg: Config, v: View, fd: int, command: string, words: seq<string>, rest: string) returns (w: View)
    requires ViewOk(cfg, v) && Typable(command, words) && Holds(v, fd, Typed(command, words) + "\r\n" + rest)
    ensures ViewOk(cfg, With(v, fd, rest)) && w == Execute(cfg, With(v, fd, rest), fd, Message("", command, words))
    ensures ViewOk(cfg, w) && Holds(w, fd, rest)
    ensures DrainLines(cfg, v, fd) == if fd in w.io.pending then w else DrainLines(cfg, w, fd)
  {
    TypedLine(command, words, rest);
    var line := Typed(command, words);
    var buffer := line + "\r\n" + rest;
    assert buffer[|line| + 2..] == rest;
    WithOk(cfg, v, fd, rest);
    assert Trimmed(v, fd, |line| + 2) == With(v, fd, rest);
    DrainLinesUnfold(cfg, v, fd);
    w := RunFirstLine(cfg, v, fd);
    ExecuteKeeps(cfg, With(v, fd, rest), fd, Message("", command, words));
  }

  lemma WithTwice(v: View, fd: int, data: string)
    requires Holds(v, fd, "")
    ensures With(With(v, fd, data), fd, "") == v
    ensures With(v, fd, data) == v.(io := Received(v.io, fd, data))
  {
    assert "" + data == data;
    assert With(With(v, fd, data), fd, "").io.ports == v.io.ports;
  }

  lemma WithOver(v: View, fd: int, a: string, b: string)
    requires fd in v.io.ports
    ensures With(With(v, fd, a), fd, b) == With(v, fd, b)
  {
  }

  lemma ReceiveDrains(cfg: Config, v: View, fd: int, data: string)
    requires ViewOk(cfg, v) && Holds(v, fd, "") && data != "" && |data| <= MAX_RECEIVE_BUFFER
    ensures ViewOk(cfg, With(v, fd, data))
    ensures EventLoop.Receive(cfg, v, fd, data) == DrainLines(cfg, With(v, fd, data), fd)
  {
    WithOk(cfg, v, fd, data);
    WithTwice(v, fd, data);
  }

  lemma NoMoreLines(cfg: Config, v: View, fd: int)
    requires ViewOk(cfg, v) && Holds(v, fd, "")
    ensures DrainLines(cfg, v, fd) == v
  {
  }

  /** One chunk that holds one line does what the command does. */
  lemma TypedReceive(cfg: Config, v: View, fd: int, command: string, words: seq<string>) returns (w: View)
    requires ViewOk(cfg, v) && Typable(command, words) && Holds(v, fd, "")
    ensures w == Execute(cfg, v, fd, Message("", command, words)) && ViewOk(cfg, w) && Holds(w, fd, "")
    ensures EventLoop.Receive(cfg, v, fd, Typed(command, words) + "\r\n") == w
  {
    var data := Typed(command, words) + "\r\n";
    WithOk(cfg, v, fd, data);
    WithTwice(v, fd, data);
    var u := With(v, fd, data);
    assert data == data + "";
    w := FirstTyped(cfg, u, fd, command, words, "");
    NoMoreLines(cfg, w, fd);
  }

  /** What a chunk alone does to its entry. */
  lemma ChunkEntry(cfg: Config, v: View, j: nat, fd: int, data: string)
    requires ViewOk(cfg, v) && fd in v.io.ports && data != ""
    requires j < |v.io.poll| && v.io.poll[j].fd == fd && fd != cfg.listenFd
    requires fd in EventLoop.Receive(cfg, v, fd, data).io.ports
    ensures EntryEvent(cfg, v, j, Chunk(data)) == EventLoop.Receive(cfg, v, fd, data)
  {
  }
}
