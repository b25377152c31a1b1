/** Whole runs of the IRC server: pass after pass of the poll loop from the
    empty server, whatever the peers send and the operating system reports, and
    the list of lines, connections and disconnections each of them amounts to. */
module ServerRuns {
  import opened IrcUtil
  import opened Domain
  import opened Ordered
  import opened Moves
  import opened Traces
  import opened RunLaws
  import opened Welcomes
  import opened Series
  import opened Delivery
  import opened EventLoop

  // ------------------------------------------------------------ one pass

  lemma PassUpToNext(cfg: Config, v: View, events: seq<Event>, n: nat, w: View) returns (x: View)
    requires ViewOk(cfg, v) && AllSettled(v) && LegalEvents(cfg, v, events) && n < |events|
    requires MidPass(cfg, v, w, n) && w == PassUpTo(cfg, v, events, n)
    ensures events[n].Legal(cfg) && Distinct(v.io.poll)
    ensures MidPass(cfg, v, x, n + 1) && x == PassUpTo(cfg, v, events, n + 1)
    ensures x == NextEntry(cfg, v, w, n, events[n])
  {
    x := NextEntry(cfg, v, w, n, events[n]);
  }

  /** What the entries of a pass amount to, one piece each. */
  ghost function EntryTraces(cfg: Config, v: View, events: seq<Event>): seq<seq<Step>>
    requires ViewOk(cfg, v) && AllSettled(v) && LegalEvents(cfg, v, events)
  {
    seq(|events|, i requires 0 <= i < |events| => EntryTrace(cfg, PassUpTo(cfg, v, events, i), i, events[i]))
  }

  lemma EntryLeads(cfg: Config, v: View, events: seq<Event>, i: nat, j: nat)
    requires ViewOk(cfg, v) && AllSettled(v) && LegalEvents(cfg, v, events) && i < |events| && j == i + 1
    ensures Leads(cfg, PassUpTo(cfg, v, events, i).core, EntryTraces(cfg, v, events)[i],
                  PassUpTo(cfg, v, events, j).core)
  {
    var w := PassUpTo(cfg, v, events, i);
    var x := PassUpToNext(cfg, v, events, i, w);
    EntryStep(cfg, v, w, i, events[i]);
  }

  lemma EntriesLead(cfg: Config, v: View, events: seq<Event>)
    requires ViewOk(cfg, v) && AllSettled(v) && LegalEvents(cfg, v, events)
    ensures Leads(cfg, v.core, Flat(EntryTraces(cfg, v, events), |events|), PassUpTo(cfg, v, events, |events|).core)
  {
    var n := |events|;
    var pieces := EntryTraces(cfg, v, events);
    var cores := seq(n + 1, i requires 0 <= i <= n => PassUpTo(cfg, v, events, i).core);
    forall i, j | 0 <= i < |pieces| && j == i + 1 ensures Leads(cfg, cores[i], pieces[i], cores[j]) {
      EntryLeads(cfg, v, events, i, j);
    }
    ChainLeads(cfg, cores, pieces, n);
  }

  // ----------------------------------------------------------- the drain

  ghost function DrainTraces(cfg: Config, v: View, order: seq<int>): seq<seq<Step>>
    requires ViewOk(cfg, v)
  {
    seq(|order|, i requires 0 <= i < |order| =>
      [Departs(order[i], ReasonOf(DrainUpTo(cfg, v, order, i), order[i]))])
  }

  lemma DepartureLeads(cfg: Config, v: View, order: seq<int>, i: nat, j: nat)
    requires ViewOk(cfg, v) && i < |order| && j == i + 1
    ensures Leads(cfg, DrainUpTo(cfg, v, order, i).core, DrainTraces(cfg, v, order)[i],
                  DrainUpTo(cfg, v, order, j).core)
  {
    var w := DrainUpTo(cfg, v, order, i);
    DrainUpToNext(cfg, v, order, j);
    OneStep(cfg, w.core, Departs(order[i], ReasonOf(w, order[i])));
  }

  lemma DrainLeads(cfg: Config, v: View, order: seq<int>)
    requires ViewOk(cfg, v)
    ensures Leads(cfg, v.core, Flat(DrainTraces(cfg, v, order), |order|), DrainUpTo(cfg, v, order, |order|).core)
  {
    var n := |order|;
    var pieces := DrainTraces(cfg, v, order);
    var cores := seq(n + 1, i requires 0 <= i <= n => DrainUpTo(cfg, v, order, i).core);
    forall i, j | 0 <= i < |pieces| && j == i + 1 ensures Leads(cfg, cores[i], pieces[i], cores[j]) {
      DepartureLeads(cfg, v, order, i, j);
    }
    ChainLeads(cfg, cores, pieces, n);
  }

  /** What one pass amounts to: the lines and connections of its entries in poll
      order, then the reserved disconnections in ascending order. */
  ghost function PassTrace(cfg: Config, v: View, events: seq<Event>): seq<Step>
    requires ViewOk(cfg, v) && AllSettled(v) && LegalEvents(cfg, v, events)
  {
    var w := PassUpTo(cfg, v, events, |events|);
    var order := Ascending(w.io.pending);
    Flat(EntryTraces(cfg, v, events), |events|)
    + Flat(DrainTraces(cfg, w.(io := w.io.(pending := {})), order), |order|)
  }

  lemma PassLeads(cfg: Config, v: View, events: seq<Event>)
    requires ViewOk(cfg, v) && AllSettled(v) && LegalEvents(cfg, v, events)
    ensures Leads(cfg, v.core, PassTrace(cfg, v, events), OnePass(cfg, v, events).core)
  {
    EntriesLead(cfg, v, events);
    var w := PassUpTo(cfg, v, events, |events|);
    var order := Ascending(w.io.pending);
    var start := w.(io := w.io.(pending := {}));
    DrainLeads(cfg, start, order);
    LeadsThen(cfg, v.core, Flat(EntryTraces(cfg, v, events), |events|), w.core,
              Flat(DrainTraces(cfg, start, order), |order|), OnePass(cfg, v, events).core);
  }

  // --------------------------------------------------------- whole runs

  /** The server as it starts: listening, nobody connected. */
  function Fresh(cfg: Config): View {
    View(EMPTY_CORE, Io(map[], [Watch(cfg.listenFd, false)], {}, map[]))
  }

  lemma FreshOk(cfg: Config)
    requires SafeToken(cfg.serverName)
    ensures ViewOk(cfg, Fresh(cfg)) && AllSettled(Fresh(cfg))
  {
    EmptyInv();
    var io := Fresh(cfg).io;
    assert Fds(io.poll) == {cfg.listenFd} by { assert io.poll[0].fd == cfg.listenFd; }
  }

  /** One batch of poll results for each pass, each legal where it is met. */
  ghost predicate LegalRun(cfg: Config, v: View, batches: seq<seq<Event>>)
    requires ViewOk(cfg, v) && AllSettled(v)
    decreases |batches|
  {
    batches == [] ||
    (LegalEvents(cfg, v, batches[0]) &&
     (PassKeeps(cfg, v, batches[0]);
      LegalRun(cfg, OnePass(cfg, v, batches[0]), batches[1..])))
  }

  ghost function RunPasses(cfg: Config, v: View, batches: seq<seq<Event>>): View
    requires ViewOk(cfg, v) && AllSettled(v) && LegalRun(cfg, v, batches)
    decreases |batches|
  {
    if batches == [] then v
    else
      PassKeeps(cfg, v, batches[0]);
      RunPasses(cfg, OnePass(cfg, v, batches[0]), batches[1..])
  }

  ghost function RunTrace(cfg: Config, v: View, batches: seq<seq<Event>>): seq<Step>
    requires ViewOk(cfg, v) && AllSettled(v) && LegalRun(cfg, v, batches)
    decreases |batches|
  {
    if batches == [] then []
    else
      PassKeeps(cfg, v, batches[0]);
      PassTrace(cfg, v, batches[0]) + RunTrace(cfg, OnePass(cfg, v, batches[0]), batches[1..])
  }

  lemma {:induction false} RunPassesKeeps(cfg: Config, v: View, batches: seq<seq<Event>>)
    requires ViewOk(cfg, v) && AllSettled(v) && LegalRun(cfg, v, batches)
    ensures var w := RunPasses(cfg, v, batches);
      ViewOk(cfg, w) && AllSettled(w) && Leads(cfg, v.core, RunTrace(cfg, v, batches), w.core)
    decreases |batches|
  {
    if batches == [] {
      LeadsNowhere(cfg, v.core);
    } else {
      PassKeeps(cfg, v, batches[0]);
      PassLeads(cfg, v, batches[0]);
      var w := OnePass(cfg, v, batches[0]);
      RunPassesKeeps(cfg, w, batches[1..]);
      LeadsThen(cfg, v.core, PassTrace(cfg, v, batches[0]), w.core,
                RunTrace(cfg, w, batches[1..]), RunPasses(cfg, w, batches[1..]).core);
    }
  }

  lemma FirstPass(cfg: Config, v: View, batches: seq<seq<Event>>) returns (w: View)
    requires ViewOk(cfg, v) && AllSettled(v) && LegalRun(cfg, v, batches) && batches != []
    ensures LegalEvents(cfg, v, batches[0]) && w == OnePass(cfg, v, batches[0])
    ensures ViewOk(cfg, w) && AllSettled(w) && LegalRun(cfg, w, batches[1..])
    ensures RunPasses(cfg, v, batches) == RunPasses(cfg, w, batches[1..])
    ensures RunTrace(cfg, v, batches) == PassTrace(cfg, v, batches[0]) + RunTrace(cfg, w, batches[1..])
  {
    PassKeeps(cfg, v, batches[0]);
    w := OnePass(cfg, v, batches[0]);
  }

  lemma PassThenRun(cfg: Config, v: View, batch: seq<Event>, w: View, rest: seq<seq<Event>>)
    requires ViewOk(cfg, v) && AllSettled(v) && LegalEvents(cfg, v, batch) && w == OnePass(cfg, v, batch)
    requires ViewOk(cfg, w) && AllSettled(w) && LegalRun(cfg, w, rest)
    ensures LegalRun(cfg, v, [batch] + rest)
    ensures RunPasses(cfg, v, [batch] + rest) == RunPasses(cfg, w, rest)
    ensures RunTrace(cfg, v, [batch] + rest) == PassTrace(cfg, v, batch) + RunTrace(cfg, w, rest)
  {
    var all := [batch] + rest;
    assert all[0] == batch && all[1..] == rest;
  }

  lemma PrefixBehind<T>(head: seq<T>, a: seq<T>, b: seq<T>)
    requires a <= b
    ensures head + a <= head + b
  {
  }

  lemma PassesSplit(batches: seq<seq<Event>>, taken: seq<seq<Event>>)
    requires taken <= batches && taken != []
    ensures batches != [] && taken[1..] <= batches[1..] && [batches[0]] + taken[1..] == taken
  {
  }

  /** The trace of the first passes is a prefix of the trace of them all, so the
      state at each pass boundary is a state of the trace. */
  lemma {:induction false} RunPrefix(cfg: Config, v: View, batches: seq<seq<Event>>, taken: seq<seq<Event>>)
    requires ViewOk(cfg, v) && AllSettled(v) && LegalRun(cfg, v, batches) && taken <= batches
    ensures LegalRun(cfg, v, taken) && RunTrace(cfg, v, taken) <= RunTrace(cfg, v, batches)
    decreases |taken|
  {
    if taken != [] {
      PassesSplit(batches, taken);
      var w := FirstPass(cfg, v, batches);
      RunPrefix(cfg, w, batches[1..], taken[1..]);
      PassThenRun(cfg, v, batches[0], w, taken[1..]);
      PrefixBehind(PassTrace(cfg, v, batches[0]), RunTrace(cfg, w, taken[1..]), RunTrace(cfg, w, batches[1..]));
    }
  }

  // ------------------------------------------------- from the empty server

  ghost predicate LegalServerRun(cfg: Config, batches: seq<seq<Event>>)
    requires SafeToken(cfg.serverName)
  {
    FreshOk(cfg);
    LegalRun(cfg, Fresh(cfg), batches)
  }

  ghost function ServerState(cfg: Config, batches: seq<seq<Event>>): View
    requires SafeToken(cfg.serverName) && LegalServerRun(cfg, batches)
  {
    FreshOk(cfg);
    RunPasses(cfg, Fresh(cfg), batches)
  }

  ghost function ServerTrace(cfg: Config, batches: seq<seq<Event>>): seq<Step>
    requires SafeToken(cfg.serverName) && LegalServerRun(cfg, batches)
  {
    FreshOk(cfg);
    RunTrace(cfg, Fresh(cfg), batches)
  }

  /** The relational states of the run, one after each step. */
  ghost function ServerStates(cfg: Config, batches: seq<seq<Event>>): seq<Core>
    requires SafeToken(cfg.serverName) && LegalServerRun(cfg, batches)
  {
    TraceSound(cfg, batches);
    States(cfg, EMPTY_CORE, ServerTrace(cfg, batches))
  }

  lemma TraceSound(cfg: Config, batches: seq<seq<Event>>)
    requires SafeToken(cfg.serverName) && LegalServerRun(cfg, batches)
    ensures Leads(cfg, EMPTY_CORE, ServerTrace(cfg, batches), ServerState(cfg, batches).core)
    ensures ViewOk(cfg, ServerState(cfg, batches)) && AllSettled(ServerState(cfg, batches))
  {
    FreshOk(cfg);
    RunPassesKeeps(cfg, Fresh(cfg), batches);
  }

  /** In every reachable state the whole invariant holds, and the relational
      state is what the lines, connections and disconnections of the run, in
      their order, make of the empty server. */
  lemma ServerInvariant(cfg: Config, batches: seq<seq<Event>>)
    requires SafeToken(cfg.serverName) && LegalServerRun(cfg, batches)
    ensures ViewOk(cfg, ServerState(cfg, batches)) && AllSettled(ServerState(cfg, batches))
    ensures var states, trace := ServerStates(cfg, batches), ServerTrace(cfg, batches);
      && Runs(cfg, states, trace)
      && states[0] == EMPTY_CORE && states[|trace|] == ServerState(cfg, batches).core
  {
    TraceSound(cfg, batches);
    StatesRun(cfg, EMPTY_CORE, ServerTrace(cfg, batches));
  }

  /** The state after each pass is the state after a prefix of that list. */
  lemma PassBoundary(cfg: Config, batches: seq<seq<Event>>, taken: seq<seq<Event>>)
    requires SafeToken(cfg.serverName) && LegalServerRun(cfg, batches) && taken <= batches
    ensures LegalServerRun(cfg, taken) && ServerTrace(cfg, taken) <= ServerTrace(cfg, batches)
    ensures |ServerStates(cfg, batches)| == |ServerTrace(cfg, batches)| + 1
    ensures ServerStates(cfg, batches)[|ServerTrace(cfg, taken)|] == ServerState(cfg, taken).core
  {
    FreshOk(cfg);
    RunPrefix(cfg, Fresh(cfg), batches, taken);
    TraceSound(cfg, batches);
    TraceSound(cfg, taken);
    var n := |ServerTrace(cfg, taken)|;
    AfterPrefix(cfg, EMPTY_CORE, ServerTrace(cfg, taken), ServerTrace(cfg, batches), n);
    BoundaryState(cfg, batches, n);
  }

  lemma BoundaryState(cfg: Config, batches: seq<seq<Event>>, n: nat)
    requires SafeToken(cfg.serverName) && LegalServerRun(cfg, batches) && n <= |ServerTrace(cfg, batches)|
    ensures Inv(EMPTY_CORE) && AllSound(ServerTrace(cfg, batches))
    ensures |ServerStates(cfg, batches)| == |ServerTrace(cfg, batches)| + 1
    ensures ServerStates(cfg, batches)[n] == After(cfg, EMPTY_CORE, ServerTrace(cfg, batches), n)
  {
    TraceSound(cfg, batches);
  }

  /** Hence in the running server: whoever is operator of a channel created it by
      its own JOIN or was named in a MODE sent by one who was operator, at a step
      of this very run, and has been operator since. */
  lemma ServerOperatorProvenance(cfg: Config, batches: seq<seq<Event>>, fd: int, k: string) returns (i: nat)
    requires SafeToken(cfg.serverName) && LegalServerRun(cfg, batches)
    requires IsOperator(ServerState(cfg, batches).core, fd, k)
    ensures var states, trace := ServerStates(cfg, batches), ServerTrace(cfg, batches);
      && i < |trace| < |states| && Grants(states[i], trace[i], fd, k)
      && forall j :: i < j <= |trace| ==> IsOperator(states[j], fd, k)
  {
    ServerInvariant(cfg, batches);
    var states, trace := ServerStates(cfg, batches), ServerTrace(cfg, batches);
    i := OperatorProvenance(cfg, states, trace, |trace|, fd, k);
  }

  /** The account of a channel over any stretch of a run of the server in which
      it exists: entries under +i and open invites against INVITEs granted. */
  lemma ServerAdmissions(cfg: Config, batches: seq<seq<Event>>, k: string, from: nat, upto: nat)
    requires SafeToken(cfg.serverName) && LegalServerRun(cfg, batches)
    requires from <= upto <= |ServerTrace(cfg, batches)| < |ServerStates(cfg, batches)|
    requires Alive(ServerStates(cfg, batches), k, from, upto)
    ensures var states, trace := ServerStates(cfg, batches), ServerTrace(cfg, batches);
      Sum(EntrySeries(states, k, from, upto)) + OpenInvites(states[upto], k)
      <= Sum(InviteSeries(states, trace, k, from, upto)) + OpenInvites(states[from], k)
  {
    ServerInvariant(cfg, batches);
    AdmissionAccounting(cfg, ServerStates(cfg, batches), ServerTrace(cfg, batches), k, from, upto);
  }

  /** The member count of a channel of the running server while a limit is set. */
  lemma ServerLimit(cfg: Config, batches: seq<seq<Event>>, k: string, limit: nat, from: nat, upto: nat)
    requires SafeToken(cfg.serverName) && LegalServerRun(cfg, batches)
    requires from <= upto <= |ServerTrace(cfg, batches)| < |ServerStates(cfg, batches)|
    requires LimitHeld(ServerStates(cfg, batches), k, limit, from, upto)
    ensures var states := ServerStates(cfg, batches);
      var before := MemberCount(states[from], k);
      MemberCount(states[upto], k) <= if before > limit then before else limit
  {
    ServerInvariant(cfg, batches);
    LimitRespected(cfg, ServerStates(cfg, batches), ServerTrace(cfg, batches), k, limit, from, upto);
  }

  /** Nobody is promoted in a channel of the running server that has no operator. */
  lemma ServerNoOperator(cfg: Config, batches: seq<seq<Event>>, k: string, from: nat, upto: nat)
    requires SafeToken(cfg.serverName) && LegalServerRun(cfg, batches)
    requires from <= upto <= |ServerTrace(cfg, batches)| < |ServerStates(cfg, batches)|
    requires Alive(ServerStates(cfg, batches), k, from, upto) && !Led(ServerStates(cfg, batches)[from], k)
    ensures !Led(ServerStates(cfg, batches)[upto], k)
  {
    ServerInvariant(cfg, batches);
    NoOperatorStays(cfg, ServerStates(cfg, batches), ServerTrace(cfg, batches), k, from, upto);
  }

  /** Welcomes of the running server: over any stretch in which the connection
      lasts, one 001 line if it became registered, none otherwise. */
  lemma ServerWelcomes(cfg: Config, batches: seq<seq<Event>>, x: int, from: nat, upto: nat)
    requires SafeToken(cfg.serverName) && LegalServerRun(cfg, batches)
    requires from <= upto <= |ServerTrace(cfg, batches)| < |ServerStates(cfg, batches)|
    requires x in ServerStates(cfg, batches)[from].clients
    requires forall i :: from <= i < upto ==> NotLeaving(ServerTrace(cfg, batches)[i], x)
    ensures var states, trace := ServerStates(cfg, batches), ServerTrace(cfg, batches);
      && Runs(cfg, states, trace) && x in states[upto].clients
      && (Registered(states[from], x) ==> Registered(states[upto], x))
      && Sum(WelcomeSeries(cfg, states, trace, x, from, upto))
         == if Registered(states[upto], x) && !Registered(states[from], x) then 1 else 0
  {
    ServerInvariant(cfg, batches);
    WelcomedOnce(cfg, ServerStates(cfg, batches), ServerTrace(cfg, batches), x, from, upto);
  }

  /** The 65536-byte receive limit is out of reach: when an entry is handled its
      client holds at most 511 bytes and recv gives at most 4096, so no buffer
      passes 4607 and every chunk is drained, whoever reserved whom. */
  lemma ReceiveLimitUnreachable(cfg: Config, v: View, events: seq<Event>, n: nat)
    requires ViewOk(cfg, v) && AllSettled(v) && LegalEvents(cfg, v, events) && n < |events|
    ensures var w := PassUpTo(cfg, v, events, n);
      var fd := w.io.poll[n].fd;
      fd in w.io.ports ==>
        && |w.io.ports[fd].receiveBuffer| + |events[n].data| <= MAX_RESIDUE + RECV_CHUNK_SIZE
        && (events[n].data != "" ==>
              var x := w.(io := Received(w.io, fd, events[n].data));
              ViewOk(cfg, x) && Receive(cfg, w, fd, events[n].data) == DrainLines(cfg, x, fd))
  {
    var w := PassUpTo(cfg, v, events, n);
    var fd := w.io.poll[n].fd;
    assert v.io.poll[n].fd == fd;
    assert events[n].Legal(cfg);
    if fd in w.io.ports && events[n].data != "" {
      ReceivedSteps(cfg, w, fd, events[n].data);
    }
  }
}
