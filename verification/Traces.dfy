/** A run of the server as the list of what it was told: lines parsed from a
    client, connections accepted, connections closed. Every law about runs is a
    law about such a list (services/irc/prd/interface). */
module Traces {
  import opened IrcUtil
  import opened Domain
  import opened Commands
  import opened Moves
  import opened CommandMoves

  datatype Step =
    | Says(fd: int, m: Message)
    | Arrives(fd: int, hostname: string)
    | Departs(fd: int, reason: string)

  /** What the server does about it. */
  ghost function Happens(cfg: Config, c: Core, s: Step): Effect
    requires Inv(c)
  {
    match s
    case Says(fd, m) =>
      assert fd in c.clients ==> ClientOk(c.clients[fd], fd);
      Dispatch(cfg, c, fd, m)
    case Arrives(fd, hostname) => Effect(Connected(c, fd, hostname), [])
    case Departs(fd, reason) => Disconnect(c, fd, reason)
  }

  /** A printed peer address is a safe token. */
  predicate Sound(s: Step) { s.Arrives? ==> SafeToken(s.hostname) }

  predicate AllSound(trace: seq<Step>) {
    forall i {:trigger trace[i]} :: 0 <= i < |trace| ==> Sound(trace[i])
  }

  lemma HappensKeeps(cfg: Config, c: Core, s: Step)
    requires Inv(c) && Sound(s)
    ensures Inv(Happens(cfg, c, s).core)
  {
    match s {
      case Says(fd, m) => DispatchKeeps(cfg, c, fd, m);
      case Arrives(fd, hostname) => if fd !in c.clients { ConnectKeeps(c, fd, hostname); }
      case Departs(fd, reason) => if fd in c.clients { DropKeeps(c, fd); }
    }
  }

  /** The state after the first `n` steps. */
  ghost function After(cfg: Config, c: Core, trace: seq<Step>, n: nat): (d: Core)
    requires Inv(c) && AllSound(trace) && n <= |trace|
    ensures Inv(d)
  {
    if n == 0 then c
    else
      var d := After(cfg, c, trace, n - 1);
      HappensKeeps(cfg, d, trace[n - 1]);
      Happens(cfg, d, trace[n - 1]).core
  }

  /** A run: each state is what the server makes of the step before it. */
  ghost predicate Runs(cfg: Config, states: seq<Core>, trace: seq<Step>) {
    && |states| == |trace| + 1 && AllSound(trace)
    && (forall i {:trigger Inv(states[i])} :: 0 <= i < |states| ==> Inv(states[i]))
    && forall i, j {:trigger Happens(cfg, states[i], trace[i]), states[j]} :: 0 <= i < |trace| && j == i + 1 ==>
         states[j] == Happens(cfg, states[i], trace[i]).core
  }

  lemma RunStep(cfg: Config, states: seq<Core>, trace: seq<Step>, i: nat, j: nat)
    requires Runs(cfg, states, trace) && i < |trace| && j == i + 1
    ensures Inv(states[i]) && Inv(states[j]) && Sound(trace[i])
    ensures states[j] == Happens(cfg, states[i], trace[i]).core
  {
  }

  /** The states a trace goes through. */
  ghost function States(cfg: Config, c: Core, trace: seq<Step>): seq<Core>
    requires Inv(c) && AllSound(trace)
  {
    seq(|trace| + 1, i requires 0 <= i <= |trace| => After(cfg, c, trace, i))
  }

  lemma StatesRun(cfg: Config, c: Core, trace: seq<Step>)
    requires Inv(c) && AllSound(trace)
    ensures var states := States(cfg, c, trace);
      Runs(cfg, states, trace) && states[0] == c && states[|trace|] == After(cfg, c, trace, |trace|)
  {
    var states := States(cfg, c, trace);
    forall i, j | 0 <= i < |trace| && j == i + 1 ensures states[j] == Happens(cfg, states[i], trace[i]).core {
      AfterNext(cfg, c, trace, i, states[i]);
    }
  }

  /** The trace takes c to d. */
  ghost predicate Leads(cfg: Config, c: Core, trace: seq<Step>, d: Core) {
    Inv(c) && AllSound(trace) && After(cfg, c, trace, |trace|) == d
  }

  lemma AfterNext(cfg: Config, c: Core, trace: seq<Step>, n: nat, d: Core)
    requires Inv(c) && AllSound(trace) && n < |trace| && d == After(cfg, c, trace, n)
    ensures Inv(d) && Sound(trace[n]) && After(cfg, c, trace, n + 1) == Happens(cfg, d, trace[n]).core
  {
  }

  lemma {:induction false} AfterPrefix(cfg: Config, c: Core, a: seq<Step>, b: seq<Step>, n: nat)
    requires Inv(c) && AllSound(a) && AllSound(b) && a <= b && n <= |a|
    ensures After(cfg, c, a, n) == After(cfg, c, b, n)
  {
    if n > 0 {
      AfterPrefix(cfg, c, a, b, n - 1);
      AfterNext(cfg, c, a, n - 1, After(cfg, c, a, n - 1));
      AfterNext(cfg, c, b, n - 1, After(cfg, c, a, n - 1));
    }
  }

  lemma {:induction false} AfterBehind(cfg: Config, c: Core, a: seq<Step>, d: Core, b: seq<Step>, n: nat)
    requires Leads(cfg, c, a, d) && Inv(d) && AllSound(b) && AllSound(a + b) && n <= |b|
    ensures After(cfg, c, a + b, |a| + n) == After(cfg, d, b, n)
  {
    if n == 0 {
      AfterPrefix(cfg, c, a, a + b, |a|);
    } else {
      AfterBehind(cfg, c, a, d, b, n - 1);
      assert (a + b)[|a| + n - 1] == b[n - 1];
      AfterNext(cfg, d, b, n - 1, After(cfg, d, b, n - 1));
      AfterNext(cfg, c, a + b, |a| + n - 1, After(cfg, d, b, n - 1));
    }
  }

  /** One stretch after another. */
  lemma LeadsThen(cfg: Config, c: Core, a: seq<Step>, d: Core, b: seq<Step>, e: Core)
    requires Leads(cfg, c, a, d) && Leads(cfg, d, b, e)
    ensures Leads(cfg, c, a + b, e)
  {
    forall i | 0 <= i < |a + b| ensures Sound((a + b)[i]) {
      if i < |a| { assert Sound(a[i]); } else { assert Sound(b[i - |a|]); }
    }
    AfterBehind(cfg, c, a, d, b, |b|);
  }

  lemma LeadsNowhere(cfg: Config, c: Core)
    requires Inv(c)
    ensures Leads(cfg, c, [], c)
  {
  }

  lemma OneStep(cfg: Config, c: Core, s: Step)
    requires Inv(c) && Sound(s)
    ensures Leads(cfg, c, [s], Happens(cfg, c, s).core)
  {
    AfterNext(cfg, c, [s], 0, c);
  }

  function Flat(pieces: seq<seq<Step>>, n: nat): seq<Step>
    requires n <= |pieces|
  {
    if n == 0 then [] else Flat(pieces, n - 1) + pieces[n - 1]
  }

  /** Each piece leads from one state to the next. */
  ghost predicate Chain(cfg: Config, cores: seq<Core>, pieces: seq<seq<Step>>) {
    |cores| == |pieces| + 1 && Inv(cores[0]) &&
    forall i, j {:trigger pieces[i], cores[j]} :: 0 <= i < |pieces| && j == i + 1 ==>
      Leads(cfg, cores[i], pieces[i], cores[j])
  }

  lemma {:induction false} ChainLeads(cfg: Config, cores: seq<Core>, pieces: seq<seq<Step>>, n: nat)
    requires Chain(cfg, cores, pieces) && n <= |pieces|
    ensures Leads(cfg, cores[0], Flat(pieces, n), cores[n])
    decreases n
  {
    if n == 0 {
      LeadsNowhere(cfg, cores[0]);
    } else {
      ChainLeads(cfg, cores, pieces, n - 1);
      LeadsThen(cfg, cores[0], Flat(pieces, n - 1), cores[n - 1], pieces[n - 1], cores[n]);
    }
  }
}
