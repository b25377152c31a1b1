/** The welcome sequence over whole runs: a connection is welcomed once, at the
    step that registers it, and never otherwise
    (services/irc/prd/handler/ServerAuthCommands.cpp). */
module Welcomes {
  import opened IrcUtil
  import opened Domain
  import opened Commands
  import opened Moves
  import opened CommandMoves
  import opened Sends
  import opened Traces
  import opened Series

  /** How many 001 lines are offered to x. */
  ghost function WelcomesTo(sends: seq<Send>, x: int): nat {
    if sends == [] then 0
    else (if x in sends[0].to && IsWelcome(sends[0].text) then 1 else 0) + WelcomesTo(sends[1..], x)
  }

  lemma {:induction false} PlainWelcomesNobody(sends: seq<Send>, x: int)
    requires PlainSends(sends)
    ensures WelcomesTo(sends, x) == 0
    decreases |sends|
  {
    if sends != [] {
      assert PlainLine(sends[0].text);
      forall i | 0 <= i < |sends[1..]| ensures PlainLine(sends[1..][i].text) { assert PlainLine(sends[i + 1].text); }
      PlainWelcomesNobody(sends[1..], x);
    }
  }

  lemma WelcomeIsForOne(cfg: Config, me: Client, x: int)
    requires SafeToken(cfg.serverName) && ClientOk(me, me.fd)
    ensures WelcomesTo(Welcome(cfg, me), x) == if x == me.fd then 1 else 0
  {
    WelcomeLines(cfg, me);
    PlainWelcomesNobody(Welcome(cfg, me)[1..], x);
  }

  ghost predicate Registered(c: Core, x: int) { x in c.clients && c.clients[x].registered }

  predicate NotLeaving(s: Step, x: int) { !(s.Departs? && s.fd == x) }

  lemma LineWelcomes(cfg: Config, c: Core, fd: int, m: Message, x: int)
    requires SafeToken(cfg.serverName) && Inv(c) && x in c.clients
    ensures fd in c.clients ==> c.clients[fd].fd == fd
    ensures var e := Dispatch(cfg, c, fd, m);
      && x in e.core.clients && (Registered(c, x) ==> Registered(e.core, x))
      && WelcomesTo(e.sends, x) == if Registered(e.core, x) && !Registered(c, x) then 1 else 0
  {
    if fd in c.clients {
      DispatchGreets(cfg, c, fd, m);
      var e := Dispatch(cfg, c, fd, m);
      var deeds := DispatchDeeds(cfg, c, fd, m);
      OwnRunRegistered(c, deeds, fd, x);
      if Registers(c, e.core, fd) {
        WelcomeIsForOne(cfg, e.core.clients[fd], x);
      } else {
        PlainWelcomesNobody(e.sends, x);
      }
    }
  }

  /** One step: x is welcomed, once, exactly when the step registers it. */
  lemma StepWelcomes(cfg: Config, c: Core, s: Step, x: int)
    requires SafeToken(cfg.serverName) && Inv(c) && Sound(s) && x in c.clients && NotLeaving(s, x)
    ensures var e := Happens(cfg, c, s);
      && x in e.core.clients && (Registered(c, x) ==> Registered(e.core, x))
      && WelcomesTo(e.sends, x) == if Registered(e.core, x) && !Registered(c, x) then 1 else 0
  {
    match s {
      case Says(fd, m) => LineWelcomes(cfg, c, fd, m, x);
      case Arrives(fd, hostname) =>
      case Departs(fd, reason) =>
        DisconnectPlain(c, fd, reason);
        PlainWelcomesNobody(Disconnect(c, fd, reason).sends, x);
        if fd in c.clients { DisconnectedErases(c, fd); }
    }
  }

  /** How many 001 lines each step from `from` to `upto` offers to x. */
  ghost function WelcomeSeries(cfg: Config, states: seq<Core>, trace: seq<Step>, x: int, from: nat, upto: nat): seq<int>
    requires Runs(cfg, states, trace) && from <= upto <= |trace|
  {
    seq(upto - from, i requires 0 <= i < upto - from => WelcomesOf(cfg, states, trace, x, from + i))
  }

  ghost function WelcomesOf(cfg: Config, states: seq<Core>, trace: seq<Step>, x: int, i: nat): nat
    requires Runs(cfg, states, trace) && i < |trace|
  {
    RunStep(cfg, states, trace, i, i + 1);
    WelcomesTo(Happens(cfg, states[i], trace[i]).sends, x)
  }

  lemma WelcomeAt(cfg: Config, states: seq<Core>, trace: seq<Step>, x: int, i: nat, j: nat)
    requires SafeToken(cfg.serverName) && Runs(cfg, states, trace) && i < |trace| && j == i + 1
    requires x in states[i].clients && NotLeaving(trace[i], x)
    ensures x in states[j].clients && (Registered(states[i], x) ==> Registered(states[j], x))
    ensures WelcomesOf(cfg, states, trace, x, i)
         == if Registered(states[j], x) && !Registered(states[i], x) then 1 else 0
  {
    RunStep(cfg, states, trace, i, j);
    StepWelcomes(cfg, states[i], trace[i], x);
  }

  ghost predicate Stays(states: seq<Core>, x: int, from: nat, upto: nat)
    requires upto < |states|
  {
    forall i {:trigger states[i]} :: from <= i <= upto ==> x in states[i].clients
  }

  lemma {:induction false} StaysConnected(cfg: Config, states: seq<Core>, trace: seq<Step>, x: int,
                                          from: nat, upto: nat)
    requires SafeToken(cfg.serverName) && Runs(cfg, states, trace) && from <= upto <= |trace|
    requires x in states[from].clients && forall i :: from <= i < upto ==> NotLeaving(trace[i], x)
    ensures Stays(states, x, from, upto)
    decreases upto - from
  {
    if from < upto {
      StaysConnected(cfg, states, trace, x, from, upto - 1);
      assert x in states[upto - 1].clients;
      WelcomeAt(cfg, states, trace, x, upto - 1, upto);
    }
  }

  ghost function RegisteredSeries(states: seq<Core>, x: int, from: nat, upto: nat): seq<bool>
    requires from <= upto < |states|
  {
    seq(upto - from + 1, i requires 0 <= i <= upto - from => Registered(states[from + i], x))
  }

  lemma WelcomeRings(cfg: Config, states: seq<Core>, trace: seq<Step>, x: int, from: nat, upto: nat, i: nat, j: nat)
    requires SafeToken(cfg.serverName) && Runs(cfg, states, trace) && from <= upto <= |trace|
    requires Stays(states, x, from, upto) && i < upto - from && j == i + 1 && NotLeaving(trace[from + i], x)
    ensures var up := RegisteredSeries(states, x, from, upto);
      && (up[i] ==> up[j])
      && WelcomeSeries(cfg, states, trace, x, from, upto)[i] == if up[j] && !up[i] then 1 else 0
  {
    assert x in states[from + i].clients;
    WelcomeAt(cfg, states, trace, x, from + i, from + j);
  }

  /** A connection that lasts is welcomed exactly once if it became registered
      meanwhile, and never otherwise; registered it stays. */
  lemma WelcomedOnce(cfg: Config, states: seq<Core>, trace: seq<Step>, x: int, from: nat, upto: nat)
    requires SafeToken(cfg.serverName) && Runs(cfg, states, trace) && from <= upto <= |trace|
    requires x in states[from].clients && forall i :: from <= i < upto ==> NotLeaving(trace[i], x)
    ensures x in states[upto].clients && (Registered(states[from], x) ==> Registered(states[upto], x))
    ensures Sum(WelcomeSeries(cfg, states, trace, x, from, upto))
         == if Registered(states[upto], x) && !Registered(states[from], x) then 1 else 0
  {
    StaysConnected(cfg, states, trace, x, from, upto);
    assert x in states[upto].clients;
    var up := RegisteredSeries(states, x, from, upto);
    var bells := WelcomeSeries(cfg, states, trace, x, from, upto);
    forall i, j | 0 <= i < upto - from && j == i + 1
      ensures (up[i] ==> up[j]) && bells[i] == if up[j] && !up[i] then 1 else 0
    {
      WelcomeRings(cfg, states, trace, x, from, upto, i, j);
    }
    RingsOnce(up, bells);
  }
}
