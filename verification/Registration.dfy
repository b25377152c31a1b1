/** PASS, NICK and USER. Line by line: what each sets and answers, said without
    the handlers. Over whole runs: whoever is registered has, on the connection
    it has now, given the configured password, a nickname and a user name
    (services/irc/prd/handler/ServerAuthCommands.cpp). */
module Registration {
  import opened IrcUtil
  import opened Domain
  import opened Reply
  import opened Commands
  import opened Moves
  import opened CommandMoves
  import opened Traces
  import opened Series
  import opened Welcomes
  import opened Answers
  import opened ChannelAnswers
  import opened EventLoop
  import opened ServerRuns

  // ------------------------------------------------------------ line by line

  /** The five lines that welcome a client. */
  function Greeting(cfg: Config, me: Client): seq<Send> {
    [ Send({me.fd}, Numeric(cfg.serverName, me, 1, ":" + cfg.text(1) + ClientPrefix(me))),
      Bare(cfg, me, 2), Bare(cfg, me, 3),
      Send({me.fd}, Numeric(cfg.serverName, me, 4, cfg.serverName + cfg.text(4))),
      Bare(cfg, me, 422) ]
  }

  /** The client's record became `me`; having given everything, it is registered
      and welcomed. Nothing else changes but the nickname index. */
  predicate Enrols(cfg: Config, c: Core, me: Client, e: Effect) {
    var full := me.passwordAccepted && me.nickname != "" && me.userReceived;
    && e.core.clients == c.clients[me.fd := me.(registered := full)]
    && e.core.channels == c.channels
    && e.sends == if full then Greeting(cfg, me.(registered := true)) else []
  }

  /** PASS before registration: the configured password is accepted; any other
      is answered 464 and changes nothing. */
  lemma PassLine(cfg: Config, c: Core, fd: int, m: Message)
    requires Inv(c) && fd in c.clients && !c.clients[fd].registered && m.command == "PASS"
    ensures c.clients[fd].fd == fd
    ensures var e, me := Dispatch(cfg, c, fd, m), c.clients[fd];
      if |m.params| == 0 then Unchanged(e, c, Numbered(cfg, me, 461, "PASS"))
      else if m.params[0] != cfg.password then Unchanged(e, c, Bare(cfg, me, 464))
      else Enrols(cfg, c, me.(passwordAccepted := true), e) && e.core.nickToFd == c.nickToFd
  {
    assert ClientOk(c.clients[fd], fd);
  }

  /** USER before registration, once. */
  lemma UserLine(cfg: Config, c: Core, fd: int, m: Message)
    requires Inv(c) && fd in c.clients && !c.clients[fd].registered && m.command == "USER"
    ensures c.clients[fd].fd == fd
    ensures var e, me := Dispatch(cfg, c, fd, m), c.clients[fd];
      if me.userReceived then Unchanged(e, c, Bare(cfg, me, 462))
      else if |m.params| < 4 || !ValidUsername(m.params[0]) then Unchanged(e, c, Numbered(cfg, me, 461, "USER"))
      else
        && Enrols(cfg, c, me.(username := m.params[0], realname := m.params[3], userReceived := true), e)
        && e.core.nickToFd == c.nickToFd
  {
    assert ClientOk(c.clients[fd], fd);
  }

  /** Everybody else in some channel of the client. */
  ghost predicate SharesChannel(c: Core, fd: int, x: int) {
    x != fd && exists k :: In(c, fd, k) && In(c, x, k)
  }

  lemma NeighboursShare(c: Core, fd: int)
    requires Inv(c) && fd in c.clients
    ensures forall x :: x in Neighbours(c, fd) <==> SharesChannel(c, fd, x)
  {
    JoinedFolded(c, fd);
    forall x ensures x in Neighbours(c, fd) <==> SharesChannel(c, fd, x) {
      if x in Neighbours(c, fd) {
        var k :| k in c.clients[fd].joined && Fold(k) in c.channels && x in c.channels[Fold(k)].members;
        InChannel(c, x, k);
        InChannel(c, fd, k);
        assert In(c, fd, k) && In(c, x, k);
      }
      if SharesChannel(c, fd, x) {
        var k :| In(c, fd, k) && In(c, x, k);
        InChannel(c, x, k);
        assert k in c.clients[fd].joined;
      }
    }
  }

  /** NICK: a valid nickname nobody else holds becomes the client's. One that is
      registered is heard of under its old name by everybody who shares a channel
      with it, once each, and by itself. */
  lemma NickLine(cfg: Config, c: Core, fd: int, m: Message)
    requires Inv(c) && fd in c.clients && m.command == "NICK"
    ensures c.clients[fd].fd == fd
    ensures var e, me := Dispatch(cfg, c, fd, m), c.clients[fd];
      if |m.params| == 0 then Unchanged(e, c, Bare(cfg, me, 431))
      else
        var nick := m.params[0];
        if !ValidNickname(nick) then Unchanged(e, c, Numbered(cfg, me, 432, nick))
        else if exists x :: x != fd && Named(c, Fold(nick), x) then Unchanged(e, c, Numbered(cfg, me, 433, nick))
        else if !me.registered then Enrols(cfg, c, me.(nickname := nick), e)
        else
          && e.core.clients == c.clients[fd := me.(nickname := nick)] && e.core.channels == c.channels
          && var notice := LineFrom(me, "NICK", ":" + nick);
          && |e.sends| == 2 && e.sends[0] == Send({fd}, notice) && e.sends[1].text == notice
          && forall x :: x in e.sends[1].to <==> SharesChannel(c, fd, x)
    ensures Inv(Dispatch(cfg, c, fd, m).core)
  {
    assert ClientOk(c.clients[fd], fd);
    DispatchKeeps(cfg, c, fd, m);
    NeighboursShare(c, fd);
    if |m.params| > 0 { Available(c, m.params[0], fd); }
  }

  lemma Available(c: Core, nick: string, fd: int)
    requires Inv(c)
    ensures NickAvailable(c, nick, fd) <==> !exists x :: x != fd && Named(c, Fold(nick), x)
  {
    forall x ensures Indexed(c, Fold(nick), x) <==> Named(c, Fold(nick), x) { }
    if Fold(nick) in c.nickToFd { assert Indexed(c, Fold(nick), c.nickToFd[Fold(nick)]); }
  }

  // -------------------------------------------------------------- other lines

  /** Client records change in their joined sets only. */
  ghost predicate SameButJoined(c: Core, d: Core) {
    && d.clients.Keys == c.clients.Keys
    && forall x :: x in c.clients ==> d.clients[x] == c.clients[x].(joined := d.clients[x].joined)
  }

  lemma {:induction false} ChainSameButJoined(cs: seq<Core>, n: nat)
    requires n < |cs|
    requires forall i, j {:trigger cs[i], cs[j]} :: 0 <= i && j == i + 1 < |cs| ==> SameButJoined(cs[i], cs[j])
    ensures SameButJoined(cs[0], cs[n])
    decreases n
  {
    if n > 0 { ChainSameButJoined(cs, n - 1); }
  }

  lemma PartChainSame(cfg: Config, fd: int, names: seq<string>, reason: string, cs: seq<Core>, groups: seq<seq<Send>>)
    requires PartChain(cfg, fd, names, reason, cs, groups)
    ensures SameButJoined(cs[0], cs[|names|])
  {
    forall i, j | 0 <= i && j == i + 1 < |cs| ensures SameButJoined(cs[i], cs[j]) {
      assert Parts(cfg, cs[i], fd, names[i], reason, cs[j], groups[i]);
    }
    ChainSameButJoined(cs, |names|);
  }

  lemma JoinChainSame(cfg: Config, fd: int, names: seq<string>, keys: seq<string>, cs: seq<Core>,
                      groups: seq<seq<Send>>)
    requires JoinChain(cfg, fd, names, keys, cs, groups)
    ensures SameButJoined(cs[0], cs[|names|])
  {
    forall i, j | 0 <= i && j == i + 1 < |cs| ensures SameButJoined(cs[i], cs[j]) {
      assert Joins(cfg, cs[i], fd, names[i], KeyAt(keys, i), cs[j], groups[i]);
    }
    ChainSameButJoined(cs, |names|);
  }

  lemma ChannelLinesSame(cfg: Config, c: Core, fd: int, m: Message)
    requires Inv(c) && Enrolled(c, fd) && (m.command == "JOIN" || m.command == "PART")
    ensures c.clients[fd].fd == fd && SameButJoined(c, Dispatch(cfg, c, fd, m).core)
  {
    if m.command == "JOIN" {
      var names, cs, groups := JoinLine(cfg, c, fd, m);
      if |m.params| == 0 {
      } else if m.params[0] == "0" {
        PartChainSame(cfg, fd, names, c.clients[fd].nickname, cs, groups);
      } else {
        JoinChainSame(cfg, fd, names, if |m.params| >= 2 then SplitComma(m.params[1]) else [], cs, groups);
      }
    } else {
      var cs, groups := PartLine(cfg, c, fd, m);
      if |m.params| > 0 {
        PartChainSame(cfg, fd, SplitComma(m.params[0]),
                      if |m.params| >= 2 then m.params[1] else c.clients[fd].nickname, cs, groups);
      }
    }
  }

  lemma KickSame(cfg: Config, c: Core, fd: int, m: Message)
    requires fd in c.clients
    ensures SameButJoined(c, Kick(cfg, c, fd, m).core)
  {
  }

  lemma HandledSame(cfg: Config, c: Core, fd: int, m: Message)
    requires fd in c.clients && c.clients[fd].fd == fd
    requires m.command !in ["PASS", "NICK", "USER", "JOIN", "PART", "KICK", "PRIVMSG"]
    ensures Handle(cfg, c, fd, m).core.clients == c.clients
  {
  }

  /** No line but PASS, NICK and USER touches what a client has given. */
  lemma OtherLinesSame(cfg: Config, c: Core, fd: int, m: Message)
    requires Inv(c) && m.command !in ["PASS", "NICK", "USER"]
    ensures fd in c.clients ==> c.clients[fd].fd == fd
    ensures SameButJoined(c, Dispatch(cfg, c, fd, m).core)
  {
    assert fd in c.clients ==> ClientOk(c.clients[fd], fd);
    if fd !in c.clients {
    } else if !c.clients[fd].registered && NeedsRegistration(m.command) {
    } else if m.command == "JOIN" || m.command == "PART" {
      ChannelLinesSame(cfg, c, fd, m);
    } else if m.command == "PRIVMSG" {
      PrivmsgReaches(cfg, c, fd, m);
    } else if m.command == "KICK" {
      KickSame(cfg, c, fd, m);
    } else {
      HandledSame(cfg, c, fd, m);
    }
  }

  // -------------------------------------------------------------- whole runs

  /** What registration takes. */
  datatype Item = Password | Nickname | UserName

  predicate Has(c: Core, x: int, item: Item) {
    x in c.clients &&
    match item
    case Password => c.clients[x].passwordAccepted
    case Nickname => c.clients[x].nickname != ""
    case UserName => c.clients[x].userReceived
  }

  /** The line that gives it. */
  predicate Gives(cfg: Config, s: Step, x: int, item: Item) {
    s.Says? && s.fd == x && |s.m.params| >= 1 &&
    match item
    case Password => s.m.command == "PASS" && s.m.params[0] == cfg.password
    case Nickname => s.m.command == "NICK" && ValidNickname(s.m.params[0])
    case UserName => s.m.command == "USER" && |s.m.params| >= 4 && ValidUsername(s.m.params[0])
  }

  lemma OwnLineGives(cfg: Config, c: Core, x: int, m: Message, item: Item)
    requires Inv(c) && x in c.clients && m.command in ["PASS", "NICK", "USER"] && !Has(c, x, item)
    ensures c.clients[x].fd == x
    ensures Has(Dispatch(cfg, c, x, m).core, x, item) ==> Gives(cfg, Says(x, m), x, item)
  {
    assert ClientOk(c.clients[x], x);
    if m.command == "NICK" { NickLine(cfg, c, x, m); }
    else if c.clients[x].registered { Gates(cfg, c, x, m); }
    else if m.command == "PASS" { PassLine(cfg, c, x, m); }
    else { UserLine(cfg, c, x, m); }
  }

  lemma OthersLineKeeps(cfg: Config, c: Core, fd: int, m: Message, x: int)
    requires Inv(c) && fd in c.clients && m.command in ["PASS", "NICK", "USER"] && x != fd
    ensures c.clients[fd].fd == fd
    ensures var d := Dispatch(cfg, c, fd, m).core;
      (x in d.clients <==> x in c.clients) && (x in c.clients ==> d.clients[x] == c.clients[x])
  {
    assert ClientOk(c.clients[fd], fd);
    if m.command == "NICK" { NickLine(cfg, c, fd, m); }
    else if c.clients[fd].registered { Gates(cfg, c, fd, m); }
    else if m.command == "PASS" { PassLine(cfg, c, fd, m); }
    else { UserLine(cfg, c, fd, m); }
  }

  lemma LineGives(cfg: Config, c: Core, fd: int, m: Message, x: int, item: Item)
    requires Inv(c) && !Has(c, x, item)
    ensures fd in c.clients ==> c.clients[fd].fd == fd
    ensures Has(Dispatch(cfg, c, fd, m).core, x, item) ==> x in c.clients && Gives(cfg, Says(fd, m), x, item)
  {
    if m.command !in ["PASS", "NICK", "USER"] || fd !in c.clients {
      if fd in c.clients { OtherLinesSame(cfg, c, fd, m); }
    } else if x == fd {
      OwnLineGives(cfg, c, x, m, item);
    } else {
      OthersLineKeeps(cfg, c, fd, m, x);
    }
  }

  lemma StepGives(cfg: Config, c: Core, s: Step, x: int, item: Item)
    requires Inv(c) && Sound(s) && !Has(c, x, item) && Has(Happens(cfg, c, s).core, x, item)
    ensures x in c.clients && Gives(cfg, s, x, item)
  {
    match s {
      case Says(fd, m) => LineGives(cfg, c, fd, m, x, item);
      case Arrives(fd, hostname) =>
      case Departs(fd, reason) => if fd in c.clients { DisconnectedErases(c, fd); }
    }
  }

  /** Whoever has given a thing, on a connection made during the run, gave it by
      its own line, and has been connected without a break since. */
  lemma GivenBy(cfg: Config, states: seq<Core>, trace: seq<Step>, n: nat, x: int, item: Item) returns (i: nat)
    requires Runs(cfg, states, trace) && n <= |trace| && Has(states[n], x, item) && !Has(states[0], x, item)
    ensures i < n && Gives(cfg, trace[i], x, item) && Stays(states, x, i, n)
  {
    var up := seq(n + 1, j requires 0 <= j <= n => Has(states[j], x, item));
    i := LastRise(up, n);
    assert up[i + 1] && !up[i];
    RunStep(cfg, states, trace, i, i + 1);
    StepGives(cfg, states[i], trace[i], x, item);
    forall j | i <= j <= n ensures x in states[j].clients { if j > i { assert up[j]; } }
  }

  /** Registration provenance: whoever is registered, and was not connected when
      the run began, has on the connection it has now given the configured
      password, a valid nickname and a user name, each by a line of its own. */
  lemma RegistrationProvenance(cfg: Config, states: seq<Core>, trace: seq<Step>, n: nat, x: int)
    returns (pass: nat, nick: nat, user: nat)
    requires Runs(cfg, states, trace) && n <= |trace|
    requires Registered(states[n], x) && x !in states[0].clients
    ensures pass < n && Gives(cfg, trace[pass], x, Password) && Stays(states, x, pass, n)
    ensures nick < n && Gives(cfg, trace[nick], x, Nickname) && Stays(states, x, nick, n)
    ensures user < n && Gives(cfg, trace[user], x, UserName) && Stays(states, x, user, n)
  {
    assert Inv(states[n]);
    assert ClientOk(states[n].clients[x], x);
    pass := GivenBy(cfg, states, trace, n, x, Password);
    nick := GivenBy(cfg, states, trace, n, x, Nickname);
    user := GivenBy(cfg, states, trace, n, x, UserName);
  }

  /** Hence in the running server: whoever is registered has said the configured
      password on the connection it has now. */
  lemma ServerRegistration(cfg: Config, batches: seq<seq<Event>>, x: int) returns (pass: nat, nick: nat, user: nat)
    requires SafeToken(cfg.serverName) && LegalServerRun(cfg, batches)
    requires Registered(ServerState(cfg, batches).core, x)
    ensures var states, trace := ServerStates(cfg, batches), ServerTrace(cfg, batches);
      && |states| == |trace| + 1
      && pass < |trace| && Gives(cfg, trace[pass], x, Password) && Stays(states, x, pass, |trace|)
      && nick < |trace| && Gives(cfg, trace[nick], x, Nickname) && Stays(states, x, nick, |trace|)
      && user < |trace| && Gives(cfg, trace[user], x, UserName) && Stays(states, x, user, |trace|)
  {
    ServerInvariant(cfg, batches);
    var states, trace := ServerStates(cfg, batches), ServerTrace(cfg, batches);
    pass, nick, user := RegistrationProvenance(cfg, states, trace, |trace|, x);
  }
}
