/** Every command is a sequence of allowed moves made by its sender, so what
    allowed moves keep, commands keep. */
module CommandMoves {
  import opened IrcUtil
  import opened Domain
  import opened Ordered
  import opened Commands
  import opened Moves

  datatype Deed = Deed(who: int, move: Move)

  /** A sequence of deeds, each allowed in the state it meets. */
  ghost predicate Legal(c: Core, deeds: seq<Deed>)
    decreases |deeds|
  {
    deeds == [] ||
    (Allowed(c, deeds[0].who, deeds[0].move)
     && Legal(Apply(c, deeds[0].who, deeds[0].move), deeds[1..]))
  }

  ghost function Run(c: Core, deeds: seq<Deed>): Core
    requires Legal(c, deeds)
    decreases |deeds|
  {
    if deeds == [] then c else Run(Apply(c, deeds[0].who, deeds[0].move), deeds[1..])
  }

  /** A client's own doing; connecting and dropping are the server's. */
  predicate OwnMove(deed: Deed, who: int) {
    deed.who == who && !deed.move.Connect? && !deed.move.Drop?
  }

  predicate AllBy(deeds: seq<Deed>, who: int) {
    forall i {:trigger deeds[i]} :: 0 <= i < |deeds| ==> OwnMove(deeds[i], who)
  }

  lemma {:induction false} RunAppend(c: Core, a: seq<Deed>, b: seq<Deed>)
    requires Legal(c, a) && Legal(Run(c, a), b)
    ensures Legal(c, a + b) && Run(c, a + b) == Run(Run(c, a), b)
    decreases |a|
  {
    if a == [] {
      assert a + b == b;
    } else {
      assert (a + b)[0] == a[0] && (a + b)[1..] == a[1..] + b;
      RunAppend(Apply(c, a[0].who, a[0].move), a[1..], b);
    }
  }

  /** The invariant holds after every run from a state where it holds. */
  lemma {:induction false} RunKeeps(c: Core, deeds: seq<Deed>)
    requires Inv(c) && Legal(c, deeds)
    ensures Inv(Run(c, deeds))
    decreases |deeds|
  {
    if deeds != [] {
      MoveKeeps(c, deeds[0].who, deeds[0].move);
      RunKeeps(Apply(c, deeds[0].who, deeds[0].move), deeds[1..]);
    }
  }

  lemma One(c: Core, who: int, move: Move) returns (deeds: seq<Deed>)
    requires Inv(c) && Allowed(c, who, move) && OwnMove(Deed(who, move), who)
    ensures deeds == [Deed(who, move)]
    ensures Legal(c, deeds) && Run(c, deeds) == Apply(c, who, move) && AllBy(deeds, who)
  {
    deeds := [Deed(who, move)];
    assert deeds[1..] == [];
  }

  lemma Extend(c: Core, deeds: seq<Deed>, who: int, move: Move) returns (more: seq<Deed>)
    requires Inv(c) && Legal(c, deeds) && AllBy(deeds, who)
    requires Allowed(Run(c, deeds), who, move) && OwnMove(Deed(who, move), who)
    ensures Legal(c, more) && Run(c, more) == Apply(Run(c, deeds), who, move)
    ensures AllBy(more, who)
  {
    RunKeeps(c, deeds);
    var last := One(Run(c, deeds), who, move);
    RunAppend(c, deeds, last);
    more := deeds + last;
  }

  /** `deeds` take c to d, all done by `who`. */
  ghost predicate Does(c: Core, who: int, deeds: seq<Deed>, d: Core) {
    Legal(c, deeds) && AllBy(deeds, who) && Run(c, deeds) == d
  }

  /** A client's own moves leave the set of connections as it is. */
  lemma {:induction false} SameConnections(c: Core, deeds: seq<Deed>, who: int)
    requires Inv(c) && Legal(c, deeds) && AllBy(deeds, who)
    ensures Run(c, deeds).clients.Keys == c.clients.Keys
    decreases |deeds|
  {
    if deeds != [] {
      MoveKeeps(c, deeds[0].who, deeds[0].move);
      MoveSameConnections(c, deeds[0].who, deeds[0].move);
      SameConnections(Apply(c, deeds[0].who, deeds[0].move), deeds[1..], who);
    }
  }

  /** A client's own moves never unregister it and leave the others' flag alone. */
  lemma {:induction false} OwnRunRegistered(c: Core, deeds: seq<Deed>, who: int, x: int)
    requires Inv(c) && Legal(c, deeds) && AllBy(deeds, who) && x in c.clients
    ensures x in Run(c, deeds).clients
    ensures c.clients[x].registered ==> Run(c, deeds).clients[x].registered
    ensures x != who ==> Run(c, deeds).clients[x].registered == c.clients[x].registered
    decreases |deeds|
  {
    if deeds != [] {
      assert OwnMove(deeds[0], who);
      var d := Apply(c, who, deeds[0].move);
      MoveKeeps(c, who, deeds[0].move);
      MoveRegistered(c, who, deeds[0].move, x);
      forall i | 0 <= i < |deeds[1..]| ensures OwnMove(deeds[1..][i], who) { assert OwnMove(deeds[i + 1], who); }
      OwnRunRegistered(d, deeds[1..], who, x);
    }
  }

  lemma MoveRegistered(c: Core, who: int, move: Move, x: int)
    requires Inv(c) && Allowed(c, who, move) && !move.Connect? && !move.Drop? && x in c.clients
    ensures x in Apply(c, who, move).clients
    ensures c.clients[x].registered ==> Apply(c, who, move).clients[x].registered
    ensures x != who ==> Apply(c, who, move).clients[x].registered == c.clients[x].registered
  {
    if move.Exit? { assert HasJoined(c, move.fd, move.key); }
  }

  lemma MoveSameConnections(c: Core, who: int, move: Move)
    requires Inv(c) && Allowed(c, who, move) && !move.Connect? && !move.Drop?
    ensures Apply(c, who, move).clients.Keys == c.clients.Keys
  {
    if move.Exit? { assert HasJoined(c, move.fd, move.key); }
  }

  // ----------------------------------------------------------- registration

  lemma RegisterDeeds(cfg: Config, c: Core, me: Client) returns (deeds: seq<Deed>)
    requires Inv(c) && me.fd in c.clients
    requires var was := c.clients[me.fd];
      && me == was.(passwordAccepted := me.passwordAccepted, username := me.username,
                    realname := me.realname, userReceived := me.userReceived)
      && (was.passwordAccepted ==> me.passwordAccepted) && (was.userReceived ==> me.userReceived)
      && (me.username != "" ==> ValidUsername(me.username))
    ensures Does(c, me.fd, deeds, Register(cfg, c, me).core)
  {
    var done := me.(registered := me.registered || me.Complete());
    assert ClientOk(c.clients[me.fd], me.fd);
    assert ClientOk(done, me.fd);
    deeds := One(c, me.fd, Update(done));
  }

  lemma PassDeeds(cfg: Config, c: Core, fd: int, m: Message) returns (deeds: seq<Deed>)
    requires Inv(c) && fd in c.clients
    ensures Does(c, fd, deeds, Pass(cfg, c, fd, m).core)
  {
    deeds := [];
    assert ClientOk(c.clients[fd], fd);
    if |m.params| >= 1 && m.params[0] == cfg.password {
      deeds := RegisterDeeds(cfg, c, c.clients[fd].(passwordAccepted := true));
    }
  }

  lemma UserDeeds(cfg: Config, c: Core, fd: int, m: Message) returns (deeds: seq<Deed>)
    requires Inv(c) && fd in c.clients
    ensures Does(c, fd, deeds, User(cfg, c, fd, m).core)
  {
    deeds := [];
    assert ClientOk(c.clients[fd], fd);
    if !c.clients[fd].userReceived && |m.params| >= 4 && ValidUsername(m.params[0]) {
      deeds := RegisterDeeds(cfg, c,
        c.clients[fd].(username := m.params[0], realname := m.params[3], userReceived := true));
    }
  }

  lemma NickDeeds(cfg: Config, c: Core, fd: int, m: Message) returns (deeds: seq<Deed>)
    requires Inv(c) && fd in c.clients
    ensures Does(c, fd, deeds, Nick(cfg, c, fd, m).core)
  {
    deeds := [];
    var was := c.clients[fd];
    assert ClientOk(was, fd);
    if |m.params| > 0 && ValidNickname(m.params[0]) && NickAvailable(c, m.params[0], fd) {
      var me := was.(nickname := m.params[0]);
      var done := me.(registered := me.registered || me.Complete());
      assert ClientOk(done, fd);
      deeds := One(c, fd, Rename(done));
    }
  }

  // ------------------------------------------------------------- membership

  lemma JoinOneDeeds(cfg: Config, c: Core, fd: int, name: string, key: string) returns (deeds: seq<Deed>)
    requires Inv(c) && fd in c.clients && c.clients[fd].registered
    ensures c.clients[fd].fd == fd
    ensures Does(c, fd, deeds, JoinOne(cfg, c, fd, name, key).core)
  {
    assert ClientOk(c.clients[fd], fd);
    deeds := [];
    var k := Fold(name);
    if ValidChannelName(name) && k !in c.clients[fd].joined {
      assert !HasJoined(c, fd, k);
      if k !in c.channels {
        deeds := One(c, fd, Enter(fd, NewChannel(name, k), true));
      } else {
        var channel := c.channels[k];
        assert ChannelOk(channel, k) && !HasMember(c, fd, k);
        if (channel.inviteOnly ==> fd in channel.invited) && channel.MatchesKey(key) && !channel.IsFull() {
          deeds := One(c, fd, Enter(fd, channel, false));
        }
      }
    }
  }

  lemma DoesThen(c: Core, who: int, a: seq<Deed>, d: Core, b: seq<Deed>, e: Core)
    requires Does(c, who, a, d) && Does(d, who, b, e)
    ensures Does(c, who, a + b, e)
  {
    RunAppend(c, a, b);
  }

  /** Moves of one client do not unregister it. */
  lemma JoinOneKeepsRegistered(cfg: Config, c: Core, fd: int, name: string, key: string)
    requires fd in c.clients && c.clients[fd].fd == fd && c.clients[fd].registered
    ensures fd in JoinOne(cfg, c, fd, name, key).core.clients
    ensures JoinOne(cfg, c, fd, name, key).core.clients[fd].registered
  {
  }

  lemma {:induction false} JoinUpToDeeds(cfg: Config, c: Core, fd: int, names: seq<string>,
                                         keys: seq<string>, n: nat) returns (deeds: seq<Deed>)
    requires n <= |names| && Inv(c) && fd in c.clients && c.clients[fd].registered
    ensures c.clients[fd].fd == fd
    ensures Does(c, fd, deeds, JoinUpTo(cfg, c, fd, names, keys, n).core)
    ensures JoinUpTo(cfg, c, fd, names, keys, n).core.clients[fd].registered
  {
    assert ClientOk(c.clients[fd], fd);
    deeds := [];
    if n > 0 {
      var first := JoinUpToDeeds(cfg, c, fd, names, keys, n - 1);
      RunKeeps(c, first);
      var d := JoinUpTo(cfg, c, fd, names, keys, n - 1).core;
      var key := if n - 1 < |keys| then keys[n - 1] else "";
      var last := JoinOneDeeds(cfg, d, fd, names[n - 1], key);
      JoinOneKeepsRegistered(cfg, d, fd, names[n - 1], key);
      DoesThen(c, fd, first, d, last, JoinOne(cfg, d, fd, names[n - 1], key).core);
      deeds := first + last;
    }
  }

  lemma {:induction false} LeaveUpToDeeds(c: Core, fd: int, keys: seq<string>, reason: string, n: nat)
    returns (deeds: seq<Deed>)
    requires n <= |keys| && Inv(c) && fd in c.clients
    ensures Does(c, fd, deeds, LeaveUpTo(c, fd, keys, reason, n).core)
  {
    deeds := [];
    if n > 0 {
      deeds := LeaveUpToDeeds(c, fd, keys, reason, n - 1);
      var d := LeaveUpTo(c, fd, keys, reason, n - 1).core;
      if HasMember(d, fd, Fold(keys[n - 1])) {
        deeds := Extend(c, deeds, fd, Exit(fd, Fold(keys[n - 1])));
      }
    }
  }

  lemma {:induction false} PartUpToDeeds(cfg: Config, c: Core, fd: int, names: seq<string>,
                                         reason: string, n: nat) returns (deeds: seq<Deed>)
    requires n <= |names| && Inv(c) && fd in c.clients
    ensures Does(c, fd, deeds, PartUpTo(cfg, c, fd, names, reason, n).core)
  {
    deeds := [];
    if n > 0 {
      deeds := PartUpToDeeds(cfg, c, fd, names, reason, n - 1);
      var d := PartUpTo(cfg, c, fd, names, reason, n - 1).core;
      if HasMember(d, fd, Fold(names[n - 1])) {
        deeds := Extend(c, deeds, fd, Exit(fd, Fold(names[n - 1])));
      }
    }
  }

  lemma JoinUpToRegistered(cfg: Config, c: Core, fd: int, names: seq<string>, keys: seq<string>, n: nat)
    requires Inv(c) && fd in c.clients && c.clients[fd].registered && n <= |names|
    ensures c.clients[fd].fd == fd && Inv(JoinUpTo(cfg, c, fd, names, keys, n).core)
    ensures JoinUpTo(cfg, c, fd, names, keys, n).core.clients[fd].registered
  {
    var deeds := JoinUpToDeeds(cfg, c, fd, names, keys, n);
    RunKeeps(c, deeds);
  }

  lemma PartUpToInv(cfg: Config, c: Core, fd: int, names: seq<string>, reason: string, n: nat)
    requires Inv(c) && fd in c.clients && n <= |names|
    ensures Inv(PartUpTo(cfg, c, fd, names, reason, n).core)
  {
    var deeds := PartUpToDeeds(cfg, c, fd, names, reason, n);
    RunKeeps(c, deeds);
  }

  lemma JoinDeeds(cfg: Config, c: Core, fd: int, m: Message) returns (deeds: seq<Deed>)
    requires Inv(c) && fd in c.clients && c.clients[fd].registered
    ensures c.clients[fd].fd == fd
    ensures Does(c, fd, deeds, Join(cfg, c, fd, m).core)
  {
    assert ClientOk(c.clients[fd], fd);
    deeds := [];
    if |m.params| >= 1 {
      if m.params[0] == "0" {
        var keys := AscendingNames(c.clients[fd].joined);
        deeds := LeaveUpToDeeds(c, fd, keys, c.clients[fd].nickname, |keys|);
      } else {
        var names := SplitComma(m.params[0]);
        var keys := if |m.params| >= 2 then SplitComma(m.params[1]) else [];
        deeds := JoinUpToDeeds(cfg, c, fd, names, keys, |names|);
      }
    }
  }

  lemma PartDeeds(cfg: Config, c: Core, fd: int, m: Message) returns (deeds: seq<Deed>)
    requires Inv(c) && fd in c.clients
    ensures Does(c, fd, deeds, Part(cfg, c, fd, m).core)
  {
    deeds := [];
    if |m.params| >= 1 {
      var names := SplitComma(m.params[0]);
      var reason := if |m.params| >= 2 then m.params[1] else c.clients[fd].nickname;
      deeds := PartUpToDeeds(cfg, c, fd, names, reason, |names|);
    }
  }

  lemma KickDeeds(cfg: Config, c: Core, fd: int, m: Message) returns (deeds: seq<Deed>)
    requires Inv(c) && fd in c.clients
    ensures Does(c, fd, deeds, Kick(cfg, c, fd, m).core)
  {
    deeds := [];
    if |m.params| >= 2 {
      var k := Fold(m.params[0]);
      var target := FindNick(c, m.params[1]);
      if HasMember(c, fd, k) && IsOperator(c, fd, k) && target.Some? && HasMember(c, target.value, k) {
        deeds := One(c, fd, Exit(target.value, k));
      }
    }
  }

  lemma InviteDeeds(cfg: Config, c: Core, fd: int, m: Message) returns (deeds: seq<Deed>)
    requires Inv(c) && fd in c.clients
    ensures Does(c, fd, deeds, Invite(cfg, c, fd, m).core)
  {
    deeds := [];
    if |m.params| >= 2 {
      var target := FindNick(c, m.params[0]);
      var k := Fold(m.params[1]);
      if target.Some? && HasMember(c, fd, k) && IsOperator(c, fd, k) && !HasMember(c, target.value, k) {
        assert ChannelOk(c.channels[k], k);
        deeds := One(c, fd, Ask(target.value, k));
      }
    }
  }

  lemma TopicDeeds(cfg: Config, c: Core, fd: int, m: Message) returns (deeds: seq<Deed>)
    requires Inv(c) && fd in c.clients
    ensures Does(c, fd, deeds, Topic(cfg, c, fd, m).core)
  {
    deeds := [];
    if |m.params| >= 2 {
      var k := Fold(m.params[0]);
      if HasMember(c, fd, k) && (c.channels[k].topicRestricted ==> IsOperator(c, fd, k)) {
        assert ChannelOk(c.channels[k], k);
        deeds := One(c, fd, Retitle(k, m.params[1]));
      }
    }
  }

  // ------------------------------------------------------------------- MODE

  /** What the mode loop never touches, and what it keeps well formed. */
  predicate ModeFrame(channel: Channel, edited: Channel) {
    && edited.keyName == channel.keyName && edited.name == channel.name
    && edited.topic == channel.topic
    && edited.members == channel.members && edited.invited == channel.invited
    && (channel.operators <= channel.members ==> edited.operators <= edited.members)
    && (ModesOk(channel) ==> ModesOk(edited))
  }

  lemma ModeFlagFrame(r: ModeRun, letter: char)
    ensures ModeFrame(r.channel, ModeFlag(r, letter).channel)
  {
  }

  lemma ModeKeyFrame(cfg: Config, c: Core, fd: int, m: Message, r: ModeRun)
    requires fd in c.clients
    ensures ModeFrame(r.channel, ModeKey(cfg, c, fd, m, r).channel)
  {
  }

  lemma ModeOperatorFrame(cfg: Config, c: Core, fd: int, m: Message, r: ModeRun)
    requires fd in c.clients
    ensures ModeFrame(r.channel, ModeOperator(cfg, c, fd, m, r).channel)
  {
  }

  lemma ModeLimitFrame(cfg: Config, c: Core, fd: int, m: Message, r: ModeRun)
    requires fd in c.clients
    ensures ModeFrame(r.channel, ModeLimit(cfg, c, fd, m, r).channel)
  {
  }

  lemma ModeCharFrame(cfg: Config, c: Core, fd: int, m: Message, r: ModeRun, letter: char)
    requires fd in c.clients
    ensures ModeFrame(r.channel, ModeChar(cfg, c, fd, m, r, letter).channel)
  {
    if letter == 'k' { ModeKeyFrame(cfg, c, fd, m, r); }
    else if letter == 'o' { ModeOperatorFrame(cfg, c, fd, m, r); }
    else if letter == 'l' { ModeLimitFrame(cfg, c, fd, m, r); }
    else { ModeFlagFrame(r, letter); }
  }

  lemma {:induction false} ModeUpToFrame(cfg: Config, c: Core, fd: int, m: Message, channel: Channel,
                                         modes: string, n: nat)
    requires fd in c.clients && n <= |modes|
    ensures ModeFrame(channel, ModeUpTo(cfg, c, fd, m, channel, modes, n).channel)
  {
    if n > 0 {
      ModeUpToFrame(cfg, c, fd, m, channel, modes, n - 1);
      ModeCharFrame(cfg, c, fd, m, ModeUpTo(cfg, c, fd, m, channel, modes, n - 1), modes[n - 1]);
    }
  }

  lemma ModeDeeds(cfg: Config, c: Core, fd: int, m: Message) returns (deeds: seq<Deed>)
    requires Inv(c) && fd in c.clients
    ensures Does(c, fd, deeds, Mode(cfg, c, fd, m).core)
  {
    deeds := [];
    if |m.params| >= 2 && m.params[0] != "" && m.params[0][0] == '#' {
      var k := Fold(m.params[0]);
      if HasMember(c, fd, k) && IsOperator(c, fd, k) {
        var channel := c.channels[k];
        assert ChannelOk(channel, k);
        var modes := m.params[1];
        ModeUpToFrame(cfg, c, fd, m, channel, modes, |modes|);
        deeds := One(c, fd, Configure(ModeUpTo(cfg, c, fd, m, channel, modes, |modes|).channel));
      }
    }
  }

  // --------------------------------------------------------------- dispatch

  lemma HandleDeeds(cfg: Config, c: Core, fd: int, m: Message) returns (deeds: seq<Deed>)
    requires Inv(c) && fd in c.clients && (NeedsRegistration(m.command) ==> c.clients[fd].registered)
    ensures c.clients[fd].fd == fd
    ensures Does(c, fd, deeds, Handle(cfg, c, fd, m).core)
  {
    assert ClientOk(c.clients[fd], fd);
    deeds := [];
    if m.command == "PASS" { deeds := PassDeeds(cfg, c, fd, m); }
    else if m.command == "NICK" { deeds := NickDeeds(cfg, c, fd, m); }
    else if m.command == "USER" { deeds := UserDeeds(cfg, c, fd, m); }
    else if m.command == "CAP" { }
    else if m.command == "PING" { }
    else if m.command == "JOIN" { deeds := JoinDeeds(cfg, c, fd, m); }
    else if m.command == "PRIVMSG" { }
    else if m.command == "KICK" { deeds := KickDeeds(cfg, c, fd, m); }
    else if m.command == "INVITE" { deeds := InviteDeeds(cfg, c, fd, m); }
    else if m.command == "TOPIC" { deeds := TopicDeeds(cfg, c, fd, m); }
    else if m.command == "MODE" { deeds := ModeDeeds(cfg, c, fd, m); }
    else if m.command == "PART" { deeds := PartDeeds(cfg, c, fd, m); }
  }

  /** One command, whatever its text, is a sequence of moves each allowed to
      its sender. */
  lemma DispatchDeeds(cfg: Config, c: Core, fd: int, m: Message) returns (deeds: seq<Deed>)
    requires Inv(c)
    ensures fd in c.clients ==> c.clients[fd].fd == fd
    ensures Does(c, fd, deeds, Dispatch(cfg, c, fd, m).core)
  {
    deeds := [];
    if fd in c.clients {
      assert ClientOk(c.clients[fd], fd);
      var registered := c.clients[fd].registered;
      if KnownCommand(m.command) && (registered || !NeedsRegistration(m.command))
         && !(registered && RejectedOnceRegistered(m.command)) {
        deeds := HandleDeeds(cfg, c, fd, m);
      }
    }
  }

  /** Hence every command, from every sender, keeps the invariant. */
  lemma DispatchKeeps(cfg: Config, c: Core, fd: int, m: Message)
    requires Inv(c)
    ensures fd in c.clients ==> c.clients[fd].fd == fd
    ensures Inv(Dispatch(cfg, c, fd, m).core)
  {
    var deeds := DispatchDeeds(cfg, c, fd, m);
    RunKeeps(c, deeds);
  }
}
