/** What one step of a run may do to one channel: nothing, a departure, an entry
    through the doors of JOIN, one INVITE, a topic, or a MODE by an operator
    (services/irc/prd/handler). */
module ChannelChanges {
  import opened IrcUtil
  import opened Strings
  import opened Domain
  import opened Ordered
  import opened Commands
  import opened Moves
  import opened CommandMoves

  // -------------------------------------------------- changes of one channel

  predicate SameModes(was: Channel, now: Channel) {
    && now.inviteOnly == was.inviteOnly && now.topicRestricted == was.topicRestricted
    && now.keyEnabled == was.keyEnabled && now.channelKey == was.channelKey
    && now.limitEnabled == was.limitEnabled && now.userLimit == was.userLimit
  }

  /** Members, operators and invites may only go. */
  predicate Shrunk(was: Channel, now: Channel) {
    && now.members <= was.members && now.operators <= was.operators && now.invited <= was.invited
    && SameModes(was, now)
  }

  /** One client more, through the doors +i and +l, its invite used up. */
  predicate Entered(was: Channel, now: Channel, fd: int) {
    && fd !in was.members && (was.inviteOnly ==> fd in was.invited) && !was.IsFull()
    && now == was.(members := was.members + {fd}, invited := was.invited - {fd})
  }

  /** A channel as its creator finds it. */
  predicate Founded(now: Channel, fd: int) {
    && now.members == {fd} && now.operators == {fd} && now.invited == {}
    && !now.inviteOnly && !now.keyEnabled && !now.limitEnabled
  }

  /** The client is named, by nickname, among the parameters of MODE. */
  ghost predicate Names(c: Core, m: Message, fd: int) {
    exists i :: 2 <= i < |m.params| && FindNick(c, m.params[i]) == Some(fd)
  }

  /** Modes and operators may change; a new operator is a member and named. */
  ghost predicate Reconfigured(c: Core, m: Message, was: Channel, now: Channel) {
    && now.members == was.members && now.invited == was.invited && now.topic == was.topic
    && forall x :: x in now.operators && x !in was.operators ==> x in was.members && Names(c, m, x)
  }

  // -------------------------------------------------- changes of all channels

  ghost predicate OnlyShrunk(c: Core, d: Core) {
    forall k :: k in d.channels ==> k in c.channels && Shrunk(c.channels[k], d.channels[k])
  }

  lemma ShrunkThen(c: Core, d: Core, e: Core)
    requires OnlyShrunk(c, d) && OnlyShrunk(d, e)
    ensures OnlyShrunk(c, e)
  {
  }

  /** One of the first `n` names folds to k. */
  predicate Asked(names: seq<string>, n: nat, k: string)
    requires n <= |names|
  {
    exists i :: 0 <= i < n && Fold(names[i]) == k
  }

  ghost predicate OnlyEntered(c: Core, d: Core, fd: int, names: seq<string>, n: nat)
    requires n <= |names|
  {
    && (forall k :: k in c.channels ==>
          k in d.channels && (d.channels[k] == c.channels[k] || Entered(c.channels[k], d.channels[k], fd)))
    && (forall k :: k in d.channels && k !in c.channels ==>
          Founded(d.channels[k], fd) && Asked(names, n, k))
  }

  lemma EnteredThen(c: Core, d: Core, e: Core, fd: int, names: seq<string>, n: nat, name: string)
    requires n < |names| && names[n] == name
    requires OnlyEntered(c, d, fd, names, n) && OnlyEntered(d, e, fd, [name], 1)
    ensures OnlyEntered(c, e, fd, names, n + 1)
  {
    forall k | k in c.channels
      ensures k in e.channels && (e.channels[k] == c.channels[k] || Entered(c.channels[k], e.channels[k], fd))
    {
      assert k in d.channels && (d.channels[k] == c.channels[k] || Entered(c.channels[k], d.channels[k], fd));
      assert e.channels[k] == d.channels[k] || Entered(d.channels[k], e.channels[k], fd);
    }
    forall k | k in e.channels && k !in c.channels ensures Founded(e.channels[k], fd) && Asked(names, n + 1, k) {
      if k in d.channels {
        assert Founded(d.channels[k], fd) && Asked(names, n, k);
        assert e.channels[k] == d.channels[k] || Entered(d.channels[k], e.channels[k], fd);
        var i :| 0 <= i < n && Fold(names[i]) == k;
      } else {
        assert Founded(e.channels[k], fd) && Asked([name], 1, k);
        assert Fold(names[n]) == k;
      }
    }
  }

  // ------------------------------------------------------------ the commands

  lemma AdmittedChanges(c: Core, fd: int, name: string, channel: Channel, created: bool)
    requires Inv(c) && fd in c.clients && channel.keyName == Fold(name) && fd !in channel.members
    requires if created then Fold(name) !in c.channels && channel == NewChannel(name, Fold(name))
             else Fold(name) in c.channels && channel == c.channels[Fold(name)]
    requires !created ==> (channel.inviteOnly ==> fd in channel.invited) && !channel.IsFull()
    ensures OnlyEntered(c, Commands.Joined(c, fd, channel, created), fd, [name], 1)
  {
    assert Fold([name][0]) == Fold(name);
  }

  lemma JoinOneChanges(cfg: Config, c: Core, fd: int, name: string, key: string)
    requires Inv(c) && fd in c.clients && c.clients[fd].fd == fd
    ensures OnlyEntered(c, JoinOne(cfg, c, fd, name, key).core, fd, [name], 1)
  {
    var k := Fold(name);
    if k in c.channels {
      assert ChannelOk(c.channels[k], k);
      assert HasJoined(c, fd, k) <==> HasMember(c, fd, k);
      var channel := c.channels[k];
      if fd !in channel.members && (channel.inviteOnly ==> fd in channel.invited) && !channel.IsFull() {
        AdmittedChanges(c, fd, name, channel, false);
      }
    } else {
      AdmittedChanges(c, fd, name, NewChannel(name, k), true);
    }
  }

  lemma {:induction false} JoinUpToChanges(cfg: Config, c: Core, fd: int, names: seq<string>, keys: seq<string>, n: nat)
    returns (e: Effect)
    requires n <= |names| && Inv(c) && fd in c.clients && c.clients[fd].fd == fd && c.clients[fd].registered
    ensures e == JoinUpTo(cfg, c, fd, names, keys, n) && OnlyEntered(c, e.core, fd, names, n)
    decreases n
  {
    if n == 0 {
      e := Effect(c, []);
    } else {
      var first := JoinUpToChanges(cfg, c, fd, names, keys, n - 1);
      JoinUpToRegistered(cfg, c, fd, names, keys, n - 1);
      var key := if n - 1 < |keys| then keys[n - 1] else "";
      var next := JoinOne(cfg, first.core, fd, names[n - 1], key);
      JoinOneChanges(cfg, first.core, fd, names[n - 1], key);
      EnteredThen(c, first.core, next.core, fd, names, n - 1, names[n - 1]);
      e := first.Then(next);
    }
  }

  lemma LeftChanges(c: Core, fd: int, k: string)
    requires fd in c.clients && k in c.channels
    ensures OnlyShrunk(c, Left(c, fd, k))
  {
  }

  lemma {:induction false} LeaveUpToChanges(c: Core, fd: int, keys: seq<string>, reason: string, n: nat)
    requires n <= |keys| && fd in c.clients
    ensures OnlyShrunk(c, LeaveUpTo(c, fd, keys, reason, n).core)
    decreases n
  {
    if n > 0 {
      LeaveUpToChanges(c, fd, keys, reason, n - 1);
      var d := LeaveUpTo(c, fd, keys, reason, n - 1).core;
      var k := Fold(keys[n - 1]);
      if k in d.channels && fd in d.channels[k].members {
        LeftChanges(d, fd, k);
        ShrunkThen(c, d, Left(d, fd, k));
      }
    }
  }

  lemma PartOneChanges(cfg: Config, c: Core, fd: int, name: string, reason: string)
    requires fd in c.clients
    ensures OnlyShrunk(c, PartOne(cfg, c, fd, name, reason).core)
  {
    if Fold(name) in c.channels { LeftChanges(c, fd, Fold(name)); }
  }

  lemma {:induction false} PartUpToChanges(cfg: Config, c: Core, fd: int, names: seq<string>, reason: string, n: nat)
    requires n <= |names| && fd in c.clients
    ensures OnlyShrunk(c, PartUpTo(cfg, c, fd, names, reason, n).core)
    decreases n
  {
    if n > 0 {
      PartUpToChanges(cfg, c, fd, names, reason, n - 1);
      var d := PartUpTo(cfg, c, fd, names, reason, n - 1).core;
      PartOneChanges(cfg, d, fd, names[n - 1], reason);
      ShrunkThen(c, d, PartOne(cfg, d, fd, names[n - 1], reason).core);
    }
  }

  /** What the mode loop does to operators so far. */
  ghost predicate OperatorsNamed(c: Core, m: Message, channel: Channel, r: ModeRun) {
    forall x :: x in r.channel.operators && x !in channel.operators ==> x in channel.members && Names(c, m, x)
  }

  lemma ModeCharNames(cfg: Config, c: Core, fd: int, m: Message, channel: Channel, r: ModeRun, letter: char)
    requires fd in c.clients && r.argIndex >= 2 && r.channel.members == channel.members
    requires OperatorsNamed(c, m, channel, r)
    ensures OperatorsNamed(c, m, channel, ModeChar(cfg, c, fd, m, r, letter))
    ensures ModeChar(cfg, c, fd, m, r, letter).argIndex >= 2
  {
    if letter == 'o' && r.argIndex < |m.params| && FindNick(c, m.params[r.argIndex]).Some? {
      assert Names(c, m, FindNick(c, m.params[r.argIndex]).value);
    }
  }

  lemma {:induction false} ModeUpToNames(cfg: Config, c: Core, fd: int, m: Message, channel: Channel,
                                         modes: string, n: nat)
    requires fd in c.clients && n <= |modes|
    ensures OperatorsNamed(c, m, channel, ModeUpTo(cfg, c, fd, m, channel, modes, n))
    ensures ModeUpTo(cfg, c, fd, m, channel, modes, n).argIndex >= 2
    decreases n
  {
    if n > 0 {
      ModeUpToNames(cfg, c, fd, m, channel, modes, n - 1);
      ModeUpToFrame(cfg, c, fd, m, channel, modes, n - 1);
      ModeCharNames(cfg, c, fd, m, channel, ModeUpTo(cfg, c, fd, m, channel, modes, n - 1), modes[n - 1]);
    }
  }

  // --------------------------------------------------------- INVITE, exactly

  /** An INVITE of x to k that the server grants. */
  predicate Invites(c: Core, fd: int, m: Message, k: string, x: int) {
    && fd in c.clients && c.clients[fd].registered && m.command == "INVITE" && |m.params| >= 2
    && FindNick(c, m.params[0]) == Some(x) && Fold(m.params[1]) == k
    && IsOperator(c, fd, k) && !HasMember(c, x, k)
  }

  /** Granted means answered 341, with the invitation sent on; an INVITE that is
      not granted changes nothing. */
  lemma InviteAnswered(cfg: Config, c: Core, fd: int, m: Message, k: string, x: int)
    requires Inv(c) && fd in c.clients && c.clients[fd].registered && m.command == "INVITE" && |m.params| >= 2
    requires FindNick(c, m.params[0]) == Some(x) && Fold(m.params[1]) == k
    ensures c.clients[fd].fd == fd
    ensures var e := Dispatch(cfg, c, fd, m);
      if Invites(c, fd, m, k, x) then
        e == Effect(SetChannel(c, c.channels[k].AddInvite(x)),
                    [ReplyTo(cfg, c, fd, 341, c.channels[k].name + " " + c.clients[x].nickname),
                     Send({x}, Notice(c, fd, "INVITE", c.clients[x].nickname + " :" + c.channels[k].name))])
      else e.core == c && |e.sends| == 1 && e.sends[0].to == {fd}
  {
    assert ClientOk(c.clients[fd], fd);
    if k in c.channels { assert ChannelOk(c.channels[k], k); }
  }

  // ------------------------------------------------------------- all of them

  /** The commands that change who is in a channel. */
  predicate MovesMembers(m: Message) {
    m.command == "JOIN" || m.command == "PART" || m.command == "KICK"
  }

  /** What a line may make of an existing channel. */
  ghost predicate Permitted(c: Core, fd: int, m: Message, k: string, was: Channel, now: Channel) {
    || now == was
    || (MovesMembers(m) && Shrunk(was, now))
    || (m.command == "JOIN" && Entered(was, now, fd))
    || (exists x :: Invites(c, fd, m, k, x) && now == was.AddInvite(x))
    || (m.command == "TOPIC" && now == was.(topic := now.topic))
    || (m.command == "MODE" && IsOperator(c, fd, k) && |m.params| >= 2 && Fold(m.params[0]) == k
        && Reconfigured(c, m, was, now))
  }

  /** What a line may do: `d` is the state after it. */
  ghost predicate LineChanges(c: Core, fd: int, m: Message, d: Core) {
    && (forall k :: k in c.channels && k in d.channels ==>
          Permitted(c, fd, m, k, c.channels[k], d.channels[k]))
    && (forall k :: k in d.channels && k !in c.channels ==>
          m.command == "JOIN" && fd in c.clients && |m.params| >= 1
          && Asked(SplitComma(m.params[0]), |SplitComma(m.params[0])|, k) && Founded(d.channels[k], fd))
    && (!MovesMembers(m) ==> d.channels.Keys == c.channels.Keys)
  }

  lemma JoinChanges(cfg: Config, c: Core, fd: int, m: Message)
    requires Inv(c) && fd in c.clients && c.clients[fd].fd == fd && c.clients[fd].registered && m.command == "JOIN"
    ensures LineChanges(c, fd, m, Join(cfg, c, fd, m).core)
  {
    if |m.params| >= 1 {
      if m.params[0] == "0" {
        var keys := AscendingNames(c.clients[fd].joined);
        LeaveUpToChanges(c, fd, keys, c.clients[fd].nickname, |keys|);
      } else {
        var names := SplitComma(m.params[0]);
        var keys := if |m.params| >= 2 then SplitComma(m.params[1]) else [];
        var e := JoinUpToChanges(cfg, c, fd, names, keys, |names|);
      }
    }
  }

  lemma PartChanges(cfg: Config, c: Core, fd: int, m: Message)
    requires fd in c.clients && m.command == "PART"
    ensures LineChanges(c, fd, m, Part(cfg, c, fd, m).core)
  {
    if |m.params| >= 1 {
      var names := SplitComma(m.params[0]);
      PartUpToChanges(cfg, c, fd, names, if |m.params| >= 2 then m.params[1] else c.clients[fd].nickname, |names|);
    }
  }

  lemma KickChanges(cfg: Config, c: Core, fd: int, m: Message)
    requires fd in c.clients && m.command == "KICK"
    ensures LineChanges(c, fd, m, Kick(cfg, c, fd, m).core)
  {
    if |m.params| >= 2 && Fold(m.params[0]) in c.channels && FindNick(c, m.params[1]).Some? {
      LeftChanges(c, FindNick(c, m.params[1]).value, Fold(m.params[0]));
    }
  }

  lemma InviteChanges(cfg: Config, c: Core, fd: int, m: Message)
    requires Inv(c) && fd in c.clients && c.clients[fd].registered && m.command == "INVITE"
    ensures LineChanges(c, fd, m, Invite(cfg, c, fd, m).core)
  {
    if |m.params| >= 2 && FindNick(c, m.params[0]).Some? && Fold(m.params[1]) in c.channels {
      var k := Fold(m.params[1]);
      assert ChannelOk(c.channels[k], k);
      assert IsOperator(c, fd, k) && !HasMember(c, FindNick(c, m.params[0]).value, k) ==>
        Invites(c, fd, m, k, FindNick(c, m.params[0]).value);
    }
  }

  lemma TopicChanges(cfg: Config, c: Core, fd: int, m: Message)
    requires Inv(c) && fd in c.clients && m.command == "TOPIC"
    ensures LineChanges(c, fd, m, Topic(cfg, c, fd, m).core)
  {
    if |m.params| >= 1 && Fold(m.params[0]) in c.channels {
      assert ChannelOk(c.channels[Fold(m.params[0])], Fold(m.params[0]));
    }
  }

  lemma OneReconfigured(c: Core, fd: int, m: Message, k: string, now: Channel)
    requires m.command == "MODE" && |m.params| >= 2 && Fold(m.params[0]) == k && IsOperator(c, fd, k)
    requires k in c.channels && now.keyName == k && Reconfigured(c, m, c.channels[k], now)
    ensures LineChanges(c, fd, m, SetChannel(c, now))
  {
  }

  lemma ModeChanges(cfg: Config, c: Core, fd: int, m: Message)
    requires Inv(c) && fd in c.clients && m.command == "MODE"
    ensures LineChanges(c, fd, m, Mode(cfg, c, fd, m).core)
  {
    SameChanges(c, fd, m, c);
    if |m.params| >= 2 && Fold(m.params[0]) in c.channels {
      var k := Fold(m.params[0]);
      var channel := c.channels[k];
      assert ChannelOk(channel, k);
      if fd in channel.operators {
        ModeUpToFrame(cfg, c, fd, m, channel, m.params[1], |m.params[1]|);
        ModeUpToNames(cfg, c, fd, m, channel, m.params[1], |m.params[1]|);
        OneReconfigured(c, fd, m, k, ModeUpTo(cfg, c, fd, m, channel, m.params[1], |m.params[1]|).channel);
      }
    }
  }

  lemma SameChanges(c: Core, fd: int, m: Message, d: Core)
    requires d.channels == c.channels
    ensures LineChanges(c, fd, m, d)
  {
  }

  lemma MembersChange(cfg: Config, c: Core, fd: int, m: Message)
    requires Inv(c) && fd in c.clients && c.clients[fd].fd == fd && c.clients[fd].registered && MovesMembers(m)
    ensures LineChanges(c, fd, m, Handle(cfg, c, fd, m).core)
  {
    if m.command == "JOIN" {
      JoinChanges(cfg, c, fd, m);
      assert Handle(cfg, c, fd, m) == Join(cfg, c, fd, m);
    } else if m.command == "PART" {
      PartChanges(cfg, c, fd, m);
      assert Handle(cfg, c, fd, m) == Part(cfg, c, fd, m);
    } else {
      KickChanges(cfg, c, fd, m);
      assert Handle(cfg, c, fd, m) == Kick(cfg, c, fd, m);
    }
  }

  lemma HandleChanges(cfg: Config, c: Core, fd: int, m: Message)
    requires Inv(c) && fd in c.clients && (NeedsRegistration(m.command) ==> c.clients[fd].registered)
    ensures c.clients[fd].fd == fd && LineChanges(c, fd, m, Handle(cfg, c, fd, m).core)
  {
    assert ClientOk(c.clients[fd], fd);
    if MovesMembers(m) { MembersChange(cfg, c, fd, m); }
    else if m.command == "INVITE" { InviteChanges(cfg, c, fd, m); }
    else if m.command == "TOPIC" { TopicChanges(cfg, c, fd, m); }
    else if m.command == "MODE" { ModeChanges(cfg, c, fd, m); }
    else {
      HandleElsewhere(cfg, c, fd, m);
      SameChanges(c, fd, m, Handle(cfg, c, fd, m).core);
    }
  }

  /** The other commands leave every channel alone. */
  lemma HandleElsewhere(cfg: Config, c: Core, fd: int, m: Message)
    requires fd in c.clients && c.clients[fd].fd == fd
    requires m.command !in ["JOIN", "PART", "KICK", "INVITE", "TOPIC", "MODE"]
    ensures Handle(cfg, c, fd, m).core.channels == c.channels
  {
    if m.command == "PRIVMSG" && |m.params| >= 2 {
      assert Privmsg(cfg, c, fd, m).core == c;
    }
  }

  /** Whatever the line and whoever sent it, each channel changes in one of the
      permitted ways, and a new one is founded by a JOIN that asks for it. */
  lemma DispatchChanges(cfg: Config, c: Core, fd: int, m: Message)
    requires Inv(c)
    ensures fd in c.clients ==> c.clients[fd].fd == fd
    ensures LineChanges(c, fd, m, Dispatch(cfg, c, fd, m).core)
  {
    assert fd in c.clients ==> ClientOk(c.clients[fd], fd);
    if fd in c.clients && KnownCommand(m.command)
       && !(!c.clients[fd].registered && NeedsRegistration(m.command))
       && !(c.clients[fd].registered && RejectedOnceRegistered(m.command)) {
      HandleChanges(cfg, c, fd, m);
    } else {
      SameChanges(c, fd, m, Dispatch(cfg, c, fd, m).core);
    }
  }

  /** A disconnection only takes away. */
  lemma DisconnectChanges(c: Core, fd: int, reason: string)
    requires Inv(c)
    ensures OnlyShrunk(c, Disconnect(c, fd, reason).core)
  {
    if fd in c.clients { DisconnectedErases(c, fd); }
  }
}
