/** The invariant of the relational state, the elementary moves every command
    is made of, and the proof that each allowed move keeps the invariant
    (the invariants are listed in section 11 of
    services/irc/docs/markdown/02_class_detailed_design_ja.md). */
module Moves {
  import opened IrcUtil
  import opened Domain
  import opened Ordered
  import opened Commands
  import opened Departures

  // -------------------------------------------------------------- invariant

  predicate ClientOk(me: Client, fd: int) {
    && me.fd == fd
    && (me.nickname != "" ==> ValidNickname(me.nickname))
    && (me.username != "" ==> ValidUsername(me.username))
    && SafeToken(me.hostname)
    && (me.registered <==> me.Complete())
    && (me.joined != {} ==> me.registered)
  }

  predicate ModesOk(ch: Channel) {
    && (if ch.keyEnabled then ValidChannelKey(ch.channelKey) else ch.channelKey == "")
    && (if ch.limitEnabled then 1 <= ch.userLimit <= MODE_MAX_USER_LIMIT else ch.userLimit == 0)
  }

  predicate ChannelOk(ch: Channel, k: string) {
    && ch.keyName == k
    && Fold(ch.name) == k
    && ValidChannelName(ch.name)
    && ch.members != {}
    && ch.operators <= ch.members
    && ch.invited !! ch.members
    && ModesOk(ch)
  }

  /** The client side and the channel side of "fd is in channel k". */
  predicate HasJoined(c: Core, fd: int, k: string) {
    fd in c.clients && k in c.clients[fd].joined
  }

  predicate HasMember(c: Core, fd: int, k: string) {
    k in c.channels && fd in c.channels[k].members
  }

  predicate IsOperator(c: Core, fd: int, k: string) {
    k in c.channels && fd in c.channels[k].operators
  }

  predicate IsInvited(c: Core, fd: int, k: string) {
    k in c.channels && fd in c.channels[k].invited
  }

  ghost predicate ClientsOk(c: Core) {
    forall fd {:trigger ClientOk(c.clients[fd], fd)} {:trigger fd in c.clients} ::
      fd in c.clients ==> ClientOk(c.clients[fd], fd)
  }

  ghost predicate ChannelsOk(c: Core) {
    forall k {:trigger ChannelOk(c.channels[k], k)} {:trigger k in c.channels} ::
      k in c.channels ==> ChannelOk(c.channels[k], k)
  }

  ghost predicate Mirror(c: Core) {
    forall fd, k :: HasJoined(c, fd, k) <==> HasMember(c, fd, k)
  }

  ghost predicate InvitesOk(c: Core) {
    forall fd, k :: IsInvited(c, fd, k) ==> fd in c.clients
  }

  predicate Indexed(c: Core, nick: string, fd: int) {
    nick in c.nickToFd && c.nickToFd[nick] == fd
  }

  predicate Named(c: Core, nick: string, fd: int) {
    fd in c.clients && c.clients[fd].nickname != "" && Fold(c.clients[fd].nickname) == nick
  }

  /** The nickname index holds the clients that have one, and nothing else. */
  ghost predicate IndexOk(c: Core) {
    forall nick, fd :: Indexed(c, nick, fd) <==> Named(c, nick, fd)
  }

  ghost predicate Inv(c: Core) {
    ClientsOk(c) && ChannelsOk(c) && Mirror(c) && InvitesOk(c) && IndexOk(c)
  }

  const EMPTY_CORE: Core := Core(map[], map[], map[])

  lemma EmptyInv()
    ensures Inv(EMPTY_CORE)
  {
  }

  /** What the two sides of the relation say together: members are connected
      and registered, operators too, and no two clients share a folded nick. */
  lemma InvMeans(c: Core, k: string, fd: int)
    requires Inv(c) && HasMember(c, fd, k)
    ensures HasJoined(c, fd, k) && c.clients[fd].registered && !IsInvited(c, fd, k)
    ensures Fold(k) == k
  {
    assert HasJoined(c, fd, k);
    FoldIdempotent(c.channels[k].name);
  }

  lemma NicknamesUnique(c: Core, fd: int, other: int)
    requires Inv(c) && fd in c.clients && other in c.clients
    requires c.clients[fd].nickname != ""
    requires Fold(c.clients[fd].nickname) == Fold(c.clients[other].nickname)
    ensures fd == other
  {
    var nick := Fold(c.clients[fd].nickname);
    assert Named(c, nick, fd);
    assert Indexed(c, nick, fd);
    assert |nick| == |c.clients[other].nickname|;
    assert Named(c, nick, other);
    assert Indexed(c, nick, other);
  }

  // ------------------------------------------------------------------ moves

  /** An elementary change of the relational state. */
  datatype Move =
    | Update(me: Client)
    | Rename(me: Client)
    | Enter(fd: int, channel: Channel, created: bool)
    | Exit(fd: int, key: string)
    | Ask(target: int, key: string)
    | Configure(channel: Channel)
    | Retitle(key: string, topic: string)
    | Connect(fd: int, hostname: string)
    | Drop(fd: int)

  /** A channel about to be created: the name is free and valid. */
  predicate NewName(c: Core, channel: Channel) {
    && channel.keyName !in c.channels
    && ValidChannelName(channel.name)
    && channel == NewChannel(channel.name, Fold(channel.name))
  }

  /** The doors of an existing channel: +i and +l. */
  predicate MayEnter(c: Core, fd: int, channel: Channel) {
    && channel.keyName in c.channels
    && channel == c.channels[channel.keyName]
    && fd !in channel.members
    && (channel.inviteOnly ==> fd in channel.invited)
    && !channel.IsFull()
  }

  /** What the server checks before `who` may make the move. */
  predicate Allowed(c: Core, who: int, move: Move) {
    match move
    case Update(me) =>
      && me.fd == who && who in c.clients
      && var was := c.clients[who];
      && me.nickname == was.nickname && me.joined == was.joined && me.hostname == was.hostname
      && (was.passwordAccepted ==> me.passwordAccepted) && (was.userReceived ==> me.userReceived)
      && ClientOk(me, who)
    case Rename(me) =>
      && me.fd == who && who in c.clients
      && var was := c.clients[who];
      && ValidNickname(me.nickname) && NickAvailable(c, me.nickname, who)
      && me == was.(nickname := me.nickname, registered := me.registered)
      && ClientOk(me, who)
    case Enter(fd, channel, created) =>
      && fd == who && who in c.clients && c.clients[who].registered
      && (if created then NewName(c, channel) else MayEnter(c, fd, channel))
    case Exit(fd, k) =>
      HasMember(c, fd, k) && (fd == who || IsOperator(c, who, k))
    case Ask(target, k) =>
      target in c.clients && IsOperator(c, who, k) && !HasMember(c, target, k)
    case Configure(channel) =>
      && var k := channel.keyName;
      && IsOperator(c, who, k)
      && var was := c.channels[k];
      && channel.name == was.name && channel.topic == was.topic
      && channel.members == was.members && channel.invited == was.invited
      && channel.operators <= channel.members && ModesOk(channel)
    case Retitle(k, topic) =>
      HasMember(c, who, k) && (c.channels[k].topicRestricted ==> IsOperator(c, who, k))
    case Connect(fd, hostname) => fd !in c.clients && SafeToken(hostname)
    case Drop(fd) => fd in c.clients
  }

  ghost function Apply(c: Core, who: int, move: Move): Core
    requires Allowed(c, who, move)
  {
    match move
    case Update(me) => SetClient(c, me)
    case Rename(me) => SetClient(Renamed(c, who, me.nickname), me)
    case Enter(fd, channel, created) => Joined(c, fd, channel, created)
    case Exit(fd, k) => if fd in c.clients then Left(c, fd, k) else c
    case Ask(target, k) => SetChannel(c, c.channels[k].AddInvite(target))
    case Configure(channel) => SetChannel(c, channel)
    case Retitle(k, topic) => SetChannel(c, c.channels[k].(topic := topic))
    case Connect(fd, hostname) => Connected(c, fd, hostname)
    case Drop(fd) => Disconnected(c, fd)
  }

  // ------------------------------------------------- the invariant is kept

  /** Channels, index and joined sets as they were. */
  lemma UpdateKeeps(c: Core, me: Client)
    requires Inv(c) && me.fd in c.clients && ClientOk(me, me.fd)
    requires me.nickname == c.clients[me.fd].nickname && me.joined == c.clients[me.fd].joined
    ensures Inv(SetClient(c, me))
  {
    var d := SetClient(c, me);
    forall fd, k ensures HasJoined(d, fd, k) <==> HasMember(d, fd, k) {
      assert HasJoined(d, fd, k) == HasJoined(c, fd, k);
      assert HasMember(d, fd, k) == HasMember(c, fd, k);
    }
    forall fd, k | IsInvited(d, fd, k) ensures fd in d.clients { assert IsInvited(c, fd, k); }
    forall nick, fd ensures Indexed(d, nick, fd) <==> Named(d, nick, fd) {
      assert Indexed(d, nick, fd) == Indexed(c, nick, fd);
      assert Named(d, nick, fd) == Named(c, nick, fd);
    }
  }

  lemma RenameKeepsIndex(c: Core, me: Client)
    requires Inv(c) && me.fd in c.clients && ClientOk(me, me.fd) && me.nickname != ""
    requires NickAvailable(c, me.nickname, me.fd)
    ensures IndexOk(SetClient(Renamed(c, me.fd, me.nickname), me))
  {
    var d := SetClient(Renamed(c, me.fd, me.nickname), me);
    var was := c.clients[me.fd].nickname;
    forall nick, fd ensures Indexed(d, nick, fd) <==> Named(d, nick, fd) {
      assert Indexed(c, nick, fd) <==> Named(c, nick, fd);
      assert Indexed(c, nick, me.fd) <==> Named(c, nick, me.fd);
      assert was != "" ==> Named(c, Fold(was), me.fd);
    }
  }

  lemma RenameKeeps(c: Core, me: Client)
    requires Inv(c) && me.fd in c.clients && ClientOk(me, me.fd) && me.nickname != ""
    requires NickAvailable(c, me.nickname, me.fd) && me.joined == c.clients[me.fd].joined
    ensures Inv(SetClient(Renamed(c, me.fd, me.nickname), me))
  {
    var d := SetClient(Renamed(c, me.fd, me.nickname), me);
    RenameKeepsIndex(c, me);
    forall fd, k ensures HasJoined(d, fd, k) <==> HasMember(d, fd, k) {
      assert HasJoined(d, fd, k) == HasJoined(c, fd, k);
      assert HasMember(d, fd, k) == HasMember(c, fd, k);
    }
    forall fd, k | IsInvited(d, fd, k) ensures fd in d.clients { assert IsInvited(c, fd, k); }
  }

  /** An edited channel with the same members. */
  lemma EditKeeps(c: Core, channel: Channel)
    requires Inv(c) && channel.keyName in c.channels && ChannelOk(channel, channel.keyName)
    requires channel.members == c.channels[channel.keyName].members
    requires forall fd :: fd in channel.invited ==> fd in c.clients
    ensures Inv(SetChannel(c, channel))
  {
    var d := SetChannel(c, channel);
    forall fd, k ensures HasJoined(d, fd, k) <==> HasMember(d, fd, k) {
      assert HasJoined(d, fd, k) == HasJoined(c, fd, k);
      assert HasMember(d, fd, k) == HasMember(c, fd, k);
    }
    forall fd, k | IsInvited(d, fd, k) ensures fd in d.clients {
      assert k != channel.keyName ==> IsInvited(c, fd, k);
    }
    forall nick, fd ensures Indexed(d, nick, fd) <==> Named(d, nick, fd) {
      assert Indexed(d, nick, fd) == Indexed(c, nick, fd);
      assert Named(d, nick, fd) == Named(c, nick, fd);
    }
  }

  lemma EnterKeeps(c: Core, fd: int, channel: Channel, created: bool)
    requires Inv(c) && Allowed(c, fd, Enter(fd, channel, created))
    ensures Inv(Joined(c, fd, channel, created))
  {
    var d := Joined(c, fd, channel, created);
    var k0 := channel.keyName;
    assert ChannelOk(d.channels[k0], k0);
    forall x, k ensures HasJoined(d, x, k) <==> HasMember(d, x, k) {
      if x == fd && k == k0 {
        assert HasJoined(d, x, k) && HasMember(d, x, k);
      } else {
        assert HasJoined(c, x, k) <==> HasMember(c, x, k);
        assert HasJoined(d, x, k) == HasJoined(c, x, k);
        assert HasMember(d, x, k) == HasMember(c, x, k);
      }
    }
    forall x, k | IsInvited(d, x, k) ensures x in d.clients { assert IsInvited(c, x, k); }
    forall nick, x ensures Indexed(d, nick, x) <==> Named(d, nick, x) {
      assert Indexed(d, nick, x) == Indexed(c, nick, x);
      assert Named(d, nick, x) == Named(c, nick, x);
    }
  }

  lemma ExitKeeps(c: Core, fd: int, key: string)
    requires Inv(c) && HasMember(c, fd, key)
    ensures fd in c.clients && Inv(Left(c, fd, key))
  {
    assert HasJoined(c, fd, key);
    var d := Left(c, fd, key);
    var shrunk := c.channels[key].RemoveMember(fd).RemoveInvite(fd);
    assert shrunk.members != {} ==> ChannelOk(shrunk, key);
    forall x, k ensures HasJoined(d, x, k) <==> HasMember(d, x, k) {
      assert HasJoined(c, x, k) <==> HasMember(c, x, k);
      assert HasJoined(d, x, k) <==> HasJoined(c, x, k) && !(x == fd && k == key);
      assert k == key && HasMember(c, x, k) && x != fd ==> shrunk.members != {} && x in shrunk.members;
      assert HasMember(d, x, k) <==> HasMember(c, x, k) && !(x == fd && k == key);
    }
    forall x, k | IsInvited(d, x, k) ensures x in d.clients { assert IsInvited(c, x, k); }
    forall nick, x ensures Indexed(d, nick, x) <==> Named(d, nick, x) {
      assert Indexed(d, nick, x) == Indexed(c, nick, x);
      assert Named(d, nick, x) == Named(c, nick, x);
    }
  }

  lemma ConnectKeeps(c: Core, fd: int, hostname: string)
    requires Inv(c) && fd !in c.clients && SafeToken(hostname)
    ensures Inv(Connected(c, fd, hostname))
  {
    var d := Connected(c, fd, hostname);
    forall x, k ensures HasJoined(d, x, k) <==> HasMember(d, x, k) {
      assert HasJoined(d, x, k) == HasJoined(c, x, k);
      assert HasMember(d, x, k) == HasMember(c, x, k);
    }
    forall x, k | IsInvited(d, x, k) ensures x in d.clients { assert IsInvited(c, x, k); }
    forall nick, x ensures Indexed(d, nick, x) <==> Named(d, nick, x) {
      assert Indexed(d, nick, x) == Indexed(c, nick, x);
      assert Named(d, nick, x) == Named(c, nick, x);
    }
  }

  /** Everything about the client is gone: its memberships, operatorships and
      invites, the channels it leaves empty, its nickname and itself. */
  function Erased(c: Core, fd: int): Core
    requires fd in c.clients
  {
    var nick := c.clients[fd].nickname;
    Core(
      c.clients - {fd},
      map k | k in c.channels && c.channels[k].members - {fd} != {}
        :: c.channels[k].RemoveMember(fd).RemoveInvite(fd),
      if nick == "" then c.nickToFd else c.nickToFd - {Fold(nick)})
  }

  lemma PartedOne(c: Core, fd: int, k: string)
    requires Inv(c) && fd in c.clients && k in c.channels
    ensures var parted := Parted(c.channels, fd, c.clients[fd].joined);
      var gone := Erased(c, fd).channels;
      (k in parted <==> k in gone) && (k in gone ==> parted[k].RemoveInvite(fd) == gone[k])
  {
    assert HasJoined(c, fd, k) <==> HasMember(c, fd, k);
    var ch := c.channels[k];
    assert ChannelOk(ch, k);
    if k !in c.clients[fd].joined {
      assert ch.members - {fd} == ch.members && ch.operators - {fd} == ch.operators;
    }
  }

  lemma JoinedFolded(c: Core, fd: int)
    requires Inv(c) && fd in c.clients
    ensures forall k :: k in c.clients[fd].joined ==> Fold(k) == k && k in c.channels && c.channels[k].keyName == k
  {
    forall k | k in c.clients[fd].joined ensures Fold(k) == k && k in c.channels && c.channels[k].keyName == k {
      assert HasJoined(c, fd, k);
      InvMeans(c, k, fd);
    }
  }

  lemma WalkTakesJoined(c: Core, fd: int)
    requires Inv(c) && fd in c.clients
    ensures var names := AscendingNames(c.clients[fd].joined);
      LeftThem(c, LeaveQuietlyUpTo(c, fd, names, |names|), fd, c.clients[fd].joined)
  {
    var joined := c.clients[fd].joined;
    var names := AscendingNames(joined);
    AscendingNamesEnumerates(joined);
    JoinedFolded(c, fd);
    assert forall i :: 0 <= i < |names| ==> names[i] in names;
    WalkLeaves(c, fd, names, |names|);
    forall k ensures k in Listed(names, |names|) <==> k in joined { assert k in names <==> k in joined; }
    assert Listed(names, |names|) == joined;
  }

  /** The walk takes the joined set only, yet nothing of the client is left in
      any channel, because the joined set and the member sets mirror each other. */
  lemma DisconnectedErases(c: Core, fd: int)
    requires Inv(c) && fd in c.clients
    ensures Disconnected(c, fd) == Erased(c, fd)
  {
    WalkTakesJoined(c, fd);
    var gone := Erased(c, fd).channels;
    var walked := Walked(c, fd).channels;
    forall k ensures (k in walked <==> k in gone) && (k in gone ==> walked[k] == gone[k]) {
      if k in c.channels { PartedOne(c, fd, k); }
    }
    assert walked == gone;
    assert Walked(c, fd).clients - {fd} == c.clients - {fd};
  }

  lemma DropKeeps(c: Core, fd: int)
    requires Inv(c) && fd in c.clients
    ensures Disconnected(c, fd) == Erased(c, fd) && Inv(Erased(c, fd))
  {
    DisconnectedErases(c, fd);
    ErasedKeeps(c, fd);
  }

  lemma ErasedKeeps(c: Core, fd: int)
    requires Inv(c) && fd in c.clients
    ensures Inv(Erased(c, fd))
  {
    var d := Erased(c, fd);
    forall k | k in d.channels ensures ChannelOk(d.channels[k], k) { assert ChannelOk(c.channels[k], k); }
    forall x, k ensures HasJoined(d, x, k) <==> HasMember(d, x, k) {
      assert HasJoined(c, x, k) <==> HasMember(c, x, k);
      assert HasJoined(d, x, k) <==> x != fd && HasJoined(c, x, k);
      assert HasMember(d, x, k) <==> x != fd && HasMember(c, x, k) by {
        if x != fd && HasMember(c, x, k) { assert x in c.channels[k].members - {fd}; }
      }
    }
    forall x, k | IsInvited(d, x, k) ensures x in d.clients { assert IsInvited(c, x, k); }
    var nick0 := Fold(c.clients[fd].nickname);
    forall nick, x ensures Indexed(d, nick, x) <==> Named(d, nick, x) {
      assert Indexed(c, nick, x) <==> Named(c, nick, x);
      assert Indexed(c, nick, fd) <==> Named(c, nick, fd);
    }
  }

  /** Every allowed move keeps the whole invariant. */
  lemma MoveKeeps(c: Core, who: int, move: Move)
    requires Inv(c) && Allowed(c, who, move)
    ensures Inv(Apply(c, who, move))
  {
    match move {
      case Update(me) => UpdateKeeps(c, me);
      case Rename(me) => RenameKeeps(c, me);
      case Enter(fd, channel, created) => EnterKeeps(c, fd, channel, created);
      case Exit(fd, k) => ExitKeeps(c, fd, k);
      case Ask(target, k) =>
        forall x | x in c.channels[k].AddInvite(target).invited ensures x in c.clients {
          assert x != target ==> IsInvited(c, x, k);
        }
        EditKeeps(c, c.channels[k].AddInvite(target));
      case Configure(channel) =>
        forall x | x in channel.invited ensures x in c.clients { assert IsInvited(c, x, channel.keyName); }
        EditKeeps(c, channel);
      case Retitle(k, topic) =>
        forall x | x in c.channels[k].invited ensures x in c.clients { assert IsInvited(c, x, k); }
        EditKeeps(c, c.channels[k].(topic := topic));
      case Connect(fd, hostname) => ConnectKeeps(c, fd, hostname);
      case Drop(fd) => DropKeeps(c, fd);
    }
  }
}
