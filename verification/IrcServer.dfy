/** The IRC server, its maps and buffers updated in place as in
    services/irc/prd/interface and services/irc/prd/handler. Each method is
    proved to do what the functions of Commands, Delivery and EventLoop say, so
    what is proved there holds of the running server.

    The record of a connection is kept in two maps with the same keys: `clients`
    for who it is, `ports` for its byte buffers. */
module IrcServer {
  import opened IrcUtil
  import opened Strings
  import opened Domain
  import opened Ordered
  import opened Reply
  import opened Parser
  import opened BufferUtil
  import opened Commands
  import opened Departures
  import opened Moves
  import opened CommandMoves
  import opened Delivery
  import opened Sends
  import opened EventLoop
  import opened ServerRuns
  import opened ServerFacts

  class Server {
    const cfg: Config
    var clients: map<int, Client>
    var channels: map<string, Channel>
    var nickToFd: map<string, int>
    var ports: map<int, Port>
    var pollFds: seq<Watch>
    var pending: set<int>
    var reasons: map<int, string>

    /** Who is who and who is where. */
    ghost function Relations(): Core
      reads this
    {
      Core(clients, channels, nickToFd)
    }

    /** Buffers, poll list and reservations. */
    ghost function Network(): Io
      reads this
    {
      Io(ports, pollFds, pending, reasons)
    }

    ghost function State(): View
      reads this
    {
      View(Relations(), Network())
    }

    constructor (config: Config)
      ensures cfg == config && State() == Fresh(config)
    {
      cfg := config;
      clients, channels, nickToFd, ports := map[], map[], map[], map[];
      pollFds, pending, reasons := [Watch(config.listenFd, false)], {}, map[];
    }

    // ------------------------------------------------------------ poll list

    method AddClientPollFd(fd: int)
      modifies this`pollFds
      ensures pollFds == old(pollFds) + [Watch(fd, false)]
    {
      pollFds := pollFds + [Watch(fd, false)];
    }

    method RemoveClientPollFd(fd: int)
      modifies this`pollFds
      ensures pollFds == WithoutFd(old(pollFds), fd)
    {
      for i := 0 to |pollFds|
        invariant pollFds == old(pollFds)
        invariant forall j :: 0 <= j < i ==> pollFds[j].fd != fd
      {
        if pollFds[i].fd == fd {
          WithoutFdAt(pollFds, fd, i);
          pollFds := pollFds[..i] + pollFds[i + 1..];
          return;
        }
      }
      WithoutFdAt(pollFds, fd, |pollFds|);
    }

    method UpdatePollEvents(fd: int)
      requires fd in ports && Distinct(pollFds)
      modifies this`pollFds
      ensures pollFds == SetWatch(old(pollFds), fd, ports[fd].sendBuffer != "") && Distinct(pollFds)
    {
      var out := ports[fd].sendBuffer != "";
      SetWatchDistinct(pollFds, fd, out);
      for i := 0 to |pollFds|
        invariant pollFds == old(pollFds)
        invariant forall j :: 0 <= j < i ==> pollFds[j].fd != fd
      {
        if pollFds[i].fd == fd {
          SetWatchAt(pollFds, fd, out, i);
          pollFds := pollFds[i := Watch(fd, out)];
          return;
        }
      }
    }

    // ------------------------------------------------------------- queueing

    method ScheduleDisconnect(fd: int)
      modifies this`pending
      ensures pending == old(pending) + {fd}
    {
      pending := pending + {fd};
    }

    method QueueToClient(fd: int, message: string)
      requires Distinct(pollFds)
      modifies this`ports, this`pollFds, this`pending
      ensures Network() == Offer(old(Network()), {fd}, message) && Distinct(pollFds)
    {
      ghost var io := Network();
      if fd !in ports {
        OfferAbsent(io, fd, message);
        return;
      }
      QueuedIsOffered(io, fd, message);
      var normalized := if EndsInCrLf(message) then message else message + "\r\n";
      var port := ports[fd];
      if |port.sendBuffer| + |normalized| > MAX_SEND_BUFFER {
        ScheduleDisconnect(fd);
        return;
      }
      ports := ports[fd := port.(sendBuffer := port.sendBuffer + normalized,
                                 accepted := port.accepted + [normalized])];
      UpdatePollEvents(fd);
    }

    /** Every member but the excluded ones, in ascending order. */
    method BroadcastToChannel(members: set<int>, message: string, exclude: set<int>)
      requires Distinct(pollFds)
      modifies this`ports, this`pollFds, this`pending
      ensures Network() == Offer(old(Network()), members - exclude, message) && Distinct(pollFds)
    {
      ghost var io := Network();
      var rest := members;
      ghost var done: set<int> := {};
      OfferNobody(io, message);
      while rest != {}
        invariant rest <= members && done == members - rest - exclude
        invariant Network() == Offer(io, done, message) && Distinct(pollFds)
        decreases |rest|
      {
        ghost var least := MinExists(rest);
        var fd: int :| fd in rest && forall x :: x in rest ==> fd <= x;
        rest := rest - {fd};
        if fd in exclude {
          continue;
        }
        OfferGrows(io, done, fd, message);
        QueueToClient(fd, message);
        done := done + {fd};
      }
      assert done == members - exclude;
    }

    /** Everyone else in some channel of the client, each once. */
    method BroadcastToSharedChannels(fd: int, message: string)
      requires fd in clients && Distinct(pollFds)
      modifies this`ports, this`pollFds, this`pending
      ensures Network() == Offer(old(Network()), Neighbours(Relations(), fd), message) && Distinct(pollFds)
    {
      var targets := SharedMembers(fd);
      targets := targets - {fd};
      BroadcastToChannel(targets, message, {});
      assert targets - {} == targets;
    }

    method SharedMembers(fd: int) returns (targets: set<int>)
      requires fd in clients
      ensures targets - {fd} == Neighbours(Relations(), fd)
    {
      var rest := clients[fd].joined;
      targets := {};
      while rest != {}
        invariant rest <= clients[fd].joined
        invariant targets == MembersOf(clients[fd].joined - rest, channels)
        decreases |rest|
      {
        ghost var least := LeastExists(rest);
        var k: string :| k in rest && forall x :: x in rest ==> StringLeq(k, x);
        MembersOfOneMore(clients[fd].joined - rest, k, channels);
        assert clients[fd].joined - (rest - {k}) == clients[fd].joined - rest + {k};
        rest := rest - {k};
        if Fold(k) !in channels {
          continue;
        }
        targets := targets + channels[Fold(k)].members;
      }
      assert clients[fd].joined - {} == clients[fd].joined;
      MembersAreNeighbours(Relations(), fd);
    }

    // -------------------------------------------------------------- lookups

    method FindClientByNickname(nickname: string) returns (found: Option<int>)
      ensures found == FindNick(Relations(), nickname)
    {
      var key := IrcCaseFold(nickname);
      if key !in nickToFd {
        return None;
      }
      return if nickToFd[key] in clients then Some(nickToFd[key]) else None;
    }

    method IsNicknameAvailable(nickname: string, exceptFd: int) returns (ok: bool)
      ensures ok == NickAvailable(Relations(), nickname, exceptFd)
    {
      var key := IrcCaseFold(nickname);
      if key !in nickToFd {
        return true;
      }
      return nickToFd[key] == exceptFd;
    }

    method RegisterNickname(fd: int, nickname: string)
      modifies this`nickToFd
      ensures nickToFd == old(nickToFd)[Fold(nickname) := fd]
    {
      var key := IrcCaseFold(nickname);
      nickToFd := nickToFd[key := fd];
    }

    method UnregisterNickname(nickname: string)
      modifies this`nickToFd
      ensures nickToFd == old(nickToFd) - {Fold(nickname)}
    {
      var key := IrcCaseFold(nickname);
      nickToFd := nickToFd - {key};
    }

    // -------------------------------------------------------------- replies

    /** A numeric to the client that asked. */
    method SendReply(fd: int, code: int, parameters: string)
      requires fd in clients && Distinct(pollFds)
      modifies this`ports, this`pollFds, this`pending
      ensures State() == Perform(old(State()), Answer(cfg, old(Relations()), fd, code, parameters))
      ensures Distinct(pollFds)
    {
      DeliverOne(Network(), ReplyTo(cfg, Relations(), fd, code, parameters));
      QueueToClient(fd, Numeric(cfg.serverName, clients[fd], code, parameters));
    }

    /** One message to one client. */
    method SendLine(fd: int, text: string)
      requires Distinct(pollFds)
      modifies this`ports, this`pollFds, this`pending
      ensures State() == Perform(old(State()), Effect(old(Relations()), [Send({fd}, text)]))
      ensures Distinct(pollFds)
    {
      DeliverOne(Network(), Send({fd}, text));
      QueueToClient(fd, text);
    }

    /** One message to a set of members. */
    method SendAll(members: set<int>, text: string)
      requires Distinct(pollFds)
      modifies this`ports, this`pollFds, this`pending
      ensures State() == Perform(old(State()), Effect(old(Relations()), [Send(members, text)]))
      ensures Distinct(pollFds)
    {
      DeliverOne(Network(), Send(members, text));
      BroadcastToChannel(members, text, {});
      assert members - {} == members;
    }

    method RequireParams(fd: int, m: Message, count: nat) returns (ok: bool)
      requires fd in clients && Distinct(pollFds)
      modifies this`ports, this`pollFds, this`pending
      ensures ok == (|m.params| >= count)
      ensures State() == if ok then old(State()) else Perform(old(State()), NeedParams(cfg, old(Relations()), fd, m))
      ensures Distinct(pollFds)
    {
      if |m.params| >= count {
        return true;
      }
      SendReply(fd, 461, m.command + Say(cfg, 461));
      return false;
    }

    method RequireChannelMember(fd: int, channel: Channel) returns (ok: bool)
      requires fd in clients && Distinct(pollFds)
      modifies this`ports, this`pollFds, this`pending
      ensures ok == (fd in channel.members)
      ensures State() == if ok then old(State())
                         else Perform(old(State()), NotOnChannel(cfg, old(Relations()), fd, channel))
      ensures Distinct(pollFds)
    {
      if fd in channel.members {
        return true;
      }
      SendReply(fd, 442, channel.name + Say(cfg, 442));
      return false;
    }

    method RequireChannelOperator(fd: int, channel: Channel) returns (ok: bool)
      requires fd in clients && Distinct(pollFds)
      modifies this`ports, this`pollFds, this`pending
      ensures ok == (fd in channel.operators)
      ensures State() == if ok then old(State())
                         else Perform(old(State()), NotOperator(cfg, old(Relations()), fd, channel))
      ensures Distinct(pollFds)
    {
      if fd in channel.operators {
        return true;
      }
      SendReply(fd, 482, channel.name + Say(cfg, 482));
      return false;
    }

    method SendNoSuchChannel(fd: int, name: string)
      requires fd in clients && Distinct(pollFds)
      modifies this`ports, this`pollFds, this`pending
      ensures State() == Perform(old(State()), NoSuchChannel(cfg, old(Relations()), fd, name))
      ensures Distinct(pollFds)
    {
      SendReply(fd, 403, name + Say(cfg, 403));
    }

    // ----------------------------------------------------------- membership

    method DeleteChannelIfEmpty(k: string)
      requires Fold(k) == k && (k in channels ==> channels[k].keyName == k)
      modifies this`channels
      ensures channels
           == if k in old(channels) && old(channels)[k].members == {} then old(channels) - {k} else old(channels)
    {
      var key := IrcCaseFold(k);
      if key in channels && channels[key].members == {} {
        channels := channels - {channels[key].keyName};
      }
    }

    /** Membership on both sides; false when the client or the channel is not
        there. */
    method JoinChannel(fd: int, k: string) returns (ok: bool)
      requires Fold(k) == k && (k in channels ==> channels[k].keyName == k)
      modifies this`channels, this`clients
      ensures ok <==> fd in old(clients) && k in old(channels)
      ensures !ok ==> clients == old(clients) && channels == old(channels)
      ensures ok ==> channels == old(channels)[k := old(channels)[k].AddMember(fd)]
      ensures ok ==> clients == old(clients)[fd := old(clients)[fd].(joined := old(clients)[fd].joined + {k})]
    {
      var key := IrcCaseFold(k);
      if fd !in clients || key !in channels {
        return false;
      }
      channels := channels[key := channels[key].AddMember(fd)];
      clients := clients[fd := clients[fd].(joined := clients[fd].joined + {channels[key].keyName})];
      return fd in channels[key].members && channels[key].keyName in clients[fd].joined;
    }

    /** Leaving one channel, with or without a PART to its members. */
    method LeaveChannel(fd: int, k: string, reason: string, sendPart: bool) returns (left: bool)
      requires Fold(k) == k && (k in channels ==> channels[k].keyName == k) && Distinct(pollFds)
      modifies this`channels, this`clients, this`ports, this`pollFds, this`pending
      ensures left <==> fd in old(clients) && k in old(channels) && fd in old(channels)[k].members
      ensures State() == if !left then old(State())
                         else if sendPart then Perform(old(State()), Leave(old(Relations()), fd, k, reason))
                         else old(State()).(core := Left(old(Relations()), fd, k))
      ensures Distinct(pollFds)
    {
      var key := IrcCaseFold(k);
      if fd !in clients || key !in channels || fd !in channels[key].members {
        return false;
      }
      var channel := channels[key];
      if sendPart {
        SendAll(channel.members, Command(ClientPrefix(clients[fd]), "PART", channel.name + " :" + reason));
      }
      channels := channels[key := channel.RemoveMember(fd).RemoveInvite(fd)];
      clients := clients[fd := clients[fd].(joined := clients[fd].joined - {channel.keyName})];
      DeleteChannelIfEmpty(key);
      assert channels == Left(old(Relations()), fd, k).channels;
      return true;
    }

    // --------------------------------------------------------- disconnecting

    method RemoveClientFromAllChannels(fd: int)
      requires Inv(Relations()) && fd in clients
      modifies this`channels, this`clients
      ensures channels == Disconnected(old(Relations()), fd).channels
      ensures clients == old(clients)[fd := old(clients)[fd].(joined := {})]
    {
      PartedIsWalked(Relations(), fd);
      JoinedFolded(Relations(), fd);
      LeaveJoined(fd);
      WithdrawInvites(fd);
    }

    method LeaveJoined(fd: int)
      requires fd in clients
      requires forall k :: k in clients[fd].joined ==> Fold(k) == k && k in channels && channels[k].keyName == k
      modifies this`channels, this`clients
      ensures channels == Parted(old(channels), fd, old(clients)[fd].joined)
      ensures clients == old(clients)[fd := old(clients)[fd].(joined := {})]
    {
      ghost var v := Relations();
      var rest := clients[fd].joined;
      LeavingBegins(v, fd);
      while rest != {}
        invariant LeavingAt(v, Relations(), fd, rest) && nickToFd == v.nickToFd
        decreases |rest|
      {
        ghost var least := LeastExists(rest);
        var k: string :| k in rest && forall x :: x in rest ==> StringLeq(k, x);
        LeaveNextJoined(fd, k, v, rest);
        rest := rest - {k};
      }
      LeavingEnds(v, Relations(), fd);
    }

    method LeaveNextJoined(fd: int, k: string, ghost v: Core, ghost rest: set<string>)
      requires LeavingAt(v, Relations(), fd, rest) && k in rest
      modifies this`channels, this`clients
      ensures LeavingAt(v, Relations(), fd, rest - {k})
    {
      ghost var joined := v.clients[fd].joined;
      UpdatedTwice(v.clients, fd, v.clients[fd].(joined := rest), v.clients[fd].(joined := rest - {k}));
      assert joined - (rest - {k}) == joined - rest + {k};
      LeaveOne(fd, k, v.channels, joined - rest);
    }

    /** One turn of the loop in removeClientFromAllChannels. */
    method LeaveOne(fd: int, k: string, ghost before: map<string, Channel>, ghost done: set<string>)
      requires fd in clients && k !in done && channels == Parted(before, fd, done)
      requires k in before && Fold(k) == k && before[k].keyName == k
      modifies this`channels, this`clients
      ensures channels == Parted(before, fd, done + {k})
      ensures clients == old(clients)[fd := old(clients)[fd].(joined := old(clients)[fd].joined - {k})]
    {
      PartedMore(before, fd, done, k);
      var key := IrcCaseFold(k);
      if key !in channels {
        return;
      }
      channels := channels[key := channels[key].RemoveMember(fd)];
      clients := clients[fd := clients[fd].(joined := clients[fd].joined - {k})];
      DeleteChannelIfEmpty(key);
    }

    method WithdrawInvites(fd: int)
      modifies this`channels
      ensures channels == Uninvited(old(channels), fd, old(channels).Keys)
    {
      ghost var before := channels;
      var rest := channels.Keys;
      UninvitedNone(channels, fd);
      while rest != {}
        invariant rest <= before.Keys
        invariant channels == Uninvited(before, fd, before.Keys - rest)
        decreases |rest|
      {
        ghost var least := LeastExists(rest);
        var k: string :| k in rest && forall x :: x in rest ==> StringLeq(k, x);
        UninvitedMore(before, fd, before.Keys - rest, k);
        assert before.Keys - (rest - {k}) == before.Keys - rest + {k};
        channels := channels[k := channels[k].RemoveInvite(fd)];
        rest := rest - {k};
      }
      assert before.Keys - {} == before.Keys;
    }

    /** disconnectClient: QUIT to everyone who shares a channel, then out of the
        channels, the index, the poll list and the maps. */
    method DisconnectClient(fd: int, reason: string)
      requires Inv(Relations()) && Distinct(pollFds)
      modifies this
      ensures fd !in old(clients) ==> State() == old(State())
      ensures fd in old(clients) ==>
        State() == (var e := Disconnect(old(Relations()), fd, reason);
                    View(e.core, Closed(Deliver(old(Network()), e.sends), fd)))
    {
      if fd !in clients {
        return;
      }
      ghost var c := Relations();
      ghost var notice := Command(ClientPrefix(clients[fd]), "QUIT", ":" + reason);
      DeliverOne(Network(), Send(Neighbours(c, fd), notice));
      JoinedFolded(c, fd);
      DisconnectedErases(c, fd);
      BroadcastToSharedChannels(fd, Command(ClientPrefix(clients[fd]), "QUIT", ":" + reason));
      RemoveClientFromAllChannels(fd);
      assert clients - {fd} == c.clients - {fd};
      ForgetClient(fd);
    }

    /** The end of disconnectClient: nickname index, poll list, reason, record. */
    method ForgetClient(fd: int)
      requires fd in clients
      modifies this`nickToFd, this`pollFds, this`reasons, this`ports, this`clients
      ensures Network() == Closed(old(Network()), fd)
      ensures clients == old(clients) - {fd}
      ensures nickToFd == if old(clients)[fd].nickname == "" then old(nickToFd)
                          else old(nickToFd) - {Fold(old(clients)[fd].nickname)}
    {
      if clients[fd].nickname != "" {
        UnregisterNickname(clients[fd].nickname);
      }
      RemoveClientPollFd(fd);
      reasons := reasons - {fd};
      ports := ports - {fd};
      clients := clients - {fd};
    }

    /** One turn of the loop in processPendingDisconnects. */
    method DisconnectNext(fd: int, ghost emptied: View, ghost order: seq<int>, ghost n: nat)
      requires ViewOk(cfg, State()) && ViewOk(cfg, emptied) && n < |order| && order[n] == fd
      requires State() == DrainUpTo(cfg, emptied, order, n)
      modifies this
      ensures ViewOk(cfg, State()) && State() == DrainUpTo(cfg, emptied, order, n + 1)
    {
      DisconnectOneKeeps(cfg, State(), fd);
      DrainUpToNext(cfg, emptied, order, n + 1);
      var reason := if fd in reasons then reasons[fd] else "Connection closed";
      DisconnectClient(fd, reason);
    }

    /** processPendingDisconnects: the set copied and emptied, then each in
        ascending order with the reason it left, if any. */
    method ProcessPendingDisconnects()
      requires ViewOk(cfg, State())
      modifies this
      ensures State() == DrainPending(cfg, old(State()))
    {
      var rest := pending;
      ghost var start := State();
      ghost var order := Ascending(pending);
      ghost var emptied := start.(io := start.io.(pending := {}));
      ghost var n := 0;
      pending := {};
      while rest != {}
        invariant n <= |order| && order[n..] == Ascending(rest)
        invariant ViewOk(cfg, State()) && ViewOk(cfg, emptied)
        invariant State() == DrainUpTo(cfg, emptied, order, n)
        decreases |rest|
      {
        ghost var least := MinExists(rest);
        var fd: int :| fd in rest && forall x :: x in rest ==> fd <= x;
        NextInOrder(order, n, rest, fd);
        rest := rest - {fd};
        DisconnectNext(fd, emptied, order, n);
        n := n + 1;
      }
      assert n == |order|;
    }

    // ---------------------------------------------------------- registration

    /** The next message of a list, to one client. */
    method QueueNth(fd: int, text: string, ghost io: Io, ghost sends: seq<Send>, ghost n: nat)
      requires n < |sends| && sends[n] == Send({fd}, text) && Distinct(pollFds)
      requires Network() == Deliver(io, sends[..n])
      modifies this`ports, this`pollFds, this`pending
      ensures Network() == Deliver(io, sends[..n + 1]) && Distinct(pollFds)
    {
      DeliverNext(io, sends, n);
      QueueToClient(fd, text);
    }

    /** The next message of a list, to a set of members. */
    method BroadcastNth(members: set<int>, text: string, ghost io: Io, ghost sends: seq<Send>, ghost n: nat)
      requires n < |sends| && sends[n] == Send(members, text) && Distinct(pollFds)
      requires Network() == Deliver(io, sends[..n])
      modifies this`ports, this`pollFds, this`pending
      ensures Network() == Deliver(io, sends[..n + 1]) && Distinct(pollFds)
    {
      DeliverNext(io, sends, n);
      BroadcastToChannel(members, text, {});
      assert members - {} == members;
    }

    method SendWelcomeSequence(fd: int)
      requires fd in clients && clients[fd].fd == fd && Distinct(pollFds)
      modifies this`ports, this`pollFds, this`pending
      ensures State() == Perform(old(State()), Effect(old(Relations()), Welcome(cfg, old(clients)[fd])))
      ensures Distinct(pollFds)
    {
      ghost var io := Network();
      ghost var sends := Welcome(cfg, clients[fd]);
      var me := clients[fd];
      DeliverNothing(io);
      assert sends[..0] == [];
      QueueNth(fd, Numeric(cfg.serverName, me, 1, ":" + cfg.text(1) + ClientPrefix(me)), io, sends, 0);
      QueueNth(fd, Numeric(cfg.serverName, me, 2, ":" + cfg.text(2)), io, sends, 1);
      SendServerInfo(fd, io, sends);
    }

    method SendServerInfo(fd: int, ghost io: Io, ghost sends: seq<Send>)
      requires fd in clients && clients[fd].fd == fd && Distinct(pollFds)
      requires |sends| == 5 && Network() == Deliver(io, sends[..2])
      requires sends[2] == Send({fd}, Numeric(cfg.serverName, clients[fd], 3, ":" + cfg.text(3)))
      requires sends[3] == Send({fd}, Numeric(cfg.serverName, clients[fd], 4, cfg.serverName + cfg.text(4)))
      requires sends[4] == Send({fd}, Numeric(cfg.serverName, clients[fd], 422, ":" + cfg.text(422)))
      modifies this`ports, this`pollFds, this`pending
      ensures Network() == Deliver(io, sends) && Distinct(pollFds)
    {
      var me := clients[fd];
      QueueNth(fd, Numeric(cfg.serverName, me, 3, ":" + cfg.text(3)), io, sends, 2);
      QueueNth(fd, Numeric(cfg.serverName, me, 4, cfg.serverName + cfg.text(4)), io, sends, 3);
      QueueNth(fd, Numeric(cfg.serverName, me, 422, ":" + cfg.text(422)), io, sends, 4);
      assert sends[..5] == sends;
    }

    method TryRegisterClient(fd: int)
      requires fd in clients && clients[fd].fd == fd && Distinct(pollFds)
      modifies this`clients, this`ports, this`pollFds, this`pending
      ensures State() == Perform(old(State()), Register(cfg, old(Relations()), old(clients)[fd]))
      ensures Distinct(pollFds)
    {
      if !clients[fd].registered && clients[fd].Complete() {
        clients := clients[fd := clients[fd].(registered := true)];
        SendWelcomeSequence(fd);
      } else {
        assert clients[fd := clients[fd]] == clients;
        DeliverNothing(Network());
      }
    }

    method HandlePass(fd: int, m: Message)
      requires fd in clients && clients[fd].fd == fd && Distinct(pollFds)
      modifies this
      ensures State() == Perform(old(State()), Commands.Pass(cfg, old(Relations()), fd, m)) && Distinct(pollFds)
    {
      var ok := RequireParams(fd, m, 1);
      if !ok {
        return;
      }
      if m.params[0] != cfg.password {
        SendReply(fd, 464, ":" + cfg.text(464));
        return;
      }
      ghost var c := Relations();
      var me := clients[fd].(passwordAccepted := true);
      RegisterRefreshed(cfg, c, me);
      clients := clients[fd := me];
      TryRegisterClient(fd);
    }

    method IsValidUsername(username: string) returns (ok: bool)
      ensures ok == ValidUsername(username)
    {
      if username == "" {
        return false;
      }
      for i := 0 to |username|
        invariant forall j {:trigger UsernameChar(username[j])} :: 0 <= j < i ==> UsernameChar(username[j])
      {
        if !UsernameChar(username[i]) {
          return false;
        }
      }
      return true;
    }

    method HandleUser(fd: int, m: Message)
      requires fd in clients && clients[fd].fd == fd && Distinct(pollFds)
      modifies this
      ensures State() == Perform(old(State()), User(cfg, old(Relations()), fd, m)) && Distinct(pollFds)
    {
      if clients[fd].userReceived {
        SendReply(fd, 462, ":" + cfg.text(462));
        return;
      }
      var ok := RequireParams(fd, m, 4);
      if !ok {
        return;
      }
      var valid := IsValidUsername(m.params[0]);
      if !valid {
        SendReply(fd, 461, m.command + Say(cfg, 461));
        return;
      }
      ghost var c := Relations();
      var me := clients[fd].(username := m.params[0], realname := m.params[3], userReceived := true);
      RegisterRefreshed(cfg, c, me);
      clients := clients[fd := me];
      TryRegisterClient(fd);
    }

    method HandleNick(fd: int, m: Message)
      requires fd in clients && clients[fd].fd == fd && Inv(Relations()) && Distinct(pollFds)
      modifies this
      ensures State() == Perform(old(State()), Nick(cfg, old(Relations()), fd, m)) && Distinct(pollFds)
    {
      if |m.params| == 0 {
        SendReply(fd, 431, ":" + cfg.text(431));
        return;
      }
      var nickname := m.params[0];
      var valid := IsValidNickname(nickname);
      if !valid {
        SendReply(fd, 432, nickname + Say(cfg, 432));
        return;
      }
      var available := IsNicknameAvailable(nickname, fd);
      if !available {
        SendReply(fd, 433, nickname + Say(cfg, 433));
        return;
      }
      TakeNickname(fd, nickname);
    }

    /** NICK once the nickname is known to be valid and free. */
    method TakeNickname(fd: int, nickname: string)
      requires fd in clients && clients[fd].fd == fd && Inv(Relations()) && Distinct(pollFds)
      requires ValidNickname(nickname) && NickAvailable(Relations(), nickname, fd)
      modifies this
      ensures State() == Perform(old(State()), Nick(cfg, old(Relations()), fd, Message("", "NICK", [nickname])))
      ensures Distinct(pollFds)
    {
      ghost var c := Relations();
      var oldPrefix := ClientPrefix(clients[fd]);
      var wasRegistered := clients[fd].registered;
      if clients[fd].nickname != "" {
        UnregisterNickname(clients[fd].nickname);
      }
      RegisterNickname(fd, nickname);
      assert nickToFd == Renamed(c, fd, nickname).nickToFd;
      var me := clients[fd].(nickname := nickname);
      clients := clients[fd := me];
      assert Relations() == SetClient(Renamed(c, fd, nickname), me);
      if wasRegistered {
        AnnounceNickname(fd, Command(oldPrefix, "NICK", ":" + nickname), c);
      } else {
        RegisterRefreshed(cfg, Renamed(c, fd, nickname), me);
        TryRegisterClient(fd);
      }
    }

    /** The new nickname told to its owner and to the neighbours. */
    method AnnounceNickname(fd: int, notice: string, ghost c: Core)
      requires fd in clients && Inv(c) && fd in c.clients && Distinct(pollFds)
      requires Relations().channels == c.channels && clients[fd].joined == c.clients[fd].joined
      modifies this
      ensures State() == Perform(old(State()), Effect(old(Relations()),
                           [Send({fd}, notice), Send(Neighbours(c, fd), notice)]))
      ensures Distinct(pollFds)
    {
      ghost var io := Network();
      DeliverTwo(io, Send({fd}, notice), Send(Neighbours(c, fd), notice));
      JoinedFolded(c, fd);
      SameNeighbours(c, Relations(), fd);
      QueueToClient(fd, notice);
      BroadcastToSharedChannels(fd, notice);
    }

    method HandleCap(fd: int, m: Message)
      requires fd in clients && Distinct(pollFds)
      modifies this
      ensures State() == Perform(old(State()), Cap(cfg, old(Relations()), fd, m)) && Distinct(pollFds)
    {
      DeliverNothing(Network());
      if |m.params| == 0 {
        return;
      }
      var subcommand := ToUpperAscii(m.params[0]);
      if subcommand == "LS" {
        SendLine(fd, Command(cfg.serverName, "CAP", "* LS :"));
      } else if subcommand == "REQ" {
        var requested := "";
        if |m.params| >= 2 {
          requested := m.params[1];
        }
        SendLine(fd, Command(cfg.serverName, "CAP", "* NAK :" + requested));
      }
    }

    method HandlePing(fd: int, m: Message)
      requires fd in clients && Distinct(pollFds)
      modifies this
      ensures State() == Perform(old(State()), Ping(cfg, old(Relations()), fd, m)) && Distinct(pollFds)
    {
      if |m.params| == 0 || m.params[0] == "" {
        SendReply(fd, 409, ":" + cfg.text(409));
        return;
      }
      SendLine(fd, Command(cfg.serverName, "PONG", cfg.serverName + " :" + m.params[0]));
    }

    // -------------------------------------------------------------- channels

    /** The names of the members, operators marked, in ascending order. */
    method NamesOf(channel: Channel) returns (names: string)
      ensures names == NamesText(Relations(), channel, Ascending(channel.members))
    {
      names := "";
      var rest := channel.members;
      ghost var done: seq<int> := [];
      while rest != {}
        invariant Ascending(channel.members) == done + Ascending(rest)
        invariant names == NamesText(Relations(), channel, done)
        decreases |rest|
      {
        ghost var least := MinExists(rest);
        var fd: int :| fd in rest && forall x :: x in rest ==> fd <= x;
        AscendingNext(done, rest, channel.members, fd);
        NamesNext(Relations(), channel, done, fd);
        rest := rest - {fd};
        done := done + [fd];
        if fd !in clients {
          continue;
        }
        if names != "" {
          names := names + " ";
        }
        if fd in channel.operators {
          names := names + "@";
        }
        names := names + clients[fd].nickname;
      }
      assert done + Ascending({}) == done;
    }

    /** What JOIN does once the doors are open: both sides, operator if new,
        invite used up, then the notice and the four replies. */
    method AdmitClient(fd: int, k: string, created: bool)
      requires fd in clients && clients[fd].fd == fd && k in channels && channels[k].keyName == k && Fold(k) == k
      requires Distinct(pollFds)
      modifies this
      ensures State() == Perform(
        old(State()).(core := old(Relations())), Admit(cfg, old(Relations()), fd, old(channels)[k], created))
      ensures Distinct(pollFds)
    {
      ghost var io := Network();
      EnterChannel(fd, k, created);
      Announce(fd, k, io);
    }

    method EnterChannel(fd: int, k: string, created: bool)
      requires fd in clients && k in channels && channels[k].keyName == k && Fold(k) == k
      requires clients[fd].fd == fd
      modifies this`channels, this`clients
      ensures Relations() == Joined(old(Relations()), fd, old(channels)[k], created)
    {
      ghost var before := channels;
      var joined := JoinChannel(fd, k);
      assert joined;
      if created {
        UpdatedTwice(before, k, channels[k], channels[k].AddOperator(fd));
        channels := channels[k := channels[k].AddOperator(fd)];
      }
      UpdatedTwice(before, k, channels[k], channels[k].RemoveInvite(fd));
      channels := channels[k := channels[k].RemoveInvite(fd)];
    }

    method Announce(fd: int, k: string, ghost io: Io)
      requires fd in clients && k in channels && Distinct(pollFds) && Network() == io
      modifies this`ports, this`pollFds, this`pending
      ensures Network() == Deliver(io, AdmitSends(cfg, old(Relations()), fd, k)) && Distinct(pollFds)
    {
      ghost var after := Relations();
      ghost var sends := AdmitSends(cfg, after, fd, k);
      var channel := channels[k];
      DeliverNothing(io);
      assert sends[..0] == [];
      BroadcastNth(channel.members, Command(ClientPrefix(clients[fd]), "JOIN", ":" + channel.name), io, sends, 0);
      AnnounceTopic(fd, k, io, sends);
      SendNames(fd, k, io, sends);
    }

    method AnnounceTopic(fd: int, k: string, ghost io: Io, ghost sends: seq<Send>)
      requires fd in clients && k in channels && Distinct(pollFds)
      requires sends == AdmitSends(cfg, Relations(), fd, k) && Network() == Deliver(io, sends[..1])
      modifies this`ports, this`pollFds, this`pending
      ensures Network() == Deliver(io, sends[..2]) && Distinct(pollFds)
    {
      var channel := channels[k];
      if channel.topic != "" {
        QueueNth(fd, Numeric(cfg.serverName, clients[fd], 332, channel.name + " :" + channel.topic), io, sends, 1);
      } else {
        QueueNth(fd, Numeric(cfg.serverName, clients[fd], 331, channel.name + Say(cfg, 331)), io, sends, 1);
      }
    }

    method SendNames(fd: int, k: string, ghost io: Io, ghost sends: seq<Send>)
      requires fd in clients && k in channels && Distinct(pollFds)
      requires sends == AdmitSends(cfg, Relations(), fd, k) && Network() == Deliver(io, sends[..2])
      modifies this`ports, this`pollFds, this`pending
      ensures Network() == Deliver(io, sends) && Distinct(pollFds)
    {
      var channel := channels[k];
      var names := NamesOf(channel);
      QueueNth(fd, Numeric(cfg.serverName, clients[fd], 353, "= " + channel.name + " :" + names), io, sends, 2);
      QueueNth(fd, Numeric(cfg.serverName, clients[fd], 366, channel.name + Say(cfg, 366)), io, sends, 3);
      assert sends[..4] == sends;
    }

    /** One target of JOIN. */
    method JoinOneChannel(fd: int, name: string, key: string)
      requires fd in clients && clients[fd].fd == fd && Inv(Relations()) && Distinct(pollFds)
      modifies this
      ensures State() == Perform(old(State()), JoinOne(cfg, old(Relations()), fd, name, key)) && Distinct(pollFds)
    {
      ghost var c := Relations();
      DeliverNothing(Network());
      var valid := IsValidChannelName(name);
      if !valid {
        SendNoSuchChannel(fd, name);
        return;
      }
      var k := IrcCaseFold(name);
      FoldIdempotent(name);
      if k in clients[fd].joined {
        return;
      }
      if k !in channels {
        channels := channels[k := NewChannel(name, k)];
        AdmitInserted(cfg, c, fd, NewChannel(name, k));
        AdmitClient(fd, k, true);
        return;
      }
      var channel := channels[k];
      assert ChannelOk(channel, k);
      if channel.inviteOnly && fd !in channel.invited {
        SendReply(fd, 473, channel.name + Say(cfg, 473));
        return;
      }
      if !channel.MatchesKey(key) {
        SendReply(fd, 475, channel.name + Say(cfg, 475));
        return;
      }
      if channel.IsFull() {
        SendReply(fd, 471, channel.name + Say(cfg, 471));
        return;
      }
      AdmitClient(fd, k, false);
    }

    method HandleJoin(fd: int, m: Message)
      requires fd in clients && clients[fd].fd == fd && clients[fd].registered && Inv(Relations()) && Distinct(pollFds)
      modifies this
      ensures State() == Perform(old(State()), Join(cfg, old(Relations()), fd, m)) && Distinct(pollFds)
    {
      var ok := RequireParams(fd, m, 1);
      if !ok {
        return;
      }
      if m.params[0] == "0" {
        LeaveAll(fd, clients[fd].nickname);
        return;
      }
      var names := SplitCommaList(m.params[0]);
      var keys: seq<string> := [];
      if |m.params| >= 2 {
        keys := SplitCommaList(m.params[1]);
      }
      JoinList(fd, names, keys);
    }

    method JoinList(fd: int, names: seq<string>, keys: seq<string>)
      requires fd in clients && clients[fd].fd == fd && clients[fd].registered && Inv(Relations()) && Distinct(pollFds)
      modifies this
      ensures State() == Perform(old(State()), JoinUpTo(cfg, old(Relations()), fd, names, keys, |names|))
      ensures Distinct(pollFds)
    {
      ghost var v := State();
      DeliverNothing(v.io);
      for i := 0 to |names|
        invariant Distinct(pollFds)
        invariant State() == Perform(v, JoinUpTo(cfg, v.core, fd, names, keys, i))
      {
        JoinUpToRegistered(cfg, v.core, fd, names, keys, i);
        var key := if i < |keys| then keys[i] else "";
        PerformThen(v, JoinUpTo(cfg, v.core, fd, names, keys, i), JoinOne(cfg, Relations(), fd, names[i], key));
        JoinOneChannel(fd, names[i], key);
      }
    }

    /** JOIN 0: the joined set is copied, then left name by name. */
    method LeaveAll(fd: int, reason: string)
      requires fd in clients && Inv(Relations()) && Distinct(pollFds)
      modifies this
      ensures State() == (var keys := AscendingNames(old(clients)[fd].joined);
                          Perform(old(State()), LeaveUpTo(old(Relations()), fd, keys, reason, |keys|)))
      ensures Distinct(pollFds)
    {
      ghost var v := State();
      var rest := clients[fd].joined;
      ghost var keys := AscendingNames(rest);
      ghost var n := 0;
      DeliverNothing(v.io);
      JoinedFolded(v.core, fd);
      while rest != {}
        invariant n <= |keys| && keys[n..] == AscendingNames(rest)
        invariant forall k :: k in rest ==> Fold(k) == k
        invariant State() == Perform(v, LeaveUpTo(v.core, fd, keys, reason, n)) && Distinct(pollFds)
        decreases |rest|
      {
        ghost var least := LeastExists(rest);
        var k: string :| k in rest && forall x :: x in rest ==> StringLeq(k, x);
        NextName(keys, n, rest, k);
        LeaveUpToInv(v.core, fd, keys, reason, n);
        LeaveNext(v, fd, keys, reason, n);
        rest := rest - {k};
        var left := LeaveChannel(fd, k, reason, true);
        n := n + 1;
      }
      assert n == |keys|;
    }

    method HandlePart(fd: int, m: Message)
      requires fd in clients && Inv(Relations()) && Distinct(pollFds)
      modifies this
      ensures State() == Perform(old(State()), Part(cfg, old(Relations()), fd, m)) && Distinct(pollFds)
    {
      var ok := RequireParams(fd, m, 1);
      if !ok {
        return;
      }
      var names := SplitCommaList(m.params[0]);
      var reason := if |m.params| >= 2 then m.params[1] else clients[fd].nickname;
      PartList(fd, names, reason);
    }

    method PartList(fd: int, names: seq<string>, reason: string)
      requires fd in clients && Inv(Relations()) && Distinct(pollFds)
      modifies this
      ensures State() == Perform(old(State()), PartUpTo(cfg, old(Relations()), fd, names, reason, |names|))
      ensures Distinct(pollFds)
    {
      ghost var v := State();
      DeliverNothing(v.io);
      for i := 0 to |names|
        invariant Distinct(pollFds)
        invariant State() == Perform(v, PartUpTo(cfg, v.core, fd, names, reason, i))
      {
        PartUpToInv(cfg, v.core, fd, names, reason, i);
        PerformThen(v, PartUpTo(cfg, v.core, fd, names, reason, i), PartOne(cfg, Relations(), fd, names[i], reason));
        PartOneChannel(fd, names[i], reason);
      }
    }

    method PartOneChannel(fd: int, name: string, reason: string)
      requires fd in clients && Inv(Relations()) && Distinct(pollFds)
      modifies this
      ensures State() == Perform(old(State()), PartOne(cfg, old(Relations()), fd, name, reason)) && Distinct(pollFds)
    {
      var k := IrcCaseFold(name);
      FoldIdempotent(name);
      if k !in channels {
        SendNoSuchChannel(fd, name);
        return;
      }
      assert ChannelOk(channels[k], k);
      var member := RequireChannelMember(fd, channels[k]);
      if !member {
        return;
      }
      var left := LeaveChannel(fd, k, reason, true);
    }

    method HandleKick(fd: int, m: Message)
      requires fd in clients && Inv(Relations()) && Distinct(pollFds)
      modifies this
      ensures State() == Perform(old(State()), Kick(cfg, old(Relations()), fd, m)) && Distinct(pollFds)
    {
      var ok := RequireParams(fd, m, 2);
      if !ok {
        return;
      }
      var k := IrcCaseFold(m.params[0]);
      if k !in channels {
        SendNoSuchChannel(fd, m.params[0]);
        return;
      }
      ok := RequireChannelMember(fd, channels[k]);
      if !ok {
        return;
      }
      ok := RequireChannelOperator(fd, channels[k]);
      if !ok {
        return;
      }
      FoldIdempotent(m.params[0]);
      KickTarget(fd, m, k);
    }

    method KickTarget(fd: int, m: Message, k: string)
      requires fd in clients && Inv(Relations()) && Distinct(pollFds)
      requires |m.params| >= 2 && k in channels && Fold(k) == k
      modifies this
      ensures State() == Perform(old(State()), KickFrom(cfg, old(Relations()), fd, m, k)) && Distinct(pollFds)
    {
      var channel := channels[k];
      assert ChannelOk(channel, k);
      var target := FindClientByNickname(m.params[1]);
      if target == None {
        SendReply(fd, 401, m.params[1] + Say(cfg, 401));
        return;
      }
      if target.value !in channel.members {
        SendReply(fd, 441, m.params[1] + " " + channel.name + Say(cfg, 441));
        return;
      }
      var reason := if |m.params| >= 3 then m.params[2] else clients[fd].nickname;
      SendAll(channel.members, Command(ClientPrefix(clients[fd]), "KICK",
        channel.name + " " + clients[target.value].nickname + " :" + reason));
      var left := LeaveChannel(target.value, k, reason, false);
    }

    method HandleInvite(fd: int, m: Message)
      requires fd in clients && Inv(Relations()) && Distinct(pollFds)
      modifies this
      ensures State() == Perform(old(State()), Invite(cfg, old(Relations()), fd, m)) && Distinct(pollFds)
    {
      var ok := RequireParams(fd, m, 2);
      if !ok {
        return;
      }
      var target := FindClientByNickname(m.params[0]);
      if target == None {
        SendReply(fd, 401, m.params[0] + Say(cfg, 401));
        return;
      }
      var k := IrcCaseFold(m.params[1]);
      if k !in channels {
        SendNoSuchChannel(fd, m.params[1]);
        return;
      }
      ok := RequireChannelMember(fd, channels[k]);
      if !ok {
        return;
      }
      ok := RequireChannelOperator(fd, channels[k]);
      if !ok {
        return;
      }
      InviteClient(fd, target.value, k);
    }

    method InviteClient(fd: int, target: int, k: string)
      requires fd in clients && target in clients && k in channels && Inv(Relations()) && Distinct(pollFds)
      modifies this
      ensures State() == Perform(old(State()), InviteTo(cfg, old(Relations()), fd, target, old(channels)[k]))
      ensures Distinct(pollFds)
    {
      var channel := channels[k];
      assert ChannelOk(channel, k);
      var nick := clients[target].nickname;
      if target in channel.members {
        SendReply(fd, 443, nick + " " + channel.name + Say(cfg, 443));
        return;
      }
      channels := channels[k := channel.AddInvite(target)];
      var told := Numeric(cfg.serverName, clients[fd], 341, channel.name + " " + nick);
      var asked := Command(ClientPrefix(clients[fd]), "INVITE", nick + " :" + channel.name);
      QueueTwo(fd, told, target, asked);
    }

    /** A reply to one client, then a notice to another. */
    method QueueTwo(fd: int, told: string, target: int, asked: string)
      requires Distinct(pollFds)
      modifies this`ports, this`pollFds, this`pending
      ensures Network() == Deliver(old(Network()), [Send({fd}, told), Send({target}, asked)]) && Distinct(pollFds)
    {
      DeliverTwo(Network(), Send({fd}, told), Send({target}, asked));
      QueueToClient(fd, told);
      QueueToClient(target, asked);
    }

    method HandleTopic(fd: int, m: Message)
      requires fd in clients && Inv(Relations()) && Distinct(pollFds)
      modifies this
      ensures State() == Perform(old(State()), Topic(cfg, old(Relations()), fd, m)) && Distinct(pollFds)
    {
      var ok := RequireParams(fd, m, 1);
      if !ok {
        return;
      }
      var k := IrcCaseFold(m.params[0]);
      if k !in channels {
        SendNoSuchChannel(fd, m.params[0]);
        return;
      }
      ok := RequireChannelMember(fd, channels[k]);
      if !ok {
        return;
      }
      if |m.params| < 2 {
        if channels[k].topic != "" {
          SendReply(fd, 332, channels[k].name + " :" + channels[k].topic);
        } else {
          SendReply(fd, 331, channels[k].name + Say(cfg, 331));
        }
        return;
      }
      if channels[k].topicRestricted {
        ok := RequireChannelOperator(fd, channels[k]);
        if !ok {
          return;
        }
      }
      assert ChannelOk(channels[k], k);
      channels := channels[k := channels[k].(topic := m.params[1])];
      SendAll(channels[k].members,
        Command(ClientPrefix(clients[fd]), "TOPIC", channels[k].name + " :" + m.params[1]));
    }

    /** QUIT leaves its reason and a reservation; the rest comes later. */
    method HandleQuit(fd: int, m: Message)
      requires fd in clients
      modifies this`reasons, this`pending
      ensures State() == old(State()).(io := ScheduleQuit(old(Network()), fd,
        if |m.params| > 0 then m.params[0] else "Client Quit"))
    {
      var reason := if |m.params| > 0 then m.params[0] else "Client Quit";
      reasons := reasons[fd := reason];
      ScheduleDisconnect(fd);
    }

    method HandlePrivmsg(fd: int, m: Message)
      requires fd in clients && Distinct(pollFds)
      modifies this
      ensures State() == Perform(old(State()), Privmsg(cfg, old(Relations()), fd, m)) && Distinct(pollFds)
    {
      if |m.params| == 0 {
        SendReply(fd, 411, ":" + cfg.text(411));
        return;
      }
      if |m.params| < 2 || m.params[1] == "" {
        SendReply(fd, 412, ":" + cfg.text(412));
        return;
      }
      var targets := SplitCommaList(m.params[0]);
      ghost var v := State();
      DeliverNothing(v.io);
      for i := 0 to |targets|
        invariant Distinct(pollFds)
        invariant State() == Perform(v, PrivmsgUpTo(cfg, v.core, fd, targets, m.params[1], i))
      {
        PerformThen(v, PrivmsgUpTo(cfg, v.core, fd, targets, m.params[1], i),
                    PrivmsgOne(cfg, Relations(), fd, targets[i], m.params[1]));
        MessageOne(fd, targets[i], m.params[1]);
      }
    }

    method MessageOne(fd: int, target: string, text: string)
      requires fd in clients && Distinct(pollFds)
      modifies this
      ensures State() == Perform(old(State()), PrivmsgOne(cfg, old(Relations()), fd, target, text)) && Distinct(pollFds)
    {
      if target != "" && target[0] == '#' {
        var k := IrcCaseFold(target);
        if k !in channels {
          SendNoSuchChannel(fd, target);
          return;
        }
        if fd !in channels[k].members {
          SendReply(fd, 404, channels[k].name + Say(cfg, 404));
          return;
        }
        var notice := Command(ClientPrefix(clients[fd]), "PRIVMSG", channels[k].name + " :" + text);
        DeliverOne(Network(), Send(channels[k].members - {fd}, notice));
        BroadcastToChannel(channels[k].members, notice, {fd});
      } else {
        var who := FindClientByNickname(target);
        if who == None {
          SendReply(fd, 401, target + Say(cfg, 401));
          return;
        }
        SendLine(who.value, Command(ClientPrefix(clients[fd]), "PRIVMSG", clients[who.value].nickname + " :" + text));
      }
    }

    // ------------------------------------------------------------------ MODE

    method IsValidChannelKey(key: string) returns (ok: bool)
      ensures ok == ValidChannelKey(key)
    {
      if key == "" || |key| > 23 {
        return false;
      }
      for i := 0 to |key|
        invariant forall j {:trigger KeyChar(key[j])} :: 0 <= j < i ==> KeyChar(key[j])
      {
        if !KeyChar(key[i]) {
          return false;
        }
      }
      return true;
    }

    /** The words of a mode reply, one space between them. */
    method SpaceOut(first: string, rest: seq<string>) returns (text: string)
      ensures text == SpacedText([first] + rest)[1..]
    {
      text := first;
      for i := 0 to |rest|
        invariant " " + text == SpacedText([first] + rest[..i])
      {
        SpacedNext([first] + rest[..i], rest[i]);
        assert [first] + rest[..i] + [rest[i]] == [first] + rest[..i + 1];
        text := text + " " + rest[i];
      }
      assert rest[..|rest|] == rest;
    }

    /** An error reply in the middle of the mode string. */
    method TellReply(fd: int, code: int, parameters: string, run: ModeRun, ghost c: Core, ghost io: Io)
      returns (next: ModeRun)
      requires fd in clients && c.clients == clients && Distinct(pollFds) && Network() == Deliver(io, run.sends)
      modifies this`ports, this`pollFds, this`pending
      ensures next == run.Tell(ReplyTo(cfg, c, fd, code, parameters))
      ensures Network() == Deliver(io, next.sends) && Distinct(pollFds)
    {
      var reply := Numeric(cfg.serverName, clients[fd], code, parameters);
      DeliverMore(io, run.sends, Send({fd}, reply));
      QueueToClient(fd, reply);
      next := run.Tell(Send({fd}, reply));
    }

    /** appendChangedMode: the sign only when it differs from the last one. */
    method AppendChangedMode(run: ModeRun, letter: char, params: seq<string>) returns (next: ModeRun)
      ensures next == run.Announce(letter, params)
    {
      var sign := if run.adding then '+' else '-';
      var changedModes, lastSign := run.changedModes, run.lastSign;
      if lastSign != Some(sign) {
        changedModes := changedModes + [sign];
        lastSign := Some(sign);
      }
      changedModes := changedModes + [letter];
      next := run.(changedModes := changedModes, lastSign := lastSign, changedParams := run.changedParams + params);
    }

    method ModeKeyLetter(fd: int, m: Message, k: string, run: ModeRun, ghost c: Core, ghost io: Io)
      returns (next: ModeRun)
      requires fd in clients && c.clients == clients && Distinct(pollFds) && Network() == Deliver(io, run.sends)
      requires k in channels && channels[k] == run.channel
      modifies this`channels, this`ports, this`pollFds, this`pending
      ensures next == ModeKey(cfg, c, fd, m, run)
      ensures channels == old(channels)[k := next.channel]
      ensures Network() == Deliver(io, next.sends) && Distinct(pollFds)
    {
      next := run;
      if run.adding {
        if run.argIndex >= |m.params| {
          next := TellReply(fd, 461, m.command + Say(cfg, 461), run, c, io);
          return;
        }
        var key := m.params[run.argIndex];
        var valid := IsValidChannelKey(key);
        if !valid {
          next := TellReply(fd, 461, m.command + Say(cfg, 461), run, c, io);
          return;
        }
        channels := channels[k := channels[k].SetKey(key)];
        next := AppendChangedMode(run.Edit(channels[k]), 'k', [key]);
        next := next.Consume();
      } else if channels[k].keyEnabled {
        channels := channels[k := channels[k].ClearKey()];
        next := AppendChangedMode(run.Edit(channels[k]), 'k', []);
      }
    }

    method ModeOperatorLetter(fd: int, m: Message, k: string, run: ModeRun, ghost c: Core, ghost io: Io)
      returns (next: ModeRun)
      requires fd in clients && c.clients == clients && c.nickToFd == nickToFd
      requires Distinct(pollFds) && Network() == Deliver(io, run.sends)
      requires k in channels && channels[k] == run.channel
      modifies this`channels, this`ports, this`pollFds, this`pending
      ensures next == ModeOperator(cfg, c, fd, m, run)
      ensures channels == old(channels)[k := next.channel]
      ensures Network() == Deliver(io, next.sends) && Distinct(pollFds)
    {
      if run.argIndex >= |m.params| {
        next := TellReply(fd, 461, m.command + Say(cfg, 461), run, c, io);
        return;
      }
      next := ModeOperatorByName(fd, m.params[run.argIndex], k, run.Consume(), c, io);
    }

    method ModeOperatorByName(fd: int, nick: string, k: string, run: ModeRun, ghost c: Core, ghost io: Io)
      returns (next: ModeRun)
      requires fd in clients && c.clients == clients && c.nickToFd == nickToFd
      requires Distinct(pollFds) && Network() == Deliver(io, run.sends)
      requires k in channels && channels[k] == run.channel
      modifies this`channels, this`ports, this`pollFds, this`pending
      ensures next == ModeOperatorNamed(cfg, c, fd, nick, run)
      ensures channels == old(channels)[k := next.channel]
      ensures Network() == Deliver(io, next.sends) && Distinct(pollFds)
    {
      var target := FindClientByNickname(nick);
      if target == None {
        next := TellReply(fd, 401, nick + Say(cfg, 401), run, c, io);
      } else {
        next := ModeOperatorTarget(fd, nick, target.value, k, run, c, io);
      }
    }

    method ModeOperatorTarget(fd: int, nick: string, target: int, k: string, run: ModeRun, ghost c: Core, ghost io: Io)
      returns (next: ModeRun)
      requires fd in clients && target in clients && c.clients == clients
      requires Distinct(pollFds) && Network() == Deliver(io, run.sends)
      requires k in channels && channels[k] == run.channel
      modifies this`channels, this`ports, this`pollFds, this`pending
      ensures next == ModeOperatorOf(cfg, c, fd, nick, target, run)
      ensures channels == old(channels)[k := next.channel]
      ensures Network() == Deliver(io, next.sends) && Distinct(pollFds)
    {
      next := run;
      if target !in channels[k].members {
        next := TellReply(fd, 441, nick + " " + channels[k].name + Say(cfg, 441), run, c, io);
      } else if run.adding != (target in channels[k].operators) {
        next := SetOperator(k, target, run, [clients[target].nickname]);
      }
    }

    method SetOperator(k: string, target: int, run: ModeRun, params: seq<string>) returns (next: ModeRun)
      requires k in channels && channels[k] == run.channel
      modifies this`channels
      ensures next == run.Edit(if run.adding then run.channel.AddOperator(target)
                               else run.channel.RemoveOperator(target)).Announce('o', params)
      ensures channels == old(channels)[k := next.channel]
    {
      if run.adding {
        channels := channels[k := channels[k].AddOperator(target)];
      } else {
        channels := channels[k := channels[k].RemoveOperator(target)];
      }
      next := AppendChangedMode(run.Edit(channels[k]), 'o', params);
    }

    method ModeLimitLetter(fd: int, m: Message, k: string, run: ModeRun, ghost c: Core, ghost io: Io)
      returns (next: ModeRun)
      requires fd in clients && c.clients == clients && Distinct(pollFds) && Network() == Deliver(io, run.sends)
      requires k in channels && channels[k] == run.channel
      modifies this`channels, this`ports, this`pollFds, this`pending
      ensures next == ModeLimit(cfg, c, fd, m, run)
      ensures channels == old(channels)[k := next.channel]
      ensures Network() == Deliver(io, next.sends) && Distinct(pollFds)
    {
      next := run;
      if run.adding {
        if run.argIndex >= |m.params| {
          next := TellReply(fd, 461, m.command + Say(cfg, 461), run, c, io);
          return;
        }
        var arg := m.params[run.argIndex];
        next := next.Consume();
        var ok, limit := ParsePositiveSize(arg);
        if !ok || limit > MODE_MAX_USER_LIMIT {
          return;
        }
        channels := channels[k := channels[k].SetLimit(limit)];
        next := AppendChangedMode(next.Edit(channels[k]), 'l', [arg]);
      } else if channels[k].limitEnabled {
        channels := channels[k := channels[k].ClearLimit()];
        next := AppendChangedMode(run.Edit(channels[k]), 'l', []);
      }
    }

    method ModeFlagLetter(k: string, run: ModeRun, letter: char) returns (next: ModeRun)
      requires k in channels && channels[k] == run.channel
      modifies this`channels
      ensures next == ModeFlag(run, letter)
      ensures channels == old(channels)[k := next.channel]
    {
      next := run;
      if letter == 'i' {
        if channels[k].inviteOnly != run.adding {
          channels := channels[k := channels[k].(inviteOnly := run.adding)];
          next := AppendChangedMode(run.Edit(channels[k]), 'i', []);
        }
      } else if channels[k].topicRestricted != run.adding {
        channels := channels[k := channels[k].(topicRestricted := run.adding)];
        next := AppendChangedMode(run.Edit(channels[k]), 't', []);
      }
    }

    /** One character of the mode string. */
    method ModeLetter(fd: int, m: Message, k: string, letter: char, run: ModeRun, ghost c: Core, ghost io: Io)
      returns (next: ModeRun)
      requires fd in clients && c.clients == clients && c.nickToFd == nickToFd
      requires Distinct(pollFds) && Network() == Deliver(io, run.sends)
      requires k in channels && channels[k] == run.channel
      modifies this`channels, this`ports, this`pollFds, this`pending
      ensures next == ModeChar(cfg, c, fd, m, run, letter)
      ensures channels == old(channels)[k := next.channel]
      ensures Network() == Deliver(io, next.sends) && Distinct(pollFds)
    {
      assert channels[k := run.channel] == channels;
      if letter == '+' {
        return run.(adding := true, signSeen := true);
      }
      if letter == '-' {
        return run.(adding := false, signSeen := true);
      }
      if !run.signSeen {
        next := TellReply(fd, 472, [letter] + Say(cfg, 472) + channels[k].name, run, c, io);
        return;
      }
      match letter {
        case 'i' => next := ModeFlagLetter(k, run, letter);
        case 't' => next := ModeFlagLetter(k, run, letter);
        case 'k' => next := ModeKeyLetter(fd, m, k, run, c, io);
        case 'o' => next := ModeOperatorLetter(fd, m, k, run, c, io);
        case 'l' => next := ModeLimitLetter(fd, m, k, run, c, io);
        case _ => next := TellReply(fd, 472, [letter] + Say(cfg, 472) + channels[k].name, run, c, io);
      }
    }

    /** The mode string read from left to right, then one notice for all that
        changed. */
    method ChangeModes(fd: int, m: Message, k: string)
      requires fd in clients && |m.params| >= 2 && k in channels && channels[k].keyName == k && Distinct(pollFds)
      modifies this
      ensures State() == Perform(old(State()), ModeChange(cfg, old(Relations()), fd, m, old(channels)[k]))
      ensures Distinct(pollFds)
    {
      ghost var c := Relations();
      ghost var io := Network();
      var modeString := m.params[1];
      var run := ModeStart(channels[k]);
      DeliverNothing(io);
      assert channels[k := channels[k]] == channels;
      for i := 0 to |modeString|
        invariant fd in clients && c.clients == clients && c.nickToFd == nickToFd && reasons == io.reasons
        invariant Distinct(pollFds) && Network() == Deliver(io, run.sends)
        invariant channels == c.channels[k := run.channel]
        invariant run == ModeUpTo(cfg, c, fd, m, c.channels[k], modeString, i)
      {
        ghost var before := run.channel;
        run := ModeLetter(fd, m, k, modeString[i], run, c, io);
        UpdatedTwice(c.channels, k, before, run.channel);
      }
      AnnounceModes(fd, k, run, c, io);
      ModesChanged(cfg, c, fd, m, c.channels[k], run);
    }

    method AnnounceModes(fd: int, k: string, run: ModeRun, ghost c: Core, ghost io: Io)
      requires fd in clients && c.clients == clients && Distinct(pollFds) && Network() == Deliver(io, run.sends)
      requires k in channels && channels[k] == run.channel
      modifies this`ports, this`pollFds, this`pending
      ensures Network() == Deliver(io, run.sends + ModeNotice(c, fd, run)) && Distinct(pollFds)
    {
      if run.changedModes == "" {
        assert run.sends + [] == run.sends;
        return;
      }
      var words := SpaceOut(run.channel.name, [run.changedModes] + run.changedParams);
      assert [run.channel.name] + ([run.changedModes] + run.changedParams)
          == [run.channel.name, run.changedModes] + run.changedParams;
      var notice := Command(ClientPrefix(clients[fd]), "MODE", words);
      DeliverMore(io, run.sends, Send(run.channel.members, notice));
      BroadcastToChannel(run.channel.members, notice, {});
      assert run.channel.members - {} == run.channel.members;
    }

    method HandleMode(fd: int, m: Message)
      requires fd in clients && Inv(Relations()) && Distinct(pollFds)
      modifies this
      ensures State() == Perform(old(State()), Mode(cfg, old(Relations()), fd, m)) && Distinct(pollFds)
    {
      var ok := RequireParams(fd, m, 1);
      if !ok {
        return;
      }
      var target := m.params[0];
      if target == "" || target[0] != '#' {
        SendReply(fd, 421, target + Say(cfg, 421));
        return;
      }
      var k := IrcCaseFold(target);
      if k !in channels {
        SendNoSuchChannel(fd, target);
        return;
      }
      assert ChannelOk(channels[k], k);
      if |m.params| == 1 {
        var channel := channels[k];
        var reply := SpaceOut(channel.name, [channel.ModeString()] + channel.ModeParameters());
        assert [channel.name] + ([channel.ModeString()] + channel.ModeParameters())
            == [channel.name, channel.ModeString()] + channel.ModeParameters();
        SendReply(fd, 324, reply);
        return;
      }
      ok := RequireChannelMember(fd, channels[k]);
      if !ok {
        return;
      }
      ok := RequireChannelOperator(fd, channels[k]);
      if !ok {
        return;
      }
      ChangeModes(fd, m, k);
    }

    // -------------------------------------------------------------- dispatch

    /** The handler of a known command. */
    method RunHandler(fd: int, m: Message)
      requires fd in clients && clients[fd].fd == fd && Inv(Relations()) && Distinct(pollFds)
      requires NeedsRegistration(m.command) ==> clients[fd].registered
      requires m.command != "QUIT"
      modifies this
      ensures State() == Perform(old(State()), Handle(cfg, old(Relations()), fd, m)) && Distinct(pollFds)
    {
      if m.command == "PASS" {
        HandlePass(fd, m);
      } else if m.command == "NICK" {
        HandleNick(fd, m);
      } else if m.command == "USER" {
        HandleUser(fd, m);
      } else if m.command == "CAP" {
        HandleCap(fd, m);
      } else if m.command == "PING" {
        HandlePing(fd, m);
      } else {
        RunChannelHandler(fd, m);
      }
    }

    method RunChannelHandler(fd: int, m: Message)
      requires fd in clients && clients[fd].fd == fd && Inv(Relations()) && Distinct(pollFds)
      requires NeedsRegistration(m.command) ==> clients[fd].registered
      requires m.command != "PASS" && m.command != "NICK" && m.command != "USER" && m.command != "CAP"
      requires m.command != "PING"
      modifies this
      ensures State() == Perform(old(State()), Handle(cfg, old(Relations()), fd, m)) && Distinct(pollFds)
    {
      DeliverNothing(Network());
      if m.command == "JOIN" {
        HandleJoin(fd, m);
      } else if m.command == "PRIVMSG" {
        HandlePrivmsg(fd, m);
      } else if m.command == "KICK" {
        HandleKick(fd, m);
      } else if m.command == "INVITE" {
        HandleInvite(fd, m);
      } else if m.command == "TOPIC" {
        HandleTopic(fd, m);
      } else if m.command == "MODE" {
        HandleMode(fd, m);
      } else if m.command == "PART" {
        HandlePart(fd, m);
      }
    }

    /** The table scan: the first entry of the command's name, if any. */
    method FindEntry(command: string) returns (entry: Option<CommandEntry>)
      ensures entry.Some? <==> KnownCommand(command)
      ensures entry.Some? ==> entry.value.requiresRegistration == NeedsRegistration(command)
      ensures entry.Some? ==> entry.value.rejectsWhenRegistered == RejectedOnceRegistered(command)
    {
      for i := 0 to |TABLE|
        invariant forall j :: 0 <= j < i ==> TABLE[j].name != command
      {
        if TABLE[i].name == command {
          EntryMeans(i);
          return Some(TABLE[i]);
        }
      }
      NotInTable(command);
      return None;
    }

    method DispatchCommand(fd: int, m: Message)
      requires ViewOk(cfg, State())
      modifies this
      ensures State() == Execute(cfg, old(State()), fd, m)
    {
      DeliverNothing(Network());
      if fd !in clients {
        return;
      }
      assert ClientOk(clients[fd], fd);
      var entry := FindEntry(m.command);
      if entry == None {
        if clients[fd].registered {
          SendReply(fd, 421, m.command + Say(cfg, 421));
        }
        return;
      }
      if !clients[fd].registered && entry.value.requiresRegistration {
        SendReply(fd, 451, ":" + cfg.text(451));
        return;
      }
      if clients[fd].registered && entry.value.rejectsWhenRegistered {
        SendReply(fd, 462, ":" + cfg.text(462));
        return;
      }
      RunEntry(fd, m);
    }

    /** The call through the table. */
    method RunEntry(fd: int, m: Message)
      requires fd in clients && clients[fd].fd == fd && Inv(Relations()) && Distinct(pollFds)
      requires NeedsRegistration(m.command) ==> clients[fd].registered
      modifies this
      ensures State() == ReserveQuit(Perform(old(State()), Handle(cfg, old(Relations()), fd, m)), fd,
                                     QuitReason(old(Relations()), fd, m))
    {
      DeliverNothing(Network());
      if m.command == "QUIT" {
        HandleQuit(fd, m);
      } else {
        RunHandler(fd, m);
      }
    }

    method ProcessLine(fd: int, line: string)
      requires ViewOk(cfg, State())
      modifies this
      ensures State() == Line(cfg, old(State()), fd, line)
    {
      var ok, message := Parse(line);
      if !ok {
        return;
      }
      DispatchCommand(fd, message);
    }

    // ------------------------------------------------------------ connections

    /** accept, and the client entered in the maps and the poll list. */
    method AcceptClient(who: Option<(int, string)>)
      modifies this
      ensures State() == Accepted(old(State()), who)
    {
      if who == None {
        return;
      }
      var (fd, hostname) := who.value;
      var added := AddClient(fd, hostname);
      if !added {
        return;
      }
      AddClientPollFd(fd);
    }

    method AddClient(fd: int, hostname: string) returns (added: bool)
      modifies this`clients, this`ports
      ensures added <==> fd !in old(clients)
      ensures clients == if added then old(clients)[fd := NewClient(fd, hostname)] else old(clients)
      ensures ports == if added then old(ports)[fd := Port("", "", [], "")] else old(ports)
    {
      if fd in clients {
        return false;
      }
      clients := clients[fd := NewClient(fd, hostname)];
      ports := ports[fd := Port("", "", [], "")];
      return true;
    }

    method EraseReceivePrefix(fd: int, count: nat)
      requires fd in ports && count <= |ports[fd].receiveBuffer|
      modifies this`ports
      ensures State() == Trimmed(old(State()), fd, count)
    {
      ports := ports[fd := ports[fd].(receiveBuffer := ports[fd].receiveBuffer[count..])];
    }

    method GiveUpOn(fd: int, text: string)
      requires Distinct(pollFds)
      modifies this`ports, this`pollFds, this`pending
      ensures State() == GiveUp(old(State()), fd, text)
    {
      QueueToClient(fd, text);
      ScheduleDisconnect(fd);
    }

    /** receiveFromClient: `data` is what recv gave, nothing at end of stream. */
    method ReceiveFromClient(fd: int, data: string)
      requires ViewOk(cfg, State()) && fd in ports
      modifies this
      ensures State() == EventLoop.Receive(cfg, old(State()), fd, data)
    {
      if data == "" {
        ScheduleDisconnect(fd);
        return;
      }
      ghost var v := State();
      ports := ports[fd := ports[fd].(receiveBuffer := ports[fd].receiveBuffer + data)];
      if |ports[fd].receiveBuffer| > MAX_RECEIVE_BUFFER {
        GiveUpOn(fd, BUFFER_EXCEEDED);
        return;
      }
      ReceivedSteps(cfg, v, fd, data);
      DrainReceived(fd);
    }

    /** The line loop: a line is taken off the buffer and run until none is
        complete, one is too long, or the client is reserved. */
    method DrainReceived(fd: int)
      requires ViewOk(cfg, State()) && fd in ports
      modifies this
      ensures State() == DrainLines(cfg, old(State()), fd)
    {
      ghost var target := DrainLines(cfg, State(), fd);
      var done := false;
      while !done
        invariant DrainAt(cfg, State(), fd, done, target)
        decreases !done, if fd in ports then |ports[fd].receiveBuffer| else 0
      {
        done := DrainOne(fd, target);
      }
    }

    /** One turn of the line loop. */
    method DrainOne(fd: int, ghost target: View) returns (done: bool)
      requires DrainAt(cfg, State(), fd, false, target)
      modifies this
      ensures DrainAt(cfg, State(), fd, done, target)
      ensures !done ==> fd in ports && |ports[fd].receiveBuffer| < |old(ports)[fd].receiveBuffer|
    {
      match FindLine(ports[fd].receiveBuffer) {
        case Extracted(line, consumed) =>
          done := TakeLine(fd, line, consumed, target);
        case TooLong(consumed) =>
          EraseReceivePrefix(fd, consumed);
          GiveUpOn(fd, LINE_TOO_LONG);
          done := true;
        case Incomplete =>
          done := true;
      }
    }

    method TakeLine(fd: int, line: string, consumed: nat, ghost target: View) returns (done: bool)
      requires DrainAt(cfg, State(), fd, false, target)
      requires FindLine(ports[fd].receiveBuffer) == Extracted(line, consumed)
      modifies this
      ensures DrainAt(cfg, State(), fd, done, target)
      ensures !done ==> fd in ports && |ports[fd].receiveBuffer| < |old(ports)[fd].receiveBuffer|
    {
      LineTaken(cfg, State(), fd, target);
      EraseReceivePrefix(fd, consumed);
      ProcessLine(fd, line);
      done := fd in pending;
    }

    /** flushSendBuffer: `sent` is what send returned. */
    method FlushSendBuffer(fd: int, sent: int)
      requires fd in ports && Distinct(pollFds)
      modifies this`ports, this`pollFds, this`pending
      ensures State() == Flush(old(State()), fd, sent)
    {
      var port := ports[fd];
      var taken := if sent > |port.sendBuffer| then |port.sendBuffer| else sent;
      if port.sendBuffer != "" {
        if taken <= 0 {
          ScheduleDisconnect(fd);
          return;
        }
        ports := ports[fd := port.(sendBuffer := port.sendBuffer[taken..],
                                   sent := port.sent + port.sendBuffer[..taken])];
      } else {
        assert port.sent + "" == port.sent;
        assert ports[fd := port] == ports;
      }
      UpdatePollEvents(fd);
    }

    /** handleClientEvent, for what poll reported of one client. */
    method HandleClientEvent(fd: int, ev: Event)
      requires ViewOk(cfg, State()) && ev.Legal(cfg)
      modifies this
      ensures State() == ClientEvent(cfg, old(State()), fd, ev)
    {
      if fd !in clients {
        return;
      }
      if ev.invalid {
        ScheduleDisconnect(fd);
        return;
      }
      if ev.readable {
        ReceiveKeeps(cfg, State(), fd, ev.data);
        ReceiveFromClient(fd, ev.data);
        if fd in pending {
          return;
        }
      }
      HandleOutput(fd, ev);
    }

    method HandleOutput(fd: int, ev: Event)
      requires fd in ports && Distinct(pollFds)
      modifies this`ports, this`pollFds, this`pending
      ensures State() == AfterInput(old(State()), fd, ev)
    {
      if ev.writable {
        FlushSendBuffer(fd, ev.sent);
        if fd in pending {
          return;
        }
      }
      if ev.hangup {
        ScheduleDisconnect(fd);
      }
    }

    /** What the loop does with one entry. */
    method HandleEntry(i: nat, ev: Event)
      requires ViewOk(cfg, State()) && i < |pollFds| && ev.Legal(cfg)
      modifies this
      ensures State() == EntryEvent(cfg, old(State()), i, ev)
    {
      var fd := pollFds[i].fd;
      if ev.Silent() {
        return;
      }
      if fd == cfg.listenFd {
        if ev.readable {
          AcceptClient(ev.accepted);
        }
      } else {
        HandleClientEvent(fd, ev);
      }
    }

    /** One pass of eventLoop: the entries present when poll returned, in order,
        then the reserved disconnections. */
    method EventLoopPass(events: seq<Event>)
      requires ViewOk(cfg, State()) && AllSettled(State()) && LegalEvents(cfg, State(), events)
      modifies this
      ensures State() == OnePass(cfg, old(State()), events)
      ensures ViewOk(cfg, State()) && AllSettled(State())
    {
      ghost var v := State();
      PassKeeps(cfg, v, events);
      HandleEntries(events);
      ProcessPendingDisconnects();
    }

    method HandleEntries(events: seq<Event>)
      requires ViewOk(cfg, State()) && AllSettled(State()) && LegalEvents(cfg, State(), events)
      modifies this
      ensures ViewOk(cfg, State())
      ensures State() == PassUpTo(cfg, old(State()), events, |events|)
    {
      ghost var v := State();
      PassBegins(cfg, v);
      var snapshotSize := |pollFds|;
      for i := 0 to snapshotSize
        invariant MidPass(cfg, v, State(), i) && State() == PassUpTo(cfg, v, events, i)
      {
        ghost var next := PassUpToNext(cfg, v, events, i, State());
        HandleEntry(i, events[i]);
      }
    }
  }
}
