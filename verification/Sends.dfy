/** Every message the server offers is one non-empty line, because reachable
    nicknames, usernames and host names keep every prefix a safe token. */
module Sends {
  import opened IrcUtil
  import opened Domain
  import opened Ordered
  import opened Reply
  import opened Parser
  import opened Commands
  import opened Moves
  import opened CommandMoves
  import opened Delivery

  lemma NicknameIsWord(nick: string)
    requires ValidNickname(nick)
    ensures Word(nick) && SafeToken(nick)
  {
    forall i | 0 <= i < |nick| ensures TokenChar(nick[i]) {
      if i > 0 { assert NicknameChar(nick[i]); }
    }
  }

  lemma PrefixSafe(me: Client)
    requires ClientOk(me, me.fd)
    ensures SafeToken(ClientPrefix(me))
  {
    var p := ClientPrefix(me);
    var nick := if me.nickname == "" then "*" else me.nickname;
    var user := if me.username == "" then "unknown" else me.username;
    if me.nickname != "" { NicknameIsWord(nick); }
    forall i | 0 <= i < |user| ensures TokenChar(user[i]) {
      if me.username != "" { assert UsernameChar(user[i]); }
    }
    assert p == nick + "!" + user + "@" + me.hostname;
    assert p[0] == nick[0];
    forall i | 0 <= i < |p| ensures TokenChar(p[i]) {
      if i < |nick| { assert TokenChar(nick[i]); }
      else if |nick| < i < |nick| + 1 + |user| { assert TokenChar(user[i - |nick| - 1]); }
      else if i > |nick| + 1 + |user| { assert TokenChar(me.hostname[i - |nick| - |user| - 2]); }
    }
  }

  // ------------------------------------------------------------ the welcome

  /** A 001 line, of any server, to anyone, with any text. */
  ghost predicate IsWelcome(s: string) {
    s != "" && exists server: string, me: Client, text: string :: s == Numeric(server, me, 1, text)
  }

  lemma WelcomeVerb(s: string)
    requires IsWelcome(s)
    ensures Verb(s) == "001"
  {
    var server, me, text :| s == Numeric(server, me, 1, text);
    VerbOfNumeric(server, me, 1, text);
    DigitsSafe(1);
  }

  lemma NotWelcome(s: string)
    requires Verb(s) != "001"
    ensures !IsWelcome(s)
  {
    if IsWelcome(s) { WelcomeVerb(s); }
  }

  /** A line of the server other than 001. */
  ghost predicate PlainLine(s: string) { GoodLine(s) && !IsWelcome(s) }

  ghost predicate PlainSends(sends: seq<Send>) {
    forall i {:trigger sends[i]} :: 0 <= i < |sends| ==> PlainLine(sends[i].text)
  }

  predicate Registers(c: Core, d: Core, fd: int) {
    fd in c.clients && fd in d.clients && !c.clients[fd].registered && d.clients[fd].registered
  }

  /** The sender is welcomed exactly when the command registers it; otherwise no
      line offered is a 001. */
  ghost predicate Greets(cfg: Config, c: Core, fd: int, e: Effect) {
    fd in e.core.clients &&
    if Registers(c, e.core, fd) then ClientOk(e.core.clients[fd], fd) && e.sends == Welcome(cfg, e.core.clients[fd])
    else PlainSends(e.sends)
  }

  lemma NumericGood(cfg: Config, me: Client, code: int, parameters: string)
    requires SafeToken(cfg.serverName) && ClientOk(me, me.fd) && 0 <= code <= 999
    ensures var line := Numeric(cfg.serverName, me, code, parameters);
      GoodLine(line) && (IsWelcome(line) <==> code == 1)
  {
    if me.nickname != "" { NicknameIsWord(me.nickname); }
    assert SafeToken("*");
    if code != 1 {
      VerbOfNumeric(cfg.serverName, me, code, parameters);
      DigitsSafe(code);
      NotWelcome(Numeric(cfg.serverName, me, code, parameters));
    }
  }

  /** Of the welcome sequence the first line is the 001, and no other. */
  lemma WelcomeLines(cfg: Config, me: Client)
    requires SafeToken(cfg.serverName) && ClientOk(me, me.fd)
    ensures GoodSends(Welcome(cfg, me)) && IsWelcome(Welcome(cfg, me)[0].text)
    ensures PlainSends(Welcome(cfg, me)[1..])
  {
    NumericGood(cfg, me, 1, ":" + cfg.text(1) + ClientPrefix(me));
    NumericGood(cfg, me, 2, ":" + cfg.text(2));
    NumericGood(cfg, me, 3, ":" + cfg.text(3));
    NumericGood(cfg, me, 4, cfg.serverName + cfg.text(4));
    NumericGood(cfg, me, 422, ":" + cfg.text(422));
  }

  /** What tryRegisterClient offers, the record being `me` before it. */
  lemma RegisterGreets(cfg: Config, c: Core, base: Core, me: Client)
    requires me.fd in c.clients && me.registered == c.clients[me.fd].registered
    requires me.Complete() ==> ClientOk(me.(registered := true), me.fd)
    ensures Greets(cfg, c, me.fd, Register(cfg, base, me))
  {
  }

  /** A command that leaves the sender as registered as it was. */
  lemma PlainGreets(cfg: Config, c: Core, fd: int, e: Effect)
    requires fd in c.clients && fd in e.core.clients && PlainSends(e.sends)
    requires e.core.clients[fd].registered ==> c.clients[fd].registered
    ensures Greets(cfg, c, fd, e)
  {
  }

  lemma PassGreets(cfg: Config, c: Core, fd: int, m: Message)
    requires SafeToken(cfg.serverName) && Inv(c) && fd in c.clients
    ensures Greets(cfg, c, fd, Pass(cfg, c, fd, m))
  {
    AnswerGood(cfg, c, fd, 461, m.command + Say(cfg, 461));
    AnswerGood(cfg, c, fd, 464, ":" + cfg.text(464));
    assert ClientOk(c.clients[fd], fd);
    RegisterGreets(cfg, c, c, c.clients[fd].(passwordAccepted := true));
  }

  lemma UserGreets(cfg: Config, c: Core, fd: int, m: Message)
    requires SafeToken(cfg.serverName) && Inv(c) && fd in c.clients
    ensures Greets(cfg, c, fd, User(cfg, c, fd, m))
  {
    AnswerGood(cfg, c, fd, 461, m.command + Say(cfg, 461));
    AnswerGood(cfg, c, fd, 462, ":" + cfg.text(462));
    assert ClientOk(c.clients[fd], fd);
    if |m.params| >= 4 && ValidUsername(m.params[0]) {
      RegisterGreets(cfg, c, c,
        c.clients[fd].(username := m.params[0], realname := m.params[3], userReceived := true));
    }
  }

  lemma NickGreets(cfg: Config, c: Core, fd: int, m: Message)
    requires SafeToken(cfg.serverName) && Inv(c) && fd in c.clients
    ensures Greets(cfg, c, fd, Nick(cfg, c, fd, m))
  {
    AnswerGood(cfg, c, fd, 431, ":" + cfg.text(431));
    assert ClientOk(c.clients[fd], fd);
    if |m.params| > 0 {
      var nickname := m.params[0];
      AnswerGood(cfg, c, fd, 432, nickname + Say(cfg, 432));
      AnswerGood(cfg, c, fd, 433, nickname + Say(cfg, 433));
      NoticeGood(c, fd, "NICK", ":" + nickname);
      if ValidNickname(nickname) {
        RegisterGreets(cfg, c, Renamed(c, fd, nickname), c.clients[fd].(nickname := nickname));
      }
    }
  }

  // ------------------------------------------------------- every other line

  lemma ReplyGood(cfg: Config, c: Core, fd: int, code: int, parameters: string)
    requires SafeToken(cfg.serverName) && Inv(c) && fd in c.clients && 2 <= code <= 999
    ensures PlainLine(ReplyTo(cfg, c, fd, code, parameters).text)
  {
    NumericGood(cfg, c.clients[fd], code, parameters);
  }

  lemma NoticeGood(c: Core, fd: int, command: string, parameters: string)
    requires Inv(c) && fd in c.clients && SafeToken(command) && command != "001"
    ensures PlainLine(Notice(c, fd, command, parameters))
  {
    assert ClientOk(c.clients[fd], fd);
    PrefixSafe(c.clients[fd]);
    VerbOfCommand(ClientPrefix(c.clients[fd]), command, parameters);
    NotWelcome(Notice(c, fd, command, parameters));
  }

  lemma AnswerGood(cfg: Config, c: Core, fd: int, code: int, parameters: string)
    requires SafeToken(cfg.serverName) && Inv(c) && fd in c.clients && 2 <= code <= 999
    ensures PlainSends(Answer(cfg, c, fd, code, parameters).sends)
  {
    ReplyGood(cfg, c, fd, code, parameters);
  }

  lemma GoodAppend(a: seq<Send>, b: seq<Send>)
    requires PlainSends(a) && PlainSends(b)
    ensures PlainSends(a + b)
  {
    forall i | 0 <= i < |a + b| ensures PlainLine((a + b)[i].text) {
      if i < |a| { assert PlainLine(a[i].text); } else { assert PlainLine(b[i - |a|].text); }
    }
  }

  lemma ServerLineGood(cfg: Config, command: string, parameters: string)
    requires SafeToken(cfg.serverName) && SafeToken(command) && command != "001"
    ensures PlainLine(Command(cfg.serverName, command, parameters))
  {
    VerbOfCommand(cfg.serverName, command, parameters);
    NotWelcome(Command(cfg.serverName, command, parameters));
  }

  lemma CapPingGood(cfg: Config, c: Core, fd: int, m: Message)
    requires SafeToken(cfg.serverName) && Inv(c) && fd in c.clients
    ensures PlainSends(Cap(cfg, c, fd, m).sends) && PlainSends(Ping(cfg, c, fd, m).sends)
  {
    AnswerGood(cfg, c, fd, 409, ":" + cfg.text(409));
    ServerLineGood(cfg, "CAP", "* LS :");
    if |m.params| >= 1 {
      ServerLineGood(cfg, "CAP", "* NAK :" + if |m.params| >= 2 then m.params[1] else "");
      ServerLineGood(cfg, "PONG", cfg.serverName + " :" + m.params[0]);
    }
  }

  lemma FourPlain(a: Send, b: Send, c: Send, d: Send)
    requires PlainLine(a.text) && PlainLine(b.text) && PlainLine(c.text) && PlainLine(d.text)
    ensures PlainSends([a, b, c, d])
  {
  }

  lemma AdmitGood(cfg: Config, c: Core, fd: int, channel: Channel, created: bool)
    requires SafeToken(cfg.serverName) && Inv(c) && fd in c.clients && c.clients[fd].fd == fd
    requires Allowed(c, fd, Enter(fd, channel, created))
    ensures PlainSends(Admit(cfg, c, fd, channel, created).sends)
  {
    MoveKeeps(c, fd, Enter(fd, channel, created));
    var sends := Admit(cfg, c, fd, channel, created).sends;
    AdmitLinesGood(cfg, Joined(c, fd, channel, created), fd, channel.keyName);
    FourPlain(sends[0], sends[1], sends[2], sends[3]);
    assert sends == [sends[0], sends[1], sends[2], sends[3]];
  }

  lemma TopicReplyGood(cfg: Config, c: Core, fd: int, channel: Channel)
    requires SafeToken(cfg.serverName) && Inv(c) && fd in c.clients
    ensures PlainLine(TopicReply(cfg, c, fd, channel).text)
  {
    ReplyGood(cfg, c, fd, 332, channel.name + " :" + channel.topic);
    ReplyGood(cfg, c, fd, 331, channel.name + Say(cfg, 331));
  }

  lemma AdmitLinesGood(cfg: Config, after: Core, fd: int, k: string)
    requires SafeToken(cfg.serverName) && Inv(after) && fd in after.clients && k in after.channels
    ensures var grown := after.channels[k];
      && PlainLine(Notice(after, fd, "JOIN", ":" + grown.name))
      && PlainLine(TopicReply(cfg, after, fd, grown).text)
      && PlainLine(ReplyTo(cfg, after, fd, 353,
           "= " + grown.name + " :" + NamesText(after, grown, Ascending(grown.members))).text)
      && PlainLine(ReplyTo(cfg, after, fd, 366, grown.name + Say(cfg, 366)).text)
  {
    var grown := after.channels[k];
    NoticeGood(after, fd, "JOIN", ":" + grown.name);
    TopicReplyGood(cfg, after, fd, grown);
    ReplyGood(cfg, after, fd, 353, "= " + grown.name + " :" + NamesText(after, grown, Ascending(grown.members)));
    ReplyGood(cfg, after, fd, 366, grown.name + Say(cfg, 366));
  }

  lemma JoinOneGood(cfg: Config, c: Core, fd: int, name: string, key: string)
    requires SafeToken(cfg.serverName) && Inv(c) && fd in c.clients && c.clients[fd].registered
    ensures c.clients[fd].fd == fd
    ensures PlainSends(JoinOne(cfg, c, fd, name, key).sends)
  {
    assert ClientOk(c.clients[fd], fd);
    AnswerGood(cfg, c, fd, 403, name + Say(cfg, 403));
    var k := Fold(name);
    if ValidChannelName(name) && k !in c.clients[fd].joined {
      assert !HasJoined(c, fd, k);
      if k !in c.channels {
        AdmitGood(cfg, c, fd, NewChannel(name, k), true);
      } else {
        var channel := c.channels[k];
        AnswerGood(cfg, c, fd, 473, channel.name + Say(cfg, 473));
        AnswerGood(cfg, c, fd, 475, channel.name + Say(cfg, 475));
        AnswerGood(cfg, c, fd, 471, channel.name + Say(cfg, 471));
        assert ChannelOk(channel, k) && !HasMember(c, fd, k);
        if (channel.inviteOnly ==> fd in channel.invited) && !channel.IsFull() {
          AdmitGood(cfg, c, fd, channel, false);
        }
      }
    }
  }

  lemma {:induction false} JoinUpToGood(cfg: Config, c: Core, fd: int, names: seq<string>,
                                        keys: seq<string>, n: nat) returns (e: Effect)
    requires SafeToken(cfg.serverName) && Inv(c) && fd in c.clients && c.clients[fd].registered
    requires n <= |names|
    ensures c.clients[fd].fd == fd
    ensures e == JoinUpTo(cfg, c, fd, names, keys, n) && PlainSends(e.sends)
  {
    assert ClientOk(c.clients[fd], fd);
    if n == 0 {
      e := Effect(c, []);
    } else {
      var first := JoinUpToGood(cfg, c, fd, names, keys, n - 1);
      JoinUpToRegistered(cfg, c, fd, names, keys, n - 1);
      var key := if n - 1 < |keys| then keys[n - 1] else "";
      var next := JoinOne(cfg, first.core, fd, names[n - 1], key);
      JoinOneGood(cfg, first.core, fd, names[n - 1], key);
      GoodAppend(first.sends, next.sends);
      e := first.Then(next);
    }
  }

  lemma LeaveGood(c: Core, fd: int, k: string, reason: string)
    requires Inv(c) && fd in c.clients && k in c.channels
    ensures PlainSends(Leave(c, fd, k, reason).sends)
  {
    NoticeGood(c, fd, "PART", c.channels[k].name + " :" + reason);
  }

  lemma {:induction false} LeaveUpToGood(c: Core, fd: int, keys: seq<string>, reason: string, n: nat)
    returns (e: Effect)
    requires Inv(c) && fd in c.clients && n <= |keys|
    ensures e == LeaveUpTo(c, fd, keys, reason, n) && PlainSends(e.sends)
  {
    if n == 0 {
      e := Effect(c, []);
    } else {
      var first := LeaveUpToGood(c, fd, keys, reason, n - 1);
      LeaveUpToInv(c, fd, keys, reason, n - 1);
      var k := Fold(keys[n - 1]);
      LeaveNextGood(first, fd, k, reason);
      e := if k in first.core.channels && fd in first.core.channels[k].members
           then first.Then(Leave(first.core, fd, k, reason)) else first;
    }
  }

  lemma LeaveUpToInv(c: Core, fd: int, keys: seq<string>, reason: string, n: nat)
    requires Inv(c) && fd in c.clients && n <= |keys|
    ensures Inv(LeaveUpTo(c, fd, keys, reason, n).core)
  {
    var deeds := LeaveUpToDeeds(c, fd, keys, reason, n);
    RunKeeps(c, deeds);
  }

  lemma LeaveNextGood(e: Effect, fd: int, k: string, reason: string)
    requires Inv(e.core) && fd in e.core.clients && PlainSends(e.sends)
    ensures k in e.core.channels ==> PlainSends(e.Then(Leave(e.core, fd, k, reason)).sends)
  {
    if k in e.core.channels {
      LeaveGood(e.core, fd, k, reason);
      GoodAppend(e.sends, Leave(e.core, fd, k, reason).sends);
    }
  }

  lemma PartOneGood(cfg: Config, c: Core, fd: int, name: string, reason: string)
    requires SafeToken(cfg.serverName) && Inv(c) && fd in c.clients
    ensures PlainSends(PartOne(cfg, c, fd, name, reason).sends)
  {
    AnswerGood(cfg, c, fd, 403, name + Say(cfg, 403));
    var k := Fold(name);
    if k in c.channels {
      AnswerGood(cfg, c, fd, 442, c.channels[k].name + Say(cfg, 442));
      LeaveGood(c, fd, k, reason);
    }
  }

  lemma PartNextGood(cfg: Config, e: Effect, fd: int, name: string, reason: string)
    requires SafeToken(cfg.serverName) && Inv(e.core) && fd in e.core.clients && PlainSends(e.sends)
    ensures PlainSends(e.Then(PartOne(cfg, e.core, fd, name, reason)).sends)
  {
    PartOneGood(cfg, e.core, fd, name, reason);
    GoodAppend(e.sends, PartOne(cfg, e.core, fd, name, reason).sends);
  }

  lemma {:induction false} PartUpToGood(cfg: Config, c: Core, fd: int, names: seq<string>, reason: string, n: nat)
    returns (e: Effect)
    requires SafeToken(cfg.serverName) && Inv(c) && fd in c.clients && n <= |names|
    ensures e == PartUpTo(cfg, c, fd, names, reason, n) && PlainSends(e.sends)
  {
    if n == 0 {
      e := Effect(c, []);
    } else {
      var first := PartUpToGood(cfg, c, fd, names, reason, n - 1);
      PartUpToInv(cfg, c, fd, names, reason, n - 1);
      PartNextGood(cfg, first, fd, names[n - 1], reason);
      e := first.Then(PartOne(cfg, first.core, fd, names[n - 1], reason));
    }
  }

  lemma JoinGood(cfg: Config, c: Core, fd: int, m: Message)
    requires SafeToken(cfg.serverName) && Inv(c) && fd in c.clients && c.clients[fd].registered
    ensures c.clients[fd].fd == fd && PlainSends(Join(cfg, c, fd, m).sends)
  {
    assert ClientOk(c.clients[fd], fd);
    AnswerGood(cfg, c, fd, 461, m.command + Say(cfg, 461));
    if |m.params| >= 1 {
      if m.params[0] == "0" {
        var keys := AscendingNames(c.clients[fd].joined);
        var e := LeaveUpToGood(c, fd, keys, c.clients[fd].nickname, |keys|);
      } else {
        var names := SplitComma(m.params[0]);
        var keys := if |m.params| >= 2 then SplitComma(m.params[1]) else [];
        var e := JoinUpToGood(cfg, c, fd, names, keys, |names|);
      }
    }
  }

  lemma PartGood(cfg: Config, c: Core, fd: int, m: Message)
    requires SafeToken(cfg.serverName) && Inv(c) && fd in c.clients
    ensures PlainSends(Part(cfg, c, fd, m).sends)
  {
    AnswerGood(cfg, c, fd, 461, m.command + Say(cfg, 461));
    if |m.params| >= 1 {
      var names := SplitComma(m.params[0]);
      var reason := if |m.params| >= 2 then m.params[1] else c.clients[fd].nickname;
      var e := PartUpToGood(cfg, c, fd, names, reason, |names|);
    }
  }

  /** The refusals common to commands on a channel. */
  lemma RefusalsGood(cfg: Config, c: Core, fd: int, m: Message, name: string, channel: Channel)
    requires SafeToken(cfg.serverName) && Inv(c) && fd in c.clients
    ensures PlainSends(NeedParams(cfg, c, fd, m).sends)
    ensures PlainSends(NoSuchChannel(cfg, c, fd, name).sends)
    ensures PlainSends(NotOnChannel(cfg, c, fd, channel).sends)
    ensures PlainSends(NotOperator(cfg, c, fd, channel).sends)
  {
    AnswerGood(cfg, c, fd, 461, m.command + Say(cfg, 461));
    AnswerGood(cfg, c, fd, 403, name + Say(cfg, 403));
    AnswerGood(cfg, c, fd, 442, channel.name + Say(cfg, 442));
    AnswerGood(cfg, c, fd, 482, channel.name + Say(cfg, 482));
  }

  lemma KickFromGood(cfg: Config, c: Core, fd: int, m: Message, k: string)
    requires SafeToken(cfg.serverName) && Inv(c) && fd in c.clients && |m.params| >= 2 && k in c.channels
    ensures PlainSends(KickFrom(cfg, c, fd, m, k).sends)
  {
    var channel := c.channels[k];
    var nick := m.params[1];
    AnswerGood(cfg, c, fd, 401, nick + Say(cfg, 401));
    AnswerGood(cfg, c, fd, 441, nick + " " + channel.name + Say(cfg, 441));
    var target := FindNick(c, nick);
    if target.Some? {
      var reason := if |m.params| >= 3 then m.params[2] else c.clients[fd].nickname;
      NoticeGood(c, fd, "KICK", channel.name + " " + c.clients[target.value].nickname + " :" + reason);
    }
  }

  lemma KickGood(cfg: Config, c: Core, fd: int, m: Message)
    requires SafeToken(cfg.serverName) && Inv(c) && fd in c.clients
    ensures PlainSends(Kick(cfg, c, fd, m).sends)
  {
    RefusalsGood(cfg, c, fd, m, "", NewChannel("", ""));
    if |m.params| >= 2 {
      var k := Fold(m.params[0]);
      RefusalsGood(cfg, c, fd, m, m.params[0], NewChannel("", ""));
      if k in c.channels {
        RefusalsGood(cfg, c, fd, m, m.params[0], c.channels[k]);
        KickFromGood(cfg, c, fd, m, k);
      }
    }
  }

  lemma InviteToGood(cfg: Config, c: Core, fd: int, target: int, channel: Channel)
    requires SafeToken(cfg.serverName) && Inv(c) && fd in c.clients && target in c.clients
    ensures PlainSends(InviteTo(cfg, c, fd, target, channel).sends)
  {
    var nick := c.clients[target].nickname;
    AnswerGood(cfg, c, fd, 443, nick + " " + channel.name + Say(cfg, 443));
    ReplyGood(cfg, c, fd, 341, channel.name + " " + nick);
    NoticeGood(c, fd, "INVITE", nick + " :" + channel.name);
  }

  lemma InviteGood(cfg: Config, c: Core, fd: int, m: Message)
    requires SafeToken(cfg.serverName) && Inv(c) && fd in c.clients
    ensures PlainSends(Invite(cfg, c, fd, m).sends)
  {
    RefusalsGood(cfg, c, fd, m, "", NewChannel("", ""));
    if |m.params| >= 2 {
      var k := Fold(m.params[1]);
      var target := FindNick(c, m.params[0]);
      AnswerGood(cfg, c, fd, 401, m.params[0] + Say(cfg, 401));
      RefusalsGood(cfg, c, fd, m, m.params[1], NewChannel("", ""));
      if k in c.channels && target.Some? {
        RefusalsGood(cfg, c, fd, m, m.params[1], c.channels[k]);
        InviteToGood(cfg, c, fd, target.value, c.channels[k]);
      }
    }
  }

  lemma TopicGood(cfg: Config, c: Core, fd: int, m: Message)
    requires SafeToken(cfg.serverName) && Inv(c) && fd in c.clients
    ensures PlainSends(Topic(cfg, c, fd, m).sends)
  {
    RefusalsGood(cfg, c, fd, m, "", NewChannel("", ""));
    if |m.params| >= 1 {
      var k := Fold(m.params[0]);
      RefusalsGood(cfg, c, fd, m, m.params[0], NewChannel("", ""));
      if k in c.channels {
        var channel := c.channels[k];
        RefusalsGood(cfg, c, fd, m, m.params[0], channel);
        TopicReplyGood(cfg, c, fd, channel);
        if |m.params| >= 2 { NoticeGood(c, fd, "TOPIC", channel.name + " :" + m.params[1]); }
      }
    }
  }

  lemma PrivmsgOneGood(cfg: Config, c: Core, fd: int, target: string, text: string)
    requires SafeToken(cfg.serverName) && Inv(c) && fd in c.clients
    ensures PlainSends(PrivmsgOne(cfg, c, fd, target, text).sends)
  {
    AnswerGood(cfg, c, fd, 401, target + Say(cfg, 401));
    AnswerGood(cfg, c, fd, 403, target + Say(cfg, 403));
    var k := Fold(target);
    if k in c.channels {
      AnswerGood(cfg, c, fd, 404, c.channels[k].name + Say(cfg, 404));
      NoticeGood(c, fd, "PRIVMSG", c.channels[k].name + " :" + text);
    }
    var who := FindNick(c, target);
    if who.Some? { NoticeGood(c, fd, "PRIVMSG", c.clients[who.value].nickname + " :" + text); }
  }

  lemma {:induction false} PrivmsgUpToGood(cfg: Config, c: Core, fd: int, targets: seq<string>, text: string, n: nat)
    requires SafeToken(cfg.serverName) && Inv(c) && fd in c.clients && n <= |targets|
    ensures PlainSends(PrivmsgUpTo(cfg, c, fd, targets, text, n).sends)
  {
    if n > 0 {
      PrivmsgUpToGood(cfg, c, fd, targets, text, n - 1);
      PrivmsgOneGood(cfg, c, fd, targets[n - 1], text);
      GoodAppend(PrivmsgUpTo(cfg, c, fd, targets, text, n - 1).sends,
                 PrivmsgOne(cfg, c, fd, targets[n - 1], text).sends);
    }
  }

  lemma PrivmsgGood(cfg: Config, c: Core, fd: int, m: Message)
    requires SafeToken(cfg.serverName) && Inv(c) && fd in c.clients
    ensures PlainSends(Privmsg(cfg, c, fd, m).sends)
  {
    AnswerGood(cfg, c, fd, 411, ":" + cfg.text(411));
    AnswerGood(cfg, c, fd, 412, ":" + cfg.text(412));
    if |m.params| >= 2 {
      var targets := SplitComma(m.params[0]);
      PrivmsgUpToGood(cfg, c, fd, targets, m.params[1], |targets|);
    }
  }

  lemma TellPlain(r: ModeRun, send: Send)
    requires PlainSends(r.sends) && PlainLine(send.text)
    ensures PlainSends(r.Tell(send).sends)
  {
  }

  lemma ModeOperatorGood(cfg: Config, c: Core, fd: int, nick: string, r: ModeRun)
    requires SafeToken(cfg.serverName) && Inv(c) && fd in c.clients && PlainSends(r.sends)
    ensures PlainSends(ModeOperatorNamed(cfg, c, fd, nick, r).sends)
  {
    ReplyGood(cfg, c, fd, 401, nick + Say(cfg, 401));
    ReplyGood(cfg, c, fd, 441, nick + " " + r.channel.name + Say(cfg, 441));
    TellPlain(r, ReplyTo(cfg, c, fd, 401, nick + Say(cfg, 401)));
    TellPlain(r, ReplyTo(cfg, c, fd, 441, nick + " " + r.channel.name + Say(cfg, 441)));
  }

  lemma ModeRefusalsGood(cfg: Config, c: Core, fd: int, m: Message, r: ModeRun, letter: char)
    requires SafeToken(cfg.serverName) && Inv(c) && fd in c.clients && PlainSends(r.sends)
    ensures PlainSends(UnknownMode(cfg, c, fd, r, letter).sends)
    ensures PlainSends(ModeNeedsParam(cfg, c, fd, m, r).sends)
  {
    ReplyGood(cfg, c, fd, 472, [letter] + Say(cfg, 472) + r.channel.name);
    ReplyGood(cfg, c, fd, 461, m.command + Say(cfg, 461));
    TellPlain(r, ReplyTo(cfg, c, fd, 472, [letter] + Say(cfg, 472) + r.channel.name));
    TellPlain(r, ReplyTo(cfg, c, fd, 461, m.command + Say(cfg, 461)));
  }

  lemma ModeCharGood(cfg: Config, c: Core, fd: int, m: Message, r: ModeRun, letter: char)
    requires SafeToken(cfg.serverName) && Inv(c) && fd in c.clients && PlainSends(r.sends)
    ensures PlainSends(ModeChar(cfg, c, fd, m, r, letter).sends)
  {
    ModeRefusalsGood(cfg, c, fd, m, r, letter);
    if r.argIndex < |m.params| { ModeOperatorGood(cfg, c, fd, m.params[r.argIndex], r.Consume()); }
  }

  lemma {:induction false} ModeUpToGood(cfg: Config, c: Core, fd: int, m: Message, channel: Channel,
                                        modes: string, n: nat)
    requires SafeToken(cfg.serverName) && Inv(c) && fd in c.clients && n <= |modes|
    ensures PlainSends(ModeUpTo(cfg, c, fd, m, channel, modes, n).sends)
  {
    if n > 0 {
      ModeUpToGood(cfg, c, fd, m, channel, modes, n - 1);
      ModeCharGood(cfg, c, fd, m, ModeUpTo(cfg, c, fd, m, channel, modes, n - 1), modes[n - 1]);
    }
  }

  lemma ModeChangeGood(cfg: Config, c: Core, fd: int, m: Message, channel: Channel)
    requires SafeToken(cfg.serverName) && Inv(c) && fd in c.clients && |m.params| >= 2
    ensures PlainSends(ModeChange(cfg, c, fd, m, channel).sends)
  {
    var modes := m.params[1];
    var r := ModeUpTo(cfg, c, fd, m, channel, modes, |modes|);
    ModeUpToGood(cfg, c, fd, m, channel, modes, |modes|);
    NoticeGood(c, fd, "MODE", SpacedText([r.channel.name, r.changedModes] + r.changedParams)[1..]);
    GoodAppend(r.sends, ModeNotice(c, fd, r));
  }

  lemma ChannelModeGood(cfg: Config, c: Core, fd: int, m: Message, channel: Channel)
    requires SafeToken(cfg.serverName) && Inv(c) && fd in c.clients && |m.params| >= 1
    ensures PlainSends(NotOnChannel(cfg, c, fd, channel).sends) && PlainSends(NotOperator(cfg, c, fd, channel).sends)
    ensures PlainSends(Answer(cfg, c, fd, 324,
      SpacedText([channel.name, channel.ModeString()] + channel.ModeParameters())[1..]).sends)
    ensures |m.params| >= 2 ==> PlainSends(ModeChange(cfg, c, fd, m, channel).sends)
  {
    RefusalsGood(cfg, c, fd, m, m.params[0], channel);
    AnswerGood(cfg, c, fd, 324, SpacedText([channel.name, channel.ModeString()] + channel.ModeParameters())[1..]);
    if |m.params| >= 2 { ModeChangeGood(cfg, c, fd, m, channel); }
  }

  lemma ModeGood(cfg: Config, c: Core, fd: int, m: Message)
    requires SafeToken(cfg.serverName) && Inv(c) && fd in c.clients
    ensures PlainSends(Mode(cfg, c, fd, m).sends)
  {
    RefusalsGood(cfg, c, fd, m, if |m.params| >= 1 then m.params[0] else "", NewChannel("", ""));
    if |m.params| >= 1 {
      AnswerGood(cfg, c, fd, 421, m.params[0] + Say(cfg, 421));
      if Fold(m.params[0]) in c.channels { ChannelModeGood(cfg, c, fd, m, c.channels[Fold(m.params[0])]); }
    }
  }

  /** Every handler but those of PASS, NICK and USER offers plain lines only. */
  lemma HandlePlain(cfg: Config, c: Core, fd: int, m: Message)
    requires SafeToken(cfg.serverName) && Inv(c) && fd in c.clients && c.clients[fd].fd == fd
    requires NeedsRegistration(m.command) ==> c.clients[fd].registered
    requires m.command != "PASS" && m.command != "NICK" && m.command != "USER"
    ensures PlainSends(Handle(cfg, c, fd, m).sends)
  {
    match m.command {
      case "CAP" => CapPingGood(cfg, c, fd, m);
      case "PING" => CapPingGood(cfg, c, fd, m);
      case "JOIN" => JoinGood(cfg, c, fd, m);
      case "PRIVMSG" => PrivmsgGood(cfg, c, fd, m);
      case "KICK" => KickGood(cfg, c, fd, m);
      case "INVITE" => InviteGood(cfg, c, fd, m);
      case "TOPIC" => TopicGood(cfg, c, fd, m);
      case "MODE" => ModeGood(cfg, c, fd, m);
      case "PART" => PartGood(cfg, c, fd, m);
      case _ =>
    }
  }

  lemma HandleGreets(cfg: Config, c: Core, fd: int, m: Message)
    requires SafeToken(cfg.serverName) && Inv(c) && fd in c.clients && c.clients[fd].fd == fd
    requires NeedsRegistration(m.command) ==> c.clients[fd].registered
    ensures Greets(cfg, c, fd, Handle(cfg, c, fd, m))
  {
    if m.command == "PASS" { PassGreets(cfg, c, fd, m); }
    else if m.command == "NICK" { NickGreets(cfg, c, fd, m); }
    else if m.command == "USER" { UserGreets(cfg, c, fd, m); }
    else {
      HandlePlain(cfg, c, fd, m);
      var deeds := HandleDeeds(cfg, c, fd, m);
      SameConnections(c, deeds, fd);
      assert NeedsRegistration(m.command) || Handle(cfg, c, fd, m).core == c;
      PlainGreets(cfg, c, fd, Handle(cfg, c, fd, m));
    }
  }

  /** A command that registers its sender offers it the welcome sequence and
      nothing else; any other command, from anyone, offers no 001 at all. */
  lemma DispatchGreets(cfg: Config, c: Core, fd: int, m: Message)
    requires SafeToken(cfg.serverName) && Inv(c) && fd in c.clients
    ensures c.clients[fd].fd == fd && Greets(cfg, c, fd, Dispatch(cfg, c, fd, m))
  {
    assert ClientOk(c.clients[fd], fd);
    AnswerGood(cfg, c, fd, 421, m.command + Say(cfg, 421));
    AnswerGood(cfg, c, fd, 451, ":" + cfg.text(451));
    AnswerGood(cfg, c, fd, 462, ":" + cfg.text(462));
    var registered := c.clients[fd].registered;
    if KnownCommand(m.command) && (registered || !NeedsRegistration(m.command)) {
      HandleGreets(cfg, c, fd, m);
    }
  }

  lemma PlainIsGood(sends: seq<Send>)
    requires PlainSends(sends)
    ensures GoodSends(sends)
  {
    forall i | 0 <= i < |sends| ensures GoodLine(sends[i].text) { assert PlainLine(sends[i].text); }
  }

  /** Whatever the command, each message it offers is one non-empty line: the
      reply builder never refuses a reachable prefix, target or server name. */
  lemma DispatchGood(cfg: Config, c: Core, fd: int, m: Message)
    requires SafeToken(cfg.serverName) && Inv(c)
    ensures fd in c.clients ==> c.clients[fd].fd == fd
    ensures GoodSends(Dispatch(cfg, c, fd, m).sends)
  {
    if fd in c.clients {
      DispatchGreets(cfg, c, fd, m);
      var e := Dispatch(cfg, c, fd, m);
      if Registers(c, e.core, fd) { WelcomeLines(cfg, e.core.clients[fd]); } else { PlainIsGood(e.sends); }
    }
  }

  /** A disconnection offers one plain line, the QUIT. */
  lemma DisconnectPlain(c: Core, fd: int, reason: string)
    requires Inv(c)
    ensures PlainSends(Disconnect(c, fd, reason).sends)
  {
    if fd in c.clients { NoticeGood(c, fd, "QUIT", ":" + reason); }
  }

  lemma DisconnectGood(c: Core, fd: int, reason: string)
    requires Inv(c)
    ensures GoodSends(Disconnect(c, fd, reason).sends)
  {
    DisconnectPlain(c, fd, reason);
    PlainIsGood(Disconnect(c, fd, reason).sends);
  }
}
