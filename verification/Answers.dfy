/** What a registered client's line brings about, said from the relation client x
    channel and from what a line on the wire looks like: who is offered which
    text, and what of the state changes. The handlers are not mentioned
    (services/irc/prd/handler). */
module Answers {
  import opened IrcUtil
  import opened Strings
  import opened Domain
  import opened Ordered
  import opened Reply
  import opened Commands
  import opened Moves
  import opened Laws

  // -------------------------------------------------------------- vocabulary

  /** A numeric about something, for one client alone. */
  function Numbered(cfg: Config, me: Client, code: int, about: string): Send {
    Send({me.fd}, Numeric(cfg.serverName, me, code, about + (" :" + cfg.text(code))))
  }

  function Bare(cfg: Config, me: Client, code: int): Send {
    Send({me.fd}, Numeric(cfg.serverName, me, code, ":" + cfg.text(code)))
  }

  /** A line in the name of a client. */
  function LineFrom(me: Client, verb: string, parameters: string): string {
    Command(ClientPrefix(me), verb, parameters)
  }

  predicate Enrolled(c: Core, fd: int) { fd in c.clients && c.clients[fd].registered }

  ghost predicate In(c: Core, fd: int, k: string) { (fd, k) in Relation(c) }

  /** The set holds who is in the channel, and nobody else. */
  ghost predicate AllIn(c: Core, k: string, to: set<int>) {
    forall x :: x in to <==> In(c, x, k)
  }

  ghost predicate NobodyNamed(c: Core, nick: string) { forall x :: !Named(c, Fold(nick), x) }

  lemma MembersAreIn(c: Core, k: string)
    requires Inv(c) && k in c.channels
    ensures AllIn(c, k, c.channels[k].members)
  {
    forall x ensures x in c.channels[k].members <==> In(c, x, k) { TwoSetsOneRelation(c, x, k); }
  }

  lemma InChannel(c: Core, fd: int, k: string)
    requires Inv(c)
    ensures In(c, fd, k) <==> k in c.channels && fd in c.channels[k].members
  {
    TwoSetsOneRelation(c, fd, k);
  }

  lemma NickFound(c: Core, nick: string, x: int)
    requires Inv(c)
    ensures FindNick(c, nick) == Some(x) <==> Named(c, Fold(nick), x)
  {
    assert Indexed(c, Fold(nick), x) <==> Named(c, Fold(nick), x);
    if FindNick(c, nick) == Some(x) { assert Indexed(c, Fold(nick), x); }
  }

  lemma NickMissing(c: Core, nick: string)
    requires Inv(c)
    ensures FindNick(c, nick) == None <==> NobodyNamed(c, nick)
  {
    forall x ensures FindNick(c, nick) == Some(x) <==> Named(c, Fold(nick), x) { NickFound(c, nick, x); }
    if FindNick(c, nick).Some? { assert Named(c, Fold(nick), FindNick(c, nick).value); }
  }

  // ----------------------------------------------------------------- PRIVMSG

  /** The one offer a target of a PRIVMSG leads to. */
  ghost predicate Delivered(cfg: Config, c: Core, fd: int, target: string, text: string, s: Send)
    requires fd in c.clients
  {
    var me := c.clients[fd];
    if target != "" && target[0] == '#' then
      var k := Fold(target);
      if k !in c.channels then s == Numbered(cfg, me, 403, target)
      else if !In(c, fd, k) then s == Numbered(cfg, me, 404, c.channels[k].name)
      else
        && s.text == LineFrom(me, "PRIVMSG", c.channels[k].name + " :" + text)
        && forall x :: x in s.to <==> x != fd && In(c, x, k)
    else
      && (NobodyNamed(c, target) ==> s == Numbered(cfg, me, 401, target))
      && (forall x :: Named(c, Fold(target), x) ==>
            s == Send({x}, LineFrom(me, "PRIVMSG", c.clients[x].nickname + " :" + text)))
  }

  lemma OneDelivered(cfg: Config, c: Core, fd: int, target: string, text: string)
    requires Inv(c) && fd in c.clients
    ensures var e := PrivmsgOne(cfg, c, fd, target, text);
      e.core == c && |e.sends| == 1 && Delivered(cfg, c, fd, target, text, e.sends[0])
  {
    assert ClientOk(c.clients[fd], fd);
    if target != "" && target[0] == '#' {
      InChannel(c, fd, Fold(target));
      if Fold(target) in c.channels { MembersAreIn(c, Fold(target)); }
    } else {
      NickMissing(c, target);
      forall x | Named(c, Fold(target), x) ensures FindNick(c, target) == Some(x) { NickFound(c, target, x); }
    }
  }

  lemma PrivmsgUpToNext(cfg: Config, c: Core, fd: int, targets: seq<string>, text: string, n: nat, e: Effect)
    requires fd in c.clients && n < |targets| && e == PrivmsgUpTo(cfg, c, fd, targets, text, n)
    ensures PrivmsgUpTo(cfg, c, fd, targets, text, n + 1) == e.Then(PrivmsgOne(cfg, c, fd, targets[n], text))
  {
  }

  ghost predicate AllDelivered(cfg: Config, c: Core, fd: int, targets: seq<string>, text: string, sends: seq<Send>)
    requires fd in c.clients && |sends| <= |targets|
  {
    forall i {:trigger sends[i]} :: 0 <= i < |sends| ==> Delivered(cfg, c, fd, targets[i], text, sends[i])
  }

  lemma DeliveredMore(cfg: Config, c: Core, fd: int, targets: seq<string>, text: string, n: nat, before: seq<Send>,
                      last: seq<Send>, all: seq<Send>)
    requires fd in c.clients && 0 < n <= |targets| && |before| == n - 1 && |last| == 1 && all == before + last
    requires AllDelivered(cfg, c, fd, targets, text, before)
    requires Delivered(cfg, c, fd, targets[n - 1], text, last[0])
    ensures AllDelivered(cfg, c, fd, targets, text, all)
  {
  }

  lemma {:induction false} EachDelivered(cfg: Config, c: Core, fd: int, targets: seq<string>, text: string, n: nat)
    returns (e: Effect)
    requires Inv(c) && fd in c.clients && n <= |targets|
    ensures e == PrivmsgUpTo(cfg, c, fd, targets, text, n) && e.core == c && |e.sends| == n
    ensures AllDelivered(cfg, c, fd, targets, text, e.sends)
    decreases n
  {
    if n == 0 {
      e := Effect(c, []);
    } else {
      var before := EachDelivered(cfg, c, fd, targets, text, n - 1);
      var last := PrivmsgOne(cfg, c, fd, targets[n - 1], text);
      OneDelivered(cfg, c, fd, targets[n - 1], text);
      PrivmsgUpToNext(cfg, c, fd, targets, text, n - 1, before);
      e := before.Then(last);
      DeliveredMore(cfg, c, fd, targets, text, n, before.sends, last.sends, e.sends);
    }
  }

  /** A PRIVMSG changes nothing. To a channel the sender is in it goes once to
      everybody else there and to nobody outside; to a nickname, to the client
      that holds it; a target it cannot reach is answered to the sender alone. */
  lemma PrivmsgReaches(cfg: Config, c: Core, fd: int, m: Message)
    requires Inv(c) && Enrolled(c, fd) && m.command == "PRIVMSG"
    ensures c.clients[fd].fd == fd && Dispatch(cfg, c, fd, m).core == c
    ensures var sends := Dispatch(cfg, c, fd, m).sends;
      if |m.params| == 0 then sends == [Bare(cfg, c.clients[fd], 411)]
      else if |m.params| == 1 || m.params[1] == "" then sends == [Bare(cfg, c.clients[fd], 412)]
      else
        var targets := SplitComma(m.params[0]);
        |sends| == |targets| && AllDelivered(cfg, c, fd, targets, m.params[1], sends)
  {
    assert ClientOk(c.clients[fd], fd);
    if |m.params| >= 2 {
      var targets := SplitComma(m.params[0]);
      var e := EachDelivered(cfg, c, fd, targets, m.params[1], |targets|);
      assert Dispatch(cfg, c, fd, m) == Privmsg(cfg, c, fd, m);
    }
  }

  // ------------------------------------------------------------------- TOPIC

  /** A client in the channel, or the refusal that says why not. */
  ghost predicate Outside(cfg: Config, c: Core, fd: int, typed: string, sends: seq<Send>)
    requires fd in c.clients
  {
    var k := Fold(typed);
    if k !in c.channels then sends == [Numbered(cfg, c.clients[fd], 403, typed)]
    else !In(c, fd, k) && sends == [Numbered(cfg, c.clients[fd], 442, c.channels[k].name)]
  }

  function TopicOf(cfg: Config, me: Client, ch: Channel): Send {
    if ch.topic == "" then Numbered(cfg, me, 331, ch.name)
    else Send({me.fd}, Numeric(cfg.serverName, me, 332, ch.name + " :" + ch.topic))
  }

  predicate Unchanged(e: Effect, c: Core, s: Send) { e == Effect(c, [s]) }

  /** A topic changes at the word of a member, who must be operator while the
      channel protects it; all members are told; nothing else changes. */
  lemma TopicLine(cfg: Config, c: Core, fd: int, m: Message)
    requires Inv(c) && Enrolled(c, fd) && m.command == "TOPIC"
    ensures c.clients[fd].fd == fd
    ensures var e, me := Dispatch(cfg, c, fd, m), c.clients[fd];
      if |m.params| == 0 then Unchanged(e, c, Numbered(cfg, me, 461, "TOPIC"))
      else
        var k := Fold(m.params[0]);
        if !In(c, fd, k) then e.core == c && Outside(cfg, c, fd, m.params[0], e.sends)
        else
          && k in c.channels
          && var ch := c.channels[k];
          if |m.params| == 1 then Unchanged(e, c, TopicOf(cfg, me, ch))
          else if ch.topicRestricted && fd !in ch.operators then Unchanged(e, c, Numbered(cfg, me, 482, ch.name))
          else
            && e.core == c.(channels := c.channels[k := ch.(topic := m.params[1])])
            && |e.sends| == 1 && AllIn(c, k, e.sends[0].to)
            && e.sends[0].text == LineFrom(me, "TOPIC", ch.name + " :" + m.params[1])
  {
    assert ClientOk(c.clients[fd], fd);
    if |m.params| > 0 {
      var k := Fold(m.params[0]);
      InChannel(c, fd, k);
      if k in c.channels {
        MembersAreIn(c, k);
        assert ChannelOk(c.channels[k], k);
      }
    }
  }

  // -------------------------------------------------------------------- KICK

  /** Client x is out of channel k: its pair is gone from both sides, with its
      operatorship and its invite, the channel too if x was alone; all else stays. */
  ghost predicate TakenOut(c: Core, x: int, k: string, d: Core) {
    && x in c.clients && k in c.channels
    && d.nickToFd == c.nickToFd
    && d.clients == c.clients[x := c.clients[x].(joined := c.clients[x].joined - {k})]
    && (k in d.channels <==> exists y :: y != x && In(c, y, k))
    && (k in d.channels ==>
          d.channels[k] == c.channels[k].(members := c.channels[k].members - {x},
                                          operators := c.channels[k].operators - {x},
                                          invited := c.channels[k].invited - {x}))
    && forall j :: j != k ==> (j in d.channels <==> j in c.channels)
                              && (j in d.channels ==> d.channels[j] == c.channels[j])
  }

  lemma LeftIsOut(c: Core, x: int, k: string)
    requires Inv(c) && k in c.channels && x in c.channels[k].members
    ensures x in c.clients && TakenOut(c, x, k, Left(c, x, k))
  {
    assert HasMember(c, x, k) && HasJoined(c, x, k);
    MembersAreIn(c, k);
    var rest := c.channels[k].members - {x};
    if y :| y != x && In(c, y, k) { assert y in rest; }
    if rest != {} {
      var y := AnyOf(rest);
      assert y != x && In(c, y, k);
    }
  }

  /** A KICK by an operator takes the named member out and tells everybody who
      was in the channel, the one taken out included; every other KICK is refused
      to its sender and changes nothing. */
  lemma KickLine(cfg: Config, c: Core, fd: int, m: Message)
    requires Inv(c) && Enrolled(c, fd) && m.command == "KICK"
    ensures c.clients[fd].fd == fd
    ensures var e, me := Dispatch(cfg, c, fd, m), c.clients[fd];
      if |m.params| < 2 then Unchanged(e, c, Numbered(cfg, me, 461, "KICK"))
      else
        var k, nick := Fold(m.params[0]), m.params[1];
        if !In(c, fd, k) then e.core == c && Outside(cfg, c, fd, m.params[0], e.sends)
        else
          && k in c.channels
          && var ch := c.channels[k];
          if fd !in ch.operators then Unchanged(e, c, Numbered(cfg, me, 482, ch.name))
          else
            && (NobodyNamed(c, nick) ==> Unchanged(e, c, Numbered(cfg, me, 401, nick)))
            && (forall x :: Named(c, Fold(nick), x) && !In(c, x, k) ==>
                  Unchanged(e, c, Numbered(cfg, me, 441, nick + " " + ch.name)))
            && (forall x :: Named(c, Fold(nick), x) && In(c, x, k) ==>
                  && TakenOut(c, x, k, e.core)
                  && |e.sends| == 1 && AllIn(c, k, e.sends[0].to)
                  && e.sends[0].text == LineFrom(me, "KICK", ch.name + " " + c.clients[x].nickname + " :"
                       + (if |m.params| >= 3 then m.params[2] else me.nickname)))
  {
    assert ClientOk(c.clients[fd], fd);
    if |m.params| >= 2 {
      var k, nick := Fold(m.params[0]), m.params[1];
      InChannel(c, fd, k);
      NickMissing(c, nick);
      if k in c.channels { MembersAreIn(c, k); }
      forall x | Named(c, Fold(nick), x)
        ensures FindNick(c, nick) == Some(x)
        ensures In(c, x, k) ==> k in c.channels && TakenOut(c, x, k, Left(c, x, k))
      {
        NickFound(c, nick, x);
        InChannel(c, x, k);
        if In(c, x, k) { LeftIsOut(c, x, k); }
      }
    }
  }

  // ------------------------------------------------------------------ INVITE

  /** An INVITE by an operator leaves the named client an open invite, answers
      341 and tells the invited; every other INVITE is refused to its sender and
      changes nothing. */
  lemma InviteLine(cfg: Config, c: Core, fd: int, m: Message)
    requires Inv(c) && Enrolled(c, fd) && m.command == "INVITE"
    ensures c.clients[fd].fd == fd
    ensures var e, me := Dispatch(cfg, c, fd, m), c.clients[fd];
      if |m.params| < 2 then Unchanged(e, c, Numbered(cfg, me, 461, "INVITE"))
      else
        var nick, k := m.params[0], Fold(m.params[1]);
        && (NobodyNamed(c, nick) ==> Unchanged(e, c, Numbered(cfg, me, 401, nick)))
        && forall x :: Named(c, Fold(nick), x) ==>
             if !In(c, fd, k) then e.core == c && Outside(cfg, c, fd, m.params[1], e.sends)
             else
               && k in c.channels
               && var ch, who := c.channels[k], c.clients[x].nickname;
               if fd !in ch.operators then Unchanged(e, c, Numbered(cfg, me, 482, ch.name))
               else if In(c, x, k) then Unchanged(e, c, Numbered(cfg, me, 443, who + " " + ch.name))
               else
                 && e.core == c.(channels := c.channels[k := ch.(invited := ch.invited + {x})])
                 && e.sends == [ Send({fd}, Numeric(cfg.serverName, me, 341, ch.name + " " + who)),
                                 Send({x}, LineFrom(me, "INVITE", who + " :" + ch.name)) ]
  {
    assert ClientOk(c.clients[fd], fd);
    if |m.params| >= 2 {
      var nick, k := m.params[0], Fold(m.params[1]);
      InChannel(c, fd, k);
      NickMissing(c, nick);
      if k in c.channels { assert ChannelOk(c.channels[k], k); }
      forall x | Named(c, Fold(nick), x)
        ensures FindNick(c, nick) == Some(x)
        ensures In(c, x, k) <==> k in c.channels && x in c.channels[k].members
      {
        NickFound(c, nick, x);
        InChannel(c, x, k);
      }
    }
  }

  // ------------------------------------------------------ gates and greetings

  const GATED := ["JOIN", "PRIVMSG", "KICK", "INVITE", "TOPIC", "MODE", "PART"]

  const OPENING := ["PASS", "USER"]

  /** Before a command is carried out: an unknown one is answered once the sender
      is registered, seven wait for registration, two are refused after it, and
      QUIT and PONG change nothing by themselves. */
  lemma Gates(cfg: Config, c: Core, fd: int, m: Message)
    requires Inv(c) && fd in c.clients
    ensures c.clients[fd].fd == fd
    ensures var e, me := Dispatch(cfg, c, fd, m), c.clients[fd];
      if m.command in GATED && !me.registered then Unchanged(e, c, Bare(cfg, me, 451))
      else if m.command in OPENING && me.registered then Unchanged(e, c, Bare(cfg, me, 462))
      else if m.command in ["PONG", "QUIT"] then e == Effect(c, [])
      else if m.command in GATED + OPENING + ["NICK", "CAP", "PING"] then true
      else if me.registered then Unchanged(e, c, Numbered(cfg, me, 421, m.command))
      else e == Effect(c, [])
  {
    assert ClientOk(c.clients[fd], fd);
  }

  /** PING is answered with its token, CAP LS with an empty list and CAP REQ with
      a refusal of what was requested; no other CAP is answered. */
  lemma GreetingLines(cfg: Config, c: Core, fd: int, m: Message)
    requires Inv(c) && fd in c.clients && m.command in ["PING", "CAP"]
    ensures c.clients[fd].fd == fd
    ensures var e := Dispatch(cfg, c, fd, m);
      var first := if |m.params| == 0 then "" else m.params[0];
      && e.core == c
      && e.sends ==
           if m.command == "PING" then
             [if first == "" then Bare(cfg, c.clients[fd], 409)
              else Send({fd}, Command(cfg.serverName, "PONG", cfg.serverName + " :" + first))]
           else if ToUpper(first) == "LS" then [Send({fd}, Command(cfg.serverName, "CAP", "* LS :"))]
           else if ToUpper(first) == "REQ" then
             [Send({fd}, Command(cfg.serverName, "CAP", "* NAK :" + (if |m.params| >= 2 then m.params[1] else "")))]
           else []
  {
    assert ClientOk(c.clients[fd], fd);
  }
}
