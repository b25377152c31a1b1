/** JOIN and PART target by target. A line names several channels; each is dealt
    with in the state the ones before it left. What one target brings about is
    said from the relation client x channel and from the fields of the channel,
    without the handlers (services/irc/prd/handler/ServerChannelCommands.cpp). */
module ChannelAnswers {
  import opened IrcUtil
  import opened Strings
  import opened Domain
  import opened Ordered
  import opened Reply
  import opened Commands
  import opened Moves
  import opened CommandMoves
  import opened Laws
  import opened Answers

  // -------------------------------------------------------------------- NAMES

  /** The members' nicknames in ascending order of descriptor, operators marked. */
  ghost predicate NamesAre(c: Core, ch: Channel, text: string) {
    exists fds: seq<int>, words: seq<string> ::
      && Enumerates(fds, ch.members) && |words| == |fds|
      && (forall i {:trigger words[i]} :: 0 <= i < |fds| ==> Marked(c, ch, fds[i], words[i]))
      && text == JoinWith(words, " ")
  }

  ghost predicate Enumerates(fds: seq<int>, members: set<int>) {
    && (forall x :: x in fds <==> x in members)
    && forall i, j :: 0 <= i < j < |fds| ==> fds[i] < fds[j]
  }

  predicate Marked(c: Core, ch: Channel, fd: int, word: string) {
    fd in c.clients && word == (if fd in ch.operators then "@" else "") + c.clients[fd].nickname
  }

  lemma {:induction false} JoinLast(words: seq<string>, last: string)
    requires words != []
    ensures JoinWith(words + [last], " ") == JoinWith(words, " ") + " " + last
    decreases |words|
  {
    if |words| == 1 {
      assert (words + [last])[1..] == [last];
    } else {
      assert (words + [last])[1..] == words[1..] + [last];
      JoinLast(words[1..], last);
    }
  }

  lemma {:induction false} JoinNotEmpty(words: seq<string>)
    requires words != [] && forall i :: 0 <= i < |words| ==> words[i] != ""
    ensures JoinWith(words, " ") != ""
  {
  }

  lemma {:induction false} NamesText1(c: Core, ch: Channel, fds: seq<int>) returns (words: seq<string>)
    requires forall i :: 0 <= i < |fds| ==> fds[i] in c.clients && c.clients[fds[i]].nickname != ""
    ensures |words| == |fds| && forall i {:trigger words[i]} :: 0 <= i < |fds| ==> Marked(c, ch, fds[i], words[i])
    ensures NamesText(c, ch, fds) == JoinWith(words, " ")
    decreases |fds|
  {
    words := [];
    if fds != [] {
      var n := |fds| - 1;
      var init := NamesText1(c, ch, fds[..n]);
      var last := (if fds[n] in ch.operators then "@" else "") + c.clients[fds[n]].nickname;
      words := init + [last];
      if init != [] {
        forall i | 0 <= i < |init| ensures init[i] != "" { assert Marked(c, ch, fds[..n][i], init[i]); }
        JoinNotEmpty(init);
        JoinLast(init, last);
      }
    }
  }

  lemma NamesTextIs(c: Core, ch: Channel)
    requires forall x :: x in ch.members ==> x in c.clients && c.clients[x].nickname != ""
    ensures NamesAre(c, ch, NamesText(c, ch, Ascending(ch.members)))
  {
    var fds := Ascending(ch.members);
    AscendingEnumerates(ch.members);
    forall i | 0 <= i < |fds| ensures fds[i] in c.clients && c.clients[fds[i]].nickname != "" {
      assert fds[i] in ch.members;
    }
    var words := NamesText1(c, ch, fds);
    assert Enumerates(fds, ch.members);
  }

  // --------------------------------------------------------------------- PART

  /** One target of a PART, with the sends it leads to. */
  ghost predicate Parts(cfg: Config, c: Core, fd: int, name: string, reason: string, d: Core, sends: seq<Send>) {
    && fd in c.clients
    && var k := Fold(name);
    if !In(c, fd, k) then d == c && Outside(cfg, c, fd, name, sends)
    else
      && k in c.channels && TakenOut(c, fd, k, d)
      && |sends| == 1 && AllIn(c, k, sends[0].to)
      && sends[0].text == LineFrom(c.clients[fd], "PART", c.channels[k].name + " :" + reason)
  }

  lemma PartIs(cfg: Config, c: Core, fd: int, name: string, reason: string)
    requires Inv(c) && fd in c.clients
    ensures var e := PartOne(cfg, c, fd, name, reason);
      Parts(cfg, c, fd, name, reason, e.core, e.sends)
  {
    assert ClientOk(c.clients[fd], fd);
    var k := Fold(name);
    InChannel(c, fd, k);
    if k in c.channels { MembersAreIn(c, k); }
    if In(c, fd, k) { LeftIsOut(c, fd, k); }
  }

  function Flatten(groups: seq<seq<Send>>): seq<Send> {
    if groups == [] then [] else Flatten(groups[..|groups| - 1]) + groups[|groups| - 1]
  }

  /** Target after target: states cs, one more than targets, and the sends of each. */
  ghost predicate PartChain(cfg: Config, fd: int, names: seq<string>, reason: string,
                            cs: seq<Core>, groups: seq<seq<Send>>) {
    && |cs| == |names| + 1 && |groups| == |names|
    && forall i, j {:trigger groups[i], cs[j]} :: 0 <= i < |names| && j == i + 1 ==>
         Parts(cfg, cs[i], fd, names[i], reason, cs[j], groups[i])
  }

  lemma PartChainMore(cfg: Config, fd: int, names: seq<string>, reason: string, n: nat, cs: seq<Core>,
                      groups: seq<seq<Send>>, d: Core, sends: seq<Send>)
    requires n < |names| && PartChain(cfg, fd, names[..n], reason, cs, groups)
    requires Parts(cfg, cs[n], fd, names[n], reason, d, sends)
    ensures PartChain(cfg, fd, names[..n + 1], reason, cs + [d], groups + [sends])
  {
    forall i, j | 0 <= i < n + 1 && j == i + 1
      ensures Parts(cfg, (cs + [d])[i], fd, names[..n + 1][i], reason, (cs + [d])[j], (groups + [sends])[i])
    {
      if j < n + 1 { assert (groups + [sends])[i] == groups[i] && (cs + [d])[j] == cs[j]; }
    }
  }

  lemma {:induction false} PartsChain(cfg: Config, c: Core, fd: int, names: seq<string>, reason: string, n: nat)
    returns (cs: seq<Core>, groups: seq<seq<Send>>)
    requires Inv(c) && fd in c.clients && n <= |names|
    ensures PartChain(cfg, fd, names[..n], reason, cs, groups)
    ensures cs[0] == c && Effect(cs[n], Flatten(groups)) == PartUpTo(cfg, c, fd, names, reason, n)
    decreases n
  {
    if n == 0 {
      cs, groups := [c], [];
    } else {
      cs, groups := PartsChain(cfg, c, fd, names, reason, n - 1);
      PartUpToInv(cfg, c, fd, names, reason, n - 1);
      var d := cs[n - 1];
      var e := PartOne(cfg, d, fd, names[n - 1], reason);
      PartIs(cfg, d, fd, names[n - 1], reason);
      PartChainMore(cfg, fd, names, reason, n - 1, cs, groups, e.core, e.sends);
      assert (groups + [e.sends])[..n - 1] == groups;
      cs, groups := cs + [e.core], groups + [e.sends];
    }
  }

  lemma PartHandled(cfg: Config, c: Core, fd: int, m: Message)
    requires Enrolled(c, fd) && c.clients[fd].fd == fd && (m.command == "PART" || m.command == "JOIN")
    ensures m.command == "PART" ==> Dispatch(cfg, c, fd, m) == Part(cfg, c, fd, m)
    ensures m.command == "JOIN" ==> Dispatch(cfg, c, fd, m) == Join(cfg, c, fd, m)
  {
  }

  /** PART leaves the channels it names one after the other. Each time everybody
      who was in the channel is told, the sender included, and exactly the
      sender is out of it. */
  lemma PartLine(cfg: Config, c: Core, fd: int, m: Message) returns (cs: seq<Core>, groups: seq<seq<Send>>)
    requires Inv(c) && Enrolled(c, fd) && m.command == "PART"
    ensures c.clients[fd].fd == fd
    ensures var e, me := Dispatch(cfg, c, fd, m), c.clients[fd];
      if |m.params| == 0 then Unchanged(e, c, Numbered(cfg, me, 461, "PART"))
      else
        var names := SplitComma(m.params[0]);
        var reason := if |m.params| >= 2 then m.params[1] else me.nickname;
        && PartChain(cfg, fd, names, reason, cs, groups)
        && cs[0] == c && Effect(cs[|names|], Flatten(groups)) == e
  {
    assert ClientOk(c.clients[fd], fd);
    PartHandled(cfg, c, fd, m);
    cs, groups := [c], [];
    if |m.params| > 0 {
      var names := SplitComma(m.params[0]);
      var reason := if |m.params| >= 2 then m.params[1] else c.clients[fd].nickname;
      cs, groups := PartsChain(cfg, c, fd, names, reason, |names|);
      assert names[..|names|] == names;
    }
  }

  // --------------------------------------------------------------------- JOIN

  /** Client fd is let into the channel of that name: its pair is new on both
      sides, its invite is used up; a channel that did not exist has it as only
      member and operator, with nothing set but topic protection. */
  ghost predicate LetIn(c: Core, fd: int, name: string, d: Core) {
    var k := Fold(name);
    && fd in c.clients && k in d.channels
    && d.nickToFd == c.nickToFd
    && d.clients == c.clients[fd := c.clients[fd].(joined := c.clients[fd].joined + {k})]
    && d.channels[k] == (
         if k in c.channels then
           c.channels[k].(members := c.channels[k].members + {fd}, invited := c.channels[k].invited - {fd})
         else Channel(name, k, "", {fd}, {fd}, {}, false, true, false, "", false, 0))
    && forall j :: j != k ==> (j in d.channels <==> j in c.channels)
                              && (j in d.channels ==> d.channels[j] == c.channels[j])
  }

  /** Everybody in the channel hears of the newcomer, who is sent the topic and
      the names. */
  ghost predicate Greeted(cfg: Config, d: Core, fd: int, k: string, sends: seq<Send>)
    requires fd in d.clients && k in d.channels
  {
    var me, ch := d.clients[fd], d.channels[k];
    && |sends| == 4
    && AllIn(d, k, sends[0].to) && sends[0].text == LineFrom(me, "JOIN", ":" + ch.name)
    && sends[1] == TopicOf(cfg, me, ch)
    && (exists text :: NamesAre(d, ch, text)
                       && sends[2] == Send({fd}, Numeric(cfg.serverName, me, 353, "= " + ch.name + " :" + text)))
    && sends[3] == Numbered(cfg, me, 366, ch.name)
  }

  /** One target of a JOIN: the doors in the order they are tried. */
  ghost predicate Joins(cfg: Config, c: Core, fd: int, name: string, key: string, d: Core, sends: seq<Send>) {
    && fd in c.clients
    && var me, k := c.clients[fd], Fold(name);
    if !ValidChannelName(name) then d == c && sends == [Numbered(cfg, me, 403, name)]
    else if In(c, fd, k) then d == c && sends == []
    else
      var shut :=
        if k !in c.channels then 0
        else if c.channels[k].inviteOnly && fd !in c.channels[k].invited then 473
        else if c.channels[k].keyEnabled && key != c.channels[k].channelKey then 475
        else if c.channels[k].limitEnabled && |c.channels[k].members| >= c.channels[k].userLimit then 471
        else 0;
      if shut != 0 then k in c.channels && d == c && sends == [Numbered(cfg, me, shut, c.channels[k].name)]
      else LetIn(c, fd, name, d) && Greeted(cfg, d, fd, k, sends)
  }

  lemma AdmittedIn(c: Core, fd: int, name: string, channel: Channel, created: bool)
    requires Inv(c) && Allowed(c, fd, Enter(fd, channel, created)) && channel.keyName == Fold(name)
    requires created ==> channel == NewChannel(name, Fold(name))
    ensures LetIn(c, fd, name, Joined(c, fd, channel, created)) && Inv(Joined(c, fd, channel, created))
  {
    EnterKeeps(c, fd, channel, created);
  }

  lemma MembersNamed(c: Core, k: string)
    requires Inv(c) && k in c.channels
    ensures forall x :: x in c.channels[k].members ==> x in c.clients && c.clients[x].nickname != ""
  {
    forall x | x in c.channels[k].members ensures x in c.clients && c.clients[x].nickname != "" {
      assert HasMember(c, x, k) && HasJoined(c, x, k);
      assert ClientOk(c.clients[x], x);
    }
  }

  lemma NewcomerGreeted(cfg: Config, d: Core, fd: int, k: string, sends: seq<Send>)
    requires Inv(d) && fd in d.clients && k in d.channels
    requires var ch := d.channels[k];
      sends == [ Send(ch.members, Notice(d, fd, "JOIN", ":" + ch.name)), TopicReply(cfg, d, fd, ch),
                 ReplyTo(cfg, d, fd, 353, "= " + ch.name + " :" + NamesText(d, ch, Ascending(ch.members))),
                 ReplyTo(cfg, d, fd, 366, ch.name + Say(cfg, 366)) ]
    ensures Greeted(cfg, d, fd, k, sends)
  {
    MembersAreIn(d, k);
    MembersNamed(d, k);
    NamesTextIs(d, d.channels[k]);
    assert ClientOk(d.clients[fd], fd);
  }

  lemma AdmitIs(cfg: Config, c: Core, fd: int, name: string, channel: Channel, created: bool)
    requires Inv(c) && fd in c.clients && c.clients[fd].fd == fd
    requires channel.keyName == Fold(name) && Allowed(c, fd, Enter(fd, channel, created))
    requires created ==> channel == NewChannel(name, Fold(name))
    ensures var e := Admit(cfg, c, fd, channel, created);
      LetIn(c, fd, name, e.core) && Greeted(cfg, e.core, fd, Fold(name), e.sends)
  {
    AdmittedIn(c, fd, name, channel, created);
    var e := Admit(cfg, c, fd, channel, created);
    NewcomerGreeted(cfg, e.core, fd, Fold(name), e.sends);
  }

  lemma JoinIs(cfg: Config, c: Core, fd: int, name: string, key: string)
    requires Inv(c) && Enrolled(c, fd) && c.clients[fd].fd == fd
    ensures var e := JoinOne(cfg, c, fd, name, key);
      Joins(cfg, c, fd, name, key, e.core, e.sends)
  {
    var k := Fold(name);
    InChannel(c, fd, k);
    assert HasJoined(c, fd, k) <==> HasMember(c, fd, k);
    if ValidChannelName(name) && !In(c, fd, k) {
      if k !in c.channels {
        AdmitIs(cfg, c, fd, name, NewChannel(name, k), true);
      } else {
        var ch := c.channels[k];
        assert ChannelOk(ch, k);
        if (ch.inviteOnly ==> fd in ch.invited) && (ch.keyEnabled ==> ch.channelKey == key)
           && (ch.limitEnabled ==> |ch.members| < ch.userLimit) {
          AdmitIs(cfg, c, fd, name, ch, false);
        }
      }
    }
  }

  function KeyAt(keys: seq<string>, i: nat): string { if i < |keys| then keys[i] else "" }

  ghost predicate JoinChain(cfg: Config, fd: int, names: seq<string>, keys: seq<string>,
                            cs: seq<Core>, groups: seq<seq<Send>>) {
    && |cs| == |names| + 1 && |groups| == |names|
    && forall i, j {:trigger groups[i], cs[j]} :: 0 <= i < |names| && j == i + 1 ==>
         Joins(cfg, cs[i], fd, names[i], KeyAt(keys, i), cs[j], groups[i])
  }

  lemma JoinUpToNext(cfg: Config, c: Core, fd: int, names: seq<string>, keys: seq<string>, n: nat, e: Effect)
    requires fd in c.clients && c.clients[fd].fd == fd && 0 < n <= |names|
    requires e == JoinUpTo(cfg, c, fd, names, keys, n - 1)
    ensures fd in e.core.clients && e.core.clients[fd].fd == fd
    ensures JoinUpTo(cfg, c, fd, names, keys, n)
         == e.Then(JoinOne(cfg, e.core, fd, names[n - 1], KeyAt(keys, n - 1)))
  {
  }

  lemma ChainMore(cfg: Config, fd: int, names: seq<string>, keys: seq<string>, n: nat, cs: seq<Core>,
                  groups: seq<seq<Send>>, d: Core, sends: seq<Send>)
    requires n < |names| && JoinChain(cfg, fd, names[..n], keys, cs, groups)
    requires Joins(cfg, cs[n], fd, names[n], KeyAt(keys, n), d, sends)
    ensures JoinChain(cfg, fd, names[..n + 1], keys, cs + [d], groups + [sends])
  {
    forall i, j | 0 <= i < n + 1 && j == i + 1
      ensures Joins(cfg, (cs + [d])[i], fd, names[..n + 1][i], KeyAt(keys, i), (cs + [d])[j], (groups + [sends])[i])
    {
      if j < n + 1 { assert (groups + [sends])[i] == groups[i] && (cs + [d])[j] == cs[j]; }
    }
  }

  lemma {:induction false} JoinsChain(cfg: Config, c: Core, fd: int, names: seq<string>, keys: seq<string>, n: nat)
    returns (cs: seq<Core>, groups: seq<seq<Send>>)
    requires Inv(c) && Enrolled(c, fd) && c.clients[fd].fd == fd && n <= |names|
    ensures JoinChain(cfg, fd, names[..n], keys, cs, groups)
    ensures cs[0] == c && Effect(cs[n], Flatten(groups)) == JoinUpTo(cfg, c, fd, names, keys, n)
    decreases n
  {
    if n == 0 {
      cs, groups := [c], [];
    } else {
      cs, groups := JoinsChain(cfg, c, fd, names, keys, n - 1);
      JoinUpToRegistered(cfg, c, fd, names, keys, n - 1);
      var d := cs[n - 1];
      JoinUpToNext(cfg, c, fd, names, keys, n, Effect(d, Flatten(groups)));
      var e := JoinOne(cfg, d, fd, names[n - 1], KeyAt(keys, n - 1));
      JoinIs(cfg, d, fd, names[n - 1], KeyAt(keys, n - 1));
      ChainMore(cfg, fd, names, keys, n - 1, cs, groups, e.core, e.sends);
      assert (groups + [e.sends])[..n - 1] == groups;
      cs, groups := cs + [e.core], groups + [e.sends];
    }
  }

  // ------------------------------------------------------------------- JOIN 0

  lemma {:induction false} LeavesChain(cfg: Config, c: Core, fd: int, keys: seq<string>, reason: string, n: nat)
    returns (cs: seq<Core>, groups: seq<seq<Send>>)
    requires Inv(c) && fd in c.clients && n <= |keys|
    requires forall i :: 0 <= i < |keys| ==> Fold(keys[i]) == keys[i] && In(c, fd, keys[i])
    requires forall i, j :: 0 <= i < j < |keys| ==> keys[i] != keys[j]
    ensures PartChain(cfg, fd, keys[..n], reason, cs, groups)
    ensures cs[0] == c && Effect(cs[n], Flatten(groups)) == LeaveUpTo(c, fd, keys, reason, n)
    ensures Inv(cs[n]) && forall i :: n <= i < |keys| ==> In(cs[n], fd, keys[i])
    decreases n
  {
    if n == 0 {
      cs, groups := [c], [];
    } else {
      cs, groups := LeavesChain(cfg, c, fd, keys, reason, n - 1);
      var d, k := cs[n - 1], keys[n - 1];
      InChannel(d, fd, k);
      PartIs(cfg, d, fd, k, reason);
      var e := Leave(d, fd, k, reason);
      ExitKeeps(d, fd, k);
      forall i | n <= i < |keys| ensures In(e.core, fd, keys[i]) { assert In(d, fd, keys[i]); }
      PartChainMore(cfg, fd, keys, reason, n - 1, cs, groups, e.core, e.sends);
      assert (groups + [e.sends])[..n - 1] == groups;
      cs, groups := cs + [e.core], groups + [e.sends];
    }
  }

  /** The channels of a client, each once. */
  ghost predicate ListsChannels(c: Core, fd: int, keys: seq<string>) {
    && (forall k :: k in keys <==> In(c, fd, k))
    && forall i, j :: 0 <= i < j < |keys| ==> keys[i] != keys[j]
  }

  lemma ZeroLeaves(cfg: Config, c: Core, fd: int) returns (keys: seq<string>, cs: seq<Core>, groups: seq<seq<Send>>)
    requires Inv(c) && fd in c.clients
    ensures keys == AscendingNames(c.clients[fd].joined) && ListsChannels(c, fd, keys)
    ensures var reason := c.clients[fd].nickname;
      && PartChain(cfg, fd, keys, reason, cs, groups)
      && cs[0] == c && Effect(cs[|keys|], Flatten(groups)) == LeaveUpTo(c, fd, keys, reason, |keys|)
  {
    keys := AscendingNames(c.clients[fd].joined);
    AscendingNamesEnumerates(c.clients[fd].joined);
    JoinedFolded(c, fd);
    forall k ensures k in keys <==> In(c, fd, k) { TwoSetsOneRelation(c, fd, k); }
    forall i | 0 <= i < |keys| ensures Fold(keys[i]) == keys[i] && In(c, fd, keys[i]) { assert keys[i] in keys; }
    cs, groups := LeavesChain(cfg, c, fd, keys, c.clients[fd].nickname, |keys|);
    assert keys[..|keys|] == keys;
  }

  /** JOIN tries the channels it names one after the other, each with the key in
      the same place of the key list. A target that passes every door puts
      exactly the sender into the channel and is announced to everybody in it;
      any other is answered to the sender and changes nothing. JOIN 0 leaves all
      the sender's channels, each as a PART with its nickname as reason. */
  lemma JoinLine(cfg: Config, c: Core, fd: int, m: Message)
    returns (names: seq<string>, cs: seq<Core>, groups: seq<seq<Send>>)
    requires Inv(c) && Enrolled(c, fd) && m.command == "JOIN"
    ensures c.clients[fd].fd == fd
    ensures var e, me := Dispatch(cfg, c, fd, m), c.clients[fd];
      if |m.params| == 0 then Unchanged(e, c, Numbered(cfg, me, 461, "JOIN"))
      else
        && (if m.params[0] == "0" then ListsChannels(c, fd, names) && PartChain(cfg, fd, names, me.nickname, cs, groups)
            else names == SplitComma(m.params[0])
                 && JoinChain(cfg, fd, names, if |m.params| >= 2 then SplitComma(m.params[1]) else [], cs, groups))
        && cs[0] == c && Effect(cs[|names|], Flatten(groups)) == e
  {
    assert ClientOk(c.clients[fd], fd);
    PartHandled(cfg, c, fd, m);
    names, cs, groups := [], [c], [];
    if |m.params| > 0 {
      if m.params[0] == "0" {
        names, cs, groups := ZeroLeaves(cfg, c, fd);
      } else {
        names := SplitComma(m.params[0]);
        var keys := if |m.params| >= 2 then SplitComma(m.params[1]) else [];
        cs, groups := JoinsChain(cfg, c, fd, names, keys, |names|);
        assert names[..|names|] == names;
      }
    }
  }
}
