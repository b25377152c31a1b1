/** Modes as a peer reads them off the wire: the 324 reply, and keys that MODE
    accepts but a peer cannot read back or supply
    (services/irc/prd/handler/ServerMode.cpp). */
module ModeWire {
  import opened IrcUtil
  import opened Strings
  import opened Domain
  import opened Reply
  import opened Parser
  import opened Commands
  import opened Moves
  import opened CommandMoves
  import opened Sends
  import opened Membership
  import opened ModeLaws

  // ------------------------------------------------------------ the query

  /** What the 324 reply says of a channel. */
  function ModeWords(channel: Channel): seq<string> {
    [channel.name, channel.ModeString()] + channel.ModeParameters()
  }

  lemma ModeWordsAreWords(channel: Channel)
    requires ChannelOk(channel, channel.keyName)
    ensures AllWords(ModeWords(channel))
    ensures NoLeadingColon(ModeWords(channel)) <==> !(channel.keyEnabled && channel.channelKey[0] == ':')
  {
    var words := ModeWords(channel);
    ChannelNameIsWord(channel.name);
    if channel.keyEnabled { KeyIsWord(channel.channelKey); }
    if channel.limitEnabled { DigitsAreWord(Decimal(channel.userLimit)); }
    forall i | 0 <= i < |words| ensures Word(words[i]) {
      if i == 1 { assert Word(channel.ModeString()); }
    }
    if channel.limitEnabled { assert IsDigit(Decimal(channel.userLimit)[0]); }
    if channel.keyEnabled && channel.channelKey[0] == ':' {
      assert LeadsColon(words[2]);
    } else {
      forall i | 0 <= i < |words| ensures !LeadsColon(words[i]) {
        if i >= 2 && words[i] != channel.channelKey { assert words[i] == Decimal(channel.userLimit); }
      }
    }
  }

  /** A word in front of a list of words. */
  lemma WordInFront(name: string, words: seq<string>)
    requires SafeToken(name) && words != [] && AllWords(words)
    ensures AllWords([name] + words)
    ensures name + " " + SpacedText(words)[1..] == SpacedText([name] + words)[1..]
    ensures Sanitize(SpacedText(words)[1..]) != ""
    ensures NoLeadingColon([name] + words) <==> NoLeadingColon(words)
  {
    SpacedTail(words);
    var all := [name] + words;
    assert all[1..] == words;
    SpacedHead(all);
    var text := SpacedText(words);
    assert SpacedText(all)[1..] == name + text;
    Assoc(name, " ", text[1..]);
    assert Word(name);
    forall i | 0 <= i < |all| ensures Word(all[i]) { if i > 0 { assert Word(words[i - 1]); } }
    ColonSplit(all);
  }

  /** The 324 line reads back as the target, the channel and its modes exactly
      when the key, if set, does not begin with a colon. */
  lemma QueryLineRead(cfg: Config, me: Client, channel: Channel)
    requires SafeToken(cfg.serverName) && ClientOk(me, me.fd) && ChannelOk(channel, channel.keyName)
    ensures (ParseLine(Numeric(cfg.serverName, me, 324, SpacedText(ModeWords(channel))[1..]))
             == Some(Message(cfg.serverName, "324", [TargetName(me)] + ModeWords(channel))))
            <==> !(channel.keyEnabled && channel.channelKey[0] == ':')
  {
    var words := ModeWords(channel);
    ModeWordsAreWords(channel);
    if me.nickname != "" { NicknameIsWord(me.nickname); }
    assert SafeToken("*");
    WordInFront(TargetName(me), words);
    assert ThreeDigits(324) == "324";
    DigitsSafe(324);
    NumericIsCommand(cfg.serverName, me, 324, SpacedText(words)[1..]);
    WordsSurviveTheWire(cfg.serverName, "324", [TargetName(me)] + words);
  }

  lemma QueryAnswered(cfg: Config, c: Core, fd: int, m: Message, k: string)
    requires Inv(c) && fd in c.clients && c.clients[fd].registered && c.clients[fd].fd == fd
    requires m.command == "MODE" && |m.params| == 1 && m.params[0] != "" && m.params[0][0] == '#'
    requires k == Fold(m.params[0]) && k in c.channels
    ensures Dispatch(cfg, c, fd, m) == Answer(cfg, c, fd, 324, SpacedText(ModeWords(c.channels[k]))[1..])
  {
  }

  /** The mode query round-trips on the wire: a registered client that asks for
      the modes of a channel is sent one line; it reads back exactly when the key
      does not begin with a colon, and what is read, sent as a MODE on the
      channel with every mode off, restores modes i, t, k and l. */
  lemma ModeQueryOnTheWire(cfg: Config, c: Core, fd: int, m: Message, k: string)
    requires SafeToken(cfg.serverName) && Inv(c) && fd in c.clients && c.clients[fd].registered
    requires m.command == "MODE" && |m.params| == 1 && m.params[0] != "" && m.params[0][0] == '#'
    requires k == Fold(m.params[0]) && k in c.channels
    ensures c.clients[fd].fd == fd
    ensures var e := Dispatch(cfg, c, fd, m);
      var channel := c.channels[k];
      var words := [TargetName(c.clients[fd])] + ModeWords(channel);
      && e.core == c && |e.sends| == 1 && e.sends[0].to == {fd}
      && ((ParseLine(e.sends[0].text) == Some(Message(cfg.serverName, "324", words)))
          <==> !(channel.keyEnabled && channel.channelKey[0] == ':'))
      && (var again := Message("", "MODE", words[1..]);
          var r := ModeUpTo(cfg, c, fd, again, AllOff(channel), words[2], |words[2]|);
          r.channel == channel && r.sends == [] && r.argIndex == |again.params|)
  {
    var channel := c.channels[k];
    assert ClientOk(c.clients[fd], fd) && ChannelOk(channel, k);
    QueryAnswered(cfg, c, fd, m, k);
    QueryLineRead(cfg, c.clients[fd], channel);
    ModeQueryRoundTrips(cfg, c, fd, channel.name, channel);
    var words := [TargetName(c.clients[fd])] + ModeWords(channel);
    assert words[1..] == ModeWords(channel);
  }

  // ------------------------------------------------ keys that lock or garble

  function SetKeyLine(name: string, key: string): Message {
    Message("", "MODE", [name, "+k", key])
  }

  lemma KeyRun(cfg: Config, c: Core, fd: int, m: Message, channel: Channel)
    requires fd in c.clients && |m.params| == 3 && ValidChannelKey(m.params[2])
    ensures ModeUpTo(cfg, c, fd, m, channel, "+k", 2)
         == ModeStart(channel).(adding := true, signSeen := true, channel := channel.SetKey(m.params[2]),
              argIndex := 3, changedModes := "+k", changedParams := [m.params[2]], lastSign := Some('+'))
  {
    var r := ModeStart(channel).(adding := true, signSeen := true);
    ModeUpToNext(cfg, c, fd, m, channel, "+k", 1, ModeStart(channel));
    ModeUpToNext(cfg, c, fd, m, channel, "+k", 2, r);
  }

  /** One MODE command of an operator sets any valid key, comma and colon
      included, and announces it in one line to the members. */
  lemma KeyTaken(cfg: Config, c: Core, fd: int, name: string, key: string)
    requires Inv(c) && name != "" && name[0] == '#' && IsOperator(c, fd, Fold(name)) && ValidChannelKey(key)
    ensures fd in c.clients && c.clients[fd].fd == fd
    ensures var k := Fold(name);
      var e := Dispatch(cfg, c, fd, SetKeyLine(name, key));
      && e.core == SetChannel(c, c.channels[k].SetKey(key)) && c.channels[k].keyName == k
      && e.sends == [Send(c.channels[k].members,
                          Notice(c, fd, "MODE", SpacedText([c.channels[k].name, "+k", key])[1..]))]
  {
    var k := Fold(name);
    assert ChannelOk(c.channels[k], k);
    InvMeans(c, k, fd);
    assert ClientOk(c.clients[fd], fd);
    var m := SetKeyLine(name, key);
    KeyRun(cfg, c, fd, m, c.channels[k]);
    assert [c.channels[k].name, "+k"] + [key] == [c.channels[k].name, "+k", key];
  }

  /** After one MODE that sets a key with a comma, no JOIN line lets anyone in. */
  lemma CommaKeyLocks(cfg: Config, c: Core, fd: int, name: string, key: string, x: int, join: Message)
    requires Inv(c) && name != "" && name[0] == '#' && IsOperator(c, fd, Fold(name))
    requires ValidChannelKey(key) && ',' in key
    requires x in c.clients && c.clients[x].registered && !HasMember(c, x, Fold(name)) && join.command == "JOIN"
    ensures fd in c.clients && c.clients[fd].fd == fd
    ensures var d := Dispatch(cfg, c, fd, SetKeyLine(name, key)).core;
      && x in d.clients && d.clients[x].fd == x
      && !HasMember(Dispatch(cfg, d, x, join).core, x, Fold(name))
  {
    KeyTaken(cfg, c, fd, name, key);
    DispatchKeeps(cfg, c, fd, SetKeyLine(name, key));
    var d := Dispatch(cfg, c, fd, SetKeyLine(name, key)).core;
    assert ClientOk(c.clients[x], x);
    CommaKeyLocksOut(cfg, d, x, join, Fold(name));
  }

  /** After one MODE that sets a key beginning with a colon, the announcement
      does not read back as what was announced. */
  lemma ColonKeyGarbles(cfg: Config, c: Core, fd: int, name: string, key: string)
    requires Inv(c) && name != "" && name[0] == '#' && IsOperator(c, fd, Fold(name))
    requires ValidChannelKey(key) && key[0] == ':'
    ensures fd in c.clients && c.clients[fd].fd == fd
    ensures var e := Dispatch(cfg, c, fd, SetKeyLine(name, key));
      && |e.sends| == 1
      && ParseLine(e.sends[0].text)
         != Some(Message(ClientPrefix(c.clients[fd]), "MODE", [c.channels[Fold(name)].name, "+k", key]))
  {
    KeyTaken(cfg, c, fd, name, key);
    var ch := c.channels[Fold(name)];
    var words := [ch.name, "+k", key];
    assert ChannelOk(ch, Fold(name));
    PrefixSafe(c.clients[fd]);
    ChannelNameIsWord(ch.name);
    KeyIsWord(key);
    assert forall i :: 0 <= i < |words| ==> Word(words[i]);
    WordsSurviveTheWire(ClientPrefix(c.clients[fd]), "MODE", words);
    assert LeadsColon(words[2]);
  }
}
