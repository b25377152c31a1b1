/** MODE notices replay: the letters and parameters a MODE announces, run again
    from the same channel, make the same changes and the same announcement.
    The mode query round-trips in the same sense.
    (services/irc/prd/handler/ServerMode.cpp) */
module ModeLaws {
  import opened IrcUtil
  import opened Strings
  import opened Domain
  import opened Reply
  import opened Parser
  import opened Commands
  import opened Moves
  import opened CommandMoves
  import opened Sends

  // ---------------------------------------------------- one letter, replayed

  /** Nothing announced, nothing changed. */
  predicate Quiet(r: ModeRun, next: ModeRun) {
    && next.channel == r.channel && next.changedModes == r.changedModes
    && next.changedParams == r.changedParams && next.lastSign == r.lastSign
  }

  function SignPart(r: ModeRun): string {
    if r.lastSign == Some(r.Sign()) then [] else [r.Sign()]
  }

  /** The letter announced, with its parameters. */
  predicate Spoken(r: ModeRun, next: ModeRun, letter: char, params: seq<string>) {
    && next.changedModes == r.changedModes + SignPart(r) + [letter]
    && next.changedParams == r.changedParams + params
    && next.lastSign == Some(r.Sign())
    && letter in "itkol"
    && |params| <= 1
  }

  /** Another run at the same channel, in the same direction, about to read
      the same parameters. */
  predicate SameSpot(r: ModeRun, q: ModeRun, m: Message, params: seq<string>) {
    && q.channel == r.channel && q.adding == r.adding && q.signSeen
    && q.argIndex + |params| <= |m.params|
    && m.params[q.argIndex..q.argIndex + |params|] == params
  }

  /** That run, having made the same change, said the same and complained of
      nothing. */
  predicate Echo(q: ModeRun, after: ModeRun, channel: Channel, letter: char, params: seq<string>) {
    after == q.Edit(channel).Announce(letter, params).(argIndex := q.argIndex + |params|)
  }

  lemma FlagReplays(r: ModeRun, letter: char, q: ModeRun, m: Message) returns (params: seq<string>)
    requires letter == 'i' || letter == 't'
    ensures params == []
    ensures var next := ModeFlag(r, letter);
      Quiet(r, next) || (Spoken(r, next, letter, params)
        && (SameSpot(r, q, m, params) ==> Echo(q, ModeFlag(q, letter), next.channel, letter, params)))
  {
    params := [];
    assert r.changedParams + [] == r.changedParams;
  }

  lemma KeyReplays(cfg: Config, c: Core, fd: int, m0: Message, r: ModeRun, q: ModeRun, m: Message)
    returns (params: seq<string>)
    requires fd in c.clients
    ensures var next := ModeKey(cfg, c, fd, m0, r);
      Quiet(r, next) || (Spoken(r, next, 'k', params)
        && (SameSpot(r, q, m, params) ==> Echo(q, ModeKey(cfg, c, fd, m, q), next.channel, 'k', params)))
  {
    params := [];
    if r.adding && r.argIndex < |m0.params| && ValidChannelKey(m0.params[r.argIndex]) {
      params := [m0.params[r.argIndex]];
      if SameSpot(r, q, m, params) {
        assert m.params[q.argIndex] == m.params[q.argIndex..q.argIndex + 1][0];
      }
    }
  }

  lemma LimitReplays(cfg: Config, c: Core, fd: int, m0: Message, r: ModeRun, q: ModeRun, m: Message)
    returns (params: seq<string>)
    requires fd in c.clients
    ensures var next := ModeLimit(cfg, c, fd, m0, r);
      Quiet(r, next) || (Spoken(r, next, 'l', params)
        && (SameSpot(r, q, m, params) ==> Echo(q, ModeLimit(cfg, c, fd, m, q), next.channel, 'l', params)))
  {
    params := [];
    if r.adding && r.argIndex < |m0.params| && ValidLimit(m0.params[r.argIndex]) {
      params := [m0.params[r.argIndex]];
      if SameSpot(r, q, m, params) {
        assert m.params[q.argIndex] == m.params[q.argIndex..q.argIndex + 1][0];
      }
    }
  }

  /** The announced nickname finds the client the argument found. */
  lemma NicknameFinds(c: Core, nick: string)
    requires Inv(c) && FindNick(c, nick).Some?
    ensures FindNick(c, c.clients[FindNick(c, nick).value].nickname) == FindNick(c, nick)
  {
    var fd := FindNick(c, nick).value;
    assert Indexed(c, Fold(nick), fd);
    assert Named(c, Fold(nick), fd);
    assert Fold(c.clients[fd].nickname) == Fold(nick);
  }

  lemma OperatorReplays(cfg: Config, c: Core, fd: int, m0: Message, r: ModeRun, q: ModeRun, m: Message)
    returns (params: seq<string>)
    requires Inv(c) && fd in c.clients
    ensures var next := ModeOperator(cfg, c, fd, m0, r);
      Quiet(r, next) || (Spoken(r, next, 'o', params)
        && (SameSpot(r, q, m, params) ==> Echo(q, ModeOperator(cfg, c, fd, m, q), next.channel, 'o', params)))
  {
    params := [];
    if r.argIndex < |m0.params| && FindNick(c, m0.params[r.argIndex]).Some? {
      var nick := m0.params[r.argIndex];
      NicknameFinds(c, nick);
      params := [c.clients[FindNick(c, nick).value].nickname];
      if SameSpot(r, q, m, params) {
        assert m.params[q.argIndex] == m.params[q.argIndex..q.argIndex + 1][0];
      }
    }
  }

  /** Any letter, read after the sign was seen. */
  lemma LetterReplays(cfg: Config, c: Core, fd: int, m0: Message, r: ModeRun, letter: char,
                      q: ModeRun, m: Message) returns (params: seq<string>)
    requires Inv(c) && fd in c.clients
    ensures var next := ModeChar(cfg, c, fd, m0, r, letter);
      Quiet(r, next) || (Spoken(r, next, letter, params)
        && (SameSpot(r, q, m, params) ==> Echo(q, ModeChar(cfg, c, fd, m, q, letter), next.channel, letter, params)))
  {
    params := [];
    if letter == '+' || letter == '-' || !r.signSeen {
    } else if letter == 'i' || letter == 't' {
      params := FlagReplays(r, letter, q, m);
    } else if letter == 'k' {
      params := KeyReplays(cfg, c, fd, m0, r, q, m);
    } else if letter == 'o' {
      params := OperatorReplays(cfg, c, fd, m0, r, q, m);
    } else if letter == 'l' {
      params := LimitReplays(cfg, c, fd, m0, r, q, m);
    }
  }

  // ------------------------------------------------- longer texts, same start

  /** The same arguments, and perhaps more after them. */
  predicate Longer(m: Message, longer: Message) {
    && |m.params| <= |longer.params|
    && forall i :: 2 <= i < |m.params| ==> longer.params[i] == m.params[i]
  }

  /** A letter that caused no complaint reads the same from a longer list. */
  lemma LetterExtends(cfg: Config, c: Core, fd: int, m: Message, longer: Message, r: ModeRun, letter: char)
    requires fd in c.clients && Longer(m, longer) && r.argIndex >= 2
    requires ModeChar(cfg, c, fd, m, r, letter).sends == r.sends
    ensures ModeChar(cfg, c, fd, longer, r, letter) == ModeChar(cfg, c, fd, m, r, letter)
  {
  }

  lemma LetterOnlyAddsSends(cfg: Config, c: Core, fd: int, m: Message, r: ModeRun, letter: char)
    requires fd in c.clients
    ensures r.sends <= ModeChar(cfg, c, fd, m, r, letter).sends
  {
  }

  /** A letter after which nothing was complained of. */
  lemma LetterRunsOn(cfg: Config, c: Core, fd: int, m: Message, longer: Message, r: ModeRun, letter: char, q: ModeRun)
    requires fd in c.clients && Longer(m, longer) && q == ModeChar(cfg, c, fd, m, r, letter) && q.sends == []
    ensures r.sends == []
    ensures r.argIndex >= 2 ==> ModeChar(cfg, c, fd, longer, r, letter) == q && q.argIndex >= 2
  {
    LetterOnlyAddsSends(cfg, c, fd, m, r, letter);
    if r.argIndex >= 2 { LetterExtends(cfg, c, fd, m, longer, r, letter); }
  }

  lemma {:induction false} RunExtends(cfg: Config, c: Core, fd: int, m: Message, longer: Message, channel: Channel,
                                      modes: string, longerModes: string, n: nat, q: ModeRun)
    requires fd in c.clients && Longer(m, longer)
    requires n <= |modes| && modes <= longerModes
    requires ModeUpTo(cfg, c, fd, m, channel, modes, n) == q && q.sends == []
    ensures ModeUpTo(cfg, c, fd, longer, channel, longerModes, n) == q && q.argIndex >= 2
    decreases n
  {
    if n > 0 {
      var r := ModeUpTo(cfg, c, fd, m, channel, modes, n - 1);
      ModeUpToNext(cfg, c, fd, m, channel, modes, n, r);
      LetterRunsOn(cfg, c, fd, m, longer, r, modes[n - 1], q);
      RunExtends(cfg, c, fd, m, longer, channel, modes, longerModes, n - 1, r);
      ModeUpToNext(cfg, c, fd, longer, channel, longerModes, n, r);
    }
  }

  // ---------------------------------------------------------------- replay

  /** The MODE message a notice amounts to. */
  function Announced(m: Message, r: ModeRun): Message
    requires |m.params| >= 1
  {
    Message("", m.command, [m.params[0], r.changedModes] + r.changedParams)
  }

  /** Running the announcement itself. */
  function Replay(cfg: Config, c: Core, fd: int, m: Message, channel: Channel, r: ModeRun): ModeRun
    requires |m.params| >= 1 && fd in c.clients
  {
    ModeUpTo(cfg, c, fd, Announced(m, r), channel, r.changedModes, |r.changedModes|)
  }

  /** The replay q of the announcement of r ends where r is. */
  predicate Faithful(r: ModeRun, q: ModeRun) {
    && q.channel == r.channel
    && q.changedModes == r.changedModes && q.changedParams == r.changedParams
    && q.lastSign == r.lastSign
    && q.argIndex == 2 + |r.changedParams|
    && q.sends == []
    && (q.signSeen <==> r.lastSign.Some?)
    && (r.lastSign.Some? ==> q.Sign() == r.lastSign.value)
  }

  lemma QuietKeepsFaith(cfg: Config, c: Core, fd: int, m: Message, channel: Channel, r: ModeRun, next: ModeRun)
    requires |m.params| >= 1 && fd in c.clients
    requires Faithful(r, Replay(cfg, c, fd, m, channel, r)) && Quiet(r, next)
    ensures Faithful(next, Replay(cfg, c, fd, m, channel, next))
  {
    assert Announced(m, next) == Announced(m, r);
  }

  /** The sign announced, if any, turns the replay the same way. */
  lemma SignReplays(cfg: Config, c: Core, fd: int, m: Message, channel: Channel, modes: string,
                    r: ModeRun, q: ModeRun, n: nat, at: nat)
    requires fd in c.clients && at == n + |SignPart(r)| <= |modes|
    requires ModeUpTo(cfg, c, fd, m, channel, modes, n) == q && Faithful(r, q)
    requires modes[n..at] == SignPart(r)
    ensures ModeUpTo(cfg, c, fd, m, channel, modes, at) == q.(adding := r.adding, signSeen := true)
  {
    if |SignPart(r)| == 1 {
      assert modes[n] == modes[n..at][0] == r.Sign();
      ModeUpToNext(cfg, c, fd, m, channel, modes, at, q);
    }
  }

  lemma AnnouncedTail(r: ModeRun, next: ModeRun, letter: char, params: seq<string>)
    requires Spoken(r, next, letter, params)
    ensures var n := |r.changedModes|;
      var at := n + |SignPart(r)|;
      && r.changedModes <= next.changedModes
      && |next.changedModes| == at + 1
      && next.changedModes[n..at] == SignPart(r)
      && next.changedModes[at] == letter
  {
  }

  /** The longer announcement starts with the shorter one and goes on with the
      new parameters. */
  lemma AnnouncedGrows(m: Message, r: ModeRun, next: ModeRun, letter: char, params: seq<string>)
    requires |m.params| >= 1 && Spoken(r, next, letter, params)
    ensures Longer(Announced(m, r), Announced(m, next))
    ensures var args := Announced(m, next).params;
      var i := 2 + |r.changedParams|;
      i + |params| == |args| && args[i..i + |params|] == params
  {
  }

  /** Replaying the longer announcement first does what the shorter did, which
      ended in q, then turns the same way. */
  lemma ReplayTurns(cfg: Config, c: Core, fd: int, m: Message, channel: Channel, r: ModeRun, q: ModeRun,
                    next: ModeRun, letter: char, params: seq<string>) returns (at: nat)
    requires |m.params| >= 1 && fd in c.clients
    requires q == Replay(cfg, c, fd, m, channel, r) && Faithful(r, q) && Spoken(r, next, letter, params)
    ensures at == |r.changedModes| + |SignPart(r)| < |next.changedModes|
    ensures ModeUpTo(cfg, c, fd, Announced(m, next), channel, next.changedModes, at)
         == q.(adding := r.adding, signSeen := true)
  {
    AnnouncedTail(r, next, letter, params);
    AnnouncedGrows(m, r, next, letter, params);
    at := |r.changedModes| + |SignPart(r)|;
    ReplayGoesOn(cfg, c, fd, Announced(m, r), Announced(m, next), channel, r, q, next.changedModes, at);
  }

  lemma ReplayGoesOn(cfg: Config, c: Core, fd: int, said: Message, longer: Message, channel: Channel, r: ModeRun,
                     q: ModeRun, modes: string, at: nat)
    requires fd in c.clients && Longer(said, longer) && Faithful(r, q)
    requires q == ModeUpTo(cfg, c, fd, said, channel, r.changedModes, |r.changedModes|)
    requires r.changedModes <= modes && at == |r.changedModes| + |SignPart(r)| <= |modes|
    requires modes[|r.changedModes|..at] == SignPart(r)
    ensures ModeUpTo(cfg, c, fd, longer, channel, modes, at) == q.(adding := r.adding, signSeen := true)
  {
    RunExtends(cfg, c, fd, said, longer, channel, r.changedModes, modes, |r.changedModes|, q);
    SignReplays(cfg, c, fd, longer, channel, modes, r, q, |r.changedModes|, at);
  }

  lemma EchoIsFaithful(r: ModeRun, q: ModeRun, next: ModeRun, letter: char, params: seq<string>, after: ModeRun)
    requires Faithful(r, q) && Spoken(r, next, letter, params)
    requires Echo(q.(adding := r.adding, signSeen := true), after, next.channel, letter, params)
    ensures Faithful(next, after)
  {
  }

  lemma SpokenKeepsFaith(cfg: Config, c: Core, fd: int, m: Message, channel: Channel, r: ModeRun,
                         letter: char)
    requires |m.params| >= 1 && Inv(c) && fd in c.clients
    requires Faithful(r, Replay(cfg, c, fd, m, channel, r))
    requires !Quiet(r, ModeChar(cfg, c, fd, m, r, letter))
    ensures var next := ModeChar(cfg, c, fd, m, r, letter);
      Faithful(next, Replay(cfg, c, fd, m, channel, next))
  {
    var next := ModeChar(cfg, c, fd, m, r, letter);
    var q := Replay(cfg, c, fd, m, channel, r);
    var turned := q.(adding := r.adding, signSeen := true);
    var params := LetterReplays(cfg, c, fd, m, r, letter, turned, Announced(m, next));
    SpokenIsFaithful(cfg, c, fd, m, channel, r, next, letter, params);
  }

  lemma SpokenIsFaithful(cfg: Config, c: Core, fd: int, m: Message, channel: Channel, r: ModeRun,
                         next: ModeRun, letter: char, params: seq<string>)
    requires |m.params| >= 1 && fd in c.clients
    requires Faithful(r, Replay(cfg, c, fd, m, channel, r)) && Spoken(r, next, letter, params)
    requires var turned := Replay(cfg, c, fd, m, channel, r).(adding := r.adding, signSeen := true);
      SameSpot(r, turned, Announced(m, next), params) ==>
        Echo(turned, ModeChar(cfg, c, fd, Announced(m, next), turned, letter), next.channel, letter, params)
    ensures Faithful(next, Replay(cfg, c, fd, m, channel, next))
  {
    var q := Replay(cfg, c, fd, m, channel, r);
    var turned := q.(adding := r.adding, signSeen := true);
    var said := Announced(m, next);
    AnnouncedTail(r, next, letter, params);
    AnnouncedGrows(m, r, next, letter, params);
    assert SameSpot(r, turned, said, params);
    var at := ReplayTurns(cfg, c, fd, m, channel, r, q, next, letter, params);
    var after := ModeChar(cfg, c, fd, said, turned, letter);
    EchoIsFaithful(r, q, next, letter, params, after);
    ModeUpToLast(cfg, c, fd, said, channel, next.changedModes, turned);
  }

  lemma ModeUpToNext(cfg: Config, c: Core, fd: int, m: Message, channel: Channel, modes: string, n: nat, r: ModeRun)
    requires fd in c.clients && 0 < n <= |modes|
    requires ModeUpTo(cfg, c, fd, m, channel, modes, n - 1) == r
    ensures ModeUpTo(cfg, c, fd, m, channel, modes, n) == ModeChar(cfg, c, fd, m, r, modes[n - 1])
  {
  }

  lemma ModeUpToLast(cfg: Config, c: Core, fd: int, m: Message, channel: Channel, modes: string, r: ModeRun)
    requires fd in c.clients && modes != ""
    requires ModeUpTo(cfg, c, fd, m, channel, modes, |modes| - 1) == r
    ensures ModeUpTo(cfg, c, fd, m, channel, modes, |modes|)
         == ModeChar(cfg, c, fd, m, r, modes[|modes| - 1])
  {
  }

  lemma {:induction false} ReplayUpTo(cfg: Config, c: Core, fd: int, m: Message, channel: Channel,
                                      modes: string, n: nat)
    requires |m.params| >= 1 && Inv(c) && fd in c.clients && n <= |modes|
    ensures var r := ModeUpTo(cfg, c, fd, m, channel, modes, n);
      Faithful(r, Replay(cfg, c, fd, m, channel, r))
  {
    if n > 0 {
      ReplayUpTo(cfg, c, fd, m, channel, modes, n - 1);
      var r := ModeUpTo(cfg, c, fd, m, channel, modes, n - 1);
      var next := ModeChar(cfg, c, fd, m, r, modes[n - 1]);
      if Quiet(r, next) {
        QuietKeepsFaith(cfg, c, fd, m, channel, r, next);
      } else {
        SpokenKeepsFaith(cfg, c, fd, m, channel, r, modes[n - 1]);
      }
    }
  }

  /** MODE notices replay: sent as a command by the same operator to the same
      channel, the announced letters and parameters are consumed to the last,
      give the same channel and exactly the same notice, with no error reply,
      however many letters of the original failed or changed nothing. */
  lemma ModeNoticeReplays(cfg: Config, c: Core, fd: int, m: Message, k: string)
    requires Inv(c) && fd in c.clients && m.command == "MODE" && |m.params| >= 2
    requires m.params[0] != "" && m.params[0][0] == '#' && k == Fold(m.params[0])
    requires HasMember(c, fd, k) && IsOperator(c, fd, k)
    ensures var r := ModeUpTo(cfg, c, fd, m, c.channels[k], m.params[1], |m.params[1]|);
      var again := Announced(m, r);
      && Mode(cfg, c, fd, m).core == Mode(cfg, c, fd, again).core
      && Mode(cfg, c, fd, m).sends == r.sends + Mode(cfg, c, fd, again).sends
      && Mode(cfg, c, fd, again).sends == ModeNotice(c, fd, r)
      && Replay(cfg, c, fd, m, c.channels[k], r).argIndex == |again.params|
      && (r.changedModes == "" ==> Mode(cfg, c, fd, m).core == c)
  {
    var channel := c.channels[k];
    var modes := m.params[1];
    var r := ModeUpTo(cfg, c, fd, m, channel, modes, |modes|);
    ReplayUpTo(cfg, c, fd, m, channel, modes, |modes|);
    var q := Replay(cfg, c, fd, m, channel, r);
    var again := Announced(m, r);
    assert again.params[0] == m.params[0] && again.params[1] == r.changedModes;
    assert ModeNotice(c, fd, q) == ModeNotice(c, fd, r);
    assert Mode(cfg, c, fd, again) == ModeChange(cfg, c, fd, again, channel);
    assert [] + ModeNotice(c, fd, r) == ModeNotice(c, fd, r);
    if r.changedModes == "" {
      assert q == ModeStart(channel);
      assert ChannelOk(channel, k);
      assert c.channels[k := channel] == c.channels;
    }
  }

  // ---------------------------------------------------------- on the wire

  /** No more parameters are announced than were consumed. */
  predicate Counted(m: Message, r: ModeRun) {
    |r.changedParams| + 2 <= r.argIndex && (r.argIndex <= |m.params| || r.argIndex == 2)
  }

  lemma LetterCounts(cfg: Config, c: Core, fd: int, m: Message, r: ModeRun, letter: char)
    requires fd in c.clients && Counted(m, r)
    ensures Counted(m, ModeChar(cfg, c, fd, m, r, letter))
  {
  }

  predicate SaysWords(r: ModeRun) {
    AllWords(r.changedParams) && (r.changedModes == "" || Word(r.changedModes))
  }

  /** Announced parameters are words: keys, nicknames or numbers. */
  lemma LetterSaysWords(cfg: Config, c: Core, fd: int, m: Message, r: ModeRun, letter: char)
    requires Inv(c) && fd in c.clients && SaysWords(r)
    ensures SaysWords(ModeChar(cfg, c, fd, m, r, letter))
  {
    var next := ModeChar(cfg, c, fd, m, r, letter);
    var params := LetterReplays(cfg, c, fd, m, r, letter, r, m);
    if !Quiet(r, next) {
      SignedLetterIsWord(r, letter);
      ParamIsWord(cfg, c, fd, m, r, letter);
    }
  }

  lemma SignedLetterIsWord(r: ModeRun, letter: char)
    requires letter in "itkol" && (r.changedModes == "" || Word(r.changedModes))
    ensures Word(r.changedModes + SignPart(r) + [letter])
  {
    var w := r.changedModes + SignPart(r) + [letter];
    forall i | 0 <= i < |w| ensures TokenChar(w[i]) {
      if i < |r.changedModes| { assert TokenChar(r.changedModes[i]); }
    }
  }

  lemma KeyIsWord(key: string)
    requires ValidChannelKey(key)
    ensures Word(key)
  {
    forall i | 0 <= i < |key| ensures TokenChar(key[i]) { assert KeyChar(key[i]); }
  }

  lemma DigitsAreWord(s: string)
    requires s != "" && AllDigits(s)
    ensures Word(s)
  {
  }

  lemma WordsAppend(words: seq<string>, more: seq<string>)
    requires AllWords(words) && AllWords(more)
    ensures AllWords(words + more)
  {
    forall i | 0 <= i < |words + more| ensures Word((words + more)[i]) {
      if i < |words| { assert Word(words[i]); } else { assert Word(more[i - |words|]); }
    }
  }

  lemma OneWord(word: string)
    requires Word(word)
    ensures AllWords([word])
  {
  }

  lemma ParamIsWord(cfg: Config, c: Core, fd: int, m: Message, r: ModeRun, letter: char)
    requires Inv(c) && fd in c.clients && AllWords(r.changedParams)
    ensures AllWords(ModeChar(cfg, c, fd, m, r, letter).changedParams)
  {
    var next := ModeChar(cfg, c, fd, m, r, letter);
    if next.changedParams != r.changedParams && r.argIndex < |m.params| {
      var arg := m.params[r.argIndex];
      if letter == 'k' {
        KeyIsWord(arg);
        OneWord(arg);
        WordsAppend(r.changedParams, [arg]);
      } else if letter == 'l' {
        DigitsAreWord(arg);
        OneWord(arg);
        WordsAppend(r.changedParams, [arg]);
      } else if letter == 'o' && FindNick(c, arg).Some? {
        var target := FindNick(c, arg).value;
        assert Indexed(c, Fold(arg), target);
        assert Named(c, Fold(arg), target);
        assert ClientOk(c.clients[target], target);
        NicknameIsWord(c.clients[target].nickname);
        OneWord(c.clients[target].nickname);
        WordsAppend(r.changedParams, [c.clients[target].nickname]);
      }
    } else {
      assert r.changedParams + [] == r.changedParams;
    }
  }

  lemma {:induction false} AnnouncementIsWords(cfg: Config, c: Core, fd: int, m: Message,
                                               channel: Channel, modes: string, n: nat)
    requires Inv(c) && fd in c.clients && n <= |modes|
    ensures var r := ModeUpTo(cfg, c, fd, m, channel, modes, n);
      SaysWords(r) && Counted(m, r)
  {
    if n > 0 {
      AnnouncementIsWords(cfg, c, fd, m, channel, modes, n - 1);
      var r := ModeUpTo(cfg, c, fd, m, channel, modes, n - 1);
      LetterSaysWords(cfg, c, fd, m, r, modes[n - 1]);
      LetterCounts(cfg, c, fd, m, r, modes[n - 1]);
    }
  }

  lemma ChannelNameIsWord(name: string)
    requires ValidChannelName(name)
    ensures Word(name)
  {
    forall i | 0 <= i < |name| ensures TokenChar(name[i]) {
      if i > 0 { assert ChannelNameChar(name[i]); }
    }
  }

  /** What a peer reads. The announcement read back by a client is the one made
      exactly when no announced parameter, in practice no key, begins with a
      colon; a key that does ends the parameter list there. */
  lemma ModeNoticeOnTheWire(cfg: Config, c: Core, fd: int, m: Message, k: string)
    requires Inv(c) && fd in c.clients && c.clients[fd].fd == fd && k in c.channels
    requires 2 <= |m.params| <= MAX_PARAMS
    ensures var r := ModeUpTo(cfg, c, fd, m, c.channels[k], m.params[1], |m.params[1]|);
      r.changedModes != "" ==>
        var words := [r.channel.name, r.changedModes] + r.changedParams;
        && |ModeNotice(c, fd, r)| == 1
        && ((ParseLine(ModeNotice(c, fd, r)[0].text)
             == Some(Message(ClientPrefix(c.clients[fd]), "MODE", words)))
            <==> NoLeadingColon(r.changedParams))
  {
    var channel := c.channels[k];
    var modes := m.params[1];
    var r := ModeUpTo(cfg, c, fd, m, channel, modes, |modes|);
    if r.changedModes != "" {
      AnnouncementIsWords(cfg, c, fd, m, channel, modes, |modes|);
      ModeUpToFrame(cfg, c, fd, m, channel, modes, |modes|);
      assert ChannelOk(channel, k);
      assert ClientOk(c.clients[fd], fd);
      PrefixSafe(c.clients[fd]);
      var words := [r.channel.name, r.changedModes] + r.changedParams;
      NoticeWords(r, words);
      WordsSurviveTheWire(ClientPrefix(c.clients[fd]), "MODE", words);
      ChangedModesPlain(cfg, c, fd, m, channel, modes, |modes|);
      ColonsOfNotice(r, words);
    }
  }

  lemma NoticeWords(r: ModeRun, words: seq<string>)
    requires words == [r.channel.name, r.changedModes] + r.changedParams
    requires ValidChannelName(r.channel.name) && Word(r.changedModes) && AllWords(r.changedParams)
    ensures AllWords(words)
  {
    ChannelNameIsWord(r.channel.name);
    forall i | 0 <= i < |words| ensures Word(words[i]) {
      if i >= 2 { assert Word(r.changedParams[i - 2]); }
    }
  }

  /** Announced letters begin with a sign. */
  lemma {:induction false} ChangedModesPlain(cfg: Config, c: Core, fd: int, m: Message,
                                             channel: Channel, modes: string, n: nat)
    requires Inv(c) && fd in c.clients && n <= |modes|
    ensures var r := ModeUpTo(cfg, c, fd, m, channel, modes, n);
      if r.changedModes == "" then r.lastSign == None
      else r.changedModes[0] == '+' || r.changedModes[0] == '-'
  {
    if n > 0 {
      ChangedModesPlain(cfg, c, fd, m, channel, modes, n - 1);
      var r := ModeUpTo(cfg, c, fd, m, channel, modes, n - 1);
      var params := LetterReplays(cfg, c, fd, m, r, modes[n - 1], r, m);
      FirstSign(r, ModeChar(cfg, c, fd, m, r, modes[n - 1]), modes[n - 1], params);
    }
  }

  lemma FirstSign(r: ModeRun, next: ModeRun, letter: char, params: seq<string>)
    requires Quiet(r, next) || Spoken(r, next, letter, params)
    requires if r.changedModes == "" then r.lastSign == None
             else r.changedModes[0] == '+' || r.changedModes[0] == '-'
    ensures if next.changedModes == "" then next.lastSign == None
            else next.changedModes[0] == '+' || next.changedModes[0] == '-'
  {
  }

  lemma ColonsOfNotice(r: ModeRun, words: seq<string>)
    requires words == [r.channel.name, r.changedModes] + r.changedParams
    requires ValidChannelName(r.channel.name) && r.changedModes != "" && r.changedModes[0] != ':'
    ensures NoLeadingColon(words) <==> NoLeadingColon(r.changedParams)
  {
    assert words[1..][1..] == r.changedParams;
    ColonSplit(words);
    ColonSplit(words[1..]);
  }

  // ----------------------------------------------------------- mode query

  /** A channel with every mode off. */
  function AllOff(channel: Channel): Channel {
    channel.(inviteOnly := false, topicRestricted := false).ClearKey().ClearLimit()
  }

  /** The MODE message the 324 reply amounts to. */
  function QueryAnswer(target: string, channel: Channel): Message {
    Message("", "MODE", [target, channel.ModeString()] + channel.ModeParameters())
  }

  lemma OneMoreIf(cfg: Config, c: Core, fd: int, m: Message, channel: Channel, s: string,
                  on: bool, letter: char, t: string)
    requires fd in c.clients && t == s + (if on then [letter] else "")
    ensures var r := ModeUpTo(cfg, c, fd, m, channel, s, |s|);
      ModeUpTo(cfg, c, fd, m, channel, t, |t|) == if on then ModeChar(cfg, c, fd, m, r, letter) else r
  {
    PrefixSame(cfg, c, fd, m, channel, s, t, |s|);
    if on { ModeUpToNext(cfg, c, fd, m, channel, t, |t|, ModeUpTo(cfg, c, fd, m, channel, s, |s|)); }
    else { assert t == s; }
  }

  lemma PrefixSame(cfg: Config, c: Core, fd: int, m: Message, channel: Channel, s: string, t: string, n: nat)
    requires fd in c.clients && n <= |s| && s <= t
    ensures ModeUpTo(cfg, c, fd, m, channel, s, n) == ModeUpTo(cfg, c, fd, m, channel, t, n)
  {
    var r := ModeStart(channel);
    for i := 0 to n
      invariant r == ModeUpTo(cfg, c, fd, m, channel, s, i) == ModeUpTo(cfg, c, fd, m, channel, t, i)
    {
      ModeUpToNext(cfg, c, fd, m, channel, s, i + 1, r);
      ModeUpToNext(cfg, c, fd, m, channel, t, i + 1, r);
      assert s[i] == t[i];
      r := ModeChar(cfg, c, fd, m, r, s[i]);
    }
  }

  /** The mode query round-trips: run on a channel with every mode off, the
      letters and parameters of the 324 reply restore modes i, t, k and l
      exactly, with no error reply. */
  lemma ModeQueryRoundTrips(cfg: Config, c: Core, fd: int, target: string, channel: Channel)
    requires fd in c.clients && ModesOk(channel)
    ensures var m := QueryAnswer(target, channel);
      var r := ModeUpTo(cfg, c, fd, m, AllOff(channel), m.params[1], |m.params[1]|);
      r.channel == channel && r.sends == [] && r.argIndex == |m.params|
  {
    var m := QueryAnswer(target, channel);
    var off := AllOff(channel);
    var flags := "+" + (if channel.inviteOnly then "i" else "") + (if channel.topicRestricted then "t" else "");
    var keyed := flags + (if channel.keyEnabled then "k" else "");
    var full := keyed + (if channel.limitEnabled then "l" else "");
    var r := FlagsRestored(cfg, c, fd, m, off, channel.inviteOnly, channel.topicRestricted, flags);
    OneMoreIf(cfg, c, fd, m, off, flags, channel.keyEnabled, 'k', keyed);
    KeyRestored(cfg, c, fd, m, channel, r);
    var r' := ModeUpTo(cfg, c, fd, m, off, keyed, |keyed|);
    OneMoreIf(cfg, c, fd, m, off, keyed, channel.limitEnabled, 'l', full);
    LimitRestored(cfg, c, fd, m, channel, r');
    assert m.params[1] == full;
  }

  lemma KeyRestored(cfg: Config, c: Core, fd: int, m: Message, channel: Channel, r: ModeRun)
    requires fd in c.clients && ModesOk(channel)
    requires channel.keyEnabled
      ==> |m.params| >= 3 && m.params[2] == channel.channelKey && r.adding && r.signSeen && r.argIndex == 2
    ensures channel.keyEnabled ==>
      var next := ModeChar(cfg, c, fd, m, r, 'k');
      next.channel == r.channel.SetKey(channel.channelKey) && next.sends == r.sends && next.argIndex == 3
      && next.adding && next.signSeen
  {
  }

  lemma LimitRestored(cfg: Config, c: Core, fd: int, m: Message, channel: Channel, r: ModeRun)
    requires fd in c.clients && ModesOk(channel)
    requires channel.limitEnabled
      ==> r.argIndex < |m.params| && m.params[r.argIndex] == Decimal(channel.userLimit) && r.adding && r.signSeen
    ensures channel.limitEnabled ==>
      var next := ModeChar(cfg, c, fd, m, r, 'l');
      next.channel == r.channel.SetLimit(channel.userLimit) && next.sends == r.sends
      && next.argIndex == r.argIndex + 1
  {
  }

  lemma FlagsRestored(cfg: Config, c: Core, fd: int, m: Message, off: Channel,
                      inviteOnly: bool, topicRestricted: bool, flags: string) returns (r: ModeRun)
    requires fd in c.clients && !off.inviteOnly && !off.topicRestricted
    requires flags == "+" + (if inviteOnly then "i" else "") + (if topicRestricted then "t" else "")
    ensures r == ModeUpTo(cfg, c, fd, m, off, flags, |flags|)
    ensures r.channel == off.(inviteOnly := inviteOnly, topicRestricted := topicRestricted)
    ensures r.sends == [] && r.argIndex == 2 && r.adding && r.signSeen
  {
    var invited := "+" + (if inviteOnly then "i" else "");
    OneMoreIf(cfg, c, fd, m, off, "", true, '+', "+");
    OneMoreIf(cfg, c, fd, m, off, "+", inviteOnly, 'i', invited);
    OneMoreIf(cfg, c, fd, m, off, invited, topicRestricted, 't', flags);
    r := ModeUpTo(cfg, c, fd, m, off, flags, |flags|);
  }
}
