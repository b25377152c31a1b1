/** What two clients type to register and meet in a channel, and what the
    server's relational state becomes line by line
    (services/irc/prd/handler/ServerAuthCommands.cpp,
    services/irc/prd/handler/ServerChannelCommands.cpp). */
module Scripts {
  import opened IrcUtil
  import opened Strings
  import opened Domain
  import opened Ordered
  import opened Reply
  import opened Parser
  import opened Commands
  import opened Moves
  import opened CommandMoves
  import opened Membership
  import opened Delivery
  import opened Sends

  /** A configuration with a typable password and replies of moderate length. */
  ghost predicate Modest(cfg: Config) {
    && SafeToken(cfg.serverName) && |cfg.serverName| <= 100
    && Word(cfg.password) && !LeadsColon(cfg.password) && |cfg.password| <= 100
    && cfg.listenFd != 5 && cfg.listenFd != 6
    && forall code: int :: |cfg.text(code)| <= 100
  }

  // ------------------------------------------------------------ typed lines

  const CHANNEL: string := "#c"

  /** A command of plain words, as a client types it. */
  function Typed(command: string, words: seq<string>): string
    requires words != []
  {
    Command("", command, SpacedText(words)[1..])
  }

  predicate Typable(command: string, words: seq<string>) {
    && SafeToken(command) && ToUpper(command) == command
    && words != [] && AllWords(words) && NoLeadingColon(words) && |words| <= MAX_PARAMS
    && |Typed(command, words)| <= IRC_MAX_CONTENT
  }

  lemma ShortTyped(command: string, words: seq<string>)
    requires SafeToken(command) && |command| <= 10 && words != [] && |words| <= 4
    requires forall i {:trigger words[i]} :: 0 <= i < |words| ==> |words[i]| <= 100
    ensures |Typed(command, words)| <= IRC_MAX_CONTENT
  {
    CommandLength("", command, SpacedText(words)[1..]);
    SpacedLength(words);
  }

  lemma {:induction false} SpacedLength(words: seq<string>)
    requires forall i {:trigger words[i]} :: 0 <= i < |words| ==> |words[i]| <= 100
    ensures |SpacedText(words)| <= 101 * |words|
    decreases |words|
  {
    if words != [] { SpacedLength(words[1..]); }
  }

  lemma OneWordTypable(command: string, word: string)
    requires SafeToken(command) && ToUpper(command) == command && |command| <= 10
    requires Word(word) && !LeadsColon(word) && |word| <= 100
    ensures Typable(command, [word])
  {
    ShortTyped(command, [word]);
  }

  lemma UserTypable()
    ensures Typable("USER", ["u", "0", "*", "r"])
  {
    var words := ["u", "0", "*", "r"];
    forall i | 0 <= i < |words| ensures Word(words[i]) && !LeadsColon(words[i]) && |words[i]| <= 100 { }
    ShortTyped("USER", words);
  }

  lemma JoinTypable()
    ensures Typable("JOIN", [CHANNEL])
  {
    OneWordTypable("JOIN", CHANNEL);
  }

  // -------------------------------------------------------- sizes of lines

  const LINE_BOUND: nat := 1000

  predicate Small(sends: seq<Send>) {
    forall i {:trigger sends[i]} :: 0 <= i < |sends| ==> |Normalize(sends[i].text)| <= LINE_BOUND
  }

  lemma CommandLength(prefix: string, command: string, text: string)
    ensures |Command(prefix, command, text)| <= |prefix| + |command| + |text| + 3
  {
    SanitizeShrinks(text);
  }

  lemma NumericLength(cfg: Config, me: Client, code: int, text: string)
    ensures |Numeric(cfg.serverName, me, code, text)| <= |cfg.serverName| + |TargetName(me)| + |text| + 7
  {
    SanitizeShrinks(text);
  }

  /** The record of one of the two clients. */
  function Person(fd: int, nick: string): Client {
    Client(fd, "h", nick, "u", "r", true, true, true, {})
  }

  predicate IsNick(nick: string) { nick == "a" || nick == "b" }

  lemma WelcomeSmall(cfg: Config, fd: int, nick: string)
    requires Modest(cfg) && IsNick(nick)
    ensures Small(Welcome(cfg, Person(fd, nick))) && |Welcome(cfg, Person(fd, nick))| == 5
  {
    var me := Person(fd, nick);
    NumericLength(cfg, me, 1, ":" + cfg.text(1) + ClientPrefix(me));
    NumericLength(cfg, me, 2, ":" + cfg.text(2));
    NumericLength(cfg, me, 3, ":" + cfg.text(3));
    NumericLength(cfg, me, 4, cfg.serverName + cfg.text(4));
    NumericLength(cfg, me, 422, ":" + cfg.text(422));
  }

  lemma {:induction false} NamesLength(c: Core, channel: Channel, fds: seq<int>)
    requires forall fd :: fd in c.clients ==> |c.clients[fd].nickname| <= 9
    ensures |NamesText(c, channel, fds)| <= 11 * |fds|
    decreases |fds|
  {
    if fds != [] { NamesLength(c, channel, fds[..|fds| - 1]); }
  }

  lemma {:induction false} AscendingLength(s: set<int>)
    ensures |Ascending(s)| == |s|
    decreases |s|
  {
    if s != {} { AscendingLength(s - {Min(s)}); }
  }

  // ------------------------------------------------------ the four commands

  lemma ShortFolds()
    ensures Fold("a") == "a" && Fold("b") == "b" && Fold(CHANNEL) == CHANNEL
  {
    assert Fold("a") == [FoldChar('a')];
    assert Fold("b") == [FoldChar('b')];
    assert Fold(CHANNEL) == [FoldChar('#'), FoldChar('c')];
  }

  lemma PassDone(cfg: Config, c: Core, fd: int)
    requires Inv(c) && fd in c.clients && c.clients[fd] == NewClient(fd, "h")
    ensures Dispatch(cfg, c, fd, Message("", "PASS", [cfg.password]))
         == Effect(SetClient(c, NewClient(fd, "h").(passwordAccepted := true)), [])
  {
  }

  lemma NickDone(cfg: Config, c: Core, fd: int, nick: string)
    requires Inv(c) && fd in c.clients && c.clients[fd] == NewClient(fd, "h").(passwordAccepted := true)
    requires IsNick(nick) && nick !in c.nickToFd
    ensures Dispatch(cfg, c, fd, Message("", "NICK", [nick]))
         == Effect(SetClient(c.(nickToFd := c.nickToFd[nick := fd]), c.clients[fd].(nickname := nick)), [])
  {
    ShortFolds();
  }

  lemma UserDone(cfg: Config, c: Core, fd: int, nick: string)
    requires Inv(c) && fd in c.clients && IsNick(nick)
    requires c.clients[fd] == NewClient(fd, "h").(passwordAccepted := true, nickname := nick)
    ensures Dispatch(cfg, c, fd, Message("", "USER", ["u", "0", "*", "r"]))
         == Effect(SetClient(c, Person(fd, nick)), Welcome(cfg, Person(fd, nick)))
  {
    assert UsernameChar("u"[0]);
  }

  lemma JoinShape(cfg: Config, c: Core, fd: int)
    requires Inv(c) && fd in c.clients && c.clients[fd].fd == fd && c.clients[fd].registered
    ensures Dispatch(cfg, c, fd, Message("", "JOIN", [CHANNEL])) == JoinOne(cfg, c, fd, CHANNEL, "")
  {
    WholeField(CHANNEL);
    var e := JoinOne(cfg, c, fd, CHANNEL, "");
    assert JoinUpTo(cfg, c, fd, [CHANNEL], [], 0) == Effect(c, []);
    assert [] + e.sends == e.sends;
  }

  predicate Short(text: string) { |Normalize(text)| <= LINE_BOUND }

  /** What the two lines of a NAMES reply to a channel of two can come to. */
  lemma NamesShort(cfg: Config, c: Core, me: Client, channel: Channel)
    requires Modest(cfg) && |me.nickname| <= 9 && channel.name == CHANNEL && |channel.members| <= 2
    requires forall x :: x in c.clients ==> |c.clients[x].nickname| <= 9
    ensures Short(Numeric(cfg.serverName, me, 353,
                          "= " + channel.name + " :" + NamesText(c, channel, Ascending(channel.members))))
    ensures Short(Numeric(cfg.serverName, me, 366, channel.name + Say(cfg, 366)))
  {
    AscendingLength(channel.members);
    NamesLength(c, channel, Ascending(channel.members));
    NumericLength(cfg, me, 353, "= " + channel.name + " :" + NamesText(c, channel, Ascending(channel.members)));
    NumericLength(cfg, me, 366, channel.name + Say(cfg, 366));
  }

  lemma JoinNoticeShort(cfg: Config, me: Client)
    requires Modest(cfg) && |me.nickname| <= 9 && me.username == "u" && me.hostname == "h"
    ensures Short(Command(ClientPrefix(me), "JOIN", ":" + CHANNEL))
    ensures Short(Numeric(cfg.serverName, me, 331, CHANNEL + Say(cfg, 331)))
  {
    CommandLength(ClientPrefix(me), "JOIN", ":" + CHANNEL);
    NumericLength(cfg, me, 331, CHANNEL + Say(cfg, 331));
  }

  lemma FourSmall(a: Send, b: Send, c: Send, d: Send)
    requires Short(a.text) && Short(b.text) && Short(c.text) && Short(d.text)
    ensures Small([a, b, c, d])
  {
    assert forall x: Send :: x in [a, b, c, d] ==> x == a || x == b || x == c || x == d;
  }

  lemma AdmitSmall(cfg: Config, c: Core, fd: int, channel: Channel, created: bool)
    requires Modest(cfg) && fd in c.clients && c.clients[fd].fd == fd && channel.name == CHANNEL && channel.topic == ""
    requires forall x :: x in c.clients ==> |c.clients[x].nickname| <= 9
    requires c.clients[fd].username == "u" && c.clients[fd].hostname == "h" && |channel.members + {fd}| <= 2
    ensures Small(Admit(cfg, c, fd, channel, created).sends) && |Admit(cfg, c, fd, channel, created).sends| == 4
  {
    var after := Joined(c, fd, channel, created);
    var grown := after.channels[channel.keyName];
    var me := after.clients[fd];
    assert grown.members == channel.members + {fd} && grown.name == CHANNEL && grown.topic == "";
    JoinNoticeShort(cfg, me);
    NamesShort(cfg, after, me, grown);
    var sends := Admit(cfg, c, fd, channel, created).sends;
    FourSmall(sends[0], sends[1], sends[2], sends[3]);
    assert sends == [sends[0], sends[1], sends[2], sends[3]];
  }

  // ---------------------------------------------------------------- scripts

  /** A line to be typed by a client. */
  datatype Input = Input(fd: int, command: string, words: seq<string>)

  ghost function Outcome(cfg: Config, c: Core, s: Input): Effect
    requires Inv(c) && s.fd in c.clients
  {
    assert ClientOk(c.clients[s.fd], s.fd);
    Dispatch(cfg, c, s.fd, Message("", s.command, s.words))
  }

  /** A line that can be typed, is not QUIT and has small consequences. */
  ghost predicate Proper(cfg: Config, c: Core, s: Input, d: Core) {
    && Inv(c) && s.fd in c.clients && (s.fd == 5 || s.fd == 6)
    && s.words != [] && Typable(s.command, s.words) && s.command != "QUIT"
    && Small(Outcome(cfg, c, s).sends) && |Outcome(cfg, c, s).sends| <= 5
    && Outcome(cfg, c, s).core == d
  }

  lemma PassPlays(cfg: Config, c: Core, fd: int)
    requires Modest(cfg) && Inv(c) && fd in c.clients && c.clients[fd] == NewClient(fd, "h") && (fd == 5 || fd == 6)
    ensures Proper(cfg, c, Input(fd, "PASS", [cfg.password]),
      SetClient(c, NewClient(fd, "h").(passwordAccepted := true)))
  {
    OneWordTypable("PASS", cfg.password);
    PassDone(cfg, c, fd);
  }

  lemma NickPlays(cfg: Config, c: Core, fd: int, nick: string)
    requires Inv(c) && fd in c.clients && (fd == 5 || fd == 6) && IsNick(nick) && nick !in c.nickToFd
    requires c.clients[fd] == NewClient(fd, "h").(passwordAccepted := true)
    ensures Proper(cfg, c, Input(fd, "NICK", [nick]),
      SetClient(c.(nickToFd := c.nickToFd[nick := fd]), c.clients[fd].(nickname := nick)))
  {
    OneWordTypable("NICK", nick);
    NickDone(cfg, c, fd, nick);
  }

  lemma UserPlays(cfg: Config, c: Core, fd: int, nick: string)
    requires Modest(cfg) && Inv(c) && fd in c.clients && (fd == 5 || fd == 6) && IsNick(nick)
    requires c.clients[fd] == NewClient(fd, "h").(passwordAccepted := true, nickname := nick)
    ensures Proper(cfg, c, Input(fd, "USER", ["u", "0", "*", "r"]), SetClient(c, Person(fd, nick)))
  {
    UserTypable();
    UserDone(cfg, c, fd, nick);
    WelcomeSmall(cfg, fd, nick);
  }

  lemma JoinPlays(cfg: Config, c: Core, fd: int, channel: Channel, created: bool)
    requires Modest(cfg) && Inv(c) && fd in c.clients && c.clients[fd].fd == fd && c.clients[fd].registered
    requires (fd == 5 || fd == 6) && JoinOne(cfg, c, fd, CHANNEL, "") == Admit(cfg, c, fd, channel, created)
    requires channel.name == CHANNEL && channel.topic == "" && |channel.members + {fd}| <= 2
    requires (forall x :: x in c.clients ==> |c.clients[x].nickname| <= 9)
    requires c.clients[fd].username == "u" && c.clients[fd].hostname == "h"
    ensures Proper(cfg, c, Input(fd, "JOIN", [CHANNEL]), Joined(c, fd, channel, created))
  {
    JoinTypable();
    JoinShape(cfg, c, fd);
    AdmitSmall(cfg, c, fd, channel, created);
  }

  // ---------------------------------------------------------- the meeting

  function Stranger(fd: int): Client { NewClient(fd, "h") }

  function Trusted(fd: int): Client { Stranger(fd).(passwordAccepted := true) }

  function Nicknamed(fd: int, nick: string): Client { Trusted(fd).(nickname := nick) }

  function Guest(fd: int, nick: string): Client { Person(fd, nick).(joined := {CHANNEL}) }

  function Pair(five: Client, six: Client, channels: map<string, Channel>, nicks: map<string, int>): Core {
    Core(map[5 := five, 6 := six], channels, nicks)
  }

  function Founder(): Channel { NewChannel(CHANNEL, CHANNEL).AddMember(5).AddOperator(5) }

  /** Both registered, both in the channel. */
  function Meeting(): Core {
    Pair(Guest(5, "a"), Guest(6, "b"), map[CHANNEL := Founder().AddMember(6)], map["a" := 5, "b" := 6])
  }

  lemma ProperKeeps(cfg: Config, c: Core, s: Input, d: Core)
    requires Proper(cfg, c, s, d)
    ensures Inv(d)
  {
    DispatchKeeps(cfg, c, s.fd, Message("", s.command, s.words));
  }

  /** One of the pair at the keyboard. */
  function PairOf(fd: int, me: Client, other: Client, channels: map<string, Channel>, nicks: map<string, int>): Core {
    if fd == 5 then Pair(me, other, channels, nicks) else Pair(other, me, channels, nicks)
  }

  lemma PairSet(fd: int, me: Client, other: Client, channels: map<string, Channel>, nicks: map<string, int>, x: Client)
    requires (fd == 5 || fd == 6) && x.fd == fd
    ensures var c := PairOf(fd, me, other, channels, nicks);
      fd in c.clients && c.clients[fd] == me && SetClient(c, x) == PairOf(fd, x, other, channels, nicks)
  {
    var c := PairOf(fd, me, other, channels, nicks);
    assert SetClient(c, x).clients == PairOf(fd, x, other, channels, nicks).clients;
  }

  lemma PairTurned()
    ensures PairOf(5, Person(5, "a"), Stranger(6), map[], map[]["a" := 5])
         == PairOf(6, Stranger(6), Person(5, "a"), map[], map["a" := 5])
    ensures PairOf(6, Person(6, "b"), Person(5, "a"), map[], map["a" := 5]["b" := 6])
         == Pair(Person(5, "a"), Person(6, "b"), map[], map["a" := 5, "b" := 6])
  {
  }

  /** PASS, NICK and USER of one of the pair. */
  lemma Registering(cfg: Config, fd: int, nick: string, other: Client, nicks: map<string, int>)
    requires Modest(cfg) && (fd == 5 || fd == 6) && IsNick(nick) && nick !in nicks
    requires Inv(PairOf(fd, Stranger(fd), other, map[], nicks))
    ensures var c0 := PairOf(fd, Stranger(fd), other, map[], nicks);
      var c1 := PairOf(fd, Trusted(fd), other, map[], nicks);
      var c2 := PairOf(fd, Nicknamed(fd, nick), other, map[], nicks[nick := fd]);
      var c3 := PairOf(fd, Person(fd, nick), other, map[], nicks[nick := fd]);
      && Proper(cfg, c0, Input(fd, "PASS", [cfg.password]), c1)
      && Proper(cfg, c1, Input(fd, "NICK", [nick]), c2)
      && Proper(cfg, c2, Input(fd, "USER", ["u", "0", "*", "r"]), c3)
      && Inv(c3)
  {
    var c0 := PairOf(fd, Stranger(fd), other, map[], nicks);
    PairSet(fd, Stranger(fd), other, map[], nicks, Trusted(fd));
    PassPlays(cfg, c0, fd);
    var c1 := PairOf(fd, Trusted(fd), other, map[], nicks);
    ProperKeeps(cfg, c0, Input(fd, "PASS", [cfg.password]), c1);
    RegisteringNamed(cfg, fd, nick, other, nicks);
  }

  lemma RegisteringNamed(cfg: Config, fd: int, nick: string, other: Client, nicks: map<string, int>)
    requires Modest(cfg) && (fd == 5 || fd == 6) && IsNick(nick) && nick !in nicks
    requires Inv(PairOf(fd, Trusted(fd), other, map[], nicks))
    ensures var c1 := PairOf(fd, Trusted(fd), other, map[], nicks);
      var c2 := PairOf(fd, Nicknamed(fd, nick), other, map[], nicks[nick := fd]);
      var c3 := PairOf(fd, Person(fd, nick), other, map[], nicks[nick := fd]);
      && Proper(cfg, c1, Input(fd, "NICK", [nick]), c2)
      && Proper(cfg, c2, Input(fd, "USER", ["u", "0", "*", "r"]), c3)
      && Inv(c3)
  {
    var c1 := PairOf(fd, Trusted(fd), other, map[], nicks);
    var c2 := PairOf(fd, Nicknamed(fd, nick), other, map[], nicks[nick := fd]);
    var c3 := PairOf(fd, Person(fd, nick), other, map[], nicks[nick := fd]);
    PairSet(fd, Trusted(fd), other, map[], nicks, Trusted(fd));
    NickPlays(cfg, c1, fd, nick);
    PairSet(fd, Trusted(fd), other, map[], nicks[nick := fd], Nicknamed(fd, nick));
    assert c1.(nickToFd := nicks[nick := fd]) == PairOf(fd, Trusted(fd), other, map[], nicks[nick := fd]);
    ProperKeeps(cfg, c1, Input(fd, "NICK", [nick]), c2);
    PairSet(fd, Nicknamed(fd, nick), other, map[], nicks[nick := fd], Person(fd, nick));
    UserPlays(cfg, c2, fd, nick);
    ProperKeeps(cfg, c2, Input(fd, "USER", ["u", "0", "*", "r"]), c3);
  }

  /** The second line of the pair: the channel is founded, then entered. */
  lemma Founding(cfg: Config, c: Core)
    requires Inv(c) && c == Pair(Person(5, "a"), Person(6, "b"), map[], map["a" := 5, "b" := 6])
    ensures JoinOne(cfg, c, 5, CHANNEL, "") == Admit(cfg, c, 5, NewChannel(CHANNEL, CHANNEL), true)
    ensures Joined(c, 5, NewChannel(CHANNEL, CHANNEL), true)
         == Pair(Guest(5, "a"), Person(6, "b"), map[CHANNEL := Founder()], map["a" := 5, "b" := 6])
  {
    ShortFolds();
    var d := Joined(c, 5, NewChannel(CHANNEL, CHANNEL), true);
    assert d.clients[5].joined == {CHANNEL};
    assert d.clients == map[5 := Guest(5, "a"), 6 := Person(6, "b")];
    assert d.channels[CHANNEL].invited == Founder().invited;
    assert d.channels == map[CHANNEL := Founder()];
  }

  lemma Entering(cfg: Config, c: Core)
    requires Inv(c) && c == Pair(Guest(5, "a"), Person(6, "b"), map[CHANNEL := Founder()], map["a" := 5, "b" := 6])
    ensures JoinOne(cfg, c, 6, CHANNEL, "") == Admit(cfg, c, 6, Founder(), false)
    ensures Joined(c, 6, Founder(), false) == Meeting()
  {
    ShortFolds();
    var d := Joined(c, 6, Founder(), false);
    assert d.clients[6].joined == {CHANNEL};
    assert d.clients == Meeting().clients;
    assert d.channels[CHANNEL].invited == Founder().invited;
    assert d.channels == Meeting().channels;
  }

  lemma FoundingPlays(cfg: Config, c: Core)
    requires Modest(cfg) && Inv(c) && c == Pair(Person(5, "a"), Person(6, "b"), map[], map["a" := 5, "b" := 6])
    ensures var d := Pair(Guest(5, "a"), Person(6, "b"), map[CHANNEL := Founder()], map["a" := 5, "b" := 6]);
      Proper(cfg, c, Input(5, "JOIN", [CHANNEL]), d) && Inv(d)
  {
    Founding(cfg, c);
    JoinPlays(cfg, c, 5, NewChannel(CHANNEL, CHANNEL), true);
    ProperKeeps(cfg, c, Input(5, "JOIN", [CHANNEL]), Joined(c, 5, NewChannel(CHANNEL, CHANNEL), true));
  }

  lemma EnteringPlays(cfg: Config, c: Core)
    requires Modest(cfg) && Inv(c)
    requires c == Pair(Guest(5, "a"), Person(6, "b"), map[CHANNEL := Founder()], map["a" := 5, "b" := 6])
    ensures Proper(cfg, c, Input(6, "JOIN", [CHANNEL]), Meeting()) && Inv(Meeting())
  {
    Entering(cfg, c);
    assert Founder().members + {6} == {5, 6};
    JoinPlays(cfg, c, 6, Founder(), false);
    ProperKeeps(cfg, c, Input(6, "JOIN", [CHANNEL]), Meeting());
  }

  // ------------------------------------------------------- a private message

  const POKE: Message := Message("", "PRIVMSG", ["b", "x"])

  /** What the second client is sent. */
  function Poke(): string { Notice(Meeting(), 5, "PRIVMSG", "b" + " :" + "x") }

  lemma PokeOne(cfg: Config)
    ensures PrivmsgOne(cfg, Meeting(), 5, "b", "x") == Effect(Meeting(), [Send({6}, Poke())])
  {
    ShortFolds();
  }

  lemma PokeAll(cfg: Config, c: Core)
    requires c == Meeting()
    ensures Privmsg(cfg, c, 5, POKE) == Effect(c, [Send({6}, Poke())])
  {
    WholeField("b");
    PokeOne(cfg);
    assert PrivmsgUpTo(cfg, c, 5, ["b"], "x", 0) == Effect(c, []);
    assert PrivmsgUpTo(cfg, c, 5, ["b"], "x", 1) == Effect(c, []).Then(PrivmsgOne(cfg, c, 5, "b", "x"));
    assert [] + [Send({6}, Poke())] == [Send({6}, Poke())];
  }

  lemma PokeDone(cfg: Config, c: Core)
    requires Inv(c) && c == Meeting()
    ensures Dispatch(cfg, c, 5, POKE) == Effect(c, [Send({6}, Poke())])
  {
    PokeAll(cfg, c);
  }

  lemma PokeTypable()
    ensures Typable("PRIVMSG", ["b", "x"])
  {
    var words := ["b", "x"];
    forall i | 0 <= i < |words| ensures Word(words[i]) && !LeadsColon(words[i]) && |words[i]| <= 100 { }
    ShortTyped("PRIVMSG", words);
  }

  const BYE: Message := Message("", "QUIT", ["goodbye"])

  /** The parting line the other would be sent. */
  function Bye(): string { Notice(Meeting(), 5, "QUIT", ":" + "goodbye") }

  lemma ByeDone(cfg: Config, c: Core)
    requires Inv(c) && c == Meeting()
    ensures Dispatch(cfg, c, 5, BYE) == Effect(c, []) && QuitReason(c, 5, BYE) == Some("goodbye")
  {
  }

  lemma ByeTypable()
    ensures Typable("QUIT", ["goodbye"])
  {
    OneWordTypable("QUIT", "goodbye");
  }

  /** What has no room for the one has no room for the other. */
  lemma ByeIsLonger()
    requires Inv(Meeting())
    ensures |Normalize(Bye())| >= |Normalize(Poke())|
  {
    var me := Meeting().clients[5];
    var prefix := ClientPrefix(me);
    CommandLength(prefix, "PRIVMSG", "b" + " :" + "x");
    SanitizeIdentity(":" + "goodbye");
    PrefixSafe(me);
    GoodLineNormal(Bye());
  }

  const RENAME: Message := Message("", "NICK", ["z"])

  lemma RenameDone(cfg: Config, c: Core)
    requires Inv(c) && c == Meeting()
    ensures var d := Dispatch(cfg, c, 6, RENAME).core;
      6 in d.clients && d.clients[6].nickname == "z" && c.clients[6].nickname == "b"
  {
    assert Fold("z") == [FoldChar('z')];
  }

  lemma RenameTypable()
    ensures Typable("NICK", ["z"])
  {
    OneWordTypable("NICK", "z");
  }
}
