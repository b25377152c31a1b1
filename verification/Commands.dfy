/** What each command does to the relational state and which messages it
    offers, as functions of the state before it. The handlers of IrcServer are
    proved against these; the laws of the other modules are about these.
    (services/irc/prd/handler, services/irc/prd/interface/ServerDispatch.cpp) */
module Commands {
  import opened IrcUtil
  import opened Strings
  import opened Domain
  import opened Ordered
  import opened Reply
  import opened Parser

  /** One message offered once to each client of a set. */
  datatype Send = Send(to: set<int>, text: string)

  datatype Effect = Effect(core: Core, sends: seq<Send>) {
    function Then(next: Effect): Effect { Effect(next.core, sends + next.sends) }
  }

  // ------------------------------------------------------------- small parts

  function Say(cfg: Config, code: int): string { " :" + cfg.text(code) }

  function ReplyTo(cfg: Config, c: Core, fd: int, code: int, parameters: string): Send
    requires fd in c.clients
  {
    Send({fd}, Numeric(cfg.serverName, c.clients[fd], code, parameters))
  }

  function Answer(cfg: Config, c: Core, fd: int, code: int, parameters: string): Effect
    requires fd in c.clients
  {
    Effect(c, [ReplyTo(cfg, c, fd, code, parameters)])
  }

  function Notice(c: Core, fd: int, command: string, parameters: string): string
    requires fd in c.clients
  {
    Command(ClientPrefix(c.clients[fd]), command, parameters)
  }

  function NeedParams(cfg: Config, c: Core, fd: int, m: Message): Effect
    requires fd in c.clients
  {
    Answer(cfg, c, fd, 461, m.command + Say(cfg, 461))
  }

  function NoSuchChannel(cfg: Config, c: Core, fd: int, name: string): Effect
    requires fd in c.clients
  {
    Answer(cfg, c, fd, 403, name + Say(cfg, 403))
  }

  function FindNick(c: Core, nickname: string): Option<int> {
    var key := Fold(nickname);
    if key in c.nickToFd && c.nickToFd[key] in c.clients then Some(c.nickToFd[key]) else None
  }

  function SetClient(c: Core, client: Client): Core {
    c.(clients := c.clients[client.fd := client])
  }

  function SetChannel(c: Core, channel: Channel): Core {
    c.(channels := c.channels[channel.keyName := channel])
  }

  /** Everyone else in some channel of the client, each looked up by folded name. */
  ghost function Neighbours(c: Core, fd: int): set<int>
    requires fd in c.clients
  {
    (set k, x | k in c.clients[fd].joined && Fold(k) in c.channels && x in c.channels[Fold(k)].members :: x) - {fd}
  }

  // ------------------------------------------------------------ registration

  function Welcome(cfg: Config, me: Client): seq<Send> {
    [ Send({me.fd}, Numeric(cfg.serverName, me, 1, ":" + cfg.text(1) + ClientPrefix(me))),
      Send({me.fd}, Numeric(cfg.serverName, me, 2, ":" + cfg.text(2))),
      Send({me.fd}, Numeric(cfg.serverName, me, 3, ":" + cfg.text(3))),
      Send({me.fd}, Numeric(cfg.serverName, me, 4, cfg.serverName + cfg.text(4))),
      Send({me.fd}, Numeric(cfg.serverName, me, 422, ":" + cfg.text(422))) ]
  }

  /** tryRegisterClient after the client record became `me`. */
  function Register(cfg: Config, c: Core, me: Client): Effect {
    if !me.registered && me.Complete() then
      var done := me.(registered := true);
      Effect(SetClient(c, done), Welcome(cfg, done))
    else
      Effect(SetClient(c, me), [])
  }

  function Pass(cfg: Config, c: Core, fd: int, m: Message): Effect
    requires fd in c.clients
  {
    if |m.params| < 1 then NeedParams(cfg, c, fd, m)
    else if m.params[0] != cfg.password then Answer(cfg, c, fd, 464, ":" + cfg.text(464))
    else Register(cfg, c, c.clients[fd].(passwordAccepted := true))
  }

  predicate NickAvailable(c: Core, nickname: string, fd: int) {
    Fold(nickname) in c.nickToFd ==> c.nickToFd[Fold(nickname)] == fd
  }

  /** The index drops the old spelling and takes the new one. */
  function Renamed(c: Core, fd: int, nickname: string): Core
    requires fd in c.clients
  {
    var previous := c.clients[fd].nickname;
    var index := if previous == "" then c.nickToFd else c.nickToFd - {Fold(previous)};
    c.(nickToFd := index[Fold(nickname) := fd])
  }

  ghost function Nick(cfg: Config, c: Core, fd: int, m: Message): Effect
    requires fd in c.clients
  {
    if |m.params| == 0 then Answer(cfg, c, fd, 431, ":" + cfg.text(431))
    else
      var nickname := m.params[0];
      if !ValidNickname(nickname) then Answer(cfg, c, fd, 432, nickname + Say(cfg, 432))
      else if !NickAvailable(c, nickname, fd) then Answer(cfg, c, fd, 433, nickname + Say(cfg, 433))
      else
        var me := c.clients[fd].(nickname := nickname);
        var renamed := Renamed(c, fd, nickname);
        if c.clients[fd].registered then
          var notice := Notice(c, fd, "NICK", ":" + nickname);
          Effect(SetClient(renamed, me), [Send({fd}, notice), Send(Neighbours(c, fd), notice)])
        else Register(cfg, renamed, me)
  }

  predicate UsernameChar(x: char) {
    x != ' ' && x != '@' && x != '\r' && x != '\n' && x != NUL
  }

  predicate ValidUsername(s: string) {
    s != "" && forall i {:trigger UsernameChar(s[i])} :: 0 <= i < |s| ==> UsernameChar(s[i])
  }

  function User(cfg: Config, c: Core, fd: int, m: Message): Effect
    requires fd in c.clients
  {
    if c.clients[fd].userReceived then Answer(cfg, c, fd, 462, ":" + cfg.text(462))
    else if |m.params| < 4 then NeedParams(cfg, c, fd, m)
    else if !ValidUsername(m.params[0]) then NeedParams(cfg, c, fd, m)
    else
      Register(cfg, c, c.clients[fd].(username := m.params[0], realname := m.params[3], userReceived := true))
  }

  /** CAP and PING only answer their sender. */
  function Cap(cfg: Config, c: Core, fd: int, m: Message): Effect
    requires fd in c.clients
  {
    if |m.params| == 0 then Effect(c, [])
    else if ToUpper(m.params[0]) == "LS" then
      Effect(c, [Send({fd}, Command(cfg.serverName, "CAP", "* LS :"))])
    else if ToUpper(m.params[0]) == "REQ" then
      var requested := if |m.params| >= 2 then m.params[1] else "";
      Effect(c, [Send({fd}, Command(cfg.serverName, "CAP", "* NAK :" + requested))])
    else Effect(c, [])
  }

  function Ping(cfg: Config, c: Core, fd: int, m: Message): Effect
    requires fd in c.clients
  {
    if |m.params| == 0 || m.params[0] == "" then Answer(cfg, c, fd, 409, ":" + cfg.text(409))
    else Effect(c, [Send({fd}, Command(cfg.serverName, "PONG", cfg.serverName + " :" + m.params[0]))])
  }

  // ------------------------------------------------------------- membership

  /** Membership on both sides; the creator becomes operator; the invite, if
      any, is used up. */
  function Joined(c: Core, fd: int, channel: Channel, created: bool): Core
    requires fd in c.clients
  {
    var me := c.clients[fd];
    var grown := channel.AddMember(fd);
    var led := if created then grown.AddOperator(fd) else grown;
    SetChannel(SetClient(c, me.(joined := me.joined + {channel.keyName})), led.RemoveInvite(fd))
  }

  /** NAMES text of the listed members, operators marked. */
  function NamesText(c: Core, channel: Channel, fds: seq<int>): string {
    if fds == [] then ""
    else
      var last := fds[|fds| - 1];
      var init := NamesText(c, channel, fds[..|fds| - 1]);
      if last !in c.clients then init
      else
        (if init == "" then "" else init + " ")
        + (if last in channel.operators then "@" else "") + c.clients[last].nickname
  }

  function TopicReply(cfg: Config, c: Core, fd: int, channel: Channel): Send
    requires fd in c.clients
  {
    if channel.topic != "" then ReplyTo(cfg, c, fd, 332, channel.name + " :" + channel.topic)
    else ReplyTo(cfg, c, fd, 331, channel.name + Say(cfg, 331))
  }

  ghost function Admit(cfg: Config, c: Core, fd: int, channel: Channel, created: bool): Effect
    requires fd in c.clients && c.clients[fd].fd == fd
  {
    var after := Joined(c, fd, channel, created);
    var grown := after.channels[channel.keyName];
    Effect(after,
      [ Send(grown.members, Notice(after, fd, "JOIN", ":" + grown.name)),
        TopicReply(cfg, after, fd, grown),
        ReplyTo(cfg, after, fd, 353,
                "= " + grown.name + " :" + NamesText(after, grown, Ascending(grown.members))),
        ReplyTo(cfg, after, fd, 366, grown.name + Say(cfg, 366)) ])
  }

  ghost function JoinOne(cfg: Config, c: Core, fd: int, name: string, key: string): Effect
    requires fd in c.clients && c.clients[fd].fd == fd
  {
    var k := Fold(name);
    if !ValidChannelName(name) then NoSuchChannel(cfg, c, fd, name)
    else if k in c.clients[fd].joined then Effect(c, [])
    else if k !in c.channels then Admit(cfg, c, fd, NewChannel(name, k), true)
    else
      var channel := c.channels[k];
      if channel.inviteOnly && fd !in channel.invited then
        Answer(cfg, c, fd, 473, channel.name + Say(cfg, 473))
      else if !channel.MatchesKey(key) then Answer(cfg, c, fd, 475, channel.name + Say(cfg, 475))
      else if channel.IsFull() then Answer(cfg, c, fd, 471, channel.name + Say(cfg, 471))
      else Admit(cfg, c, fd, channel, false)
  }

  /** The first `n` channels of the list, in order; a missing key is empty. */
  ghost function JoinUpTo(cfg: Config, c: Core, fd: int, names: seq<string>, keys: seq<string>, n: nat): (e: Effect)
    requires n <= |names| && fd in c.clients && c.clients[fd].fd == fd
    ensures fd in e.core.clients && e.core.clients[fd].fd == fd
  {
    if n == 0 then Effect(c, [])
    else
      var e := JoinUpTo(cfg, c, fd, names, keys, n - 1);
      e.Then(JoinOne(cfg, e.core, fd, names[n - 1], if n - 1 < |keys| then keys[n - 1] else ""))
  }

  /** Membership removed on both sides, with operatorship and invite; an empty
      channel disappears. */
  function Left(c: Core, fd: int, k: string): Core
    requires fd in c.clients && k in c.channels
  {
    var me := c.clients[fd];
    var shrunk := c.channels[k].RemoveMember(fd).RemoveInvite(fd);
    var channels := if shrunk.members == {} then c.channels - {k} else c.channels[k := shrunk];
    Core(c.clients[fd := me.(joined := me.joined - {k})], channels, c.nickToFd)
  }

  function Leave(c: Core, fd: int, k: string, reason: string): Effect
    requires fd in c.clients && k in c.channels
  {
    var channel := c.channels[k];
    Effect(Left(c, fd, k), [Send(channel.members, Notice(c, fd, "PART", channel.name + " :" + reason))])
  }

  /** Leaving the channels of a list, one after the other. */
  function LeaveUpTo(c: Core, fd: int, keys: seq<string>, reason: string, n: nat): (e: Effect)
    requires n <= |keys| && fd in c.clients
    ensures fd in e.core.clients
  {
    if n == 0 then Effect(c, [])
    else
      var e := LeaveUpTo(c, fd, keys, reason, n - 1);
      var k := Fold(keys[n - 1]);
      if k in e.core.channels && fd in e.core.channels[k].members then
        e.Then(Leave(e.core, fd, k, reason))
      else e
  }

  ghost function Join(cfg: Config, c: Core, fd: int, m: Message): Effect
    requires fd in c.clients && c.clients[fd].fd == fd
  {
    if |m.params| < 1 then NeedParams(cfg, c, fd, m)
    else if m.params[0] == "0" then
      var keys := AscendingNames(c.clients[fd].joined);
      LeaveUpTo(c, fd, keys, c.clients[fd].nickname, |keys|)
    else
      var names := SplitComma(m.params[0]);
      var keys := if |m.params| >= 2 then SplitComma(m.params[1]) else [];
      JoinUpTo(cfg, c, fd, names, keys, |names|)
  }

  function NotOnChannel(cfg: Config, c: Core, fd: int, channel: Channel): Effect
    requires fd in c.clients
  {
    Answer(cfg, c, fd, 442, channel.name + Say(cfg, 442))
  }

  function NotOperator(cfg: Config, c: Core, fd: int, channel: Channel): Effect
    requires fd in c.clients
  {
    Answer(cfg, c, fd, 482, channel.name + Say(cfg, 482))
  }

  function PartOne(cfg: Config, c: Core, fd: int, name: string, reason: string): Effect
    requires fd in c.clients
  {
    var k := Fold(name);
    if k !in c.channels then NoSuchChannel(cfg, c, fd, name)
    else if fd !in c.channels[k].members then NotOnChannel(cfg, c, fd, c.channels[k])
    else Leave(c, fd, k, reason)
  }

  function PartUpTo(cfg: Config, c: Core, fd: int, names: seq<string>, reason: string, n: nat): (e: Effect)
    requires n <= |names| && fd in c.clients
    ensures fd in e.core.clients
  {
    if n == 0 then Effect(c, [])
    else
      var e := PartUpTo(cfg, c, fd, names, reason, n - 1);
      e.Then(PartOne(cfg, e.core, fd, names[n - 1], reason))
  }

  function Part(cfg: Config, c: Core, fd: int, m: Message): Effect
    requires fd in c.clients
  {
    if |m.params| < 1 then NeedParams(cfg, c, fd, m)
    else
      var names := SplitComma(m.params[0]);
      var reason := if |m.params| >= 2 then m.params[1] else c.clients[fd].nickname;
      PartUpTo(cfg, c, fd, names, reason, |names|)
  }

  function Kick(cfg: Config, c: Core, fd: int, m: Message): Effect
    requires fd in c.clients
  {
    if |m.params| < 2 then NeedParams(cfg, c, fd, m)
    else
      var k := Fold(m.params[0]);
      if k !in c.channels then NoSuchChannel(cfg, c, fd, m.params[0])
      else
        var channel := c.channels[k];
        if fd !in channel.members then NotOnChannel(cfg, c, fd, channel)
        else if fd !in channel.operators then NotOperator(cfg, c, fd, channel)
        else KickFrom(cfg, c, fd, m, k)
  }

  function KickFrom(cfg: Config, c: Core, fd: int, m: Message, k: string): Effect
    requires fd in c.clients && |m.params| >= 2 && k in c.channels
  {
    var channel := c.channels[k];
    var nick := m.params[1];
    var target := FindNick(c, nick);
    if target == None then Answer(cfg, c, fd, 401, nick + Say(cfg, 401))
    else if target.value !in channel.members then
      Answer(cfg, c, fd, 441, nick + " " + channel.name + Say(cfg, 441))
    else
      var reason := if |m.params| >= 3 then m.params[2] else c.clients[fd].nickname;
      var notice := Notice(c, fd, "KICK",
        channel.name + " " + c.clients[target.value].nickname + " :" + reason);
      Effect(Left(c, target.value, k), [Send(channel.members, notice)])
  }

  function Invite(cfg: Config, c: Core, fd: int, m: Message): Effect
    requires fd in c.clients
  {
    if |m.params| < 2 then NeedParams(cfg, c, fd, m)
    else
      var target := FindNick(c, m.params[0]);
      var k := Fold(m.params[1]);
      if target == None then Answer(cfg, c, fd, 401, m.params[0] + Say(cfg, 401))
      else if k !in c.channels then NoSuchChannel(cfg, c, fd, m.params[1])
      else if fd !in c.channels[k].members then NotOnChannel(cfg, c, fd, c.channels[k])
      else if fd !in c.channels[k].operators then NotOperator(cfg, c, fd, c.channels[k])
      else InviteTo(cfg, c, fd, target.value, c.channels[k])
  }

  function InviteTo(cfg: Config, c: Core, fd: int, target: int, channel: Channel): Effect
    requires fd in c.clients && target in c.clients
  {
    var nick := c.clients[target].nickname;
    if target in channel.members then
      Answer(cfg, c, fd, 443, nick + " " + channel.name + Say(cfg, 443))
    else
      Effect(SetChannel(c, channel.AddInvite(target)),
        [ ReplyTo(cfg, c, fd, 341, channel.name + " " + nick),
          Send({target}, Notice(c, fd, "INVITE", nick + " :" + channel.name)) ])
  }

  function Topic(cfg: Config, c: Core, fd: int, m: Message): Effect
    requires fd in c.clients
  {
    if |m.params| < 1 then NeedParams(cfg, c, fd, m)
    else
      var k := Fold(m.params[0]);
      if k !in c.channels then NoSuchChannel(cfg, c, fd, m.params[0])
      else if fd !in c.channels[k].members then NotOnChannel(cfg, c, fd, c.channels[k])
      else if |m.params| < 2 then Effect(c, [TopicReply(cfg, c, fd, c.channels[k])])
      else if c.channels[k].topicRestricted && fd !in c.channels[k].operators then
        NotOperator(cfg, c, fd, c.channels[k])
      else
        var channel := c.channels[k].(topic := m.params[1]);
        Effect(SetChannel(c, channel),
          [Send(channel.members, Notice(c, fd, "TOPIC", channel.name + " :" + m.params[1]))])
  }

  // --------------------------------------------------------------- messages

  function PrivmsgOne(cfg: Config, c: Core, fd: int, target: string, text: string): Effect
    requires fd in c.clients
  {
    if target != "" && target[0] == '#' then
      var k := Fold(target);
      if k !in c.channels then NoSuchChannel(cfg, c, fd, target)
      else
        var channel := c.channels[k];
        if fd !in channel.members then Answer(cfg, c, fd, 404, channel.name + Say(cfg, 404))
        else Effect(c, [Send(channel.members - {fd}, Notice(c, fd, "PRIVMSG", channel.name + " :" + text))])
    else
      var who := FindNick(c, target);
      if who == None then Answer(cfg, c, fd, 401, target + Say(cfg, 401))
      else Effect(c, [Send({who.value}, Notice(c, fd, "PRIVMSG", c.clients[who.value].nickname + " :" + text))])
  }

  function PrivmsgUpTo(cfg: Config, c: Core, fd: int, targets: seq<string>, text: string, n: nat): (e: Effect)
    requires n <= |targets| && fd in c.clients
    ensures e.core == c
  {
    if n == 0 then Effect(c, [])
    else
      PrivmsgUpTo(cfg, c, fd, targets, text, n - 1).Then(PrivmsgOne(cfg, c, fd, targets[n - 1], text))
  }

  function Privmsg(cfg: Config, c: Core, fd: int, m: Message): Effect
    requires fd in c.clients
  {
    if |m.params| == 0 then Answer(cfg, c, fd, 411, ":" + cfg.text(411))
    else if |m.params| < 2 || m.params[1] == "" then Answer(cfg, c, fd, 412, ":" + cfg.text(412))
    else
      var targets := SplitComma(m.params[0]);
      PrivmsgUpTo(cfg, c, fd, targets, m.params[1], |targets|)
  }

  // ------------------------------------------------------------------- MODE

  predicate KeyChar(x: char) {
    x != ' ' && x != NUL && x != '\r' && x != '\n' && x != '\t'
  }

  predicate ValidChannelKey(key: string) {
    1 <= |key| <= 23 && forall i {:trigger KeyChar(key[i])} :: 0 <= i < |key| ==> KeyChar(key[i])
  }

  const MODE_MAX_USER_LIMIT: nat := 100000

  predicate ValidLimit(arg: string) {
    PositiveSize(arg) && DecimalValue(arg) <= MODE_MAX_USER_LIMIT
  }

  /** The local variables of the mode-string loop, and the channel it edits. */
  datatype ModeRun = ModeRun(
    channel: Channel,
    adding: bool,
    signSeen: bool,
    argIndex: nat,
    changedModes: string,
    changedParams: seq<string>,
    lastSign: Option<char>,
    sends: seq<Send>)
  {
    function Sign(): char { if adding then '+' else '-' }

    /** A successful change is announced, with a sign when the sign changes. */
    function Announce(letter: char, params: seq<string>): ModeRun {
      this.(changedModes := changedModes
                            + (if lastSign == Some(Sign()) then [] else [Sign()]) + [letter],
            lastSign := Some(Sign()),
            changedParams := changedParams + params)
    }

    function Tell(send: Send): ModeRun { this.(sends := sends + [send]) }

    function Edit(edited: Channel): ModeRun { this.(channel := edited) }

    function Consume(): ModeRun { this.(argIndex := argIndex + 1) }
  }

  function ModeStart(channel: Channel): ModeRun {
    ModeRun(channel, true, false, 2, "", [], None, [])
  }

  function UnknownMode(cfg: Config, c: Core, fd: int, r: ModeRun, letter: char): ModeRun
    requires fd in c.clients
  {
    r.Tell(ReplyTo(cfg, c, fd, 472, [letter] + Say(cfg, 472) + r.channel.name))
  }

  function ModeNeedsParam(cfg: Config, c: Core, fd: int, m: Message, r: ModeRun): ModeRun
    requires fd in c.clients
  {
    r.Tell(ReplyTo(cfg, c, fd, 461, m.command + Say(cfg, 461)))
  }

  function ModeKey(cfg: Config, c: Core, fd: int, m: Message, r: ModeRun): ModeRun
    requires fd in c.clients
  {
    if r.adding then
      if r.argIndex >= |m.params| || !ValidChannelKey(m.params[r.argIndex]) then
        ModeNeedsParam(cfg, c, fd, m, r)
      else
        var key := m.params[r.argIndex];
        r.Edit(r.channel.SetKey(key)).Announce('k', [key]).Consume()
    else if r.channel.keyEnabled then r.Edit(r.channel.ClearKey()).Announce('k', [])
    else r
  }

  function ModeOperator(cfg: Config, c: Core, fd: int, m: Message, r: ModeRun): ModeRun
    requires fd in c.clients
  {
    if r.argIndex >= |m.params| then ModeNeedsParam(cfg, c, fd, m, r)
    else ModeOperatorNamed(cfg, c, fd, m.params[r.argIndex], r.Consume())
  }

  function ModeOperatorNamed(cfg: Config, c: Core, fd: int, nick: string, r: ModeRun): ModeRun
    requires fd in c.clients
  {
    var target := FindNick(c, nick);
    if target == None then r.Tell(ReplyTo(cfg, c, fd, 401, nick + Say(cfg, 401)))
    else ModeOperatorOf(cfg, c, fd, nick, target.value, r)
  }

  function ModeOperatorOf(cfg: Config, c: Core, fd: int, nick: string, target: int, r: ModeRun): ModeRun
    requires fd in c.clients && target in c.clients
  {
    if target !in r.channel.members then
      r.Tell(ReplyTo(cfg, c, fd, 441, nick + " " + r.channel.name + Say(cfg, 441)))
    else if r.adding == (target in r.channel.operators) then r
    else
      var edited := if r.adding then r.channel.AddOperator(target) else r.channel.RemoveOperator(target);
      r.Edit(edited).Announce('o', [c.clients[target].nickname])
  }

  function ModeLimit(cfg: Config, c: Core, fd: int, m: Message, r: ModeRun): ModeRun
    requires fd in c.clients
  {
    if r.adding then
      if r.argIndex >= |m.params| then ModeNeedsParam(cfg, c, fd, m, r)
      else
        var arg := m.params[r.argIndex];
        if !ValidLimit(arg) then r.Consume()
        else r.Consume().Edit(r.channel.SetLimit(DecimalValue(arg))).Announce('l', [arg])
    else if r.channel.limitEnabled then r.Edit(r.channel.ClearLimit()).Announce('l', [])
    else r
  }

  function ModeFlag(r: ModeRun, letter: char): ModeRun {
    if letter == 'i' then
      if r.channel.inviteOnly == r.adding then r
      else r.Edit(r.channel.(inviteOnly := r.adding)).Announce('i', [])
    else
      if r.channel.topicRestricted == r.adding then r
      else r.Edit(r.channel.(topicRestricted := r.adding)).Announce('t', [])
  }

  function ModeChar(cfg: Config, c: Core, fd: int, m: Message, r: ModeRun, letter: char): ModeRun
    requires fd in c.clients
  {
    if letter == '+' then r.(adding := true, signSeen := true)
    else if letter == '-' then r.(adding := false, signSeen := true)
    else if !r.signSeen then UnknownMode(cfg, c, fd, r, letter)
    else if letter == 'i' || letter == 't' then ModeFlag(r, letter)
    else if letter == 'k' then ModeKey(cfg, c, fd, m, r)
    else if letter == 'o' then ModeOperator(cfg, c, fd, m, r)
    else if letter == 'l' then ModeLimit(cfg, c, fd, m, r)
    else UnknownMode(cfg, c, fd, r, letter)
  }

  /** The mode string read from left to right, up to position `n`. */
  function ModeUpTo(cfg: Config, c: Core, fd: int, m: Message, channel: Channel, modes: string, n: nat): ModeRun
    requires n <= |modes| && fd in c.clients
  {
    if n == 0 then ModeStart(channel)
    else ModeChar(cfg, c, fd, m, ModeUpTo(cfg, c, fd, m, channel, modes, n - 1), modes[n - 1])
  }

  /** The notice of the changes that succeeded, or nothing. */
  function ModeNotice(c: Core, fd: int, r: ModeRun): seq<Send>
    requires fd in c.clients
  {
    if r.changedModes == "" then []
    else [Send(r.channel.members,
               Notice(c, fd, "MODE", SpacedText([r.channel.name, r.changedModes] + r.changedParams)[1..]))]
  }

  function ModeChange(cfg: Config, c: Core, fd: int, m: Message, channel: Channel): Effect
    requires fd in c.clients && |m.params| >= 2
  {
    var r := ModeUpTo(cfg, c, fd, m, channel, m.params[1], |m.params[1]|);
    Effect(SetChannel(c, r.channel), r.sends + ModeNotice(c, fd, r))
  }

  function Mode(cfg: Config, c: Core, fd: int, m: Message): Effect
    requires fd in c.clients
  {
    if |m.params| < 1 then NeedParams(cfg, c, fd, m)
    else
      var target := m.params[0];
      var k := Fold(target);
      if target == "" || target[0] != '#' then Answer(cfg, c, fd, 421, target + Say(cfg, 421))
      else if k !in c.channels then NoSuchChannel(cfg, c, fd, target)
      else
        var channel := c.channels[k];
        if |m.params| == 1 then
          Answer(cfg, c, fd, 324, SpacedText([channel.name, channel.ModeString()] + channel.ModeParameters())[1..])
        else if fd !in channel.members then NotOnChannel(cfg, c, fd, channel)
        else if fd !in channel.operators then NotOperator(cfg, c, fd, channel)
        else ModeChange(cfg, c, fd, m, channel)
  }

  // --------------------------------------------------------------- dispatch

  predicate NeedsRegistration(command: string) {
    command == "JOIN" || command == "PRIVMSG" || command == "KICK" || command == "INVITE" ||
    command == "TOPIC" || command == "MODE" || command == "PART"
  }

  predicate RejectedOnceRegistered(command: string) {
    command == "PASS" || command == "USER"
  }

  predicate KnownCommand(command: string) {
    NeedsRegistration(command) || RejectedOnceRegistered(command) || command == "NICK" ||
    command == "CAP" || command == "PING" || command == "PONG" || command == "QUIT"
  }

  /** The handler of a known command. QUIT and PONG change nothing here. */
  ghost function Handle(cfg: Config, c: Core, fd: int, m: Message): Effect
    requires fd in c.clients && c.clients[fd].fd == fd
  {
    if m.command == "PASS" then Pass(cfg, c, fd, m)
    else if m.command == "NICK" then Nick(cfg, c, fd, m)
    else if m.command == "USER" then User(cfg, c, fd, m)
    else if m.command == "CAP" then Cap(cfg, c, fd, m)
    else if m.command == "PING" then Ping(cfg, c, fd, m)
    else if m.command == "JOIN" then Join(cfg, c, fd, m)
    else if m.command == "PRIVMSG" then Privmsg(cfg, c, fd, m)
    else if m.command == "KICK" then Kick(cfg, c, fd, m)
    else if m.command == "INVITE" then Invite(cfg, c, fd, m)
    else if m.command == "TOPIC" then Topic(cfg, c, fd, m)
    else if m.command == "MODE" then Mode(cfg, c, fd, m)
    else if m.command == "PART" then Part(cfg, c, fd, m)
    else Effect(c, [])
  }

  ghost function Dispatch(cfg: Config, c: Core, fd: int, m: Message): Effect
    requires fd in c.clients ==> c.clients[fd].fd == fd
  {
    if fd !in c.clients then Effect(c, [])
    else
      var registered := c.clients[fd].registered;
      if !KnownCommand(m.command) then
        if registered then Answer(cfg, c, fd, 421, m.command + Say(cfg, 421)) else Effect(c, [])
      else if !registered && NeedsRegistration(m.command) then
        Answer(cfg, c, fd, 451, ":" + cfg.text(451))
      else if registered && RejectedOnceRegistered(m.command) then
        Answer(cfg, c, fd, 462, ":" + cfg.text(462))
      else Handle(cfg, c, fd, m)
  }

  /** The reason a QUIT leaves behind; the disconnection itself comes later. */
  function QuitReason(c: Core, fd: int, m: Message): Option<string> {
    if fd in c.clients && m.command == "QUIT" then
      Some(if |m.params| > 0 then m.params[0] else "Client Quit")
    else None
  }

  // ------------------------------------------------- connecting and leaving

  function Connected(c: Core, fd: int, hostname: string): Core {
    if fd in c.clients then c else c.(clients := c.clients[fd := NewClient(fd, hostname)])
  }

  /** One turn of removeClientFromAllChannels, for a name of the joined set:
      the channel is looked up by its folded name and deleted once empty. */
  function LeaveQuietly(c: Core, fd: int, name: string): (d: Core)
    requires fd in c.clients
    ensures fd in d.clients
  {
    var k := Fold(name);
    if k !in c.channels then c
    else
      var me := c.clients[fd];
      var shrunk := c.channels[k].RemoveMember(fd);
      var channels := if shrunk.members == {} then c.channels - {k} else c.channels[k := shrunk];
      Core(c.clients[fd := me.(joined := me.joined - {name})], channels, c.nickToFd)
  }

  function LeaveQuietlyUpTo(c: Core, fd: int, names: seq<string>, n: nat): (d: Core)
    requires n <= |names| && fd in c.clients
    ensures fd in d.clients
  {
    if n == 0 then c else LeaveQuietly(LeaveQuietlyUpTo(c, fd, names, n - 1), fd, names[n - 1])
  }

  /** The second loop: the invite of fd withdrawn from every channel left. */
  function Withdrawn(c: Core, fd: int): Core {
    c.(channels := map k | k in c.channels :: c.channels[k].RemoveInvite(fd))
  }

  /** removeClientFromAllChannels walks a copy of the joined set, then all invites. */
  ghost function Walked(c: Core, fd: int): (d: Core)
    requires fd in c.clients
    ensures fd in d.clients
  {
    var names := AscendingNames(c.clients[fd].joined);
    Withdrawn(LeaveQuietlyUpTo(c, fd, names, |names|), fd)
  }

  /** The end of disconnectClient: nickname index and record. */
  function Forgotten(c: Core, fd: int): Core
    requires fd in c.clients
  {
    var nick := c.clients[fd].nickname;
    Core(c.clients - {fd}, c.channels, if nick == "" then c.nickToFd else c.nickToFd - {Fold(nick)})
  }

  ghost function Disconnected(c: Core, fd: int): Core
    requires fd in c.clients
  {
    Forgotten(Walked(c, fd), fd)
  }

  ghost function Disconnect(c: Core, fd: int, reason: string): Effect {
    if fd !in c.clients then Effect(c, [])
    else Effect(Disconnected(c, fd), [Send(Neighbours(c, fd), Notice(c, fd, "QUIT", ":" + reason))])
  }
}
