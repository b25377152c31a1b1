/** Facts the methods of IrcServer rest on: what queueing to one client means
    for the whole network state, walking sets in order, the command table. */
module ServerFacts {
  import opened IrcUtil
  import opened Domain
  import opened Ordered
  import opened Parser
  import opened BufferUtil
  import opened Commands
  import opened Departures
  import opened Moves
  import opened CommandMoves
  import opened Delivery
  import opened EventLoop

  lemma SetWatchDistinct(poll: seq<Watch>, fd: int, out: bool)
    requires Distinct(poll)
    ensures Distinct(SetWatch(poll, fd, out))
  {
  }

  lemma SetWatchAt(poll: seq<Watch>, fd: int, out: bool, i: nat)
    requires Distinct(poll) && i < |poll| && poll[i].fd == fd
    ensures SetWatch(poll, fd, out) == poll[i := Watch(fd, out)]
  {
  }

  /** Queueing to one client is offering to that client alone. */
  lemma QueuedIsOffered(io: Io, fd: int, text: string)
    requires fd in io.ports
    ensures Offer(io, {fd}, text)
         == if Fits(io.ports[fd], text)
            then io.(ports := io.ports[fd := Accept(io.ports[fd], text)], poll := SetWatch(io.poll, fd, true))
            else Schedule(io, fd)
  {
    var o := Offer(io, {fd}, text);
    if Fits(io.ports[fd], text) {
      assert o.ports == io.ports[fd := Accept(io.ports[fd], text)];
      assert o.poll == SetWatch(io.poll, fd, true);
      assert o.pending == io.pending;
    } else {
      assert o.ports == io.ports;
      assert o.poll == io.poll;
      assert o.pending == io.pending + {fd};
    }
  }

  lemma OfferAbsent(io: Io, fd: int, text: string)
    requires fd !in io.ports
    ensures Offer(io, {fd}, text) == io
  {
    var o := Offer(io, {fd}, text);
    assert o.ports == io.ports && o.poll == io.poll && o.pending == io.pending;
  }

  /** The members of the channels of a set of names. */
  ghost function MembersOf(keys: set<string>, channels: map<string, Channel>): set<int> {
    set k, x | k in keys && Fold(k) in channels && x in channels[Fold(k)].members :: x
  }

  lemma MembersOfOneMore(keys: set<string>, k: string, channels: map<string, Channel>)
    ensures MembersOf(keys + {k}, channels)
         == MembersOf(keys, channels) + (if Fold(k) in channels then channels[Fold(k)].members else {})
  {
    var more := if Fold(k) in channels then channels[Fold(k)].members else {};
    forall x ensures x in MembersOf(keys + {k}, channels) <==> x in MembersOf(keys, channels) || x in more {
      if x in more { assert k in keys + {k}; }
      if x in MembersOf(keys, channels) {
        var j :| j in keys && Fold(j) in channels && x in channels[Fold(j)].members;
        assert j in keys + {k};
      }
    }
  }

  lemma MembersAreNeighbours(c: Core, fd: int)
    requires fd in c.clients
    ensures MembersOf(c.clients[fd].joined, c.channels) - {fd} == Neighbours(c, fd)
  {
  }

  lemma {:induction false} WithoutFdAt(poll: seq<Watch>, fd: int, i: nat)
    requires i <= |poll| && forall j :: 0 <= j < i ==> poll[j].fd != fd
    requires i < |poll| ==> poll[i].fd == fd
    ensures WithoutFd(poll, fd) == if i < |poll| then poll[..i] + poll[i + 1..] else poll
    decreases i
  {
    if poll != [] && i > 0 {
      WithoutFdAt(poll[1..], fd, i - 1);
      if i < |poll| {
        assert poll[..i] == [poll[0]] + poll[1..][..i - 1];
        assert poll[i + 1..] == poll[1..][i..];
      }
    }
  }

  // -------------------------------------------- leaving every channel at once

  /** The invite of fd withdrawn from the listed channels. */
  function Uninvited(channels: map<string, Channel>, fd: int, done: set<string>): map<string, Channel> {
    map k | k in channels :: if k in done then channels[k].RemoveInvite(fd) else channels[k]
  }

  lemma UninvitedNone(channels: map<string, Channel>, fd: int)
    ensures Uninvited(channels, fd, {}) == channels
  {
  }

  lemma UninvitedMore(channels: map<string, Channel>, fd: int, done: set<string>, k: string)
    requires k !in done && k in channels
    ensures Uninvited(channels, fd, done + {k})
         == Uninvited(channels, fd, done)[k := Uninvited(channels, fd, done)[k].RemoveInvite(fd)]
  {
  }

  /** The two loops of removeClientFromAllChannels leave what the walk leaves. */
  lemma PartedIsWalked(c: Core, fd: int)
    requires Inv(c) && fd in c.clients
    ensures var parted := Parted(c.channels, fd, c.clients[fd].joined);
      Uninvited(parted, fd, parted.Keys) == Disconnected(c, fd).channels
  {
    var parted := Parted(c.channels, fd, c.clients[fd].joined);
    var gone := Erased(c, fd).channels;
    DisconnectedErases(c, fd);
    forall k | k in c.channels
      ensures (k in parted <==> k in gone) && (k in gone ==> parted[k].RemoveInvite(fd) == gone[k])
    {
      PartedOne(c, fd, k);
    }
    assert parted.Keys == gone.Keys;
  }

  /** From v, the client has left all joined channels but `rest`. */
  ghost predicate LeavingAt(v: Core, w: Core, fd: int, rest: set<string>) {
    && fd in v.clients && rest <= v.clients[fd].joined
    && (forall k :: k in rest ==> Fold(k) == k && k in v.channels && v.channels[k].keyName == k)
    && w.channels == Parted(v.channels, fd, v.clients[fd].joined - rest)
    && w.clients == v.clients[fd := v.clients[fd].(joined := rest)]
  }

  lemma LeavingBegins(v: Core, fd: int)
    requires fd in v.clients
    requires forall k :: k in v.clients[fd].joined ==> Fold(k) == k && k in v.channels && v.channels[k].keyName == k
    ensures LeavingAt(v, v, fd, v.clients[fd].joined)
  {
    PartedNone(v.channels, fd);
    assert v.clients[fd].joined - v.clients[fd].joined == {};
    assert v.clients[fd := v.clients[fd]] == v.clients;
  }

  lemma LeavingEnds(v: Core, w: Core, fd: int)
    requires LeavingAt(v, w, fd, {})
    ensures w.channels == Parted(v.channels, fd, v.clients[fd].joined)
    ensures w.clients == v.clients[fd := v.clients[fd].(joined := {})]
  {
    assert v.clients[fd].joined - {} == v.clients[fd].joined;
  }

  // -------------------------------------------------------- several messages

  lemma DeliverNothing(io: Io)
    ensures Deliver(io, []) == io
  {
  }

  /** One message more of a list. */
  lemma DeliverNext(io: Io, sends: seq<Send>, n: nat)
    requires n < |sends|
    ensures Deliver(io, sends[..n + 1]) == Offer(Deliver(io, sends[..n]), sends[n].to, sends[n].text)
  {
    assert sends[..n + 1][..n] == sends[..n];
  }

  lemma DeliverTwo(io: Io, first: Send, second: Send)
    ensures Deliver(io, [first, second]) == Offer(Offer(io, first.to, first.text), second.to, second.text)
  {
    assert [first, second][..1] == [first];
    DeliverOne(io, first);
  }

  /** A record written before trying to register. */
  lemma RegisterRefreshed(cfg: Config, c: Core, me: Client)
    requires me.fd in c.clients
    ensures Register(cfg, SetClient(c, me), me) == Register(cfg, c, me)
  {
    UpdatedTwice(c.clients, me.fd, me, me.(registered := true));
    UpdatedTwice(c.clients, me.fd, me, me);
  }

  lemma SameNeighbours(c: Core, d: Core, fd: int)
    requires fd in c.clients && fd in d.clients && d.clients[fd].joined == c.clients[fd].joined
    requires d.channels == c.channels
    ensures Neighbours(d, fd) == Neighbours(c, fd)
  {
  }

  lemma UpdatedTwice<K, V>(m: map<K, V>, k: K, a: V, b: V)
    ensures m[k := a][k := b] == m[k := b]
  {
  }

  lemma NamesNext(c: Core, channel: Channel, done: seq<int>, fd: int)
    ensures NamesText(c, channel, done + [fd])
         == var init := NamesText(c, channel, done);
            if fd !in c.clients then init
            else (if init == "" then "" else init + " ")
                 + (if fd in channel.operators then "@" else "") + c.clients[fd].nickname
  {
    assert (done + [fd])[..|done|] == done;
  }

  /** The messages of an admission, from the state after it. */
  ghost function AdmitSends(cfg: Config, after: Core, fd: int, k: string): seq<Send>
    requires fd in after.clients && k in after.channels
  {
    var grown := after.channels[k];
    [ Send(grown.members, Notice(after, fd, "JOIN", ":" + grown.name)),
      TopicReply(cfg, after, fd, grown),
      ReplyTo(cfg, after, fd, 353, "= " + grown.name + " :" + NamesText(after, grown, Ascending(grown.members))),
      ReplyTo(cfg, after, fd, 366, grown.name + Say(cfg, 366)) ]
  }

  /** One effect after another is both together. */
  lemma PerformThen(v: View, a: Effect, b: Effect)
    ensures Perform(Perform(v, a), b) == Perform(v, a.Then(b))
  {
    DeliverAppend(v.io, a.sends, b.sends);
  }

  /** A channel inserted just before its first member. */
  lemma AdmitInserted(cfg: Config, c: Core, fd: int, channel: Channel)
    requires fd in c.clients && c.clients[fd].fd == fd
    ensures Admit(cfg, SetChannel(c, channel), fd, channel, true) == Admit(cfg, c, fd, channel, true)
  {
    var led := channel.AddMember(fd).AddOperator(fd).RemoveInvite(fd);
    UpdatedTwice(c.channels, channel.keyName, channel, led);
  }

  lemma NextName(order: seq<string>, n: nat, rest: set<string>, k: string)
    requires n <= |order| && order[n..] == AscendingNames(rest) && IsLeast(rest, k)
    ensures n < |order| && order[n] == k && order[n + 1..] == AscendingNames(rest - {k})
  {
    LeastUnique(rest, Least(rest), k);
    assert order[n..][0] == k && order[n..][1..] == order[n + 1..];
  }

  lemma LeastUnique(s: set<string>, a: string, b: string)
    requires IsLeast(s, a) && IsLeast(s, b)
    ensures a == b
  {
    assert StringLeq(a, b) && StringLeq(b, a);
    StringLeqAntisymmetric(a, b);
  }

  lemma {:induction false} StringLeqAntisymmetric(a: string, b: string)
    requires StringLeq(a, b) && StringLeq(b, a)
    ensures a == b
  {
    if a != "" {
      StringLeqAntisymmetric(a[1..], b[1..]);
      assert a == [a[0]] + a[1..] && b == [b[0]] + b[1..];
    }
  }

  /** One channel more of JOIN 0. */
  lemma LeaveNext(v: View, fd: int, keys: seq<string>, reason: string, n: nat)
    requires fd in v.core.clients && n < |keys| && Inv(LeaveUpTo(v.core, fd, keys, reason, n).core)
    ensures var e := LeaveUpTo(v.core, fd, keys, reason, n);
      var k := Fold(keys[n]);
      && (k in e.core.channels ==> e.core.channels[k].keyName == k)
      && Perform(v, LeaveUpTo(v.core, fd, keys, reason, n + 1))
         == if k in e.core.channels && fd in e.core.channels[k].members
            then Perform(Perform(v, e), Leave(e.core, fd, k, reason)) else Perform(v, e)
  {
    var e := LeaveUpTo(v.core, fd, keys, reason, n);
    var k := Fold(keys[n]);
    if HasMember(e.core, fd, k) { PerformThen(v, e, Leave(e.core, fd, k, reason)); }
    if k in e.core.channels { assert ChannelOk(e.core.channels[k], k); }
  }

  lemma DeliverMore(io: Io, sends: seq<Send>, send: Send)
    ensures Deliver(io, sends + [send]) == Offer(Deliver(io, sends), send.to, send.text)
  {
    assert (sends + [send])[..|sends|] == sends;
  }

  lemma {:induction false} SpacedNext(words: seq<string>, word: string)
    ensures SpacedText(words + [word]) == SpacedText(words) + " " + word
  {
    if words == [] {
      assert words + [word] == [word];
      assert [word][1..] == [];
    } else {
      assert (words + [word])[1..] == words[1..] + [word];
      SpacedNext(words[1..], word);
      var rest := SpacedText(words[1..]);
      assert " " + (words[0] + (rest + " " + word)) == " " + (words[0] + rest) + " " + word;
    }
  }

  lemma ModeKeepsKey(cfg: Config, c: Core, fd: int, m: Message, channel: Channel, modes: string, n: nat)
    requires fd in c.clients && n <= |modes|
    ensures ModeUpTo(cfg, c, fd, m, channel, modes, n).channel.keyName == channel.keyName
  {
    ModeUpToFrame(cfg, c, fd, m, channel, modes, n);
  }

  /** What the mode loop leaves behind is the effect of the command. */
  lemma ModesChanged(cfg: Config, c: Core, fd: int, m: Message, channel: Channel, run: ModeRun)
    requires fd in c.clients && |m.params| >= 2
    requires run == ModeUpTo(cfg, c, fd, m, channel, m.params[1], |m.params[1]|)
    ensures ModeChange(cfg, c, fd, m, channel)
         == Effect(c.(channels := c.channels[channel.keyName := run.channel]), run.sends + ModeNotice(c, fd, run))
  {
    ModeKeepsKey(cfg, c, fd, m, channel, m.params[1], |m.params[1]|);
  }

  // ------------------------------------------------------------- the table

  datatype CommandEntry = CommandEntry(name: string, requiresRegistration: bool, rejectsWhenRegistered: bool)

  const TABLE: seq<CommandEntry> :=
    [ CommandEntry("PASS", false, true),
      CommandEntry("NICK", false, false),
      CommandEntry("USER", false, true),
      CommandEntry("CAP", false, false),
      CommandEntry("PING", false, false),
      CommandEntry("PONG", false, false),
      CommandEntry("QUIT", false, false),
      CommandEntry("JOIN", true, false),
      CommandEntry("PRIVMSG", true, false),
      CommandEntry("KICK", true, false),
      CommandEntry("INVITE", true, false),
      CommandEntry("TOPIC", true, false),
      CommandEntry("MODE", true, false),
      CommandEntry("PART", true, false) ]

  lemma EntryMeans(i: nat)
    requires i < |TABLE|
    ensures KnownCommand(TABLE[i].name)
    ensures TABLE[i].requiresRegistration == NeedsRegistration(TABLE[i].name)
    ensures TABLE[i].rejectsWhenRegistered == RejectedOnceRegistered(TABLE[i].name)
  {
  }

  lemma NotInTable(command: string)
    requires forall j :: 0 <= j < |TABLE| ==> TABLE[j].name != command
    ensures !KnownCommand(command)
  {
    assert TABLE[0].name != command && TABLE[1].name != command && TABLE[2].name != command;
    assert TABLE[3].name != command && TABLE[4].name != command && TABLE[5].name != command;
    assert TABLE[6].name != command && TABLE[7].name != command && TABLE[8].name != command;
    assert TABLE[9].name != command && TABLE[10].name != command && TABLE[11].name != command;
    assert TABLE[12].name != command && TABLE[13].name != command;
  }

  // ------------------------------------------------------ the line loop

  /** The line loop of a client is at v and will end in `target`. */
  ghost predicate DrainAt(cfg: Config, v: View, fd: int, done: bool, target: View) {
    if done then v == target
    else ViewOk(cfg, v) && fd in v.io.ports && DrainLines(cfg, v, fd) == target
  }

  /** Taking and running one line brings the loop one turn further. */
  lemma LineTaken(cfg: Config, v: View, fd: int, target: View)
    requires DrainAt(cfg, v, fd, false, target)
    requires FindLine(v.io.ports[fd].receiveBuffer).Extracted?
    ensures ViewOk(cfg, Trimmed(v, fd, FindLine(v.io.ports[fd].receiveBuffer).consumed))
    ensures var w := RunFirstLine(cfg, v, fd);
      && DrainAt(cfg, w, fd, fd in w.io.pending, target)
      && fd in w.io.ports
      && |w.io.ports[fd].receiveBuffer| < |v.io.ports[fd].receiveBuffer|
  {
    TrimmedKeeps(cfg, v, fd, FindLine(v.io.ports[fd].receiveBuffer).consumed);
    DrainLinesUnfold(cfg, v, fd);
    FirstLineSteps(cfg, v, fd);
  }

  lemma ReceiveKeeps(cfg: Config, v: View, fd: int, data: string)
    requires ViewOk(cfg, v) && fd in v.io.ports
    ensures ViewOk(cfg, EventLoop.Receive(cfg, v, fd, data)) && fd in EventLoop.Receive(cfg, v, fd, data).io.ports
  {
    ReceiveSteps(cfg, v, fd, data);
  }

  lemma NextInOrder(order: seq<int>, n: nat, rest: set<int>, fd: int)
    requires n <= |order| && order[n..] == Ascending(rest) && IsMin(rest, fd)
    ensures n < |order| && order[n] == fd && order[n + 1..] == Ascending(rest - {fd})
  {
    assert Min(rest) == fd;
    assert order[n..][0] == fd && order[n..][1..] == order[n + 1..];
  }
}
