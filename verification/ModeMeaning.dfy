/** What a mode string means, said without running it: of the letters asked for,
    the last one about a mode, or about a client's operatorship, decides it. The
    same holds of the letters announced, so a client that reads the notice knows
    the channel (services/irc/prd/handler/ServerMode.cpp). */
module ModeMeaning {
  import opened IrcUtil
  import opened Strings
  import opened Domain
  import opened Reply
  import opened Parser
  import opened Commands
  import opened Moves
  import opened CommandMoves
  import opened Answers
  import opened ModeLaws

  // ------------------------------------------------------------ what is asked

  /** One letter under its sign, with the parameter it took. */
  datatype Wish = Wish(sign: char, letter: char, param: Option<string>)

  /** The letters read so far, the sign in force, and how many parameters they took. */
  datatype Reading = Reading(wishes: seq<Wish>, sign: Option<char>, taken: nat)

  /** Of the letters o always takes the next parameter, l when it is set, and k
      when it is set and the parameter can be a key. */
  predicate Takes(sign: char, letter: char, params: seq<string>, at: nat) {
    at < |params| &&
    (letter == 'o' || (sign == '+' && (letter == 'l' || (letter == 'k' && ValidChannelKey(params[at])))))
  }

  /** One more character. A letter before any sign asks nothing. */
  function ReadOne(b: Reading, x: char, params: seq<string>): Reading {
    if x == '+' || x == '-' then b.(sign := Some(x))
    else if b.sign == None then b
    else if Takes(b.sign.value, x, params, b.taken) then
      Reading(b.wishes + [Wish(b.sign.value, x, Some(params[b.taken]))], b.sign, b.taken + 1)
    else b.(wishes := b.wishes + [Wish(b.sign.value, x, None)])
  }

  /** The first n characters of a mode string. */
  function Read(modes: string, params: seq<string>, n: nat): Reading
    requires n <= |modes|
  {
    if n == 0 then Reading([], None, 0) else ReadOne(Read(modes, params, n - 1), modes[n - 1], params)
  }

  function Wishes(modes: string, params: seq<string>): seq<Wish> { Read(modes, params, |modes|).wishes }

  // --------------------------------------------------------------- what it means

  /** What a mode string can change. */
  datatype Item = Inviting | Protecting | Keyed | Limited | Operating(x: int)

  /** The wish is about the item and can be met: a key or a limit to set must be
      there and valid, an operator must be a member found by nickname. */
  predicate About(c: Core, members: set<int>, a: Wish, item: Item) {
    match item
    case Inviting => a.letter == 'i'
    case Protecting => a.letter == 't'
    case Keyed => a.letter == 'k' && (a.sign == '-' || a.param.Some?)
    case Limited => a.letter == 'l' && (a.sign == '-' || (a.param.Some? && ValidLimit(a.param.value)))
    case Operating(x) => a.letter == 'o' && a.param.Some? && Named(c, Fold(a.param.value), x) && x in members
  }

  /** The channel is as the wish wants it. */
  predicate Meets(ch: Channel, item: Item, a: Wish) {
    match item
    case Inviting => ch.inviteOnly <==> a.sign == '+'
    case Protecting => ch.topicRestricted <==> a.sign == '+'
    case Keyed => if a.sign == '+' then ch.keyEnabled && Some(ch.channelKey) == a.param
                  else !ch.keyEnabled && ch.channelKey == ""
    case Limited =>
      if a.sign == '+' then ch.limitEnabled && a.param.Some? && ValidLimit(a.param.value)
                            && ch.userLimit == DecimalValue(a.param.value)
      else !ch.limitEnabled && ch.userLimit == 0
    case Operating(x) => x in ch.operators <==> a.sign == '+'
  }

  predicate SameItem(was: Channel, now: Channel, item: Item) {
    match item
    case Inviting => now.inviteOnly == was.inviteOnly
    case Protecting => now.topicRestricted == was.topicRestricted
    case Keyed => now.keyEnabled == was.keyEnabled && now.channelKey == was.channelKey
    case Limited => now.limitEnabled == was.limitEnabled && now.userLimit == was.userLimit
    case Operating(x) => x in now.operators <==> x in was.operators
  }

  predicate Never(c: Core, members: set<int>, wishes: seq<Wish>, item: Item) {
    forall j {:trigger wishes[j]} :: 0 <= j < |wishes| ==> !About(c, members, wishes[j], item)
  }

  /** The i-th wish is the last one about the item. */
  predicate LastAbout(c: Core, members: set<int>, wishes: seq<Wish>, item: Item, i: int) {
    && 0 <= i < |wishes| && About(c, members, wishes[i], item)
    && forall j {:trigger wishes[j]} :: i < j < |wishes| ==> !About(c, members, wishes[j], item)
  }

  /** The item is as the last wish about it wants it, or as it was if there is none. */
  ghost predicate Decided(c: Core, was: Channel, wishes: seq<Wish>, now: Channel, item: Item) {
    && (Never(c, was.members, wishes, item) ==> SameItem(was, now, item))
    && (forall i {:trigger LastAbout(c, was.members, wishes, item, i)} ::
          LastAbout(c, was.members, wishes, item, i) ==> Meets(now, item, wishes[i]))
  }

  /** Name, topic, members and invites are no business of a mode string. */
  predicate SameOtherwise(was: Channel, now: Channel) {
    && now.name == was.name && now.keyName == was.keyName && now.topic == was.topic
    && now.members == was.members && now.invited == was.invited
  }

  ghost predicate Means(c: Core, was: Channel, wishes: seq<Wish>, now: Channel) {
    SameOtherwise(was, now) && forall item: Item :: Decided(c, was, wishes, now, item)
  }

  // ------------------------------------------------------------------- proof

  /** One wish does what it wants and nothing more. */
  predicate GrantsItem(c: Core, was: Channel, a: Wish, now: Channel, item: Item) {
    if About(c, was.members, a, item) then Meets(now, item, a) else SameItem(was, now, item)
  }

  ghost predicate Grants(c: Core, was: Channel, a: Wish, now: Channel) {
    SameOtherwise(was, now) && forall item: Item :: GrantsItem(c, was, a, now, item)
  }

  lemma SameItself(was: Channel, item: Item)
    ensures SameItem(was, was, item)
  {
    match item { case Inviting => case Protecting => case Keyed => case Limited => case Operating(x) => }
  }

  lemma SameThen(was: Channel, mid: Channel, now: Channel, item: Item, a: Wish)
    requires SameItem(mid, now, item)
    ensures SameItem(was, mid, item) ==> SameItem(was, now, item)
    ensures Meets(mid, item, a) ==> Meets(now, item, a)
  {
    match item { case Inviting => case Protecting => case Keyed => case Limited => case Operating(x) => }
  }

  lemma MeansNothing(c: Core, was: Channel)
    ensures Means(c, was, [], was)
  {
    forall item: Item ensures Decided(c, was, [], was, item) { SameItself(was, item); }
  }

  lemma DecidedMore(c: Core, was: Channel, wishes: seq<Wish>, mid: Channel, a: Wish, now: Channel, item: Item)
    requires mid.members == was.members
    requires Decided(c, was, wishes, mid, item) && GrantsItem(c, mid, a, now, item)
    ensures Decided(c, was, wishes + [a], now, item)
  {
    var members, more := was.members, wishes + [a];
    assert more[|wishes|] == a;
    if Never(c, members, more, item) {
      assert !About(c, members, more[|wishes|], item);
      forall j | 0 <= j < |wishes| ensures !About(c, members, wishes[j], item) { assert more[j] == wishes[j]; }
      SameThen(was, mid, now, item, a);
    }
    forall i | LastAbout(c, members, more, item, i) ensures Meets(now, item, more[i]) {
      if i < |wishes| {
        assert !About(c, members, more[|wishes|], item);
        forall j | i < j < |wishes| ensures !About(c, members, wishes[j], item) { assert more[j] == wishes[j]; }
        assert LastAbout(c, members, wishes, item, i);
        SameThen(was, mid, now, item, more[i]);
      }
    }
  }

  lemma MeansMore(c: Core, was: Channel, wishes: seq<Wish>, mid: Channel, a: Wish, now: Channel)
    requires Means(c, was, wishes, mid) && Grants(c, mid, a, now)
    ensures Means(c, was, wishes + [a], now)
  {
    forall item: Item ensures Decided(c, was, wishes + [a], now, item) {
      assert Decided(c, was, wishes, mid, item) && GrantsItem(c, mid, a, now, item);
      DecidedMore(c, was, wishes, mid, a, now, item);
    }
  }

  /** What the letter asks, given the parameters left. */
  function WishOf(m: Message, r: ModeRun, letter: char): Wish {
    Wish(r.Sign(), letter,
        if r.argIndex < |m.params| && Takes(r.Sign(), letter, m.params, r.argIndex) then Some(m.params[r.argIndex])
        else None)
  }

  lemma FlagGrants(c: Core, m: Message, r: ModeRun, letter: char)
    requires letter == 'i' || letter == 't'
    ensures Grants(c, r.channel, WishOf(m, r, letter), ModeFlag(r, letter).channel)
  {
    var now := ModeFlag(r, letter).channel;
    forall item: Item ensures GrantsItem(c, r.channel, WishOf(m, r, letter), now, item) {
      match item { case Inviting => case Protecting => case Keyed => case Limited => case Operating(x) => }
    }
  }

  lemma KeyGrantsItem(cfg: Config, c: Core, fd: int, m: Message, r: ModeRun, item: Item)
    requires fd in c.clients && ModesOk(r.channel)
    ensures GrantsItem(c, r.channel, WishOf(m, r, 'k'), ModeKey(cfg, c, fd, m, r).channel, item)
  {
    match item { case Inviting => case Protecting => case Keyed => case Limited => case Operating(x) => }
  }

  lemma KeyGrants(cfg: Config, c: Core, fd: int, m: Message, r: ModeRun)
    requires fd in c.clients && ModesOk(r.channel)
    ensures Grants(c, r.channel, WishOf(m, r, 'k'), ModeKey(cfg, c, fd, m, r).channel)
  {
    ModeKeyFrame(cfg, c, fd, m, r);
    forall item: Item
      ensures GrantsItem(c, r.channel, WishOf(m, r, 'k'), ModeKey(cfg, c, fd, m, r).channel, item)
    {
      KeyGrantsItem(cfg, c, fd, m, r, item);
    }
  }

  lemma LimitGrantsItem(cfg: Config, c: Core, fd: int, m: Message, r: ModeRun, item: Item)
    requires fd in c.clients && ModesOk(r.channel)
    ensures GrantsItem(c, r.channel, WishOf(m, r, 'l'), ModeLimit(cfg, c, fd, m, r).channel, item)
  {
    match item { case Inviting => case Protecting => case Keyed => case Limited => case Operating(x) => }
  }

  lemma LimitGrants(cfg: Config, c: Core, fd: int, m: Message, r: ModeRun)
    requires fd in c.clients && ModesOk(r.channel)
    ensures Grants(c, r.channel, WishOf(m, r, 'l'), ModeLimit(cfg, c, fd, m, r).channel)
  {
    ModeLimitFrame(cfg, c, fd, m, r);
    forall item: Item
      ensures GrantsItem(c, r.channel, WishOf(m, r, 'l'), ModeLimit(cfg, c, fd, m, r).channel, item)
    {
      LimitGrantsItem(cfg, c, fd, m, r, item);
    }
  }

  lemma OperatorGrantsOne(cfg: Config, c: Core, fd: int, m: Message, r: ModeRun, x: int)
    requires Inv(c) && fd in c.clients
    ensures GrantsItem(c, r.channel, WishOf(m, r, 'o'), ModeOperator(cfg, c, fd, m, r).channel, Operating(x))
  {
    if r.argIndex < |m.params| { NickFound(c, m.params[r.argIndex], x); }
  }

  lemma OperatorOnly(cfg: Config, c: Core, fd: int, m: Message, r: ModeRun) returns (now: Channel)
    requires fd in c.clients
    ensures now == ModeOperator(cfg, c, fd, m, r).channel && now == r.channel.(operators := now.operators)
  {
    now := ModeOperator(cfg, c, fd, m, r).channel;
  }

  lemma OperatorGrantsItem(cfg: Config, c: Core, fd: int, m: Message, r: ModeRun, item: Item)
    requires Inv(c) && fd in c.clients
    ensures GrantsItem(c, r.channel, WishOf(m, r, 'o'), ModeOperator(cfg, c, fd, m, r).channel, item)
  {
    if item.Operating? {
      OperatorGrantsOne(cfg, c, fd, m, r, item.x);
    } else {
      var now := OperatorOnly(cfg, c, fd, m, r);
      OtherItem(c, r.channel, WishOf(m, r, 'o'), now, item);
    }
  }

  lemma OtherItem(c: Core, was: Channel, a: Wish, now: Channel, item: Item)
    requires a.letter == 'o' && !item.Operating? && now == was.(operators := now.operators)
    ensures GrantsItem(c, was, a, now, item)
  {
    match item { case Inviting => case Protecting => case Keyed => case Limited => }
  }

  lemma OperatorGrants(cfg: Config, c: Core, fd: int, m: Message, r: ModeRun)
    requires Inv(c) && fd in c.clients
    ensures Grants(c, r.channel, WishOf(m, r, 'o'), ModeOperator(cfg, c, fd, m, r).channel)
  {
    ModeOperatorFrame(cfg, c, fd, m, r);
    forall item: Item
      ensures GrantsItem(c, r.channel, WishOf(m, r, 'o'), ModeOperator(cfg, c, fd, m, r).channel, item)
    {
      OperatorGrantsItem(cfg, c, fd, m, r, item);
    }
  }

  /** The loop of the server and the reading agree on the sign and on how many
      parameters were taken. */
  predicate InStep(r: ModeRun, b: Reading) {
    && r.argIndex == 2 + b.taken
    && (r.signSeen <==> b.sign.Some?)
    && (b.sign.Some? ==> b.sign.value == r.Sign())
  }

  lemma CharInStep(cfg: Config, c: Core, fd: int, m: Message, r: ModeRun, b: Reading, x: char)
    requires fd in c.clients && |m.params| >= 2 && InStep(r, b)
    ensures InStep(ModeChar(cfg, c, fd, m, r, x), ReadOne(b, x, m.params[2..]))
    ensures x != '+' && x != '-' && b.sign.Some? ==>
      ReadOne(b, x, m.params[2..]).wishes == b.wishes + [WishOf(m, r, x)]
  {
    if r.argIndex < |m.params| { assert m.params[2..][b.taken] == m.params[r.argIndex]; }
  }

  lemma UnknownGrants(c: Core, m: Message, r: ModeRun, letter: char)
    requires letter !in "itkol"
    ensures Grants(c, r.channel, WishOf(m, r, letter), r.channel)
  {
    forall item: Item ensures GrantsItem(c, r.channel, WishOf(m, r, letter), r.channel, item) {
      SameItself(r.channel, item);
    }
  }

  lemma LetterGrants(cfg: Config, c: Core, fd: int, m: Message, r: ModeRun, letter: char)
    requires Inv(c) && fd in c.clients && ModesOk(r.channel) && r.signSeen && letter != '+' && letter != '-'
    ensures Grants(c, r.channel, WishOf(m, r, letter), ModeChar(cfg, c, fd, m, r, letter).channel)
  {
    if letter == 'i' || letter == 't' { FlagGrants(c, m, r, letter); }
    else if letter == 'k' { KeyGrants(cfg, c, fd, m, r); }
    else if letter == 'o' { OperatorGrants(cfg, c, fd, m, r); }
    else if letter == 'l' { LimitGrants(cfg, c, fd, m, r); }
    else { UnknownGrants(c, m, r, letter); }
  }

  lemma CharMeans(cfg: Config, c: Core, fd: int, m: Message, was: Channel, r: ModeRun, b: Reading, x: char)
    requires Inv(c) && fd in c.clients && |m.params| >= 2 && ModesOk(r.channel)
    requires InStep(r, b) && Means(c, was, b.wishes, r.channel)
    ensures Means(c, was, ReadOne(b, x, m.params[2..]).wishes, ModeChar(cfg, c, fd, m, r, x).channel)
  {
    CharInStep(cfg, c, fd, m, r, b, x);
    if x != '+' && x != '-' && b.sign.Some? {
      LetterGrants(cfg, c, fd, m, r, x);
      MeansMore(c, was, b.wishes, r.channel, WishOf(m, r, x), ModeChar(cfg, c, fd, m, r, x).channel);
    }
  }

  lemma ReadNext(modes: string, params: seq<string>, n: nat, b: Reading)
    requires 0 < n <= |modes| && b == Read(modes, params, n - 1)
    ensures Read(modes, params, n) == ReadOne(b, modes[n - 1], params)
  {
  }

  /** The loop and the reading, one character further. */
  lemma StepReads(cfg: Config, c: Core, fd: int, m: Message, was: Channel, r0: ModeRun, b0: Reading, x: char)
    returns (r: ModeRun, b: Reading)
    requires Inv(c) && fd in c.clients && |m.params| >= 2 && ModesOk(r0.channel)
    requires InStep(r0, b0) && Means(c, was, b0.wishes, r0.channel)
    ensures r == ModeChar(cfg, c, fd, m, r0, x) && b == ReadOne(b0, x, m.params[2..])
    ensures InStep(r, b) && Means(c, was, b.wishes, r.channel)
  {
    r, b := ModeChar(cfg, c, fd, m, r0, x), ReadOne(b0, x, m.params[2..]);
    CharInStep(cfg, c, fd, m, r0, b0, x);
    CharMeans(cfg, c, fd, m, was, r0, b0, x);
  }

  lemma {:induction false} RunReads(cfg: Config, c: Core, fd: int, m: Message, was: Channel, modes: string, n: nat)
    returns (r: ModeRun, b: Reading)
    requires Inv(c) && fd in c.clients && |m.params| >= 2 && ModesOk(was) && n <= |modes|
    ensures r == ModeUpTo(cfg, c, fd, m, was, modes, n) && b == Read(modes, m.params[2..], n)
    ensures InStep(r, b) && Means(c, was, b.wishes, r.channel) && ModesOk(r.channel)
    decreases n
  {
    if n == 0 {
      r, b := ModeStart(was), Reading([], None, 0);
      MeansNothing(c, was);
    } else {
      var r0, b0 := RunReads(cfg, c, fd, m, was, modes, n - 1);
      r, b := StepReads(cfg, c, fd, m, was, r0, b0, modes[n - 1]);
      ModeUpToNext(cfg, c, fd, m, was, modes, n, r0);
      ReadNext(modes, m.params[2..], n, b0);
      ModeCharFrame(cfg, c, fd, m, r0, modes[n - 1]);
    }
  }

  /** The channel after a mode string is what the string means. */
  lemma RunMeans(cfg: Config, c: Core, fd: int, m: Message, was: Channel, modes: string) returns (r: ModeRun)
    requires Inv(c) && fd in c.clients && |m.params| >= 2 && ModesOk(was)
    ensures r == ModeUpTo(cfg, c, fd, m, was, modes, |modes|)
    ensures Means(c, was, Wishes(modes, m.params[2..]), r.channel)
  {
    var b;
    r, b := RunReads(cfg, c, fd, m, was, modes, |modes|);
  }

  // ---------------------------------------------------------------- the line

  /** The announcement alone tells the channel after it from the one before. */
  lemma AnnouncementMeans(cfg: Config, c: Core, fd: int, m: Message, was: Channel, modes: string, n: nat, r: ModeRun)
    requires Inv(c) && fd in c.clients && |m.params| >= 2 && ModesOk(was) && n <= |modes|
    requires r == ModeUpTo(cfg, c, fd, m, was, modes, n)
    ensures Means(c, was, Wishes(r.changedModes, r.changedParams), r.channel)
  {
    ReplayUpTo(cfg, c, fd, m, was, modes, n);
    var q := RunMeans(cfg, c, fd, Announced(m, r), was, r.changedModes);
    assert Announced(m, r).params[2..] == r.changedParams;
  }

  // -------------------------------------------------- nothing idle announced

  /** The wish is about something, and not about what already is so; a key or a
      limit may be set anew. */
  ghost predicate Stirs(c: Core, ch: Channel, w: Wish) {
    exists item :: About(c, ch.members, w, item)
                   && (Meets(ch, item, w) ==> w.sign == '+' && (item.Keyed? || item.Limited?))
  }

  /** Each wish stirs the channel the wishes before it make. */
  ghost predicate AllStir(c: Core, was: Channel, wishes: seq<Wish>, mids: seq<Channel>) {
    |mids| == |wishes| && forall i {:trigger mids[i]} :: 0 <= i < |wishes| ==>
      Means(c, was, wishes[..i], mids[i]) && Stirs(c, mids[i], wishes[i])
  }

  ghost predicate NoneIdle(c: Core, was: Channel, wishes: seq<Wish>) {
    exists mids :: AllStir(c, was, wishes, mids)
  }

  function FirstOf(params: seq<string>): Option<string> { if params == [] then None else Some(params[0]) }

  /** The letter announced takes exactly the parameters announced with it. */
  predicate TakesThese(sign: char, letter: char, params: seq<string>) {
    if params == [] then letter == 'i' || letter == 't' || (sign == '-' && letter != 'o')
    else Takes(sign, letter, params, 0)
  }

  ghost predicate SpokenWell(c: Core, r: ModeRun, next: ModeRun, letter: char, params: seq<string>) {
    && Spoken(r, next, letter, params) && TakesThese(r.Sign(), letter, params)
    && Stirs(c, r.channel, Wish(r.Sign(), letter, FirstOf(params)))
  }

  lemma FlagStirs(c: Core, r: ModeRun, letter: char)
    requires letter == 'i' || letter == 't'
    ensures Quiet(r, ModeFlag(r, letter)) || SpokenWell(c, r, ModeFlag(r, letter), letter, [])
  {
    assert r.changedParams + [] == r.changedParams;
    var item := if letter == 'i' then Inviting else Protecting;
    assert About(c, r.channel.members, Wish(r.Sign(), letter, None), item);
  }

  lemma KeyStirs(cfg: Config, c: Core, fd: int, m: Message, r: ModeRun) returns (params: seq<string>)
    requires fd in c.clients && ModesOk(r.channel)
    ensures var next := ModeKey(cfg, c, fd, m, r); Quiet(r, next) || SpokenWell(c, r, next, 'k', params)
  {
    params := if r.adding && r.argIndex < |m.params| then [m.params[r.argIndex]] else [];
    var w := Wish(r.Sign(), 'k', FirstOf(params));
    assert About(c, r.channel.members, w, Keyed) || !About(c, r.channel.members, w, Keyed);
  }

  lemma LimitStirs(cfg: Config, c: Core, fd: int, m: Message, r: ModeRun) returns (params: seq<string>)
    requires fd in c.clients && ModesOk(r.channel)
    ensures var next := ModeLimit(cfg, c, fd, m, r); Quiet(r, next) || SpokenWell(c, r, next, 'l', params)
  {
    params := if r.adding && r.argIndex < |m.params| then [m.params[r.argIndex]] else [];
    var w := Wish(r.Sign(), 'l', FirstOf(params));
    assert About(c, r.channel.members, w, Limited) || !About(c, r.channel.members, w, Limited);
  }

  lemma OperatorStirs(cfg: Config, c: Core, fd: int, m: Message, r: ModeRun) returns (params: seq<string>)
    requires Inv(c) && fd in c.clients
    ensures var next := ModeOperator(cfg, c, fd, m, r); Quiet(r, next) || SpokenWell(c, r, next, 'o', params)
  {
    params := [];
    if r.argIndex < |m.params| && FindNick(c, m.params[r.argIndex]).Some? {
      var nick := m.params[r.argIndex];
      var x := FindNick(c, nick).value;
      NickFound(c, nick, x);
      params := [c.clients[x].nickname];
      var w := Wish(r.Sign(), 'o', FirstOf(params));
      assert x in r.channel.members ==> About(c, r.channel.members, w, Operating(x));
    }
  }

  lemma LetterStirs(cfg: Config, c: Core, fd: int, m: Message, r: ModeRun, letter: char) returns (params: seq<string>)
    requires Inv(c) && fd in c.clients && ModesOk(r.channel)
    ensures var next := ModeChar(cfg, c, fd, m, r, letter); Quiet(r, next) || SpokenWell(c, r, next, letter, params)
  {
    params := [];
    if letter == '+' || letter == '-' || !r.signSeen {
    } else if letter == 'i' || letter == 't' {
      FlagStirs(c, r, letter);
    } else if letter == 'k' {
      params := KeyStirs(cfg, c, fd, m, r);
    } else if letter == 'o' {
      params := OperatorStirs(cfg, c, fd, m, r);
    } else if letter == 'l' {
      params := LimitStirs(cfg, c, fd, m, r);
    }
  }

  lemma {:induction false} ReadPrefix(modes: string, longer: string, params: seq<string>, n: nat)
    requires n <= |modes| && modes <= longer
    ensures Read(longer, params, n) == Read(modes, params, n)
  {
    if n > 0 {
      ReadPrefix(modes, longer, params, n - 1);
      assert longer[n - 1] == modes[n - 1];
    }
  }

  /** What the announcement reads as, whatever parameters follow it. */
  ghost predicate Told(r: ModeRun, b: Reading) {
    && b.taken == |r.changedParams| && b.sign == r.lastSign
    && forall more: seq<string> ::
         Read(r.changedModes, r.changedParams + more, |r.changedModes|) == b
  }

  lemma ToldMore(r: ModeRun, b: Reading, next: ModeRun, letter: char, params: seq<string>) returns (b': Reading)
    requires Told(r, b) && Spoken(r, next, letter, params) && TakesThese(r.Sign(), letter, params)
    ensures Told(next, b') && b'.wishes == b.wishes + [Wish(r.Sign(), letter, FirstOf(params))]
  {
    b' := Reading(b.wishes + [Wish(r.Sign(), letter, FirstOf(params))], Some(r.Sign()), b.taken + |params|);
    forall more: seq<string> ensures Read(next.changedModes, next.changedParams + more, |next.changedModes|) == b' {
      ReadSpoken(r, b, next, letter, params, more, b');
    }
  }

  lemma ReadSpoken(r: ModeRun, b: Reading, next: ModeRun, letter: char, params: seq<string>, more: seq<string>,
                   b': Reading)
    requires Told(r, b) && Spoken(r, next, letter, params) && TakesThese(r.Sign(), letter, params)
    requires b' == Reading(b.wishes + [Wish(r.Sign(), letter, FirstOf(params))], Some(r.Sign()), b.taken + |params|)
    ensures Read(next.changedModes, next.changedParams + more, |next.changedModes|) == b'
  {
    var modes, all := next.changedModes, next.changedParams + more;
    var n := |r.changedModes|;
    assert all == r.changedParams + (params + more);
    ReadPrefix(r.changedModes, modes, all, n);
    AnnouncedTail(r, next, letter, params);
    var turned := b.(sign := Some(r.Sign()));
    SignRead(r, b, modes, all, n, n + |SignPart(r)|);
    ReadNext(modes, all, |modes|, turned);
    LetterRead(turned, r.Sign(), letter, params, more, all);
  }

  /** A letter announced is read with its own parameter. */
  lemma LetterRead(b: Reading, sign: char, letter: char, params: seq<string>, more: seq<string>, all: seq<string>)
    requires b.sign == Some(sign) && letter in "itkol" && |params| <= 1 && TakesThese(sign, letter, params)
    requires b.taken <= |all| && all[b.taken..] == params + more
    ensures ReadOne(b, letter, all)
         == Reading(b.wishes + [Wish(sign, letter, FirstOf(params))], b.sign, b.taken + |params|)
  {
    if params != [] { assert all[b.taken] == all[b.taken..][0] == params[0]; }
  }

  /** The sign announced, if any, is read. */
  lemma SignRead(r: ModeRun, b: Reading, modes: string, all: seq<string>, n: nat, at: nat)
    requires b.sign == r.lastSign && n <= at <= |modes| && at == n + |SignPart(r)| && modes[n..at] == SignPart(r)
    requires Read(modes, all, n) == b
    ensures Read(modes, all, at) == b.(sign := Some(r.Sign()))
  {
    if at > n {
      assert modes[n] == modes[n..at][0] == r.Sign();
      ReadNext(modes, all, at, b);
    }
  }

  lemma {:induction false} RunStirs(cfg: Config, c: Core, fd: int, m: Message, was: Channel, modes: string, n: nat)
    returns (r: ModeRun, b: Reading, mids: seq<Channel>)
    requires Inv(c) && fd in c.clients && |m.params| >= 2 && ModesOk(was) && n <= |modes|
    ensures r == ModeUpTo(cfg, c, fd, m, was, modes, n) && Told(r, b) && AllStir(c, was, b.wishes, mids)
    decreases n
  {
    if n == 0 {
      r, b, mids := ModeStart(was), Reading([], None, 0), [];
    } else {
      var before, b0, mids0 := RunStirs(cfg, c, fd, m, was, modes, n - 1);
      ModeUpToFrame(cfg, c, fd, m, was, modes, n - 1);
      AnnouncementMeans(cfg, c, fd, m, was, modes, n - 1, before);
      var params := LetterStirs(cfg, c, fd, m, before, modes[n - 1]);
      ModeUpToNext(cfg, c, fd, m, was, modes, n, before);
      r := ModeChar(cfg, c, fd, m, before, modes[n - 1]);
      if Quiet(before, r) {
        b, mids := b0, mids0;
      } else {
        b := ToldMore(before, b0, r, modes[n - 1], params);
        ToldIs(before, b0);
        mids := StirMore(c, was, b0.wishes, mids0, before.channel, b.wishes);
      }
    }
  }

  lemma ToldIs(r: ModeRun, b: Reading)
    requires Told(r, b)
    ensures Wishes(r.changedModes, r.changedParams) == b.wishes
  {
    assert r.changedParams + [] == r.changedParams;
  }

  lemma StirMore(c: Core, was: Channel, wishes: seq<Wish>, mids: seq<Channel>, ch: Channel, more: seq<Wish>)
    returns (all: seq<Channel>)
    requires AllStir(c, was, wishes, mids) && Means(c, was, wishes, ch)
    requires |more| == |wishes| + 1 && more[..|wishes|] == wishes && Stirs(c, ch, more[|wishes|])
    ensures AllStir(c, was, more, all)
  {
    all := mids + [ch];
    forall i | 0 <= i < |more| ensures Means(c, was, more[..i], all[i]) && Stirs(c, all[i], more[i]) {
      if i < |wishes| {
        assert all[i] == mids[i] && more[..i] == wishes[..i];
      }
    }
  }

  // ------------------------------------------------------------- complaints

  /** What is wrong with a wish, if anything. */
  ghost function Complaint(cfg: Config, c: Core, me: Client, ch: Channel, w: Wish): seq<Send> {
    if w.letter !in "itkol" then [UnknownLetter(cfg, me, ch, w.letter)]
    else if w.param == None then
      if w.letter == 'o' || (w.sign == '+' && (w.letter == 'k' || w.letter == 'l')) then
        [Numbered(cfg, me, 461, "MODE")]
      else []
    else if w.letter != 'o' then []
    else if NobodyNamed(c, w.param.value) then [Numbered(cfg, me, 401, w.param.value)]
    else if exists x :: Named(c, Fold(w.param.value), x) && x in ch.members then []
    else [Numbered(cfg, me, 441, w.param.value + " " + ch.name)]
  }

  function UnknownLetter(cfg: Config, me: Client, ch: Channel, letter: char): Send {
    Send({me.fd}, Numeric(cfg.serverName, me, 472, [letter] + (" :" + cfg.text(472)) + ch.name))
  }

  /** The complaints about the first n characters, in order. */
  ghost function Complaints(cfg: Config, c: Core, me: Client, ch: Channel, modes: string, params: seq<string>, n: nat)
    : seq<Send>
    requires n <= |modes|
  {
    if n == 0 then []
    else
      var before := Complaints(cfg, c, me, ch, modes, params, n - 1);
      var b, x := Read(modes, params, n - 1), modes[n - 1];
      if x == '+' || x == '-' then before
      else if b.sign == None then before + [UnknownLetter(cfg, me, ch, x)]
      else
        var wishes := ReadOne(b, x, params).wishes;
        before + Complaint(cfg, c, me, ch, wishes[|wishes| - 1])
  }

  lemma OperatorComplains(cfg: Config, c: Core, fd: int, m: Message, ch: Channel, r: ModeRun)
    requires Inv(c) && fd in c.clients && c.clients[fd].fd == fd && m.command == "MODE"
    requires r.channel.name == ch.name && r.channel.members == ch.members
    ensures ModeOperator(cfg, c, fd, m, r).sends
         == r.sends + Complaint(cfg, c, c.clients[fd], ch, WishOf(m, r, 'o'))
  {
    if r.argIndex < |m.params| {
      var nick := m.params[r.argIndex];
      NickMissing(c, nick);
      forall x ensures FindNick(c, nick) == Some(x) <==> Named(c, Fold(nick), x) { NickFound(c, nick, x); }
    }
  }

  lemma CharComplains(cfg: Config, c: Core, fd: int, m: Message, ch: Channel, r: ModeRun, x: char)
    requires Inv(c) && fd in c.clients && c.clients[fd].fd == fd && m.command == "MODE"
    requires r.channel.name == ch.name && r.channel.members == ch.members
    ensures ModeChar(cfg, c, fd, m, r, x).sends
         == r.sends + if x == '+' || x == '-' then []
                      else if !r.signSeen then [UnknownLetter(cfg, c.clients[fd], ch, x)]
                      else Complaint(cfg, c, c.clients[fd], ch, WishOf(m, r, x))
  {
    if x == 'o' && r.signSeen { OperatorComplains(cfg, c, fd, m, ch, r); }
  }

  lemma {:induction false} RunComplains(cfg: Config, c: Core, fd: int, m: Message, ch: Channel, modes: string, n: nat)
    returns (r: ModeRun)
    requires Inv(c) && fd in c.clients && c.clients[fd].fd == fd && m.command == "MODE" && |m.params| >= 2
    requires n <= |modes|
    ensures r == ModeUpTo(cfg, c, fd, m, ch, modes, n) && InStep(r, Read(modes, m.params[2..], n))
    ensures r.sends == Complaints(cfg, c, c.clients[fd], ch, modes, m.params[2..], n)
    decreases n
  {
    if n == 0 {
      r := ModeStart(ch);
    } else {
      var before := RunComplains(cfg, c, fd, m, ch, modes, n - 1);
      var b, x := Read(modes, m.params[2..], n - 1), modes[n - 1];
      ModeUpToFrame(cfg, c, fd, m, ch, modes, n - 1);
      r := ModeChar(cfg, c, fd, m, before, x);
      ModeUpToNext(cfg, c, fd, m, ch, modes, n, before);
      CharInStep(cfg, c, fd, m, before, b, x);
      CharComplains(cfg, c, fd, m, ch, before, x);
    }
  }

  /** The core with channel k replaced. */
  ghost predicate OnlyChannel(c: Core, k: string, d: Core) {
    k in c.channels && k in d.channels && d == c.(channels := c.channels[k := d.channels[k]])
  }

  /** A MODE with a mode string on a channel. By an operator: the channel is as
      the last wishes of the string want it, and, read off the letters and
      parameters announced alone, as the last wishes announced want it; no
      letter is announced idly; the announcement goes to every member when there
      is one, and when there is none nothing changed; what is wrong with the string is
      answered to the sender alone. By anyone
      else: refused and nothing changed. */
  lemma ModeLine(cfg: Config, c: Core, fd: int, m: Message)
    returns (letters: string, params: seq<string>, complaints: seq<Send>)
    requires Inv(c) && Enrolled(c, fd) && m.command == "MODE" && |m.params| >= 2
    requires m.params[0] != "" && m.params[0][0] == '#'
    ensures c.clients[fd].fd == fd
    ensures var e, me, k := Dispatch(cfg, c, fd, m), c.clients[fd], Fold(m.params[0]);
      if !In(c, fd, k) then e.core == c && Outside(cfg, c, fd, m.params[0], e.sends)
      else
        && k in c.channels
        && var ch := c.channels[k];
        if fd !in ch.operators then Unchanged(e, c, Numbered(cfg, me, 482, ch.name))
        else
          && OnlyChannel(c, k, e.core)
          && Means(c, ch, Wishes(m.params[1], m.params[2..]), e.core.channels[k])
          && Means(c, ch, Wishes(letters, params), e.core.channels[k])
          && NoneIdle(c, ch, Wishes(letters, params))
          && complaints == Complaints(cfg, c, me, ch, m.params[1], m.params[2..], |m.params[1]|)
          && if letters == "" then e.core == c && e.sends == complaints
             else
               && |e.sends| == |complaints| + 1 && complaints == e.sends[..|complaints|]
               && AllIn(c, k, e.sends[|complaints|].to)
               && e.sends[|complaints|].text == LineFrom(me, "MODE", JoinWith([ch.name, letters] + params, " "))
  {
    assert ClientOk(c.clients[fd], fd);
    letters, params, complaints := "", [], [];
    var k := Fold(m.params[0]);
    InChannel(c, fd, k);
    assert Dispatch(cfg, c, fd, m) == Mode(cfg, c, fd, m);
    if In(c, fd, k) && fd in c.channels[k].operators {
      letters, params, complaints := ModeByOperator(cfg, c, fd, m, k);
      MembersAreIn(c, k);
    }
  }

  lemma {:induction false} SpacedJoins(words: seq<string>)
    requires words != []
    ensures SpacedText(words) == " " + JoinWith(words, " ")
    decreases |words|
  {
    if |words| > 1 { SpacedJoins(words[1..]); }
  }

  lemma ModeByOperator(cfg: Config, c: Core, fd: int, m: Message, k: string)
    returns (letters: string, params: seq<string>, complaints: seq<Send>)
    requires Inv(c) && fd in c.clients && c.clients[fd].fd == fd && m.command == "MODE" && |m.params| >= 2
    requires k in c.channels
    ensures var e, ch := ModeChange(cfg, c, fd, m, c.channels[k]), c.channels[k];
      && OnlyChannel(c, k, e.core)
      && Means(c, ch, Wishes(m.params[1], m.params[2..]), e.core.channels[k])
      && Means(c, ch, Wishes(letters, params), e.core.channels[k]) && NoneIdle(c, ch, Wishes(letters, params))
      && complaints == Complaints(cfg, c, c.clients[fd], ch, m.params[1], m.params[2..], |m.params[1]|)
      && (letters == "" ==> e.core == c)
      && e.sends == complaints
           + if letters == "" then [] else
             [Send(ch.members, LineFrom(c.clients[fd], "MODE", JoinWith([ch.name, letters] + params, " ")))]
  {
    var ch, modes := c.channels[k], m.params[1];
    assert ChannelOk(ch, k);
    var r := RunMeans(cfg, c, fd, m, ch, modes);
    letters, params, complaints := r.changedModes, r.changedParams, r.sends;
    var same := RunComplains(cfg, c, fd, m, ch, modes, |modes|);
    AnnouncementMeans(cfg, c, fd, m, ch, modes, |modes|, r);
    var same', b, mids := RunStirs(cfg, c, fd, m, ch, modes, |modes|);
    ToldIs(r, b);
    SpacedJoins([ch.name, letters] + params);
    ReplayUpTo(cfg, c, fd, m, ch, modes, |modes|);
    if letters == "" {
      assert Replay(cfg, c, fd, m, ch, r) == ModeStart(ch);
      assert c.channels[k := ch] == c.channels;
    }
  }

  /** The channel with modes i, t, k and l off. */
  function ModesOff(ch: Channel): Channel {
    ch.(inviteOnly := false, topicRestricted := false, keyEnabled := false, channelKey := "",
        limitEnabled := false, userLimit := 0)
  }

  /** The other forms of MODE change nothing. A query, from anyone registered, is
      answered with letters and parameters that mean the channel's own modes. */
  lemma ModeOtherwise(cfg: Config, c: Core, fd: int, m: Message) returns (letters: string, params: seq<string>)
    requires Inv(c) && Enrolled(c, fd) && m.command == "MODE"
    requires |m.params| < 2 || m.params[0] == "" || m.params[0][0] != '#'
    ensures c.clients[fd].fd == fd
    ensures var e, me := Dispatch(cfg, c, fd, m), c.clients[fd];
      if |m.params| == 0 then Unchanged(e, c, Numbered(cfg, me, 461, "MODE"))
      else
        var target := m.params[0];
        if target == "" || target[0] != '#' then Unchanged(e, c, Numbered(cfg, me, 421, target))
        else if Fold(target) !in c.channels then Unchanged(e, c, Numbered(cfg, me, 403, target))
        else
          var ch := c.channels[Fold(target)];
          && Unchanged(e, c, Send({fd}, Numeric(cfg.serverName, me, 324, JoinWith([ch.name, letters] + params, " "))))
          && Means(c, ModesOff(ch), Wishes(letters, params), ch)
  {
    assert ClientOk(c.clients[fd], fd);
    letters, params := "", [];
    assert Dispatch(cfg, c, fd, m) == Mode(cfg, c, fd, m);
    if |m.params| == 1 && Fold(m.params[0]) in c.channels {
      letters, params := QueryMeans(cfg, c, fd, Fold(m.params[0]));
      SpacedJoins([c.channels[Fold(m.params[0])].name, letters] + params);
    }
  }

  lemma QueryMeans(cfg: Config, c: Core, fd: int, k: string) returns (letters: string, params: seq<string>)
    requires Inv(c) && fd in c.clients && k in c.channels
    ensures letters == c.channels[k].ModeString() && params == c.channels[k].ModeParameters()
    ensures Means(c, ModesOff(c.channels[k]), Wishes(letters, params), c.channels[k])
  {
    var ch := c.channels[k];
    assert ChannelOk(ch, k);
    letters, params := ch.ModeString(), ch.ModeParameters();
    var m := QueryAnswer(k, ch);
    ModeQueryRoundTrips(cfg, c, fd, k, ch);
    var r := RunMeans(cfg, c, fd, m, ModesOff(ch), letters);
    assert m.params[2..] == params;
  }
}
