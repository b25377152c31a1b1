/** Laws of whole runs. A run is any list of lines, connections and
    disconnections; the state after each step is what the server makes of it.
    Where operators come from, how many get in, and what a limit is worth
    (services/irc/prd/handler, services/irc/prd/domain/Channel.cpp). */
module RunLaws {
  import opened IrcUtil
  import opened Domain
  import opened Ordered
  import opened Moves
  import opened Traces
  import opened ChannelChanges
  import opened Series

  // ---------------------------------------------------------- where operators come from

  /** The step makes fd operator of k: fd's own JOIN creates the channel it
      names, or a MODE on k by one of its operators names the member fd. */
  ghost predicate Grants(c: Core, s: Step, fd: int, k: string) {
    && s.Says? && |s.m.params| >= 1
    && ((s.m.command == "JOIN" && s.fd == fd && k !in c.channels
         && Asked(SplitComma(s.m.params[0]), |SplitComma(s.m.params[0])|, k))
        || (s.m.command == "MODE" && IsOperator(c, s.fd, k) && Fold(s.m.params[0]) == k
            && HasMember(c, fd, k) && Names(c, s.m, fd)))
  }

  lemma FoundedOperator(c: Core, who: int, m: Message, d: Core, fd: int, k: string)
    requires LineChanges(c, who, m, d) && IsOperator(d, fd, k) && k !in c.channels
    ensures Grants(c, Says(who, m), fd, k)
  {
    assert Founded(d.channels[k], who);
  }

  lemma NamedOperator(c: Core, who: int, m: Message, d: Core, fd: int, k: string)
    requires LineChanges(c, who, m, d) && IsOperator(d, fd, k) && !IsOperator(c, fd, k) && k in c.channels
    ensures Grants(c, Says(who, m), fd, k)
  {
    assert Permitted(c, who, m, k, c.channels[k], d.channels[k]);
  }

  lemma LineOperator(cfg: Config, c: Core, who: int, m: Message, d: Core, fd: int, k: string)
    requires Inv(c) && d == Happens(cfg, c, Says(who, m)).core
    requires IsOperator(d, fd, k) && !IsOperator(c, fd, k)
    ensures Grants(c, Says(who, m), fd, k)
  {
    DispatchChanges(cfg, c, who, m);
    if k in c.channels {
      NamedOperator(c, who, m, d, fd, k);
    } else {
      FoundedOperator(c, who, m, d, fd, k);
    }
  }

  lemma OperatorStep(cfg: Config, c: Core, s: Step, fd: int, k: string)
    requires Inv(c) && Sound(s)
    requires IsOperator(Happens(cfg, c, s).core, fd, k) && !IsOperator(c, fd, k)
    ensures Grants(c, s, fd, k)
  {
    match s {
      case Says(who, m) => LineOperator(cfg, c, who, m, Happens(cfg, c, s).core, fd, k);
      case Arrives(who, hostname) =>
      case Departs(who, reason) => DisconnectChanges(c, who, reason);
    }
  }

  lemma OperatorAt(cfg: Config, states: seq<Core>, trace: seq<Step>, i: nat, j: nat, fd: int, k: string)
    requires Runs(cfg, states, trace) && i < |trace| && j == i + 1
    requires IsOperator(states[j], fd, k) && !IsOperator(states[i], fd, k)
    ensures Grants(states[i], trace[i], fd, k)
  {
    RunStep(cfg, states, trace, i, j);
    OperatorStep(cfg, states[i], trace[i], fd, k);
  }

  /** Operator provenance: whoever is operator at some point of a run, and was
      not at its start, was made so by an earlier step of that run, and has been
      operator ever since. */
  lemma OperatorProvenance(cfg: Config, states: seq<Core>, trace: seq<Step>, n: nat, fd: int, k: string)
    returns (i: nat)
    requires Runs(cfg, states, trace) && n <= |trace|
    requires IsOperator(states[n], fd, k) && !IsOperator(states[0], fd, k)
    ensures i < n && Grants(states[i], trace[i], fd, k)
    ensures forall j :: i < j <= n ==> IsOperator(states[j], fd, k)
  {
    var up := seq(n + 1, j requires 0 <= j <= n => IsOperator(states[j], fd, k));
    i := LastRise(up, n);
    assert up[i + 1];
    OperatorAt(cfg, states, trace, i, i + 1, fd, k);
    forall j | i < j <= n ensures IsOperator(states[j], fd, k) { assert up[j]; }
  }

  /** The channel exists in every state from `from` to `upto`. */
  predicate Alive(states: seq<Core>, k: string, from: nat, upto: nat)
    requires upto < |states|
  {
    forall i {:trigger states[i]} :: from <= i <= upto ==> k in states[i].channels
  }

  predicate Led(c: Core, k: string) { k in c.channels && c.channels[k].operators != {} }

  lemma LeaderlessStep(cfg: Config, states: seq<Core>, trace: seq<Step>, i: nat, j: nat, k: string)
    requires Runs(cfg, states, trace) && i < |trace| && j == i + 1
    requires k in states[i].channels && !Led(states[i], k)
    ensures !Led(states[j], k)
  {
    if Led(states[j], k) {
      var fd := AnyOf(states[j].channels[k].operators);
      OperatorAt(cfg, states, trace, i, j, fd, k);
    }
  }

  /** A channel that lost its last operator has none until it is emptied and
      created again: nobody is promoted in their place. */
  lemma NoOperatorStays(cfg: Config, states: seq<Core>, trace: seq<Step>, k: string, from: nat, upto: nat)
    requires Runs(cfg, states, trace) && from <= upto <= |trace|
    requires Alive(states, k, from, upto) && !Led(states[from], k)
    ensures !Led(states[upto], k)
  {
    var n := upto - from;
    var up := seq(n + 1, i requires 0 <= i <= n => Led(states[from + i], k));
    forall i, j | 0 <= i && j == i + 1 < |up| && !up[i] ensures !up[j] {
      assert k in states[from + i].channels;
      LeaderlessStep(cfg, states, trace, from + i, from + j, k);
    }
    StaysDown(up, n);
  }

  // -------------------------------------------------------- admission account

  /** The step is an INVITE to k that the server grants. */
  ghost predicate GrantsInvite(c: Core, s: Step, k: string) {
    s.Says? && exists x :: Invites(c, s.fd, s.m, k, x)
  }

  /** How many enter k, by this step, while it is invite-only. */
  function EntriesUnderInvite(c: Core, d: Core, k: string): nat {
    if k in c.channels && k in d.channels && c.channels[k].inviteOnly
    then |d.channels[k].members - c.channels[k].members| else 0
  }

  ghost function InviteOf(c: Core, s: Step, k: string): nat { if GrantsInvite(c, s, k) then 1 else 0 }

  /** The INVITEs granted, step by step. */
  ghost function InviteSeries(states: seq<Core>, trace: seq<Step>, k: string, from: nat, upto: nat): seq<int>
    requires from <= upto <= |trace| < |states|
  {
    seq(upto - from, i requires 0 <= i < upto - from => InviteOf(states[from + i], trace[from + i], k))
  }

  /** The entries made under +i, step by step. */
  function EntrySeries(states: seq<Core>, k: string, from: nat, upto: nat): seq<int>
    requires from <= upto < |states|
  {
    seq(upto - from, i requires 0 <= i < upto - from => EntriesUnderInvite(states[from + i], states[from + i + 1], k))
  }

  function OpenInvites(c: Core, k: string): nat {
    if k in c.channels then |c.channels[k].invited| else 0
  }

  lemma CardMinus(s: set<int>, x: int)
    ensures |s - {x}| == if x in s then |s| - 1 else |s|
  {
    if x in s {
      assert s == (s - {x}) + {x};
    } else {
      assert s - {x} == s;
    }
  }

  lemma CardPlus(s: set<int>, x: int)
    ensures |s + {x}| == if x in s then |s| else |s| + 1
  {
    if x in s { assert s + {x} == s; }
  }

  lemma CardSubset(s: set<int>, t: set<int>)
    requires s <= t
    ensures |s| <= |t|
  {
    assert t == s + (t - s);
  }

  /** What a change of the channel adds to the account, under +i and not. */
  function Balance(was: Channel, now: Channel): int {
    (if was.inviteOnly then |now.members - was.members| else 0) + |now.invited| - |was.invited|
  }

  lemma NobodyNew(was: Channel, now: Channel)
    requires now.members <= was.members && now.invited <= was.invited
    ensures Balance(was, now) <= 0
  {
    assert now.members - was.members == {};
    CardSubset(now.invited, was.invited);
  }

  lemma OneNew(was: Channel, now: Channel, fd: int)
    requires Entered(was, now, fd)
    ensures Balance(was, now) <= 0
  {
    CardMinus(was.invited, fd);
    assert now.members - was.members <= {fd};
    CardSubset(now.members - was.members, {fd});
  }

  lemma OneAsked(was: Channel, x: int)
    ensures Balance(was, was.AddInvite(x)) <= 1
  {
    assert was.AddInvite(x).members - was.members == {};
    CardPlus(was.invited, x);
  }

  /** One permitted change keeps the account. */
  lemma ChangeAccount(c: Core, fd: int, m: Message, k: string, was: Channel, now: Channel)
    requires Inv(c) && k in c.channels && was == c.channels[k] && Permitted(c, fd, m, k, was, now)
    ensures Balance(was, now) <= if exists x :: Invites(c, fd, m, k, x) then 1 else 0
  {
    if m.command == "JOIN" && Entered(was, now, fd) {
      OneNew(was, now, fd);
    } else if x :| Invites(c, fd, m, k, x) && now == was.AddInvite(x) {
      OneAsked(was, x);
    } else {
      NobodyNew(was, now);
    }
  }

  lemma StepAccount(cfg: Config, c: Core, s: Step, k: string)
    requires Inv(c) && Sound(s)
    requires k in c.channels && k in Happens(cfg, c, s).core.channels
    ensures var d := Happens(cfg, c, s).core;
      EntriesUnderInvite(c, d, k) + |d.channels[k].invited|
      <= (if GrantsInvite(c, s, k) then 1 else 0) + |c.channels[k].invited|
  {
    var d := Happens(cfg, c, s).core;
    match s {
      case Says(fd, m) =>
        DispatchChanges(cfg, c, fd, m);
        ChangeAccount(c, fd, m, k, c.channels[k], d.channels[k]);
      case Arrives(fd, hostname) =>
        assert d.channels == c.channels;
        assert d.channels[k].members - c.channels[k].members == {};
      case Departs(fd, reason) =>
        DisconnectChanges(c, fd, reason);
        CardSubset(d.channels[k].invited, c.channels[k].invited);
        assert d.channels[k].members - c.channels[k].members == {};
    }
  }

  lemma AccountAt(cfg: Config, states: seq<Core>, trace: seq<Step>, k: string, i: nat, j: nat)
    requires Runs(cfg, states, trace) && i < |trace| && j == i + 1
    requires k in states[i].channels && k in states[j].channels
    ensures EntriesUnderInvite(states[i], states[j], k) + OpenInvites(states[j], k)
         <= InviteOf(states[i], trace[i], k) + OpenInvites(states[i], k)
  {
    RunStep(cfg, states, trace, i, j);
    StepAccount(cfg, states[i], trace[i], k);
  }

  /** Admission accounting over the life of a channel: entries made under +i
      plus the invites still open never exceed the INVITEs granted plus the
      invites open at the start, of which a new channel has none. */
  lemma AdmissionAccounting(cfg: Config, states: seq<Core>, trace: seq<Step>, k: string, from: nat, upto: nat)
    requires Runs(cfg, states, trace) && from <= upto <= |trace|
    requires Alive(states, k, from, upto)
    ensures Sum(EntrySeries(states, k, from, upto)) + OpenInvites(states[upto], k)
         <= Sum(InviteSeries(states, trace, k, from, upto)) + OpenInvites(states[from], k)
  {
    var n := upto - from;
    var spent := EntrySeries(states, k, from, upto);
    var earned := InviteSeries(states, trace, k, from, upto);
    var stock: seq<int> := seq(n + 1, i requires 0 <= i <= n => OpenInvites(states[from + i], k));
    forall i, j | 0 <= i < n && j == i + 1 ensures spent[i] + stock[j] <= earned[i] + stock[i] {
      assert k in states[from + i].channels && k in states[from + j].channels;
      AccountAt(cfg, states, trace, k, from + i, from + j);
    }
    Account(spent, earned, stock);
  }

  /** A channel is born by a JOIN that asks for it: its creator is the only
      member and operator, no invite is open, no mode keeps anyone out. */
  lemma ChannelBirth(cfg: Config, c: Core, s: Step, k: string)
    requires Inv(c) && Sound(s)
    requires k !in c.channels && k in Happens(cfg, c, s).core.channels
    ensures s.Says? && s.m.command == "JOIN" && |s.m.params| >= 1
    ensures Asked(SplitComma(s.m.params[0]), |SplitComma(s.m.params[0])|, k)
    ensures Founded(Happens(cfg, c, s).core.channels[k], s.fd)
  {
    match s {
      case Says(fd, m) => DispatchChanges(cfg, c, fd, m);
      case Arrives(fd, hostname) =>
      case Departs(fd, reason) => DisconnectChanges(c, fd, reason);
    }
  }

  // -------------------------------------------------------------- the limit

  /** The limit L is set on the channel in every state from `from` to `upto`. */
  predicate LimitHeld(states: seq<Core>, k: string, limit: nat, from: nat, upto: nat)
    requires upto < |states|
  {
    forall i {:trigger states[i]} :: from <= i <= upto ==>
      k in states[i].channels && states[i].channels[k].limitEnabled && states[i].channels[k].userLimit == limit
  }

  ghost predicate MembersGrow(was: Channel, now: Channel) {
    |now.members| <= |was.members| || (|now.members| == |was.members| + 1 && !was.IsFull())
  }

  lemma LineMembers(cfg: Config, c: Core, fd: int, m: Message, k: string)
    requires Inv(c) && k in c.channels && k in Happens(cfg, c, Says(fd, m)).core.channels
    ensures MembersGrow(c.channels[k], Happens(cfg, c, Says(fd, m)).core.channels[k])
  {
    var was, now := c.channels[k], Happens(cfg, c, Says(fd, m)).core.channels[k];
    DispatchChanges(cfg, c, fd, m);
    assert Permitted(c, fd, m, k, was, now);
    if Entered(was, now, fd) {
      CardPlus(was.members, fd);
    } else if Shrunk(was, now) {
      CardSubset(now.members, was.members);
    }
  }

  /** One step adds one member at most, and none to a full channel. */
  lemma MembersStep(cfg: Config, c: Core, s: Step, k: string)
    requires Inv(c) && Sound(s)
    requires k in c.channels && k in Happens(cfg, c, s).core.channels
    ensures MembersGrow(c.channels[k], Happens(cfg, c, s).core.channels[k])
  {
    match s {
      case Says(fd, m) => LineMembers(cfg, c, fd, m, k);
      case Arrives(fd, hostname) => assert Happens(cfg, c, s).core.channels == c.channels;
      case Departs(fd, reason) =>
        DisconnectChanges(c, fd, reason);
        CardSubset(Happens(cfg, c, s).core.channels[k].members, c.channels[k].members);
    }
  }

  function MemberCount(c: Core, k: string): nat {
    if k in c.channels then |c.channels[k].members| else 0
  }

  lemma LimitAt(cfg: Config, states: seq<Core>, trace: seq<Step>, k: string, limit: nat, i: nat, j: nat)
    requires Runs(cfg, states, trace) && i < |trace| && j == i + 1
    requires k in states[i].channels && k in states[j].channels
    requires states[i].channels[k].limitEnabled && states[i].channels[k].userLimit == limit
    ensures var before, after := MemberCount(states[i], k), MemberCount(states[j], k);
      after <= before || (after == before + 1 && before < limit)
  {
    RunStep(cfg, states, trace, i, j);
    MembersStep(cfg, states[i], trace[i], k);
  }

  /** While a limit stays set nobody gets in above it; a limit set below the
      number of members throws nobody out. */
  lemma LimitRespected(cfg: Config, states: seq<Core>, trace: seq<Step>, k: string, limit: nat, from: nat, upto: nat)
    requires Runs(cfg, states, trace) && from <= upto <= |trace|
    requires LimitHeld(states, k, limit, from, upto)
    ensures var before := MemberCount(states[from], k);
      MemberCount(states[upto], k) <= if before > limit then before else limit
  {
    var n := upto - from;
    var size: seq<int> := seq(n + 1, i requires 0 <= i <= n => MemberCount(states[from + i], k));
    forall i, j | 0 <= i && j == i + 1 < |size|
      ensures size[j] <= size[i] || (size[j] == size[i] + 1 && size[i] < limit)
    {
      assert k in states[from + i].channels && k in states[from + j].channels;
      LimitAt(cfg, states, trace, k, limit, from + i, from + j);
    }
    BelowLimit(size, limit, n);
  }
}
