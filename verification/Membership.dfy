/** JOIN, PART, KICK and JOIN 0 on the abstract relation client x channel:
    exactly which pairs each adds or removes, and a key nobody can supply
    (services/irc/prd/handler/ServerChannelCommands.cpp). */
module Membership {
  import opened IrcUtil
  import opened Strings
  import opened Domain
  import opened Ordered
  import opened Commands
  import opened Moves
  import opened CommandMoves
  import opened Laws

  /** The doors of JOIN: a free valid name, or an existing channel that fd is
      not in, with its invite, key and limit respected. */
  predicate GetsIn(c: Core, fd: int, name: string, key: string) {
    var k := Fold(name);
    && ValidChannelName(name)
    && !HasMember(c, fd, k)
    && (k in c.channels ==>
          && (c.channels[k].inviteOnly ==> fd in c.channels[k].invited)
          && c.channels[k].MatchesKey(key)
          && !c.channels[k].IsFull())
  }

  lemma JoinedRelation(c: Core, fd: int, channel: Channel, created: bool)
    requires Inv(c) && Allowed(c, fd, Enter(fd, channel, created))
    ensures Relation(Joined(c, fd, channel, created)) == Relation(c) + {(fd, channel.keyName)}
  {
    MoveRefinesRelation(c, fd, Enter(fd, channel, created));
  }

  lemma LeftRelation(c: Core, fd: int, k: string)
    requires Inv(c) && HasMember(c, fd, k)
    ensures fd in c.clients
    ensures Relation(Left(c, fd, k)) == Relation(c) - {(fd, k)}
  {
    assert HasJoined(c, fd, k);
    MoveRefinesRelation(c, fd, Exit(fd, k));
  }

  /** One JOIN target adds exactly one pair when the doors are open, and
      changes nothing when one of them is shut. */
  lemma JoinAddsOne(cfg: Config, c: Core, fd: int, name: string, key: string)
    requires Inv(c) && fd in c.clients && c.clients[fd].fd == fd && c.clients[fd].registered
    ensures var d := JoinOne(cfg, c, fd, name, key).core;
      && Relation(d) == Relation(c) + (if GetsIn(c, fd, name, key) then {(fd, Fold(name))} else {})
      && (!GetsIn(c, fd, name, key) ==> d == c)
  {
    var k := Fold(name);
    assert HasJoined(c, fd, k) <==> HasMember(c, fd, k);
    if GetsIn(c, fd, name, key) {
      if k in c.channels {
        assert ChannelOk(c.channels[k], k);
        JoinedRelation(c, fd, c.channels[k], false);
      } else {
        JoinedRelation(c, fd, NewChannel(name, k), true);
      }
    } else {
      assert Relation(c) + {} == Relation(c);
    }
  }

  lemma NoPair(c: Core, fd: int, k: string)
    requires Inv(c) && !HasMember(c, fd, k)
    ensures Relation(c) - {(fd, k)} == Relation(c)
  {
    TwoSetsOneRelation(c, fd, k);
  }

  /** One PART target removes exactly the sender's pair, if there. */
  lemma PartRemovesOne(cfg: Config, c: Core, fd: int, name: string, reason: string)
    requires Inv(c) && fd in c.clients
    ensures Relation(PartOne(cfg, c, fd, name, reason).core) == Relation(c) - {(fd, Fold(name))}
  {
    if HasMember(c, fd, Fold(name)) {
      LeftRelation(c, fd, Fold(name));
    } else {
      NoPair(c, fd, Fold(name));
    }
  }

  /** KICK removes exactly the target's pair, when an operator of the channel
      asks and the target is in it, and otherwise changes nothing. */
  lemma KickRemovesOne(cfg: Config, c: Core, fd: int, m: Message)
    requires Inv(c) && fd in c.clients && |m.params| >= 2
    ensures var k := Fold(m.params[0]);
      var target := FindNick(c, m.params[1]);
      var d := Kick(cfg, c, fd, m).core;
      if IsOperator(c, fd, k) && target.Some? && HasMember(c, target.value, k)
      then Relation(d) == Relation(c) - {(target.value, k)} && (target.value, k) in Relation(c)
      else d == c
  {
    var k := Fold(m.params[0]);
    var target := FindNick(c, m.params[1]);
    assert k in c.channels ==> ChannelOk(c.channels[k], k);
    if IsOperator(c, fd, k) && target.Some? && HasMember(c, target.value, k) {
      TwoSetsOneRelation(c, target.value, k);
      LeftRelation(c, target.value, k);
    }
  }

  /** The pairs of fd with the channels of a list of names. */
  ghost function Pairs(fd: int, names: seq<string>): set<(int, string)> {
    set name | name in names :: (fd, Fold(name))
  }

  lemma LeaveNextRelation(c: Core, e: Effect, fd: int, name: string, reason: string, names: seq<string>)
    requires Inv(e.core) && fd in e.core.clients
    requires Relation(e.core) == Relation(c) - Pairs(fd, names)
    ensures var k := Fold(name);
      var next := if k in e.core.channels && fd in e.core.channels[k].members
                        then e.Then(Leave(e.core, fd, k, reason)) else e;
      Relation(next.core) == Relation(c) - Pairs(fd, names + [name])
  {
    var k := Fold(name);
    if HasMember(e.core, fd, k) { LeftRelation(e.core, fd, k); } else { NoPair(e.core, fd, k); }
    assert Pairs(fd, names + [name]) == Pairs(fd, names) + {(fd, k)};
  }

  lemma {:induction false} LeaveRemovesEach(c: Core, fd: int, keys: seq<string>, reason: string, n: nat)
    requires Inv(c) && fd in c.clients && n <= |keys|
    ensures Inv(LeaveUpTo(c, fd, keys, reason, n).core)
    ensures Relation(LeaveUpTo(c, fd, keys, reason, n).core) == Relation(c) - Pairs(fd, keys[..n])
  {
    if n > 0 {
      LeaveRemovesEach(c, fd, keys, reason, n - 1);
      var deeds := LeaveUpToDeeds(c, fd, keys, reason, n);
      RunKeeps(c, deeds);
      LeaveNextRelation(c, LeaveUpTo(c, fd, keys, reason, n - 1), fd, keys[n - 1], reason, keys[..n - 1]);
      assert keys[..n] == keys[..n - 1] + [keys[n - 1]];
    } else {
      assert Pairs(fd, keys[..0]) == {};
    }
  }

  /** JOIN 0 removes exactly the sender's row, although the channels are left
      one by one while the joined set shrinks. */
  lemma JoinZeroEmptiesRow(cfg: Config, c: Core, fd: int, m: Message)
    requires Inv(c) && fd in c.clients && c.clients[fd].fd == fd
    requires |m.params| >= 1 && m.params[0] == "0"
    ensures Relation(Join(cfg, c, fd, m).core) == set p | p in Relation(c) && p.0 != fd
  {
    var keys := AscendingNames(c.clients[fd].joined);
    AscendingNamesEnumerates(c.clients[fd].joined);
    LeaveRemovesEach(c, fd, keys, c.clients[fd].nickname, |keys|);
    assert keys[..|keys|] == keys;
    JoinedFolded(c, fd);
    forall p ensures p in Relation(c) - Pairs(fd, keys) <==> p in Relation(c) && p.0 != fd {
      if p in Relation(c) && p.0 == fd { assert p == (fd, Fold(p.1)) && p.1 in keys; }
    }
  }

  /** A disconnection removes exactly the client's row, although it walks the
      client's own joined set only. */
  lemma DepartureEmptiesRow(c: Core, fd: int, reason: string)
    requires Inv(c)
    ensures Relation(Disconnect(c, fd, reason).core) == set p | p in Relation(c) && p.0 != fd
  {
    if fd in c.clients {
      MoveRefinesRelation(c, fd, Drop(fd));
    } else {
      assert forall p :: p in Relation(c) ==> p.0 != fd;
    }
  }

  // ------------------------------------------------------ keys with a comma

  lemma WholeField(s: string)
    requires ',' !in s && s != ""
    ensures SplitComma(s) == [s]
  {
    assert Find(s, ',', 0) == |s|;
    assert s[0..] == s;
  }

  /** A key can be supplied by JOIN exactly when it holds no comma. */
  lemma SuppliableIff(key: string)
    requires ValidChannelKey(key)
    ensures (exists s :: key in SplitComma(s)) <==> ',' !in key
  {
    if ',' !in key {
      WholeField(key);
      assert key in SplitComma(key);
    }
    if s :| key in SplitComma(s) { SplitCommaJoins(s); }
  }

  /** A channel that lets nobody in without a key holding a comma. */
  predicate Locked(c: Core, fd: int, k: string) {
    k in c.channels && c.channels[k].keyEnabled && ',' in c.channels[k].channelKey
    && fd !in c.channels[k].members
  }

  lemma LockedStays(cfg: Config, c: Core, fd: int, name: string, key: string, k: string)
    requires Inv(c) && fd in c.clients && c.clients[fd].fd == fd && Locked(c, fd, k) && ',' !in key
    ensures Locked(JoinOne(cfg, c, fd, name, key).core, fd, k)
  {
  }

  lemma {:induction false} LockedThroughout(cfg: Config, c: Core, fd: int, names: seq<string>,
                                            keys: seq<string>, n: nat, k: string)
    requires Inv(c) && fd in c.clients && c.clients[fd].fd == fd && c.clients[fd].registered
    requires n <= |names| && Locked(c, fd, k)
    requires forall key :: key in keys ==> ',' !in key
    ensures Locked(JoinUpTo(cfg, c, fd, names, keys, n).core, fd, k)
  {
    if n > 0 {
      LockedThroughout(cfg, c, fd, names, keys, n - 1, k);
      JoinUpToRegistered(cfg, c, fd, names, keys, n - 1);
      var key := if n - 1 < |keys| then keys[n - 1] else "";
      LockedStays(cfg, JoinUpTo(cfg, c, fd, names, keys, n - 1).core, fd, names[n - 1], key, k);
    }
  }

  /** Hence a channel whose key holds a comma admits nobody by JOIN, whatever
      is typed, although MODE +k accepts such a key. */
  lemma CommaKeyLocksOut(cfg: Config, c: Core, fd: int, m: Message, k: string)
    requires Inv(c) && fd in c.clients && c.clients[fd].fd == fd && c.clients[fd].registered
    requires Locked(c, fd, k) && m.command == "JOIN"
    ensures !HasMember(Dispatch(cfg, c, fd, m).core, fd, k)
  {
    if |m.params| >= 1 {
      if m.params[0] == "0" {
        TwoSetsOneRelation(c, fd, k);
        JoinZeroEmptiesRow(cfg, c, fd, m);
        DispatchKeeps(cfg, c, fd, m);
        TwoSetsOneRelation(Join(cfg, c, fd, m).core, fd, k);
      } else {
        var names := SplitComma(m.params[0]);
        var keys := if |m.params| >= 2 then SplitComma(m.params[1]) else [];
        if |m.params| >= 2 { SplitCommaJoins(m.params[1]); }
        LockedThroughout(cfg, c, fd, names, keys, |names|, k);
      }
    }
  }
}
