/** The abstract relation client x channel behind the two sets of ids, and what
    single commands cannot do (services/irc/prd/interface/ServerRelations.cpp,
    services/irc/prd/interface/ServerDispatch.cpp). */
module Laws {
  import opened Domain
  import opened Ordered
  import opened Commands
  import opened Moves
  import opened CommandMoves
  import opened ChannelChanges

  // ------------------------------------------------- the abstract relation

  /** Who is in which channel, as one set of pairs. */
  ghost function Relation(c: Core): set<(int, string)> {
    set fd, k | fd in c.clients && k in c.clients[fd].joined :: (fd, k)
  }

  /** Both sides of the server's state hold this one relation, and a channel
      object exists exactly when its column is not empty. */
  lemma TwoSetsOneRelation(c: Core, fd: int, k: string)
    requires Inv(c)
    ensures (fd, k) in Relation(c) <==> HasJoined(c, fd, k)
    ensures (fd, k) in Relation(c) <==> HasMember(c, fd, k)
    ensures k in c.channels <==> exists x :: (x, k) in Relation(c)
  {
    assert HasJoined(c, fd, k) <==> HasMember(c, fd, k);
    if k in c.channels {
      assert ChannelOk(c.channels[k], k);
      var x := AnyOf(c.channels[k].members);
      assert HasMember(c, x, k);
      assert HasJoined(c, x, k);
      assert (x, k) in Relation(c);
    }
    if x :| (x, k) in Relation(c) {
      assert HasJoined(c, x, k);
      assert HasMember(c, x, k);
    }
  }

  /** The move on the abstract relation: one pair in, one pair out, a row out,
      or nothing. */
  ghost function Moved(rel: set<(int, string)>, move: Move): set<(int, string)> {
    match move
    case Enter(fd, channel, _) => rel + {(fd, channel.keyName)}
    case Exit(fd, k) => rel - {(fd, k)}
    case Drop(fd) => set p | p in rel && p.0 != fd
    case _ => rel
  }

  /** The two-sided state refines the abstract relation, move by move, and each
      pair moved was really absent or present before. */
  lemma MoveRefinesRelation(c: Core, who: int, move: Move)
    requires Inv(c) && Allowed(c, who, move)
    ensures Relation(Apply(c, who, move)) == Moved(Relation(c), move)
    ensures move.Enter? ==> (move.fd, move.channel.keyName) !in Relation(c)
    ensures move.Exit? ==> (move.fd, move.key) in Relation(c)
  {
    var d := Apply(c, who, move);
    if move.Exit? { assert HasJoined(c, move.fd, move.key); }
    if move.Enter? {
      assert !HasMember(c, move.fd, move.channel.keyName) && !HasJoined(c, move.fd, move.channel.keyName);
    }
    if move.Connect? { assert forall k :: !HasJoined(c, move.fd, k); }
    if move.Drop? { DropKeeps(c, move.fd); }
    forall fd, k ensures (fd, k) in Relation(d) <==> (fd, k) in Moved(Relation(c), move) {
      assert (fd, k) in Relation(d) <==> HasJoined(d, fd, k);
      assert (fd, k) in Relation(c) <==> HasJoined(c, fd, k);
    }
    assert forall p :: p in Relation(d) <==> (p.0, p.1) in Relation(d);
    assert forall p :: p in Moved(Relation(c), move) <==> (p.0, p.1) in Moved(Relation(c), move);
  }

  lemma PermittedMembers(c: Core, fd: int, m: Message, k: string, was: Channel, now: Channel)
    requires !MovesMembers(m) && Permitted(c, fd, m, k, was, now)
    ensures now.members == was.members
  {
  }

  /** Only JOIN, PART and KICK move the relation. */
  lemma OthersKeepRelation(cfg: Config, c: Core, fd: int, m: Message)
    requires Inv(c) && !MovesMembers(m)
    ensures fd in c.clients ==> c.clients[fd].fd == fd
    ensures Relation(Dispatch(cfg, c, fd, m).core) == Relation(c)
  {
    DispatchChanges(cfg, c, fd, m);
    DispatchKeeps(cfg, c, fd, m);
    var d := Dispatch(cfg, c, fd, m).core;
    forall x, k ensures (x, k) in Relation(d) <==> (x, k) in Relation(c) {
      TwoSetsOneRelation(c, x, k);
      TwoSetsOneRelation(d, x, k);
      assert k in d.channels.Keys <==> k in c.channels.Keys;
      if k in c.channels { PermittedMembers(c, fd, m, k, c.channels[k], d.channels[k]); }
      assert HasMember(d, x, k) == HasMember(c, x, k);
    }
    assert forall p :: p in Relation(d) <==> (p.0, p.1) in Relation(d);
    assert forall p :: p in Relation(c) <==> (p.0, p.1) in Relation(c);
  }

  // --------------------------------------------- what a non-operator cannot

  lemma PermittedToOthers(c: Core, fd: int, m: Message, k: string, was: Channel, now: Channel)
    requires Permitted(c, fd, m, k, was, now) && !IsOperator(c, fd, k)
    ensures now.invited <= was.invited && now.operators <= was.operators && SameModes(was, now)
  {
  }

  /** A command from someone who is not operator of a channel never adds an
      invite or an operator there and never changes its modes. */
  lemma NonOperatorCommand(cfg: Config, c: Core, fd: int, m: Message, k: string)
    requires Inv(c) && k in c.channels && !IsOperator(c, fd, k)
    ensures fd in c.clients ==> c.clients[fd].fd == fd
    ensures var d := Dispatch(cfg, c, fd, m).core;
      k in d.channels ==>
        && d.channels[k].invited <= c.channels[k].invited && d.channels[k].operators <= c.channels[k].operators
        && SameModes(c.channels[k], d.channels[k])
  {
    DispatchChanges(cfg, c, fd, m);
    var d := Dispatch(cfg, c, fd, m).core;
    if k in d.channels { PermittedToOthers(c, fd, m, k, c.channels[k], d.channels[k]); }
  }

  /** Nothing gated on registration happens before it. */
  lemma NothingBeforeRegistration(cfg: Config, c: Core, fd: int, m: Message)
    requires Inv(c) && fd in c.clients && c.clients[fd].fd == fd
    requires !c.clients[fd].registered
    ensures NeedsRegistration(m.command) ==>
      Dispatch(cfg, c, fd, m) == Answer(cfg, c, fd, 451, ":" + cfg.text(451))
    ensures Dispatch(cfg, c, fd, m).core.channels == c.channels
  {
    assert ClientOk(c.clients[fd], fd);
  }
}
