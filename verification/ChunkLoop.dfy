/** The loop of the chunked decoder with its arithmetic taken out: a table says
    for each position where a turn leads and what it appends. Here is what any
    such loop does: when it ends, and what a longer input changes
    (parseChunked in apps/webserv/src/Http.cpp). */
module ChunkLoop {
  import opened Strings

  /** What the decoder comes to: refused, not finished, finished, an exception
      that leaves it, or a loop that never ends. */
  datatype Verdict =
    | Rejected
    | Partial(body: string)
    | Complete(body: string)
    | Thrown
    | Endless

  datatype Ending = Refuses | Wants | Finishes | Throws

  /** One turn: the loop ends, or goes on elsewhere with so much appended;
      `wraps` when the arithmetic of the turn passed 2^64. */
  datatype Jump = Halt(ending: Ending) | Go(next: nat, taken: string, wraps: bool)

  predicate JumpOk(t: seq<Jump>, p: nat)
    requires p < |t|
  {
    t[p].Go? ==> t[p].next < |t| && (!t[p].wraps ==> p < t[p].next)
  }

  predicate TableOk(t: seq<Jump>) {
    forall p {:trigger JumpOk(t, p)} {:trigger t[p]} :: 0 <= p < |t| ==> JumpOk(t, p)
  }

  function Ended(ending: Ending, body: string): (v: Verdict)
    ensures v != Endless
  {
    match ending
    case Refuses => Rejected
    case Wants => Partial(body)
    case Finishes => Complete(body)
    case Throws => Thrown
  }

  /** So many turns of the loop, or fewer if it ends. */
  function Run(t: seq<Jump>, pos: nat, body: string, turns: nat): Verdict
    requires TableOk(t) && pos < |t|
    decreases turns
  {
    if turns == 0 then Endless
    else
      assert JumpOk(t, pos);
      match t[pos]
      case Halt(ending) => Ended(ending, body)
      case Go(next, taken, _) => Run(t, next, body + taken, turns - 1)
  }

  // ------------------------------------------------------- when it ends

  /** The position after so many turns, unless the loop has ended. */
  function After(t: seq<Jump>, pos: nat, turns: nat): (p: int)
    requires TableOk(t) && pos < |t|
    ensures -1 <= p < |t|
    decreases turns
  {
    if turns == 0 then pos
    else
      assert JumpOk(t, pos);
      if t[pos].Halt? then -1 else After(t, t[pos].next, turns - 1)
  }

  lemma {:induction false} StillRunning(t: seq<Jump>, pos: nat, body: string, turns: nat)
    requires TableOk(t) && pos < |t|
    ensures Run(t, pos, body, turns) == Endless <==> After(t, pos, turns) >= 0
    decreases turns
  {
    if turns > 0 && t[pos].Go? {
      assert JumpOk(t, pos);
      StillRunning(t, t[pos].next, body + t[pos].taken, turns - 1);
    }
  }

  /** A verdict once reached does not depend on the turns left. */
  lemma {:induction false} MoreTurns(t: seq<Jump>, pos: nat, body: string, turns: nat, more: nat)
    requires TableOk(t) && pos < |t| && turns <= more && Run(t, pos, body, turns) != Endless
    ensures Run(t, pos, body, more) == Run(t, pos, body, turns)
    decreases turns
  {
    if t[pos].Go? {
      assert JumpOk(t, pos);
      MoreTurns(t, t[pos].next, body + t[pos].taken, turns - 1, more - 1);
    }
  }

  lemma {:induction false} AfterThen(t: seq<Jump>, pos: nat, a: nat, b: nat)
    requires TableOk(t) && pos < |t| && After(t, pos, a) >= 0
    ensures After(t, pos, a + b) == After(t, After(t, pos, a), b)
    decreases a
  {
    if a > 0 {
      assert JumpOk(t, pos);
      AfterThen(t, t[pos].next, a - 1, b);
    }
  }

  /** What was running after n turns was running before. */
  lemma RanBefore(t: seq<Jump>, pos: nat, a: nat, n: nat)
    requires TableOk(t) && pos < |t| && a <= n && After(t, pos, n) >= 0
    ensures After(t, pos, a) >= 0
  {
    if After(t, pos, a) < 0 { EndedStays(t, pos, a, n); }
  }

  lemma {:induction false} EndedStays(t: seq<Jump>, pos: nat, a: nat, n: nat)
    requires TableOk(t) && pos < |t| && a <= n && After(t, pos, a) < 0
    ensures After(t, pos, n) < 0
    decreases a
  {
    assert JumpOk(t, pos);
    if t[pos].Go? { EndedStays(t, t[pos].next, a - 1, n - 1); }
  }

  /** A position met again after d turns is met again for ever. */
  lemma {:induction false} RoundAgain(t: seq<Jump>, pos: nat, d: nat, n: nat)
    requires TableOk(t) && pos < |t| && d > 0 && After(t, pos, d) == pos
    ensures After(t, pos, n) >= 0
    decreases n
  {
    if n <= d {
      RanBefore(t, pos, n, d);
    } else {
      RoundAgain(t, pos, d, n - d);
      AfterThen(t, pos, d, n - d);
    }
  }

  /** More numbers than values: one comes twice. */
  lemma {:induction false} TwoAlike(xs: seq<int>, bound: nat) returns (i: nat, j: nat)
    requires |xs| > bound && forall k :: 0 <= k < |xs| ==> 0 <= xs[k] < bound
    ensures i < j < |xs| && xs[i] == xs[j]
    decreases bound
  {
    assert 0 <= xs[0] < bound;
    if a, b :| 0 <= a < b < |xs| && xs[a] == bound - 1 && xs[b] == bound - 1 {
      i, j := a, b;
    } else if a :| 0 <= a < |xs| && xs[a] == bound - 1 {
      var others := xs[..a] + xs[a + 1..];
      forall k | 0 <= k < |others| ensures 0 <= others[k] < bound - 1 {
        assert others[k] == xs[if k < a then k else k + 1];
      }
      i, j := TwoAlike(others, bound - 1);
      i, j := if i < a then i else i + 1, if j < a then j else j + 1;
    } else {
      i, j := TwoAlike(xs, bound - 1);
    }
  }

  /** A loop that takes as many turns as there are positions never ends. */
  lemma NeverEnds(t: seq<Jump>, pos: nat, n: nat)
    requires TableOk(t) && pos < |t| && After(t, pos, |t|) >= 0
    ensures After(t, pos, n) >= 0
  {
    forall k | 0 <= k <= |t| ensures After(t, pos, k) >= 0 { RanBefore(t, pos, k, |t|); }
    var met := seq(|t| + 1, k requires 0 <= k <= |t| => After(t, pos, k));
    var i, j := TwoAlike(met, |t|);
    AfterThen(t, pos, i, j - i);
    if n <= i {
      RanBefore(t, pos, n, |t|);
    } else {
      RoundAgain(t, After(t, pos, i), j - i, n - i);
      AfterThen(t, pos, i, n - i);
    }
  }

  // ------------------------------------------------------- no turn wraps

  /** No turn that the loop takes from `pos` wraps and goes on. */
  predicate Straight(t: seq<Jump>, pos: nat)
    requires TableOk(t) && pos < |t|
    decreases |t| - pos
  {
    assert JumpOk(t, pos);
    t[pos].Go? ==> !t[pos].wraps && Straight(t, t[pos].next)
  }

  /** Such a loop ends. */
  lemma {:induction false} StraightEnds(t: seq<Jump>, pos: nat, body: string, turns: nat)
    requires TableOk(t) && pos < |t| && Straight(t, pos) && turns >= |t| - pos
    ensures Run(t, pos, body, turns) != Endless
    decreases turns
  {
    assert JumpOk(t, pos);
    if t[pos].Go? { StraightEnds(t, t[pos].next, body + t[pos].taken, turns - 1); }
  }

  /** A way through the loop on which nothing wraps: the positions of its turns
      and what each but the last appends. */
  predicate Way(t: seq<Jump>, ps: seq<nat>, datas: seq<string>) {
    && |ps| == |datas| + 1
    && (forall k {:trigger ps[k]} :: 0 <= k < |ps| ==> ps[k] < |t|)
    && (forall i, k {:trigger datas[i], ps[k]} :: 0 <= i < |datas| && k == i + 1 ==>
          t[ps[i]] == Go(ps[k], datas[i], false))
    && t[ps[|datas|]] == Halt(Finishes)
  }

  lemma WayTail(t: seq<Jump>, ps: seq<nat>, datas: seq<string>)
    requires Way(t, ps, datas) && datas != []
    ensures Way(t, ps[1..], datas[1..]) && t[ps[0]] == Go(ps[1], datas[0], false)
  {
    var qs, ds := ps[1..], datas[1..];
    forall i, k | 0 <= i < |ds| && k == i + 1 ensures t[qs[i]] == Go(qs[k], ds[i], false) {
      assert datas[i + 1] == ds[i] && ps[k + 1] == qs[k];
    }
  }

  lemma {:induction false} WayFinishes(t: seq<Jump>, ps: seq<nat>, datas: seq<string>, body: string, turns: nat)
    requires TableOk(t) && Way(t, ps, datas) && turns > |datas|
    ensures Run(t, ps[0], body, turns) == Complete(body + Concat(datas)) && Straight(t, ps[0])
    decreases |datas|
  {
    if datas == [] {
      assert body + "" == body;
    } else {
      WayTail(t, ps, datas);
      assert JumpOk(t, ps[0]);
      WayFinishes(t, ps[1..], datas[1..], body + datas[0], turns - 1);
      Assoc(body, datas[0], Concat(datas[1..]));
    }
  }

  lemma WayGrows(t: seq<Jump>, pos: nat, data: string, ps: seq<nat>, datas: seq<string>)
    requires pos < |t| && Way(t, ps, datas) && t[pos] == Go(ps[0], data, false)
    ensures Way(t, [pos] + ps, [data] + datas)
  {
    var qs, ds := [pos] + ps, [data] + datas;
    forall i, k | 0 <= i < |ds| && k == i + 1 ensures t[qs[i]] == Go(qs[k], ds[i], false) {
      if i > 0 { assert datas[i - 1] == ds[i] && ps[k - 1] == qs[k]; }
    }
  }

  lemma {:induction false} FinishingWay(t: seq<Jump>, pos: nat, body: string, turns: nat)
    returns (ps: seq<nat>, datas: seq<string>)
    requires TableOk(t) && pos < |t| && Run(t, pos, body, turns).Complete? && Straight(t, pos)
    ensures Way(t, ps, datas) && ps[0] == pos && Run(t, pos, body, turns).body == body + Concat(datas)
    decreases turns
  {
    assert JumpOk(t, pos);
    if t[pos].Halt? {
      ps, datas := [pos], [];
      assert body + "" == body;
    } else {
      var data := t[pos].taken;
      ps, datas := FinishingWay(t, t[pos].next, body + data, turns - 1);
      WayGrows(t, pos, data, ps, datas);
      Assoc(body, data, Concat(datas));
      ps, datas := [pos] + ps, [data] + datas;
    }
  }

  lemma {:induction false} WrapsSomewhere(t: seq<Jump>, pos: nat) returns (p: nat)
    requires TableOk(t) && pos < |t| && !Straight(t, pos)
    ensures p < |t| && t[p].Go? && t[p].wraps
    decreases |t| - pos
  {
    assert JumpOk(t, pos);
    if t[pos].wraps { p := pos; } else { p := WrapsSomewhere(t, t[pos].next); }
  }

  lemma {:induction false} ThrowsSomewhere(t: seq<Jump>, pos: nat, body: string, turns: nat) returns (p: nat)
    requires TableOk(t) && pos < |t| && Run(t, pos, body, turns) == Thrown
    ensures p < |t| && t[p] == Halt(Throws)
    decreases turns
  {
    assert JumpOk(t, pos);
    if t[pos].Halt? { p := pos; } else { p := ThrowsSomewhere(t, t[pos].next, body + t[pos].taken, turns - 1); }
  }

  // ------------------------------------------------- a longer input

  /** The turn at p on the longer input: the same, unless it wants more; a turn
      that wraps takes all of the longer input. */
  predicate Follows(early: Jump, late: Jump, more: string) {
    match early
    case Halt(ending) => ending != Wants ==> late == early
    case Go(next, taken, wraps) => late == Go(next, if wraps then taken + more else taken, wraps)
  }

  predicate Grown(t: seq<Jump>, u: seq<Jump>, more: string) {
    |t| <= |u| && forall p {:trigger t[p]} {:trigger u[p]} :: 0 <= p < |t| ==> Follows(t[p], u[p], more)
  }

  /** The body so far is never shortened. */
  lemma {:induction false} BodyGrows(t: seq<Jump>, pos: nat, body: string, turns: nat)
    requires TableOk(t) && pos < |t|
    ensures var v := Run(t, pos, body, turns);
      (v.Partial? || v.Complete?) ==> body <= v.body
    decreases turns
  {
    if turns > 0 && t[pos].Go? {
      assert JumpOk(t, pos);
      BodyGrows(t, t[pos].next, body + t[pos].taken, turns - 1);
    }
  }

  /** What may become of a verdict, when nothing wraps, as bytes arrive. */
  predicate Extends(early: Verdict, late: Verdict) {
    match early
    case Partial(body) => (late.Partial? || late.Complete?) ==> body <= late.body
    case _ => late == early
  }

  lemma {:induction false} StraightGrown(t: seq<Jump>, u: seq<Jump>, more: string, pos: nat, body: string,
                                         turns: nat, later: nat)
    requires TableOk(t) && TableOk(u) && Grown(t, u, more) && pos < |t| && Straight(t, pos)
    requires |t| - pos <= turns <= later
    ensures Extends(Run(t, pos, body, turns), Run(u, pos, body, later))
    decreases turns
  {
    assert JumpOk(t, pos);
    if t[pos].Go? {
      StraightGrown(t, u, more, t[pos].next, body + t[pos].taken, turns - 1, later - 1);
    } else {
      BodyGrows(u, pos, body, later);
    }
  }

  /** What may become of a verdict in any case: never another kind of final
      verdict, and never a shorter body. */
  predicate Later(early: Verdict, late: Verdict) {
    match early
    case Partial(body) => (late.Partial? || late.Complete?) ==> |body| <= |late.body|
    case Complete(body) => late.Complete? && |body| <= |late.body|
    case _ => late == early
  }

  lemma {:induction false} RunGrown(t: seq<Jump>, u: seq<Jump>, more: string, pos: nat, body: string, other: string,
                                    turns: nat, later: nat)
    requires TableOk(t) && TableOk(u) && Grown(t, u, more) && pos < |t|
    requires turns <= later && |body| <= |other| && Run(t, pos, body, turns) != Endless
    ensures Later(Run(t, pos, body, turns), Run(u, pos, other, later))
    decreases turns
  {
    assert JumpOk(t, pos);
    if t[pos].Go? {
      RunGrown(t, u, more, t[pos].next, body + t[pos].taken, other + u[pos].taken, turns - 1, later - 1);
    } else {
      BodyGrows(u, pos, other, later);
    }
  }

  lemma {:induction false} AfterGrown(t: seq<Jump>, u: seq<Jump>, more: string, pos: nat, n: nat)
    requires TableOk(t) && TableOk(u) && Grown(t, u, more) && pos < |t| && After(t, pos, n) >= 0
    ensures After(u, pos, n) == After(t, pos, n)
    decreases n
  {
    if n > 0 {
      assert JumpOk(t, pos);
      AfterGrown(t, u, more, t[pos].next, n - 1);
    }
  }

  lemma WholeGrown(t: seq<Jump>, u: seq<Jump>, more: string)
    requires TableOk(t) && TableOk(u) && Grown(t, u, more) && t != []
    ensures Later(Run(t, 0, "", |t|), Run(u, 0, "", |u|))
  {
    if Run(t, 0, "", |t|) == Endless {
      StillRunning(t, 0, "", |t|);
      NeverEnds(t, 0, |u|);
      AfterGrown(t, u, more, 0, |u|);
      StillRunning(u, 0, "", |u|);
    } else {
      RunGrown(t, u, more, 0, "", "", |t|, |u|);
    }
  }

  /** A finished body is longer on a longer input as soon as one turn wraps. */
  lemma {:induction false} WrappedGrown(t: seq<Jump>, u: seq<Jump>, more: string, pos: nat, body: string,
                                        other: string, turns: nat, later: nat)
    requires TableOk(t) && TableOk(u) && Grown(t, u, more) && pos < |t|
    requires turns <= later && |body| <= |other| && Run(t, pos, body, turns).Complete?
    requires more != "" && (!Straight(t, pos) || |body| < |other|)
    ensures var late := Run(u, pos, other, later);
      late.Complete? && |Run(t, pos, body, turns).body| < |late.body|
    decreases turns
  {
    assert JumpOk(t, pos);
    if t[pos].Go? {
      WrappedGrown(t, u, more, t[pos].next, body + t[pos].taken, other + u[pos].taken, turns - 1, later - 1);
    }
  }
}
