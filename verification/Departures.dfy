/** Leaving every channel at once: the walk of removeClientFromAllChannels over
    the joined set in closed form
    (services/irc/prd/interface/ServerRelations.cpp). */
module Departures {
  import opened IrcUtil
  import opened Domain
  import opened Commands

  /** The channels after fd was taken out of the listed ones. */
  function Parted(channels: map<string, Channel>, fd: int, done: set<string>): map<string, Channel> {
    map k | k in channels && !(k in done && channels[k].members - {fd} == {})
      :: if k in done then channels[k].RemoveMember(fd) else channels[k]
  }

  lemma PartedNone(channels: map<string, Channel>, fd: int)
    ensures Parted(channels, fd, {}) == channels
  {
  }

  lemma PartedMore(channels: map<string, Channel>, fd: int, done: set<string>, k: string)
    requires k !in done && k in channels
    ensures k in Parted(channels, fd, done) && Parted(channels, fd, done)[k] == channels[k]
    ensures Parted(channels, fd, done + {k})
         == if channels[k].members - {fd} == {} then Parted(channels, fd, done) - {k}
            else Parted(channels, fd, done)[k := channels[k].RemoveMember(fd)]
  {
  }

  ghost function Listed(names: seq<string>, n: nat): set<string>
    requires n <= |names|
  {
    set i | 0 <= i < n :: names[i]
  }

  /** The client of record after leaving the channels of those names. */
  ghost predicate LeftThem(c: Core, d: Core, fd: int, done: set<string>) {
    && fd in c.clients
    && d.channels == Parted(c.channels, fd, done)
    && d.clients == c.clients[fd := c.clients[fd].(joined := c.clients[fd].joined - done)]
    && d.nickToFd == c.nickToFd
  }

  lemma LeftOneMore(c: Core, d: Core, fd: int, done: set<string>, name: string)
    requires LeftThem(c, d, fd, done) && name !in done && Fold(name) == name && name in c.channels
    ensures LeftThem(c, LeaveQuietly(d, fd, name), fd, done + {name})
  {
    PartedMore(c.channels, fd, done, name);
    var joined := c.clients[fd].joined;
    assert joined - done - {name} == joined - (done + {name});
  }

  lemma {:induction false} WalkLeaves(c: Core, fd: int, names: seq<string>, n: nat)
    requires n <= |names| && fd in c.clients
    requires forall i :: 0 <= i < |names| ==> Fold(names[i]) == names[i] && names[i] in c.channels
    requires forall i, j :: 0 <= i < j < |names| ==> names[i] != names[j]
    ensures LeftThem(c, LeaveQuietlyUpTo(c, fd, names, n), fd, Listed(names, n))
  {
    if n == 0 {
      PartedNone(c.channels, fd);
      assert Listed(names, 0) == {};
      assert c.clients[fd].joined - {} == c.clients[fd].joined;
      assert c.clients[fd := c.clients[fd]] == c.clients;
    } else {
      WalkLeaves(c, fd, names, n - 1);
      assert Listed(names, n) == Listed(names, n - 1) + {names[n - 1]};
      LeftOneMore(c, LeaveQuietlyUpTo(c, fd, names, n - 1), fd, Listed(names, n - 1), names[n - 1]);
    }
  }
}
