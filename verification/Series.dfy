/** Induction over a series of states, kept apart from what a state is. */
module Series {
  function Sum(s: seq<int>): int {
    if s == [] then 0 else Sum(s[..|s| - 1]) + s[|s| - 1]
  }

  /** The last time a flag went up, when it is up at the end and was down at the start. */
  lemma {:induction false} LastRise(up: seq<bool>, n: nat) returns (i: nat)
    requires n < |up| && !up[0] && up[n]
    ensures i < n && !up[i] && forall j :: i < j <= n ==> up[j]
    decreases n
  {
    if up[n - 1] {
      i := LastRise(up, n - 1);
    } else {
      i := n - 1;
    }
  }

  /** What one step never starts is not there later. */
  lemma {:induction false} StaysDown(up: seq<bool>, n: nat)
    requires n < |up| && !up[0]
    requires forall i, j {:trigger up[i], up[j]} :: 0 <= i && j == i + 1 < |up| && !up[i] ==> !up[j]
    ensures !up[n]
    decreases n
  {
    if n > 0 { StaysDown(up, n - 1); }
  }

  /** Each step spends no more than it earns and what was in stock. */
  predicate Balanced(spent: seq<int>, earned: seq<int>, stock: seq<int>) {
    && |spent| == |earned| && |stock| == |spent| + 1
    && forall i, j {:trigger spent[i], stock[j]} :: 0 <= i < |spent| && j == i + 1 ==>
         spent[i] + stock[j] <= earned[i] + stock[i]
  }

  lemma {:induction false} Account(spent: seq<int>, earned: seq<int>, stock: seq<int>)
    requires Balanced(spent, earned, stock)
    ensures Sum(spent) + stock[|spent|] <= Sum(earned) + stock[0]
    decreases |spent|
  {
    var n := |spent|;
    if n > 0 {
      Account(spent[..n - 1], earned[..n - 1], stock[..n]);
      assert spent[n - 1] + stock[n] <= earned[n - 1] + stock[n - 1];
    }
  }

  /** A count that grows by one at most, and only below the limit. */
  lemma {:induction false} BelowLimit(size: seq<int>, limit: nat, n: nat)
    requires n < |size|
    requires forall i, j {:trigger size[i], size[j]} :: 0 <= i && j == i + 1 < |size| ==>
      size[j] <= size[i] || (size[j] == size[i] + 1 && size[i] < limit)
    ensures size[n] <= if size[0] > limit then size[0] else limit
    decreases n
  {
    if n > 0 { BelowLimit(size, limit, n - 1); }
  }

  /** A flag that never goes down, and a bell that rings once each time it goes up. */
  predicate Rings(up: seq<bool>, bells: seq<int>) {
    && |up| == |bells| + 1
    && forall i, j {:trigger bells[i], up[j]} :: 0 <= i < |bells| && j == i + 1 ==>
         (up[i] ==> up[j]) && bells[i] == if up[j] && !up[i] then 1 else 0
  }

  lemma {:induction false} RingsOnce(up: seq<bool>, bells: seq<int>)
    requires Rings(up, bells)
    ensures up[0] ==> up[|bells|]
    ensures Sum(bells) == if up[|bells|] && !up[0] then 1 else 0
    decreases |bells|
  {
    var n := |bells|;
    if n > 0 {
      forall i, j | 0 <= i < n - 1 && j == i + 1
        ensures (up[..n][i] ==> up[..n][j]) && bells[..n - 1][i] == if up[..n][j] && !up[..n][i] then 1 else 0
      {
        assert bells[i] == if up[j] && !up[i] then 1 else 0;
      }
      RingsOnce(up[..n], bells[..n - 1]);
      assert bells[n - 1] == if up[n] && !up[n - 1] then 1 else 0;
    }
  }
}
