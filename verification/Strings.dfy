/** Strings as sequences of bytes: searching, splitting and joining, shared by
    both servers. */
module Strings {

  /** The largest std::size_t on the 64-bit targets of the source. */
  const SIZE_MAX: nat := 0xFFFF_FFFF_FFFF_FFFF

  const NUL: char := '\0'

  datatype Option<+T> = None | Some(value: T)

  /** Index of the first `c` at or after `from`, or |s|. */
  function Find(s: string, c: char, from: nat): (r: nat)
    requires from <= |s|
    ensures from <= r <= |s|
    ensures r < |s| ==> s[r] == c
    ensures forall i :: from <= i < r ==> s[i] != c
    decreases |s| - from
  {
    if from == |s| || s[from] == c then from else Find(s, c, from + 1)
  }

  lemma FindIs(s: string, c: char, from: nat, at: nat)
    requires from <= at <= |s|
    requires forall i :: from <= i < at ==> s[i] != c
    requires at < |s| ==> s[at] == c
    ensures Find(s, c, from) == at
  {
  }

  function SplitFrom(s: string, c: char, from: nat): (r: seq<string>)
    requires from <= |s|
    ensures |r| >= 1
    decreases |s| - from
  {
    var p := Find(s, c, from);
    if p == |s| then [s[from..]] else [s[from..p]] + SplitFrom(s, c, p + 1)
  }

  function JoinWith(parts: seq<string>, sep: string): string {
    if |parts| == 0 then ""
    else if |parts| == 1 then parts[0]
    else parts[0] + sep + JoinWith(parts[1..], sep)
  }

  lemma JoinStep(first: string, rest: seq<string>, sep: string)
    requires rest != []
    ensures JoinWith([first] + rest, sep) == first + sep + JoinWith(rest, sep)
  {
    assert ([first] + rest)[1..] == rest;
  }

  lemma AroundSeparator(s: string, from: nat, p: nat)
    requires from <= p < |s|
    ensures s[from..p] + [s[p]] + s[p + 1..] == s[from..]
  {
  }

  lemma {:induction false} SplitFromJoins(s: string, c: char, from: nat)
    requires from <= |s|
    ensures JoinWith(SplitFrom(s, c, from), [c]) == s[from..]
    decreases |s| - from
  {
    var p := Find(s, c, from);
    if p < |s| {
      var rest := SplitFrom(s, c, p + 1);
      SplitFromJoins(s, c, p + 1);
      JoinStep(s[from..p], rest, [c]);
      AroundSeparator(s, from, p);
    }
  }

  lemma {:induction false} SplitFromFields(s: string, c: char, from: nat, part: string)
    requires from <= |s| && part in SplitFrom(s, c, from)
    ensures c !in part
    decreases |s| - from
  {
    var p := Find(s, c, from);
    if p < |s| && part != s[from..p] {
      SplitFromFields(s, c, p + 1, part);
    }
  }

  lemma FindIn(s: string, t: string, c: char, from: nat)
    requires from <= |s|
    ensures Find(s, c, from) < |s| ==> Find(s + t, c, from) == Find(s, c, from)
    ensures Find(s, c, from) == |s| && t != "" && t[0] == c ==> Find(s + t, c, from) == |s|
  {
    var at := Find(s, c, from);
    assert forall i :: from <= i < at ==> (s + t)[i] == s[i];
    if at < |s| || (t != "" && t[0] == c) { FindIs(s + t, c, from, at); }
  }

  lemma FieldsAssoc(field: string, a: seq<string>, b: seq<string>)
    ensures [field] + (a + b) == ([field] + a) + b
  {
  }

  lemma SplitAt(s: string, c: char, from: nat, at: nat, rest: seq<string>)
    requires from <= |s| && at == Find(s, c, from) < |s| && rest == SplitFrom(s, c, at + 1)
    ensures SplitFrom(s, c, from) == [s[from..at]] + rest
  {
  }

  lemma SplitOnly(s: string, c: char, from: nat)
    requires from <= |s| && Find(s, c, from) == |s|
    ensures SplitFrom(s, c, from) == [s[from..]]
  {
  }

  /** Cutting two texts with the separator between them is cutting each. */
  lemma {:induction false} SplitAcross(s: string, t: string, c: char, all: string, from: nat, tail: seq<string>)
    returns (parts: seq<string>)
    requires from <= |s| && all == s + ([c] + t) && tail == SplitFrom(all, c, |s| + 1)
    ensures parts == SplitFrom(s, c, from) && SplitFrom(all, c, from) == parts + tail
    decreases |s| - from
  {
    var at := Find(s, c, from);
    FindIn(s, [c] + t, c, from);
    assert all[from..at] == s[from..at];
    if at < |s| {
      var rest := SplitAcross(s, t, c, all, at + 1, tail);
      SplitAt(s, c, from, at, rest);
      SplitAt(all, c, from, at, rest + tail);
      FieldsAssoc(s[from..at], rest, tail);
      parts := [s[from..at]] + rest;
    } else {
      assert s[from..at] == s[from..];
      SplitOnly(s, c, from);
      SplitAt(all, c, from, at, tail);
      parts := [s[from..]];
    }
  }

  lemma FindShift(head: string, s: string, c: char, all: string, from: nat)
    requires from <= |s| && all == head + s
    ensures var at := Find(s, c, from);
      Find(all, c, |head| + from) == |head| + at && all[|head| + from..|head| + at] == s[from..at]
  {
    var at := Find(s, c, from);
    assert forall i :: from <= i < at ==> all[|head| + i] == s[i];
    FindIs(all, c, |head| + from, |head| + at);
  }

  lemma SplitShiftOnce(head: string, s: string, c: char, all: string, from: nat, rest: seq<string>)
    requires from <= |s| && all == head + s && Find(s, c, from) < |s|
    requires rest == SplitFrom(s, c, Find(s, c, from) + 1) == SplitFrom(all, c, |head| + Find(s, c, from) + 1)
    ensures SplitFrom(all, c, |head| + from) == SplitFrom(s, c, from) == [s[from..Find(s, c, from)]] + rest
  {
    FindShift(head, s, c, all, from);
    var at := Find(s, c, from);
    SplitAt(s, c, from, at, rest);
    SplitAt(all, c, |head| + from, |head| + at, rest);
  }

  lemma {:induction false} SplitShift(head: string, s: string, c: char, all: string, from: nat)
    returns (parts: seq<string>)
    requires from <= |s| && all == head + s
    ensures parts == SplitFrom(s, c, from) == SplitFrom(all, c, |head| + from)
    decreases |s| - from
  {
    var at := Find(s, c, from);
    if at < |s| {
      var rest := SplitShift(head, s, c, all, at + 1);
      SplitShiftOnce(head, s, c, all, from, rest);
      parts := [s[from..at]] + rest;
    } else {
      FindShift(head, s, c, all, from);
      assert all[|head| + from..] == s[from..];
      SplitOnly(s, c, from);
      SplitOnly(all, c, |head| + from);
      parts := [s[from..]];
    }
  }

  lemma SplitJoined(s: string, t: string, c: char, all: string)
    requires all == s + ([c] + t)
    ensures SplitFrom(all, c, 0) == SplitFrom(s, c, 0) + SplitFrom(t, c, 0)
  {
    var parts := SplitAcross(s, t, c, all, 0, SplitFrom(all, c, |s| + 1));
    AfterSeparator(s, t, c, all);
  }

  lemma AfterSeparator(s: string, t: string, c: char, all: string)
    requires all == s + ([c] + t)
    ensures SplitFrom(all, c, |s| + 1) == SplitFrom(t, c, 0)
  {
    assert all == (s + [c]) + t;
    var parts := SplitShift(s + [c], t, c, all, 0);
  }

  predicate IsUpper(c: char) { 'A' <= c <= 'Z' }

  predicate IsLower(c: char) { 'a' <= c <= 'z' }

  predicate IsLetter(c: char) { IsUpper(c) || IsLower(c) }

  predicate IsDigit(c: char) { '0' <= c <= '9' }

  predicate AllDigits(s: string) {
    forall i :: 0 <= i < |s| ==> IsDigit(s[i])
  }

  function DigitValue(c: char): (d: nat)
    requires IsDigit(c)
    ensures d <= 9
  {
    c as int - '0' as int
  }

  /** The number a string of decimal digits denotes. */
  function DecimalValue(s: string): nat
    requires AllDigits(s)
  {
    if s == "" then 0 else 10 * DecimalValue(s[..|s| - 1]) + DigitValue(s[|s| - 1])
  }

  /** What `oss << value` prints. */
  function Decimal(n: nat): (s: string)
    ensures s != "" && AllDigits(s)
    ensures DecimalValue(s) == n
  {
    if n < 10 then
      var s := [n as char + '0'];
      assert s[..0] == "";
      assert DecimalValue(s[..0]) == 0;
      s
    else
      var head := Decimal(n / 10);
      var s := head + [(n % 10) as char + '0'];
      assert s[..|s| - 1] == head;
      s
  }

  /** A longer digit string denotes at least as much. */
  lemma {:induction false} DecimalPrefix(s: string, k: nat)
    requires AllDigits(s) && k <= |s|
    ensures DecimalValue(s[..k]) <= DecimalValue(s)
    decreases |s|
  {
    if k < |s| {
      DecimalPrefix(s[..|s| - 1], k);
      assert s[..|s| - 1][..k] == s[..k];
    } else {
      assert s[..k] == s;
    }
  }

  /** One CR off the end of a line. */
  function StripCr(raw: string): (r: string)
    ensures |raw| - 1 <= |r| <= |raw|
    ensures r == raw[..|r|]
  {
    if raw != "" && raw[|raw| - 1] == '\r' then raw[..|raw| - 1] else raw
  }

  /** The parts of a list, one after the other. */
  function Concat(parts: seq<string>): string {
    if parts == [] then "" else parts[0] + Concat(parts[1..])
  }

  lemma {:induction false} ConcatLast(parts: seq<string>, last: string)
    ensures Concat(parts + [last]) == Concat(parts) + last
  {
    if parts != [] {
      ConcatLast(parts[1..], last);
      assert (parts + [last])[1..] == parts[1..] + [last];
    }
  }

  lemma Assoc<T>(a: seq<T>, b: seq<T>, c: seq<T>)
    ensures a + b + c == a + (b + c)
  {
  }

  lemma SuffixSplits(line: string, pos: nat, first: string, second: string)
    requires pos <= |line| && line[pos..] == first + second
    ensures pos + |first| <= |line|
    ensures line[pos..pos + |first|] == first
    ensures line[pos + |first|..] == second
  {
    assert |line[pos..]| == |first| + |second|;
    assert line[pos..pos + |first|] == line[pos..][..|first|];
    assert line[pos + |first|..] == line[pos..][|first|..];
  }
}
