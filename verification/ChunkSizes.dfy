/** Exactly which chunk-size lines the stream extractor accepts, with which
    value, and which of them section 7.1 of RFC 9112 allows
    (parseChunked in apps/webserv/src/Http.cpp). */
module ChunkSizes {
  import opened Strings
  import opened HttpText
  import opened Chunked

  predicate Spaces(s: string) {
    forall i {:trigger s[i]} :: 0 <= i < |s| ==> IsSpace(s[i])
  }

  /** A number as the extractor takes it. */
  datatype Number = Number(sign: string, prefix: string, digits: string) {
    predicate Ok(max: nat) {
      && (sign == "" || sign == "+" || sign == "-") && (prefix == "" || prefix == "0x" || prefix == "0X")
      && digits != "" && AllHex(digits) && HexValue(digits) <= max
    }

    function Text(): string { sign + (prefix + digits) }

    /** A minus negates modulo max + 1. */
    function Value(max: nat): nat
      requires Ok(max)
    {
      var value := HexValue(digits);
      if sign == "-" && value > 0 then max + 1 - value else value
    }
  }

  // -------------------------------------------------------- the extractor

  lemma SpaceEndIs(s: string, from: nat, at: nat)
    requires from <= at <= |s| && forall i :: from <= i < at ==> IsSpace(s[i])
    requires at < |s| ==> !IsSpace(s[at])
    ensures SpaceEnd(s, from) == at
  {
  }

  lemma HexEndIs(s: string, from: nat, at: nat)
    requires from <= at <= |s| && forall i :: from <= i < at ==> IsHex(s[i])
    requires at < |s| ==> !IsHex(s[at])
    ensures HexEnd(s, from) == at
  {
  }

  /** The parts of the text and where they stand. */
  predicate Stands(text: string, lead: string, n: Number, tail: string, i: nat, j: nat, k: nat, e: nat) {
    && i == |lead| && j == i + |n.sign| && k == j + |n.prefix| && e == k + |n.digits| && |text| == e + |tail|
    && text[..i] == lead && text[i..j] == n.sign && text[j..k] == n.prefix && text[k..e] == n.digits
    && text[e..] == tail
  }

  lemma StandsWhen(text: string, lead: string, n: Number, tail: string, i: nat, j: nat, k: nat, e: nat)
    requires text == lead + n.Text() + tail
    requires i == |lead| && j == i + |n.sign| && k == j + |n.prefix| && e == k + |n.digits|
    ensures Stands(text, lead, n, tail, i, j, k, e)
  {
    assert text == lead + (n.sign + (n.prefix + (n.digits + tail)));
  }

  lemma StandsMeans(text: string, lead: string, n: Number, tail: string, i: nat, j: nat, k: nat, e: nat)
    requires Stands(text, lead, n, tail, i, j, k, e)
    ensures text == lead + n.Text() + tail
  {
    assert text == text[..i] + (text[i..j] + (text[j..k] + text[k..e])) + text[e..];
  }

  lemma NumberStarts(n: Number, max: nat)
    requires n.Ok(max)
    ensures n.Text() != "" && !IsSpace(n.Text()[0]) && !IsSpace(n.Text()[|n.Text()| - 1])
  {
    assert IsHex(n.digits[0]) && IsHex(n.digits[|n.digits| - 1]);
    assert n.Text()[|n.Text()| - 1] == n.digits[|n.digits| - 1];
  }

  /** Where the extractor finds the parts of a field. */
  predicate Scanned(text: string, i: nat, j: nat, k: nat, e: nat) {
    && i == SpaceEnd(text, 0)
    && j == (if i < |text| && (text[i] == '-' || text[i] == '+') then i + 1 else i)
    && k == (if HexPrefix(text, j) then j + 2 else j)
    && k <= |text| && e == HexEnd(text, k)
  }

  lemma FieldIs(text: string, max: nat, i: nat, j: nat, k: nat, e: nat)
    requires Scanned(text, i, j, k, e)
    ensures AllHex(text[k..e])
    ensures HexField(text, max).Some? <==> k < e && HexValue(text[k..e]) <= max && SpaceEnd(text, e) == |text|
    ensures HexField(text, max).Some? ==>
      var value := HexValue(text[k..e]);
      HexField(text, max) == Some(if i < |text| && text[i] == '-' && value > 0 then max + 1 - value else value)
  {
    HexSlice(text, k, e);
  }

  /** Between blanks a number is taken for its value. */
  lemma FieldTakes(text: string, lead: string, n: Number, tail: string, max: nat)
    requires text == lead + n.Text() + tail && Spaces(lead) && Spaces(tail) && n.Ok(max)
    ensures HexField(text, max) == Some(n.Value(max))
  {
    var i := |lead|;
    var j := i + |n.sign|;
    var k := j + |n.prefix|;
    var e := k + |n.digits|;
    StandsWhen(text, lead, n, tail, i, j, k, e);
    NumberStarts(n, max);
    LeadEnds(text, lead, n, tail);
    PrefixFound(text, lead, n, tail, i, j, k, e, max);
    DigitsEnd(text, lead, n, tail, i, j, k, e, max);
    TailEnds(text, e, tail);
    FieldIs(text, max, i, j, k, e);
  }

  lemma LeadEnds(text: string, lead: string, n: Number, tail: string)
    requires text == lead + n.Text() + tail && Spaces(lead) && n.Text() != "" && !IsSpace(n.Text()[0])
    ensures SpaceEnd(text, 0) == |lead|
  {
    forall p | 0 <= p < |lead| ensures IsSpace(text[p]) { assert text[p] == lead[p]; }
    assert text[|lead|] == n.Text()[0];
    SpaceEndIs(text, 0, |lead|);
  }

  lemma TailEnds(text: string, e: nat, tail: string)
    requires e <= |text| && text[e..] == tail && Spaces(tail)
    ensures SpaceEnd(text, e) == |text|
  {
    forall p | e <= p < |text| ensures IsSpace(text[p]) { assert text[p] == tail[p - e]; }
    SpaceEndIs(text, e, |text|);
  }

  lemma PrefixFound(text: string, lead: string, n: Number, tail: string, i: nat, j: nat, k: nat, e: nat, max: nat)
    requires Stands(text, lead, n, tail, i, j, k, e) && n.Ok(max) && Spaces(tail)
    ensures i < |text| && ((text[i] == '-' || text[i] == '+') <==> n.sign != "") && (text[i] == '-' <==> n.sign == "-")
    ensures HexPrefix(text, j) <==> n.prefix != ""
  {
    assert text[k] == n.digits[0] && IsHex(n.digits[0]);
    if n.sign != "" { assert text[i] == n.sign[0]; }
    if n.prefix != "" {
      assert text[j] == n.prefix[0] && text[j + 1] == n.prefix[1];
    } else {
      if j + 1 < e { assert text[j + 1] == n.digits[1]; }
      if j + 1 < |text| && j + 1 >= e { assert text[j + 1] == tail[j + 1 - e]; }
    }
  }

  lemma DigitsEnd(text: string, lead: string, n: Number, tail: string, i: nat, j: nat, k: nat, e: nat, max: nat)
    requires Stands(text, lead, n, tail, i, j, k, e) && n.Ok(max) && Spaces(tail)
    ensures HexEnd(text, k) == e
  {
    forall p | k <= p < e ensures IsHex(text[p]) { assert text[p] == n.digits[p - k]; }
    if e < |text| { assert text[e] == tail[0]; }
    HexEndIs(text, k, e);
  }

  /** And nothing else is taken. */
  lemma FieldFound(text: string, max: nat) returns (lead: string, n: Number, tail: string)
    requires HexField(text, max).Some?
    ensures text == lead + n.Text() + tail && Spaces(lead) && Spaces(tail) && n.Ok(max)
  {
    var i := SpaceEnd(text, 0);
    var j := if i < |text| && (text[i] == '-' || text[i] == '+') then i + 1 else i;
    var k := if HexPrefix(text, j) then j + 2 else j;
    var e := HexEnd(text, k);
    FieldIs(text, max, i, j, k, e);
    n := Number(text[i..j], text[j..k], text[k..e]);
    lead, tail := text[..i], text[e..];
    FieldParts(text, i, j, k, e);
    StandsMeans(text, lead, n, tail, i, j, k, e);
  }

  lemma FieldParts(text: string, i: nat, j: nat, k: nat, e: nat)
    requires Scanned(text, i, j, k, e) && SpaceEnd(text, e) == |text|
    ensures Spaces(text[..i]) && Spaces(text[e..])
    ensures text[i..j] == "" || text[i..j] == "+" || text[i..j] == "-"
    ensures text[j..k] == "" || text[j..k] == "0x" || text[j..k] == "0X"
  {
    TwoOf(text, j, k);
    if j == i + 1 { assert text[i..j] == [text[i]]; }
  }

  lemma TwoOf(text: string, j: nat, k: nat)
    requires k <= |text| && if HexPrefix(text, j) then k == j + 2 else k == j
    ensures text[j..k] == "" || text[j..k] == "0x" || text[j..k] == "0X"
  {
    if k == j + 2 { assert text[j..k] == [text[j], text[j + 1]]; }
  }

  // ------------------------------------------------------------- trimming

  lemma {:induction false} TrimSplits(s: string) returns (a: string, b: string)
    ensures s == a + Trim(s) + b && Spaces(a) && Spaces(b)
    decreases |s|
  {
    a, b := "", "";
    if s == "" {
    } else if Blank(s[0]) {
      a, b := TrimSplits(s[1..]);
      a := [s[0]] + a;
      assert s == [s[0]] + s[1..];
    } else if Blank(s[|s| - 1]) {
      a, b := TrimSplits(s[..|s| - 1]);
      b := b + [s[|s| - 1]];
      assert s == s[..|s| - 1] + [s[|s| - 1]];
    } else {
      assert s == "" + s + "";
    }
  }

  lemma Outer(l: string, mid: string, r: string)
    requires mid != "" && !IsSpace(mid[0]) && !IsSpace(mid[|mid| - 1])
    ensures var s := l + mid + r;
      && s != ""
      && (Blank(s[0]) ==> l != "" && s[1..] == l[1..] + mid + r)
      && (Blank(s[|s| - 1]) ==> r != "" && s[..|s| - 1] == l + mid + r[..|r| - 1])
  {
    var s := l + mid + r;
    if l == "" { assert s[0] == mid[0]; }
    if r == "" { assert s[|s| - 1] == mid[|mid| - 1]; }
  }

  /** Trimming takes blanks off both ends and stops at the number. */
  lemma {:induction false} TrimKeeps(l: string, mid: string, r: string) returns (a: string, b: string)
    requires Spaces(l) && Spaces(r) && mid != "" && !IsSpace(mid[0]) && !IsSpace(mid[|mid| - 1])
    ensures Trim(l + mid + r) == a + mid + b && Spaces(a) && Spaces(b)
    decreases |l| + |r|
  {
    var s := l + mid + r;
    Outer(l, mid, r);
    if Blank(s[0]) {
      a, b := TrimKeeps(l[1..], mid, r);
    } else if Blank(s[|s| - 1]) {
      a, b := TrimKeeps(l, mid, r[..|r| - 1]);
    } else {
      a, b := l, r;
    }
  }

  // -------------------------------------------------------- the size line

  /** A size line: a number between blanks, and an extension. */
  ghost predicate IsSizeLine(line: string, lead: string, n: Number, tail: string, extension: string) {
    && line == lead + n.Text() + tail + extension && Spaces(lead) && Spaces(tail) && n.Ok(SIZE_MAX)
    && (extension == "" || extension[0] == ';')
  }

  lemma NoSemicolon(lead: string, n: Number, tail: string, extension: string, line: string)
    requires IsSizeLine(line, lead, n, tail, extension)
    ensures Find(line, ';', 0) == |lead + n.Text() + tail| && line[..Find(line, ';', 0)] == lead + n.Text() + tail
  {
    var core := lead + n.Text() + tail;
    var i := |lead|;
    var j := i + |n.sign|;
    var k := j + |n.prefix|;
    var e := k + |n.digits|;
    StandsWhen(core, lead, n, tail, i, j, k, e);
    forall p | 0 <= p < |core| ensures core[p] != ';' {
      if p < i { assert core[p] == lead[p]; }
      else if p < j { assert core[p] == n.sign[p - i]; }
      else if p < k { assert core[p] == n.prefix[p - j]; }
      else if p < e { assert core[p] == n.digits[p - k] && IsHex(n.digits[p - k]); }
      else { assert core[p] == tail[p - e]; }
    }
    assert forall p :: 0 <= p < |core| ==> line[p] == core[p];
    FindIs(line, ';', 0, |core|);
  }

  lemma SizeTaken(line: string, lead: string, n: Number, tail: string, extension: string)
    requires IsSizeLine(line, lead, n, tail, extension)
    ensures SizeOf(line) == Some(n.Value(SIZE_MAX))
  {
    NoSemicolon(lead, n, tail, extension, line);
    NumberStarts(n, SIZE_MAX);
    var a, b := TrimKeeps(lead, n.Text(), tail);
    FieldTakes(a + n.Text() + b, a, n, b, SIZE_MAX);
  }

  lemma SpacesAppend(a: string, b: string)
    requires Spaces(a) && Spaces(b)
    ensures Spaces(a + b)
  {
  }

  lemma AroundTrim(core: string, text: string, a: string, b: string, lead: string, n: Number, tail: string)
    requires core == a + text + b && text == lead + n.Text() + tail
    ensures core == (a + lead) + n.Text() + (tail + b)
  {
  }

  lemma SizeFound(line: string) returns (lead: string, n: Number, tail: string, extension: string)
    requires SizeOf(line).Some?
    ensures IsSizeLine(line, lead, n, tail, extension)
  {
    var at := Find(line, ';', 0);
    var core := line[..at];
    extension := line[at..];
    assert line == core + extension;
    var a, b := TrimSplits(core);
    lead, n, tail := FieldFound(Trim(core), SIZE_MAX);
    AroundTrim(core, Trim(core), a, b, lead, n, tail);
    SpacesAppend(a, lead);
    SpacesAppend(tail, b);
    lead, tail := a + lead, tail + b;
  }

  /** A size line is accepted, with this value, if and only if it is a number of
      at most 2^64 - 1 in hex digits, with or without a sign and 0x, between
      blanks and before an extension; a minus negates modulo 2^64. */
  lemma SizeExactly(line: string, size: nat)
    ensures SizeOf(line) == Some(size) <==>
      exists lead, n: Number, tail, extension ::
        IsSizeLine(line, lead, n, tail, extension) && n.Value(SIZE_MAX) == size
  {
    if SizeOf(line) == Some(size) {
      var lead, n, tail, extension := SizeFound(line);
      SizeTaken(line, lead, n, tail, extension);
    }
    if lead, n: Number, tail, extension :|
      IsSizeLine(line, lead, n, tail, extension) && n.Value(SIZE_MAX) == size
    {
      SizeTaken(line, lead, n, tail, extension);
    }
  }

  // ------------------------------------------------------- what is allowed

  /** 1*HEXDIG of section 7.1 of RFC 9112. */
  predicate ChunkSize(s: string) { s != "" && AllHex(s) }

  function TokenStop(s: string, from: nat): (r: nat)
    requires from <= |s|
    ensures from <= r <= |s|
    ensures forall i :: from <= i < r ==> !IsSpace(s[i]) && s[i] != ';'
    ensures r < |s| ==> IsSpace(s[r]) || s[r] == ';'
    decreases |s| - from
  {
    if from < |s| && !IsSpace(s[from]) && s[from] != ';' then TokenStop(s, from + 1) else from
  }

  /** What stands where the size should: from the first byte that is no blank up
      to a blank or the extension. */
  function SizeToken(line: string): string {
    var i := SpaceEnd(line, 0);
    line[i..TokenStop(line, i)]
  }

  lemma TokenStopIs(s: string, from: nat, at: nat)
    requires from <= at <= |s| && forall i :: from <= i < at ==> !IsSpace(s[i]) && s[i] != ';'
    requires at < |s| ==> IsSpace(s[at]) || s[at] == ';'
    ensures TokenStop(s, from) == at
  {
  }

  lemma TokenIsNumber(line: string, lead: string, n: Number, tail: string, extension: string)
    requires IsSizeLine(line, lead, n, tail, extension)
    ensures SizeToken(line) == n.Text()
  {
    NumberStarts(n, SIZE_MAX);
    var after := tail + extension;
    assert line == lead + n.Text() + after;
    LeadEnds(line, lead, n, after);
    var i := |lead|;
    var e := i + |n.Text()|;
    forall p | i <= p < e ensures !IsSpace(line[p]) && line[p] != ';' {
      assert line[p] == n.Text()[p - i];
      NumberBytes(n, SIZE_MAX, p - i);
    }
    if e < |line| {
      assert line[e] == after[0];
      if tail != "" { assert after[0] == tail[0]; }
    }
    TokenStopIs(line, i, e);
  }

  lemma NumberBytes(n: Number, max: nat, p: nat)
    requires n.Ok(max) && p < |n.Text()|
    ensures !IsSpace(n.Text()[p]) && n.Text()[p] != ';'
  {
    var a, b := |n.sign|, |n.sign| + |n.prefix|;
    if p < a { assert n.Text()[p] == n.sign[p]; }
    else if p < b { assert n.Text()[p] == n.prefix[p - a]; }
    else { assert n.Text()[p] == n.digits[p - b] && IsHex(n.digits[p - b]); }
  }

  lemma PlainNumber(n: Number, max: nat)
    requires n.Ok(max)
    ensures ChunkSize(n.Text()) <==> n.sign == "" && n.prefix == ""
    ensures n.sign != "" <==> n.Text()[0] == '+' || n.Text()[0] == '-'
    ensures n.sign == "" ==> (n.prefix != "" <==> HexPrefix(n.Text(), 0))
    ensures n.sign == "" && n.prefix == "" ==> n.Text() == n.digits
  {
    var text := n.Text();
    assert IsHex(n.digits[0]);
    if n.sign != "" {
      assert text[0] == n.sign[0] && !IsHex(text[0]);
    } else if n.prefix != "" {
      assert text[0] == n.prefix[0] && text[1] == n.prefix[1] && !IsHex(text[1]);
    } else {
      assert text == n.digits;
      if |text| >= 2 { assert IsHex(text[1]); }
    }
  }

  /** "A chunk size is hex digits" does not hold of what is accepted. It holds of
      an accepted line if and only if its size has no sign and no 0x, and then
      the value is that of the digits. */
  lemma SizeStandardIff(line: string)
    requires SizeOf(line).Some?
    ensures var token := SizeToken(line);
      && token != ""
      && (ChunkSize(token) <==> token[0] != '+' && token[0] != '-' && !HexPrefix(token, 0))
      && (ChunkSize(token) ==> SizeOf(line) == Some(HexValue(token)))
  {
    var lead, n, tail, extension := SizeFound(line);
    SizeTaken(line, lead, n, tail, extension);
    TokenIsNumber(line, lead, n, tail, extension);
    PlainNumber(n, SIZE_MAX);
  }

  // --------------------------------------------------- lines not allowed

  lemma OneDigit(n: Number)
    requires n.sign == "" || n.sign == "+" || n.sign == "-"
    requires (n.prefix == "" || n.prefix == "0x") && |n.digits| == 1 && IsHex(n.digits[0])
    ensures n.Ok(SIZE_MAX)
    ensures n.Value(SIZE_MAX) == var d := HexDigit(n.digits[0]); if n.sign == "-" && d > 0 then WORD - d else d
  {
    assert n.digits[..0] == "" && HexValue("") == 0;
    assert HexValue(n.digits) == HexDigit(n.digits[0]);
  }

  lemma NumberAlone(n: Number)
    requires n.Ok(SIZE_MAX)
    ensures SizeOf(n.Text()) == Some(n.Value(SIZE_MAX))
  {
    assert n.Text() == "" + n.Text() + "" + "";
    SizeTaken(n.Text(), "", n, "", "");
  }

  lemma DigitLine(n: Number, line: string, d: nat)
    requires n.sign == "" || n.sign == "+" || n.sign == "-"
    requires (n.prefix == "" || n.prefix == "0x") && |n.digits| == 1 && IsHex(n.digits[0])
    requires d == HexDigit(n.digits[0]) && line == n.Text()
    ensures SizeOf(line) == Some(if n.sign == "-" && d > 0 then WORD - d else d)
  {
    OneDigit(n);
    NumberAlone(n);
  }

  /** Three lines that are accepted and not allowed. */
  lemma NotAllowedAccepted()
    ensures SizeOf("+5") == Some(5) && SizeOf("0x5") == Some(5) && SizeOf("-1") == Some(SIZE_MAX)
  {
    DigitLine(Number("+", "", "5"), "+5", 5);
    DigitLine(Number("", "0x", "5"), "0x5", 5);
    DigitLine(Number("-", "", "1"), "-1", 1);
  }
}
