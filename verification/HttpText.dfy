/** Pieces of HTTP text: line ends, blank lines, trimming
    (the std::string searches of apps/webserv/src/Http.cpp, trim and lower of
    apps/webserv/src/Config.cpp). */
module HttpText {
  import opened Strings

  const CRLF: string := "\r\n"

  predicate LineEnd(s: string, i: nat) {
    i + 2 <= |s| && s[i] == '\r' && s[i + 1] == '\n'
  }

  predicate BlankLine(s: string, i: nat) {
    LineEnd(s, i) && LineEnd(s, i + 2)
  }

  /** Position of the first CRLF at or after `from`, or |s|. */
  function FindLineEnd(s: string, from: nat): (r: nat)
    requires from <= |s|
    ensures from <= r <= |s|
    ensures r < |s| ==> LineEnd(s, r)
    ensures forall i {:trigger LineEnd(s, i)} :: from <= i < r ==> !LineEnd(s, i)
    decreases |s| - from
  {
    if from == |s| || LineEnd(s, from) then from else FindLineEnd(s, from + 1)
  }

  /** Position of the first CRLF CRLF at or after `from`, or |s|. */
  function FindBlankLine(s: string, from: nat): (r: nat)
    requires from <= |s|
    ensures from <= r <= |s|
    ensures r < |s| ==> BlankLine(s, r)
    ensures forall i {:trigger BlankLine(s, i)} :: from <= i < r ==> !BlankLine(s, i)
    decreases |s| - from
  {
    if from == |s| || BlankLine(s, from) then from else FindBlankLine(s, from + 1)
  }

  lemma FindLineEndIs(s: string, from: nat, at: nat)
    requires from <= at <= |s|
    requires forall i {:trigger LineEnd(s, i)} :: from <= i < at ==> !LineEnd(s, i)
    requires at < |s| ==> LineEnd(s, at)
    ensures FindLineEnd(s, from) == at
  {
    assert at == |s| || LineEnd(s, at);
  }

  lemma FindBlankLineIs(s: string, from: nat, at: nat)
    requires from <= at <= |s|
    requires forall i {:trigger BlankLine(s, i)} :: from <= i < at ==> !BlankLine(s, i)
    requires at < |s| ==> BlankLine(s, at)
    ensures FindBlankLine(s, from) == at
  {
    assert at == |s| || BlankLine(s, at);
  }

  /** What was found stays found when bytes are appended. */
  lemma FindLineEndStable(s: string, more: string, from: nat)
    requires from <= |s| && FindLineEnd(s, from) < |s|
    ensures FindLineEnd(s + more, from) == FindLineEnd(s, from)
  {
    var at := FindLineEnd(s, from);
    forall i {:trigger LineEnd(s + more, i)} | from <= i < at ensures !LineEnd(s + more, i) {
      assert !LineEnd(s, i);
    }
    FindLineEndIs(s + more, from, at);
  }

  lemma FindBlankLineStable(s: string, more: string, from: nat)
    requires from <= |s| && FindBlankLine(s, from) < |s|
    ensures FindBlankLine(s + more, from) == FindBlankLine(s, from)
  {
    var at := FindBlankLine(s, from);
    forall i {:trigger BlankLine(s + more, i)} | from <= i < at ensures !BlankLine(s + more, i) {
      assert !BlankLine(s, i);
    }
    FindBlankLineIs(s + more, from, at);
  }

  lemma FindStable(s: string, more: string, c: char, from: nat)
    requires from <= |s|
    ensures Find(s, c, from) < |s| ==> Find(s + more, c, from) == Find(s, c, from)
    ensures Find(s, c, from) == |s| ==> Find(s + more, c, from) >= |s|
  {
    var at := Find(s, c, from);
    assert forall i :: from <= i < at ==> (s + more)[i] == s[i];
    if at < |s| { FindIs(s + more, c, from, at); }
  }

  /** trim: blanks, tabs, CR and LF off both ends. */
  predicate Blank(c: char) { c == ' ' || c == '\t' || c == '\r' || c == '\n' }

  function Trim(s: string): string {
    if s == "" then ""
    else if Blank(s[0]) then Trim(s[1..])
    else if Blank(s[|s| - 1]) then Trim(s[..|s| - 1])
    else s
  }

  /** isspace in the C locale. */
  predicate IsSpace(c: char) {
    c == ' ' || c == '\t' || c == '\n' || c == '\U{B}' || c == '\U{C}' || c == '\r'
  }

  function LowerChar(c: char): char {
    if IsUpper(c) then c - 'A' + 'a' else c
  }

  function ToLower(s: string): string {
    seq(|s|, i requires 0 <= i < |s| => LowerChar(s[i]))
  }
}
