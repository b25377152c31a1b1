/** Byte-string helpers of the IRC server: case folding, the token and name
    validators, the positive-number parser and the comma splitter
    (services/irc/prd/util/IrcUtil.cpp).

    A byte is a `char`; every loop of the source is a method proved against a
    specification function or predicate. */
module IrcUtil {
  import opened Strings

  const IRC_MAX_LINE: nat := 512
  const IRC_MAX_CONTENT: nat := 510
  const NICKNAME_MAX_LENGTH: nat := 9
  const CHANNEL_NAME_MAX_LENGTH: nat := 50

  const BELL: char := '\U{7}'

  // ---------------------------------------------------------------- folding

  /** RFC 2812 section 2.2: A-Z[]\^ are the upper-case forms of a-z{}|~. */
  function FoldChar(c: char): char {
    if IsUpper(c) then c - 'A' + 'a'
    else if c == '[' then '{'
    else if c == ']' then '}'
    else if c == '\\' then '|'
    else if c == '^' then '~'
    else c
  }

  function Fold(s: string): string {
    seq(|s|, i requires 0 <= i < |s| => FoldChar(s[i]))
  }

  method IrcCaseFold(value: string) returns (result: string)
    ensures result == Fold(value)
  {
    result := value;
    for i := 0 to |result|
      invariant |result| == |value|
      invariant result[..i] == Fold(value)[..i]
      invariant result[i..] == value[i..]
    {
      var c := result[i];
      assert c == value[i];
      if 'A' <= c <= 'Z' {
        result := result[i := c - 'A' + 'a'];
      } else if c == '[' {
        result := result[i := '{'];
      } else if c == ']' {
        result := result[i := '}'];
      } else if c == '\\' {
        result := result[i := '|'];
      } else if c == '^' {
        result := result[i := '~'];
      }
      assert result[i] == Fold(value)[i];
    }
  }

  /** A folded string is its own search key. */
  lemma FoldIdempotent(s: string)
    ensures Fold(Fold(s)) == Fold(s)
  {
    assert forall c: char :: FoldChar(FoldChar(c)) == FoldChar(c);
  }

  /** The two forms of one letter: A to ^ stand 32 codes below a to ~. */
  predicate LetterPair(upper: char, lower: char) {
    'A' <= upper <= '^' && lower as int == upper as int + 32
  }

  /** Two names fold alike exactly when they agree but for the case of letters,
      the four bracket letters included. */
  lemma FoldExactly(a: string, b: string)
    ensures Fold(a) == Fold(b) <==>
      |a| == |b| && forall i :: 0 <= i < |a| ==> a[i] == b[i] || LetterPair(a[i], b[i]) || LetterPair(b[i], a[i])
  {
    forall c: char, d: char
      ensures FoldChar(c) == FoldChar(d) <==> c == d || LetterPair(c, d) || LetterPair(d, c)
    {
      FoldCharExactly(c, d);
    }
    if Fold(a) == Fold(b) {
      forall i | 0 <= i < |a| ensures FoldChar(a[i]) == FoldChar(b[i]) {
        assert Fold(a)[i] == Fold(b)[i];
      }
    }
  }

  lemma FoldCharExactly(c: char, d: char)
    ensures FoldChar(c) == FoldChar(d) <==> c == d || LetterPair(c, d) || LetterPair(d, c)
  {
  }

  function UpperChar(c: char): char {
    if IsLower(c) then c - 'a' + 'A' else c
  }

  function ToUpper(s: string): string {
    seq(|s|, i requires 0 <= i < |s| => UpperChar(s[i]))
  }

  /** Only a to z change, each to the letter 32 codes below. */
  lemma UpperExactly(s: string, i: nat)
    requires i < |s|
    ensures |ToUpper(s)| == |s|
    ensures ToUpper(s)[i] as int == if 'a' <= s[i] <= 'z' then s[i] as int - 32 else s[i] as int
  {
  }

  method ToUpperAscii(value: string) returns (result: string)
    ensures result == ToUpper(value)
  {
    result := value;
    for i := 0 to |result|
      invariant |result| == |value|
      invariant result[..i] == ToUpper(value)[..i]
      invariant result[i..] == value[i..]
    {
      var c := result[i];
      assert c == value[i];
      if 'a' <= c <= 'z' {
        result := result[i := c - 'a' + 'A'];
      }
      assert result[i] == ToUpper(value)[i];
    }
  }

  // ------------------------------------------------------------- validation

  predicate IsNicknameSpecial(c: char) {
    c == '[' || c == ']' || c == '\\' || c == '`' || c == '_' || c == '^' ||
    c == '{' || c == '|' || c == '}'
  }

  predicate NicknameStart(c: char) { IsLetter(c) || IsNicknameSpecial(c) }

  predicate NicknameChar(c: char) { NicknameStart(c) || IsDigit(c) || c == '-' }

  predicate ValidNickname(s: string) {
    && 1 <= |s| <= NICKNAME_MAX_LENGTH
    && NicknameStart(s[0])
    && forall i {:trigger NicknameChar(s[i])} :: 1 <= i < |s| ==> NicknameChar(s[i])
  }

  method IsValidNickname(value: string) returns (ok: bool)
    ensures ok == ValidNickname(value)
  {
    if value == "" || |value| > NICKNAME_MAX_LENGTH {
      return false;
    }
    if !IsLetter(value[0]) && !IsNicknameSpecial(value[0]) {
      return false;
    }
    for i := 1 to |value|
      invariant forall j {:trigger NicknameChar(value[j])} :: 1 <= j < i ==> NicknameChar(value[j])
    {
      var c := value[i];
      if !IsLetter(c) && !IsDigit(c) && !IsNicknameSpecial(c) && c != '-' {
        assert !NicknameChar(value[i]);
        return false;
      }
    }
    return true;
  }

  predicate ChannelNameChar(c: char) {
    c != ' ' && c != ',' && c != ':' && c != BELL && c != '\r' && c != '\n' && c != NUL
  }

  predicate ValidChannelName(s: string) {
    && 2 <= |s| <= CHANNEL_NAME_MAX_LENGTH
    && s[0] == '#'
    && forall i {:trigger ChannelNameChar(s[i])} :: 1 <= i < |s| ==> ChannelNameChar(s[i])
  }

  method IsValidChannelName(value: string) returns (ok: bool)
    ensures ok == ValidChannelName(value)
  {
    if |value| < 2 || |value| > CHANNEL_NAME_MAX_LENGTH {
      return false;
    }
    if value[0] != '#' {
      return false;
    }
    for i := 1 to |value|
      invariant forall j {:trigger ChannelNameChar(value[j])} :: 1 <= j < i ==> ChannelNameChar(value[j])
    {
      var c := value[i];
      if c == ' ' || c == ',' || c == ':' || c == BELL || c == '\r' || c == '\n' || c == NUL {
        assert !ChannelNameChar(value[i]);
        return false;
      }
    }
    return true;
  }

  predicate TokenChar(c: char) {
    c != ' ' && c != '\r' && c != '\n' && c != NUL
  }

  predicate SafeToken(s: string) {
    && s != ""
    && s[0] != ':'
    && forall i {:trigger TokenChar(s[i])} :: 0 <= i < |s| ==> TokenChar(s[i])
  }

  method IsSafeToken(value: string) returns (ok: bool)
    ensures ok == SafeToken(value)
  {
    if value == "" {
      return false;
    }
    if value[0] == ':' {
      return false;
    }
    for i := 0 to |value|
      invariant forall j {:trigger TokenChar(value[j])} :: 0 <= j < i ==> TokenChar(value[j])
    {
      var c := value[i];
      if c == ' ' || c == '\r' || c == '\n' || c == NUL {
        assert !TokenChar(value[i]);
        return false;
      }
    }
    return true;
  }

  // ------------------------------------------------------------ sanitizing

  predicate LineChar(c: char) { c != '\r' && c != '\n' && c != NUL }

  /** No byte that could end or split a line. */
  predicate OneLine(s: string) {
    forall i {:trigger LineChar(s[i])} :: 0 <= i < |s| ==> LineChar(s[i])
  }

  function Sanitize(s: string): string {
    if s == "" then ""
    else if LineChar(s[0]) then [s[0]] + Sanitize(s[1..])
    else Sanitize(s[1..])
  }

  lemma {:induction false} SanitizeOneLine(s: string)
    ensures OneLine(Sanitize(s))
  {
    if s != "" {
      SanitizeOneLine(s[1..]);
      OneLineConcat([s[0]], Sanitize(s[1..]));
    }
  }

  lemma {:induction false} SanitizeShrinks(s: string)
    ensures |Sanitize(s)| <= |s|
  {
    if s != "" { SanitizeShrinks(s[1..]); }
  }

  lemma OneLineConcat(s: string, t: string)
    ensures OneLine(s + t) <==> OneLine(s) && OneLine(t)
  {
    if OneLine(s + t) {
      forall i | 0 <= i < |s| ensures LineChar(s[i]) { assert LineChar((s + t)[i]); }
      forall i | 0 <= i < |t| ensures LineChar(t[i]) { assert LineChar((s + t)[|s| + i]); }
    }
    if OneLine(s) && OneLine(t) {
      forall i | 0 <= i < |s + t| ensures LineChar((s + t)[i]) {
        if i < |s| { assert LineChar(s[i]); } else { assert LineChar(t[i - |s|]); }
      }
    }
  }

  lemma SafeIsOneLine(s: string)
    requires SafeToken(s)
    ensures OneLine(s)
  {
    forall i | 0 <= i < |s| ensures LineChar(s[i]) { assert TokenChar(s[i]); }
  }

  lemma {:induction false} SanitizeConcat(s: string, t: string)
    ensures Sanitize(s + t) == Sanitize(s) + Sanitize(t)
  {
    if s == "" {
      assert s + t == t;
    } else {
      assert (s + t)[1..] == s[1..] + t;
      SanitizeConcat(s[1..], t);
    }
  }

  /** Sanitizing changes exactly the strings that hold CR, LF or NUL. */
  lemma {:induction false} SanitizeIdentity(s: string)
    ensures Sanitize(s) == s <==> OneLine(s)
  {
    if s != "" {
      SanitizeIdentity(s[1..]);
      assert s == [s[0]] + s[1..];
      OneLineConcat([s[0]], s[1..]);
      assert LineChar([s[0]][0]) <==> OneLine([s[0]]);
      if !LineChar(s[0]) {
        SanitizeShrinks(s[1..]);
      }
    }
  }

  method SanitizeMessageText(value: string) returns (result: string)
    ensures result == Sanitize(value)
  {
    result := "";
    for i := 0 to |value|
      invariant result == Sanitize(value[..i])
    {
      var c := value[i];
      assert value[..i + 1] == value[..i] + [c];
      SanitizeConcat(value[..i], [c]);
      if c != '\r' && c != '\n' && c != NUL {
        result := result + [c];
      }
    }
    assert value[..|value|] == value;
  }

  // ------------------------------------------------------------- splitting

  /** The empty string has no fields at all; otherwise empty fields count. */
  function SplitComma(s: string): seq<string> {
    if s == "" then [] else SplitFrom(s, ',', 0)
  }

  /** Splitting loses nothing: the fields hold no comma and joining them with
      commas gives the string back, so JOIN pairs channels and keys by place. */
  lemma SplitCommaJoins(s: string)
    ensures JoinWith(SplitComma(s), ",") == s
    ensures forall part :: part in SplitComma(s) ==> ',' !in part
  {
    if s != "" {
      SplitFromJoins(s, ',', 0);
      assert s[0..] == s;
      forall part | part in SplitComma(s)
        ensures ',' !in part
      {
        SplitFromFields(s, ',', 0, part);
      }
    }
  }

  method SplitCommaList(value: string) returns (result: seq<string>)
    ensures result == SplitComma(value)
  {
    result := [];
    if value == "" {
      return;
    }
    var start := 0;
    while true
      invariant 0 <= start <= |value|
      invariant result + SplitFrom(value, ',', start) == SplitFrom(value, ',', 0)
      decreases |value| - start
    {
      var pos := Find(value, ',', start);
      if pos == |value| {
        result := result + [value[start..]];
        break;
      }
      assert SplitFrom(value, ',', start)
          == [value[start..pos]] + SplitFrom(value, ',', pos + 1);
      result := result + [value[start..pos]];
      start := pos + 1;
    }
  }

  // --------------------------------------------------------------- numbers

  predicate PositiveSize(s: string) {
    s != "" && AllDigits(s) && 1 <= DecimalValue(s) <= SIZE_MAX
  }

  /** Accepts exactly the decimal strings of value 1..2^64-1, and the running
      value never leaves that range although each step multiplies by ten. */
  method ParsePositiveSize(value: string) returns (ok: bool, result: nat)
    ensures ok == PositiveSize(value)
    ensures ok ==> result == DecimalValue(value)
  {
    ok, result := false, 0;
    if value == "" {
      return;
    }
    var parsed := 0;
    for i := 0 to |value|
      invariant AllDigits(value[..i])
      invariant parsed == DecimalValue(value[..i]) <= SIZE_MAX
    {
      if !IsDigit(value[i]) {
        return;
      }
      var digit := DigitValue(value[i]);
      var longer := value[..i + 1];
      assert longer[..i] == value[..i];
      if parsed > (SIZE_MAX - digit) / 10 {
        assert DecimalValue(longer) > SIZE_MAX;
        if AllDigits(value) {
          DecimalPrefix(value, i + 1);
        }
        return;
      }
      parsed := parsed * 10 + digit;
    }
    assert value[..|value|] == value;
    if parsed == 0 {
      return;
    }
    return true, parsed;
  }
}
