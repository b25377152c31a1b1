/** Parsing a received line (services/irc/prd/util/Parser.cpp) and the law that
    ties it to the reply builder. */
module Parser {
  import opened IrcUtil
  import opened Strings
  import opened Domain
  import opened Reply

  const MAX_PARAMS: nat := 15

  function SpacesEnd(line: string, pos: nat): (r: nat)
    requires pos <= |line|
    ensures pos <= r <= |line|
    ensures r < |line| ==> line[r] != ' '
    ensures forall i :: pos <= i < r ==> line[i] == ' '
    decreases |line| - pos
  {
    if pos < |line| && line[pos] == ' ' then SpacesEnd(line, pos + 1) else pos
  }

  function ParseParams(line: string, pos: nat, params: seq<string>): Option<seq<string>>
    requires pos <= |line|
    decreases |line| - pos
  {
    var p := SpacesEnd(line, pos);
    if p >= |line| then Some(params)
    else if |params| >= MAX_PARAMS then None
    else if line[p] == ':' then Some(params + [line[p + 1..]])
    else
      var end := Find(line, ' ', p);
      ParseParams(line, end, params + [line[p..end]])
  }

  function Parsed(prefix: string, command: string, params: Option<seq<string>>): Option<Message> {
    if params == None then None else Some(Message(prefix, command, params.value))
  }

  /** The command and its parameters, from `pos` on. */
  function ParseCommand(line: string, pos: nat, prefix: string): Option<Message>
    requires pos <= |line|
  {
    var end := Find(line, ' ', pos);
    var command := ToUpper(line[pos..end]);
    if command == "" then None else Parsed(prefix, command, ParseParams(line, end, []))
  }

  /** The prefix of a line and the position of its command; None for a colon
      with no prefix after it. */
  function LineHead(line: string): (h: Option<(string, nat)>)
    ensures h.Some? ==> h.value.1 <= |line|
  {
    var p := SpacesEnd(line, 0);
    if p < |line| && line[p] == ':' then
      var end := Find(line, ' ', p + 1);
      if end == p + 1 then None else Some((line[p + 1..end], SpacesEnd(line, end)))
    else Some(("", p))
  }

  /** The message a line stands for under the grammar of section 2.3.1 of
      RFC 2812, or None for a line the server drops. */
  function ParseLine(line: string): Option<Message> {
    if NUL in line then None
    else
      var head := LineHead(line);
      if head == None then None else ParseCommand(line, head.value.1, head.value.0)
  }

  method SkipSpaces(line: string, start: nat) returns (pos: nat)
    requires start <= |line|
    ensures pos == SpacesEnd(line, start)
  {
    pos := start;
    while pos < |line| && line[pos] == ' '
      invariant start <= pos <= |line|
      invariant SpacesEnd(line, pos) == SpacesEnd(line, start)
    {
      pos := pos + 1;
    }
  }

  method TakeToken(line: string, start: nat) returns (token: string, pos: nat)
    requires start <= |line|
    ensures pos == Find(line, ' ', start)
    ensures token == line[start..pos]
  {
    pos := start;
    while pos < |line| && line[pos] != ' '
      invariant start <= pos <= |line|
      invariant Find(line, ' ', pos) == Find(line, ' ', start)
    {
      pos := pos + 1;
    }
    token := line[start..pos];
  }

  method Parse(line: string) returns (ok: bool, out: Message)
    ensures ok <==> ParseLine(line).Some?
    ensures ok ==> out == ParseLine(line).value
  {
    ok, out := false, Message("", "", []);
    if NUL in line {
      return;
    }
    var prefix := "";
    var pos := SkipSpaces(line, 0);
    if pos < |line| && line[pos] == ':' {
      pos := pos + 1;
      prefix, pos := TakeToken(line, pos);
      if prefix == "" {
        return;
      }
      pos := SkipSpaces(line, pos);
    }
    var token;
    ghost var start := pos;
    token, pos := TakeToken(line, pos);
    assert ParseLine(line) == ParseCommand(line, start, prefix);
    var command := ToUpperAscii(token);
    if command == "" {
      return;
    }
    var params: seq<string>;
    ok, params := ReadParams(line, pos);
    out := Message(prefix, command, params);
  }

  method ReadParams(line: string, end: nat) returns (ok: bool, params: seq<string>)
    requires end <= |line|
    ensures ok <==> ParseParams(line, end, []).Some?
    ensures ok ==> params == ParseParams(line, end, []).value
  {
    ok, params := false, [];
    var pos := end;
    while true
      invariant pos <= |line|
      invariant ParseParams(line, pos, params) == ParseParams(line, end, [])
      decreases |line| - pos
    {
      pos := SkipSpaces(line, pos);
      if pos >= |line| {
        break;
      }
      if |params| >= MAX_PARAMS {
        return;
      }
      if line[pos] == ':' {
        pos := pos + 1;
        params := params + [line[pos..]];
        return true, params;
      }
      var param;
      param, pos := TakeToken(line, pos);
      params := params + [param];
    }
    return true, params;
  }

  // ------------------------------------------------------------ round trips

  /** Middle parameters followed by a trailing one, as handlers write them. */
  function TrailingText(middles: seq<string>, last: string): string {
    if middles == [] then ":" + last else middles[0] + (" " + TrailingText(middles[1..], last))
  }

  /** Each word after one space. */
  function SpacedText(words: seq<string>): string {
    if words == [] then "" else " " + (words[0] + SpacedText(words[1..]))
  }

  predicate AllSafe(tokens: seq<string>) {
    forall i {:trigger SafeToken(tokens[i])} :: 0 <= i < |tokens| ==> SafeToken(tokens[i])
  }

  lemma HeadTail<T>(a: seq<T>, b: seq<T>)
    requires b != []
    ensures a + b == a + [b[0]] + b[1..]
  {
  }

  /** A blank-free token followed by a space or the end ends where it should. */
  lemma TokenEnds(line: string, pos: nat, token: string)
    requires pos + |token| <= |line| && line[pos..pos + |token|] == token
    requires ' ' !in token
    requires pos + |token| < |line| ==> line[pos + |token|] == ' '
    ensures Find(line, ' ', pos) == pos + |token|
  {
    forall i | pos <= i < pos + |token| ensures line[i] != ' ' {
      assert line[i] == line[pos..pos + |token|][i - pos];
    }
  }

  /** One space before a word is skipped, and no more. */
  lemma SpaceThenWord(line: string, pos: nat, text: string)
    requires pos <= |line| && line[pos..] == " " + text
    requires text != "" && text[0] != ' '
    ensures pos + 1 < |line| && line[pos + 1..] == text && line[pos + 1] == text[0]
    ensures SpacesEnd(line, pos) == pos + 1
  {
    SuffixSplits(line, pos, " ", text);
    assert line[pos] == line[pos..pos + 1][0];
    assert line[pos + 1] == line[pos + 1..][0];
    assert SpacesEnd(line, pos + 1) == pos + 1;
  }

  lemma WordHasNoSpace(s: string)
    requires forall i {:trigger TokenChar(s[i])} :: 0 <= i < |s| ==> TokenChar(s[i])
    ensures ' ' !in s
  {
    forall i | 0 <= i < |s| ensures s[i] != ' ' { assert TokenChar(s[i]); }
  }

  /** The next word of the line is taken as one parameter. */
  lemma ParseOneWord(line: string, pos: nat, params: seq<string>, word: string, rest: string)
    requires pos <= |line| && line[pos..] == " " + (word + rest)
    requires SafeToken(word) && (rest == "" || rest[0] == ' ')
    requires |params| < MAX_PARAMS
    ensures pos + 1 + |word| <= |line| && line[pos + 1 + |word|..] == rest
    ensures ParseParams(line, pos, params) == ParseParams(line, pos + 1 + |word|, params + [word])
  {
    assert TokenChar(word[0]);
    SpaceThenWord(line, pos, word + rest);
    SuffixSplits(line, pos + 1, word, rest);
    WordHasNoSpace(word);
    if rest != "" {
      assert line[pos + 1 + |word|] == line[pos + 1 + |word|..][0];
    }
    TokenEnds(line, pos + 1, word);
  }

  /** A trailing parameter takes the rest of the line, colon removed. */
  lemma ParseLastWord(line: string, pos: nat, params: seq<string>, last: string)
    requires pos <= |line| && line[pos..] == " " + (":" + last)
    requires |params| < MAX_PARAMS
    ensures ParseParams(line, pos, params) == Some(params + [last])
  {
    SpaceThenWord(line, pos, ":" + last);
    SuffixSplits(line, pos + 1, ":", last);
  }

  lemma SafeTail(tokens: seq<string>)
    requires AllSafe(tokens) && tokens != []
    ensures SafeToken(tokens[0]) && AllSafe(tokens[1..])
  {
    assert SafeToken(tokens[0]);
    forall i | 0 <= i < |tokens[1..]| ensures SafeToken(tokens[1..][i]) { assert SafeToken(tokens[i + 1]); }
  }

  /** The words, each after one space, and a tail. */
  function SpacedOnto(words: seq<string>, tail: string): string {
    if words == [] then tail else " " + (words[0] + SpacedOnto(words[1..], tail))
  }

  lemma {:induction false} SpacedSplit(a: seq<string>, b: seq<string>)
    ensures SpacedText(a + b) == SpacedOnto(a, SpacedText(b))
    decreases |a|
  {
    if a == [] {
      assert a + b == b;
    } else {
      assert (a + b)[0] == a[0] && (a + b)[1..] == a[1..] + b;
      SpacedSplit(a[1..], b);
    }
  }

  lemma {:induction false} TrailingIsSpaced(middles: seq<string>, last: string)
    ensures " " + TrailingText(middles, last) == SpacedOnto(middles, " " + (":" + last))
    decreases |middles|
  {
    if middles != [] { TrailingIsSpaced(middles[1..], last); }
  }

  /** Where the tail stands in a line that ends with the words and the tail. */
  lemma {:induction false} TailHere(line: string, pos: nat, words: seq<string>, tail: string)
    requires pos <= |line| && line[pos..] == SpacedOnto(words, tail)
    ensures |tail| <= |line| && pos <= |line| - |tail| && line[|line| - |tail|..] == tail
    decreases |words|
  {
    if words == [] {
      assert line[pos..] == tail;
    } else {
      SuffixSplits(line, pos, " ", words[0] + SpacedOnto(words[1..], tail));
      SuffixSplits(line, pos + 1, words[0], SpacedOnto(words[1..], tail));
      TailHere(line, pos + 1 + |words[0]|, words[1..], tail);
    }
  }

  lemma OntoHead(words: seq<string>, tail: string)
    requires words != [] && (tail == "" || tail[0] == ' ')
    ensures SpacedOnto(words, tail) == " " + (words[0] + SpacedOnto(words[1..], tail))
    ensures SpacedOnto(words[1..], tail) == "" || SpacedOnto(words[1..], tail)[0] == ' '
  {
  }

  /** Safe words are taken one after the other. */
  lemma {:induction false} ParseWords(line: string, pos: nat, params: seq<string>, words: seq<string>, tail: string)
    requires pos <= |line| && line[pos..] == SpacedOnto(words, tail) && (tail == "" || tail[0] == ' ')
    requires AllSafe(words) && |params| + |words| <= MAX_PARAMS
    ensures |tail| <= |line|
    ensures ParseParams(line, pos, params) == ParseParams(line, |line| - |tail|, params + words)
    decreases |words|
  {
    if words == [] {
      assert line[pos..] == tail && params + words == params;
    } else {
      SafeTail(words);
      OntoHead(words, tail);
      HeadTail(params, words);
      var word, others := words[0], words[1..];
      ParseOneWord(line, pos, params, word, SpacedOnto(others, tail));
      ParseWords(line, pos + 1 + |word|, params + [word], others, tail);
    }
  }

  lemma ParseTrailing(line: string, pos: nat, middles: seq<string>, last: string)
    requires pos <= |line| && line[pos..] == " " + TrailingText(middles, last)
    requires AllSafe(middles) && |middles| < MAX_PARAMS
    ensures ParseParams(line, pos, []) == Some(middles + [last])
  {
    var tail := " " + (":" + last);
    TrailingIsSpaced(middles, last);
    TailHere(line, pos, middles, tail);
    ParseWords(line, pos, [], middles, tail);
    ParseLastWord(line, |line| - |tail|, middles, last);
    assert [] + middles == middles;
  }

  lemma {:induction false} TrailingSanitized(middles: seq<string>, last: string)
    requires AllSafe(middles)
    ensures Sanitize(TrailingText(middles, last)) == TrailingText(middles, Sanitize(last))
  {
    if middles == [] {
      SanitizeConcat(":", last);
      SanitizeIdentity(":");
    } else {
      var rest := TrailingText(middles[1..], last);
      TrailingSanitized(middles[1..], last);
      SanitizeConcat(middles[0], " " + rest);
      SanitizeConcat(" ", rest);
      SanitizeIdentity(" ");
      SafeIsOneLine(middles[0]);
      SanitizeIdentity(middles[0]);
    }
  }

  lemma NoNulInLine(s: string)
    requires OneLine(s)
    ensures NUL !in s
  {
    forall i | 0 <= i < |s| ensures s[i] != NUL { assert LineChar(s[i]); }
  }

  /** The command of a line reads back, and the parameters start after it. */
  lemma ParseCommandPart(line: string, pos: nat, command: string, rest: string, end: nat)
    requires pos <= |line| && line[pos..] == command + rest && end == pos + |command|
    requires SafeToken(command) && (rest == "" || rest[0] == ' ')
    ensures end <= |line| && line[end..] == rest
    ensures Find(line, ' ', pos) == end && line[pos..end] == command
  {
    SuffixSplits(line, pos, command, rest);
    WordHasNoSpace(command);
    if rest != "" {
      assert line[end] == line[end..][0];
    }
    TokenEnds(line, pos, command);
  }

  lemma ParseFrom(line: string, pos: nat, prefix: string, command: string, end: nat)
    requires pos <= end <= |line| && NUL !in line
    requires LineHead(line) == Some((prefix, pos))
    requires Find(line, ' ', pos) == end && line[pos..end] == command
    requires command != ""
    ensures ParseLine(line) == Parsed(prefix, ToUpper(command), ParseParams(line, end, []))
  {
  }

  function Head(prefix: string): string {
    if prefix == "" then "" else ":" + prefix + " "
  }

  /** The prefix of a line, if any, is taken whole and the space after it
      skipped. */
  lemma ParsePrefixPart(line: string, prefix: string, tail: string, at: nat)
    requires prefix == "" || SafeToken(prefix)
    requires line == Head(prefix) + tail && at == |Head(prefix)|
    requires tail != "" && tail[0] != ' ' && tail[0] != ':'
    ensures at <= |line| && line[at..] == tail
    ensures LineHead(line) == Some((prefix, at))
  {
    if prefix == "" {
      assert line == tail;
    } else {
      assert line[0] == ':';
      assert line[1..1 + |prefix|] == prefix;
      WordHasNoSpace(prefix);
      assert line[1 + |prefix|] == ' ';
      TokenEnds(line, 1, prefix);
      assert line[at] == tail[0];
      assert SpacesEnd(line, at) == at;
    }
  }

  /** Where prefix and command of a built line stand. */
  lemma HeadStands(line: string, prefix: string, command: string, rest: string, at: nat, end: nat)
    requires line == Head(prefix) + (command + rest)
    requires at == |Head(prefix)| && end == at + |command|
    requires SafeToken(command) && (prefix == "" || SafeToken(prefix))
    requires rest == "" || rest[0] == ' '
    ensures LineHead(line) == Some((prefix, at))
    ensures at <= end <= |line| && line[end..] == rest
    ensures Find(line, ' ', at) == end && line[at..end] == command
  {
    assert TokenChar(command[0]);
    ParsePrefixPart(line, prefix, command + rest, at);
    ParseCommandPart(line, at, command, rest, end);
  }

  /** The head of a built line reads back as its prefix and command. */
  lemma ParseHead(line: string, prefix: string, command: string, rest: string, end: nat)
    requires line == Head(prefix) + (command + rest) && NUL !in line
    requires end == |Head(prefix)| + |command|
    requires SafeToken(command)
    requires prefix == "" || SafeToken(prefix)
    requires rest == "" || rest[0] == ' '
    ensures end <= |line| && line[end..] == rest
    ensures ParseLine(line) == Parsed(prefix, ToUpper(command), ParseParams(line, end, []))
  {
    var at := |Head(prefix)|;
    HeadStands(line, prefix, command, rest, at, end);
    ParseFrom(line, at, prefix, command, end);
  }

  /** The command of a line as a peer reads it. */
  function Verb(line: string): string {
    match LineHead(line)
    case None => ""
    case Some((prefix, at)) => line[at..Find(line, ' ', at)]
  }

  lemma VerbOfLine(line: string, prefix: string, command: string, rest: string)
    requires line == Head(prefix) + (command + rest)
    requires SafeToken(command) && (prefix == "" || SafeToken(prefix))
    requires rest == "" || rest[0] == ' '
    ensures Verb(line) == command
  {
    HeadStands(line, prefix, command, rest, |Head(prefix)|, |Head(prefix)| + |command|);
  }

  lemma VerbOfCommand(prefix: string, command: string, text: string)
    requires SafeToken(command) && (prefix == "" || SafeToken(prefix))
    ensures Verb(Command(prefix, command, text)) == command
  {
    var line := Command(prefix, command, text);
    if Sanitize(text) == "" {
      assert line == Head(prefix) + (command + "");
      VerbOfLine(line, prefix, command, "");
    } else {
      LineShape(prefix, command, text);
      VerbOfLine(line, prefix, command, " " + Sanitize(text));
    }
  }

  lemma DigitsSafe(code: nat)
    requires code <= 999
    ensures SafeToken(ThreeDigits(code)) && ToUpper(ThreeDigits(code)) == ThreeDigits(code)
    ensures ThreeDigits(code) == "001" <==> code == 1
  {
    var s := ThreeDigits(code);
    forall i | 0 <= i < 3 ensures TokenChar(s[i]) && UpperChar(s[i]) == s[i] { assert '0' <= s[i] <= '9'; }
    assert s == "001" <==> s[0] == '0' && s[1] == '0' && s[2] == '1';
  }

  lemma Regroup(head: string, digits: string, name: string, tail: string)
    ensures head + digits + " " + name + tail == head + (digits + (" " + name + tail))
  {
  }

  /** A numeric is head, three digits, target and text. */
  lemma NumericShape(serverName: string, target: Client, code: nat, parameters: string)
    requires code <= 999 && SafeToken(serverName) && SafeToken(TargetName(target))
    ensures var safe := Sanitize(parameters);
      Numeric(serverName, target, code, parameters)
      == Head(serverName) + (ThreeDigits(code) + (" " + TargetName(target) + (if safe == "" then "" else " " + safe)))
  {
    var head, digits, name, safe := Head(serverName), ThreeDigits(code), TargetName(target), Sanitize(parameters);
    if safe == "" {
      Regroup(head, digits, name, "");
      assert head + digits + " " + name + "" == head + digits + " " + name;
    } else {
      Regroup(head, digits, name, " " + safe);
      Assoc(head + digits + " " + name, " ", safe);
    }
  }

  lemma VerbOfNumeric(serverName: string, target: Client, code: nat, parameters: string)
    requires code <= 999 && SafeToken(serverName) && SafeToken(TargetName(target))
    ensures Verb(Numeric(serverName, target, code, parameters)) == ThreeDigits(code)
  {
    DigitsSafe(code);
    NumericShape(serverName, target, code, parameters);
    var safe := Sanitize(parameters);
    var rest := " " + TargetName(target) + (if safe == "" then "" else " " + safe);
    VerbOfLine(Numeric(serverName, target, code, parameters), serverName, ThreeDigits(code), rest);
  }

  lemma SanitizedText(name: string, text: string)
    requires SafeToken(name) && Sanitize(text) != ""
    ensures Sanitize(name + " " + text) == name + " " + Sanitize(text)
  {
    SafeIsOneLine(name);
    SanitizeIdentity(name);
    SanitizeIdentity(" ");
    SanitizeConcat(name, " ");
    SanitizeConcat(name + " ", text);
  }

  /** A numeric is a command line whose command is the three digits. */
  lemma NumericIsCommand(serverName: string, target: Client, code: nat, parameters: string)
    requires code <= 999 && SafeToken(serverName) && SafeToken(TargetName(target)) && Sanitize(parameters) != ""
    ensures Numeric(serverName, target, code, parameters)
         == Command(serverName, ThreeDigits(code), TargetName(target) + " " + parameters)
  {
    var name, safe := TargetName(target), Sanitize(parameters);
    DigitsSafe(code);
    NumericShape(serverName, target, code, parameters);
    SanitizedText(name, parameters);
    LineShape(serverName, ThreeDigits(code), name + " " + parameters);
    Assoc(" ", name, " " + safe);
    Assoc(name, " ", safe);
  }

  /** A command line with parameters is head, command, space, parameters. */
  lemma LineShape(prefix: string, command: string, text: string)
    requires SafeToken(command) && (prefix == "" || SafeToken(prefix))
    requires Sanitize(text) != ""
    ensures Command(prefix, command, text) == Head(prefix) + (command + (" " + Sanitize(text)))
    ensures NUL !in Command(prefix, command, text)
  {
    var safe := Sanitize(text);
    Assoc(command, " ", safe);
    Assoc(Head(prefix), command, " " + safe);
    Assoc(Head(prefix) + command, " ", safe);
    NoNulInLine(Command(prefix, command, text));
  }

  /** Parse after print is the identity: a built command line reads back as its
      prefix, its command in upper case and its parameters, the last sanitised. */
  lemma ParseAfterPrint(prefix: string, command: string, middles: seq<string>, last: string)
    requires SafeToken(command)
    requires prefix == "" || SafeToken(prefix)
    requires AllSafe(middles) && |middles| + 1 <= MAX_PARAMS
    ensures ParseLine(Command(prefix, command, TrailingText(middles, last)))
         == Some(Message(prefix, ToUpper(command), middles + [Sanitize(last)]))
  {
    var text := TrailingText(middles, last);
    TrailingSanitized(middles, last);
    LineShape(prefix, command, text);
    var line := Command(prefix, command, text);
    var end := |Head(prefix)| + |command|;
    ParseHead(line, prefix, command, " " + Sanitize(text), end);
    assert [] + middles == middles;
    ParseTrailing(line, end, middles, Sanitize(last));
  }

  // --- parameters written without a trailing one, as MODE notices are

  predicate Word(s: string) {
    s != "" && forall i {:trigger TokenChar(s[i])} :: 0 <= i < |s| ==> TokenChar(s[i])
  }

  predicate AllWords(tokens: seq<string>) {
    forall i {:trigger Word(tokens[i])} :: 0 <= i < |tokens| ==> Word(tokens[i])
  }

  predicate LeadsColon(s: string) {
    s != "" && s[0] == ':'
  }

  predicate NoLeadingColon(tokens: seq<string>) {
    forall i {:trigger LeadsColon(tokens[i])} :: 0 <= i < |tokens| ==> !LeadsColon(tokens[i])
  }

  /** A word that begins with a colon is never read back as itself. */
  lemma ColonWordLost(line: string, pos: nat, params: seq<string>, words: seq<string>)
    requires pos <= |line| && line[pos..] == SpacedText(words)
    requires words != [] && words[0] != "" && words[0][0] == ':'
    requires |params| + |words| <= MAX_PARAMS
    ensures ParseParams(line, pos, params) != Some(params + words)
  {
    var m := words[0];
    var last := m[1..] + SpacedText(words[1..]);
    assert m == ":" + m[1..];
    Assoc(":", m[1..], SpacedText(words[1..]));
    ParseLastWord(line, pos, params, last);
    if |words| == 1 {
      assert (params + [last])[|params|] == m[1..];
      assert (params + words)[|params|] == m;
    }
  }

  lemma WordsSplit(words: seq<string>)
    requires AllWords(words) && words != []
    ensures Word(words[0]) && AllWords(words[1..])
  {
    forall i | 0 <= i < |words[1..]| ensures Word(words[1..][i]) { assert Word(words[i + 1]); }
  }

  lemma ColonSplit(words: seq<string>)
    requires words != []
    ensures NoLeadingColon(words) <==> !LeadsColon(words[0]) && NoLeadingColon(words[1..])
  {
    if NoLeadingColon(words) {
      forall i | 0 <= i < |words[1..]| ensures !LeadsColon(words[1..][i]) { assert !LeadsColon(words[i + 1]); }
    }
    if !LeadsColon(words[0]) && NoLeadingColon(words[1..]) {
      forall i | 0 <= i < |words| ensures !LeadsColon(words[i]) {
        if i > 0 { assert !LeadsColon(words[1..][i - 1]); }
      }
    }
  }

  lemma WordIsSafe(s: string)
    requires Word(s)
    ensures SafeToken(s) <==> s[0] != ':'
  {
  }

  lemma SpacedHead(words: seq<string>)
    requires words != []
    ensures SpacedText(words) == " " + (words[0] + SpacedText(words[1..]))
    ensures SpacedText(words[1..]) == "" || SpacedText(words[1..])[0] == ' '
  {
  }

  lemma WordOneLine(s: string)
    requires Word(s)
    ensures OneLine(s)
  {
    forall i | 0 <= i < |s| ensures LineChar(s[i]) { assert TokenChar(s[i]); }
  }

  lemma {:induction false} SpacedOneLine(words: seq<string>)
    requires AllWords(words)
    ensures OneLine(SpacedText(words))
  {
    if words != [] {
      WordsSplit(words);
      SpacedOneLine(words[1..]);
      WordOneLine(words[0]);
      OneLineConcat(words[0], SpacedText(words[1..]));
      OneLineConcat(" ", words[0] + SpacedText(words[1..]));
    }
  }

  lemma SpacedTail(words: seq<string>)
    requires words != [] && AllWords(words)
    ensures var text := SpacedText(words);
      text == " " + text[1..] && text[1..] != "" && Sanitize(text[1..]) == text[1..]
  {
    var text := SpacedText(words);
    SpacedOneLine(words);
    OneLineConcat(" ", text[1..]);
    SanitizeIdentity(text[1..]);
    WordsSplit(words);
  }

  /** The head of a line of words, and where the words start. */
  lemma SpacedLine(prefix: string, command: string, words: seq<string>) returns (end: nat)
    requires SafeToken(command) && ToUpper(command) == command
    requires prefix == "" || SafeToken(prefix)
    requires words != [] && AllWords(words)
    ensures var line := Command(prefix, command, SpacedText(words)[1..]);
      && end <= |line| && line[end..] == SpacedText(words)
      && ParseLine(line) == Parsed(prefix, command, ParseParams(line, end, []))
  {
    var text := SpacedText(words);
    SpacedTail(words);
    LineShape(prefix, command, text[1..]);
    end := |Head(prefix)| + |command|;
    ParseHead(Command(prefix, command, text[1..]), prefix, command, text, end);
  }

  lemma PlainIsSafe(words: seq<string>)
    requires AllWords(words) && NoLeadingColon(words)
    ensures AllSafe(words)
  {
    forall i | 0 <= i < |words| ensures SafeToken(words[i]) {
      assert Word(words[i]) && !LeadsColon(words[i]);
      WordIsSafe(words[i]);
    }
  }

  lemma PlainRead(line: string, pos: nat, words: seq<string>)
    requires pos <= |line| && line[pos..] == SpacedText(words)
    requires AllSafe(words) && |words| <= MAX_PARAMS
    ensures ParseParams(line, pos, []) == Some(words)
  {
    SpacedSplit(words, []);
    assert words + [] == words && [] + words == words;
    ParseWords(line, pos, [], words, "");
  }

  lemma FirstColon(words: seq<string>) returns (j: nat)
    requires !NoLeadingColon(words)
    ensures j < |words| && LeadsColon(words[j]) && NoLeadingColon(words[..j])
  {
    j := 0;
    while !LeadsColon(words[j])
      invariant j < |words| && NoLeadingColon(words[..j])
      invariant exists i :: j <= i < |words| && LeadsColon(words[i])
      decreases |words| - j
    {
      j := j + 1;
    }
  }

  lemma TextStarts(words: seq<string>)
    requires words != []
    ensures SpacedText(words) != "" && SpacedText(words)[0] == ' '
  {
  }

  lemma ColonAfterWords(line: string, pos: nat, plain: seq<string>, rest: seq<string>)
    requires pos <= |line| && line[pos..] == SpacedOnto(plain, SpacedText(rest))
    requires AllSafe(plain) && rest != [] && LeadsColon(rest[0]) && |plain| + |rest| <= MAX_PARAMS
    ensures ParseParams(line, pos, []) != Some(plain + rest)
  {
    var tail := SpacedText(rest);
    TextStarts(rest);
    TailHere(line, pos, plain, tail);
    ParseWords(line, pos, [], plain, tail);
    assert [] + plain == plain;
    ColonWordLost(line, |line| - |tail|, plain, rest);
  }

  lemma ColonLost(line: string, pos: nat, words: seq<string>)
    requires pos <= |line| && line[pos..] == SpacedText(words)
    requires AllWords(words) && !NoLeadingColon(words) && |words| <= MAX_PARAMS
    ensures ParseParams(line, pos, []) != Some(words)
  {
    var j := FirstColon(words);
    var plain, rest := words[..j], words[j..];
    assert words == plain + rest;
    SpacedSplit(plain, rest);
    forall i | 0 <= i < j ensures Word(plain[i]) { assert Word(words[i]); }
    PlainIsSafe(plain);
    ColonAfterWords(line, pos, plain, rest);
  }

  /** Parameters written as plain words survive the wire exactly when none
      begins with a colon: a word that does swallows the rest of the line. */
  lemma WordsSurviveTheWire(prefix: string, command: string, words: seq<string>)
    requires SafeToken(command) && ToUpper(command) == command
    requires prefix == "" || SafeToken(prefix)
    requires words != [] && AllWords(words) && |words| <= MAX_PARAMS
    ensures (ParseLine(Command(prefix, command, SpacedText(words)[1..]))
             == Some(Message(prefix, command, words))) <==> NoLeadingColon(words)
  {
    var line := Command(prefix, command, SpacedText(words)[1..]);
    var end := SpacedLine(prefix, command, words);
    if NoLeadingColon(words) {
      PlainIsSafe(words);
      PlainRead(line, end, words);
    } else {
      ColonLost(line, end, words);
    }
  }
}
