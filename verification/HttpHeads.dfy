/** A request head as printed is read as printed, or refused, and exactly when:
    method, target and header fields come back, whatever blanks surround a field's
    name and value and whatever the case of its name
    (apps/webserv/src/Http.cpp:186-228). */
module HttpHeads {
  import opened Strings
  import opened HttpText
  import opened Chunked
  import opened ChunkSizes
  import opened HttpPath
  import opened HttpRequest
  import opened HttpBodies

  /** A header field: all that stands before the colon, and after it. */
  datatype Field = Field(name: string, text: string) {
    function Line(): string { name + (":" + text) }

    /** The name it is kept under. */
    function Key(): string { ToLower(Trim(name)) }

    predicate Ok() {
      ':' !in name && '\r' !in name && '\n' !in name && '\r' !in text && '\n' !in text
    }
  }

  predicate FieldsOk(fields: seq<Field>) {
    forall i {:trigger fields[i]} :: 0 <= i < |fields| ==> fields[i].Ok()
  }

  /** Names are tokens, and no two are alike but for case. */
  predicate KeysOk(fields: seq<Field>) {
    && (forall i {:trigger fields[i]} :: 0 <= i < |fields| ==> ValidToken(fields[i].Key()))
    && forall i, j {:trigger fields[i], fields[j]} :: 0 <= i < j < |fields| ==> fields[i].Key() != fields[j].Key()
  }

  /** Each field on a line of its own. */
  function FieldText(fields: seq<Field>): string {
    if fields == [] then "" else CRLF + (fields[0].Line() + FieldText(fields[1..]))
  }

  function StartLine(verb: string, target: string, version: string): string {
    verb + (" " + (target + (" " + version)))
  }

  function HeadText(verb: string, target: string, version: string, fields: seq<Field>): string {
    StartLine(verb, target, version) + FieldText(fields)
  }

  /** The headers are the fields: lower-case names, trimmed values. */
  ghost predicate HoldsFields(headers: map<string, string>, fields: seq<Field>) {
    && (forall i {:trigger fields[i]} :: 0 <= i < |fields| ==>
          fields[i].Key() in headers && headers[fields[i].Key()] == Trim(fields[i].text))
    && forall key :: key in headers ==> exists i :: 0 <= i < |fields| && key == fields[i].Key()
  }

  // ---------------------------------------------------------------- one field

  lemma FieldRead(headers: map<string, string>, f: Field)
    requires f.Ok()
    ensures AddHeader(headers, f.Line())
         == if ValidToken(f.Key()) && f.Key() !in headers then Some(headers[f.Key() := Trim(f.text)]) else None
  {
    var line := f.Line();
    var n := |f.name|;
    forall i | 0 <= i < n ensures line[i] != ':' { assert line[i] == f.name[i]; }
    FindIs(line, ':', 0, n);
    assert line[..n] == f.name && line[n + 1..] == f.text;
  }

  lemma LineStripped(f: Field)
    requires f.Ok()
    ensures StripCr(f.Line()) == f.Line() && StripCr(f.Line() + "\r") == f.Line()
    ensures '\n' !in f.Line() && '\r' !in f.Line()
  {
  }

  // --------------------------------------------------------------- the lines

  /** The lines of the fields as getline hands them out, all but the last with a CR. */
  function LinesOf(fields: seq<Field>): seq<string> {
    if fields == [] then []
    else [fields[0].Line() + (if |fields| == 1 then "" else "\r")] + LinesOf(fields[1..])
  }

  lemma WholeLine(s: string)
    requires '\n' !in s
    ensures SplitFrom(s, '\n', 0) == [s]
  {
    FindIs(s, '\n', 0, |s|);
    SplitOnly(s, '\n', 0);
    assert s[0..] == s;
  }

  lemma OneCut(first: string, next: string, all: string)
    requires '\n' !in first && all == first + (CRLF + next)
    ensures SplitFrom(all, '\n', 0) == [first + "\r"] + SplitFrom(next, '\n', 0)
  {
    var line := first + "\r";
    assert all == line + (['\n'] + next);
    SplitJoined(line, next, '\n', all);
    WholeLine(line);
  }

  lemma OkTail(fields: seq<Field>)
    requires FieldsOk(fields) && fields != []
    ensures fields[0].Ok() && FieldsOk(fields[1..])
  {
    assert fields[0].Ok();
    forall i | 0 <= i < |fields[1..]| ensures fields[1..][i].Ok() { assert fields[i + 1].Ok(); }
  }

  lemma {:induction false} LinesCut(first: string, fields: seq<Field>) returns (lines: seq<string>)
    requires '\n' !in first && FieldsOk(fields)
    ensures lines == LinesOf(fields)
    ensures SplitFrom(first + FieldText(fields), '\n', 0) == [first + (if fields == [] then "" else "\r")] + lines
    decreases |fields|
  {
    if fields == [] {
      WholeLine(first);
      lines := [];
      assert first + "" == first;
    } else {
      OkTail(fields);
      var line := fields[0].Line();
      LineStripped(fields[0]);
      var more := LinesCut(line, fields[1..]);
      OneCut(first, line + FieldText(fields[1..]), first + FieldText(fields));
      lines := [line + (if |fields| == 1 then "" else "\r")] + more;
    }
  }

  lemma HeaderNext(headers: map<string, string>, f: Field, line: string, rest: seq<string>)
    requires f.Ok() && (line == f.Line() || line == f.Line() + "\r")
    ensures Headers(headers, [line] + rest)
         == if ValidToken(f.Key()) && f.Key() !in headers then Headers(headers[f.Key() := Trim(f.text)], rest) else None
  {
    LineStripped(f);
    FieldRead(headers, f);
    assert ([line] + rest)[1..] == rest;
  }

  /** The fields added to the headers read before them. */
  ghost predicate Adds(before: map<string, string>, fields: seq<Field>, after: map<string, string>) {
    && (forall key :: key in before ==> key in after && after[key] == before[key])
    && (forall i {:trigger fields[i]} :: 0 <= i < |fields| ==>
          fields[i].Key() in after && after[fields[i].Key()] == Trim(fields[i].text))
    && forall key :: key in after ==> key in before || exists i :: 0 <= i < |fields| && key == fields[i].Key()
  }

  lemma AddsBefore(before: map<string, string>, fields: seq<Field>, mid: map<string, string>,
                   after: map<string, string>)
    requires fields != [] && fields[0].Key() !in before
    requires mid == before[fields[0].Key() := Trim(fields[0].text)] && Adds(mid, fields[1..], after)
    ensures Adds(before, fields, after)
  {
    forall i | 0 <= i < |fields|
      ensures fields[i].Key() in after && after[fields[i].Key()] == Trim(fields[i].text)
    {
      if i > 0 { assert fields[i] == fields[1..][i - 1]; } else { assert fields[0].Key() in mid; }
    }
    forall key | key in after && key !in before
      ensures exists i :: 0 <= i < |fields| && key == fields[i].Key()
    {
      if key in mid {
        assert key == fields[0].Key();
      } else {
        var i :| 0 <= i < |fields[1..]| && key == fields[1..][i].Key();
        assert key == fields[i + 1].Key();
      }
    }
  }

  /** The names are fine, and new. */
  predicate KeysNew(before: map<string, string>, fields: seq<Field>) {
    KeysOk(fields) && forall i {:trigger fields[i]} :: 0 <= i < |fields| ==> fields[i].Key() !in before
  }

  lemma NewNext(before: map<string, string>, fields: seq<Field>, mid: map<string, string>)
    requires fields != [] && ValidToken(fields[0].Key()) && fields[0].Key() !in before
    requires mid == before[fields[0].Key() := Trim(fields[0].text)]
    ensures KeysNew(before, fields) <==> KeysNew(mid, fields[1..])
  {
    var rest := fields[1..];
    if KeysNew(before, fields) {
      forall i | 0 <= i < |rest| ensures ValidToken(rest[i].Key()) && rest[i].Key() !in mid {
        assert rest[i] == fields[i + 1];
      }
      forall i, j | 0 <= i < j < |rest| ensures rest[i].Key() != rest[j].Key() {
        assert rest[i] == fields[i + 1] && rest[j] == fields[j + 1];
      }
    }
    if KeysNew(mid, rest) {
      forall i | 0 <= i < |fields| ensures ValidToken(fields[i].Key()) && fields[i].Key() !in before {
        if i > 0 { assert fields[i] == rest[i - 1]; }
      }
      forall i, j | 0 <= i < j < |fields| ensures fields[i].Key() != fields[j].Key() {
        assert fields[j] == rest[j - 1];
        if i > 0 { assert fields[i] == rest[i - 1]; }
      }
    }
  }

  lemma {:induction false} FieldsRead(before: map<string, string>, fields: seq<Field>)
    returns (after: Option<map<string, string>>)
    requires FieldsOk(fields)
    ensures Headers(before, LinesOf(fields)) == after
    ensures if KeysNew(before, fields) then after.Some? && Adds(before, fields, after.value) else after == None
    decreases |fields|
  {
    if fields == [] {
      after := Some(before);
    } else {
      var f, rest := fields[0], fields[1..];
      OkTail(fields);
      HeaderNext(before, f, f.Line() + (if |fields| == 1 then "" else "\r"), LinesOf(rest));
      if ValidToken(f.Key()) && f.Key() !in before {
        var mid := before[f.Key() := Trim(f.text)];
        NewNext(before, fields, mid);
        after := FieldsRead(mid, rest);
        if after.Some? { AddsBefore(before, fields, mid, after.value); }
      } else {
        after := None;
      }
    }
  }

  // --------------------------------------------------------- the request line

  predicate NoSpace(s: string) { s != "" && forall i :: 0 <= i < |s| ==> !IsSpace(s[i]) }

  lemma WordEndIs(s: string, from: nat, at: nat)
    requires from <= at <= |s| && forall i :: from <= i < at ==> !IsSpace(s[i])
    requires at < |s| ==> IsSpace(s[at])
    ensures WordEnd(s, from) == at
    decreases at - from
  {
    if from < at { WordEndIs(s, from + 1, at); }
  }

  lemma OneWord(s: string, from: nat, start: nat, end: nat)
    requires from <= start < end <= |s| && SpaceEnd(s, from) == start && WordEnd(s, start) == end
    ensures Words(s, from) == [s[start..end]] + Words(s, end)
  {
  }

  lemma NextWord(s: string, from: nat, start: nat, end: nat, word: string, rest: string)
    requires from <= start <= |s| && s[start..] == word + rest && NoSpace(word) && end == start + |word|
    requires start == from || (start == from + 1 && s[from] == ' ')
    requires rest == "" || rest[0] == ' '
    ensures end <= |s| && s[end..] == rest
    ensures Words(s, from) == [word] + Words(s, end)
  {
    SuffixSplits(s, start, word, rest);
    forall i | start <= i < end ensures !IsSpace(s[i]) { assert s[i] == word[i - start]; }
    SpaceEndIs(s, from, start);
    assert end < |s| ==> s[end] == rest[0];
    WordEndIs(s, start, end);
    OneWord(s, from, start, end);
  }

  lemma NoMoreWords(s: string)
    ensures Words(s, |s|) == []
  {
  }

  lemma OneSpaceOn(s: string, from: nat, text: string)
    requires from <= |s| && s[from..] == " " + text
    ensures from + 1 <= |s| && s[from] == ' ' && s[from + 1..] == text
  {
    SuffixSplits(s, from, " ", text);
    assert s[from] == s[from..from + 1][0];
  }

  lemma LastWord(line: string, from: nat, word: string) returns (words: seq<string>)
    requires from <= |line| && line[from..] == " " + word && NoSpace(word)
    ensures words == Words(line, from) && words == [word]
  {
    OneSpaceOn(line, from, word);
    assert word == word + "";
    NextWord(line, from, from + 1, |line|, word, "");
    NoMoreWords(line);
    words := [word] + [];
  }

  lemma SpaceWord(line: string, from: nat, text: string, word: string, tail: string) returns (at: nat)
    requires from <= |line| && line[from..] == " " + text && text == word + tail
    requires NoSpace(word) && tail != "" && tail[0] == ' '
    ensures at == from + 1 + |word| <= |line| && line[at..] == tail
    ensures Words(line, from) == [word] + Words(line, at)
  {
    OneSpaceOn(line, from, text);
    at := from + 1 + |word|;
    NextWord(line, from, from + 1, at, word, tail);
  }

  lemma TwoWords(line: string, from: nat, word: string, last: string, tail: string) returns (words: seq<string>)
    requires from <= |line| && line[from..] == " " + (word + tail) && tail == " " + last
    requires NoSpace(word) && NoSpace(last)
    ensures words == Words(line, from) && words == [word, last]
  {
    var at := SpaceWord(line, from, word + tail, word, tail);
    var rest := LastWord(line, at, last);
    words := [word] + rest;
  }

  lemma RequestWords(verb: string, target: string, version: string, line: string) returns (words: seq<string>)
    requires NoSpace(verb) && NoSpace(target) && NoSpace(version) && line == StartLine(verb, target, version)
    ensures words == Words(line, 0) && words == [verb, target, version]
  {
    assert line[0..] == line;
    NextWord(line, 0, 0, |verb|, verb, " " + (target + (" " + version)));
    var rest := TwoWords(line, |verb|, target, version, " " + version);
    words := [verb] + rest;
  }

  // ----------------------------------------------------------- the whole head

  lemma {:induction false} LastLine(fields: seq<Field>)
    requires fields != []
    ensures LinesOf(fields) != [] && LinesOf(fields)[|LinesOf(fields)| - 1] != ""
    decreases |fields|
  {
    if |fields| > 1 { LastLine(fields[1..]); }
  }

  lemma StartStripped(verb: string, target: string, version: string)
    requires NoSpace(verb) && NoSpace(target) && NoSpace(version)
    ensures var start := StartLine(verb, target, version);
      start != "" && '\n' !in start && '\r' !in start && StripCr(start + "\r") == start && StripCr(start) == start
  {
    NoLineEnd(verb);
    NoLineEnd(target);
    NoLineEnd(version);
  }

  lemma NoLineEnd(s: string)
    requires NoSpace(s)
    ensures '\n' !in s && '\r' !in s
  {
    forall i | 0 <= i < |s| ensures s[i] != '\n' && s[i] != '\r' { assert !IsSpace(s[i]); }
  }

  lemma LinesRead(start: string, fields: seq<Field>)
    requires '\n' !in start && start != "" && FieldsOk(fields)
    ensures Lines(start + FieldText(fields)) == [start + (if fields == [] then "" else "\r")] + LinesOf(fields)
  {
    var lines := LinesCut(start, fields);
    if fields != [] { LastLine(fields); }
  }

  /** What a target is split into. */
  lemma TargetRead(verb: string, target: string, version: string, headers: map<string, string>, encoded: string,
                   query: string)
    requires SplitsTarget(target, encoded, query)
    ensures HeadOf(verb, target, version, headers)
         == if "host" in headers && Path(encoded).Some?
            then GoodHead(verb, target, Path(encoded).value, query, version, headers) else BadHead
  {
    var mark := |encoded|;
    forall i | 0 <= i < mark ensures target[i] != '?' { assert target[i] == encoded[i]; }
    assert mark < |target| ==> target[mark] == '?' && target[mark + 1..] == query;
    FindIs(target, '?', 0, mark);
    assert target[..mark] == encoded;
  }

  predicate HasHost(fields: seq<Field>) { exists i :: 0 <= i < |fields| && fields[i].Key() == "host" }

  /** The start line and the lines of the fields. */
  lemma PartsRead(verb: string, target: string, version: string, fields: seq<Field>) returns (start: string)
    requires NoSpace(verb) && NoSpace(target) && NoSpace(version) && FieldsOk(fields)
    ensures start == StartLine(verb, target, version)
    ensures Lines(start + FieldText(fields)) == [start + (if fields == [] then "" else "\r")] + LinesOf(fields)
    ensures StripCr(start + (if fields == [] then "" else "\r")) == start
    ensures Words(start, 0) == [verb, target, version]
  {
    start := StartLine(verb, target, version);
    StartStripped(verb, target, version);
    LinesRead(start, fields);
    var words := RequestWords(verb, target, version, start);
  }

  lemma FieldsHeld(fields: seq<Field>) returns (headers: Option<map<string, string>>)
    requires FieldsOk(fields)
    ensures Headers(map[], LinesOf(fields)) == headers
    ensures if KeysOk(fields) then headers.Some? && HoldsFields(headers.value, fields) else headers == None
    ensures headers.Some? ==> ("host" in headers.value <==> HasHost(fields))
  {
    headers := FieldsRead(map[], fields);
    assert KeysNew(map[], fields) <==> KeysOk(fields);
    if headers.Some? {
      assert HoldsFields(headers.value, fields);
      HostHeld(headers.value, fields);
    }
  }

  lemma HostHeld(headers: map<string, string>, fields: seq<Field>)
    requires HoldsFields(headers, fields)
    ensures "host" in headers <==> HasHost(fields)
  {
    if HasHost(fields) {
      var i :| 0 <= i < |fields| && fields[i].Key() == "host";
      assert fields[i].Key() in headers;
    }
  }

  /** What is required of a head: a token for the method, the version, a target
      that begins with a slash and has a path, names that are tokens, none twice,
      and a Host among them. */
  predicate Proper(verb: string, target: string, version: string, fields: seq<Field>, encoded: string) {
    && ValidToken(verb) && version == "HTTP/1.1" && target != "" && target[0] == '/' && Path(encoded).Some?
    && KeysOk(fields) && HasHost(fields)
  }

  lemma HeadAssembled(text: string, start: string, end: string, rest: seq<string>, verb: string, target: string,
                      version: string)
    requires Lines(text) == [start + end] + rest && StripCr(start + end) == start
    requires Words(start, 0) == [verb, target, version] && target != ""
    ensures ParseHead(text)
         == if !ValidToken(verb) then BadHead
            else if version != "HTTP/1.1" then OtherVersion
            else if target[0] != '/' || Headers(map[], rest) == None then BadHead
            else HeadOf(verb, target, version, Headers(map[], rest).value)
  {
    assert ([start + end] + rest)[1..] == rest;
  }

  lemma HeadPieces(verb: string, target: string, version: string, fields: seq<Field>)
    returns (headers: Option<map<string, string>>)
    requires NoSpace(verb) && NoSpace(target) && NoSpace(version) && FieldsOk(fields)
    ensures if KeysOk(fields) then headers.Some? && HoldsFields(headers.value, fields) else headers == None
    ensures headers.Some? ==> ("host" in headers.value <==> HasHost(fields))
    ensures ParseHead(HeadText(verb, target, version, fields))
         == if !ValidToken(verb) then BadHead
            else if version != "HTTP/1.1" then OtherVersion
            else if target[0] != '/' || headers == None then BadHead
            else HeadOf(verb, target, version, headers.value)
  {
    var start := PartsRead(verb, target, version, fields);
    headers := FieldsHeld(fields);
    var end := if fields == [] then "" else "\r";
    HeadAssembled(HeadText(verb, target, version, fields), start, end, LinesOf(fields), verb, target, version);
  }

  /** Printed, then read: the same method, target, path, query and fields if the
      head is proper; refused for its version only when the method is a token;
      refused as malformed otherwise. */
  lemma HeadExactly(verb: string, target: string, version: string, fields: seq<Field>, encoded: string, query: string)
    requires NoSpace(verb) && NoSpace(target) && NoSpace(version) && FieldsOk(fields)
    requires SplitsTarget(target, encoded, query)
    ensures var h := ParseHead(HeadText(verb, target, version, fields));
      if Proper(verb, target, version, fields, encoded) then
        && h.GoodHead? && h.verb == verb && h.target == target && h.version == version
        && h.path == Path(encoded).value && h.query == query && HoldsFields(h.headers, fields)
      else if ValidToken(verb) && version != "HTTP/1.1" then h.OtherVersion?
      else h.BadHead?
  {
    var headers := HeadPieces(verb, target, version, fields);
    if headers.Some? { TargetRead(verb, target, version, headers.value, encoded, query); }
  }

  // ------------------------------------------------------ where the head ends

  lemma SkipLine(raw: string, pos: nat, line: string, more: string)
    requires pos <= |raw| && raw[pos..] == line + more && '\r' !in line
    ensures pos + |line| <= |raw| && raw[pos + |line|..] == more
    ensures FindBlankLine(raw, pos) == FindBlankLine(raw, pos + |line|)
  {
    SuffixSplits(raw, pos, line, more);
    var at := FindBlankLine(raw, pos + |line|);
    forall i {:trigger BlankLine(raw, i)} | pos <= i < at ensures !BlankLine(raw, i) {
      if i < pos + |line| { assert raw[i] == line[i - pos]; }
    }
    FindBlankLineIs(raw, pos, at);
  }

  lemma SkipLineEnd(raw: string, pos: nat, more: string)
    requires pos <= |raw| && raw[pos..] == CRLF + more && more != "" && more[0] != '\r'
    ensures pos + 2 <= |raw| && raw[pos + 2..] == more
    ensures FindBlankLine(raw, pos) == FindBlankLine(raw, pos + 2)
  {
    SuffixSplits(raw, pos, CRLF, more);
    assert raw[pos + 1] == raw[pos..pos + 2][1] && raw[pos + 2] == more[0];
    var at := FindBlankLine(raw, pos + 2);
    FindBlankLineIs(raw, pos, at);
  }

  lemma BlankHere(raw: string, pos: nat, more: string)
    requires pos <= |raw| && raw[pos..] == CRLF + (CRLF + more)
    ensures FindBlankLine(raw, pos) == pos && pos + 4 <= |raw| && raw[pos + 4..] == more
  {
    SuffixSplits(raw, pos, CRLF, CRLF + more);
    SuffixSplits(raw, pos + 2, CRLF, more);
    assert raw[pos] == raw[pos..pos + 2][0] && raw[pos + 1] == raw[pos..pos + 2][1];
    assert raw[pos + 2] == raw[pos + 2..pos + 4][0] && raw[pos + 3] == raw[pos + 2..pos + 4][1];
    assert BlankLine(raw, pos);
  }

  /** A line end, a line that is not empty, and what follows. */
  lemma SkipField(raw: string, pos: nat, line: string, more: string)
    requires pos <= |raw| && raw[pos..] == CRLF + (line + more) && line != "" && '\r' !in line
    ensures var at := pos + 2 + |line|;
      at <= |raw| && raw[at..] == more && FindBlankLine(raw, pos) == FindBlankLine(raw, at)
  {
    assert line[0] in line;
    SkipLineEnd(raw, pos, line + more);
    SkipLine(raw, pos + 2, line, more);
  }

  lemma FieldTextIs(fields: seq<Field>)
    requires fields != []
    ensures FieldText(fields) == CRLF + (fields[0].Line() + FieldText(fields[1..]))
  {
  }

  lemma FieldRegrouped(line: string, text: string, blank: string)
    ensures (CRLF + (line + text)) + blank == CRLF + (line + (text + blank))
  {
  }

  /** `blank` is the blank line and all that follows. */
  lemma {:induction false} FieldsEnd(raw: string, pos: nat, fields: seq<Field>, text: string, blank: string,
                                     more: string)
    requires FieldsOk(fields) && text == FieldText(fields) && blank == CRLF + (CRLF + more)
    requires pos <= |raw| && raw[pos..] == text + blank
    ensures FindBlankLine(raw, pos) == pos + |text|
    decreases |fields|
  {
    if fields == [] {
      assert text + blank == blank;
      BlankHere(raw, pos, more);
    } else {
      OkTail(fields);
      LineStripped(fields[0]);
      FieldTextIs(fields);
      var line, rest := fields[0].Line(), FieldText(fields[1..]);
      FieldRegrouped(line, rest, blank);
      SkipField(raw, pos, line, rest + blank);
      FieldsEnd(raw, pos + 2 + |line|, fields[1..], rest, blank, more);
    }
  }

  lemma InThree(raw: string, a: string, b: string, c: string)
    requires raw == (a + b) + c
    ensures raw[0..] == a + (b + c) && raw[..|a| + |b|] == a + b
  {
  }

  lemma EndsAfter(raw: string, start: string, middle: string, fields: seq<Field>, payload: string)
    requires '\r' !in start && FieldsOk(fields) && middle == FieldText(fields)
    requires raw == (start + middle) + (CRLF + (CRLF + payload))
    ensures FindBlankLine(raw, 0) == |start + middle|
  {
    var blank := CRLF + (CRLF + payload);
    InThree(raw, start, middle, blank);
    SkipLine(raw, 0, start, middle + blank);
    FieldsEnd(raw, |start|, fields, middle, blank, payload);
  }

  lemma AfterBlank(raw: string, head: string, payload: string)
    requires raw == head + (CRLF + (CRLF + payload))
    ensures |head| + 4 <= |raw| && raw[..|head|] == head && raw[|head| + 4..] == payload
  {
  }

  /** The head ends where it was printed to end. */
  lemma HeadEnds(verb: string, target: string, version: string, fields: seq<Field>, payload: string, raw: string)
    requires NoSpace(verb) && NoSpace(target) && NoSpace(version) && FieldsOk(fields)
    requires raw == HeadText(verb, target, version, fields) + (CRLF + (CRLF + payload))
    ensures var end := FindBlankLine(raw, 0);
      end < |raw| && raw[..end] == HeadText(verb, target, version, fields) && raw[end + 4..] == payload
  {
    StartStripped(verb, target, version);
    EndsAfter(raw, StartLine(verb, target, version), FieldText(fields), fields, payload);
    AfterBlank(raw, HeadText(verb, target, version, fields), payload);
  }

  /** A request as printed. A proper head is read as printed, and its fields and
      its payload decide; for another version the answer is that it is not
      supported, for anything else that the request is bad. */
  lemma PrintedIsRead(verb: string, target: string, version: string, fields: seq<Field>, payload: string, maxBody: nat,
                      encoded: string, query: string) returns (h: Head)
    requires NoSpace(verb) && NoSpace(target) && NoSpace(version) && FieldsOk(fields)
    requires SplitsTarget(target, encoded, query)
    requires |HeadText(verb, target, version, fields) + (CRLF + (CRLF + payload))| <= TEXT_MAX
    ensures var result := Parse(HeadText(verb, target, version, fields) + (CRLF + (CRLF + payload)), maxBody);
      if Proper(verb, target, version, fields, encoded) then
        && h.GoodHead? && h.verb == verb && h.target == target && h.version == version
        && h.path == Path(encoded).value && h.query == query && HoldsFields(h.headers, fields)
        && BodyDecided(h, payload, maxBody, result)
      else if ValidToken(verb) && version != "HTTP/1.1" then result.VersionNotSupported?
      else result.Bad?
  {
    var raw := HeadText(verb, target, version, fields) + (CRLF + (CRLF + payload));
    HeadEnds(verb, target, version, fields, payload, raw);
    HeadExactly(verb, target, version, fields, encoded, query);
    h := ParseHead(HeadText(verb, target, version, fields));
    ParseDecided(raw, maxBody);
  }
}
