/** Decoding and normalising the path of a request target (decodePath in
    apps/webserv/src/Http.cpp; percent-encoding is section 2.1 of RFC 3986). */
module HttpPath {
  import opened Strings
  import opened Chunked

  /** The largest unsigned int. */
  const UINT_MAX: nat := 0xFFFF_FFFF

  // ------------------------------------------------------------- unescaping

  /** The byte the two characters after a '%' stand for, if they are accepted:
      they go through the same stream extractor as chunk sizes. */
  function EscapeByte(text: string): Option<char>
    requires |text| == 2
  {
    var value := HexField(text, UINT_MAX);
    if value == None || value.value < 0x20 || value.value == 0x7f then None
    else Some((value.value % 256) as char)
  }

  predicate PlainByte(c: char) { c >= ' ' && c != '\U{7F}' && c != '\\' }

  function Prepend(c: char, rest: Option<string>): Option<string> {
    if rest == None then None else Some([c] + rest.value)
  }

  function UnescapeFrom(input: string, i: nat): Option<string>
    requires i <= |input|
    decreases |input| - i
  {
    if i == |input| then Some("")
    else if input[i] == '%' then
      if i + 2 >= |input| then None
      else
        var byte := EscapeByte(input[i + 1..i + 3]);
        if byte == None then None else Prepend(byte.value, UnescapeFrom(input, i + 3))
    else if !PlainByte(input[i]) then None
    else Prepend(input[i], UnescapeFrom(input, i + 1))
  }

  // ------------------------------------------------------------ normalising

  /** What follows the first slash, cut at the slashes. */
  function Segments(path: string): seq<string> {
    if path == "" then [] else SplitFrom(path, '/', 1)
  }

  function Appended(output: string, segment: string): string {
    if segment == "" || segment == "." then output
    else (if |output| > 1 then output + "/" else output) + segment
  }

  function Walk(output: string, segments: seq<string>): Option<string>
    decreases |segments|
  {
    if segments == [] then Some(output)
    else if segments[0] == ".." then None
    else Walk(Appended(output, segments[0]), segments[1..])
  }

  /** A trailing slash is kept, once. */
  function Slashed(decoded: string, output: string): string {
    if |decoded| > 1 && decoded[|decoded| - 1] == '/' && output != "" && output[|output| - 1] != '/'
    then output + "/" else output
  }

  function Normalize(decoded: string): Option<string> {
    var output := Walk("/", Segments(decoded));
    if output == None then None else Some(Slashed(decoded, output.value))
  }

  function Path(input: string): Option<string> {
    var decoded := UnescapeFrom(input, 0);
    if decoded == None then None else Normalize(decoded.value)
  }

  method DecodePath(input: string) returns (path: Option<string>)
    ensures path == Path(input)
  {
    var decoded := Unescape(input);
    if decoded == None {
      return None;
    }
    path := NormalizePath(decoded.value);
  }

  function Onto(decoded: string, rest: Option<string>): Option<string> {
    if rest == None then None else Some(decoded + rest.value)
  }

  lemma OntoNothing(rest: Option<string>)
    ensures Onto("", rest) == rest
  {
    if rest.Some? { assert "" + rest.value == rest.value; }
  }

  lemma OntoNext(decoded: string, c: char, rest: Option<string>)
    ensures Onto(decoded + [c], rest) == Onto(decoded, Prepend(c, rest))
  {
    if rest.Some? { assert decoded + [c] + rest.value == decoded + ([c] + rest.value); }
  }

  method Unescape(input: string) returns (result: Option<string>)
    ensures result == UnescapeFrom(input, 0)
  {
    var decoded := "";
    var i := 0;
    OntoNothing(UnescapeFrom(input, 0));
    while i < |input|
      invariant i <= |input|
      invariant Onto(decoded, UnescapeFrom(input, i)) == UnescapeFrom(input, 0)
    {
      if input[i] == '%' {
        if i + 2 >= |input| {
          return None;
        }
        var byte := EscapeByte(input[i + 1..i + 3]);
        if byte == None {
          return None;
        }
        OntoNext(decoded, byte.value, UnescapeFrom(input, i + 3));
        decoded := decoded + [byte.value];
        i := i + 3;
      } else {
        if !PlainByte(input[i]) {
          return None;
        }
        OntoNext(decoded, input[i], UnescapeFrom(input, i + 1));
        decoded := decoded + [input[i]];
        i := i + 1;
      }
    }
    assert decoded + "" == decoded;
    return Some(decoded);
  }

  /** What is still to come once the segments before `position` are walked. */
  function Remaining(decoded: string, position: nat, output: string): Option<string> {
    if position > |decoded| then Some(output) else Walk(output, SplitFrom(decoded, '/', position))
  }

  lemma RemainingStep(decoded: string, position: nat, output: string)
    requires position <= |decoded|
    ensures var slash := Find(decoded, '/', position);
      var segment := decoded[position..slash];
      Remaining(decoded, position, output)
      == if segment == ".." then None else Remaining(decoded, slash + 1, Appended(output, segment))
  {
    var slash := Find(decoded, '/', position);
    var rest := SplitFrom(decoded, '/', position);
    if slash == |decoded| {
      assert decoded[position..slash] == decoded[position..];
      var last := decoded[position..];
      assert rest == [last] && rest[1..] == [];
      assert Walk(Appended(output, last), []) == Some(Appended(output, last));
    } else {
      assert rest[1..] == SplitFrom(decoded, '/', slash + 1);
    }
  }

  method NormalizePath(decoded: string) returns (path: Option<string>)
    ensures path == Normalize(decoded)
  {
    var output := "/";
    var position := 1;
    while position <= |decoded|
      invariant 1 <= position
      invariant Walk("/", Segments(decoded)) == Remaining(decoded, position, output)
      decreases |decoded| + 1 - position
    {
      RemainingStep(decoded, position, output);
      var slash := Find(decoded, '/', position);
      var segment := decoded[position..slash];
      if segment == ".." {
        return None;
      }
      output := Appended(output, segment);
      position := slash + 1;
    }
    return Some(Slashed(decoded, output));
  }

  // ------------------------------------------------------------ normal form

  /** A leading slash, no "." or ".." segment, and no empty one but for one
      trailing slash. */
  predicate SegmentsOk(segments: seq<string>) {
    forall i {:trigger segments[i]} :: 0 <= i < |segments| ==>
      segments[i] != "." && segments[i] != ".." && (segments[i] == "" ==> i == |segments| - 1)
  }

  predicate NormalPath(path: string) {
    path != "" && path[0] == '/' && SegmentsOk(Segments(path))
  }

  /** The segments that name something. */
  function Kept(segments: seq<string>): seq<string> {
    if segments == [] then []
    else (if segments[0] == "" || segments[0] == "." then [] else [segments[0]]) + Kept(segments[1..])
  }

  /** Slash-free, non-empty, not a dot. */
  predicate Name(s: string) { s != "" && s != "." && s != ".." && '/' !in s }

  predicate Names(segments: seq<string>) {
    forall i {:trigger Name(segments[i])} :: 0 <= i < |segments| ==> Name(segments[i])
  }

  lemma NamesTail(names: seq<string>)
    requires Names(names) && names != []
    ensures Name(names[0]) && Names(names[1..])
  {
    assert Name(names[0]);
    forall i | 0 <= i < |names[1..]| ensures Name(names[1..][i]) { assert Name(names[i + 1]); }
  }

  function Slashes(names: seq<string>): string {
    if names == [] then "" else "/" + (names[0] + Slashes(names[1..]))
  }

  lemma {:induction false} SlashesAppend(a: seq<string>, b: seq<string>)
    ensures Slashes(a + b) == Slashes(a) + Slashes(b)
  {
    if a == [] {
      assert a + b == b;
    } else {
      assert (a + b)[1..] == a[1..] + b;
      SlashesAppend(a[1..], b);
      SlashAssoc(a[0], Slashes(a[1..]), Slashes(b));
    }
  }

  lemma SlashAssoc(x: string, y: string, z: string)
    ensures "/" + (x + (y + z)) == ("/" + (x + y)) + z
  {
  }

  /** "/" for none, otherwise each name after a slash. */
  function Rooted(names: seq<string>): string {
    if names == [] then "/" else Slashes(names)
  }

  lemma RootedAppended(names: seq<string>, segment: string)
    requires Names(names)
    ensures Appended(Rooted(names), segment)
         == Rooted(names + (if segment == "" || segment == "." then [] else [segment]))
  {
    if segment == "" || segment == "." {
      assert names + [] == names;
    } else {
      SlashesAppend(names, [segment]);
      assert Slashes([segment]) == "/" + (segment + "");
      assert names != [] ==> Name(names[0]);
      if names != [] { assert Slashes(names) + "/" + segment == Slashes(names) + ("/" + (segment + "")); }
    }
  }

  lemma NamesAppend(a: seq<string>, b: seq<string>)
    requires Names(a) && Names(b)
    ensures Names(a + b)
  {
    forall i | 0 <= i < |a + b| ensures Name((a + b)[i]) {
      if i < |a| { assert Name(a[i]); } else { assert Name(b[i - |a|]); }
    }
  }

  predicate NoSlash(segments: seq<string>) {
    forall i {:trigger segments[i]} :: 0 <= i < |segments| ==> '/' !in segments[i]
  }

  function FirstKept(segment: string): seq<string> {
    if segment == "" || segment == "." then [] else [segment]
  }

  lemma NoSlashTail(segments: seq<string>)
    requires NoSlash(segments) && segments != []
    ensures NoSlash(segments[1..])
    ensures segments[0] != ".." ==> Names(FirstKept(segments[0]))
  {
    assert '/' !in segments[0];
  }

  /** The walk keeps the names, in order, unless a ".." stops it. */
  lemma {:induction false} WalkKeeps(names: seq<string>, segments: seq<string>)
    requires Names(names) && NoSlash(segments)
    ensures Walk(Rooted(names), segments)
         == if ".." in segments then None else Some(Rooted(names + Kept(segments)))
    ensures ".." !in segments ==> Names(names + Kept(segments))
    decreases |segments|
  {
    if segments == [] {
      assert names + [] == names;
    } else if segments[0] != ".." {
      var kept := FirstKept(segments[0]);
      RootedAppended(names, segments[0]);
      NoSlashTail(segments);
      NamesAppend(names, kept);
      WalkKeeps(names + kept, segments[1..]);
      assert ".." in segments <==> ".." in segments[1..];
      Assoc(names, kept, Kept(segments[1..]));
    }
  }

  lemma SegmentsNoSlash(path: string)
    ensures NoSlash(Segments(path))
  {
    if path != "" {
      forall i | 0 <= i < |Segments(path)| ensures '/' !in Segments(path)[i] {
        SplitFromFields(path, '/', 1, Segments(path)[i]);
      }
    }
  }

  /** What normalising does, in one line: the names in order behind slashes, a
      trailing slash if there was one, and no path at all if a ".." occurs. */
  lemma NormalizeMeans(decoded: string)
    ensures ".." in Segments(decoded) ==> Normalize(decoded) == None
    ensures ".." !in Segments(decoded) ==>
      var names := Kept(Segments(decoded));
      Names(names) && Normalize(decoded) == Some(Slashed(decoded, Rooted(names)))
  {
    SegmentsNoSlash(decoded);
    assert Rooted([]) == "/";
    WalkKeeps([], Segments(decoded));
    assert [] + Kept(Segments(decoded)) == Kept(Segments(decoded));
  }

  // --------------------------------------------- segments of a normal path

  lemma NameHere(path: string, at: nat, name: string, rest: string)
    requires at <= |path| && path[at..] == name + rest && '/' !in name
    requires rest == "" || rest[0] == '/'
    ensures Find(path, '/', at) == at + |name| <= |path|
    ensures path[at..at + |name|] == name && path[at + |name|..] == rest
  {
    assert |path| - at == |name| + |rest|;
    assert path[at..at + |name|] == path[at..][..|name|] == name;
    assert path[at + |name|..] == path[at..][|name|..] == rest;
    forall i | at <= i < at + |name| ensures path[i] != '/' { assert path[i] == name[i - at]; }
    if rest != "" { assert path[at + |name|] == path[at + |name|..][0]; }
    FindIs(path, '/', at, at + |name|);
  }

  /** The names behind slashes, then perhaps one more slash. */
  function Ending(names: seq<string>, trailing: bool): string {
    if names == [] then (if trailing then "/" else "") else "/" + (names[0] + Ending(names[1..], trailing))
  }

  lemma {:induction false} EndingIs(names: seq<string>, trailing: bool)
    ensures Ending(names, trailing) == Slashes(names) + (if trailing then "/" else "")
  {
    if names != [] {
      EndingIs(names[1..], trailing);
      var end := if trailing then "/" else "";
      assert "/" + (names[0] + (Slashes(names[1..]) + end)) == "/" + (names[0] + Slashes(names[1..])) + end;
    }
  }

  lemma SplitStep(path: string, from: nat, name: string, next: nat, tail: seq<string>)
    requires from <= |path| && Find(path, '/', from) == next && path[from..next] == name
    requires if next == |path| then tail == [] else SplitFrom(path, '/', next + 1) == tail
    ensures SplitFrom(path, '/', from) == [name] + tail
  {
    if next == |path| { assert path[from..next] == path[from..]; }
  }

  lemma SplitLast(path: string, at: nat, trailing: bool)
    requires at <= |path| && path[at..] == if trailing then "/" else ""
    ensures if at == |path| then !trailing else trailing && SplitFrom(path, '/', at + 1) == [""]
  {
    assert |path[at..]| == |path| - at;
    if trailing { assert path[at + 1..] == ""; }
  }

  lemma FirstName(path: string, at: nat, name: string, rest: string)
    requires at < |path| && path[at..] == "/" + (name + rest) && '/' !in name
    requires rest == "" || rest[0] == '/'
    ensures path[at] == '/' && Find(path, '/', at + 1) == at + 1 + |name| <= |path|
    ensures path[at + 1..at + 1 + |name|] == name && path[at + 1 + |name|..] == rest
  {
    assert path[at] == path[at..][0] && path[at + 1..] == path[at..][1..] == name + rest;
    NameHere(path, at + 1, name, rest);
  }

  lemma {:induction false} SplitSlashes(path: string, at: nat, names: seq<string>, trailing: bool)
    requires at < |path| && Names(names) && names != []
    requires path[at..] == Ending(names, trailing)
    ensures path[at] == '/' && SplitFrom(path, '/', at + 1) == names + (if trailing then [""] else [])
    decreases |names|
  {
    NamesTail(names);
    FirstName(path, at, names[0], Ending(names[1..], trailing));
    var next := at + 1 + |names[0]|;
    var tail := names[1..] + (if trailing then [""] else []);
    if |names| == 1 {
      SplitLast(path, next, trailing);
      NothingAfter(names, if trailing then [""] else []);
    } else {
      SplitSlashes(path, next, names[1..], trailing);
    }
    SplitStep(path, at + 1, names[0], next, tail);
    FirstAndRest(names, if trailing then [""] else []);
  }

  lemma NothingAfter(names: seq<string>, end: seq<string>)
    requires |names| == 1
    ensures names[1..] + end == end
  {
  }

  lemma FirstAndRest(names: seq<string>, end: seq<string>)
    requires names != []
    ensures [names[0]] + (names[1..] + end) == names + end
  {
  }

  lemma NamesOk(names: seq<string>, trailing: bool)
    requires Names(names)
    ensures SegmentsOk(names + (if trailing then [""] else []))
  {
    var all := names + (if trailing then [""] else []);
    forall i | 0 <= i < |all|
      ensures all[i] != "." && all[i] != ".." && (all[i] == "" ==> i == |all| - 1)
    {
      if i < |names| { assert Name(names[i]); }
    }
  }

  lemma RootNormal()
    ensures NormalPath("/") && Segments("/") == [""] && Kept([""]) == []
  {
    assert SplitFrom("/", '/', 1) == ["/"[1..]];
  }

  lemma RootedSegments(names: seq<string>, trailing: bool, path: string)
    requires Names(names) && names != [] && path == Slashes(names) + (if trailing then "/" else "")
    ensures path != "" && path[0] == '/' && Segments(path) == names + (if trailing then [""] else [])
  {
    EndingIs(names, trailing);
    assert path[0..] == path;
    SplitSlashes(path, 0, names, trailing);
  }

  lemma RootedNormal(names: seq<string>, trailing: bool)
    requires Names(names) && names != []
    ensures var path := Slashes(names) + (if trailing then "/" else "");
      NormalPath(path) && Segments(path) == names + (if trailing then [""] else [])
  {
    var path := Slashes(names) + (if trailing then "/" else "");
    RootedSegments(names, trailing, path);
    NamesOk(names, trailing);
  }

  lemma LastNotSlash(names: seq<string>)
    requires Names(names) && names != []
    ensures Slashes(names) != "" && Slashes(names)[|Slashes(names)| - 1] != '/'
  {
    var last := names[|names| - 1];
    assert Name(last);
    assert names == names[..|names| - 1] + [last];
    SlashesAppend(names[..|names| - 1], [last]);
    assert Slashes([last]) == "/" + (last + "");
    var s := Slashes(names);
    assert s[|s| - 1] == last[|last| - 1];
  }

  predicate EndsInSlash(path: string) {
    |path| > 1 && path[|path| - 1] == '/'
  }

  lemma SlashedIs(decoded: string, names: seq<string>)
    requires Names(names)
    ensures Slashed(decoded, Rooted(names))
         == if names == [] then "/" else Slashes(names) + (if EndsInSlash(decoded) then "/" else "")
  {
    if names != [] { LastNotSlash(names); }
  }

  /** Every path that comes out is in normal form. */
  lemma NormalizedIsNormal(decoded: string)
    requires Normalize(decoded).Some?
    ensures NormalPath(Normalize(decoded).value)
  {
    NormalizeMeans(decoded);
    var names := Kept(Segments(decoded));
    SlashedIs(decoded, names);
    RootNormal();
    if names != [] { RootedNormal(names, EndsInSlash(decoded)); }
  }

  lemma {:induction false} KeptAll(segments: seq<string>)
    requires Names(segments)
    ensures Kept(segments) == segments && Kept(segments + [""]) == segments
  {
    if segments == [] {
      assert segments + [""] == [""];
      assert Kept([""]) == [];
    } else {
      NamesTail(segments);
      KeptAll(segments[1..]);
      assert (segments + [""])[1..] == segments[1..] + [""];
      assert [segments[0]] + segments[1..] == segments;
    }
  }

  lemma RootOnly(path: string)
    requires path != "" && path[0] == '/' && Segments(path) == [""]
    ensures path == "/"
  {
    SplitFromJoins(path, '/', 1);
  }

  /** A normal path other than "/" is its names, with or without a trailing slash. */
  lemma NormalShape(path: string) returns (names: seq<string>, trailing: bool)
    requires NormalPath(path) && path != "/"
    ensures Names(names) && names != []
    ensures path == Slashes(names) + (if trailing then "/" else "")
  {
    var segs := Segments(path);
    SegmentsNoSlash(path);
    SplitFromJoins(path, '/', 1);
    trailing := segs[|segs| - 1] == "";
    names := if trailing then segs[..|segs| - 1] else segs;
    forall i | 0 <= i < |names| ensures Name(names[i]) { assert names[i] == segs[i]; }
    assert segs == names + (if trailing then [""] else []);
    if names == [] {
      RootOnly(path);
    } else {
      JoinIsSlashes(names, trailing);
      assert path == "/" + path[1..];
    }
  }

  lemma {:induction false} JoinIsSlashes(names: seq<string>, trailing: bool)
    requires names != []
    ensures "/" + JoinWith(names + (if trailing then [""] else []), "/")
         == Slashes(names) + (if trailing then "/" else "")
    decreases |names|
  {
    var end := if trailing then [""] else [];
    if |names| == 1 {
      assert names[1..] == [];
      assert names == [names[0]];
      if trailing {
        assert (names + end)[1..] == [""];
        assert JoinWith([""], "/") == "";
        assert JoinWith(names + end, "/") == names[0] + "/" + "";
      } else {
        assert names + end == names;
      }
    } else {
      JoinIsSlashes(names[1..], trailing);
      assert (names + end)[1..] == names[1..] + end;
      var tail := JoinWith(names[1..] + end, "/");
      assert JoinWith(names + end, "/") == names[0] + "/" + tail;
      assert "/" + (names[0] + "/" + tail) == "/" + (names[0] + ("/" + tail));
    }
  }

  lemma RootIsFixed()
    ensures Normalize("/") == Some("/")
  {
    NormalizeMeans("/");
    RootNormal();
    SlashedIs("/", []);
  }

  lemma NamedPathIsFixed(path: string, names: seq<string>, trailing: bool)
    requires Names(names) && names != [] && path == Slashes(names) + (if trailing then "/" else "")
    ensures Normalize(path) == Some(path)
  {
    NormalizeMeans(path);
    RootedNormal(names, trailing);
    KeptAll(names);
    assert names + [] == names;
    SlashedIs(path, names);
    LastNotSlash(names);
  }

  /** The normal paths are exactly the fixed points: normalising again changes
      nothing, and a path that normalising does not change is normal. */
  lemma NormalIsFixedPoint(path: string)
    requires path != "" && path[0] == '/'
    ensures NormalPath(path) <==> Normalize(path) == Some(path)
  {
    if Normalize(path) == Some(path) { NormalizedIsNormal(path); }
    if NormalPath(path) {
      if path == "/" {
        RootIsFixed();
      } else {
        var names, trailing := NormalShape(path);
        NamedPathIsFixed(path, names, trailing);
      }
    }
  }

  /** Every accepted path is normal and normalises to itself. */
  lemma AcceptedPathNormal(input: string)
    requires Path(input).Some?
    ensures NormalPath(Path(input).value)
    ensures Normalize(Path(input).value) == Path(input)
  {
    NormalizedIsNormal(UnescapeFrom(input, 0).value);
    NormalIsFixedPoint(Path(input).value);
  }

  // ---------------------------------------------------------------- escapes

  predicate HexPair(text: string)
    requires |text| == 2
  {
    IsHex(text[0]) && IsHex(text[1])
  }

  lemma TwoDigits(text: string)
    requires |text| == 2 && AllHex(text)
    ensures HexValue(text) == 16 * HexDigit(text[0]) + HexDigit(text[1])
  {
    var one := text[..1];
    assert one[..0] == "" && HexValue("") == 0;
    assert HexValue(one) == HexDigit(text[0]);
  }

  lemma OneDigit(text: string, i: nat)
    requires i < |text| && IsHex(text[i])
    ensures AllHex(text[i..i + 1]) && HexValue(text[i..i + 1]) == HexDigit(text[i])
  {
    assert text[i..i + 1][..0] == "" && HexValue("") == 0;
  }

  lemma HexPairField(text: string)
    requires |text| == 2 && HexPair(text)
    ensures HexField(text, UINT_MAX) == Some(16 * HexDigit(text[0]) + HexDigit(text[1]))
  {
    TwoDigits(text);
    HexFieldPlain(text, UINT_MAX);
  }

  /** A field of two characters that are not both hex digits. */
  lemma OddPairField(text: string)
    requires |text| == 2 && !HexPair(text)
    ensures text[0] == '-' && IsHex(text[1]) && HexDigit(text[1]) > 0 ==>
      HexField(text, UINT_MAX) == Some(UINT_MAX + 1 - HexDigit(text[1]))
    ensures !(text[0] == '-' && IsHex(text[1]) && HexDigit(text[1]) > 0) ==>
      HexField(text, UINT_MAX).Some? ==> HexField(text, UINT_MAX).value <= 15
  {
    if IsHex(text[1]) { OneDigit(text, 1); }
    if IsHex(text[0]) { OneDigit(text, 0); }
    assert text[0..1] == text[..1];
    assert text[1..2] == text[1..];
  }

  /** Section 2.1 of RFC 3986 asks for two hex digits. The code accepts them,
      for a byte that is not a control character, and one form more: a minus
      and a non-zero digit, read as a negative number and cut to a byte. */
  lemma EscapeExactly(text: string)
    requires |text| == 2
    ensures EscapeByte(text) ==
      if HexPair(text) then
        var b := 16 * HexDigit(text[0]) + HexDigit(text[1]);
        if b < 0x20 || b == 0x7f then None else Some(b as char)
      else if text[0] == '-' && IsHex(text[1]) && HexDigit(text[1]) > 0 then
        Some((256 - HexDigit(text[1])) as char)
      else None
  {
    if HexPair(text) { HexPairField(text); } else { OddPairField(text); }
  }

  /** So an escape is accepted exactly as the standard has it if and only if it
      does not begin with a minus; "%-1" shows the difference. */
  lemma EscapeStandardIff(text: string)
    requires |text| == 2
    ensures (EscapeByte(text).Some? ==> HexPair(text)) <==>
            !(text[0] == '-' && IsHex(text[1]) && HexDigit(text[1]) > 0)
    ensures EscapeByte("-1") == Some('\U{FF}')
  {
    EscapeExactly(text);
    EscapeExactly("-1");
  }

  /** A writer that escapes whatever bytes it likes, and must escape '%'. */
  function Escape(text: string, escaped: seq<bool>): string
    requires |escaped| == |text|
    requires forall i :: 0 <= i < |text| ==> text[i] < '\U{100}'
  {
    if text == "" then ""
    else
      var c := text[0] as int;
      (if escaped[0] then ['%', HexChar(c / 16), HexChar(c % 16)] else [text[0]]) + Escape(text[1..], escaped[1..])
  }

  predicate Escapable(c: char, escaped: bool) {
    ' ' <= c < '\U{100}' && c != '\U{7F}' && (escaped || (c != '%' && c != '\\'))
  }

  predicate AllEscapable(text: string, escaped: seq<bool>)
    requires |escaped| == |text|
  {
    forall i {:trigger text[i]} {:trigger escaped[i]} :: 0 <= i < |text| ==> Escapable(text[i], escaped[i])
  }

  lemma EscapableTail(text: string, escaped: seq<bool>)
    requires |escaped| == |text| && AllEscapable(text, escaped) && text != ""
    ensures Escapable(text[0], escaped[0]) && AllEscapable(text[1..], escaped[1..])
  {
  }

  lemma HeadRead(input: string, i: nat, c: char, escaped: bool, head: string)
    requires Escapable(c, escaped)
    requires head == if escaped then ['%', HexChar(c as int / 16), HexChar(c as int % 16)] else [c]
    requires i + |head| <= |input| && input[i..i + |head|] == head
    ensures UnescapeFrom(input, i) == Prepend(c, UnescapeFrom(input, i + |head|))
  {
    assert input[i] == head[0];
    if escaped {
      assert input[i + 1..i + 3] == head[1..3];
      EscapeExactly(head[1..3]);
    }
  }

  lemma {:induction false} UnescapeAt(input: string, i: nat, text: string, escaped: seq<bool>)
    requires |escaped| == |text| && AllEscapable(text, escaped)
    requires i <= |input| && input[i..] == Escape(text, escaped)
    ensures UnescapeFrom(input, i) == Some(text)
    decreases |text|
  {
    if text != "" {
      assert Escapable(text[0], escaped[0]);
      var c := text[0] as int;
      var head := if escaped[0] then ['%', HexChar(c / 16), HexChar(c % 16)] else [text[0]];
      var rest := Escape(text[1..], escaped[1..]);
      assert input[i..] == head + rest;
      var next := i + |head|;
      assert input[i..next] == input[i..][..|head|] == head;
      assert input[next..] == input[i..][|head|..] == rest;
      EscapableTail(text, escaped);
      UnescapeAt(input, next, text[1..], escaped[1..]);
      assert [text[0]] + text[1..] == text;
      HeadRead(input, i, text[0], escaped[0], head);
    }
  }

  /** Unescaping inverts escaping, whichever bytes the writer chose to escape. */
  lemma UnescapeInvertsEscape(text: string, escaped: seq<bool>)
    requires |escaped| == |text| && AllEscapable(text, escaped)
    ensures UnescapeFrom(Escape(text, escaped), 0) == Some(text)
  {
    var input := Escape(text, escaped);
    assert input[0..] == input;
    UnescapeAt(input, 0, text, escaped);
  }
}
