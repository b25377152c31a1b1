/** Routing: which location a path belongs to and which file it names
    (apps/webserv/src/Router.cpp). */
module Router {
  import opened Strings
  import opened HttpPath

  datatype Location = Location(path: string, root: string, redirect: string, methods: seq<string>)

  datatype ServerConfig = ServerConfig(root: string, methods: seq<string>, locations: seq<Location>, maxBody: nat)

  datatype Route =
    | MethodNotAllowed
    | Redirect(target: string)
    | Ready(location: Option<Location>, diskPath: string)

  // --------------------------------------------------------------- matching

  /** The prefix ends at a segment boundary of the path. */
  predicate Boundary(prefix: string, path: string) {
    || prefix == "/"
    || (prefix != "" && prefix[|prefix| - 1] == '/')
    || |path| == |prefix|
    || (|path| > |prefix| && path[|prefix|] == '/')
  }

  predicate Matches(prefix: string, path: string) {
    prefix <= path && Boundary(prefix, path)
  }

  /** The longest matching location, the first declared on a tie. */
  ghost predicate BestMatch(locations: seq<Location>, path: string, best: Option<nat>) {
    match best
    case None => forall i :: 0 <= i < |locations| ==> !Matches(locations[i].path, path)
    case Some(b) =>
      && b < |locations| && Matches(locations[b].path, path)
      && (forall i :: 0 <= i < |locations| && Matches(locations[i].path, path) ==>
            |locations[i].path| <= |locations[b].path|)
      && (forall i :: 0 <= i < b && Matches(locations[i].path, path) ==>
            |locations[i].path| < |locations[b].path|)
  }

  method MatchLocation(locations: seq<Location>, path: string) returns (best: Option<nat>)
    ensures BestMatch(locations, path, best)
  {
    best := None;
    for i := 0 to |locations|
      invariant best.Some? ==> best.value < i
      invariant BestMatch(locations[..i], path, best)
    {
      var prefix := locations[i].path;
      var boundary := prefix == "/" || (prefix != "" && prefix[|prefix| - 1] == '/')
        || |path| == |prefix| || (|path| > |prefix| && path[|prefix|] == '/');
      assert locations[..i + 1] == locations[..i] + [locations[i]];
      if prefix <= path && boundary && (best == None || |prefix| > |locations[best.value].path|) {
        best := Some(i);
      }
    }
    assert locations[..|locations|] == locations;
  }

  /** There is one answer only, so the method above computes a function. */
  lemma BestMatchUnique(locations: seq<Location>, path: string, a: Option<nat>, b: Option<nat>)
    requires BestMatch(locations, path, a) && BestMatch(locations, path, b)
    ensures a == b
  {
    if a.Some? && b.Some? {
      assert Matches(locations[a.value].path, path) && Matches(locations[b.value].path, path);
    }
  }

  method MethodAllowed(methods: seq<string>, verb: string) returns (ok: bool)
    ensures ok <==> verb in methods
  {
    for i := 0 to |methods|
      invariant verb !in methods[..i]
    {
      if methods[i] == verb {
        return true;
      }
      assert methods[..i + 1] == methods[..i] + [methods[i]];
    }
    assert methods[..|methods|] == methods;
    return false;
  }

  /** The path below the root: the location's prefix cut off, a slash in front. */
  function DiskPath(root: string, prefix: string, path: string): string {
    var relative := if prefix <= path then path[|prefix|..] else path;
    root + (if relative == "" || relative[0] != '/' then "/" + relative else relative)
  }

  function RouteBy(config: ServerConfig, best: Option<nat>, verb: string, path: string): Route
    requires best.Some? ==> best.value < |config.locations|
  {
    if best == None then
      if verb !in config.methods then MethodNotAllowed
      else Ready(None, DiskPath(config.root, "", path))
    else
      var location := config.locations[best.value];
      if verb !in location.methods then MethodNotAllowed
      else if location.redirect != "" then Redirect(location.redirect)
      else Ready(Some(location), DiskPath(location.root, location.path, path))
  }

  method Resolve(config: ServerConfig, verb: string, path: string) returns (route: Route, best: Option<nat>)
    ensures BestMatch(config.locations, path, best)
    ensures route == RouteBy(config, best, verb, path)
  {
    best := MatchLocation(config.locations, path);
    var allowed := MethodAllowed(if best == None then config.methods else config.locations[best.value].methods, verb);
    if !allowed {
      return MethodNotAllowed, best;
    }
    if best != None && config.locations[best.value].redirect != "" {
      return Redirect(config.locations[best.value].redirect), best;
    }
    var root := if best == None then config.root else config.locations[best.value].root;
    var relative := path;
    if best != None && config.locations[best.value].path <= relative {
      relative := relative[|config.locations[best.value].path|..];
    }
    if relative == "" || relative[0] != '/' {
      relative := "/" + relative;
    }
    assert path[0..] == path;
    route := Ready(if best == None then None else Some(config.locations[best.value]), root + relative);
  }

  /** The methods in force for a path, those of its location or else the
      server's, decide first; then a redirect of the location; only then is a
      file named, for that location. */
  lemma RouteMeans(config: ServerConfig, best: Option<nat>, verb: string, path: string)
    requires BestMatch(config.locations, path, best)
    ensures var route := RouteBy(config, best, verb, path);
      var methods := if best == None then config.methods else config.locations[best.value].methods;
      var redirect := if best == None then "" else config.locations[best.value].redirect;
      && (route.MethodNotAllowed? <==> verb !in methods)
      && (route.Redirect? <==> verb in methods && redirect != "")
      && (route.Redirect? ==> route.target == redirect)
      && (route.Ready? <==> verb in methods && redirect == "")
      && (route.Ready? ==>
            route.location == if best == None then None else Some(config.locations[best.value]))
  {
  }

  // -------------------------------------------------- segments on the disk

  function NonEmpty(parts: seq<string>): seq<string> {
    if parts == [] then []
    else (if parts[0] == "" then [] else [parts[0]]) + NonEmpty(parts[1..])
  }

  /** The non-empty segments of a file name. */
  function Parts(s: string): seq<string> { NonEmpty(SplitFrom(s, '/', 0)) }

  lemma {:induction false} NonEmptyAppend(a: seq<string>, b: seq<string>)
    ensures NonEmpty(a + b) == NonEmpty(a) + NonEmpty(b)
  {
    if a == [] {
      assert a + b == b;
    } else {
      assert (a + b)[1..] == a[1..] + b;
      NonEmptyAppend(a[1..], b);
    }
  }

  /** The parts of "s/t" are the parts of s and then those of t. */
  lemma PartsAcross(s: string, t: string)
    ensures Parts(s + ("/" + t)) == Parts(s) + Parts(t)
  {
    SplitJoined(s, t, '/', s + ("/" + t));
    NonEmptyAppend(SplitFrom(s, '/', 0), SplitFrom(t, '/', 0));
  }

  lemma PartsLeading(t: string)
    ensures Parts("/" + t) == Parts(t)
  {
    PartsAcross("", t);
    assert "" + ("/" + t) == "/" + t;
    assert SplitFrom("", '/', 0) == [""[0..]];
    assert NonEmpty([""]) == [] + NonEmpty([""][1..]);
  }

  lemma PartsTrailing(s: string)
    ensures Parts(s + "/") == Parts(s)
  {
    PartsAcross(s, "");
    assert s + ("/" + "") == s + "/";
    assert SplitFrom("", '/', 0) == [""[0..]];
    assert NonEmpty([""]) == [] + NonEmpty([""][1..]);
  }

  /** A path cut at a matching prefix falls into the parts on each side. */
  lemma PartsCut(prefix: string, path: string)
    requires Matches(prefix, path)
    ensures Parts(path) == Parts(prefix) + Parts(path[|prefix|..])
  {
    var rest := path[|prefix|..];
    assert path == prefix + rest;
    if prefix != "" && prefix[|prefix| - 1] == '/' {
      var front := prefix[..|prefix| - 1];
      assert prefix == front + "/";
      PartsTrailing(front);
      PartsAcross(front, rest);
      assert front + ("/" + rest) == path;
    } else if rest == "" {
      assert path == prefix;
      assert SplitFrom("", '/', 0) == [""[0..]];
      assert NonEmpty([""]) == [] + NonEmpty([""][1..]);
      assert Parts(prefix) + [] == Parts(prefix);
    } else {
      var tail := rest[1..];
      assert rest == "/" + tail;
      PartsLeading(tail);
      PartsAcross(prefix, tail);
    }
  }

  /** The disk path is the root's parts, then those of the rest of the path. */
  lemma DiskPathParts(root: string, prefix: string, path: string)
    requires prefix <= path
    ensures Parts(DiskPath(root, prefix, path)) == Parts(root) + Parts(path[|prefix|..])
  {
    var relative := path[|prefix|..];
    if relative != "" && relative[0] == '/' {
      assert relative == "/" + relative[1..];
      PartsAcross(root, relative[1..]);
      PartsLeading(relative[1..]);
    } else {
      PartsAcross(root, relative);
    }
  }

  lemma {:induction false} NonEmptyOf(parts: seq<string>, part: string)
    ensures part in NonEmpty(parts) ==> part in parts && part != ""
  {
    if parts != [] { NonEmptyOf(parts[1..], part); }
  }

  lemma FirstSlash(path: string)
    requires path != "" && path[0] == '/'
    ensures SplitFrom(path, '/', 0) == [""] + SplitFrom(path, '/', 1)
  {
    assert Find(path, '/', 0) == 0 && path[0..0] == "";
  }

  /** The parts of a normal path name things: no "." and no "..". */
  lemma NormalParts(path: string, part: string)
    requires NormalPath(path) && part in Parts(path)
    ensures part != "" && part != "." && part != ".."
  {
    var segments := Segments(path);
    FirstSlash(path);
    NonEmptyOf([""] + segments, part);
    assert part in segments;
    var i :| 0 <= i < |segments| && segments[i] == part;
  }

  /** Where a request leads: the file named is the root's segments followed by
      the last segments of the path, those after the prefix of the location
      chosen, none of them "." or "..". */
  lemma RoutedBelowRoot(config: ServerConfig, best: Option<nat>, verb: string, path: string)
    requires NormalPath(path) && BestMatch(config.locations, path, best)
    requires RouteBy(config, best, verb, path).Ready?
    ensures var route := RouteBy(config, best, verb, path);
      var root := if best == None then config.root else config.locations[best.value].root;
      var k := if best == None then 0 else |Parts(config.locations[best.value].path)|;
      && k <= |Parts(path)|
      && Parts(route.diskPath) == Parts(root) + Parts(path)[k..]
      && forall part :: part in Parts(path)[k..] ==> part != "" && part != "." && part != ".."
  {
    var prefix := if best == None then "" else config.locations[best.value].path;
    var root := if best == None then config.root else config.locations[best.value].root;
    DiskPathParts(root, prefix, path);
    var k := if best == None then 0 else |Parts(prefix)|;
    if best == None {
      assert path[0..] == path;
    } else {
      PartsCut(prefix, path);
    }
    assert Parts(path)[k..] == Parts(path[|prefix|..]);
    forall part | part in Parts(path)[k..] ensures part != "" && part != "." && part != ".." {
      NormalParts(path, part);
    }
  }
}
