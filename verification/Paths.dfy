/** Lexical path containment: `splitPath`, `isInsidePath` and the mount-target check built on them. */
module Paths {
  import opened Strings

  const SEPARATOR := '/'

  predicate Rooted(p: string) {
    p != "" && p[0] == SEPARATOR
  }

  /** One component of a path applied to the components before it, as filepath.Clean does. */
  function Enter(stack: seq<string>, part: string, rooted: bool): seq<string> {
    if part == "" || part == "." then stack
    else if part != ".." then stack + [part]
    else if stack != [] && stack[|stack| - 1] != ".." then stack[..|stack| - 1]
    else if rooted then stack
    else stack + [".."]
  }

  function Resolve(stack: seq<string>, parts: seq<string>, rooted: bool): seq<string>
    decreases parts
  {
    if parts == [] then stack
    else Resolve(Enter(stack, parts[0], rooted), parts[1..], rooted)
  }

  function CleanParts(p: string): seq<string> {
    Resolve([], Split(p, SEPARATOR), Rooted(p))
  }

  /** filepath.Clean. */
  function Clean(p: string): string {
    if Rooted(p) then [SEPARATOR] + Join(CleanParts(p), SEPARATOR)
    else if CleanParts(p) == [] then "."
    else Join(CleanParts(p), SEPARATOR)
  }

  /** filepath.Join of two elements. */
  function JoinPath(a: string, b: string): string {
    if a == "" && b == "" then ""
    else if a == "" then Clean(b)
    else if b == "" then Clean(a)
    else Clean(a + [SEPARATOR] + b)
  }

  /** What a path means for containment; an unrooted path to nowhere is the directory itself. */
  function Components(p: string): seq<string> {
    if !Rooted(p) && CleanParts(p) == [] then ["."] else CleanParts(p)
  }

  /** Path p1 is p2 or below it. */
  predicate Inside(p1: string, p2: string) {
    Components(p2) <= Components(p1)
  }

  // ---------------------------------------------------------------- the code

  method SplitPath(p: string) returns (result: seq<string>)
    ensures result == Components(p)
  {
    var parts := Split(Clean(p), SEPARATOR);
    result := [];
    for i := 0 to |parts|
      invariant result == NonEmpty(parts[..i])
    {
      assert parts[..i + 1][..i] == parts[..i];
      if parts[i] != "" {
        result := result + [parts[i]];
      }
    }
    assert parts[..|parts|] == parts;
    SplitCleanIsComponents(p);
  }

  method IsInsidePath(p1: string, p2: string) returns (inside: bool)
    ensures inside <==> Inside(p1, p2)
  {
    var p1Parts := SplitPath(p1);
    var p2Parts := SplitPath(p2);
    if |p2Parts| > |p1Parts| {
      return false;
    }
    for i := 0 to |p2Parts|
      invariant p2Parts[..i] == p1Parts[..i]
    {
      if p1Parts[i] != p2Parts[i] {
        return false;
      }
    }
    return true;
  }

  /** A target is allowed when some allowed path contains it, or no disallowed path does. */
  predicate Allowed(path: string, allowList: seq<string>, disallowList: seq<string>) {
    (exists a | a in allowList :: Inside(path, a)) || (forall d | d in disallowList :: !Inside(path, d))
  }

  method IsPathAllowed(path: string, allowList: seq<string>, disallowList: seq<string>) returns (allowed: bool)
    ensures allowed <==> Allowed(path, allowList, disallowList)
  {
    for i := 0 to |allowList|
      invariant forall a | a in allowList[..i] :: !Inside(path, a)
    {
      var inside := IsInsidePath(path, allowList[i]);
      if inside {
        return true;
      }
    }
    for i := 0 to |disallowList|
      invariant forall d | d in disallowList[..i] :: !Inside(path, d)
    {
      var inside := IsInsidePath(path, disallowList[i]);
      if inside {
        return false;
      }
    }
    return true;
  }

  const ALLOW_LIST: seq<string> := []
  const DISALLOW_LIST: seq<string> := ["/etc", "/usr", "/bin", "/sbin", "/Library"]

  // ---------------------------------------------------------------- cleaning

  function NonEmpty(parts: seq<string>): seq<string> {
    if parts == [] then []
    else
      var init, last := parts[..|parts| - 1], parts[|parts| - 1];
      if last != "" then NonEmpty(init) + [last] else NonEmpty(init)
  }

  lemma {:induction false} NonEmptyAll(parts: seq<string>)
    requires "" !in parts
    ensures NonEmpty(parts) == parts
  {
    if parts != [] {
      NonEmptyAll(parts[..|parts| - 1]);
    }
  }

  lemma {:induction false} NonEmptyPrefix(parts: seq<string>)
    ensures NonEmpty([""] + parts) == NonEmpty(parts)
  {
    if parts == [] {
      assert [""] + parts == [""];
      assert [""][..0] == [];
    } else {
      NonEmptyPrefix(parts[..|parts| - 1]);
      assert ([""] + parts)[..|parts|] == [""] + parts[..|parts| - 1];
    }
  }

  /** A component that survives cleaning. */
  predicate Plain(part: string) {
    part != "" && part != "." && SEPARATOR !in part
  }

  /** What cleaning leaves: plain components, and `..` only in front, and only of an unrooted path. */
  ghost predicate Normal(parts: seq<string>, rooted: bool) {
    && (forall part | part in parts :: Plain(part))
    && (forall i | 0 <= i < |parts| && parts[i] == ".." :: !rooted && (forall j | 0 <= j < i :: parts[j] == ".."))
  }

  lemma {:induction false} ResolveIsNormal(stack: seq<string>, parts: seq<string>, rooted: bool)
    requires Normal(stack, rooted) && forall part | part in parts :: SEPARATOR !in part
    ensures Normal(Resolve(stack, parts, rooted), rooted)
    decreases parts
  {
    if parts != [] {
      assert Normal(Enter(stack, parts[0], rooted), rooted);
      ResolveIsNormal(Enter(stack, parts[0], rooted), parts[1..], rooted);
    }
  }

  lemma {:induction false} NormalResolvesToItself(stack: seq<string>, parts: seq<string>, rooted: bool)
    requires Normal(stack + parts, rooted)
    ensures Resolve(stack, parts, rooted) == stack + parts
    decreases parts
  {
    if parts != [] {
      assert parts[0] in stack + parts && (stack + parts)[|stack|] == parts[0];
      assert Enter(stack, parts[0], rooted) == stack + [parts[0]] by {
        if parts[0] == ".." && stack != [] {
          assert (stack + parts)[|stack| - 1] == "..";
        }
      }
      assert stack + [parts[0]] + parts[1..] == stack + parts;
      NormalResolvesToItself(stack + [parts[0]], parts[1..], rooted);
    } else {
      assert stack + parts == stack;
    }
  }

  lemma CleanPartsAreNormal(p: string)
    ensures Normal(CleanParts(p), Rooted(p))
  {
    JoinSplit(p, SEPARATOR);
    ResolveIsNormal([], Split(p, SEPARATOR), Rooted(p));
  }

  /** Splitting the cleaned path gives the cleaned components, after an empty one when it is rooted. */
  lemma SplitClean(p: string)
    ensures Split(Clean(p), SEPARATOR) ==
            if Rooted(p) then [""] + (if CleanParts(p) == [] then [""] else CleanParts(p))
            else if CleanParts(p) == [] then ["."] else CleanParts(p)
    ensures Rooted(Clean(p)) == Rooted(p)
  {
    CleanPartsAreNormal(p);
    var parts := CleanParts(p);
    if parts != [] {
      SplitJoin(parts, SEPARATOR);
      assert parts[0] in parts;
      assert Join(parts, SEPARATOR)[0] == parts[0][0];
      assert parts[0][0] in parts[0];
    }
    if Rooted(p) {
      SplitConcat("", Join(parts, SEPARATOR), SEPARATOR);
      assert "" + [SEPARATOR] + Join(parts, SEPARATOR) == Clean(p);
    } else if parts == [] {
      JoinSplit(".", SEPARATOR);
    }
  }

  lemma SplitCleanIsComponents(p: string)
    ensures NonEmpty(Split(Clean(p), SEPARATOR)) == Components(p)
  {
    SplitClean(p);
    CleanPartsAreNormal(p);
    NonEmptyAll(CleanParts(p));
    if Rooted(p) {
      NonEmptyPrefix(if CleanParts(p) == [] then [""] else CleanParts(p));
      NonEmptyPrefix([]);
      assert [""] + [] == [""];
    } else {
      NonEmptyAll(["."]);
    }
  }

  // ---------------------------------------------------------------- containment

  /** Containment depends on the cleaned paths only, and cleaning twice is cleaning once. */
  lemma CleaningIsIdempotent(p: string)
    ensures Components(Clean(p)) == Components(p)
    ensures Clean(Clean(p)) == Clean(p)
    ensures CleanParts(Clean(p)) == CleanParts(p) && Rooted(Clean(p)) == Rooted(p)
  {
    SplitClean(p);
    CleanPartsAreNormal(p);
    var parts, rooted := CleanParts(p), Rooted(p);
    assert [] + parts == parts;
    NormalResolvesToItself([], parts, rooted);
    if rooted {
      var split := Split(Clean(p), SEPARATOR);
      assert split[1..] == if parts == [] then [""] else parts;
      assert Resolve([], split, true) == Resolve([], split[1..], true);
      assert parts == [] ==> split[1..][1..] == [];
    } else if parts == [] {
      assert ["."][1..] == [];
    }
    assert CleanParts(Clean(p)) == parts;
  }

  lemma InsideIsPreorder(p: string, q: string, r: string)
    ensures Inside(p, p)
    ensures Inside(p, q) && Inside(q, r) ==> Inside(p, r)
    ensures Inside(p, q) && Inside(q, p) ==> Components(p) == Components(q)
    ensures Inside(p, q) <==> Inside(Clean(p), Clean(q))
  {
    CleaningIsIdempotent(p);
    CleaningIsIdempotent(q);
    if Inside(p, q) && Inside(q, r) {
      var a, b, c := Components(p), Components(q), Components(r);
      assert c == b[..|c|] == a[..|b|][..|c|] == a[..|c|];
    }
  }

  lemma {:induction false} ResolveConcat(stack: seq<string>, a: seq<string>, b: seq<string>, rooted: bool)
    ensures Resolve(stack, a + b, rooted) == Resolve(Resolve(stack, a, rooted), b, rooted)
    decreases a
  {
    if a == [] {
      assert a + b == b;
    } else {
      ResolveConcat(Enter(stack, a[0], rooted), a[1..], b, rooted);
      assert (a + b)[1..] == a[1..] + b;
    }
  }

  /** A rooted path a followed by more: its components are resolved on top of those of a. */
  lemma Descend(a: string, b: string)
    requires Rooted(a)
    ensures Components(a + "/" + b) == Resolve(Components(a), Split(b, SEPARATOR), true)
  {
    SplitConcat(a, b, SEPARATOR);
    assert a + "/" + b == a + [SEPARATOR] + b;
    assert Rooted(a + "/" + b);
    ResolveConcat([], Split(a, SEPARATOR), Split(b, SEPARATOR), true);
  }

  /** Below a rooted path, a part that resolves to nothing may be written or left out. */
  lemma NeutralPart(a: string, neutral: string, b: string)
    requires Rooted(a) && Resolve(Components(a), Split(neutral, SEPARATOR), true) == Components(a)
    ensures Components(a + "/" + neutral + "/" + b) == Components(a + "/" + b)
    ensures Components(a + "/" + neutral) == Components(a)
  {
    Descend(a, neutral);
    Descend(a + "/" + neutral, b);
    Descend(a, b);
  }

  /**
   The spelling of a rooted path does not matter: repeated slashes, trailing slashes, `.` and a
   component undone by `..` change nothing.
   */
  lemma SpellingDoesNotMatter(a: string, x: string, b: string)
    requires Rooted(a) && Plain(x) && x != ".."
    ensures Components(a + "//" + b) == Components(a + "/" + b)
    ensures Components(a + "/./" + b) == Components(a + "/" + b)
    ensures Components(a + "/" + x + "/../" + b) == Components(a + "/" + b)
    ensures Components(a + "/") == Components(a) == Components(a + "/.") == Components(a + "/" + x + "/..")
  {
    IdlePart(a, "", b);
    assert a + "/" + "" + "/" + b == a + "//" + b && a + "/" + "" == a + "/";
    IdlePart(a, ".", b);
    assert a + "/" + "." + "/" + b == a + "/./" + b && a + "/" + "." == a + "/.";
    var undone := x + "/..";
    UndoneResolvesToNothing(Components(a), x);
    NeutralPart(a, undone, b);
    assert a + "/" + undone + "/" + b == a + "/" + x + "/../" + b && a + "/" + undone == a + "/" + x + "/..";
  }

  lemma IdlePart(a: string, part: string, b: string)
    requires Rooted(a) && (part == "" || part == ".")
    ensures Components(a + "/" + part + "/" + b) == Components(a + "/" + b)
    ensures Components(a + "/" + part) == Components(a)
  {
    JoinSplit(part, SEPARATOR);
    assert Split(part, SEPARATOR) == [part] == [part] + [];
    ResolveFront(Components(a), part, [], true);
    NeutralPart(a, part, b);
  }

  lemma UndoneResolvesToNothing(stack: seq<string>, x: string)
    requires Plain(x) && x != ".."
    ensures Resolve(stack, Split(x + "/..", SEPARATOR), true) == stack
  {
    SplitConcat(x, "..", SEPARATOR);
    assert x + "/.." == x + [SEPARATOR] + "..";
    JoinSplit(x, SEPARATOR);
    JoinSplit("..", SEPARATOR);
    assert Split(x + "/..", SEPARATOR) == [x, ".."];
    assert [x, ".."][1..] == [".."] && [".."][1..] == [];
    assert Enter(stack, x, true) == stack + [x];
    assert Enter(stack + [x], "..", true) == stack;
    assert Resolve(stack, [x, ".."], true) == Resolve(stack + [x], [".."], true) == Resolve(stack, [], true);
  }

  lemma ParentInFront(b: string)
    ensures Split("../" + b, SEPARATOR) == [".."] + Split(b, SEPARATOR)
    ensures Split("/" + b, SEPARATOR) == [""] + Split(b, SEPARATOR)
  {
    SplitConcat("", b, SEPARATOR);
    assert "" + [SEPARATOR] + b == "/" + b;
    SplitConcat("..", b, SEPARATOR);
    assert ".." + [SEPARATOR] + b == "../" + b;
    JoinSplit("..", SEPARATOR);
    assert Split("..", SEPARATOR) == [".."];
  }

  lemma ResolveFront(stack: seq<string>, part: string, parts: seq<string>, rooted: bool)
    ensures Resolve(stack, [part] + parts, rooted) == Resolve(Enter(stack, part, rooted), parts, rooted)
  {
    assert ([part] + parts)[1..] == parts;
  }

  /** What stands in front may be `..` of an unrooted path, which stays, or of the root, which goes. */
  lemma LeadingParents(b: string)
    ensures Components("/../" + b) == Components("/" + b)
    ensures !Rooted(b) ==> CleanParts("../" + b) == [".."] + CleanParts(b)
  {
    var parts := Split(b, SEPARATOR);
    ParentInFront(b);
    ParentInFront("../" + b);
    assert "/" + ("../" + b) == "/../" + b;
    ResolveFront([], "", parts, true);
    ResolveFront([], "", [".."] + parts, true);
    ResolveFront([], "..", parts, true);
    ResolveFront([], "..", parts, false);
    assert [] + [".."] == [".."] + [] == [".."];
    ParentStays([], parts);
  }

  lemma {:induction false} ParentStays(stack: seq<string>, parts: seq<string>)
    ensures Resolve([".."] + stack, parts, false) == [".."] + Resolve(stack, parts, false)
    decreases parts
  {
    if parts != [] {
      assert Enter([".."] + stack, parts[0], false) == [".."] + Enter(stack, parts[0], false);
      ParentStays(Enter(stack, parts[0], false), parts[1..]);
    }
  }

  // ---------------------------------------------------------------- joining

  /** Read from some directory, the path never climbs above it: cleaned as a relative path it has no `..`. */
  predicate StaysBelow(p: string) {
    ".." !in Resolve([], Split(p, SEPARATOR), false)
  }

  lemma ParentShows(parts: seq<string>)
    ensures ".." in Resolve([], [".."] + parts, false)
  {
    ResolveFront([], "..", parts, false);
    ParentStays([], parts);
    assert [] + [".."] == [".."] + [] == [".."];
    assert ([".."] + Resolve([], parts, false))[0] == "..";
  }

  lemma {:induction false} ResolveOnTop(stack: seq<string>, own: seq<string>, parts: seq<string>, rooted: bool)
    requires ".." !in own && ".." !in Resolve(own, parts, false)
    ensures Resolve(stack + own, parts, rooted) == stack + Resolve(own, parts, false)
    decreases |parts|
  {
    if parts != [] {
      var part, rest := parts[0], parts[1..];
      assert parts == [part] + rest;
      if part == ".." && own == [] {
        ParentShows(rest);
        assert false;
      } else if part == ".." {
        assert own[|own| - 1] in own;
        assert (stack + own)[..|stack + own| - 1] == stack + own[..|own| - 1];
        ResolveOnTop(stack, own[..|own| - 1], rest, rooted);
      } else if part == "" || part == "." {
        ResolveOnTop(stack, own, rest, rooted);
      } else {
        assert stack + own + [part] == stack + (own + [part]);
        ResolveOnTop(stack, own + [part], rest, rooted);
      }
    }
  }

  /**
   Joining puts the components of the second path below those of the first, whose root is kept, and the
   result is clean: a name that does not climb cannot leave the directory it is joined to.
   */
  lemma JoinDescends(a: string, b: string)
    requires a != "" && b != "" && StaysBelow(b)
    ensures CleanParts(JoinPath(a, b)) == CleanParts(a) + CleanParts(b)
    ensures Rooted(JoinPath(a, b)) == Rooted(a) && Clean(JoinPath(a, b)) == JoinPath(a, b)
    ensures Rooted(a) ==> Components(JoinPath(a, b)) == Components(a) + CleanParts(b) && Inside(JoinPath(a, b), a)
  {
    var path, parts := a + [SEPARATOR] + b, Split(b, SEPARATOR);
    CleaningIsIdempotent(path);
    SplitConcat(a, b, SEPARATOR);
    assert Rooted(path) == Rooted(a);
    ResolveConcat([], Split(a, SEPARATOR), parts, Rooted(a));
    ResolveOnTop(CleanParts(a), [], parts, Rooted(a));
    ResolveOnTop([], [], parts, Rooted(b));
    assert CleanParts(a) + [] == CleanParts(a);
    assert [] + Resolve([], parts, false) == Resolve([], parts, false);
  }

  /** A name that climbs leaves it: it is a name in the directory above. */
  lemma JoinClimbs(a: string, x: string, b: string)
    requires Rooted(a) && Plain(x) && x != ".."
    ensures Components(JoinPath(a + "/" + x, "../" + b)) == Components(a + "/" + b)
  {
    var path := a + "/" + x + "/../" + b;
    assert (a + "/" + x) + [SEPARATOR] + ("../" + b) == path;
    CleaningIsIdempotent(path);
    SpellingDoesNotMatter(a, x, b);
  }

  /** An empty element is ignored. */
  lemma JoinIgnoresEmpty(p: string)
    ensures JoinPath("", "") == "" && (p != "" ==> JoinPath("", p) == Clean(p) == JoinPath(p, ""))
  {
  }

  // ---------------------------------------------------------------- the mount-target check

  /** With the lists procri ships a target is refused exactly when one of five system directories contains it. */
  lemma SystemDirectories(path: string)
    ensures Allowed(path, ALLOW_LIST, DISALLOW_LIST) <==>
            && !Inside(path, "/etc") && !Inside(path, "/usr") && !Inside(path, "/bin") && !Inside(path, "/sbin")
            && !Inside(path, "/Library")
  {
    assert "/etc" in DISALLOW_LIST && "/usr" in DISALLOW_LIST && "/bin" in DISALLOW_LIST && "/sbin" in DISALLOW_LIST;
    assert DISALLOW_LIST[4] == "/Library";
  }

  /**
   Everything inside a disallowed path is disallowed too, for arbitrary lists, exactly unless an
   allowed path contains it.
   */
  lemma DisallowedIsClosed(p: string, q: string, allowList: seq<string>, disallowList: seq<string>)
    requires Inside(p, q) && exists d | d in disallowList :: Inside(q, d)
    ensures Allowed(p, allowList, disallowList) <==> exists a | a in allowList :: Inside(p, a)
  {
    var d :| d in disallowList && Inside(q, d);
    InsideIsPreorder(p, q, d);
  }
}
