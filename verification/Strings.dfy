/** The few operations of Go's `strings` package that procri uses, on sequences of characters. */
module Strings {

  /** strings.Split for a one-character separator: there is always a first part. */
  function Split(s: string, sep: char): (parts: seq<string>)
    ensures |parts| > 0
  {
    if s == "" then [""]
    else if s[0] == sep then [""] + Split(s[1..], sep)
    else var rest := Split(s[1..], sep); [[s[0]] + rest[0]] + rest[1..]
  }

  function Join(parts: seq<string>, sep: char): string {
    if parts == [] then ""
    else if |parts| == 1 then parts[0]
    else parts[0] + [sep] + Join(parts[1..], sep)
  }

  predicate HasPrefix(s: string, prefix: string) {
    |prefix| <= |s| && s[..|prefix|] == prefix
  }

  predicate Contains(s: string, sub: string) {
    HasPrefix(s, sub) || (s != "" && Contains(s[1..], sub))
  }

  /** strings.Replace(s, sub, "", 1). */
  function RemoveFirst(s: string, sub: string): string {
    if HasPrefix(s, sub) then s[|sub|..]
    else if s == "" then s
    else [s[0]] + RemoveFirst(s[1..], sub)
  }

  /** One character more in front. */
  function Prepended(c: char, parts: seq<string>, sep: char): seq<string>
    requires |parts| > 0
  {
    if c == sep then [""] + parts else [[c] + parts[0]] + parts[1..]
  }

  lemma SplitFront(c: char, s: string, sep: char)
    ensures Split([c] + s, sep) == Prepended(c, Split(s, sep), sep)
  {
    assert ([c] + s)[1..] == s;
  }

  lemma JoinPrepended(c: char, parts: seq<string>, sep: char)
    requires |parts| > 0
    ensures Join(Prepended(c, parts, sep), sep) == [c] + Join(parts, sep)
  {
    var longer := Prepended(c, parts, sep);
    if c == sep {
      assert longer[1..] == parts;
      assert [""][0] + [sep] + Join(parts, sep) == [c] + Join(parts, sep);
    } else if |parts| > 1 {
      assert longer[1..] == parts[1..];
      assert [c] + parts[0] + [sep] + Join(parts[1..], sep) == [c] + (parts[0] + [sep] + Join(parts[1..], sep));
    }
  }

  ghost predicate NoneHas(parts: seq<string>, sep: char) {
    forall part | part in parts :: sep !in part
  }

  lemma PrependedHasNone(c: char, parts: seq<string>, sep: char)
    requires |parts| > 0 && NoneHas(parts, sep)
    ensures NoneHas(Prepended(c, parts, sep), sep)
  {
    assert parts[0] in parts;
    assert forall part | part in parts[1..] :: part in parts;
  }

  /** The parts of a split hold no separator, and joining them gives the string back. */
  lemma {:induction false} JoinSplit(s: string, sep: char)
    ensures Join(Split(s, sep), sep) == s
    ensures forall part | part in Split(s, sep) :: sep !in part
    ensures |Split(s, sep)| == 1 <==> sep !in s
  {
    if s != "" {
      var c, rest := s[0], s[1..];
      assert s == [c] + rest;
      JoinSplit(rest, sep);
      SplitFront(c, rest, sep);
      JoinPrepended(c, Split(rest, sep), sep);
      PrependedHasNone(c, Split(rest, sep), sep);
    }
  }

  lemma PrependedConcat(c: char, a: seq<string>, b: seq<string>, sep: char)
    requires |a| > 0
    ensures Prepended(c, a + b, sep) == Prepended(c, a, sep) + b
  {
    assert (a + b)[1..] == a[1..] + b;
  }

  lemma {:induction false} SplitConcat(a: string, b: string, sep: char)
    ensures Split(a + [sep] + b, sep) == Split(a, sep) + Split(b, sep)
  {
    if a == "" {
      assert a + [sep] + b == [sep] + b;
      SplitFront(sep, b, sep);
    } else {
      var rest := a[1..] + [sep] + b;
      assert a + [sep] + b == [a[0]] + rest && a == [a[0]] + a[1..];
      SplitConcat(a[1..], b, sep);
      SplitFront(a[0], rest, sep);
      SplitFront(a[0], a[1..], sep);
      PrependedConcat(a[0], Split(a[1..], sep), Split(b, sep), sep);
    }
  }

  lemma {:induction false} SplitJoin(parts: seq<string>, sep: char)
    requires parts != [] && forall part | part in parts :: sep !in part
    ensures Split(Join(parts, sep), sep) == parts
  {
    JoinSplit(parts[0], sep);
    assert Split(parts[0], sep) == [parts[0]];
    if |parts| > 1 {
      SplitConcat(parts[0], Join(parts[1..], sep), sep);
      SplitJoin(parts[1..], sep);
      assert [parts[0]] + parts[1..] == parts;
    }
  }

  /** A first part is what stands before the first separator. */
  lemma {:induction false} FirstPart(key: string, rest: string, sep: char)
    requires sep !in key
    ensures Split(key + [sep] + rest, sep)[0] == key
  {
    SplitConcat(key, rest, sep);
    JoinSplit(key, sep);
  }
}
