/**
 The normal form of a path inside a package, and why a path in that form joined
 to any root stays strictly below that root.
 */
module PackagePaths {
  import opened Prelude
  import opened JsonText

  const SLASH: Unit := 0x2F
  const DOT: Unit := 0x2E
  const MAX_PATH_CHARS: nat := 1024

  datatype PathError = InvalidPackagePath

  /** Any number of leading "./" are dropped. */
  function StripDots(v: Text): Text {
    if |v| >= 2 && v[0] == DOT && v[1] == SLASH then StripDots(v[2..]) else v
  }

  /** One trailing slash is dropped. */
  function StripSlash(v: Text): Text {
    if v != [] && v[|v| - 1] == SLASH then v[..|v| - 1] else v
  }

  /** The parts between slashes; never empty. */
  function Split(v: Text): (parts: seq<Text>)
    ensures |parts| >= 1
  {
    if v == [] then [[]]
    else
      var rest := Split(v[1..]);
      if v[0] == SLASH then [[]] + rest else [[v[0]] + rest[0]] + rest[1..]
  }

  predicate PlainChar(u: Unit) {
    u >= 0x20 && u != 0x7F && u != BACKSLASH
  }

  predicate PlainPart(part: Text) {
    part != [] && part != [DOT] && part != [DOT, DOT]
  }

  /** A path in normal form. */
  predicate Normal(name: Text) {
    && name != [] && |name| <= MAX_PATH_CHARS && name[0] != SLASH
    && (forall i :: 0 <= i < |name| ==> PlainChar(name[i]))
    && forall part :: part in Split(name) ==> PlainPart(part)
  }

  function PackageRelativePath(value: Text): Result<Text, PathError> {
    var name := StripSlash(StripDots(value));
    if Normal(name) then Ok(name) else Err(InvalidPackagePath)
  }

  // ----- Splitting and joining -----

  function JoinParts(parts: seq<Text>): Text
    requires |parts| >= 1
  {
    if |parts| == 1 then parts[0] else parts[0] + [SLASH] + JoinParts(parts[1..])
  }

  predicate NoSlash(part: Text) {
    forall i :: 0 <= i < |part| ==> part[i] != SLASH
  }

  lemma {:induction false} JoinSplit(v: Text)
    ensures JoinParts(Split(v)) == v && forall part :: part in Split(v) ==> NoSlash(part)
  {
    if v != [] {
      var rest := Split(v[1..]);
      JoinSplit(v[1..]);
      assert rest[0] in rest;
      if v[0] == SLASH {
        assert Split(v)[1..] == rest;
        assert JoinParts(Split(v)) == [] + [SLASH] + JoinParts(rest);
      } else {
        var first := [v[0]] + rest[0];
        assert Split(v) == [first] + rest[1..];
        if |rest| > 1 {
          assert Split(v)[1..] == rest[1..];
          assert JoinParts(Split(v)) == [v[0]] + JoinParts(rest);
        }
        forall part | part in Split(v) ensures NoSlash(part) {
          if part != first { assert part in rest; }
        }
      }
      assert v == [v[0]] + v[1..];
    }
  }

  /** The parts of a text that gets one more unit in front. */
  lemma SplitCons(u: Unit, v: Text)
    ensures Split([u] + v) == (if u == SLASH then [[]] + Split(v) else [[u] + Split(v)[0]] + Split(v)[1..])
  {
    assert ([u] + v)[1..] == v;
  }

  lemma {:induction false} SplitAtSlash(a: Text, b: Text)
    ensures Split(a + [SLASH] + b) == Split(a) + Split(b)
  {
    hide Split;
    if a == [] {
      SplitCons(SLASH, b);
      assert [] + [SLASH] + b == [SLASH] + b;
      SplitEmpty();
    } else {
      SplitAtSlash(a[1..], b);
      var rest := a[1..] + [SLASH] + b;
      assert a + [SLASH] + b == [a[0]] + rest && a == [a[0]] + a[1..];
      SplitCons(a[0], rest);
      SplitCons(a[0], a[1..]);
    }
  }

  lemma SplitEmpty()
    ensures Split([]) == [[]]
  {
  }

  lemma SplitOne(part: Text)
    requires NoSlash(part)
    ensures Split(part) == [part]
  {
    if part != [] {
      SplitOne(part[1..]);
      assert part == [part[0]] + part[1..];
    }
  }

  // ----- Normal names are fixed points, and nothing else is accepted -----

  lemma DotSlashHasDotPart(name: Text)
    requires |name| >= 2 && name[0] == DOT && name[1] == SLASH
    ensures [DOT] in Split(name)
  {
    SplitAtSlash([DOT], name[2..]);
    assert [DOT] + [SLASH] + name[2..] == name;
    SplitOne([DOT]);
  }

  lemma TrailingSlashHasEmptyPart(name: Text)
    requires name != [] && name[|name| - 1] == SLASH
    ensures [] in Split(name)
  {
    SplitAtSlash(name[..|name| - 1], []);
    assert name[..|name| - 1] + [SLASH] + [] == name;
    SplitEmpty();
    assert Split(name)[|Split(name)| - 1] == [];
  }

  /** A normal name neither starts with "./" nor ends with a slash. */
  lemma NormalIsStripped(name: Text)
    requires Normal(name)
    ensures StripDots(name) == name && StripSlash(name) == name && StripDots(name + [SLASH]) == name + [SLASH]
  {
    hide Split;
    if |name| >= 2 && name[0] == DOT && name[1] == SLASH {
      DotSlashHasDotPart(name);
    }
    if name[|name| - 1] == SLASH {
      TrailingSlashHasEmptyPart(name);
    }
    if |name| == 1 && name[0] == DOT {
      DotIsPart(name);
    }
  }

  lemma {:induction false} StripDotsShortens(v: Text)
    ensures |StripDots(v)| <= |v|
  {
    if |v| >= 2 && v[0] == DOT && v[1] == SLASH {
      StripDotsShortens(v[2..]);
    }
  }

  lemma KeptHasNoDots(v: Text)
    requires StripDots(v) == v
    ensures |v| >= 2 ==> !(v[0] == DOT && v[1] == SLASH)
  {
    if |v| >= 2 {
      StripDotsShortens(v[2..]);
    }
  }

  lemma DotIsPart(name: Text)
    requires |name| == 1 && name[0] == DOT
    ensures [DOT] in Split(name)
  {
    SplitOne(name);
    assert name == [DOT];
  }

  /** The result is in normal form, and normalizing it again changes nothing. */
  lemma PathIsIdempotent(value: Text)
    requires PackageRelativePath(value).Ok?
    ensures Normal(PackageRelativePath(value).value)
    ensures PackageRelativePath(PackageRelativePath(value).value) == PackageRelativePath(value)
  {
    NormalIsStripped(PackageRelativePath(value).value);
  }

  predicate CharsAllowed(name: Text) {
    forall c :: c in name ==> c >= 0x20 && c != 0x7F && c != 0x5C
  }

  predicate PartsAllowed(parts: seq<Text>) {
    forall part :: part in parts ==> part != [] && part != [0x2E] && part != [0x2E, 0x2E]
  }

  lemma PlainCharsExactly(name: Text)
    ensures CharsAllowed(name) <==> forall i :: 0 <= i < |name| ==> PlainChar(name[i])
  {
    forall i | CharsAllowed(name) && 0 <= i < |name| ensures PlainChar(name[i]) {
      assert name[i] in name;
    }
    forall c | (forall i :: 0 <= i < |name| ==> PlainChar(name[i])) && c in name ensures c >= 0x20 && c != 0x7F && c != 0x5C {
      var i :| 0 <= i < |name| && name[i] == c;
      assert PlainChar(name[i]);
    }
  }

  lemma PlainPartsExactly(parts: seq<Text>)
    ensures PartsAllowed(parts) <==> forall part :: part in parts ==> PlainPart(part)
  {
  }

  /**
   The paths that are kept as they are: not empty, at most 1024 units, relative,
   without control characters, deletes and backslashes, and no part between two
   slashes is empty, "." or "..".
   */
  lemma KeptExactly(name: Text)
    ensures PackageRelativePath(name) == Ok(name) <==>
      1 <= |name| <= 1024 && name[0] != 0x2F && CharsAllowed(name) && PartsAllowed(Split(name))
  {
    hide Split, StripDots, StripSlash, CharsAllowed, PartsAllowed, PlainChar, PlainPart;
    PlainCharsExactly(name);
    PlainPartsExactly(Split(name));
    if Normal(name) { NormalIsStripped(name); }
  }

  function Dots(k: nat): Text {
    if k == 0 then [] else [DOT, SLASH] + Dots(k - 1)
  }

  lemma {:induction false} StripsTheDots(k: nat, v: Text)
    ensures StripDots(Dots(k) + v) == StripDots(v)
  {
    if k == 0 {
      assert Dots(0) + v == v;
    } else {
      StripsTheDots(k - 1, v);
      var rest := Dots(k - 1) + v;
      assert Dots(k) + v == [DOT, SLASH] + rest;
      StripOne(rest);
    }
  }

  lemma StripOne(v: Text)
    ensures StripDots([DOT, SLASH] + v) == StripDots(v)
  {
    assert ([DOT, SLASH] + v)[2..] == v;
  }

  lemma {:induction false} StrippedIsDots(v: Text) returns (k: nat)
    ensures v == Dots(k) + StripDots(v)
  {
    if |v| >= 2 && v[0] == DOT && v[1] == SLASH {
      var j := StrippedIsDots(v[2..]);
      k := j + 1;
      assert v == [DOT, SLASH] + v[2..];
    } else {
      k := 0;
      assert Dots(0) + v == v;
    }
  }

  /** `value` is the name behind any number of "./" and before at most one slash. */
  ghost predicate Writes(value: Text, name: Text) {
    exists k: nat :: value == Dots(k) + name || value == Dots(k) + (name + [SLASH])
  }

  /** The accepted inputs are exactly the ways to write a normal name, and each yields that name. */
  lemma AcceptsExactlyNormalNames(value: Text, name: Text)
    ensures PackageRelativePath(value) == Ok(name) <==> Normal(name) && Writes(value, name)
  {
    if Normal(name) && Writes(value, name) {
      NormalIsStripped(name);
      var k: nat :| value == Dots(k) + name || value == Dots(k) + (name + [SLASH]);
      StripsTheDots(k, name);
      StripsTheDots(k, name + [SLASH]);
    }
    if PackageRelativePath(value) == Ok(name) {
      var k := StrippedIsDots(value);
      assert value == Dots(k) + name || value == Dots(k) + (name + [SLASH]);
    }
  }

  // ----- Joined to a root -----

  /** How a POSIX path join resolves further parts below a directory given by its own parts. */
  function Resolve(root: seq<Text>, parts: seq<Text>): seq<Text>
    decreases |parts|
  {
    if parts == [] then root
    else if parts[0] == [] || parts[0] == [DOT] then Resolve(root, parts[1..])
    else if parts[0] == [DOT, DOT] then Resolve(if root == [] then [] else root[..|root| - 1], parts[1..])
    else Resolve(root + [parts[0]], parts[1..])
  }

  lemma {:induction false} PlainPartsAppend(root: seq<Text>, parts: seq<Text>)
    requires forall part :: part in parts ==> PlainPart(part)
    ensures Resolve(root, parts) == root + parts
    decreases |parts|
  {
    if parts == [] {
      assert root + parts == root;
    } else {
      assert parts[0] in parts && forall part :: part in parts[1..] ==> part in parts;
      PlainPartsAppend(root + [parts[0]], parts[1..]);
      assert root + [parts[0]] + parts[1..] == root + parts;
    }
  }

  /** Joined to any root, an accepted path lies strictly below it, at exactly its own parts. */
  lemma StaysBelowAnyRoot(root: seq<Text>, value: Text)
    requires PackageRelativePath(value).Ok?
    ensures var parts := Split(PackageRelativePath(value).value);
      && Resolve(root, parts) == root + parts && root < Resolve(root, parts)
      && JoinParts(parts) == PackageRelativePath(value).value
  {
    var parts := Split(PackageRelativePath(value).value);
    PlainPartsAppend(root, parts);
    JoinSplit(PackageRelativePath(value).value);
  }
}
