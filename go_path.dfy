/**
 * Go's `path.Clean` and `path.Join`. A path is walked element by element
 * between slashes: empty and "." elements vanish, ".." removes the element
 * kept before it (at the root of a rooted path it is dropped, at the start
 * of a relative path it stays), and the kept elements are joined again.
 */
module GoPath {
  import opened GoStrings

  /** No two adjacent slashes. */
  predicate NoDoubleSlash(s: string) {
    |s| <= 1 || (!(s[0] == '/' && s[1] == '/') && NoDoubleSlash(s[1..]))
  }

  /** A string without slashes has no double slash. */
  lemma {:induction false} SlashFree(s: string)
    requires '/' !in s
    ensures NoDoubleSlash(s)
    decreases |s|
  {
    if |s| > 1 {
      SlashFree(s[1..]);
    }
  }

  /** Gluing two strings without double slashes creates none unless both sides of the seam are slashes. */
  lemma {:induction false} NoDoubleSlashConcat(a: string, b: string)
    requires NoDoubleSlash(a) && NoDoubleSlash(b)
    requires a != [] && b != [] && !(a[|a| - 1] == '/' && b[0] == '/')
    ensures NoDoubleSlash(a + b)
    decreases |a|
  {
    var ab := a + b;
    if |a| == 1 {
      assert ab[0] == a[0] && ab[1] == b[0] && ab[1..] == b;
    } else {
      assert ab[0] == a[0] && ab[1] == a[1] && ab[1..] == a[1..] + b;
      NoDoubleSlashConcat(a[1..], b);
    }
  }

  /** The element ".", the current directory. */
  predicate IsDot(e: string) {
    |e| == 1 && e[0] == '.'
  }

  /** The element "..", the parent directory. */
  predicate IsDotDot(e: string) {
    |e| == 2 && e[0] == '.' && e[1] == '.'
  }

  /** An element that Clean keeps: not empty, without a slash, and not ".". */
  predicate Kept(e: string) {
    e != [] && '/' !in e && !IsDot(e)
  }

  /** A kept element that is not "..": it names an entry of a directory. */
  predicate Plain(e: string) {
    Kept(e) && !IsDotDot(e)
  }

  predicate NoDotDot(elems: seq<string>) {
    forall i :: 0 <= i < |elems| ==> !IsDotDot(elems[i])
  }

  predicate AllKept(elems: seq<string>) {
    forall i :: 0 <= i < |elems| ==> Kept(elems[i])
  }

  predicate AllPlain(elems: seq<string>) {
    forall i :: 0 <= i < |elems| ==> Plain(elems[i])
  }

  predicate SlashFreeElements(elems: seq<string>) {
    forall i :: 0 <= i < |elems| ==> '/' !in elems[i]
  }

  /** Clean's treatment of one element, given the elements kept so far. */
  function Step(kept: seq<string>, e: string, rooted: bool): seq<string> {
    if e == [] || IsDot(e) then kept
    else if IsDotDot(e) then
      if |kept| > 0 && !IsDotDot(kept[|kept| - 1]) then kept[..|kept| - 1]
      else if rooted then kept
      else kept + [e]
    else kept + [e]
  }

  /**
   * Clean's walk over the elements of a path, left to right. Only kept
   * elements survive, and under a root no ".." does.
   */
  function Resolve(elems: seq<string>, kept: seq<string>, rooted: bool): seq<string>
    decreases |elems|
  {
    if elems == [] then kept
    else Resolve(elems[1..], Step(kept, elems[0], rooted), rooted)
  }

  /** Only kept elements survive the walk, and under a root no ".." does. */
  lemma {:induction false} ResolveKept(elems: seq<string>, kept: seq<string>, rooted: bool)
    requires SlashFreeElements(elems) && AllKept(kept)
    ensures AllKept(Resolve(elems, kept, rooted))
    ensures rooted && AllPlain(kept) ==> AllPlain(Resolve(elems, kept, rooted))
    decreases |elems|
  {
    if elems != [] {
      var next := Step(kept, elems[0], rooted);
      assert AllKept(next) && (rooted && AllPlain(kept) ==> AllPlain(next)) by {
        var e := elems[0];
        if |kept| > 0 && IsDotDot(e) {
          assert forall i :: 0 <= i < |kept| - 1 ==> kept[..|kept| - 1][i] == kept[i];
        }
      }
      assert SlashFreeElements(elems[1..]) by {
        assert forall i :: 0 <= i < |elems| - 1 ==> elems[1..][i] == elems[i + 1];
      }
      ResolveKept(elems[1..], next, rooted);
    }
  }

  /** The elements joined with slashes; no elements give the empty string. */
  function JoinElements(elems: seq<string>): string {
    if elems == [] then "" else GoStrings.Join(elems, '/')
  }

  /**
   * Go's path.Clean: the empty path becomes "."; otherwise the kept elements
   * are joined with single slashes, after a leading slash when the path is
   * rooted, and a relative path with nothing kept becomes ".".
   */
  function Clean(s: string): string {
    if s == "" then "."
    else
      var kept := Resolve(Split(s, '/'), [], s[0] == '/');
      if s[0] == '/' then "/" + JoinElements(kept)
      else if kept == [] then "."
      else JoinElements(kept)
  }

  /**
   * Clean's result is never empty, is rooted exactly when its input is, holds
   * no double slash and ends in a slash only when it is "/".
   */
  lemma CleanShape(s: string)
    ensures var r := Clean(s);
      r != "" && (s != "" ==> (r[0] == '/' <==> s[0] == '/'))
      && NoDoubleSlash(r) && (|r| > 1 ==> r[|r| - 1] != '/')
  {
    if s != "" {
      ResolveKept(Split(s, '/'), [], s[0] == '/');
      JoinedShape(Resolve(Split(s, '/'), [], s[0] == '/'));
    }
  }

  /** Kept elements joined with slashes neither start nor end with one, nor hold two in a row. */
  lemma {:induction false} JoinedShape(elems: seq<string>)
    requires AllKept(elems)
    ensures var j := JoinElements(elems);
      (elems != [] ==> j != "" && j[0] != '/' && j[|j| - 1] != '/')
      && NoDoubleSlash(j) && NoDoubleSlash("/" + j)
    decreases |elems|
  {
    var j := JoinElements(elems);
    if elems != [] {
      if |elems| == 1 {
        GlueSegment(elems[0], "");
      } else {
        JoinedShape(elems[1..]);
        GlueSegment(elems[0], JoinElements(elems[1..]));
      }
    }
    LeadingSlash(j);
  }

  /** A kept element, then a slash and a well-formed rest, is well formed. */
  lemma GlueSegment(e: string, rest: string)
    requires Kept(e)
    requires NoDoubleSlash(rest)
    requires rest != "" ==> rest[0] != '/' && rest[|rest| - 1] != '/'
    ensures var j := if rest == "" then e else e + "/" + rest;
      j != "" && j[0] != '/' && j[|j| - 1] != '/' && NoDoubleSlash(j)
  {
    SlashFree(e);
    assert e[0] in e && e[|e| - 1] in e;
    if rest != "" {
      var t := "/" + rest;
      assert t[1..] == rest;
      NoDoubleSlashConcat(e, t);
      Assoc(e, "/", rest);
      var j := e + t;
      assert j[0] == e[0];
      assert j[|j| - 1] == rest[|rest| - 1];
    }
  }

  /** A slash before a string that does not start with one adds no double slash. */
  lemma LeadingSlash(j: string)
    requires NoDoubleSlash(j) && (j != "" ==> j[0] != '/')
    ensures NoDoubleSlash("/" + j)
  {
    var sj := "/" + j;
    assert sj[1..] == j;
  }

  /** Go's path.Join of two elements: empty elements are skipped, the rest joined with "/" and cleaned. */
  function Join(a: string, b: string): string {
    if a != "" then Clean(a + "/" + b)
    else if b != "" then Clean(b)
    else ""
  }

  /** Resolving two runs of elements is resolving the first, then the second from there. */
  lemma {:induction false} ResolveConcat(x: seq<string>, y: seq<string>, kept: seq<string>, rooted: bool)
    ensures Resolve(x + y, kept, rooted) == Resolve(y, Resolve(x, kept, rooted), rooted)
    decreases |x|
  {
    if x != [] {
      assert (x + y)[0] == x[0] && (x + y)[1..] == x[1..] + y;
      ResolveConcat(x[1..], y, Step(kept, x[0], rooted), rooted);
    } else {
      assert x + y == y;
    }
  }

  /** Plain elements are appended as they are. */
  lemma {:induction false} ResolvePlain(elems: seq<string>, kept: seq<string>, rooted: bool)
    requires AllPlain(elems)
    ensures Resolve(elems, kept, rooted) == kept + elems
    decreases |elems|
  {
    if elems != [] {
      var e := elems[0];
      assert Plain(e);
      assert Step(kept, e, rooted) == kept + [e];
      assert AllPlain(elems[1..]) by {
        forall i | 0 <= i < |elems| - 1 ensures Plain(elems[1..][i]) {
          assert elems[1..][i] == elems[i + 1];
        }
      }
      ResolvePlain(elems[1..], kept + [e], rooted);
      assert kept + [e] + elems[1..] == kept + elems;
    }
  }

  /** Without a ".." element, nothing kept so far is removed. */
  lemma {:induction false} ResolveKeeps(elems: seq<string>, kept: seq<string>, rooted: bool)
    requires NoDotDot(elems)
    ensures var r := Resolve(elems, kept, rooted);
      |r| >= |kept| && r[..|kept|] == kept
    decreases |elems|
  {
    if elems != [] {
      var next := Step(kept, elems[0], rooted);
      assert next[..|kept|] == kept;
      ResolveKeeps(elems[1..], next, rooted);
      var r := Resolve(elems, kept, rooted);
      assert r[..|next|][..|kept|] == r[..|kept|];
    }
  }

  /**
   * Joining under a rooted path walks the base's elements and then the
   * second path's, starting from the root.
   */
  lemma JoinRooted(a: string, b: string)
    requires a != "" && a[0] == '/'
    ensures Join(a, b) == "/" + JoinElements(Resolve(Split(b, '/'), Resolve(Split(a, '/'), [], true), true))
  {
    var s := a + "/" + b;
    assert s[0] == '/';
    SplitConcat(a, b, '/');
    ResolveConcat(Split(a, '/'), Split(b, '/'), [], true);
  }

  /** A rooted path splits into an empty first element and then its own elements. */
  lemma SplitRooted(s: string)
    ensures Split("/" + s, '/') == [""] + Split(s, '/')
  {
    assert "/" + s == "" + "/" + s;
    SplitConcat("", s, '/');
  }

  /** A rooted join of slash-free elements splits back into the root's empty element and the elements. */
  lemma RootedElements(elems: seq<string>)
    requires |elems| >= 1 && SlashFreeElements(elems)
    ensures Split("/" + GoStrings.Join(elems, '/'), '/') == [""] + elems
  {
    SplitRooted(GoStrings.Join(elems, '/'));
    JoinSplit(elems, '/');
  }

  /** A ".." element removes the last plain element kept. */
  lemma ResolveDotDot(kept: seq<string>, e: string, d: string, rooted: bool)
    requires Plain(e) && IsDotDot(d)
    ensures Resolve([d], kept + [e], rooted) == kept
  {
    assert [d][1..] == [];
    assert (kept + [e])[..|kept|] == kept;
  }

  /** An empty element changes nothing. */
  lemma ResolveEmpty(elems: seq<string>, kept: seq<string>, rooted: bool)
    ensures Resolve([""] + elems, kept, rooted) == Resolve(elems, kept, rooted)
  {
    assert ([""] + elems)[1..] == elems;
  }

  /** A rooted path made of plain elements resolves to those elements. */
  lemma ResolveRootedPlain(elems: seq<string>)
    requires |elems| >= 1 && AllPlain(elems)
    ensures Resolve(Split("/" + GoStrings.Join(elems, '/'), '/'), [], true) == elems
  {
    RootedElements(elems);
    ResolveEmpty(elems, [], true);
    ResolvePlain(elems, [], true);
    assert [] + elems == elems;
  }

  /** A rooted path of plain elements resolves, after kept elements, to those followed by its elements. */
  lemma ResolveRootedAfter(rest: string, kept: seq<string>)
    requires AllPlain(Split(rest, '/'))
    ensures Resolve(Split("/" + rest, '/'), kept, true) == kept + Split(rest, '/')
  {
    SplitRooted(rest);
    ResolveEmpty(Split(rest, '/'), kept, true);
    ResolvePlain(Split(rest, '/'), kept, true);
  }

  /**
   * Joining a rooted path of plain elements under a rooted base that resolves
   * to `base` appends those elements after the base's.
   */
  lemma JoinUnderResolved(a: string, base: seq<string>, rest: string)
    requires a != "" && a[0] == '/'
    requires |base| >= 1 && Resolve(Split(a, '/'), [], true) == base
    requires AllPlain(Split(rest, '/'))
    ensures Join(a, "/" + rest) == "/" + GoStrings.Join(base, '/') + "/" + rest
  {
    var j := GoStrings.Join(base, '/');
    calc {
      Join(a, "/" + rest);
    == { JoinRooted(a, "/" + rest); }
      "/" + JoinElements(Resolve(Split("/" + rest, '/'), base, true));
    == { ResolveRootedAfter(rest, base); }
      "/" + JoinElements(base + Split(rest, '/'));
    == { JoinAfterBase(base, rest); }
      "/" + (j + "/" + rest);
    == { Assoc("/", j + "/", rest); Assoc("/", j, "/"); }
      "/" + j + "/" + rest;
    }
  }

  /**
   * Joining plain elements under a rooted base made of plain elements appends
   * them after one slash.
   */
  lemma JoinSegment(base: seq<string>, rest: string)
    requires |base| >= 1 && AllPlain(base)
    requires AllPlain(Split(rest, '/'))
    ensures Join("/" + GoStrings.Join(base, '/'), "/" + rest) == "/" + GoStrings.Join(base, '/') + "/" + rest
  {
    ResolveRootedPlain(base);
    JoinUnderResolved("/" + GoStrings.Join(base, '/'), base, rest);
  }

  /** The elements of a base followed by those of a relative path join to the two, slash-separated. */
  lemma JoinAfterBase(base: seq<string>, rest: string)
    requires |base| >= 1
    ensures JoinElements(base + Split(rest, '/')) == GoStrings.Join(base, '/') + "/" + rest
  {
    JoinAppend(base, Split(rest, '/'), '/');
    SplitJoin(rest, '/');
  }

  /**
   * Without a ".." element in the joined path, the result begins with the
   * rooted base of plain elements, followed by the end or a slash.
   */
  lemma JoinKeepsBase(base: seq<string>, b: string)
    requires |base| >= 1 && AllPlain(base)
    requires NoDotDot(Split(b, '/'))
    ensures var a := "/" + GoStrings.Join(base, '/');
      var r := Join(a, b);
      HasPrefix(r, a) && (|r| == |a| || r[|a|] == '/')
  {
    var a := "/" + GoStrings.Join(base, '/');
    ResolveRootedPlain(base);
    JoinRooted(a, b);
    ResolveKeeps(Split(b, '/'), base, true);
    RootedPrefix(base, Resolve(Split(b, '/'), base, true));
  }

  /** Elements that extend `base` join, after the root, to an extension of the joined base at a slash. */
  lemma RootedPrefix(base: seq<string>, kept: seq<string>)
    requires |base| >= 1 && |kept| >= |base| && kept[..|base|] == base
    ensures var a := "/" + GoStrings.Join(base, '/');
      var r := "/" + JoinElements(kept);
      HasPrefix(r, a) && (|r| == |a| || r[|a|] == '/')
  {
    var j := GoStrings.Join(base, '/');
    var a := "/" + j;
    var r := "/" + JoinElements(kept);
    if |kept| == |base| {
      assert kept == kept[..|base|] == base;
    } else {
      var more := kept[|base|..];
      assert kept == base + more;
      JoinAppend(base, more, '/');
      var tail := "/" + GoStrings.Join(more, '/');
      Assoc("/", j, tail);
      Assoc(j, "/", GoStrings.Join(more, '/'));
      assert r == a + tail;
      assert r[..|a|] == a;
      assert r[|a|] == tail[0];
    }
  }

  /** A rooted path that starts with two copies of an element splits into the root, those and the rest. */
  lemma SplitUpTwice(d: string, rest: string)
    requires '/' !in d
    ensures Split("/" + (d + "/" + d + "/" + rest), '/') == ["", d, d] + Split(rest, '/')
  {
    var up := d + "/" + d + "/" + rest;
    Assoc(d + "/", d + "/", rest);
    Assoc(d + "/", d, "/");
    SplitRooted(up);
    SplitAtSeparator(d, d + "/" + rest, '/');
    SplitAtSeparator(d, rest, '/');
    ConsThree("", d, d, Split(rest, '/'));
  }

  /**
   * Two ".." elements at the start of the joined path remove the last two
   * elements of a rooted base of plain elements.
   */
  lemma JoinClimbsTwo(base: seq<string>, e: string, f: string, d: string, rest: string)
    requires |base| >= 1 && AllPlain(base) && Plain(e) && Plain(f) && IsDotDot(d)
    requires AllPlain(Split(rest, '/'))
    ensures Join("/" + GoStrings.Join(base + [e, f], '/'), "/" + (d + "/" + d + "/" + rest))
         == "/" + GoStrings.Join(base, '/') + "/" + rest
  {
    var all := base + [e, f];
    PlainAppend(base, [e, f]);
    ResolveRootedPlain(all);
    ResolveClimb(base, e, f, d, rest);
    JoinOfResolved("/" + GoStrings.Join(all, '/'), "/" + (d + "/" + d + "/" + rest), base, rest);
  }

  /**
   * Joining under a rooted base whose walk, continued over the joined path,
   * ends at `base` followed by the elements of rest.
   */
  lemma JoinOfResolved(a: string, b: string, base: seq<string>, rest: string)
    requires a != "" && a[0] == '/' && |base| >= 1
    requires Resolve(Split(b, '/'), Resolve(Split(a, '/'), [], true), true) == base + Split(rest, '/')
    ensures Join(a, b) == "/" + GoStrings.Join(base, '/') + "/" + rest
  {
    var j := GoStrings.Join(base, '/');
    JoinRooted(a, b);
    JoinAfterBase(base, rest);
    Assoc("/", j + "/", rest);
    Assoc("/", j, "/");
  }

  /** Two ".." elements after `base/e/f` climb back to base; plain elements then follow. */
  lemma ResolveClimb(base: seq<string>, e: string, f: string, d: string, rest: string)
    requires Plain(e) && Plain(f) && IsDotDot(d) && AllPlain(Split(rest, '/'))
    ensures Resolve(Split("/" + (d + "/" + d + "/" + rest), '/'), base + [e, f], true)
         == base + Split(rest, '/')
  {
    var parts := Split(rest, '/');
    DotDotHasNoSlash(d);
    SplitUpTwice(d, rest);
    ResolveConcat(["", d, d], parts, base + [e, f], true);
    ClimbTwo(base, e, f, d);
    ResolvePlain(parts, base, true);
  }

  /** From two plain elements on top of the kept ones, a root, then two ".." elements, remove both. */
  lemma ClimbTwo(base: seq<string>, e: string, f: string, d: string)
    requires Plain(e) && Plain(f) && IsDotDot(d)
    ensures Resolve(["", d, d], base + [e, f], true) == base
  {
    var all := base + [e, f];
    Snoc(base, e, f);
    ConsThree("", d, d, []);
    assert ["", d, d] == [""] + ([d] + [d]);
    ResolveEmpty([d] + [d], all, true);
    ResolveConcat([d], [d], all, true);
    ResolveDotDot(base + [e], f, d, true);
    ResolveDotDot(base, e, d, true);
  }

  /**
   * A base ending in `<e>/..` is the base without e: joining under it is
   * joining under what precedes e.
   */
  lemma JoinAfterDotDot(base: seq<string>, e: string, d: string, rest: string)
    requires |base| >= 1 && AllPlain(base) && Plain(e) && IsDotDot(d)
    requires AllPlain(Split(rest, '/'))
    ensures Join("/" + GoStrings.Join(base + [e, d], '/'), "/" + rest)
         == "/" + GoStrings.Join(base, '/') + "/" + rest
  {
    ResolveAfterDotDot(base, e, d);
    JoinUnderResolved("/" + GoStrings.Join(base + [e, d], '/'), base, rest);
  }

  /** A rooted path of plain elements ending in `<e>/..` resolves to the elements before e. */
  lemma ResolveAfterDotDot(base: seq<string>, e: string, d: string)
    requires |base| >= 1 && AllPlain(base) && Plain(e) && IsDotDot(d)
    ensures Resolve(Split("/" + GoStrings.Join(base + [e, d], '/'), '/'), [], true) == base
  {
    var front := base + [e];
    var all := base + [e, d];
    Snoc(base, e, d);
    PlainAppend(base, [e]);
    assert SlashFreeElements(all) by {
      DotDotHasNoSlash(d);
      assert forall i :: 0 <= i < |front| ==> all[i] == front[i];
      assert all[|front|] == d;
    }
    RootedElements(all);
    ResolveEmpty(all, [], true);
    ResolveConcat(front, [d], [], true);
    ResolvePlain(front, [], true);
    assert [] + front == front;
    assert base[0] == front[0];
    ResolveDotDot(base, e, d, true);
  }

  /** The element ".." holds no slash. */
  lemma DotDotHasNoSlash(d: string)
    requires IsDotDot(d)
    ensures '/' !in d
  {
    assert d == [d[0], d[1]];
  }

  /** Two runs of plain elements make one. */
  lemma PlainAppend(a: seq<string>, b: seq<string>)
    requires AllPlain(a) && AllPlain(b)
    ensures AllPlain(a + b)
  {
    forall i | 0 <= i < |a + b| ensures Plain((a + b)[i]) {
      if i >= |a| {
        assert (a + b)[i] == b[i - |a|];
      }
    }
  }
}
