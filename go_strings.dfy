/**
 * The handful of Go `strings` operations the proxy relies on, written over
 * `seq<char>`: `Split` with a one-character separator, its inverse `Join`,
 * `ReplaceAll`, `Replace` limited to the first occurrence, and the
 * prefix/suffix/containment tests.
 */
module GoStrings {

  /** `s` begins with `p` (Go's strings.HasPrefix). */
  predicate HasPrefix(s: string, p: string) {
    |p| <= |s| && s[..|p|] == p
  }

  /** `s` ends with `x` (Go's strings.HasSuffix). */
  predicate HasSuffix(s: string, x: string) {
    |x| <= |s| && s[|s| - |x|..] == x
  }

  /** A suffix fixes the characters at the end of the string. */
  lemma SuffixChar(s: string, x: string, k: nat)
    requires HasSuffix(s, x) && 1 <= k <= |x|
    ensures s[|s| - k] == x[|x| - k]
  {
    assert s[|s| - |x|..][|x| - k] == s[|s| - k];
  }

  /** A suffix of the tail is a suffix of the whole. */
  lemma SuffixAfter(a: string, b: string, x: string)
    requires HasSuffix(b, x)
    ensures HasSuffix(a + b, x)
  {
    assert (a + b)[|a + b| - |x|..] == b[|b| - |x|..];
  }

  /** A suffix no longer than `b` is a suffix of `a + b` exactly when it is one of `b`. */
  lemma SuffixAfterIff(a: string, b: string, x: string)
    requires |x| <= |b|
    ensures HasSuffix(a + b, x) <==> HasSuffix(b, x)
  {
    assert (a + b)[|a + b| - |x|..] == b[|b| - |x|..];
  }

  /**
   * A suffix that does not hold the character `d` and is not a suffix of `q`
   * is not a suffix of `w + [d] + q` either: it cannot reach back past `d`.
   */
  lemma SuffixStopsAt(w: string, d: char, q: string, x: string)
    requires d !in x && !HasSuffix(q, x)
    ensures !HasSuffix(w + [d] + q, x)
  {
    var s := w + [d] + q;
    if |x| <= |q| {
      assert s[|s| - |x|..] == q[|q| - |x|..];
    } else if |x| <= |s| {
      assert s[|s| - |x|..][|x| - |q| - 1] == d;
    }
  }

  /** Regrouping a concatenation of three sequences. */
  lemma Assoc<T>(a: seq<T>, b: seq<T>, c: seq<T>)
    ensures a + (b + c) == a + b + c
  {
  }

  /** Regrouping a concatenation of four sequences. */
  lemma ConcatAssoc<T>(a: seq<T>, b: seq<T>, c: seq<T>, d: seq<T>)
    ensures a + (b + c + d) == (a + b) + c + d
  {
  }

  /** Three elements put in front one by one. */
  lemma ConsThree<T>(x: T, y: T, z: T, tail: seq<T>)
    ensures [x] + ([y] + ([z] + tail)) == [x, y, z] + tail
  {
  }

  /** Appending two elements is appending one, then the other. */
  lemma Snoc<T>(s: seq<T>, x: T, y: T)
    ensures s + [x, y] == (s + [x]) + [y]
  {
  }

  /** `p` occurs in `s` starting at index `i`. */
  predicate OccursAt(s: string, p: string, i: nat) {
    i + |p| <= |s| && s[i..i + |p|] == p
  }

  /** Go's strings.Contains. */
  predicate Contains(s: string, p: string) {
    exists i: nat | i <= |s| :: OccursAt(s, p, i)
  }

  /** Number of occurrences of the character `c` in `s`. */
  function Count(s: string, c: char): (n: nat)
    ensures n > 0 <==> c in s
    ensures n <= |s|
  {
    if s == [] then 0 else (if s[0] == c then 1 else 0) + Count(s[1..], c)
  }

  /**
   * Go's strings.Split(s, sep) for a one-character separator: the pieces
   * between separators, always at least one (the empty string splits into [""]).
   */
  function Split(s: string, sep: char): (parts: seq<string>)
    ensures |parts| == Count(s, sep) + 1
    ensures forall i :: 0 <= i < |parts| ==> sep !in parts[i]
    decreases |s|
  {
    if s == [] then [""]
    else
      var rest := Split(s[1..], sep);
      if s[0] == sep then [""] + rest
      else [[s[0]] + rest[0]] + rest[1..]
  }

  /** Go's strings.Join with a one-character separator. */
  function Join(parts: seq<string>, sep: char): string
    requires |parts| >= 1
    decreases |parts|
  {
    if |parts| == 1 then parts[0] else parts[0] + [sep] + Join(parts[1..], sep)
  }

  /** Joining the pieces of a split gives back the original string. */
  lemma {:induction false} SplitJoin(s: string, sep: char)
    ensures Join(Split(s, sep), sep) == s
    decreases |s|
  {
    if s != [] {
      var rest := Split(s[1..], sep);
      SplitJoin(s[1..], sep);
      if s[0] == sep {
        JoinCons("", rest, sep);
        assert "" + [sep] + s[1..] == s;
      } else {
        JoinHead(s[0], rest, sep);
        assert [s[0]] + s[1..] == s;
      }
    }
  }

  /** Joining after a leading piece puts the piece and a separator in front. */
  lemma JoinCons(x: string, parts: seq<string>, sep: char)
    requires |parts| >= 1
    ensures Join([x] + parts, sep) == x + [sep] + Join(parts, sep)
  {
    assert ([x] + parts)[1..] == parts;
  }

  /** Prefixing the first piece with `c` prefixes the joined string with `c`. */
  lemma JoinHead(c: char, parts: seq<string>, sep: char)
    requires |parts| >= 1
    ensures Join([[c] + parts[0]] + parts[1..], sep) == [c] + Join(parts, sep)
  {
    if |parts| > 1 {
      var tail := Join(parts[1..], sep);
      JoinCons([c] + parts[0], parts[1..], sep);
      assert Join(parts, sep) == parts[0] + [sep] + tail;
      ConcatAssoc([c], parts[0], [sep], tail);
    }
  }


  /** A join starts with its first piece, followed by a separator when there are more. */
  lemma JoinFirst(parts: seq<string>, sep: char)
    requires |parts| >= 1
    ensures |parts| == 1 ==> Join(parts, sep) == parts[0]
    ensures |parts| > 1 ==> Join(parts, sep) == parts[0] + [sep] + Join(parts[1..], sep)
    ensures HasPrefix(Join(parts, sep), parts[0])
    ensures |parts| > 1 ==> |Join(parts, sep)| > |parts[0]| && Join(parts, sep)[|parts[0]|] == sep
  {
    if |parts| > 1 {
      var j := Join(parts, sep);
      assert j == parts[0] + ([sep] + Join(parts[1..], sep));
      assert j[..|parts[0]|] == parts[0];
      assert j[|parts[0]|] == sep;
    }
  }

  /**
   * The first two or three pieces of a split, with their separators, begin the
   * string; the third piece ends where the string ends or at a separator.
   */
  lemma SplitLeadingPieces(s: string, sep: char)
    requires sep in s
    ensures var parts := Split(s, sep);
      |parts| >= 2
      && (|parts| == 2 ==> s == parts[0] + [sep] + parts[1])
      && (|parts| > 2 ==>
            var p := parts[0] + [sep] + parts[1] + [sep] + parts[2];
            HasPrefix(s, p) && (|s| == |p| || s[|p|] == sep))
  {
    SplitJoin(s, sep);
    JoinLeadingPieces(Split(s, sep), sep);
  }

  /**
   * The first two or three pieces of a join, with their separators, begin it;
   * the third piece is followed by the end or by a separator.
   */
  lemma JoinLeadingPieces(parts: seq<string>, sep: char)
    requires |parts| >= 2
    ensures |parts| == 2 ==> Join(parts, sep) == parts[0] + [sep] + parts[1]
    ensures |parts| > 2 ==>
      var p := parts[0] + [sep] + parts[1] + [sep] + parts[2];
      var j := Join(parts, sep);
      HasPrefix(j, p) && (|j| == |p| || j[|p|] == sep)
  {
    var t1 := parts[1..];
    JoinFirst(parts, sep);
    JoinFirst(t1, sep);
    assert t1[0] == parts[1];
    if |parts| > 2 {
      var t2 := t1[1..];
      assert t2[0] == parts[2];
      JoinFirst(t2, sep);
      var a := parts[0] + [sep] + parts[1] + [sep];
      var j2 := Join(t2, sep);
      PrefixAfter(a, j2, parts[2]);
      assert Join(parts, sep) == a + j2;
      var j := a + j2;
      if |t2| > 1 {
        assert j[|a + parts[2]|] == j2[|parts[2]|];
      } else {
        assert |j| == |a + parts[2]|;
      }
    }
  }

  /** Putting the same string in front keeps a prefix a prefix. */
  lemma PrefixAfter(a: string, b: string, p: string)
    requires HasPrefix(b, p)
    ensures HasPrefix(a + b, a + p)
  {
    assert (a + b)[..|a + p|] == a + b[..|p|];
  }

  /**
   * A first piece free of the separator stays glued to the first piece of
   * whatever follows it.
   */
  lemma {:induction false} SplitAfterFree(a: string, b: string, sep: char)
    requires sep !in a
    ensures Split(a + b, sep) == [a + Split(b, sep)[0]] + Split(b, sep)[1..]
    decreases |a|
  {
    var sb := Split(b, sep);
    if a == [] {
      assert a + b == b && a + sb[0] == sb[0];
      assert sb == [sb[0]] + sb[1..];
    } else {
      var rest := Split((a + b)[1..], sep);
      assert (a + b)[0] == a[0] && (a + b)[1..] == a[1..] + b;
      assert Split(a + b, sep) == [[a[0]] + rest[0]] + rest[1..];
      SplitAfterFree(a[1..], b, sep);
      assert rest[0] == a[1..] + sb[0] && rest[1..] == sb[1..];
      Assoc([a[0]], a[1..], sb[0]);
      assert [a[0]] + a[1..] == a;
    }
  }

  /** A string without the separator splits into itself. */
  lemma SplitFree(a: string, sep: char)
    requires sep !in a
    ensures Split(a, sep) == [a]
  {
    SplitAfterFree(a, "", sep);
    assert a + "" == a;
  }

  /** Splitting `a + sep + b` with `a` free of the separator peels off `a`. */
  lemma SplitAtSeparator(a: string, b: string, sep: char)
    requires sep !in a
    ensures Split(a + [sep] + b, sep) == [a] + Split(b, sep)
  {
    var t := [sep] + b;
    SplitAfterFree(a, t, sep);
    assert a + [sep] + b == a + t;
    assert t[0] == sep && t[1..] == b;
    assert Split(t, sep) == [""] + Split(b, sep);
    assert a + "" == a;
  }

  /** One step of Split: the first character either ends the first piece or joins it. */
  lemma SplitCons(c: char, r: string, sep: char)
    ensures Split([c] + r, sep) ==
      if c == sep then [""] + Split(r, sep) else [[c] + Split(r, sep)[0]] + Split(r, sep)[1..]
  {
    assert ([c] + r)[0] == c && ([c] + r)[1..] == r;
  }

  /** The step of SplitCons commutes with appending further pieces. */
  lemma StepOverConcat(c: char, a: seq<string>, b: seq<string>, sep: char)
    requires |a| >= 1
    ensures (if c == sep then [""] + (a + b) else [[c] + (a + b)[0]] + (a + b)[1..])
         == (if c == sep then [""] + a else [[c] + a[0]] + a[1..]) + b
  {
    if c != sep {
      assert (a + b)[1..] == a[1..] + b;
    }
  }

  /** Splitting at a separator between two strings splits each side on its own. */
  lemma {:induction false} SplitConcat(x: string, y: string, sep: char)
    ensures Split(x + [sep] + y, sep) == Split(x, sep) + Split(y, sep)
    decreases |x|
  {
    if x == [] {
      assert x + [sep] + y == [sep] + y;
      SplitCons(sep, y, sep);
    } else {
      var t := x[1..] + [sep] + y;
      assert x + [sep] + y == [x[0]] + t;
      assert x == [x[0]] + x[1..];
      SplitConcat(x[1..], y, sep);
      SplitCons(x[0], t, sep);
      SplitCons(x[0], x[1..], sep);
      StepOverConcat(x[0], Split(x[1..], sep), Split(y, sep), sep);
    }
  }

  /** Three separator-free fields, optionally followed by more, split into those fields first. */
  lemma SplitThreeFields(a: string, b: string, c: string, rest: string, sep: char)
    requires sep !in a && sep !in b && sep !in c
    requires rest == [] || rest[0] == sep
    ensures var parts := Split(a + [sep] + b + [sep] + c + rest, sep);
      |parts| >= 3 && parts[0] == a && parts[1] == b && parts[2] == c
  {
    var tail := c + rest;
    var inner := b + [sep] + tail;
    var p, q := a + [sep], b + [sep];
    Assoc(p, b, [sep]);
    Assoc(p, q, c);
    Assoc(p, q + c, rest);
    Assoc(q, c, rest);
    assert a + [sep] + b + [sep] + c + rest == a + [sep] + inner;
    SplitAtSeparator(a, inner, sep);
    SplitAtSeparator(b, tail, sep);
    SplitFirstField(c, rest, sep);
  }

  /** A separator-free string followed by nothing or by a separator is the first piece. */
  lemma SplitFirstField(c: string, rest: string, sep: char)
    requires sep !in c
    requires rest == [] || rest[0] == sep
    ensures Split(c + rest, sep)[0] == c
  {
    if rest == [] {
      assert c + rest == c;
      SplitFree(c, sep);
    } else {
      assert c + rest == c + [sep] + rest[1..];
      SplitAtSeparator(c, rest[1..], sep);
    }
  }



  /** Three pieces joined. */
  lemma JoinThree(x: string, y: string, z: string, sep: char)
    ensures Join([x, y, z], sep) == x + [sep] + y + [sep] + z
  {
    JoinCons(x, [y, z], sep);
    JoinCons(y, [z], sep);
    assert [x] + [y, z] == [x, y, z];
  }

  /** Joining two non-empty runs of pieces is joining each and gluing them with a separator. */
  lemma {:induction false} JoinAppend(a: seq<string>, b: seq<string>, sep: char)
    requires |a| >= 1 && |b| >= 1
    ensures Join(a + b, sep) == Join(a, sep) + [sep] + Join(b, sep)
    decreases |a|
  {
    assert (a + b)[0] == a[0];
    if |a| == 1 {
      assert (a + b)[1..] == b;
    } else {
      assert (a + b)[1..] == a[1..] + b;
      JoinAppend(a[1..], b, sep);
      Assoc(a[0] + [sep], Join(a[1..], sep), [sep] + Join(b, sep));
    }
  }

  /** Splitting a join of separator-free pieces gives back the pieces. */
  lemma {:induction false} JoinSplit(parts: seq<string>, sep: char)
    requires |parts| >= 1
    requires forall i :: 0 <= i < |parts| ==> sep !in parts[i]
    ensures Split(Join(parts, sep), sep) == parts
    decreases |parts|
  {
    if |parts| == 1 {
      SplitFree(parts[0], sep);
    } else {
      JoinSplit(parts[1..], sep);
      SplitAtSeparator(parts[0], Join(parts[1..], sep), sep);
      assert [parts[0]] + parts[1..] == parts;
    }
  }

  /**
   * Go's strings.ReplaceAll(s, pat, rep) for a non-empty `pat`: every
   * non-overlapping occurrence, scanning left to right, is replaced.
   */
  function ReplaceAll(s: string, pat: string, rep: string): string
    requires |pat| > 0
    decreases |s|
  {
    if |s| < |pat| then s
    else if s[..|pat|] == pat then rep + ReplaceAll(s[|pat|..], pat, rep)
    else [s[0]] + ReplaceAll(s[1..], pat, rep)
  }

  /**
   * Go's strings.Replace(s, pat, rep, 1) for a non-empty `pat`: only the first
   * occurrence is replaced.
   */
  function ReplaceFirst(s: string, pat: string, rep: string): string
    requires |pat| > 0
    decreases |s|
  {
    if |s| < |pat| then s
    else if s[..|pat|] == pat then rep + s[|pat|..]
    else [s[0]] + ReplaceFirst(s[1..], pat, rep)
  }

  /** ReplaceAll leaves a string without occurrences of `pat` as it is. */
  lemma {:induction false} ReplaceAllAbsent(s: string, pat: string, rep: string)
    requires |pat| > 0
    requires !Contains(s, pat)
    ensures ReplaceAll(s, pat, rep) == s
    decreases |s|
  {
    if |s| >= |pat| {
      assert !OccursAt(s, pat, 0);
      forall i: nat | OccursAt(s[1..], pat, i) ensures OccursAt(s, pat, i + 1) {
        assert s[1..][i..i + |pat|] == s[i + 1..i + 1 + |pat|];
      }
      ReplaceAllAbsent(s[1..], pat, rep);
      assert s == [s[0]] + s[1..];
    }
  }

  /**
   * When the first occurrence of `pat` in `s` is at `i > 0`, `s` does not
   * start with `pat` and the first occurrence in `s[1..]` is at `i - 1`.
   */
  lemma FirstOccurrenceInTail(s: string, pat: string, i: nat)
    requires |pat| > 0 && i > 0
    requires OccursAt(s, pat, i)
    requires forall j: nat :: j < i ==> !OccursAt(s, pat, j)
    ensures |s| > |pat| && s[..|pat|] != pat
    ensures OccursAt(s[1..], pat, i - 1)
    ensures forall j: nat :: j < i - 1 ==> !OccursAt(s[1..], pat, j)
  {
    assert !OccursAt(s, pat, 0);
    assert s[1..][i - 1..i - 1 + |pat|] == s[i..i + |pat|];
    forall j: nat | j < i - 1 ensures !OccursAt(s[1..], pat, j) {
      assert !OccursAt(s, pat, j + 1);
      if j + |pat| <= |s[1..]| {
        assert s[1..][j..j + |pat|] == s[j + 1..j + 1 + |pat|];
      }
    }
  }

  /** An occurrence in `s[1..]` is an occurrence in `s` one place later. */
  lemma OccursShift(s: string, pat: string, j: nat)
    requires |s| > 0
    ensures OccursAt(s[1..], pat, j) <==> OccursAt(s, pat, j + 1)
  {
    if j + 1 + |pat| <= |s| {
      assert s[1..][j..j + |pat|] == s[j + 1..j + 1 + |pat|];
    }
  }

  /**
   * ReplaceAll copies a prefix `u` in which no occurrence of `pat` starts,
   * provided `pat` still fits in what follows it.
   */
  lemma {:induction false} ReplaceAllSkip(u: string, v: string, pat: string, rep: string)
    requires |pat| > 0 && |pat| <= |v|
    requires forall j: nat :: j < |u| ==> !OccursAt(u + v, pat, j)
    ensures ReplaceAll(u + v, pat, rep) == u + ReplaceAll(v, pat, rep)
    decreases |u|
  {
    if u == [] {
      assert u + v == v;
    } else {
      var s := u + v;
      assert !OccursAt(s, pat, 0);
      assert s[1..] == u[1..] + v;
      assert ReplaceAll(s, pat, rep) == [s[0]] + ReplaceAll(s[1..], pat, rep);
      forall j: nat | j < |u| - 1 ensures !OccursAt(u[1..] + v, pat, j) {
        OccursShift(s, pat, j);
      }
      ReplaceAllSkip(u[1..], v, pat, rep);
      Assoc([u[0]], u[1..], ReplaceAll(v, pat, rep));
      assert [u[0]] + u[1..] == u;
    }
  }

  /**
   * ReplaceAll replaces the first occurrence and carries on after it: the text
   * before it is kept, and the rest is processed the same way.
   */
  lemma ReplaceAllAtFirst(s: string, pat: string, rep: string, i: nat)
    requires |pat| > 0
    requires OccursAt(s, pat, i)
    requires forall j: nat :: j < i ==> !OccursAt(s, pat, j)
    ensures ReplaceAll(s, pat, rep) == s[..i] + rep + ReplaceAll(s[i + |pat|..], pat, rep)
  {
    var u, v := s[..i], s[i..];
    assert s == u + v;
    ReplaceAllSkip(u, v, pat, rep);
    assert v[..|pat|] == pat;
    assert v[|pat|..] == s[i + |pat|..];
    Assoc(u, rep, ReplaceAll(v[|pat|..], pat, rep));
  }

  /** Replace(s, pat, rep, 1) rewrites exactly the first occurrence of `pat`. */
  lemma {:induction false} ReplaceFirstAtFirst(s: string, pat: string, rep: string, i: nat)
    requires |pat| > 0
    requires OccursAt(s, pat, i)
    requires forall j: nat :: j < i ==> !OccursAt(s, pat, j)
    ensures ReplaceFirst(s, pat, rep) == s[..i] + rep + s[i + |pat|..]
    decreases i
  {
    if i == 0 {
      assert s[..|pat|] == pat;
      assert s[..i] + rep == rep;
    } else {
      FirstOccurrenceInTail(s, pat, i);
      assert ReplaceFirst(s, pat, rep) == [s[0]] + ReplaceFirst(s[1..], pat, rep);
      ReplaceFirstAtFirst(s[1..], pat, rep, i - 1);
      assert s[1..][i - 1 + |pat|..] == s[i + |pat|..];
      var head, middle := [s[0]], s[1..][..i - 1];
      assert middle == s[1..i];
      assert head + middle == s[..i];
      ConcatAssoc(head, middle, rep, s[i + |pat|..]);
    }
  }

  /** Replace(s, pat, rep, 1) leaves a string without `pat` unchanged. */
  lemma {:induction false} ReplaceFirstAbsent(s: string, pat: string, rep: string)
    requires |pat| > 0
    requires !Contains(s, pat)
    ensures ReplaceFirst(s, pat, rep) == s
    decreases |s|
  {
    if |s| >= |pat| {
      assert !OccursAt(s, pat, 0);
      forall i: nat | OccursAt(s[1..], pat, i) ensures OccursAt(s, pat, i + 1) {
        assert s[1..][i..i + |pat|] == s[i + 1..i + 1 + |pat|];
      }
      ReplaceFirstAbsent(s[1..], pat, rep);
      assert s == [s[0]] + s[1..];
    }
  }

  /** Containing a one-character string is containing that character. */
  lemma ContainsChar(s: string, c: char)
    ensures Contains(s, [c]) <==> c in s
  {
    if c in s {
      var i :| 0 <= i < |s| && s[i] == c;
      assert OccursAt(s, [c], i);
    }
    if Contains(s, [c]) {
      var i: nat :| i <= |s| && OccursAt(s, [c], i);
      assert s[i..i + 1][0] == s[i];
    }
  }

  /** A string that lacks the first character of `p` cannot contain `p`. */
  lemma LacksFirstChar(s: string, p: string)
    requires |p| > 0 && p[0] !in s
    ensures !Contains(s, p)
  {
    forall i: nat | i + |p| <= |s| ensures !OccursAt(s, p, i) {
      assert s[i..i + |p|][0] == s[i];
    }
  }

  /**
   * An occurrence of `p` in `x + [d] + y` lies inside `x` or inside `y` when
   * the character `d` is not part of `p`.
   */
  lemma AbsentAcross(x: string, d: char, y: string, p: string)
    requires |p| > 0 && d !in p
    requires !Contains(x, p) && !Contains(y, p)
    ensures !Contains(x + [d] + y, p)
  {
    var s := x + [d] + y;
    forall i: nat | i <= |s| ensures !OccursAt(s, p, i) {
      if i + |p| <= |s| {
        if i + |p| <= |x| {
          assert s[i..i + |p|] == x[i..i + |p|];
          assert !OccursAt(x, p, i);
        } else if i > |x| {
          assert s[i..i + |p|] == y[i - |x| - 1..i - |x| - 1 + |p|];
          assert !OccursAt(y, p, i - |x| - 1);
        } else {
          assert s[i..i + |p|][|x| - i] == d;
        }
      }
    }
  }
}
