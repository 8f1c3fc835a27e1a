/** String primitives the JavaScript code relies on (`trim`, `toLowerCase`,
    `toUpperCase`, `includes`, `indexOf`, `lastIndexOf`, `split`, `join`,
    `slice`, decimal formatting and parsing), defined over `seq<char>`, one
    element per Unicode code point. Letter case is mapped for ASCII and
    Latin-1 letters and the Kelvin and Angstrom signs. */
module Strings {

  /** The characters `String.prototype.trim` and the regular-expression class
      `\s` treat as white space: ASCII white space, the no-break space, the
      Ogham space mark, the spaces U+2000 to U+200A, the narrow no-break
      space, the medium mathematical space, the ideographic space, the byte
      order mark and the two Unicode line separators. */
  predicate IsSpace(c: char)
  {
    c == ' ' || c == '\t' || c == '\n' || c == '\r' || c == '\U{B}' || c == '\U{C}'
    || c == '\U{A0}' || c == '\U{1680}' || '\U{2000}' <= c <= '\U{200A}'
    || c == '\U{2028}' || c == '\U{2029}' || c == '\U{202F}' || c == '\U{205F}'
    || c == '\U{3000}' || c == '\U{FEFF}'
  }

  predicate AllSpace(s: string)
  {
    forall i :: 0 <= i < |s| ==> IsSpace(s[i])
  }

  predicate IsDigit(c: char) { '0' <= c <= '9' }

  predicate IsLowerAlnum(c: char) { 'a' <= c <= 'z' || '0' <= c <= '9' }

  predicate IsHexDigit(c: char) { '0' <= c <= '9' || 'a' <= c <= 'f' || 'A' <= c <= 'F' }

  /** Leading white space removed. */
  function TrimStart(s: string): (r: string)
    ensures |r| <= |s| && r == s[|s| - |r|..]
    ensures r == [] || !IsSpace(r[0])
    ensures AllSpace(s[..|s| - |r|])
    decreases |s|
  {
    if |s| > 0 && IsSpace(s[0]) then
      var r := TrimStart(s[1..]);
      assert s[1..][..|s[1..]| - |r|] == s[1..|s| - |r|];
      r
    else s
  }

  /** A text that starts with a visible character has nothing to trim at its start. */
  lemma TrimStartVisible(s: string)
    requires s != [] && !IsSpace(s[0])
    ensures TrimStart(s) == s
  {
  }

  /** Trailing white space removed. */
  function TrimEnd(s: string): (r: string)
    ensures |r| <= |s| && r == s[..|r|]
    ensures r == [] || !IsSpace(r[|r| - 1])
    ensures AllSpace(s[|r|..])
    decreases |s|
  {
    if |s| > 0 && IsSpace(s[|s| - 1]) then
      var r := TrimEnd(s[..|s| - 1]);
      assert s[..|s| - 1][|r|..] + [s[|s| - 1]] == s[|r|..];
      r
    else s
  }

  /** `String.prototype.trim`. */
  function Trim(s: string): (r: string)
    ensures r == [] || (!IsSpace(r[0]) && !IsSpace(r[|r| - 1]))
    ensures exists k :: OccursAt(s, r, k)
  {
    var t := TrimStart(s);
    var r := TrimEnd(t);
    assert OccursAt(s, r, |s| - |t|);
    r
  }

  /** A non-empty text that is its own trim. */
  predicate Tidy(x: string) { x != [] && Trim(x) == x }

  /** A string is blank when trimming leaves nothing. */
  predicate IsBlank(s: string) { Trim(s) == [] }

  lemma {:induction false} TrimStartAllSpace(s: string)
    ensures TrimStart(s) == [] <==> AllSpace(s)
    decreases |s|
  {
    if |s| > 0 && IsSpace(s[0]) {
      TrimStartAllSpace(s[1..]);
    }
  }

  lemma {:induction false} TrimEndKeepsNonSpaceHead(t: string)
    requires t != [] && !IsSpace(t[0])
    ensures TrimEnd(t) != []
    decreases |t|
  {
    if IsSpace(t[|t| - 1]) {
      TrimEndKeepsNonSpaceHead(t[..|t| - 1]);
    }
  }

  lemma BlankIffAllSpace(s: string)
    ensures IsBlank(s) <==> AllSpace(s)
  {
    TrimStartAllSpace(s);
    var t := TrimStart(s);
    if t != [] {
      TrimEndKeepsNonSpaceHead(t);
    }
  }

  /** Trimming is idempotent. */
  lemma TrimIdempotent(s: string)
    ensures Trim(Trim(s)) == Trim(s)
  {
    var r := Trim(s);
    assert TrimStart(r) == r;
    assert TrimEnd(r) == r;
  }

  /** A string with visible first and last characters is its own trim. */
  lemma TrimVisibleEnds(s: string)
    requires s != [] && !IsSpace(s[0]) && !IsSpace(s[|s| - 1])
    ensures Trim(s) == s
  {
    assert TrimStart(s) == s;
    assert TrimEnd(s) == s;
  }

  /** Upper-case letters `toLowerCase` maps to one lower-case letter:
      ASCII and Latin-1 capitals (U+00C0 to U+00DE but the multiplication
      sign), the Kelvin sign and the Angstrom sign. */
  predicate IsUpperLetter(c: char)
  {
    'A' <= c <= 'Z' || ('\U{C0}' <= c <= '\U{DE}' && c != '\U{D7}') || c == '\U{212A}' || c == '\U{212B}'
  }

  /** `toLowerCase` of one character. */
  function LowerChar(c: char): (r: char)
    ensures !IsUpperLetter(r)
    ensures !IsUpperLetter(c) ==> r == c
    ensures IsSpace(r) <==> IsSpace(c)
  {
    if 'A' <= c <= 'Z' || ('\U{C0}' <= c <= '\U{DE}' && c != '\U{D7}') then (c as int + 32) as char
    else if c == '\U{212A}' then 'k'
    else if c == '\U{212B}' then '\U{E5}'
    else c
  }

  /** `toUpperCase` of one character: ASCII and Latin-1 small letters
      (U+00E0 to U+00FE but the division sign). */
  function UpperChar(c: char): (r: char)
    ensures IsSpace(r) <==> IsSpace(c)
    ensures LowerChar(c) == c ==> LowerChar(r) == c
  {
    if 'a' <= c <= 'z' || ('\U{E0}' <= c <= '\U{FE}' && c != '\U{F7}') then (c as int - 32) as char else c
  }

  /** `toLowerCase`, one code point at a time. */
  function Lower(s: string): (r: string)
    ensures |r| == |s|
    ensures forall i :: 0 <= i < |s| ==> r[i] == LowerChar(s[i])
  {
    seq(|s|, i requires 0 <= i < |s| => LowerChar(s[i]))
  }

  /** Lower-casing twice is lower-casing once. */
  lemma LowerIdempotent(s: string)
    ensures Lower(Lower(s)) == Lower(s)
  {
    assert forall i :: 0 <= i < |s| ==> Lower(Lower(s))[i] == Lower(s)[i];
  }

  /** A string `toLowerCase` leaves as it is. */
  predicate LowerCased(s: string)
  {
    forall i :: 0 <= i < |s| ==> !IsUpperLetter(s[i])
  }

  /** A string without upper-case letters is its own lower-casing. */
  lemma LowerOfLowercase(s: string)
    requires LowerCased(s)
    ensures Lower(s) == s
  {
  }

  /** `toUpperCase`, one code point at a time. */
  function Upper(s: string): (r: string)
    ensures |r| == |s|
    ensures forall i :: 0 <= i < |s| ==> r[i] == UpperChar(s[i])
  {
    seq(|s|, i requires 0 <= i < |s| => UpperChar(s[i]))
  }

  /** Lower-casing undoes upper-casing on a string without capitals. */
  lemma LowerUpper(s: string)
    requires LowerCased(s)
    ensures Lower(Upper(s)) == s
  {
  }

  predicate StartsWith(s: string, p: string) { |p| <= |s| && s[..|p|] == p }

  predicate EndsWith(s: string, p: string) { |p| <= |s| && s[|s| - |p|..] == p }

  /** `p` occurs in `s` starting at index `i`. */
  predicate OccursAt(s: string, p: string, i: int)
  {
    0 <= i && i + |p| <= |s| && s[i..i + |p|] == p
  }

  /** `s.indexOf(p, k)`: the first occurrence at or after `k`, or -1. */
  function IndexOfFrom(s: string, p: string, k: nat): (r: int)
    ensures r == -1 || (k <= r && OccursAt(s, p, r))
    ensures forall j :: k <= j && (r == -1 || j < r) ==> !OccursAt(s, p, j)
    decreases |s| - k
  {
    if k + |p| > |s| then -1
    else if s[k..k + |p|] == p then k
    else IndexOfFrom(s, p, k + 1)
  }

  function IndexOf(s: string, p: string): int
  {
    IndexOfFrom(s, p, 0)
  }

  /** `s.includes(p)`. */
  predicate Contains(s: string, p: string)
  {
    IndexOf(s, p) >= 0
  }

  lemma ContainsIff(s: string, p: string)
    ensures Contains(s, p) <==> exists i :: OccursAt(s, p, i)
  {
  }

  /** Some keyword of `ks` occurs in `t`. */
  function AnyContained(t: string, ks: seq<string>): (r: bool)
    ensures r <==> exists i :: 0 <= i < |ks| && Contains(t, ks[i])
  {
    if ks == [] then false
    else Contains(t, ks[0]) || AnyContained(t, ks[1..])
  }

  /** `s.lastIndexOf(p, k)`: the last occurrence at or before `k`, or -1. */
  function LastIndexAtOrBefore(s: string, p: string, k: int): (r: int)
    ensures r == -1 || (0 <= r <= k && OccursAt(s, p, r))
    ensures forall j :: r < j <= k ==> !OccursAt(s, p, j)
    decreases k + 1
  {
    if k < 0 then -1
    else if OccursAt(s, p, k) then k
    else LastIndexAtOrBefore(s, p, k - 1)
  }

  /** `s.lastIndexOf(p)`. */
  function LastIndexOf(s: string, p: string): (r: int)
    ensures r == -1 || OccursAt(s, p, r)
    ensures forall j :: r < j ==> !OccursAt(s, p, j)
  {
    LastIndexAtOrBefore(s, p, |s|)
  }

  /** `s.slice(0, n)` for a non-negative `n`. */
  function Prefix(s: string, n: nat): (r: string)
    ensures |r| == if n < |s| then n else |s|
    ensures r == s[..|r|]
  {
    if n < |s| then s[..n] else s
  }

  /** `s.slice(-n)` for a positive `n`: the last `min(n, |s|)` characters. */
  function LastChars(s: string, n: nat): (r: string)
    ensures |r| == if n < |s| then n else |s|
    ensures r == s[|s| - |r|..]
  {
    if n < |s| then s[|s| - n..] else s
  }

  /** `parts.join(sep)`. */
  function Join(parts: seq<string>, sep: string): string
  {
    if |parts| == 0 then ""
    else if |parts| == 1 then parts[0]
    else parts[0] + sep + Join(parts[1..], sep)
  }

  /** A join of two or more parts is its first part, the separator and the
      join of the rest. */
  lemma JoinCons(parts: seq<string>, sep: string)
    requires |parts| >= 2
    ensures Join(parts, sep) == parts[0] + sep + Join(parts[1..], sep)
  {
  }

  /** Joining two non-empty lists puts one separator between their joins. */
  lemma {:induction false} JoinConcat(a: seq<string>, b: seq<string>, sep: string)
    requires |a| >= 1 && |b| >= 1
    ensures Join(a + b, sep) == Join(a, sep) + sep + Join(b, sep)
    decreases |a|
  {
    if |a| == 1 {
      assert (a + b)[1..] == b;
    } else {
      assert (a + b)[1..] == a[1..] + b;
      JoinConcat(a[1..], b, sep);
    }
  }

  /** A concatenation starts with its left part, ends with its right part, and
      holds its middle part right after the left one. */
  lemma ConcatParts(a: string, b: string, c: string)
    ensures StartsWith(a + b, a) && EndsWith(a + b, b)
    ensures OccursAt(a + b + c, b, |a|)
  {
    assert (a + b)[..|a|] == a;
    assert (a + b)[|a|..] == b;
    assert (a + b + c)[|a|..|a| + |b|] == b;
  }

  /** A join of at least four parts starts with its first three parts, each
      followed by the separator. */
  lemma JoinStarts(parts: seq<string>, sep: string)
    requires |parts| >= 4
    ensures StartsWith(Join(parts, sep), parts[0] + sep + parts[1] + sep + parts[2] + sep)
  {
    var rest := Join(parts[3..], sep);
    assert parts[1..][1..] == parts[2..] && parts[2..][1..] == parts[3..];
    assert Join(parts[2..], sep) == parts[2] + sep + rest;
    assert Join(parts[1..], sep) == parts[1] + sep + Join(parts[2..], sep);
    assert Join(parts, sep) == parts[0] + sep + parts[1] + sep + parts[2] + sep + rest;
    ConcatParts(parts[0] + sep + parts[1] + sep + parts[2] + sep, rest, "");
  }

  /** A join of at least three parts ends with its last two parts, each
      preceded by the separator. */
  lemma JoinEnds(parts: seq<string>, sep: string)
    requires |parts| >= 3
    ensures EndsWith(Join(parts, sep), sep + parts[|parts| - 2] + sep + parts[|parts| - 1])
  {
    var n := |parts|;
    assert parts == parts[..n - 2] + parts[n - 2..];
    JoinConcat(parts[..n - 2], parts[n - 2..], sep);
    assert parts[n - 2..][1..] == [parts[n - 1]];
    var front := Join(parts[..n - 2], sep);
    assert Join(parts, sep) == front + (sep + parts[n - 2] + sep + parts[n - 1]);
    ConcatParts(front, sep + parts[n - 2] + sep + parts[n - 1], "");
  }

  /** A join of at least four parts, preceded by the separator, begins with
      its first three parts each surrounded by separators. */
  lemma JoinFirstThree(b: seq<string>, sep: string)
    requires |b| >= 4
    ensures sep + Join(b, sep) == (sep + b[0] + sep + b[1] + sep + b[2] + sep) + Join(b[3..], sep)
  {
    assert b[1..][1..] == b[2..] && b[2..][1..] == b[3..];
    JoinCons(b, sep);
    JoinCons(b[1..], sep);
    JoinCons(b[2..], sep);
    var x1 := sep + b[0] + sep;
    var x2 := x1 + b[1] + sep;
    ShiftPart(sep, b[0], sep, Join(b[1..], sep));
    ShiftPart(x1, b[1], sep, Join(b[2..], sep));
    ShiftPart(x2, b[2], sep, Join(b[3..], sep));
  }

  /** A text holding `a + b` holds `b`. */
  lemma ContainsTail(s: string, a: string, b: string)
    requires Contains(s, a + b)
    ensures Contains(s, b)
  {
    ContainsIff(s, a + b);
    var i :| OccursAt(s, a + b, i);
    ConcatParts(a, b, "");
    assert a + b + "" == a + b;
    OccursWithin(s, a + b, i, b, |a|);
    ContainsIff(s, b);
  }

  /** Every part of a join occurs in it. */
  lemma {:induction false} JoinHasPart(parts: seq<string>, sep: string, i: nat)
    requires i < |parts|
    ensures exists k :: OccursAt(Join(parts, sep), parts[i], k)
    decreases |parts|
  {
    var s := Join(parts, sep);
    if |parts| == 1 {
      assert OccursAt(s, parts[i], 0);
    } else {
      var rest := Join(parts[1..], sep);
      JoinCons(parts, sep);
      if i == 0 {
        ConcatParts(parts[0], sep + rest, "");
        assert s == parts[0] + (sep + rest);
        assert OccursAt(s, parts[0], 0);
      } else {
        JoinHasPart(parts[1..], sep, i - 1);
        var k :| OccursAt(rest, parts[1..][i - 1], k);
        assert s == (parts[0] + sep) + rest;
        ConcatParts(parts[0] + sep, rest, "");
        assert OccursAt(s, rest, |parts[0] + sep|);
        OccursWithin(s, rest, |parts[0] + sep|, parts[i], k);
      }
    }
  }

  /** A join starts with its first part. */
  lemma JoinStartsWithFirst(parts: seq<string>, sep: string)
    requires |parts| >= 1
    ensures StartsWith(Join(parts, sep), parts[0])
  {
    if |parts| >= 2 {
      JoinCons(parts, sep);
      assert Join(parts, sep) == parts[0] + (sep + Join(parts[1..], sep));
      ConcatParts(parts[0], sep + Join(parts[1..], sep), "");
    }
  }

  /** A join ends with its last part. */
  lemma {:induction false} JoinEndsWithLast(parts: seq<string>, sep: string)
    requires |parts| >= 1
    ensures EndsWith(Join(parts, sep), parts[|parts| - 1])
    decreases |parts|
  {
    if |parts| >= 2 {
      var n := |parts|;
      assert parts == parts[..n - 1] + [parts[n - 1]];
      JoinConcat(parts[..n - 1], [parts[n - 1]], sep);
      ConcatParts(Join(parts[..n - 1], sep) + sep, parts[n - 1], "");
    }
  }

  lemma AppendAssoc(a: string, b: string, c: string)
    ensures a + (b + c) == (a + b) + c
  {
  }

  lemma ShiftPart(x: string, p: string, sep: string, rest: string)
    ensures x + (p + sep + rest) == (x + p + sep) + rest
  {
  }

  /** Three consecutive inner parts of a join occur in it, each surrounded by
      separators. */
  lemma JoinWindow(a: seq<string>, b: seq<string>, sep: string)
    requires |a| >= 1 && |b| >= 4
    ensures OccursAt(Join(a + b, sep), sep + b[0] + sep + b[1] + sep + b[2] + sep, |Join(a, sep)|)
  {
    JoinConcat(a, b, sep);
    JoinFirstThree(b, sep);
    OccursAfter(Join(a + b, sep), Join(a, sep), sep, Join(b, sep),
                sep + b[0] + sep + b[1] + sep + b[2] + sep, Join(b[3..], sep));
  }

  lemma OccursAfter(s: string, x: string, sep: string, y: string, window: string, rest: string)
    requires s == x + sep + y && sep + y == window + rest
    ensures OccursAt(s, window, |x|)
  {
    assert s == x + (sep + y);
    ConcatParts(x, window, rest);
  }

  /** An occurrence of a one-character string is an index holding that character. */
  lemma OccursCharAt(s: string, c: char, j: int)
    ensures OccursAt(s, [c], j) <==> (0 <= j < |s| && s[j] == c)
  {
    if 0 <= j < |s| {
      assert s[j..j + 1] == [s[j]];
    }
  }

  /** The first occurrence of a separator `c` in `a + [c] + b` is the one
      after `a` when `a` holds none. */
  lemma FirstSeparator(a: string, c: char, b: string)
    requires c !in a
    ensures IndexOf(a + [c] + b, [c]) == |a|
  {
    var s := a + [c] + b;
    assert OccursAt(s, [c], |a|) by {
      assert s[|a|..|a| + 1] == [c];
    }
    forall j | 0 <= j < |a| ensures !OccursAt(s, [c], j) {
      assert s[j..j + 1][0] == a[j];
    }
  }

  /** `s.split(c)` for a one-character separator. */
  function Split(s: string, c: char): (parts: seq<string>)
    ensures |parts| >= 1
    ensures forall i :: 0 <= i < |parts| ==> c !in parts[i]
    decreases |s|
  {
    var i := IndexOf(s, [c]);
    SplitPoint(s, c);
    if i < 0 then [s]
    else [s[..i]] + Split(s[i + 1..], c)
  }

  /** Where `Split` cuts: at the first occurrence of the separator. */
  lemma SplitPoint(s: string, c: char)
    ensures var i := IndexOf(s, [c]);
            (i < 0 ==> c !in s) && (i >= 0 ==> i < |s| && s[i] == c && c !in s[..i])
  {
    var i := IndexOf(s, [c]);
    if i < 0 {
      forall j | 0 <= j < |s| ensures s[j] != c {
        OccursCharAt(s, c, j);
      }
    } else {
      OccursCharAt(s, c, i);
      forall j | 0 <= j < i ensures s[..i][j] != c {
        OccursCharAt(s, c, j);
      }
    }
  }

  /** Splitting on a character and joining with it gives back the string. */
  lemma {:induction false} JoinSplit(s: string, c: char)
    ensures Join(Split(s, c), [c]) == s
    decreases |s|
  {
    var i := IndexOf(s, [c]);
    SplitPoint(s, c);
    if i >= 0 {
      var parts := Split(s[i + 1..], c);
      assert Split(s, c) == [s[..i]] + parts;
      JoinHead(s[..i], parts, [c]);
      JoinSplit(s[i + 1..], c);
      ReassembleAt(s, i);
    }
  }

  /** Splitting the join of separator-free items gives back the items. */
  lemma {:induction false} SplitJoin(xs: seq<string>, c: char)
    requires xs != []
    requires forall i :: 0 <= i < |xs| ==> c !in xs[i]
    ensures Split(Join(xs, [c]), c) == xs
    decreases |xs|
  {
    if |xs| == 1 {
      SplitNone(xs[0], c);
    } else {
      JoinCons(xs, [c]);
      SplitAfterFirst(xs[0], Join(xs[1..], [c]), c);
      SplitJoin(xs[1..], c);
      assert [xs[0]] + xs[1..] == xs;
    }
  }

  /** `Split` cuts at the first separator. */
  lemma SplitAt(s: string, c: char, i: nat)
    requires IndexOf(s, [c]) == i
    ensures i < |s| && Split(s, c) == [s[..i]] + Split(s[i + 1..], c)
  {
    SplitPoint(s, c);
  }

  /** A string without the separator is one piece. */
  lemma SplitNone(s: string, c: char)
    requires c !in s
    ensures Split(s, c) == [s]
  {
    SplitPoint(s, c);
  }

  /** Splitting two strings joined by the separator gives the pieces of the
      first followed by the pieces of the second. */
  lemma {:induction false} SplitAppend(a: string, b: string, c: char)
    ensures Split(a + [c] + b, c) == Split(a, c) + Split(b, c)
    decreases |a|
  {
    if c !in a {
      SplitAfterFirst(a, b, c);
      SplitNone(a, c);
    } else {
      SplitPoint(a, c);
      var i: nat := IndexOf(a, [c]);
      SplitAt(a, c, i);
      SplitAfterFirst(a[..i], a[i + 1..] + [c] + b, c);
      assert a + [c] + b == a[..i] + [c] + (a[i + 1..] + [c] + b);
      SplitAppend(a[i + 1..], b, c);
      ConcatAssoc([a[..i]], Split(a[i + 1..], c), Split(b, c));
    }
  }

  /** A non-empty list is its first pieces followed by its last. */
  lemma InitLast(xs: seq<string>)
    requires xs != []
    ensures xs[..|xs| - 1] + [xs[|xs| - 1]] == xs
  {
  }

  /** The last piece of a split is the end of the string, and it follows a
      separator whenever the string holds one. */
  lemma {:induction false} SplitLastSuffix(s: string, c: char)
    ensures var parts := Split(s, c);
            var l := parts[|parts| - 1];
            EndsWith(s, l) && (c in s ==> |l| < |s| && s[|s| - |l| - 1] == c)
  {
    var parts := Split(s, c);
    var n := |parts|;
    var l := parts[n - 1];
    JoinSplit(s, c);
    JoinEndsWithLast(parts, [c]);
    if c in s {
      SplitPoint(s, c);
      SplitAt(s, c, IndexOf(s, [c]));
      InitLast(parts);
      JoinConcat(parts[..n - 1], [l], [c]);
      var head := Join(parts[..n - 1], [c]);
      assert s == head + [c] + l;
      assert s[|head|] == c;
    }
  }

  /** A piece without the separator, the separator and a rest split into
      that piece followed by the pieces of the rest. */
  lemma SplitAfterFirst(a: string, b: string, c: char)
    requires c !in a
    ensures Split(a + [c] + b, c) == [a] + Split(b, c)
  {
    var s := a + [c] + b;
    FirstSeparator(a, c, b);
    SplitAt(s, c, |a|);
    assert s[..|a|] == a && s[|a| + 1..] == b;
  }

  /** Concatenation of lists of strings is associative. */
  lemma ConcatAssoc(x: seq<string>, y: seq<string>, z: seq<string>)
    ensures x + (y + z) == (x + y) + z
  {
  }

  /** Joining a list with one more item in front puts it and a separator
      before the join of the rest. */
  lemma JoinHead(x: string, parts: seq<string>, sep: string)
    requires parts != []
    ensures Join([x] + parts, sep) == x + sep + Join(parts, sep)
  {
    JoinCons([x] + parts, sep);
    assert ([x] + parts)[1..] == parts;
  }

  /** A text is what comes before index `i`, its character there and what
      follows. */
  lemma ReassembleAt(s: string, i: nat)
    requires i < |s|
    ensures s[..i] + [s[i]] + s[i + 1..] == s
  {
  }

  /** Length of the longest prefix without white space. */
  function NonSpaceRun(s: string): (n: nat)
    ensures n <= |s|
    ensures forall i :: 0 <= i < n ==> !IsSpace(s[i])
    ensures n == |s| || IsSpace(s[n])
  {
    if |s| == 0 || IsSpace(s[0]) then 0 else 1 + NonSpaceRun(s[1..])
  }

  /** A non-empty run of characters none of which is white space. */
  predicate IsWord(w: string)
  {
    w != [] && forall j :: 0 <= j < |w| ==> !IsSpace(w[j])
  }

  /** A text that starts with a visible character starts with a word. */
  lemma LeadingWord(t: string)
    requires t != [] && !IsSpace(t[0])
    ensures 0 < NonSpaceRun(t) <= |t| && IsWord(t[..NonSpaceRun(t)])
  {
    var n := NonSpaceRun(t);
    forall j | 0 <= j < n ensures !IsSpace(t[..n][j]) {
      assert t[..n][j] == t[j];
    }
  }

  lemma ConsWords(w: string, rest: seq<string>)
    requires IsWord(w) && forall i :: 0 <= i < |rest| ==> IsWord(rest[i])
    ensures forall i :: 0 <= i < |[w] + rest| ==> IsWord(([w] + rest)[i])
  {
    forall i | 0 <= i < |[w] + rest| ensures IsWord(([w] + rest)[i]) {
      if i > 0 {
        assert ([w] + rest)[i] == rest[i - 1];
      }
    }
  }

  /** The white-space separated tokens of a string: `t.split(/\s+/)` for a
      trimmed non-empty `t`, and `s.split(/\s+/).filter(Boolean)` in general. */
  function Words(s: string): (ws: seq<string>)
    ensures forall i :: 0 <= i < |ws| ==> IsWord(ws[i])
    decreases |s|
  {
    var t := TrimStart(s);
    if t == [] then []
    else
      var n := NonSpaceRun(t);
      LeadingWord(t);
      var rest := Words(t[n..]);
      ConsWords(t[..n], rest);
      [t[..n]] + rest
  }

  /** `s.replace(/\s+/g, ' ')`: every run of white space becomes one space. */
  function CollapseSpaces(s: string): (r: string)
    ensures forall i :: 0 <= i < |r| && IsSpace(r[i]) ==> r[i] == ' '
    ensures forall i :: 0 <= i < |r| - 1 ==> !(IsSpace(r[i]) && IsSpace(r[i + 1]))
    ensures |r| <= |s|
    ensures |s| > 0 ==> |r| > 0 && (IsSpace(r[0]) <==> IsSpace(s[0]))
    decreases |s|
  {
    if s == [] then []
    else if IsSpace(s[0]) then
      var t := TrimStart(s);
      assert t == [] || t[0] == s[|s| - |t|];
      " " + CollapseSpaces(t)
    else [s[0]] + CollapseSpaces(s[1..])
  }

  /** White space, where there is any, is single ordinary spaces. */
  predicate SingleSpaced(s: string)
  {
    (forall i :: 0 <= i < |s| && IsSpace(s[i]) ==> s[i] == ' ')
    && forall i :: 0 <= i < |s| - 1 ==> !(IsSpace(s[i]) && IsSpace(s[i + 1]))
  }

  /** A piece of a single-spaced text is single-spaced. */
  lemma SingleSpacedPiece(c: string, r: string, k: int)
    requires SingleSpaced(c) && OccursAt(c, r, k)
    ensures SingleSpaced(r)
  {
    forall i | 0 <= i < |r| ensures r[i] == c[k + i] {
      assert r[i] == c[k..k + |r|][i];
    }
  }

  /** A text without white space. */
  predicate SpaceFree(p: string)
  {
    forall j :: 0 <= j < |p| ==> !IsSpace(p[j])
  }

  /** An occurrence inside a piece of `s` is an occurrence in `s`. */
  lemma OccursWithin(s: string, a: string, i: int, b: string, j: int)
    requires OccursAt(s, a, i)
    ensures OccursAt(a, b, j) ==> OccursAt(s, b, i + j)
  {
    if OccursAt(a, b, j) {
      forall k | 0 <= k < |b|
        ensures s[i + j..i + j + |b|][k] == b[k]
      {
        assert s[i + j..i + j + |b|][k] == s[i + j + k] == s[i..i + |a|][j + k];
        assert a[j..j + |b|][k] == a[j + k];
      }
    }
  }

  /** A white-space-free text at the start of the collapsed text was already
      at the start of the original. */
  lemma {:induction false} CollapsePrefix(u: string, q: string)
    requires SpaceFree(q)
    ensures StartsWith(CollapseSpaces(u), q) ==> StartsWith(u, q)
    decreases |u|
  {
    if q != [] && u != [] && StartsWith(CollapseSpaces(u), q) {
      CollapseHead(u, q);
      CollapsePrefix(u[1..], q[1..]);
      assert u[..|q|] == [u[0]] + u[1..][..|q| - 1];
    }
  }

  /** One step of `CollapsePrefix`: the first character is not white space, so
      it is kept and the rest of the pattern follows from the rest of the text. */
  lemma CollapseHead(u: string, q: string)
    requires SpaceFree(q) && q != [] && u != []
    requires StartsWith(CollapseSpaces(u), q)
    ensures u[0] == q[0] && SpaceFree(q[1..])
    ensures StartsWith(CollapseSpaces(u[1..]), q[1..])
  {
    HeadOf(CollapseSpaces(u), q);
    assert !IsSpace(q[0]);
    CollapseStep(u);
    ConsPrefix(CollapseSpaces(u), u[0], CollapseSpaces(u[1..]), q);
    assert SpaceFree(q[1..]) by {
      forall j | 0 <= j < |q| - 1 ensures !IsSpace(q[1..][j]) {
        assert q[1..][j] == q[j + 1];
      }
    }
  }

  /** Collapsing a text that starts with a visible character keeps it. */
  lemma CollapseStep(u: string)
    requires u != [] && !IsSpace(u[0])
    ensures CollapseSpaces(u) == [u[0]] + CollapseSpaces(u[1..])
  {
  }

  lemma HeadOf(c: string, q: string)
    requires q != [] && StartsWith(c, q)
    ensures c[0] == q[0]
  {
    assert c[..|q|][0] == c[0];
  }

  lemma ConsPrefix(c: string, x: char, rest: string, q: string)
    requires c == [x] + rest && q != [] && StartsWith(c, q)
    ensures x == q[0] && StartsWith(rest, q[1..])
  {
    assert c[..|q|][0] == x;
    assert rest[..|q| - 1] == c[1..|q|] == c[..|q|][1..];
  }

  /** Collapsing white space cannot create a white-space-free pattern. */
  lemma {:induction false} CollapseKeepsAbsent(s: string, p: string, i: int)
    requires p != [] && SpaceFree(p)
    ensures OccursAt(CollapseSpaces(s), p, i) ==> exists j :: OccursAt(s, p, j)
    decreases |s|
  {
    if s != [] && OccursAt(CollapseSpaces(s), p, i) {
      if IsSpace(s[0]) {
        assert exists j :: OccursAt(s, p, j) by {
          var t := TrimStart(s);
          CollapseSpaceStep(s);
          assert !IsSpace(p[0]);
          HeadNotStart(" ", CollapseSpaces(t), p);
          OccursShift(" ", CollapseSpaces(t), p, i);
          CollapseKeepsAbsent(t, p, i - 1);
          var j :| OccursAt(t, p, j);
          OccursWithin(s, t, |s| - |t|, p, j);
        }
      } else if i == 0 {
        assert OccursAt(s, p, 0) by {
          CollapsePrefix(s, p);
          assert s[..|p|] == s[0..0 + |p|];
        }
      } else {
        assert exists j :: OccursAt(s, p, j) by {
          CollapseStep(s);
          OccursShift([s[0]], CollapseSpaces(s[1..]), p, i);
          CollapseKeepsAbsent(s[1..], p, i - 1);
          var j :| OccursAt(s[1..], p, j);
          OccursWithin(s, s[1..], 1, p, j);
        }
      }
    }
  }

  /** Collapsing a text that starts with white space gives one space and the
      collapse of the rest after the run. */
  lemma CollapseSpaceStep(s: string)
    requires s != [] && IsSpace(s[0])
    ensures CollapseSpaces(s) == " " + CollapseSpaces(TrimStart(s))
  {
  }

  /** An occurrence past a one-character head, and not starting with that
      character, is an occurrence in the tail. */
  lemma OccursShift(h: string, c: string, p: string, i: int)
    requires |h| == 1 && i >= 1 && OccursAt(h + c, p, i)
    ensures OccursAt(c, p, i - 1)
  {
    var hc := h + c;
    assert hc[i..i + |p|] == c[i - 1..i - 1 + |p|];
  }

  /** A pattern whose first character differs from the text's does not
      start there. */
  lemma HeadNotStart(h: string, c: string, p: string)
    requires |h| == 1 && p != [] && p[0] != h[0]
    ensures !OccursAt(h + c, p, 0)
  {
    var hc := h + c;
    if |p| <= |hc| {
      assert hc[0..|p|][0] == hc[0];
    }
  }

  /** Trimming cannot create an occurrence. */
  lemma TrimKeepsAbsent(c: string, p: string)
    ensures Contains(Trim(c), p) ==> Contains(c, p)
  {
    var r := Trim(c);
    var k :| OccursAt(c, r, k);
    ContainsIff(r, p);
    ContainsIff(c, p);
    forall j ensures OccursAt(r, p, j) ==> OccursAt(c, p, k + j) {
      OccursWithin(c, r, k, p, j);
    }
  }

  /** Collapsing white space cannot create a white-space-free word. */
  lemma CollapseContains(x: string, p: string)
    requires p != [] && SpaceFree(p)
    ensures Contains(CollapseSpaces(x), p) ==> Contains(x, p)
  {
    ContainsIff(CollapseSpaces(x), p);
    ContainsIff(x, p);
    forall i ensures OccursAt(CollapseSpaces(x), p, i) ==> Contains(x, p) {
      CollapseKeepsAbsent(x, p, i);
    }
  }

  /** The middle piece of a concatenation occurs right after the first. */
  lemma ContainsMiddle(a: string, b: string, c: string)
    ensures OccursAt(a + b + c, b, |a|) && Contains(a + b + c, b)
  {
    var t := a + b + c;
    assert t[|a|..|a| + |b|] == b;
    assert OccursAt(t, b, |a|);
    ContainsIff(t, b);
  }

  /** Only the decimal digits of a string, in order. */
  function DigitsOnly(s: string): (r: string)
    ensures forall i :: 0 <= i < |r| ==> IsDigit(r[i])
    ensures |r| <= |s|
  {
    if s == [] then []
    else if IsDigit(s[0]) then [s[0]] + DigitsOnly(s[1..])
    else DigitsOnly(s[1..])
  }

  function DigitChar(d: nat): char
    requires d < 10
  {
    ('0' as int + d) as char
  }

  /** Decimal rendering of a natural number (`String(n)`). */
  function NatToString(n: nat): (s: string)
    ensures |s| >= 1
    ensures forall i :: 0 <= i < |s| ==> IsDigit(s[i])
  {
    if n < 10 then [DigitChar(n)] else NatToString(n / 10) + [DigitChar(n % 10)]
  }

  /** Decimal rendering of an integer, with a leading '-' when negative. */
  function IntToString(n: int): string
  {
    if n < 0 then "-" + NatToString(-n) else NatToString(n)
  }

  /** The value of a string of decimal digits. */
  function DecimalValue(s: string): nat
    requires forall i :: 0 <= i < |s| ==> IsDigit(s[i])
  {
    if s == [] then 0
    else
      assert IsDigit(s[|s| - 1]);
      10 * DecimalValue(s[..|s| - 1]) + (s[|s| - 1] as int - '0' as int)
  }

  /** Rendering a number and reading it back gives the number. */
  lemma {:induction false} DecimalRoundTrip(n: nat)
    ensures DecimalValue(NatToString(n)) == n
  {
    if n >= 10 {
      DecimalRoundTrip(n / 10);
      var s := NatToString(n);
      assert s[..|s| - 1] == NatToString(n / 10);
    }
  }

  /** `path.basename` for '/'-separated paths: the last segment after
      trailing separators are dropped. */
  function Basename(p: string): (r: string)
    ensures '/' !in r
  {
    var parts := Split(TrimTrailingSlashes(p), '/');
    parts[|parts| - 1]
  }

  /** A path without '/' is its own base name. */
  lemma BasenameOfPlain(p: string)
    requires '/' !in p
    ensures Basename(p) == p
  {
    assert TrimTrailingSlashes(p) == p;
    SplitPoint(p, '/');
    assert Split(p, '/') == [p];
  }

  function TrimTrailingSlashes(p: string): (r: string)
    ensures r == [] || r[|r| - 1] != '/'
  {
    if |p| > 0 && p[|p| - 1] == '/' then TrimTrailingSlashes(p[..|p| - 1]) else p
  }
}
