/**
 * The JavaScript string and array operations the components rely on:
 * `String.prototype.trim`, ASCII `toUpperCase`, `startsWith`, `split(' ')`
 * followed by dropping empty pieces, `Array.prototype.join`,
 * `Array.prototype.filter(x => x !== v)` and the insertion-ordered
 * de-duplication `Array.from(new Set(xs))`.
 */
module Strings {

  // ---------------------------------------------------------------------
  // Whitespace and trim
  // ---------------------------------------------------------------------

  /** The code points ECMAScript's `trim` removes: WhiteSpace (TAB, VT, FF,
      SP, NBSP, ZWNBSP and the Zs category) and LineTerminator (LF, CR, LS, PS). */
  predicate IsWhitespace(c: char) {
    || c == '\t' || c == '\n' || c == '\U{000B}' || c == '\U{000C}' || c == '\r'
    || c == ' ' || c == '\U{00A0}' || c == '\U{1680}' || ('\U{2000}' <= c <= '\U{200A}')
    || c == '\U{2028}' || c == '\U{2029}' || c == '\U{202F}' || c == '\U{205F}'
    || c == '\U{3000}' || c == '\U{FEFF}'
  }

  /** A string whose `trim()` is the empty (falsy) string. */
  predicate IsBlank(s: string) {
    forall i :: 0 <= i < |s| ==> IsWhitespace(s[i])
  }

  /** Every character of `s` from index `lo` up to (not including) `hi` is
      whitespace. */
  predicate BlankBetween(s: string, lo: int, hi: int)
    requires 0 <= lo <= hi <= |s|
  {
    forall k :: lo <= k < hi ==> IsWhitespace(s[k])
  }

  /** `trimStart`: drops the leading whitespace and nothing else. */
  function TrimStart(s: string): (r: string)
    ensures |r| <= |s| && r == s[|s| - |r|..]
    ensures BlankBetween(s, 0, |s| - |r|)
    ensures r != [] ==> !IsWhitespace(r[0])
    decreases |s|
  {
    if s == [] || !IsWhitespace(s[0]) then s
    else
      var rest := TrimStart(s[1..]);
      assert forall k :: 1 <= k < |s| - |rest| ==> s[k] == s[1..][k - 1];
      rest
  }

  /** `trimEnd`: drops the trailing whitespace and nothing else. */
  function TrimEnd(s: string): (r: string)
    ensures |r| <= |s| && r == s[..|r|]
    ensures BlankBetween(s, |r|, |s|)
    ensures r != [] ==> !IsWhitespace(r[|r| - 1])
    decreases |s|
  {
    if s == [] || !IsWhitespace(s[|s| - 1]) then s
    else
      var rest := TrimEnd(s[..|s| - 1]);
      assert forall k :: |rest| <= k < |s| - 1 ==> s[k] == s[..|s| - 1][k];
      rest
  }

  /** `r` is the slice of `s` from `i` on, with only whitespace on either
      side of it. */
  predicate CutAt(s: string, r: string, i: int) {
    0 <= i <= |s| - |r| && r == s[i..i + |r|] && BlankBetween(s, 0, i) && BlankBetween(s, i + |r|, |s|)
  }

  /** `trim`: the result is a slice of `s` with only whitespace cut on either
      side, it neither starts nor ends with whitespace, and it is empty
      exactly when `s` is blank. */
  function Trim(s: string): (r: string)
    ensures exists i :: CutAt(s, r, i)
    ensures r != [] ==> !IsWhitespace(r[0]) && !IsWhitespace(r[|r| - 1])
    ensures r == [] <==> IsBlank(s)
  {
    var a := TrimStart(s);
    var r := TrimEnd(a);
    CutCompose(s, a, r);
    TrimBlank(s, |s| - |a|, r);
    assert r != [] ==> !IsWhitespace(r[|r| - 1]);
    r
  }

  /** Cutting leading whitespace and then trailing whitespace cuts `s` only
      through whitespace, and leaves no whitespace at the front. */
  lemma CutCompose(s: string, a: string, r: string)
    requires |a| <= |s| && a == s[|s| - |a|..] && BlankBetween(s, 0, |s| - |a|)
    requires a != [] ==> !IsWhitespace(a[0])
    requires |r| <= |a| && r == a[..|r|] && BlankBetween(a, |r|, |a|)
    ensures CutAt(s, r, |s| - |a|)
    ensures r != [] ==> !IsWhitespace(r[0])
  {
    var i := |s| - |a|;
    assert r == s[i..i + |r|];
    assert forall k :: i + |r| <= k < |s| ==> s[k] == a[k - i];
    assert r != [] ==> r[0] == a[0];
  }

  /** The emptiness half of `Trim`'s contract, for a slice `r` of `s` cut
      only through whitespace. */
  lemma TrimBlank(s: string, i: nat, r: string)
    requires i + |r| <= |s| && r == s[i..i + |r|]
    requires BlankBetween(s, 0, i) && BlankBetween(s, i + |r|, |s|)
    requires r != [] ==> !IsWhitespace(r[0])
    ensures r == [] <==> IsBlank(s)
  {
    if r != [] {
      assert r[0] == s[i];
    }
  }

  /** Trimming twice is trimming once. */
  lemma TrimIdempotent(s: string)
    ensures Trim(Trim(s)) == Trim(s)
  {
    var r := Trim(s);
    assert TrimStart(r) == r;
    assert TrimEnd(r) == r;
  }

  // ---------------------------------------------------------------------
  // Case mapping (ASCII only)
  // ---------------------------------------------------------------------

  predicate IsLowerAscii(c: char) { 'a' <= c <= 'z' }

  /** ASCII `toUpperCase` of one character: a lower-case letter becomes its
      capital, every other character is kept. */
  function UpperChar(c: char): (r: char)
    ensures !IsLowerAscii(r)
    ensures IsLowerAscii(c) ==> 'A' <= r <= 'Z' && r as int + 32 == c as int
    ensures !IsLowerAscii(c) ==> r == c
  {
    if IsLowerAscii(c) then (c as int - 32) as char else c
  }

  /** ASCII `toUpperCase` of a string: same length, character by character. */
  function Upper(s: string): (r: string)
    ensures |r| == |s|
    ensures forall i :: 0 <= i < |s| ==> r[i] == UpperChar(s[i])
  {
    seq(|s|, i requires 0 <= i < |s| => UpperChar(s[i]))
  }

  lemma UpperIdempotent(s: string)
    ensures Upper(Upper(s)) == Upper(s)
  {
  }

  lemma UpperConcat(a: string, b: string)
    ensures Upper(a + b) == Upper(a) + Upper(b)
  {
  }

  /** Upper-casing neither creates nor removes whitespace, so a code is blank
      exactly when its upper-cased form is. */
  lemma UpperKeepsBlank(s: string)
    ensures IsBlank(Upper(s)) <==> IsBlank(s)
  {
    forall i | 0 <= i < |s|
      ensures IsWhitespace(Upper(s)[i]) <==> IsWhitespace(s[i])
    {
      assert IsWhitespace(s[i]) ==> !IsLowerAscii(s[i]);
    }
  }

  predicate StartsWith(s: string, prefix: string) {
    |prefix| <= |s| && s[..|prefix|] == prefix
  }

  /** A string starts with whatever is appended to. */
  lemma PrefixOfAppend(prefix: string, rest: string)
    ensures StartsWith(prefix + rest, prefix)
  {
    assert (prefix + rest)[..|prefix|] == prefix;
  }

  // ---------------------------------------------------------------------
  // split(' ') and filter(p => p.length > 0)
  // ---------------------------------------------------------------------

  /** `s.split(' ')`: the pieces between single spaces, empty pieces included;
      there is always at least one piece. */
  function SplitSpaces(s: string): (r: seq<string>)
    ensures |r| >= 1
    ensures forall k :: 0 <= k < |r| ==> ' ' !in r[k]
    decreases |s|
  {
    if s == [] then [""]
    else
      var rest := SplitSpaces(s[1..]);
      if s[0] == ' ' then [""] + rest else [[s[0]] + rest[0]] + rest[1..]
  }

  /** `parts.filter(p => p.length > 0)`. */
  function DropEmpty(parts: seq<string>): (r: seq<string>)
    ensures |r| <= |parts|
    ensures forall k :: 0 <= k < |r| ==> r[k] != "" && r[k] in parts
    decreases |parts|
  {
    if parts == [] then []
    else if parts[0] == "" then DropEmpty(parts[1..])
    else [parts[0]] + DropEmpty(parts[1..])
  }

  /** The words of `s`: `s.split(' ').filter(p => p.length > 0)`. */
  function Words(s: string): seq<string> {
    DropEmpty(SplitSpaces(s))
  }

  function Concat(parts: seq<string>): string
    decreases |parts|
  {
    if parts == [] then "" else parts[0] + Concat(parts[1..])
  }

  function RemoveSpaces(s: string): string
    decreases |s|
  {
    if s == [] then "" else (if s[0] == ' ' then "" else [s[0]]) + RemoveSpaces(s[1..])
  }

  lemma {:induction false} DropEmptyConcat(a: seq<string>, b: seq<string>)
    ensures DropEmpty(a + b) == DropEmpty(a) + DropEmpty(b)
    decreases |a|
  {
    if a != [] {
      assert (a + b)[0] == a[0] && (a + b)[1..] == a[1..] + b;
      DropEmptyConcat(a[1..], b);
      if a[0] != "" {
        assert DropEmpty(a + b) == [a[0]] + DropEmpty(a[1..] + b);
      }
    } else {
      assert a + b == b;
    }
  }

  lemma {:induction false} SplitSpacesConcat(a: string, b: string)
    ensures SplitSpaces(a + " " + b) == SplitSpaces(a) + SplitSpaces(b)
    decreases |a|
  {
    if a == [] {
      assert a + " " + b == [' '] + b;
      assert (a + " " + b)[1..] == b;
    } else {
      assert (a + " " + b)[1..] == a[1..] + " " + b;
      SplitSpacesConcat(a[1..], b);
    }
  }

  /** Words are non-empty and contain no space. */
  lemma WordsShape(s: string)
    ensures forall k :: 0 <= k < |Words(s)| ==> Words(s)[k] != "" && ' ' !in Words(s)[k]
  {
  }

  /** A space separates words: the words of `a + " " + b` are those of `a`
      followed by those of `b`. */
  lemma WordsAppend(a: string, b: string)
    ensures Words(a + " " + b) == Words(a) + Words(b)
  {
    SplitSpacesConcat(a, b);
    DropEmptyConcat(SplitSpaces(a), SplitSpaces(b));
  }

  /** A non-empty string without spaces is a single word. */
  lemma {:induction false} WordsOfWord(s: string)
    requires s != "" && ' ' !in s
    ensures Words(s) == [s]
  {
    SpaceFreeSplit(s);
  }

  lemma {:induction false} SpaceFreeSplit(s: string)
    requires ' ' !in s
    ensures SplitSpaces(s) == [s]
    decreases |s|
  {
    if s != [] {
      assert ' ' !in s[1..] by {
        forall k | 0 <= k < |s| - 1 ensures s[1..][k] != ' ' { assert s[1..][k] == s[k + 1]; }
      }
      SpaceFreeSplit(s[1..]);
      assert s[0] != ' ';
      assert [s[0]] + s[1..] == s;
    }
  }

  /** Splitting loses only the spaces: gluing the words back together gives
      `s` with every space removed. */
  lemma {:induction false} WordsConcat(s: string)
    ensures Concat(Words(s)) == RemoveSpaces(s)
  {
    SplitConcat(s);
    DropEmptyKeepsConcat(SplitSpaces(s));
  }

  lemma {:induction false} SplitConcat(s: string)
    ensures Concat(SplitSpaces(s)) == RemoveSpaces(s)
    decreases |s|
  {
    if s != [] {
      SplitConcat(s[1..]);
      var rest := SplitSpaces(s[1..]);
      if s[0] != ' ' {
        var r := [[s[0]] + rest[0]] + rest[1..];
        assert r[1..] == rest[1..];
        assert Concat(rest) == rest[0] + Concat(rest[1..]);
      } else {
        assert ([""] + rest)[1..] == rest;
      }
    }
  }

  lemma {:induction false} DropEmptyKeepsConcat(parts: seq<string>)
    ensures Concat(DropEmpty(parts)) == Concat(parts)
    decreases |parts|
  {
    if parts != [] {
      DropEmptyKeepsConcat(parts[1..]);
      if parts[0] != "" {
        assert ([parts[0]] + DropEmpty(parts[1..]))[1..] == DropEmpty(parts[1..]);
      }
    }
  }

  // ---------------------------------------------------------------------
  // join
  // ---------------------------------------------------------------------

  /** `parts.join(sep)`. */
  function JoinWith(parts: seq<string>, sep: string): string
    decreases |parts|
  {
    if parts == [] then ""
    else if |parts| == 1 then parts[0]
    else parts[0] + sep + JoinWith(parts[1..], sep)
  }

  /** Joining one more part appends the separator and that part. */
  lemma {:induction false} JoinSnoc(parts: seq<string>, x: string, sep: string)
    requires parts != []
    ensures JoinWith(parts + [x], sep) == JoinWith(parts, sep) + sep + x
    decreases |parts|
  {
    if |parts| > 1 {
      assert (parts + [x])[1..] == parts[1..] + [x];
      JoinSnoc(parts[1..], x, sep);
    } else {
      assert (parts + [x])[1..] == [x];
    }
  }

  // ---------------------------------------------------------------------
  // Arrays as sequences: uniqueness, de-duplication, filtering
  // ---------------------------------------------------------------------

  predicate NoDups<T(==)>(s: seq<T>) {
    forall i, j :: 0 <= i < j < |s| ==> s[i] != s[j]
  }

  /** `Array.from(new Set(s))`: every element once, at the place of its first
      occurrence (a Set iterates in insertion order). */
  function Dedup<T(==)>(s: seq<T>): (r: seq<T>)
    ensures forall i :: 0 <= i < |r| ==> r[i] in s
    ensures forall i :: 0 <= i < |s| ==> s[i] in r
    ensures NoDups(r)
    ensures |r| <= |s|
    decreases |s|
  {
    if s == [] then []
    else
      var init := Dedup(s[..|s| - 1]);
      var last := s[|s| - 1];
      assert s == s[..|s| - 1] + [last];
      if last in s[..|s| - 1] then init else init + [last]
  }

  /** De-duplication keeps exactly the elements of its input. */
  lemma DedupMembers<T>(s: seq<T>)
    ensures forall x :: x in Dedup(s) <==> x in s
  {
    var r := Dedup(s);
    forall x | x in r ensures x in s {
      var i :| 0 <= i < |r| && r[i] == x;
    }
    forall x | x in s ensures x in r {
      var i :| 0 <= i < |s| && s[i] == x;
    }
  }

  /** A list that already has no duplicates is kept as it is. */
  lemma {:induction false} DedupOfDistinct<T>(s: seq<T>)
    requires NoDups(s)
    ensures Dedup(s) == s
    decreases |s|
  {
    if s != [] {
      var init := s[..|s| - 1];
      assert NoDups(init);
      DedupOfDistinct(init);
      assert s[|s| - 1] !in init;
      assert s == init + [s[|s| - 1]];
    }
  }

  /** Adding elements at the end never reorders or drops what was already
      there: first-occurrence order. */
  lemma {:induction false} DedupPrefix<T>(s: seq<T>, t: seq<T>)
    ensures |Dedup(s)| <= |Dedup(s + t)| && Dedup(s + t)[..|Dedup(s)|] == Dedup(s)
    decreases |t|
  {
    if t == [] {
      assert s + t == s;
    } else {
      var u := s + t[..|t| - 1];
      DedupPrefix(s, t[..|t| - 1]);
      assert (s + t)[..|s + t| - 1] == u;
      var du := Dedup(u);
      var ds := Dedup(s);
      assert Dedup(s + t) == du || Dedup(s + t) == du + [(s + t)[|s + t| - 1]];
      assert (du + [(s + t)[|s + t| - 1]])[..|ds|] == du[..|ds|];
    }
  }

  /** Appending one element that is new appends it once; one already present
      changes nothing. */
  lemma DedupSnoc<T>(s: seq<T>, x: T)
    ensures Dedup(s + [x]) == if x in s then Dedup(s) else Dedup(s) + [x]
  {
    assert (s + [x])[..|s|] == s;
  }

  /** `s.filter(y => y !== x)`. */
  function RemoveAll<T(==)>(s: seq<T>, x: T): (r: seq<T>)
    ensures x !in r
    ensures forall i :: 0 <= i < |r| ==> r[i] in s
    ensures forall i :: 0 <= i < |s| && s[i] != x ==> s[i] in r
    ensures |r| <= |s|
    decreases |s|
  {
    if s == [] then []
    else if s[0] == x then RemoveAll(s[1..], x)
    else [s[0]] + RemoveAll(s[1..], x)
  }

  /** Filtering out an element that occurs once, at index k, keeps the others
      in their order. */
  lemma {:induction false} RemoveAllAt<T>(s: seq<T>, x: T, k: nat)
    requires NoDups(s) && k < |s| && s[k] == x
    ensures RemoveAll(s, x) == s[..k] + s[k + 1..]
    decreases |s|
  {
    var tail := s[1..];
    NoDupsTail(s);
    if k == 0 {
      RemoveAbsent(tail, x);
    } else {
      assert s[0] != x;
      RemoveAllAt(tail, x, k - 1);
      ConsSplit(s, k);
    }
  }

  /** The tail of a duplicate-free list is duplicate-free and misses the
      head. */
  lemma NoDupsTail<T>(s: seq<T>)
    requires NoDups(s) && s != []
    ensures NoDups(s[1..]) && s[0] !in s[1..]
  {
    var tail := s[1..];
    forall i, j | 0 <= i < j < |tail| ensures tail[i] != tail[j] {
      assert tail[i] == s[i + 1] && tail[j] == s[j + 1];
    }
    forall i | 0 <= i < |tail| ensures tail[i] != s[0] {
      assert tail[i] == s[i + 1];
    }
  }

  /** Cutting out position `k > 0` of a list is keeping its head and cutting
      out position `k - 1` of its tail. */
  lemma ConsSplit<T>(s: seq<T>, k: nat)
    requires 0 < k < |s|
    ensures s[..k] + s[k + 1..] == [s[0]] + (s[1..][..k - 1] + s[1..][k..])
  {
    assert s[..k] == [s[0]] + s[1..][..k - 1];
    assert s[k + 1..] == s[1..][k..];
  }

  /** Filtering out an absent element changes nothing. */
  lemma {:induction false} RemoveAbsent<T>(s: seq<T>, x: T)
    requires x !in s
    ensures RemoveAll(s, x) == s
    decreases |s|
  {
    if s != [] {
      assert x !in s[1..];
      RemoveAbsent(s[1..], x);
    }
  }

  lemma {:induction false} RemoveAllKeepsDistinct<T>(s: seq<T>, x: T)
    requires NoDups(s)
    ensures NoDups(RemoveAll(s, x))
    decreases |s|
  {
    if s != [] {
      assert NoDups(s[1..]);
      RemoveAllKeepsDistinct(s[1..], x);
      assert s[0] !in s[1..];
    }
  }
}
