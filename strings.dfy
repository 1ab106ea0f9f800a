/** The JavaScript string operations the pages rely on, stated over `string`
    (a sequence of Unicode scalar values): lower-casing, `includes`, `trim`,
    `length` (in UTF-16 code units), `split` and `join`. */
module Strings {

  /** Lower-casing of one character, restricted to ASCII (`A`-`Z`). */
  function LowerChar(c: char): char {
    if 'A' <= c <= 'Z' then (c as int + 32) as char else c
  }

  /** `s.toLowerCase()`, restricted to ASCII letters. */
  function Lower(s: string): (r: string)
    ensures |r| == |s|
    ensures forall i :: 0 <= i < |s| ==> r[i] == LowerChar(s[i])
  {
    seq(|s|, i requires 0 <= i < |s| => LowerChar(s[i]))
  }

  /** Lower-casing an already lower-cased string changes nothing. */
  lemma LowerIdempotent(s: string)
    ensures Lower(Lower(s)) == Lower(s)
  {
    assert forall i :: 0 <= i < |s| ==> Lower(Lower(s))[i] == Lower(s)[i];
  }

  /** `needle` appears in `hay` starting at index `i`. */
  ghost predicate OccursAt(needle: string, hay: string, i: int) {
    0 <= i && i + |needle| <= |hay| && hay[i..i + |needle|] == needle
  }

  /** `hay.includes(needle)`, searched from the left. */
  function Includes(hay: string, needle: string): bool
    decreases |hay|
  {
    if needle <= hay then true
    else if hay == [] then false
    else Includes(hay[1..], needle)
  }

  /** An occurrence in the tail of `hay` is an occurrence one place further in `hay`. */
  lemma OccursShift(needle: string, hay: string, i: nat)
    requires hay != []
    ensures OccursAt(needle, hay[1..], i) <==> OccursAt(needle, hay, i + 1)
  {
    if i + 1 + |needle| <= |hay| {
      assert hay[1..][i..i + |needle|] == hay[i + 1..i + 1 + |needle|];
    }
  }

  /** An occurrence at index 0 is a prefix. */
  lemma OccursAtStart(needle: string, hay: string)
    ensures OccursAt(needle, hay, 0) <==> needle <= hay
  {
  }

  /** `includes` holds exactly when the needle occurs at some index. */
  lemma {:induction false} IncludesOccurs(hay: string, needle: string)
    ensures Includes(hay, needle) <==> exists i :: OccursAt(needle, hay, i)
    decreases |hay|
  {
    OccursAtStart(needle, hay);
    if needle <= hay {
    } else if hay == [] {
      assert forall i :: !OccursAt(needle, hay, i);
    } else {
      IncludesOccurs(hay[1..], needle);
      if Includes(hay[1..], needle) {
        var i :| OccursAt(needle, hay[1..], i);
        OccursShift(needle, hay, i);
      } else {
        forall i | OccursAt(needle, hay, i) ensures false {
          OccursShift(needle, hay, i - 1);
        }
      }
    }
  }

  /** The search used by every list filter of the console:
      `hay.toLowerCase().includes(query.toLowerCase())`. */
  function ContainsIgnoreCase(hay: string, query: string): bool {
    Includes(Lower(hay), Lower(query))
  }

  /** The empty query is contained in every string. */
  lemma EmptyQueryMatches(hay: string)
    ensures ContainsIgnoreCase(hay, "")
  {
  }

  /** The search only looks at lower-cased text: lower-casing either side first changes nothing,
      and a match is an occurrence of the lower-cased query in the lower-cased text. */
  lemma ContainsIgnoreCaseMeaning(hay: string, query: string)
    ensures ContainsIgnoreCase(hay, query) == ContainsIgnoreCase(Lower(hay), Lower(query))
    ensures ContainsIgnoreCase(hay, query) <==> exists i :: OccursAt(Lower(query), Lower(hay), i)
  {
    LowerIdempotent(hay);
    LowerIdempotent(query);
    IncludesOccurs(Lower(hay), Lower(query));
  }

  /** The characters `String.prototype.trim` removes: the ECMAScript WhiteSpace and
      LineTerminator code points. */
  predicate IsJsWhitespace(c: char) {
    var n := c as int;
    n == 0x09 || n == 0x0A || n == 0x0B || n == 0x0C || n == 0x0D || n == 0x20 ||
    n == 0xA0 || n == 0x1680 || (0x2000 <= n <= 0x200A) || n == 0x2028 || n == 0x2029 ||
    n == 0x202F || n == 0x205F || n == 0x3000 || n == 0xFEFF
  }

  /** Leading whitespace removed: what is left is a suffix that does not start with whitespace,
      and everything dropped was whitespace. */
  function TrimStart(s: string): (r: string)
    ensures |r| <= |s| && r == s[|s| - |r|..]
    ensures r != [] ==> !IsJsWhitespace(r[0])
    ensures forall i :: 0 <= i < |s| - |r| ==> IsJsWhitespace(s[i])
    decreases |s|
  {
    if s != [] && IsJsWhitespace(s[0]) then TrimStart(s[1..]) else s
  }

  /** Trailing whitespace removed: what is left is a prefix that does not end with whitespace,
      and everything dropped was whitespace. */
  function TrimEnd(s: string): (r: string)
    ensures |r| <= |s| && r == s[..|r|]
    ensures r != [] ==> !IsJsWhitespace(r[|r| - 1])
    ensures forall i :: |r| <= i < |s| ==> IsJsWhitespace(s[i])
    decreases |s|
  {
    if s != [] && IsJsWhitespace(s[|s| - 1]) then TrimEnd(s[..|s| - 1]) else s
  }

  /** `s.trim()`. */
  function Trim(s: string): string {
    TrimEnd(TrimStart(s))
  }

  /** Every character is whitespace (the empty string included). */
  ghost predicate Blank(s: string) {
    forall i :: 0 <= i < |s| ==> IsJsWhitespace(s[i])
  }

  /** `!s.trim()` (the form checks' "empty after trimming") holds exactly for blank strings. */
  lemma TrimEmptyIffBlank(s: string)
    ensures Trim(s) == "" <==> Blank(s)
  {
    var t := TrimStart(s);
    if Trim(s) == "" {
      assert Blank(t);
      assert t == [];
    }
  }

  /** `s.length`: JavaScript counts UTF-16 code units, so a character outside the
      Basic Multilingual Plane counts twice. */
  function Utf16Length(s: string): (n: nat)
    ensures |s| <= n <= 2 * |s|
    ensures (forall i :: 0 <= i < |s| ==> s[i] as int < 0x10000) ==> n == |s|
    decreases |s|
  {
    if s == [] then 0
    else (if s[0] as int >= 0x10000 then 2 else 1) + Utf16Length(s[1..])
  }

  /** `s.split(sep)` for a one-character separator: the pieces between separators, at least one. */
  function Split(s: string, sep: char): (r: seq<string>)
    ensures |r| >= 1
    ensures forall k :: 0 <= k < |r| ==> sep !in r[k]
    decreases |s|
  {
    if s == [] then [""]
    else if s[0] == sep then [""] + Split(s[1..], sep)
    else
      var rest := Split(s[1..], sep);
      [[s[0]] + rest[0]] + rest[1..]
  }

  /** A suffix of the tail is the suffix of the same length. */
  lemma SuffixOfTail(s: string, n: nat)
    requires n < |s|
    ensures s[1..][|s| - 1 - n..] == s[|s| - n..]
  {
  }

  /** The last piece of a split is a suffix of the text, preceded by the separator unless it is
      the whole text; a single piece is the whole text. */
  ghost predicate LastPieceIsSuffix(s: string, sep: char) {
    var r := Split(s, sep);
    && (|r| == 1 ==> r[0] == s)
    && (|r| > 1 ==> |r[|r| - 1]| < |s|)
    && |r[|r| - 1]| <= |s| && r[|r| - 1] == s[|s| - |r[|r| - 1]|..]
    && (|r[|r| - 1]| < |s| ==> s[|s| - |r[|r| - 1]| - 1] == sep)
  }

  /** A leading separator adds an empty first piece and leaves the last piece alone. */
  lemma LastPieceAfterSeparator(s: string, sep: char)
    requires s != [] && s[0] == sep
    requires LastPieceIsSuffix(s[1..], sep)
    ensures LastPieceIsSuffix(s, sep)
  {
    var rest, r := Split(s[1..], sep), Split(s, sep);
    var last := rest[|rest| - 1];
    SuffixOfTail(s, |last|);
    assert r == [""] + rest;
    assert r[|r| - 1] == last;
  }

  /** A leading character other than the separator joins the first piece; when that piece is the
      only one it becomes the whole text. */
  lemma LastPieceAfterOther(s: string, sep: char)
    requires s != [] && s[0] != sep
    requires LastPieceIsSuffix(s[1..], sep)
    ensures LastPieceIsSuffix(s, sep)
  {
    var rest, r := Split(s[1..], sep), Split(s, sep);
    if |rest| == 1 {
      assert r == [[s[0]] + s[1..]];
      assert [s[0]] + s[1..] == s;
    } else {
      var last := rest[|rest| - 1];
      SuffixOfTail(s, |last|);
      assert r == [[s[0]] + rest[0]] + rest[1..];
      assert r[|r| - 1] == last;
    }
  }

  lemma {:induction false} SplitLastPiece(s: string, sep: char)
    ensures LastPieceIsSuffix(s, sep)
    decreases |s|
  {
    if s == [] {
      assert Split(s, sep) == [""];
    } else {
      SplitLastPiece(s[1..], sep);
      if s[0] == sep {
        LastPieceAfterSeparator(s, sep);
      } else {
        LastPieceAfterOther(s, sep);
      }
    }
  }

  /** `parts.join(sep)`. */
  function Join(parts: seq<string>, sep: string): string
    decreases |parts|
  {
    if |parts| == 0 then ""
    else if |parts| == 1 then parts[0]
    else parts[0] + sep + Join(parts[1..], sep)
  }

  /** A string without the separator splits into itself alone. */
  lemma {:induction false} SplitNoSeparator(s: string, sep: char)
    requires sep !in s
    ensures Split(s, sep) == [s]
    decreases |s|
  {
    if s != [] {
      assert s[0] != sep && sep !in s[1..];
      SplitNoSeparator(s[1..], sep);
      assert [s[0]] + s[1..] == s;
    }
  }

  /** Splitting `a + sep + b`, where `a` holds no separator, yields `a` followed by the pieces of `b`. */
  lemma {:induction false} SplitAfterFirst(a: string, b: string, sep: char)
    requires sep !in a
    ensures Split(a + [sep] + b, sep) == [a] + Split(b, sep)
    decreases |a|
  {
    var s := a + [sep] + b;
    if a == [] {
      assert s[1..] == b;
    } else {
      assert s[1..] == a[1..] + [sep] + b;
      SplitAfterFirst(a[1..], b, sep);
      assert [a[0]] + a[1..] == a;
    }
  }

  /** `join` then `split` on the same separator gives the parts back when no part holds the separator. */
  lemma {:induction false} SplitJoin(parts: seq<string>, sep: char)
    requires |parts| >= 1
    requires forall k :: 0 <= k < |parts| ==> sep !in parts[k]
    ensures Split(Join(parts, [sep]), sep) == parts
    decreases |parts|
  {
    if |parts| == 1 {
      SplitNoSeparator(parts[0], sep);
    } else {
      var rest := Join(parts[1..], [sep]);
      assert Join(parts, [sep]) == parts[0] + [sep] + rest;
      SplitAfterFirst(parts[0], rest, sep);
      SplitJoin(parts[1..], sep);
      assert [parts[0]] + parts[1..] == parts;
    }
  }

  /** `s.split(sep).pop()`: the text after the last separator, or all of `s` when it has none. */
  function LastSegment(s: string, sep: char): (r: string)
    ensures sep !in r
    ensures |r| <= |s| && r == s[|s| - |r|..]
    ensures |r| < |s| ==> s[|s| - |r| - 1] == sep
  {
    SplitLastPiece(s, sep);
    var parts := Split(s, sep);
    parts[|parts| - 1]
  }

  /** Whatever precedes the last separator, the last segment is the text after it. */
  lemma LastSegmentAfter(a: string, y: string, sep: char)
    requires sep !in y
    ensures LastSegment(a + [sep] + y, sep) == y
  {
    var s := a + [sep] + y;
    var r := LastSegment(s, sep);
    assert s[|s| - |y| - 1] == sep;
    assert forall k :: |s| - |y| <= k < |s| ==> s[k] == y[k - (|s| - |y|)];
    assert |r| == |y|;
    assert r == s[|s| - |y|..] == y;
  }
}
