/** String helpers with JavaScript meaning: `split` on a one-character
    separator and its inverse `join`, `indexOf`, substring containment,
    ASCII lower-casing and code-point lexicographic order. */
module Text {

  import opened Seqs

  /** `s.split(sep)` for a one-character separator: the maximal
      separator-free pieces, in order; the empty string gives `[""]`. */
  function SplitOn(s: string, sep: char): (r: seq<string>)
    ensures |r| >= 1
    ensures forall k :: 0 <= k < |r| ==> sep !in r[k]
  {
    if s == [] then [""]
    else if s[0] == sep then [""] + SplitOn(s[1..], sep)
    else
      var rest := SplitOn(s[1..], sep);
      [[s[0]] + rest[0]] + rest[1..]
  }

  /** `parts.join(sep)`. */
  function Join(parts: seq<string>, sep: char): string
    requires |parts| >= 1
  {
    if |parts| == 1 then parts[0] else parts[0] + [sep] + Join(parts[1..], sep)
  }

  /** Splitting and joining again gives back the original string. */
  lemma {:induction false} JoinSplit(s: string, sep: char)
    ensures Join(SplitOn(s, sep), sep) == s
  {
    if s != [] {
      JoinSplit(s[1..], sep);
      var rest := SplitOn(s[1..], sep);
      if s[0] == sep {
        assert SplitOn(s, sep)[1..] == rest;
      } else {
        var r := SplitOn(s, sep);
        if |rest| == 1 {
          assert r == [[s[0]] + rest[0]];
        } else {
          assert r[1..] == rest[1..];
          assert Join(rest, sep) == rest[0] + [sep] + Join(rest[1..], sep);
          assert Join(r, sep) == ([s[0]] + rest[0]) + [sep] + Join(rest[1..], sep);
        }
        assert s == [s[0]] + s[1..];
      }
    }
  }

  /** A separator-free prefix merges into the first piece. */
  lemma {:induction false} SplitPrefix(a: string, rest: string, sep: char)
    requires sep !in a
    ensures SplitOn(a + rest, sep) == [a + SplitOn(rest, sep)[0]] + SplitOn(rest, sep)[1..]
  {
    if a != [] {
      SplitPrefix(a[1..], rest, sep);
      var r := SplitOn(a[1..] + rest, sep);
      var q := SplitOn(rest, sep);
      assert (a + rest)[0] == a[0] != sep;
      assert (a + rest)[1..] == a[1..] + rest;
      assert SplitOn(a + rest, sep) == [[a[0]] + r[0]] + r[1..];
      assert r[0] == a[1..] + q[0] && r[1..] == q[1..];
      assert [a[0]] + (a[1..] + q[0]) == a + q[0];
    } else {
      assert a + rest == rest;
      var r := SplitOn(rest, sep);
      assert a + r[0] == r[0];
      assert r == [r[0]] + r[1..];
    }
  }

  /** Joining separator-free pieces and splitting again gives back the pieces. */
  lemma {:induction false} SplitJoin(parts: seq<string>, sep: char)
    requires |parts| >= 1
    requires forall k :: 0 <= k < |parts| ==> sep !in parts[k]
    ensures SplitOn(Join(parts, sep), sep) == parts
  {
    if |parts| == 1 {
      SplitPrefix(parts[0], "", sep);
      assert parts[0] + "" == parts[0];
    } else {
      SplitJoin(parts[1..], sep);
      var tail := Join(parts[1..], sep);
      assert Join(parts, sep) == parts[0] + ([sep] + tail);
      SplitPrefix(parts[0], [sep] + tail, sep);
      assert ([sep] + tail)[1..] == tail;
      assert SplitOn([sep] + tail, sep) == [""] + parts[1..];
      assert parts[0] + "" == parts[0];
      assert parts == [parts[0]] + parts[1..];
    }
  }

  /** Joining one more piece appends a separator and the piece. */
  lemma {:induction false} JoinSnoc(parts: seq<string>, x: string, sep: char)
    requires |parts| >= 1
    ensures Join(parts + [x], sep) == Join(parts, sep) + [sep] + x
  {
    if |parts| > 1 {
      JoinSnoc(parts[1..], x, sep);
      assert (parts + [x])[1..] == parts[1..] + [x];
    }
  }

  /** The text after the last `sep` (all of `s` when there is none). */
  function AfterLast(s: string, sep: char): (r: string)
    ensures |r| <= |s| && s[|s| - |r|..] == r
    ensures sep !in r
    ensures |r| == |s| || s[|s| - |r| - 1] == sep
  {
    if s == [] || s[|s| - 1] == sep then ""
    else
      var r := AfterLast(s[..|s| - 1], sep) + [s[|s| - 1]];
      assert s[|s| - |r|..] == s[..|s| - 1][|s| - |r|..] + [s[|s| - 1]];
      r
  }

  lemma {:induction false} AfterLastOfTail(a: string, b: string, sep: char)
    requires sep !in b
    ensures AfterLast(a + [sep] + b, sep) == b
    decreases |b|
  {
    var s := a + [sep] + b;
    if b != [] {
      var b' := b[..|b| - 1];
      AfterLastOfTail(a, b', sep);
      assert s[..|s| - 1] == a + [sep] + b';
      assert b == b' + [b[|b| - 1]];
    } else {
      assert s[|s| - 1] == sep;
    }
  }

  /** The last piece of `s.split(sep)` is the text after the last `sep`,
      which is what `split(sep).pop()` yields. */
  lemma LastPieceIsAfterLast(s: string, sep: char)
    ensures SplitOn(s, sep)[|SplitOn(s, sep)| - 1] == AfterLast(s, sep)
  {
    var p := SplitOn(s, sep);
    var n := |p|;
    JoinSplit(s, sep);
    if n == 1 {
      assert Join(p, sep) == p[0];
      assert sep !in s;
    } else {
      assert p == p[..n - 1] + [p[n - 1]];
      JoinSnoc(p[..n - 1], p[n - 1], sep);
      AfterLastOfTail(Join(p[..n - 1], sep), p[n - 1], sep);
    }
  }

  /** `s.indexOf(c)`: the position of the first `c`, if any. */
  function IndexOf(s: string, c: char): (r: Option<nat>)
    ensures r.Some? ==> r.value < |s| && s[r.value] == c && c !in s[..r.value]
    ensures r.None? ==> c !in s
  {
    if s == [] then None
    else if s[0] == c then Some(0)
    else match IndexOf(s[1..], c)
      case None => None
      case Some(k) =>
        assert s[..k + 1] == [s[0]] + s[1..][..k];
        Some(k + 1)
  }

  /** The first `c` of `a + [c] + b` is the one after `a` when `a` has none. */
  lemma {:induction false} IndexOfAfter(a: string, c: char, b: string)
    requires c !in a
    ensures IndexOf(a + [c] + b, c) == Some(|a|)
  {
    if a != [] {
      IndexOfAfter(a[1..], c, b);
      assert (a + [c] + b)[1..] == a[1..] + [c] + b;
    }
  }

  /** The first piece of `s.split(sep)` is the text before the first `sep`. */
  lemma {:induction false} FirstPieceIsBeforeFirst(s: string, sep: char)
    ensures SplitOn(s, sep)[0] == (match IndexOf(s, sep) case None => s case Some(i) => s[..i])
  {
    if s != [] && s[0] != sep {
      FirstPieceIsBeforeFirst(s[1..], sep);
      match IndexOf(s[1..], sep)
      case None =>
        assert s == [s[0]] + s[1..];
      case Some(k) =>
        assert s[..k + 1] == [s[0]] + s[1..][..k];
    }
  }

  predicate IsPrefix(p: string, s: string) {
    |p| <= |s| && s[..|p|] == p
  }

  /** `hay.includes(needle)`. */
  predicate Contains(hay: string, needle: string)
    decreases |hay|
  {
    IsPrefix(needle, hay) || (hay != [] && Contains(hay[1..], needle))
  }

  /** `needle` occurs in `hay` at position `i`. */
  ghost predicate OccursAt(hay: string, needle: string, i: int) {
    0 <= i && i + |needle| <= |hay| && hay[i..i + |needle|] == needle
  }

  /** `Contains` holds exactly when the needle occurs somewhere. */
  lemma {:induction false} ContainsIffOccurs(hay: string, needle: string)
    ensures Contains(hay, needle) <==> exists i :: OccursAt(hay, needle, i)
  {
    if IsPrefix(needle, hay) {
      assert OccursAt(hay, needle, 0);
    } else if hay == [] {
      assert forall i :: !OccursAt(hay, needle, i);
    } else {
      ContainsIffOccurs(hay[1..], needle);
      if Contains(hay[1..], needle) {
        var i :| OccursAt(hay[1..], needle, i);
        assert hay[i + 1..i + 1 + |needle|] == hay[1..][i..i + |needle|];
        assert OccursAt(hay, needle, i + 1);
      } else {
        forall i | 0 < i && OccursAt(hay, needle, i) ensures OccursAt(hay[1..], needle, i - 1) {
          assert hay[1..][i - 1..i - 1 + |needle|] == hay[i..i + |needle|];
        }
        assert !OccursAt(hay, needle, 0);
      }
    }
  }

  /** A string contains each piece it is built from. */
  lemma ContainsPiece(before: string, piece: string, after: string)
    ensures Contains(before + piece + after, piece)
  {
    var hay := before + piece + after;
    assert hay[|before|..|before| + |piece|] == piece;
    assert OccursAt(hay, piece, |before|);
    ContainsIffOccurs(hay, piece);
  }

  function LowerChar(c: char): char {
    if 'A' <= c <= 'Z' then (c as int + 32) as char else c
  }

  /** `s.toLowerCase()` restricted to ASCII letters. */
  function Lower(s: string): (r: string)
    ensures |r| == |s|
    ensures forall i :: 0 <= i < |s| ==> r[i] == LowerChar(s[i])
  {
    seq(|s|, i requires 0 <= i < |s| => LowerChar(s[i]))
  }

  /** Case-insensitive containment, the meaning of `name ILIKE '%query%'`. */
  predicate ContainsIgnoreCase(name: string, query: string) {
    Contains(Lower(name), Lower(query))
  }

  /** Lexicographic order on code points: the `ORDER BY name ASC` of the model. */
  predicate LexLe(a: string, b: string)
    decreases |a|
  {
    a == [] || (b != [] && (a[0] < b[0] || (a[0] == b[0] && LexLe(a[1..], b[1..]))))
  }

  lemma {:induction false} LexLeTotal(a: string, b: string)
    ensures LexLe(a, b) || LexLe(b, a)
    decreases |a|
  {
    if a != [] && b != [] && a[0] == b[0] {
      LexLeTotal(a[1..], b[1..]);
    }
  }

  lemma {:induction false} LexLeTransitive(a: string, b: string, c: string)
    requires LexLe(a, b) && LexLe(b, c)
    ensures LexLe(a, c)
    decreases |a|
  {
    if a != [] && b != [] && c != [] && a[0] == b[0] && b[0] == c[0] {
      LexLeTransitive(a[1..], b[1..], c[1..]);
    }
  }

  /** `s` is in ascending `LexLe` order of `key`. */
  ghost predicate SortedByText<T>(s: seq<T>, key: T -> string) {
    forall i, j :: 0 <= i < j < |s| ==> LexLe(key(s[i]), key(s[j]))
  }

  lemma SortedByTextCons<T>(h: T, r: seq<T>, key: T -> string)
    requires SortedByText(r, key)
    requires forall y :: y in r ==> LexLe(key(h), key(y))
    ensures SortedByText([h] + r, key)
  {
    var s := [h] + r;
    forall i, j | 0 <= i < j < |s| ensures LexLe(key(s[i]), key(s[j])) {
      assert s[j] == r[j - 1];
      if i == 0 { assert r[j - 1] in r; } else { assert s[i] == r[i - 1]; }
    }
  }

  /** Inserts `x` into the sorted `s` before the first element it precedes. */
  function InsertByText<T>(x: T, s: seq<T>, key: T -> string): (r: seq<T>)
    requires SortedByText(s, key)
    ensures SortedByText(r, key)
    ensures multiset(r) == multiset(s) + multiset{x}
  {
    if s == [] then [x]
    else if LexLe(key(x), key(s[0])) then
      forall y | y in s ensures LexLe(key(x), key(y)) {
        var k :| 0 <= k < |s| && s[k] == y;
        if k > 0 { LexLeTransitive(key(x), key(s[0]), key(y)); }
      }
      SortedByTextCons(x, s, key);
      [x] + s
    else
      assert s == [s[0]] + s[1..];
      LexLeTotal(key(x), key(s[0]));
      var tail := InsertByText(x, s[1..], key);
      forall y | y in tail ensures LexLe(key(s[0]), key(y)) {
        assert y in multiset(tail);
        if y != x {
          assert y in s[1..];
          var k :| 0 <= k < |s[1..]| && s[1..][k] == y;
          assert s[k + 1] == y;
        }
      }
      SortedByTextCons(s[0], tail, key);
      [s[0]] + tail
  }

  /** An insertion sort of `s` by ascending `LexLe` order of `key`. */
  function SortByText<T>(s: seq<T>, key: T -> string): (r: seq<T>)
    ensures SortedByText(r, key)
    ensures multiset(r) == multiset(s)
  {
    if s == [] then []
    else
      assert s == [s[0]] + s[1..];
      InsertByText(s[0], SortByText(s[1..], key), key)
  }
}
