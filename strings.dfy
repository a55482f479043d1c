/** String operations the control plane relies on: joining and splitting on a
    separator character (Go's strings.Join / strings.Split), replacing every
    occurrence of a substring (strings.Replace with n = -1) and the
    case-insensitive removal used to strip a URL scheme. */
module Strings {

  // ---------------------------------------------------------------------------
  // Join and Split
  // ---------------------------------------------------------------------------

  /** strings.Join(parts, string(sep)). */
  function Join(parts: seq<string>, sep: char): (r: string)
    ensures parts == [] ==> r == ""
    ensures |parts| == 1 ==> r == parts[0]
  {
    if |parts| == 0 then ""
    else if |parts| == 1 then parts[0]
    else parts[0] + [sep] + Join(parts[1..], sep)
  }

  /** strings.Split(s, string(sep)); like Go, the empty string splits into [""]. */
  function Split(s: string, sep: char): (r: seq<string>)
    ensures |r| >= 1
  {
    if |s| == 0 then [""]
    else if s[0] == sep then [""] + Split(s[1..], sep)
    else
      var rest := Split(s[1..], sep);
      [[s[0]] + rest[0]] + rest[1..]
  }

  /** No element of `parts` contains `sep`. */
  predicate NoSep(parts: seq<string>, sep: char) {
    forall i :: 0 <= i < |parts| ==> sep !in parts[i]
  }

  lemma {:induction false} SplitOfPieceAndRest(x: string, rest: string, sep: char)
    requires sep !in x
    ensures Split(x + [sep] + rest, sep) == [x] + Split(rest, sep)
    decreases |x|
  {
    if |x| == 0 {
      assert x + [sep] + rest == [sep] + rest;
      assert ([sep] + rest)[1..] == rest;
    } else {
      assert (x + [sep] + rest)[1..] == x[1..] + [sep] + rest;
      assert sep !in x[1..] by {
        forall k | 0 <= k < |x[1..]| ensures x[1..][k] != sep { assert x[1..][k] == x[k + 1]; }
      }
      SplitOfPieceAndRest(x[1..], rest, sep);
      assert [x[0]] + x[1..] == x;
    }
  }

  lemma {:induction false} SplitOfPiece(x: string, sep: char)
    requires sep !in x
    ensures Split(x, sep) == [x]
    decreases |x|
  {
    if |x| > 0 {
      assert sep !in x[1..] by {
        forall k | 0 <= k < |x[1..]| ensures x[1..][k] != sep { assert x[1..][k] == x[k + 1]; }
      }
      SplitOfPiece(x[1..], sep);
      assert [x[0]] + x[1..] == x;
    }
  }

  /** Splitting a joined list gives the list back, provided no element holds
      the separator (an empty list comes back as [""], as in Go). */
  lemma {:induction false} SplitJoin(parts: seq<string>, sep: char)
    requires parts != []
    requires NoSep(parts, sep)
    ensures Split(Join(parts, sep), sep) == parts
    decreases |parts|
  {
    if |parts| == 1 {
      SplitOfPiece(parts[0], sep);
    } else {
      assert NoSep(parts[1..], sep) by {
        forall i | 0 <= i < |parts[1..]| ensures sep !in parts[1..][i] { assert parts[1..][i] == parts[i + 1]; }
      }
      SplitJoin(parts[1..], sep);
      assert sep !in parts[0];
      SplitOfPieceAndRest(parts[0], Join(parts[1..], sep), sep);
      assert [parts[0]] + parts[1..] == parts;
    }
  }

  /** No piece of a split holds the separator. */
  lemma {:induction false} SplitNoSep(s: string, sep: char)
    ensures NoSep(Split(s, sep), sep)
    decreases |s|
  {
    if |s| > 0 {
      SplitNoSep(s[1..], sep);
      var rest := Split(s[1..], sep);
      if s[0] == sep {
        assert Split(s, sep) == [""] + rest;
      } else {
        var r := Split(s, sep);
        assert r == [[s[0]] + rest[0]] + rest[1..];
        forall i | 0 <= i < |r| ensures sep !in r[i] {
          if i > 0 {
            assert r[i] == rest[i];
          }
        }
      }
    }
  }

  /** Joining the pieces of a split gives the string back, for every string. */
  lemma {:induction false} JoinSplit(s: string, sep: char)
    ensures Join(Split(s, sep), sep) == s
    decreases |s|
  {
    if |s| > 0 {
      JoinSplit(s[1..], sep);
      var rest := Split(s[1..], sep);
      if s[0] == sep {
        assert Split(s, sep) == [""] + rest;
        assert ([""] + rest)[1..] == rest;
        assert [s[0]] + s[1..] == s;
      } else {
        var r := Split(s, sep);
        assert r == [[s[0]] + rest[0]] + rest[1..];
        if |rest| == 1 {
          assert Join(rest, sep) == rest[0];
          assert [s[0]] + s[1..] == s;
        } else {
          assert r[1..] == rest[1..];
          assert Join(rest, sep) == rest[0] + [sep] + Join(rest[1..], sep);
          assert [s[0]] + s[1..] == s;
        }
      }
    }
  }

  /** Join of a list with one more element at the end. */
  lemma {:induction false} JoinSnoc(parts: seq<string>, x: string, sep: char)
    requires parts != []
    ensures Join(parts + [x], sep) == Join(parts, sep) + [sep] + x
    decreases |parts|
  {
    if |parts| == 1 {
      assert parts + [x] == [parts[0], x];
      assert [parts[0], x][1..] == [x];
    } else {
      assert (parts + [x])[1..] == parts[1..] + [x];
      JoinSnoc(parts[1..], x, sep);
    }
  }

  /** Join of a list with two more elements at the end. */
  lemma JoinLastTwo(parts: seq<string>, x: string, y: string, sep: char)
    requires parts != []
    ensures Join(parts + [x, y], sep) == Join(parts, sep) + [sep] + x + [sep] + y
  {
    assert parts + [x, y] == (parts + [x]) + [y];
    JoinSnoc(parts + [x], y, sep);
    JoinSnoc(parts, x, sep);
  }

  /** Appending `c` to the second to last part inserts `c` just before the
      last separator. */
  lemma JoinInsertBeforeLast(parts: seq<string>, x: string, c: string, y: string, sep: char)
    requires parts != []
    ensures var off, tail := Join(parts + [x, y], sep), [sep] + y;
            && |off| >= |tail|
            && off[|off| - |tail|..] == tail
            && Join(parts + [x + c, y], sep) == off[..|off| - |tail|] + c + tail
  {
    JoinLastTwo(parts, x, y, sep);
    JoinLastTwo(parts, x + c, y, sep);
    var pre := Join(parts, sep) + [sep] + x;
    var tail := [sep] + y;
    assert Join(parts + [x, y], sep) == pre + tail;
    assert (pre + tail)[..|pre + tail| - |tail|] == pre;
    assert (pre + tail)[|pre + tail| - |tail|..] == tail;
  }

  // ---------------------------------------------------------------------------
  // Occurrences and strings.Replace
  // ---------------------------------------------------------------------------

  /** `f` occurs in `s` at index `i`. */
  predicate OccursAt(s: string, f: string, i: int) {
    0 <= i && i + |f| <= |s| && s[i..i + |f|] == f
  }

  /** `f` is a substring of `s`. */
  ghost predicate Contains(s: string, f: string) {
    exists i :: OccursAt(s, f, i)
  }

  /** `f` occurs nowhere in `s`. */
  ghost predicate Free(s: string, f: string) {
    forall i :: !OccursAt(s, f, i)
  }

  /** No occurrence of `f` in `a + b` straddles the boundary between them. */
  predicate NoSpan(a: string, b: string, f: string) {
    forall i :: 0 <= i < |a| < i + |f| ==> !OccursAt(a + b, f, i)
  }

  /** strings.Replace(s, f, t, -1): every non-overlapping occurrence of `f`,
      scanning left to right, is replaced by `t`. */
  function Replace(s: string, f: string, t: string): string
    requires f != []
    decreases |s|
  {
    if |s| < |f| then s
    else if s[..|f|] == f then t + Replace(s[|f|..], f, t)
    else [s[0]] + Replace(s[1..], f, t)
  }

  lemma OccursAtShift(s: string, f: string, k: nat, i: int)
    requires k <= |s|
    ensures OccursAt(s[k..], f, i) <==> (0 <= i && OccursAt(s, f, i + k))
  {
    if 0 <= i && i + |f| <= |s| - k {
      assert s[k..][i..i + |f|] == s[i + k..i + k + |f|];
    }
  }

  lemma FreeDrop(s: string, f: string, k: nat)
    requires k <= |s| && Free(s, f)
    ensures Free(s[k..], f)
  {
    forall i ensures !OccursAt(s[k..], f, i) { OccursAtShift(s, f, k, i); }
  }

  lemma NoSpanDrop(a: string, b: string, f: string, k: nat)
    requires k <= |a| && NoSpan(a, b, f)
    ensures NoSpan(a[k..], b, f)
  {
    assert (a + b)[k..] == a[k..] + b;
    forall i | 0 <= i < |a[k..]| < i + |f| ensures !OccursAt(a[k..] + b, f, i) {
      OccursAtShift(a + b, f, k, i);
    }
  }

  /** Replacing in a string free of `f` changes nothing. */
  lemma {:induction false} ReplaceFree(s: string, f: string, t: string)
    requires f != [] && Free(s, f)
    ensures Replace(s, f, t) == s
    decreases |s|
  {
    if |s| >= |f| {
      assert !OccursAt(s, f, 0);
      FreeDrop(s, f, 1);
      ReplaceFree(s[1..], f, t);
      assert [s[0]] + s[1..] == s;
    }
  }

  /** Replace distributes over a concatenation that no occurrence straddles. */
  lemma {:induction false} ReplaceConcat(a: string, b: string, f: string, t: string)
    requires f != [] && NoSpan(a, b, f)
    ensures Replace(a + b, f, t) == Replace(a, f, t) + Replace(b, f, t)
    decreases |a|
  {
    var s := a + b;
    if |a| == 0 {
      assert s == b;
    } else {
      assert s[1..] == a[1..] + b;
      if |a| >= |f| && a[..|f|] == f {
        assert s[..|f|] == f;
        assert s[|f|..] == a[|f|..] + b;
        NoSpanDrop(a, b, f, |f|);
        ReplaceConcat(a[|f|..], b, f, t);
      } else {
        assert |s| >= |f| ==> s[..|f|] != f by {
          if |s| >= |f| {
            if |a| >= |f| {
              assert s[..|f|] == a[..|f|];
            } else {
              assert !OccursAt(s, f, 0);
            }
          }
        }
        NoSpanDrop(a, b, f, 1);
        ReplaceConcat(a[1..], b, f, t);
        if |a| < |f| {
          assert Replace(a, f, t) == a;
          assert Replace(a[1..], f, t) == a[1..];
          assert [a[0]] + a[1..] == a;
          if |s| < |f| {
            assert Replace(b, f, t) == b;
          } else {
            assert Replace(s, f, t) == [a[0]] + Replace(a[1..] + b, f, t);
          }
        } else {
          assert Replace(a, f, t) == [a[0]] + Replace(a[1..], f, t);
          assert Replace(s, f, t) == [s[0]] + Replace(s[1..], f, t);
        }
      }
    }
  }

  /** A concatenation of two `f`-free strings that no occurrence straddles is
      `f`-free. */
  lemma FreeConcat(a: string, b: string, f: string)
    requires Free(a, f) && Free(b, f) && NoSpan(a, b, f)
    ensures Free(a + b, f)
  {
    forall i ensures !OccursAt(a + b, f, i) {
      if 0 <= i && i + |f| <= |a + b| {
        if i + |f| <= |a| {
          assert (a + b)[i..i + |f|] == a[i..i + |f|];
          assert !OccursAt(a, f, i);
        } else if |a| <= i {
          assert (a + b)[i..i + |f|] == b[i - |a|..i - |a| + |f|];
          assert !OccursAt(b, f, i - |a|);
        }
      }
    }
  }

  /** A string lacking one of the characters of `f` is `f`-free. */
  lemma FreeByChar(s: string, f: string, c: char)
    requires c in f && c !in s
    ensures Free(s, f)
  {
    var j :| 0 <= j < |f| && f[j] == c;
    forall i ensures !OccursAt(s, f, i) {
      if 0 <= i && i + |f| <= |s| {
        assert s[i..i + |f|][j] == s[i + j];
        assert s[i + j] != c;
      }
    }
  }

  /** No occurrence straddles the boundary when the first character of `f`
      does not occur in `a`. */
  lemma NoSpanByLeft(a: string, b: string, f: string)
    requires f != [] && f[0] !in a
    ensures NoSpan(a, b, f)
  {
    forall i | 0 <= i < |a| < i + |f| ensures !OccursAt(a + b, f, i) {
      if i + |f| <= |a + b| {
        assert (a + b)[i..i + |f|][0] == a[i];
      }
    }
  }

  /** No occurrence straddles the boundary when `b` starts with a character
      that occurs in `f` only at its first position, or not at all. */
  lemma NoSpanByRight(a: string, b: string, f: string)
    requires f != [] && b != [] && b[0] !in f[1..]
    ensures NoSpan(a, b, f)
  {
    forall i | 0 <= i < |a| < i + |f| ensures !OccursAt(a + b, f, i) {
      if i + |f| <= |a + b| {
        var j := |a| - i;
        assert (a + b)[i..i + |f|][j] == b[0];
        assert f[1..][j - 1] == f[j];
      }
    }
  }

  /** No occurrence straddles the boundary when `a` ends with a character
      that occurs in `f` only at its last position, or not at all. */
  lemma NoSpanByLast(a: string, b: string, f: string)
    requires f != [] && a != [] && a[|a| - 1] !in f[..|f| - 1]
    ensures NoSpan(a, b, f)
  {
    forall i | 0 <= i < |a| < i + |f| ensures !OccursAt(a + b, f, i) {
      if i + |f| <= |a + b| {
        var j := |a| - 1 - i;
        assert (a + b)[i..i + |f|][j] == a[|a| - 1];
        assert f[..|f| - 1][j] == f[j];
      }
    }
  }

  /** No occurrence straddles the boundary when the last |f| - 1 characters
      before it, all taken from `a`, lack the first character of `f`. */
  lemma NoSpanByTail(x: string, a: string, b: string, f: string)
    requires f != [] && |a| >= |f| - 1 && f[0] !in a
    ensures NoSpan(x + a, b, f)
  {
    forall i | 0 <= i < |x + a| < i + |f| ensures !OccursAt(x + a + b, f, i) {
      if i + |f| <= |x + a + b| {
        assert i >= |x|;
        assert (x + a + b)[i..i + |f|][0] == a[i - |x|];
      }
    }
  }

  /** Replace applied to each element of a list. */
  function ReplaceEach(parts: seq<string>, f: string, t: string): seq<string>
    requires f != []
  {
    seq(|parts|, i requires 0 <= i < |parts| => Replace(parts[i], f, t))
  }

  /** Replacing `f` by `t` in `f` itself gives `t`. */
  lemma ReplaceWhole(f: string, t: string)
    requires f != []
    ensures Replace(f, f, t) == t
  {
    assert f[|f|..] == [];
  }

  /** When `f` lacks the separator, replacing in joined text is joining the
      replaced parts: no occurrence runs across a separator. */
  lemma {:induction false} ReplaceJoin(parts: seq<string>, sep: char, f: string, t: string)
    requires f != [] && sep !in f
    ensures Replace(Join(parts, sep), f, t) == Join(ReplaceEach(parts, f, t), sep)
    decreases |parts|
  {
    var r := ReplaceEach(parts, f, t);
    if |parts| >= 2 {
      var rest := Join(parts[1..], sep);
      NoSpanByRight(parts[0], [sep] + rest, f);
      assert parts[0] + [sep] + rest == parts[0] + ([sep] + rest);
      ReplaceConcat(parts[0], [sep] + rest, f, t);
      NoSpanByLeft([sep], rest, f);
      ReplaceConcat([sep], rest, f, t);
      FreeByChar([sep], f, f[0]);
      ReplaceFree([sep], f, t);
      ReplaceJoin(parts[1..], sep, f, t);
      assert ReplaceEach(parts[1..], f, t) == r[1..];
    }
  }

  /** A string contains each of its parts joined. */
  lemma {:induction false} JoinContains(parts: seq<string>, sep: char, k: nat)
    requires k < |parts|
    ensures Contains(Join(parts, sep), parts[k])
    decreases |parts|
  {
    var s := Join(parts, sep);
    if |parts| == 1 {
      assert OccursAt(s, parts[0], 0);
    } else if k == 0 {
      assert s[..|parts[0]|] == parts[0];
      assert OccursAt(s, parts[0], 0);
    } else {
      JoinContains(parts[1..], sep, k - 1);
      var i :| OccursAt(Join(parts[1..], sep), parts[k], i);
      var off := |parts[0]| + 1;
      assert s[off..] == Join(parts[1..], sep);
      OccursAtShift(s, parts[k], off, i);
      assert OccursAt(s, parts[k], i + off);
    }
  }

  /** Substring is transitive. */
  lemma ContainsTrans(s: string, m: string, f: string)
    requires Contains(s, m) && Contains(m, f)
    ensures Contains(s, f)
  {
    var i :| OccursAt(s, m, i);
    var j :| OccursAt(m, f, j);
    var w := s[i + j..i + j + |f|];
    forall k | 0 <= k < |f| ensures w[k] == f[k] {
      assert m[j + k] == s[i..i + |m|][j + k] == s[i + j + k];
      assert f[k] == m[j..j + |f|][k] == m[j + k];
    }
    assert w == f;
    assert OccursAt(s, f, i + j);
  }

  lemma ContainsMiddle(a: string, f: string, b: string)
    ensures Contains(a + f + b, f)
  {
    assert (a + f + b)[|a|..|a| + |f|] == f;
    assert OccursAt(a + f + b, f, |a|);
  }

  // ---------------------------------------------------------------------------
  // Case-insensitive removal (scheme stripping)
  // ---------------------------------------------------------------------------

  function LowerAscii(c: char): char {
    if 'A' <= c <= 'Z' then (c as int + 32) as char else c
  }

  /** `a` and `b` are equal up to ASCII case. */
  predicate EqualFold(a: string, b: string) {
    |a| == |b| && forall i :: 0 <= i < |a| ==> LowerAscii(a[i]) == LowerAscii(b[i])
  }

  /** Removes, scanning left to right, every non-overlapping occurrence of
      `f` compared without regard to ASCII case. */
  function RemoveFold(s: string, f: string): string
    requires f != []
    decreases |s|
  {
    if |s| < |f| then s
    else if EqualFold(s[..|f|], f) then RemoveFold(s[|f|..], f)
    else [s[0]] + RemoveFold(s[1..], f)
  }

  /** A leading occurrence of `f`, in any letter case, is dropped. */
  lemma RemoveFoldPrefix(p: string, rest: string, f: string)
    requires f != [] && EqualFold(p, f)
    ensures RemoveFold(p + rest, f) == RemoveFold(rest, f)
  {
    assert (p + rest)[..|f|] == p;
    assert (p + rest)[|f|..] == rest;
  }

  /** Removal never lengthens a string. */
  lemma {:induction false} RemoveFoldShorter(s: string, f: string)
    requires f != []
    ensures |RemoveFold(s, f)| <= |s|
    decreases |s|
  {
    if |s| >= |f| {
      if EqualFold(s[..|f|], f) {
        RemoveFoldShorter(s[|f|..], f);
      } else {
        RemoveFoldShorter(s[1..], f);
      }
    }
  }

  /** `f` occurs at index `i` of `s`, compared without regard to ASCII case. */
  predicate FoldsAt(s: string, f: string, i: int) {
    0 <= i && i + |f| <= |s| && EqualFold(s[i..i + |f|], f)
  }

  /** A string with no occurrence of `f` in any case is left as it is. */
  lemma {:induction false} RemoveFoldFree(s: string, f: string)
    requires f != [] && forall i :: !FoldsAt(s, f, i)
    ensures RemoveFold(s, f) == s
    decreases |s|
  {
    if |s| >= |f| {
      assert !FoldsAt(s, f, 0);
      assert s[0..|f|] == s[..|f|];
      forall i ensures !FoldsAt(s[1..], f, i) {
        if 0 <= i && i + |f| <= |s[1..]| {
          assert s[1..][i..i + |f|] == s[i + 1..i + 1 + |f|];
          assert !FoldsAt(s, f, i + 1);
        }
      }
      RemoveFoldFree(s[1..], f);
      assert [s[0]] + s[1..] == s;
    }
  }
}
