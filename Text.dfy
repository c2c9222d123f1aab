/**
 * The Python `str` operations the bot uses: `endswith`, the substring test
 * `t in s`, repetition `c * n` and `split` on a one-character separator.
 * A prefix test and `join` are added for the recogniser and the proofs.
 */
module Text {

  /** `s.startswith(p)` */
  predicate StartsWith(s: string, p: string) {
    |p| <= |s| && s[..|p|] == p
  }

  /** `s.endswith(suffix)` */
  predicate EndsWith(s: string, suffix: string) {
    |suffix| <= |s| && s[|s| - |suffix|..] == suffix
  }

  /** `t in s`: t occurs in s as a contiguous substring */
  predicate Contains(s: string, t: string)
    decreases |s|
  {
    StartsWith(s, t) || (s != [] && Contains(s[1..], t))
  }

  /** `c * n`: n copies of c, and the empty string when n is zero or negative */
  function Repeat(c: char, n: int): (r: string)
    ensures |r| == if n <= 0 then 0 else n
    ensures forall k :: 0 <= k < |r| ==> r[k] == c
    decreases n
  {
    if n <= 0 then [] else [c] + Repeat(c, n - 1)
  }

  /** Length of the longest prefix of s whose characters all satisfy p */
  function Span(s: string, p: char -> bool): (n: nat)
    ensures n <= |s|
    ensures forall k :: 0 <= k < n ==> p(s[k])
    ensures n < |s| ==> !p(s[n])
    decreases |s|
  {
    if s == [] || !p(s[0]) then 0 else 1 + Span(s[1..], p)
  }

  /** A run of p-characters followed by a non-p character (or nothing) spans exactly the run */
  lemma SpanOf(a: string, x: string, p: char -> bool)
    requires forall k :: 0 <= k < |a| ==> p(a[k])
    requires x == [] || !p(x[0])
    ensures Span(a + x, p) == |a|
  {
    var s := a + x;
    assert forall k :: 0 <= k < |a| ==> s[k] == a[k];
    assert |a| < |s| ==> s[|a|] == x[0];
  }

  lemma StartsWithCons(t: string, p: string)
    requires t != [] && p != []
    ensures StartsWith(t, p) <==> t[0] == p[0] && StartsWith(t[1..], p[1..])
  {
    if StartsWith(t, p) {
      assert t[1..][..|p| - 1] == t[..|p|][1..];
    }
    if t[0] == p[0] && StartsWith(t[1..], p[1..]) {
      assert t[..|p|] == [t[0]] + t[1..][..|p| - 1];
      assert p == [p[0]] + p[1..];
    }
  }

  lemma TakeDrop(s: string, n: nat)
    requires n <= |s|
    ensures s == s[..n] + s[n..]
  {
  }

  lemma SplitAt(a: string, b: string)
    ensures (a + b)[..|a|] == a && (a + b)[|a|..] == b
  {
  }

  lemma StartsWithConcat(a: string, b: string)
    ensures StartsWith(a + b, a)
  {
    assert (a + b)[..|a|] == a;
  }

  lemma Assoc(a: string, b: string, c: string)
    ensures a + b + c == a + (b + c)
  {
  }

  /** Three nested splittings of s, read as one concatenation */
  lemma Reassociate(s: string, a: string, r1: string, b: string, r2: string, c: string, d: string)
    requires s == a + r1 && r1 == b + r2 && r2 == c + d
    ensures s == a + b + c + d
  {
  }

  /** Whatever surrounds t, the result contains t */
  lemma {:induction false} ContainsInfix(a: string, t: string, b: string)
    ensures Contains(a + t + b, t)
    decreases |a|
  {
    if a == [] {
      assert a + t + b == t + b;
      assert (t + b)[..|t|] == t;
    } else {
      assert (a + t + b)[1..] == a[1..] + t + b;
      ContainsInfix(a[1..], t, b);
    }
  }

  /**
   * `s.split(sep)`: the pieces between occurrences of sep, left to right.
   * There is always at least one piece, and exactly one when sep does not occur.
   */
  function Split(s: string, sep: char): (parts: seq<string>)
    ensures |parts| >= 1
    ensures |parts| == 1 <==> sep !in s
    ensures forall k :: 0 <= k < |parts| ==> sep !in parts[k]
    decreases |s|
  {
    if s == [] then [[]]
    else
      var rest := Split(s[1..], sep);
      if s[0] == sep then [[]] + rest
      else [[s[0]] + rest[0]] + rest[1..]
  }

  /** `sep.join(parts)` */
  function Join(parts: seq<string>, sep: char): string
    requires |parts| >= 1
    decreases |parts|
  {
    if |parts| == 1 then parts[0] else parts[0] + [sep] + Join(parts[1..], sep)
  }

  /** Joining the pieces of a split gives back the string */
  lemma {:induction false} JoinSplit(s: string, sep: char)
    ensures Join(Split(s, sep), sep) == s
    decreases |s|
  {
    if s != [] {
      var rest := Split(s[1..], sep);
      JoinSplit(s[1..], sep);
      assert s == [s[0]] + s[1..];
      if s[0] == sep {
        assert Split(s, sep) == [[]] + rest;
        assert ([[]] + rest)[1..] == rest;
      } else if |rest| > 1 {
        var parts := Split(s, sep);
        assert parts[1..] == rest[1..];
        assert Join(rest, sep) == rest[0] + [sep] + Join(rest[1..], sep);
      }
    }
  }

  /** Splitting a separator-free word, a separator and the rest */
  lemma {:induction false} SplitCons(w: string, t: string, sep: char)
    requires sep !in w
    ensures Split(w + [sep] + t, sep) == [w] + Split(t, sep)
    decreases |w|
  {
    var s := w + [sep] + t;
    if w == [] {
      assert s == [sep] + t;
      assert s[1..] == t;
    } else {
      assert s[0] == w[0];
      assert s[1..] == w[1..] + [sep] + t;
      SplitCons(w[1..], t, sep);
      assert [w[0]] + w[1..] == w;
    }
  }

  /** Splitting four separator-free words, each followed by a separator, and the rest */
  lemma SplitCons4(a: string, b: string, c: string, d: string, t: string, sep: char)
    requires sep !in a && sep !in b && sep !in c && sep !in d
    ensures Split(a + [sep] + (b + [sep] + (c + [sep] + (d + [sep] + t))), sep) ==
      [a, b, c, d] + Split(t, sep)
  {
    var r3 := d + [sep] + t;
    var r2 := c + [sep] + r3;
    var r1 := b + [sep] + r2;
    SplitCons(a, r1, sep);
    SplitCons(b, r2, sep);
    SplitCons(c, r3, sep);
    SplitCons(d, t, sep);
  }

  /** A string without the separator splits into itself alone */
  lemma SplitNoSep(s: string, sep: char)
    requires sep !in s
    ensures Split(s, sep) == [s]
  {
    JoinSplit(s, sep);
  }

  /** Splitting the join of separator-free pieces gives back the pieces */
  lemma {:induction false} SplitJoin(parts: seq<string>, sep: char)
    requires |parts| >= 1
    requires forall k :: 0 <= k < |parts| ==> sep !in parts[k]
    ensures Split(Join(parts, sep), sep) == parts
    decreases |parts|
  {
    if |parts| == 1 {
      SplitNoSep(parts[0], sep);
    } else {
      SplitJoin(parts[1..], sep);
      SplitCons(parts[0], Join(parts[1..], sep), sep);
      assert [parts[0]] + parts[1..] == parts;
    }
  }

  /** The pieces of `s.split(sep)` other than the first and the last: the words found between two separators */
  function InnerPieces(s: string, sep: char): seq<string> {
    var parts := Split(s, sep);
    if |parts| < 2 then [] else parts[1..|parts| - 1]
  }

  /** The inner pieces of a text whose pieces are `pre + rest` */
  lemma InnerPiecesOfParts(s: string, sep: char, pre: seq<string>, rest: seq<string>)
    requires Split(s, sep) == pre + rest && |pre| >= 1 && |rest| >= 1
    ensures InnerPieces(s, sep) == pre[1..] + rest[..|rest| - 1]
  {
    var parts := pre + rest;
    assert parts[1..|parts| - 1] == pre[1..] + rest[..|rest| - 1];
  }

  /** t begins with the word w and a separator exactly when the first piece of t is w and another piece follows */
  lemma {:induction false} StartsWithPiece(t: string, w: string, sep: char)
    requires sep !in w
    ensures StartsWith(t, w + [sep]) <==> |Split(t, sep)| >= 2 && Split(t, sep)[0] == w
    decreases |w|
  {
    if t == [] {
    } else if w == [] {
      assert w + [sep] == [sep];
      StartsWithCons(t, [sep]);
    } else {
      var rest := Split(t[1..], sep);
      StartsWithPiece(t[1..], w[1..], sep);
      StartsWithCons(t, w + [sep]);
      assert (w + [sep])[1..] == w[1..] + [sep];
      assert w == [w[0]] + w[1..];
      if t[0] == sep {
        assert w[0] != sep;
      } else {
        assert Split(t, sep) == [[t[0]] + rest[0]] + rest[1..];
        assert Split(t, sep)[0] == w <==> t[0] == w[0] && rest[0] == w[1..];
      }
    }
  }

  /** How the inner pieces of s relate to those of s without its first character */
  lemma InnerPiecesCons(s: string, sep: char)
    requires s != []
    ensures var rest := Split(s[1..], sep);
      InnerPieces(s, sep) ==
        if s[0] != sep then InnerPieces(s[1..], sep)
        else if |rest| >= 2 then [rest[0]] + InnerPieces(s[1..], sep)
        else []
  {
    var parts := Split(s, sep);
    var rest := Split(s[1..], sep);
    if s[0] == sep {
      assert parts == [[]] + rest;
      if |rest| >= 2 {
        calc {
          InnerPieces(s, sep);
          parts[1..|parts| - 1];
          rest[..|rest| - 1];
          [rest[0]] + rest[1..|rest| - 1];
          [rest[0]] + InnerPieces(s[1..], sep);
        }
      }
    } else {
      assert parts == [[s[0]] + rest[0]] + rest[1..];
      if |rest| >= 2 {
        assert parts[1..|parts| - 1] == rest[1..|rest| - 1];
      }
    }
  }

  /**
   * For a separator-free word w, the substring test `sep + w + sep in s` holds
   * exactly when w is one of the inner pieces of `s.split(sep)`.
   */
  lemma {:induction false} ContainsDelimited(s: string, w: string, sep: char)
    requires sep !in w
    ensures Contains(s, [sep] + w + [sep]) <==> w in InnerPieces(s, sep)
    decreases |s|
  {
    var m := [sep] + w + [sep];
    if s != [] {
      ContainsDelimited(s[1..], w, sep);
      StartsWithPiece(s[1..], w, sep);
      StartsWithCons(s, m);
      assert m[1..] == w + [sep];
      InnerPiecesCons(s, sep);
    }
  }
}
