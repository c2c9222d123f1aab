/**
 * Shortcode extraction `url.split("/")[-2]` (main.py:42, 70, 110).
 *
 * The source takes the second-to-last `/`-separated piece of the whole link
 * text. Which piece that is depends on the slash after the shortcode and on
 * the slashes of the query (`ExtractedSegment`): with no `/` in the query it
 * is the shortcode when a slash follows it and the path word `p`, `reel` or
 * `stories` otherwise; with slashes in the query it is a piece of the query,
 * or the shortcode glued to the start of the query when no slash follows the
 * shortcode and the query holds exactly one `/`.
 */
module Shortcode {
  import opened Wrappers
  import opened Text
  import opened Validator

  /** `url.split("/")[-2]`, or None where Python raises IndexError */
  function SecondToLastSegment(url: string): (r: Option<string>)
    ensures r.Some? <==> '/' in url
    ensures r.Some? ==> '/' !in r.value && r.value in Split(url, '/')
  {
    var parts := Split(url, '/');
    if |parts| < 2 then None else Some(parts[|parts| - 2])
  }

  /** The first `/`-separated piece of a link: the scheme with its colon */
  function SchemePiece(secure: bool): string {
    if secure then "https:" else "http:"
  }

  /** The third piece: the host name */
  function HostName(www: bool): string {
    if www then "www.instagram.com" else "instagram.com"
  }

  lemma HeadAsPieces(secure: bool, www: bool, path: ContentPath, t: string)
    ensures Head(secure, www, path) + t ==
      SchemePiece(secure) + ['/'] + ([] + ['/'] + (HostName(www) + ['/'] + (PathWord(path) + ['/'] + t)))
  {
    SchemeAsPiece(secure);
    HostAsPiece(www);
    HeadAlgebra(SchemePiece(secure), HostName(www), PathWord(path), t);
  }

  lemma SchemeAsPiece(secure: bool)
    ensures SchemeText(secure) == SchemePiece(secure) + ['/'] + ['/']
  {
  }

  lemma HostAsPiece(www: bool)
    ensures HostText(www) == HostName(www) + ['/']
  {
  }

  lemma HeadAlgebra(scheme: string, host: string, word: string, t: string)
    ensures (scheme + ['/'] + ['/']) + (host + ['/']) + (word + "/") + t ==
      scheme + ['/'] + ([] + ['/'] + (host + ['/'] + (word + ['/'] + t)))
  {
  }

  /** The pieces of a link: scheme, an empty piece, host, path word, then the pieces of its tail */
  lemma SplitRender(u: InstagramUrl)
    ensures Split(Render(u), '/') ==
      [SchemePiece(u.secure), "", HostName(u.www), PathWord(u.path)] + Split(TailOf(u), '/')
  {
    HeadAsPieces(u.secure, u.www, u.path, TailOf(u));
    HostNameNoSlash(u.secure, u.www, u.path);
    SplitCons4(SchemePiece(u.secure), [], HostName(u.www), PathWord(u.path), TailOf(u), '/');
  }

  lemma HostNameNoSlash(secure: bool, www: bool, path: ContentPath)
    ensures '/' !in SchemePiece(secure) && '/' !in HostName(www) && '/' !in PathWord(path)
  {
  }

  /** The pieces of a tail whose query holds no `/` */
  lemma SplitTail(u: InstagramUrl)
    requires WellFormed(u) && '/' !in QueryText(u.query)
    ensures Split(TailOf(u), '/') ==
      if u.slash then [u.shortcode, QueryText(u.query) + NewlineText(u.newline)]
      else [TailOf(u)]
  {
    var rest := QueryText(u.query) + NewlineText(u.newline);
    assert '/' !in u.shortcode by {
      assert forall k :: 0 <= k < |u.shortcode| ==> IsShortcodeChar(u.shortcode[k]);
    }
    assert '/' !in rest;
    if u.slash {
      Assoc(u.shortcode + ['/'], QueryText(u.query), NewlineText(u.newline));
      SplitCons(u.shortcode, rest, '/');
      SplitNoSep(rest, '/');
    } else {
      assert TailOf(u) == u.shortcode + rest;
      SplitNoSep(TailOf(u), '/');
    }
  }

  /**
   * The extracted piece of every well-formed link. Let q be the pieces of its
   * query and final newline split on `/`. With one piece (no `/` in the query)
   * it is the shortcode when a slash follows it and the path word otherwise.
   * With two pieces it is the first one, glued to the shortcode when no slash
   * follows the shortcode. With more it is the second-to-last piece of q.
   */
  lemma ExtractedSegment(u: InstagramUrl)
    requires WellFormed(u)
    ensures var q := Split(QueryText(u.query) + NewlineText(u.newline), '/');
      SecondToLastSegment(Render(u)) == Some(
        if |q| >= 3 then q[|q| - 2]
        else if |q| == 2 then (if u.slash then q[0] else u.shortcode + q[0])
        else if u.slash then u.shortcode
        else PathWord(u.path))
  {
    var q := Split(QueryText(u.query) + NewlineText(u.newline), '/');
    var pre := [SchemePiece(u.secure), "", HostName(u.www), PathWord(u.path)];
    SplitRender(u);
    TailPieces(u);
    PickPiece(pre, u.shortcode, u.slash, q, Split(TailOf(u), '/'));
  }

  /** Which piece is second to last, on the piece sequences alone */
  lemma PickPiece(pre: seq<string>, code: string, slash: bool, q: seq<string>, tail: seq<string>)
    requires |pre| == 4 && |q| >= 1
    requires tail == if slash then [code] + q else [code + q[0]] + q[1..]
    ensures var parts := pre + tail;
      |parts| >= 2 &&
      parts[|parts| - 2] ==
        if |q| >= 3 then q[|q| - 2]
        else if |q| == 2 then (if slash then q[0] else code + q[0])
        else if slash then code
        else pre[3]
  {
    if slash {
      SecondToLastOf(pre + [code], q);
      assert pre + tail == pre + [code] + q;
    } else {
      SecondToLastGlued(pre, code, q);
    }
  }

  /** The pieces of the tail: the shortcode alone, or glued to the first piece of the query */
  lemma TailPieces(u: InstagramUrl)
    requires WellFormed(u)
    ensures var q := Split(QueryText(u.query) + NewlineText(u.newline), '/');
      Split(TailOf(u), '/') == if u.slash then [u.shortcode] + q else [u.shortcode + q[0]] + q[1..]
  {
    var rest := QueryText(u.query) + NewlineText(u.newline);
    assert '/' !in u.shortcode by {
      assert forall k :: 0 <= k < |u.shortcode| ==> IsShortcodeChar(u.shortcode[k]);
    }
    if u.slash {
      Assoc(u.shortcode + ['/'], QueryText(u.query), NewlineText(u.newline));
      SplitCons(u.shortcode, rest, '/');
    } else {
      assert TailOf(u) == u.shortcode + rest;
      SplitGlue(u.shortcode, rest, '/');
    }
  }

  /** The second-to-last piece of `pre + q`, for a non-empty pre */
  lemma SecondToLastOf(pre: seq<string>, q: seq<string>)
    requires |pre| >= 1 && |q| >= 1
    ensures var parts := pre + q;
      parts[|parts| - 2] == if |q| >= 2 then q[|q| - 2] else pre[|pre| - 1]
  {
  }

  /** The second-to-last piece when w is glued to the first piece of q */
  lemma SecondToLastGlued(pre: seq<string>, w: string, q: seq<string>)
    requires |pre| == 4 && |q| >= 1
    ensures var parts := pre + ([w + q[0]] + q[1..]);
      parts[|parts| - 2] ==
        if |q| >= 3 then q[|q| - 2] else if |q| == 2 then w + q[0] else pre[3]
  {
  }

  /**
   * In every accepted link the pieces up to the fifth are fixed by the pattern,
   * and the fifth piece begins with the shortcode; so the extraction never
   * raises IndexError there.
   */
  lemma AcceptedPieces(url: string)
    requires IsValidInstagramUrl(url)
    ensures var u := Parse(url).value;
      var parts := Split(url, '/');
      |parts| >= 5 && parts[0] == SchemePiece(u.secure) && parts[1] == "" &&
      parts[2] == HostName(u.www) && parts[3] == PathWord(u.path) &&
      parts[4][..Span(parts[4], IsShortcodeChar)] == u.shortcode &&
      SecondToLastSegment(url).Some?
  {
    ParseSound(url);
    RenderPieces(Parse(url).value);
  }

  /** The pieces of a well-formed link */
  lemma RenderPieces(u: InstagramUrl)
    requires WellFormed(u)
    ensures var parts := Split(Render(u), '/');
      |parts| >= 5 && parts[0] == SchemePiece(u.secure) && parts[1] == "" &&
      parts[2] == HostName(u.www) && parts[3] == PathWord(u.path) &&
      parts[4][..Span(parts[4], IsShortcodeChar)] == u.shortcode
  {
    SplitRender(u);
    TailFirstPiece(u);
  }

  /** The first piece of a tail begins with exactly the shortcode */
  lemma TailFirstPiece(u: InstagramUrl)
    requires WellFormed(u)
    ensures var first := Split(TailOf(u), '/')[0];
      first[..Span(first, IsShortcodeChar)] == u.shortcode
  {
    var rest := SlashText(u.slash) + QueryText(u.query) + NewlineText(u.newline);
    assert TailOf(u) == u.shortcode + rest by {
      Reassociate(TailOf(u), u.shortcode, rest, SlashText(u.slash), QueryText(u.query) + NewlineText(u.newline),
        QueryText(u.query), NewlineText(u.newline));
    }
    assert rest == [] || !IsShortcodeChar(rest[0]) by {
      if u.slash {
        assert rest[0] == '/';
      } else if u.query.Some? {
        assert rest[0] == '?';
      } else if u.newline {
        assert rest == "\n";
      }
    }
    PrefixOfFirstPiece(u.shortcode, rest);
  }

  /** The first piece of a shortcode followed by non-shortcode text begins with exactly that shortcode */
  lemma PrefixOfFirstPiece(code: string, rest: string)
    requires IsShortcode(code)
    requires rest == [] || !IsShortcodeChar(rest[0])
    ensures var first := Split(code + rest, '/')[0];
      first[..Span(first, IsShortcodeChar)] == code
  {
    var first := Split(code + rest, '/')[0];
    var restFirst := Split(rest, '/')[0];
    assert '/' !in code by {
      assert forall k :: 0 <= k < |code| ==> IsShortcodeChar(code[k]);
    }
    SplitGlue(code, rest, '/');
    assert first == code + restFirst;
    assert restFirst == [] || !IsShortcodeChar(restFirst[0]) by {
      if restFirst != [] {
        FirstPieceHead(rest, '/');
      }
    }
    SpanOf(code, restFirst, IsShortcodeChar);
    SplitAt(code, restFirst);
  }

  /** A separator-free word glues onto the first piece of what follows it */
  lemma {:induction false} SplitGlue(w: string, t: string, sep: char)
    requires sep !in w
    ensures Split(w + t, sep) == [w + Split(t, sep)[0]] + Split(t, sep)[1..]
    decreases |w|
  {
    var q := Split(t, sep);
    if w != [] {
      assert (w + t)[0] == w[0];
      assert (w + t)[1..] == w[1..] + t;
      SplitGlue(w[1..], t, sep);
      assert [w[0]] + (w[1..] + q[0]) == w + q[0];
    } else {
      assert w + t == t;
      assert w + q[0] == q[0];
      assert [q[0]] + q[1..] == q;
    }
  }

  /** A non-empty first piece starts with the first character of the text */
  lemma FirstPieceHead(t: string, sep: char)
    requires Split(t, sep)[0] != []
    ensures t != [] && Split(t, sep)[0][0] == t[0]
  {
  }

  /** `https://www.instagram.com/p/ABC/?next=/x`: a `/` in the query moves the extracted piece into the query */
  lemma QuerySlashMovesExtraction()
    ensures IsValidInstagramUrl("https://www.instagram.com/p/ABC/?next=/x")
    ensures SecondToLastSegment("https://www.instagram.com/p/ABC/?next=/x") == Some("?next=")
  {
    var u := QuerySlashLink();
    QuerySlashLinkText();
    AcceptedAs(u, "https://www.instagram.com/p/ABC/?next=/x");
    QuerySlashPieces();
  }

  /** The link `https://www.instagram.com/p/ABC/?next=/x`, as its parts */
  function QuerySlashLink(): (u: InstagramUrl)
    ensures WellFormed(u)
  {
    var u := InstagramUrl(true, true, PostPath, "ABC", true, Some("next=/x"), false);
    assert IsShortcodeChar('A') && IsShortcodeChar('B') && IsShortcodeChar('C');
    u
  }

  lemma QuerySlashPieces()
    ensures SecondToLastSegment(Render(QuerySlashLink())) == Some("?next=")
  {
    var u := QuerySlashLink();
    SplitRender(u);
    QuerySlashTailPieces();
  }

  lemma QuerySlashLinkText()
    ensures Render(QuerySlashLink()) == "https://www.instagram.com/p/ABC/?next=/x"
  {
    var u := QuerySlashLink();
    QuerySlashHead();
    QuerySlashTailText();
    QuerySlashJoin();
    RenderOfParts(u, "https://www.instagram.com/p/", "ABC" + ['/'] + ("?next=" + ['/'] + "x"));
  }

  lemma QuerySlashHead()
    ensures Head(true, true, PostPath) == "https://www.instagram.com/p/"
  {
    SpellingSecureWww();
    assert "https://www.instagram.com/" + "p/" == "https://www.instagram.com/p/";
  }

  lemma QuerySlashJoin()
    ensures "https://www.instagram.com/p/" + ("ABC" + ['/'] + ("?next=" + ['/'] + "x")) ==
      "https://www.instagram.com/p/ABC/?next=/x"
  {
  }

  lemma QuerySlashTailPieces()
    ensures Split(TailOf(QuerySlashLink()), '/') ==
      ["ABC", "?next=", "x"]
  {
    QuerySlashTailText();
    SplitTwoSeps("ABC", "?next=", "x", '/');
  }

  lemma QuerySlashTailText()
    ensures TailOf(QuerySlashLink()) ==
      "ABC" + ['/'] + ("?next=" + ['/'] + "x")
  {
  }

  lemma SplitTwoSeps(a: string, b: string, c: string, sep: char)
    requires sep !in a && sep !in b && sep !in c
    ensures Split(a + [sep] + (b + [sep] + c), sep) == [a, b, c]
  {
    SplitCons(a, b + [sep] + c, sep);
    SplitCons(b, c, sep);
    SplitNoSep(c, sep);
  }
}
