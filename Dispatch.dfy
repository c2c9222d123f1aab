/**
 * The content-type dispatch of `download_instagram` (main.py:109-128): the
 * first of the substring tests `"/p/" in url`, `"/stories/" in url`,
 * `"/reel/" in url` that holds picks the branch.
 *
 * The tests look at the whole text, not at the path component, so a
 * `/p/` anywhere (for instance inside the query of a reel link) wins over
 * the path word.
 */
module Dispatch {
  import opened Wrappers
  import opened Text
  import opened Validator
  import opened Shortcode

  /** Which branch of the if/elif chain runs; NoBranch when none of the tests holds */
  datatype Branch = Post | Story | Reel | NoBranch

  /**
   * The if/elif chain. It picks the same branch as the chain over the inner
   * pieces of `url.split("/")`, on every text.
   */
  function Classify(url: string): (b: Branch)
    ensures b == ClassifyByPieces(url)
  {
    MarkerWords();
    ContainsDelimited(url, "p", '/');
    ContainsDelimited(url, "stories", '/');
    ContainsDelimited(url, "reel", '/');
    if Contains(url, "/p/") then Post
    else if Contains(url, "/stories/") then Story
    else if Contains(url, "/reel/") then Reel
    else NoBranch
  }

  /**
   * The same choice read from the `/`-separated pieces: a test holds exactly
   * when its word is a piece that has a `/` on both sides.
   */
  function ClassifyByPieces(url: string): Branch {
    ClassifyWords(InnerPieces(url, '/'))
  }

  function ClassifyWords(words: seq<string>): Branch {
    if "p" in words then Post
    else if "stories" in words then Story
    else if "reel" in words then Reel
    else NoBranch
  }

  lemma MarkerWords()
    ensures "/p/" == ['/'] + "p" + ['/']
    ensures "/stories/" == ['/'] + "stories" + ['/']
    ensures "/reel/" == ['/'] + "reel" + ['/']
  {
  }

  /** The inner pieces of a link: the empty piece, the host, the path word, then every piece of the tail but its last */
  lemma InnerPiecesOfRender(u: InstagramUrl)
    ensures var tail := Split(TailOf(u), '/');
      InnerPieces(Render(u), '/') == ["", HostName(u.www), PathWord(u.path)] + tail[..|tail| - 1]
  {
    SplitRender(u);
    var pre: seq<string> := [SchemePiece(u.secure), "", HostName(u.www), PathWord(u.path)];
    InnerPiecesOfParts(Render(u), '/', pre, Split(TailOf(u), '/'));
    assert pre[1..] == ["", HostName(u.www), PathWord(u.path)];
  }

  /** Every accepted link runs one of the three branches, so the chain never falls through */
  lemma ValidUrlIsDispatched(url: string)
    requires IsValidInstagramUrl(url)
    ensures Classify(url) != NoBranch
  {
    ParseSound(url);
    RenderDispatched(Parse(url).value);
  }

  lemma RenderDispatched(u: InstagramUrl)
    ensures Classify(Render(u)) != NoBranch
  {
    InnerPiecesOfRender(u);
    assert PathWord(u.path) in InnerPieces(Render(u), '/');
  }

  /**
   * For a link whose query holds no `/`, the branch follows the path word,
   * except that a shortcode spelled `p` or `stories` followed by a slash
   * also counts as a marker.
   */
  lemma DispatchOfLink(u: InstagramUrl)
    requires WellFormed(u) && '/' !in QueryText(u.query)
    ensures Classify(Render(u)) ==
      if u.path == PostPath || (u.slash && u.shortcode == "p") then Post
      else if u.path == StoriesPath || (u.slash && u.shortcode == "stories") then Story
      else Reel
  {
    LinkWords(u);
    ClassifyLinkWords(u.www, u.path, u.slash, u.shortcode);
  }

  /** The inner pieces of a link whose query holds no `/` */
  lemma LinkWords(u: InstagramUrl)
    requires WellFormed(u) && '/' !in QueryText(u.query)
    ensures InnerPieces(Render(u), '/') ==
      ["", HostName(u.www), PathWord(u.path)] + (if u.slash then [u.shortcode] else [])
  {
    InnerPiecesOfRender(u);
    SplitTail(u);
  }

  lemma ClassifyLinkWords(www: bool, path: ContentPath, slash: bool, code: string)
    ensures ClassifyWords(["", HostName(www), PathWord(path)] + (if slash then [code] else [])) ==
      if path == PostPath || (slash && code == "p") then Post
      else if path == StoriesPath || (slash && code == "stories") then Story
      else Reel
  {
    var host := HostName(www);
    assert host != "p" && host != "stories" && host != "reel";
    if slash {
      assert ["", host, PathWord(path)] + [code] == ["", host, PathWord(path), code];
    } else {
      assert ["", host, PathWord(path)] + [] == ["", host, PathWord(path)];
    }
  }

  /** A reel link whose query mentions `/p/` is dispatched to the post branch */
  lemma ReelLinkWithPostMarker()
    ensures IsValidInstagramUrl("https://www.instagram.com/reel/ABC/?from=/p/")
    ensures Classify("https://www.instagram.com/reel/ABC/?from=/p/") == Post
  {
    var u := InstagramUrl(true, true, ReelPath, "ABC", true, Some("from=/p/"), false);
    assert IsShortcode("ABC") by {
      assert forall k :: 0 <= k < 3 ==> IsShortcodeChar("ABC"[k]);
    }
    ReelLinkText();
    ParseComplete(u);
    ContainsInfix("https://www.instagram.com/reel/ABC/?from=", "/p/", []);
    ReelLinkPieces();
  }

  lemma ReelLinkText()
    ensures Render(InstagramUrl(true, true, ReelPath, "ABC", true, Some("from=/p/"), false)) ==
      "https://www.instagram.com/reel/ABC/?from=/p/"
  {
    var u := InstagramUrl(true, true, ReelPath, "ABC", true, Some("from=/p/"), false);
    ReelLinkHead();
    ReelLinkTail();
    ReelLinkJoin();
    RenderOfParts(u, "https://www.instagram.com/reel/", "ABC/?from=/p/");
  }

  lemma ReelLinkHead()
    ensures Head(true, true, ReelPath) == "https://www.instagram.com/reel/"
  {
    SpellingSecureWww();
    assert "https://www.instagram.com/" + "reel/" == "https://www.instagram.com/reel/";
  }

  lemma ReelLinkTail()
    ensures TailOf(InstagramUrl(true, true, ReelPath, "ABC", true, Some("from=/p/"), false)) == "ABC/?from=/p/"
  {
  }

  lemma ReelLinkJoin()
    ensures "https://www.instagram.com/reel/" + "ABC/?from=/p/" == "https://www.instagram.com/reel/ABC/?from=/p/"
  {
  }

  lemma ReelLinkPieces()
    ensures "https://www.instagram.com/reel/ABC/?from=/p/" == "https://www.instagram.com/reel/ABC/?from=" + "/p/" + []
  {
  }
}
