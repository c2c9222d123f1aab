/**
 * The link validator `is_valid_instagram_url` (main.py:22-24).
 *
 * The source checks the message text against the anchored pattern
 *   ^https?://(www\.)?instagram\.com/(p|reel|stories)/[a-zA-Z0-9_-]+(/)?(\?.*)?$
 * with Python's `re.match`. Here that pattern is a hand-written recogniser,
 * `Parse`, that reads the text left to right and returns the parts it found.
 * Two details of Python's regular expressions are kept: `.` does not match a
 * newline, and `$` matches at the very end or just before one final newline,
 * so exactly one trailing "\n" is accepted.
 *
 * `Render` builds the text of a link from its parts; the lemmas below show
 * that the accepted texts are exactly the rendered well-formed links.
 */
module Validator {
  import opened Wrappers
  import opened Text

  /** The alternatives of `(p|reel|stories)` */
  datatype ContentPath = PostPath | ReelPath | StoriesPath

  function PathWord(path: ContentPath): string {
    match path
    case PostPath => "p"
    case ReelPath => "reel"
    case StoriesPath => "stories"
  }

  /** The character class `[a-zA-Z0-9_-]` */
  predicate IsShortcodeChar(c: char) {
    'a' <= c <= 'z' || 'A' <= c <= 'Z' || '0' <= c <= '9' || c == '_' || c == '-'
  }

  /** What `[a-zA-Z0-9_-]+` matches */
  predicate IsShortcode(s: string) {
    |s| > 0 && forall k :: 0 <= k < |s| ==> IsShortcodeChar(s[k])
  }

  /** What `.` matches: anything but a newline */
  predicate IsLineChar(c: char) {
    c != '\n'
  }

  /**
   * The parts of a link the pattern accepts: `https` or `http`, `www.` or not,
   * the path word, the shortcode, the optional `/`, the optional query (the
   * text after `?`), and whether `$` matched before a final newline.
   */
  datatype InstagramUrl = InstagramUrl(
    secure: bool,
    www: bool,
    path: ContentPath,
    shortcode: string,
    slash: bool,
    query: Option<string>,
    newline: bool)

  predicate WellFormed(u: InstagramUrl) {
    IsShortcode(u.shortcode) && (u.query.Some? ==> '\n' !in u.query.value)
  }

  /** `https?://` */
  function SchemeText(secure: bool): string {
    if secure then "https://" else "http://"
  }

  /** `(www\.)?instagram\.com/` */
  function HostText(www: bool): string {
    if www then "www.instagram.com/" else "instagram.com/"
  }

  /** `(p|reel|stories)/` */
  function PathText(path: ContentPath): string {
    PathWord(path) + "/"
  }

  /** Everything up to and including the `/` after the path word */
  function Head(secure: bool, www: bool, path: ContentPath): string {
    SchemeText(secure) + HostText(www) + PathText(path)
  }

  function SlashText(slash: bool): string {
    if slash then "/" else ""
  }

  function QueryText(query: Option<string>): string {
    match query
    case None => ""
    case Some(q) => "?" + q
  }

  function NewlineText(newline: bool): string {
    if newline then "\n" else ""
  }

  /** Everything after the `/` that follows the path word */
  function Tail(shortcode: string, slash: bool, query: Option<string>, newline: bool): string {
    shortcode + SlashText(slash) + QueryText(query) + NewlineText(newline)
  }

  function Render(u: InstagramUrl): string {
    Head(u.secure, u.www, u.path) + Tail(u.shortcode, u.slash, u.query, u.newline)
  }

  /** `https?://`: whether the `s` is present, and the text after the scheme */
  function MatchScheme(s: string): Option<(bool, string)> {
    if StartsWith(s, "https://") then Some((true, s[8..]))
    else if StartsWith(s, "http://") then Some((false, s[7..]))
    else None
  }

  /** `(www\.)?instagram\.com/`: whether `www.` is present, and the text after the host */
  function MatchHost(t: string): Option<(bool, string)> {
    if StartsWith(t, "www.instagram.com/") then Some((true, t[18..]))
    else if StartsWith(t, "instagram.com/") then Some((false, t[14..]))
    else None
  }

  /** `(p|reel|stories)/`; the three words start with different letters, so at most one fits */
  function MatchPath(t: string): Option<(ContentPath, string)> {
    if StartsWith(t, "p/") then Some((PostPath, t[2..]))
    else if StartsWith(t, "reel/") then Some((ReelPath, t[5..]))
    else if StartsWith(t, "stories/") then Some((StoriesPath, t[8..]))
    else None
  }

  /** `(/)?`, greedy */
  function MatchSlash(t: string): (bool, string) {
    if t != [] && t[0] == '/' then (true, t[1..]) else (false, t)
  }

  /** `(\?.*)?`, greedy: `.*` runs to the first newline or the end */
  function MatchQuery(t: string): (Option<string>, string) {
    if t != [] && t[0] == '?' then
      var m := Span(t[1..], IsLineChar);
      (Some(t[1..1 + m]), t[1 + m..])
    else (None, t)
  }

  /** `$`: the end of the text, or just before a final newline */
  function MatchEnd(t: string): Option<bool> {
    if t == [] then Some(false)
    else if t == "\n" then Some(true)
    else None
  }

  /** `re.match` of the whole pattern: the parts of the link, or None when the text does not match */
  function Parse(s: string): Option<InstagramUrl> {
    match MatchScheme(s)
    case None => None
    case Some((secure, afterScheme)) =>
      match MatchHost(afterScheme)
      case None => None
      case Some((www, afterHost)) =>
        match MatchPath(afterHost)
        case None => None
        case Some((path, afterPath)) => ParseTail(secure, www, path, afterPath)
  }

  /**
   * `[a-zA-Z0-9_-]+(/)?(\?.*)?$`. The shortcode run, the slash and `.*` are
   * greedy, and no shorter choice could let `$` match, because the character
   * after each of them can only be matched by what follows it.
   */
  function ParseTail(secure: bool, www: bool, path: ContentPath, t: string): Option<InstagramUrl> {
    var n := Span(t, IsShortcodeChar);
    if n == 0 then None
    else
      var (slash, afterSlash) := MatchSlash(t[n..]);
      var (query, afterQuery) := MatchQuery(afterSlash);
      match MatchEnd(afterQuery)
      case None => None
      case Some(newline) => Some(InstagramUrl(secure, www, path, t[..n], slash, query, newline))
  }

  /** `is_valid_instagram_url(url)` */
  predicate IsValidInstagramUrl(url: string) {
    Parse(url).Some?
  }

  /** The parts of u after its head, as text */
  function TailOf(u: InstagramUrl): string {
    Tail(u.shortcode, u.slash, u.query, u.newline)
  }

  // ---------------------------------------------------------------------------
  // Each stage reads back exactly what it consumed

  lemma MatchSchemeSound(s: string)
    requires MatchScheme(s).Some?
    ensures s == SchemeText(MatchScheme(s).value.0) + MatchScheme(s).value.1
  {
    var (secure, t) := MatchScheme(s).value;
    assert s == s[..|SchemeText(secure)|] + t;
  }

  lemma MatchHostSound(t: string)
    requires MatchHost(t).Some?
    ensures t == HostText(MatchHost(t).value.0) + MatchHost(t).value.1
  {
    var (www, rest) := MatchHost(t).value;
    assert t == t[..|HostText(www)|] + rest;
  }

  lemma MatchPathSound(t: string)
    requires MatchPath(t).Some?
    ensures t == PathText(MatchPath(t).value.0) + MatchPath(t).value.1
  {
    var (path, rest) := MatchPath(t).value;
    assert t == t[..|PathText(path)|] + rest;
  }

  lemma MatchSlashSound(t: string)
    ensures t == SlashText(MatchSlash(t).0) + MatchSlash(t).1
  {
    if t != [] && t[0] == '/' {
      assert t == "/" + t[1..];
    }
  }

  lemma MatchQuerySound(t: string)
    ensures var (query, rest) := MatchQuery(t);
      t == QueryText(query) + rest && (query.Some? ==> '\n' !in query.value)
  {
    if t != [] && t[0] == '?' {
      var m := Span(t[1..], IsLineChar);
      var q := t[1..1 + m];
      assert t == "?" + q + t[1 + m..];
      assert forall k :: 0 <= k < m ==> q[k] == t[1..][k];
    }
  }

  lemma MatchEndSound(t: string)
    requires MatchEnd(t).Some?
    ensures t == NewlineText(MatchEnd(t).value)
  {
  }

  /** The shortcode run Span finds is a shortcode when it is not empty */
  lemma SpanShortcode(t: string)
    requires Span(t, IsShortcodeChar) > 0
    ensures IsShortcode(t[..Span(t, IsShortcodeChar)])
  {
    var n := Span(t, IsShortcodeChar);
    assert forall k :: 0 <= k < n ==> t[..n][k] == t[k];
  }

  lemma MatchSchemeOf(secure: bool, t: string)
    ensures MatchScheme(SchemeText(secure) + t) == Some((secure, t))
  {
    var s := SchemeText(secure) + t;
    if secure {
      assert s[..8] == "https://" && s[8..] == t;
    } else {
      assert s[..7] == "http://" && s[7..] == t;
      assert s[4] == ':';
    }
  }

  lemma MatchHostOf(www: bool, t: string)
    ensures MatchHost(HostText(www) + t) == Some((www, t))
  {
    var s := HostText(www) + t;
    if www {
      assert s[..18] == "www.instagram.com/" && s[18..] == t;
    } else {
      assert s[..14] == "instagram.com/" && s[14..] == t;
      assert s[0] == 'i';
    }
  }

  lemma MatchPathOf(path: ContentPath, t: string)
    ensures MatchPath(PathText(path) + t) == Some((path, t))
  {
    var s := PathText(path) + t;
    match path {
      case PostPath =>
        assert s[..2] == "p/" && s[2..] == t;
      case ReelPath =>
        assert s[..5] == "reel/" && s[5..] == t;
        assert s[0] == 'r';
      case StoriesPath =>
        assert s[..8] == "stories/" && s[8..] == t;
        assert s[0] == 's';
    }
  }

  lemma MatchSlashOf(slash: bool, x: string)
    requires slash || x == [] || x[0] != '/'
    ensures MatchSlash(SlashText(slash) + x) == (slash, x)
  {
    if slash {
      assert ("/" + x)[0] == '/' && ("/" + x)[1..] == x;
    } else {
      assert "" + x == x;
    }
  }

  lemma MatchQueryOf(query: Option<string>, x: string)
    requires query.Some? ==> '\n' !in query.value
    requires x == [] || x[0] == '\n' || (query.None? && x[0] != '?')
    ensures MatchQuery(QueryText(query) + x) == (query, x)
  {
    if query.None? {
      assert QueryText(query) + x == x;
    } else {
      var q := query.value;
      var t := "?" + q + x;
      assert QueryText(query) + x == t;
      assert t[1..] == q + x;
      SpanOf(q, x, IsLineChar);
      SplitAt(q, x);
      assert t[1..1 + |q|] == q && t[1 + |q|..] == x;
    }
  }

  // ---------------------------------------------------------------------------
  // Soundness: whatever Parse accepts is a rendered well-formed link

  lemma ParseTailSound(secure: bool, www: bool, path: ContentPath, t: string)
    requires ParseTail(secure, www, path, t).Some?
    ensures var u := ParseTail(secure, www, path, t).value;
      WellFormed(u) && u.secure == secure && u.www == www && u.path == path && TailOf(u) == t
  {
    var n := Span(t, IsShortcodeChar);
    var code := t[..n];
    var afterSlash := MatchSlash(t[n..]);
    var afterQuery := MatchQuery(afterSlash.1);
    var newline := MatchEnd(afterQuery.1).value;
    var u := InstagramUrl(secure, www, path, code, afterSlash.0, afterQuery.0, newline);
    assert ParseTail(secure, www, path, t) == Some(u);
    SpanShortcode(t);
    TakeDrop(t, n);
    MatchSlashSound(t[n..]);
    MatchQuerySound(afterSlash.1);
    MatchEndSound(afterQuery.1);
    Reassociate(t, code, t[n..], SlashText(u.slash), afterSlash.1, QueryText(u.query), NewlineText(newline));
  }

  lemma ParseSound(s: string)
    requires IsValidInstagramUrl(s)
    ensures WellFormed(Parse(s).value) && Render(Parse(s).value) == s
  {
    MatchSchemeSound(s);
    var (secure, afterScheme) := MatchScheme(s).value;
    MatchHostSound(afterScheme);
    var (www, afterHost) := MatchHost(afterScheme).value;
    MatchPathSound(afterHost);
    var (path, afterPath) := MatchPath(afterHost).value;
    assert Parse(s) == ParseTail(secure, www, path, afterPath);
    ParseTailSound(secure, www, path, afterPath);
    var u := Parse(s).value;
    Reassociate(s, SchemeText(secure), afterScheme, HostText(www), afterHost, PathText(path), TailOf(u));
  }

  // ---------------------------------------------------------------------------
  // Completeness: reading a rendered link gives back its parts

  /** Whatever follows a head is read by the tail stage */
  lemma ParseHead(secure: bool, www: bool, path: ContentPath, t: string)
    ensures Parse(Head(secure, www, path) + t) == ParseTail(secure, www, path, t)
  {
    var afterHost := PathText(path) + t;
    var afterScheme := HostText(www) + afterHost;
    Reassociate(SchemeText(secure) + afterScheme, SchemeText(secure), afterScheme, HostText(www), afterHost, PathText(path), t);
    MatchSchemeOf(secure, afterScheme);
    MatchHostOf(www, afterHost);
    MatchPathOf(path, t);
  }

  /** What the tail stage makes of a rendered tail (without newline) followed by the text x */
  lemma ParseTailAfter(
    secure: bool, www: bool, path: ContentPath, code: string, slash: bool, query: Option<string>, x: string)
    requires IsShortcode(code) && (query.Some? ==> '\n' !in query.value)
    requires x == [] || x[0] == '\n' ||
      (query.None? && x[0] != '?' && (slash || (x[0] != '/' && !IsShortcodeChar(x[0]))))
    ensures ParseTail(secure, www, path, code + SlashText(slash) + QueryText(query) + x) ==
      match MatchEnd(x)
      case None => None
      case Some(newline) => Some(InstagramUrl(secure, www, path, code, slash, query, newline))
  {
    var afterSlash := QueryText(query) + x;
    var afterCode := SlashText(slash) + afterSlash;
    var t := code + afterCode;
    Reassociate(t, code, afterCode, SlashText(slash), afterSlash, QueryText(query), x);
    assert afterCode == [] || !IsShortcodeChar(afterCode[0]) by {
      if slash {
        assert afterCode[0] == '/';
      } else if query.Some? {
        assert afterCode[0] == '?';
      } else {
        assert afterCode == x;
      }
    }
    SpanOf(code, afterCode, IsShortcodeChar);
    SplitAt(code, afterCode);
    assert slash || afterSlash == [] || afterSlash[0] != '/' by {
      if !slash && query.Some? {
        assert afterSlash[0] == '?';
      } else if !slash {
        assert afterSlash == x;
      }
    }
    MatchSlashOf(slash, afterSlash);
    MatchQueryOf(query, x);
  }

  /** A well-formed link without final newline, followed by the text x, read in full */
  lemma ParseRenderAfter(u: InstagramUrl, x: string)
    requires WellFormed(u) && !u.newline
    requires x == [] || x[0] == '\n' ||
      (u.query.None? && x[0] != '?' && (u.slash || (x[0] != '/' && !IsShortcodeChar(x[0]))))
    ensures Parse(Render(u) + x) ==
      match MatchEnd(x)
      case None => None
      case Some(newline) => Some(u.(newline := newline))
  {
    var t := u.shortcode + SlashText(u.slash) + QueryText(u.query) + x;
    RenderPlus(u, x);
    ParseHead(u.secure, u.www, u.path, t);
    ParseTailAfter(u.secure, u.www, u.path, u.shortcode, u.slash, u.query, x);
  }

  lemma RenderPlus(u: InstagramUrl, x: string)
    requires !u.newline
    ensures Render(u) + x == Head(u.secure, u.www, u.path) + (u.shortcode + SlashText(u.slash) + QueryText(u.query) + x)
  {
    assert NewlineText(u.newline) == [];
  }

  /** The text of a well-formed link is accepted, and read back as that link */
  lemma AcceptedAs(u: InstagramUrl, s: string)
    requires WellFormed(u) && Render(u) == s
    ensures IsValidInstagramUrl(s) && Parse(s) == Some(u)
  {
    ParseComplete(u);
  }

  /** A link is its head followed by its tail */
  lemma RenderOfParts(u: InstagramUrl, head: string, tail: string)
    requires Head(u.secure, u.www, u.path) == head && TailOf(u) == tail
    ensures Render(u) == head + tail
  {
  }

  /** A link with a final newline is the same link without it, plus the newline */
  lemma RenderNewline(u: InstagramUrl)
    ensures Render(u) == Render(u.(newline := false)) + NewlineText(u.newline)
  {
    var v := u.(newline := false);
    var head := Head(u.secure, u.www, u.path);
    var body := u.shortcode + SlashText(u.slash) + QueryText(u.query);
    assert TailOf(u) == body + NewlineText(u.newline);
    assert TailOf(v) == body;
  }

  lemma ParseComplete(u: InstagramUrl)
    requires WellFormed(u)
    ensures Parse(Render(u)) == Some(u)
  {
    var v := u.(newline := false);
    RenderNewline(u);
    ParseRenderAfter(v, NewlineText(u.newline));
  }

  // ---------------------------------------------------------------------------
  // What the validator accepts

  /** The accepted texts are exactly the rendered well-formed links */
  lemma ValidIff(url: string)
    ensures IsValidInstagramUrl(url) <==> exists u :: WellFormed(u) && Render(u) == url
  {
    if IsValidInstagramUrl(url) {
      ParseSound(url);
    }
    if exists u :: WellFormed(u) && Render(u) == url {
      var u :| WellFormed(u) && Render(u) == url;
      ParseComplete(u);
    }
  }

  /**
   * An accepted link starts with one of the four lower-case scheme-and-host
   * spellings; matching is case-sensitive, so `HTTPS://` or `Instagram.com` fail.
   */
  lemma AcceptedStart(url: string)
    requires IsValidInstagramUrl(url)
    ensures StartsWith(url, "https://instagram.com/") || StartsWith(url, "https://www.instagram.com/") ||
            StartsWith(url, "http://instagram.com/") || StartsWith(url, "http://www.instagram.com/")
  {
    var u := Parse(url).value;
    ParseSound(url);
    var host := SchemeText(u.secure) + HostText(u.www);
    Assoc(host, PathText(u.path), TailOf(u));
    StartsWithConcat(host, PathText(u.path) + TailOf(u));
    HostSpellings(u.secure, u.www);
  }

  /** A text that starts with none of the four spellings is not accepted */
  lemma StartRequired(url: string)
    requires !StartsWith(url, "https://instagram.com/") && !StartsWith(url, "https://www.instagram.com/")
    requires !StartsWith(url, "http://instagram.com/") && !StartsWith(url, "http://www.instagram.com/")
    ensures !IsValidInstagramUrl(url)
  {
    if IsValidInstagramUrl(url) {
      AcceptedStart(url);
    }
  }

  /** Upper-case spellings of the scheme or the host are not accepted */
  lemma UpperCaseRejected()
    ensures !IsValidInstagramUrl("HTTPS://www.instagram.com/p/ABC/")
    ensures !IsValidInstagramUrl("https://Instagram.com/p/ABC/")
  {
    UpperCaseStarts();
    StartRequired("HTTPS://www.instagram.com/p/ABC/");
    StartRequired("https://Instagram.com/p/ABC/");
  }

  lemma NotStartsWithAt(s: string, p: string, k: nat)
    requires k < |p| && k < |s| && s[k] != p[k]
    ensures !StartsWith(s, p)
  {
    if |p| <= |s| {
      assert s[..|p|][k] == s[k];
    }
  }

  lemma UpperCaseStarts()
    ensures var a := "HTTPS://www.instagram.com/p/ABC/";
      !StartsWith(a, "https://instagram.com/") && !StartsWith(a, "https://www.instagram.com/") &&
      !StartsWith(a, "http://instagram.com/") && !StartsWith(a, "http://www.instagram.com/")
    ensures var b := "https://Instagram.com/p/ABC/";
      !StartsWith(b, "https://instagram.com/") && !StartsWith(b, "https://www.instagram.com/") &&
      !StartsWith(b, "http://instagram.com/") && !StartsWith(b, "http://www.instagram.com/")
  {
    var a := "HTTPS://www.instagram.com/p/ABC/";
    var b := "https://Instagram.com/p/ABC/";
    NotStartsWithAt(a, "https://instagram.com/", 0);
    NotStartsWithAt(a, "https://www.instagram.com/", 0);
    NotStartsWithAt(a, "http://instagram.com/", 0);
    NotStartsWithAt(a, "http://www.instagram.com/", 0);
    NotStartsWithAt(b, "https://instagram.com/", 8);
    NotStartsWithAt(b, "https://www.instagram.com/", 8);
    NotStartsWithAt(b, "http://instagram.com/", 4);
    NotStartsWithAt(b, "http://www.instagram.com/", 4);
  }

  lemma HostSpellings(secure: bool, www: bool)
    ensures secure && www ==> SchemeText(secure) + HostText(www) == "https://www.instagram.com/"
    ensures secure && !www ==> SchemeText(secure) + HostText(www) == "https://instagram.com/"
    ensures !secure && www ==> SchemeText(secure) + HostText(www) == "http://www.instagram.com/"
    ensures !secure && !www ==> SchemeText(secure) + HostText(www) == "http://instagram.com/"
  {
    SpellingSecureWww();
    SpellingSecure();
    SpellingPlainWww();
    SpellingPlain();
  }

  lemma SpellingSecureWww()
    ensures "https://" + "www.instagram.com/" == "https://www.instagram.com/"
  {
  }

  lemma SpellingSecure()
    ensures "https://" + "instagram.com/" == "https://instagram.com/"
  {
  }

  lemma SpellingPlainWww()
    ensures "http://" + "www.instagram.com/" == "http://www.instagram.com/"
  {
  }

  lemma SpellingPlain()
    ensures "http://" + "instagram.com/" == "http://instagram.com/"
  {
  }

  /**
   * After the shortcode and its slash only a query (`?` and the rest of the
   * line) or the single final newline may follow: any further path segment,
   * as in `stories/user/123/`, is rejected.
   */
  lemma ExtraTextRejected(u: InstagramUrl, x: string)
    requires WellFormed(u) && u.slash && u.query.None? && !u.newline
    requires x != [] && x[0] != '?' && x != "\n"
    ensures !IsValidInstagramUrl(Render(u) + x)
  {
    ParseRenderAfter(u, x);
  }

  /** The story link `https://www.instagram.com/stories/user/123/`, as a link with one segment too many */
  lemma MultiSegmentStoryText()
    ensures Render(InstagramUrl(true, true, StoriesPath, "user", true, None, false)) + "123/" ==
      "https://www.instagram.com/stories/user/123/"
  {
    var u := InstagramUrl(true, true, StoriesPath, "user", true, None, false);
    assert Head(true, true, StoriesPath) == "https://www.instagram.com/stories/";
    assert TailOf(u) == "user/";
  }

  /** A multi-segment story link is not accepted */
  lemma MultiSegmentStoryRejected()
    ensures !IsValidInstagramUrl("https://www.instagram.com/stories/user/123/")
  {
    var u := InstagramUrl(true, true, StoriesPath, "user", true, None, false);
    ExtraTextRejected(u, "123/");
    MultiSegmentStoryText();
  }

  /**
   * Python's `$` lets one final newline through: a link without one is still
   * accepted with one added, but never with two.
   */
  lemma OneTrailingNewline(u: InstagramUrl)
    requires WellFormed(u) && !u.newline
    ensures IsValidInstagramUrl(Render(u)) && IsValidInstagramUrl(Render(u) + "\n")
    ensures !IsValidInstagramUrl(Render(u) + "\n\n")
  {
    ParseRenderAfter(u, "");
    assert Render(u) + "" == Render(u);
    ParseRenderAfter(u, "\n");
    ParseRenderAfter(u, "\n\n");
  }
}
