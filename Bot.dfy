/**
 * The message handler `download_instagram` and the branch helpers
 * `download_story` and `download_reel` (main.py:38-135), as the sequence
 * of actions the bot takes for one incoming text.
 *
 * The Telegram and instaloader calls are not modelled; each becomes an
 * action in the trace. What instaloader returns for a shortcode (the owner's
 * user name and the shortcode it reports) and what the download directory
 * lists are parameters. Messages the bot sends are numbered from 0 in the
 * order they are sent; `Edit` and `Delete` name the message they act on.
 */
module Bot {
  import opened Wrappers
  import opened Text
  import opened Validator
  import opened Shortcode
  import opened Dispatch
  import opened Progress
  import opened Download

  /** What instaloader reports for the looked-up post or story */
  datatype Item = Item(owner: string, shortcode: string)

  /** Which instaloader call looks a shortcode up: `Post.from_shortcode` or `StoryItem.from_shortcode` */
  datatype Loader = PostLoader | StoryLoader

  datatype Action =
    | Reply(text: string)                                   // `reply_text`: sends a new message
    | SendVideo(dir: string, file: string, caption: string) // `reply_video` with one file of the directory: a new message
    | Edit(message: nat, text: string)                      // `edit_text` on an earlier message
    | Delete(message: nat)                                  // `delete_message` on an earlier message
    | Lookup(loader: Loader, shortcode: string)             // `Post.from_shortcode` or `StoryItem.from_shortcode`
    | Save(dir: string)                                     // `download_post` or `download_storyitem` into dir

  predicate IsSend(a: Action) { a.Reply? || a.SendVideo? }
  predicate IsLookup(a: Action) { a.Lookup? }
  predicate IsSave(a: Action) { a.Save? }
  predicate IsVideo(a: Action) { a.SendVideo? }
  predicate IsEdit(a: Action) { a.Edit? }

  /** The actions of t that satisfy f, in order */
  function Keep(t: seq<Action>, f: Action -> bool): (r: seq<Action>)
    ensures |r| <= |t|
    ensures forall k :: 0 <= k < |r| ==> f(r[k])
    decreases |t|
  {
    if t == [] then [] else (if f(t[0]) then [t[0]] else []) + Keep(t[1..], f)
  }

  lemma {:induction false} KeepAppend(a: seq<Action>, b: seq<Action>, f: Action -> bool)
    ensures Keep(a + b, f) == Keep(a, f) + Keep(b, f)
    decreases |a|
  {
    if a == [] {
      assert a + b == b;
    } else {
      assert (a + b)[0] == a[0];
      assert (a + b)[1..] == a[1..] + b;
      KeepAppend(a[1..], b, f);
    }
  }

  lemma {:induction false} KeepAll(t: seq<Action>, f: Action -> bool)
    requires forall k :: 0 <= k < |t| ==> f(t[k])
    ensures Keep(t, f) == t
    decreases |t|
  {
    if t != [] {
      KeepAll(t[1..], f);
    }
  }

  lemma {:induction false} KeepNone(t: seq<Action>, f: Action -> bool)
    requires forall k :: 0 <= k < |t| ==> !f(t[k])
    ensures Keep(t, f) == []
    decreases |t|
  {
    if t != [] {
      KeepNone(t[1..], f);
    }
  }

  const IndexErrorText: string := "list index out of range"
  const NameErrorText: string := "name 'wait_message' is not defined"

  /** The replies of the three `except` blocks */
  function ContentError(e: string): string { "Problem downloading content. Please check the link.\nError: " + e }
  function StoryError(e: string): string { "Error downloading story: " + e }
  function ReelError(e: string): string { "Problem downloading reel. Please check the link.\nError: " + e }

  /** The ten edits of the progress loop on message m */
  function Edits(m: nat): seq<Action> {
    seq(10, k requires 0 <= k < 10 => Edit(m, ProgressText(k + 1)))
  }

  /** The caption of every video sent */
  const VideoCaption: string := "Video downloaded!"

  /** The edits of the loop all act on message m */
  lemma EditsOn(m: nat)
    ensures forall k :: 0 <= k < |Edits(m)| ==> Edits(m)[k].Edit? && Edits(m)[k].message == m
  {
  }

  /**
   * What the ten edits on message m show the user: the k-th edit reads back
   * as k + 1 green squares, 9 - k white squares and (k + 1) * 10 percent.
   */
  lemma EditsShow(m: nat)
    ensures |Edits(m)| == 10
    ensures forall k :: 0 <= k < 10 ==>
      Edits(m)[k].Edit? && Edits(m)[k].message == m &&
      ReadProgress(Edits(m)[k].text) == Some(Shown(k + 1, 9 - k, (k + 1) * 10))
  {
    forall k | 0 <= k < 10
      ensures ReadProgress(Edits(m)[k].text) == Some(Shown(k + 1, 9 - k, (k + 1) * 10))
    {
      assert Edits(m)[k].text == ProgressText(k + 1);
      StepShown(k);
    }
  }

  /** One `reply_video` per file, in order */
  function Videos(dir: string, files: seq<string>): seq<Action> {
    seq(|files|, k requires 0 <= k < |files| => SendVideo(dir, files[k], VideoCaption))
  }

  /** The post branch (main.py:109-122) and the delete after it; an IndexError skips the delete */
  function PostSteps(url: string, item: Item, listing: seq<string>): seq<Action> {
    match SecondToLastSegment(url)
    case None => [Reply(ContentError(IndexErrorText))]
    case Some(code) =>
      var dir := DownloadDir(PostDir, item.owner, item.shortcode);
      [Lookup(PostLoader, code), Save(dir)] + Edits(0) + Videos(dir, Mp4Files(listing)) + [Delete(0)]
  }

  /**
   * `download_story` (main.py:38-59). Its delete names `wait_message`, which
   * is not defined there, so when everything before it succeeds it raises
   * NameError and the story's own "Please wait" message stays.
   */
  function StorySteps(url: string, item: Item, listing: seq<string>): seq<Action> {
    match SecondToLastSegment(url)
    case None => [Reply(StoryError(IndexErrorText))]
    case Some(code) =>
      var dir := DownloadDir(StoryDir, item.owner, item.shortcode);
      [Lookup(StoryLoader, code), Save(dir), Reply(WaitText)] + Videos(dir, Mp4Files(listing)) +
      [Reply(StoryError(NameErrorText))]
  }

  /** `download_reel` (main.py:63-91); its "Please wait" message is message 1 */
  function ReelSteps(url: string, item: Item, listing: seq<string>): seq<Action> {
    [Reply(WaitText)] +
    match SecondToLastSegment(url)
    case None => [Reply(ReelError(IndexErrorText))]
    case Some(code) =>
      var dir := DownloadDir(ReelDir, item.owner, item.shortcode);
      [Lookup(PostLoader, code), Save(dir)] + Edits(1) + Videos(dir, Mp4Files(listing)) + [Delete(1)]
  }

  /**
   * `download_instagram` (main.py:95-135): the actions taken for the incoming
   * text. It does nothing at all exactly when the text is not an accepted link.
   */
  function HandleMessage(text: string, item: Item, listing: seq<string>): (t: seq<Action>)
    ensures t == [] <==> !IsValidInstagramUrl(text)
  {
    if !IsValidInstagramUrl(text) then []
    else
      [Reply(WaitText)] +
      match Classify(text)
      case Post => PostSteps(text, item, listing)
      case Story => StorySteps(text, item, listing) + [Delete(0)]
      case Reel => ReelSteps(text, item, listing) + [Delete(0)]
      case NoBranch => [Delete(0)]
  }

  /** The directory kind of each branch */
  function KindOf(b: Branch): DirKind
    requires b != NoBranch
  {
    match b
    case Post => PostDir
    case Story => StoryDir
    case Reel => ReelDir
  }

  /** The instaloader call of each branch: reels are looked up as posts */
  function LoaderOf(b: Branch): Loader
    requires b != NoBranch
  {
    if b == Story then StoryLoader else PostLoader
  }

  /**
   * Checks that every edit and delete names a message already sent and not
   * yet deleted, given `sent` messages so far and the set `deleted`.
   */
  predicate RefsOk(t: seq<Action>, sent: nat, deleted: set<nat>)
    decreases |t|
  {
    if t == [] then true
    else
      var a := t[0];
      if IsSend(a) then RefsOk(t[1..], sent + 1, deleted)
      else if a.Edit? then a.message < sent && a.message !in deleted && RefsOk(t[1..], sent, deleted)
      else if a.Delete? then a.message < sent && a.message !in deleted && RefsOk(t[1..], sent, deleted + {a.message})
      else RefsOk(t[1..], sent, deleted)
  }

  lemma {:induction false} RefsOkSends(t: seq<Action>, rest: seq<Action>, sent: nat, deleted: set<nat>)
    requires forall k :: 0 <= k < |t| ==> IsSend(t[k])
    ensures RefsOk(t + rest, sent, deleted) == RefsOk(rest, sent + |t|, deleted)
    decreases |t|
  {
    if t == [] {
      assert t + rest == rest;
    } else {
      assert (t + rest)[0] == t[0];
      assert (t + rest)[1..] == t[1..] + rest;
      RefsOkSends(t[1..], rest, sent + 1, deleted);
    }
  }

  lemma {:induction false} RefsOkEdits(t: seq<Action>, rest: seq<Action>, m: nat, sent: nat, deleted: set<nat>)
    requires forall k :: 0 <= k < |t| ==> t[k].Edit? && t[k].message == m
    requires m < sent && m !in deleted
    ensures RefsOk(t + rest, sent, deleted) == RefsOk(rest, sent, deleted)
    decreases |t|
  {
    if t == [] {
      assert t + rest == rest;
    } else {
      assert (t + rest)[0] == t[0];
      assert (t + rest)[1..] == t[1..] + rest;
      RefsOkEdits(t[1..], rest, m, sent, deleted);
    }
  }

  lemma RefsOkStep(a: Action, rest: seq<Action>, sent: nat, deleted: set<nat>)
    ensures RefsOk([a] + rest, sent, deleted) ==
      if IsSend(a) then RefsOk(rest, sent + 1, deleted)
      else if a.Edit? then a.message < sent && a.message !in deleted && RefsOk(rest, sent, deleted)
      else if a.Delete? then a.message < sent && a.message !in deleted && RefsOk(rest, sent, deleted + {a.message})
      else RefsOk(rest, sent, deleted)
  {
    assert ([a] + rest)[1..] == rest;
  }

  /** The actions before the progress edits of a branch that ran without error */
  function Before(b: Branch, code: string, dir: string): seq<Action>
    requires b != NoBranch
  {
    match b
    case Post => [Reply(WaitText), Lookup(PostLoader, code), Save(dir)]
    case Story => [Reply(WaitText), Lookup(StoryLoader, code), Save(dir), Reply(WaitText)]
    case Reel => [Reply(WaitText), Reply(WaitText), Lookup(PostLoader, code), Save(dir)]
  }

  /** The progress edits: on message 0 for a post, on message 1 for a reel, none for a story */
  function ProgressOf(b: Branch): seq<Action>
    requires b != NoBranch
  {
    match b
    case Post => Edits(0)
    case Story => []
    case Reel => Edits(1)
  }

  /** The actions after the videos */
  function After(b: Branch): seq<Action>
    requires b != NoBranch
  {
    match b
    case Post => [Delete(0)]
    case Story => [Reply(StoryError(NameErrorText)), Delete(0)]
    case Reel => [Delete(1), Delete(0)]
  }

  /** For an accepted link the handler's trace has the shape of its branch */
  lemma HandleShape(text: string, item: Item, listing: seq<string>)
    requires IsValidInstagramUrl(text)
    ensures var b := Classify(text);
      b != NoBranch && SecondToLastSegment(text).Some? &&
      var dir := DownloadDir(KindOf(b), item.owner, item.shortcode);
      HandleMessage(text, item, listing) ==
        Before(b, SecondToLastSegment(text).value, dir) + ProgressOf(b) + Videos(dir, Mp4Files(listing)) + After(b)
  {
    ValidUrlIsDispatched(text);
    AcceptedPieces(text);
    var code := SecondToLastSegment(text).value;
    match Classify(text)
    case Post => PostHandled(text, item, listing, code);
    case Story => StoryHandled(text, item, listing, code);
    case Reel => ReelHandled(text, item, listing, code);
  }

  lemma PostHandled(text: string, item: Item, listing: seq<string>, code: string)
    requires IsValidInstagramUrl(text) && Classify(text) == Post && SecondToLastSegment(text) == Some(code)
    ensures var dir := DownloadDir(PostDir, item.owner, item.shortcode);
      HandleMessage(text, item, listing) ==
        Before(Post, code, dir) + ProgressOf(Post) + Videos(dir, Mp4Files(listing)) + After(Post)
  {
    var dir := DownloadDir(PostDir, item.owner, item.shortcode);
    var videos := Videos(dir, Mp4Files(listing));
    HandlePost(text, item, listing);
    PostRan(text, item, listing, code);
    BeforeParts(Post, code, dir);
    PostShape([Reply(WaitText)], [Lookup(PostLoader, code), Save(dir)], Edits(0), videos, [Delete(0)]);
  }

  lemma StoryHandled(text: string, item: Item, listing: seq<string>, code: string)
    requires IsValidInstagramUrl(text) && Classify(text) == Story && SecondToLastSegment(text) == Some(code)
    ensures var dir := DownloadDir(StoryDir, item.owner, item.shortcode);
      HandleMessage(text, item, listing) ==
        Before(Story, code, dir) + ProgressOf(Story) + Videos(dir, Mp4Files(listing)) + After(Story)
  {
    var dir := DownloadDir(StoryDir, item.owner, item.shortcode);
    var videos := Videos(dir, Mp4Files(listing));
    HandleStory(text, item, listing);
    StoryRan(text, item, listing, code);
    BeforeParts(Story, code, dir);
    StoryShape([Reply(WaitText)], [Lookup(StoryLoader, code), Save(dir), Reply(WaitText)], videos,
      [Reply(StoryError(NameErrorText))], [Delete(0)]);
  }

  lemma ReelHandled(text: string, item: Item, listing: seq<string>, code: string)
    requires IsValidInstagramUrl(text) && Classify(text) == Reel && SecondToLastSegment(text) == Some(code)
    ensures var dir := DownloadDir(ReelDir, item.owner, item.shortcode);
      HandleMessage(text, item, listing) ==
        Before(Reel, code, dir) + ProgressOf(Reel) + Videos(dir, Mp4Files(listing)) + After(Reel)
  {
    var dir := DownloadDir(ReelDir, item.owner, item.shortcode);
    var videos := Videos(dir, Mp4Files(listing));
    HandleReel(text, item, listing);
    ReelRan(text, item, listing, code);
    BeforeParts(Reel, code, dir);
    ReelShape([Reply(WaitText)], [Reply(WaitText)], [Lookup(PostLoader, code), Save(dir)], Edits(1), videos,
      [Delete(1)], [Delete(0)]);
  }

  lemma HandlePost(text: string, item: Item, listing: seq<string>)
    requires IsValidInstagramUrl(text) && Classify(text) == Post
    ensures HandleMessage(text, item, listing) == [Reply(WaitText)] + PostSteps(text, item, listing)
  {
  }

  lemma HandleStory(text: string, item: Item, listing: seq<string>)
    requires IsValidInstagramUrl(text) && Classify(text) == Story
    ensures HandleMessage(text, item, listing) == [Reply(WaitText)] + (StorySteps(text, item, listing) + [Delete(0)])
  {
  }

  lemma HandleReel(text: string, item: Item, listing: seq<string>)
    requires IsValidInstagramUrl(text) && Classify(text) == Reel
    ensures HandleMessage(text, item, listing) == [Reply(WaitText)] + (ReelSteps(text, item, listing) + [Delete(0)])
  {
  }

  lemma PostRan(text: string, item: Item, listing: seq<string>, code: string)
    requires SecondToLastSegment(text) == Some(code)
    ensures var dir := DownloadDir(PostDir, item.owner, item.shortcode);
      PostSteps(text, item, listing) ==
        [Lookup(PostLoader, code), Save(dir)] + Edits(0) + Videos(dir, Mp4Files(listing)) + [Delete(0)]
  {
  }

  lemma StoryRan(text: string, item: Item, listing: seq<string>, code: string)
    requires SecondToLastSegment(text) == Some(code)
    ensures var dir := DownloadDir(StoryDir, item.owner, item.shortcode);
      StorySteps(text, item, listing) ==
        [Lookup(StoryLoader, code), Save(dir), Reply(WaitText)] + Videos(dir, Mp4Files(listing)) +
        [Reply(StoryError(NameErrorText))]
  {
  }

  lemma ReelRan(text: string, item: Item, listing: seq<string>, code: string)
    requires SecondToLastSegment(text) == Some(code)
    ensures var dir := DownloadDir(ReelDir, item.owner, item.shortcode);
      ReelSteps(text, item, listing) ==
        [Reply(WaitText)] + ([Lookup(PostLoader, code), Save(dir)] + Edits(1) + Videos(dir, Mp4Files(listing)) + [Delete(1)])
  {
  }

  lemma BeforeParts(b: Branch, code: string, dir: string)
    requires b != NoBranch
    ensures b == Post ==> Before(b, code, dir) == [Reply(WaitText)] + [Lookup(PostLoader, code), Save(dir)]
    ensures b == Story ==> Before(b, code, dir) == [Reply(WaitText)] + [Lookup(StoryLoader, code), Save(dir), Reply(WaitText)]
    ensures b == Reel ==> Before(b, code, dir) == [Reply(WaitText)] + [Reply(WaitText)] + [Lookup(PostLoader, code), Save(dir)]
  {
  }

  lemma PostShape(r: seq<Action>, a: seq<Action>, e: seq<Action>, v: seq<Action>, d: seq<Action>)
    ensures r + (a + e + v + d) == (r + a) + e + v + d
  {
  }

  lemma StoryShape(r: seq<Action>, a: seq<Action>, v: seq<Action>, x: seq<Action>, d: seq<Action>)
    ensures r + (a + v + x + d) == (r + a) + [] + v + (x + d)
  {
  }

  lemma ReelShape(r: seq<Action>, w: seq<Action>, a: seq<Action>, e: seq<Action>, v: seq<Action>,
                  d1: seq<Action>, d0: seq<Action>)
    ensures r + (w + (a + e + v + d1) + d0) == (r + w + a) + e + v + (d1 + d0)
  {
  }

  /** A branch's whole trace, from its parts */
  function Shape(b: Branch, code: string, dir: string, files: seq<string>): seq<Action>
    requires b != NoBranch
  {
    Before(b, code, dir) + ProgressOf(b) + Videos(dir, files) + After(b)
  }

  lemma KeepShape(b: Branch, code: string, dir: string, files: seq<string>, f: Action -> bool)
    requires b != NoBranch
    ensures Keep(Shape(b, code, dir, files), f) ==
      Keep(Before(b, code, dir), f) + Keep(ProgressOf(b), f) + Keep(Videos(dir, files), f) + Keep(After(b), f)
  {
    var x := Before(b, code, dir);
    var y := ProgressOf(b);
    var z := Videos(dir, files);
    KeepAppend(x + y + z, After(b), f);
    KeepAppend(x + y, z, f);
    KeepAppend(x, y, f);
  }

  lemma KeepVideos(dir: string, files: seq<string>)
    ensures Keep(Videos(dir, files), IsVideo) == Videos(dir, files)
    ensures Keep(Videos(dir, files), IsSend) == Videos(dir, files)
    ensures Keep(Videos(dir, files), IsLookup) == []
    ensures Keep(Videos(dir, files), IsSave) == []
    ensures Keep(Videos(dir, files), IsEdit) == []
  {
    var v := Videos(dir, files);
    KeepAll(v, IsVideo);
    KeepAll(v, IsSend);
    KeepNone(v, IsLookup);
    KeepNone(v, IsSave);
    KeepNone(v, IsEdit);
  }

  lemma KeepProgress(b: Branch)
    requires b != NoBranch
    ensures Keep(ProgressOf(b), IsEdit) == ProgressOf(b)
    ensures Keep(ProgressOf(b), IsVideo) == []
    ensures Keep(ProgressOf(b), IsSend) == []
    ensures Keep(ProgressOf(b), IsLookup) == []
    ensures Keep(ProgressOf(b), IsSave) == []
  {
    var e := ProgressOf(b);
    KeepAll(e, IsEdit);
    KeepNone(e, IsVideo);
    KeepNone(e, IsSend);
    KeepNone(e, IsLookup);
    KeepNone(e, IsSave);
  }

  /** One action kept or dropped */
  function KeepOne(a: Action, f: Action -> bool): seq<Action> {
    if f(a) then [a] else []
  }

  lemma KeepCons(a: Action, rest: seq<Action>, f: Action -> bool)
    ensures Keep([a] + rest, f) == KeepOne(a, f) + Keep(rest, f)
  {
    assert ([a] + rest)[1..] == rest;
  }

  lemma Keep1(a: Action, f: Action -> bool)
    ensures Keep([a], f) == KeepOne(a, f)
  {
    KeepCons(a, [], f);
  }

  lemma Keep2(a: Action, b: Action, f: Action -> bool)
    ensures Keep([a, b], f) == KeepOne(a, f) + KeepOne(b, f)
  {
    assert [a, b] == [a] + [b];
    KeepCons(a, [b], f);
    Keep1(b, f);
  }

  lemma Keep3(a: Action, b: Action, c: Action, f: Action -> bool)
    ensures Keep([a, b, c], f) == KeepOne(a, f) + (KeepOne(b, f) + KeepOne(c, f))
  {
    assert [a, b, c] == [a] + [b, c];
    KeepCons(a, [b, c], f);
    Keep2(b, c, f);
  }

  lemma Keep4(a: Action, b: Action, c: Action, d: Action, f: Action -> bool)
    ensures Keep([a, b, c, d], f) == KeepOne(a, f) + (KeepOne(b, f) + (KeepOne(c, f) + KeepOne(d, f)))
  {
    assert [a, b, c, d] == [a] + [b, c, d];
    KeepCons(a, [b, c, d], f);
    Keep3(b, c, d, f);
  }

  /** The four kinds of action the trace lemmas single out */
  datatype Sel = SelLookup | SelSave | SelVideo | SelEdit

  function PredOf(which: Sel): Action -> bool {
    match which
    case SelLookup => IsLookup
    case SelSave => IsSave
    case SelVideo => IsVideo
    case SelEdit => IsEdit
  }

  lemma KeepEnds(b: Branch, code: string, dir: string, which: Sel)
    requires b != NoBranch
    ensures var f := PredOf(which);
      Keep(Before(b, code, dir), f) + Keep(After(b), f) ==
        match which
        case SelLookup => [Lookup(LoaderOf(b), code)]
        case SelSave => [Save(dir)]
        case _ => []
  {
    var f := PredOf(which);
    match b
    case Post =>
      Keep3(Reply(WaitText), Lookup(PostLoader, code), Save(dir), f);
      Keep1(Delete(0), f);
    case Story =>
      Keep4(Reply(WaitText), Lookup(StoryLoader, code), Save(dir), Reply(WaitText), f);
      Keep2(Reply(StoryError(NameErrorText)), Delete(0), f);
    case Reel =>
      Keep4(Reply(WaitText), Reply(WaitText), Lookup(PostLoader, code), Save(dir), f);
      Keep2(Delete(1), Delete(0), f);
  }

  /**
   * What a branch that ran without error did: it began with the first
   * "Please wait" message and ended by deleting it, looked up exactly the
   * extracted shortcode with the branch's kind, saved into exactly one
   * directory, sent exactly the `.mp4` files of the listing from that
   * directory, in order, and edited a progress message only in the post
   * and reel branches.
   */
  lemma ShapeFacts(b: Branch, code: string, dir: string, files: seq<string>)
    requires b != NoBranch
    ensures var t := Shape(b, code, dir, files);
      t[0] == Reply(WaitText) && t[|t| - 1] == Delete(0) &&
      Keep(t, IsLookup) == [Lookup(LoaderOf(b), code)] &&
      Keep(t, IsSave) == [Save(dir)] &&
      Keep(t, IsVideo) == Videos(dir, files) &&
      Keep(t, IsEdit) == ProgressOf(b)
  {
    ShapeEnds(b, code, dir, files);
    ShapeKeeps(b, code, dir, files, SelLookup);
    ShapeKeeps(b, code, dir, files, SelSave);
    ShapeKeeps(b, code, dir, files, SelVideo);
    ShapeKeeps(b, code, dir, files, SelEdit);
  }

  lemma ShapeKeeps(b: Branch, code: string, dir: string, files: seq<string>, which: Sel)
    requires b != NoBranch
    ensures Keep(Shape(b, code, dir, files), PredOf(which)) ==
      match which
      case SelLookup => [Lookup(LoaderOf(b), code)]
      case SelSave => [Save(dir)]
      case SelVideo => Videos(dir, files)
      case SelEdit => ProgressOf(b)
  {
    var f := PredOf(which);
    KeepShape(b, code, dir, files, f);
    KeepEnds(b, code, dir, which);
    KeepVideos(dir, files);
    KeepProgress(b);
    var x := Keep(Before(b, code, dir), f);
    var y := Keep(After(b), f);
    var e := Keep(ProgressOf(b), f);
    var v := Keep(Videos(dir, files), f);
    match which
    case SelLookup => DropEmpty(x, e, v, y);
    case SelSave => DropEmpty(x, e, v, y);
    case SelVideo => KeepMiddle(x, e, v, y);
    case SelEdit => KeepMiddle(x, v, e, y);
  }

  lemma DropEmpty(x: seq<Action>, e: seq<Action>, v: seq<Action>, y: seq<Action>)
    requires e == [] && v == []
    ensures x + e + v + y == x + y
  {
  }

  lemma DropSecond(x: seq<Action>, e: seq<Action>, v: seq<Action>, y: seq<Action>)
    requires e == []
    ensures x + e + v + y == x + v + y
  {
  }

  lemma KeepMiddle(x: seq<Action>, a: seq<Action>, b: seq<Action>, y: seq<Action>)
    requires x + y == [] && a == []
    ensures x + a + b + y == b && x + b + a + y == b
  {
    assert |x| + |y| == 0;
  }

  lemma ShapeEnds(b: Branch, code: string, dir: string, files: seq<string>)
    requires b != NoBranch
    ensures var t := Shape(b, code, dir, files);
      t[0] == Reply(WaitText) && t[|t| - 1] == Delete(0)
  {
    var x := Before(b, code, dir);
    var y := ProgressOf(b) + Videos(dir, files);
    var z := After(b);
    assert Shape(b, code, dir, files) == x + y + z;
    assert (x + y + z)[0] == x[0];
    assert (x + y + z)[|x + y + z| - 1] == z[|z| - 1];
  }

  /** Every edit and delete of a branch's trace names a message already sent and not yet deleted */
  lemma ShapeRefsOk(b: Branch, code: string, dir: string, files: seq<string>)
    requires b != NoBranch
    ensures RefsOk(Shape(b, code, dir, files), 0, {})
  {
    match b
    case Post => PostRefsOk(code, dir, files);
    case Story => StoryRefsOk(code, dir, files);
    case Reel => ReelRefsOk(code, dir, files);
  }

  lemma PostRefsOk(code: string, dir: string, files: seq<string>)
    ensures RefsOk(Shape(Post, code, dir, files), 0, {})
  {
    var v := Videos(dir, files);
    var tail := v + [Delete(0)];
    var s2 := [Save(dir)] + (Edits(0) + tail);
    var s1 := [Lookup(PostLoader, code)] + s2;
    PostShapeParts(Reply(WaitText), Lookup(PostLoader, code), Save(dir), Edits(0), v, Delete(0));
    RefsOkStep(Reply(WaitText), s1, 0, {});
    RefsOkStep(Lookup(PostLoader, code), s2, 1, {});
    RefsOkStep(Save(dir), Edits(0) + tail, 1, {});
    RefsOkEdits(Edits(0), tail, 0, 1, {});
    RefsOkSends(v, [Delete(0)], 1, {});
    RefsOkStep(Delete(0), [], 1 + |v|, {});
  }

  lemma PostShapeParts(r: Action, l: Action, s: Action, e: seq<Action>, v: seq<Action>, d: Action)
    ensures [r, l, s] + e + v + [d] == [r] + ([l] + ([s] + (e + (v + [d]))))
  {
  }

  lemma StoryRefsOk(code: string, dir: string, files: seq<string>)
    ensures RefsOk(Shape(Story, code, dir, files), 0, {})
  {
    var v := Videos(dir, files);
    var x := Reply(StoryError(NameErrorText));
    var tail := v + ([x] + [Delete(0)]);
    var s3 := [Reply(WaitText)] + tail;
    var s2 := [Save(dir)] + s3;
    var s1 := [Lookup(StoryLoader, code)] + s2;
    assert Shape(Story, code, dir, files) ==
      [Reply(WaitText), Lookup(StoryLoader, code), Save(dir), Reply(WaitText)] + [] + v + [x, Delete(0)];
    StoryShapeParts(Reply(WaitText), Lookup(StoryLoader, code), Save(dir), v, x, Delete(0));
    RefsOkStep(Reply(WaitText), s1, 0, {});
    RefsOkStep(Lookup(StoryLoader, code), s2, 1, {});
    RefsOkStep(Save(dir), s3, 1, {});
    RefsOkStep(Reply(WaitText), tail, 1, {});
    RefsOkSends(v, [x] + [Delete(0)], 2, {});
    RefsOkStep(x, [Delete(0)], 2 + |v|, {});
    RefsOkStep(Delete(0), [], 3 + |v|, {});
  }

  lemma StoryShapeParts(r: Action, l: Action, s: Action, v: seq<Action>, x: Action, d: Action)
    ensures [r, l, s, r] + [] + v + [x, d] == [r] + ([l] + ([s] + ([r] + (v + ([x] + [d])))))
  {
  }

  lemma ReelRefsOk(code: string, dir: string, files: seq<string>)
    ensures RefsOk(Shape(Reel, code, dir, files), 0, {})
  {
    var v := Videos(dir, files);
    var tail := v + ([Delete(1)] + [Delete(0)]);
    ReelShapeParts(Reply(WaitText), Lookup(PostLoader, code), Save(dir), Edits(1), v, Delete(1), Delete(0));
    ReelOpening(Lookup(PostLoader, code), Save(dir), Edits(1) + tail);
    EditsOn(1);
    ReelClosing(Edits(1), v);
  }

  /** The two replies, the lookup and the save leave two messages, none deleted */
  lemma ReelOpening(l: Action, s: Action, rest: seq<Action>)
    requires !IsSend(l) && !l.Edit? && !l.Delete? && !IsSend(s) && !s.Edit? && !s.Delete?
    ensures RefsOk([Reply(WaitText)] + ([Reply(WaitText)] + ([l] + ([s] + rest))), 0, {}) == RefsOk(rest, 2, {})
  {
    RefsOkStep(Reply(WaitText), [Reply(WaitText)] + ([l] + ([s] + rest)), 0, {});
    RefsOkStep(Reply(WaitText), [l] + ([s] + rest), 1, {});
    RefsOkStep(l, [s] + rest, 2, {});
    RefsOkStep(s, rest, 2, {});
  }

  /** The edits of message 1, the videos, then deleting message 1 and message 0 */
  lemma ReelClosing(e: seq<Action>, v: seq<Action>)
    requires forall k :: 0 <= k < |e| ==> e[k].Edit? && e[k].message == 1
    requires forall k :: 0 <= k < |v| ==> IsSend(v[k])
    ensures RefsOk(e + (v + ([Delete(1)] + [Delete(0)])), 2, {})
  {
    var tail := v + ([Delete(1)] + [Delete(0)]);
    RefsOkEdits(e, tail, 1, 2, {});
    RefsOkSends(v, [Delete(1)] + [Delete(0)], 2, {});
    RefsOkStep(Delete(1), [Delete(0)], 2 + |v|, {});
    RefsOkStep(Delete(0), [], 2 + |v|, {1});
  }

  lemma ReelShapeParts(r: Action, l: Action, s: Action, e: seq<Action>, v: seq<Action>, d1: Action, d0: Action)
    ensures [r, r, l, s] + e + v + [d1, d0] == [r] + ([r] + ([l] + ([s] + (e + (v + ([d1] + [d0]))))))
  {
  }

  /** The "Please wait" messages a branch sends: one, or two when a story or reel helper sends its own */
  function WaitMessages(b: Branch): seq<Action> {
    if b == Post then [Reply(WaitText)] else [Reply(WaitText), Reply(WaitText)]
  }

  /** The messages a branch sends, in order */
  lemma ShapeSends(b: Branch, code: string, dir: string, files: seq<string>)
    requires b != NoBranch
    ensures Keep(Shape(b, code, dir, files), IsSend) ==
      WaitMessages(b) + Videos(dir, files) + (if b == Story then [Reply(StoryError(NameErrorText))] else [])
  {
    KeepShape(b, code, dir, files, IsSend);
    KeepVideos(dir, files);
    KeepProgress(b);
    EndSends(b, code, dir);
    DropSecond(Keep(Before(b, code, dir), IsSend), Keep(ProgressOf(b), IsSend), Videos(dir, files),
      Keep(After(b), IsSend));
  }

  lemma EndSends(b: Branch, code: string, dir: string)
    requires b != NoBranch
    ensures Keep(Before(b, code, dir), IsSend) == WaitMessages(b)
    ensures Keep(After(b), IsSend) == if b == Story then [Reply(StoryError(NameErrorText))] else []
  {
    match b
    case Post =>
      Keep3(Reply(WaitText), Lookup(PostLoader, code), Save(dir), IsSend);
      Keep1(Delete(0), IsSend);
    case Story =>
      Keep4(Reply(WaitText), Lookup(StoryLoader, code), Save(dir), Reply(WaitText), IsSend);
      Keep2(Reply(StoryError(NameErrorText)), Delete(0), IsSend);
    case Reel =>
      Keep4(Reply(WaitText), Reply(WaitText), Lookup(PostLoader, code), Save(dir), IsSend);
      Keep2(Delete(1), Delete(0), IsSend);
  }

  /** Which messages a branch deletes */
  lemma ShapeDeletes(b: Branch, code: string, dir: string, files: seq<string>, m: nat)
    requires b != NoBranch
    ensures Delete(m) in Shape(b, code, dir, files) <==> m == 0 || (b == Reel && m == 1)
  {
    var x := Before(b, code, dir);
    var e := ProgressOf(b);
    var v := Videos(dir, files);
    var y := After(b);
    assert Shape(b, code, dir, files) == x + e + v + y;
    assert Delete(m) !in x;
    assert forall k :: 0 <= k < |e| ==> e[k] != Delete(m);
    assert forall k :: 0 <= k < |v| ==> v[k] != Delete(m);
  }

  /**
   * For an accepted link, when the instaloader lookup and download succeed,
   * the handler runs exactly one branch, and that branch begins with the
   * first "Please wait" message and ends by deleting it; looks up exactly
   * the piece `url.split("/")[-2]` with the branch's instaloader call; saves
   * into exactly the branch's directory named from what the lookup returned;
   * sends exactly the `.mp4` files of the listing, in listing order, from
   * that directory; and edits the progress bar ten times, on message 0 for a
   * post and on message 1 for a reel, and never for a story. The k-th edit
   * shows k + 1 green squares, 9 - k white squares and (k + 1) * 10 percent.
   */
  lemma HandledLink(text: string, item: Item, listing: seq<string>)
    requires IsValidInstagramUrl(text)
    ensures var t := HandleMessage(text, item, listing);
      var b := Classify(text);
      b != NoBranch && SecondToLastSegment(text).Some? &&
      var dir := DownloadDir(KindOf(b), item.owner, item.shortcode);
      t[0] == Reply(WaitText) && t[|t| - 1] == Delete(0) &&
      Keep(t, IsLookup) == [Lookup(LoaderOf(b), SecondToLastSegment(text).value)] &&
      Keep(t, IsSave) == [Save(dir)] &&
      Keep(t, IsVideo) == Videos(dir, Mp4Files(listing)) &&
      Keep(t, IsEdit) == (if b == Post then Edits(0) else if b == Reel then Edits(1) else [])
    ensures var edits := Keep(HandleMessage(text, item, listing), IsEdit);
      forall k :: 0 <= k < |edits| ==>
        edits[k].Edit? && ReadProgress(edits[k].text) == Some(Shown(k + 1, 9 - k, (k + 1) * 10))
  {
    HandleShape(text, item, listing);
    var b := Classify(text);
    var dir := DownloadDir(KindOf(b), item.owner, item.shortcode);
    ShapeFacts(b, SecondToLastSegment(text).value, dir, Mp4Files(listing));
    EditsShow(0);
    EditsShow(1);
  }

  /** On every text, every edit and delete names a message already sent and not yet deleted */
  lemma ReferencesSentMessages(text: string, item: Item, listing: seq<string>)
    ensures RefsOk(HandleMessage(text, item, listing), 0, {})
  {
    if IsValidInstagramUrl(text) {
      HandleShape(text, item, listing);
      var b := Classify(text);
      var dir := DownloadDir(KindOf(b), item.owner, item.shortcode);
      ShapeRefsOk(b, SecondToLastSegment(text).value, dir, Mp4Files(listing));
    }
  }

  /**
   * Every "Please wait" message the post and reel branches send is deleted
   * in the end. The story branch sends a second one (message 1) and, since
   * its delete raises NameError, never deletes it and reports the error.
   */
  lemma WaitMessagesDeleted(text: string, item: Item, listing: seq<string>)
    requires IsValidInstagramUrl(text)
    ensures var t := HandleMessage(text, item, listing);
      var sent := Keep(t, IsSend);
      Classify(text) != Story ==>
        forall m :: 0 <= m < |sent| && sent[m] == Reply(WaitText) ==> Delete(m) in t
    ensures var t := HandleMessage(text, item, listing);
      var sent := Keep(t, IsSend);
      Classify(text) == Story ==>
        |sent| >= 2 && sent[1] == Reply(WaitText) && Delete(1) !in t &&
        sent[|sent| - 1] == Reply(StoryError(NameErrorText))
  {
    HandleShape(text, item, listing);
    var b := Classify(text);
    var dir := DownloadDir(KindOf(b), item.owner, item.shortcode);
    var code := SecondToLastSegment(text).value;
    if b == Story {
      StoryWaitKept(code, dir, Mp4Files(listing));
    } else {
      WaitDeleted(b, code, dir, Mp4Files(listing));
    }
  }

  lemma WaitDeleted(b: Branch, code: string, dir: string, files: seq<string>)
    requires b == Post || b == Reel
    ensures var t := Shape(b, code, dir, files);
      var sent := Keep(t, IsSend);
      forall m :: 0 <= m < |sent| && sent[m] == Reply(WaitText) ==> Delete(m) in t
  {
    var v := Videos(dir, files);
    var w := WaitMessages(b);
    ShapeSends(b, code, dir, files);
    ShapeDeletes(b, code, dir, files, 0);
    ShapeDeletes(b, code, dir, files, 1);
    AppendNothing(w + v);
    OnlyLeadingWaits(w, v);
  }

  lemma AppendNothing(s: seq<Action>)
    ensures s + [] == s
  {
  }

  /** After the "Please wait" replies come only videos */
  lemma OnlyLeadingWaits(w: seq<Action>, v: seq<Action>)
    requires forall k :: 0 <= k < |v| ==> v[k].SendVideo?
    ensures forall m :: 0 <= m < |w + v| && (w + v)[m] == Reply(WaitText) ==> m < |w|
  {
    forall m | |w| <= m < |w + v|
      ensures (w + v)[m] != Reply(WaitText)
    {
      assert (w + v)[m] == v[m - |w|];
    }
  }

  lemma StoryWaitKept(code: string, dir: string, files: seq<string>)
    ensures var t := Shape(Story, code, dir, files);
      var sent := Keep(t, IsSend);
      |sent| >= 2 && sent[1] == Reply(WaitText) && Delete(1) !in t &&
      sent[|sent| - 1] == Reply(StoryError(NameErrorText))
  {
    var v := Videos(dir, files);
    var w := WaitMessages(Story);
    ShapeSends(Story, code, dir, files);
    ShapeDeletes(Story, code, dir, files, 1);
    var sent := Keep(Shape(Story, code, dir, files), IsSend);
    assert sent == w + v + [Reply(StoryError(NameErrorText))];
    assert sent[1] == w[1];
  }
}
