/**
 * Where downloads go and which files are sent (main.py:28-34, 46, 74, 112).
 *
 * Each branch downloads into a directory named from a kind prefix, the
 * owner's user name and the shortcode, joined with `_`. `download_video`
 * then goes through the directory listing in the order it is given and
 * sends every file whose name ends in `.mp4`.
 */
module Download {
  import opened Wrappers
  import opened Text

  /** Which f-string names the directory: `post_…`, `reel_…` or `story_…` */
  datatype DirKind = PostDir | ReelDir | StoryDir

  function KindPrefix(k: DirKind): string {
    match k
    case PostDir => "post_"
    case ReelDir => "reel_"
    case StoryDir => "story_"
  }

  /**
   * `f"{prefix}{owner_username}_{shortcode}"`. When the owner holds no `_`,
   * the name is read back as its kind, owner and shortcode.
   */
  function DownloadDir(k: DirKind, owner: string, code: string): (d: string)
    ensures '_' !in owner ==> ParseDownloadDir(d) == Some((k, owner, code))
  {
    var rest := owner + "_" + code;
    MatchKindOf(k, rest);
    SplitAt(KindPrefix(k), rest);
    assert '_' !in owner ==> SplitOwner(rest) == Some((owner, code)) by {
      if '_' !in owner {
        SplitOwnerOf(owner, code);
      }
    }
    KindPrefix(k) + rest
  }

  /** Length of the longest `_`-free prefix */
  function UntilUnderscore(s: string): nat {
    Span(s, c => c != '_')
  }

  /** The kind whose prefix the name starts with */
  function MatchKind(d: string): Option<DirKind> {
    if StartsWith(d, "post_") then Some(PostDir)
    else if StartsWith(d, "reel_") then Some(ReelDir)
    else if StartsWith(d, "story_") then Some(StoryDir)
    else None
  }

  /** The owner up to the first `_`, and the shortcode after it */
  function SplitOwner(rest: string): Option<(string, string)> {
    var n := UntilUnderscore(rest);
    if n == |rest| then None else Some((rest[..n], rest[n + 1..]))
  }

  /**
   * Reads a directory name back, taking the owner to end at the first `_`
   * after the prefix. User names may themselves hold `_`, so this reading is
   * only right for owners without one (see `DirNameAmbiguous`).
   */
  function ParseDownloadDir(d: string): Option<(DirKind, string, string)> {
    match MatchKind(d)
    case None => None
    case Some(kind) =>
      match SplitOwner(d[|KindPrefix(kind)|..])
      case None => None
      case Some((owner, code)) => Some((kind, owner, code))
  }

  lemma PrefixesDiffer(k: DirKind, t: string)
    ensures StartsWith(KindPrefix(k) + t, "post_") <==> k == PostDir
    ensures StartsWith(KindPrefix(k) + t, "reel_") <==> k == ReelDir
    ensures StartsWith(KindPrefix(k) + t, "story_") <==> k == StoryDir
  {
    var d := KindPrefix(k) + t;
    assert d[0] == KindPrefix(k)[0];
    StartsWithConcat(KindPrefix(k), t);
  }

  lemma MatchKindOf(k: DirKind, t: string)
    ensures MatchKind(KindPrefix(k) + t) == Some(k)
  {
    PrefixesDiffer(k, t);
  }

  lemma SplitOwnerOf(owner: string, code: string)
    requires '_' !in owner
    ensures SplitOwner(owner + "_" + code) == Some((owner, code))
  {
    Assoc(owner, "_", code);
    SpanOf(owner, "_" + code, c => c != '_');
    SplitAt(owner, "_" + code);
    assert ("_" + code)[1..] == code;
  }

  lemma SplitOwnerSound(rest: string)
    requires SplitOwner(rest).Some?
    ensures var (owner, code) := SplitOwner(rest).value;
      '_' !in owner && owner + "_" + code == rest
  {
    var n := UntilUnderscore(rest);
    assert rest[n] == '_';
    assert rest == rest[..n] + [rest[n]] + rest[n + 1..];
    assert forall j :: 0 <= j < n ==> rest[..n][j] != '_';
  }

  lemma MatchKindSound(d: string)
    requires MatchKind(d).Some?
    ensures StartsWith(d, KindPrefix(MatchKind(d).value))
  {
  }

  /** Whatever ParseDownloadDir reads back names the same directory */
  lemma ParseDownloadDirSound(d: string)
    requires ParseDownloadDir(d).Some?
    ensures var (k, owner, code) := ParseDownloadDir(d).value;
      '_' !in owner && DownloadDir(k, owner, code) == d
  {
    var k := MatchKind(d).value;
    var p := KindPrefix(k);
    MatchKindSound(d);
    var rest := d[|p|..];
    SplitOwnerSound(rest);
    TakeDrop(d, |p|);
    var (owner, code) := SplitOwner(rest).value;
    Assoc(p, owner + "_", code);
    Assoc(p, owner, "_");
  }

  /** Two different (owner, shortcode) pairs can share a directory */
  lemma DirNameAmbiguous()
    ensures DownloadDir(PostDir, "a_b", "c") == DownloadDir(PostDir, "a", "b_c")
  {
  }

  /** Directories of different kinds never coincide */
  lemma KindsSeparate(k1: DirKind, o1: string, c1: string, k2: DirKind, o2: string, c2: string)
    requires DownloadDir(k1, o1, c1) == DownloadDir(k2, o2, c2)
    ensures k1 == k2
  {
    PrefixesDiffer(k1, o1 + "_" + c1);
    PrefixesDiffer(k2, o2 + "_" + c2);
    Assoc(KindPrefix(k1), o1 + "_", c1);
    Assoc(KindPrefix(k2), o2 + "_", c2);
    Assoc(KindPrefix(k1), o1, "_");
    Assoc(KindPrefix(k2), o2, "_");
  }

  /** The names `download_video` sends, in listing order: those ending in `.mp4` */
  function Mp4Files(names: seq<string>): (sent: seq<string>)
    ensures |sent| <= |names|
    ensures forall x :: x in sent <==> x in names && EndsWith(x, ".mp4")
    decreases |names|
  {
    if names == [] then []
    else if EndsWith(names[0], ".mp4") then [names[0]] + Mp4Files(names[1..])
    else Mp4Files(names[1..])
  }

  /** Filtering a listing piece by piece: the files of the first part come first */
  lemma {:induction false} Mp4FilesAppend(a: seq<string>, b: seq<string>)
    ensures Mp4Files(a + b) == Mp4Files(a) + Mp4Files(b)
    decreases |a|
  {
    if a != [] {
      assert (a + b)[0] == a[0];
      assert (a + b)[1..] == a[1..] + b;
      Mp4FilesAppend(a[1..], b);
    } else {
      assert a + b == b;
    }
  }

  /** Filtering twice changes nothing */
  lemma {:induction false} Mp4FilesIdempotent(names: seq<string>)
    ensures Mp4Files(Mp4Files(names)) == Mp4Files(names)
    decreases |names|
  {
    if names != [] {
      Mp4FilesIdempotent(names[1..]);
      if EndsWith(names[0], ".mp4") {
        var rest := Mp4Files(names[1..]);
        assert ([names[0]] + rest)[1..] == rest;
      }
    }
  }

  lemma Mp4FilesSnoc(files: seq<string>, i: nat)
    requires i < |files|
    ensures Mp4Files(files[..i + 1]) ==
      Mp4Files(files[..i]) + (if EndsWith(files[i], ".mp4") then [files[i]] else [])
  {
    assert files[..i + 1] == files[..i] + [files[i]];
    Mp4FilesAppend(files[..i], [files[i]]);
  }

  /** The loop of `download_video`: the files it sends, one `reply_video` each */
  method VideoFiles(files: seq<string>) returns (sent: seq<string>)
    ensures sent == Mp4Files(files)
  {
    sent := [];
    for i := 0 to |files|
      invariant sent == Mp4Files(files[..i])
    {
      var file := files[i];
      Mp4FilesSnoc(files, i);
      if EndsWith(file, ".mp4") {
        sent := sent + [file];
      }
    }
    assert files[..|files|] == files;
  }
}
