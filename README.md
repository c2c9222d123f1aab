# Instagram link bot: link recognition and dispatch

A Dafny model of the link pipeline of a Telegram bot. The bot receives a
message, checks that its whole text is an Instagram post, reel or story link,
and picks a branch by the substrings `/p/`, `/stories/` and `/reel/`. It then
takes the shortcode as the second-to-last `/`-separated piece of the text,
downloads into a directory named from the kind, the owner and the shortcode,
shows a ten-step progress bar by editing a "Please wait" message, sends every
`.mp4` file of the directory, and deletes the progress message. The model
assumes that the instaloader lookup and download succeed; when they fail in
the real program, the error reply replaces the rest of the branch.

The modules follow the parts of `main.py`:

- `Text`: the Python string operations used: `endswith`, the substring test, `c * n` and `split`. A prefix test and `join` are added for the recogniser and for the split round trip.
- `Validator`: the anchored regular expression of `is_valid_instagram_url`, as a recogniser `Parse` with an inverse `Render`. It keeps two details of Python's `re` module: `.` never matches a newline, and `$` also matches before one final newline.
- `Shortcode`: `url.split("/")[-2]`.
- `Dispatch`: the `if`/`elif` chain over the three substring tests.
- `Progress`: the progress texts, a reader that recovers what a text shows, and the loop that produces the ten edits.
- `Download`: the directory-name f-strings and the `.mp4` filter loop of `download_video`.
- `Bot`: `download_instagram`, `download_story` and `download_reel`.
  - The handler is modelled as the sequence of actions it takes for one message: replies, videos, edits, deletes, lookups and saves.
  - Messages are numbered in the order they are sent.
  - What instaloader returns and what the directory lists are parameters.

Three behaviours of the code as written are kept and stated as lemmas:

- `download_story` names `wait_message` without defining it.
  - Whenever it reaches that line, it raises NameError.
  - The user then gets an error reply after the videos, and the story's own "Please wait" message is never deleted (`Bot.WaitMessagesDeleted`).
- The regular expression lets the query hold `/`, and then the extracted piece is no longer the shortcode (`Shortcode.ExtractedSegment`).
  - With exactly one `/` in the query it is the part of the query before that `/`: `?next=` for `https://www.instagram.com/p/ABC/?next=/x` (`Shortcode.QuerySlashMovesExtraction`).
  - When no `/` follows the shortcode, that part is glued to the shortcode: `ABC?x` for `https://instagram.com/p/ABC?x/y`.
  - With two or more `/` in the query it is the second-to-last `/`-separated piece of the query.
- A `/p/` in the query routes a reel link to the post branch (`Dispatch.ReelLinkWithPostMarker`).

## Model

| member | source | states |
|---|---|---|
| Validator.IsValidInstagramUrl | main.py:22-24 | The recogniser `Parse` succeeds. `Validator.ValidIff`, `Validator.ParseSound` and `Validator.ParseComplete` state that this accepts exactly the well-formed links. |
| Validator.ValidIff | main.py:22-24 | A text is accepted exactly when it is the rendering of a well-formed link. That means: `http` or `https`, an optional `www.`, `instagram.com/`, one of `p`, `reel`, `stories`, `/`, a non-empty shortcode over `[a-zA-Z0-9_-]`, an optional `/`, an optional `?` and a newline-free query, and optionally one final newline. |
| Validator.ParseSound | main.py:23-24 | Whatever the recogniser accepts is well formed, and rendering its parts gives back the input text exactly. |
| Validator.ParseComplete | main.py:23-24 | Every well-formed link is accepted, and the recogniser returns exactly its parts, so the decomposition is unique. |
| Validator.AcceptedStart | main.py:23 | An accepted text starts with one of `https://instagram.com/`, `https://www.instagram.com/`, `http://instagram.com/`, `http://www.instagram.com/`. |
| Validator.StartRequired | main.py:23-24 | A text that starts with none of those four spellings is rejected. |
| Validator.UpperCaseRejected | main.py:23-24 | Matching is case-sensitive: `HTTPS://…` and `…//Instagram.com/…` are rejected. |
| Validator.ExtraTextRejected | main.py:23 | After the shortcode and its slash, any text other than a `?` query or a single newline makes the link invalid. |
| Validator.MultiSegmentStoryRejected | main.py:23 | The multi-segment story link `https://www.instagram.com/stories/user/123/` is rejected. |
| Validator.OneTrailingNewline | main.py:23-24 | Because of `$`, a link is still accepted with one trailing newline but not with two. |
| Text.Contains | main.py:109 | The substring test `t in s`. For the tests `"/p/" in url`, `"/stories/" in url` and `"/reel/" in url` its meaning is stated by `Text.ContainsDelimited`. |
| Text.EndsWith | main.py:32 | The test `file.endswith(".mp4")`. What the filter built on it keeps is stated by `Download.Mp4Files`. |
| Text.Repeat | main.py:80 | `c * n` has `n` characters, all equal to `c`, and is empty when `n` is zero or negative. |
| Text.Split | main.py:42 | `s.split(sep)` gives at least one piece, and exactly one when `sep` does not occur. No piece holds `sep`. |
| Text.ContainsDelimited | main.py:109 | For a slash-free word `w`, the substring test `/w/ in s` holds exactly when `w` is a piece of `s.split("/")` with a `/` on both sides. |
| Text.JoinSplit | main.py:42 | Joining the pieces of `s.split(sep)` with `sep` gives back `s`. |
| Text.SplitJoin | main.py:42 | Splitting the join of separator-free pieces gives back the pieces. |
| Shortcode.SecondToLastSegment | main.py:42 | `url.split("/")[-2]` yields a piece exactly when the text holds a `/` (otherwise Python raises IndexError). The piece is one of the split pieces and holds no `/`. |
| Shortcode.ExtractedSegment | main.py:110 | The extracted piece of every well-formed link. Let q be the pieces of its query and final newline, split on `/`. With no `/` in the query, it is the shortcode when a `/` follows it and the path word `p`, `reel` or `stories` otherwise. With one `/` in the query, it is the first piece of q, glued to the shortcode when no `/` follows the shortcode. With more, it is the second-to-last piece of q. |
| Shortcode.AcceptedPieces | main.py:70 | In an accepted link the pieces are the scheme, an empty piece, the host and the path word, then a piece that begins with exactly the shortcode. So the extraction never raises IndexError on an accepted link. |
| Shortcode.QuerySlashMovesExtraction | main.py:42 | `https://www.instagram.com/p/ABC/?next=/x` is accepted, and the extracted piece is `?next=`, not the shortcode. |
| Dispatch.Classify | main.py:109-128 | The priority chain of substring tests picks, on every text, the same branch as the same chain over the inner `/`-separated pieces (`Text.ContainsDelimited`): `/w/ in url` holds exactly when `w` is a piece with a `/` on both sides. |
| Dispatch.ValidUrlIsDispatched | main.py:109-128 | Every accepted link makes one of the three tests hold, so one branch always runs. |
| Dispatch.DispatchOfLink | main.py:109-128 | For an accepted link whose query holds no `/`: a post link, or a `p/` shortcode followed by `/`, goes to the post branch. Otherwise a stories link, or a `stories/` shortcode, goes to the story branch. All others go to the reel branch. |
| Dispatch.ReelLinkWithPostMarker | main.py:109-128 | The reel link `https://www.instagram.com/reel/ABC/?from=/p/` is accepted and dispatched to the post branch. |
| Progress.Decimal | main.py:81 | `str(n)`: at least one character, all of them digits, and no leading `0` unless `n` is zero. That it reads back as `n` is stated by `Progress.DecimalValue`. |
| Progress.Bar | main.py:80 | The `progress` expression `"🟩" * i + "⬜" * (10 - i)`. Its shape during the loop is stated by `Progress.BarLength`. |
| Progress.DecimalValue | main.py:81 | The decimal text of `i * 10` reads back as that number. |
| Progress.ProgressText | main.py:80-81 | The text of step `i`, as the f-string builds it. What it shows is stated by `Progress.ReadProgressText`, and that different steps differ by `Progress.ProgressTextInjective`. |
| Progress.ReadProgressText | main.py:80-81 | Step `i` reads back as `i` green squares, `10 - i` white squares (none once `i` exceeds 10) and `i * 10` percent. |
| Progress.BarLength | main.py:118 | For `0 <= i <= 10` the bar has exactly ten squares: green before position `i`, white from there on. |
| Progress.WaitTextShown | main.py:106 | The first "Please wait" text shows one green square, nine white squares and `0%`. No step of the loop produces that text. |
| Progress.ProgressTextInjective | main.py:119 | Different steps produce different texts. |
| Progress.ProgressEdits | main.py:116-119 | The loop produces ten texts, in order, the `k`-th being the text of step `k + 1`. |
| Progress.EditsShown | main.py:78-81 | Read back, the ten edits show rising percentages `10, 20, …, 100`. The last edit is a full green bar at 100%. |
| Download.DownloadDir | main.py:112 | The directory name `prefix + owner + "_" + shortcode` is read back as its kind, owner and shortcode whenever the owner holds no `_`. |
| Download.ParseDownloadDirSound | main.py:74 | Whatever is read back from a directory name rebuilds that same name. |
| Download.DirNameAmbiguous | main.py:46 | Owners and shortcodes may contain `_`, so different (owner, shortcode) pairs can give the same directory. |
| Download.KindsSeparate | main.py:46 | Directories of the post, reel and story branches never coincide. |
| Download.Mp4Files | main.py:30-32 | The names sent are exactly the listed names ending in `.mp4`, and never more names than the listing holds. |
| Download.Mp4FilesAppend | main.py:29-34 | The filter keeps listing order: filtering a listing in two parts gives the files of the first part, then those of the second. |
| Download.Mp4FilesIdempotent | main.py:32 | Filtering the sent names again changes nothing. |
| Download.VideoFiles | main.py:28-34 | The loop of `download_video` sends exactly the `.mp4` names of the listing, in listing order. |
| Bot.Edits | main.py:116-119 | The ten `edit_text` calls of the progress loop on message `m`, in order. What they show is stated by `Bot.EditsShow`. |
| Bot.EditsShow | main.py:78-81 | There are ten edits, all on message `m`. The `k`-th reads back as `k + 1` green squares, `9 - k` white squares and `(k + 1) * 10` percent. |
| Bot.Videos | main.py:30-34 | One `reply_video` per file, in order, each captioned "Video downloaded!". Which files are sent is stated by `Download.VideoFiles` and `Bot.HandledLink`. |
| Bot.HandleMessage | main.py:95-100 | The handler takes no action at all exactly when the text is not an accepted link. What it does for an accepted link is stated by `Bot.HandledLink`, `Bot.ReferencesSentMessages` and `Bot.WaitMessagesDeleted`. |
| Bot.PostSteps | main.py:109-122 | The post branch: look the piece up with `Post.from_shortcode`, save into the `post_` directory, edit message 0 ten times, send the `.mp4` files, and delete message 0. An IndexError of the split becomes the error reply. Its effect is stated by `Bot.HandledLink` and `Bot.WaitMessagesDeleted`. |
| Bot.StorySteps | main.py:38-59 | `download_story`: look the piece up with `StoryItem.from_shortcode`, save into the `story_` directory, send its own "Please wait" message, send the `.mp4` files, then report the NameError of the undefined `wait_message`. Its effect is stated by `Bot.HandledLink` and `Bot.WaitMessagesDeleted`. |
| Bot.ReelSteps | main.py:63-91 | `download_reel`: send its own "Please wait" message (message 1), look the piece up with `Post.from_shortcode`, save into the `reel_` directory, edit message 1 ten times, send the `.mp4` files, and delete message 1. Its effect is stated by `Bot.HandledLink` and `Bot.WaitMessagesDeleted`. |
| Bot.HandledLink | main.py:102-131 | For an accepted link, when the instaloader lookup and download succeed, exactly one branch runs. That branch: begins with the "Please wait" reply and ends by deleting it; looks up the extracted piece with the branch's instaloader call (`StoryItem.from_shortcode` for a story, `Post.from_shortcode` otherwise); saves into exactly the branch's directory; sends exactly the `.mp4` files of the listing, in order, each captioned "Video downloaded!"; and edits a progress bar ten times (message 0 for a post, message 1 for a reel, never for a story). The `k`-th edit shows `k + 1` green squares, `9 - k` white squares and `(k + 1) * 10` percent. |
| Bot.ReferencesSentMessages | main.py:63-131 | On every text, each edit and each delete names a message already sent and not yet deleted. |
| Bot.WaitMessagesDeleted | main.py:38-59 | When the instaloader lookup and download succeed: in the post and reel branches every "Please wait" message is deleted. In the story branch the second one is never deleted, and the last message is the NameError report. |

## Left out

- Telegram Bot API calls (`reply_text`, `reply_video`, `edit_text`, `delete_message`) and the `Application` polling setup.
  - Each call becomes an action in the trace.
  - Their network behaviour and failures are not modelled.
- instaloader (`Post.from_shortcode`, `StoryItem.from_shortcode`, `download_post`, `download_storyitem`).
  - A lookup is a `Lookup` action and a download a `Save` action.
  - What the lookup returns is a parameter (`Bot.Item`), assumed to succeed.
  - Scraping, network failures and lookups of shortcodes that do not exist are not modelled.
- Filesystem access (`os.listdir`, `open`, `os.path.join`).
  - The listing is a parameter, in the order `os.listdir` gives it.
  - A sent video is named by its directory and file name rather than a joined path.
- `asyncio.sleep` timing, asynchronous scheduling, logging, and reading the bot token from `.env.secret`.
- Exception paths raised by the external calls above.
  - Modelled: IndexError from the shortcode split, which is proved never to happen on an accepted link, and the NameError of `download_story`.
  - Their exception messages are Python's wording for those two errors.
- Bot.HandleMessage: the same lookup result and listing are used for whichever branch runs; which instaloader object produced them is not distinguished.
- Dispatch.DispatchOfLink: stated only for links whose query holds no `/`. The contract of `Dispatch.Classify` covers every text.
