# dirtycatcher: a verified model of the podcast downloaders' decision logic

dirtycatcher checks configured podcast feeds and downloads new episodes. It has
two near-identical scripts. `dirtyget.py` is the current one. It keeps a dedup
set of downloaded enclosure URLs, has a `--force` flag, takes up to
`max_episodes` items per feed and tags the downloaded files. `podcast_downloader.py`
is the older variant. It has no dedup set and no force flag, it takes only the
first item of a feed, and it does no tagging.

This project models the logic the two scripts wrap around their HTTP, XML, INI
and ID3 libraries:

- **Channel layering** (`get_channels`): module `Channels`. The INI sections are
  given as an ordered list of (name, map) pairs. The `*` section's keys are
  defaults. Every other section's keys override them. A section that still has
  no `url` is dropped. The loop is `CollectChannels`, proved equal to the
  function `Layered`. Lemmas state where each channel comes from, that each
  qualifying section yields a channel, and that section order is kept.
- **Feed items** (`parse_rss_feed`, `_get_text`): module `Feed` and the two
  `ParseRssFeed` methods. A feed is the already-parsed list of `item` elements,
  or a failure to fetch or to parse. dirtyget.py takes the Python slice
  `items[:max_episodes]`, including the meaning of a negative bound.
  podcast_downloader.py takes only `items[0]`.
- **File names** (`_generate_filename`): module `Naming`. A configured
  `filespec` is used literally. Otherwise the name is
  `channel + "_" + sanitize(title) + ext`. `ext` follows `os.path.splitext`
  (module `Paths`) and defaults to `.mp3`.
- **Dedup tracker and download decision** (`load_downloaded_urls`,
  `save_downloaded_url`, `download_episode`): module `DirtyGet`, class
  `PodcastDownloader`. It holds the URL set as a field. The world is a `World`
  object (module `Storage`). It holds the set of existing paths, the line files
  (tracking file, playlists), the tag sets the tagger saved and the log of
  enclosure GETs. The decision itself is `Download.Decide`: no URL, already
  recorded, already on disk, or fetch. It is shared with podcast_downloader.py's
  `DownloadEpisode` (module `CastGet`), which is the same decision with the
  force flag off and an empty dedup set.
- **Tag decisions** (`_set_metadata_tags`): module `Tagging` (`ApplyTagRules`, with the
  rules stated by `TagRules`) and `DirtyGet.FillTags` (the in-place updates). The `.mp3`
  branch uses the ID3 frame names TIT2/TPE1/TALB/TCON/COMM. The other branch
  uses TITLE/ARTIST/ALBUM/GENRE and sets no comment.

Inputs the scripts get from outside are parameters:

- the feed response;
- the path component of the enclosure URL;
- the working directory;
- the outcome of the enclosure transfer (`Storage.Transfer`);
- what mutagen makes of the file (`DirtyGet.Probe`);
- whether each best-effort write succeeds.

`get_channels`, `_get_text` and `_generate_filename` are textually identical in
the two scripts (podcast_downloader.py:32-55, 102-105, 153-171). Each is
modelled once and used by both classes.

One consequence is worth noting. A URL is stored as given and loaded back
stripped. So an enclosure URL with surrounding whitespace is never found in a
later run's dedup set (`PaddedUrlIsNeverLoaded`). Only the file-exists check
then prevents a second download. For URLs without such whitespace the set
survives a reload (`RecordedUrlSurvivesReload`, and the `Synced` clause of
`SaveDownloadedUrl`).
Either way, a second run without `--force` issues no request for an episode
that the first run handled and whose URL it had not yet recorded (`RunAgain`).
For a URL the first run skipped as already recorded, this needs the next run's
read of the tracking file to succeed: when that read fails, the set is empty, and
a missing target file is fetched again.

Three facts about the tagger and the sanitizer that are easy to miss:

- The tagger always calls `save()` once a file is recognised (dirtyget.py:258,
  287), whether or not it changed a tag.
- A configured album, genre or comment overwrites an existing value
  (dirtyget.py:245-256). Only title and artist are kept when present.
- The sanitizer keeps `\w` characters (dirtyget.py:211), which in Python 3 is
  Unicode-aware. The model uses the ASCII class `[A-Za-z0-9_]`; see Left out.

## Model

| member | source | states |
|---|---|---|
| `PyStr.Strip` | dirtyget.py:43 | the result has no surrounding whitespace, is a contiguous slice of the input, only whitespace is removed around it, and an already stripped string is returned unchanged |
| `PyStr.TitleCase` | dirtyget.py:241 | same length; a character is lower-cased when the one before it is a cased letter and upper-cased otherwise, as `str.title()` does |
| `PyStr.LastIndexOf` | dirtyget.py:216 | `rfind`: -1 or an index holding the character, with no occurrence after it |
| `PyStr.LowerString` | dirtyget.py:229 | `lower()`: same length, no upper-case letter is left, an upper-case letter becomes its lower-case partner and every other character is kept |
| `Paths.SplitextSuffix` | dirtyget.py:216 | the extension is a suffix of the path, empty or `.` with no `/` and no other `.` after it; it is non-empty exactly when the last component has a `.` after some non-`.` character |
| `Paths.FinalComponent` | dirtyget.py:229 | the path's name: a suffix of the path with no `/`, which is the whole path or starts right after a `/` |
| `Paths.PathSuffix` | dirtyget.py:229 | `Path.suffix`: a suffix of the final component, empty or `.` plus at least one character with no `/` and no other `.`; non-empty exactly when the component's last `.` is neither its first nor its last character (`LastDotIsInner`) |
| `Paths.NameSuffix` | dirtyget.py:229 | the suffix of a final component: a suffix of it, empty or `.` plus at least one character with no other `.`; non-empty exactly when its last `.` is neither its first nor its last character |
| `Paths.JoinPath` | dirtyget.py:151-157 | an absolute name, or any name under an empty directory, is the path itself; a relative name goes after the directory and exactly one `/`, and the path ends with it |
| `Channels.Globals` | dirtyget.py:63-67 | the defaults are `{}` without a `*` section, else the settings of the (first) `*` section |
| `Channels.Merge` | dirtyget.py:74-75 | the merged settings have exactly the keys of both maps; the section's value wins and the default applies otherwise |
| `Channels.Overlay` | dirtyget.py:70-81 | no returned channel is the `*` section and every returned channel has a `url` |
| `Channels.OverlayAppend` | dirtyget.py:70 | channels keep section order: the channels of `a + b` are those of `a` followed by those of `b` |
| `Channels.ChannelFromSection` | dirtyget.py:74-81 | every channel is some non-`*` section's name with that section's settings laid over the defaults |
| `Channels.SectionBecomesChannel` | podcast_downloader.py:42-53 | every non-`*` section whose layered settings contain `url` appears as a channel |
| `Channels.CollectChannels` | dirtyget.py:69-81 | the loop builds exactly the layered channel list `Channels.Layered` (the overlay of the sections over the `*` defaults) |
| `Feed.Find` | podcast_downloader.py:104 | `find(tag)` gives None exactly when no child has the tag, else the first child with that tag: no earlier child has it |
| `Feed.GetText` | dirtyget.py:134-137 | the result is stripped; it is `""` when the child is missing or has no text, else the child's stripped text |
| `Feed.ParseItem` | dirtyget.py:106-121 | title, description, pubDate and link are each `GetText` of the child of that name (so stripped, `""` when missing or empty); the enclosure fields are None without an enclosure element and the `url`/`type`/`length` attributes otherwise |
| `Naming.Sanitize` | dirtyget.py:209-211 | one output character per input character: a safe character is kept and anything else becomes `_`; every output character is safe |
| `Naming.Extension` | dirtyget.py:213-216 | the extension starts with `.`, holds no `/` and no other `.`, and is the splitext suffix or `.mp3` when that is empty |
| `Naming.FilenamePolicy` | dirtyget.py:200-218 | the rules of `Naming.GenerateFilename`: with `filespec` the name is that value whatever the title and URL; otherwise it is channel name, `_`, a safe stem as long as the title (each character the title's own when safe, `_` when not) and the extension |
| `Tagging.DialectOf` | dirtyget.py:229 | the ID3 branch is taken exactly when the suffix is `.mp3` in any letter case (`Tagging.LowersToMp3` states the case folding) |
| `Tagging.LowersToMp3` | dirtyget.py:229 | `s.lower() == '.mp3'` holds exactly for `.mp3`, `.Mp3`, `.mP3` and `.MP3` |
| `Tagging.ConfiguredGenre` | dirtyget.py:249-252 | `genre_tag` takes priority over `genre`; none when neither is configured |
| `Tagging.TagRules` | dirtyget.py:235-256 | the rules of `Tagging.ApplyTagRules`: an existing title or artist is kept and a missing one becomes the episode title or `artist_tag`, else the title-cased channel name (`Tagging.DefaultArtist`); album, genre and (ID3) comment are set exactly when configured; every other tag is unchanged |
| `Storage.AppendLine` | dirtyget.py:293-299 | a successful append adds the line at the end of that file (creating it) and leaves other files alone; a failed one changes nothing |
| `Storage.World.Fetch` | dirtyget.py:169-177 | the GET is logged; the target path exists afterwards unless there was no response |
| `Storage.World.Append` | dirtyget.py:55-56 | the line files become `AppendLine` of the old ones |
| `Download.Decide` | dirtyget.py:141-166 | no URL exactly when the URL is missing or empty; already recorded exactly when not forced and the URL is in the set; an existing file is skipped only when not forced; a fetch happens only when forced or neither skip applies; force with a URL always fetches |
| `DirtyGet.LoadedUrlsMembership` | dirtyget.py:43 | `DirtyGet.LoadedUrls`, the set a load yields: a URL is loaded exactly when it is non-empty and some line of the tracking file strips to it |
| `DirtyGet.LoadedUrlsAppend` | dirtyget.py:52-56 | appending a line adds exactly its stripped text (when non-empty) to what a reload yields |
| `DirtyGet.RecordedUrlSurvivesReload` | dirtyget.py:40-56 | a recorded URL without surrounding whitespace is in the next run's loaded set, and nothing else is added |
| `DirtyGet.PaddedUrlIsNeverLoaded` | dirtyget.py:43 | a URL with surrounding whitespace is never in a loaded set |
| `DirtyGet.FillTags` | dirtyget.py:229-256 | the in-place tag updates produce `ApplyTagRules` of the file's tags |
| `DirtyGet.PodcastDownloader.constructor` | dirtyget.py:23-29 | a new downloader has an empty URL set |
| `DirtyGet.PodcastDownloader.GetChannels` | dirtyget.py:60-83 | returns the layered channel list of its configuration |
| `DirtyGet.PodcastDownloader.LoadDownloadedUrls` | dirtyget.py:38-48 | the set becomes the stripped non-empty lines of the tracking file; empty when the file is missing or unreadable; after a successful read it matches the file |
| `DirtyGet.PodcastDownloader.SaveDownloadedUrl` | dirtyget.py:50-58 | the URL is in the set and the set grows by at most it; a line is appended only when the URL was new and the write succeeds; a synced set stays synced for non-empty stripped URLs |
| `DirtyGet.PodcastDownloader.ParseRssFeed` | dirtyget.py:85-132 | no episodes when the fetch or parse failed; otherwise one episode per item of `items[:max_episodes]`, in feed order; the count is `Feed.SliceLength`, the length of a Python slice (clamped to the list, a negative bound counting from the end) |
| `DirtyGet.PodcastDownloader.SetMetadataTags` | dirtyget.py:220-291 | an unrecognised file or a failed save changes nothing; otherwise the file's saved tags become `ApplyTagRules` of its tags (empty when it had none) in the dialect its suffix selects |
| `DirtyGet.PodcastDownloader.DownloadEpisode` | dirtyget.py:139-198 | the target is `Download.TargetPath` (the spool directory, or the working directory, joined with the generated name); returns False with no URL and changes nothing; a recorded URL is skipped unless forced, with no fetch and no change; an existing file is skipped unless forced, with no fetch and the URL recorded; otherwise exactly one GET; on failure nothing is recorded; on success the URL is recorded, the tags saved and the playlist appended when configured |
| `DirtyGet.DownloadTwice` | dirtyget.py:145-164 | without force, in one run: the first call issues at most one GET, and once it has handled an episode a second call is handled too and issues no GET |
| `DirtyGet.RunAgain` | dirtyget.py:36-164 | without force, across runs: once a downloader has handled an episode whose URL it had not recorded, a new downloader on the same world that loads the tracking file (whether the read succeeds or not) handles the episode too and issues no GET |
| `DirtyGet.SaveTwice` | dirtyget.py:50-58 | saving a URL twice appends at most one tracking line |
| `CastGet.PodcastDownloader.constructor` | podcast_downloader.py:20-23 | the downloader holds its configuration |
| `CastGet.PodcastDownloader.GetChannels` | podcast_downloader.py:32-55 | returns the layered channel list of its configuration |
| `CastGet.PodcastDownloader.ParseRssFeed` | podcast_downloader.py:57-100 | None exactly when the fetch or parse failed or the feed has no items; otherwise the episode of the first item |
| `CastGet.PodcastDownloader.DownloadEpisode` | podcast_downloader.py:107-151 | returns False with no URL; returns True with no fetch and no change when the target exists; otherwise exactly one GET; on success the playlist is appended when configured, and it returns True |

## Left out

- HTTP (`requests.get`, `raise_for_status`, streaming in 8192-byte chunks). The feed response and the transfer outcome are inputs.
- XML parsing (`ET.fromstring`, `findall('.//item')`). A feed is the list of item elements.
- Reading the INI file (configparser, `load_config` and its FileNotFoundError). The sections are an input. configparser keeps section names unique; the model's channel list stands for the returned dict on that basis. The merging of a `[DEFAULT]` section and `optionxform` are not modelled.
- `urlparse`. The path component of the enclosure URL is an input.
- `int()` of `max_episodes` and its ValueError. The bound is a given integer.
- `download_all_latest`, `main`, argparse, all printing, and dirtycatcher/cli.py. They are the orchestration and CLI plumbing around the modelled operations. cli.py imports a `.core` module, which is not part of this model.
- `os.getcwd`, `os.path.expanduser`, `mkdir`. The working directory and the tracking-file path are inputs. Directories are not modelled, so a failing `mkdir` (which the source does not catch) is not modelled either.
- `Paths.JoinPath`: pathlib's normalisation is not modelled. `JoinPath("a", "")` is `"a/"`, where `str(Path("a") / "")` is `"a"`. So with an empty `filespec` the source's target is the spool directory that `mkdir` just created, and every episode is reported as already downloaded and its URL recorded without a fetch. Directories are not in the model's set of paths, so the model fetches instead.
- Path normalisation by pathlib beyond the joining in `Paths.JoinPath`. Audio, playlist and tracking paths are assumed distinct.
- Files are modelled as line sequences. Splitting file text into lines, and bytes and encodings, are not modelled. In particular, `load_downloaded_urls` catches only `IOError` (dirtyget.py:44). A `UnicodeDecodeError` while reading the tracking file is a `ValueError` and aborts the whole run, where the model's failed read (`readOk == false`) gives the empty set. Likewise, a `UnicodeEncodeError` in the tracking or playlist append (dirtyget.py:56, 297) aborts the run, where the model's failed write only leaves the file unchanged.
- Partial files left by an interrupted transfer are modelled as existing paths; their contents are not.
- Mutagen I/O, ID3 frame encodings, and COMM's language and description. Tags are a map from frame or field name to text.
- `Naming.Sanitize`: `\w` is taken as ASCII letters, digits and `_`. Python's Unicode-aware `\w` also keeps non-ASCII letters and digits, which the model replaces with `_`.
- `PyStr.TitleCase`: case mapping is ASCII-only. Python's `str.title()` also maps non-ASCII letters, which the model leaves as they are. Non-ASCII letters also count as uncased, so an ASCII letter right after one is upper-cased where Python lower-cases it (the model gives `"éA"` for `"éa"`; Python gives `"Éa"`).
- `PyStr.LowerString`: ASCII-only, like `TitleCase`. This matters only for the `.mp3` suffix test.
- `Paths.PathSuffix`: follows `PurePath.suffix` of Python 3.12 and earlier.
