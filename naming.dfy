/**
 * The file-name policy of `_generate_filename` (identical in dirtyget.py and
 * podcast_downloader.py): a configured `filespec` is used literally; otherwise the
 * name is the channel name, `_`, the sanitized title and the extension of the
 * enclosure URL's path.
 */
module Naming {
  import opened Channels
  import opened Paths

  /** `\w` for ASCII text: letters, digits and `_`. */
  predicate IsWordChar(c: char) {
    ('a' <= c <= 'z') || ('A' <= c <= 'Z') || ('0' <= c <= '9') || c == '_'
  }

  /** The characters the pattern `[^\w\-_\.]` does not match. */
  predicate IsSafe(c: char) {
    IsWordChar(c) || c == '-' || c == '_' || c == '.'
  }

  /** `re.sub(r'[^\w\-_\.]', '_', title)`: one output character per input character. */
  function Sanitize(title: string): (clean: string)
    ensures |clean| == |title|
    ensures forall i :: 0 <= i < |title| ==> clean[i] == (if IsSafe(title[i]) then title[i] else '_')
    ensures forall c :: c in clean ==> IsSafe(c)
    decreases |title|
  {
    if title == [] then []
    else [if IsSafe(title[0]) then title[0] else '_'] + Sanitize(title[1..])
  }

  /** `os.path.splitext(path)[1] or '.mp3'`. */
  function Extension(urlPath: string): (ext: string)
    ensures ext != [] && ext[0] == '.' && '/' !in ext && '.' !in ext[1..]
    ensures ext == SplitextSuffix(urlPath) || (SplitextSuffix(urlPath) == [] && ext == ".mp3")
  {
    var ext := SplitextSuffix(urlPath);
    if ext != [] then ext else ".mp3"
  }

  /**
   * `_generate_filename(episode, channel_name, channel_config)`, given the episode
   * title and the path component of its enclosure URL.
   */
  function GenerateFilename(title: string, urlPath: string, channelName: string, settings: Settings): string
  {
    if "filespec" in settings then settings["filespec"]
    else channelName + "_" + Sanitize(title) + Extension(urlPath)
  }

  /**
   * With a `filespec` the name is that value, whatever the title and URL. Otherwise
   * it is the channel name, `_`, one safe character per title character (the
   * character itself when it is safe, `_` when not), and the extension.
   */
  lemma FilenamePolicy(title: string, urlPath: string, channelName: string, settings: Settings)
    ensures "filespec" in settings ==> GenerateFilename(title, urlPath, channelName, settings) == settings["filespec"]
    ensures "filespec" !in settings ==>
              var name := GenerateFilename(title, urlPath, channelName, settings);
              var n := |channelName|;
              var ext := Extension(urlPath);
              && |name| == n + 1 + |title| + |ext|
              && name[..n] == channelName
              && name[n] == '_'
              && name[n + 1 + |title|..] == ext
              && var stem := name[n + 1..n + 1 + |title|];
                 forall i :: 0 <= i < |title| ==>
                   && IsSafe(stem[i])
                   && (stem[i] == title[i] || stem[i] == '_')
                   && (IsSafe(title[i]) ==> stem[i] == title[i])
  {
  }
}
