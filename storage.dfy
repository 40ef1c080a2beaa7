/**
 * The part of the outside world the downloaders touch: which paths exist, the
 * line files (the dedup tracking file and the playlists), the tag sets the
 * tagger saved, and the HTTP GETs issued for enclosures.
 */
module Storage {

  type Lines = seq<string>

  /** The lines of `path`, none when the file does not exist. */
  function LinesOf(texts: map<string, Lines>, path: string): Lines
  {
    if path in texts then texts[path] else []
  }

  /**
   * `open(path, 'a').write(line + "\n")` whose success is `ok`: the file (created
   * if missing) gains the line; a failed write is logged and changes nothing.
   */
  function AppendLine(texts: map<string, Lines>, path: string, line: string, ok: bool): (r: map<string, Lines>)
    ensures ok ==> path in r && r[path] == LinesOf(texts, path) + [line]
    ensures ok ==> forall p :: p in texts && p != path ==> p in r && r[p] == texts[p]
    ensures ok ==> r.Keys == texts.Keys + {path}
    ensures !ok ==> r == texts
  {
    if ok then texts[path := LinesOf(texts, path) + [line]] else texts
  }

  /**
   * How the enclosure transfer went: no response (transport error, error status,
   * or the file could not be opened, so nothing was written), interrupted after the
   * file was opened (a partial file remains), or complete.
   */
  datatype Transfer = NoResponse | Interrupted | Complete

  class World {
    /** Paths that exist (`Path.exists()`). */
    var files: set<string>
    /** Line-oriented text files by path. */
    var texts: map<string, Lines>
    /** The tag set last saved into each audio file by the tagger. */
    var savedTags: map<string, map<string, string>>
    /** The enclosure URLs an HTTP GET was issued for, in order. */
    var requests: seq<string>

    constructor(files: set<string>, texts: map<string, Lines>)
      ensures this.files == files && this.texts == texts
      ensures savedTags == map[] && requests == []
    {
      this.files := files;
      this.texts := texts;
      savedTags := map[];
      requests := [];
    }

    /**
     * `requests.get(url, stream=True)` and the chunked write to `path`: the request
     * is issued; the path exists afterwards unless there was no response.
     */
    method Fetch(url: string, path: string, transfer: Transfer)
      modifies this`requests, this`files
      ensures requests == old(requests) + [url]
      ensures files == if transfer == NoResponse then old(files) else old(files) + {path}
    {
      requests := requests + [url];
      if transfer != NoResponse {
        files := files + {path};
      }
    }

    /** Appends `line` to the text file at `path` when the write succeeds. */
    method Append(path: string, line: string, ok: bool)
      modifies this`texts
      ensures texts == AppendLine(old(texts), path, line, ok)
    {
      if ok {
        texts := texts[path := LinesOf(texts, path) + [line]];
      }
    }
  }
}
