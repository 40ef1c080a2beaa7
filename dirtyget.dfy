/**
 * dirtyget.py's `PodcastDownloader`: the dedup tracker (an in-memory URL set
 * backed by an append-only tracking file), feed item selection, and the
 * download decision with its effects on the world.
 */
module DirtyGet {
  import opened Wrappers
  import opened PyStr
  import opened Channels
  import opened Feed
  import opened Naming
  import opened Tagging
  import opened Storage
  import opened Download

  /** `set(line.strip() for line in f if line.strip())`. */
  function LoadedUrls(lines: Lines): set<string>
  {
    set line | line in lines && Strip(line) != "" :: Strip(line)
  }

  /** A URL is loaded exactly when some line strips to it and it is not empty. */
  lemma LoadedUrlsMembership(lines: Lines, url: string)
    ensures url in LoadedUrls(lines) <==> url != "" && exists i :: 0 <= i < |lines| && Strip(lines[i]) == url
  {
  }

  /** Appending a line adds its stripped text, if any, to what a reload yields. */
  lemma LoadedUrlsAppend(lines: Lines, line: string)
    ensures LoadedUrls(lines + [line]) == LoadedUrls(lines) + (if Strip(line) != "" then {Strip(line)} else {})
  {
  }

  /** A recorded URL without surrounding whitespace is found again by the next run's load. */
  lemma RecordedUrlSurvivesReload(lines: Lines, url: string)
    requires url != "" && IsStripped(url)
    ensures url in LoadedUrls(lines + [url])
    ensures LoadedUrls(lines + [url]) == LoadedUrls(lines) + {url}
  {
    LoadedUrlsAppend(lines, url);
  }

  /**
   * A URL with surrounding whitespace is never loaded back: recorded in one run, it
   * is not in the next run's dedup set (only the file-exists check then skips it).
   */
  lemma PaddedUrlIsNeverLoaded(lines: Lines, url: string)
    requires !IsStripped(url)
    ensures url !in LoadedUrls(lines)
  {
  }

  /**
   * The optional I/O results a call of `download_episode` may meet, none of which
   * aborts the run: the transfer, what mutagen makes of the file, whether saving
   * its tags, appending to the tracking file and appending to the playlist succeed.
   */
  datatype Outcomes = Outcomes(transfer: Transfer, probe: Probe, tagSaveOk: bool, trackingWriteOk: bool, playlistWriteOk: bool)

  /**
   * `MutagenFile(filepath)`: `None` for an unrecognised file, else an object whose
   * `tags` may be `None` (then `add_tags()` starts an empty set).
   */
  datatype Probe = Unrecognized | Recognized(embedded: Option<TagMap>)

  /** Whether `download_episode` returns True for a decision and a transfer. */
  function Handled(d: Decision, transfer: Transfer): bool
  {
    match d
    case NoUrl => false
    case AlreadyRecorded => true
    case AlreadyOnDisk => true
    case Fetch(_) => transfer == Complete
  }

  /**
   * The in-place updates of `_set_metadata_tags` on a file's tag set `tags`:
   * title and artist when absent, album, genre and (ID3) comment when configured.
   */
  method FillTags(tags: TagMap, d: Dialect, title: string, channelName: string, settings: Settings)
    returns (filled: TagMap)
    ensures filled == ApplyTagRules(tags, d, title, channelName, settings)
  {
    filled := tags;
    if TitleKey(d) !in filled {
      filled := filled[TitleKey(d) := title];
    }
    if ArtistKey(d) !in filled {
      filled := filled[ArtistKey(d) := DefaultArtist(channelName, settings)];
    }
    if "album_tag" in settings {
      filled := filled[AlbumKey(d) := settings["album_tag"]];
    }
    if "genre_tag" in settings {
      filled := filled[GenreKey(d) := settings["genre_tag"]];
    } else if "genre" in settings {
      filled := filled[GenreKey(d) := settings["genre"]];
    }
    if d == Id3 && "comment_tag" in settings {
      filled := filled[CommentKey := settings["comment_tag"]];
    }
  }

  class PodcastDownloader {
    const config: seq<Section>
    const forceOverwrite: bool
    /** The tracking file, `~/.dirtyget_downloaded_urls`. */
    const downloadedUrlsFile: string
    const world: World
    var downloadedUrls: set<string>

    constructor(config: seq<Section>, forceOverwrite: bool, downloadedUrlsFile: string, world: World)
      ensures this.config == config && this.forceOverwrite == forceOverwrite
      ensures this.downloadedUrlsFile == downloadedUrlsFile && this.world == world
      ensures downloadedUrls == {}
    {
      this.config := config;
      this.forceOverwrite := forceOverwrite;
      this.downloadedUrlsFile := downloadedUrlsFile;
      this.world := world;
      downloadedUrls := {};
    }

    /** The in-memory set is what loading the tracking file would give now. */
    ghost predicate Synced()
      reads this, world
    {
      downloadedUrls == LoadedUrls(LinesOf(world.texts, downloadedUrlsFile))
    }

    /** `get_channels()`. */
    method GetChannels() returns (channels: seq<Channel>)
      ensures channels == Layered(config)
    {
      channels := CollectChannels(config);
    }

    /**
     * `load_downloaded_urls()`: the stripped non-empty lines of the tracking file;
     * the empty set when the file is missing or cannot be read.
     */
    method LoadDownloadedUrls(readOk: bool)
      modifies this`downloadedUrls
      ensures downloadedUrls ==
                if downloadedUrlsFile in world.texts && readOk then LoadedUrls(world.texts[downloadedUrlsFile]) else {}
      ensures readOk ==> Synced()
    {
      if downloadedUrlsFile in world.texts {
        if readOk {
          downloadedUrls := LoadedUrls(world.texts[downloadedUrlsFile]);
        } else {
          downloadedUrls := {};
        }
      } else {
        downloadedUrls := {};
      }
    }

    /**
     * `save_downloaded_url(url)`: a new URL joins the set and is appended to the
     * tracking file (a failed write is logged and not rolled back); a known URL
     * changes nothing.
     */
    method SaveDownloadedUrl(url: string, writeOk: bool)
      modifies this`downloadedUrls, world`texts
      ensures downloadedUrls == old(downloadedUrls) + {url}
      ensures world.texts == if url in old(downloadedUrls) then old(world.texts)
                             else AppendLine(old(world.texts), downloadedUrlsFile, url, writeOk)
      ensures old(Synced()) && writeOk && url != "" && IsStripped(url) ==> Synced()
    {
      if url !in downloadedUrls {
        downloadedUrls := downloadedUrls + {url};
        world.Append(downloadedUrlsFile, url, writeOk);
        if old(Synced()) && writeOk && url != "" && IsStripped(url) {
          RecordedUrlSurvivesReload(LinesOf(old(world.texts), downloadedUrlsFile), url);
        }
      }
    }

    /**
     * `parse_rss_feed(url, max_episodes)` given what fetching and parsing `url`
     * produced: the episodes of `items[:max_episodes]`, in feed order; none when
     * the fetch or the parse failed.
     */
    method ParseRssFeed(feed: FeedResponse, maxEpisodes: int) returns (episodes: seq<Episode>)
      ensures !feed.Parsed? ==> episodes == []
      ensures feed.Parsed? ==> |episodes| == SliceLength(|feed.items|, maxEpisodes)
      ensures feed.Parsed? ==> forall i :: 0 <= i < |episodes| ==> episodes[i] == ParseItem(feed.items[i])
    {
      if !feed.Parsed? {
        return [];
      }
      var items := feed.items;
      if items == [] {
        return [];
      }
      var toProcess := items[..SliceLength(|items|, maxEpisodes)];
      episodes := [];
      for i := 0 to |toProcess|
        invariant |episodes| == i
        invariant forall j :: 0 <= j < i ==> episodes[j] == ParseItem(items[j])
      {
        assert toProcess[i] == items[i];
        episodes := episodes + [ParseItem(toProcess[i])];
      }
    }

    /**
     * `_set_metadata_tags(filepath, episode, channel_name, channel_config)`: fills
     * in the tags of a recognised file in place and saves them.
     */
    method SetMetadataTags(filepath: string, episode: Episode, channelName: string, settings: Settings,
                           probe: Probe, saveOk: bool)
      modifies world`savedTags
      ensures world.savedTags ==
                if probe.Recognized? && saveOk then
                  old(world.savedTags)[filepath := ApplyTagRules(probe.embedded.GetOr(map[]), DialectOf(filepath),
                                                                 episode.title, channelName, settings)]
                else old(world.savedTags)
    {
      if probe.Unrecognized? {
        return;
      }
      var tags: TagMap := if probe.embedded.Some? then probe.embedded.value else map[];
      tags := FillTags(tags, DialectOf(filepath), episode.title, channelName, settings);
      if saveOk {
        world.savedTags := world.savedTags[filepath := tags];
      }
    }

    /**
     * `download_episode(episode, channel_name, channel_config)` for the enclosure
     * URL path `urlPath`, the working directory `cwd` and the I/O results `io`.
     */
    method DownloadEpisode(episode: Episode, channelName: string, settings: Settings, urlPath: string, cwd: string,
                           io: Outcomes) returns (handled: bool)
      modifies this`downloadedUrls, world`texts, world`files, world`savedTags, world`requests
      ensures var path := TargetPath(episode, urlPath, channelName, settings, cwd);
              var d := Decide(episode, forceOverwrite, old(downloadedUrls), path in old(world.files));
              handled == Handled(d, io.transfer)
      // no URL, or a URL already recorded without --force: nothing happens
      ensures var path := TargetPath(episode, urlPath, channelName, settings, cwd);
              var d := Decide(episode, forceOverwrite, old(downloadedUrls), path in old(world.files));
              d == NoUrl || d == AlreadyRecorded ==>
                && downloadedUrls == old(downloadedUrls)
                && world.texts == old(world.texts) && world.files == old(world.files)
                && world.savedTags == old(world.savedTags) && world.requests == old(world.requests)
      // the file is already there without --force: only the URL is recorded
      ensures var path := TargetPath(episode, urlPath, channelName, settings, cwd);
              var d := Decide(episode, forceOverwrite, old(downloadedUrls), path in old(world.files));
              d == AlreadyOnDisk ==>
                && downloadedUrls == old(downloadedUrls) + {episode.enclosureUrl.value}
                && world.texts == AppendLine(old(world.texts), downloadedUrlsFile, episode.enclosureUrl.value, io.trackingWriteOk)
                && world.files == old(world.files)
                && world.savedTags == old(world.savedTags) && world.requests == old(world.requests)
      // otherwise the enclosure is fetched once
      ensures var path := TargetPath(episode, urlPath, channelName, settings, cwd);
              var d := Decide(episode, forceOverwrite, old(downloadedUrls), path in old(world.files));
              d.Fetch? ==>
                && world.requests == old(world.requests) + [episode.enclosureUrl.value]
                && world.files == (if io.transfer == NoResponse then old(world.files) else old(world.files) + {path})
      // a failed transfer records nothing
      ensures var path := TargetPath(episode, urlPath, channelName, settings, cwd);
              var d := Decide(episode, forceOverwrite, old(downloadedUrls), path in old(world.files));
              d.Fetch? && io.transfer != Complete ==>
                && downloadedUrls == old(downloadedUrls)
                && world.texts == old(world.texts) && world.savedTags == old(world.savedTags)
      // a complete transfer is recorded, tagged and added to the playlist
      ensures var path := TargetPath(episode, urlPath, channelName, settings, cwd);
              var d := Decide(episode, forceOverwrite, old(downloadedUrls), path in old(world.files));
              d.Fetch? && io.transfer == Complete ==>
                var url := episode.enclosureUrl.value;
                var recorded := if url in old(downloadedUrls) then old(world.texts)
                                else AppendLine(old(world.texts), downloadedUrlsFile, url, io.trackingWriteOk);
                && downloadedUrls == old(downloadedUrls) + {url}
                && world.texts == (if "playlist" in settings then AppendLine(recorded, settings["playlist"], path, io.playlistWriteOk)
                                   else recorded)
                && world.savedTags == (if io.probe.Recognized? && io.tagSaveOk then
                                         old(world.savedTags)[path := ApplyTagRules(io.probe.embedded.GetOr(map[]), DialectOf(path),
                                                                                   episode.title, channelName, settings)]
                                       else old(world.savedTags))
    {
      if !HasEnclosureUrl(episode) {
        return false;
      }
      var url := episode.enclosureUrl.value;
      if !forceOverwrite && url in downloadedUrls {
        return true;
      }
      // Path(channel_config.get('spool', os.getcwd())) / _generate_filename(...)
      var filepath := TargetPath(episode, urlPath, channelName, settings, cwd);
      if filepath in world.files && !forceOverwrite {
        SaveDownloadedUrl(url, io.trackingWriteOk);
        return true;
      }
      world.Fetch(url, filepath, io.transfer);
      if io.transfer != Complete {
        return false;
      }
      SaveDownloadedUrl(url, io.trackingWriteOk);
      SetMetadataTags(filepath, episode, channelName, settings, io.probe, io.tagSaveOk);
      if "playlist" in settings {
        world.Append(settings["playlist"], filepath, io.playlistWriteOk);
      }
      return true;
    }
  }

  /**
   * Two calls for the same episode in one run without --force: once the first
   * call has handled it, the second is handled too and issues no request, so the
   * two together fetch the enclosure at most once.
   */
  method DownloadTwice(downloader: PodcastDownloader, episode: Episode, channelName: string, settings: Settings,
                       urlPath: string, cwd: string, first: Outcomes, second: Outcomes)
    returns (firstHandled: bool, secondHandled: bool, ghost between: seq<string>)
    requires !downloader.forceOverwrite
    modifies downloader`downloadedUrls, downloader.world
    ensures |between| <= |old(downloader.world.requests)| + 1
    ensures firstHandled ==> secondHandled && downloader.world.requests == between
  {
    firstHandled := downloader.DownloadEpisode(episode, channelName, settings, urlPath, cwd, first);
    between := downloader.world.requests;
    secondHandled := downloader.DownloadEpisode(episode, channelName, settings, urlPath, cwd, second);
  }

  /**
   * A second run against the same feed, without --force: `first` handles an
   * episode whose URL it had not recorded; a new downloader `next` on the same
   * world and tracking file loads the recorded URLs (whether or not the read
   * succeeds) and then handles the episode without issuing any request. Either
   * the URL was reloaded, or the file the first run left on disk is found.
   */
  method RunAgain(first: PodcastDownloader, next: PodcastDownloader, episode: Episode, channelName: string,
                  settings: Settings, urlPath: string, cwd: string, firstIo: Outcomes, readOk: bool, nextIo: Outcomes)
    returns (firstHandled: bool, nextHandled: bool, ghost between: seq<string>)
    requires next.world == first.world && next.downloadedUrlsFile == first.downloadedUrlsFile
    requires !next.forceOverwrite
    modifies first`downloadedUrls, next`downloadedUrls, first.world
    ensures firstHandled && episode.enclosureUrl.GetOr("") !in old(first.downloadedUrls) ==>
              nextHandled && next.world.requests == between
  {
    firstHandled := first.DownloadEpisode(episode, channelName, settings, urlPath, cwd, firstIo);
    between := first.world.requests;
    next.LoadDownloadedUrls(readOk);
    nextHandled := next.DownloadEpisode(episode, channelName, settings, urlPath, cwd, nextIo);
  }

  /** Saving the same URL twice appends at most one tracking line. */
  method SaveTwice(downloader: PodcastDownloader, url: string, firstOk: bool, secondOk: bool)
    modifies downloader`downloadedUrls, downloader.world`texts
    ensures url in downloader.downloadedUrls
    ensures downloader.downloadedUrls == old(downloader.downloadedUrls) + {url}
    ensures downloader.world.texts ==
              if url in old(downloader.downloadedUrls) then old(downloader.world.texts)
              else AppendLine(old(downloader.world.texts), downloader.downloadedUrlsFile, url, firstOk)
  {
    downloader.SaveDownloadedUrl(url, firstOk);
    downloader.SaveDownloadedUrl(url, secondOk);
  }
}
