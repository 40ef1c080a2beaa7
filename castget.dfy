/**
 * podcast_downloader.py's `PodcastDownloader`, the older variant: no dedup set, no
 * force flag, only the newest item of a feed, and no tagging.
 */
module CastGet {
  import opened Wrappers
  import opened Channels
  import opened Feed
  import opened Storage
  import opened Download

  class PodcastDownloader {
    const config: seq<Section>
    const world: World

    constructor(config: seq<Section>, world: World)
      ensures this.config == config && this.world == world
    {
      this.config := config;
      this.world := world;
    }

    /** `get_channels()`. */
    method GetChannels() returns (channels: seq<Channel>)
      ensures channels == Layered(config)
    {
      channels := CollectChannels(config);
    }

    /**
     * `parse_rss_feed(url)` given what fetching and parsing `url` produced: the
     * episode of the first item; None when the fetch or parse failed or there are
     * no items.
     */
    method ParseRssFeed(feed: FeedResponse) returns (episode: Option<Episode>)
      ensures episode.None? <==> !feed.Parsed? || feed.items == []
      ensures episode.Some? ==> feed.Parsed? && episode.value == ParseItem(feed.items[0])
    {
      if !feed.Parsed? {
        return None;
      }
      var items := feed.items;
      if items == [] {
        return None;
      }
      var latestItem := items[0];
      episode := Some(ParseItem(latestItem));
    }

    /**
     * `download_episode(episode, channel_name, channel_config)`: no URL fails, an
     * existing file is a success without a fetch, otherwise the enclosure is
     * fetched and, when complete, appended to the playlist.
     */
    method DownloadEpisode(episode: Episode, channelName: string, settings: Settings, urlPath: string, cwd: string,
                           transfer: Transfer, playlistWriteOk: bool) returns (handled: bool)
      modifies world`texts, world`files, world`requests
      ensures var path := TargetPath(episode, urlPath, channelName, settings, cwd);
              var d := Decide(episode, false, {}, path in old(world.files));
              && handled == (d == AlreadyOnDisk || (d.Fetch? && transfer == Complete))
              && (d == NoUrl || d == AlreadyOnDisk ==>
                    world.texts == old(world.texts) && world.files == old(world.files) && world.requests == old(world.requests))
      ensures var path := TargetPath(episode, urlPath, channelName, settings, cwd);
              var d := Decide(episode, false, {}, path in old(world.files));
              d.Fetch? ==>
                && world.requests == old(world.requests) + [episode.enclosureUrl.value]
                && world.files == (if transfer == NoResponse then old(world.files) else old(world.files) + {path})
                && world.texts == (if transfer == Complete && "playlist" in settings
                                   then AppendLine(old(world.texts), settings["playlist"], path, playlistWriteOk)
                                   else old(world.texts))
    {
      if !HasEnclosureUrl(episode) {
        return false;
      }
      // Path(channel_config.get('spool', os.getcwd())) / _generate_filename(...)
      var filepath := TargetPath(episode, urlPath, channelName, settings, cwd);
      if filepath in world.files {
        return true;
      }
      world.Fetch(episode.enclosureUrl.value, filepath, transfer);
      if transfer != Complete {
        return false;
      }
      if "playlist" in settings {
        world.Append(settings["playlist"], filepath, playlistWriteOk);
      }
      return true;
    }
  }
}
