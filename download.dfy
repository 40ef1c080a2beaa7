/**
 * The decision `download_episode` takes before any transfer, shared by both
 * downloaders (podcast_downloader.py's older variant is the one with no force flag
 * and an empty dedup set), and the target path it computes.
 */
module Download {
  import opened Wrappers
  import opened Channels
  import opened Feed
  import opened Paths
  import opened Naming

  datatype Decision =
    | NoUrl            // no enclosure URL: fail
    | AlreadyRecorded  // the URL is in the dedup set: skip
    | AlreadyOnDisk    // the target file exists: skip (dirtyget.py records the URL)
    | Fetch(overwrite: bool)

  /** `not episode['enclosure_url']`: the URL is missing or empty. */
  predicate HasEnclosureUrl(episode: Episode)
  {
    episode.enclosureUrl.Some? && episode.enclosureUrl.value != ""
  }

  function Decide(episode: Episode, force: bool, downloaded: set<string>, pathExists: bool): (d: Decision)
    ensures d == NoUrl <==> !HasEnclosureUrl(episode)
    ensures d == AlreadyRecorded <==> HasEnclosureUrl(episode) && !force && episode.enclosureUrl.value in downloaded
    ensures d == AlreadyOnDisk ==> pathExists && !force
    ensures d.Fetch? ==> force || (episode.enclosureUrl.value !in downloaded && !pathExists)
    ensures d.Fetch? ==> d.overwrite == pathExists
    ensures force && HasEnclosureUrl(episode) ==> d.Fetch?
  {
    if !HasEnclosureUrl(episode) then NoUrl
    else if !force && episode.enclosureUrl.value in downloaded then AlreadyRecorded
    else if pathExists && !force then AlreadyOnDisk
    else Fetch(pathExists)
  }

  /** `Path(channel_config.get('spool', os.getcwd())) / filename`. */
  function TargetPath(episode: Episode, urlPath: string, channelName: string, settings: Settings, cwd: string): string
  {
    var spool := if "spool" in settings then settings["spool"] else cwd;
    JoinPath(spool, GenerateFilename(episode.title, urlPath, channelName, settings))
  }
}
