/**
 * The tag decisions of `_set_metadata_tags` in dirtyget.py. The audio file's tags
 * are a map from frame or field name to text; the `.mp3` branch uses ID3 frame
 * names, the branch for other containers generic field names and no comment.
 */
module Tagging {
  import opened Wrappers
  import opened PyStr
  import opened Channels
  import opened Paths

  type TagMap = map<string, string>

  datatype Dialect = Id3 | Generic

  /** `filepath.suffix.lower() == '.mp3'` selects the ID3 branch. */
  function DialectOf(filepath: string): (d: Dialect)
    ensures d == Id3 <==>
              var suffix := PathSuffix(filepath);
              && |suffix| == 4 && suffix[0] == '.'
              && (suffix[1] == 'm' || suffix[1] == 'M')
              && (suffix[2] == 'p' || suffix[2] == 'P')
              && suffix[3] == '3'
  {
    var suffix := PathSuffix(filepath);
    LowersToMp3(suffix);
    if LowerString(suffix) == ".mp3" then Id3 else Generic
  }

  /** `s.lower() == '.mp3'` accepts `.mp3` in any letter case and nothing else. */
  lemma LowersToMp3(s: string)
    ensures LowerString(s) == ".mp3" <==>
              && |s| == 4 && s[0] == '.'
              && (s[1] == 'm' || s[1] == 'M')
              && (s[2] == 'p' || s[2] == 'P')
              && s[3] == '3'
  {
  }

  function TitleKey(d: Dialect): string { if d == Id3 then "TIT2" else "TITLE" }
  function ArtistKey(d: Dialect): string { if d == Id3 then "TPE1" else "ARTIST" }
  function AlbumKey(d: Dialect): string { if d == Id3 then "TALB" else "ALBUM" }
  function GenreKey(d: Dialect): string { if d == Id3 then "TCON" else "GENRE" }
  const CommentKey := "COMM"

  /** The tag names the tagger may write in a dialect. */
  function ManagedKeys(d: Dialect): set<string>
  {
    {TitleKey(d), ArtistKey(d), AlbumKey(d), GenreKey(d)} + (if d == Id3 then {CommentKey} else {})
  }

  /** `channel_config.get('artist_tag', channel_name.title())`. */
  function DefaultArtist(channelName: string, settings: Settings): string
  {
    if "artist_tag" in settings then settings["artist_tag"] else TitleCase(channelName)
  }

  /** The configured genre: `genre_tag` first, then `genre`. */
  function ConfiguredGenre(settings: Settings): (genre: Option<string>)
    ensures "genre_tag" in settings ==> genre == Some(settings["genre_tag"])
    ensures "genre_tag" !in settings && "genre" in settings ==> genre == Some(settings["genre"])
    ensures "genre_tag" !in settings && "genre" !in settings ==> genre == None
  {
    if "genre_tag" in settings then Some(settings["genre_tag"])
    else if "genre" in settings then Some(settings["genre"])
    else None
  }

  /** `key` has the same value, or is absent, in both tag sets. */
  predicate Unchanged(before: TagMap, after: TagMap, key: string)
  {
    (key in before <==> key in after) && (key in before ==> before[key] == after[key])
  }

  /** Sets `key` to `value` when `value` is present, and leaves `tags` alone otherwise. */
  function SetIfConfigured(tags: TagMap, key: string, value: Option<string>): TagMap
  {
    if value.Some? then tags[key := value.value] else tags
  }

  /**
   * The tags after `_set_metadata_tags` has filled them in; `TagRules` states what
   * that means.
   */
  function ApplyTagRules(tags: TagMap, d: Dialect, title: string, channelName: string, settings: Settings): TagMap
  {
    var withTitle := if TitleKey(d) in tags then tags else tags[TitleKey(d) := title];
    var withArtist := if ArtistKey(d) in withTitle then withTitle
                      else withTitle[ArtistKey(d) := DefaultArtist(channelName, settings)];
    var withAlbum := if "album_tag" in settings then withArtist[AlbumKey(d) := settings["album_tag"]] else withArtist;
    var withGenre := SetIfConfigured(withAlbum, GenreKey(d), ConfiguredGenre(settings));
    if d == Id3 && "comment_tag" in settings then withGenre[CommentKey := settings["comment_tag"]] else withGenre
  }

  /**
   * The tagging rules: title and artist only when absent, album, genre and (ID3
   * only) comment whenever configured, and nothing else touched.
   */
  lemma TagRules(tags: TagMap, d: Dialect, title: string, channelName: string, settings: Settings)
    ensures var r := ApplyTagRules(tags, d, title, channelName, settings);
            // an existing title or artist is never overwritten; a missing one is filled in
            && TitleKey(d) in r && ArtistKey(d) in r
            && r[TitleKey(d)] == (if TitleKey(d) in tags then tags[TitleKey(d)] else title)
            && r[ArtistKey(d)] == (if ArtistKey(d) in tags then tags[ArtistKey(d)] else DefaultArtist(channelName, settings))
            // album, genre and comment come from the configuration and only from it
            && ("album_tag" in settings ==> AlbumKey(d) in r && r[AlbumKey(d)] == settings["album_tag"])
            && ("album_tag" !in settings ==> Unchanged(tags, r, AlbumKey(d)))
            && (ConfiguredGenre(settings).Some? ==> GenreKey(d) in r && r[GenreKey(d)] == ConfiguredGenre(settings).value)
            && (ConfiguredGenre(settings).None? ==> Unchanged(tags, r, GenreKey(d)))
            && (d == Id3 && "comment_tag" in settings ==> CommentKey in r && r[CommentKey] == settings["comment_tag"])
            && (d == Id3 && "comment_tag" !in settings ==> Unchanged(tags, r, CommentKey))
            // every other tag is left as it was
            && (forall k :: k !in ManagedKeys(d) ==> Unchanged(tags, r, k))
            && r.Keys <= tags.Keys + ManagedKeys(d)
  {
  }
}
