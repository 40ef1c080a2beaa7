/**
 * Channel configuration layering (`PodcastDownloader.get_channels`, identical in
 * dirtyget.py and podcast_downloader.py). The configuration is the ordered list
 * of INI sections that configparser read; the optional section named `*` holds
 * defaults, every other section is a channel whose own keys override them, and a
 * channel that ends up without a `url` key is dropped.
 */
module Channels {

  type Settings = map<string, string>

  /** One INI section as configparser gives it: its name and its key/value pairs. */
  datatype Section = Section(name: string, settings: Settings)

  /** One entry of the returned `channels` dict, in insertion order. */
  datatype Channel = Channel(name: string, settings: Settings)

  /** The name of the section of global defaults. */
  const GlobalSection := "*"

  /**
   * `dict(self.config['*'])` when a `*` section exists, else `{}`.
   * configparser keeps section names unique, so the first `*` section is the one.
   */
  function Globals(sections: seq<Section>): (g: Settings)
    ensures (forall j :: 0 <= j < |sections| ==> sections[j].name != GlobalSection) ==> g == map[]
    ensures forall j :: 0 <= j < |sections| && sections[j].name == GlobalSection
                        && (forall i :: 0 <= i < j ==> sections[i].name != GlobalSection)
                        ==> g == sections[j].settings
  {
    if sections == [] then map[]
    else if sections[0].name == GlobalSection then sections[0].settings
    else Globals(sections[1..])
  }

  /**
   * `d = dict(globals); d.update(own)`: every key of either map, with the
   * section's own value winning.
   */
  function Merge(globals: Settings, own: Settings): (m: Settings)
    ensures m.Keys == globals.Keys + own.Keys
    ensures forall k :: k in own ==> m[k] == own[k]
    ensures forall k :: k in globals && k !in own ==> m[k] == globals[k]
  {
    globals + own
  }

  /** What one section contributes to the channel list. */
  function Contribution(globals: Settings, section: Section): seq<Channel>
  {
    if section.name == GlobalSection then []
    else
      var merged := Merge(globals, section.settings);
      if "url" in merged then [Channel(section.name, merged)] else []
  }

  /** The channels the sections yield, in section order, over the given defaults. */
  function Overlay(globals: Settings, sections: seq<Section>): (channels: seq<Channel>)
    ensures |channels| <= |sections|
    ensures forall c :: c in channels ==> c.name != GlobalSection && "url" in c.settings
  {
    if sections == [] then []
    else Overlay(globals, sections[..|sections| - 1]) + Contribution(globals, sections[|sections| - 1])
  }

  /** The value `get_channels()` returns. */
  function Layered(sections: seq<Section>): seq<Channel>
  {
    Overlay(Globals(sections), sections)
  }

  /** Channels of earlier sections come before those of later ones. */
  lemma {:induction false} OverlayAppend(globals: Settings, a: seq<Section>, b: seq<Section>)
    ensures Overlay(globals, a + b) == Overlay(globals, a) + Overlay(globals, b)
    decreases |b|
  {
    if b == [] {
      assert a + b == a;
    } else {
      var b' := b[..|b| - 1];
      assert (a + b)[..|a + b| - 1] == a + b';
      OverlayAppend(globals, a, b');
    }
  }

  /** Every channel is some non-`*` section's settings laid over the defaults. */
  lemma {:induction false} ChannelFromSection(globals: Settings, sections: seq<Section>, i: nat)
    requires i < |Overlay(globals, sections)|
    ensures exists j :: 0 <= j < |sections| && sections[j].name != GlobalSection
                        && Overlay(globals, sections)[i] == Channel(sections[j].name, Merge(globals, sections[j].settings))
    decreases |sections|
  {
    var init := sections[..|sections| - 1];
    var last := sections[|sections| - 1];
    if i < |Overlay(globals, init)| {
      ChannelFromSection(globals, init, i);
      var j :| 0 <= j < |init| && init[j].name != GlobalSection
               && Overlay(globals, init)[i] == Channel(init[j].name, Merge(globals, init[j].settings));
      assert sections[j] == init[j];
    } else {
      assert Overlay(globals, sections)[i] == Contribution(globals, last)[0];
      assert sections[|sections| - 1] == last;
    }
  }

  /** Every non-`*` section whose layered settings have a `url` is a channel. */
  lemma {:induction false} SectionBecomesChannel(globals: Settings, sections: seq<Section>, j: nat)
    requires j < |sections| && sections[j].name != GlobalSection
    requires "url" in Merge(globals, sections[j].settings)
    ensures Channel(sections[j].name, Merge(globals, sections[j].settings)) in Overlay(globals, sections)
    decreases |sections|
  {
    if j < |sections| - 1 {
      var init := sections[..|sections| - 1];
      assert init[j] == sections[j];
      SectionBecomesChannel(globals, init, j);
    }
  }

  /**
   * The loop of `get_channels`: skip the `*` section, lay each other section over
   * the defaults, skip it when there is no `url`, and append it otherwise.
   */
  method CollectChannels(sections: seq<Section>) returns (channels: seq<Channel>)
    ensures channels == Layered(sections)
  {
    var globalConfig: Settings := Globals(sections);
    channels := [];
    for i := 0 to |sections|
      invariant channels == Overlay(globalConfig, sections[..i])
    {
      assert sections[..i + 1][..i] == sections[..i];
      var section := sections[i];
      if section.name == GlobalSection {
        continue;
      }
      var channelConfig := globalConfig;
      channelConfig := channelConfig + section.settings;
      if "url" !in channelConfig {
        continue;
      }
      channels := channels + [Channel(section.name, channelConfig)];
    }
    assert sections[..|sections|] == sections;
  }
}
