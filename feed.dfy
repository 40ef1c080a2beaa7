/**
 * The RSS side of `parse_rss_feed` and `_get_text`, over an already-parsed
 * document: a feed is the list of `item` elements `root.findall('.//item')`
 * returned, in document order.
 */
module Feed {
  import opened Wrappers
  import opened PyStr

  /** An XML element as ElementTree exposes it. */
  datatype Element = Element(tag: string, text: Option<string>, attrib: map<string, string>, children: seq<Element>)

  /**
   * What fetching and parsing a feed URL produced: the request failed (transport
   * error or error status), the body was not well-formed XML, or the items found.
   */
  datatype FeedResponse = RequestFailed | ParseFailed | Parsed(items: seq<Element>)

  /** The episode dict built for one item. */
  datatype Episode = Episode(
    title: string,
    description: string,
    pubDate: string,
    link: string,
    enclosureUrl: Option<string>,
    enclosureType: Option<string>,
    enclosureLength: Option<string>)

  /** The index of the first element tagged `tag`, or `|elements|` when there is none. */
  function FirstTagged(elements: seq<Element>, tag: string): (i: nat)
    ensures i <= |elements|
    ensures i < |elements| ==> elements[i].tag == tag
    ensures forall j :: 0 <= j < i ==> elements[j].tag != tag
    decreases |elements|
  {
    if elements == [] then 0
    else if elements[0].tag == tag then 0
    else 1 + FirstTagged(elements[1..], tag)
  }

  /** `element.find(tag)`: the first direct child with that tag, if any. */
  function Find(element: Element, tag: string): (child: Option<Element>)
    ensures child.None? <==> forall j :: 0 <= j < |element.children| ==> element.children[j].tag != tag
    ensures child.Some? ==> child.value.tag == tag && child.value in element.children
    // the child found is the first one with the tag: no earlier child has it
    ensures child.Some? ==>
              var i := FirstTagged(element.children, tag);
              && i < |element.children| && child.value == element.children[i]
              && forall j :: 0 <= j < i ==> element.children[j].tag != tag
  {
    var i := FirstTagged(element.children, tag);
    if i < |element.children| then Some(element.children[i]) else None
  }

  /** `element.get(name)`: an attribute's value, if present. */
  function Attr(element: Element, name: string): Option<string>
  {
    if name in element.attrib then Some(element.attrib[name]) else None
  }

  /**
   * `_get_text(element, tag)`: the stripped text of the first child with that tag;
   * `""` when there is no such child or it has no text.
   */
  function GetText(element: Element, tag: string): (text: string)
    ensures IsStripped(text)
    ensures Find(element, tag).None? ==> text == ""
    ensures Find(element, tag).Some? && Find(element, tag).value.text.None? ==> text == ""
    ensures Find(element, tag).Some? && Find(element, tag).value.text.Some? ==>
              text == Strip(Find(element, tag).value.text.value)
  {
    var child := Find(element, tag);
    if child.Some? && child.value.text.Some? && child.value.text.value != "" then Strip(child.value.text.value) else ""
  }

  /**
   * The episode dict built for one item: the four texts, and the enclosure's
   * `url`, `type` and `length` attributes when the item has an `enclosure` child.
   */
  function ParseItem(item: Element): (episode: Episode)
    ensures IsStripped(episode.title) && IsStripped(episode.description)
    ensures IsStripped(episode.pubDate) && IsStripped(episode.link)
    // each text is `_get_text` of its own child
    ensures episode.title == GetText(item, "title")
    ensures episode.description == GetText(item, "description")
    ensures episode.pubDate == GetText(item, "pubDate")
    ensures episode.link == GetText(item, "link")
    ensures Find(item, "enclosure").None? ==>
              episode.enclosureUrl.None? && episode.enclosureType.None? && episode.enclosureLength.None?
    ensures Find(item, "enclosure").Some? ==>
              var enclosure := Find(item, "enclosure").value;
              && episode.enclosureUrl == Attr(enclosure, "url")
              && episode.enclosureType == Attr(enclosure, "type")
              && episode.enclosureLength == Attr(enclosure, "length")
  {
    var episode := Episode(GetText(item, "title"), GetText(item, "description"),
                           GetText(item, "pubDate"), GetText(item, "link"), None, None, None);
    match Find(item, "enclosure")
    case None => episode
    case Some(enclosure) =>
      episode.(enclosureUrl := Attr(enclosure, "url"),
               enclosureType := Attr(enclosure, "type"),
               enclosureLength := Attr(enclosure, "length"))
  }

  /**
   * `len(items[:stop])` for a list of `n` items: Python slicing clamps `stop` to
   * the list, and a negative `stop` counts from the end.
   */
  function SliceLength(n: nat, stop: int): (len: nat)
    ensures len <= n
  {
    if 0 <= stop then (if stop < n then stop else n)
    else if n + stop > 0 then n + stop else 0
  }
}
