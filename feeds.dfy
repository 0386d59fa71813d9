/** Normalising a parsed feed item into an `Entry`. The thumbnail, the
    description and the publication date are each read by a list of
    strategies tried in a fixed order, the first one that finds a value
    winning. What each strategy reads from the raw item is outside the model:
    the strategies are parameters. */
module Feeds {
  import opened Wrappers

  /** A point in time, in milliseconds since the epoch (a valid `Date`). */
  type Instant = int

  /** The parsed item, reduced to the properties normalisation copies; the
      strategies read the rest. */
  datatype RawEntry = RawEntry(
    guid: Option<string>,
    title: Option<string>,
    link: Option<string>,
    creator: Option<string>,
    categories: Option<seq<string>>,
    contentSnippet: Option<string>,
    isoDate: Option<string>,
    pubDate: Option<string>,
    content: Option<string>,
    summary: Option<string>,
    extra: map<string, string>)

  /** The normalised entry. */
  datatype Entry = Entry(
    identifier: Option<string>,
    title: Option<string>,
    description: Option<string>,
    link: Option<string>,
    thumbnail: Option<string>,
    published: Option<Instant>,
    creator: Option<string>,
    categories: Option<seq<string>>,
    snippet: Option<string>)

  datatype Feed = Feed(
    title: Option<string>,
    link: Option<string>,
    description: Option<string>,
    entries: seq<Entry>)

  /** One way of reading a value from a raw item; `None` is `undefined`. */
  type Strategy<T> = RawEntry -> Option<T>

  /** The strategy modules' functions the helpers try. */
  datatype Strategies = Strategies(
    thumbnailFromEnclosure: Strategy<string>,
    thumbnailFromItunes: Strategy<string>,
    thumbnailFromMedia: Strategy<string>,
    thumbnailFromCustom: Strategy<string>,
    thumbnailFromContent: Strategy<string>,
    thumbnailFromSummary: Strategy<string>,
    descriptionFromSnippet: Strategy<string>,
    descriptionFromSummary: Strategy<string>,
    descriptionFromContent: Strategy<string>,
    publishedFromIso: Strategy<Instant>,
    publishedFromPub: Strategy<Instant>)

  /** `attempt`: the result of the first strategy, in list order, that finds
      a value; `undefined` when none does, and for an empty list. */
  function Attempt<T>(entry: RawEntry, strategies: seq<Strategy<T>>): (r: Option<T>)
    ensures r.Some? ==> exists i :: 0 <= i < |strategies| && strategies[i](entry) == r &&
                          forall j :: 0 <= j < i ==> strategies[j](entry).None?
    ensures r.None? <==> forall i :: 0 <= i < |strategies| ==> strategies[i](entry).None?
  {
    if strategies == [] then None
    else
      var result := strategies[0](entry);
      if result.Some? then result
      else
        var rest := Attempt(entry, strategies[1..]);
        assert forall i :: 1 <= i < |strategies| ==> strategies[i] == strategies[1..][i - 1];
        rest
  }

  /** The first hit is unique: any strategy that finds a value with nothing
      before it finding one decides the result. */
  lemma {:induction false} AttemptFirstHit<T>(entry: RawEntry, strategies: seq<Strategy<T>>, i: nat)
    requires i < |strategies| && strategies[i](entry).Some?
    requires forall j :: 0 <= j < i ==> strategies[j](entry).None?
    ensures Attempt(entry, strategies) == strategies[i](entry)
  {
    if i > 0 {
      assert strategies[0](entry).None?;
      AttemptFirstHit(entry, strategies[1..], i - 1);
    }
  }

  /** `thumbnail`: enclosure, then iTunes, media, custom fields, content and
      summary. */
  function Thumbnail(entry: RawEntry, s: Strategies): Option<string> {
    Attempt(entry, [s.thumbnailFromEnclosure, s.thumbnailFromItunes, s.thumbnailFromMedia,
                    s.thumbnailFromCustom, s.thumbnailFromContent, s.thumbnailFromSummary])
  }

  /** `description`: the snippet, then the summary, then the content. */
  function Description(entry: RawEntry, s: Strategies): Option<string> {
    Attempt(entry, [s.descriptionFromSnippet, s.descriptionFromSummary, s.descriptionFromContent])
  }

  /** `date`: `isoDate`, then `pubDate`. */
  function Date(entry: RawEntry, s: Strategies): Option<Instant> {
    Attempt(entry, [s.publishedFromIso, s.publishedFromPub])
  }

  /** The thumbnail's priority written out as a chain of `??`. */
  lemma ThumbnailPriority(entry: RawEntry, s: Strategies)
    ensures Thumbnail(entry, s) ==
      OrElse(s.thumbnailFromEnclosure(entry), OrElse(s.thumbnailFromItunes(entry),
      OrElse(s.thumbnailFromMedia(entry), OrElse(s.thumbnailFromCustom(entry),
      OrElse(s.thumbnailFromContent(entry), s.thumbnailFromSummary(entry))))))
  {
    var list := [s.thumbnailFromEnclosure, s.thumbnailFromItunes, s.thumbnailFromMedia,
                 s.thumbnailFromCustom, s.thumbnailFromContent, s.thumbnailFromSummary];
    if list[0](entry).Some? {
      AttemptFirstHit(entry, list, 0);
    } else if list[1](entry).Some? {
      AttemptFirstHit(entry, list, 1);
    } else if list[2](entry).Some? {
      AttemptFirstHit(entry, list, 2);
    } else if list[3](entry).Some? {
      AttemptFirstHit(entry, list, 3);
    } else if list[4](entry).Some? {
      AttemptFirstHit(entry, list, 4);
    } else if list[5](entry).Some? {
      AttemptFirstHit(entry, list, 5);
    }
  }

  /** The description's priority written out as a chain of `??`. */
  lemma DescriptionPriority(entry: RawEntry, s: Strategies)
    ensures Description(entry, s) ==
      OrElse(s.descriptionFromSnippet(entry), OrElse(s.descriptionFromSummary(entry), s.descriptionFromContent(entry)))
  {
    var list := [s.descriptionFromSnippet, s.descriptionFromSummary, s.descriptionFromContent];
    if list[0](entry).Some? {
      AttemptFirstHit(entry, list, 0);
    } else if list[1](entry).Some? {
      AttemptFirstHit(entry, list, 1);
    } else if list[2](entry).Some? {
      AttemptFirstHit(entry, list, 2);
    }
  }

  /** The date prefers `isoDate`, falls back to `pubDate`, and is undefined
      when neither strategy finds one. */
  lemma DatePriority(entry: RawEntry, s: Strategies)
    ensures Date(entry, s) == OrElse(s.publishedFromIso(entry), s.publishedFromPub(entry))
  {
    var list := [s.publishedFromIso, s.publishedFromPub];
    if list[0](entry).Some? {
      AttemptFirstHit(entry, list, 0);
    } else if list[1](entry).Some? {
      AttemptFirstHit(entry, list, 1);
    }
  }

  /** `normalize`: `guid` becomes the identifier and `contentSnippet` the
      snippet; title, link, creator and categories are copied as they are
      (absent stays absent); the rest comes from the strategy searches. */
  function Normalize(entry: RawEntry, s: Strategies): (r: Entry)
    ensures r.identifier == entry.guid && r.snippet == entry.contentSnippet
    ensures r.title == entry.title && r.link == entry.link
    ensures r.creator == entry.creator && r.categories == entry.categories
    ensures r.description ==
      OrElse(s.descriptionFromSnippet(entry), OrElse(s.descriptionFromSummary(entry), s.descriptionFromContent(entry)))
    ensures r.thumbnail ==
      OrElse(s.thumbnailFromEnclosure(entry), OrElse(s.thumbnailFromItunes(entry),
      OrElse(s.thumbnailFromMedia(entry), OrElse(s.thumbnailFromCustom(entry),
      OrElse(s.thumbnailFromContent(entry), s.thumbnailFromSummary(entry))))))
    ensures r.published == OrElse(s.publishedFromIso(entry), s.publishedFromPub(entry))
  {
    DescriptionPriority(entry, s);
    ThumbnailPriority(entry, s);
    DatePriority(entry, s);
    Entry(
      identifier := entry.guid,
      title := entry.title,
      description := Description(entry, s),
      link := entry.link,
      thumbnail := Thumbnail(entry, s),
      published := Date(entry, s),
      creator := entry.creator,
      categories := entry.categories,
      snippet := entry.contentSnippet)
  }
}
