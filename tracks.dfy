/** Turning the streaming service's raw track objects into the hub's track
    records (app.js parseTrack and parseTracks). */
module Tracks {
  import opened Values

  /** A raw album image; its `url` may be missing. */
  datatype Image = Image(url: Option<string>)

  /** A raw album: its name and its list of images (largest first) may be missing,
      and so may any entry of the list. */
  datatype Album = Album(name: Option<string>, images: Option<seq<Option<Image>>>)

  /** A raw track object as the service returns it. `artists` is passed on
      untouched, so its inner shape does not matter here. */
  datatype RawTrack = RawTrack(
    id: string,
    name: string,
    artists: seq<string>,
    durationMs: int,
    popularity: int,
    album: Option<Album>)

  datatype Artwork = Artwork(large: Option<string>, medium: Option<string>, small: Option<string>)

  /** The hub's track record (its constant `type: 'track'` is implied). */
  datatype Track = Track(
    id: string,
    title: string,
    artist: seq<string>,
    duration: int,
    artwork: Artwork,
    album: Option<string>,
    codecs: seq<string>,
    confidence: int)

  const TRACK_CODEC := "spotify:track:id"

  /** The url of the album's k-th image; none when the album, its image list,
      that entry or its url is missing. */
  function ImageUrl(album: Option<Album>, k: nat): Option<string> {
    var images := if album.Some? && album.value.images.Some? then album.value.images.value else [];
    if k < |images| && images[k].Some? then images[k].value.url else None
  }

  /** The album holds an image at position `k` whose url is `url`. */
  predicate HasImage(t: RawTrack, k: nat, url: string) {
    && t.album.Some?
    && t.album.value.images.Some?
    && k < |t.album.value.images.value|
    && t.album.value.images.value[k] == Some(Image(Some(url)))
  }

  /** The three artwork sizes in order large, medium, small. */
  function Slot(a: Artwork, k: nat): Option<string>
    requires k < 3
  {
    if k == 0 then a.large else if k == 1 then a.medium else a.small
  }

  /** parseTrack: the fields copied one to one, the first three album images as
      artwork, the album's name, the fixed codec list, and the popularity as
      confidence. */
  function ParseTrack(t: RawTrack): (r: Track)
    ensures r.id == t.id && r.title == t.name && r.artist == t.artists
    ensures r.duration == t.durationMs && r.confidence == t.popularity
    ensures r.codecs == [TRACK_CODEC]
    ensures r.album == (if t.album.Some? then t.album.value.name else None)
    ensures forall k, url :: 0 <= k < 3 && HasImage(t, k, url) ==> Slot(r.artwork, k) == Some(url)
    ensures t.album.None? ==> r.artwork == Artwork(None, None, None)
    ensures forall k :: 0 <= k < 3 && Slot(r.artwork, k).Some? ==> HasImage(t, k, Slot(r.artwork, k).value)
  {
    Track(
      t.id,
      t.name,
      t.artists,
      t.durationMs,
      Artwork(ImageUrl(t.album, 0), ImageUrl(t.album, 1), ImageUrl(t.album, 2)),
      if t.album.Some? then t.album.value.name else None,
      [TRACK_CODEC],
      t.popularity)
  }

  /** The entries that are not null, in their original order. */
  function Present(tracks: seq<Option<RawTrack>>): (r: seq<RawTrack>)
    ensures |r| <= |tracks|
  {
    if tracks == [] then []
    else (if tracks[0].Some? then [tracks[0].value] else []) + Present(tracks[1..])
  }

  /** The filter keeps every entry that is not null exactly as often as it
      occurs, and nothing else. */
  lemma {:induction false} PresentCounts(tracks: seq<Option<RawTrack>>)
    ensures forall t :: multiset(Present(tracks))[t] == multiset(tracks)[Some(t)]
  {
    if tracks != [] {
      assert tracks == [tracks[0]] + tracks[1..];
      PresentCounts(tracks[1..]);
    }
  }

  /** Filtering distributes over concatenation (pages are filtered one by one). */
  lemma {:induction false} PresentConcat(a: seq<Option<RawTrack>>, b: seq<Option<RawTrack>>)
    ensures Present(a + b) == Present(a) + Present(b)
  {
    if a == [] {
      assert a + b == b;
    } else {
      var head := if a[0].Some? then [a[0].value] else [];
      assert (a + b)[0] == a[0];
      assert (a + b)[1..] == a[1..] + b;
      assert Present(a + b) == head + Present(a[1..] + b);
      PresentConcat(a[1..], b);
      assert Present(a) == head + Present(a[1..]);
    }
  }

  /** The JavaScript engine's `sort`: it returns the same elements, each as
      often, in an order the engine chooses. */
  ghost predicate IsReordering(reorder: seq<RawTrack> -> seq<RawTrack>) {
    forall s :: multiset(reorder(s)) == multiset(s)
  }

  /** parseTracks. An absent list gives no tracks. Otherwise every entry that
      is not null is parsed exactly once and nothing else is in the result,
      in the order the engine's sort leaves them (the comparator returns a
      boolean, so no order is promised). */
  function ParseTracks(tracks: Option<seq<Option<RawTrack>>>, reorder: seq<RawTrack> -> seq<RawTrack>): (r: seq<Track>)
    requires IsReordering(reorder)
    ensures tracks.None? ==> r == []
    ensures tracks.Some? ==> multiset(r) == multiset(Map(ParseTrack, Present(tracks.value)))
    ensures tracks.Some? ==> |r| == |Present(tracks.value)|
    ensures forall t :: tracks.Some? && Some(t) in tracks.value ==> ParseTrack(t) in r
  {
    if tracks.None? then []
    else
      ParsedEntries(tracks.value, reorder);
      Map(ParseTrack, reorder(Present(tracks.value)))
  }

  /** What ParseTracks promises about a list that is present. */
  lemma ParsedEntries(tracks: seq<Option<RawTrack>>, reorder: seq<RawTrack> -> seq<RawTrack>)
    requires IsReordering(reorder)
    ensures var parsed := Map(ParseTrack, reorder(Present(tracks)));
      && multiset(parsed) == multiset(Map(ParseTrack, Present(tracks)))
      && forall t :: Some(t) in tracks ==> ParseTrack(t) in parsed
  {
    var present := Present(tracks);
    var sorted := reorder(present);
    MapPermutation(ParseTrack, present, sorted);
    PresentCounts(tracks);
    forall t | Some(t) in tracks
      ensures ParseTrack(t) in multiset(Map(ParseTrack, present))
    {
      assert multiset(present)[t] > 0;
      var i :| 0 <= i < |present| && present[i] == t;
      assert Map(ParseTrack, present)[i] == ParseTrack(t);
    }
  }

  /** A list without null entries, in the order the engine leaves it, parses
      entry by entry. */
  lemma ParseTracksInOrder(tracks: seq<RawTrack>, reorder: seq<RawTrack> -> seq<RawTrack>)
    requires IsReordering(reorder)
    requires reorder(tracks) == tracks
    ensures ParseTracks(Some(Map(t => Some(t), tracks)), reorder) == Map(ParseTrack, tracks)
  {
    PresentOfSome(tracks);
  }

  lemma {:induction false} PresentOfSome(tracks: seq<RawTrack>)
    ensures Present(Map(t => Some(t), tracks)) == tracks
  {
    if tracks != [] {
      assert Map(t => Some(t), tracks)[1..] == Map(t => Some(t), tracks[1..]);
      PresentOfSome(tracks[1..]);
    }
  }
}
