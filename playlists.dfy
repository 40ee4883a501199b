/** What the app builds from the account's playlists (app.js getPlayList,
    getPlayLists and the track pagination under them), as functions of what
    the service holds. */
module Playlists {
  import opened Values
  import opened Tracks
  import opened Paging

  /** An entry of the account's playlist listing. */
  datatype PlaylistSummary = PlaylistSummary(id: string, name: string, ownerId: string)

  /** An entry of a playlist's track list; its `track` is null for tracks the
      service no longer has. */
  datatype PlaylistItem = PlaylistItem(track: Option<RawTrack>)

  /** A playlist's metadata as the service returns it, with its track items. */
  datatype PlaylistDetails = PlaylistDetails(id: string, name: string, items: seq<PlaylistItem>)

  /** The requests behind a listing and a playlist: a page of the listing,
      a playlist's metadata, a page of its tracks (each page by its offset). */
  datatype PlaylistCall =
    | ListingPage(offset: nat)
    | Metadata(owner: Option<string>, id: string)
    | TrackPage(owner: Option<string>, id: string, offset: nat)

  /** What the service holds for the account: its playlist listing, the
      playlists it serves keyed by owner and playlist id (a key it does not
      hold is answered as not found), and the requests it refuses, with the
      error each is rejected with. */
  datatype Account = Account(
    listing: seq<PlaylistSummary>,
    details: map<(string, string), PlaylistDetails>,
    refused: map<PlaylistCall, Error>)

  /** The listing request for each page offset. */
  function ListingRequest(): (request: nat -> PlaylistCall)
    ensures forall offset :: request(offset) == ListingPage(offset)
  {
    (offset: nat) => ListingPage(offset)
  }

  /** The track-page request of one playlist for each page offset. */
  function TrackRequest(owner: Option<string>, id: string): (request: nat -> PlaylistCall)
    ensures forall offset :: request(offset) == TrackPage(owner, id, offset)
  {
    (offset: nat) => TrackPage(owner, id, offset)
  }

  /** The service holds the playlist `id` under `owner`. */
  predicate Held(account: Account, owner: Option<string>, id: string) {
    owner.Some? && (owner.value, id) in account.details
  }

  /** The hub's playlist record (its constant `type: 'playlist'` is implied). */
  datatype Playlist = Playlist(id: string, title: string, tracks: seq<Track>)

  /** The status the service answers an unknown playlist with. */
  const NOT_FOUND: int := 404

  function TrackOf(item: PlaylistItem): Option<RawTrack> {
    item.track
  }

  /** One page of tracks: parseTracks over the page items' track fields. */
  function ParsePage(page: Page<PlaylistItem>, reorder: seq<RawTrack> -> seq<RawTrack>): seq<Track>
    requires IsReordering(reorder)
  {
    ParseTracks(Some(Map(TrackOf, page.items)), reorder)
  }

  /** The parsed pages concatenated along the chain of track pages. */
  function ParsePages(pages: seq<Page<PlaylistItem>>, reorder: seq<RawTrack> -> seq<RawTrack>): seq<Track>
    requires IsReordering(reorder)
  {
    if pages == [] then [] else ParsePage(pages[0], reorder) + ParsePages(pages[1..], reorder)
  }

  /** Parsing page by page keeps exactly the tracks that are not null, each
      once, whatever order the sort leaves within a page. */
  lemma {:induction false} ParsePagesMultiset(pages: seq<Page<PlaylistItem>>, reorder: seq<RawTrack> -> seq<RawTrack>)
    requires IsReordering(reorder)
    ensures multiset(ParsePages(pages, reorder)) == multiset(Map(ParseTrack, Present(Map(TrackOf, Concat(pages)))))
  {
    if pages != [] {
      var head, tail := pages[0].items, Concat(pages[1..]);
      ParsePagesMultiset(pages[1..], reorder);
      MapConcat(TrackOf, head, tail);
      PresentConcat(Map(TrackOf, head), Map(TrackOf, tail));
      MapConcat(ParseTrack, Present(Map(TrackOf, head)), Present(Map(TrackOf, tail)));
    }
  }

  /** Parsing page by page keeps one track per item that is not null. */
  lemma ParsedCount(items: seq<PlaylistItem>, reorder: seq<RawTrack> -> seq<RawTrack>)
    requires IsReordering(reorder)
    ensures |ParsePages(Pages(items, 0, TRACK_PAGE_LIMIT), reorder)| == |Present(Map(TrackOf, items))|
  {
    var pages := Pages(items, 0, TRACK_PAGE_LIMIT);
    PagesCoverAll(items, TRACK_PAGE_LIMIT);
    ParsePagesMultiset(pages, reorder);
    var parsed := Map(ParseTrack, Present(Map(TrackOf, Concat(pages))));
    assert |multiset(ParsePages(pages, reorder))| == |multiset(parsed)|;
  }

  /** getPlayListEntriesRecursive from the first page: the parsed tracks of
      each page of 100, page after page. */
  function PlayListEntries(items: seq<PlaylistItem>, reorder: seq<RawTrack> -> seq<RawTrack>): (tracks: seq<Track>)
    requires IsReordering(reorder)
    ensures |tracks| == |Present(Map(TrackOf, items))|
  {
    ParsedCount(items, reorder);
    ParsePages(Pages(items, 0, TRACK_PAGE_LIMIT), reorder)
  }

  /** Every track of the playlist that is not null, parsed, exactly once. */
  lemma PlayListEntriesSpec(items: seq<PlaylistItem>, reorder: seq<RawTrack> -> seq<RawTrack>)
    requires IsReordering(reorder)
    ensures multiset(PlayListEntries(items, reorder)) == multiset(Map(ParseTrack, Present(Map(TrackOf, items))))
  {
    PagesCoverAll(items, TRACK_PAGE_LIMIT);
    ParsePagesMultiset(Pages(items, 0, TRACK_PAGE_LIMIT), reorder);
  }

  /** getPlayListsRecursive from offset 0: the listing page by page, or the
      error of the first listing page the service refuses. */
  function FetchListing(account: Account): (r: Result<seq<PlaylistSummary>, Error>)
    ensures r.Ok? ==> r.value == account.listing
  {
    var pages := Pages(account.listing, 0, PLAYLIST_PAGE_LIMIT);
    var k := FirstRefused(pages, ListingRequest(), account.refused);
    if k < |pages| then Err(account.refused[ListingPage(pages[k].offset)])
    else PagesCoverAll(account.listing, PLAYLIST_PAGE_LIMIT); Ok(Concat(pages))
  }

  /** The listing arrives whole exactly when the service refuses none of the
      requests at offsets 0, 50, 100, ... that the chain makes; otherwise
      the error is that of the first refused one. */
  lemma FetchListingSpec(account: Account)
    ensures var r, n := FetchListing(account), |Pages(account.listing, 0, PLAYLIST_PAGE_LIMIT)|;
      && (r.Ok? <==> forall j :: 0 <= j < n ==> ListingPage(j * PLAYLIST_PAGE_LIMIT) !in account.refused)
      && (r.Err? ==> exists k ::
            && 0 <= k < n
            && ListingPage(k * PLAYLIST_PAGE_LIMIT) in account.refused
            && r.error == account.refused[ListingPage(k * PLAYLIST_PAGE_LIMIT)]
            && forall j :: 0 <= j < k ==> ListingPage(j * PLAYLIST_PAGE_LIMIT) !in account.refused)
  {
    var pages := Pages(account.listing, 0, PLAYLIST_PAGE_LIMIT);
    var k := FirstRefused(pages, ListingRequest(), account.refused);
    FirstRefusedOffsets(account.listing, PLAYLIST_PAGE_LIMIT, ListingRequest(), account.refused);
    PagesOffsets(account.listing, 0, PLAYLIST_PAGE_LIMIT);
    if k < |pages| {
      assert pages[k].offset == k * PLAYLIST_PAGE_LIMIT;
    }
  }

  /** getPlayListEntriesRecursive from offset 0: the parsed tracks page by
      page, or the error of the first track page the service refuses; a
      playlist the service does not hold is not found. */
  function PlaylistTracks(account: Account, owner: Option<string>, id: string, reorder: seq<RawTrack> -> seq<RawTrack>): (r: Result<seq<Track>, Error>)
    requires IsReordering(reorder)
    ensures !Held(account, owner, id) ==> r == Err(Upstream(NOT_FOUND))
  {
    if !Held(account, owner, id) then Err(Upstream(NOT_FOUND))
    else
      var pages := Pages(account.details[(owner.value, id)].items, 0, TRACK_PAGE_LIMIT);
      var k := FirstRefused(pages, TrackRequest(owner, id), account.refused);
      if k < |pages| then Err(account.refused[TrackPage(owner, id, pages[k].offset)])
      else Ok(PlayListEntries(account.details[(owner.value, id)].items, reorder))
  }

  /** getPlayList(id) once getPlaylistOwner(id) gave `owner`: the metadata and
      the tracks of the playlist the service holds under that owner, as
      `{id, title: name, tracks}`. Both requests go out together; the
      metadata is asked for first, so its failure is the one reported: the
      refusal it meets, or not found for a playlist the service does not
      hold; after it, the tracks' failure. */
  function FetchPlaylist(account: Account, owner: Option<string>, id: string, reorder: seq<RawTrack> -> seq<RawTrack>): (r: Result<Playlist, Error>)
    requires IsReordering(reorder)
    ensures r.Ok? ==> Held(account, owner, id) && Metadata(owner, id) !in account.refused
    ensures r.Ok? ==> r.value.id == account.details[(owner.value, id)].id && r.value.title == account.details[(owner.value, id)].name
    ensures Metadata(owner, id) in account.refused ==> r == Err(account.refused[Metadata(owner, id)])
    ensures Metadata(owner, id) !in account.refused && !Held(account, owner, id) ==> r == Err(Upstream(NOT_FOUND))
  {
    var metadata :=
      if Metadata(owner, id) in account.refused then Err(account.refused[Metadata(owner, id)])
      else if Held(account, owner, id) then Ok(account.details[(owner.value, id)])
      else Err(Upstream(NOT_FOUND));
    match metadata
    case Err(e) => Err(e)
    case Ok(d) =>
      match PlaylistTracks(account, owner, id, reorder)
      case Err(e) => Err(e)
      case Ok(tracks) => Ok(Playlist(d.id, d.name, tracks))
  }

  /** The service serves the playlist whole: it holds it, and refuses neither
      its metadata nor any of the track pages at offsets 0, 100, 200, ...
      that the chain requests. */
  predicate Served(account: Account, owner: Option<string>, id: string) {
    && Held(account, owner, id)
    && Metadata(owner, id) !in account.refused
    && forall j :: 0 <= j < |Pages(account.details[(owner.value, id)].items, 0, TRACK_PAGE_LIMIT)| ==>
         TrackPage(owner, id, j * TRACK_PAGE_LIMIT) !in account.refused
  }

  /** getPlayList succeeds exactly when the playlist is served whole. When
      the service holds the playlist and gives its metadata, a failure is the
      error of the first track page it refuses. */
  lemma FetchPlaylistSpec(account: Account, owner: Option<string>, id: string, reorder: seq<RawTrack> -> seq<RawTrack>)
    requires IsReordering(reorder)
    ensures var r := FetchPlaylist(account, owner, id, reorder);
      && (r.Ok? <==> Served(account, owner, id))
      && (r.Err? && Held(account, owner, id) && Metadata(owner, id) !in account.refused ==>
            exists k :: 0 <= k < |Pages(account.details[(owner.value, id)].items, 0, TRACK_PAGE_LIMIT)|
              && TrackPage(owner, id, k * TRACK_PAGE_LIMIT) in account.refused
              && r.error == account.refused[TrackPage(owner, id, k * TRACK_PAGE_LIMIT)]
              && forall j :: 0 <= j < k ==> TrackPage(owner, id, j * TRACK_PAGE_LIMIT) !in account.refused)
  {
    if Held(account, owner, id) {
      var items := account.details[(owner.value, id)].items;
      var pages := Pages(items, 0, TRACK_PAGE_LIMIT);
      var k := FirstRefused(pages, TrackRequest(owner, id), account.refused);
      FirstRefusedOffsets(items, TRACK_PAGE_LIMIT, TrackRequest(owner, id), account.refused);
      PagesOffsets(items, 0, TRACK_PAGE_LIMIT);
      if k < |pages| {
        assert pages[k].offset == k * TRACK_PAGE_LIMIT;
      }
    }
  }

  /** A fetched playlist holds every track of the service's playlist that is
      not null, parsed, exactly once. */
  lemma FetchPlaylistTracks(account: Account, owner: Option<string>, id: string, reorder: seq<RawTrack> -> seq<RawTrack>)
    requires IsReordering(reorder)
    ensures var r := FetchPlaylist(account, owner, id, reorder);
      r.Ok? ==> multiset(r.value.tracks) == multiset(Map(ParseTrack, Present(Map(TrackOf, account.details[(owner.value, id)].items))))
  {
    if Held(account, owner, id) {
      var items := account.details[(owner.value, id)].items;
      PlayListEntriesSpec(items, reorder);
    }
  }

  /** The fetch of one listing entry, with the owner the listing gives it. */
  function FetchEntry(account: Account, e: PlaylistSummary, reorder: seq<RawTrack> -> seq<RawTrack>): Result<Playlist, Error>
    requires IsReordering(reorder)
  {
    FetchPlaylist(account, Some(e.ownerId), e.id, reorder)
  }

  /** The fetches getPlayLists starts for the listing `entries`, in listing
      order, each with the owner the listing gives it. */
  function FetchAll(account: Account, entries: seq<PlaylistSummary>, reorder: seq<RawTrack> -> seq<RawTrack>): (rs: seq<Result<Playlist, Error>>)
    requires IsReordering(reorder)
    ensures |rs| == |entries|
    decreases |entries|
  {
    if entries == [] then []
    else FetchAll(account, entries[..|entries| - 1], reorder) + [FetchEntry(account, entries[|entries| - 1], reorder)]
  }

  /** Fetch i is the i-th listed playlist, under the owner the listing gives it. */
  lemma {:induction false} FetchAllSpec(account: Account, entries: seq<PlaylistSummary>, reorder: seq<RawTrack> -> seq<RawTrack>)
    requires IsReordering(reorder)
    ensures var rs := FetchAll(account, entries, reorder);
      forall i :: 0 <= i < |entries| ==> rs[i] == FetchEntry(account, entries[i], reorder)
    decreases |entries|
  {
    if entries != [] {
      var front := entries[..|entries| - 1];
      var rs, head := FetchAll(account, entries, reorder), FetchAll(account, front, reorder);
      assert rs == head + [FetchEntry(account, entries[|entries| - 1], reorder)];
      FetchAllSpec(account, front, reorder);
      forall i | 0 <= i < |front|
        ensures rs[i] == FetchEntry(account, entries[i], reorder)
      {
        assert rs[i] == head[i] && front[i] == entries[i];
      }
    }
  }

  /** getPlayLists: the listing, then every listed playlist fetched with the
      owner the listing gives it; the listing's error, or the first failing
      fetch in listing order, fails the whole. */
  function ListPlaylists(account: Account, reorder: seq<RawTrack> -> seq<RawTrack>): (r: Result<seq<Playlist>, Error>)
    requires IsReordering(reorder)
    ensures FetchListing(account).Err? ==> r == Err(FetchListing(account).error)
    ensures r.Ok? ==> FetchListing(account).Ok? && |r.value| == |account.listing|
  {
    match FetchListing(account)
    case Err(e) => Err(e)
    case Ok(entries) => Collect(FetchAll(account, entries, reorder))
  }

  /** `p` is the playlist the listing entry `e` names, as the service holds
      it: its id, its name as title, and every track that is not null,
      parsed, exactly once. */
  ghost predicate Delivers(account: Account, e: PlaylistSummary, p: Playlist) {
    && (e.ownerId, e.id) in account.details
    && var d := account.details[(e.ownerId, e.id)];
       && p.id == d.id && p.title == d.name
       && multiset(p.tracks) == multiset(Map(ParseTrack, Present(Map(TrackOf, d.items))))
  }

  /** Once the listing arrives, the result is complete exactly when the
      service serves every listed playlist whole under its listed owner, and
      then position i is the i-th listed playlist with its metadata and its
      tracks. */
  lemma ListPlaylistsSpec(account: Account, reorder: seq<RawTrack> -> seq<RawTrack>)
    requires IsReordering(reorder) && FetchListing(account).Ok?
    ensures var entries, r := account.listing, ListPlaylists(account, reorder);
      && (r.Ok? <==> forall i :: 0 <= i < |entries| ==> Served(account, Some(entries[i].ownerId), entries[i].id))
      && (r.Ok? ==> forall i :: 0 <= i < |entries| ==> Delivers(account, entries[i], r.value[i]))
  {
    var entries := account.listing;
    var rs := FetchAll(account, entries, reorder);
    assert ListPlaylists(account, reorder) == Collect(rs);
    FetchAllSpec(account, entries, reorder);
    CollectSpec(rs);
    forall i | 0 <= i < |entries|
      ensures rs[i].Ok? <==> Served(account, Some(entries[i].ownerId), entries[i].id)
      ensures rs[i].Ok? ==> Delivers(account, entries[i], rs[i].value)
    {
      FetchPlaylistTracks(account, Some(entries[i].ownerId), entries[i].id, reorder);
      FetchPlaylistSpec(account, Some(entries[i].ownerId), entries[i].id, reorder);
    }
  }

  /** Once the listing arrives, a failure is that of the first listed
      playlist the service does not serve whole. */
  lemma ListPlaylistsFailure(account: Account, reorder: seq<RawTrack> -> seq<RawTrack>)
    requires IsReordering(reorder) && FetchListing(account).Ok?
    ensures var entries, r := account.listing, ListPlaylists(account, reorder);
      r.Err? ==> exists i ::
        && 0 <= i < |entries|
        && !Served(account, Some(entries[i].ownerId), entries[i].id)
        && FetchPlaylist(account, Some(entries[i].ownerId), entries[i].id, reorder) == Err(r.error)
        && forall j :: 0 <= j < i ==> Served(account, Some(entries[j].ownerId), entries[j].id)
  {
    var entries := account.listing;
    var rs := FetchAll(account, entries, reorder);
    assert ListPlaylists(account, reorder) == Collect(rs);
    FetchAllSpec(account, entries, reorder);
    CollectSpec(rs);
    if Collect(rs).Err? {
      var i :| FirstFailure(rs, i, Collect(rs).error);
      FetchPlaylistSpec(account, Some(entries[i].ownerId), entries[i].id, reorder);
      forall j | 0 <= j < i ensures Served(account, Some(entries[j].ownerId), entries[j].id) {
        assert rs[j].Ok?;
        FetchPlaylistSpec(account, Some(entries[j].ownerId), entries[j].id, reorder);
      }
    }
  }

  /** setPlaylistOwner for every listed entry (its id mapped to its owner's
      id), in listing order. */
  function RecordOwners(owners: map<string, string>, entries: seq<PlaylistSummary>): (m: map<string, string>)
    ensures owners.Keys <= m.Keys
    decreases |entries|
  {
    if entries == [] then owners
    else
      var last := entries[|entries| - 1];
      RecordOwners(owners, entries[..|entries| - 1])[last.id := last.ownerId]
  }

  /** Every listed id gets the owner of its last entry in the listing; ids
      the listing does not mention keep the owner they had. */
  lemma {:induction false} RecordOwnersSpec(owners: map<string, string>, entries: seq<PlaylistSummary>)
    ensures var m := RecordOwners(owners, entries);
      && (forall i :: 0 <= i < |entries| ==> entries[i].id in m)
      && (forall i :: 0 <= i < |entries| && (forall j :: i < j < |entries| ==> entries[j].id != entries[i].id) ==>
            m[entries[i].id] == entries[i].ownerId)
      && (forall id :: id in owners && (forall i :: 0 <= i < |entries| ==> entries[i].id != id) ==> m[id] == owners[id])
    decreases |entries|
  {
    if entries != [] {
      var front := entries[..|entries| - 1];
      RecordOwnersSpec(owners, front);
      assert forall i :: 0 <= i < |front| ==> front[i] == entries[i];
    }
  }
}
