/** Offset/limit pagination (app.js getPlayListsRecursive and
    getPlayListEntriesRecursive): request a page, and while the answer says a
    next page exists, request it at the answer's offset plus its limit. */
module Paging {
  import opened Values

  /** Page sizes the app asks for. */
  const PLAYLIST_PAGE_LIMIT: nat := 50
  const TRACK_PAGE_LIMIT: nat := 100

  /** The body of a page answer: the items, whether a `next` link is present,
      and the offset and limit the answer reports. */
  datatype Page<T> = Page(items: seq<T>, next: bool, offset: nat, limit: nat)

  /** The service's answer to a request for `limit` items at `offset` of the
      collection `all`: the items from `offset` on, at most `limit` of them; a
      `next` link exactly when items remain after them; the request's offset
      and limit echoed. */
  function ServePage<T>(all: seq<T>, offset: nat, limit: nat): (p: Page<T>)
    ensures p.offset == offset && p.limit == limit
    ensures p.next <==> offset + limit < |all|
    ensures |p.items| == if offset >= |all| then 0 else if p.next then limit else |all| - offset
    ensures forall i :: 0 <= i < |p.items| ==> p.items[i] == all[offset + i]
  {
    var lo := if offset < |all| then offset else |all|;
    var hi := if offset + limit < |all| then offset + limit else |all|;
    Page(seq(hi - lo, i requires 0 <= i < hi - lo => all[lo + i]), offset + limit < |all|, offset, limit)
  }

  /** The pages the recursion fetches, in request order, starting at `offset`:
      after each page it asks again at `body.offset + body.limit` when
      `body.next` is set, and stops otherwise. */
  function Pages<T>(all: seq<T>, offset: nat, limit: nat): (ps: seq<Page<T>>)
    requires limit > 0
    ensures |ps| >= 1 && ps[0].offset == offset
    decreases |all| - offset
  {
    var page := ServePage(all, offset, limit);
    if page.next then [page] + Pages(all, page.offset + page.limit, limit) else [page]
  }

  /** What the recursion concatenates along the chain: the items of the
      pages, in request order. */
  function Concat<T>(pages: seq<Page<T>>): seq<T> {
    if pages == [] then [] else pages[0].items + Concat(pages[1..])
  }

  /** The recursion returns the whole collection from `offset` on, in order,
      every item once. */
  lemma {:induction false} PagesCover<T>(all: seq<T>, offset: nat, limit: nat)
    requires limit > 0 && offset <= |all|
    ensures Concat(Pages(all, offset, limit)) == all[offset..]
    decreases |all| - offset
  {
    var page := ServePage(all, offset, limit);
    var ps := Pages(all, offset, limit);
    if page.next {
      PagesCover(all, offset + limit, limit);
      assert ps[1..] == Pages(all, offset + limit, limit);
      assert all[offset..] == all[offset..offset + limit] + all[offset + limit..];
    } else {
      assert ps[1..] == [];
    }
  }

  /** From offset 0 the recursion returns the whole collection. */
  lemma PagesCoverAll<T>(all: seq<T>, limit: nat)
    requires limit > 0
    ensures Concat(Pages(all, 0, limit)) == all
  {
    PagesCover(all, 0, limit);
    assert all[0..] == all;
  }

  /** The requests the recursion makes: the k-th asks for `limit` items at
      `offset + k * limit`; every page but the last has `next` set; the last
      reaches the end of the collection. */
  lemma {:induction false} PagesOffsets<T>(all: seq<T>, offset: nat, limit: nat)
    requires limit > 0
    ensures var ps := Pages(all, offset, limit);
      && |ps| >= 1
      && (forall k :: 0 <= k < |ps| ==> ps[k].offset == offset + k * limit && ps[k].limit == limit)
      && (forall k :: 0 <= k < |ps| ==> (ps[k].next <==> k < |ps| - 1))
      && ps[|ps| - 1].offset + limit >= |all|
    decreases |all| - offset
  {
    var page := ServePage(all, offset, limit);
    var ps := Pages(all, offset, limit);
    if page.next {
      var rest := Pages(all, offset + limit, limit);
      PagesOffsets(all, offset + limit, limit);
      assert ps == [page] + rest;
      forall k | 1 <= k < |ps|
        ensures ps[k].offset == offset + k * limit
      {
        assert ps[k] == rest[k - 1];
        assert offset + limit + (k - 1) * limit == offset + k * limit;
      }
    }
  }

  /** Pages of 50 split a listing of 60 into 50 + 10 and return all 60 in
      page order. */
  lemma SixtyPlaylists<T>(all: seq<T>)
    requires |all| == 60
    ensures |Pages(all, 0, PLAYLIST_PAGE_LIMIT)| == 2
    ensures Pages(all, 0, PLAYLIST_PAGE_LIMIT)[0].items == all[..50]
    ensures Pages(all, 0, PLAYLIST_PAGE_LIMIT)[1].items == all[50..]
    ensures Concat(Pages(all, 0, PLAYLIST_PAGE_LIMIT)) == all
  {
    PagesCover(all, 0, PLAYLIST_PAGE_LIMIT);
    assert Pages(all, 50, PLAYLIST_PAGE_LIMIT) == [ServePage(all, 50, 50)];
  }

  /** Where a chain of page requests stops when the service refuses some of
      them: the index of the first page whose request it refuses, or the
      number of pages when it refuses none. A refused page rejects the chain,
      so no page after it is requested. */
  function FirstRefused<T, C>(pages: seq<Page<T>>, request: nat -> C, refused: map<C, Error>): (k: nat)
    ensures k <= |pages|
    ensures forall j :: 0 <= j < k ==> request(pages[j].offset) !in refused
    ensures k < |pages| ==> request(pages[k].offset) in refused
    decreases |pages|
  {
    if pages == [] || request(pages[0].offset) in refused then 0
    else
      var k := FirstRefused(pages[1..], request, refused);
      assert forall j :: 1 <= j < k + 1 ==> pages[j] == pages[1..][j - 1];
      k + 1
  }

  /** From offset 0, the chain stops at the first multiple of the page size
      whose request is refused, among the offsets it would request. */
  lemma FirstRefusedOffsets<T, C>(all: seq<T>, limit: nat, request: nat -> C, refused: map<C, Error>)
    requires limit > 0
    ensures var ps := Pages(all, 0, limit);
      var k := FirstRefused(ps, request, refused);
      && (forall j :: 0 <= j < k ==> request(j * limit) !in refused)
      && (k < |ps| ==> request(k * limit) in refused)
      && (k == |ps| <==> forall j :: 0 <= j < |ps| ==> request(j * limit) !in refused)
  {
    var ps := Pages(all, 0, limit);
    var k := FirstRefused(ps, request, refused);
    PagesOffsets(all, 0, limit);
    forall j | 0 <= j < |ps|
      ensures request(j * limit) == request(ps[j].offset)
    {
      assert ps[j].offset == 0 + j * limit;
    }
    if k < |ps| {
      assert request(k * limit) in refused;
    }
  }
}
