/** Values shared by the app and the speaker driver: optional values, results
    with the errors the integration reports, JavaScript's truthiness of the
    strings and numbers it tests, Math.round, and mapping over sequences. */
module Values {

  datatype Option<+T> = None | Some(value: T)

  datatype Result<+T, +E> = Ok(value: T) | Err(error: E)

  /** The failures the integration tells its callers about. */
  datatype Error =
    | NotAuthorized        // a media request while the 'authorized' setting is off
    | NotAuthenticated     // getMyDevices without a session
    | InvalidCredentials   // authorizeSpotify with neither a code nor a token pair
    | DeviceNotFound       // this speaker is missing from the upstream device list
    | Debounced            // a delayed setTrack request replaced by a newer one
    | Upstream(status: int) // a failed call to the streaming service

  /** A string as JavaScript tests it: undefined, null and "" are falsy. */
  predicate Truthy(s: Option<string>) {
    s.Some? && s.value != ""
  }

  /** JavaScript's Math.round: the nearest integer, halves rounded up. */
  function Round(x: real): (r: int)
    ensures r as real <= x + 0.5 < r as real + 1.0
  {
    (x + 0.5).Floor
  }

  /** Math.round leaves an integer unchanged. */
  lemma RoundInt(n: int)
    ensures Round(n as real) == n
  {
  }

  /** Array map: `f` applied to each element, in order. */
  function Map<A, B>(f: A -> B, s: seq<A>): (r: seq<B>)
    ensures |r| == |s|
    ensures forall i :: 0 <= i < |s| ==> r[i] == f(s[i])
  {
    if s == [] then [] else [f(s[0])] + Map(f, s[1..])
  }

  /** Mapping distributes over concatenation. */
  lemma {:induction false} MapConcat<A, B>(f: A -> B, a: seq<A>, b: seq<A>)
    ensures Map(f, a + b) == Map(f, a) + Map(f, b)
    decreases |a|
  {
    if a == [] {
      assert a + b == b;
    } else {
      assert (a + b)[0] == a[0];
      assert (a + b)[1..] == a[1..] + b;
      MapConcat(f, a[1..], b);
    }
  }

  /** Adding the same element to two multisets keeps them apart. */
  lemma Cancel<A>(m: multiset<A>, n: multiset<A>, x: A)
    requires m + multiset{x} == n + multiset{x}
    ensures m == n
  {
    forall y
      ensures m[y] == n[y]
    {
      assert (m + multiset{x})[y] == (n + multiset{x})[y];
    }
  }

  lemma MultisetSplit<A>(left: seq<A>, x: A, right: seq<A>)
    ensures multiset(left + ([x] + right)) == multiset(left + right) + multiset{x}
  {
  }

  /** Taking `x` out of the middle, before or after mapping, takes out one
      copy of it and of its image. */
  lemma MapSplit<A, B>(f: A -> B, left: seq<A>, x: A, right: seq<A>)
    ensures multiset(Map(f, left + ([x] + right))) == multiset(Map(f, left + right)) + multiset{f(x)}
  {
    MapConcat(f, left, [x] + right);
    MapConcat(f, [x], right);
    MapConcat(f, left, right);
    MultisetSplit(Map(f, left), f(x), Map(f, right));
  }

  /** Mapping a reordering of a sequence gives a reordering of the mapped
      sequence: the same elements, each as often. */
  lemma {:induction false} MapPermutation<A, B>(f: A -> B, a: seq<A>, b: seq<A>)
    requires multiset(a) == multiset(b)
    ensures multiset(Map(f, a)) == multiset(Map(f, b))
    decreases |a|
  {
    if a == [] {
      assert |b| == |multiset(b)| == 0;
    } else {
      var x := a[0];
      assert x in multiset(b);
      var i :| 0 <= i < |b| && b[i] == x;
      var left, right := b[..i], b[i + 1..];
      assert b == left + ([x] + right);
      assert a == [] + ([x] + a[1..]);
      MultisetSplit(left, x, right);
      MultisetSplit([], x, a[1..]);
      Cancel(multiset(a[1..]), multiset(left + right), x);
      MapPermutation(f, a[1..], left + right);
      MapSplit(f, left, x, right);
      MapSplit(f, [], x, a[1..]);
    }
  }

  /** `Promise.all(results)` once every promise has settled: the values in
      order when all succeed, otherwise the first failure in order. */
  function Collect<T, E>(rs: seq<Result<T, E>>): (r: Result<seq<T>, E>)
    ensures r.Ok? ==> |r.value| == |rs|
  {
    if rs == [] then Ok([])
    else
      match rs[0]
      case Err(e) => Err(e)
      case Ok(v) =>
        match Collect(rs[1..])
        case Err(e) => Err(e)
        case Ok(vs) => Ok([v] + vs)
  }

  /** Entry `i` is the first failure of `rs`, and it fails with `e`. */
  ghost predicate FirstFailure<T, E>(rs: seq<Result<T, E>>, i: int, e: E) {
    && 0 <= i < |rs|
    && rs[i] == Err(e)
    && forall j :: 0 <= j < i ==> rs[j].Ok?
  }

  /** Collecting succeeds exactly when every result does, and then holds each
      value at its position; otherwise it reports the first failure. */
  lemma {:induction false} CollectSpec<T, E>(rs: seq<Result<T, E>>)
    ensures var r := Collect(rs);
      && (r.Ok? <==> forall i :: 0 <= i < |rs| ==> rs[i].Ok?)
      && (r.Ok? ==> forall i :: 0 <= i < |rs| ==> rs[i] == Ok(r.value[i]))
      && (r.Err? ==> exists i :: FirstFailure(rs, i, r.error))
  {
    if rs != [] {
      CollectSpec(rs[1..]);
      var r := Collect(rs);
      var rest := Collect(rs[1..]);
      if rs[0].Ok? && rest.Err? {
        var i :| FirstFailure(rs[1..], i, rest.error);
        assert rs[i + 1] == rs[1..][i];
        assert forall j :: 1 <= j < i + 1 ==> rs[j] == rs[1..][j - 1];
        assert FirstFailure(rs, i + 1, r.error);
      } else if rs[0].Err? {
        assert FirstFailure(rs, 0, r.error);
      } else {
        assert forall i :: 1 <= i < |rs| ==> rs[i] == rs[1..][i - 1];
      }
    }
  }

  /** A single-slot cache lookup: what it answers, what it holds afterwards,
      and whether it asked anew. */
  datatype Cached<T> = Cached(result: T, cache: Option<T>, fetched: bool)

  /** A lookup fetches when forced or when nothing is cached, and otherwise answers from the cache. */
  function CacheLookup<T>(force: bool, cache: Option<T>, answer: T): (c: Cached<T>)
    ensures c.fetched <==> force || cache.None?
    ensures c.fetched ==> c.result == answer && c.cache == Some(answer)
    ensures !c.fetched ==> c.result == cache.value && c.cache == cache
  {
    if force || cache.None? then Cached(answer, Some(answer), true) else Cached(cache.value, cache, false)
  }

  /** While the cache lives, asking again without force gives the same answer
      whatever a fetch would now give, and asks nothing. */
  lemma CacheLookupRepeats<T>(force: bool, cache: Option<T>, answer: T, later: T)
    ensures var first := CacheLookup(force, cache, answer);
      var second := CacheLookup(false, first.cache, later);
      !second.fetched && second.result == first.result && second.cache == first.cache
  {
  }
}
