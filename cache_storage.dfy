/**
 * The browser's Cache Storage as seen by the worker: named caches, each a
 * map from request key to a stored response, plus the network as an oracle.
 * Only the operations the worker calls are modelled: caches.open,
 * cache.match, cache.put, cache.addAll, caches.keys and caches.delete.
 */
module CacheStorage {
  import opened Wrappers

  /** A request key: the request's URL as written (no resolution against the scope). */
  type Key = string
  type CacheName = string

  /** A response, opaque except for its HTTP status. */
  datatype Response = Response(status: int, body: seq<int>)

  /** What addAll demands of every response: an ok status (200-299) that is not partial content (206). */
  predicate Storable(r: Response)
  {
    200 <= r.status <= 299 && r.status != 206
  }

  /** What fetch() settles with: any HTTP response, or a rejection (network error). */
  datatype Outcome = Fetched(response: Response) | NetworkError(reason: string)

  /** The network, as an oracle from URL to the outcome of fetching it. */
  type Network = Key -> Outcome

  type Cache = map<Key, Response>
  type Store = map<CacheName, Cache>

  predicate Distinct(urls: seq<Key>)
  {
    forall i, j :: 0 <= i < j < |urls| ==> urls[i] != urls[j]
  }

  /** caches.open(name): the named cache exists afterwards, created empty if it was absent. */
  function Open(store: Store, name: CacheName): (r: Store)
    ensures r.Keys == store.Keys + {name}
    ensures forall n :: n in store ==> r[n] == store[n]
    ensures r[name] == if name in store then store[name] else map[]
  {
    if name in store then store else store[name := map[]]
  }

  /**
   * The fetches addAll issues, one per URL: the responses in order when every
   * fetch settled with a storable response, None as soon as one rejected or was not storable.
   */
  function FetchAll(urls: seq<Key>, net: Network): (r: Option<seq<Response>>)
    ensures r.Some? <==>
      forall i :: 0 <= i < |urls| ==> net(urls[i]).Fetched? && Storable(net(urls[i]).response)
    ensures r.Some? ==>
      |r.value| == |urls| && forall i :: 0 <= i < |urls| ==> r.value[i] == net(urls[i]).response
  {
    if urls == [] then Some([])
    else match net(urls[0])
      case NetworkError(_) => None
      case Fetched(res) =>
        if !Storable(res) then None
        else match FetchAll(urls[1..], net)
          case None => None
          case Some(rest) => Some([res] + rest)
  }

  /** The batch of puts addAll commits once every fetch has succeeded, in order. */
  function PutAll(cache: Cache, urls: seq<Key>, responses: seq<Response>): (r: Cache)
    requires |urls| == |responses| && Distinct(urls)
    ensures forall k :: k in r <==> k in cache || k in urls
    ensures forall k :: k in cache ==> k in urls || r[k] == cache[k]
    ensures forall i :: 0 <= i < |urls| ==> r[urls[i]] == responses[i]
  {
    if urls == [] then cache
    else
      var n := |urls| - 1;
      DropLast(urls);
      var earlier := PutAll(cache, urls[..n], responses[..n]);
      assert forall i :: 0 <= i < n ==> earlier[urls[i]] == responses[i] by {
        forall i | 0 <= i < n ensures earlier[urls[i]] == responses[i] {
          assert urls[..n][i] == urls[i] && responses[..n][i] == responses[i];
        }
      }
      earlier[urls[n] := responses[n]]
  }

  /** A distinct list is its distinct prefix followed by one new URL. */
  lemma DropLast(urls: seq<Key>)
    requires Distinct(urls) && urls != []
    ensures Distinct(urls[..|urls| - 1])
    ensures forall k :: k in urls <==> k in urls[..|urls| - 1] || k == urls[|urls| - 1]
    ensures forall i :: 0 <= i < |urls| - 1 ==> urls[i] != urls[|urls| - 1]
  {
  }

  /**
   * cache.addAll(urls): all or nothing. It fails (None) if a URL is listed
   * twice, if a fetch rejects or if a response is not storable; otherwise every URL
   * is stored with its response and nothing else in the cache changes.
   */
  function AddAll(cache: Cache, urls: seq<Key>, net: Network): (r: Option<Cache>)
    ensures r.Some? <==>
      Distinct(urls) && forall i :: 0 <= i < |urls| ==> net(urls[i]).Fetched? && Storable(net(urls[i]).response)
    ensures r.Some? ==> forall k :: k in r.value <==> k in cache || k in urls
    ensures r.Some? ==> forall i :: 0 <= i < |urls| ==> r.value[urls[i]] == net(urls[i]).response
    ensures r.Some? ==> forall k :: k in cache && k !in urls ==> r.value[k] == cache[k]
  {
    match FetchAll(urls, net)
    case None => None
    case Some(responses) => if Distinct(urls) then Some(PutAll(cache, urls, responses)) else None
  }

  /** The store after deleting every cache whose name is not `keep`. */
  function KeepOnly(store: Store, keep: CacheName): (r: Store)
    ensures r.Keys == store.Keys * {keep}
    ensures keep in store ==> r[keep] == store[keep]
  {
    if keep in store then map[keep := store[keep]] else map[]
  }

  /** Committing one more URL of the batch is one more put. */
  lemma PutAllExtend(cache: Cache, urls: seq<Key>, responses: seq<Response>, i: nat)
    requires |urls| == |responses| && Distinct(urls) && i < |urls|
    ensures Distinct(urls[..i]) && Distinct(urls[..i + 1])
    ensures PutAll(cache, urls[..i + 1], responses[..i + 1])
         == PutAll(cache, urls[..i], responses[..i])[urls[i] := responses[i]]
  {
    assert urls[..i + 1][..i] == urls[..i];
    assert responses[..i + 1][..i] == responses[..i];
  }

  /** The fetches of addAll, made one URL at a time until one fails. */
  method FetchEach(urls: seq<Key>, net: Network) returns (responses: Option<seq<Response>>)
    ensures responses == FetchAll(urls, net)
  {
    var got: seq<Response> := [];
    var i := 0;
    while i < |urls|
      invariant 0 <= i <= |urls| && |got| == i
      invariant forall j :: 0 <= j < i ==>
        net(urls[j]).Fetched? && Storable(net(urls[j]).response) && got[j] == net(urls[j]).response
    {
      match net(urls[i])
      case NetworkError(_) =>
        return None;
      case Fetched(res) =>
        if !Storable(res) {
          return None;
        }
        got := got + [res];
      i := i + 1;
    }
    assert got == FetchAll(urls, net).value;
    responses := Some(got);
  }

  /** The batch of puts addAll commits, applied one URL at a time. */
  method PutEach(cache: Cache, urls: seq<Key>, responses: seq<Response>) returns (r: Cache)
    requires |urls| == |responses| && Distinct(urls)
    ensures r == PutAll(cache, urls, responses)
  {
    r := cache;
    var i := 0;
    while i < |urls|
      invariant 0 <= i <= |urls|
      invariant r == PutAll(cache, urls[..i], responses[..i])
    {
      PutAllExtend(cache, urls, responses, i);
      r := r[urls[i] := responses[i]];
      i := i + 1;
    }
    assert urls[..i] == urls && responses[..i] == responses;
  }

  /** cache.addAll(urls) as the browser runs it: fetch everything, then commit the batch. */
  method CacheAddAll(cache: Cache, urls: seq<Key>, net: Network) returns (r: Option<Cache>)
    ensures r == AddAll(cache, urls, net)
  {
    var responses := FetchEach(urls, net);
    if responses.None? || !Distinct(urls) {
      return None;
    }
    var filled := PutEach(cache, urls, responses.value);
    r := Some(filled);
  }
}
