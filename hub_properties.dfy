/**
 * What the worker's three handlers promise, stated over the specification
 * functions that the Worker methods are proved to implement.
 */
module HubProperties {
  import opened CacheStorage
  import opened Hub

  /** Every cache other than the current one is exactly as it was. */
  ghost predicate OthersUnchanged(before: Store, after: Store)
  {
    forall n :: n != CACHE ==> (n in before <==> n in after) && (n in before ==> after[n] == before[n])
  }

  /** The current cache holds an entry for this key. */
  predicate Cached(store: Store, url: Key)
  {
    CACHE in store && url in store[CACHE]
  }

  // ---- fetch ----

  /** A request that is not a GET is left to the browser and no cache is opened. */
  lemma NonGetPassesThrough(store: Store, req: Request, net: Network)
    requires req.verb != "GET"
    ensures OnFetch(store, req, net) == Handled(Passthrough, store)
  {
  }

  /** A hit returns the stored response, changes nothing, and does not depend on the network. */
  lemma HitServesStored(store: Store, req: Request, net: Network, other: Network)
    requires req.verb == "GET" && Cached(store, req.url)
    ensures OnFetch(store, req, net) == Handled(Respond(store[CACHE][req.url]), store)
    ensures OnFetch(store, req, other) == OnFetch(store, req, net)
  {
  }

  /** A miss answered by the network returns that response and stores it under the request's key only. */
  lemma MissFetchedIsStored(store: Store, req: Request, net: Network)
    requires req.verb == "GET" && !Cached(store, req.url) && net(req.url).Fetched?
    ensures OnFetch(store, req, net).reply == Respond(net(req.url).response)
    ensures Cached(OnFetch(store, req, net).store, req.url)
    ensures OnFetch(store, req, net).store[CACHE][req.url] == net(req.url).response
    ensures OnFetch(store, req, net).store[CACHE] == Open(store, CACHE)[CACHE][req.url := net(req.url).response]
    ensures OthersUnchanged(store, OnFetch(store, req, net).store)
  {
  }

  /** A navigation that misses and then fails on the network gets the cached index page. */
  lemma OfflineNavigationServesIndex(store: Store, req: Request, net: Network)
    requires req.verb == "GET" && !Cached(store, req.url) && net(req.url).NetworkError?
    requires req.mode == "navigate" && Cached(store, INDEX)
    ensures OnFetch(store, req, net) == Handled(Respond(store[CACHE][INDEX]), store)
  {
  }

  /**
   * A miss that fails on the network with no index fallback rethrows the
   * network's error; the only effect on storage is that the current cache now exists.
   */
  lemma OfflineWithoutFallbackRethrows(store: Store, req: Request, net: Network)
    requires req.verb == "GET" && !Cached(store, req.url) && net(req.url).NetworkError?
    requires req.mode != "navigate" || !Cached(store, INDEX)
    ensures OnFetch(store, req, net) == Handled(Reject(net(req.url).reason), Open(store, CACHE))
    ensures CACHE in store ==> OnFetch(store, req, net).store == store
  {
  }

  /**
   * Whatever happens, the fetch handler touches only the current cache, never
   * removes an entry from it, and changes no key but the request's own.
   */
  lemma FetchOnlyWritesRequestKey(store: Store, req: Request, net: Network)
    ensures OthersUnchanged(store, OnFetch(store, req, net).store)
    ensures CACHE in store ==> CACHE in OnFetch(store, req, net).store
    ensures CACHE in OnFetch(store, req, net).store ==>
      forall k :: k in OnFetch(store, req, net).store[CACHE] && k != req.url ==>
        Cached(store, k) && OnFetch(store, req, net).store[CACHE][k] == store[CACHE][k]
    ensures Cached(store, req.url) ==> OnFetch(store, req, net).store == store
    ensures forall k :: Cached(store, k) ==> Cached(OnFetch(store, req, net).store, k)
  {
  }

  /**
   * Cache first: once a GET has been answered from the network, the same URL
   * is answered from the cache with that response, whatever the network does later.
   */
  lemma StoredResponseIsServedAgain(store: Store, req: Request, net: Network, again: Request, later: Network)
    requires req.verb == "GET" && again.verb == "GET" && again.url == req.url
    requires OnFetch(store, req, net).reply.Respond? && (Cached(store, req.url) || net(req.url).Fetched?)
    ensures OnFetch(OnFetch(store, req, net).store, again, later) == OnFetch(store, req, net)
  {
  }

  // ---- install ----

  /** The five shell URLs are distinct, so addAll never rejects them as duplicates. */
  lemma ShellIsDistinct()
    ensures Distinct(SHELL) && |SHELL| == 5
  {
  }

  /**
   * Install is all or nothing: it succeeds exactly when every shell URL fetches
   * with a storable response, and then the current cache holds each of those responses;
   * when it fails no shell entry is added. Other caches are never touched.
   */
  lemma InstallAllOrNothing(store: Store, net: Network)
    ensures OnInstall(store, net).ok <==>
      forall i :: 0 <= i < |SHELL| ==> net(SHELL[i]).Fetched? && Storable(net(SHELL[i]).response)
    ensures OnInstall(store, net).ok ==>
      forall i :: 0 <= i < |SHELL| ==>
        Cached(OnInstall(store, net).store, SHELL[i]) &&
        OnInstall(store, net).store[CACHE][SHELL[i]] == net(SHELL[i]).response
    ensures OnInstall(store, net).ok ==>
      forall k :: Cached(store, k) && k !in SHELL ==> OnInstall(store, net).store[CACHE][k] == store[CACHE][k]
    ensures !OnInstall(store, net).ok ==> OnInstall(store, net).store == Open(store, CACHE)
    ensures OthersUnchanged(store, OnInstall(store, net).store)
  {
    ShellIsDistinct();
  }

  /** A partial (206) response to any shell URL makes install fail, leaving no shell entry behind. */
  lemma PartialShellResponseFailsInstall(store: Store, net: Network, i: nat)
    requires i < |SHELL| && net(SHELL[i]).Fetched? && net(SHELL[i]).response.status == 206
    ensures !OnInstall(store, net).ok
    ensures OnInstall(store, net).store == Open(store, CACHE)
  {
    InstallAllOrNothing(store, net);
  }

  // ---- activate ----

  /** After activation the current cache is the only one left, with its contents untouched. */
  lemma ActivateKeepsOnlyCurrent(store: Store)
    ensures forall n :: n in OnActivate(store) <==> n == CACHE && n in store
    ensures CACHE in store ==> OnActivate(store)[CACHE] == store[CACHE]
  {
  }

  /** Activating twice leaves the same store as activating once. */
  lemma ActivateIsIdempotent(store: Store)
    ensures OnActivate(OnActivate(store)) == OnActivate(store)
  {
  }

  /**
   * A successful install followed by activation leaves exactly one cache, the
   * current one, holding the whole shell.
   */
  lemma InstallThenActivate(store: Store, net: Network)
    requires forall i :: 0 <= i < |SHELL| ==> net(SHELL[i]).Fetched? && Storable(net(SHELL[i]).response)
    ensures OnInstall(store, net).ok
    ensures OnActivate(OnInstall(store, net).store).Keys == {CACHE}
    ensures forall i :: 0 <= i < |SHELL| ==> Cached(OnActivate(OnInstall(store, net).store), SHELL[i])
  {
    InstallAllOrNothing(store, net);
  }
}
