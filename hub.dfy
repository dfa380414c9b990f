/**
 * The APM Apps Hub service worker: one versioned cache, pre-filled with the
 * application shell on install, the only cache left after activate, and
 * consulted first by every intercepted GET request.
 */
module Hub {
  import opened Wrappers
  import opened CacheStorage

  /** The name of the current versioned cache. */
  const CACHE: CacheName := "apm-hub-v1"

  /** The application shell stored on install. */
  const SHELL: seq<Key> := [
    "./",
    "./index.html",
    "./manifest.webmanifest",
    "./icons/icon-192.png",
    "./icons/icon-512.png"
  ]

  /** The page served to a navigation that fails while offline. */
  const INDEX: Key := "./index.html"

  /** The parts of an intercepted request that the fetch handler looks at (`verb` is its HTTP method). */
  datatype Request = Request(verb: string, url: Key, mode: string)

  /** What the fetch handler does with a request. */
  datatype Reply =
    | Passthrough              // respondWith not called: the browser fetches as usual
    | Respond(response: Response)
    | Reject(reason: string)   // the promise given to respondWith rejects

  datatype Handled = Handled(reply: Reply, store: Store)
  datatype Installed = Installed(ok: bool, store: Store)

  /**
   * The phases this worker passes through, driven by the browser; the worker
   * only runs the hooks. It never sits waiting, because install always asks to skip waiting.
   */
  datatype Phase = Installing | Activating | Active | Redundant

  /**
   * Where the browser takes this worker once its install hook has settled:
   * since the hook always asks to skip waiting, a successful install goes
   * straight on to activation instead of waiting.
   */
  function AfterInstall(ok: bool): Phase
  {
    if ok then Activating else Redundant
  }

  /** The fetch event: cache first, then the network, then the index page for navigations. */
  function OnFetch(store: Store, req: Request, net: Network): Handled
  {
    if req.verb != "GET" then Handled(Passthrough, store)
    else
      var current := Open(store, CACHE);
      var cache := current[CACHE];
      if req.url in cache then Handled(Respond(cache[req.url]), current)
      else match net(req.url)
        case Fetched(res) => Handled(Respond(res), current[CACHE := cache[req.url := res]])
        case NetworkError(err) =>
          if req.mode == "navigate" && INDEX in cache then Handled(Respond(cache[INDEX]), current)
          else Handled(Reject(err), current)
  }

  /** The install event: open the current cache and addAll the shell into it. */
  function OnInstall(store: Store, net: Network): Installed
  {
    var current := Open(store, CACHE);
    match AddAll(current[CACHE], SHELL, net)
    case Some(filled) => Installed(true, current[CACHE := filled])
    case None => Installed(false, current)
  }

  /** The activate event's effect on storage: every cache but the current one is deleted. */
  function OnActivate(store: Store): Store
  {
    KeepOnly(store, CACHE)
  }

  /** The worker global scope: the origin's cache storage and the life-cycle flags. */
  class Worker {
    var caches: Store
    var phase: Phase
    var skipWaitingRequested: bool
    var clientsClaimed: bool

    /** A freshly registered worker, about to receive its install event. */
    constructor (existing: Store)
      ensures caches == existing && phase == Installing
      ensures !skipWaitingRequested && !clientsClaimed
    {
      caches := existing;
      phase := Installing;
      skipWaitingRequested := false;
      clientsClaimed := false;
    }

    method Install(net: Network) returns (ok: bool)
      requires phase == Installing
      modifies this
      ensures OnInstall(old(caches), net) == Installed(ok, caches)
      ensures skipWaitingRequested
      ensures phase == AfterInstall(ok)
      ensures clientsClaimed == old(clientsClaimed)
    {
      var current := caches;
      if CACHE !in current {
        current := current[CACHE := map[]];
      }
      var filled := CacheAddAll(current[CACHE], SHELL, net);
      ok := filled.Some?;
      caches := if ok then current[CACHE := filled.value] else current;
      skipWaitingRequested := true;
      phase := AfterInstall(ok);
    }

    method Activate()
      requires phase == Activating
      modifies this
      ensures caches == OnActivate(old(caches))
      ensures clientsClaimed && phase == Active
      ensures skipWaitingRequested == old(skipWaitingRequested)
    {
      var names := caches.Keys;
      while names != {}
        invariant names <= old(caches).Keys
        invariant caches.Keys == old(caches).Keys * (names + {CACHE})
        invariant forall n :: n in caches ==> caches[n] == old(caches)[n]
        invariant skipWaitingRequested == old(skipWaitingRequested)
        decreases names
      {
        var k :| k in names;
        if k != CACHE {
          caches := caches - {k};
        }
        names := names - {k};
      }
      clientsClaimed := true;
      phase := Active;
    }

    method HandleFetch(req: Request, net: Network) returns (reply: Reply)
      modifies this
      ensures OnFetch(old(caches), req, net) == Handled(reply, caches)
      ensures phase == old(phase) && skipWaitingRequested == old(skipWaitingRequested)
      ensures clientsClaimed == old(clientsClaimed)
    {
      if req.verb != "GET" {
        return Passthrough;
      }
      if CACHE !in caches {
        caches := caches[CACHE := map[]];
      }
      var cache := caches[CACHE];
      if req.url in cache {
        return Respond(cache[req.url]);
      }
      match net(req.url)
      case Fetched(res) =>
        caches := caches[CACHE := cache[req.url := res]];
        reply := Respond(res);
      case NetworkError(err) =>
        if req.mode == "navigate" && INDEX in cache {
          reply := Respond(cache[INDEX]);
        } else {
          reply := Reject(err);
        }
    }
  }
}
