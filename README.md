# APM Apps Hub service worker, modelled in Dafny

This project models `sw-hub.js`, the service worker of the APM Apps Hub. The
worker keeps one versioned cache, `apm-hub-v1`. It has three event handlers:

- **install** opens that cache and `addAll`s a fixed five-entry application shell. It also calls `skipWaiting` straight away, without waiting for `addAll` and whatever its outcome;
- **activate** deletes every other cache. It also calls `clients.claim` straight away, without waiting for the deletions;
- **fetch** answers GET requests cache-first:
  - a hit is returned as stored;
  - a miss goes to the network and the response is `put` into the cache;
  - a failed navigation falls back to the cached `./index.html`;
  - any other failure rethrows the network error.

The model has four modules:

- `Wrappers` (`wrappers.dfy`): an `Option` type.
- `CacheStorage` (`cache_storage.dfy`): the host's Cache Storage, limited to the operations the worker uses.
  - The store is a `map` from cache name to a `map` from request key to an opaque `Response`.
  - `Open` creates a missing cache empty, as `caches.open` does.
  - `AddAll` is the all-or-nothing batch of `cache.addAll`. It fails on a rejected fetch, a response whose status is outside 200-299 or is 206 (partial content), or a duplicate URL.
  - `KeepOnly` is the effect of the activate handler's deletion loop.
  - The methods `FetchEach`, `PutEach` and `CacheAddAll` carry out `addAll` step by step and are proved equal to those functions.
  - The network is an oracle, `Network = Key -> Outcome`. An outcome is a settled response of any status, or a network error.
- `Hub` (`hub.dfy`):
  - the constants `CACHE`, `SHELL` and `INDEX`;
  - the specification functions `OnFetch`, `OnInstall` and `OnActivate`;
  - the class `Worker`. Its field `caches` is the store, and its other fields are a life-cycle `phase` and the `skipWaitingRequested` and `clientsClaimed` flags. Its methods `Install`, `Activate` and `HandleFetch` update `caches` as the handlers do. Activation deletes one cache per loop step. Each is proved to leave exactly the store its specification function gives.
- `HubProperties` (`hub_properties.dfy`): lemmas stating what each handler promises.

What `sw-hub.js` does, and the model with it:

- Every GET request is answered cache-first. The worker has no other strategy: no network-first routing, no revalidation of a hit and no message handling.
- The fetch handler does not check the request's origin, so cross-origin GET requests are intercepted too.
- Activation deletes every cache whose name is not `apm-hub-v1`, whatever the name.
- The fetch handler stores any response that `fetch` resolves with, including 4xx and 5xx statuses. Such a response keeps being served for its URL. It goes away only when a worker with a different cache name activates and deletes `apm-hub-v1` (sw-hub.js:15). A later install of the same version overwrites only the five shell URLs (sw-hub.js:11).

## Model

| member | source | states |
|---|---|---|
| Hub.Worker.HandleFetch | sw-hub.js:18-37 | The store after the fetch event and the reply are those of `OnFetch`. The life-cycle fields are unchanged. |
| Hub.Worker.Install | sw-hub.js:10-13 | Runs in the `Installing` phase. The store and success flag are those of `OnInstall`. Skip-waiting is always requested. The phase is `Activating` on success and `Redundant` on failure. |
| Hub.Worker.Activate | sw-hub.js:14-17 | Runs in the `Activating` phase. The deletion loop leaves exactly `OnActivate` of the old store. Clients are claimed and the phase is `Active`. |
| CacheStorage.AddAll | sw-hub.js:11 | `addAll` succeeds iff the URLs are distinct and every fetch settles with a storable response (200-299, not 206). It then stores each URL's response, keeps every other entry and adds no other key. |
| CacheStorage.FetchAll | sw-hub.js:11 | The fetches of `addAll` give every response, in order, iff every URL fetches with a storable response (200-299, not 206). |
| CacheStorage.PutAll | sw-hub.js:11 | Committing the batch maps each URL to its own response and keeps every other entry. Its key set is the old keys plus the URLs. |
| CacheStorage.PutAllExtend | sw-hub.js:11 | Committing one more URL of the batch equals one more single put. |
| CacheStorage.FetchEach | sw-hub.js:11 | The fetch loop returns exactly `FetchAll`. |
| CacheStorage.PutEach | sw-hub.js:11 | The put loop builds exactly `PutAll`. |
| CacheStorage.CacheAddAll | sw-hub.js:11 | Fetching and then committing returns exactly `AddAll`. |
| CacheStorage.Open | sw-hub.js:22 | Opening keeps every cache and adds the named one. That cache is empty if it was absent and unchanged otherwise. |
| CacheStorage.KeepOnly | sw-hub.js:15 | Only the kept name survives, and only if it was present. Its contents are unchanged. |
| HubProperties.NonGetPassesThrough | sw-hub.js:20 | A non-GET request is passed through, and the store is unchanged (not even opened). |
| HubProperties.HitServesStored | sw-hub.js:22-24 | On a hit the stored response is returned and the store is unchanged. The result is the same for every network. |
| HubProperties.MissFetchedIsStored | sw-hub.js:25-28 | On a miss with a network response, that response is returned and stored under the request's key. Every other entry and every other cache is unchanged. |
| HubProperties.OfflineNavigationServesIndex | sw-hub.js:29-33 | A missed navigation whose fetch fails gets the cached `./index.html`, and the store is unchanged. |
| HubProperties.OfflineWithoutFallbackRethrows | sw-hub.js:29-35 | A failed miss with no index fallback (not a navigation, or no `./index.html`) rejects with the network's own error. The only change is that the cache is opened. |
| HubProperties.FetchOnlyWritesRequestKey | sw-hub.js:22-28 | For every request and network, other caches are unchanged. No cached entry is ever removed. Only the request's own key can be added or changed. |
| HubProperties.StoredResponseIsServedAgain | sw-hub.js:22-28 | Once a GET is answered from the cache or the network, a repeat GET of that URL returns the same response from the cache, whatever the network does. |
| HubProperties.ShellIsDistinct | sw-hub.js:3-9 | The shell holds five distinct URLs. |
| HubProperties.InstallAllOrNothing | sw-hub.js:10-13 | Install succeeds iff every shell URL fetches with a storable response, and then each shell URL holds its response. Other entries of the cache are kept. On failure the store is just the opened old one. Other caches are never touched. |
| HubProperties.PartialShellResponseFailsInstall | sw-hub.js:11 | A 206 response to any shell URL makes install fail, and the store is only the opened old one. |
| HubProperties.ActivateKeepsOnlyCurrent | sw-hub.js:15 | After activation a name is present iff it is `apm-hub-v1` and was present before. That cache's contents are unchanged. |
| HubProperties.ActivateIsIdempotent | sw-hub.js:15 | Activating twice gives the same store as activating once. |
| HubProperties.InstallThenActivate | sw-hub.js:10-17 | When every shell fetch gives a storable response, install then activate leaves exactly one cache, `apm-hub-v1`, holding every shell URL. |

## Left out

- Real networking is left out: `fetch` is an oracle from URL to a settled response or an error. A URL always gets the same outcome within one install.
- Promise scheduling is left out. Each handler runs to completion, with no interleaving between events. `waitUntil`/`respondWith` lifetimes are not modelled. The un-awaited `cache.put` at sw-hub.js:27 is assumed to complete.
- Response bodies, `clone()`, headers and `Vary` matching are not modelled. A response is an opaque status and body, and a request key is its URL string as written. `./` and `./index.html` are distinct keys: no resolution against the worker scope.
- Hub.Worker.HandleFetch stores every settled response. The browser's `cache.put` would reject a 206 or `Vary: *` response, and since the put is not awaited nothing would then be stored.
- Quota and storage failures are not modelled, except the all-or-nothing failure of `addAll`.
- The effects of `skipWaiting` and `clients.claim` on open pages are recorded only as flags. The browser's scheduling of the life-cycle phases is represented by `phase`.
- Order of deletion in activation and of the parallel fetches in `addAll` is not modelled: both are set/sequence iterations whose result does not depend on order.
