# CachingBreedFetcher in Dafny

A model of `CachingBreedFetcher` from the DogBreedFetcher repository. This class is a memoizing
decorator around a `BreedFetcher`. Given a breed name, it returns the list of that breed's
sub-breed names. On a cache miss it asks the underlying fetcher and stores a successful answer.
On a cache hit it serves the stored list. It also counts how many calls reach the underlying fetcher.

Files:

- `breed_fetcher.dfy` (module `BreedFetcher`): the outcome of a lookup, `Ok(subBreeds)` or
  `NotFound`. `NotFound` stands in for `BreedNotFoundException`. This file also defines the
  underlying fetcher as a total function `Provider = string -> FetchResult`.
- `cache_model.dfy` (module `CacheModel`): the cache layer as a pure state machine.
  - `State` holds the cache and the counter. `Lookup` is one call of `getSubBreeds`.
  - `Consistent` is the object invariant, taken relative to the log of names the fetcher was asked for.
  - `Run` applies a sequence of calls.
  - `Successes` and `Misses` are independent reference definitions of the cache and the counter
    after such a sequence.
- `caching_breed_fetcher.dfy` (module `Caching`): the class `CachingBreedFetcher`.
  - The bound fetcher is a `const`. `cache` and `callsMade` are mutable fields. A ghost field
    `requested` logs every call to the fetcher.
  - `GetSubBreeds` updates the fields in place, and its contract ties the new state to `Lookup`.
  - `GetCallsMade` only reads the state.
- `scenarios.dfy` (module `Scenarios`): client methods that use only the class's contracts. They
  prove four usage scenarios:
  - a known breed looked up twice;
  - an empty sub-breed list, which is cached;
  - an unknown breed looked up three times;
  - two different breeds.

Keys are exact strings with no normalisation. An empty list is a success and is cached, which
keeps it separate from `NotFound`.

## Model

| member | source | states |
|---|---|---|
| Caching.CachingBreedFetcher.constructor | src/main/java/dogapi/CachingBreedFetcher.java:16-22 | a new fetcher has an empty cache, a zero counter and the given delegate bound, and satisfies the invariant |
| Caching.CachingBreedFetcher.GetSubBreeds | src/main/java/dogapi/CachingBreedFetcher.java:25-44 | hit: returns the cached list, cache and counter unchanged; miss: counter +1, returns the delegate's answer, stores it only on success (cache[breed := list]), leaves the cache unchanged on NotFound; invariant kept; counter >= number of entries |
| Caching.CachingBreedFetcher.GetCallsMade | src/main/java/dogapi/CachingBreedFetcher.java:46-48 | returns the counter without changing anything; the counter equals the number of delegate calls made and is at least the number of cached entries |
| CacheModel.Initial | src/main/java/dogapi/CachingBreedFetcher.java:17-22 | the state of a new instance: no cache entries and a counter of 0 |
| CacheModel.InitialConsistent | src/main/java/dogapi/CachingBreedFetcher.java:17-22 | the starting state satisfies the invariant with an empty log of fetcher calls |
| CacheModel.Lookup | src/main/java/dogapi/CachingBreedFetcher.java:25-44 | the model of one call (a hit returns the stored list and keeps the state; a miss adds 1 to the counter, asks the fetcher and stores only an Ok); its contract: the result is Ok exactly when the name is cached afterwards, an Ok result is the list then cached, and no earlier entry is lost or replaced |
| CacheModel.LookupHit | src/main/java/dogapi/CachingBreedFetcher.java:28-30 | on a hit the result is the stored list and the state (cache and counter) is unchanged |
| CacheModel.LookupMiss | src/main/java/dogapi/CachingBreedFetcher.java:33-36 | on a miss the counter rises by exactly one whether the delegate succeeds or fails, and the delegate's answer is returned unchanged |
| CacheModel.LookupStoresSuccess | src/main/java/dogapi/CachingBreedFetcher.java:36-38 | a successful miss stores exactly the delegate's list (an empty one included) under the name and nothing else |
| CacheModel.LookupFailureNotCached | src/main/java/dogapi/CachingBreedFetcher.java:40-43 | a failed miss stores nothing, passes NotFound on, and the next call with that name is again a counted miss |
| CacheModel.LookupMonotone | src/main/java/dogapi/CachingBreedFetcher.java:28-37 | no entry is ever removed or overwritten, only the requested name can be added, and the counter rises by at most one |
| CacheModel.LookupRepeatIsHit | src/main/java/dogapi/CachingBreedFetcher.java:28-38 | after a successful lookup, the same lookup is a hit with the same result and no state change |
| CacheModel.LookupIndependent | src/main/java/dogapi/CachingBreedFetcher.java:28-37 | a call for one name neither adds, removes nor changes the entry of any other name |
| CacheModel.LookupConsistent | src/main/java/dogapi/CachingBreedFetcher.java:17-43 | every call preserves the invariant: counter = number of delegate calls, a key is cached iff a delegate call for it succeeded, and each entry is the delegate's answer |
| CacheModel.ConsistentBound | src/main/java/dogapi/CachingBreedFetcher.java:17-37 | under the invariant the counter is at least the number of cached entries |
| CacheModel.RunFromInitial | src/main/java/dogapi/CachingBreedFetcher.java:17-43 | after any sequence of calls from a fresh instance, the cache is exactly the names whose lookup succeeds with the delegate's lists, and the counter is exactly the number of calls whose name was not yet successfully looked up |
| CacheModel.MissesBounds | src/main/java/dogapi/CachingBreedFetcher.java:33-37 | for the reference definitions: the number of successful names is at most the number of misses, which is at most the number of calls |
| CacheModel.RunCallsBounds | src/main/java/dogapi/CachingBreedFetcher.java:33-37 | after any sequence of calls from a fresh instance, the counter lies between the number of cached names and the number of calls |
| CacheModel.FailuresAllCounted | src/main/java/dogapi/CachingBreedFetcher.java:33-43 | from a fresh instance, repeating a name whose lookup fails counts every call and caches nothing |
| CacheModel.SuccessCountedOnce | src/main/java/dogapi/CachingBreedFetcher.java:28-38 | from a fresh instance, repeating a name whose lookup succeeds costs exactly one delegate call and caches only that name with the delegate's list |
| Scenarios.TwiceKnown | src/main/java/dogapi/CachingBreedFetcher.java:25-48 | two lookups of a known breed both return the delegate's list and the counter reads 1 |
| Scenarios.Labrador | src/main/java/dogapi/CachingBreedFetcher.java:25-48 | "labrador" returns ["spaniel", "retriever"] twice with one delegate call |
| Scenarios.Shiba | src/main/java/dogapi/CachingBreedFetcher.java:25-48 | an empty sub-breed list is returned twice with one delegate call, so it is cached |
| Scenarios.ThriceUnknown | src/main/java/dogapi/CachingBreedFetcher.java:25-48 | three lookups of an unknown breed each fail with NotFound and the counter reads 3 |
| Scenarios.TwoBreeds | src/main/java/dogapi/CachingBreedFetcher.java:25-48 | a hit on one breed does not affect the result or counting of another; two distinct breeds cost two calls |

## Left out

- The real underlying fetcher (the HTTP/JSON DogApi fetcher) is network I/O and parsing and is not part of this model. It is represented by a total function `Provider` from name to `Ok(list)` or `NotFound`.
- Because the `Provider` is a function, the fetcher is modelled as deterministic. A fetcher whose answer for the same name changes over time is not captured. As a result, the invariant "each cached list is the provider's answer for its key" relies on determinism.
- Unchecked exceptions from the underlying fetcher, other than `BreedNotFoundException`, are not modelled. Like `NotFound`, such an exception would be counted, not cached and propagated.
- The Java catch-and-rethrow is modelled as a branch on the result, because it does nothing beyond "do not cache, propagate".
- `null` breed names and `null` lists returned by the fetcher are not modelled, because strings and sequences are values here.
- Mutable `List` aliasing is not modelled. The cached list and the returned list are the same object in Java; here lists are immutable sequences.
- `HashMap` hashing and capacity are not modelled. The cache is a Dafny `map`.
- Concurrency is not modelled. The source has no synchronisation.
- Caching.CachingBreedFetcher.GetSubBreeds: `callsMade` is an unbounded `nat`, so the wrap-around of the Java `int` after 2^31 - 1 calls is not modelled.
