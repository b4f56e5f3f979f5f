/** The memoizing decorator itself: an object owning a cache from breed name
    to sub-breed list and a counter of calls made to the underlying fetcher. */
module Caching {
  import opened BreedFetcher
  import opened CacheModel

  class CachingBreedFetcher {
    /** The underlying fetcher, bound once at construction. */
    const fetcher: Provider
    var cache: map<string, seq<string>>
    var callsMade: nat
    /** The names passed to the underlying fetcher so far, in call order. */
    ghost var requested: seq<string>

    /** The abstract state of this object. */
    ghost function Model(): State
      reads this
    {
      State(cache, callsMade)
    }

    ghost predicate Valid()
      reads this
    {
      Consistent(fetcher, Model(), requested)
    }

    constructor (fetcher: Provider)
      ensures Valid()
      ensures this.fetcher == fetcher
      ensures cache == map[] && callsMade == 0 && requested == []
    {
      this.fetcher := fetcher;
      cache := map[];
      callsMade := 0;
      requested := [];
    }

    /** Sub-breeds of `breed`: from the cache on a hit; on a miss the call is
        counted before the underlying fetcher is asked, and only a success is
        stored. NotFound is passed on to the caller. */
    method GetSubBreeds(breed: string) returns (r: FetchResult)
      requires Valid()
      modifies this
      ensures Valid()
      ensures Model() == Lookup(fetcher, old(Model()), breed).state
      ensures r == Lookup(fetcher, old(Model()), breed).result
      ensures requested == Logged(old(Model()), old(requested), breed)
      ensures breed in old(cache) ==>
        r == Ok(old(cache)[breed]) && cache == old(cache) && callsMade == old(callsMade)
      ensures breed !in old(cache) ==>
        r == fetcher(breed) && callsMade == old(callsMade) + 1
      ensures breed !in old(cache) && r.Ok? ==> cache == old(cache)[breed := r.subBreeds]
      ensures breed !in old(cache) && r.NotFound? ==> cache == old(cache)
      ensures callsMade >= |cache|
    {
      LookupConsistent(fetcher, Model(), requested, breed);
      if breed in cache {
        r := Ok(cache[breed]);
        ConsistentBound(fetcher, Model(), requested);
        return;
      }
      callsMade := callsMade + 1;
      requested := requested + [breed];
      r := fetcher(breed);
      if r.Ok? {
        cache := cache[breed := r.subBreeds];
      }
      ConsistentBound(fetcher, Model(), requested);
    }

    /** The number of calls made to the underlying fetcher so far. */
    method GetCallsMade() returns (n: nat)
      requires Valid()
      ensures n == callsMade && n == |requested|
      ensures n >= |cache|
    {
      n := callsMade;
      ConsistentBound(fetcher, Model(), requested);
    }
  }
}
