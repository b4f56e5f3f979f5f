/** Clients of the caching fetcher, proved from the contracts of
    CachingBreedFetcher alone: a known breed looked up twice, an empty
    sub-breed list that is cached, an unknown breed looked up three times,
    and two different breeds. */
module Scenarios {
  import opened BreedFetcher
  import opened Caching

  /** Two lookups of a breed the fetcher knows: both give its list, and only
      the first reaches the fetcher. */
  method TwiceKnown(p: Provider, breed: string) returns (first: FetchResult, second: FetchResult, calls: nat)
    requires p(breed).Ok?
    ensures first == second == p(breed)
    ensures calls == 1
  {
    var c := new CachingBreedFetcher(p);
    first := c.GetSubBreeds(breed);
    second := c.GetSubBreeds(breed);
    calls := c.GetCallsMade();
  }

  /** "labrador" with sub-breeds ["spaniel", "retriever"]. */
  method Labrador(p: Provider) returns (first: FetchResult, second: FetchResult, calls: nat)
    requires p("labrador") == Ok(["spaniel", "retriever"])
    ensures first == second == Ok(["spaniel", "retriever"])
    ensures calls == 1
  {
    first, second, calls := TwiceKnown(p, "labrador");
  }

  /** "shiba" with no sub-breeds: the empty list is cached like any success. */
  method Shiba(p: Provider) returns (first: FetchResult, second: FetchResult, calls: nat)
    requires p("shiba") == Ok([])
    ensures first == second == Ok([])
    ensures calls == 1
  {
    first, second, calls := TwiceKnown(p, "shiba");
  }

  /** Three lookups of a breed the fetcher does not know: each fails and each
      reaches the fetcher. */
  method ThriceUnknown(p: Provider, breed: string) returns (results: seq<FetchResult>, calls: nat)
    requires p(breed) == NotFound
    ensures results == [NotFound, NotFound, NotFound]
    ensures calls == 3
  {
    var c := new CachingBreedFetcher(p);
    var r1 := c.GetSubBreeds(breed);
    var r2 := c.GetSubBreeds(breed);
    var r3 := c.GetSubBreeds(breed);
    results := [r1, r2, r3];
    calls := c.GetCallsMade();
  }

  /** A hit on one breed does not affect counting or results for another. */
  method TwoBreeds(p: Provider, a: string, b: string) returns (ra: FetchResult, rb: FetchResult, calls: nat)
    requires a != b && p(a).Ok?
    ensures ra == p(a) && rb == p(b)
    ensures calls == 2
  {
    var c := new CachingBreedFetcher(p);
    var first := c.GetSubBreeds(a);
    ra := c.GetSubBreeds(a);
    rb := c.GetSubBreeds(b);
    calls := c.GetCallsMade();
  }
}
