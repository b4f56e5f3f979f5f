/** The lookup capability that the cache decorates: given a breed name, the
    list of its sub-breed names, or the "breed not found" failure. */
module BreedFetcher {

  /** Outcome of a lookup. `NotFound` stands for a thrown
      BreedNotFoundException; an empty `Ok([])` is a success, not a failure. */
  datatype FetchResult = Ok(subBreeds: seq<string>) | NotFound

  /** The underlying fetcher, seen as an opaque total function from the exact
      breed name (no normalisation) to its answer. */
  type Provider = string -> FetchResult
}
