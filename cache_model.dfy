/** The caching layer as a pure state machine: a state is the cache and the
    counter of delegate calls, and `Lookup` is one call of getSubBreeds. */
module CacheModel {
  import opened BreedFetcher

  datatype State = State(cache: map<string, seq<string>>, callsMade: nat)

  /** What one call returns to its caller, and the state it leaves behind. */
  datatype Outcome = Outcome(state: State, result: FetchResult)

  /** A freshly constructed cache: no entries, no delegate calls yet. */
  function Initial(): (s: State)
    ensures s.cache.Keys == {} && s.callsMade == 0
  {
    State(map[], 0)
  }

  /** One call of getSubBreeds(breed): a hit serves the stored list; a miss
      counts the call first, asks the provider, and stores only a success. */
  function Lookup(p: Provider, s: State, breed: string): (o: Outcome)
    // what the caller receives is what the cache holds for the name afterwards
    ensures o.result.Ok? <==> breed in o.state.cache
    ensures o.result.Ok? ==> o.state.cache[breed] == o.result.subBreeds
    // nothing stored before is lost or replaced
    ensures s.cache.Keys <= o.state.cache.Keys
    ensures forall b :: b in s.cache ==> o.state.cache[b] == s.cache[b]
  {
    if breed in s.cache then
      Outcome(s, Ok(s.cache[breed]))
    else
      var counted := State(s.cache, s.callsMade + 1);
      match p(breed)
      case Ok(subs) => Outcome(State(s.cache[breed := subs], counted.callsMade), Ok(subs))
      case NotFound => Outcome(counted, NotFound)
  }

  /** The names in a sequence, as a set. */
  function Names(log: seq<string>): set<string>
  {
    set b | b in log
  }

  /** The object invariant of the cache, relative to `log`, the sequence of
      names the provider has been asked for so far: the counter is the number
      of provider calls, a key is cached exactly when a lookup of it succeeded,
      and every cached list is what the provider returned for its key. */
  ghost predicate Consistent(p: Provider, s: State, log: seq<string>)
  {
    && s.callsMade == |log|
    && (forall b :: b in s.cache ==> b in log && p(b) == Ok(s.cache[b]))
    && (forall b :: b in log && p(b).Ok? ==> b in s.cache)
  }

  /** The provider log after one call: a miss appends the name asked for. */
  function Logged(s: State, log: seq<string>, breed: string): seq<string>
  {
    if breed in s.cache then log else log + [breed]
  }

  // ---------------------------------------------------------------------------
  // Properties of a single call

  /** A hit returns the stored list and changes neither the cache nor the counter. */
  lemma LookupHit(p: Provider, s: State, breed: string)
    requires breed in s.cache
    ensures Lookup(p, s, breed).result == Ok(s.cache[breed])
    ensures Lookup(p, s, breed).state == s
  {
  }

  /** A miss raises the counter by exactly one, whatever the provider answers,
      and returns the provider's answer unchanged. */
  lemma LookupMiss(p: Provider, s: State, breed: string)
    requires breed !in s.cache
    ensures Lookup(p, s, breed).state.callsMade == s.callsMade + 1
    ensures Lookup(p, s, breed).result == p(breed)
  {
  }

  /** A successful miss stores the provider's list, even an empty one, under
      the name asked for, and adds nothing else. */
  lemma LookupStoresSuccess(p: Provider, s: State, breed: string)
    requires breed !in s.cache && p(breed).Ok?
    ensures Lookup(p, s, breed).state.cache == s.cache[breed := p(breed).subBreeds]
    ensures breed in Lookup(p, s, breed).state.cache
  {
  }

  /** A failed miss stores nothing and passes NotFound on; the next call with
      the same name is again a miss and is counted again. */
  lemma {:induction false} LookupFailureNotCached(p: Provider, s: State, breed: string)
    requires breed !in s.cache && p(breed) == NotFound
    ensures Lookup(p, s, breed).result == NotFound
    ensures Lookup(p, s, breed).state.cache == s.cache
    ensures breed !in Lookup(p, s, breed).state.cache
    ensures Lookup(p, Lookup(p, s, breed).state, breed).result == NotFound
    ensures Lookup(p, Lookup(p, s, breed).state, breed).state.callsMade == s.callsMade + 2
  {
    var s1 := Lookup(p, s, breed).state;
    assert s1 == State(s.cache, s.callsMade + 1);
  }

  /** Entries are never removed or overwritten, a call adds at most the entry
      for its own name, and the counter never goes down. */
  lemma LookupMonotone(p: Provider, s: State, breed: string)
    ensures forall b :: b in s.cache ==>
      b in Lookup(p, s, breed).state.cache && Lookup(p, s, breed).state.cache[b] == s.cache[b]
    ensures Lookup(p, s, breed).state.cache.Keys <= s.cache.Keys + {breed}
    ensures s.callsMade <= Lookup(p, s, breed).state.callsMade <= s.callsMade + 1
  {
  }

  /** A name whose lookup succeeded is served from the cache from then on:
      asking again gives the same list and no provider call. */
  lemma LookupRepeatIsHit(p: Provider, s: State, breed: string)
    requires Lookup(p, s, breed).result.Ok?
    ensures breed in Lookup(p, s, breed).state.cache
    ensures Lookup(p, Lookup(p, s, breed).state, breed) == Lookup(p, s, breed)
  {
  }

  /** Lookups of two different names do not interfere: the entry of the other
      name is left as it was. */
  lemma LookupIndependent(p: Provider, s: State, breed: string, other: string)
    requires other != breed
    ensures other in Lookup(p, s, breed).state.cache <==> other in s.cache
    ensures other in s.cache ==> Lookup(p, s, breed).state.cache[other] == s.cache[other]
  {
  }

  // ---------------------------------------------------------------------------
  // The invariant

  lemma InitialConsistent(p: Provider)
    ensures Consistent(p, Initial(), [])
  {
  }

  /** Every call keeps the invariant, with the provider log extended by the
      name asked for exactly when the call was a miss. */
  lemma LookupConsistent(p: Provider, s: State, log: seq<string>, breed: string)
    requires Consistent(p, s, log)
    ensures Consistent(p, Lookup(p, s, breed).state, Logged(s, log, breed))
  {
    var s' := Lookup(p, s, breed).state;
    var log' := Logged(s, log, breed);
    forall b | b in log' && p(b).Ok?
      ensures b in s'.cache
    {
      if b != breed {
        assert b in log;
      }
    }
  }

  /** The number of distinct names in a sequence is at most its length. */
  lemma {:induction false} NamesBound(log: seq<string>)
    ensures |Names(log)| <= |log|
  {
    if log != [] {
      var n := |log| - 1;
      NamesBound(log[..n]);
      assert log == log[..n] + [log[n]];
      assert Names(log) == Names(log[..n]) + {log[n]};
    }
  }

  /** The counter is at least the number of cached entries, since every entry
      was stored on a miss that was counted. */
  lemma ConsistentBound(p: Provider, s: State, log: seq<string>)
    requires Consistent(p, s, log)
    ensures s.callsMade >= |s.cache|
  {
    assert s.cache.Keys <= Names(log);
    SubsetCard(s.cache.Keys, Names(log));
    NamesBound(log);
  }

  lemma {:induction false} SubsetCard(a: set<string>, b: set<string>)
    requires a <= b
    ensures |a| <= |b|
  {
    if a != {} {
      var x :| x in a;
      SubsetCard(a - {x}, b - {x});
    }
  }

  // ---------------------------------------------------------------------------
  // Sequences of calls

  /** The state after asking for `names`, in order, starting from `s`. */
  function Run(p: Provider, s: State, names: seq<string>): State
    decreases |names|
  {
    if names == [] then s
    else Lookup(p, Run(p, s, names[..|names| - 1]), names[|names| - 1]).state
  }

  /** Reference definition of the cache after a sequence of calls: exactly
      the names whose lookup succeeds, each with the provider's list. */
  function Successes(p: Provider, names: seq<string>): (m: map<string, seq<string>>)
    ensures forall b :: b in m <==> b in names && p(b).Ok?
  {
    map b | b in names && p(b).Ok? :: p(b).subBreeds
  }

  /** Reference definition of the counter after a sequence of calls: the
      calls whose name had not yet been looked up successfully. */
  function Misses(p: Provider, names: seq<string>): (n: nat)
    ensures n <= |names|
    decreases |names|
  {
    if names == [] then 0
    else
      var earlier, last := names[..|names| - 1], names[|names| - 1];
      Misses(p, earlier) + (if last in earlier && p(last).Ok? then 0 else 1)
  }

  /** From a fresh cache, any sequence of calls leaves exactly the successful
      names cached and counts exactly the misses. */
  lemma {:induction false} RunFromInitial(p: Provider, names: seq<string>)
    ensures Run(p, Initial(), names).cache == Successes(p, names)
    ensures Run(p, Initial(), names).callsMade == Misses(p, names)
    decreases |names|
  {
    if names != [] {
      var earlier, last := names[..|names| - 1], names[|names| - 1];
      RunFromInitial(p, earlier);
      var before := Run(p, Initial(), earlier);
      assert names == earlier + [last];
      assert forall b :: b in names <==> b in earlier || b == last;
      var after := Successes(p, names);
      if last in before.cache {
        assert after == Successes(p, earlier);
      } else if p(last).Ok? {
        assert after == before.cache[last := p(last).subBreeds];
      } else {
        assert after == Successes(p, earlier);
      }
    }
  }

  /** From a fresh cache, repeated calls with one name whose lookup fails are
      all counted and leave the cache empty. */
  lemma {:induction false} FailuresAllCounted(p: Provider, breed: string, names: seq<string>)
    requires p(breed) == NotFound
    requires forall i :: 0 <= i < |names| ==> names[i] == breed
    ensures Misses(p, names) == |names|
    ensures Run(p, Initial(), names).callsMade == |names|
    ensures Run(p, Initial(), names).cache == map[]
    decreases |names|
  {
    if names != [] {
      FailuresAllCounted(p, breed, names[..|names| - 1]);
    }
    RunFromInitial(p, names);
  }

  /** From a fresh cache, repeated calls with one name whose lookup succeeds
      cost one provider call and leave just that name cached. */
  lemma {:induction false} SuccessCountedOnce(p: Provider, breed: string, names: seq<string>)
    requires p(breed).Ok?
    requires names != []
    requires forall i :: 0 <= i < |names| ==> names[i] == breed
    ensures Misses(p, names) == 1
    ensures Run(p, Initial(), names).callsMade == 1
    ensures Run(p, Initial(), names).cache == map[breed := p(breed).subBreeds]
    decreases |names|
  {
    var earlier := names[..|names| - 1];
    if earlier != [] {
      SuccessCountedOnce(p, breed, earlier);
      assert earlier[0] == breed;
    }
    RunFromInitial(p, names);
    assert names[0] == breed;
    assert Successes(p, names) == map[breed := p(breed).subBreeds];
  }

  /** Bounds on the counter after any sequence of calls from a fresh cache:
      at least one call per cached name, at most one per request. */
  lemma {:induction false} MissesBounds(p: Provider, names: seq<string>)
    ensures |Successes(p, names)| <= Misses(p, names) <= |names|
    decreases |names|
  {
    if names != [] {
      var earlier, last := names[..|names| - 1], names[|names| - 1];
      MissesBounds(p, earlier);
      assert names == earlier + [last];
      assert forall b :: b in names <==> b in earlier || b == last;
      if last in earlier && p(last).Ok? {
        assert Successes(p, names) == Successes(p, earlier);
      } else if p(last).Ok? {
        assert Successes(p, names) == Successes(p, earlier)[last := p(last).subBreeds];
      } else {
        assert Successes(p, names) == Successes(p, earlier);
      }
    }
  }

  /** Bounds on the counter of a fresh instance after any sequence of calls:
      at least one call per cached name, at most one per request. */
  lemma RunCallsBounds(p: Provider, names: seq<string>)
    ensures |Run(p, Initial(), names).cache| <= Run(p, Initial(), names).callsMade <= |names|
  {
    RunFromInitial(p, names);
    MissesBounds(p, names);
  }
}
