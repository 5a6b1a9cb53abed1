/** The Pokemon cache of src/exercise/03.extra-2.tsx and 03.extra-3.tsx: a record from Pokemon
    name to its data, grown by `ADD_POKEMON` actions. */
module PokemonCache {
  import opened Results
  import opened AsyncStatus

  /** `PokemonCacheState`: name to data. */
  type Cache<D> = map<string, D>

  /** A `type` tag other than `ADD_POKEMON`. */
  type UnknownTag = t: string | t != "ADD_POKEMON" witness ""

  /** `PokemonCacheAction`. The source's type admits only `ADD_POKEMON`; `Unrecognized` stands for
      any other `type` tag an untyped caller could dispatch, which the reducer's default rejects. */
  datatype CacheAction<D> = AddPokemon(pokemonName: string, pokemonData: D) | Unrecognized(actionType: UnknownTag)

  /** The cache `useReducer` starts from. */
  function EmptyCache<D>(): (c: Cache<D>)
    ensures |c| == 0
  {
    map[]
  }

  /** `pokemonCacheReducer`: `ADD_POKEMON` stores the data under the name, replacing any earlier
      entry and leaving every other name as it was; any other tag throws. */
  function Reduce<D>(cache: Cache<D>, a: CacheAction<D>): (r: Result<Cache<D>>)
    ensures r.Failure? <==> a.Unrecognized?
    ensures a.Unrecognized? ==> r.error == UnhandledActionType(a.actionType)
    ensures a.AddPokemon? ==>
              && r.Success?
              && a.pokemonName in r.value && r.value[a.pokemonName] == a.pokemonData
              && r.value.Keys == cache.Keys + {a.pokemonName}
              && (forall n :: n in cache && n != a.pokemonName ==> r.value[n] == cache[n])
  {
    match a
    case AddPokemon(n, d) => Success(cache[n := d])
    case Unrecognized(t) => Failure(UnhandledActionType(t))
  }

  /** The cache after storing `d` under `n`. */
  function Add<D>(cache: Cache<D>, n: string, d: D): Cache<D>
  {
    Reduce(cache, AddPokemon(n, d)).value
  }

  /** Adding a pair twice is adding it once. */
  lemma AddIdempotent<D>(cache: Cache<D>, n: string, d: D)
    ensures Add(Add(cache, n, d), n, d) == Add(cache, n, d)
  {
  }

  /** For one name the last write wins. */
  lemma AddLastWriteWins<D>(cache: Cache<D>, n: string, d1: D, d2: D)
    ensures Add(Add(cache, n, d1), n, d2) == Add(cache, n, d2)
    ensures Add(Add(cache, n, d1), n, d2)[n] == d2
  {
  }

  /** Writes to different names do not interfere: their order is irrelevant. */
  lemma AddCommutesOnDistinctNames<D>(cache: Cache<D>, n1: string, d1: D, n2: string, d2: D)
    requires n1 != n2
    ensures Add(Add(cache, n1, d1), n2, d2) == Add(Add(cache, n2, d2), n1, d1)
  {
  }

  /** The names listed under "Previous Pokemon": every name in the cache, each exactly once. */
  method PreviousPokemon<D>(cache: Cache<D>) returns (names: seq<string>)
    ensures forall n :: n in names <==> n in cache
    ensures forall i, j :: 0 <= i < j < |names| ==> names[i] != names[j]
  {
    names := [];
    var remaining := cache.Keys;
    while remaining != {}
      invariant remaining <= cache.Keys
      invariant forall n :: n in names <==> n in cache && n !in remaining
      invariant forall i, j :: 0 <= i < j < |names| ==> names[i] != names[j]
      decreases remaining
    {
      var n :| n in remaining;
      names := names + [n];
      remaining := remaining - {n};
    }
  }
}

/** The `PokemonInfo` effect of src/exercise/03.extra-2.tsx and 03.extra-3.tsx: serve a cached
    name, fetch an uncached one and store the fetched data in the cache before handing it on. */
module CachedPokemonInfo {
  import opened AsyncStatus
  import opened PokemonCache

  /** What the effect does for a name: nothing, `setData` with the cached data, or a fetch. */
  datatype Decision<D> = NoOp | Serve(data: D) | Fetch(pokemonName: string)

  /** The effect's three-way rule. The cache is hit when the name is present. */
  function Decide<D>(pokemonName: string, cache: Cache<D>): (r: Decision<D>)
    ensures r.NoOp? <==> pokemonName == ""
    ensures r.Serve? <==> pokemonName != "" && pokemonName in cache
    ensures r.Fetch? <==> pokemonName != "" && pokemonName !in cache
    ensures r.Serve? ==> pokemonName in cache && r.data == cache[pokemonName]
    ensures r.Fetch? ==> r.pokemonName == pokemonName
  {
    if pokemonName == "" then NoOp
    else if pokemonName in cache then Serve(cache[pokemonName])
    else Fetch(pokemonName)
  }

  /** What happens when a fetch settles: a cache write, then the settlement handed to `run`. */
  datatype Effect<D, E> = AddToCache(pokemonName: string, pokemonData: D) | HandToRun(settlement: Settlement<D, E>)

  /** The fetch's continuation: on success `ADD_POKEMON` for the name captured when the fetch was
      issued, then the data is returned to `run`; a rejection passes straight through to `run`. */
  function FetchContinuation<D, E>(pokemonName: string, fetched: Settlement<D, E>): (effs: seq<Effect<D, E>>)
    ensures |effs| == (if fetched.Fulfilled? then 2 else 1)
    ensures |effs| > 0 && effs[|effs| - 1] == HandToRun(fetched)
    ensures (exists i :: 0 <= i < |effs| && effs[i].AddToCache?) <==> fetched.Fulfilled?
    ensures forall i :: 0 <= i < |effs| && effs[i].AddToCache? ==>
              i < |effs| - 1 && effs[i] == AddToCache(pokemonName, fetched.data)
  {
    match fetched
    case Fulfilled(d) =>
      var effs := [AddToCache(pokemonName, d), HandToRun(fetched)];
      assert effs[0].AddToCache?;
      effs
    case RejectedWith(_) => [HandToRun(fetched)]
  }

  /** The cache after the writes among `effs`. */
  function ApplyWrites<D, E>(cache: Cache<D>, effs: seq<Effect<D, E>>): Cache<D>
    decreases |effs|
  {
    if |effs| == 0 then cache
    else
      match effs[0]
      case AddToCache(n, d) => ApplyWrites(Add(cache, n, d), effs[1..])
      case HandToRun(_) => ApplyWrites(cache, effs[1..])
  }

  /** Applying a fetch's continuation writes the fetched entry on success and nothing on failure. */
  lemma {:induction false} ContinuationWrites<D, E>(cache: Cache<D>, pokemonName: string, fetched: Settlement<D, E>)
    ensures fetched.RejectedWith? ==> ApplyWrites(cache, FetchContinuation(pokemonName, fetched)) == cache
    ensures fetched.Fulfilled? ==>
              ApplyWrites(cache, FetchContinuation(pokemonName, fetched)) == Add(cache, pokemonName, fetched.data)
  {
    var effs := FetchContinuation(pokemonName, fetched);
    var last: seq<Effect<D, E>> := [HandToRun(fetched)];
    assert last[1..] == [];
    if fetched.Fulfilled? {
      var added := Add(cache, pokemonName, fetched.data);
      assert effs[1..] == last;
      assert ApplyWrites(added, last) == ApplyWrites(added, last[1..]) == added;
    } else {
      assert ApplyWrites(cache, last) == ApplyWrites(cache, last[1..]) == cache;
    }
  }

  /** The observable part of a cache scope: the cache and every fetch issued, in order. */
  datatype Session<D> = Session(cache: Cache<D>, fetches: seq<string>)

  /** Inputs to a session: the effect runs for a name, or the fetch issued `fetch`-th (counting
      from 0) settles with `outcome`. */
  datatype Input<D, E> = Observe(pokemonName: string) | FetchSettled(fetch: nat, outcome: Settlement<D, E>)

  /** A fresh scope: empty cache, nothing fetched. */
  function Start<D>(): Session<D>
  {
    Session(EmptyCache(), [])
  }

  /** One input. An observation issues a fetch exactly when the rule says so and never writes the
      cache. A settlement issues nothing and, on success, writes the name its own fetch captured.
      A settlement of a fetch that was never issued cannot arrive; it changes nothing. Nor can one
      fetch settle twice, but the inputs do not rule that out: a repeated settlement is simply one
      more input, so every property stated over all input sequences covers the real ones too. */
  function Step<D, E>(s: Session<D>, i: Input<D, E>): (r: Session<D>)
    ensures i.Observe? ==> r.cache == s.cache
    ensures i.Observe? ==> (r.fetches == s.fetches + [i.pokemonName] <==> Decide(i.pokemonName, s.cache).Fetch?)
    ensures i.Observe? && !Decide(i.pokemonName, s.cache).Fetch? ==> r == s
    ensures i.FetchSettled? ==> r.fetches == s.fetches
    ensures i.FetchSettled? && (i.fetch >= |s.fetches| || i.outcome.RejectedWith?) ==> r == s
    ensures i.FetchSettled? && i.fetch < |s.fetches| && i.outcome.Fulfilled? ==>
              r.cache == Add(s.cache, s.fetches[i.fetch], i.outcome.data)
  {
    match i
    case Observe(n) =>
      (match Decide(n, s.cache)
       case Fetch(m) => s.(fetches := s.fetches + [m])
       case _ => s)
    case FetchSettled(k, o) =>
      if k < |s.fetches| then
        ContinuationWrites(s.cache, s.fetches[k], o);
        s.(cache := ApplyWrites(s.cache, FetchContinuation(s.fetches[k], o)))
      else s
  }

  /** The session after `inputs`, in arrival order. */
  function Run<D, E>(s: Session<D>, inputs: seq<Input<D, E>>): Session<D>
    decreases |inputs|
  {
    if |inputs| == 0 then s else Step(Run(s, inputs[..|inputs| - 1]), inputs[|inputs| - 1])
  }

  /** The names some settlement in `inputs` delivered data for: each successful settlement counts
      the name of the fetch it settles, as issued by the inputs before it. */
  function FulfilledNames<D, E>(inputs: seq<Input<D, E>>): set<string>
    decreases |inputs|
  {
    if |inputs| == 0 then {}
    else
      var init := inputs[..|inputs| - 1];
      var last := inputs[|inputs| - 1];
      var issued := Run(Start(), init).fetches;
      FulfilledNames(init)
      + (if last.FetchSettled? && last.outcome.Fulfilled? && last.fetch < |issued| then {issued[last.fetch]} else {})
  }

  /** An empty name changes nothing. */
  lemma EmptyNameDoesNothing<D, E>(s: Session<D>)
    ensures Step<D, E>(s, Observe("")) == s
  {
  }

  /** A cached name is served with no new fetch; an uncached one issues exactly one fetch. */
  lemma ObserveFetchesOnlyOnMiss<D, E>(s: Session<D>, n: string)
    requires n != ""
    ensures n in s.cache ==> Step<D, E>(s, Observe(n)) == s
    ensures n !in s.cache ==> Step<D, E>(s, Observe(n)).fetches == s.fetches + [n]
  {
  }

  /** Issued fetches are never withdrawn or renamed: the fetches after a prefix of the inputs are a
      prefix of the fetches after all of them. So the name a fetch captured is the one it settles. */
  lemma {:induction false} FetchesOnlyGrow<D, E>(inputs: seq<Input<D, E>>, j: nat)
    requires j <= |inputs|
    ensures var before := Run(Start(), inputs[..j]).fetches;
            var after := Run(Start(), inputs).fetches;
            |before| <= |after| && after[..|before|] == before
    decreases |inputs|
  {
    if j < |inputs| {
      var init := inputs[..|inputs| - 1];
      assert inputs[..j] == init[..j];
      FetchesOnlyGrow(init, j);
    } else {
      assert inputs[..j] == inputs;
    }
  }

  /** From a fresh scope, the cached names are exactly those whose fetch succeeded. */
  lemma {:induction false} CachedNamesAreFulfilled<D, E>(inputs: seq<Input<D, E>>)
    ensures Run(Start(), inputs).cache.Keys == FulfilledNames(inputs)
    decreases |inputs|
  {
    if |inputs| > 0 {
      CachedNamesAreFulfilled(inputs[..|inputs| - 1]);
    }
  }

  /** Only names a fetch was issued for ever enter the cache. */
  lemma {:induction false} CachedNamesWereFetched<D, E>(inputs: seq<Input<D, E>>)
    ensures forall n :: n in Run(Start(), inputs).cache ==> n in Run(Start(), inputs).fetches
    decreases |inputs|
  {
    if |inputs| > 0 {
      CachedNamesWereFetched(inputs[..|inputs| - 1]);
    }
  }

  /** Every fetch ever issued is for a non-empty name. */
  lemma {:induction false} FetchesAreNonEmpty<D, E>(inputs: seq<Input<D, E>>)
    ensures forall i :: 0 <= i < |Run(Start(), inputs).fetches| ==> Run(Start(), inputs).fetches[i] != ""
    decreases |inputs|
  {
    if |inputs| > 0 {
      FetchesAreNonEmpty(inputs[..|inputs| - 1]);
    }
  }

  /** Observing "ditto", its fetch succeeding, then observing "ditto" again: one fetch in all, and
      the second observation is served the fetched data. */
  lemma {:induction false} CacheHitAfterFetch<D, E>(d: D)
    ensures var s := Run<D, E>(Start(), [Observe("ditto"), FetchSettled(0, Fulfilled(d)), Observe("ditto")]);
            s.fetches == ["ditto"] && Decide("ditto", s.cache) == Serve(d)
  {
    var inputs: seq<Input<D, E>> := [Observe("ditto"), FetchSettled(0, Fulfilled(d)), Observe("ditto")];
    var s1 := Run(Start(), inputs[..1]);
    assert inputs[..1][..0] == [];
    assert Run(Start<D>(), inputs[..1][..0]) == Start();
    assert s1 == Step(Start(), inputs[0]);
    assert Decide("ditto", EmptyCache<D>()) == Fetch("ditto");
    assert s1 == Session(EmptyCache(), ["ditto"]);
    assert inputs[..2][..1] == inputs[..1];
    var s2 := Run(Start(), inputs[..2]);
    assert s2 == Session(map["ditto" := d], ["ditto"]);
    assert inputs[..3][..2] == inputs[..2];
    assert Run(Start(), inputs) == Step<D, E>(s2, Observe("ditto"));
  }

  /** The cache write sits in the fetch's own continuation, whatever `run` later does with the
      settlement: when the fetch for "a" is superseded by the one for "b" and settles last, its
      data is still written to the cache. */
  lemma {:induction false} SupersededFetchStillCaches<D, E>(da: D, db: D)
    ensures var s := Run<D, E>(Start(), [Observe("a"), Observe("b"), FetchSettled(1, Fulfilled(db)), FetchSettled(0, Fulfilled(da))]);
            s.cache == map["a" := da, "b" := db] && s.fetches == ["a", "b"]
  {
    var inputs: seq<Input<D, E>> := [Observe("a"), Observe("b"), FetchSettled(1, Fulfilled(db)), FetchSettled(0, Fulfilled(da))];
    assert inputs[..1][..0] == [];
    var s1 := Run(Start(), inputs[..1]);
    assert Run(Start<D>(), inputs[..1][..0]) == Start();
    assert s1 == Step(Start(), inputs[0]);
    assert Decide("a", EmptyCache<D>()) == Fetch("a");
    assert s1 == Session(EmptyCache(), ["a"]);
    assert inputs[..2][..1] == inputs[..1];
    var s2 := Run(Start(), inputs[..2]);
    assert s2 == Session(EmptyCache(), ["a", "b"]);
    assert inputs[..3][..2] == inputs[..2];
    var s3 := Run(Start(), inputs[..3]);
    assert s3 == Session(map["b" := db], ["a", "b"]);
    assert inputs[..4][..3] == inputs[..3];
    assert Run(Start(), inputs) == Session(map["b" := db]["a" := da], ["a", "b"]);
    assert map["b" := db]["a" := da] == map["a" := da, "b" := db];
  }
}
