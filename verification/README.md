# Async state, race guard and Pokemon cache of advanced-react-hooks

A Dafny model of the logic in the `src/exercise` files of the advanced-react-hooks exercises. The
React wiring is left out. What is modelled:

- **Race-guarded `useAsync`** (`GuardedAsync`, `02.extra-3.tsx`). The state is idle, pending on a
  promise, resolved with data, or rejected with an error. Promise identity is a `Token` (a `nat`).
  `pending` always takes over. `resolved` and `rejected` apply only while their promise is the one
  the state awaits. `run` is a protocol of events: `Begin(t)`, then later `Succeed(t, d)` or
  `Fail(t, e)`. Interleavings are written as explicit event sequences.
- **Unguarded `useAsync`** (`UnguardedAsync`, `02.tsx`, `02.extra-1.tsx`, `02.extra-2.tsx`). These
  three files share one reducer. It applies every completion, so the last completion to arrive
  wins. When the callback yields no promise, nothing is dispatched.
- **Pokemon cache** (`PokemonCache`, `CachedPokemonInfo`, `03.extra-2.tsx`, `03.extra-3.tsx`).
  `ADD_POKEMON` inserts into a `map<string, D>`. The `PokemonInfo` effect follows a three-way
  rule: do nothing for an empty name, serve a cached name, fetch any other. On success the fetch
  writes the cache before the data reaches `run`. A session model follows the cache and the
  fetches issued across a sequence of observations and fetch settlements. A settlement names the
  fetch it settles by its issue index, so it writes the name that fetch captured.
- **Counter reducers** (`ReplaceCounter`, `StepCounter`, `MergeCounter`, `UpdaterCounter`,
  `TypedCounter`, `01*.tsx`).

Every reducer that throws is modelled with a `Result`. The message is the one its `default`
branch throws: `Unhandled action type: <type>`.

Three behaviours of the code deserve stating plainly:

- `reset` is declared in the action type, but no reducer has a case for it. It reaches the
  `default` branch and throws (`GuardedAsync.ResetThrows`).
- An empty name makes the effect return early, so the state stays as it was
  (`GuardedAsync.EffectOutcome`, `UnguardedAsync.EmptyNameDispatchesNothing`).
- The cache write sits in the fetch's own continuation, whatever `run` later does with the
  settlement. A superseded fetch therefore still writes the cache
  (`CachedPokemonInfo.SupersededFetchStillCaches`).

## Model

| member | source | states |
|---|---|---|
| GuardedAsync.Initial | src/exercise/02.extra-3.tsx:93-97 | The state starts idle and well shaped: no data, no error, no awaited promise. |
| GuardedAsync.Reduce | src/exercise/02.extra-3.tsx:48-88 | `reset` throws and nothing else does. `pending(p)` yields pending on `p` with no data or error. A completion changes the state only if its promise is the awaited one. When it matches, it settles the state and clears the promise. The union's shape invariant is kept. |
| GuardedAsync.Dispatched | src/exercise/02.extra-3.tsx:99-109 | Every action `run` dispatches carries that run's own promise. `run` never dispatches `reset`. |
| GuardedAsync.RunEvents | src/exercise/02.extra-3.tsx:99-109 | One `run` contributes `pending` first and one completion for the same promise after it. |
| GuardedAsync.ResetThrows | src/exercise/02.extra-3.tsx:84-86 | `reset` falls to the default and throws `Unhandled action type: reset`. It does not return to idle. |
| GuardedAsync.IdleIgnoresCompletions | src/exercise/02.extra-3.tsx:93-97 | The initial state is idle and well shaped, and awaits no promise. Any completion arriving there leaves it unchanged. |
| GuardedAsync.StaleCompletionIsNoOp | src/exercise/02.extra-3.tsx:61-83 | A completion whose promise is not the awaited one returns the state unchanged. |
| GuardedAsync.SecondCompletionIsNoOp | src/exercise/02.extra-3.tsx:61-83 | An applied completion settles the state and clears the promise, so any later completion is a no-op. |
| GuardedAsync.BeginOverwrites | src/exercise/02.extra-3.tsx:53-60 | `pending(p)` from any state awaits `p` with null data and error, overwriting any earlier promise. |
| GuardedAsync.ReplayKeepsConsistent | src/exercise/02.extra-3.tsx:16-40 | Any sequence of protocol events keeps the state in one of the union's four shapes. |
| GuardedAsync.PromiseIsLastBegun | src/exercise/02.extra-3.tsx:99-109 | From the initial state, the awaited promise is always the latest `run`'s promise, or none. |
| GuardedAsync.SupersededCompletionIgnored | src/exercise/02.extra-3.tsx:61-83 | A completion for any promise other than the latest run's leaves the state unchanged. |
| GuardedAsync.LatestCompletionApplies | src/exercise/02.extra-3.tsx:61-69 | While the latest run is still pending, its completion is applied. |
| GuardedAsync.StaleCompletionInvisible | src/exercise/02.extra-3.tsx:99-109 | A superseded completion can arrive anywhere in the event sequence. Removing it does not change the final state. |
| GuardedAsync.RaceKeepsNewest | src/exercise/02.extra-3.tsx:99-109 | Issue A, then B, then complete both in either order: the final state is B's result. |
| GuardedAsync.EffectEvents | src/exercise/02.extra-3.tsx:117-125 | The effect issues no run exactly when the name is empty. A non-empty name issues exactly one run of the fetched promise: its `pending`, then its own completion, and no other event. |
| GuardedAsync.EffectOutcome | src/exercise/02.extra-3.tsx:117-120 | An empty name leaves the state as it was. A non-empty name whose run completes with no race settles the state by that completion. |
| UnguardedAsync.Reduce | src/exercise/02.tsx:46-67 | `reset` throws and nothing else does. Every other action fixes the status, data and error on its own, whatever the prior state. The result is always well shaped. |
| UnguardedAsync.DispatchFailsIffReset | src/exercise/02.tsx:63-65 | A sequence of dispatches throws exactly when it contains `reset`. |
| UnguardedAsync.LastCompletionWins | src/exercise/02.tsx:55-62 | Whatever was dispatched before, the last completion alone determines the state. |
| UnguardedAsync.StaleCompletionOverwrites | src/exercise/02.tsx:88-95 | Issue A, issue B, B resolves, then A resolves: A's stale data is what remains. |
| UnguardedAsync.EffectDispatches | src/exercise/02.tsx:81-98 | The effect dispatches nothing exactly when the callback yields no promise. A yielded promise is run: `pending`, then that promise's own completion, and nothing else. |
| UnguardedAsync.EffectSettles | src/exercise/02.tsx:87-95 | When an effect runs a promise, from any state it passes through pending and ends in the state the settlement dictates. This holds for the callback effect and for the `PokemonInfo` effect on a non-empty name. |
| UnguardedAsync.NoPromiseNoDispatch | src/exercise/02.tsx:82-85 | With no promise the effect dispatches nothing, and the state stays. |
| UnguardedAsync.DispatchKeepsConsistent | src/exercise/02.extra-1.tsx:50-55 | Data and error stay mutually exclusive, and tied to the status, through any dispatches. |
| UnguardedAsync.Initial | src/exercise/02.extra-1.tsx:65-69 | The state starts idle and well shaped: neither data nor error. |
| UnguardedAsync.PendingClears | src/exercise/02.extra-1.tsx:47-49 | `pending` from any state clears data and error. |
| UnguardedAsync.PokemonCallback | src/exercise/02.extra-1.tsx:92-98 | The callback yields no promise exactly when the name is empty. |
| UnguardedAsync.EmptyNameDispatchesNothing | src/exercise/02.extra-1.tsx:92-95 | An empty name dispatches nothing, through the callback and through the `run` effect alike. |
| UnguardedAsync.CompletionIgnoresPriorState | src/exercise/02.extra-2.tsx:51-56 | There is no guard: a completion gives the same result on every state, idle included. |
| UnguardedAsync.Run | src/exercise/02.extra-2.tsx:72-82 | `run` dispatches `pending` and then exactly one completion. |
| UnguardedAsync.RunSettles | src/exercise/02.extra-2.tsx:73-81 | After `pending` the state is pending. After the completion it is the settlement's state. |
| UnguardedAsync.PokemonEffect | src/exercise/02.extra-2.tsx:90-96 | The effect issues no run exactly when the name is empty. A non-empty name runs the fetched promise: `pending`, then its completion, and nothing else. |
| PokemonCache.Reduce | src/exercise/03.extra-2.tsx:27-39 | `ADD_POKEMON(n, d)` makes `n` map to `d`. It adds at most `n` to the key set and leaves every other entry unchanged. Every tag other than `ADD_POKEMON` throws `Unhandled action type: <tag>`. |
| PokemonCache.EmptyCache | src/exercise/03.extra-2.tsx:48 | The cache starts with no names. |
| PokemonCache.AddLastWriteWins | src/exercise/03.extra-2.tsx:33 | For one name, the last write wins. |
| PokemonCache.AddIdempotent | src/exercise/03.extra-3.tsx:32 | Adding the same pair twice equals adding it once. |
| PokemonCache.AddCommutesOnDistinctNames | src/exercise/03.extra-3.tsx:31-33 | Writes to different names give the same lookups in either order. |
| PokemonCache.PreviousPokemon | src/exercise/03.extra-2.tsx:116 | The "Previous Pokemon" list holds exactly the cache's names, each once. |
| CachedPokemonInfo.Decide | src/exercise/03.extra-2.tsx:80-92 | An empty name means no-op. A cached name is served its cached data. Any other name is fetched. |
| CachedPokemonInfo.FetchContinuation | src/exercise/03.extra-3.tsx:81-85 | `run` receives the fetch's own settlement exactly once, last. One cache write, and only one, happens exactly on success, for the name captured at issue time, and before the hand-over. |
| CachedPokemonInfo.ContinuationWrites | src/exercise/03.extra-2.tsx:86-90 | A successful fetch writes its entry. A failed fetch leaves the cache as it was. |
| CachedPokemonInfo.Step | src/exercise/03.extra-2.tsx:80-92 | An observation never writes the cache, and issues a fetch for its name exactly when the rule says fetch. A settlement issues nothing. It changes nothing when it fails or settles no issued fetch. On success it writes the data under the name its own fetch captured. |
| CachedPokemonInfo.EmptyNameDoesNothing | src/exercise/03.extra-3.tsx:76-77 | Observing an empty name neither fetches nor changes anything. |
| CachedPokemonInfo.ObserveFetchesOnlyOnMiss | src/exercise/03.extra-3.tsx:75-87 | A cached name is served with no fetch. An uncached name issues exactly one fetch. |
| CachedPokemonInfo.CachedNamesAreFulfilled | src/exercise/03.extra-2.tsx:86-90 | From a fresh scope, the cached names are exactly the names of the issued fetches that a settlement fulfilled. |
| CachedPokemonInfo.CachedNamesWereFetched | src/exercise/03.extra-2.tsx:83-88 | A name is in the cache only if a fetch was issued for it. |
| CachedPokemonInfo.FetchesOnlyGrow | src/exercise/03.extra-2.tsx:86-88 | Issued fetches are never withdrawn or renamed, so a fetch settles under the name it captured when issued. |
| CachedPokemonInfo.FetchesAreNonEmpty | src/exercise/03.extra-2.tsx:81-86 | No fetch is ever issued for an empty name. |
| CachedPokemonInfo.CacheHitAfterFetch | src/exercise/03.extra-2.tsx:80-93 | Observe "ditto", the fetch succeeds, observe "ditto" again: one fetch in all, and the second observation is served the fetched data. |
| CachedPokemonInfo.SupersededFetchStillCaches | src/exercise/03.extra-2.tsx:86-91 | When "a" is superseded by "b" and settles last, its data is still written to the cache. |
| ReplaceCounter.CountReducer | src/exercise/01.tsx:8 | The dispatched value becomes the count. |
| ReplaceCounter.Increment | src/exercise/01.tsx:13 | The value dispatched from a rendered count moves that count up by `step`. |
| ReplaceCounter.Decrement | src/exercise/01.tsx:14 | The value dispatched from a rendered count moves that count down by `step`. |
| ReplaceCounter.ReducerReplaces | src/exercise/01.tsx:8 | The dispatched value becomes the count, whatever the previous state. Dispatching the same value twice equals dispatching it once. |
| ReplaceCounter.IncrementThenDecrement | src/exercise/01.tsx:13-14 | Increment, a re-render, then decrement returns to the count. Both handlers fired from one render leave `count - step` instead. |
| StepCounter.CountReducer | src/exercise/01.extra-1.tsx:6 | Each dispatch moves the count by exactly the dispatched step. |
| StepCounter.DispatchAllAddsSum | src/exercise/01.extra-1.tsx:6 | Any sequence of dispatched steps moves the count by their sum. |
| StepCounter.StepArithmetic | src/exercise/01.extra-1.tsx:9-11 | A step of 0 is the identity, two steps add, and `+step` then `-step` restores the count. |
| MergeCounter.Merge | src/exercise/01.extra-2.tsx:10-16 | A partial that has `count` replaces the count. One without `count` leaves the state unchanged. |
| MergeCounter.Increment | src/exercise/01.extra-2.tsx:24 | The object carries a `count`, and merged over the rendered state it moves the count up by `step`. |
| MergeCounter.Decrement | src/exercise/01.extra-2.tsx:25 | The object carries a `count`, and merged over the rendered state it moves the count down by `step`. |
| MergeCounter.MergeIdempotent | src/exercise/01.extra-2.tsx:13-16 | Merging the same partial again changes nothing, and the empty partial is the identity. |
| MergeCounter.HandlersMoveByStep | src/exercise/01.extra-2.tsx:23-25 | Increment sets `count + step` and decrement sets `count - step`. One after the other, across a render, they restore the count. |
| UpdaterCounter.CountReducer | src/exercise/01.extra-3.tsx:10-22 | The count comes from the function's result on the current state, or from the object, when that result has a `count`. When it has none, the state is unchanged. |
| UpdaterCounter.Increment | src/exercise/01.extra-3.tsx:29-30 | The updater moves whatever count is current up by `step`. |
| UpdaterCounter.Decrement | src/exercise/01.extra-3.tsx:31-32 | The updater moves whatever count is current down by `step`. |
| UpdaterCounter.IncrementThenDecrementRestores | src/exercise/01.extra-3.tsx:29-32 | The updaters yield `count ± step` from the current state. Increment then decrement restores the count even within one render. |
| UpdaterCounter.CountlessResultKeepsCount | src/exercise/01.extra-3.tsx:16-21 | An action whose result lacks `count` leaves the state unchanged. |
| TypedCounter.ParseTag | src/exercise/01.extra-4.tsx:19-25 | `increment` and `decrement` select their cases and every other tag reaches the default. The tag reads back as the text it came from. |
| TypedCounter.CountReducer | src/exercise/01.extra-4.tsx:15-27 | `increment` adds exactly 1 and `decrement` subtracts exactly 1. Any other type returns the state unchanged, with no throw. |
| TypedCounter.Increment | src/exercise/01.extra-4.tsx:34 | The action moves the count up by `step` under the corrected reducer, and by 1 under the reducer as written. |
| TypedCounter.Decrement | src/exercise/01.extra-4.tsx:35 | The action moves the count down by `step` under the corrected reducer, and by 1 under the reducer as written. |
| TypedCounter.StepIgnored | src/exercise/01.extra-4.tsx:34-35 | The result does not depend on the dispatched `step`. With step 5, an increment still moves the count by 1. |
| TypedCounter.IncrementThenDecrementRestores | src/exercise/01.extra-4.tsx:20-23 | Increment then decrement restores the count. |
| TypedCounter.CountReducerWithStep | src/exercise/01.extra-4.tsx:6-9 | Corrected reducer: it moves the count by the action's `step`. |
| TypedCounter.StepHonoured | src/exercise/01.extra-4.tsx:29-35 | With the step honoured, increment then decrement restores the count. The two reducers agree exactly when the step is 1. |

## Left out

- JSX rendering, the status-to-view switches, and re-throwing a rejected error to `PokemonErrorBoundary`. These belong to the view.
- React scheduling: `useEffect` dependency re-runs, `useCallback` memoisation and render timing. Completions are explicit event sequences, not real promise concurrency.
- `fetchPokemon` and the network. A fetch is an opaque `Settlement`: fulfilled with data or rejected with an error, supplied by the caller of each lemma.
- The random fetch delay in `02.extra-3.tsx` (`Math.random() * 5000`). It is floating point and only affects timing; the event order stands for it.
- `useAsync` and `setData` from `src/utils` are not part of this model. The `03.*` model therefore stops at the decision, the cache writes and the settlement handed to `run`. Serving is only the `Serve` outcome of `CachedPokemonInfo.Decide`.
- `src/exercise/03.tsx` and `src/exercise/03.extra-1.tsx`. These only provide context around `useState`.
- Object identity beyond promise tokens. The lemmas that need distinct promises take distinct tokens as a hypothesis; minting fresh tokens is not modelled.
- Truthiness of cache values: a name counts as cached when it is present. A `null` name (the initial `useState(null)` in `03.*`) is falsy like the empty string and is modelled as `""`.
- The initial counts: each `Counter` starts from its `initialCount` prop. The model takes the starting count as a parameter.
- JavaScript numbers are doubles; counts are unbounded integers, so precision loss beyond 2^53 is not modelled.
- PokemonCache.PreviousPokemon: the order of the list is not modelled. `Object.keys` lists integer-like names first in ascending order, then the other names in first-insertion order, and re-adding a name keeps its place. The cache is a `map`, which has no order, so only the set of names and their distinctness are stated.
- PokemonCache.AddCommutesOnDistinctNames: holds for lookups only. In the source the two write orders list the names in different orders under "Previous Pokemon".
- CachedPokemonInfo.Decide: the hit test is the property read `cache[pokemonName]`, which also sees names inherited from `Object.prototype` such as `constructor`, `toString` or `valueOf`. For such a name on an empty cache the source calls `setData` with that function instead of fetching. The model counts only present names as hits, and so do CachedPokemonInfo.Step, CachedPokemonInfo.ObserveFetchesOnlyOnMiss and CachedPokemonInfo.CacheHitAfterFetch, which build on it.
- CachedPokemonInfo.Step: a fetch's promise settles once, but the session inputs may settle the same fetch index again, and each such settlement writes once more. Every lemma over all input sequences therefore also holds for the real sequences, which settle each fetch at most once.
- MergeCounter.Merge: a partial that carries an explicit `count: undefined` would overwrite the count with `undefined`; the model only has a present or absent `count`.

## Findings

| source | as written | input that shows it | evidently intended | confidence | as-written member | corrected member |
|---|---|---|---|---|---|---|
| src/exercise/01.extra-4.tsx:20-23 | `increment` and `decrement` add and subtract 1, ignoring the `step` that the action type declares and the handlers dispatch | a `Counter` with `step` 5: one increment moves the count from 0 to 1 | move the count by `action.step` | medium; not executed | TypedCounter.StepIgnored | TypedCounter.CountReducerWithStep |
