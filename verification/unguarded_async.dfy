/** The unguarded `useAsync` of src/exercise/02.tsx, 02.extra-1.tsx and 02.extra-2.tsx. The three
    files carry the same `asyncReducer`: completions are applied whatever the state, so the last
    completion to arrive decides the result. */
module UnguardedAsync {
  import opened Results
  import opened AsyncStatus

  /** `AsyncState`: the status tag with its data and error fields. */
  datatype State<D, E> = State(status: Status, data: Option<D>, error: Option<E>)

  /** `AsyncAction`. `ResetAction` is declared by the source's type but has no case in the reducer. */
  datatype Action<D, E> = ResetAction | PendingAction | ResolvedAction(data: D) | RejectedAction(error: E)

  /** The state `useReducer` starts from: idle, no data, no error. */
  function Initial<D, E>(): (s: State<D, E>)
    ensures s.status == Idle && Consistent(s)
  {
    State(Idle, None, None)
  }

  /** The four shapes the source's union type admits: data only when resolved, error only when rejected. */
  predicate Consistent<D, E>(s: State<D, E>)
  {
    match s.status
    case Idle => s.data.None? && s.error.None?
    case Pending => s.data.None? && s.error.None?
    case Resolved => s.data.Some? && s.error.None?
    case Rejected => s.data.None? && s.error.Some?
  }

  predicate IsCompletion<D, E>(a: Action<D, E>)
  {
    a.ResolvedAction? || a.RejectedAction?
  }

  /** `asyncReducer`: every handled action determines the next state on its own, with no look at
      the previous one; `reset` reaches the throwing default. */
  function Reduce<D, E>(s: State<D, E>, a: Action<D, E>): (r: Result<State<D, E>>)
    ensures r.Failure? <==> a.ResetAction?
    ensures r.Failure? ==> r.error == UnhandledActionType("reset")
    ensures r.Success? ==> Consistent(r.value)
    ensures a.PendingAction? ==> r.Success? && r.value.status == Pending
    ensures a.ResolvedAction? ==> r.Success? && r.value.status == Resolved && r.value.data == Some(a.data)
    ensures a.RejectedAction? ==> r.Success? && r.value.status == Rejected && r.value.error == Some(a.error)
  {
    match a
    case ResetAction => Failure(UnhandledActionType("reset"))
    case PendingAction => Success(State(Pending, None, None))
    case ResolvedAction(d) => Success(State(Resolved, Some(d), None))
    case RejectedAction(e) => Success(State(Rejected, None, Some(e)))
  }

  /** The actions `acts` dispatched in order from `s`; the first throw ends the sequence. */
  function Dispatch<D, E>(s: State<D, E>, acts: seq<Action<D, E>>): Result<State<D, E>>
    decreases |acts|
  {
    if |acts| == 0 then Success(s)
    else
      match Dispatch(s, acts[..|acts| - 1])
      case Failure(m) => Failure(m)
      case Success(t) => Reduce(t, acts[|acts| - 1])
  }

  /** The completion action for a promise settling with `outcome`. */
  function Completion<D, E>(outcome: Settlement<D, E>): Action<D, E>
  {
    match outcome
    case Fulfilled(d) => ResolvedAction(d)
    case RejectedWith(e) => RejectedAction(e)
  }

  /** The state a completion leaves, whatever came before. */
  function SettledState<D, E>(outcome: Settlement<D, E>): State<D, E>
  {
    match outcome
    case Fulfilled(d) => State(Resolved, Some(d), None)
    case RejectedWith(e) => State(Rejected, None, Some(e))
  }

  /** `run(promise)`: `pending` now, and the matching completion when the promise settles. */
  function Run<D, E>(outcome: Settlement<D, E>): (acts: seq<Action<D, E>>)
    ensures |acts| == 2 && acts[0].PendingAction? && IsCompletion(acts[1])
  {
    [PendingAction, Completion(outcome)]
  }

  /** The effect in `useAsync`: when the callback yields no promise (`None`), nothing is dispatched;
      otherwise the promise is run. `promise` stands for how the yielded promise settles. */
  function EffectDispatches<D, E>(promise: Option<Settlement<D, E>>): (acts: seq<Action<D, E>>)
    ensures promise.None? <==> |acts| == 0
    ensures promise.Some? ==> |acts| == 2 && acts[0].PendingAction? && acts[1] == Completion(promise.value)
  {
    match promise
    case None => []
    case Some(outcome) => Run(outcome)
  }

  /** The `PokemonInfo` callback: no promise for an empty name, otherwise `fetchPokemon`'s promise,
      whose settlement the caller supplies as `fetched`. */
  function PokemonCallback<D, E>(pokemonName: string, fetched: Settlement<D, E>): (promise: Option<Settlement<D, E>>)
    ensures promise.None? <==> pokemonName == ""
  {
    if pokemonName == "" then None else Some(fetched)
  }

  /** The effect of `PokemonInfo` built on `run`: no run for an empty name. */
  function PokemonEffect<D, E>(pokemonName: string, fetched: Settlement<D, E>): (acts: seq<Action<D, E>>)
    ensures pokemonName == "" <==> |acts| == 0
    ensures pokemonName != "" ==> |acts| == 2 && acts[0].PendingAction? && acts[1] == Completion(fetched)
  {
    if pokemonName == "" then [] else Run(fetched)
  }

  /** A sequence of actions throws exactly when it contains `reset`. */
  lemma {:induction false} DispatchFailsIffReset<D, E>(s: State<D, E>, acts: seq<Action<D, E>>)
    ensures Dispatch(s, acts).Failure? <==> exists i :: 0 <= i < |acts| && acts[i].ResetAction?
    decreases |acts|
  {
    if |acts| > 0 {
      var prefix := acts[..|acts| - 1];
      DispatchFailsIffReset(s, prefix);
      if exists i :: 0 <= i < |prefix| && prefix[i].ResetAction? {
        var i :| 0 <= i < |prefix| && prefix[i].ResetAction?;
        assert acts[i].ResetAction?;
      }
      if exists i :: 0 <= i < |acts| && acts[i].ResetAction? {
        var i :| 0 <= i < |acts| && acts[i].ResetAction?;
        if i < |prefix| {
          assert prefix[i].ResetAction?;
        }
      }
    }
  }

  /** Data and error stay mutually exclusive, and tied to the status, through any dispatches. */
  lemma {:induction false} DispatchKeepsConsistent<D, E>(s: State<D, E>, acts: seq<Action<D, E>>)
    requires Consistent(s)
    ensures Dispatch(s, acts).Success? ==> Consistent(Dispatch(s, acts).value)
    decreases |acts|
  {
    if |acts| > 0 {
      DispatchKeepsConsistent(s, acts[..|acts| - 1]);
    }
  }

  /** `pending` clears data and error whatever the state held. */
  lemma PendingClears<D, E>(s: State<D, E>)
    ensures Reduce(s, PendingAction) == Success(Initial<D, E>().(status := Pending))
  {
  }

  /** There is no guard: a completion acts the same on every state, idle included. */
  lemma CompletionIgnoresPriorState<D, E>(s1: State<D, E>, s2: State<D, E>, outcome: Settlement<D, E>)
    ensures Reduce(s1, Completion(outcome)) == Reduce(s2, Completion(outcome))
    ensures Reduce(Initial(), Completion(outcome)) == Success(SettledState(outcome))
  {
  }

  /** The last completion to arrive determines the state, whatever was dispatched before it. */
  lemma {:induction false} LastCompletionWins<D, E>(s: State<D, E>, acts: seq<Action<D, E>>, outcome: Settlement<D, E>)
    requires Dispatch(s, acts).Success?
    ensures Dispatch(s, acts + [Completion(outcome)]) == Success(SettledState(outcome))
  {
    assert (acts + [Completion(outcome)])[..|acts|] == acts;
  }

  /** The race the guard later fixes: issue A, issue B, B completes, then A completes late; A's
      stale result overwrites B's. */
  lemma {:induction false} StaleCompletionOverwrites<D, E>(dataA: D, dataB: D)
    ensures Dispatch(Initial<D, E>(), [PendingAction, PendingAction, ResolvedAction(dataB), ResolvedAction(dataA)])
            == Success(State(Resolved, Some(dataA), None))
  {
    var acts: seq<Action<D, E>> := [PendingAction, PendingAction, ResolvedAction(dataB), ResolvedAction(dataA)];
    DispatchFailsIffReset(Initial(), acts[..3]);
    LastCompletionWins(Initial(), acts[..3], Fulfilled(dataA));
    assert acts[..3] + [Completion(Fulfilled(dataA))] == acts;
  }

  /** When the callback yields no promise the effect dispatches nothing and the state stays. */
  lemma NoPromiseNoDispatch<D, E>(s: State<D, E>)
    ensures EffectDispatches<D, E>(None) == [] && Dispatch(s, EffectDispatches<D, E>(None)) == Success(s)
  {
  }

  /** An empty name makes the callback yield nothing, so nothing is dispatched. */
  lemma EmptyNameDispatchesNothing<D, E>(s: State<D, E>, fetched: Settlement<D, E>)
    ensures Dispatch(s, EffectDispatches(PokemonCallback("", fetched))) == Success(s)
    ensures Dispatch(s, PokemonEffect("", fetched)) == Success(s)
  {
  }

  /** Both effects, when they run a promise, pass through pending and end, from any state, in the
      state the promise's settlement dictates. */
  lemma EffectSettles<D, E>(s: State<D, E>, pokemonName: string, outcome: Settlement<D, E>)
    ensures Dispatch(s, EffectDispatches(Some(outcome))[..1]) == Success(State(Pending, None, None))
    ensures Dispatch(s, EffectDispatches(Some(outcome))) == Success(SettledState(outcome))
    ensures pokemonName != "" ==>
              && Dispatch(s, PokemonEffect(pokemonName, outcome)[..1]) == Success(State(Pending, None, None))
              && Dispatch(s, PokemonEffect(pokemonName, outcome)) == Success(SettledState(outcome))
  {
  }

  /** A run passes through pending and ends in the state its promise's settlement dictates. */
  lemma RunSettles<D, E>(s: State<D, E>, outcome: Settlement<D, E>)
    ensures Dispatch(s, Run(outcome)[..1]) == Success(State(Pending, None, None))
    ensures Dispatch(s, Run(outcome)) == Success(SettledState(outcome))
  {
    assert Run(outcome)[..1] == [PendingAction];
  }
}
