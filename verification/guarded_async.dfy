/** The race-guarded `useAsync` (src/exercise/02.extra-3.tsx): every dispatched action carries
    the promise it belongs to, and a completion is applied only while its promise is the one the
    state is waiting for. Promise identity is modelled by a `Token`. */
module GuardedAsync {
  import opened Results
  import opened AsyncStatus

  /** Identity of one promise handed to `run`; two tokens are equal iff they name the same promise. */
  type Token = nat

  /** `AsyncState`: the status tag, the data and error fields and the awaited promise. */
  datatype State<D, E> = State(status: Status, data: Option<D>, error: Option<E>, promise: Option<Token>)

  /** `AsyncAction`. `ResetAction` is declared by the source's type but has no case in the reducer. */
  datatype Action<D, E> =
    | ResetAction
    | PendingAction(promise: Token)
    | ResolvedAction(data: D, promise: Token)
    | RejectedAction(error: E, promise: Token)

  /** The state `useReducer` starts from: idle, no data, no error, no promise. */
  function Initial<D, E>(): (s: State<D, E>)
    ensures s.status == Idle && Consistent(s)
  {
    State(Idle, None, None, None)
  }

  /** The four shapes the source's union type admits: data only when resolved, error only when
      rejected, a promise exactly when pending. */
  predicate Consistent<D, E>(s: State<D, E>)
  {
    match s.status
    case Idle => s.data.None? && s.error.None? && s.promise.None?
    case Pending => s.data.None? && s.error.None? && s.promise.Some?
    case Resolved => s.data.Some? && s.error.None? && s.promise.None?
    case Rejected => s.data.None? && s.error.Some? && s.promise.None?
  }

  /** `asyncReducer`: `pending` always takes over; a completion applies only when its promise is
      the awaited one and leaves the state untouched otherwise; `reset` reaches the throwing default. */
  function Reduce<D, E>(s: State<D, E>, a: Action<D, E>): (r: Result<State<D, E>>)
    ensures r.Failure? <==> a.ResetAction?
    ensures r.Failure? ==> r.error == UnhandledActionType("reset")
    ensures a.PendingAction? ==>
              r.Success? && r.value.status == Pending && r.value.promise == Some(a.promise)
              && r.value.data.None? && r.value.error.None?
    ensures (a.ResolvedAction? || a.RejectedAction?) && r.Success? && r.value != s ==>
              s.promise == Some(a.promise)
    ensures a.ResolvedAction? && s.promise == Some(a.promise) ==>
              r.Success? && r.value.status == Resolved && r.value.data == Some(a.data)
              && r.value.error.None? && r.value.promise.None?
    ensures a.RejectedAction? && s.promise == Some(a.promise) ==>
              r.Success? && r.value.status == Rejected && r.value.error == Some(a.error)
              && r.value.data.None? && r.value.promise.None?
    ensures Consistent(s) && r.Success? ==> Consistent(r.value)
  {
    match a
    case ResetAction => Failure(UnhandledActionType("reset"))
    case PendingAction(p) => Success(State(Pending, None, None, Some(p)))
    case ResolvedAction(d, p) =>
      if s.promise == Some(p) then Success(State(Resolved, Some(d), None, None)) else Success(s)
    case RejectedAction(e, p) =>
      if s.promise == Some(p) then Success(State(Rejected, None, Some(e), None)) else Success(s)
  }

  /** The events of the `run` protocol: `run(promise)` begins, and later the promise settles. */
  datatype Event<D, E> = Begin(token: Token) | Succeed(token: Token, data: D) | Fail(token: Token, error: E)

  /** The action `run` dispatches for each event; each carries the promise it was issued for. */
  function Dispatched<D, E>(ev: Event<D, E>): (a: Action<D, E>)
    ensures !a.ResetAction? && a.promise == ev.token
    ensures ev.Begin? <==> a.PendingAction?
  {
    match ev
    case Begin(t) => PendingAction(t)
    case Succeed(t, d) => ResolvedAction(d, t)
    case Fail(t, e) => RejectedAction(e, t)
  }

  /** The completion event of promise `t` settling with `outcome`. */
  function Completion<D, E>(t: Token, outcome: Settlement<D, E>): Event<D, E>
  {
    match outcome
    case Fulfilled(d) => Succeed(t, d)
    case RejectedWith(e) => Fail(t, e)
  }

  /** The events one call of `run` contributes, in order: pending first, the completion later. */
  function RunEvents<D, E>(t: Token, outcome: Settlement<D, E>): (evs: seq<Event<D, E>>)
    ensures |evs| == 2 && evs[0] == Begin(t) && !evs[1].Begin? && evs[1].token == t
  {
    [Begin(t), Completion(t, outcome)]
  }

  /** Dispatching one protocol event; `run` never dispatches `reset`, so this never throws. */
  function Step<D, E>(s: State<D, E>, ev: Event<D, E>): State<D, E>
  {
    Reduce(s, Dispatched(ev)).value
  }

  /** The state after the events `evs`, dispatched in arrival order starting from `s`. */
  function Replay<D, E>(s: State<D, E>, evs: seq<Event<D, E>>): State<D, E>
    decreases |evs|
  {
    if |evs| == 0 then s else Step(Replay(s, evs[..|evs| - 1]), evs[|evs| - 1])
  }

  /** The token of the most recent `Begin` in `evs`: the promise of the latest `run`. */
  function LastBegun<D, E>(evs: seq<Event<D, E>>): Option<Token>
    decreases |evs|
  {
    if |evs| == 0 then None
    else if evs[|evs| - 1].Begin? then Some(evs[|evs| - 1].token)
    else LastBegun(evs[..|evs| - 1])
  }

  /** The state a completion event installs when it is applied. */
  function SettledBy<D, E>(ev: Event<D, E>): State<D, E>
  {
    match ev
    case Begin(t) => State(Pending, None, None, Some(t))
    case Succeed(_, d) => State(Resolved, Some(d), None, None)
    case Fail(_, e) => State(Rejected, None, Some(e), None)
  }

  /** Dispatching `reset` throws rather than returning to idle. */
  lemma ResetThrows<D, E>(s: State<D, E>)
    ensures Reduce(s, ResetAction) == Failure("Unhandled action type: reset")
  {
  }

  /** Nothing is awaited in the initial state, so every completion arriving there is ignored. */
  lemma IdleIgnoresCompletions<D, E>(ev: Event<D, E>)
    requires !ev.Begin?
    ensures Step(Initial(), ev) == Initial()
    ensures Consistent(Initial<D, E>()) && Initial<D, E>().status == Idle
  {
  }

  /** A completion whose promise is not the awaited one returns the state unchanged. */
  lemma StaleCompletionIsNoOp<D, E>(s: State<D, E>, ev: Event<D, E>)
    requires !ev.Begin? && s.promise != Some(ev.token)
    ensures Step(s, ev) == s
  {
  }

  /** Once a completion has been applied the promise is cleared, so a second completion for the
      same promise (or any other) changes nothing. */
  lemma SecondCompletionIsNoOp<D, E>(s: State<D, E>, first: Event<D, E>, second: Event<D, E>)
    requires !first.Begin? && !second.Begin? && s.promise == Some(first.token)
    ensures Step(s, first) == SettledBy(first)
    ensures Step(Step(s, first), second) == Step(s, first)
  {
  }

  /** `pending` overwrites whatever promise was awaited before. */
  lemma BeginOverwrites<D, E>(s: State<D, E>, t: Token)
    ensures Step(s, Begin(t)).promise == Some(t) && Step(s, Begin(t)).status == Pending
    ensures Step(s, Begin(t)).data.None? && Step(s, Begin(t)).error.None?
  {
  }

  /** Dispatching any protocol events keeps the state in one of the union's four shapes. */
  lemma {:induction false} ReplayKeepsConsistent<D, E>(s: State<D, E>, evs: seq<Event<D, E>>)
    requires Consistent(s)
    ensures Consistent(Replay(s, evs))
    decreases |evs|
  {
    if |evs| > 0 {
      ReplayKeepsConsistent(s, evs[..|evs| - 1]);
    }
  }

  /** From the initial state, the awaited promise is always that of the latest `run`, or none. */
  lemma {:induction false} PromiseIsLastBegun<D, E>(evs: seq<Event<D, E>>)
    ensures Replay(Initial(), evs).promise.None? || Replay(Initial(), evs).promise == LastBegun(evs)
    decreases |evs|
  {
    if |evs| > 0 {
      PromiseIsLastBegun(evs[..|evs| - 1]);
    }
  }

  /** A completion for any promise other than the latest `run`'s is ignored. */
  lemma {:induction false} SupersededCompletionIgnored<D, E>(evs: seq<Event<D, E>>, ev: Event<D, E>)
    requires !ev.Begin? && LastBegun(evs) != Some(ev.token)
    ensures Replay(Initial(), evs + [ev]) == Replay(Initial(), evs)
  {
    PromiseIsLastBegun(evs);
    assert (evs + [ev])[..|evs|] == evs;
  }

  /** The completion of the latest `run` is applied while that run is still pending. */
  lemma {:induction false} LatestCompletionApplies<D, E>(evs: seq<Event<D, E>>, ev: Event<D, E>)
    requires !ev.Begin? && LastBegun(evs) == Some(ev.token)
    requires Replay(Initial(), evs).status == Pending
    ensures Replay(Initial(), evs + [ev]) == SettledBy(ev)
  {
    PromiseIsLastBegun(evs);
    ReplayKeepsConsistent(Initial(), evs);
    assert (evs + [ev])[..|evs|] == evs;
  }

  /** Dispatching `xs` then `ys` is dispatching `xs` and continuing from there with `ys`. */
  lemma {:induction false} ReplayConcat<D, E>(s: State<D, E>, xs: seq<Event<D, E>>, ys: seq<Event<D, E>>)
    ensures Replay(s, xs + ys) == Replay(Replay(s, xs), ys)
    decreases |ys|
  {
    if |ys| == 0 {
      assert xs + ys == xs;
    } else {
      var ys' := ys[..|ys| - 1];
      assert (xs + ys)[..|xs + ys| - 1] == xs + ys';
      assert (xs + ys)[|xs + ys| - 1] == ys[|ys| - 1];
      ReplayConcat(s, xs, ys');
    }
  }

  /** A superseded completion is invisible wherever it arrives: removing it from the event
      sequence does not change the final state. */
  lemma {:induction false} StaleCompletionInvisible<D, E>(pre: seq<Event<D, E>>, ev: Event<D, E>, post: seq<Event<D, E>>)
    requires !ev.Begin? && LastBegun(pre) != Some(ev.token)
    ensures Replay(Initial(), pre + [ev] + post) == Replay(Initial(), pre + post)
  {
    SupersededCompletionIgnored(pre, ev);
    ReplayConcat(Initial(), pre + [ev], post);
    ReplayConcat(Initial(), pre, post);
  }

  /** Issuing A then B and completing both, in either order, leaves B's result. */
  lemma {:induction false} RaceKeepsNewest<D, E>(a: Token, b: Token, doneA: Event<D, E>, doneB: Event<D, E>)
    requires a != b
    requires !doneA.Begin? && doneA.token == a
    requires !doneB.Begin? && doneB.token == b
    ensures Replay(Initial(), [Begin(a), Begin(b), doneB, doneA]) == SettledBy(doneB)
    ensures Replay(Initial(), [Begin(a), Begin(b), doneA, doneB]) == SettledBy(doneB)
  {
    var issued: seq<Event<D, E>> := [Begin(a), Begin(b)];
    assert LastBegun(issued) == Some(b);
    assert Replay(Initial(), issued).status == Pending;
    LatestCompletionApplies(issued, doneB);
    assert issued + [doneB] == [Begin(a), Begin(b), doneB];
    assert LastBegun(issued + [doneB]) == Some(b);
    SupersededCompletionIgnored(issued + [doneB], doneA);
    assert issued + [doneB] + [doneA] == [Begin(a), Begin(b), doneB, doneA];
    StaleCompletionInvisible(issued, doneA, [doneB]);
    assert issued + [doneA] + [doneB] == [Begin(a), Begin(b), doneA, doneB];
  }

  /** The effect of `PokemonInfo`: no `run` for an empty name, otherwise exactly one `run` of the
      fetched promise, and nothing else. */
  function EffectEvents<D, E>(pokemonName: string, t: Token, outcome: Settlement<D, E>): (evs: seq<Event<D, E>>)
    ensures pokemonName == "" <==> |evs| == 0
    ensures pokemonName != "" ==> |evs| == 2 && evs[0] == Begin(t) && evs[1] == Completion(t, outcome)
  {
    if pokemonName == "" then [] else RunEvents(t, outcome)
  }

  /** An empty name leaves the state as it was; a name whose run completes unraced settles it. */
  lemma EffectOutcome<D, E>(s: State<D, E>, pokemonName: string, t: Token, outcome: Settlement<D, E>)
    ensures pokemonName == "" ==> Replay(s, EffectEvents(pokemonName, t, outcome)) == s
    ensures pokemonName != "" ==>
              Replay(s, EffectEvents(pokemonName, t, outcome)) == SettledBy(Completion(t, outcome))
  {
    if pokemonName != "" {
      var evs := EffectEvents(pokemonName, t, outcome);
      assert evs[..1] == [Begin(t)];
      assert evs[..0] == [];
    }
  }
}
