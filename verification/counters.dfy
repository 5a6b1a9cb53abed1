/** The counter of src/exercise/01.tsx: the action is the new count. The handlers compute the new
    count from the count captured at render time. */
module ReplaceCounter {

  /** `countReducer`: the dispatched value replaces the count. */
  function CountReducer(state: int, newState: int): (r: int)
    ensures r == newState
  {
    newState
  }

  /** The value `increment` dispatches from a rendered `count`. */
  function Increment(count: int, step: int): (v: int)
    ensures CountReducer(count, v) - count == step
  {
    count + step
  }

  /** The value `decrement` dispatches from a rendered `count`. */
  function Decrement(count: int, step: int): (v: int)
    ensures count - CountReducer(count, v) == step
  {
    count - step
  }

  /** The previous state plays no part, and dispatching the same value twice is dispatching it once. */
  lemma ReducerReplaces(state: int, other: int, v: int)
    ensures CountReducer(state, v) == CountReducer(other, v) == v
    ensures CountReducer(CountReducer(state, v), v) == CountReducer(state, v)
  {
  }

  /** Incrementing, re-rendering, then decrementing returns to the starting count; both handlers
      of one render instead leave `count - step`, since each overwrites with a value computed from
      the same rendered count. */
  lemma IncrementThenDecrement(count: int, step: int)
    ensures var after := CountReducer(count, Increment(count, step));
            after == count + step && CountReducer(after, Decrement(after, step)) == count
    ensures CountReducer(CountReducer(count, Increment(count, step)), Decrement(count, step)) == count - step
  {
  }
}

/** The counter of src/exercise/01.extra-1.tsx: the action is a step added to the count. */
module StepCounter {

  /** `countReducer`: the step is added to the count. */
  function CountReducer(state: int, step: int): (r: int)
    ensures r - state == step
  {
    state + step
  }

  /** The steps dispatched in order from `state`. */
  function DispatchAll(state: int, steps: seq<int>): int
    decreases |steps|
  {
    if |steps| == 0 then state else DispatchAll(CountReducer(state, steps[0]), steps[1..])
  }

  /** The sum of `steps`. */
  function Sum(steps: seq<int>): int
    decreases |steps|
  {
    if |steps| == 0 then 0 else Sum(steps[..|steps| - 1]) + steps[|steps| - 1]
  }

  /** Sum of a sequence extended at the front. */
  lemma {:induction false} SumCons(x: int, steps: seq<int>)
    ensures Sum([x] + steps) == x + Sum(steps)
    decreases |steps|
  {
    if |steps| > 0 {
      var init := steps[..|steps| - 1];
      assert ([x] + steps)[..|[x] + steps| - 1] == [x] + init;
      SumCons(x, init);
    }
  }

  /** Dispatches are additive: any run of steps moves the count by their sum. */
  lemma {:induction false} DispatchAllAddsSum(state: int, steps: seq<int>)
    ensures DispatchAll(state, steps) == state + Sum(steps)
    decreases |steps|
  {
    if |steps| > 0 {
      DispatchAllAddsSum(CountReducer(state, steps[0]), steps[1..]);
      assert [steps[0]] + steps[1..] == steps;
      SumCons(steps[0], steps[1..]);
    }
  }

  /** A step of 0 changes nothing; two steps add up; `increment` then `decrement` (`+step`, `-step`)
      restores the count. */
  lemma StepArithmetic(state: int, a: int, b: int, step: int)
    ensures CountReducer(state, 0) == state
    ensures CountReducer(CountReducer(state, a), b) == CountReducer(state, a + b)
    ensures CountReducer(CountReducer(state, step), -step) == state
  {
  }
}

/** The counter of src/exercise/01.extra-2.tsx: the action is a partial state merged over the state. */
module MergeCounter {
  import opened Results

  /** `CountReducerState`. */
  datatype CountState = CountState(count: int)

  /** `Partial<CountReducerState>`: `None` is an object without a `count` key. */
  datatype PartialCount = PartialCount(count: Option<int>)

  /** `countReducer`: `{...state, ...newState}`. */
  function Merge(state: CountState, newState: PartialCount): (r: CountState)
    ensures newState.count.Some? ==> r.count == newState.count.value
    ensures newState.count.None? ==> r == state
  {
    match newState.count
    case Some(c) => CountState(c)
    case None => state
  }

  /** The object `increment` dispatches from a rendered count. */
  function Increment(state: CountState, step: int): (p: PartialCount)
    ensures p.count.Some? && Merge(state, p).count == state.count + step
  {
    PartialCount(Some(state.count + step))
  }

  /** The object `decrement` dispatches from a rendered count. */
  function Decrement(state: CountState, step: int): (p: PartialCount)
    ensures p.count.Some? && Merge(state, p).count == state.count - step
  {
    PartialCount(Some(state.count - step))
  }

  /** Merging a partial again changes nothing more; an empty partial is the identity. */
  lemma MergeIdempotent(state: CountState, p: PartialCount)
    ensures Merge(Merge(state, p), p) == Merge(state, p)
    ensures Merge(state, PartialCount(None)) == state
  {
  }

  /** The handlers move the count by exactly `step`, and one after the other (with a render in
      between) restore it. */
  lemma HandlersMoveByStep(state: CountState, step: int)
    ensures Merge(state, Increment(state, step)).count == state.count + step
    ensures Merge(state, Decrement(state, step)).count == state.count - step
    ensures var up := Merge(state, Increment(state, step)); Merge(up, Decrement(up, step)) == state
  {
  }
}

/** The counter of src/exercise/01.extra-3.tsx: the action is a partial state or an updater
    function of the current state, whose result is merged over the state. */
module UpdaterCounter {
  import opened Results
  import opened MergeCounter

  /** The argument of `setState`: an updater function or an object. */
  datatype SetStateAction = Updater(update: CountState -> PartialCount) | Patch(partial: PartialCount)

  /** `countReducer`: apply a function to the current state, take an object as is, then merge.
      The count comes from the selected object when it has one and is kept otherwise. */
  function CountReducer(state: CountState, action: SetStateAction): (r: CountState)
    ensures action.Updater? && action.update(state).count.Some? ==> r.count == action.update(state).count.value
    ensures action.Updater? && action.update(state).count.None? ==> r == state
    ensures action.Patch? && action.partial.count.Some? ==> r.count == action.partial.count.value
    ensures action.Patch? && action.partial.count.None? ==> r == state
  {
    var fromAction := match action
      case Updater(f) => f(state)
      case Patch(p) => p;
    Merge(state, fromAction)
  }

  /** The updater `increment` dispatches: whatever the current state, it moves the count up by `step`. */
  function Increment(step: int): (a: SetStateAction)
    ensures a.Updater? && forall current :: CountReducer(current, a).count == current.count + step
  {
    Updater((current: CountState) => PartialCount(Some(current.count + step)))
  }

  /** The updater `decrement` dispatches: whatever the current state, it moves the count down by `step`. */
  function Decrement(step: int): (a: SetStateAction)
    ensures a.Updater? && forall current :: CountReducer(current, a).count == current.count - step
  {
    Updater((current: CountState) => PartialCount(Some(current.count - step)))
  }

  /** The updaters read the current state, not the rendered one: `increment` then `decrement`
      restores the count even when both are dispatched from one render. */
  lemma IncrementThenDecrementRestores(state: CountState, step: int)
    ensures CountReducer(state, Increment(step)).count == state.count + step
    ensures CountReducer(state, Decrement(step)).count == state.count - step
    ensures CountReducer(CountReducer(state, Increment(step)), Decrement(step)) == state
  {
  }

  /** An action whose result lacks `count`, function or object, leaves the count unchanged. */
  lemma CountlessResultKeepsCount(state: CountState, f: CountState -> PartialCount)
    requires f(state).count.None?
    ensures CountReducer(state, Updater(f)) == state
    ensures CountReducer(state, Patch(PartialCount(None))) == state
  {
  }
}

/** The counter of src/exercise/01.extra-4.tsx: typed `increment`/`decrement` actions that carry
    a `step`, reduced by a switch with a pass-through default. */
module TypedCounter {
  import opened MergeCounter

  /** A `type` tag other than the two the union declares. */
  type UndeclaredTag = t: string | t != "increment" && t != "decrement" witness ""

  /** The `type` tag; `Other` is any tag outside the declared union, which reaches the default. */
  datatype ActionType = IncrementType | DecrementType | Other(tag: UndeclaredTag)

  /** The string a tag is written as. */
  function TagText(t: ActionType): string
  {
    match t
    case IncrementType => "increment"
    case DecrementType => "decrement"
    case Other(tag) => tag
  }

  /** The tag a string denotes: the declared names select their cases, anything else is `Other`. */
  function ParseTag(text: string): (t: ActionType)
    ensures TagText(t) == text
    ensures t.IncrementType? <==> text == "increment"
    ensures t.DecrementType? <==> text == "decrement"
  {
    if text == "increment" then IncrementType
    else if text == "decrement" then DecrementType
    else Other(text)
  }

  /** Every tag is written differently: parsing a tag's text gives the tag back. */
  lemma TagTextRoundTrip(t: ActionType)
    ensures ParseTag(TagText(t)) == t
  {
  }

  /** `CountReducerAction`. */
  datatype CountAction = CountAction(actionType: ActionType, step: int)

  /** `countReducer` as written: the action's `step` is never read, so every increment and
      decrement moves the count by 1; an unknown tag returns the state unchanged. */
  function CountReducer(state: CountState, action: CountAction): (r: CountState)
    ensures action.actionType.IncrementType? ==> r.count == state.count + 1
    ensures action.actionType.DecrementType? ==> r.count == state.count - 1
    ensures action.actionType.Other? ==> r == state
  {
    match action.actionType
    case IncrementType => state.(count := state.count + 1)
    case DecrementType => state.(count := state.count - 1)
    case Other(_) => state
  }

  /** `countReducer` moving the count by the dispatched `step`, as the handlers that send `step`
      evidently intend. */
  function CountReducerWithStep(state: CountState, action: CountAction): (r: CountState)
    ensures action.actionType.IncrementType? ==> r.count == state.count + action.step
    ensures action.actionType.DecrementType? ==> r.count == state.count - action.step
    ensures action.actionType.Other? ==> r == state
  {
    match action.actionType
    case IncrementType => state.(count := state.count + action.step)
    case DecrementType => state.(count := state.count - action.step)
    case Other(_) => state
  }

  /** The action `increment` dispatches: it carries the step, which the corrected reducer adds and
      the reducer as written replaces by 1. */
  function Increment(step: int): (a: CountAction)
    ensures forall state :: CountReducerWithStep(state, a).count == state.count + step
    ensures forall state :: CountReducer(state, a).count == state.count + 1
  {
    CountAction(IncrementType, step)
  }

  /** The action `decrement` dispatches: it carries the step, which the corrected reducer subtracts
      and the reducer as written replaces by 1. */
  function Decrement(step: int): (a: CountAction)
    ensures forall state :: CountReducerWithStep(state, a).count == state.count - step
    ensures forall state :: CountReducer(state, a).count == state.count - 1
  {
    CountAction(DecrementType, step)
  }

  /** As written, the result does not depend on `step`: a counter with `step` 5 still moves by 1. */
  lemma StepIgnored(state: CountState, a: ActionType, step1: int, step2: int)
    ensures CountReducer(state, CountAction(a, step1)) == CountReducer(state, CountAction(a, step2))
    ensures CountReducer(state, Increment(5)).count == state.count + 1 != state.count + 5
  {
  }

  /** As written, `increment` then `decrement` restores the count. */
  lemma IncrementThenDecrementRestores(state: CountState, step: int)
    ensures CountReducer(CountReducer(state, Increment(step)), Decrement(step)) == state
  {
  }

  /** With the step honoured, `increment` then `decrement` of the same step restores the count,
      and the reducer agrees with the original exactly when the step is 1. */
  lemma StepHonoured(state: CountState, step: int)
    ensures CountReducerWithStep(CountReducerWithStep(state, Increment(step)), Decrement(step)) == state
    ensures CountReducerWithStep(state, Increment(step)) == CountReducer(state, Increment(step)) <==> step == 1
    ensures CountReducerWithStep(state, Decrement(step)) == CountReducer(state, Decrement(step)) <==> step == 1
  {
  }
}
