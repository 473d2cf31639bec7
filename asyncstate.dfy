/**
 * The asynchronous-action state of the web client
 * (packages/web/src/state.jsx, useAsyncAction): a reducer over
 * {status, result, error} and the hook state around it. FETCH records its
 * arguments through setAsyncArgs; CANCEL cancels the promise stored under
 * the kPromise symbol, if any, and then resets.
 *
 * The reducer is a pure function here, with its two side effects returned
 * beside the next state; the hook's state is a class whose Dispatch runs
 * the reducer on the state of the last render and stores what it returns
 * (state.jsx:24-33). The effect that
 * runs the fetch function and dispatches its result is not modelled.
 */
module AsyncState {
  import opened Wrappers
  import opened Js

  datatype Status = Idle | InProgress | Success | Error

  /** A reducer state; an absent property is undefined, and `promise` is `state[kPromise]`. */
  datatype State = State(status: Status, result: Value, error: Value, promise: Value)

  /** `{status: 'idle'}`, the initial state (state.jsx:107-109) and what RESET and CANCEL return. */
  const IdleState := State(Idle, Undefined, Undefined, Undefined)

  datatype Action = Action(kind: Value, args: Value, result: Value, error: Value)

  /** How the reducer ended: the next state with the arguments it recorded and whether it called cancel, or a throw. */
  datatype Step = Next(state: State, recorded: Option<Value>, cancelled: bool) | Threw(message: string)

  const RefetchMessage := "Cannot re-fetch async action that is already inprogress"
  const TypeError := "TypeError"

  function UnexpectedMessage(kind: Value): string {
    "Unexpected action received by reducer: " + ToString(kind)
  }

  predicate Known(kind: Value) {
    kind in {Str("FETCH"), Str("SET_RESULT"), Str("ERROR"), Str("CANCEL"), Str("RESET")}
  }

  /**
   * `promise && promise.cancel` and the call (state.jsx:92-95): None when
   * nothing is cancelled, Some(true) when cancel is called, Some(false)
   * when the member is not a function and calling it throws.
   */
  function CancelCall(promise: Value): Option<bool> {
    if !Truthy(promise) || !Truthy(Prop(promise, "cancel")) then None
    else Some(Prop(promise, "cancel").Fn?)
  }

  /** The reducer of useAsyncAction (state.jsx:66-106). */
  function Reduce(state: State, action: Action): (r: Step)
    ensures r.Threw? <==> || !Known(action.kind)
                          || (action.kind == Str("FETCH") && state.status == InProgress)
                          || (action.kind == Str("CANCEL") && CancelCall(state.promise) == Some(false))
    ensures r.Next? ==> r.state.promise == Undefined
    ensures r.Next? ==> (r.recorded.Some? <==> action.kind == Str("FETCH"))
    ensures r.Next? && r.cancelled ==> action.kind == Str("CANCEL") && Truthy(state.promise)
  {
    if action.kind == Str("FETCH") then
      if state.status == InProgress then Threw(RefetchMessage)
      else Next(State(InProgress, Undefined, Undefined, Undefined), Some(action.args), false)
    else if action.kind == Str("SET_RESULT") then Next(State(Status.Success, action.result, Undefined, Undefined), None, false)
    else if action.kind == Str("ERROR") then Next(State(Error, Undefined, action.error, Undefined), None, false)
    else if action.kind == Str("CANCEL") then
      match CancelCall(state.promise)
      case Some(false) => Threw(TypeError)
      case call => Next(IdleState, None, call == Some(true))
    else if action.kind == Str("RESET") then Next(IdleState, None, false)
    else Threw(UnexpectedMessage(action.kind))
  }

  /** FETCH throws exactly when a fetch is in progress; otherwise it records the arguments and drops result and error. */
  lemma FetchOutcome(state: State, args: Value)
    ensures var r := Reduce(state, Action(Str("FETCH"), args, Undefined, Undefined));
            && (r.Threw? <==> state.status == InProgress)
            && (r.Threw? ==> r.message == RefetchMessage)
            && (r.Next? ==> r == Next(State(InProgress, Undefined, Undefined, Undefined), Some(args), false))
  {
  }

  /** SET_RESULT and ERROR succeed from every state and keep only the value they carry. */
  lemma SettleFromAnyState(state: State, action: Action)
    requires action.kind == Str("SET_RESULT") || action.kind == Str("ERROR")
    ensures var r := Reduce(state, action);
            && r.Next? && r.recorded.None? && !r.cancelled
            && (action.kind == Str("SET_RESULT") ==> r.state == State(Status.Success, action.result, Undefined, Undefined))
            && (action.kind == Str("ERROR") ==> r.state == State(Error, Undefined, action.error, Undefined))
  {
  }

  /** CANCEL falls through to RESET: both give the idle state, and CANCEL calls cancel only on a promise that has it. */
  lemma CancelIsReset(state: State, args: Value, result: Value, error: Value)
    requires CancelCall(state.promise) != Some(false)
    ensures var cancel := Reduce(state, Action(Str("CANCEL"), args, result, error));
            var reset := Reduce(state, Action(Str("RESET"), args, result, error));
            && cancel.Next? && reset.Next? && cancel.state == reset.state == IdleState
            && (cancel.cancelled <==> Truthy(state.promise) && Truthy(Prop(state.promise, "cancel")))
  {
  }

  /** Any other action type throws, naming the type. */
  lemma UnknownActionThrows(state: State, action: Action)
    requires !Known(action.kind)
    ensures Reduce(state, action) == Threw(UnexpectedMessage(action.kind))
  {
  }

  /**
   * The states the reducer can be in: the initial state or one it
   * produced. None of them holds a promise, so CANCEL never calls cancel.
   */
  ghost predicate Reachable(s: State) {
    s.promise == Undefined
  }

  /** FETCH cannot be reduced twice in a row: the second one throws. */
  lemma {:induction false} NoDoubleFetch(state: State, a: Value, b: Value)
    requires Reduce(state, Action(Str("FETCH"), a, Undefined, Undefined)).Next?
    ensures Reduce(Reduce(state, Action(Str("FETCH"), a, Undefined, Undefined)).state,
                   Action(Str("FETCH"), b, Undefined, Undefined)) == Threw(RefetchMessage)
  {
    FetchOutcome(state, a);
    FetchOutcome(Reduce(state, Action(Str("FETCH"), a, Undefined, Undefined)).state, b);
  }

  /** Running every action of `actions` from `state`; the first throw stops the sequence. */
  function Run(state: State, actions: seq<Action>): (r: Step)
    ensures Reachable(state) && r.Next? ==> Reachable(r.state) && !r.cancelled
    decreases |actions|
  {
    if |actions| == 0 then Next(state, None, false)
    else
      match Reduce(state, actions[0])
      case Threw(m) => Threw(m)
      case Next(s, _, _) => Run(s, actions[1..])
  }

  /** From the initial state, no sequence of actions ever reaches a state holding a promise. */
  lemma {:induction false} CancelNeverCalls(actions: seq<Action>, action: Action)
    requires Run(IdleState, actions).Next?
    ensures Reachable(Run(IdleState, actions).state)
    ensures Reduce(Run(IdleState, actions).state, action).Next? ==> !Reduce(Run(IdleState, actions).state, action).cancelled
  {
  }

  /**
   * The hook: the stored state, the state of the last render (the value
   * the dispatch closure of that render holds), the arguments setAsyncArgs
   * last received, and the cancel calls made.
   */
  class AsyncAction {
    var state: State
    var rendered: State
    var asyncArgs: Value
    var cancelCalls: nat

    ghost predicate Valid()
      reads this
    {
      Reachable(state) && Reachable(rendered)
    }

    /** useState() for the arguments and the initial reducer state. */
    constructor ()
      ensures Valid()
      ensures state == IdleState && rendered == IdleState && asyncArgs == Undefined && cancelCalls == 0
    {
      state := IdleState;
      rendered := IdleState;
      asyncArgs := Undefined;
      cancelCalls := 0;
    }

    /** A render of the component: useReducer returns the stored state, and the new dispatch closes over it. */
    method Render()
      modifies this
      ensures old(Valid()) ==> Valid()
      ensures rendered == state && state == old(state) && asyncArgs == old(asyncArgs) && cancelCalls == old(cancelCalls)
    {
      rendered := state;
    }

    /**
     * dispatch (state.jsx:28-31): the reducer runs on the state of the
     * last render, not on the stored one; when it throws nothing is
     * stored, otherwise its side effects happen and its result becomes the
     * stored state.
     */
    method Dispatch(action: Action) returns (thrown: Option<string>)
      modifies this
      ensures old(Valid()) ==> Valid()
      ensures rendered == old(rendered)
      ensures Reduce(old(rendered), action).Threw? ==>
                thrown == Some(Reduce(old(rendered), action).message)
                && state == old(state) && asyncArgs == old(asyncArgs) && cancelCalls == old(cancelCalls)
      ensures Reduce(old(rendered), action).Next? ==>
                && thrown.None? && state == Reduce(old(rendered), action).state
                && asyncArgs == (if action.kind == Str("FETCH") then action.args else old(asyncArgs))
                && cancelCalls == old(cancelCalls) + (if Reduce(old(rendered), action).cancelled then 1 else 0)
    {
      match action.kind {
        case Str("FETCH") =>
          if rendered.status == InProgress {
            return Some(RefetchMessage);
          }
          asyncArgs := action.args;
          state := State(InProgress, Undefined, Undefined, Undefined);
        case Str("SET_RESULT") =>
          state := State(Status.Success, action.result, Undefined, Undefined);
        case Str("ERROR") =>
          state := State(Error, Undefined, action.error, Undefined);
        case Str("CANCEL") =>
          var promise := rendered.promise;
          if Truthy(promise) && Truthy(Prop(promise, "cancel")) {
            if !Prop(promise, "cancel").Fn? {
              return Some(TypeError);
            }
            cancelCalls := cancelCalls + 1;
          }
          state := IdleState;
        case Str("RESET") =>
          state := IdleState;
        case _ =>
          return Some(UnexpectedMessage(action.kind));
      }
      return None;
    }

    /**
     * Two FETCH dispatches between renders both reduce the same idle
     * snapshot: neither throws, setAsyncArgs runs for both, and the second
     * arguments are kept.
     */
    method FetchTwiceInOneRender(a: Value, b: Value) returns (first: Option<string>, second: Option<string>)
      requires Valid() && rendered.status != InProgress
      modifies this
      ensures Valid() && first.None? && second.None?
      ensures asyncArgs == b && state == State(InProgress, Undefined, Undefined, Undefined)
    {
      first := Dispatch(Action(Str("FETCH"), a, Undefined, Undefined));
      second := Dispatch(Action(Str("FETCH"), b, Undefined, Undefined));
    }
  }
}
