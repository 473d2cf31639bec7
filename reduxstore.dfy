/**
 * The web client's Redux store (packages/web/src/redux/store.jsx): the
 * state of the checks fetch and of each check's history fetch, and the
 * reducer that moves them between idle, inprogress, success and error.
 *
 * The reducer builds a fresh state with spreads and never mutates its
 * input, so it is a function here. The history is a map; the order of its
 * keys is not modelled.
 */
module ReduxStore {
  import opened Wrappers
  import opened Js

  datatype Status = Idle | InProgress | Success | Error

  /** idleState, inprogressState, successState and errorState (store.jsx:6-22); error is undefined but for errorState. */
  datatype Async = Async(status: Status, error: Value, result: Value)

  datatype State = State(checks: Async, checkHistory: map<string, Async>)

  /** defaultState (store.jsx:24-27). */
  const DefaultState := State(Async(Idle, Undefined, Undefined), map[])

  datatype Action = Action(kind: Value, service: Value, check: Value, result: Value, error: Value)

  /** The reducer's completion: the next state, or the message of a failed assert. */
  datatype Reduced = Reduced(state: State) | Threw(message: string)

  const ServiceRequired := "Service is required for fetching history"
  const CheckRequired := "Check is required for fetching history"

  const FetchChecks := Str("FETCH_CHECKS")
  const FetchChecksSuccess := Str("FETCH_CHECKS_SUCCESS")
  const FetchChecksError := Str("FETCH_CHECKS_ERROR")
  const InvalidateHistory := Str("INVALIDATE_FETCH_CHECK_HISTORY")
  const FetchHistory := Str("FETCH_CHECK_HISTORY")
  const FetchHistorySuccess := Str("FETCH_CHECK_HISTORY_SUCCESS")
  const FetchHistoryError := Str("FETCH_CHECK_HISTORY_ERROR")

  predicate IsChecksAction(kind: Value) {
    kind == FetchChecks || kind == FetchChecksSuccess || kind == FetchChecksError
  }

  predicate IsHistoryAction(kind: Value) {
    kind == InvalidateHistory || kind == FetchHistory || kind == FetchHistorySuccess || kind == FetchHistoryError
  }

  /** `action.service + '-' + action.check`. */
  function HistoryKey(service: Value, check: Value): string {
    ToString(service) + "-" + ToString(check)
  }

  /** `get(state.checkHistory[key], 'result')`: undefined for a key not yet stored. */
  function PriorResult(history: map<string, Async>, key: string): Value {
    if key in history then history[key].result else Undefined
  }

  /** The new checks entry of a checks action (store.jsx:32-46). */
  function ChecksEntry(checks: Async, action: Action): Async
    requires IsChecksAction(action.kind)
  {
    if action.kind == FetchChecks then Async(InProgress, Undefined, checks.result)
    else if action.kind == FetchChecksSuccess then Async(Status.Success, Undefined, action.result)
    else Async(Error, action.error, checks.result)
  }

  /** The new history entry of a history action (store.jsx:48-103). */
  function HistoryEntry(prior: Value, action: Action): Async
    requires IsHistoryAction(action.kind)
  {
    if action.kind == InvalidateHistory then Async(Idle, Undefined, prior)
    else if action.kind == FetchHistory then Async(InProgress, Undefined, prior)
    else if action.kind == FetchHistorySuccess then Async(Status.Success, Undefined, action.result)
    else Async(Error, action.error, prior)
  }

  /** The reducer passed to createStore (store.jsx:30-107); an undefined state is the default state. */
  function Reduce(state: Option<State>, action: Action): (r: Reduced)
    ensures r.Threw? <==> IsHistoryAction(action.kind) && (!Truthy(action.service) || !Truthy(action.check))
    ensures r.Threw? ==> r.message == (if !Truthy(action.service) then ServiceRequired else CheckRequired)
  {
    var s := if state.None? then DefaultState else state.value;
    if IsChecksAction(action.kind) then
      Reduced(s.(checks := ChecksEntry(s.checks, action)))
    else if IsHistoryAction(action.kind) then
      if !Truthy(action.service) then Threw(ServiceRequired)
      else if !Truthy(action.check) then Threw(CheckRequired)
      else
        var key := HistoryKey(action.service, action.check);
        Reduced(s.(checkHistory := s.checkHistory[key := HistoryEntry(PriorResult(s.checkHistory, key), action)]))
    else Reduced(s)
  }

  /** The store starts in the default state whatever unknown action initialises it. */
  lemma InitialState(action: Action)
    requires !IsChecksAction(action.kind) && !IsHistoryAction(action.kind)
    ensures Reduce(None, action) == Reduced(DefaultState)
    ensures DefaultState.checks.status == Idle && DefaultState.checks.result == Undefined
    ensures DefaultState.checkHistory == map[]
  {
  }

  /** An action the reducer does not know returns the state it was given. */
  lemma UnknownActionSameState(s: State, action: Action)
    requires !IsChecksAction(action.kind) && !IsHistoryAction(action.kind)
    ensures Reduce(Some(s), action) == Reduced(s)
  {
  }

  /**
   * A checks action touches only `checks`: inprogress and error keep the
   * old result, success takes the action's.
   */
  lemma ChecksActionEffect(s: State, action: Action)
    requires IsChecksAction(action.kind)
    ensures var r := Reduce(Some(s), action);
            && r.Reduced? && r.state.checkHistory == s.checkHistory
            && (action.kind == FetchChecks ==> r.state.checks == Async(InProgress, Undefined, s.checks.result))
            && (action.kind == FetchChecksSuccess ==> r.state.checks == Async(Status.Success, Undefined, action.result))
            && (action.kind == FetchChecksError ==> r.state.checks == Async(Error, action.error, s.checks.result))
  {
  }

  /**
   * A history action with a service and a check writes only the entry of
   * service + '-' + check, and leaves every other entry and `checks` as
   * they were.
   */
  lemma HistoryActionFrame(s: State, action: Action)
    requires IsHistoryAction(action.kind) && Truthy(action.service) && Truthy(action.check)
    ensures var r := Reduce(Some(s), action);
            var key := HistoryKey(action.service, action.check);
            && r.Reduced? && r.state.checks == s.checks
            && r.state.checkHistory.Keys == s.checkHistory.Keys + {key}
            && (forall k | k in s.checkHistory && k != key :: r.state.checkHistory[k] == s.checkHistory[k])
            && r.state.checkHistory[key] == HistoryEntry(PriorResult(s.checkHistory, key), action)
  {
  }

  /** Invalidate and fetch keep the stored result, success replaces it, error keeps it. */
  lemma HistoryResultKept(s: State, action: Action)
    requires IsHistoryAction(action.kind) && Truthy(action.service) && Truthy(action.check)
    ensures var r := Reduce(Some(s), action);
            var key := HistoryKey(action.service, action.check);
            && r.Reduced?
            && r.state.checkHistory[key].result
               == (if action.kind == FetchHistorySuccess then action.result else PriorResult(s.checkHistory, key))
            && r.state.checkHistory[key].status
               == (if action.kind == InvalidateHistory then Idle
                   else if action.kind == FetchHistory then InProgress
                   else if action.kind == FetchHistorySuccess then Status.Success
                   else Error)
  {
  }

  /** Applying the same action twice gives what applying it once gives. */
  lemma {:induction false} ReduceIdempotent(s: State, action: Action)
    requires Reduce(Some(s), action).Reduced?
    ensures Reduce(Some(Reduce(Some(s), action).state), action) == Reduce(Some(s), action)
  {
    if IsHistoryAction(action.kind) {
      var key := HistoryKey(action.service, action.check);
      var once := Reduce(Some(s), action).state;
      assert PriorResult(once.checkHistory, key) == (if action.kind == FetchHistorySuccess then action.result else PriorResult(s.checkHistory, key));
    }
  }

  /** History actions on different keys, and a checks action with a history action, commute. */
  lemma {:induction false} IndependentActionsCommute(s: State, a: Action, b: Action)
    requires Reduce(Some(s), a).Reduced? && Reduce(Some(s), b).Reduced?
    requires (IsChecksAction(a.kind) && IsHistoryAction(b.kind))
             || (IsHistoryAction(a.kind) && IsHistoryAction(b.kind) && HistoryKey(a.service, a.check) != HistoryKey(b.service, b.check))
    ensures Reduce(Some(Reduce(Some(s), a).state), b).Reduced?
    ensures Reduce(Some(Reduce(Some(s), a).state), b) == Reduce(Some(Reduce(Some(s), b).state), a)
  {
    if IsHistoryAction(a.kind) {
      var ka := HistoryKey(a.service, a.check);
      var kb := HistoryKey(b.service, b.check);
      var sa := Reduce(Some(s), a).state;
      var sb := Reduce(Some(s), b).state;
      assert PriorResult(sa.checkHistory, kb) == PriorResult(s.checkHistory, kb);
      assert PriorResult(sb.checkHistory, ka) == PriorResult(s.checkHistory, ka);
    }
  }

  /**
   * The key is not injective: the history of check "c" of service "a-b"
   * and that of check "b-c" of service "a" share one entry, so fetching
   * one overwrites the other.
   */
  lemma HistoryKeysCanCollide(s: State, a: Action, b: Action)
    requires a.kind == FetchHistorySuccess && a.service == Str("a-b") && a.check == Str("c")
    requires b.service == Str("a") && b.check == Str("b-c")
    ensures HistoryKey(a.service, a.check) == HistoryKey(b.service, b.check)
    ensures Reduce(Some(s), a).state.checkHistory[HistoryKey(b.service, b.check)].result == a.result
  {
    assert HistoryKey(a.service, a.check) == "a-b-c";
    assert HistoryKey(b.service, b.check) == "a-b-c";
  }
}
