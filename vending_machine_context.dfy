/** The machine-lock session store (src/services/VendingMachineContext.tsx):
    a reducer over the session state, and a provider whose operations
    dispatch fixed sequences of actions around one call to the lock client.
    The outcome of that call is an input of each operation; the clock reading
    that STATUS_UPDATED stores is a parameter. */
module VendingMachineContext {
  import opened Wrappers
  import opened ApiClient
  import opened VendingMachineService

  datatype State = State(isLocked: bool, isOccupied: bool, isLoading: bool,
                         error: Option<string>, lastStatusCheck: int)

  /** `initialState`. */
  const InitialState := State(false, false, false, None, 0)

  /** The reducer's actions; STATUS_UPDATED carries the time `Date.now()` returned. */
  datatype Action =
    | LockAcquired
    | LockReleased
    | StatusUpdated(isOccupied: bool, now: int)
    | SetLoading(loading: bool)
    | SetError(message: Option<string>)
    | ClearError

  const BusyError := "Автомат занят другим пользователем"
  const AcquireFailedError := "Ошибка захвата автомата"

  /** `vendingMachineReducer`. */
  function Reduce(s: State, a: Action): State {
    match a
    case LockAcquired => s.(isLocked := true, error := None)
    case LockReleased => s.(isLocked := false, error := None)
    case StatusUpdated(occupied, now) => s.(isOccupied := occupied, lastStatusCheck := now)
    case SetLoading(loading) => s.(isLoading := loading)
    case SetError(message) => s.(error := message, isLoading := false)
    case ClearError => s.(error := None)
  }

  /** The state after dispatching `actions` one after another. */
  function DispatchAll(s: State, actions: seq<Action>): State
    decreases |actions|
  {
    if actions == [] then s else DispatchAll(Reduce(s, actions[0]), actions[1..])
  }

  /** The dispatches of `acquireLock` as written. The service resolves to a bare
      boolean, and the code tests `result.success` on it: a property read on a
      boolean is `undefined`, so every resolved call takes the "busy" branch. */
  function AcquireDispatches(outcome: Result<bool, Error>): seq<Action> {
    [SetLoading(true), ClearError]
    + (match outcome
       case Ok(_) => [SetError(Some(BusyError))]
       case Err(_) => [SetError(Some(AcquireFailedError))])
    + [SetLoading(false)]
  }

  /** The dispatches `acquireLock` evidently intends: the boolean itself decides. */
  function IntendedAcquireDispatches(outcome: Result<bool, Error>): seq<Action> {
    [SetLoading(true), ClearError]
    + (match outcome
       case Ok(true) => [LockAcquired]
       case Ok(false) => [SetError(Some(BusyError))]
       case Err(_) => [SetError(Some(AcquireFailedError))])
    + [SetLoading(false)]
  }

  /** `releaseLock`: LOCK_RELEASED after a successful call, nothing after a failed one. */
  function ReleaseDispatches(outcome: Result<(), Error>): seq<Action> {
    match outcome
    case Ok(_) => [LockReleased]
    case Err(_) => []
  }

  /** `checkStatus`: STATUS_UPDATED after a successful call, nothing after a failed one. */
  function StatusDispatches(outcome: Result<MachineStatus, Error>, now: int): seq<Action> {
    match outcome
    case Ok(status) => [StatusUpdated(status.isOccupied, now)]
    case Err(_) => []
  }

  // ---------------------------------------------------------------------------
  // The provider
  // ---------------------------------------------------------------------------

  /** The state `useReducer` holds and the operations the provider exposes. */
  class VendingMachineProvider {
    var state: State

    constructor()
      ensures state == InitialState
    {
      state := InitialState;
    }

    method Dispatch(a: Action)
      modifies this
      ensures state == Reduce(old(state), a)
    {
      state := Reduce(state, a);
    }

    /** `acquireLock` as written, given how the service call ended. */
    method AcquireLock(outcome: Result<bool, Error>) returns (acquired: bool)
      modifies this
      ensures state == DispatchAll(old(state), AcquireDispatches(outcome))
      ensures !acquired
      ensures !state.isLoading && state.isLocked == old(state.isLocked)
      ensures state.error == Some(if outcome.Ok? then BusyError else AcquireFailedError)
      ensures state.isOccupied == old(state.isOccupied) && state.lastStatusCheck == old(state.lastStatusCheck)
    {
      ghost var start := state;
      Dispatch(SetLoading(true));
      Dispatch(Action.ClearError);
      ghost var sent := [SetLoading(true), Action.ClearError];
      DispatchAllSnoc(start, [SetLoading(true)], Action.ClearError);
      match outcome {
        case Ok(_) =>
          Dispatch(SetError(Some(BusyError)));
          DispatchAllSnoc(start, sent, SetError(Some(BusyError)));
          sent := sent + [SetError(Some(BusyError))];
          acquired := false;
        case Err(_) =>
          Dispatch(SetError(Some(AcquireFailedError)));
          DispatchAllSnoc(start, sent, SetError(Some(AcquireFailedError)));
          sent := sent + [SetError(Some(AcquireFailedError))];
          acquired := false;
      }
      Dispatch(SetLoading(false));
      DispatchAllSnoc(start, sent, SetLoading(false));
      sent := sent + [SetLoading(false)];
      assert sent == AcquireDispatches(outcome);
    }

    /** `acquireLock` with the success test corrected. */
    method AcquireLockCorrected(outcome: Result<bool, Error>) returns (acquired: bool)
      modifies this
      ensures state == DispatchAll(old(state), IntendedAcquireDispatches(outcome))
      ensures acquired <==> outcome == Ok(true)
      ensures !state.isLoading
      ensures state.isLocked == (acquired || old(state.isLocked))
      ensures state.error == (match outcome
                              case Ok(true) => None
                              case Ok(false) => Some(BusyError)
                              case Err(_) => Some(AcquireFailedError))
      ensures state.isOccupied == old(state.isOccupied) && state.lastStatusCheck == old(state.lastStatusCheck)
    {
      ghost var start := state;
      Dispatch(SetLoading(true));
      Dispatch(Action.ClearError);
      ghost var sent := [SetLoading(true), Action.ClearError];
      DispatchAllSnoc(start, [SetLoading(true)], Action.ClearError);
      var a: Action;
      match outcome {
        case Ok(result) =>
          if result {
            a := LockAcquired;
            acquired := true;
          } else {
            a := SetError(Some(BusyError));
            acquired := false;
          }
        case Err(_) =>
          a := SetError(Some(AcquireFailedError));
          acquired := false;
      }
      Dispatch(a);
      DispatchAllSnoc(start, sent, a);
      sent := sent + [a];
      Dispatch(SetLoading(false));
      DispatchAllSnoc(start, sent, SetLoading(false));
      sent := sent + [SetLoading(false)];
      assert sent == IntendedAcquireDispatches(outcome);
    }

    /** `releaseLock`: a failure is logged and swallowed, so nothing is dispatched. */
    method ReleaseLock(outcome: Result<(), Error>)
      modifies this
      ensures state == DispatchAll(old(state), ReleaseDispatches(outcome))
      ensures outcome.Ok? ==> state == old(state).(isLocked := false, error := None)
      ensures outcome.Err? ==> state == old(state)
    {
      if outcome.Ok? {
        Dispatch(LockReleased);
      }
    }

    /** `checkStatus`: records the status with the time of the check and returns
        it; a failure propagates to the caller with the state unchanged. */
    method CheckStatus(outcome: Result<MachineStatus, Error>, now: int) returns (r: Result<MachineStatus, Error>)
      modifies this
      ensures r == outcome
      ensures state == DispatchAll(old(state), StatusDispatches(outcome, now))
      ensures outcome.Ok? ==> state == old(state).(isOccupied := outcome.value.isOccupied, lastStatusCheck := now)
      ensures outcome.Err? ==> state == old(state)
    {
      if outcome.Ok? {
        Dispatch(StatusUpdated(outcome.value.isOccupied, now));
      }
      r := outcome;
    }

    /** `clearError`. */
    method ClearError()
      modifies this
      ensures state == old(state).(error := None)
    {
      Dispatch(Action.ClearError);
    }
  }

  // ---------------------------------------------------------------------------
  // Properties
  // ---------------------------------------------------------------------------

  /** Dispatching one more action continues from where the earlier ones left off. */
  lemma {:induction false} DispatchAllSnoc(s: State, actions: seq<Action>, a: Action)
    ensures DispatchAll(s, actions + [a]) == Reduce(DispatchAll(s, actions), a)
    decreases |actions|
  {
    if actions != [] {
      assert (actions + [a])[1..] == actions[1..] + [a];
      DispatchAllSnoc(Reduce(s, actions[0]), actions[1..], a);
    }
  }

  lemma DispatchFour(s: State, a: Action, b: Action, c: Action, d: Action)
    ensures DispatchAll(s, [a, b, c, d]) == Reduce(Reduce(Reduce(Reduce(s, a), b), c), d)
  {
    var s1 := Reduce(s, a);
    var s2 := Reduce(s1, b);
    var s3 := Reduce(s2, c);
    assert [a, b, c, d][1..] == [b, c, d];
    assert [b, c, d][1..] == [c, d];
    assert [c, d][1..] == [d];
    assert [d][1..] == [];
    calc {
      DispatchAll(s, [a, b, c, d]);
      DispatchAll(s1, [b, c, d]);
      DispatchAll(s2, [c, d]);
      DispatchAll(s3, [d]);
      DispatchAll(Reduce(s3, d), []);
    }
  }

  /** What each action changes, and that everything else is left alone; only
      the two lock actions move the lock flag. */
  lemma ActionEffects(s: State, occupied: bool, now: int, loading: bool, message: Option<string>, a: Action)
    ensures Reduce(s, a).isLocked != s.isLocked ==> a.LockAcquired? || a.LockReleased?
    ensures Reduce(s, a).lastStatusCheck != s.lastStatusCheck ==> a.StatusUpdated?
    ensures Reduce(s, LockAcquired) == s.(isLocked := true, error := None)
    ensures Reduce(s, LockReleased) == s.(isLocked := false, error := None)
    ensures Reduce(s, StatusUpdated(occupied, now)) == s.(isOccupied := occupied, lastStatusCheck := now)
    ensures Reduce(s, SetLoading(loading)) == s.(isLoading := loading)
    ensures Reduce(s, SetError(message)) == s.(error := message, isLoading := false)
    ensures Reduce(s, ClearError) == s.(error := None)
  {
  }

  /** CLEAR_ERROR is idempotent, and a no-op when there is no error. */
  lemma ClearErrorIdempotent(s: State)
    ensures Reduce(Reduce(s, ClearError), ClearError) == Reduce(s, ClearError)
    ensures s.error.None? ==> Reduce(s, ClearError) == s
  {
  }

  /** The store starts unlocked, free, idle, without error and never checked. */
  lemma InitialStateIsIdle()
    ensures !InitialState.isLocked && !InitialState.isOccupied && !InitialState.isLoading
    ensures InitialState.error.None? && InitialState.lastStatusCheck == 0
  {
  }

  /** As written, no outcome of the service call ever locks the machine: every
      path ends with loading off, the lock flag untouched and an error set. */
  lemma {:induction false} AcquireAsWrittenNeverLocks(s: State, outcome: Result<bool, Error>)
    ensures var t := DispatchAll(s, AcquireDispatches(outcome));
      && !t.isLoading
      && t.isLocked == s.isLocked
      && t.error == Some(if outcome.Ok? then BusyError else AcquireFailedError)
      && t.isOccupied == s.isOccupied && t.lastStatusCheck == s.lastStatusCheck
  {
    var acts := AcquireDispatches(outcome);
    assert acts == [acts[0], acts[1], acts[2], acts[3]];
    DispatchFour(s, acts[0], acts[1], acts[2], acts[3]);
  }

  /** The concrete input that shows it: the service grants the lock, yet the
      session reports the machine as busy and the lock flag stays false. */
  lemma AcquireSuccessIgnored()
    ensures var t := DispatchAll(InitialState, AcquireDispatches(Ok(true)));
      !t.isLocked && t.error == Some(BusyError)
  {
    AcquireAsWrittenNeverLocks(InitialState, Ok(true));
  }

  /** With the test corrected: the lock is taken exactly when the service grants
      it, the error is cleared then, denial and failure get their own messages,
      and loading is off on every path. */
  lemma {:induction false} IntendedAcquireOutcomes(s: State, outcome: Result<bool, Error>)
    ensures var t := DispatchAll(s, IntendedAcquireDispatches(outcome));
      && !t.isLoading
      && t.isLocked == (outcome == Ok(true) || s.isLocked)
      && (outcome == Ok(true) ==> t.isLocked && t.error.None?)
      && (outcome == Ok(false) ==> t.error == Some(BusyError))
      && (outcome.Err? ==> t.error == Some(AcquireFailedError))
      && t.isOccupied == s.isOccupied && t.lastStatusCheck == s.lastStatusCheck
  {
    var acts := IntendedAcquireDispatches(outcome);
    assert acts == [acts[0], acts[1], acts[2], acts[3]];
    DispatchFour(s, acts[0], acts[1], acts[2], acts[3]);
  }

  /** A failed release leaves the whole state, the lock flag included, as it was;
      a successful one clears the lock flag and the error and nothing else. */
  lemma ReleaseOutcomes(s: State, outcome: Result<(), Error>)
    ensures outcome.Err? ==> DispatchAll(s, ReleaseDispatches(outcome)) == s
    ensures outcome.Ok? ==> DispatchAll(s, ReleaseDispatches(outcome)) == s.(isLocked := false, error := None)
  {
  }

  /** A failed status check changes nothing; a successful one changes only the
      occupancy and the time of the check. */
  lemma StatusOutcomes(s: State, outcome: Result<MachineStatus, Error>, now: int)
    ensures outcome.Err? ==> DispatchAll(s, StatusDispatches(outcome, now)) == s
    ensures outcome.Ok? ==> DispatchAll(s, StatusDispatches(outcome, now))
                            == s.(isOccupied := outcome.value.isOccupied, lastStatusCheck := now)
  {
  }
}
