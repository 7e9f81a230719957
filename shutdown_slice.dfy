/**
 * The front end's shutdown store slice
 * (turbine-shutdown-frontend/src/store/slices/shutdown.slice.ts): a record
 * of the current session, the current step, the last validation results, a
 * loading flag and an error, changed in place by six reducers.
 *
 * `Snapshot` and `Reduce` state what each reducer does to the record as a
 * whole; the class `ShutdownState` holds the record in mutable fields, and
 * each of its methods is proved to change it as `Reduce` says.
 */
module ShutdownSlice {
  import opened Wrappers
  import opened Types
  import opened Validation

  datatype Snapshot = Snapshot(
    currentSession: Option<ShutdownSession>,
    currentStep: Option<ShutdownStep>,
    validationResults: seq<ValidationResult>,
    loading: bool,
    error: Option<string>)

  function InitialState(): Snapshot
  {
    Snapshot(None, None, [], false, None)
  }

  /** The slice's actions, one per reducer, with their payloads. */
  datatype Action =
    | StartShutdownStart
    | StartShutdownSuccess(session: ShutdownSession)
    | StartShutdownFailure(message: string)
    | SetCurrentStep(step: ShutdownStep)
    | SetValidationResults(results: seq<ValidationResult>)
    | CompleteStepSuccess(step: ShutdownStep)

  /** The effect of one action on the record. */
  function Reduce(s: Snapshot, a: Action): Snapshot
  {
    match a
    case StartShutdownStart => s.(loading := true, error := None)
    case StartShutdownSuccess(session) => s.(currentSession := Some(session), loading := false)
    case StartShutdownFailure(message) => s.(loading := false, error := Some(message))
    case SetCurrentStep(step) => s.(currentStep := Some(step))
    case SetValidationResults(results) => s.(validationResults := results)
    case CompleteStepSuccess(step) => s.(currentStep := Some(step))
  }

  /** The record after dispatching `actions` in order. */
  function ReduceAll(s: Snapshot, actions: seq<Action>): Snapshot
  {
    if actions == [] then s
    else Reduce(ReduceAll(s, actions[..|actions| - 1]), actions[|actions| - 1])
  }

  /** Dispatching two lists in turn is dispatching their concatenation. */
  lemma {:induction false} ReduceAllAppend(s: Snapshot, actions1: seq<Action>, actions2: seq<Action>)
    ensures ReduceAll(s, actions1 + actions2) == ReduceAll(ReduceAll(s, actions1), actions2)
  {
    if actions2 == [] {
      assert actions1 + actions2 == actions1;
    } else {
      var both := actions1 + actions2;
      assert both[..|both| - 1] == actions1 + actions2[..|actions2| - 1];
      ReduceAllAppend(s, actions1, actions2[..|actions2| - 1]);
    }
  }

  /** `startShutdownStart` followed by its success or its failure leaves the slice no longer loading. */
  lemma LoadingSettlesAfterOutcome(s: Snapshot, outcome: Action)
    requires outcome.StartShutdownSuccess? || outcome.StartShutdownFailure?
    ensures Reduce(s, StartShutdownStart).loading
    ensures !ReduceAll(s, [StartShutdownStart, outcome]).loading
  {
  }

  /** No reducer clears the session: once one has been stored, there is always one. */
  lemma {:induction false} SessionPersists(s: Snapshot, actions: seq<Action>)
    requires s.currentSession.Some?
    ensures ReduceAll(s, actions).currentSession.Some?
  {
    if actions != [] {
      SessionPersists(s, actions[..|actions| - 1]);
    }
  }

  /** Only `setValidationResults` replaces the results. */
  lemma {:induction false} ResultsOnlyReplacedBySetValidationResults(s: Snapshot, actions: seq<Action>)
    requires forall i :: 0 <= i < |actions| ==> !actions[i].SetValidationResults?
    ensures ReduceAll(s, actions).validationResults == s.validationResults
  {
    if actions != [] {
      ResultsOnlyReplacedBySetValidationResults(s, actions[..|actions| - 1]);
    }
  }

  /**
   * The results a step visualiser gates on before anything has been
   * validated: none, so "Confirm and Proceed" starts out enabled.
   */
  lemma InitialResultsAllValid()
    ensures InitialState().validationResults == []
    ensures AllValid(InitialState().validationResults)
  {
  }

  /** What the server calls made by `startShutdownSession` came back with. */
  datatype StartOutcome =
    | SessionFailed(message: string)
    | StepFailed(session: ShutdownSession, message: string)
    | Started(session: ShutdownSession, step: ShutdownStep)

  /** The actions `startShutdownSession` dispatches, given what its server calls return. */
  function StartShutdownSessionDispatches(outcome: StartOutcome): seq<Action>
  {
    match outcome
    case SessionFailed(message) => [StartShutdownStart, StartShutdownFailure(message)]
    case StepFailed(session, message) =>
      [StartShutdownStart, StartShutdownSuccess(session), StartShutdownFailure(message)]
    case Started(session, step) =>
      [StartShutdownStart, StartShutdownSuccess(session), SetCurrentStep(step)]
  }

  /**
   * Whatever the server answers, `startShutdownSession` ends not loading and
   * with the results untouched; the session it obtained is stored, and the
   * error is cleared on success and holds the failure's message otherwise.
   */
  lemma StartShutdownSessionSettles(s: Snapshot, outcome: StartOutcome)
    ensures var t := ReduceAll(s, StartShutdownSessionDispatches(outcome));
      && !t.loading
      && t.validationResults == s.validationResults
      && (outcome.SessionFailed? ==>
            t.currentSession == s.currentSession && t.currentStep == s.currentStep
            && t.error == Some(outcome.message))
      && (outcome.StepFailed? ==>
            t.currentSession == Some(outcome.session) && t.currentStep == s.currentStep
            && t.error == Some(outcome.message))
      && (outcome.Started? ==>
            t.currentSession == Some(outcome.session) && t.currentStep == Some(outcome.step)
            && t.error == None)
  {
    var start := Reduce(s, StartShutdownStart);
    assert ReduceAll(s, [StartShutdownStart]) == start by {
      assert [StartShutdownStart][..0] == [];
    }
    match outcome
    case SessionFailed(message) =>
      assert [StartShutdownStart, StartShutdownFailure(message)][..1] == [StartShutdownStart];
    case StepFailed(session, message) =>
      var trace := [StartShutdownStart, StartShutdownSuccess(session), StartShutdownFailure(message)];
      assert trace[..2][..1] == [StartShutdownStart];
    case Started(session, step) =>
      var trace := [StartShutdownStart, StartShutdownSuccess(session), SetCurrentStep(step)];
      assert trace[..2][..1] == [StartShutdownStart];
  }

  /**
   * The actions `completeStep` dispatches: the next step when both server
   * calls succeed, nothing when either fails (the error is swallowed).
   */
  function CompleteStepDispatches(nextStep: Option<ShutdownStep>): seq<Action>
  {
    match nextStep
    case Some(step) => [CompleteStepSuccess(step)]
    case None => []
  }

  /** `completeStep` changes at most the current step, to the step the server reports next. */
  lemma CompleteStepOnlyMovesStep(s: Snapshot, nextStep: Option<ShutdownStep>)
    ensures var t := ReduceAll(s, CompleteStepDispatches(nextStep));
      t == (if nextStep.Some? then s.(currentStep := nextStep) else s)
  {
  }

  /** The slice's record, updated in place by its reducers. */
  class ShutdownState {
    var currentSession: Option<ShutdownSession>
    var currentStep: Option<ShutdownStep>
    var validationResults: seq<ValidationResult>
    var loading: bool
    var error: Option<string>

    function State(): Snapshot
      reads this
    {
      Snapshot(currentSession, currentStep, validationResults, loading, error)
    }

    /** The initial state: no session, no step, no results, not loading, no error. */
    constructor ()
      ensures currentSession == None && currentStep == None && validationResults == []
      ensures !loading && error == None
      ensures State() == InitialState()
    {
      currentSession := None;
      currentStep := None;
      validationResults := [];
      loading := false;
      error := None;
    }

    method StartShutdownStart()
      modifies this`loading, this`error
      ensures loading && error == None
      ensures State() == Reduce(old(State()), Action.StartShutdownStart)
    {
      loading := true;
      error := None;
    }

    method StartShutdownSuccess(session: ShutdownSession)
      modifies this`currentSession, this`loading
      ensures currentSession == Some(session) && !loading
      ensures State() == Reduce(old(State()), Action.StartShutdownSuccess(session))
    {
      currentSession := Some(session);
      loading := false;
    }

    method StartShutdownFailure(message: string)
      modifies this`loading, this`error
      ensures !loading && error == Some(message)
      ensures State() == Reduce(old(State()), Action.StartShutdownFailure(message))
    {
      loading := false;
      error := Some(message);
    }

    method SetCurrentStep(step: ShutdownStep)
      modifies this`currentStep
      ensures currentStep == Some(step)
      ensures State() == Reduce(old(State()), Action.SetCurrentStep(step))
    {
      currentStep := Some(step);
    }

    method SetValidationResults(results: seq<ValidationResult>)
      modifies this`validationResults
      ensures validationResults == results
      ensures State() == Reduce(old(State()), Action.SetValidationResults(results))
    {
      validationResults := results;
    }

    method CompleteStepSuccess(step: ShutdownStep)
      modifies this`currentStep
      ensures currentStep == Some(step)
      ensures State() == Reduce(old(State()), Action.CompleteStepSuccess(step))
    {
      currentStep := Some(step);
    }

    /** The slice's reducer: hands an action to the reducer of its type. */
    method Dispatch(a: Action)
      modifies this
      ensures State() == Reduce(old(State()), a)
    {
      match a
      case StartShutdownStart => StartShutdownStart();
      case StartShutdownSuccess(session) => StartShutdownSuccess(session);
      case StartShutdownFailure(message) => StartShutdownFailure(message);
      case SetCurrentStep(step) => SetCurrentStep(step);
      case SetValidationResults(results) => SetValidationResults(results);
      case CompleteStepSuccess(step) => CompleteStepSuccess(step);
    }
  }
}
