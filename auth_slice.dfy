/**
 * The front end's authentication store slice
 * (turbine-shutdown-frontend/src/store/slices/auth.slice.ts): the signed-in
 * user, whether someone is signed in, a loading flag and an error, changed
 * in place by four reducers. Its invariant: the slice reports itself
 * authenticated exactly when it holds a user.
 */
module AuthSlice {
  import opened Wrappers
  import opened Types

  datatype Snapshot = Snapshot(
    user: Option<User>,
    isAuthenticated: bool,
    loading: bool,
    error: Option<string>)

  function InitialState(): Snapshot
  {
    Snapshot(None, false, false, None)
  }

  /** The slice's invariant: authenticated exactly when a user is held. */
  predicate Consistent(s: Snapshot)
  {
    s.isAuthenticated <==> s.user.Some?
  }

  datatype Action =
    | LoginStart
    | LoginSuccess(user: User)
    | LoginFailure(message: string)
    | Logout

  /** The effect of one action on the record. */
  function Reduce(s: Snapshot, a: Action): Snapshot
  {
    match a
    case LoginStart => s.(loading := true, error := None)
    case LoginSuccess(user) => Snapshot(Some(user), true, false, None)
    case LoginFailure(message) => s.(loading := false, error := Some(message))
    case Logout => s.(user := None, isAuthenticated := false)
  }

  /** The record after dispatching `actions` in order. */
  function ReduceAll(s: Snapshot, actions: seq<Action>): Snapshot
  {
    if actions == [] then s
    else Reduce(ReduceAll(s, actions[..|actions| - 1]), actions[|actions| - 1])
  }

  /** Each reducer keeps the invariant; `loginSuccess` and `logout` establish it outright. */
  lemma ReducePreservesConsistent(s: Snapshot, a: Action)
    ensures Consistent(Reduce(s, a)) <==> (Consistent(s) || a.LoginSuccess? || a.Logout?)
  {
  }

  /** From a consistent record, every sequence of reducers leads to a consistent record. */
  lemma {:induction false} ConsistentAfterAnyActions(s: Snapshot, actions: seq<Action>)
    requires Consistent(s)
    ensures Consistent(ReduceAll(s, actions))
  {
    if actions != [] {
      ConsistentAfterAnyActions(s, actions[..|actions| - 1]);
      ReducePreservesConsistent(ReduceAll(s, actions[..|actions| - 1]), actions[|actions| - 1]);
    }
  }

  /** Starting from the initial state, `isAuthenticated` holds exactly when a user is held. */
  lemma ConsistentFromInitialState(actions: seq<Action>)
    ensures Consistent(ReduceAll(InitialState(), actions))
    ensures ReduceAll(InitialState(), actions).isAuthenticated <==> ReduceAll(InitialState(), actions).user.Some?
  {
  }

  /**
   * Reference account of who is signed in: the user of the last `loginSuccess`,
   * unless a `logout` came after it; `previous` if neither occurs.
   */
  function SignedInUser(previous: Option<User>, actions: seq<Action>): Option<User>
  {
    if actions == [] then previous
    else
      match actions[|actions| - 1]
      case LoginSuccess(user) => Some(user)
      case Logout => None
      case _ => SignedInUser(previous, actions[..|actions| - 1])
  }

  /** The user the slice holds is the one the reference account names. */
  lemma {:induction false} UserIsLastSignIn(s: Snapshot, actions: seq<Action>)
    ensures ReduceAll(s, actions).user == SignedInUser(s.user, actions)
  {
    if actions != [] {
      UserIsLastSignIn(s, actions[..|actions| - 1]);
    }
  }

  /** `loginStart` followed by its success or its failure leaves the slice no longer loading. */
  lemma LoadingSettlesAfterOutcome(s: Snapshot, outcome: Action)
    requires outcome.LoginSuccess? || outcome.LoginFailure?
    ensures Reduce(s, LoginStart).loading
    ensures !ReduceAll(s, [LoginStart, outcome]).loading
  {
  }

  /** The actions the `login` thunk dispatches, given the user the server returned or its error message. */
  function LoginDispatches(answer: Option<User>, message: string): seq<Action>
  {
    match answer
    case Some(user) => [LoginStart, LoginSuccess(user)]
    case None => [LoginStart, LoginFailure(message)]
  }

  /**
   * After `login`, the slice is not loading; on success it holds the returned
   * user with no error, on failure it keeps whoever was signed in and records
   * the message.
   */
  lemma LoginSettles(s: Snapshot, answer: Option<User>, message: string)
    ensures var t := ReduceAll(s, LoginDispatches(answer, message));
      && !t.loading
      && (answer.Some? ==> t.user == answer && t.isAuthenticated && t.error == None)
      && (answer.None? ==>
            t.user == s.user && t.isAuthenticated == s.isAuthenticated && t.error == Some(message))
  {
    var outcome := if answer.Some? then LoginSuccess(answer.value) else LoginFailure(message);
    var trace := [LoginStart, outcome];
    assert LoginDispatches(answer, message) == trace;
    assert trace[..1] == [LoginStart] && [LoginStart][..0] == [];
    assert ReduceAll(s, [LoginStart]) == Reduce(s, LoginStart);
    assert ReduceAll(s, trace) == Reduce(Reduce(s, LoginStart), outcome);
  }

  /** The slice's record, updated in place by its reducers. */
  class AuthState {
    var user: Option<User>
    var isAuthenticated: bool
    var loading: bool
    var error: Option<string>

    predicate Valid()
      reads this
    {
      isAuthenticated <==> user.Some?
    }

    function State(): Snapshot
      reads this
    {
      Snapshot(user, isAuthenticated, loading, error)
    }

    /** The initial state: nobody signed in, not loading, no error. */
    constructor ()
      ensures user == None && !isAuthenticated && !loading && error == None
      ensures Valid()
      ensures State() == InitialState()
    {
      user := None;
      isAuthenticated := false;
      loading := false;
      error := None;
    }

    method LoginStart()
      modifies this`loading, this`error
      ensures loading && error == None
      ensures Valid() <==> old(Valid())
      ensures State() == Reduce(old(State()), Action.LoginStart)
    {
      loading := true;
      error := None;
    }

    method LoginSuccess(u: User)
      modifies this
      ensures user == Some(u) && isAuthenticated && !loading && error == None
      ensures Valid()
      ensures State() == Reduce(old(State()), Action.LoginSuccess(u))
    {
      user := Some(u);
      isAuthenticated := true;
      loading := false;
      error := None;
    }

    method LoginFailure(message: string)
      modifies this`loading, this`error
      ensures !loading && error == Some(message)
      ensures Valid() <==> old(Valid())
      ensures State() == Reduce(old(State()), Action.LoginFailure(message))
    {
      loading := false;
      error := Some(message);
    }

    method Logout()
      modifies this`user, this`isAuthenticated
      ensures user == None && !isAuthenticated
      ensures Valid()
      ensures State() == Reduce(old(State()), Action.Logout)
    {
      user := None;
      isAuthenticated := false;
    }

    /** The slice's reducer: hands an action to the reducer of its type. */
    method Dispatch(a: Action)
      modifies this
      ensures old(Valid()) ==> Valid()
      ensures State() == Reduce(old(State()), a)
    {
      match a
      case LoginStart => LoginStart();
      case LoginSuccess(u) => LoginSuccess(u);
      case LoginFailure(message) => LoginFailure(message);
      case Logout => Logout();
    }
  }
}
