# Turbine shutdown: step validation and client state, in Dafny

This project models the logic of a turbine-shutdown assistant that has real behaviour:

- **The step-parameter validator** of the back end (`validateStepParameters`). A shutdown step carries range rules, one per sensor parameter. Each rule is checked against one sample of sensor data. A missing reading gives "no sensor data". A reading outside the inclusive range `[min, max]` gives a failure that carries the value and the range. Otherwise the rule is valid. `AllValid` is the front end's gate on "Confirm and Proceed": every result must be valid.
- **The shutdown store slice** of the front end. It is a record of the current session, the current step, the validation results, a loading flag and an error. Six reducers update it in place.
- **The authentication store slice** of the front end. It is a record of the user, an authenticated flag, a loading flag and an error. Four reducers update it in place, and they keep the invariant "authenticated exactly when a user is held".

Layout:

- `wrappers.dfy` (module `Wrappers`): the `Option` datatype.
- `types.dfy` (module `Types`): the front end's records (user, session, step, interaction).
- `validation.dfy` (module `Validation`): the validator as functions over `seq`, with lemmas.
- `shutdown_slice.dfy` (module `ShutdownSlice`) and `auth_slice.dfy` (module `AuthSlice`): each slice has two parts.
  - A value `Snapshot` with a pure `Reduce(snapshot, action)` that specifies the reducers.
  - A class whose fields are the slice's state. It has one method per reducer. Each method's `modifies` clause names only the fields that reducer assigns, and its `ensures` ties the new state to `Reduce` of the old state.

Modelling choices:

- A sensor value is a `real`. The source only compares values and never computes with them.
- The sensor sample is a `map<string, Option<real>>`. A missing key stands for `undefined` and `None` stands for `null`. Both give the no-data result.
- The out-of-range message text is abstract: `OutsideRange(value, units, range)` holds exactly the items the source puts into its template string.
- A thunk dispatches reducers and awaits server calls. Its dispatch sequence is modelled as a list of actions. The server's answer is a parameter of that list.

Where the design description and the code disagree, this model follows the code. The design describes rate-of-change checks, a sensor-quality threshold, one active session per plant, session status transitions, a role hierarchy, overrides and step sequencing. The code implements none of these, so none of them is modelled. `RateOfChangeIgnored` proves that the declared `maxRateOfChange` has no effect.

## Model

| member | source | states |
|---|---|---|
| `Validation.ValidateRule` | turbine-shutdown-backend/src/utils/validation.ts:21-47 | result names the rule's parameter; valid iff a reading exists and lies in `[lo, hi]` inclusive; `actualValue` is the reading whenever there is one; a message exactly on failure, the no-data message exactly when the reading is undefined/null; the rule's range and the out-of-range message exactly on a present but out-of-range reading |
| `Validation.ValidateStepParameters` | turbine-shutdown-backend/src/utils/validation.ts:16-49 | one result per rule, in rule order, result i names rule i's parameter and is rule i's own check |
| `Validation.AllValidIffEveryRulePasses` | turbine-shutdown-backend/src/utils/validation.ts:20-48 | all results valid (the UI's confirm gate) iff every rule's parameter has a reading inside its range |
| `Validation.FailingRuleIsReported` | turbine-shutdown-backend/src/utils/validation.ts:31-39 | a failing rule yields an invalid result at its own position naming its parameter, so the results are not all valid |
| `Validation.ValidateConcatenation` | turbine-shutdown-backend/src/utils/validation.ts:20 | rules are checked independently: validating `rules1 + rules2` is validating each list and concatenating |
| `Validation.ValidationIsLocal` | turbine-shutdown-backend/src/utils/validation.ts:20-21 | results depend on the sample only through the readings of the rules' own parameters |
| `Validation.RateOfChangeIgnored` | turbine-shutdown-backend/src/utils/validation.ts:5-41 | changing a rule's declared `maxRateOfChange` does not change its result |
| `Validation.InvertedRangeNeverValid` | turbine-shutdown-backend/src/utils/validation.ts:31 | a rule whose lower bound exceeds its upper bound never validates |
| `Validation.BoundsAreInclusive` | turbine-shutdown-backend/src/utils/validation.ts:31 | a reading equal to either bound of a proper range validates |
| `Validation.SteamTemperatureExample` | turbine-shutdown-backend/test/unit/shutdown.service.test.ts:23-35 | MS_TEMP=540 and HRH_TEMP=538 against `[535, 545]` all validate; MS_TEMP=560 does not |
| `ShutdownSlice.ShutdownState.constructor` | turbine-shutdown-frontend/src/store/slices/shutdown.slice.ts:14-20 | initial state: no session, no step, no results, not loading, no error |
| `ShutdownSlice.ShutdownState.StartShutdownStart` | turbine-shutdown-frontend/src/store/slices/shutdown.slice.ts:26-29 | sets loading and clears the error; only those two fields may change |
| `ShutdownSlice.ShutdownState.StartShutdownSuccess` | turbine-shutdown-frontend/src/store/slices/shutdown.slice.ts:30-33 | stores the session and clears loading; error, step and results unchanged |
| `ShutdownSlice.ShutdownState.StartShutdownFailure` | turbine-shutdown-frontend/src/store/slices/shutdown.slice.ts:34-37 | clears loading and stores the message as the error; session, step and results unchanged |
| `ShutdownSlice.ShutdownState.SetCurrentStep` | turbine-shutdown-frontend/src/store/slices/shutdown.slice.ts:38-40 | replaces only the current step |
| `ShutdownSlice.ShutdownState.SetValidationResults` | turbine-shutdown-frontend/src/store/slices/shutdown.slice.ts:41-43 | replaces only the results list, with the payload |
| `ShutdownSlice.ShutdownState.CompleteStepSuccess` | turbine-shutdown-frontend/src/store/slices/shutdown.slice.ts:44-46 | replaces only the current step |
| `ShutdownSlice.ShutdownState.Dispatch` | turbine-shutdown-frontend/src/store/slices/shutdown.slice.ts:22-48 | the slice reducer applies the reducer named by the action, as `Reduce` specifies |
| `ShutdownSlice.ReduceAllAppend` | turbine-shutdown-frontend/src/store/slices/shutdown.slice.ts:22-48 | dispatching two action lists in turn equals dispatching their concatenation |
| `ShutdownSlice.LoadingSettlesAfterOutcome` | turbine-shutdown-frontend/src/store/slices/shutdown.slice.ts:26-37 | start sets loading; start followed by success or failure leaves loading false |
| `ShutdownSlice.SessionPersists` | turbine-shutdown-frontend/src/store/slices/shutdown.slice.ts:22-48 | no sequence of reducers removes a stored session |
| `ShutdownSlice.ResultsOnlyReplacedBySetValidationResults` | turbine-shutdown-frontend/src/store/slices/shutdown.slice.ts:41-43 | a sequence of actions without `setValidationResults` leaves the results unchanged |
| `ShutdownSlice.InitialResultsAllValid` | turbine-shutdown-frontend/src/components/shutdown/StepVisualizer.tsx:35 | the initial results are empty, so the confirm gate is open before anything is validated |
| `ShutdownSlice.StartShutdownSessionSettles` | turbine-shutdown-frontend/src/store/slices/shutdown.slice.ts:59-69 | for every server answer the start thunk ends not loading with results unchanged; the session obtained is stored; the error is cleared on success and is the failure's message otherwise |
| `ShutdownSlice.CompleteStepOnlyMovesStep` | turbine-shutdown-frontend/src/store/slices/shutdown.slice.ts:71-79 | the complete-step thunk changes at most the current step, to the next step the server reports; a server failure changes nothing |
| `AuthSlice.AuthState.constructor` | turbine-shutdown-frontend/src/store/slices/auth.slice.ts:13-18 | initial state: no user, not authenticated, not loading, no error; invariant holds |
| `AuthSlice.AuthState.LoginStart` | turbine-shutdown-frontend/src/store/slices/auth.slice.ts:24-27 | sets loading and clears the error; user and authenticated flag unchanged; invariant preserved |
| `AuthSlice.AuthState.LoginSuccess` | turbine-shutdown-frontend/src/store/slices/auth.slice.ts:28-33 | stores the user, sets authenticated, clears loading and error; invariant established |
| `AuthSlice.AuthState.LoginFailure` | turbine-shutdown-frontend/src/store/slices/auth.slice.ts:34-37 | clears loading and stores the message as the error; user and authenticated flag unchanged |
| `AuthSlice.AuthState.Logout` | turbine-shutdown-frontend/src/store/slices/auth.slice.ts:38-41 | clears user and authenticated flag; loading and error unchanged; invariant established |
| `AuthSlice.AuthState.Dispatch` | turbine-shutdown-frontend/src/store/slices/auth.slice.ts:20-43 | the slice reducer applies the reducer named by the action and preserves the invariant |
| `AuthSlice.ReducePreservesConsistent` | turbine-shutdown-frontend/src/store/slices/auth.slice.ts:24-41 | after one reducer the invariant holds iff it held before or the reducer was login-success or logout |
| `AuthSlice.ConsistentAfterAnyActions` | turbine-shutdown-frontend/src/store/slices/auth.slice.ts:20-43 | from a consistent state, every sequence of reducers keeps "authenticated iff a user is held" |
| `AuthSlice.ConsistentFromInitialState` | turbine-shutdown-frontend/src/store/slices/auth.slice.ts:13-41 | from the initial state, after any sequence of reducers, authenticated iff a user is held |
| `AuthSlice.UserIsLastSignIn` | turbine-shutdown-frontend/src/store/slices/auth.slice.ts:28-41 | the user held after any sequence is the last login-success's user unless a logout follows it |
| `AuthSlice.LoadingSettlesAfterOutcome` | turbine-shutdown-frontend/src/store/slices/auth.slice.ts:24-37 | login-start sets loading; login-start followed by success or failure leaves loading false |
| `AuthSlice.LoginSettles` | turbine-shutdown-frontend/src/store/slices/auth.slice.ts:47-55 | after the login thunk the slice is not loading; on success it holds the returned user with no error; on failure it keeps the previous user and records the message |

## Left out

- Server calls in the thunks (`startShutdownSession`, `completeStep`, `login`): these are network I/O. Only the actions they dispatch are modelled, with the server's answer as a parameter.
- The Express controllers, routes, error middleware, server bootstrap and cloud-function entry point: HTTP plumbing.
- Database models and the service layer: persistence only. `getStepRequirements` is not implemented in the source, and `validateStep` only calls the validator. The status and role enumerations appear as datatypes in `Types`.
- React components, the store wiring and the API client: rendering and library setup. The one piece of UI logic, the `allValid` gate, is `Validation.AllValid`.
- Configuration constants: environment lookups only.
- Rate-of-change checks, one session per plant, session status transitions, a role hierarchy, overrides and step sequencing: the code declares some of these in types or comments but implements none of them.
- JavaScript's loose typing of the sensor record: NaN, strings and other non-numeric values are not modelled. Neither is the formatting of numbers into the out-of-range message.
