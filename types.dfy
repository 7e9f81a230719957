/**
 * The records the front end exchanges with the server
 * (turbine-shutdown-frontend/src/types/index.ts). They are payloads only:
 * the reducers store them without looking inside.
 */
module Types {
  import opened Wrappers
  import Validation

  datatype Role = Operator | Supervisor | Engineer | Administrator | Auditor

  datatype User = User(id: int, username: string, email: string, role: Role, isActive: bool)

  datatype SessionStatus = Pending | InProgress | Completed | Aborted

  datatype ShutdownSession = ShutdownSession(
    id: int,
    plantId: int,
    startTime: string,
    endTime: Option<string>,
    status: SessionStatus,
    initiatedBy: int,
    completedBy: Option<int>)

  datatype CriticalityLevel = SafetyCritical | Operational | Informational

  datatype InteractionKind = Confirmation | Input | Selection

  datatype UserInteraction = UserInteraction(
    kind: InteractionKind,
    message: string,
    requiresSignoff: bool,
    options: Option<seq<string>>)

  /** The front end's rule record: a range, units and a validation period (no rate-of-change bound). */
  datatype StepRule = StepRule(
    parameter: string,
    expectedRange: Validation.Range,
    units: string,
    validationPeriod: real)

  datatype ShutdownStep = ShutdownStep(
    stepNumber: int,
    description: string,
    detailedInstructions: string,
    expectedDuration: real,
    criticalityLevel: CriticalityLevel,
    requiredRole: string,
    validations: seq<StepRule>,
    userInteractions: seq<UserInteraction>,
    allowOverride: bool)
}
