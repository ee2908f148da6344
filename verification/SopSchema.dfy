/** The records of the workflow machine: steps, definitions, run states and run contexts. */
module SopSchema {
  import opened Wrappers

  datatype StepKind = ValidateStep | HumanApproval | Action | Notify

  datatype ActionKind = GovernedWrite | NotifyIm

  /** `condition` is empty when the step has none. */
  datatype SopStep = SopStep(
    id: string, kind: StepKind, domain: Option<string>, dataRef: Option<string>,
    condition: string, action: Option<ActionKind>)
  {
    /** The data reference, or the empty key. */
    function DataKey(): (key: string)
      ensures dataRef in {None, Some(key)} && (dataRef.None? ==> key == "")
    {
      if dataRef.Some? then dataRef.value else ""
    }

    predicate IsWrite() { kind == Action && action == Some(GovernedWrite) }
  }

  datatype SopDefinition = SopDefinition(sopId: string, steps: seq<SopStep>)

  datatype RunState = PENDING | RUNNING | SUSPENDED | APPROVED | REJECTED | COMPLETED | FAILED

  datatype StepNote = Skipped | Validated | AutoApproved | AwaitingApproval | Written | Simulated | Notified

  datatype StepResult = StepResult(stepId: string, kind: StepKind, note: StepNote)

  datatype StepError = MissingData | ShaclViolation | MissingDataOrNonce | WriteFailed

  datatype RunContext = RunContext(
    runId: string, sopId: string, state: RunState, index: nat, data: map<string, string>,
    suspendedStep: Option<string>,
    decision: Option<string>, reason: Option<string>, approver: Option<string>,
    errors: seq<StepError>, results: seq<StepResult>)

  /** `data.get(key, "")`. */
  function Lookup(data: map<string, string>, key: string): (value: string)
    ensures value != "" ==> (key, value) in data.Items
    ensures key in data ==> value == data[key]
  {
    if key in data then data[key] else ""
  }
}
