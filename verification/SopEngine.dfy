/**
 The SOP engine: one step of a run, the run loop, and resuming after a human decision, as
 functions on run contexts. What the environment answers to a step (the gate, a condition, a
 template, the card sender) is a `Reply`; what the step asks of the gate is a `Request`.
 */
module SopEngines {
  import opened Wrappers
  import opened SopSchema

  datatype CheckReply = CheckRaised | CheckInvalid | CheckValid(nonce: string)

  datatype Reply = Reply(check: CheckReply, written: bool, triggers: bool, rendered: Option<string>, sent: bool)

  datatype Request = NoRequest | CheckRequest(domain: string, data: string)
                   | WriteRequest(domain: string, data: string, nonce: string)

  datatype StepOutcome =
    | Done(note: StepNote, data: map<string, string>)
    | Failed(error: StepError)
    | Raised(data: map<string, string>)

  /** What is attached to the engine. */
  datatype EngineConfig = EngineConfig(gate: bool, feedback: bool, store: bool)

  function NonceKey(key: string): string { "_nonce_" + key }

  const PENDING_CARD := "_pending_card"

  /** The call a step makes on the write gate, if any. */
  function RequestOf(gate: bool, step: SopStep, data: map<string, string>): Request
  {
    var value := Lookup(data, step.DataKey());
    if !gate || value == "" then NoRequest
    else if step.kind == ValidateStep && step.domain.Some? then CheckRequest(step.domain.value, value)
    else if step.IsWrite() && Lookup(data, NonceKey(step.DataKey())) != "" then
      WriteRequest(if step.domain.Some? then step.domain.value else "", value, Lookup(data, NonceKey(step.DataKey())))
    else NoRequest
  }

  function ExecuteStep(gate: bool, step: SopStep, data: map<string, string>, r: Reply): StepOutcome
  {
    match step.kind
    case ValidateStep =>
      if !gate || step.domain.None? then Done(Skipped, data)
      else if Lookup(data, step.DataKey()) == "" then Failed(MissingData)
      else (match r.check
            case CheckRaised => Raised(data)
            case CheckInvalid => Failed(ShaclViolation)
            case CheckValid(nonce) => Done(Validated, data[NonceKey(step.DataKey()) := nonce]))
    case HumanApproval =>
      if step.condition != "" && !r.triggers then Done(AutoApproved, data)
      else if r.rendered.None? then Raised(data)
      else
        var carded := data[PENDING_CARD := r.rendered.value];
        if r.sent then Done(AwaitingApproval, carded) else Raised(carded)
    case Action =>
      if !step.IsWrite() then Done(Skipped, data)
      else if !gate then Done(Simulated, data)
      else if Lookup(data, step.DataKey()) == "" || Lookup(data, NonceKey(step.DataKey())) == "" then
        Failed(MissingDataOrNonce)
      else if r.written then Done(Written, data)
      else Failed(WriteFailed)
    case Notify =>
      if r.rendered.None? then Raised(data) else Done(Notified, data)
  }

  // ----- The run loop, one iteration at a time -----

  /** Where a run is: not begun, inside the loop before step `next`, returned, or left by an exception. */
  datatype Status = Fresh | Going(next: nat) | Returned | Thrown

  datatype Proc = Proc(ctx: RunContext, status: Status)

  /** Entry of `run`: a context past its last step completes at once. */
  function BeginRun(sop: SopDefinition, ctx: RunContext): Proc
  {
    if ctx.index < |sop.steps| then Proc(ctx.(state := RUNNING), Going(ctx.index))
    else Proc(ctx.(state := COMPLETED), Returned)
  }

  function Advance(cfg: EngineConfig, sop: SopDefinition, ctx: RunContext, next: nat, r: Reply): Proc
    requires next < |sop.steps|
  {
    var step := sop.steps[next];
    var at := ctx.(index := next);
    match ExecuteStep(cfg.gate, step, ctx.data, r)
    case Raised(data) => Proc(at.(data := data), Thrown)
    case Failed(error) => Proc(at.(errors := ctx.errors + [error], state := FAILED), Returned)
    case Done(note, data) =>
      var done := at.(data := data, results := ctx.results + [StepResult(step.id, step.kind, note)]);
      if note == AwaitingApproval then Proc(done.(state := SUSPENDED, suspendedStep := Some(step.id)), Returned)
      else if next + 1 < |sop.steps| then Proc(done, Going(next + 1))
      else Proc(done.(state := COMPLETED), Returned)
  }

  /** Every way out of an iteration saves the context, except an exception. */
  function SaveAfter(cfg: EngineConfig, p: Proc, saved: Option<RunContext>): Option<RunContext>
  {
    if cfg.store && p.status != Thrown then Some(p.ctx) else saved
  }

  // ----- Resuming -----

  datatype FeedbackRow = FeedbackRow(
    reviewer: string, decision: string, reason: Option<string>, output: Option<StepNote>)

  function InsertFeedback(row: Option<FeedbackRow>, entry: FeedbackRow): Option<FeedbackRow>
  {
    if entry.decision in {"APPROVED", "REJECTED"} && row.None? then Some(entry) else None
  }

  /** The outcome of `resume` up to its first step: the exception it raises, or where the run then is. */
  datatype Resumed = Raises(ctx: RunContext) | Accepted(proc: Proc, row: Option<FeedbackRow>, saves: bool)

  function LastNote(ctx: RunContext): Option<StepNote>
  {
    if ctx.results == [] then None else Some(ctx.results[|ctx.results| - 1].note)
  }

  function Resume(
    cfg: EngineConfig, sop: SopDefinition, ctx: RunContext, row: Option<FeedbackRow>,
    decision: string, reason: Option<string>, approver: string): Resumed
  {
    if ctx.state != SUSPENDED then Raises(ctx)
    else
      var decided := ctx.(decision := Some(decision), reason := reason, approver := Some(approver));
      var inserted := InsertFeedback(row, FeedbackRow(approver, decision, reason, LastNote(ctx)));
      if cfg.feedback && inserted.None? then Raises(decided)
      else
        var row' := if cfg.feedback then inserted else row;
        if decision == "REJECTED" then Accepted(Proc(decided.(state := REJECTED), Returned), row', true)
        else
          var p := BeginRun(sop, decided.(state := APPROVED, index := ctx.index + 1));
          Accepted(p, row', p.status == Returned)
  }

  function NewContext(sop: SopDefinition, runId: string, data: map<string, string>): RunContext
  {
    RunContext(runId, sop.sopId, PENDING, 0, data, None, None, None, None, [], [])
  }
}
