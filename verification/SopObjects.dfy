/**
 The workflow objects: run contexts, feedback table, state store and engine, with the fields the
 steps update in place. Each engine method is proved to do to them what the workflow machine does to
 a life, and to the attached write gate what its recorded calls say.
 */
module SopObjects {
  import opened Wrappers
  import opened SopSchema
  import opened SopEngines
  import opened SopRuns
  import opened WriteGates
  import AutonomyPolicies
  import Cypher
  import SopGate

  class SOPRunContext {
    const runId: string
    const sopId: string
    var state: RunState
    var currentStepIndex: nat
    var data: map<string, string>
    var suspendedStepId: Option<string>
    var approvalResult: Option<string>
    var approvalReason: Option<string>
    var approverId: Option<string>
    var errors: seq<StepError>
    var stepResults: seq<StepResult>

    function Snapshot(): RunContext
      reads this
    {
      RunContext(runId, sopId, state, currentStepIndex, data, suspendedStepId,
                 approvalResult, approvalReason, approverId, errors, stepResults)
    }

    constructor (c: RunContext)
      ensures Snapshot() == c
    {
      runId, sopId, state, currentStepIndex, data := c.runId, c.sopId, c.state, c.index, c.data;
      suspendedStepId, approvalResult, approvalReason := c.suspendedStep, c.decision, c.reason;
      approverId, errors, stepResults := c.approver, c.errors, c.results;
    }
  }

  /** The feedback table, keyed by its unique trace id. */
  class FeedbackDB {
    var rows: map<string, FeedbackRow>

    constructor ()
      ensures rows == map[]
    {
      rows := map[];
    }

    function GetByTraceId(traceId: string): (r: Option<FeedbackRow>)
      reads this
      ensures r.Some? <==> traceId in rows
    {
      if traceId in rows then Some(rows[traceId]) else None
    }

    /** Refuses an unknown decision and a second row for a trace; rows are never changed. */
    method Insert(traceId: string, row: FeedbackRow) returns (ok: bool)
      modifies this
      ensures ok <==> row.decision in {"APPROVED", "REJECTED"} && traceId !in old(rows)
      ensures rows == if ok then old(rows)[traceId := row] else old(rows)
    {
      if row.decision !in {"APPROVED", "REJECTED"} {
        return false;
      }
      ok := traceId !in rows;
      if ok {
        rows := rows[traceId := row];
      }
    }
  }

  /** The state store, an upsert keyed by run id. */
  class WorkflowStateStore {
    var states: map<string, RunContext>

    ghost predicate Valid()
      reads this
    {
      forall id :: id in states ==> states[id].runId == id
    }

    constructor ()
      ensures Valid() && states == map[]
    {
      states := map[];
    }

    method SaveState(ctx: SOPRunContext)
      requires Valid()
      modifies this
      ensures Valid() && states == old(states)[ctx.runId := ctx.Snapshot()]
    {
      states := states[ctx.runId := ctx.Snapshot()];
    }

    /** Every load makes its own copy; a row that cannot be decoded reads as none. */
    method LoadState(runId: string, decodes: bool) returns (ctx: SOPRunContext?)
      requires Valid()
      ensures ctx == null <==> runId !in states || !decodes
      ensures ctx != null ==> fresh(ctx) && ctx.runId == runId && ctx.Snapshot() == states[runId]
    {
      if runId in states && decodes {
        ctx := new SOPRunContext(states[runId]);
      } else {
        ctx := null;
      }
    }
  }

  // ----- What a run does to the gate -----

  /** What the environment does while a step executes. */
  datatype StepEnv = StepEnv(
    time: real, wall: real, at: Reads, order: Graph -> seq<Cypher.Triple>, db: Cypher.Database,
    triggers: bool, rendered: Option<string>, sent: bool)

  /** The reply repeats what condition, template and card sender answered. */
  predicate Repeats(env: StepEnv, r: Reply)
  {
    r.triggers == env.triggers && r.rendered == env.rendered && r.sent == env.sent
  }

  datatype GateView = GateView(core: GateCore, graph: Cypher.GraphStore)

  function Authorization(
    cfg: GateConfig, core: GateCore, env: StepEnv, q: Request): (GateCore, Result<Graph, GateError>)
    requires q.WriteRequest?
  {
    Authorize(cfg, core, env.wall, env.at, q.domain, q.data, q.nonce, SopGate.TURTLE)
  }

  /** The reply tells what the gate answered: a validation's own nonce, and a write exactly if it was authorised and the
      database took it. */
  ghost predicate Truthful(cfg: GateConfig, core: GateCore, env: StepEnv, q: Request, r: Reply)
  {
    match q
    case NoRequest => true
    case CheckRequest(domain, data) =>
      r.check == SopGate.CheckReplyOf(Validate(cfg, env.time, domain, data, SopGate.TURTLE))
    case WriteRequest(_, _, _) =>
      var auth := Authorization(cfg, core, env, q).1;
      r.written <==> auth.Ok? && Cypher.GoesThrough(env.db, |env.order(auth.value)|)
  }

  /** Gate and graph after one call: only a write touches the gate's state, and only a reported one the graph. */
  ghost function AfterCall(
    cfg: GateConfig, upper: char -> string, v: GateView, env: StepEnv, q: Request, r: Reply): GateView
  {
    if !q.WriteRequest? then v
    else
      var (core, auth) := Authorization(cfg, v.core, env, q);
      GateView(core, if r.written && auth.Ok? then v.graph.Plus(Cypher.Image(upper, auth.value)) else v.graph)
  }

  ghost function AfterCalls(
    cfg: GateConfig, upper: char -> string, v: GateView, env: nat -> StepEnv, calls: seq<Call>,
    rs: seq<Reply>): GateView
    requires |calls| == |rs|
  {
    if calls == [] then v
    else
      var n := |calls| - 1;
      AfterCall(cfg, upper, AfterCalls(cfg, upper, v, env, calls[..n], rs[..n]), env(calls[n].step),
        calls[n].request, rs[n])
  }

  ghost predicate AllTruthful(
    cfg: GateConfig, upper: char -> string, v: GateView, env: nat -> StepEnv, calls: seq<Call>, rs: seq<Reply>)
    requires |calls| == |rs|
  {
    forall i :: 0 <= i < |calls| ==>
      Truthful(cfg, AfterCalls(cfg, upper, v, env, calls[..i], rs[..i]).core, env(calls[i].step), calls[i].request,
        rs[i])
  }

  lemma TruthfulSnoc(
    cfg: GateConfig, upper: char -> string, v: GateView, env: nat -> StepEnv, calls: seq<Call>, rs: seq<Reply>,
    c: Call, r: Reply)
    requires |calls| == |rs| && AllTruthful(cfg, upper, v, env, calls, rs)
    requires Truthful(cfg, AfterCalls(cfg, upper, v, env, calls, rs).core, env(c.step), c.request, r)
    ensures AllTruthful(cfg, upper, v, env, calls + [c], rs + [r])
    ensures AfterCalls(cfg, upper, v, env, calls + [c], rs + [r])
         == AfterCall(cfg, upper, AfterCalls(cfg, upper, v, env, calls, rs), env(c.step), c.request, r)
  {
    hide Truthful, AfterCall;
    var n := |calls|;
    assert (calls + [c])[..n] == calls && (rs + [r])[..n] == rs;
    forall i | 0 <= i < n ensures (calls + [c])[..i] == calls[..i] && (rs + [r])[..i] == rs[..i] {
    }
  }

  // ----- Lives in pieces -----

  function Answers(rs: seq<Reply>): seq<LifeEvent>
  {
    seq(|rs|, i requires 0 <= i < |rs| => Answer(rs[i]))
  }

  lemma LifeSnoc(cfg: EngineConfig, sop: SopDefinition, l: Life, first: LifeEvent, rs: seq<Reply>, r: Reply)
    ensures LifeRun(cfg, sop, l, [first] + Answers(rs + [r]))
         == LifeStep(cfg, sop, LifeRun(cfg, sop, l, [first] + Answers(rs)), Answer(r))
  {
    var es := [first] + Answers(rs + [r]);
    assert es[..|es| - 1] == [first] + Answers(rs);
  }

  lemma LifeOne(cfg: EngineConfig, sop: SopDefinition, l: Life, first: LifeEvent)
    ensures LifeRun(cfg, sop, l, [first] + Answers([])) == LifeStep(cfg, sop, l, first)
  {
    assert [first] + Answers([]) == [first];
    assert [first][..0] == [];
  }

  /** Only what the first event leads to matters to the rest. */
  lemma {:induction false} SameFirstStep(
    cfg: EngineConfig, sop: SopDefinition, a: Life, first: LifeEvent, b: Life, second: LifeEvent, rs: seq<Reply>)
    requires LifeStep(cfg, sop, a, first) == LifeStep(cfg, sop, b, second)
    ensures LifeRun(cfg, sop, a, [first] + Answers(rs)) == LifeRun(cfg, sop, b, [second] + Answers(rs))
  {
    hide LifeStep;
    if rs == [] {
      LifeOne(cfg, sop, a, first);
      LifeOne(cfg, sop, b, second);
    } else {
      var n := |rs| - 1;
      assert rs == rs[..n] + [rs[n]];
      SameFirstStep(cfg, sop, a, first, b, second, rs[..n]);
      LifeSnoc(cfg, sop, a, first, rs[..n], rs[n]);
      LifeSnoc(cfg, sop, b, second, rs[..n], rs[n]);
    }
  }

  // ----- The engine object -----

  /** How a step handler returns. */
  datatype StepExit = Result(note: StepNote) | ExecutionError(error: StepError) | Escaped

  /** The context a step leaves behind, before the loop records anything. */
  ghost predicate LeftBehind(gate: bool, step: SopStep, was: RunContext, r: Reply, exit: StepExit, now: RunContext)
  {
    match ExecuteStep(gate, step, was.data, r)
    case Done(note, data) =>
      && exit == Result(note)
      && now == (if note == AwaitingApproval then was.(data := data, state := SUSPENDED, suspendedStep := Some(step.id))
                 else was.(data := data))
    case Failed(error) => exit == ExecutionError(error) && now == was
    case Raised(data) => exit == Escaped && now == was.(data := data)
  }

  datatype ResumeExit = NotAccepted | Ended(thrown: bool)

  lemma DecidingCallsNothing(cfg: EngineConfig, sop: SopDefinition, l: Life, e: LifeEvent)
    requires e.Decide?
    ensures DecideLife(cfg, sop, l, e).calls == l.calls
  {
  }

  lemma BeginsLife(cfg: EngineConfig, sop: SopDefinition, was: Life, first: LifeEvent)
    requires first.Start? && !was.proc.status.Going?
    ensures LifeRun(cfg, sop, was, [first] + Answers([])) == StartLife(cfg, sop, was)
  {
    LifeOne(cfg, sop, was, first);
  }

  lemma ContinuesLife(
    cfg: EngineConfig, sop: SopDefinition, was: Life, first: LifeEvent, l: Life, rs: seq<Reply>, r: Reply)
    requires l == LifeRun(cfg, sop, was, [first] + Answers(rs)) && AtStep(sop, l.proc)
    ensures LifeRun(cfg, sop, was, [first] + Answers(rs + [r])) == AnswerLife(cfg, sop, l, r)
  {
    LifeSnoc(cfg, sop, was, first, rs, r);
  }

  /** One iteration on the life, from what the step left behind. */
  lemma StepLife(
    cfg: EngineConfig, sop: SopDefinition, l: Life, r: Reply, before: RunContext, now: RunContext, exit: StepExit)
    requires AtStep(sop, l.proc) && l.proc.ctx == before && before.state == RUNNING
    requires LeftBehind(cfg.gate, sop.steps[l.proc.status.next], before.(index := l.proc.status.next), r, exit, now)
    ensures var next := l.proc.status.next;
            var l', step := AnswerLife(cfg, sop, l, r), sop.steps[next];
            && l'.row == l.row && l'.calls == l.calls + [NextCall(cfg, sop, l.proc)]
            && l'.saved == (if cfg.store && exit != Escaped then Some(l'.proc.ctx) else l.saved)
            && match exit
               case Escaped => l'.proc == Proc(now, Thrown)
               case ExecutionError(e) => l'.proc == Proc(now.(errors := now.errors + [e], state := FAILED), Returned)
               case Result(note) =>
                 var done := now.(results := now.results + [StepResult(step.id, step.kind, note)]);
                 && now.state == (if note == AwaitingApproval then SUSPENDED else RUNNING)
                 && l'.proc == (if note == AwaitingApproval then Proc(done, Returned)
                                else if next + 1 < |sop.steps| then Proc(done, Going(next + 1))
                                else Proc(done.(state := COMPLETED), Returned))
  {
    hide ExecuteStep, RequestOf;
  }

  class SOPEngine {
    const writeGate: WriteGate?
    const feedbackDb: FeedbackDB?
    const stateStore: WorkflowStateStore?

    constructor (writeGate: WriteGate?, feedbackDb: FeedbackDB?, stateStore: WorkflowStateStore?)
      ensures this.writeGate == writeGate && this.feedbackDb == feedbackDb && this.stateStore == stateStore
    {
      this.writeGate, this.feedbackDb, this.stateStore := writeGate, feedbackDb, stateStore;
    }

    function Config(): EngineConfig
    {
      EngineConfig(writeGate != null, feedbackDb != null, stateStore != null)
    }

    ghost function GateParts(): set<object?>
    {
      if writeGate == null then {} else {writeGate, writeGate.policy, writeGate.client}
    }

    ghost predicate Ready()
      reads GateParts(), stateStore
    {
      && (writeGate != null ==> writeGate.Valid())
      && (stateStore != null ==> stateStore.Valid())
    }

    ghost function Gate(): GateView
      requires writeGate != null
      reads GateParts()
    {
      GateView(writeGate.Core(), writeGate.client.store)
    }

    /** A context in memory and what the stores hold for it, as a life. */
    ghost function View(ctx: SOPRunContext, status: Status): Life
      reads ctx, stateStore, feedbackDb
    {
      var id := ctx.runId;
      Life(Proc(ctx.Snapshot(), status),
           if stateStore != null && id in stateStore.states then Some(stateStore.states[id]) else None,
           if feedbackDb != null then feedbackDb.GetByTraceId(id) else None, [])
    }

    /** The stores hold what they held for every other run. */
    twostate predicate OthersKept(id: string)
      reads stateStore, feedbackDb
    {
      && (stateStore != null ==> stateStore.states - {id} == old(stateStore.states) - {id})
      && (feedbackDb != null ==> feedbackDb.rows - {id} == old(feedbackDb.rows) - {id})
    }

    twostate predicate StoresKept()
      reads stateStore, feedbackDb
    {
      && (stateStore != null ==> stateStore.states == old(stateStore.states))
      && (feedbackDb != null ==> feedbackDb.rows == old(feedbackDb.rows))
    }

    method CreateRun(sop: SopDefinition, runId: string, data: map<string, string>) returns (ctx: SOPRunContext)
      requires Ready()
      modifies stateStore
      ensures Ready() && fresh(ctx) && OthersKept(runId)
      ensures ctx.Snapshot() == RunContext(runId, sop.sopId, PENDING, 0, data, None, None, None, None, [], [])
      ensures stateStore != null ==> runId in stateStore.states && stateStore.states[runId] == ctx.Snapshot()
      ensures feedbackDb == null || runId !in feedbackDb.rows ==>
        View(ctx, Fresh) == Created(Config(), sop, runId, data)
    {
      ctx := new SOPRunContext(NewContext(sop, runId, data));
      if stateStore != null {
        stateStore.SaveState(ctx);
      }
    }

    method StepValidate(step: SopStep, ctx: SOPRunContext, env: StepEnv) returns (exit: StepExit, ghost r: Reply)
      requires Ready() && step.kind == ValidateStep
      modifies ctx, GateParts()
      ensures Ready() && LeftBehind(Config().gate, step, old(ctx.Snapshot()), r, exit, ctx.Snapshot())
      ensures Repeats(env, r)
      ensures writeGate != null ==>
        && Gate() == old(Gate())
        && Truthful(writeGate.cfg, old(Gate()).core, env, RequestOf(true, step, old(ctx.data)), r)
    {
      hide Validate, WriteGate.Valid;
      r := Reply(CheckRaised, false, env.triggers, env.rendered, env.sent);
      if writeGate == null || step.domain.None? {
        return Result(Skipped), r;
      }
      var dataKey := step.DataKey();
      var ttl := Lookup(ctx.data, dataKey);
      if ttl == "" {
        return ExecutionError(MissingData), r;
      }
      var report := writeGate.VerifyShaclCompliance(env.time, step.domain.value, ttl, SopGate.TURTLE);
      r := r.(check := SopGate.CheckReplyOf(report));
      if report.Err? {
        return Escaped, r;
      }
      if report.value.None? {
        return ExecutionError(ShaclViolation), r;
      }
      ctx.data := ctx.data[NonceKey(dataKey) := report.value.value];
      exit := Result(Validated);
    }

    method StepHumanApproval(step: SopStep, ctx: SOPRunContext, env: StepEnv) returns (exit: StepExit, ghost r: Reply)
      requires step.kind == HumanApproval
      modifies ctx
      ensures LeftBehind(Config().gate, step, old(ctx.Snapshot()), r, exit, ctx.Snapshot())
      ensures Repeats(env, r)
    {
      r := Reply(CheckRaised, false, env.triggers, env.rendered, env.sent);
      var shouldTrigger := step.condition == "" || env.triggers;
      if !shouldTrigger {
        return Result(AutoApproved), r;
      }
      if env.rendered.None? {
        return Escaped, r;
      }
      ctx.data := ctx.data[PENDING_CARD := env.rendered.value];
      if !env.sent {
        return Escaped, r;
      }
      ctx.state := SUSPENDED;
      ctx.suspendedStepId := Some(step.id);
      exit := Result(AwaitingApproval);
    }

    method StepAction(step: SopStep, ctx: SOPRunContext, env: StepEnv) returns (exit: StepExit, ghost r: Reply)
      requires Ready() && InAnyOrder(env.order) && step.kind == Action
      modifies ctx, GateParts()
      ensures Ready() && LeftBehind(Config().gate, step, old(ctx.Snapshot()), r, exit, ctx.Snapshot())
      ensures Repeats(env, r)
      ensures writeGate != null ==>
        && var q := RequestOf(true, step, old(ctx.data));
        && Gate() == AfterCall(writeGate.cfg, writeGate.upper, old(Gate()), env, q, r)
        && Truthful(writeGate.cfg, old(Gate()).core, env, q, r)
    {
      hide Authorize, WriteGate.Valid, WriteGate.Core, Cypher.GoesThrough, Cypher.Image, Cypher.GraphStore.Plus;
      r := Reply(CheckRaised, false, env.triggers, env.rendered, env.sent);
      if step.action != Some(GovernedWrite) {
        return Result(Skipped), r;
      }
      if writeGate == null {
        return Result(Simulated), r;
      }
      var dataKey := step.DataKey();
      var ttl, nonce := Lookup(ctx.data, dataKey), Lookup(ctx.data, NonceKey(dataKey));
      if ttl == "" || nonce == "" {
        return ExecutionError(MissingDataOrNonce), r;
      }
      var domain := if step.domain.Some? then step.domain.value else "";
      var out := writeGate.ExecuteGovernedWrite(
        env.wall, env.at, domain, ttl, nonce, SopGate.TURTLE, env.order, env.db);
      r := r.(written := out.Written?);
      exit := if out.Written? then Result(StepNote.Written) else ExecutionError(WriteFailed);
    }

    method StepNotify(step: SopStep, ctx: SOPRunContext, env: StepEnv) returns (exit: StepExit, ghost r: Reply)
      requires step.kind == Notify
      ensures LeftBehind(Config().gate, step, old(ctx.Snapshot()), r, exit, ctx.Snapshot())
      ensures Repeats(env, r)
    {
      r := Reply(CheckRaised, false, env.triggers, env.rendered, env.sent);
      exit := if env.rendered.None? then Escaped else Result(Notified);
    }

    /** The dispatcher. */
    method RunStep(step: SopStep, ctx: SOPRunContext, env: StepEnv) returns (exit: StepExit, ghost r: Reply)
      requires Ready() && InAnyOrder(env.order)
      modifies ctx, GateParts()
      ensures Ready() && LeftBehind(Config().gate, step, old(ctx.Snapshot()), r, exit, ctx.Snapshot())
      ensures Repeats(env, r)
      ensures writeGate != null ==>
        && var q := RequestOf(true, step, old(ctx.data));
        && Gate() == AfterCall(writeGate.cfg, writeGate.upper, old(Gate()), env, q, r)
        && Truthful(writeGate.cfg, old(Gate()).core, env, q, r)
    {
      match step.kind
      case ValidateStep => exit, r := StepValidate(step, ctx, env);
      case HumanApproval => exit, r := StepHumanApproval(step, ctx, env);
      case Action => exit, r := StepAction(step, ctx, env);
      case Notify => exit, r := StepNotify(step, ctx, env);
    }

    /** The environment, and the gate from `g0` on, have answered these steps with these replies. */
    ghost predicate Told(g0: GateView, env: nat -> StepEnv, calls: seq<Call>, rs: seq<Reply>)
      reads GateParts()
    {
      && |calls| == |rs|
      && (forall i :: 0 <= i < |calls| ==> Repeats(env(calls[i].step), rs[i]))
      && (writeGate != null ==>
            && Gate() == AfterCalls(writeGate.cfg, writeGate.upper, g0, env, calls, rs)
            && AllTruthful(writeGate.cfg, writeGate.upper, g0, env, calls, rs))
    }

    ghost function GateNow(): GateView
      reads GateParts()
    {
      if writeGate == null then GateView(GateCore(map[], AutonomyPolicies.FRESH), Cypher.GraphStore({}, {})) else Gate()
    }

    /** The whole effect of a run from `was` on the objects: a life, told by its replies, and the gate's part in it. */
    twostate predicate Lived(sop: SopDefinition, ctx: SOPRunContext, env: nat -> StepEnv, was: Life, first: LifeEvent,
                             rs: seq<Reply>, status: Status)
      reads ctx, stateStore, feedbackDb, GateParts()
    {
      var l := LifeRun(Config(), sop, was, [first] + Answers(rs));
      && View(ctx, status) == l.(calls := [])
      && OthersKept(ctx.runId)
      && Told(old(GateNow()), env, l.calls, rs)
    }

    method Save(ctx: SOPRunContext)
      requires Ready()
      modifies stateStore
      ensures Ready() && OthersKept(ctx.runId)
      ensures stateStore != null ==>
        ctx.runId in stateStore.states && stateStore.states[ctx.runId] == ctx.Snapshot()
    {
      if stateStore != null {
        stateStore.SaveState(ctx);
      }
    }

    /** What the loop records of a step that returned or failed. */
    method Settle(step: SopStep, ctx: SOPRunContext, exit: StepExit)
      requires Ready() && exit != Escaped
      modifies ctx, stateStore
      ensures Ready() && OthersKept(ctx.runId)
      ensures stateStore != null ==> ctx.runId in stateStore.states && stateStore.states[ctx.runId] == ctx.Snapshot()
      ensures ctx.Snapshot() == (if exit.ExecutionError? then
                old(ctx.Snapshot()).(errors := old(ctx.errors) + [exit.error], state := FAILED)
              else old(ctx.Snapshot()).(results := old(ctx.stepResults) + [StepResult(step.id, step.kind, exit.note)]))
    {
      if exit.ExecutionError? {
        ctx.errors := ctx.errors + [exit.error];
        ctx.state := FAILED;
      } else {
        ctx.stepResults := ctx.stepResults + [StepResult(step.id, step.kind, exit.note)];
      }
      Save(ctx);
    }

    /** A step, and the gate's part in it added to what it has answered so far. */
    method TakeStep(
      sop: SopDefinition, ctx: SOPRunContext, env: nat -> StepEnv, ghost l: Life, ghost g0: GateView,
      ghost rs: seq<Reply>)
      returns (exit: StepExit, ghost r: Reply)
      requires Ready() && (forall n :: InAnyOrder(env(n).order)) && Told(g0, env, l.calls, rs)
      requires AtStep(sop, l.proc) && l.proc.status.next == ctx.currentStepIndex && l.proc.ctx.data == ctx.data
      modifies ctx, GateParts()
      ensures Ready() && Told(g0, env, l.calls + [NextCall(Config(), sop, l.proc)], rs + [r])
      ensures LeftBehind(Config().gate, sop.steps[l.proc.status.next], old(ctx.Snapshot()), r, exit, ctx.Snapshot())
    {
      hide LeftBehind, RequestOf, Truthful, AfterCall, AfterCalls, AllTruthful, WriteGate.Core, WriteGate.Valid;
      var idx := ctx.currentStepIndex;
      exit, r := RunStep(sop.steps[idx], ctx, env(idx));
      if writeGate != null {
        TruthfulSnoc(writeGate.cfg, writeGate.upper, g0, env, l.calls, rs, NextCall(Config(), sop, l.proc), r);
      }
    }

    /** The head of the run loop: before step `idx`, or past the last one with only the state to be set. */
    ghost predicate AtHead(sop: SopDefinition, ctx: SOPRunContext, idx: nat, l: Life)
      reads ctx, stateStore, feedbackDb
    {
      && ctx.state == RUNNING
      && if idx < |sop.steps| then View(ctx, Going(idx)) == l.(calls := [])
         else && View(ctx, Fresh).row == l.row
              && l.proc == Proc(ctx.Snapshot().(state := COMPLETED), Returned)
              && l.saved == if stateStore == null then None else Some(l.proc.ctx)
    }

    /** The rest of a turn: `after` is the life with this step, `now` the context the step left behind. */
    method FinishTurn(
      sop: SopDefinition, ctx: SOPRunContext, ghost idx: nat, step: SopStep, exit: StepExit, ghost after: Life)
      requires Ready() && exit != Escaped && idx < |sop.steps| && step == sop.steps[idx]
      requires after.row == View(ctx, Fresh).row
      requires after.saved == (if stateStore != null then Some(after.proc.ctx) else View(ctx, Fresh).saved)
      requires var now := ctx.Snapshot();
               match exit
               case ExecutionError(e) =>
                 after.proc == Proc(now.(errors := now.errors + [e], state := FAILED), Returned)
               case Result(note) =>
                 var done := now.(results := now.results + [StepResult(step.id, step.kind, note)]);
                 && now.state == (if note == AwaitingApproval then SUSPENDED else RUNNING)
                 && after.proc == (if note == AwaitingApproval then Proc(done, Returned)
                                   else if idx + 1 < |sop.steps| then Proc(done, Going(idx + 1))
                                   else Proc(done.(state := COMPLETED), Returned))
               case Escaped => true
      modifies ctx, stateStore
      ensures Ready() && OthersKept(ctx.runId)
      ensures exit.Result? && ctx.state != SUSPENDED ==> AtHead(sop, ctx, idx + 1, after)
      ensures !(exit.Result? && ctx.state != SUSPENDED) ==> View(ctx, Returned) == after.(calls := [])
    {
      hide WorkflowStateStore.Valid, WriteGate.Valid;
      Settle(step, ctx, exit);
    }

    /** One turn of the run loop. */
    method Turn(
      sop: SopDefinition, ctx: SOPRunContext, idx: nat, env: nat -> StepEnv, ghost l: Life, ghost g0: GateView,
      ghost rs: seq<Reply>)
      returns (exit: StepExit, ghost r: Reply)
      requires Ready() && (forall n :: InAnyOrder(env(n).order)) && Told(g0, env, l.calls, rs)
      requires AtHead(sop, ctx, idx, l) && idx < |sop.steps|
      modifies ctx, stateStore, GateParts()
      ensures Ready() && OthersKept(ctx.runId) && AtStep(sop, l.proc)
      ensures Told(g0, env, AnswerLife(Config(), sop, l, r).calls, rs + [r])
      ensures exit.Result? && ctx.state != SUSPENDED ==> AtHead(sop, ctx, idx + 1, AnswerLife(Config(), sop, l, r))
      ensures !(exit.Result? && ctx.state != SUSPENDED) ==>
        View(ctx, if exit == Escaped then Thrown else Returned) == AnswerLife(Config(), sop, l, r).(calls := [])
    {
      hide LeftBehind, AnswerLife, NextCall, Told, InAnyOrder, RequestOf, Ready;
      ctx.currentStepIndex := idx;
      ghost var before := l.proc.ctx;
      exit, r := TakeStep(sop, ctx, env, l, g0, rs);
      StepLife(Config(), sop, l, r, before, ctx.Snapshot(), exit);
      if exit != Escaped {
        FinishTurn(sop, ctx, idx, sop.steps[idx], exit, AnswerLife(Config(), sop, l, r));
      }
    }

    method Enter(sop: SopDefinition, ctx: SOPRunContext)
      requires Ready()
      modifies ctx`state
      ensures Ready() && OthersKept(ctx.runId)
      ensures AtHead(sop, ctx, ctx.currentStepIndex, StartLife(Config(), sop, old(View(ctx, Fresh))))
      ensures StartLife(Config(), sop, old(View(ctx, Fresh))).calls == []
    {
      ctx.state := RUNNING;
    }

    method Complete(sop: SopDefinition, ctx: SOPRunContext, ghost idx: nat, ghost l: Life)
      requires Ready() && AtHead(sop, ctx, idx, l) && |sop.steps| <= idx
      modifies ctx, stateStore
      ensures Ready() && OthersKept(ctx.runId) && View(ctx, Returned) == l.(calls := [])
    {
      ctx.state := COMPLETED;
      Save(ctx);
    }

    lemma NothingTold(g0: GateView, env: nat -> StepEnv)
      requires g0 == GateNow()
      ensures Told(g0, env, [], [])
    {
    }

    /** The run loop. */
    method Run(sop: SopDefinition, ctx: SOPRunContext, env: nat -> StepEnv) returns (thrown: bool, ghost rs: seq<Reply>)
      requires Ready() && forall n :: InAnyOrder(env(n).order)
      modifies ctx, stateStore, GateParts()
      ensures Ready()
      ensures Lived(sop, ctx, env, old(View(ctx, Fresh)), Start, rs, if thrown then Thrown else Returned)
    {
      hide LifeRun, AnswerLife, StartLife, Told, GateNow, InAnyOrder, SopRuns.LifeStep, Answers, AtHead, Ready;
      ghost var was, g0 := View(ctx, Fresh), GateNow();
      ghost var l := StartLife(Config(), sop, was);
      rs := [];
      BeginsLife(Config(), sop, was, Start);
      NothingTold(g0, env);
      Enter(sop, ctx);
      var idx := ctx.currentStepIndex;
      thrown := false;
      hide View;
      while idx < |sop.steps|
        invariant Ready() && OthersKept(ctx.runId) && AtHead(sop, ctx, idx, l)
        invariant l == LifeRun(Config(), sop, was, [Start] + Answers(rs))
        invariant Told(g0, env, l.calls, rs)
      {
        var exit;
        ghost var r;
        exit, r := Turn(sop, ctx, idx, env, l, g0, rs);
        ContinuesLife(Config(), sop, was, Start, l, rs, r);
        l, rs := AnswerLife(Config(), sop, l, r), rs + [r];
        if exit == Escaped {
          thrown := true;
          return;
        }
        if exit.ExecutionError? || ctx.state == SUSPENDED {
          return;
        }
        idx := idx + 1;
      }
      Complete(sop, ctx, idx, l);
    }

    /** The decision put on the context and, with a table attached, on record. */
    method RecordDecision(ctx: SOPRunContext, decision: string, reason: Option<string>, approver: string)
      returns (ok: bool)
      modifies ctx, feedbackDb
      ensures OthersKept(ctx.runId) && (ok || StoresKept())
      ensures ctx.Snapshot() ==
        old(ctx.Snapshot()).(decision := Some(decision), reason := reason, approver := Some(approver))
      ensures var was := old(View(ctx, Returned));
              var row := InsertFeedback(was.row, FeedbackRow(approver, decision, reason, LastNote(was.proc.ctx)));
              && (ok <==> feedbackDb == null || row.Some?)
              && View(ctx, Returned).row == (if feedbackDb != null && row.Some? then row else was.row)
    {
      ctx.approvalResult, ctx.approvalReason, ctx.approverId := Some(decision), reason, Some(approver);
      if feedbackDb == null {
        return true;
      }
      var original := if ctx.stepResults == [] then None else Some(ctx.stepResults[|ctx.stepResults| - 1].note);
      ok := feedbackDb.Insert(ctx.runId, FeedbackRow(approver, decision, reason, original));
    }

    /** Entry of `resume`, up to the run it may start; `go` tells whether it does. */
    method Decided(
      sop: SopDefinition, ctx: SOPRunContext, decision: string, reason: Option<string>, approver: string)
      returns (refused: bool, go: bool)
      requires Ready()
      modifies ctx, stateStore, feedbackDb
      ensures Ready() && OthersKept(ctx.runId) && (refused ==> StoresKept())
      ensures refused <==> SopEngines.Resume(Config(), sop, old(ctx.Snapshot()), old(View(ctx, Returned)).row,
                                             decision, reason, approver).Raises?
      ensures var decided := DecideLife(Config(), sop, old(View(ctx, Returned)), Decide(decision, reason, approver));
              if go then !refused && decided == StartLife(Config(), sop, View(ctx, Fresh))
              else decided == View(ctx, Returned)
    {
      hide InsertFeedback, LastNote, SopEngines.Resume, DecideLife, StartLife;
      hide WorkflowStateStore.Valid, WriteGate.Valid;
      DecisionCases(Config(), sop, View(ctx, Returned), Decide(decision, reason, approver));
      if ctx.state != SUSPENDED {
        return true, false;
      }
      ghost var was := View(ctx, Returned);
      var ok := RecordDecision(ctx, decision, reason, approver);
      if !ok {
        return true, false;
      }
      if decision == "REJECTED" {
        ctx.state := REJECTED;
        Save(ctx);
        return false, false;
      }
      ctx.state := APPROVED;
      ctx.currentStepIndex := ctx.currentStepIndex + 1;
      hide Ready, OthersKept;
      refused, go := false, true;
    }

    /** `resume`: the decision, and the rest of the run if it goes on. A refusal raises, and has left its mark on the
        context in memory only. */
    method Resume(
      sop: SopDefinition, ctx: SOPRunContext, decision: string, reason: Option<string>, approver: string,
      env: nat -> StepEnv)
      returns (exit: ResumeExit, ghost rs: seq<Reply>)
      requires Ready() && forall n :: InAnyOrder(env(n).order)
      modifies ctx, stateStore, feedbackDb, GateParts()
      ensures Ready() && (exit == NotAccepted ==> StoresKept() && GateNow() == old(GateNow()))
      ensures Lived(sop, ctx, env, old(View(ctx, Returned)), Decide(decision, reason, approver), rs,
                    if exit == Ended(true) then Thrown else Returned)
      ensures exit == NotAccepted <==>
        SopEngines.Resume(Config(), sop, old(ctx.Snapshot()), old(View(ctx, Returned)).row,
                          decision, reason, approver).Raises?
    {
      hide LifeRun, StartLife, DecideLife, Told, GateNow, InAnyOrder, Answers, Ready, SopEngines.Resume;
      ghost var was, first, g0 := View(ctx, Returned), Decide(decision, reason, approver), GateNow();
      assert was.calls == [];
      hide View;
      var refused, go := Decided(sop, ctx, decision, reason, approver);
      rs := [];
      NothingTold(g0, env);
      LifeOne(Config(), sop, was, first);
      if !go {
        exit := if refused then NotAccepted else Ended(false);
        DecidingCallsNothing(Config(), sop, was, first);
        return;
      }
      ghost var from := View(ctx, Fresh);
      var thrown;
      thrown, rs := Run(sop, ctx, env);
      SameFirstStep(Config(), sop, was, first, from, Start, rs);
      exit := Ended(thrown);
    }
  }

  /** The row is written once, when the decision is accepted. */
  lemma {:induction false} AcceptedIsRecorded(
    cfg: EngineConfig, sop: SopDefinition, l: Life, decision: string, reason: Option<string>, approver: string,
    rs: seq<Reply>)
    requires SopEngines.Resume(cfg, sop, l.proc.ctx, l.row, decision, reason, approver).Accepted?
    ensures cfg.feedback ==>
      LifeRun(cfg, sop, l, [Decide(decision, reason, approver)] + Answers(rs)).row
        == Some(FeedbackRow(approver, decision, reason, LastNote(l.proc.ctx)))
  {
    hide LastNote, BeginRun, Advance, RequestOf;
    var first := Decide(decision, reason, approver);
    if rs == [] {
      LifeOne(cfg, sop, l, first);
    } else {
      var n := |rs| - 1;
      assert rs == rs[..n] + [rs[n]];
      AcceptedIsRecorded(cfg, sop, l, decision, reason, approver, rs[..n]);
      LifeSnoc(cfg, sop, l, first, rs[..n], rs[n]);
    }
  }

  // ----- The handlers of approval callbacks -----

  lemma AcceptedIff(
    cfg: EngineConfig, sop: SopDefinition, ctx: RunContext, row: Option<FeedbackRow>,
    decision: string, reason: Option<string>, approver: string)
    requires decision in {"APPROVED", "REJECTED"}
    ensures SopEngines.Resume(cfg, sop, ctx, row, decision, reason, approver).Accepted? <==>
      ctx.state == SUSPENDED && (cfg.feedback ==> row.None?)
  {
    hide BeginRun, LastNote;
  }

  datatype HandlerReply =
    | Unavailable | BadRequest | Ignored | RunNotFound | SopNotFound
    | Raised(exit: ResumeExit) | Finished(state: RunState)

  predicate TookEffect(reply: HandlerReply)
  {
    reply.Finished? || reply == HandlerReply.Raised(Ended(true))
  }

  class ServiceBootstrap {
    const sopEngine: SOPEngine?
    const stateStore: WorkflowStateStore?
    const sops: map<string, SopDefinition>

    ghost predicate Valid()
    {
      sopEngine != null ==> sopEngine.stateStore == stateStore
    }

    constructor (sopEngine: SOPEngine?, stateStore: WorkflowStateStore?, sops: map<string, SopDefinition>)
      requires sopEngine != null ==> sopEngine.stateStore == stateStore
      ensures Valid() && this.sopEngine == sopEngine && this.stateStore == stateStore && this.sops == sops
    {
      this.sopEngine, this.stateStore, this.sops := sopEngine, stateStore, sops;
    }

    ghost function Touched(): set<object?>
    {
      {stateStore} + if sopEngine == null then {} else {sopEngine.feedbackDb} + sopEngine.GateParts()
    }

    ghost predicate Ready()
      reads Touched()
    {
      Valid() && (sopEngine != null ==> sopEngine.Ready())
    }

    /** What a caller can look up before sending a decision. */
    ghost predicate Acceptable(runId: string, decision: string)
      reads Touched()
    {
      && sopEngine != null && stateStore != null && decision in {"APPROVED", "REJECTED"}
      && Valid() && runId in stateStore.states && stateStore.states[runId].sopId in sops
      && stateStore.states[runId].state == SUSPENDED
      && (sopEngine.feedbackDb != null ==> runId !in sopEngine.feedbackDb.rows)
    }

    /** Every run of a known procedure can be decided while it is stored as suspended and has no row: its stored context
        names the procedure it was created for. */
    lemma CreatedRunIsAcceptable(
      sop: SopDefinition, runId: string, data: map<string, string>, es: seq<LifeEvent>, decision: string)
      requires Valid() && sopEngine != null && stateStore != null && sop.sopId in sops
      requires decision in {"APPROVED", "REJECTED"} && runId in stateStore.states
      requires var cfg := sopEngine.Config();
               LifeRun(cfg, sop, Created(cfg, sop, runId, data), es).saved == Some(stateStore.states[runId])
      requires stateStore.states[runId].state == SUSPENDED
      requires sopEngine.feedbackDb != null ==> runId !in sopEngine.feedbackDb.rows
      ensures Acceptable(runId, decision) && stateStore.states[runId].sopId == sop.sopId
    {
      hide LifeRun;
      RunKeepsItsName(sopEngine.Config(), sop, runId, data, es);
    }

    /** The stored run, as the life a handler takes up. */
    ghost function Stored(runId: string): Life
      requires Valid() && sopEngine != null && stateStore != null && runId in stateStore.states
      reads stateStore, Touched()
    {
      var saved := stateStore.states[runId];
      Life(Proc(saved, Returned), Some(saved),
           if sopEngine.feedbackDb != null then sopEngine.feedbackDb.GetByTraceId(runId) else None, [])
    }

    /** The table, if any, holds this decision: from now on no callback for the run is acceptable. */
    ghost predicate OnRecord(runId: string, e: LifeEvent)
      reads Touched()
    {
      sopEngine != null && sopEngine.feedbackDb != null && e.Decide? ==>
        && runId in sopEngine.feedbackDb.rows
        && var row := sopEngine.feedbackDb.rows[runId];
           row.decision == e.decision && row.reviewer == e.approver && row.reason == e.reason
    }

    /** Accepted: stored context, feedback row and gate are those of one life that took this decision. */
    twostate predicate Effect(runId: string, first: LifeEvent, env: nat -> StepEnv, rs: seq<Reply>, reply: HandlerReply)
      requires old(Ready()) && sopEngine != null && stateStore != null
      requires runId in old(stateStore.states) && old(stateStore.states)[runId].sopId in sops
      reads Touched()
    {
      var sop := sops[old(stateStore.states)[runId].sopId];
      var l := LifeRun(sopEngine.Config(), sop, old(Stored(runId)), [first] + Answers(rs));
      && l.saved == (if runId in stateStore.states then Some(stateStore.states[runId]) else None)
      && l.row == (if sopEngine.feedbackDb != null then sopEngine.feedbackDb.GetByTraceId(runId) else None)
      && sopEngine.OthersKept(runId) && OnRecord(runId, first)
      && sopEngine.Told(old(sopEngine.GateNow()), env, l.calls, rs)
      && if reply.Finished? then l.proc.status == Returned && l.proc.ctx.state == reply.state
         else l.proc.status == Thrown
    }

    /** Resuming a context just loaded for a run whose definition is known. */
    method ResumeLoaded(
      ctx: SOPRunContext, decision: string, reason: Option<string>, approver: string, env: nat -> StepEnv)
      returns (exit: ResumeExit, ghost rs: seq<Reply>)
      requires Ready() && sopEngine != null && stateStore != null && (forall n :: InAnyOrder(env(n).order))
      requires decision in {"APPROVED", "REJECTED"} && ctx.sopId in sops
      requires ctx.runId in stateStore.states && ctx.Snapshot() == stateStore.states[ctx.runId]
      modifies ctx, Touched()
      ensures Ready() && (exit != NotAccepted <==> old(Acceptable(ctx.runId, decision)))
      ensures exit == NotAccepted ==> sopEngine.StoresKept() && sopEngine.GateNow() == old(sopEngine.GateNow())
      ensures exit != NotAccepted ==>
        && sopEngine.Lived(sops[ctx.sopId], ctx, env, old(Stored(ctx.runId)), Decide(decision, reason, approver), rs,
                           if exit == Ended(true) then Thrown else Returned)
        && OnRecord(ctx.runId, Decide(decision, reason, approver))
    {
      hide LifeRun, Answers, InAnyOrder, SopEngines.Resume, SOPEngine.Told, SOPEngine.GateNow, WriteGate.Valid;
      hide SOPEngine.StoresKept, SOPEngine.OthersKept, LastNote, WorkflowStateStore.Valid;
      ghost var was := sopEngine.View(ctx, Returned);
      AcceptedIff(sopEngine.Config(), sops[ctx.sopId], ctx.Snapshot(), was.row, decision, reason, approver);
      exit, rs := sopEngine.Resume(sops[ctx.sopId], ctx, decision, reason, approver, env);
      if exit != NotAccepted {
        AcceptedIsRecorded(sopEngine.Config(), sops[ctx.sopId], was, decision, reason, approver, rs);
      }
    }

    /** The common body of both handlers: load, find the definition, resume. */
    method LoadAndResume(
      runId: string, decision: string, reason: Option<string>, approver: string, decodes: bool, env: nat -> StepEnv)
      returns (reply: HandlerReply, ghost rs: seq<Reply>)
      requires Ready() && sopEngine != null && stateStore != null && (forall n :: InAnyOrder(env(n).order))
      requires decision in {"APPROVED", "REJECTED"}
      modifies Touched()
      ensures Ready() && (TookEffect(reply) <==> decodes && old(Acceptable(runId, decision)))
      ensures reply == RunNotFound <==> runId !in old(stateStore.states) || !decodes
      ensures reply == SopNotFound <==>
        runId in old(stateStore.states) && decodes && old(stateStore.states)[runId].sopId !in sops
      ensures reply == HandlerReply.Raised(NotAccepted) <==>
        && runId in old(stateStore.states) && decodes && old(stateStore.states)[runId].sopId in sops
        && !old(Acceptable(runId, decision))
      ensures !TookEffect(reply) ==> sopEngine.StoresKept() && sopEngine.GateNow() == old(sopEngine.GateNow())
      ensures TookEffect(reply) ==> Effect(runId, Decide(decision, reason, approver), env, rs, reply)
    {
      hide LifeRun, Answers, InAnyOrder, SOPEngine.Told, SOPEngine.GateNow, WriteGate.Valid, OnRecord;
      rs := [];
      var ctx := stateStore.LoadState(runId, decodes);
      if ctx == null {
        return RunNotFound, [];
      }
      if ctx.sopId !in sops {
        return SopNotFound, [];
      }
      var exit;
      exit, rs := ResumeLoaded(ctx, decision, reason, approver, env);
      reply := if exit == Ended(false) then Finished(ctx.state) else HandlerReply.Raised(exit);
    }

    method ResumeSop(
      runId: string, decision: string, reason: Option<string>, approver: string, decodes: bool, env: nat -> StepEnv)
      returns (reply: HandlerReply, ghost rs: seq<Reply>)
      requires Ready() && forall n :: InAnyOrder(env(n).order)
      modifies Touched()
      ensures Ready() && (TookEffect(reply) <==> decodes && old(Acceptable(runId, decision)))
      ensures reply == Unavailable <==> sopEngine == null || stateStore == null
      ensures reply == BadRequest <==> reply != Unavailable && decision !in {"APPROVED", "REJECTED"}
      ensures reply !in {Unavailable, BadRequest} ==>
        && (reply == RunNotFound <==> runId !in old(stateStore.states) || !decodes)
        && (reply == SopNotFound <==>
              runId in old(stateStore.states) && decodes && old(stateStore.states)[runId].sopId !in sops)
      ensures reply != Ignored
      ensures !TookEffect(reply) && sopEngine != null ==>
        sopEngine.StoresKept() && sopEngine.GateNow() == old(sopEngine.GateNow())
      ensures TookEffect(reply) ==> Effect(runId, Decide(decision, reason, approver), env, rs, reply)
    {
      rs := [];
      if sopEngine == null || stateStore == null {
        return Unavailable, [];
      }
      if decision !in {"APPROVED", "REJECTED"} {
        return BadRequest, [];
      }
      reply, rs := LoadAndResume(runId, decision, reason, approver, decodes, env);
    }

    /** A card callback: without a run id or a decision it is not an approval, and ignored. */
    method HandleCardCallback(
      runId: string, decision: string, reason: Option<string>, reviewer: string, decodes: bool, env: nat -> StepEnv)
      returns (reply: HandlerReply, ghost rs: seq<Reply>)
      requires Ready() && forall n :: InAnyOrder(env(n).order)
      modifies Touched()
      ensures Ready() && (TookEffect(reply) <==> runId != "" && decodes && old(Acceptable(runId, decision)))
      ensures reply == Ignored <==> runId == "" || decision !in {"APPROVED", "REJECTED"}
      ensures reply == Unavailable <==> reply != Ignored && (sopEngine == null || stateStore == null)
      ensures reply !in {Unavailable, Ignored} ==>
        && (reply == RunNotFound <==> runId !in old(stateStore.states) || !decodes)
        && (reply == SopNotFound <==>
              runId in old(stateStore.states) && decodes && old(stateStore.states)[runId].sopId !in sops)
      ensures reply != BadRequest
      ensures !TookEffect(reply) && sopEngine != null ==>
        sopEngine.StoresKept() && sopEngine.GateNow() == old(sopEngine.GateNow())
      ensures TookEffect(reply) ==> Effect(runId, Decide(decision, reason, reviewer), env, rs, reply)
    {
      if runId == "" || decision !in {"APPROVED", "REJECTED"} {
        return Ignored, [];
      }
      if sopEngine == null || stateStore == null {
        return Unavailable, [];
      }
      reply, rs := LoadAndResume(runId, decision, reason, reviewer, decodes, env);
    }
  }
}
