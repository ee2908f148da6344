/**
 Whole lives of one run context: created, run once, resumed any number of times, perhaps
 reloaded from the store in between, with any answers from the environment.
 */
module SopRuns {
  import opened Wrappers
  import opened SopSchema
  import opened SopEngines

  /** One executed step: its place in the definition and the gate call it made. */
  datatype Call = Call(step: nat, request: Request)

  datatype Life = Life(proc: Proc, saved: Option<RunContext>, row: Option<FeedbackRow>, calls: seq<Call>)

  datatype LifeEvent =
    | Start
    | Answer(reply: Reply)
    | Decide(decision: string, reason: Option<string>, approver: string)
    | Reload

  function Created(cfg: EngineConfig, sop: SopDefinition, runId: string, data: map<string, string>): Life
  {
    var ctx := NewContext(sop, runId, data);
    Life(Proc(ctx, Fresh), if cfg.store then Some(ctx) else None, None, [])
  }

  predicate AtStep(sop: SopDefinition, p: Proc)
  {
    p.status.Going? && p.status.next < |sop.steps|
  }

  function NextCall(cfg: EngineConfig, sop: SopDefinition, p: Proc): Call
    requires AtStep(sop, p)
  {
    Call(p.status.next, RequestOf(cfg.gate, sop.steps[p.status.next], p.ctx.data))
  }

  function StartLife(cfg: EngineConfig, sop: SopDefinition, l: Life): Life
  {
    var p := BeginRun(sop, l.proc.ctx);
    l.(proc := p, saved := if p.status == Returned then SaveAfter(cfg, p, l.saved) else l.saved)
  }

  function AnswerLife(cfg: EngineConfig, sop: SopDefinition, l: Life, r: Reply): Life
    requires AtStep(sop, l.proc)
  {
    var p := Advance(cfg, sop, l.proc.ctx, l.proc.status.next, r);
    Life(p, SaveAfter(cfg, p, l.saved), l.row, l.calls + [NextCall(cfg, sop, l.proc)])
  }

  function DecideLife(cfg: EngineConfig, sop: SopDefinition, l: Life, e: LifeEvent): Life
    requires e.Decide?
  {
    match Resume(cfg, sop, l.proc.ctx, l.row, e.decision, e.reason, e.approver)
    case Raises(ctx) => l.(proc := l.proc.(ctx := ctx))
    case Accepted(p, row, saves) =>
      l.(proc := p, row := row, saved := if saves then SaveAfter(cfg, p, l.saved) else l.saved)
  }

  function LifeStep(cfg: EngineConfig, sop: SopDefinition, l: Life, e: LifeEvent): Life
  {
    match e
    case Start => if l.proc.status.Going? then l else StartLife(cfg, sop, l)
    case Answer(r) => if AtStep(sop, l.proc) then AnswerLife(cfg, sop, l, r) else l
    case Decide(_, _, _) => DecideLife(cfg, sop, l, e)
    case Reload => if l.saved.Some? then l.(proc := l.proc.(ctx := l.saved.value)) else l
  }

  function LifeRun(cfg: EngineConfig, sop: SopDefinition, l: Life, es: seq<LifeEvent>): Life
  {
    if es == [] then l else LifeStep(cfg, sop, LifeRun(cfg, sop, l, es[..|es| - 1]), es[|es| - 1])
  }

  /** `run` is called once, on the context just created; a context is reloaded only between normal returns. */
  predicate Disciplined(l: Life, e: LifeEvent)
  {
    && (e.Start? ==> l.proc.status == Fresh)
    && (e.Reload? ==> l.proc.status in {Fresh, Returned})
  }

  predicate DisciplinedRun(cfg: EngineConfig, sop: SopDefinition, l: Life, es: seq<LifeEvent>)
  {
    es != [] ==>
      var init := es[..|es| - 1];
      DisciplinedRun(cfg, sop, l, init) && Disciplined(LifeRun(cfg, sop, l, init), es[|es| - 1])
  }

  // ----- Exactly once, in order -----

  /** The results recorded so far are those of the first steps of the definition. */
  ghost predicate Prefix(sop: SopDefinition, results: seq<StepResult>)
  {
    && |results| <= |sop.steps|
    && forall i :: 0 <= i < |results| ==>
         results[i].stepId == sop.steps[i].id && results[i].kind == sop.steps[i].kind
  }

  /** The k-th call executed step k. */
  ghost predicate InOrder(sop: SopDefinition, calls: seq<Call>)
  {
    |calls| <= |sop.steps| && forall i :: 0 <= i < |calls| ==> calls[i].step == i
  }

  /** The length of the prefix, tied to state and position. */
  ghost predicate Placed(sop: SopDefinition, p: Proc, calls: nat)
  {
    var ctx, n := p.ctx, |p.ctx.results|;
    match p.status
    case Fresh => ctx.state == PENDING && ctx.index == n == calls == 0 && ctx.errors == []
    case Going(next) => ctx.state == RUNNING && next == n == calls < |sop.steps| && ctx.errors == []
    case Thrown => ctx.state == RUNNING && ctx.index == n == calls - 1 < |sop.steps| && ctx.errors == []
    case Returned =>
      match ctx.state
      case SUSPENDED =>
        && ctx.index + 1 == n == calls && ctx.results[n - 1].note == AwaitingApproval
        && ctx.suspendedStep == Some(ctx.results[n - 1].stepId) && ctx.errors == []
      case REJECTED => ctx.index + 1 == n == calls && ctx.results[n - 1].note == AwaitingApproval && ctx.errors == []
      case FAILED => ctx.index == n == calls - 1 < |sop.steps| && |ctx.errors| == 1
      case COMPLETED => n == calls == |sop.steps| && ctx.errors == []
      case _ => false
  }

  ghost predicate Sound(sop: SopDefinition, l: Life)
  {
    Prefix(sop, l.proc.ctx.results) && InOrder(sop, l.calls) && Placed(sop, l.proc, |l.calls|)
  }

  /** Equal but for the fields a refused decision leaves behind on a suspended context. */
  ghost predicate SameRun(a: RunContext, b: RunContext)
  {
    a == b || (a.state == SUSPENDED && a == b.(decision := a.decision, reason := a.reason, approver := a.approver))
  }

  /** At every normal return the stored context is the one in memory. */
  ghost predicate StoreInStep(cfg: EngineConfig, l: Life)
  {
    (cfg.store && l.proc.status in {Fresh, Returned} ==> l.saved.Some? && SameRun(l.saved.value, l.proc.ctx))
    && (l.saved.Some? ==> cfg.store)
  }

  ghost predicate Kept(cfg: EngineConfig, sop: SopDefinition, l: Life)
  {
    Sound(sop, l) && StoreInStep(cfg, l)
  }

  /** The four ways a decision can go. */
  lemma DecisionCases(cfg: EngineConfig, sop: SopDefinition, was: Life, e: LifeEvent)
    requires e.Decide?
    ensures var ctx := was.proc.ctx;
            var resumed := SopEngines.Resume(cfg, sop, ctx, was.row, e.decision, e.reason, e.approver);
            var decided := ctx.(decision := Some(e.decision), reason := e.reason, approver := Some(e.approver));
            var inserted := InsertFeedback(was.row, FeedbackRow(e.approver, e.decision, e.reason, LastNote(ctx)));
            var row := if cfg.feedback then inserted else was.row;
            var rejected := decided.(state := REJECTED);
            var approved := decided.(state := APPROVED, index := ctx.index + 1);
            if ctx.state != SUSPENDED then resumed.Raises? && DecideLife(cfg, sop, was, e) == was
            else if cfg.feedback && inserted.None? then
              resumed.Raises? && DecideLife(cfg, sop, was, e) == was.(proc := was.proc.(ctx := decided))
            else if e.decision == "REJECTED" then
              && resumed.Accepted?
              && DecideLife(cfg, sop, was, e) == was.(proc := Proc(rejected, Returned), row := row,
                                                      saved := if cfg.store then Some(rejected) else was.saved)
            else
              && resumed.Accepted?
              && DecideLife(cfg, sop, was, e) == StartLife(cfg, sop, was.(proc := Proc(approved, Fresh), row := row))
  {
    hide InsertFeedback, LastNote;
  }

  lemma SoundAnswer(cfg: EngineConfig, sop: SopDefinition, l: Life, r: Reply)
    requires Kept(cfg, sop, l) && AtStep(sop, l.proc)
    ensures Kept(cfg, sop, AnswerLife(cfg, sop, l, r))
  {
    hide RequestOf;
  }

  /** Contexts that differ only in what a refused decision left behind are resumed alike. */
  lemma SameRunSameResume(
    cfg: EngineConfig, sop: SopDefinition, a: RunContext, b: RunContext, row: Option<FeedbackRow>,
    decision: string, reason: Option<string>, approver: string)
    requires SameRun(a, b)
    ensures Resume(cfg, sop, a, row, decision, reason, approver) == Resume(cfg, sop, b, row, decision, reason, approver)
  {
    hide BeginRun, InsertFeedback;
  }

  lemma SoundStart(cfg: EngineConfig, sop: SopDefinition, l: Life)
    requires Kept(cfg, sop, l) && l.proc.status == Fresh
    ensures Kept(cfg, sop, StartLife(cfg, sop, l))
  {
  }

  lemma SoundDecide(cfg: EngineConfig, sop: SopDefinition, l: Life, e: LifeEvent)
    requires Kept(cfg, sop, l) && e.Decide?
    ensures Kept(cfg, sop, DecideLife(cfg, sop, l, e))
  {
    hide InsertFeedback, LastNote;
  }

  lemma SoundReload(cfg: EngineConfig, sop: SopDefinition, l: Life)
    requires Kept(cfg, sop, l) && l.proc.status in {Fresh, Returned} && l.saved.Some?
    ensures Kept(cfg, sop, l.(proc := l.proc.(ctx := l.saved.value)))
  {
  }

  lemma SoundStep(cfg: EngineConfig, sop: SopDefinition, l: Life, e: LifeEvent)
    requires Sound(sop, l) && StoreInStep(cfg, l) && Disciplined(l, e)
    ensures Sound(sop, LifeStep(cfg, sop, l, e)) && StoreInStep(cfg, LifeStep(cfg, sop, l, e))
  {
    hide Sound, StoreInStep, StartLife, AnswerLife, DecideLife;
    assert Kept(cfg, sop, l);
    match e
    case Start => SoundStart(cfg, sop, l);
    case Answer(r) =>
      if AtStep(sop, l.proc) {
        SoundAnswer(cfg, sop, l, r);
      }
    case Decide(_, _, _) => SoundDecide(cfg, sop, l, e);
    case Reload =>
      if l.saved.Some? {
        SoundReload(cfg, sop, l);
      }
    assert Kept(cfg, sop, LifeStep(cfg, sop, l, e));
  }

  /**
   Along create_run, one run and any resumptions: the recorded results and the executed
   steps are always a prefix of the definition, in order, none skipped and none repeated, and
   the prefix's length is the one the context's state and index say.
   */
  lemma {:induction false} ExactlyOnceInOrder(
    cfg: EngineConfig, sop: SopDefinition, runId: string, data: map<string, string>, es: seq<LifeEvent>)
    requires DisciplinedRun(cfg, sop, Created(cfg, sop, runId, data), es)
    ensures Sound(sop, LifeRun(cfg, sop, Created(cfg, sop, runId, data), es))
    ensures StoreInStep(cfg, LifeRun(cfg, sop, Created(cfg, sop, runId, data), es))
  {
    if es != [] {
      var l := Created(cfg, sop, runId, data);
      var init := es[..|es| - 1];
      ExactlyOnceInOrder(cfg, sop, runId, data, init);
      SoundStep(cfg, sop, LifeRun(cfg, sop, l, init), es[|es| - 1]);
    }
  }

  // ----- What a step does, by its definition and the answers it gets -----

  /** A person is asked: an approval without a condition, or whose condition triggers. */
  predicate Asks(step: SopStep, r: Reply)
  {
    step.kind == HumanApproval && (step.condition == "" || r.triggers)
  }

  /** A validation the gate has to make, and a write it has to take. */
  predicate Checks(gate: bool, step: SopStep)
  {
    step.kind == ValidateStep && gate && step.domain.Some?
  }

  predicate Writes(gate: bool, step: SopStep)
  {
    step.kind == Action && step.action == Some(GovernedWrite) && gate
  }

  predicate HasData(step: SopStep, data: map<string, string>)
  {
    step.DataKey() in data && data[step.DataKey()] != ""
  }

  predicate HasNonce(step: SopStep, data: map<string, string>)
  {
    "_nonce_" + step.DataKey() in data && data["_nonce_" + step.DataKey()] != ""
  }

  /**
   Where a step takes the run, in every case: it waits exactly when a person is asked and the card went out, fails
   when the gate does not accept what it needs or gets, is left by an exception when the gate, a template or the
   sender raises, and goes on otherwise.
   */
  lemma StepLeads(cfg: EngineConfig, sop: SopDefinition, l: Life, r: Reply)
    requires Sound(sop, l) && AtStep(sop, l.proc)
    ensures var k := l.proc.status.next;
            var step, data, p := sop.steps[k], l.proc.ctx.data, AnswerLife(cfg, sop, l, r).proc;
            var waits := Asks(step, r) && r.rendered.Some? && r.sent;
            var fails :=
              || (Checks(cfg.gate, step) && (!HasData(step, data) || r.check.CheckInvalid?))
              || (Writes(cfg.gate, step) && (!HasData(step, data) || !HasNonce(step, data) || !r.written));
            var raises :=
              || (Checks(cfg.gate, step) && HasData(step, data) && r.check.CheckRaised?)
              || (Asks(step, r) && (r.rendered.None? || !r.sent))
              || (step.kind == Notify && r.rendered.None?);
            && (p.ctx.state == SUSPENDED <==> waits)
            && (p.ctx.state == FAILED <==> fails)
            && (p.status == Thrown <==> raises)
            && (p.status == Going(k + 1) <==> !waits && !fails && !raises && k + 1 < |sop.steps|)
            && (p.ctx.state == COMPLETED <==> !waits && !fails && !raises && k + 1 == |sop.steps|)
            && (p.ctx.state == SUSPENDED ==> p.ctx.suspendedStep == Some(step.id))
  {
    hide Prefix, InOrder, RequestOf;
  }

  /** What a step leaves in the run's data: the nonce of its validation under the key's own name, the card it asked
      with, and nothing else. */
  lemma StepLeaves(cfg: EngineConfig, sop: SopDefinition, l: Life, r: Reply)
    requires AtStep(sop, l.proc)
    ensures var step, data := sop.steps[l.proc.status.next], l.proc.ctx.data;
            AnswerLife(cfg, sop, l, r).proc.ctx.data ==
              if Checks(cfg.gate, step) && HasData(step, data) && r.check.CheckValid? then
                data["_nonce_" + step.DataKey() := r.check.nonce]
              else if Asks(step, r) && r.rendered.Some? then data["_pending_card" := r.rendered.value]
              else data
  {
    hide RequestOf;
  }

  /** Which error a failing step leaves. */
  lemma StepErrors(cfg: EngineConfig, sop: SopDefinition, l: Life, r: Reply)
    requires Sound(sop, l) && AtStep(sop, l.proc) && AnswerLife(cfg, sop, l, r).proc.ctx.state == FAILED
    ensures var step, data := sop.steps[l.proc.status.next], l.proc.ctx.data;
            AnswerLife(cfg, sop, l, r).proc.ctx.errors ==
              if Checks(cfg.gate, step) then [if HasData(step, data) then ShaclViolation else MissingData]
              else [if HasData(step, data) && HasNonce(step, data) then WriteFailed else MissingDataOrNonce]
  {
    hide Prefix, InOrder, RequestOf;
  }

  /** What a step asks of the gate: a validation of its data in its domain, or the write of its data with the
      nonce kept for it. */
  lemma StepRequests(cfg: EngineConfig, sop: SopDefinition, l: Life, r: Reply)
    requires AtStep(sop, l.proc)
    ensures var step, data := sop.steps[l.proc.status.next], l.proc.ctx.data;
            var calls := AnswerLife(cfg, sop, l, r).calls;
            var q := calls[|calls| - 1].request;
            && |calls| == |l.calls| + 1
            && (q.CheckRequest? <==> Checks(cfg.gate, step) && HasData(step, data))
            && (q.CheckRequest? ==> Some(q.domain) == step.domain && q.data == data[step.DataKey()])
            && (q.WriteRequest? <==> Writes(cfg.gate, step) && HasData(step, data) && HasNonce(step, data))
            && (q.WriteRequest? ==>
                  && (step.domain.Some? ==> q.domain == step.domain.value) && (step.domain.None? ==> q.domain == "")
                  && q.data == data[step.DataKey()] && q.nonce == data["_nonce_" + step.DataKey()])
  {
    hide Advance;
  }

  /** Why a step could be recorded with this note. */
  predicate Earned(gate: bool, step: SopStep, r: Reply, note: StepNote)
  {
    match note
    case Skipped => (step.kind == ValidateStep && !Checks(gate, step)) || (step.kind == Action && !step.IsWrite())
    case Validated => Checks(gate, step) && r.check.CheckValid?
    case AutoApproved => step.kind == HumanApproval && !Asks(step, r)
    case AwaitingApproval => Asks(step, r) && r.rendered.Some? && r.sent
    case Written => Writes(gate, step) && r.written
    case Simulated => step.IsWrite() && !gate
    case Notified => step.kind == Notify && r.rendered.Some?
  }

  lemma StepEarns(cfg: EngineConfig, sop: SopDefinition, l: Life, r: Reply)
    requires AtStep(sop, l.proc)
    ensures var before, after := l.proc.ctx.results, AnswerLife(cfg, sop, l, r).proc.ctx.results;
            || after == before
            || (|after| == |before| + 1 && before <= after
                && Earned(cfg.gate, sop.steps[l.proc.status.next], r, after[|before|].note))
  {
    hide RequestOf;
  }

  /** The replies that answered a step, in order. */
  function RepliesIn(cfg: EngineConfig, sop: SopDefinition, l: Life, es: seq<LifeEvent>): seq<Reply>
  {
    if es == [] then []
    else
      var init, e := es[..|es| - 1], es[|es| - 1];
      RepliesIn(cfg, sop, l, init)
        + if e.Answer? && AtStep(sop, LifeRun(cfg, sop, l, init).proc) then [e.reply] else []
  }

  ghost predicate AllEarned(gate: bool, sop: SopDefinition, results: seq<StepResult>, rs: seq<Reply>)
  {
    && |results| <= |sop.steps| && |results| <= |rs|
    && forall i :: 0 <= i < |results| ==> Earned(gate, sop.steps[i], rs[i], results[i].note)
  }

  lemma EarnedStep(cfg: EngineConfig, sop: SopDefinition, l: Life, e: LifeEvent, rs: seq<Reply>)
    requires Kept(cfg, sop, l) && Disciplined(l, e) && AllEarned(cfg.gate, sop, l.proc.ctx.results, rs)
    requires |rs| == |l.calls|
    ensures var l' := LifeStep(cfg, sop, l, e);
            var rs' := if e.Answer? && AtStep(sop, l.proc) then rs + [e.reply] else rs;
            AllEarned(cfg.gate, sop, l'.proc.ctx.results, rs') && |rs'| == |l'.calls|
  {
    hide Earned, Prefix, InOrder, Advance, LastNote, InsertFeedback, RequestOf;
    if e.Answer? && AtStep(sop, l.proc) {
      StepEarns(cfg, sop, l, e.reply);
      SoundAnswer(cfg, sop, l, e.reply);
    }
  }

  /** Every result a run has recorded was earned by the reply its own step got: in particular an approval passes
      without a person exactly when its condition is there and was answered as not triggering. */
  lemma {:induction false} EveryResultIsEarned(
    cfg: EngineConfig, sop: SopDefinition, runId: string, data: map<string, string>, es: seq<LifeEvent>)
    requires DisciplinedRun(cfg, sop, Created(cfg, sop, runId, data), es)
    ensures var start := Created(cfg, sop, runId, data);
            var l, rs := LifeRun(cfg, sop, start, es), RepliesIn(cfg, sop, start, es);
            AllEarned(cfg.gate, sop, l.proc.ctx.results, rs) && |rs| == |l.calls|
  {
    if es != [] {
      hide AllEarned, LifeStep;
      var start, init := Created(cfg, sop, runId, data), es[..|es| - 1];
      EveryResultIsEarned(cfg, sop, runId, data, init);
      ExactlyOnceInOrder(cfg, sop, runId, data, init);
      EarnedStep(cfg, sop, LifeRun(cfg, sop, start, init), es[|es| - 1], RepliesIn(cfg, sop, start, init));
    }
  }

  // ----- Whose run it is -----

  ghost predicate Named(runId: string, sopId: string, l: Life)
  {
    && l.proc.ctx.runId == runId && l.proc.ctx.sopId == sopId
    && (l.saved.Some? ==> l.saved.value.runId == runId && l.saved.value.sopId == sopId)
  }

  lemma NamedStep(cfg: EngineConfig, sop: SopDefinition, l: Life, e: LifeEvent, runId: string, sopId: string)
    requires Named(runId, sopId, l)
    ensures Named(runId, sopId, LifeStep(cfg, sop, l, e))
  {
    hide ExecuteStep, RequestOf, LastNote, InsertFeedback;
  }

  /** Whatever happens to a run, in memory and in the store it keeps its own id and that of its definition. */
  lemma {:induction false} RunKeepsItsName(
    cfg: EngineConfig, sop: SopDefinition, runId: string, data: map<string, string>, es: seq<LifeEvent>)
    ensures Named(runId, sop.sopId, LifeRun(cfg, sop, Created(cfg, sop, runId, data), es))
  {
    if es != [] {
      hide LifeStep, Named;
      var start, init := Created(cfg, sop, runId, data), es[..|es| - 1];
      RunKeepsItsName(cfg, sop, runId, data, init);
      NamedStep(cfg, sop, LifeRun(cfg, sop, start, init), es[|es| - 1], runId, sop.sopId);
    }
  }

  /** A new run has done nothing yet. */
  lemma CreatedIsNew(cfg: EngineConfig, sop: SopDefinition, runId: string, data: map<string, string>)
    ensures var l := Created(cfg, sop, runId, data);
            && l.proc.status == Fresh && l.row == None && l.calls == []
            && l.proc.ctx == RunContext(runId, sop.sopId, PENDING, 0, data, None, None, None, None, [], [])
            && l.saved == (if cfg.store then Some(l.proc.ctx) else None)
  {
  }

  // ----- Calling `run` again -----

  /**
   When calling `run` on a context at hand keeps the steps in order, exactly: before the first run, or when the
   position is past the last step. In every other case it executes again a step that was executed before.
   */
  lemma RunAgainIff(cfg: EngineConfig, sop: SopDefinition, l: Life)
    requires Sound(sop, l) && l.proc.status in {Fresh, Returned}
    ensures Sound(sop, StartLife(cfg, sop, l)) <==> l.proc.ctx.state == PENDING || |sop.steps| <= l.proc.ctx.index
    ensures !Sound(sop, StartLife(cfg, sop, l)) ==>
      && StartLife(cfg, sop, l).proc.status == Going(l.proc.ctx.index)
      && l.proc.ctx.index < |l.calls| && l.calls[l.proc.ctx.index].step == l.proc.ctx.index
  {
  }

  /** For a suspended context it is the approval step that is executed a second time. */
  lemma RunningSuspendedRepeats(cfg: EngineConfig, sop: SopDefinition, l: Life, r: Reply)
    requires Sound(sop, l) && l.proc.status == Returned && l.proc.ctx.state == SUSPENDED
    ensures var l' := LifeRun(cfg, sop, l, [Start] + [Answer(r)]);
            |l'.calls| == |l.calls| + 1 && l'.calls[|l.calls|].step == l.calls[|l.calls| - 1].step
  {
    assert ([Start] + [Answer(r)])[..1] == [Start] && [Start][..0] == [];
    assert LifeRun(cfg, sop, l, [Start]) == StartLife(cfg, sop, l);
  }

  /** The process is lost, the stored context is loaded, and `run` is called on it. */
  function RunStored(cfg: EngineConfig, sop: SopDefinition, l: Life): Life
    requires l.saved.Some?
  {
    StartLife(cfg, sop, l.(proc := Proc(l.saved.value, Returned)))
  }

  /** The context saved after a step still has that step's index: run from there, the step is executed again. */
  lemma StoredRunningRepeats(cfg: EngineConfig, sop: SopDefinition, l: Life, r: Reply)
    requires cfg.store && Sound(sop, l) && AtStep(sop, l.proc) && AnswerLife(cfg, sop, l, r).proc.status.Going?
    ensures var l' := AnswerLife(cfg, sop, l, r);
            && l'.saved.Some? && l'.saved.value.state == RUNNING
            && RunStored(cfg, sop, l').proc.status == l.proc.status
            && l'.calls[|l'.calls| - 1].step == l.proc.status.next
  {
  }

  /** The stored position is that of an executed step, or the beginning, or past the end; and a context is stored as
      PENDING while nothing was executed, and stays so only if the first step then raises. */
  ghost predicate StoreBehind(sop: SopDefinition, l: Life)
  {
    l.saved.Some? ==>
      && (l.saved.value.index < |sop.steps| ==>
            l.saved.value.index < |l.calls| || (l.calls == [] && l.saved.value.index == 0))
      && (l.saved.value.state == PENDING ==> l.calls == [] || (|l.calls| == 1 && l.proc.status == Thrown))
      && (l.calls == [] && sop.steps != [] ==> l.saved.value.state == PENDING)
  }

  lemma StoreBehindStep(cfg: EngineConfig, sop: SopDefinition, l: Life, e: LifeEvent)
    requires Kept(cfg, sop, l) && StoreBehind(sop, l) && Disciplined(l, e)
    ensures StoreBehind(sop, LifeStep(cfg, sop, l, e))
    ensures l.saved.Some? ==> LifeStep(cfg, sop, l, e).saved.Some?
  {
    hide RequestOf, LastNote, InsertFeedback;
  }

  /**
   Wherever a run is when its process is lost, inside the loop or not: calling `run` on the stored context
   starts at a step that was executed before if and only if some step was executed at all and the
   stored position is not past the last step. Nothing recognises such a step and skips it. What the
   store shows of it: any state but PENDING means a step was executed, PENDING that none was or that
   the first and only one raised.
   */
  lemma {:induction false} StoredRunRepeatsIff(
    cfg: EngineConfig, sop: SopDefinition, runId: string, data: map<string, string>, es: seq<LifeEvent>)
    requires cfg.store && DisciplinedRun(cfg, sop, Created(cfg, sop, runId, data), es)
    ensures var l := LifeRun(cfg, sop, Created(cfg, sop, runId, data), es);
            && l.saved.Some? && StoreBehind(sop, l)
            && var p := RunStored(cfg, sop, l).proc;
               (AtStep(sop, p) && exists k :: 0 <= k < |l.calls| && l.calls[k].step == p.status.next)
               <==> l.calls != [] && l.saved.value.index < |sop.steps|
    ensures var l := LifeRun(cfg, sop, Created(cfg, sop, runId, data), es);
            && (l.saved.value.state == PENDING ==> l.calls == [] || (|l.calls| == 1 && l.proc.status == Thrown))
            && (l.saved.value.state != PENDING && sop.steps != [] ==> l.calls != [])
  {
    var start := Created(cfg, sop, runId, data);
    var l := LifeRun(cfg, sop, start, es);
    if es != [] {
      var init := es[..|es| - 1];
      StoredRunRepeatsIff(cfg, sop, runId, data, init);
      ExactlyOnceInOrder(cfg, sop, runId, data, init);
      StoreBehindStep(cfg, sop, LifeRun(cfg, sop, start, init), es[|es| - 1]);
    }
    ExactlyOnceInOrder(cfg, sop, runId, data, es);
    hide LifeRun, Prefix, Placed;
    var p := RunStored(cfg, sop, l).proc;
    if AtStep(sop, p) && p.status.next < |l.calls| {
      assert l.calls[p.status.next].step == p.status.next;
    }
  }

  // ----- The run ends -----

  function Remaining(sop: SopDefinition, l: Life): int
  {
    2 * (|sop.steps| - |l.calls|) + if l.proc.ctx.state in {PENDING, SUSPENDED} then 1 else 0
  }

  /** The events that move a run: everything else leaves position, results and calls as they were. */
  predicate Moves(cfg: EngineConfig, sop: SopDefinition, l: Life, e: LifeEvent)
  {
    var l' := LifeStep(cfg, sop, l, e);
    l'.proc.status != l.proc.status || l'.proc.ctx.state != l.proc.ctx.state || l'.calls != l.calls
  }

  lemma MovesUseUpRemaining(cfg: EngineConfig, sop: SopDefinition, l: Life, e: LifeEvent)
    requires Sound(sop, l) && StoreInStep(cfg, l) && Disciplined(l, e)
    ensures Moves(cfg, sop, l, e) ==> Remaining(sop, LifeStep(cfg, sop, l, e)) < Remaining(sop, l)
    ensures !Moves(cfg, sop, l, e) ==> Remaining(sop, LifeStep(cfg, sop, l, e)) == Remaining(sop, l)
    ensures 0 <= Remaining(sop, LifeStep(cfg, sop, l, e))
  {
    SoundStep(cfg, sop, l, e);
  }

  function MoveCount(cfg: EngineConfig, sop: SopDefinition, l: Life, es: seq<LifeEvent>): nat
  {
    if es == [] then 0
    else
      var init := es[..|es| - 1];
      MoveCount(cfg, sop, l, init) + if Moves(cfg, sop, LifeRun(cfg, sop, l, init), es[|es| - 1]) then 1 else 0
  }

  /** However many callbacks arrive, a run of n steps moves at most 2n + 1 times. */
  lemma {:induction false} RunsAreFinite(
    cfg: EngineConfig, sop: SopDefinition, runId: string, data: map<string, string>, es: seq<LifeEvent>)
    requires DisciplinedRun(cfg, sop, Created(cfg, sop, runId, data), es)
    ensures var l := Created(cfg, sop, runId, data);
            MoveCount(cfg, sop, l, es) + Remaining(sop, LifeRun(cfg, sop, l, es)) <= 2 * |sop.steps| + 1
    ensures MoveCount(cfg, sop, Created(cfg, sop, runId, data), es) <= 2 * |sop.steps| + 1
  {
    hide Moves, LifeStep, Placed, Prefix;
    var l := Created(cfg, sop, runId, data);
    ExactlyOnceInOrder(cfg, sop, runId, data, es);
    if es != [] {
      var init := es[..|es| - 1];
      RunsAreFinite(cfg, sop, runId, data, init);
      ExactlyOnceInOrder(cfg, sop, runId, data, init);
      MovesUseUpRemaining(cfg, sop, LifeRun(cfg, sop, l, init), es[|es| - 1]);
    }
  }

  // ----- Final states -----

  predicate Final(p: Proc)
  {
    p.status == Returned && p.ctx.state in {REJECTED, FAILED, COMPLETED}
  }

  /** A finished run is finished as far as callbacks go: no later decision, reload or answer changes anything. Calling
      `run` on it is another matter, see `RunAgainIff`. */
  lemma {:induction false} FinalIsForever(cfg: EngineConfig, sop: SopDefinition, l: Life, es: seq<LifeEvent>)
    requires Final(l.proc) && StoreInStep(cfg, l) && DisciplinedRun(cfg, sop, l, es)
    ensures LifeRun(cfg, sop, l, es) == l
  {
    if es != [] {
      FinalIsForever(cfg, sop, l, es[..|es| - 1]);
    }
  }

  // ----- Restart transparency -----

  function WithoutReloads(es: seq<LifeEvent>): seq<LifeEvent>
  {
    if es == [] then []
    else WithoutReloads(es[..|es| - 1]) + if es[|es| - 1].Reload? then [] else [es[|es| - 1]]
  }

  /** The same run as far as anyone can tell: same record, same stored context, same gate calls. */
  ghost predicate Alike(a: Life, b: Life)
  {
    && a.row == b.row && a.calls == b.calls && a.saved == b.saved
    && a.proc.status == b.proc.status && SameRun(a.proc.ctx, b.proc.ctx)
  }

  lemma AlikeDecision(cfg: EngineConfig, sop: SopDefinition, a: Life, b: Life, e: LifeEvent)
    requires Alike(a, b) && e.Decide?
    ensures Alike(DecideLife(cfg, sop, a, e), DecideLife(cfg, sop, b, e))
  {
    SameRunSameResume(cfg, sop, a.proc.ctx, b.proc.ctx, a.row, e.decision, e.reason, e.approver);
    hide Resume;
  }

  lemma AlikeStep(cfg: EngineConfig, sop: SopDefinition, a: Life, b: Life, e: LifeEvent)
    requires Alike(a, b) && Sound(sop, a) && Sound(sop, b) && !e.Reload? && Disciplined(a, e)
    ensures Alike(LifeStep(cfg, sop, a, e), LifeStep(cfg, sop, b, e))
  {
    hide Advance, RequestOf, DecideLife, Prefix, InOrder;
    if e.Decide? {
      AlikeDecision(cfg, sop, a, b, e);
    }
  }

  /**
   Losing the process at any normal return and reloading the stored context changes nothing:
   same results, same gate calls, same feedback record, same stored and final context.
   */
  lemma {:induction false} RestartIsTransparent(
    cfg: EngineConfig, sop: SopDefinition, runId: string, data: map<string, string>, es: seq<LifeEvent>)
    requires DisciplinedRun(cfg, sop, Created(cfg, sop, runId, data), es)
    ensures DisciplinedRun(cfg, sop, Created(cfg, sop, runId, data), WithoutReloads(es))
    ensures Alike(LifeRun(cfg, sop, Created(cfg, sop, runId, data), es),
                  LifeRun(cfg, sop, Created(cfg, sop, runId, data), WithoutReloads(es)))
  {
    if es != [] {
      var l, init, e := Created(cfg, sop, runId, data), es[..|es| - 1], es[|es| - 1];
      RestartIsTransparent(cfg, sop, runId, data, init);
      ExactlyOnceInOrder(cfg, sop, runId, data, init);
      var plain := WithoutReloads(init);
      if e.Reload? {
        assert WithoutReloads(es) == plain;
      } else {
        ExactlyOnceInOrder(cfg, sop, runId, data, plain);
        AlikeStep(cfg, sop, LifeRun(cfg, sop, l, init), LifeRun(cfg, sop, l, plain), e);
        assert WithoutReloads(es)[..|plain|] == plain;
      }
    }
  }

  // ----- Approval and audit -----

  function Waits(results: seq<StepResult>): nat
  {
    if results == [] then 0
    else Waits(results[..|results| - 1]) + if results[|results| - 1].note == AwaitingApproval then 1 else 0
  }

  lemma {:induction false} OneWait(results: seq<StepResult>, i: nat)
    requires i < |results| && results[i].note == AwaitingApproval
    ensures 1 <= Waits(results)
  {
    if i < |results| - 1 {
      OneWait(results[..|results| - 1], i);
    }
  }

  lemma {:induction false} TwoWaits(results: seq<StepResult>, i: nat, j: nat)
    requires i < j < |results| && results[i].note == AwaitingApproval && results[j].note == AwaitingApproval
    ensures 2 <= Waits(results)
  {
    if j == |results| - 1 {
      OneWait(results[..j], i);
    } else {
      TwoWaits(results[..|results| - 1], i, j);
    }
  }

  /** The feedback table tells how often the run has waited, and why it stopped. */
  ghost predicate Audited(l: Life)
  {
    var state, waits := l.proc.ctx.state, Waits(l.proc.ctx.results);
    var pending := if state == SUSPENDED then 1 else 0;
    match l.row
    case None => waits == pending && state != REJECTED
    case Some(r) =>
      || (r.decision == "REJECTED" && state == REJECTED && waits == 1)
      || (r.decision == "APPROVED" && state != REJECTED && waits == 1 + pending)
  }

  lemma AuditedAnswer(cfg: EngineConfig, sop: SopDefinition, l: Life, r: Reply)
    requires Kept(cfg, sop, l) && Audited(l) && AtStep(sop, l.proc)
    ensures Audited(AnswerLife(cfg, sop, l, r))
  {
    hide RequestOf, Prefix, InOrder, Lookup, StoreInStep, ExecuteStep;
    var results, after := l.proc.ctx.results, AnswerLife(cfg, sop, l, r).proc.ctx.results;
    assert after == results || after[..|after| - 1] == results;
  }

  lemma AuditedDecision(cfg: EngineConfig, sop: SopDefinition, l: Life, e: LifeEvent)
    requires cfg.feedback && Kept(cfg, sop, l) && Audited(l) && e.Decide?
    ensures Audited(DecideLife(cfg, sop, l, e))
  {
    hide Prefix, InOrder, LastNote, StoreInStep, Waits;
  }

  lemma AuditedStep(cfg: EngineConfig, sop: SopDefinition, l: Life, e: LifeEvent)
    requires cfg.feedback && Sound(sop, l) && StoreInStep(cfg, l) && Audited(l) && Disciplined(l, e)
    ensures Audited(LifeStep(cfg, sop, l, e))
  {
    hide AnswerLife, DecideLife, Prefix, InOrder, Waits;
    if e.Answer? && AtStep(sop, l.proc) {
      AuditedAnswer(cfg, sop, l, e.reply);
    } else if e.Decide? {
      AuditedDecision(cfg, sop, l, e);
    }
  }

  lemma AuditMeans(sop: SopDefinition, l: Life)
    requires Sound(sop, l) && Audited(l)
    ensures forall i :: 0 <= i < |l.proc.ctx.results| && l.proc.ctx.results[i].note == AwaitingApproval
                        && i + 1 < |l.calls| ==>
              l.row.Some? && l.row.value.decision == "APPROVED"
    ensures l.row.Some? && l.row.value.decision == "REJECTED" ==>
              l.proc.ctx.state == REJECTED && |l.calls| == l.proc.ctx.index + 1
  {
    var results := l.proc.ctx.results;
    forall i | 0 <= i < |results| && results[i].note == AwaitingApproval && i + 1 < |l.calls|
      ensures l.row.Some? && l.row.value.decision == "APPROVED"
    {
      OneWait(results, i);
      if l.proc.ctx.state in {SUSPENDED, REJECTED} {
        TwoWaits(results, i, |results| - 1);
      }
    }
  }

  /**
   With the feedback table attached: a step behind a suspended approval is executed only
   under an APPROVED row; a REJECTED row means the run stopped at the approval it rejects; and
   a run that completes has waited for a person at most once.
   */
  lemma {:induction false} ApprovalAgreesWithAudit(
    cfg: EngineConfig, sop: SopDefinition, runId: string, data: map<string, string>, es: seq<LifeEvent>)
    requires cfg.feedback && DisciplinedRun(cfg, sop, Created(cfg, sop, runId, data), es)
    ensures var l := LifeRun(cfg, sop, Created(cfg, sop, runId, data), es);
            && Audited(l)
            && (forall i :: 0 <= i < |l.proc.ctx.results| && l.proc.ctx.results[i].note == AwaitingApproval
                            && i + 1 < |l.calls| ==>
                  l.row.Some? && l.row.value.decision == "APPROVED")
            && (l.row.Some? && l.row.value.decision == "REJECTED" ==>
                  l.proc.ctx.state == REJECTED && |l.calls| == l.proc.ctx.index + 1)
            && (l.proc.ctx.state == COMPLETED ==> Waits(l.proc.ctx.results) <= 1)
  {
    var start := Created(cfg, sop, runId, data);
    var l := LifeRun(cfg, sop, start, es);
    ExactlyOnceInOrder(cfg, sop, runId, data, es);
    if es != [] {
      var init := es[..|es| - 1];
      ApprovalAgreesWithAudit(cfg, sop, runId, data, init);
      ExactlyOnceInOrder(cfg, sop, runId, data, init);
      AuditedStep(cfg, sop, LifeRun(cfg, sop, start, init), es[|es| - 1]);
    }
    AuditMeans(sop, l);
  }

  lemma PassedApproval(gate: bool, sop: SopDefinition, l: Life, rs: seq<Reply>, i: nat)
    requires Sound(sop, l) && AllEarned(gate, sop, l.proc.ctx.results, rs)
    requires i + 1 < |l.calls| && i < |sop.steps| && sop.steps[i].kind == HumanApproval
    ensures i < |l.proc.ctx.results| && i < |rs|
    ensures l.proc.ctx.results[i].note == AwaitingApproval || (sop.steps[i].condition != "" && !rs[i].triggers)
  {
    hide Prefix, InOrder;
    assert Earned(gate, sop.steps[i], rs[i], l.proc.ctx.results[i].note);
  }

  /**
   No step behind an approval is executed unless an APPROVED row is on record for the run, or that approval has a
   condition and the answer it got was that it does not trigger.
   */
  lemma NobodyIsPassedOver(
    cfg: EngineConfig, sop: SopDefinition, runId: string, data: map<string, string>, es: seq<LifeEvent>, i: nat)
    requires cfg.feedback && DisciplinedRun(cfg, sop, Created(cfg, sop, runId, data), es)
    requires var l := LifeRun(cfg, sop, Created(cfg, sop, runId, data), es);
             i + 1 < |l.calls| && i < |sop.steps| && sop.steps[i].kind == HumanApproval
    ensures var start := Created(cfg, sop, runId, data);
            var l, rs := LifeRun(cfg, sop, start, es), RepliesIn(cfg, sop, start, es);
            || (l.row.Some? && l.row.value.decision == "APPROVED")
            || (i < |rs| && sop.steps[i].condition != "" && !rs[i].triggers)
  {
    ExactlyOnceInOrder(cfg, sop, runId, data, es);
    EveryResultIsEarned(cfg, sop, runId, data, es);
    ApprovalAgreesWithAudit(cfg, sop, runId, data, es);
    hide *;
    var start := Created(cfg, sop, runId, data);
    PassedApproval(cfg.gate, sop, LifeRun(cfg, sop, start, es), RepliesIn(cfg, sop, start, es), i);
  }

  /** What an accepted decision leaves: itself on the context, and on record with the approval step as the output
      it was about. */
  lemma DecisionLeaves(cfg: EngineConfig, sop: SopDefinition, l: Life, e: LifeEvent)
    requires Sound(sop, l) && l.proc.status == Returned && l.proc.ctx.state == SUSPENDED && e.Decide?
    requires cfg.feedback ==> l.row.None? && e.decision in {"APPROVED", "REJECTED"}
    ensures var l' := DecideLife(cfg, sop, l, e);
            && l'.proc.ctx.decision == Some(e.decision) && l'.proc.ctx.reason == e.reason
            && l'.proc.ctx.approver == Some(e.approver)
            && (cfg.feedback ==>
                  l'.row == Some(FeedbackRow(e.approver, e.decision, e.reason, Some(AwaitingApproval))))
            && (e.decision == "REJECTED" <==> l'.proc.ctx.state == REJECTED)
            && (e.decision != "REJECTED" && l.proc.ctx.index + 1 < |sop.steps| ==>
                  l'.proc.status == Going(l.proc.ctx.index + 1))
            && l'.proc.ctx.data == l.proc.ctx.data && l'.proc.ctx.results == l.proc.ctx.results
  {
  }

  /** A consequence of one feedback row per run: a run that waits a second time waits forever, whatever
      is decided, and executes nothing more. */
  lemma {:induction false} SecondWaitNeverEnds(cfg: EngineConfig, sop: SopDefinition, l: Life, es: seq<LifeEvent>)
    requires cfg.feedback && l.proc.status == Returned && l.proc.ctx.state == SUSPENDED && l.row.Some?
    requires StoreInStep(cfg, l) && DisciplinedRun(cfg, sop, l, es)
    ensures var l' := LifeRun(cfg, sop, l, es);
            && l'.calls == l.calls && l'.row == l.row && l'.saved == l.saved
            && l'.proc.status == Returned && SameRun(l'.proc.ctx, l.proc.ctx)
  {
    if es != [] {
      SecondWaitNeverEnds(cfg, sop, l, es[..|es| - 1]);
    }
  }

  // ----- Runs left by an exception -----

  /** Only a suspended run without a row can still be decided. */
  ghost predicate Decidable(l: Life)
  {
    l.saved.Some? && l.saved.value.state == SUSPENDED && l.row.None?
  }

  /** While a run is under way its stored context cannot be decided: it is not suspended, or has its row already. */
  ghost predicate ClosedMeanwhile(l: Life)
  {
    l.proc.status.Going? || l.proc.status.Thrown? ==> !Decidable(l)
  }

  lemma ClosedMeanwhileStep(cfg: EngineConfig, sop: SopDefinition, l: Life, e: LifeEvent)
    requires cfg.feedback && Kept(cfg, sop, l) && ClosedMeanwhile(l) && Disciplined(l, e)
    ensures ClosedMeanwhile(LifeStep(cfg, sop, l, e))
  {
    hide RequestOf, LastNote, Prefix, InOrder;
  }

  /** A stored context that cannot be decided stays as it is, whatever is decided on it. */
  lemma {:induction false} RefusedForever(cfg: EngineConfig, sop: SopDefinition, l: Life, es: seq<LifeEvent>)
    requires cfg.feedback && l.proc.status == Returned && l.saved == Some(l.proc.ctx) && !Decidable(l)
    requires DisciplinedRun(cfg, sop, l, es)
    ensures var l' := LifeRun(cfg, sop, l, es);
            && l'.calls == l.calls && l'.row == l.row && l'.saved == l.saved
            && l'.proc.status == Returned && SameRun(l'.proc.ctx, l.proc.ctx)
  {
    if es != [] {
      RefusedForever(cfg, sop, l, es[..|es| - 1]);
    }
  }

  /**
   A run left by an exception, in whatever step, is stranded: no callback on its stored context is ever accepted
   again, and no further step executed, although the store may show it as suspended.
   */
  lemma {:induction false} ThrownIsStranded(
    cfg: EngineConfig, sop: SopDefinition, runId: string, data: map<string, string>, es: seq<LifeEvent>,
    later: seq<LifeEvent>)
    requires cfg.feedback && cfg.store && DisciplinedRun(cfg, sop, Created(cfg, sop, runId, data), es)
    ensures var l := LifeRun(cfg, sop, Created(cfg, sop, runId, data), es);
            && ClosedMeanwhile(l) && l.saved.Some?
            && var loaded := l.(proc := Proc(l.saved.value, Returned));
               l.proc.status.Thrown? && DisciplinedRun(cfg, sop, loaded, later) ==>
                 && LifeRun(cfg, sop, loaded, later).calls == l.calls
                 && LifeRun(cfg, sop, loaded, later).saved == l.saved
                 && LifeRun(cfg, sop, loaded, later).row == l.row
  {
    var start := Created(cfg, sop, runId, data);
    var l := LifeRun(cfg, sop, start, es);
    StoredRunRepeatsIff(cfg, sop, runId, data, es);
    if es != [] {
      var init := es[..|es| - 1];
      ThrownIsStranded(cfg, sop, runId, data, init, []);
      ExactlyOnceInOrder(cfg, sop, runId, data, init);
      ClosedMeanwhileStep(cfg, sop, LifeRun(cfg, sop, start, init), es[|es| - 1]);
    }
    var loaded := l.(proc := Proc(l.saved.value, Returned));
    if l.proc.status.Thrown? && DisciplinedRun(cfg, sop, loaded, later) {
      RefusedForever(cfg, sop, loaded, later);
    }
  }

  /** An approval whose first step raises leaves the store showing a suspended run with its row on record. Exactly
      that step's outcome decides it: only raising, or suspending once more, does. */
  lemma RaisingStepStrands(
    cfg: EngineConfig, sop: SopDefinition, l: Life, reason: Option<string>, approver: string, r: Reply)
    requires cfg.feedback && cfg.store && Kept(cfg, sop, l) && l.proc.status == Returned
    requires l.proc.ctx.state == SUSPENDED && l.row.None? && l.proc.ctx.index + 1 < |sop.steps|
    ensures var l' := LifeStep(cfg, sop, LifeStep(cfg, sop, l, Decide("APPROVED", reason, approver)), Answer(r));
            var out := ExecuteStep(cfg.gate, sop.steps[l.proc.ctx.index + 1], l.proc.ctx.data, r);
            && l'.row.Some? && l'.saved.Some?
            && (l'.saved.value.state == SUSPENDED <==> out.Raised? || (out.Done? && out.note == AwaitingApproval))
            && (out.Raised? ==> l'.saved == l.saved && |l'.calls| == |l.calls| + 1)
  {
    hide RequestOf, LastNote, ExecuteStep;
  }
}
