/**
 Approval callbacks: any number of handlers, each loading its own copy of a suspended run from
 the store, deciding, and executing the remaining steps, all interleaved. With the
 feedback table attached they add up to one handler acting alone.
 */
module SopCallbacks {
  import opened Wrappers
  import opened SopSchema
  import opened SopEngines
  import opened SopRuns

  /**
   The shared stores and the handlers' own copies. `winner` and `history` only record who got a
   decision accepted, and what that handler has done since.
   */
  datatype Hub = Hub(
    saved: Option<RunContext>, row: Option<FeedbackRow>, calls: seq<Call>,
    handlers: map<nat, Proc>, winner: Option<nat>, history: seq<LifeEvent>)

  datatype HubEvent =
    | Load(handler: nat)
    | DecideBy(handler: nat, decision: string, reason: Option<string>, approver: string)
    | AnswerTo(handler: nat, reply: Reply)

  function Waiting(l: Life): Hub
  {
    Hub(l.saved, l.row, l.calls, map[], None, [])
  }

  function HubDecide(cfg: EngineConfig, sop: SopDefinition, h: Hub, e: HubEvent): Hub
    requires e.DecideBy? && e.handler in h.handlers
  {
    var p := h.handlers[e.handler];
    match Resume(cfg, sop, p.ctx, h.row, e.decision, e.reason, e.approver)
    case Raises(ctx) => h.(handlers := h.handlers[e.handler := p.(ctx := ctx)])
    case Accepted(p', row, saves) =>
      Hub(if saves then SaveAfter(cfg, p', h.saved) else h.saved, row, h.calls,
          h.handlers[e.handler := p'], Some(e.handler), h.history + [Decide(e.decision, e.reason, e.approver)])
  }

  function HubAnswer(cfg: EngineConfig, sop: SopDefinition, h: Hub, e: HubEvent): Hub
    requires e.AnswerTo? && e.handler in h.handlers && AtStep(sop, h.handlers[e.handler])
  {
    var p := h.handlers[e.handler];
    var p' := Advance(cfg, sop, p.ctx, p.status.next, e.reply);
    Hub(SaveAfter(cfg, p', h.saved), h.row, h.calls + [NextCall(cfg, sop, p)],
        h.handlers[e.handler := p'], h.winner, h.history + [Answer(e.reply)])
  }

  function HubStep(cfg: EngineConfig, sop: SopDefinition, h: Hub, e: HubEvent): Hub
  {
    match e
    case Load(a) =>
      if a in h.handlers || h.saved.None? then h
      else h.(handlers := h.handlers[a := Proc(h.saved.value, Returned)])
    case DecideBy(a, _, _, _) => if a in h.handlers then HubDecide(cfg, sop, h, e) else h
    case AnswerTo(a, _) => if a in h.handlers && AtStep(sop, h.handlers[a]) then HubAnswer(cfg, sop, h, e) else h
  }

  function HubRun(cfg: EngineConfig, sop: SopDefinition, h: Hub, es: seq<HubEvent>): Hub
  {
    if es == [] then h else HubStep(cfg, sop, HubRun(cfg, sop, h, es[..|es| - 1]), es[|es| - 1])
  }

  /** The suspended run the callbacks are about. */
  ghost predicate Suspended(cfg: EngineConfig, sop: SopDefinition, l: Life)
  {
    && Sound(sop, l) && StoreInStep(cfg, l) && cfg.store
    && l.proc.status == Returned && l.proc.ctx.state == SUSPENDED && l.row == None
  }

  /** The hub against the life of the winner alone. */
  ghost predicate Linear(cfg: EngineConfig, sop: SopDefinition, h: Hub, l: Life)
  {
    && Sound(sop, l) && StoreInStep(cfg, l)
    && h.saved == l.saved && h.row == l.row && h.calls == l.calls
    && if h.winner.None? then
         && h.history == [] && l.row == None && l.proc.status == Returned && l.proc.ctx.state == SUSPENDED
         && forall a :: a in h.handlers ==> h.handlers[a].status == Returned && SameRun(h.handlers[a].ctx, l.proc.ctx)
       else
         && h.history != [] && l.row.Some? && h.winner.value in h.handlers
         && h.handlers[h.winner.value].status == l.proc.status
         && SameRun(h.handlers[h.winner.value].ctx, l.proc.ctx)
         && forall a :: a in h.handlers && a != h.winner.value ==> h.handlers[a].status == Returned
  }

  /** The event of the winner's life a hub event amounts to, if any. */
  function Projected(cfg: EngineConfig, sop: SopDefinition, h: Hub, e: HubEvent): Option<LifeEvent>
  {
    match e
    case Load(_) => None
    case DecideBy(a, decision, reason, approver) =>
      if a in h.handlers && Resume(cfg, sop, h.handlers[a].ctx, h.row, decision, reason, approver).Accepted? then
        Some(Decide(decision, reason, approver))
      else None
    case AnswerTo(a, r) => if a in h.handlers && AtStep(sop, h.handlers[a]) then Some(Answer(r)) else None
  }

  /** One decision, then only steps. */
  ghost predicate OneHandler(history: seq<LifeEvent>)
  {
    forall i :: 0 <= i < |history| ==> if i == 0 then history[i].Decide? else history[i].Answer?
  }

  lemma LinearRefusal(cfg: EngineConfig, sop: SopDefinition, h: Hub, l: Life, e: HubEvent)
    requires Linear(cfg, sop, h, l) && e.DecideBy? && e.handler in h.handlers && Projected(cfg, sop, h, e).None?
    ensures HubDecide(cfg, sop, h, e).history == h.history && Linear(cfg, sop, HubDecide(cfg, sop, h, e), l)
  {
    hide Sound, StoreInStep, BeginRun, InsertFeedback;
  }

  lemma AcceptedMeansFirst(cfg: EngineConfig, sop: SopDefinition, h: Hub, l: Life, e: HubEvent)
    requires cfg.feedback && Linear(cfg, sop, h, l)
    requires e.DecideBy? && e.handler in h.handlers && Projected(cfg, sop, h, e).Some?
    ensures h.winner.None? && SameRun(h.handlers[e.handler].ctx, l.proc.ctx)
    ensures DecideLife(cfg, sop, l, Decide(e.decision, e.reason, e.approver)).row.Some?
  {
    hide Sound, StoreInStep, BeginRun;
  }

  lemma LinearAcceptance(cfg: EngineConfig, sop: SopDefinition, h: Hub, l: Life, e: HubEvent)
    requires cfg.feedback && cfg.store && Linear(cfg, sop, h, l)
    requires e.DecideBy? && e.handler in h.handlers && Projected(cfg, sop, h, e).Some?
    ensures var h', y := HubDecide(cfg, sop, h, e), Decide(e.decision, e.reason, e.approver);
            h.winner.None? && h'.history == [y] && Linear(cfg, sop, h', DecideLife(cfg, sop, l, y))
  {
    hide Sound, StoreInStep, BeginRun;
    var y := Decide(e.decision, e.reason, e.approver);
    SoundStep(cfg, sop, l, y);
    AcceptedMeansFirst(cfg, sop, h, l, e);
    SameRunSameResume(cfg, sop, h.handlers[e.handler].ctx, l.proc.ctx, h.row, e.decision, e.reason, e.approver);
    hide Resume;
  }

  lemma LinearAnswer(cfg: EngineConfig, sop: SopDefinition, h: Hub, l: Life, e: HubEvent)
    requires cfg.feedback && cfg.store && Linear(cfg, sop, h, l)
    requires e.AnswerTo? && e.handler in h.handlers && AtStep(sop, h.handlers[e.handler])
    ensures var h', y := HubStep(cfg, sop, h, e), Answer(e.reply);
            h'.history == h.history + [y] && Linear(cfg, sop, h', LifeStep(cfg, sop, l, y))
  {
    hide Advance, RequestOf, Prefix, InOrder;
    SoundStep(cfg, sop, l, Answer(e.reply));
  }

  lemma WaitingIsLinear(cfg: EngineConfig, sop: SopDefinition, l: Life)
    requires Suspended(cfg, sop, l)
    ensures Linear(cfg, sop, Waiting(l), l)
  {
  }

  lemma LinearOrder(cfg: EngineConfig, sop: SopDefinition, h: Hub, l: Life)
    requires Linear(cfg, sop, h, l)
    ensures InOrder(sop, h.calls)
  {
  }

  lemma AnsweringIsWinning(cfg: EngineConfig, sop: SopDefinition, h: Hub, l: Life, e: HubEvent)
    requires Linear(cfg, sop, h, l) && e.AnswerTo? && e.handler in h.handlers && AtStep(sop, h.handlers[e.handler])
    ensures h.winner.Some? && h.history != []
  {
  }

  lemma LinearLoad(cfg: EngineConfig, sop: SopDefinition, h: Hub, l: Life, e: HubEvent)
    requires cfg.store && Linear(cfg, sop, h, l)
    requires e.Load? || (Projected(cfg, sop, h, e).None? && !(e.DecideBy? && e.handler in h.handlers))
    ensures HubStep(cfg, sop, h, e).history == h.history && Linear(cfg, sop, HubStep(cfg, sop, h, e), l)
  {
    hide Sound;
  }

  /** Every hub event is an event of the winner's life, or invisible. */
  lemma LinearStep(cfg: EngineConfig, sop: SopDefinition, h: Hub, l: Life, e: HubEvent)
    requires cfg.feedback && cfg.store && Linear(cfg, sop, h, l)
    ensures var h', x := HubStep(cfg, sop, h, e), Projected(cfg, sop, h, e);
            match x
            case None => h'.history == h.history && Linear(cfg, sop, h', l)
            case Some(y) =>
              && h'.history == h.history + [y] && Disciplined(l, y)
                 && (if h.history == [] then y.Decide? else y.Answer?)
              && Linear(cfg, sop, h', LifeStep(cfg, sop, l, y))
  {
    hide HubDecide, HubAnswer, Sound, StoreInStep, DecideLife, AnswerLife;
    var x := Projected(cfg, sop, h, e);
    if x.None? {
      if e.DecideBy? && e.handler in h.handlers {
        LinearRefusal(cfg, sop, h, l, e);
      } else {
        LinearLoad(cfg, sop, h, l, e);
      }
    } else if e.DecideBy? {
      LinearAcceptance(cfg, sop, h, l, e);
    } else {
      LinearAnswer(cfg, sop, h, l, e);
      assert h.history != [] by { AnsweringIsWinning(cfg, sop, h, l, e); }
    }
  }

  /**
   First decision wins: whatever the interleaving of duplicate or competing callbacks, the stored
   context, the feedback row and the executed steps are those of a single handler that was
   alone, the one whose decision was accepted; at most one ever is.
   */
  lemma {:induction false} FirstDecisionWins(
    cfg: EngineConfig, sop: SopDefinition, l: Life, es: seq<HubEvent>)
    requires cfg.feedback && Suspended(cfg, sop, l)
    ensures var h := HubRun(cfg, sop, Waiting(l), es);
            && DisciplinedRun(cfg, sop, l, h.history)
            && Linear(cfg, sop, h, LifeRun(cfg, sop, l, h.history))
            && OneHandler(h.history)
            && InOrder(sop, h.calls)
  {
    hide Linear, Sound, StoreInStep, Projected, HubStep, LifeStep, InOrder;
    if es == [] {
      WaitingIsLinear(cfg, sop, l);
    } else {
      var init, e := es[..|es| - 1], es[|es| - 1];
      FirstDecisionWins(cfg, sop, l, init);
      var h := HubRun(cfg, sop, Waiting(l), init);
      var x := Projected(cfg, sop, h, e);
      LinearStep(cfg, sop, h, LifeRun(cfg, sop, l, h.history), e);
      if x.Some? {
        assert (h.history + [x.value])[..|h.history|] == h.history;
      }
    }
    var end := HubRun(cfg, sop, Waiting(l), es);
    LinearOrder(cfg, sop, end, LifeRun(cfg, sop, l, end.history));
  }

  lemma {:induction false} WinnerKeepsRow(cfg: EngineConfig, sop: SopDefinition, l: Life, history: seq<LifeEvent>)
    requires cfg.feedback && Suspended(cfg, sop, l)
    requires OneHandler(history)
    ensures var r := LifeRun(cfg, sop, l, history);
            && (history == [] ==> r == l)
            && (r.row.Some? ==> && history != [] && r.row.value.decision == history[0].decision
                                && r.row.value.reviewer == history[0].approver)
            && (r.row.Some? && r.row.value.decision == "REJECTED" ==>
                  && r.saved.Some? && r.saved.value.state == REJECTED && r.calls == l.calls
                  && r.proc.status == Returned)
  {
    if history != [] {
      WinnerKeepsRow(cfg, sop, l, history[..|history| - 1]);
    }
  }

  /** The persisted outcome is the recorded decision's: a rejected run is stored as rejected with nothing
      executed after the approval, whatever the other callbacks said or still say. */
  lemma RejectionIsFinal(cfg: EngineConfig, sop: SopDefinition, l: Life, es: seq<HubEvent>)
    requires cfg.feedback && Suspended(cfg, sop, l)
    ensures var h := HubRun(cfg, sop, Waiting(l), es);
            && (h.row.None? ==> h.saved == l.saved && h.calls == l.calls)
            && (h.row.Some? ==> h.history != [] && h.history[0].Decide? && h.row.value.decision == h.history[0].decision
                                && h.row.value.reviewer == h.history[0].approver)
            && (h.row.Some? && h.row.value.decision == "REJECTED" ==>
                  h.saved.Some? && h.saved.value.state == REJECTED && h.calls == l.calls)
  {
    FirstDecisionWins(cfg, sop, l, es);
    var h := HubRun(cfg, sop, Waiting(l), es);
    WinnerKeepsRow(cfg, sop, l, h.history);
  }

  lemma HubSnoc(cfg: EngineConfig, sop: SopDefinition, h: Hub, es: seq<HubEvent>, e: HubEvent)
    ensures HubRun(cfg, sop, h, es + [e]) == HubStep(cfg, sop, HubRun(cfg, sop, h, es), e)
  {
    assert (es + [e])[..|es|] == es;
  }

  lemma BothLoad(cfg: EngineConfig, sop: SopDefinition, l: Life)
    requires Suspended(cfg, sop, l)
    ensures var h := HubStep(cfg, sop, HubStep(cfg, sop, Waiting(l), Load(0)), Load(1));
            && h.calls == l.calls && 0 in h.handlers && 1 in h.handlers
            && forall a :: a in {0, 1} ==>
                 && h.handlers[a].status == Returned && h.handlers[a].ctx.state == SUSPENDED
                 && h.handlers[a].ctx.index == l.proc.ctx.index
  {
    hide Sound;
  }

  lemma OneApproves(cfg: EngineConfig, sop: SopDefinition, h: Hub, a: nat, who: string)
    requires !cfg.feedback && a in h.handlers && h.handlers[a].ctx.state == SUSPENDED
    requires h.handlers[a].ctx.index + 1 < |sop.steps|
    ensures var h' := HubStep(cfg, sop, h, DecideBy(a, "APPROVED", None, who));
            && h'.calls == h.calls && h'.handlers.Keys == h.handlers.Keys
            && h'.handlers[a].status == Going(h.handlers[a].ctx.index + 1)
            && forall b :: b in h.handlers && b != a ==> h'.handlers[b] == h.handlers[b]
  {
    hide LastNote;
  }

  lemma OneAnswers(cfg: EngineConfig, sop: SopDefinition, h: Hub, a: nat, r: Reply)
    requires a in h.handlers && AtStep(sop, h.handlers[a])
    ensures var h' := HubStep(cfg, sop, h, AnswerTo(a, r));
            && |h'.calls| == |h.calls| + 1 && h.calls <= h'.calls
            && h'.calls[|h.calls|].step == h.handlers[a].status.next
            && h'.handlers.Keys == h.handlers.Keys
            && forall b :: b in h.handlers && b != a ==> h'.handlers[b] == h.handlers[b]
  {
    hide Advance, RequestOf;
  }

  /** Two callbacks that both loaded the run before either was decided, both approving. */
  function TwoApprovals(who: string, r: Reply): seq<HubEvent>
  {
    [] + [Load(0)] + [Load(1)] + [DecideBy(0, "APPROVED", None, who)] + [DecideBy(1, "APPROVED", None, who)]
    + [AnswerTo(0, r)] + [AnswerTo(1, r)]
  }

  lemma SixSteps(
    cfg: EngineConfig, sop: SopDefinition, h: Hub, a: HubEvent, b: HubEvent, c: HubEvent, d: HubEvent, e: HubEvent,
    f: HubEvent)
    ensures HubRun(cfg, sop, h, [] + [a] + [b] + [c] + [d] + [e] + [f]) ==
      var h2 := HubStep(cfg, sop, HubStep(cfg, sop, h, a), b);
      var h4 := HubStep(cfg, sop, HubStep(cfg, sop, h2, c), d);
      HubStep(cfg, sop, HubStep(cfg, sop, h4, e), f)
  {
    assert HubRun(cfg, sop, h, []) == h;
    hide HubStep, HubRun;
    HubSnoc(cfg, sop, h, [], a);
    HubSnoc(cfg, sop, h, [] + [a], b);
    HubSnoc(cfg, sop, h, [] + [a] + [b], c);
    HubSnoc(cfg, sop, h, [] + [a] + [b] + [c], d);
    HubSnoc(cfg, sop, h, [] + [a] + [b] + [c] + [d], e);
    HubSnoc(cfg, sop, h, [] + [a] + [b] + [c] + [d] + [e], f);
  }

  /** The feedback table is needed: without it two approvals that loaded the run before either resumed it
      both execute the step after the approval. */
  lemma WithoutFeedbackTwoCallbacksRepeat(
    cfg: EngineConfig, sop: SopDefinition, l: Life, r: Reply, who: string)
    requires !cfg.feedback && Suspended(cfg, sop, l) && l.proc.ctx.index + 1 < |sop.steps|
    ensures var h := HubRun(cfg, sop, Waiting(l), TwoApprovals(who, r));
            && |h.calls| == |l.calls| + 2
            && h.calls[|l.calls|].step == h.calls[|l.calls| + 1].step == l.proc.ctx.index + 1
  {
    var d0, d1 := DecideBy(0, "APPROVED", None, who), DecideBy(1, "APPROVED", None, who);
    SixSteps(cfg, sop, Waiting(l), Load(0), Load(1), d0, d1, AnswerTo(0, r), AnswerTo(1, r));
    BothLoad(cfg, sop, l);
    hide HubStep, HubRun, Suspended, Waiting;
    var h2 := HubStep(cfg, sop, HubStep(cfg, sop, Waiting(l), Load(0)), Load(1));
    OneApproves(cfg, sop, h2, 0, who);
    var h3 := HubStep(cfg, sop, h2, d0);
    OneApproves(cfg, sop, h3, 1, who);
    var h4 := HubStep(cfg, sop, h3, d1);
    OneAnswers(cfg, sop, h4, 0, r);
    OneAnswers(cfg, sop, HubStep(cfg, sop, h4, AnswerTo(0, r)), 1, r);
  }

  /** The two together: with a step left after the approval, no interleaving of callbacks repeats or skips a step if and
      only if the feedback table is attached. */
  lemma OnceIffFeedback(cfg: EngineConfig, sop: SopDefinition, l: Life)
    requires Suspended(cfg, sop, l) && l.proc.ctx.index + 1 < |sop.steps|
    ensures (forall es :: InOrder(sop, HubRun(cfg, sop, Waiting(l), es).calls)) <==> cfg.feedback
  {
    hide Suspended, HubRun, Waiting;
    if cfg.feedback {
      forall es ensures InOrder(sop, HubRun(cfg, sop, Waiting(l), es).calls) {
        FirstDecisionWins(cfg, sop, l, es);
      }
    } else {
      var r := Reply(CheckRaised, false, false, None, false);
      WithoutFeedbackTwoCallbacksRepeat(cfg, sop, l, r, "");
      assert !InOrder(sop, HubRun(cfg, sop, Waiting(l), TwoApprovals("", r)).calls);
    }
  }
}
