/**
 Racing handlers and the write gate composed: any number of approval handlers on their own copies of a suspended
 run, each taking its steps at the gate, while anybody else uses the gate too.
 */
module SopRacing {
  import opened Wrappers
  import opened Nonce
  import opened WriteGates
  import opened GateRuns
  import opened SopSchema
  import opened SopEngines
  import opened SopRuns
  import opened SopCallbacks
  import opened SopGate
  import Cypher

  /** `waiting` holds the job of each handler whose write is on its way to the database. */
  datatype Race = Race(hub: Hub, sys: Sys, waiting: map<nat, nat>, log: seq<Act>)

  datatype RaceEvent =
    | Elsewhere(gate: Event)
    | Callback(call: HubEvent)
    | StepOf(handler: nat, time: real, wall: real, at: Reads, reply: Reply)
    | FinishOf(handler: nat, order: seq<Cypher.Triple>, db: Cypher.Database)

  /** The composition as one handler sees it: its own copy of the run, and the shared stores and gate. */
  function ViewOf(r: Race, a: nat): Joint
    requires a in r.hub.handlers
  {
    Joint(Life(r.hub.handlers[a], r.hub.saved, r.hub.row, r.hub.calls), r.sys,
          if a in r.waiting then Some(r.waiting[a]) else None, r.log)
  }

  /** A handler goes on as an engine with a run of its own does, and leaves its effect in what is shared. */
  function Act(
    cfg: GateConfig, upper: char -> string, ecfg: EngineConfig, sop: SopDefinition, r: Race, a: nat,
    e: JointEvent): Race
    requires a in r.hub.handlers
  {
    var v := ViewOf(r, a);
    var v' := JointStep(cfg, upper, ecfg, sop, v, e);
    var answer := EngineAnswer(cfg, sop, v, e, v'.sys);
    Race(if answer.Some? then HubStep(ecfg, sop, r.hub, AnswerTo(a, answer.value)) else r.hub,
         v'.sys, if v'.waiting.Some? then r.waiting[a := v'.waiting.value] else r.waiting - {a}, v'.log)
  }

  /** The handler's event as its own engine sees it. */
  function OwnEvent(e: RaceEvent): JointEvent
    requires e.StepOf? || e.FinishOf?
  {
    if e.StepOf? then DoStep(e.time, e.wall, e.at, e.reply) else Finish(e.order, e.db)
  }

  function RaceStep(
    cfg: GateConfig, upper: char -> string, ecfg: EngineConfig, sop: SopDefinition, r: Race, e: RaceEvent): Race
  {
    match e
    case Elsewhere(g) => r.(sys := Step(cfg, upper, r.sys, g))
    case Callback(call) => if call.AnswerTo? then r else r.(hub := HubStep(ecfg, sop, r.hub, call))
    case _ => if e.handler in r.hub.handlers then Act(cfg, upper, ecfg, sop, r, e.handler, OwnEvent(e)) else r
  }

  function RaceRun(
    cfg: GateConfig, upper: char -> string, ecfg: EngineConfig, sop: SopDefinition, r: Race, es: seq<RaceEvent>): Race
  {
    if es == [] then r
    else RaceStep(cfg, upper, ecfg, sop, RaceRun(cfg, upper, ecfg, sop, r, es[..|es| - 1]), es[|es| - 1])
  }

  /** What `Lawful` asks of one run's events, for each handler; decisions may come at any time. */
  ghost predicate Fair(cfg: GateConfig, skew: real, sop: SopDefinition, r: Race, e: RaceEvent)
  {
    match e
    case Elsewhere(g) =>
      && Legal(cfg, skew, r.sys, g) && Mature(cfg, skew, r.sys, g)
      && (g.Commit? ==> forall a :: a in r.waiting ==> r.waiting[a] != g.job)
    case Callback(_) => true
    case _ => e.handler in r.hub.handlers ==> Lawful(cfg, skew, sop, ViewOf(r, e.handler), OwnEvent(e))
  }

  ghost predicate FairRace(
    cfg: GateConfig, upper: char -> string, skew: real, ecfg: EngineConfig, sop: SopDefinition, r: Race,
    es: seq<RaceEvent>)
  {
    es != [] ==>
      var init := es[..|es| - 1];
      && FairRace(cfg, upper, skew, ecfg, sop, r, init)
      && Fair(cfg, skew, sop, RaceRun(cfg, upper, ecfg, sop, r, init), es[|es| - 1])
  }

  /** The race against the winner's run alone at the gate. */
  ghost predicate Led(
    cfg: GateConfig, skew: real, ecfg: EngineConfig, sop: SopDefinition, initial: map<string, string>, r: Race,
    j: Joint)
  {
    && Linear(ecfg, sop, r.hub, j.life) && Joined(cfg, skew, ecfg, sop, initial, j)
    && j.sys == r.sys && j.log == r.log
    && (forall a :: a in r.waiting ==> r.hub.winner == Some(a))
    && j.waiting == (if r.hub.winner.Some? && r.hub.winner.value in r.waiting then Some(r.waiting[r.hub.winner.value])
                     else None)
  }

  /** Only the winner has a step to take or a write to wait for, and its view is the lone run. */
  lemma ActiveIsLone(
    cfg: GateConfig, skew: real, ecfg: EngineConfig, sop: SopDefinition, initial: map<string, string>,
    r: Race, j: Joint, a: nat)
    requires Led(cfg, skew, ecfg, sop, initial, r, j) && a in r.hub.handlers
    requires AtStep(sop, r.hub.handlers[a]) || a in r.waiting
    ensures r.hub.winner == Some(a) && ViewOf(r, a) == j && AtStep(sop, r.hub.handlers[a])
  {
    hide Sourced, Guarded, Coherent, DataInStep, AllWritesLogged, Prefix, InOrder;
  }

  lemma IdleAct(
    cfg: GateConfig, upper: char -> string, ecfg: EngineConfig, sop: SopDefinition, r: Race, a: nat, e: JointEvent)
    requires a in r.hub.handlers
    requires (e.Finish? && a !in r.waiting) || (e.DoStep? && !CanStep(sop, ViewOf(r, a)))
    ensures Act(cfg, upper, ecfg, sop, r, a, e) == r
  {
    hide Step, LifeStep, HubStep, Noted;
    assert r.log + [] == r.log;
    assert JointStep(cfg, upper, ecfg, sop, ViewOf(r, a), e) == ViewOf(r, a) by {
      IdleJoined(cfg, upper, 0.0, ecfg, sop, map[], ViewOf(r, a), e);
    }
    assert a !in r.waiting ==> r.waiting - {a} == r.waiting;
    assert a in r.waiting ==> r.waiting[a := r.waiting[a]] == r.waiting;
  }

  /** How a step moves the lone run's life: by the answer it gets, if any. */
  lemma StepAnswers(
    cfg: GateConfig, upper: char -> string, ecfg: EngineConfig, sop: SopDefinition, j: Joint, e: JointEvent)
    requires e.DoStep? || e.Finish?
    ensures var j' := JointStep(cfg, upper, ecfg, sop, j, e);
            var answer := EngineAnswer(cfg, sop, j, e, j'.sys);
            j'.life == if answer.Some? then LifeStep(ecfg, sop, j.life, Answer(answer.value)) else j.life
  {
    hide Step, LifeStep, Noted, RequestOf;
  }

  lemma WinnerStays(ecfg: EngineConfig, sop: SopDefinition, h: Hub, e: HubEvent)
    requires e.AnswerTo?
    ensures HubStep(ecfg, sop, h, e).winner == h.winner
  {
  }

  lemma LedAfter(
    cfg: GateConfig, skew: real, ecfg: EngineConfig, sop: SopDefinition, initial: map<string, string>,
    r: Race, j: Joint, a: nat, hub: Hub, j': Joint)
    requires Led(cfg, skew, ecfg, sop, initial, r, j) && r.hub.winner == hub.winner == Some(a)
    requires Linear(ecfg, sop, hub, j'.life) && Joined(cfg, skew, ecfg, sop, initial, j')
    ensures var waiting := if j'.waiting.Some? then r.waiting[a := j'.waiting.value] else r.waiting - {a};
            Led(cfg, skew, ecfg, sop, initial, Race(hub, j'.sys, waiting, j'.log), j')
  {
    hide Linear, Joined;
  }

  /** The shared engine state follows the lone run's life. */
  lemma HubFollows(
    cfg: GateConfig, upper: char -> string, ecfg: EngineConfig, sop: SopDefinition, h: Hub, j: Joint, a: nat,
    e: JointEvent)
    requires ecfg.feedback && ecfg.store && Linear(ecfg, sop, h, j.life) && h.winner == Some(a)
    requires a in h.handlers && AtStep(sop, h.handlers[a]) && (e.DoStep? || e.Finish?)
    ensures var j' := JointStep(cfg, upper, ecfg, sop, j, e);
            var answer := EngineAnswer(cfg, sop, j, e, j'.sys);
            var hub := if answer.Some? then HubStep(ecfg, sop, h, AnswerTo(a, answer.value)) else h;
            Linear(ecfg, sop, hub, j'.life) && hub.winner == Some(a)
  {
    hide Linear, JointStep, EngineAnswer, LifeStep, HubStep;
    StepAnswers(cfg, upper, ecfg, sop, j, e);
    var answer := EngineAnswer(cfg, sop, j, e, JointStep(cfg, upper, ecfg, sop, j, e).sys);
    if answer.Some? {
      LinearAnswer(ecfg, sop, h, j.life, AnswerTo(a, answer.value));
      WinnerStays(ecfg, sop, h, AnswerTo(a, answer.value));
    }
  }

  lemma ActLed(
    cfg: GateConfig, upper: char -> string, skew: real, ecfg: EngineConfig, sop: SopDefinition,
    initial: map<string, string>, r: Race, j: Joint, a: nat, e: JointEvent)
    requires cfg.crypto.Ideal() && cfg.forgets && 0.0 <= skew && ecfg.gate && ecfg.feedback && ecfg.store
    requires Led(cfg, skew, ecfg, sop, initial, r, j) && a in r.hub.handlers
    requires AtStep(sop, r.hub.handlers[a]) && (e.DoStep? || e.Finish?)
    requires Lawful(cfg, skew, sop, ViewOf(r, a), e)
    ensures Led(cfg, skew, ecfg, sop, initial,
                Act(cfg, upper, ecfg, sop, r, a, e), JointStep(cfg, upper, ecfg, sop, j, e))
  {
    ActiveIsLone(cfg, skew, ecfg, sop, initial, r, j, a);
    hide Linear, Joined, Lawful, JointStep, EngineAnswer, HubStep, Crypto.Ideal, AtStep;
    JoinedStep(cfg, upper, skew, ecfg, sop, initial, j, e);
    HubFollows(cfg, upper, ecfg, sop, r.hub, j, a, e);
    hide Led, ViewOf;
    var r' := Act(cfg, upper, ecfg, sop, r, a, e);
    LedAfter(cfg, skew, ecfg, sop, initial, r, j, a, r'.hub, JointStep(cfg, upper, ecfg, sop, j, e));
  }

  lemma ElsewhereLed(
    cfg: GateConfig, upper: char -> string, skew: real, ecfg: EngineConfig, sop: SopDefinition,
    initial: map<string, string>, r: Race, j: Joint, g: Event)
    requires cfg.crypto.Ideal() && cfg.forgets && 0.0 <= skew && ecfg.gate
    requires Led(cfg, skew, ecfg, sop, initial, r, j) && Fair(cfg, skew, sop, r, Elsewhere(g))
    ensures Led(cfg, skew, ecfg, sop, initial, r.(sys := Step(cfg, upper, r.sys, g)),
                JointStep(cfg, upper, ecfg, sop, j, Others(g)))
  {
    hide Linear, Joined, Step, Crypto.Ideal, Legal, Mature;
    assert j.log + [] == j.log;
    JoinedStep(cfg, upper, skew, ecfg, sop, initial, j, Others(g));
  }

  lemma DecidingIsDeciding(ecfg: EngineConfig, sop: SopDefinition, l: Life, y: LifeEvent)
    requires y.Decide?
    ensures LifeStep(ecfg, sop, l, y) == DecideLife(ecfg, sop, l, y)
  {
  }

  /** A decision that is accepted is the first; it makes its handler the winner. */
  lemma DecisionLed(
    cfg: GateConfig, upper: char -> string, skew: real, ecfg: EngineConfig, sop: SopDefinition,
    initial: map<string, string>, r: Race, j: Joint, e: HubEvent)
    requires cfg.crypto.Ideal() && cfg.forgets && 0.0 <= skew && ecfg.gate && ecfg.feedback && ecfg.store
    requires Led(cfg, skew, ecfg, sop, initial, r, j)
    requires e.DecideBy? && e.handler in r.hub.handlers && Projected(ecfg, sop, r.hub, e).Some?
    ensures var y := Decide(e.decision, e.reason, e.approver);
            Led(cfg, skew, ecfg, sop, initial, r.(hub := HubStep(ecfg, sop, r.hub, e)),
                JointStep(cfg, upper, ecfg, sop, j, Caller(y)))
  {
    hide Linear, Joined, Crypto.Ideal, Resume, LifeStep, HubDecide;
    var y := Decide(e.decision, e.reason, e.approver);
    LinearAcceptance(ecfg, sop, r.hub, j.life, e);
    DecidingIsDeciding(ecfg, sop, j.life, y);
    assert j.log + [] == j.log;
    JoinedStep(cfg, upper, skew, ecfg, sop, initial, j, Caller(y));
  }

  /** Every other callback leaves the lone run as it is. */
  lemma CallbackLed(
    cfg: GateConfig, skew: real, ecfg: EngineConfig, sop: SopDefinition, initial: map<string, string>,
    r: Race, j: Joint, e: HubEvent)
    requires ecfg.feedback && ecfg.store && Led(cfg, skew, ecfg, sop, initial, r, j)
    requires !e.AnswerTo? && Projected(ecfg, sop, r.hub, e).None?
    ensures Led(cfg, skew, ecfg, sop, initial, r.(hub := HubStep(ecfg, sop, r.hub, e)), j)
  {
    hide Linear, Joined, Resume;
    LinearStep(ecfg, sop, r.hub, j.life, e);
  }

  lemma AcceptedDecides(ecfg: EngineConfig, sop: SopDefinition, h: Hub, e: HubEvent)
    requires !e.AnswerTo? && Projected(ecfg, sop, h, e).Some?
    ensures e.DecideBy? && e.handler in h.handlers
  {
  }

  /** A handler's own event: idle, or the lone run's. */
  lemma OwnLed(
    cfg: GateConfig, upper: char -> string, skew: real, ecfg: EngineConfig, sop: SopDefinition,
    initial: map<string, string>, r: Race, j: Joint, a: nat, e: JointEvent) returns (j': Joint)
    requires cfg.crypto.Ideal() && cfg.forgets && 0.0 <= skew && ecfg.gate && ecfg.feedback && ecfg.store
    requires Led(cfg, skew, ecfg, sop, initial, r, j) && a in r.hub.handlers && (e.DoStep? || e.Finish?)
    requires Lawful(cfg, skew, sop, ViewOf(r, a), e)
    ensures Led(cfg, skew, ecfg, sop, initial, Act(cfg, upper, ecfg, sop, r, a, e), j')
  {
    hide Led, Lawful, Act, Crypto.Ideal, JointStep;
    if (e.Finish? && a !in r.waiting) || (e.DoStep? && !CanStep(sop, ViewOf(r, a))) {
      IdleAct(cfg, upper, ecfg, sop, r, a, e);
      j' := j;
    } else {
      ActiveIsLone(cfg, skew, ecfg, sop, initial, r, j, a);
      ActLed(cfg, upper, skew, ecfg, sop, initial, r, j, a, e);
      j' := JointStep(cfg, upper, ecfg, sop, j, e);
    }
  }

  lemma RaceStepLed(
    cfg: GateConfig, upper: char -> string, skew: real, ecfg: EngineConfig, sop: SopDefinition,
    initial: map<string, string>, r: Race, j: Joint, e: RaceEvent) returns (j': Joint)
    requires cfg.crypto.Ideal() && cfg.forgets && 0.0 <= skew && ecfg.gate && ecfg.feedback && ecfg.store
    requires Led(cfg, skew, ecfg, sop, initial, r, j) && Fair(cfg, skew, sop, r, e)
    ensures Led(cfg, skew, ecfg, sop, initial, RaceStep(cfg, upper, ecfg, sop, r, e), j')
  {
    hide Led, Lawful, Act, HubStep, Step, Crypto.Ideal, Projected, JointStep, Legal, Mature;
    j' := j;
    if e.Elsewhere? {
      ElsewhereLed(cfg, upper, skew, ecfg, sop, initial, r, j, e.gate);
      j' := JointStep(cfg, upper, ecfg, sop, j, Others(e.gate));
    } else if !e.Callback? {
      if e.handler in r.hub.handlers {
        j' := OwnLed(cfg, upper, skew, ecfg, sop, initial, r, j, e.handler, OwnEvent(e));
      }
    } else if !e.call.AnswerTo? {
      if Projected(ecfg, sop, r.hub, e.call).Some? {
        AcceptedDecides(ecfg, sop, r.hub, e.call);
        DecisionLed(cfg, upper, skew, ecfg, sop, initial, r, j, e.call);
        var y := Decide(e.call.decision, e.call.reason, e.call.approver);
        j' := JointStep(cfg, upper, ecfg, sop, j, Caller(y));
      } else {
        CallbackLed(cfg, skew, ecfg, sop, initial, r, j, e.call);
      }
    }
  }

  // ----- Whole races -----

  /** The handlers' side of a run that is suspended at the gate. */
  function Suspending(j: Joint): Race
  {
    Race(SopCallbacks.Waiting(j.life), j.sys, map[], j.log)
  }

  lemma SuspendingIsLed(
    cfg: GateConfig, skew: real, ecfg: EngineConfig, sop: SopDefinition, initial: map<string, string>, j: Joint)
    requires Joined(cfg, skew, ecfg, sop, initial, j) && Suspended(ecfg, sop, j.life)
    ensures Led(cfg, skew, ecfg, sop, initial, Suspending(j), j)
  {
    hide Sourced, Guarded, Coherent, DataInStep, AllWritesLogged, Linear, Prefix, InOrder;
    WaitingIsLinear(ecfg, sop, j.life);
  }

  lemma {:induction false} RaceIsLed(
    cfg: GateConfig, upper: char -> string, skew: real, ecfg: EngineConfig, sop: SopDefinition,
    initial: map<string, string>, j0: Joint, es: seq<RaceEvent>) returns (j: Joint)
    requires cfg.crypto.Ideal() && cfg.forgets && 0.0 <= skew && ecfg.gate && ecfg.feedback
    requires Joined(cfg, skew, ecfg, sop, initial, j0) && Suspended(ecfg, sop, j0.life)
    requires FairRace(cfg, upper, skew, ecfg, sop, Suspending(j0), es)
    ensures Led(cfg, skew, ecfg, sop, initial, RaceRun(cfg, upper, ecfg, sop, Suspending(j0), es), j)
  {
    hide Joined, Led, RaceStep, Fair, Crypto.Ideal;
    if es == [] {
      SuspendingIsLed(cfg, skew, ecfg, sop, initial, j0);
      j := j0;
    } else {
      var init := es[..|es| - 1];
      j := RaceIsLed(cfg, upper, skew, ecfg, sop, initial, j0, init);
      j := RaceStepLed(cfg, upper, skew, ecfg, sop, initial,
                       RaceRun(cfg, upper, ecfg, sop, Suspending(j0), init), j, es[|es| - 1]);
    }
  }

  /**
   However many handlers race to resume a suspended run, and whatever else happens at the gate: no step is executed
   twice, and every write recorded for the run, before the suspension or by any handler after it, passed
   the gate for its own domain and data on an issue for them at most TTL old, with a nonce from the
   run's initial data or from its own validation of that data.
   */
  lemma RacingWritesAreFresh(
    cfg: GateConfig, upper: char -> string, skew: real, ecfg: EngineConfig, sop: SopDefinition,
    initial: map<string, string>, j0: Joint, es: seq<RaceEvent>, k: nat)
    requires cfg.crypto.Ideal() && cfg.forgets && 0.0 <= skew && ecfg.gate && ecfg.feedback
    requires Joined(cfg, skew, ecfg, sop, initial, j0) && Suspended(ecfg, sop, j0.life)
    requires FairRace(cfg, upper, skew, ecfg, sop, Suspending(j0), es)
    requires var log := RaceRun(cfg, upper, ecfg, sop, Suspending(j0), es).log; k < |log| && log[k].Wrote?
    ensures var r := RaceRun(cfg, upper, ecfg, sop, Suspending(j0), es);
            var a := r.log[k];
            && InOrder(sop, r.hub.calls)
            && a.pass < |r.sys.passes|
            && r.sys.passes[a.pass].domain == a.domain && r.sys.passes[a.pass].data == a.data
            && (exists i :: i in r.sys.issued && Comes(cfg, r.sys.passes[a.pass], i))
            && Prepared(cfg, initial, r.sys.passes, r.log, k)
  {
    var j := RaceIsLed(cfg, upper, skew, ecfg, sop, initial, j0, es);
    var r := RaceRun(cfg, upper, ecfg, sop, Suspending(j0), es);
    hide RaceRun, FairRace, Suspending, Sourced, Guarded, Kept, Coherent, DataInStep, AllWritesLogged, Pending, Linear;
    hide Crypto.Ideal, Comes, Prepared, InOrder, Suspended;
    LinearOrder(ecfg, sop, r.hub, j.life);
    WriteIsPrepared(cfg, sop, initial, r.sys.passes, r.log, k);
    PassComesFromIssue(cfg, r.sys, r.log[k].pass);
  }

  /** And between two of its writes to one domain and data key lies a validation for them, as in a run resumed once. */
  lemma RacingWritesRevalidate(
    cfg: GateConfig, upper: char -> string, skew: real, ecfg: EngineConfig, sop: SopDefinition,
    initial: map<string, string>, j0: Joint, es: seq<RaceEvent>, i: nat, k: nat) returns (m: nat)
    requires cfg.crypto.Ideal() && cfg.forgets && 0.0 <= skew && ecfg.gate && ecfg.feedback
    requires Joined(cfg, skew, ecfg, sop, initial, j0) && Suspended(ecfg, sop, j0.life)
    requires FairRace(cfg, upper, skew, ecfg, sop, Suspending(j0), es)
    requires var log := RaceRun(cfg, upper, ecfg, sop, Suspending(j0), es).log;
             && i < k < |log| && log[i].Wrote? && log[k].Wrote?
             && log[i].domain == log[k].domain && log[i].key == log[k].key
    ensures var r := RaceRun(cfg, upper, ecfg, sop, Suspending(j0), es);
            && i < m < k && r.log[i].pass < |r.sys.passes| && r.log[k].pass < |r.sys.passes|
            && Renews(r.sys.passes, r.log, i, m, k)
            && (!IsSlot(r.log[k].key) ==> r.sys.passes[r.log[i].pass].tick < r.log[m].tick)
            && r.sys.passes[r.log[k].pass].at.check - (r.log[m].tick as real) <= cfg.ttl as real
  {
    var j := RaceIsLed(cfg, upper, skew, ecfg, sop, initial, j0, es);
    hide RaceRun, FairRace, Suspending, Linear, Joined, Renews, IsSlot, Crypto.Ideal;
    m := JoinedWrites(cfg, skew, ecfg, sop, initial, j, i, k);
  }
}
