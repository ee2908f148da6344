/**
 Engine and write gate composed. The engine executes its steps against the gate while anybody
 else uses the gate too; between the authorisation of an engine's write and its commit the
 rest of the system goes on. The nonces travel through the run's own data.
 */
module SopGate {
  import opened Wrappers
  import opened Nonce
  import opened WriteGates
  import opened GateRuns
  import opened SopSchema
  import opened SopEngines
  import opened SopRuns
  import Cypher

  const TURTLE := "turtle"

  /** What a run did at the gate: a validation that gave a nonce, or a write that burned one. */
  datatype Act =
    | Checked(step: nat, domain: string, key: string, data: string, nonce: string, tick: int)
    | Wrote(step: nat, domain: string, key: string, data: string, nonce: string, pass: nat)

  /** `waiting` is the job of the engine's write that is on its way to the database. */
  datatype Joint = Joint(life: Life, sys: Sys, waiting: Option<nat>, log: seq<Act>)

  datatype JointEvent =
    | Others(gate: Event)
    | Caller(call: LifeEvent)
    | DoStep(time: real, wall: real, at: Reads, reply: Reply)
    | Finish(order: seq<Cypher.Triple>, db: Cypher.Database)

  predicate CanStep(sop: SopDefinition, j: Joint)
  {
    AtStep(sop, j.life.proc) && j.waiting.None?
  }

  function StepRequest(sop: SopDefinition, j: Joint): Request
    requires AtStep(sop, j.life.proc)
  {
    RequestOf(true, sop.steps[j.life.proc.status.next], j.life.proc.ctx.data)
  }

  /** The gate event a joint event amounts to, if any. */
  function GateEvent(sop: SopDefinition, j: Joint, e: JointEvent): Option<Event>
  {
    match e
    case Others(g) => Some(g)
    case Caller(_) => None
    case Finish(order, db) => if j.waiting.Some? then Some(Commit(j.waiting.value, order, db)) else None
    case DoStep(time, wall, at, _) =>
      if !CanStep(sop, j) then None
      else match StepRequest(sop, j)
        case NoRequest => None
        case CheckRequest(domain, data) => Some(Validation(time, domain, data, TURTLE))
        case WriteRequest(domain, data, nonce) => Some(Write(wall, at, domain, data, nonce, TURTLE))
  }

  /** The engine asks the gate at the time and with the clock reads given, and always for Turtle. */
  lemma EngineSpeaksTurtle(sop: SopDefinition, j: Joint, e: JointEvent)
    requires e.DoStep? && GateEvent(sop, j, e).Some?
    ensures match GateEvent(sop, j, e).value
            case Validation(time, _, _, format) => time == e.time && format == "turtle"
            case Write(wall, at, _, _, _, format) => wall == e.wall && at == e.at && format == "turtle"
            case Commit(_, _, _) => false
  {
    hide RequestOf;
  }

  function CheckReplyOf(r: Result<Option<string>, GateError>): CheckReply
  {
    match r
    case Err(_) => CheckRaised
    case Ok(None) => CheckInvalid
    case Ok(Some(nonce)) => CheckValid(nonce)
  }

  const WRITE_DONE := Reply(CheckRaised, true, true, None, true)
  const WRITE_FAILED := Reply(CheckRaised, false, true, None, true)

  /** The answer the engine gets from this event; none while a write is waiting. */
  function EngineAnswer(cfg: GateConfig, sop: SopDefinition, j: Joint, e: JointEvent, sys': Sys): Option<Reply>
  {
    match e
    case Others(_) => None
    case Caller(_) => None
    case Finish(_, _) =>
      if j.waiting.None? || j.waiting.value >= |sys'.jobs| then None
      else Some(if sys'.jobs[j.waiting.value].state == Committed then WRITE_DONE else WRITE_FAILED)
    case DoStep(time, _, _, reply) =>
      if !CanStep(sop, j) then None
      else match StepRequest(sop, j)
        case NoRequest => Some(reply)
        case CheckRequest(domain, data) =>
          Some(reply.(check := CheckReplyOf(Validate(cfg, time, domain, data, TURTLE))))
        case WriteRequest(_, _, _) => if |sys'.jobs| > |j.sys.jobs| then None else Some(WRITE_FAILED)
  }

  function Noted(cfg: GateConfig, sop: SopDefinition, j: Joint, e: JointEvent): seq<Act>
  {
    if !e.DoStep? || !CanStep(sop, j) then []
    else
      var next := j.life.proc.status.next;
      var key := sop.steps[next].DataKey();
      match StepRequest(sop, j)
      case NoRequest => []
      case CheckRequest(domain, data) =>
        var r := Validate(cfg, e.time, domain, data, TURTLE);
        if r.Ok? && r.value.Some? then [Checked(next, domain, key, data, r.value.value, Tick(e.time))] else []
      case WriteRequest(domain, data, nonce) =>
        if Passes(cfg, j.sys, Write(e.wall, e.at, domain, data, nonce, TURTLE)) then
          [Wrote(next, domain, key, data, nonce, |j.sys.passes|)]
        else []
  }

  function JointStep(
    cfg: GateConfig, upper: char -> string, ecfg: EngineConfig, sop: SopDefinition, j: Joint, e: JointEvent): Joint
  {
    var g := GateEvent(sop, j, e);
    var sys' := if g.Some? then Step(cfg, upper, j.sys, g.value) else j.sys;
    var answer := EngineAnswer(cfg, sop, j, e, sys');
    var life' :=
      if e.Caller? then (if e.call.Answer? then j.life else LifeStep(ecfg, sop, j.life, e.call))
      else if answer.Some? then LifeStep(ecfg, sop, j.life, Answer(answer.value))
      else j.life;
    var waiting' :=
      if e.Finish? then None
      else if e.DoStep? && CanStep(sop, j) && |sys'.jobs| > |j.sys.jobs| then Some(|j.sys.jobs|)
      else j.waiting;
    Joint(life', sys', waiting', j.log + Noted(cfg, sop, j, e))
  }

  function JointRun(
    cfg: GateConfig, upper: char -> string, ecfg: EngineConfig, sop: SopDefinition, j: Joint,
    es: seq<JointEvent>): Joint
  {
    if es == [] then j
    else JointStep(cfg, upper, ecfg, sop, JointRun(cfg, upper, ecfg, sop, j, es[..|es| - 1]), es[|es| - 1])
  }

  /** The gate event is legal, its nonces are burned late enough, nobody else commits the engine's write, and the
      run is started and reloaded as the callers do. */
  ghost predicate Lawful(cfg: GateConfig, skew: real, sop: SopDefinition, j: Joint, e: JointEvent)
  {
    var g := GateEvent(sop, j, e);
    && (g.Some? ==> Legal(cfg, skew, j.sys, g.value) && Mature(cfg, skew, j.sys, g.value))
    && (e.Others? && e.gate.Commit? ==> j.waiting != Some(e.gate.job))
    && (e.Caller? ==> Disciplined(j.life, e.call))
  }

  ghost predicate LawfulRun(
    cfg: GateConfig, upper: char -> string, skew: real, ecfg: EngineConfig, sop: SopDefinition, j: Joint,
    es: seq<JointEvent>)
  {
    es != [] ==>
      var init := es[..|es| - 1];
      && LawfulRun(cfg, upper, skew, ecfg, sop, j, init)
      && Lawful(cfg, skew, sop, JointRun(cfg, upper, ecfg, sop, j, init), es[|es| - 1])
  }

  // ----- What the log records -----

  function DomainOf(step: SopStep): string { if step.domain.Some? then step.domain.value else "" }

  /** The data keys the engine itself writes to. */
  predicate IsSlot(key: string)
  {
    key == PENDING_CARD || "_nonce_" <= key
  }

  /** The nonce a run holds for a key after the recorded acts. */
  function SlotAt(log: seq<Act>, initial: map<string, string>, key: string): string
  {
    if log == [] then Lookup(initial, NonceKey(key))
    else
      var last := log[|log| - 1];
      if last.Checked? && last.key == key then last.nonce else SlotAt(log[..|log| - 1], initial, key)
  }

  ghost predicate CheckedOk(cfg: GateConfig, passes: seq<Pass>, before: seq<Act>, a: Act)
    requires a.Checked?
  {
    && a.nonce == cfg.crypto.Print(a.tick, a.domain, a.data)
    && forall b :: b in before && b.Wrote? ==> b.pass < |passes| && passes[b.pass].tick <= a.tick
  }

  ghost predicate WroteOk(cfg: GateConfig, initial: map<string, string>, passes: seq<Pass>, before: seq<Act>, a: Act)
    requires a.Wrote?
  {
    && a.pass < |passes|
    && passes[a.pass].domain == a.domain && passes[a.pass].data == a.data
    && Parse(cfg.crypto, a.nonce).Some?
    && Parse(cfg.crypto, a.nonce).value.signature == Signature(cfg, passes[a.pass])
    && a.nonce == SlotAt(before, initial, a.key)
    && forall b :: b in before && b.Wrote? ==> b.pass < a.pass
  }

  /** One recorded act, against the acts before it. */
  ghost predicate ActOk(
    cfg: GateConfig, sop: SopDefinition, initial: map<string, string>, passes: seq<Pass>, before: seq<Act>, a: Act)
  {
    && a.step < |sop.steps|
    && DomainOf(sop.steps[a.step]) == a.domain && sop.steps[a.step].DataKey() == a.key
    && (!IsSlot(a.key) ==> a.data == Lookup(initial, a.key))
    && (forall b :: b in before ==> b.step < a.step)
    && if a.Checked? then sop.steps[a.step].kind == ValidateStep && CheckedOk(cfg, passes, before, a)
       else sop.steps[a.step].IsWrite() && WroteOk(cfg, initial, passes, before, a)
  }

  ghost predicate Coherent(
    cfg: GateConfig, sop: SopDefinition, initial: map<string, string>, passes: seq<Pass>, log: seq<Act>)
  {
    forall i :: 0 <= i < |log| ==> ActOk(cfg, sop, initial, passes, log[..i], log[i])
  }

  lemma NonceKeyIsInjective(a: string, b: string)
    ensures NonceKey(a) == NonceKey(b) <==> a == b
    ensures NonceKey(a) != PENDING_CARD && IsSlot(NonceKey(a))
  {
    assert NonceKey(a)[7..] == a && NonceKey(b)[7..] == b;
    assert NonceKey(a)[1] == 'n' && PENDING_CARD[1] == 'p';
  }

  lemma CoherentGrows(
    cfg: GateConfig, sop: SopDefinition, initial: map<string, string>, passes: seq<Pass>, more: seq<Pass>,
    log: seq<Act>)
    requires Coherent(cfg, sop, initial, passes, log) && passes <= more
    ensures Coherent(cfg, sop, initial, more, log)
  {
    hide Signature, Parse, SlotAt;
    forall i | 0 <= i < |log| ensures ActOk(cfg, sop, initial, more, log[..i], log[i]) {
      assert ActOk(cfg, sop, initial, passes, log[..i], log[i]);
    }
  }

  lemma CoherentSnoc(
    cfg: GateConfig, sop: SopDefinition, initial: map<string, string>, passes: seq<Pass>, log: seq<Act>, a: Act)
    requires Coherent(cfg, sop, initial, passes, log) && ActOk(cfg, sop, initial, passes, log, a)
    ensures Coherent(cfg, sop, initial, passes, log + [a])
  {
    hide ActOk;
    forall i | 0 <= i < |log + [a]| ensures ActOk(cfg, sop, initial, passes, (log + [a])[..i], (log + [a])[i]) {
      if i < |log| {
        assert (log + [a])[..i] == log[..i];
      } else {
        assert (log + [a])[..i] == log;
      }
    }
  }

  /** Between two points of the log either some validation filled the slot, or it is what it was. */
  lemma {:induction false} SlotComesFrom(log: seq<Act>, initial: map<string, string>, key: string, i: nat, j: nat)
    returns (m: nat)
    requires i <= j <= |log|
    ensures SlotAt(log[..j], initial, key) == SlotAt(log[..i], initial, key)
         || (i <= m < j && log[m].Checked? && log[m].key == key && log[m].nonce == SlotAt(log[..j], initial, key))
    decreases j
  {
    m := 0;
    if i < j {
      assert log[..j][..j - 1] == log[..j - 1];
      if log[j - 1].Checked? && log[j - 1].key == key {
        m := j - 1;
      } else {
        m := SlotComesFrom(log, initial, key, i, j - 1);
      }
    }
  }

  /** A validation between two writes that makes the second one possible. */
  ghost predicate Renews(passes: seq<Pass>, log: seq<Act>, i: nat, m: nat, j: nat)
    requires i < m < j < |log| && log[i].Wrote? && log[j].Wrote? && log[i].pass < |passes| && log[j].pass < |passes|
  {
    && log[m].Checked? && log[m].domain == log[j].domain && log[m].key == log[j].key
    && log[m].data == log[j].data && log[m].nonce == log[j].nonce
    && log[m].tick == passes[log[j].pass].tick && passes[log[i].pass].tick <= log[m].tick
    && (log[i].data == log[j].data ==> passes[log[i].pass].tick < log[m].tick)
  }

  lemma WritesNeedFreshCheck(
    cfg: GateConfig, sop: SopDefinition, initial: map<string, string>, s: Sys, log: seq<Act>, i: nat, j: nat)
    returns (m: nat)
    requires cfg.crypto.Ideal() && SingleUse(s) && Coherent(cfg, sop, initial, s.passes, log)
    requires i < j < |log| && log[i].Wrote? && log[j].Wrote?
    requires log[i].domain == log[j].domain && log[i].key == log[j].key
    ensures log[i].pass < |s.passes| && log[j].pass < |s.passes|
    ensures i < m < j && Renews(s.passes, log, i, m, j)
  {
    hide Parse, SlotAt, Crypto.Print, Crypto.Sign, Crypto.Ideal;
    var a, b := log[i], log[j];
    assert ActOk(cfg, sop, initial, s.passes, log[..i], a) && ActOk(cfg, sop, initial, s.passes, log[..j], b);
    assert log[..j][i] == a;
    var p, q := s.passes[a.pass], s.passes[b.pass];
    m := SlotComesFrom(log, initial, b.key, i, j);
    SignIsInjective(cfg.crypto, p.tick, p.domain, p.data, q.tick, q.domain, q.data);
    assert SlotAt(log[..j], initial, b.key) != SlotAt(log[..i], initial, b.key);
    var c := log[m];
    assert ActOk(cfg, sop, initial, s.passes, log[..m], c);
    assert log[..m][i] == a;
    ParseInvertsPrint(cfg.crypto, c.tick, c.domain, c.data);
    SignIsInjective(cfg.crypto, c.tick, c.domain, c.data, q.tick, q.domain, q.data);
  }

  // ----- The invariant of the composition -----

  /** The run's data: the engine's slots hold what the log says, everything else is as it was given. */
  ghost predicate DataInStep(initial: map<string, string>, data: map<string, string>, log: seq<Act>)
  {
    && (forall key :: Lookup(data, NonceKey(key)) == SlotAt(log, initial, key))
    && (forall key :: !IsSlot(key) ==> Lookup(data, key) == Lookup(initial, key))
  }

  /** Every write step with a recorded result burned a nonce. */
  ghost predicate AllWritesLogged(sop: SopDefinition, done: nat, log: seq<Act>)
  {
    forall k :: 0 <= k < done && k < |sop.steps| && sop.steps[k].IsWrite() ==>
      exists a :: a in log && a.Wrote? && a.step == k
  }

  ghost predicate Pending(sop: SopDefinition, j: Joint)
  {
    var n := |j.life.calls|;
    if j.waiting.None? then forall a :: a in j.log ==> a.step < n
    else
      && AtStep(sop, j.life.proc) && sop.steps[j.life.proc.status.next].IsWrite()
      && (forall a :: a in j.log ==> a.step <= n)
      && (exists a :: a in j.log && a.Wrote? && a.step == n)
      && j.waiting.value < |j.sys.jobs|
  }

  ghost predicate Joined(
    cfg: GateConfig, skew: real, ecfg: EngineConfig, sop: SopDefinition, initial: map<string, string>, j: Joint)
  {
    && Sourced(cfg, j.sys) && Guarded(cfg, skew, j.sys)
    && Kept(ecfg, sop, j.life)
    && Coherent(cfg, sop, initial, j.sys.passes, j.log)
    && DataInStep(initial, j.life.proc.ctx.data, j.log)
    && AllWritesLogged(sop, |j.life.proc.ctx.results|, j.log)
    && Pending(sop, j)
  }

  // ----- How the engine's answers move its data -----

  /** Answering a step that asked the gate for nothing touches no slot, and records no write. */
  lemma AnswerWithoutRequest(ecfg: EngineConfig, sop: SopDefinition, l: Life, r: Reply)
    requires ecfg.gate && AtStep(sop, l.proc)
    requires RequestOf(true, sop.steps[l.proc.status.next], l.proc.ctx.data) == NoRequest
    ensures var before, after := l.proc.ctx, AnswerLife(ecfg, sop, l, r).proc.ctx;
            && (forall key :: Lookup(after.data, NonceKey(key)) == Lookup(before.data, NonceKey(key)))
            && (forall key :: !IsSlot(key) ==> Lookup(after.data, key) == Lookup(before.data, key))
            && (|after.results| == |before.results|
                || (|after.results| == |before.results| + 1 && !sop.steps[l.proc.status.next].IsWrite()))
  {
    forall key ensures NonceKey(key) != PENDING_CARD {
      NonceKeyIsInjective(key, key);
    }
  }

  /** Answering a validation stores the nonce it gave, in its own slot. */
  lemma AnswerCheck(ecfg: EngineConfig, sop: SopDefinition, l: Life, r: Reply)
    requires ecfg.gate && AtStep(sop, l.proc)
    requires RequestOf(true, sop.steps[l.proc.status.next], l.proc.ctx.data).CheckRequest?
    ensures var before, after := l.proc.ctx, AnswerLife(ecfg, sop, l, r).proc.ctx;
            var step := sop.steps[l.proc.status.next];
            && after.data == (if r.check.CheckValid? then before.data[NonceKey(step.DataKey()) := r.check.nonce]
                              else before.data)
            && |after.results| == |before.results| + (if r.check.CheckValid? then 1 else 0)
            && step.kind == ValidateStep && step.domain.Some?
  {
  }

  /** Answering a write changes no data. */
  lemma AnswerWrite(ecfg: EngineConfig, sop: SopDefinition, l: Life, r: Reply)
    requires ecfg.gate && AtStep(sop, l.proc) && sop.steps[l.proc.status.next].IsWrite()
    ensures var before, after := l.proc.ctx, AnswerLife(ecfg, sop, l, r).proc.ctx;
            after.data == before.data && |before.results| <= |after.results| <= |before.results| + 1
    ensures RequestOf(true, sop.steps[l.proc.status.next], l.proc.ctx.data).WriteRequest? && !r.written ==>
            AnswerLife(ecfg, sop, l, r).proc.ctx.results == l.proc.ctx.results
  {
  }

  /** The callers' events leave data, results and calls alone, and a step in progress undisturbed. */
  lemma CallersKeepData(ecfg: EngineConfig, sop: SopDefinition, l: Life, e: LifeEvent)
    requires Kept(ecfg, sop, l) && Disciplined(l, e) && !e.Answer?
    ensures var l' := LifeStep(ecfg, sop, l, e);
            && l'.proc.ctx.data == l.proc.ctx.data && l'.proc.ctx.results == l.proc.ctx.results && l'.calls == l.calls
            && (l.proc.status.Going? ==> l' == l)
  {
    hide Advance, InsertFeedback, LastNote, RequestOf, InOrder, Prefix;
  }

  lemma SameDataInStep(
    initial: map<string, string>, data: map<string, string>, data': map<string, string>, log: seq<Act>)
    requires DataInStep(initial, data, log)
    requires forall key :: Lookup(data', NonceKey(key)) == Lookup(data, NonceKey(key))
    requires forall key :: !IsSlot(key) ==> Lookup(data', key) == Lookup(data, key)
    ensures DataInStep(initial, data', log)
  {
    hide SlotAt, Lookup, NonceKey;
  }

  lemma CheckKeepsData(initial: map<string, string>, data: map<string, string>, log: seq<Act>, a: Act)
    requires DataInStep(initial, data, log) && a.Checked?
    ensures DataInStep(initial, data[NonceKey(a.key) := a.nonce], log + [a])
  {
    var data' := data[NonceKey(a.key) := a.nonce];
    assert (log + [a])[..|log|] == log;
    forall key ensures Lookup(data', NonceKey(key)) == SlotAt(log + [a], initial, key) {
      NonceKeyIsInjective(key, a.key);
    }
    forall key | !IsSlot(key) ensures Lookup(data', key) == Lookup(initial, key) {
      NonceKeyIsInjective(a.key, a.key);
    }
  }

  lemma WriteKeepsData(initial: map<string, string>, data: map<string, string>, log: seq<Act>, a: Act)
    requires DataInStep(initial, data, log) && a.Wrote?
    ensures DataInStep(initial, data, log + [a])
  {
    assert (log + [a])[..|log|] == log;
  }

  lemma LoggedGrows(sop: SopDefinition, done: nat, more: nat, log: seq<Act>, log': seq<Act>)
    requires AllWritesLogged(sop, done, log) && log <= log' && done <= more <= done + 1
    requires more == done || done >= |sop.steps| || !sop.steps[done].IsWrite()
             || exists a :: a in log' && a.Wrote? && a.step == done
    ensures AllWritesLogged(sop, more, log')
  {
    forall k | 0 <= k < more && k < |sop.steps| && sop.steps[k].IsWrite()
      ensures exists a :: a in log' && a.Wrote? && a.step == k
    {
      if k < done {
        var a :| a in log && a.Wrote? && a.step == k;
        assert a in log';
      }
    }
  }

  lemma StepGrows(cfg: GateConfig, upper: char -> string, s: Sys, e: Event)
    ensures s.passes <= Step(cfg, upper, s, e).passes && |s.jobs| <= |Step(cfg, upper, s, e).jobs|
    ensures !e.Write? ==> Step(cfg, upper, s, e).passes == s.passes && |Step(cfg, upper, s, e).jobs| == |s.jobs|
    ensures e.Write? && Passes(cfg, s, e) ==> Step(cfg, upper, s, e).passes == s.passes + [PassOf(cfg, e)]
    ensures e.Write? && !Passes(cfg, s, e) ==>
      Step(cfg, upper, s, e).passes == s.passes && |Step(cfg, upper, s, e).jobs| == |s.jobs|
  {
    hide VerifyNonce, Cypher.WriteBatch, Cypher.Translate, Compliant, TakeQuota;
  }

  lemma GateKept(cfg: GateConfig, upper: char -> string, skew: real, s: Sys, e: Event)
    requires cfg.crypto.Ideal() && cfg.forgets && 0.0 <= skew && Sourced(cfg, s) && Guarded(cfg, skew, s)
    requires Legal(cfg, skew, s, e) && Mature(cfg, skew, s, e)
    ensures Sourced(cfg, Step(cfg, upper, s, e)) && Guarded(cfg, skew, Step(cfg, upper, s, e))
  {
    hide *;
    SourcedStep(cfg, upper, skew, s, e);
    GuardedStep(cfg, upper, skew, s, e);
  }

  // ----- Each joint event keeps the invariant -----

  lemma OthersJoined(
    cfg: GateConfig, upper: char -> string, skew: real, ecfg: EngineConfig, sop: SopDefinition,
    initial: map<string, string>, j: Joint, e: JointEvent)
    requires cfg.crypto.Ideal() && cfg.forgets && 0.0 <= skew && ecfg.gate
    requires Joined(cfg, skew, ecfg, sop, initial, j) && Lawful(cfg, skew, sop, j, e) && e.Others?
    ensures Joined(cfg, skew, ecfg, sop, initial, JointStep(cfg, upper, ecfg, sop, j, e))
  {
    hide Sourced, Guarded, Kept, Coherent, DataInStep, AllWritesLogged, Crypto.Ideal, Legal, Mature, Step, AtStep;
    GateKept(cfg, upper, skew, j.sys, e.gate);
    StepGrows(cfg, upper, j.sys, e.gate);
    CoherentGrows(cfg, sop, initial, j.sys.passes, Step(cfg, upper, j.sys, e.gate).passes, j.log);
    assert j.log + [] == j.log;
  }

  lemma CallerJoined(
    cfg: GateConfig, upper: char -> string, skew: real, ecfg: EngineConfig, sop: SopDefinition,
    initial: map<string, string>, j: Joint, e: JointEvent)
    requires ecfg.gate && Joined(cfg, skew, ecfg, sop, initial, j) && Lawful(cfg, skew, sop, j, e) && e.Caller?
    ensures Joined(cfg, skew, ecfg, sop, initial, JointStep(cfg, upper, ecfg, sop, j, e))
  {
    hide Sourced, Guarded, Sound, StoreInStep, Coherent, DataInStep, AllWritesLogged, LifeStep;
    assert j.log + [] == j.log;
    if !e.call.Answer? {
      SoundStep(ecfg, sop, j.life, e.call);
      CallersKeepData(ecfg, sop, j.life, e.call);
    }
  }

  lemma NextIsCallCount(ecfg: EngineConfig, sop: SopDefinition, l: Life)
    requires Kept(ecfg, sop, l) && AtStep(sop, l.proc)
    ensures l.proc.status.next == |l.calls| == |l.proc.ctx.results|
  {
  }

  /** Any event that answers the engine's step, put together from its parts. */
  lemma AnswerJoined(
    cfg: GateConfig, skew: real, ecfg: EngineConfig, sop: SopDefinition, initial: map<string, string>,
    j: Joint, sys': Sys, log': seq<Act>, r: Reply)
    requires Joined(cfg, skew, ecfg, sop, initial, j) && AtStep(sop, j.life.proc)
    requires Sourced(cfg, sys') && Guarded(cfg, skew, sys') && Coherent(cfg, sop, initial, sys'.passes, log')
    requires DataInStep(initial, AnswerLife(ecfg, sop, j.life, r).proc.ctx.data, log')
    requires AllWritesLogged(sop, |AnswerLife(ecfg, sop, j.life, r).proc.ctx.results|, log')
    requires forall a :: a in log' ==> a.step <= |j.life.calls|
    ensures Joined(cfg, skew, ecfg, sop, initial, Joint(AnswerLife(ecfg, sop, j.life, r), sys', None, log'))
  {
    hide Sourced, Guarded, Kept, Coherent, DataInStep, AllWritesLogged, Advance, RequestOf;
    SoundAnswer(ecfg, sop, j.life, r);
  }

  lemma UnaskedJoined(
    cfg: GateConfig, upper: char -> string, skew: real, ecfg: EngineConfig, sop: SopDefinition,
    initial: map<string, string>, j: Joint, e: JointEvent)
    requires ecfg.gate && Joined(cfg, skew, ecfg, sop, initial, j)
    requires e.DoStep? && CanStep(sop, j) && StepRequest(sop, j) == NoRequest
    ensures Joined(cfg, skew, ecfg, sop, initial, JointStep(cfg, upper, ecfg, sop, j, e))
  {
    hide Sourced, Guarded, Kept, Coherent, DataInStep, AllWritesLogged, AnswerLife, RequestOf, SopStep.IsWrite;
    var life' := AnswerLife(ecfg, sop, j.life, e.reply);
    AnswerWithoutRequest(ecfg, sop, j.life, e.reply);
    NextIsCallCount(ecfg, sop, j.life);
    SameDataInStep(initial, j.life.proc.ctx.data, life'.proc.ctx.data, j.log);
    LoggedGrows(sop, |j.life.proc.ctx.results|, |life'.proc.ctx.results|, j.log, j.log);
    AnswerJoined(cfg, skew, ecfg, sop, initial, j, j.sys, j.log, e.reply);
    assert j.log + [] == j.log;
    assert JointStep(cfg, upper, ecfg, sop, j, e) == Joint(life', j.sys, None, j.log);
  }

  /** A validation happens after every pass recorded so far, so at no earlier tick. */
  lemma CheckIsOk(
    cfg: GateConfig, skew: real, sop: SopDefinition, initial: map<string, string>, s: Sys, log: seq<Act>,
    a: Act, time: real)
    requires 0.0 <= skew && Sourced(cfg, s) && Guarded(cfg, skew, s) && Coherent(cfg, sop, initial, s.passes, log)
    requires s.now <= time && a.Checked? && a.tick == Tick(time)
      && a.nonce == cfg.crypto.Print(a.tick, a.domain, a.data)
    ensures CheckedOk(cfg, s.passes, log, a)
  {
    hide Remembered, Dead, SingleUse, Signature, HasOrigin, JobOk, Parse, Crypto.Print;
    forall b | b in log && b.Wrote? ensures b.pass < |s.passes| && s.passes[b.pass].tick <= a.tick {
      var i :| 0 <= i < |log| && log[i] == b;
      assert ActOk(cfg, sop, initial, s.passes, log[..i], b);
      var p := s.passes[b.pass];
      assert p in s.passes;
      assert p.tick as real < time;
    }
  }

  lemma GateKeptFor(
    cfg: GateConfig, upper: char -> string, skew: real, sop: SopDefinition, initial: map<string, string>,
    ecfg: EngineConfig, j: Joint, e: JointEvent, g: Event)
    requires cfg.crypto.Ideal() && cfg.forgets && 0.0 <= skew
    requires Joined(cfg, skew, ecfg, sop, initial, j) && Lawful(cfg, skew, sop, j, e) && GateEvent(sop, j, e) == Some(g)
    ensures Sourced(cfg, Step(cfg, upper, j.sys, g)) && Guarded(cfg, skew, Step(cfg, upper, j.sys, g))
  {
    hide Sourced, Guarded, Kept, Coherent, DataInStep, AllWritesLogged, Crypto.Ideal, Legal;
    hide Mature, Step, Pending, GateEvent;
    GateKept(cfg, upper, skew, j.sys, g);
  }

  lemma CheckEntry(cfg: GateConfig, sop: SopDefinition, initial: map<string, string>, j: Joint, a: Act)
    requires AtStep(sop, j.life.proc) && a.Checked? && a.step == j.life.proc.status.next == |j.life.calls|
    requires StepRequest(sop, j) == CheckRequest(a.domain, a.data) && sop.steps[a.step].DataKey() == a.key
    requires DataInStep(initial, j.life.proc.ctx.data, j.log) && Pending(sop, j) && j.waiting.None?
    requires CheckedOk(cfg, j.sys.passes, j.log, a)
    ensures ActOk(cfg, sop, initial, j.sys.passes, j.log, a)
  {
    hide CheckedOk, SlotAt;
  }

  /** What answering a validation does to log, data and results. */
  lemma CheckParts(
    cfg: GateConfig, skew: real, ecfg: EngineConfig, sop: SopDefinition,
    initial: map<string, string>, j: Joint, e: JointEvent, r: Reply, log': seq<Act>)
    requires 0.0 <= skew && ecfg.gate && Joined(cfg, skew, ecfg, sop, initial, j) && Lawful(cfg, skew, sop, j, e)
    requires e.DoStep? && CanStep(sop, j) && StepRequest(sop, j).CheckRequest?
    requires var q := StepRequest(sop, j);
             r.check == CheckReplyOf(Validate(cfg, e.time, q.domain, q.data, TURTLE))
    requires log' == j.log + Noted(cfg, sop, j, e)
    ensures Coherent(cfg, sop, initial, j.sys.passes, log')
    ensures DataInStep(initial, AnswerLife(ecfg, sop, j.life, r).proc.ctx.data, log')
    ensures AllWritesLogged(sop, |AnswerLife(ecfg, sop, j.life, r).proc.ctx.results|, log')
    ensures forall a :: a in log' ==> a.step <= |j.life.calls|
  {
    hide Coherent, DataInStep, AllWritesLogged, AnswerLife, Kept, Sourced, Guarded;
    hide Crypto.Print, Compliant, ActOk, CheckedOk;
    var life' := AnswerLife(ecfg, sop, j.life, r);
    AnswerCheck(ecfg, sop, j.life, r);
    NextIsCallCount(ecfg, sop, j.life);
    if r.check.CheckValid? {
      var a := Noted(cfg, sop, j, e)[0];
      CheckIsOk(cfg, skew, sop, initial, j.sys, j.log, a, e.time);
      assert ActOk(cfg, sop, initial, j.sys.passes, j.log, a) by { CheckEntry(cfg, sop, initial, j, a); }
      CoherentSnoc(cfg, sop, initial, j.sys.passes, j.log, a);
      CheckKeepsData(initial, j.life.proc.ctx.data, j.log, a);
    } else {
      assert log' == j.log;
    }
    LoggedGrows(sop, |j.life.proc.ctx.results|, |life'.proc.ctx.results|, j.log, log');
  }

  lemma CheckJoined(
    cfg: GateConfig, upper: char -> string, skew: real, ecfg: EngineConfig, sop: SopDefinition,
    initial: map<string, string>, j: Joint, e: JointEvent)
    requires cfg.crypto.Ideal() && cfg.forgets && 0.0 <= skew && ecfg.gate
    requires Joined(cfg, skew, ecfg, sop, initial, j) && Lawful(cfg, skew, sop, j, e)
    requires e.DoStep? && CanStep(sop, j) && StepRequest(sop, j).CheckRequest?
    ensures Joined(cfg, skew, ecfg, sop, initial, JointStep(cfg, upper, ecfg, sop, j, e))
  {
    hide Joined, Lawful, Crypto.Ideal, Step, AnswerLife, Validate;
    var g := GateEvent(sop, j, e).value;
    var sys' := Step(cfg, upper, j.sys, g);
    var v := Validate(cfg, e.time, g.domain, g.data, TURTLE);
    var r := e.reply.(check := CheckReplyOf(v));
    var life' := AnswerLife(ecfg, sop, j.life, r);
    var log' := j.log + Noted(cfg, sop, j, e);
    assert JointStep(cfg, upper, ecfg, sop, j, e) == Joint(life', sys', None, log')
      by { StepGrows(cfg, upper, j.sys, g); }
    CheckParts(cfg, skew, ecfg, sop, initial, j, e, r, log');
    hide *;
    assert Sourced(cfg, sys') && Guarded(cfg, skew, sys')
      by { GateKeptFor(cfg, upper, skew, sop, initial, ecfg, j, e, g); }
    assert sys'.passes == j.sys.passes by { StepGrows(cfg, upper, j.sys, g); }
    AnswerJoined(cfg, skew, ecfg, sop, initial, j, sys', log', r);
  }

  function WriteEvent(sop: SopDefinition, j: Joint, e: JointEvent): Event
    requires e.DoStep? && CanStep(sop, j) && StepRequest(sop, j).WriteRequest?
  {
    var q := StepRequest(sop, j);
    Write(e.wall, e.at, q.domain, q.data, q.nonce, TURTLE)
  }

  lemma WriteEntry(
    cfg: GateConfig, sop: SopDefinition, initial: map<string, string>, j: Joint, passes: seq<Pass>, a: Act)
    requires AtStep(sop, j.life.proc) && a.Wrote? && a.step == j.life.proc.status.next == |j.life.calls|
    requires StepRequest(sop, j) == WriteRequest(a.domain, a.data, a.nonce) && sop.steps[a.step].DataKey() == a.key
    requires DataInStep(initial, j.life.proc.ctx.data, j.log) && Pending(sop, j) && j.waiting.None?
    requires a.pass < |passes| && passes[a.pass].domain == a.domain && passes[a.pass].data == a.data
    requires Parse(cfg.crypto, a.nonce).Some?
      && Parse(cfg.crypto, a.nonce).value.signature == Signature(cfg, passes[a.pass])
    requires forall b :: b in j.log && b.Wrote? ==> b.pass < a.pass
    ensures ActOk(cfg, sop, initial, passes, j.log, a)
  {
    hide SlotAt, Signature, Parse;
  }

  lemma EarlierPasses(
    cfg: GateConfig, sop: SopDefinition, initial: map<string, string>, passes: seq<Pass>, log: seq<Act>)
    requires Coherent(cfg, sop, initial, passes, log)
    ensures forall b :: b in log && b.Wrote? ==> b.pass < |passes|
  {
    hide SlotAt, Signature, Parse;
    forall b | b in log && b.Wrote? ensures b.pass < |passes| {
      var i :| 0 <= i < |log| && log[i] == b;
      assert ActOk(cfg, sop, initial, passes, log[..i], b);
    }
  }

  /** What a write step does to the log, whether or not it is authorised in the end. */
  lemma WriteParts(
    cfg: GateConfig, upper: char -> string, skew: real, ecfg: EngineConfig, sop: SopDefinition,
    initial: map<string, string>, j: Joint, e: JointEvent, log': seq<Act>)
    requires cfg.crypto.Ideal() && Joined(cfg, skew, ecfg, sop, initial, j) && Lawful(cfg, skew, sop, j, e)
    requires e.DoStep? && CanStep(sop, j) && StepRequest(sop, j).WriteRequest?
    requires log' == j.log + Noted(cfg, sop, j, e)
    ensures Coherent(cfg, sop, initial, Step(cfg, upper, j.sys, WriteEvent(sop, j, e)).passes, log')
    ensures DataInStep(initial, j.life.proc.ctx.data, log') && j.log <= log'
    ensures forall a :: a in log' ==> a.step <= |j.life.calls|
    ensures Passes(cfg, j.sys, WriteEvent(sop, j, e)) ==>
      exists a :: a in log' && a.Wrote? && a.step == |j.life.calls|
  {
    hide Coherent, DataInStep, AllWritesLogged, Kept, Sourced, Guarded, ActOk, Passes, Step, Signature, Parse, Mature;
    hide Crypto.Ideal;
    var w := WriteEvent(sop, j, e);
    var sys' := Step(cfg, upper, j.sys, w);
    NextIsCallCount(ecfg, sop, j.life);
    StepGrows(cfg, upper, j.sys, w);
    CoherentGrows(cfg, sop, initial, j.sys.passes, sys'.passes, j.log);
    if Passes(cfg, j.sys, w) {
      PassHasOrigin(cfg, skew, j.sys, w);
      assert Parse(cfg.crypto, w.nonce).Some? by { PassBurns(cfg, upper, j.sys, w); }
      EarlierPasses(cfg, sop, initial, j.sys.passes, j.log);
      var a := Noted(cfg, sop, j, e)[0];
      WriteEntry(cfg, sop, initial, j, sys'.passes, a);
      CoherentSnoc(cfg, sop, initial, sys'.passes, j.log, a);
      WriteKeepsData(initial, j.life.proc.ctx.data, j.log, a);
      assert a in log';
    } else {
      assert log' == j.log;
    }
  }

  lemma GateEventOfWrite(sop: SopDefinition, j: Joint, e: JointEvent)
    requires e.DoStep? && CanStep(sop, j) && StepRequest(sop, j).WriteRequest?
    ensures GateEvent(sop, j, e) == Some(WriteEvent(sop, j, e))
  {
  }

  lemma WriteFailedParts(
    cfg: GateConfig, skew: real, ecfg: EngineConfig, sop: SopDefinition, initial: map<string, string>,
    j: Joint, log': seq<Act>)
    requires ecfg.gate && Joined(cfg, skew, ecfg, sop, initial, j) && CanStep(sop, j)
    requires StepRequest(sop, j).WriteRequest? && j.log <= log' && DataInStep(initial, j.life.proc.ctx.data, log')
    ensures AtStep(sop, j.life.proc)
    ensures DataInStep(initial, AnswerLife(ecfg, sop, j.life, WRITE_FAILED).proc.ctx.data, log')
    ensures AllWritesLogged(sop, |AnswerLife(ecfg, sop, j.life, WRITE_FAILED).proc.ctx.results|, log')
  {
    hide Sourced, Guarded, Kept, Coherent, DataInStep, AllWritesLogged, AnswerLife, Pending;
    AnswerWrite(ecfg, sop, j.life, WRITE_FAILED);
    LoggedGrows(sop, |j.life.proc.ctx.results|, |j.life.proc.ctx.results|, j.log, log');
  }

  lemma RefusedStep(
    cfg: GateConfig, upper: char -> string, ecfg: EngineConfig, sop: SopDefinition, j: Joint, e: JointEvent)
    requires e.DoStep? && CanStep(sop, j) && StepRequest(sop, j).WriteRequest?
    requires |Step(cfg, upper, j.sys, WriteEvent(sop, j, e)).jobs| == |j.sys.jobs|
    ensures JointStep(cfg, upper, ecfg, sop, j, e)
         == Joint(AnswerLife(ecfg, sop, j.life, WRITE_FAILED), Step(cfg, upper, j.sys, WriteEvent(sop, j, e)), None,
                  j.log + Noted(cfg, sop, j, e))
  {
    hide Step, AnswerLife, Noted, RequestOf;
  }

  lemma WriteRefusedJoined(
    cfg: GateConfig, upper: char -> string, skew: real, ecfg: EngineConfig, sop: SopDefinition,
    initial: map<string, string>, j: Joint, e: JointEvent)
    requires cfg.crypto.Ideal() && cfg.forgets && 0.0 <= skew && ecfg.gate
    requires Joined(cfg, skew, ecfg, sop, initial, j) && Lawful(cfg, skew, sop, j, e)
    requires e.DoStep? && CanStep(sop, j) && StepRequest(sop, j).WriteRequest?
    requires |Step(cfg, upper, j.sys, WriteEvent(sop, j, e)).jobs| == |j.sys.jobs|
    ensures Joined(cfg, skew, ecfg, sop, initial, JointStep(cfg, upper, ecfg, sop, j, e))
  {
    var w := WriteEvent(sop, j, e);
    var sys' := Step(cfg, upper, j.sys, w);
    var log' := j.log + Noted(cfg, sop, j, e);
    hide *;
    RefusedStep(cfg, upper, ecfg, sop, j, e);
    WriteParts(cfg, upper, skew, ecfg, sop, initial, j, e, log');
    GateKeptFor(cfg, upper, skew, sop, initial, ecfg, j, e, w) by { GateEventOfWrite(sop, j, e); }
    assert Sourced(cfg, sys') && Guarded(cfg, skew, sys');
    WriteFailedParts(cfg, skew, ecfg, sop, initial, j, log');
    AnswerJoined(cfg, skew, ecfg, sop, initial, j, sys', log', WRITE_FAILED);
  }

  lemma WriteRequestIsWrite(sop: SopDefinition, j: Joint)
    requires AtStep(sop, j.life.proc) && StepRequest(sop, j).WriteRequest?
    ensures sop.steps[j.life.proc.status.next].IsWrite()
  {
  }

  lemma WriteAuthorizedJoined(
    cfg: GateConfig, upper: char -> string, skew: real, ecfg: EngineConfig, sop: SopDefinition,
    initial: map<string, string>, j: Joint, e: JointEvent)
    requires cfg.crypto.Ideal() && cfg.forgets && 0.0 <= skew && ecfg.gate
    requires Joined(cfg, skew, ecfg, sop, initial, j) && Lawful(cfg, skew, sop, j, e)
    requires e.DoStep? && CanStep(sop, j) && StepRequest(sop, j).WriteRequest?
    requires |Step(cfg, upper, j.sys, WriteEvent(sop, j, e)).jobs| > |j.sys.jobs|
    ensures Joined(cfg, skew, ecfg, sop, initial, JointStep(cfg, upper, ecfg, sop, j, e))
  {
    hide Step, Lawful, Noted, Sourced, Guarded, Kept, Coherent, DataInStep;
    hide AllWritesLogged, Crypto.Ideal, Passes, RequestOf;
    var w := WriteEvent(sop, j, e);
    var sys' := Step(cfg, upper, j.sys, w);
    var log' := j.log + Noted(cfg, sop, j, e);
    assert JointStep(cfg, upper, ecfg, sop, j, e) == Joint(j.life, sys', Some(|j.sys.jobs|), log');
    StepGrows(cfg, upper, j.sys, w);
    WriteParts(cfg, upper, skew, ecfg, sop, initial, j, e, log');
    GateKeptFor(cfg, upper, skew, sop, initial, ecfg, j, e, w);
    NextIsCallCount(ecfg, sop, j.life);
    LoggedGrows(sop, |j.life.proc.ctx.results|, |j.life.proc.ctx.results|, j.log, log');
    assert sop.steps[j.life.proc.status.next].IsWrite() by { WriteRequestIsWrite(sop, j); }
  }

  lemma FinishJoined(
    cfg: GateConfig, upper: char -> string, skew: real, ecfg: EngineConfig, sop: SopDefinition,
    initial: map<string, string>, j: Joint, e: JointEvent)
    requires cfg.crypto.Ideal() && cfg.forgets && 0.0 <= skew && ecfg.gate
    requires Joined(cfg, skew, ecfg, sop, initial, j) && Lawful(cfg, skew, sop, j, e)
    requires e.Finish? && j.waiting.Some?
    ensures Joined(cfg, skew, ecfg, sop, initial, JointStep(cfg, upper, ecfg, sop, j, e))
  {
    hide Step, Lawful, Sourced, Guarded, Kept, Coherent, DataInStep;
    hide AllWritesLogged, Crypto.Ideal, AnswerLife, SopStep.IsWrite;
    var g := Commit(j.waiting.value, e.order, e.db);
    var sys' := Step(cfg, upper, j.sys, g);
    StepGrows(cfg, upper, j.sys, g);
    GateKeptFor(cfg, upper, skew, sop, initial, ecfg, j, e, g);
    var r := if sys'.jobs[j.waiting.value].state == Committed then WRITE_DONE else WRITE_FAILED;
    var life' := AnswerLife(ecfg, sop, j.life, r);
    assert j.log + [] == j.log;
    assert JointStep(cfg, upper, ecfg, sop, j, e) == Joint(life', sys', None, j.log);
    NextIsCallCount(ecfg, sop, j.life);
    AnswerWrite(ecfg, sop, j.life, r);
    LoggedGrows(sop, |j.life.proc.ctx.results|, |life'.proc.ctx.results|, j.log, j.log);
    AnswerJoined(cfg, skew, ecfg, sop, initial, j, sys', j.log, r);
  }

  lemma IdleJoined(
    cfg: GateConfig, upper: char -> string, skew: real, ecfg: EngineConfig, sop: SopDefinition,
    initial: map<string, string>, j: Joint, e: JointEvent)
    requires (e.Finish? && j.waiting.None?) || (e.DoStep? && !CanStep(sop, j))
    ensures JointStep(cfg, upper, ecfg, sop, j, e) == j
  {
    assert j.log + [] == j.log;
  }

  lemma StepJoined(
    cfg: GateConfig, upper: char -> string, skew: real, ecfg: EngineConfig, sop: SopDefinition,
    initial: map<string, string>, j: Joint, e: JointEvent)
    requires cfg.crypto.Ideal() && cfg.forgets && 0.0 <= skew && ecfg.gate
    requires Joined(cfg, skew, ecfg, sop, initial, j) && Lawful(cfg, skew, sop, j, e) && e.DoStep?
    ensures Joined(cfg, skew, ecfg, sop, initial, JointStep(cfg, upper, ecfg, sop, j, e))
  {
    hide Joined, Lawful, JointStep, Step, Crypto.Ideal, RequestOf;
    if !CanStep(sop, j) {
      IdleJoined(cfg, upper, skew, ecfg, sop, initial, j, e);
    } else {
      match StepRequest(sop, j)
      case NoRequest => UnaskedJoined(cfg, upper, skew, ecfg, sop, initial, j, e);
      case CheckRequest(_, _) => CheckJoined(cfg, upper, skew, ecfg, sop, initial, j, e);
      case WriteRequest(_, _, _) =>
        StepGrows(cfg, upper, j.sys, WriteEvent(sop, j, e));
        if |Step(cfg, upper, j.sys, WriteEvent(sop, j, e)).jobs| > |j.sys.jobs| {
          WriteAuthorizedJoined(cfg, upper, skew, ecfg, sop, initial, j, e);
        } else {
          WriteRefusedJoined(cfg, upper, skew, ecfg, sop, initial, j, e);
        }
    }
  }

  lemma JoinedStep(
    cfg: GateConfig, upper: char -> string, skew: real, ecfg: EngineConfig, sop: SopDefinition,
    initial: map<string, string>, j: Joint, e: JointEvent)
    requires cfg.crypto.Ideal() && cfg.forgets && 0.0 <= skew && ecfg.gate
    requires Joined(cfg, skew, ecfg, sop, initial, j) && Lawful(cfg, skew, sop, j, e)
    ensures Joined(cfg, skew, ecfg, sop, initial, JointStep(cfg, upper, ecfg, sop, j, e))
  {
    hide *;
    match e
    case Others(_) => OthersJoined(cfg, upper, skew, ecfg, sop, initial, j, e);
    case Caller(_) => CallerJoined(cfg, upper, skew, ecfg, sop, initial, j, e);
    case Finish(_, _) =>
      if j.waiting.Some? {
        FinishJoined(cfg, upper, skew, ecfg, sop, initial, j, e);
      } else {
        IdleJoined(cfg, upper, skew, ecfg, sop, initial, j, e);
      }
    case DoStep(_, _, _, _) => StepJoined(cfg, upper, skew, ecfg, sop, initial, j, e);
  }

  // ----- Whole runs -----

  /** A new run beside a gate that is already in use. */
  function NewRun(ecfg: EngineConfig, sop: SopDefinition, runId: string, initial: map<string, string>, s: Sys): Joint
  {
    Joint(Created(ecfg, sop, runId, initial), s, None, [])
  }

  lemma {:induction false} RunIsJoined(
    cfg: GateConfig, upper: char -> string, skew: real, ecfg: EngineConfig, sop: SopDefinition,
    runId: string, initial: map<string, string>, s: Sys, es: seq<JointEvent>)
    requires cfg.crypto.Ideal() && cfg.forgets && 0.0 <= skew && ecfg.gate && Sourced(cfg, s) && Guarded(cfg, skew, s)
    requires LawfulRun(cfg, upper, skew, ecfg, sop, NewRun(ecfg, sop, runId, initial, s), es)
    ensures Joined(cfg, skew, ecfg, sop, initial,
      JointRun(cfg, upper, ecfg, sop, NewRun(ecfg, sop, runId, initial, s), es))
  {
    hide Sourced, Guarded, JointStep, Lawful, Crypto.Ideal;
    if es != [] {
      hide Joined;
      var start := NewRun(ecfg, sop, runId, initial, s);
      RunIsJoined(cfg, upper, skew, ecfg, sop, runId, initial, s, es[..|es| - 1]);
      JoinedStep(cfg, upper, skew, ecfg, sop, initial,
                 JointRun(cfg, upper, ecfg, sop, start, es[..|es| - 1]), es[|es| - 1]);
    }
  }

  /** Where the nonce of a recorded write came from: the run's initial data, or a validation of the data written. */
  ghost predicate Prepared(
    cfg: GateConfig, initial: map<string, string>, passes: seq<Pass>, log: seq<Act>, k: nat)
    requires k < |log| && log[k].Wrote? && log[k].pass < |passes|
  {
    var b := log[k];
    || b.nonce == Lookup(initial, NonceKey(b.key))
    || exists m :: 0 <= m < k && log[m].Checked? && log[m].domain == b.domain && log[m].key == b.key
                   && log[m].data == b.data && log[m].nonce == b.nonce && log[m].tick == passes[b.pass].tick
  }

  lemma WriteIsPrepared(
    cfg: GateConfig, sop: SopDefinition, initial: map<string, string>, passes: seq<Pass>, log: seq<Act>, k: nat)
    requires cfg.crypto.Ideal() && Coherent(cfg, sop, initial, passes, log) && k < |log| && log[k].Wrote?
    ensures log[k].pass < |passes| && Prepared(cfg, initial, passes, log, k)
    ensures passes[log[k].pass].domain == log[k].domain && passes[log[k].pass].data == log[k].data
  {
    hide Parse, Crypto.Print, Crypto.Sign, Crypto.Ideal;
    var b := log[k];
    assert ActOk(cfg, sop, initial, passes, log[..k], b);
    assert log[..0] == [];
    var m := SlotComesFrom(log, initial, b.key, 0, k);
    if SlotAt(log[..k], initial, b.key) != SlotAt(log[..0], initial, b.key) {
      var q, c := passes[b.pass], log[m];
      assert ActOk(cfg, sop, initial, passes, log[..m], c);
      ParseInvertsPrint(cfg.crypto, c.tick, c.domain, c.data);
      SignIsInjective(cfg.crypto, c.tick, c.domain, c.data, q.tick, q.domain, q.data);
    }
  }

  lemma PassComesFromIssue(cfg: GateConfig, s: Sys, k: nat)
    requires Sourced(cfg, s) && k < |s.passes|
    ensures exists i :: i in s.issued && Comes(cfg, s.passes[k], i)
  {
    hide JobOk, Comes;
    assert s.passes[k] in s.passes;
  }

  /**
   Every write a run makes, its first and only one included: the gate passed exactly the run's domain and data, on the
   strength of an issue for them at most TTL before the check, however long the run was suspended; and
   the nonce is one the run was given at the start, or that of its own earlier validation of that data.
   */
  lemma EveryWriteIsFresh(
    cfg: GateConfig, upper: char -> string, skew: real, ecfg: EngineConfig, sop: SopDefinition,
    runId: string, initial: map<string, string>, s: Sys, es: seq<JointEvent>, k: nat)
    requires cfg.crypto.Ideal() && cfg.forgets && 0.0 <= skew && ecfg.gate && Sourced(cfg, s) && Guarded(cfg, skew, s)
    requires LawfulRun(cfg, upper, skew, ecfg, sop, NewRun(ecfg, sop, runId, initial, s), es)
    requires k < |JointRun(cfg, upper, ecfg, sop, NewRun(ecfg, sop, runId, initial, s), es).log|
    requires JointRun(cfg, upper, ecfg, sop, NewRun(ecfg, sop, runId, initial, s), es).log[k].Wrote?
    ensures var j := JointRun(cfg, upper, ecfg, sop, NewRun(ecfg, sop, runId, initial, s), es);
            var a := j.log[k];
            && a.pass < |j.sys.passes|
            && j.sys.passes[a.pass].domain == a.domain && j.sys.passes[a.pass].data == a.data
            && (exists i :: i in j.sys.issued && Comes(cfg, j.sys.passes[a.pass], i))
            && Prepared(cfg, initial, j.sys.passes, j.log, k)
  {
    var j := JointRun(cfg, upper, ecfg, sop, NewRun(ecfg, sop, runId, initial, s), es);
    RunIsJoined(cfg, upper, skew, ecfg, sop, runId, initial, s, es);
    hide JointRun, LawfulRun, NewRun, Sourced, Guarded, Kept, Coherent;
    hide DataInStep, AllWritesLogged, Pending, Crypto.Ideal;
    hide Comes, Prepared;
    WriteIsPrepared(cfg, sop, initial, j.sys.passes, j.log, k);
    PassComesFromIssue(cfg, j.sys, j.log[k].pass);
  }

  lemma SameDataUnlessSlot(
    cfg: GateConfig, sop: SopDefinition, initial: map<string, string>, passes: seq<Pass>, log: seq<Act>, i: nat, k: nat)
    requires Coherent(cfg, sop, initial, passes, log) && i < |log| && k < |log| && log[i].key == log[k].key
    ensures !IsSlot(log[k].key) ==> log[i].data == log[k].data
  {
    hide CheckedOk, WroteOk;
    assert ActOk(cfg, sop, initial, passes, log[..i], log[i]) && ActOk(cfg, sop, initial, passes, log[..k], log[k]);
  }

  lemma PassesInTime(cfg: GateConfig, s: Sys, k: nat)
    requires Sourced(cfg, s) && k < |s.passes|
    ensures s.passes[k].at.check - (s.passes[k].tick as real) <= cfg.ttl as real
  {
    hide JobOk, Comes;
    assert s.passes[k] in s.passes;
  }

  lemma JoinedWrites(
    cfg: GateConfig, skew: real, ecfg: EngineConfig, sop: SopDefinition, initial: map<string, string>, j: Joint,
    i: nat, k: nat)
    returns (m: nat)
    requires cfg.crypto.Ideal() && Joined(cfg, skew, ecfg, sop, initial, j)
    requires i < k < |j.log| && j.log[i].Wrote? && j.log[k].Wrote?
    requires j.log[i].domain == j.log[k].domain && j.log[i].key == j.log[k].key
    ensures i < m < k && j.log[i].pass < |j.sys.passes| && j.log[k].pass < |j.sys.passes|
    ensures Renews(j.sys.passes, j.log, i, m, k)
    ensures !IsSlot(j.log[k].key) ==> j.sys.passes[j.log[i].pass].tick < j.log[m].tick
    ensures j.sys.passes[j.log[k].pass].at.check - (j.log[m].tick as real) <= cfg.ttl as real
  {
    hide Sourced, Remembered, Dead, Signature, Kept, Coherent, ActOk, DataInStep, AllWritesLogged, Pending, IsSlot;
    m := WritesNeedFreshCheck(cfg, sop, initial, j.sys, j.log, i, k);
    SameDataUnlessSlot(cfg, sop, initial, j.sys.passes, j.log, i, k);
    PassesInTime(cfg, j.sys, j.log[k].pass);
  }

  /**
   Between two writes of one run to the same domain and data key lies a validation for them, at a strictly later
   tick than the first write's nonce if the data is the same, as it is for every key that is not one
   of the engine's own slots; and the second is checked within TTL of that validation.
   */
  lemma WritesOfOneRun(
    cfg: GateConfig, upper: char -> string, skew: real, ecfg: EngineConfig, sop: SopDefinition,
    runId: string, initial: map<string, string>, s: Sys, es: seq<JointEvent>, i: nat, k: nat)
    returns (m: nat)
    requires cfg.crypto.Ideal() && cfg.forgets && 0.0 <= skew && ecfg.gate && Sourced(cfg, s) && Guarded(cfg, skew, s)
    requires LawfulRun(cfg, upper, skew, ecfg, sop, NewRun(ecfg, sop, runId, initial, s), es)
    requires var log := JointRun(cfg, upper, ecfg, sop, NewRun(ecfg, sop, runId, initial, s), es).log;
             && i < k < |log| && log[i].Wrote? && log[k].Wrote?
             && log[i].domain == log[k].domain && log[i].key == log[k].key
    ensures var j := JointRun(cfg, upper, ecfg, sop, NewRun(ecfg, sop, runId, initial, s), es);
            && i < m < k && j.log[i].pass < |j.sys.passes| && j.log[k].pass < |j.sys.passes|
            && Renews(j.sys.passes, j.log, i, m, k)
            && (!IsSlot(j.log[k].key) ==> j.sys.passes[j.log[i].pass].tick < j.log[m].tick)
            && j.sys.passes[j.log[k].pass].at.check - (j.log[m].tick as real) <= cfg.ttl as real
  {
    var j := JointRun(cfg, upper, ecfg, sop, NewRun(ecfg, sop, runId, initial, s), es);
    RunIsJoined(cfg, upper, skew, ecfg, sop, runId, initial, s, es);
    hide *;
    m := JoinedWrites(cfg, skew, ecfg, sop, initial, j, i, k);
  }

  lemma CompletedIsFull(ecfg: EngineConfig, sop: SopDefinition, l: Life)
    requires Kept(ecfg, sop, l) && l.proc.ctx.state == COMPLETED
    ensures |l.proc.ctx.results| == |sop.steps|
  {
  }

  lemma LoggedWrite(
    cfg: GateConfig, sop: SopDefinition, initial: map<string, string>, j: Joint, k: nat) returns (i: nat)
    requires Coherent(cfg, sop, initial, j.sys.passes, j.log) && AllWritesLogged(sop, |sop.steps|, j.log)
    requires k < |sop.steps| && sop.steps[k].IsWrite()
    ensures i < |j.log| && j.log[i].Wrote? && j.log[i].step == k
    ensures j.log[i].domain == DomainOf(sop.steps[k]) && j.log[i].key == sop.steps[k].DataKey()
  {
    hide SlotAt, Signature, Parse;
    var a :| a in j.log && a.Wrote? && a.step == k;
    i :| 0 <= i < |j.log| && j.log[i] == a;
    assert ActOk(cfg, sop, initial, j.sys.passes, j.log[..i], j.log[i]);
  }

  /** The log is in step order. */
  lemma LogIsOrdered(
    cfg: GateConfig, sop: SopDefinition, initial: map<string, string>, passes: seq<Pass>, log: seq<Act>, i: nat, k: nat)
    requires Coherent(cfg, sop, initial, passes, log) && i < |log| && k < |log|
    ensures i < k ==> log[i].step < log[k].step
    ensures log[i].step < log[k].step ==> i < k
  {
    hide SlotAt, Signature, Parse;
    assert ActOk(cfg, sop, initial, passes, log[..i], log[i]) && ActOk(cfg, sop, initial, passes, log[..k], log[k]);
    if i < k {
      assert log[..k][i] == log[i];
    } else if k < i {
      assert log[..i][k] == log[k];
    }
  }

  /**
   Said of the definition alone: with a gate attached, a procedure that writes the same domain
   and data key twice completes only if one of the steps in between validates them again.
   */
  lemma CompletedRunsRevalidate(
    cfg: GateConfig, upper: char -> string, skew: real, ecfg: EngineConfig, sop: SopDefinition,
    runId: string, initial: map<string, string>, s: Sys, es: seq<JointEvent>, a: nat, b: nat)
    returns (c: nat)
    requires cfg.crypto.Ideal() && cfg.forgets && 0.0 <= skew && ecfg.gate && Sourced(cfg, s) && Guarded(cfg, skew, s)
    requires LawfulRun(cfg, upper, skew, ecfg, sop, NewRun(ecfg, sop, runId, initial, s), es)
    requires JointRun(cfg, upper, ecfg, sop, NewRun(ecfg, sop, runId, initial, s), es).life.proc.ctx.state == COMPLETED
    requires a < b < |sop.steps| && sop.steps[a].IsWrite() && sop.steps[b].IsWrite()
    requires DomainOf(sop.steps[a]) == DomainOf(sop.steps[b]) && sop.steps[a].DataKey() == sop.steps[b].DataKey()
    ensures a < c < b && sop.steps[c].kind == ValidateStep
    ensures DomainOf(sop.steps[c]) == DomainOf(sop.steps[b]) && sop.steps[c].DataKey() == sop.steps[b].DataKey()
  {
    var j := JointRun(cfg, upper, ecfg, sop, NewRun(ecfg, sop, runId, initial, s), es);
    RunIsJoined(cfg, upper, skew, ecfg, sop, runId, initial, s, es);
    hide JointRun, LawfulRun, NewRun, Sourced;
    CompletedIsFull(ecfg, sop, j.life);
    var i := LoggedWrite(cfg, sop, initial, j, a);
    var k := LoggedWrite(cfg, sop, initial, j, b);
    LogIsOrdered(cfg, sop, initial, j.sys.passes, j.log, i, k);
    var m := WritesNeedFreshCheck(cfg, sop, initial, j.sys, j.log, i, k);
    LogIsOrdered(cfg, sop, initial, j.sys.passes, j.log, i, m);
    LogIsOrdered(cfg, sop, initial, j.sys.passes, j.log, m, k);
    assert ActOk(cfg, sop, initial, j.sys.passes, j.log[..m], j.log[m]);
    c := j.log[m].step;
  }

  // ----- What a completed run has written -----

  /** The write that was recorded for step k is in the database. */
  ghost predicate IsIn(j: Joint, k: nat)
  {
    exists i, n :: && 0 <= i < |j.log| && j.log[i].Wrote? && j.log[i].step == k
                   && 0 <= n < |j.sys.jobs| && j.sys.jobs[n].pass == j.log[i].pass && j.sys.jobs[n].state == Committed
  }

  /** Every write step with a result is in the database, and the write under way belongs to the step under way. */
  ghost predicate Landed(sop: SopDefinition, j: Joint)
  {
    && (forall k :: 0 <= k < |j.life.proc.ctx.results| && k < |sop.steps| && sop.steps[k].IsWrite() ==> IsIn(j, k))
    && (j.waiting.Some? ==>
          && j.waiting.value < |j.sys.jobs|
          && exists i :: && 0 <= i < |j.log| && j.log[i].Wrote? && j.log[i].step == |j.life.calls|
                         && j.log[i].pass == j.sys.jobs[j.waiting.value].pass)
  }

  /** Jobs stay, with their passes, and committed ones stay committed. */
  lemma JobsStay(cfg: GateConfig, upper: char -> string, skew: real, s: Sys, e: Event, n: nat)
    requires Legal(cfg, skew, s, e) && n < |s.jobs|
    ensures var s' := Step(cfg, upper, s, e);
            n < |s'.jobs| && s'.jobs[n].pass == s.jobs[n].pass
            && (s.jobs[n].state == Committed ==> s'.jobs[n].state == Committed)
  {
    hide VerifyNonce, Cypher.WriteBatch, Cypher.Translate, Compliant, TakeQuota, Unforged;
  }

  /** More log and more jobs lose nothing that has landed. */
  lemma LandedGrows(
    cfg: GateConfig, upper: char -> string, skew: real, sop: SopDefinition, j: Joint, j': Joint, g: Event)
    requires Landed(sop, j) && Legal(cfg, skew, j.sys, g) && j'.sys == Step(cfg, upper, j.sys, g)
    requires j.log <= j'.log
    ensures forall k :: IsIn(j, k) ==> IsIn(j', k)
  {
    hide Step, Legal;
    forall k: nat | IsIn(j, k) ensures IsIn(j', k) {
      var i, n :| && 0 <= i < |j.log| && j.log[i].Wrote? && j.log[i].step == k
                  && 0 <= n < |j.sys.jobs| && j.sys.jobs[n].pass == j.log[i].pass && j.sys.jobs[n].state == Committed;
      JobsStay(cfg, upper, skew, j.sys, g, n);
      assert j'.log[i] == j.log[i];
    }
  }

  lemma OthersLanded(
    cfg: GateConfig, upper: char -> string, skew: real, ecfg: EngineConfig, sop: SopDefinition, j: Joint, e: JointEvent)
    requires Landed(sop, j) && Lawful(cfg, skew, sop, j, e) && e.Others?
    ensures Landed(sop, JointStep(cfg, upper, ecfg, sop, j, e))
  {
    hide Step, Legal, Mature, IsIn;
    assert j.log + [] == j.log;
    var j' := JointStep(cfg, upper, ecfg, sop, j, e);
    LandedGrows(cfg, upper, skew, sop, j, j', e.gate);
    if j.waiting.Some? {
      JobsStay(cfg, upper, skew, j.sys, e.gate, j.waiting.value);
    }
  }

  lemma CallerLanded(
    cfg: GateConfig, upper: char -> string, skew: real, ecfg: EngineConfig, sop: SopDefinition, j: Joint, e: JointEvent)
    requires Landed(sop, j) && Kept(ecfg, sop, j.life) && Lawful(cfg, skew, sop, j, e) && e.Caller?
    ensures Landed(sop, JointStep(cfg, upper, ecfg, sop, j, e))
  {
    hide Kept, LifeStep;
    assert j.log + [] == j.log;
    if !e.call.Answer? {
      CallersKeepData(ecfg, sop, j.life, e.call);
    }
  }

  /** A step without a write under way: it records nothing for a write step. */
  lemma UnwrittenLanded(sop: SopDefinition, j: Joint, j': Joint)
    requires Landed(sop, j) && (forall k :: IsIn(j, k) ==> IsIn(j', k)) && j'.waiting.None?
    requires var n := |j.life.proc.ctx.results|;
             || |j'.life.proc.ctx.results| == n
             || (|j'.life.proc.ctx.results| == n + 1 && n < |sop.steps| && !sop.steps[n].IsWrite())
    ensures Landed(sop, j')
  {
    hide IsIn;
  }

  lemma SameSysIn(j: Joint, j': Joint)
    requires j'.sys == j.sys && j.log <= j'.log
    ensures forall k :: IsIn(j, k) ==> IsIn(j', k)
  {
    forall k: nat | IsIn(j, k) ensures IsIn(j', k) {
      var i, n :| && 0 <= i < |j.log| && j.log[i].Wrote? && j.log[i].step == k
                  && 0 <= n < |j.sys.jobs| && j.sys.jobs[n].pass == j.log[i].pass && j.sys.jobs[n].state == Committed;
      assert j'.log[i] == j.log[i];
    }
  }

  lemma CheckLanded(
    cfg: GateConfig, upper: char -> string, skew: real, ecfg: EngineConfig, sop: SopDefinition, j: Joint, e: JointEvent)
    requires ecfg.gate && Landed(sop, j) && Kept(ecfg, sop, j.life) && Lawful(cfg, skew, sop, j, e)
    requires e.DoStep? && CanStep(sop, j) && StepRequest(sop, j).CheckRequest?
    ensures Landed(sop, JointStep(cfg, upper, ecfg, sop, j, e))
  {
    hide Step, Legal, Mature, IsIn, AnswerLife, Kept, Landed, Noted, Validate;
    var g := GateEvent(sop, j, e).value;
    var j' := JointStep(cfg, upper, ecfg, sop, j, e);
    StepGrows(cfg, upper, j.sys, g);
    NextIsCallCount(ecfg, sop, j.life);
    var r := e.reply.(check := CheckReplyOf(Validate(cfg, e.time, g.domain, g.data, TURTLE)));
    AnswerCheck(ecfg, sop, j.life, r);
    assert j'.life == AnswerLife(ecfg, sop, j.life, r);
    LandedGrows(cfg, upper, skew, sop, j, j', g);
    UnwrittenLanded(sop, j, j');
  }

  lemma NewJob(cfg: GateConfig, upper: char -> string, s: Sys, e: Event)
    requires e.Write? && |Step(cfg, upper, s, e).jobs| > |s.jobs|
    ensures Passes(cfg, s, e)
    ensures |Step(cfg, upper, s, e).jobs| == |s.jobs| + 1 && Step(cfg, upper, s, e).jobs[|s.jobs|].pass == |s.passes|
  {
    hide VerifyNonce, Compliant, TakeQuota;
  }

  lemma WaitingLanded(cfg: GateConfig, sop: SopDefinition, j: Joint, j': Joint, e: JointEvent)
    requires Landed(sop, j) && (forall k :: IsIn(j, k) ==> IsIn(j', k)) && j'.life == j.life
    requires e.DoStep? && CanStep(sop, j) && StepRequest(sop, j).WriteRequest?
    requires Passes(cfg, j.sys, WriteEvent(sop, j, e))
    requires j'.waiting == Some(|j.sys.jobs|) && |j'.sys.jobs| == |j.sys.jobs| + 1
    requires j'.sys.jobs[|j.sys.jobs|].pass == |j.sys.passes| && j'.log == j.log + Noted(cfg, sop, j, e)
    requires j.life.proc.status.next == |j.life.calls|
    ensures Landed(sop, j')
  {
    hide IsIn, RequestOf, Passes;
    assert j'.log[|j.log|].Wrote? && j'.log[|j.log|].step == |j.life.calls| && j'.log[|j.log|].pass == |j.sys.passes|;
  }

  lemma WriteLanded(
    cfg: GateConfig, upper: char -> string, skew: real, ecfg: EngineConfig, sop: SopDefinition, j: Joint, e: JointEvent)
    requires ecfg.gate && Landed(sop, j) && Kept(ecfg, sop, j.life) && Lawful(cfg, skew, sop, j, e)
    requires e.DoStep? && CanStep(sop, j) && StepRequest(sop, j).WriteRequest?
    ensures Landed(sop, JointStep(cfg, upper, ecfg, sop, j, e))
  {
    hide Step, Legal, Mature, IsIn, AnswerLife, Kept, Landed, Noted, RequestOf, SopStep.IsWrite;
    var w := WriteEvent(sop, j, e);
    var sys' := Step(cfg, upper, j.sys, w);
    var j' := JointStep(cfg, upper, ecfg, sop, j, e);
    assert GateEvent(sop, j, e) == Some(w);
    StepGrows(cfg, upper, j.sys, w);
    NextIsCallCount(ecfg, sop, j.life);
    LandedGrows(cfg, upper, skew, sop, j, j', w);
    if |sys'.jobs| == |j.sys.jobs| {
      RefusedStep(cfg, upper, ecfg, sop, j, e);
      WriteRequestIsWrite(sop, j);
      AnswerWrite(ecfg, sop, j.life, WRITE_FAILED);
      UnwrittenLanded(sop, j, j');
    } else {
      NewJob(cfg, upper, j.sys, w);
      WaitingLanded(cfg, sop, j, j', e);
    }
  }

  lemma StepLanded(
    cfg: GateConfig, upper: char -> string, skew: real, ecfg: EngineConfig, sop: SopDefinition, j: Joint, e: JointEvent)
    requires ecfg.gate && Landed(sop, j) && Kept(ecfg, sop, j.life) && Lawful(cfg, skew, sop, j, e)
    requires e.DoStep? && CanStep(sop, j)
    ensures Landed(sop, JointStep(cfg, upper, ecfg, sop, j, e))
  {
    hide Step, Legal, Mature, IsIn, AnswerLife, Kept, RequestOf, Landed, SopStep.IsWrite, Noted;
    var j' := JointStep(cfg, upper, ecfg, sop, j, e);
    NextIsCallCount(ecfg, sop, j.life);
    match StepRequest(sop, j)
    case NoRequest =>
      AnswerWithoutRequest(ecfg, sop, j.life, e.reply);
      SameSysIn(j, j');
      UnwrittenLanded(sop, j, j');
    case CheckRequest(_, _) =>
      CheckLanded(cfg, upper, skew, ecfg, sop, j, e);
    case WriteRequest(_, _, _) =>
      WriteLanded(cfg, upper, skew, ecfg, sop, j, e);
  }

  lemma JustLanded(j: Joint, j': Joint, k: nat, n: nat)
    requires j'.log == j.log && n < |j.sys.jobs| && n < |j'.sys.jobs| && j'.sys.jobs[n].pass == j.sys.jobs[n].pass
    requires j'.sys.jobs[n].state == Committed
    requires exists i ::
      0 <= i < |j.log| && j.log[i].Wrote? && j.log[i].step == k && j.log[i].pass == j.sys.jobs[n].pass
    ensures IsIn(j', k)
  {
  }

  lemma UnreportedWrite(ecfg: EngineConfig, sop: SopDefinition, l: Life, r: Reply)
    requires ecfg.gate && AtStep(sop, l.proc) && sop.steps[l.proc.status.next].IsWrite() && !r.written
    ensures AnswerLife(ecfg, sop, l, r).proc.ctx.results == l.proc.ctx.results
  {
    hide RequestOf;
  }

  lemma FinishLanded(
    cfg: GateConfig, upper: char -> string, skew: real, ecfg: EngineConfig, sop: SopDefinition, j: Joint, e: JointEvent)
    requires ecfg.gate && Landed(sop, j) && Kept(ecfg, sop, j.life) && Lawful(cfg, skew, sop, j, e)
    requires e.Finish? && j.waiting.Some? && AtStep(sop, j.life.proc)
    requires sop.steps[j.life.proc.status.next].IsWrite()
    ensures Landed(sop, JointStep(cfg, upper, ecfg, sop, j, e))
  {
    hide Step, Legal, Mature, AnswerLife, Kept, IsIn, SopStep.IsWrite;
    var g := Commit(j.waiting.value, e.order, e.db);
    var j' := JointStep(cfg, upper, ecfg, sop, j, e);
    assert j.log + [] == j.log;
    JobsStay(cfg, upper, skew, j.sys, g, j.waiting.value);
    LandedGrows(cfg, upper, skew, sop, j, j', g);
    NextIsCallCount(ecfg, sop, j.life);
    var r := if j'.sys.jobs[j.waiting.value].state == Committed then WRITE_DONE else WRITE_FAILED;
    assert j'.life == AnswerLife(ecfg, sop, j.life, r);
    AnswerWrite(ecfg, sop, j.life, r);
    if r == WRITE_DONE {
      assert IsIn(j', |j.life.calls|) by { JustLanded(j, j', |j.life.calls|, j.waiting.value); }
    } else {
      UnreportedWrite(ecfg, sop, j.life, r);
    }
  }

  lemma LandedStep(
    cfg: GateConfig, upper: char -> string, skew: real, ecfg: EngineConfig, sop: SopDefinition,
    initial: map<string, string>, j: Joint, e: JointEvent)
    requires ecfg.gate && Landed(sop, j) && Joined(cfg, skew, ecfg, sop, initial, j) && Lawful(cfg, skew, sop, j, e)
    ensures Landed(sop, JointStep(cfg, upper, ecfg, sop, j, e))
  {
    hide Landed, Lawful, JointStep, Sourced, Guarded, Kept, Coherent, DataInStep, AllWritesLogged, AtStep;
    match e
    case Others(_) => OthersLanded(cfg, upper, skew, ecfg, sop, j, e);
    case Caller(_) => CallerLanded(cfg, upper, skew, ecfg, sop, j, e);
    case Finish(_, _) =>
      if j.waiting.Some? {
        FinishLanded(cfg, upper, skew, ecfg, sop, j, e);
      } else {
        IdleJoined(cfg, upper, skew, ecfg, sop, initial, j, e);
      }
    case DoStep(_, _, _, _) =>
      if CanStep(sop, j) {
        StepLanded(cfg, upper, skew, ecfg, sop, j, e);
      } else {
        IdleJoined(cfg, upper, skew, ecfg, sop, initial, j, e);
      }
  }

  lemma {:induction false} RunIsLanded(
    cfg: GateConfig, upper: char -> string, skew: real, ecfg: EngineConfig, sop: SopDefinition,
    runId: string, initial: map<string, string>, s: Sys, es: seq<JointEvent>)
    requires cfg.crypto.Ideal() && cfg.forgets && 0.0 <= skew && ecfg.gate && Sourced(cfg, s) && Guarded(cfg, skew, s)
    requires LawfulRun(cfg, upper, skew, ecfg, sop, NewRun(ecfg, sop, runId, initial, s), es)
    ensures Landed(sop, JointRun(cfg, upper, ecfg, sop, NewRun(ecfg, sop, runId, initial, s), es))
  {
    hide Sourced, Guarded, JointStep, Lawful, Crypto.Ideal;
    if es != [] {
      hide Joined, Landed;
      var start := NewRun(ecfg, sop, runId, initial, s);
      RunIsLanded(cfg, upper, skew, ecfg, sop, runId, initial, s, es[..|es| - 1]);
      RunIsJoined(cfg, upper, skew, ecfg, sop, runId, initial, s, es[..|es| - 1]);
      LandedStep(cfg, upper, skew, ecfg, sop, initial,
                 JointRun(cfg, upper, ecfg, sop, start, es[..|es| - 1]), es[|es| - 1]);
    }
  }

  lemma WrotePass(
    cfg: GateConfig, sop: SopDefinition, initial: map<string, string>, passes: seq<Pass>, log: seq<Act>, i: nat)
    requires Coherent(cfg, sop, initial, passes, log) && i < |log| && log[i].Wrote?
    ensures log[i].step < |sop.steps| && log[i].pass < |passes|
    ensures passes[log[i].pass].domain == DomainOf(sop.steps[log[i].step])
    ensures var key := sop.steps[log[i].step].DataKey();
            !IsSlot(key) ==> passes[log[i].pass].data == Lookup(initial, key)
  {
    hide SlotAt, Signature, Parse;
    assert ActOk(cfg, sop, initial, passes, log[..i], log[i]);
  }

  lemma JobConforms(cfg: GateConfig, s: Sys, n: nat)
    requires Sourced(cfg, s) && n < |s.jobs|
    ensures s.jobs[n].pass < |s.passes|
    ensures var p := s.passes[s.jobs[n].pass];
            && cfg.ontology.parse(p.data, p.format) == Some(s.jobs[n].graph)
            && cfg.ontology.shacl(p.domain, s.jobs[n].graph) == Some(true)
  {
    hide HasOrigin;
    assert JobOk(cfg, s, s.jobs[n]);
  }

  lemma LandedWrite(
    cfg: GateConfig, skew: real, ecfg: EngineConfig, sop: SopDefinition, initial: map<string, string>, j: Joint, k: nat)
    returns (n: nat)
    requires Joined(cfg, skew, ecfg, sop, initial, j) && Landed(sop, j) && j.life.proc.ctx.state == COMPLETED
    requires k < |sop.steps| && sop.steps[k].IsWrite()
    ensures n < |j.sys.jobs| && j.sys.jobs[n].state == Committed && j.sys.jobs[n].pass < |j.sys.passes|
    ensures var p := j.sys.passes[j.sys.jobs[n].pass];
            && p.domain == DomainOf(sop.steps[k])
            && (!IsSlot(sop.steps[k].DataKey()) ==> p.data == Lookup(initial, sop.steps[k].DataKey()))
            && cfg.ontology.parse(p.data, p.format) == Some(j.sys.jobs[n].graph)
            && cfg.ontology.shacl(p.domain, j.sys.jobs[n].graph) == Some(true)
  {
    hide Guarded, DataInStep, AllWritesLogged, Pending, Sourced, Coherent, IsSlot;
    CompletedIsFull(ecfg, sop, j.life);
    hide Kept;
    assert IsIn(j, k);
    var i: nat;
    i, n :| && 0 <= i < |j.log| && j.log[i].Wrote? && j.log[i].step == k
            && 0 <= n < |j.sys.jobs| && j.sys.jobs[n].pass == j.log[i].pass && j.sys.jobs[n].state == Committed;
    hide IsIn, Landed;
    WrotePass(cfg, sop, initial, j.sys.passes, j.log, i);
    JobConforms(cfg, j.sys, n);
  }

  /** What a completed run means for the graph: for each of its write steps a write has been committed, of data in the
      step's own domain that conforms, and as the graph that data parses to. */
  lemma CompletedWritesAreCommitted(
    cfg: GateConfig, upper: char -> string, skew: real, ecfg: EngineConfig, sop: SopDefinition,
    runId: string, initial: map<string, string>, s: Sys, es: seq<JointEvent>, k: nat)
    returns (n: nat)
    requires cfg.crypto.Ideal() && cfg.forgets && 0.0 <= skew && ecfg.gate && Sourced(cfg, s) && Guarded(cfg, skew, s)
    requires LawfulRun(cfg, upper, skew, ecfg, sop, NewRun(ecfg, sop, runId, initial, s), es)
    requires JointRun(cfg, upper, ecfg, sop, NewRun(ecfg, sop, runId, initial, s), es).life.proc.ctx.state == COMPLETED
    requires k < |sop.steps| && sop.steps[k].IsWrite()
    ensures var j := JointRun(cfg, upper, ecfg, sop, NewRun(ecfg, sop, runId, initial, s), es);
            && n < |j.sys.jobs| && j.sys.jobs[n].state == Committed && j.sys.jobs[n].pass < |j.sys.passes|
            && var p := j.sys.passes[j.sys.jobs[n].pass];
               && p.domain == DomainOf(sop.steps[k])
               && (!IsSlot(sop.steps[k].DataKey()) ==> p.data == Lookup(initial, sop.steps[k].DataKey()))
               && cfg.ontology.parse(p.data, p.format) == Some(j.sys.jobs[n].graph)
               && cfg.ontology.shacl(p.domain, j.sys.jobs[n].graph) == Some(true)
  {
    var j := JointRun(cfg, upper, ecfg, sop, NewRun(ecfg, sop, runId, initial, s), es);
    RunIsJoined(cfg, upper, skew, ecfg, sop, runId, initial, s, es);
    RunIsLanded(cfg, upper, skew, ecfg, sop, runId, initial, s, es);
    hide *;
    n := LandedWrite(cfg, skew, ecfg, sop, initial, j, k);
  }
}
