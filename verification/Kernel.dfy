/**
 The kernel's main entry: each message passes the firewall, the circuit breaker and the
 policy, is processed, and is billed afterwards; only real errors are put down to the breaker.
 */
module Kernels {
  import opened Text
  import opened Timeline
  import opened Wrappers
  import opened AutonomyPolicies
  import opened WriteGates
  import opened CircuitBreakers
  import opened BillingFuses
  import KernelCommands
  import SopGate
  import Cypher

  /** How processing a message ends: an answer, a policy violation, or any other exception. */
  datatype Processed = Answered | PolicyRaised | Errored

  datatype Reply = Fine | Intercepted | Tripped | Blocked | Exhausted | Failed

  /** A message, what the hooks and the processing made of it, and when the breaker read its clock. */
  datatype Dispatch = Dispatch(
    text: string, intercepted: bool, policyBlocks: bool, outcome: Processed, checked: real, failedAt: real)

  datatype KernelConfig = KernelConfig(
    breaker: BreakerConfig, similar: Similarity, fuse: FuseConfig, lower: string -> string)

  datatype KernelState = KernelState(breaker: BreakerState, fuse: FuseState, sessions: nat)

  /** A message that mentions one of four words is charged for, whatever it was answered. */
  predicate Billable(lower: string -> string, text: string)
  {
    var low := lower(Strip(text));
    Contains(low, "validate") || Contains(low, "verify") || Contains(low, "write") || Contains(low, "execute")
  }

  function Dispatched(cfg: KernelConfig, k: KernelState, d: Dispatch): (KernelState, Reply)
  {
    var text := Strip(d.text);
    var k1 := k.(sessions := k.sessions + 1);
    if d.intercepted then (k1, Intercepted)
    else
      var (b, open) := IsOpen(cfg.breaker, k.breaker, text, d.checked);
      var k2 := k1.(breaker := b);
      if open then (k2, Tripped)
      else if d.policyBlocks then (k2, Blocked)
      else match d.outcome
        case PolicyRaised => (k2, Blocked)
        case Errored => (k2.(breaker := RecordFailure(cfg.breaker, cfg.similar, b, text, text, d.failedAt).0), Failed)
        case Answered =>
          if !Billable(cfg.lower, d.text) then (k2, Fine)
          else
            var (f, ok) := RecordUsage(cfg.fuse, k.fuse, BILLED);
            (k2.(fuse := f), if ok then Fine else Exhausted)
  }

  // ----- The kernel object -----

  /** What the environment does while one message is handled. */
  datatype Surroundings = Surroundings(
    intercepted: bool, policyBlocks: bool, checked: real, failedAt: real,
    wall: real, at: Reads, order: Graph -> seq<Cypher.Triple>, db: Cypher.Database)

  /** What the gate answers to a parsed governed write. */
  function GateAnswer(gate: GateConfig, core: GateCore, env: Surroundings, w: KernelCommands.Intent)
    : Result<Graph, GateError>
    requires w.GovernedWrite?
  {
    Authorize(gate, core, env.wall, env.at, w.domain, w.data, w.nonce, SopGate.TURTLE).1
  }

  /** What becomes of that answer: a refusal by quota is a policy violation, any other an error. */
  function OutcomeOf(auth: Result<Graph, GateError>, env: Surroundings): Processed
  {
    match auth
    case Err(e) => if e.QuotaRefused? then PolicyRaised else Errored
    case Ok(graph) => if Cypher.GoesThrough(env.db, |env.order(graph)|) then Answered else Errored
  }

  const SCHEMA_DOMAIN := "it-asset-mgmt"

  class AgentOSKernel {
    const writeGate: WriteGate?
    const circuitBreaker: CircuitBreaker
    const billingFuse: BillingFuse
    const lower: string -> string
    var sessionCount: nat

    constructor (
      writeGate: WriteGate?, circuitBreaker: CircuitBreaker, billingFuse: BillingFuse, lower: string -> string)
      ensures this.writeGate == writeGate && this.circuitBreaker == circuitBreaker && this.billingFuse == billingFuse
      ensures this.lower == lower && sessionCount == 0
    {
      this.writeGate, this.circuitBreaker, this.billingFuse := writeGate, circuitBreaker, billingFuse;
      this.lower := lower;
      sessionCount := 0;
    }

    ghost function Config(): KernelConfig
    {
      KernelConfig(circuitBreaker.cfg, circuitBreaker.similar, billingFuse.cfg, lower)
    }

    ghost function State(): KernelState
      reads this, circuitBreaker, billingFuse
    {
      KernelState(circuitBreaker.State(), billingFuse.State(), sessionCount)
    }

    ghost function GateParts(): set<object?>
    {
      if writeGate == null then {} else {writeGate, writeGate.policy, writeGate.client}
    }

    ghost predicate GateReady()
      reads GateParts()
    {
      writeGate != null ==> writeGate.Valid()
    }

    twostate predicate GateKept()
      reads GateParts()
    {
      writeGate != null ==>
        writeGate.Core() == old(writeGate.Core()) && writeGate.client.store == old(writeGate.client.store)
    }

    /** What processing a message does: only a parsed governed write touches the gate, and then exactly as the gate
        decides; a refusal by quota counts as a policy violation, any other as an error. */
    twostate predicate ProcessedAs(text: string, env: Surroundings, p: Processed)
      requires old(GateReady()) && GateReady()
      reads GateParts()
    {
      var intent := KernelCommands.ParseCommand(lower, text);
      if writeGate != null && intent.GovernedWrite? then
        var (core, auth) :=
          Authorize(writeGate.cfg, old(writeGate.Core()), env.wall, env.at,
                    intent.domain, intent.data, intent.nonce, SopGate.TURTLE);
        && writeGate.Core() == core && p == OutcomeOf(auth, env)
        && writeGate.client.store ==
             if p == Answered then old(writeGate.client.store).Plus(Cypher.Image(writeGate.upper, auth.value))
             else old(writeGate.client.store)
      else
        && p == (if writeGate != null && intent.SchemaQuestion? && "it-asset-mgmt" !in writeGate.cfg.ontology.domains
                 then Errored else Answered)
        && GateKept()
    }

    method ProcessMessage(text: string, env: Surroundings) returns (p: Processed)
      requires GateReady() && InAnyOrder(env.order)
      modifies GateParts()
      ensures GateReady() && ProcessedAs(text, env, p)
    {
      hide KernelCommands.ParseCommand, Authorize;
      var intent := KernelCommands.ParseCommand(lower, text);
      if writeGate == null {
        return Answered;
      }
      if intent.SchemaQuestion? {
        return if SCHEMA_DOMAIN in writeGate.cfg.ontology.domains then Answered else Errored;
      }
      if !intent.GovernedWrite? {
        return Answered;
      }
      var out := writeGate.ExecuteGovernedWrite(
        env.wall, env.at, intent.domain, intent.data, intent.nonce, SopGate.TURTLE, env.order, env.db);
      p := match out
        case Refused(e) => if e.QuotaRefused? then PolicyRaised else Errored
        case DatabaseFailed => Errored
        case Written(_) => Answered;
    }

    method WakeUp(text: string, env: Surroundings) returns (reply: Reply, ghost outcome: Processed)
      requires GateReady() && InAnyOrder(env.order)
      modifies this, circuitBreaker, billingFuse, GateParts()
      ensures GateReady()
      ensures (State(), reply) ==
        Dispatched(Config(), old(State()),
          Dispatch(text, env.intercepted, env.policyBlocks, outcome, env.checked, env.failedAt))
      ensures if env.intercepted || reply == Tripped || env.policyBlocks then GateKept()
              else ProcessedAs(text, env, outcome)
    {
      hide IsOpen, RecordFailure, RecordUsage, KernelCommands.ParseCommand, Authorize, InAnyOrder, Contains, Strip;
      hide WriteGate.Core, WriteGate.Valid, Cypher.GoesThrough, Cypher.Image, CircuitBreaker.State, BillingFuse.State;
      sessionCount := sessionCount + 1;
      outcome := Answered;
      var stripped := Strip(text);
      if env.intercepted {
        reply := Intercepted;
        return;
      }
      var open := circuitBreaker.Check(stripped, env.checked);
      if open {
        reply := Tripped;
        return;
      }
      if env.policyBlocks {
        reply := Blocked;
        return;
      }
      var p := ProcessMessage(text, env);
      outcome := p;
      match p
      case PolicyRaised => reply := Blocked;
      case Errored =>
        var trips := circuitBreaker.Record(stripped, stripped, env.failedAt);
        reply := Failed;
      case Answered =>
        reply := Fine;
        if Billable(lower, text) {
          var ok := billingFuse.Record(BILLED);
          if !ok {
            reply := Exhausted;
          }
        }
    }
  }

  // ----- Which reply, and what is charged -----

  /** What is charged for, by what the message was taken for. */
  lemma ChargedIntents(lower: string -> string, text: string)
    ensures var intent := KernelCommands.ParseCommand(lower, text);
            && (intent.ValidationHelp? || intent.WriteHelp? ==> Billable(lower, text))
            && (intent.Greeting? ==> !Billable(lower, text))
            && (KernelCommands.Lowers(lower) && (intent.GovernedWrite? || intent.BadFormat?) ==> Billable(lower, text))
  {
    hide Contains, Strip, Words;
    KernelCommands.Intents(lower, text);
    hide KernelCommands.ParseCommand;
    assert KernelCommands.COMMAND + " " == "execute_governed_write ";
    if KernelCommands.Lowers(lower) && KernelCommands.COMMAND + " " <= Strip(text) {
      KernelCommands.WriteContainsCommand(lower, text);
    }
  }

  /** The words themselves. */
  lemma ChargedWords(lower: string -> string, text: string)
    ensures Billable(lower, text) <==> exists k :: k in ["validate", "verify", "write", "execute"]
                                                   && Contains(lower(Strip(text)), k)
  {
    hide Contains, Strip;
    var words := ["validate", "verify", "write", "execute"];
    assert words[0] in words && words[1] in words && words[2] in words && words[3] in words;
  }

  /** Which reply a message gets, in the order of the hooks, and what each leaves behind. */
  lemma Replies(cfg: KernelConfig, k: KernelState, d: Dispatch)
    ensures var (k', reply) := Dispatched(cfg, k, d);
            var (asked, open) := IsOpen(cfg.breaker, k.breaker, Strip(d.text), d.checked);
            && k'.sessions == k.sessions + 1
            && (reply == Intercepted <==> d.intercepted)
            && (reply == Tripped <==> !d.intercepted && open)
            && (reply == Blocked <==> !d.intercepted && !open && (d.policyBlocks || d.outcome == PolicyRaised))
            && (reply == Failed <==> !d.intercepted && !open && !d.policyBlocks && d.outcome == Errored)
            && (reply == Intercepted ==> k'.breaker == k.breaker)
            && (reply in {Tripped, Blocked, Fine, Exhausted} ==> k'.breaker == asked)
            && (reply in {Intercepted, Tripped, Blocked, Failed} ==> k'.fuse == k.fuse)
            && (reply == Exhausted ==> Billable(cfg.lower, d.text) && k'.fuse.tripped)
            && (reply == Fine && k'.fuse != k.fuse ==>
                  && Billable(cfg.lower, d.text) && !k'.fuse.tripped
                  && k'.fuse.history == k.fuse.history + [Usage(800, 400, "claude-sonnet-4")])
  {
    hide IsOpen, RecordFailure, Strip, Billable, Cost;
  }

  /** Only a quota refusal counts as a policy violation; an authorised write is answered iff the database takes it. */
  lemma WriteOutcomes(auth: Result<Graph, GateError>, env: Surroundings)
    ensures OutcomeOf(auth, env) == PolicyRaised <==> exists q :: auth == Err(QuotaRefused(q))
    ensures OutcomeOf(auth, env) == Answered <==>
      auth.Ok? && env.db.commits && forall i :: 0 <= i < |env.order(auth.value)| ==> env.db.runs(i)
  {
    if auth.Err? && auth.error.QuotaRefused? {
      assert auth == Err(QuotaRefused(auth.error.reason));
    }
  }

  /** A command over the write quota is a policy violation: it is blocked, and not put down to the breaker, so
      that writing too fast opens no circuit. */
  lemma OverQuotaIsBlocked(
    cfg: KernelConfig, k: KernelState, gate: GateConfig, core: GateCore, granted: seq<real>, last: real,
    text: string, env: Surroundings, d: Dispatch)
    requires gate.limits.Some? && Tracks(core.quota, granted, last) && last <= env.wall
    requires gate.limits.value.perSession <= |granted|
          || gate.limits.value.perMinute <= CountIn(granted, env.wall - 60.0, env.wall)
    requires var w := KernelCommands.ParseCommand(cfg.lower, text);
             && w.GovernedWrite?
             && d == Dispatch(text, false, false, OutcomeOf(GateAnswer(gate, core, env, w), env),
                              env.checked, env.failedAt)
    ensures var (k', reply) := Dispatched(cfg, k, d);
            && reply in {Tripped, Blocked} && k'.fuse == k.fuse
            && k'.breaker == IsOpen(cfg.breaker, k.breaker, Strip(text), env.checked).0
  {
    hide KernelCommands.ParseCommand, Authorize, IsOpen, RecordFailure, Strip, Tracks, CountIn;
    var w := KernelCommands.ParseCommand(cfg.lower, text);
    OverQuotaRefusals(gate, core, granted, last, env.wall, env.at, w.domain, w.data, w.nonce, SopGate.TURTLE);
  }

  // ----- Any sequence of messages -----

  function Wakes(cfg: KernelConfig, ds: seq<Dispatch>): KernelState
  {
    if ds == [] then KernelState(CLOSED, UNUSED, 0)
    else Dispatched(cfg, Wakes(cfg, ds[..|ds| - 1]), ds[|ds| - 1]).0
  }

  function ReplyTo(cfg: KernelConfig, ds: seq<Dispatch>, k: nat): Reply
    requires k < |ds|
  {
    Dispatched(cfg, Wakes(cfg, ds[..k]), ds[k]).1
  }

  function Clock(ds: seq<Dispatch>, start: real): real
  {
    if ds == [] then start else ds[|ds| - 1].failedAt
  }

  /** One message at a time, on a clock that never steps back. */
  ghost predicate OneAtATime(ds: seq<Dispatch>, start: real)
  {
    ds != [] ==>
      var init, d := ds[..|ds| - 1], ds[|ds| - 1];
      OneAtATime(init, start) && Clock(init, start) <= d.checked <= d.failedAt
  }

  /** When messages with this text, blanks at the ends aside, were answered with an error. */
  function ErrorTimes(cfg: KernelConfig, ds: seq<Dispatch>, text: string): seq<real>
  {
    if ds == [] then []
    else
      var init, d := ds[..|ds| - 1], ds[|ds| - 1];
      ErrorTimes(cfg, init, text)
        + if Strip(d.text) == text && ReplyTo(cfg, ds, |ds| - 1) == Failed then [d.failedAt] else []
  }

  /** How many messages have been charged for. */
  function Charged(cfg: KernelConfig, ds: seq<Dispatch>): nat
  {
    if ds == [] then 0
    else
      var d := ds[|ds| - 1];
      Charged(cfg, ds[..|ds| - 1])
        + if ReplyTo(cfg, ds, |ds| - 1) in {Fine, Exhausted} && Billable(cfg.lower, d.text) then 1 else 0
  }

  /** The breaker's side of a message that gets past the firewall. */
  function UseOf(d: Dispatch): Use
  {
    Use(Strip(d.text), Strip(d.text), d.checked, d.failedAt, !d.policyBlocks && d.outcome == Errored)
  }

  function UsesOf(ds: seq<Dispatch>): seq<Use>
  {
    if ds == [] then []
    else UsesOf(ds[..|ds| - 1]) + if ds[|ds| - 1].intercepted then [] else [UseOf(ds[|ds| - 1])]
  }

  function Same(text: string): string { text }

  lemma InterceptedIsUnseen(cfg: KernelConfig, k: KernelState, d: Dispatch)
    requires d.intercepted
    ensures Dispatched(cfg, k, d) == (k.(sessions := k.sessions + 1), Intercepted)
  {
  }

  lemma DispatchIsUse(cfg: KernelConfig, k: KernelState, w: Watch, d: Dispatch, text: string)
    requires k.breaker == w.s && !d.intercepted && w.now <= d.checked <= d.failedAt
    ensures var w', (k', reply) := UseStep(cfg.breaker, cfg.similar, w, UseOf(d)), Dispatched(cfg, k, d);
            && k'.breaker == w'.s && w'.now <= d.failedAt
            && HistoryOf(w'.history, text) == HistoryOf(w.history, text)
                 + (if Strip(d.text) == text && reply == Failed then [d.failedAt] else [])
  {
    hide IsOpen, RecordFailure, RecordUsage, Strip, Billable;
  }

  /** The kernel at work is sequential use of the breaker: a failure is recorded only after asking, and only for the
      messages answered with an error. */
  lemma {:induction false} KernelDrivesBreaker(cfg: KernelConfig, ds: seq<Dispatch>, start: real)
    requires OneAtATime(ds, start)
    ensures var w := Uses(cfg.breaker, cfg.similar, UsesOf(ds), start);
            && Wakes(cfg, ds).breaker == w.s
            && Sequential(cfg.breaker, cfg.similar, Same, UsesOf(ds), start)
            && w.now <= Clock(ds, start)
            && forall text :: HistoryOf(w.history, text) == ErrorTimes(cfg, ds, text)
  {
    if ds != [] {
      hide UseStep, Strip, Dispatched, HistoryOf;
      var init, d := ds[..|ds| - 1], ds[|ds| - 1];
      KernelDrivesBreaker(cfg, init, start);
      var us := UsesOf(init);
      if d.intercepted {
        assert UsesOf(ds) == us;
        InterceptedIsUnseen(cfg, Wakes(cfg, init), d);
      } else {
        assert UsesOf(ds)[..|us|] == us;
        forall text
          ensures HistoryOf(Uses(cfg.breaker, cfg.similar, UsesOf(ds), start).history, text)
               == ErrorTimes(cfg, ds, text)
        {
          DispatchIsUse(cfg, Wakes(cfg, init), Uses(cfg.breaker, cfg.similar, us, start), d, text);
        }
        DispatchIsUse(cfg, Wakes(cfg, init), Uses(cfg.breaker, cfg.similar, us, start), d, d.text);
      }
    }
  }

  /**
   What a caller sees of the breaker: a message is turned away as tripped exactly when earlier messages
   with its text were answered with errors `threshold` times within a window of the last
   of them, and that was no longer than a window ago. Blocked, intercepted, exhausted and tripped
   messages count for nothing.
   */
  lemma TrippedByErrors(cfg: KernelConfig, ds: seq<Dispatch>, start: real, d: Dispatch)
    requires Sane(cfg.breaker) && OneAtATime(ds + [d], start)
    ensures Dispatched(cfg, Wakes(cfg, ds), d).1 == Tripped <==>
      !d.intercepted && OpenByHistory(cfg.breaker, ErrorTimes(cfg, ds, Strip(d.text)), d.checked)
  {
    hide IsOpen, RecordFailure, RecordUsage, Strip, Billable, OpenByHistory, Uses, Wakes, ErrorTimes;
    assert (ds + [d])[..|ds|] == ds;
    KernelDrivesBreaker(cfg, ds, start);
    BreakerRefinesHistory(cfg.breaker, cfg.similar, Same, UsesOf(ds), start, Strip(d.text), d.checked);
  }

  /** No retry storm: in no window are more than `threshold` messages of one text answered with an error. */
  lemma ErrorsAreBounded(cfg: KernelConfig, ds: seq<Dispatch>, start: real, text: string, end: real)
    requires Sane(cfg.breaker) && OneAtATime(ds, start)
    ensures Within(ErrorTimes(cfg, ds, text), cfg.breaker.window as real, end) <= AtLeastOne(cfg.breaker.threshold)
  {
    hide Uses, Wakes, ErrorTimes, CountIn, Sequential;
    KernelDrivesBreaker(cfg, ds, start);
    RetryStormBound(cfg.breaker, cfg.similar, Same, UsesOf(ds), start);
    var w := Uses(cfg.breaker, cfg.similar, UsesOf(ds), start);
    assert NoStorm(cfg.breaker, HistoryOf(w.history, text));
  }

  /** The fuse has been charged once for each message that was processed and mentions one of the words. */
  lemma {:induction false} KernelChargesFuse(cfg: KernelConfig, ds: seq<Dispatch>)
    ensures Wakes(cfg, ds).fuse == Charge(cfg.fuse, Billed(Charged(cfg, ds)))
    ensures Wakes(cfg, ds).sessions == |ds|
  {
    hide IsOpen, RecordFailure, RecordUsage, Strip, Billable;
    if ds != [] {
      var init := ds[..|ds| - 1];
      KernelChargesFuse(cfg, init);
      var n := Charged(cfg, init);
      assert Billed(n + 1)[..n] == Billed(n);
    }
  }

  lemma ChargeOneMore(cfg: FuseConfig, n: nat)
    ensures Charge(cfg, Billed(n + 1)) == RecordUsage(cfg, Charge(cfg, Billed(n)), BILLED).0
    ensures RecordUsage(cfg, Charge(cfg, Billed(n)), BILLED).1 <==> !Charge(cfg, Billed(n + 1)).tripped
  {
    hide Cost;
    assert Billed(n + 1)[..n] == Billed(n);
  }

  /** With the default prices and cap, a message is answered as exhausted exactly from the 60th charged one on;
      its processing has then already happened. */
  lemma ExhaustedFromSixtieth(cfg: KernelConfig, ds: seq<Dispatch>, d: Dispatch)
    requires cfg.fuse == DEFAULTS
    ensures var reply := Dispatched(cfg, Wakes(cfg, ds), d).1;
            && (reply == Exhausted ==> d.outcome == Answered && Billable(cfg.lower, d.text))
            && (reply in {Fine, Exhausted} && Billable(cfg.lower, d.text) ==>
                  (reply == Exhausted <==> 59 <= Charged(cfg, ds)))
  {
    hide IsOpen, RecordFailure, Strip, Billable, Wakes, Cost, Charge;
    KernelChargesFuse(cfg, ds);
    var n := Charged(cfg, ds);
    SixtiethMessageTrips(n);
    SixtiethMessageTrips(n + 1);
    ChargeOneMore(cfg.fuse, n);
  }
}
