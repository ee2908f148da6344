/**
 Whole runs of the write gate: any interleaving of validations, governed writes and database
 commits, on a clock that never steps back, with callers submitting any strings as nonces.
 A write's check, burn and re-validation are one atomic step; its commit is a later one.
 */
module GateRuns {
  import opened Wrappers
  import opened Nonce
  import opened AutonomyPolicies
  import opened WriteGates
  import Cypher

  /** A nonce handed to a caller. */
  datatype Issue = Issue(time: real, domain: string, data: string, format: string)

  /** A write that got past the nonce check, and burned its nonce. */
  datatype Pass = Pass(tick: int, wall: real, at: Reads, domain: string, data: string, format: string)

  datatype JobState = Waiting | Committed | RolledBack

  /** An authorised write on its way to the database; `pass` is its place among the passes. */
  datatype Job = Job(pass: nat, graph: Graph, state: JobState)

  datatype Sys = Sys(
    core: GateCore, now: real, wall: real, granted: seq<real>,
    issued: seq<Issue>, passes: seq<Pass>, jobs: seq<Job>,
    store: Cypher.GraphStore, reported: nat)

  datatype Event =
    | Validation(time: real, domain: string, data: string, format: string)
    | Write(wall: real, at: Reads, domain: string, data: string, nonce: string, format: string)
    | Commit(job: nat, order: seq<Cypher.Triple>, db: Cypher.Database)

  function Start(store: Cypher.GraphStore, now: real, wall: real): Sys
  {
    Sys(GateCore(map[], FRESH), now, wall, [], [], [], [], store, 0)
  }

  function Signature(cfg: GateConfig, p: Pass): string
  {
    cfg.crypto.Sign(p.tick, p.domain, p.data)
  }

  predicate QuotaOk(cfg: GateConfig, s: Sys, e: Event)
    requires e.Write?
  {
    TakeQuota(cfg, s.core.quota, e.wall).1.Ok?
  }

  /** The write gets past quota and nonce check. */
  predicate Passes(cfg: GateConfig, s: Sys, e: Event)
    requires e.Write?
  {
    QuotaOk(cfg, s, e) && VerifyNonce(cfg, s.core.consumed, e.at, e.domain, e.data, e.nonce).1.None?
  }

  function Authorized(cfg: GateConfig, s: Sys, e: Event): Result<Graph, GateError>
    requires e.Write?
  {
    Authorize(cfg, s.core, e.wall, e.at, e.domain, e.data, e.nonce, e.format).1
  }

  function PassOf(cfg: GateConfig, e: Event): Pass
    requires e.Write?
  {
    var f := Parse(cfg.crypto, e.nonce);
    Pass(if f.Some? then f.value.tick else 0, e.wall, e.at, e.domain, e.data, e.format)
  }

  function DoValidation(cfg: GateConfig, s: Sys, e: Event): Sys
    requires e.Validation?
  {
    var r := Validate(cfg, e.time, e.domain, e.data, e.format);
    var s' := s.(now := e.time);
    if r.Ok? && r.value.Some? then s'.(issued := s.issued + [Issue(e.time, e.domain, e.data, e.format)]) else s'
  }

  function DoWrite(cfg: GateConfig, s: Sys, e: Event): Sys
    requires e.Write?
  {
    var core := Authorize(cfg, s.core, e.wall, e.at, e.domain, e.data, e.nonce, e.format).0;
    var auth := Authorized(cfg, s, e);
    s.(core := core, now := e.at.burn, wall := e.wall,
       granted := if QuotaOk(cfg, s, e) then s.granted + [e.wall] else s.granted,
       passes := if Passes(cfg, s, e) then s.passes + [PassOf(cfg, e)] else s.passes,
       jobs := if auth.Ok? then s.jobs + [Job(|s.passes|, auth.value, Waiting)] else s.jobs)
  }

  function DoCommit(upper: char -> string, s: Sys, e: Event): Sys
    requires e.Commit? && e.job < |s.jobs|
  {
    var (store, written) := Cypher.WriteBatch(s.store, Cypher.Translate(upper, e.order), e.db);
    var job := s.jobs[e.job].(state := if written.Some? then Committed else RolledBack);
    s.(store := store, jobs := s.jobs[e.job := job],
       reported := s.reported + if written.Some? then written.value else 0)
  }

  function Step(cfg: GateConfig, upper: char -> string, s: Sys, e: Event): Sys
  {
    match e
    case Validation(_, _, _, _) => DoValidation(cfg, s, e)
    case Write(_, _, _, _, _, _) => DoWrite(cfg, s, e)
    case Commit(job, _, _) => if job < |s.jobs| then DoCommit(upper, s, e) else s
  }

  function Run(cfg: GateConfig, upper: char -> string, start: Sys, es: seq<Event>): Sys
  {
    if es == [] then start
    else Step(cfg, upper, Run(cfg, upper, start, es[..|es| - 1]), es[|es| - 1])
  }

  // ----- What is assumed of a run -----

  /** The ideal MAC: a string that is the MAC of some payload can only be one the gate has handed out. */
  ghost predicate Unforged(cfg: GateConfig, issued: seq<Issue>, nonce: string)
  {
    Parse(cfg.crypto, nonce).Some? ==>
      forall p :: Parse(cfg.crypto, nonce).value.signature == cfg.crypto.mac(p) ==>
        exists i :: i in issued && p == cfg.crypto.Payload(Tick(i.time), cfg.crypto.hash(i.data), i.domain)
  }

  /** Clock reads in order, the pruning at most `skew` after the TTL check, no forged nonce, one commit a job. */
  ghost predicate Legal(cfg: GateConfig, skew: real, s: Sys, e: Event)
  {
    match e
    case Validation(time, _, _, _) => s.now <= time
    case Write(wall, at, _, _, nonce, _) =>
      s.wall <= wall && Ordered(at, s.now, skew) && Unforged(cfg, s.issued, nonce)
    case Commit(job, order, _) =>
      job < |s.jobs| && s.jobs[job].state == Waiting && Cypher.Elements(order) == s.jobs[job].graph
  }

  /** The condition of `ReplayIff`: every nonce is burned more than `skew` after its issue tick. */
  ghost predicate Mature(cfg: GateConfig, skew: real, s: Sys, e: Event)
  {
    e.Write? && Passes(cfg, s, e) ==> e.at.burn > PassOf(cfg, e).tick as real + skew
  }

  ghost predicate LegalRun(cfg: GateConfig, upper: char -> string, skew: real, start: Sys, es: seq<Event>)
  {
    es != [] ==>
      var init, last := es[..|es| - 1], es[|es| - 1];
      LegalRun(cfg, upper, skew, start, init) && Legal(cfg, skew, Run(cfg, upper, start, init), last)
  }

  ghost predicate MatureRun(cfg: GateConfig, upper: char -> string, skew: real, start: Sys, es: seq<Event>)
  {
    es != [] ==>
      var init, last := es[..|es| - 1], es[|es| - 1];
      MatureRun(cfg, upper, skew, start, init) && Mature(cfg, skew, Run(cfg, upper, start, init), last)
  }

  // ----- Provenance: where every pass and every committed graph comes from -----

  ghost predicate Comes(cfg: GateConfig, p: Pass, i: Issue)
  {
    && i.domain == p.domain && i.data == p.data && Tick(i.time) == p.tick
    && Compliant(cfg.ontology, i.domain, i.data, i.format) == Ok(true)
    && i.time <= p.at.check && p.at.check - i.time <= cfg.ttl as real
  }

  ghost predicate HasOrigin(cfg: GateConfig, issued: seq<Issue>, p: Pass)
  {
    && p.at.check - (p.tick as real) <= cfg.ttl as real
    && exists i :: i in issued && Comes(cfg, p, i)
  }

  ghost predicate JobOk(cfg: GateConfig, s: Sys, j: Job)
  {
    && j.pass < |s.passes|
    && var p := s.passes[j.pass];
       && Compliant(cfg.ontology, p.domain, p.data, p.format) == Ok(true)
       && cfg.ontology.parse(p.data, p.format) == Some(j.graph)
  }

  ghost predicate Sourced(cfg: GateConfig, s: Sys)
  {
    && (forall i :: i in s.issued ==>
       i.time <= s.now && Compliant(cfg.ontology, i.domain, i.data, i.format) == Ok(true))
    && (forall p :: p in s.passes ==> p.at.burn <= s.now && HasOrigin(cfg, s.issued, p))
    && (forall j :: j in s.jobs ==> JobOk(cfg, s, j))
    && (forall i, j :: 0 <= i < j < |s.jobs| ==> s.jobs[i].pass < s.jobs[j].pass)
  }

  /** A nonce that passes is one the gate issued for that very domain and data, not too long ago. */
  lemma PassHasOrigin(cfg: GateConfig, skew: real, s: Sys, e: Event)
    requires cfg.crypto.Ideal() && Sourced(cfg, s) && e.Write? && Legal(cfg, skew, s, e) && Passes(cfg, s, e)
    ensures HasOrigin(cfg, s.issued, PassOf(cfg, e))
    ensures Parse(cfg.crypto, e.nonce).value.signature == Signature(cfg, PassOf(cfg, e))
  {
    var c := cfg.crypto;
    var f := Parse(c, e.nonce).value;
    var p := PassOf(cfg, e);
    ParsedHashIsColonFree(c, e.nonce);
    var i :| i in s.issued &&
      c.Payload(f.tick, f.dataHash, e.domain) == c.Payload(Tick(i.time), c.hash(i.data), i.domain);
    PayloadIsUnambiguous(c, f.tick, f.dataHash, e.domain, Tick(i.time), c.hash(i.data), i.domain);
    assert Comes(cfg, p, i);
  }

  lemma SourcedWrite(cfg: GateConfig, upper: char -> string, skew: real, s: Sys, e: Event)
    requires cfg.crypto.Ideal() && Sourced(cfg, s) && Legal(cfg, skew, s, e) && e.Write?
    ensures Sourced(cfg, Step(cfg, upper, s, e))
  {
    hide VerifyNonce, HasOrigin, Unforged, Crypto.Ideal, TakeQuota;
    var s' := Step(cfg, upper, s, e);
    assert s'.issued == s.issued && s.now <= s'.now;
    if Passes(cfg, s, e) {
      PassHasOrigin(cfg, skew, s, e);
    }
    forall j | j in s'.jobs ensures JobOk(cfg, s', j) {
      if j in s.jobs {
        assert JobOk(cfg, s, j);
      }
    }
    forall i, j | 0 <= i < j < |s'.jobs| ensures s'.jobs[i].pass < s'.jobs[j].pass {
      assert j == |s.jobs| ==> JobOk(cfg, s, s.jobs[i]);
    }
  }

  lemma SourcedValidation(cfg: GateConfig, upper: char -> string, skew: real, s: Sys, e: Event)
    requires Sourced(cfg, s) && Legal(cfg, skew, s, e) && e.Validation?
    ensures Sourced(cfg, Step(cfg, upper, s, e))
  {
    var s' := Step(cfg, upper, s, e);
    forall p | p in s'.passes ensures p.at.burn <= s'.now && HasOrigin(cfg, s'.issued, p) {
      var i :| i in s.issued && Comes(cfg, p, i);
      assert i in s'.issued;
    }
    forall j | j in s'.jobs ensures JobOk(cfg, s', j) {
      assert JobOk(cfg, s, j);
    }
  }

  lemma SourcedCommit(cfg: GateConfig, upper: char -> string, skew: real, s: Sys, e: Event)
    requires Sourced(cfg, s) && Legal(cfg, skew, s, e) && e.Commit?
    ensures Sourced(cfg, Step(cfg, upper, s, e))
  {
    hide Cypher.WriteBatch, Cypher.Translate, HasOrigin, Compliant;
    var s' := Step(cfg, upper, s, e);
    forall j | j in s'.jobs ensures JobOk(cfg, s', j) {
      var was :| was in s.jobs && was.pass == j.pass && was.graph == j.graph;
      assert JobOk(cfg, s, was);
    }
  }

  lemma SourcedStep(cfg: GateConfig, upper: char -> string, skew: real, s: Sys, e: Event)
    requires cfg.crypto.Ideal() && Sourced(cfg, s) && Legal(cfg, skew, s, e)
    ensures Sourced(cfg, Step(cfg, upper, s, e))
  {
    hide *;
    match e
    case Validation(_, _, _, _) => SourcedValidation(cfg, upper, skew, s, e);
    case Write(_, _, _, _, _, _) => SourcedWrite(cfg, upper, skew, s, e);
    case Commit(_, _, _) => SourcedCommit(cfg, upper, skew, s, e);
  }

  lemma {:induction false} RunIsSourced(cfg: GateConfig, upper: char -> string, skew: real, start: Sys, es: seq<Event>)
    requires cfg.crypto.Ideal() && Sourced(cfg, start) && LegalRun(cfg, upper, skew, start, es)
    ensures Sourced(cfg, Run(cfg, upper, start, es))
  {
    if es != [] {
      RunIsSourced(cfg, upper, skew, start, es[..|es| - 1]);
      SourcedStep(cfg, upper, skew, Run(cfg, upper, start, es[..|es| - 1]), es[|es| - 1]);
    }
  }

  /**
   Every authorised write, in every reachable state and whatever strings were submitted: its data is
   byte-identical to data validated in the same domain at most TTL earlier, and the graph it
   writes conforms under the format used at write time.
   */
  lemma Provenance(
    cfg: GateConfig, upper: char -> string, skew: real, store: Cypher.GraphStore, now: real, wall: real,
    es: seq<Event>, k: nat)
    requires cfg.crypto.Ideal() && LegalRun(cfg, upper, skew, Start(store, now, wall), es)
    requires k < |Run(cfg, upper, Start(store, now, wall), es).jobs|
    ensures var s := Run(cfg, upper, Start(store, now, wall), es);
            && s.jobs[k].pass < |s.passes|
            && var p := s.passes[s.jobs[k].pass];
               && (exists i :: i in s.issued && Comes(cfg, p, i))
               && cfg.ontology.parse(p.data, p.format) == Some(s.jobs[k].graph)
               && cfg.ontology.shacl(p.domain, s.jobs[k].graph) == Some(true)
  {
    RunIsSourced(cfg, upper, skew, Start(store, now, wall), es);
    var s := Run(cfg, upper, Start(store, now, wall), es);
    assert JobOk(cfg, s, s.jobs[k]);
    assert s.passes[s.jobs[k].pass] in s.passes;
  }

  // ----- Single use, although burned nonces are forgotten -----

  ghost predicate Remembered(cfg: GateConfig, s: Sys, p: Pass)
  {
    var sig := Signature(cfg, p);
    sig in s.core.consumed && s.core.consumed[sig] == p.at.burn + cfg.ttl as real
  }

  /** Too old for any check from now on. */
  ghost predicate Dead(cfg: GateConfig, s: Sys, p: Pass)
  {
    s.now > p.tick as real + cfg.ttl as real
  }

  /** No two passes carry the same tick, domain and data. */
  ghost predicate SingleUse(s: Sys)
  {
    forall i, j :: 0 <= i < j < |s.passes| ==>
      !(&& s.passes[i].tick == s.passes[j].tick
        && s.passes[i].domain == s.passes[j].domain
        && s.passes[i].data == s.passes[j].data)
  }

  ghost predicate Guarded(cfg: GateConfig, skew: real, s: Sys)
  {
    && (forall p :: p in s.passes ==> Remembered(cfg, s, p) || Dead(cfg, s, p))
    && (forall p :: p in s.passes ==> p.at.burn > p.tick as real + skew)
    && (forall sig :: sig in s.core.consumed ==> exists p :: p in s.passes && Signature(cfg, p) == sig)
    && SingleUse(s)
  }

  /** A nonce that passes the forgetting check was never burned before, in the table or out of it. */
  lemma PassIsFresh(cfg: GateConfig, skew: real, s: Sys, e: Event, p: Pass)
    requires cfg.crypto.Ideal() && Sourced(cfg, s) && Guarded(cfg, skew, s) && cfg.forgets
    requires e.Write? && Legal(cfg, skew, s, e) && Passes(cfg, s, e) && p in s.passes
    ensures Signature(cfg, p) != Parse(cfg.crypto, e.nonce).value.signature
  {
    PassHasOrigin(cfg, skew, s, e);
    var q := PassOf(cfg, e);
    SignIsInjective(cfg.crypto, p.tick, p.domain, p.data, q.tick, q.domain, q.data);
  }

  /** What a write that passes does to the table. */
  lemma PassBurns(cfg: GateConfig, upper: char -> string, s: Sys, e: Event)
    requires e.Write? && Passes(cfg, s, e)
    ensures var s' := Step(cfg, upper, s, e);
            && Parse(cfg.crypto, e.nonce).Some?
            && s'.core.consumed == Cleanup(cfg, s.core.consumed, e.at.prune)
                 [Parse(cfg.crypto, e.nonce).value.signature := e.at.burn + cfg.ttl as real]
            && s'.passes == s.passes + [PassOf(cfg, e)] && s'.now == e.at.burn
  {
  }

  /** A refused write may prune the table, and leaves everything else that matters here alone. */
  lemma RefusalOnlyPrunes(cfg: GateConfig, upper: char -> string, s: Sys, e: Event)
    requires e.Write? && !Passes(cfg, s, e)
    ensures var s' := Step(cfg, upper, s, e);
            && (|| s'.core.consumed == s.core.consumed
                || s'.core.consumed == Cleanup(cfg, s.core.consumed, e.at.prune))
            && s'.passes == s.passes && s'.jobs == s.jobs && s'.now == e.at.burn
  {
  }

  /** An entry leaves the table only after its nonce has expired for good. */
  lemma PruningIsSafe(cfg: GateConfig, skew: real, s: Sys, s': Sys, p: Pass, at: Reads)
    requires 0.0 <= skew && Ordered(at, s.now, skew) && s'.now == at.burn
    requires p.at.burn > p.tick as real + skew
    requires Remembered(cfg, s, p) || Dead(cfg, s, p)
    requires var sig := Signature(cfg, p);
             sig in s.core.consumed && s.core.consumed[sig] > at.prune ==>
               sig in s'.core.consumed && s'.core.consumed[sig] == s.core.consumed[sig]
    ensures Remembered(cfg, s', p) || Dead(cfg, s', p)
  {
  }

  /** Burning a fresh signature into the pruned table keeps the guard up. */
  lemma BurnKeepsGuard(cfg: GateConfig, skew: real, s: Sys, s': Sys, q: Pass)
    requires 0.0 <= skew && Guarded(cfg, skew, s) && Ordered(q.at, s.now, skew)
    requires s'.passes == s.passes + [q] && s'.now == q.at.burn && q.at.burn > q.tick as real + skew
    requires s'.core.consumed == Prune(s.core.consumed, q.at.prune)[Signature(cfg, q) := q.at.burn + cfg.ttl as real]
    requires forall p :: p in s.passes ==> Signature(cfg, p) != Signature(cfg, q)
    ensures Guarded(cfg, skew, s')
  {
    forall p | p in s'.passes ensures Remembered(cfg, s', p) || Dead(cfg, s', p) {
      if p in s.passes {
        PruningIsSafe(cfg, skew, s, s', p, q.at);
      }
    }
    forall k | k in s'.core.consumed ensures exists p :: p in s'.passes && Signature(cfg, p) == k {
      if k == Signature(cfg, q) {
        assert q in s'.passes;
      } else {
        var p :| p in s.passes && Signature(cfg, p) == k;
        assert p in s'.passes;
      }
    }
    forall i, j | 0 <= i < j < |s'.passes|
      ensures !(&& s'.passes[i].tick == s'.passes[j].tick
                && s'.passes[i].domain == s'.passes[j].domain
                && s'.passes[i].data == s'.passes[j].data)
    {
      if j == |s.passes| {
        assert s.passes[i] in s.passes;
      }
    }
  }

  lemma RefusalKeepsGuard(cfg: GateConfig, skew: real, s: Sys, s': Sys, at: Reads)
    requires 0.0 <= skew && Guarded(cfg, skew, s) && Ordered(at, s.now, skew)
    requires s'.passes == s.passes && s'.now == at.burn
    requires s'.core.consumed == s.core.consumed || s'.core.consumed == Prune(s.core.consumed, at.prune)
    ensures Guarded(cfg, skew, s')
  {
    forall p | p in s'.passes ensures Remembered(cfg, s', p) || Dead(cfg, s', p) {
      PruningIsSafe(cfg, skew, s, s', p, at);
    }
  }

  lemma OthersKeepGuard(cfg: GateConfig, upper: char -> string, skew: real, s: Sys, e: Event)
    requires Guarded(cfg, skew, s) && Legal(cfg, skew, s, e) && !e.Write?
    ensures Guarded(cfg, skew, Step(cfg, upper, s, e))
  {
    hide Signature;
    var s' := Step(cfg, upper, s, e);
    assert s'.core == s.core && s'.passes == s.passes && s'.now >= s.now;
    forall p | p in s'.passes ensures Remembered(cfg, s', p) || Dead(cfg, s', p) {
      assert Remembered(cfg, s, p) || Dead(cfg, s, p);
    }
  }

  lemma GuardedStep(cfg: GateConfig, upper: char -> string, skew: real, s: Sys, e: Event)
    requires cfg.crypto.Ideal() && cfg.forgets && 0.0 <= skew && Sourced(cfg, s) && Guarded(cfg, skew, s)
    requires Legal(cfg, skew, s, e) && Mature(cfg, skew, s, e)
    ensures Guarded(cfg, skew, Step(cfg, upper, s, e))
  {
    hide Guarded, Sourced, Passes, Step, Unforged, Crypto.Ideal, Signature;
    if !e.Write? {
      OthersKeepGuard(cfg, upper, skew, s, e);
    } else if Passes(cfg, s, e) {
      PassBurns(cfg, upper, s, e);
      PassHasOrigin(cfg, skew, s, e);
      forall p | p in s.passes ensures Signature(cfg, p) != Signature(cfg, PassOf(cfg, e)) {
        PassIsFresh(cfg, skew, s, e, p);
      }
      BurnKeepsGuard(cfg, skew, s, Step(cfg, upper, s, e), PassOf(cfg, e));
    } else {
      RefusalOnlyPrunes(cfg, upper, s, e);
      RefusalKeepsGuard(cfg, skew, s, Step(cfg, upper, s, e), e.at);
    }
  }

  /** Over every legal run in which nonces are burned late enough: each (tick, data, domain) passes at most once. */
  lemma {:induction false} NonceIsSingleUse(
    cfg: GateConfig, upper: char -> string, skew: real, start: Sys, es: seq<Event>)
    requires cfg.crypto.Ideal() && cfg.forgets && 0.0 <= skew && Sourced(cfg, start) && Guarded(cfg, skew, start)
    requires LegalRun(cfg, upper, skew, start, es) && MatureRun(cfg, upper, skew, start, es)
    ensures Sourced(cfg, Run(cfg, upper, start, es)) && Guarded(cfg, skew, Run(cfg, upper, start, es))
    ensures SingleUse(Run(cfg, upper, start, es))
  {
    if es != [] {
      var init, last := es[..|es| - 1], es[|es| - 1];
      NonceIsSingleUse(cfg, upper, skew, start, init);
      SourcedStep(cfg, upper, skew, Run(cfg, upper, start, init), last);
      GuardedStep(cfg, upper, skew, Run(cfg, upper, start, init), last);
    }
  }

  // ----- The boundary case -----

  lemma RunSnoc(cfg: GateConfig, upper: char -> string, start: Sys, es: seq<Event>, e: Event)
    ensures Run(cfg, upper, start, es + [e]) == Step(cfg, upper, Run(cfg, upper, start, es), e)
    ensures forall skew :: LegalRun(cfg, upper, skew, start, es + [e])
              <==> LegalRun(cfg, upper, skew, start, es) && Legal(cfg, skew, Run(cfg, upper, start, es), e)
  {
    assert (es + [e])[..|es|] == es;
  }

  lemma ThreeSteps(cfg: GateConfig, upper: char -> string, start: Sys, a: Event, b: Event, c: Event)
    ensures var s1 := Step(cfg, upper, start, a);
            var s2 := Step(cfg, upper, s1, b);
            var es := [] + [a] + [b] + [c];
            && Run(cfg, upper, start, es) == Step(cfg, upper, s2, c)
            && (LegalRun(cfg, upper, 0.0, start, es) <==>
                  Legal(cfg, 0.0, start, a) && Legal(cfg, 0.0, s1, b) && Legal(cfg, 0.0, s2, c))
  {
    assert Run(cfg, upper, start, []) == start && LegalRun(cfg, upper, 0.0, start, []);
    hide Step, Run, Legal, LegalRun;
    RunSnoc(cfg, upper, start, [], a);
    RunSnoc(cfg, upper, start, [] + [a], b);
    RunSnoc(cfg, upper, start, [] + [a] + [b], c);
  }

  function Instantly(t: real): Reads { Reads(t, t, t) }

  /** A write at one instant that carries the printed nonce of its own data. */
  lemma PrintedWrite(cfg: GateConfig, upper: char -> string, s: Sys, e: Event, tick: int, i: Issue)
    requires cfg.crypto.Ideal() && cfg.forgets && cfg.limits.None?
    requires e.Write? && e.nonce == cfg.crypto.Print(tick, e.domain, e.data) && e.at == Instantly(e.at.burn)
    requires s.wall <= e.wall && s.now <= e.at.burn && e.at.burn - (tick as real) <= cfg.ttl as real
    requires i in s.issued && Tick(i.time) == tick && i.domain == e.domain && i.data == e.data
    requires var sig := cfg.crypto.Sign(tick, e.domain, e.data);
             sig in s.core.consumed ==> s.core.consumed[sig] <= e.at.burn
    ensures Legal(cfg, 0.0, s, e) && Passes(cfg, s, e) && PassOf(cfg, e).tick == tick
    ensures var s' := Step(cfg, upper, s, e);
            && s'.passes == s.passes + [PassOf(cfg, e)] && s'.now == e.at.burn && s'.issued == s.issued
               && s'.wall == e.wall
            && s'.core.consumed == Prune(s.core.consumed, e.at.burn)
                 [cfg.crypto.Sign(tick, e.domain, e.data) := e.at.burn + cfg.ttl as real]
  {
    var c := cfg.crypto;
    ParseInvertsPrint(c, tick, e.domain, e.data);
    hide Parse, Crypto.Print, Compliant;
    PrintedNonceAcceptedIff(cfg, s.core.consumed, e.at, tick, e.domain, e.data, e.domain, e.data);
    assert Passes(cfg, s, e);
    PassBurns(cfg, upper, s, e);
  }

  lemma FirstIssue(cfg: GateConfig, upper: char -> string, store: Cypher.GraphStore, now: real, wall: real, i: Issue)
    requires i.time == now && Compliant(cfg.ontology, i.domain, i.data, i.format) == Ok(true)
    ensures var start, v := Start(store, now, wall), Validation(now, i.domain, i.data, i.format);
            var s1 := Step(cfg, upper, start, v);
            && Legal(cfg, 0.0, start, v) && i in s1.issued && s1.core.consumed == map[] && s1.passes == []
            && s1.now == now && s1.wall == wall
  {
    hide Compliant, Crypto.Print;
  }

  lemma PassKeepsPayload(cfg: GateConfig, e: Event)
    requires e.Write?
    ensures PassOf(cfg, e).domain == e.domain && PassOf(cfg, e).data == e.data
  {
  }

  /** Two writes with the nonce of one issue, at its tick and when it expires. */
  lemma UsedTwice(cfg: GateConfig, upper: char -> string, s: Sys, w1: Event, w2: Event, t: int, i: Issue)
    requires cfg.crypto.Ideal() && cfg.forgets && cfg.limits.None? && 0 <= cfg.ttl
    requires s.now == t as real && i in s.issued && i.time == t as real && s.core.consumed == map[] && s.passes == []
    requires w1 == Write(s.wall, Instantly(s.now), i.domain, i.data, cfg.crypto.Print(t, i.domain, i.data), i.format)
    requires w2 == w1.(at := Instantly(s.now + cfg.ttl as real))
    ensures var s1 := Step(cfg, upper, s, w1);
            var s2 := Step(cfg, upper, s1, w2);
            Legal(cfg, 0.0, s, w1) && Legal(cfg, 0.0, s1, w2) && |s2.passes| == 2 && !SingleUse(s2)
  {
    hide Step, Crypto.Print, Crypto.Ideal, Passes, Legal, PassOf;
    PrintedWrite(cfg, upper, s, w1, t, i);
    var s1 := Step(cfg, upper, s, w1);
    PrintedWrite(cfg, upper, s1, w2, t, i);
    var passes := Step(cfg, upper, s1, w2).passes;
    PassKeepsPayload(cfg, w1);
    PassKeepsPayload(cfg, w2);
    assert passes[0] == PassOf(cfg, w1) && passes[1] == PassOf(cfg, w2);
  }

  /** The burn must come after the issue tick: burned at the very tick it was issued, a nonce is forgotten exactly when
      it expires, at an instant at which it still passes. Two writes with one nonce both get through. */
  lemma BoundaryReplay(
    cfg: GateConfig, upper: char -> string, store: Cypher.GraphStore, wall: real,
    t: int, domain: string, data: string, format: string)
    requires cfg.crypto.Ideal() && cfg.forgets && cfg.limits.None? && 0 <= cfg.ttl
    requires Compliant(cfg.ontology, domain, data, format) == Ok(true)
    ensures var nonce, now := cfg.crypto.Print(t, domain, data), t as real;
            var start := Start(store, now, wall);
            var es := [] + [Validation(now, domain, data, format)]
                      + [Write(wall, Instantly(now), domain, data, nonce, format)]
                      + [Write(wall, Instantly(now + cfg.ttl as real), domain, data, nonce, format)];
            && LegalRun(cfg, upper, 0.0, start, es)
            && |Run(cfg, upper, start, es).passes| == 2 && !SingleUse(Run(cfg, upper, start, es))
  {
    hide *;
    var nonce, now := cfg.crypto.Print(t, domain, data), t as real;
    var start := Start(store, now, wall);
    var v := Validation(now, domain, data, format);
    var w1 := Write(wall, Instantly(now), domain, data, nonce, format);
    var w2 := Write(wall, Instantly(now + cfg.ttl as real), domain, data, nonce, format);
    var i := Issue(now, domain, data, format);
    var s1 := Step(cfg, upper, start, v);
    FirstIssue(cfg, upper, store, now, wall, i);
    ThreeSteps(cfg, upper, start, v, w1, w2);
    UsedTwice(cfg, upper, s1, w1, w2, t, i);
  }

  // ----- The forgetting gate refines the gate that never forgets -----

  function NeverForgets(cfg: GateConfig): GateConfig { cfg.(forgets := false) }

  /** Everything but the table: clocks, quota, what was issued, what passed, what was written. */
  function Visible(s: Sys): Sys
  {
    s.(core := s.core.(consumed := map[]))
  }

  ghost predicate HoldsAllPasses(cfg: GateConfig, s: Sys)
  {
    && (forall p :: p in s.passes ==> Signature(cfg, p) in s.core.consumed)
    && (forall sig :: sig in s.core.consumed ==> exists p :: p in s.passes && Signature(cfg, p) == sig)
  }

  /** What the nonce check asks of a submitted string, apart from the table. */
  predicate WellSigned(cfg: GateConfig, e: Event)
    requires e.Write?
  {
    var f := Parse(cfg.crypto, e.nonce);
    && f.Some?
    && e.at.check - (f.value.tick as real) <= cfg.ttl as real
    && f.value.signature == cfg.crypto.mac(cfg.crypto.Payload(f.value.tick, f.value.dataHash, e.domain))
    && cfg.crypto.hash(e.data) == f.value.dataHash
  }

  lemma PassesIff(cfg: GateConfig, s: Sys, e: Event)
    requires e.Write?
    ensures Passes(cfg, s, e) <==>
      && QuotaOk(cfg, s, e) && WellSigned(cfg, e)
      && Parse(cfg.crypto, e.nonce).value.signature !in Cleanup(cfg, s.core.consumed, e.at.prune)
  {
  }

  lemma SameQuota(cfg: GateConfig, s: Sys, full: Sys, e: Event)
    requires e.Write? && Visible(full) == Visible(s)
    ensures QuotaOk(NeverForgets(cfg), full, e) == QuotaOk(cfg, s, e)
  {
  }

  lemma SameSigning(cfg: GateConfig, e: Event)
    requires e.Write?
    ensures WellSigned(NeverForgets(cfg), e) == WellSigned(cfg, e)
  {
  }

  lemma SameVerdict(cfg: GateConfig, skew: real, s: Sys, full: Sys, e: Event)
    requires cfg.crypto.Ideal() && cfg.forgets && Sourced(cfg, s) && Guarded(cfg, skew, s)
    requires Visible(full) == Visible(s) && HoldsAllPasses(cfg, full)
    requires e.Write? && Legal(cfg, skew, s, e)
    ensures Passes(cfg, s, e) <==> Passes(NeverForgets(cfg), full, e)
  {
    hide Passes, Sourced, Unforged, Crypto.Ideal, Signature, QuotaOk;
    PassesIff(cfg, s, e);
    PassesIff(NeverForgets(cfg), full, e);
    assert QuotaOk(NeverForgets(cfg), full, e) == QuotaOk(cfg, s, e) by { SameQuota(cfg, s, full, e); }
    assert WellSigned(NeverForgets(cfg), e) == WellSigned(cfg, e) by { SameSigning(cfg, e); }
    if QuotaOk(cfg, s, e) && WellSigned(cfg, e) {
      var sig := Parse(cfg.crypto, e.nonce).value.signature;
      if Passes(cfg, s, e) && sig in full.core.consumed {
        var p :| p in full.passes && Signature(cfg, p) == sig;
        PassIsFresh(cfg, skew, s, e, p);
      }
      if sig in Cleanup(cfg, s.core.consumed, e.at.prune) {
        var p :| p in s.passes && Signature(cfg, p) == sig;
        assert Signature(cfg, p) in full.core.consumed;
      }
    }
  }

  lemma SameAuthorization(cfg: GateConfig, s: Sys, full: Sys, e: Event)
    requires Visible(full) == Visible(s) && e.Write?
    requires Passes(cfg, s, e) <==> Passes(NeverForgets(cfg), full, e)
    ensures Authorized(NeverForgets(cfg), full, e).Ok? <==> Authorized(cfg, s, e).Ok?
    ensures Authorized(cfg, s, e).Ok? ==> Authorized(NeverForgets(cfg), full, e) == Authorized(cfg, s, e)
    ensures QuotaOk(NeverForgets(cfg), full, e) == QuotaOk(cfg, s, e)
    ensures PassOf(NeverForgets(cfg), e) == PassOf(cfg, e)
  {
    hide Compliant, CheckQuota, VerifyNonce, Parse;
  }

  lemma WriteQuota(cfg: GateConfig, s: Sys, e: Event)
    requires e.Write?
    ensures DoWrite(cfg, s, e).core.quota == TakeQuota(cfg, s.core.quota, e.wall).0
  {
    hide Compliant, CheckQuota, VerifyNonce, Parse;
  }

  /** The steps of both gates agree on everything visible as soon as they agree on the verdict. */
  lemma SameVerdictSameStep(cfg: GateConfig, upper: char -> string, s: Sys, full: Sys, e: Event)
    requires Visible(full) == Visible(s)
    requires e.Write? ==> (Passes(cfg, s, e) <==> Passes(NeverForgets(cfg), full, e))
    ensures Visible(Step(NeverForgets(cfg), upper, full, e)) == Visible(Step(cfg, upper, s, e))
  {
    hide Compliant, CheckQuota, Parse, Cypher.WriteBatch, Cypher.Translate, Tick, Crypto.Print, Passes, Authorize;
    if e.Write? {
      hide Validate, QuotaOk, PassOf, Authorized;
      SameAuthorization(cfg, s, full, e);
      WriteQuota(cfg, s, e);
      WriteQuota(NeverForgets(cfg), full, e);
    }
  }

  lemma OthersKeepTable(cfg: GateConfig, upper: char -> string, s: Sys, e: Event)
    requires !e.Write?
    ensures Step(cfg, upper, s, e).core == s.core && Step(cfg, upper, s, e).passes == s.passes
  {
  }

  lemma AddPass(cfg: GateConfig, full: Sys, full': Sys, q: Pass, until: real)
    requires HoldsAllPasses(cfg, full) && full'.passes == full.passes + [q]
    requires full'.core.consumed == full.core.consumed[Signature(cfg, q) := until]
    ensures HoldsAllPasses(cfg, full')
  {
    assert q in full'.passes;
    assert forall p :: p in full.passes ==> p in full'.passes;
  }

  lemma FullTableStep(cfg: GateConfig, upper: char -> string, full: Sys, e: Event)
    requires HoldsAllPasses(cfg, full)
    requires e.Write? && Passes(NeverForgets(cfg), full, e) ==>
      Parse(cfg.crypto, e.nonce).value.signature == Signature(cfg, PassOf(cfg, e))
    ensures HoldsAllPasses(cfg, Step(NeverForgets(cfg), upper, full, e))
  {
    hide Signature, Passes;
    var ref := NeverForgets(cfg);
    if !e.Write? {
      OthersKeepTable(ref, upper, full, e);
    }
    var full' := Step(ref, upper, full, e);
    if e.Write? && Passes(ref, full, e) {
      PassBurns(ref, upper, full, e);
      AddPass(cfg, full, full', PassOf(cfg, e), e.at.burn + cfg.ttl as real);
    } else if e.Write? {
      RefusalOnlyPrunes(ref, upper, full, e);
    }
  }

  lemma RefinementStep(cfg: GateConfig, upper: char -> string, skew: real, s: Sys, full: Sys, e: Event)
    requires cfg.crypto.Ideal() && cfg.forgets && Sourced(cfg, s) && Guarded(cfg, skew, s)
    requires Visible(full) == Visible(s) && HoldsAllPasses(cfg, full) && Legal(cfg, skew, s, e)
    ensures Visible(Step(NeverForgets(cfg), upper, full, e)) == Visible(Step(cfg, upper, s, e))
    ensures HoldsAllPasses(cfg, Step(NeverForgets(cfg), upper, full, e))
  {
    if e.Write? {
      SameVerdict(cfg, skew, s, full, e);
      if Passes(cfg, s, e) {
        PassHasOrigin(cfg, skew, s, e);
      }
    }
    SameVerdictSameStep(cfg, upper, s, full, e);
    FullTableStep(cfg, upper, full, e);
  }

  /** Forgetting is invisible: the pruned gate passes, authorises and writes exactly what a gate that
      remembers every burned nonce would, over every legal run whose nonces are burned late enough. */
  lemma {:induction false} ForgettingIsInvisible(
    cfg: GateConfig, upper: char -> string, skew: real, store: Cypher.GraphStore, now: real, wall: real,
    es: seq<Event>)
    requires cfg.crypto.Ideal() && cfg.forgets && 0.0 <= skew
    requires LegalRun(cfg, upper, skew, Start(store, now, wall), es)
    requires MatureRun(cfg, upper, skew, Start(store, now, wall), es)
    ensures var start := Start(store, now, wall);
            && Visible(Run(NeverForgets(cfg), upper, start, es)) == Visible(Run(cfg, upper, start, es))
            && HoldsAllPasses(cfg, Run(NeverForgets(cfg), upper, start, es))
  {
    var start := Start(store, now, wall);
    if es != [] {
      var init, last := es[..|es| - 1], es[|es| - 1];
      ForgettingIsInvisible(cfg, upper, skew, store, now, wall, init);
      NonceIsSingleUse(cfg, upper, skew, start, init);
      RefinementStep(cfg, upper, skew, Run(cfg, upper, start, init), Run(NeverForgets(cfg), upper, start, init), last);
    }
  }
}
