/**
 What whole runs of the write gate add up to: the graph store holds exactly what the committed
 writes stand for, the quota bounds the writes that pass, and the table of burned nonces
 stays small although it is only pruned on use.
 */
module GateBounds {
  import opened Nonce
  import opened AutonomyPolicies
  import opened Timeline
  import opened WriteGates
  import opened GateRuns
  import Cypher

  // ----- Conservation: the store against the committed writes -----

  ghost function CommittedGraph(jobs: seq<Job>): Graph
  {
    set j, t | j in jobs && j.state.Committed? && t in j.graph :: t
  }

  ghost predicate Balanced(upper: char -> string, initial: Cypher.GraphStore, s: Sys)
  {
    && s.store == initial.Plus(Cypher.Image(upper, CommittedGraph(s.jobs)))
    && s.store.Size() == initial.Size() + s.reported
  }

  lemma OnlyCommitsCount(jobs: seq<Job>, jobs': seq<Job>, k: nat)
    requires k < |jobs| == |jobs'| && jobs[k].state == Waiting && jobs'[k].graph == jobs[k].graph
    requires forall i :: 0 <= i < |jobs| && i != k ==> jobs'[i] == jobs[i]
    ensures CommittedGraph(jobs') ==
            CommittedGraph(jobs) + if jobs'[k].state.Committed? then jobs[k].graph else {}
  {
    forall t ensures t in CommittedGraph(jobs') <==>
      t in CommittedGraph(jobs) || (jobs'[k].state.Committed? && t in jobs[k].graph)
    {
      if t in CommittedGraph(jobs') {
        var j :| j in jobs' && j.state.Committed? && t in j.graph;
        var i :| 0 <= i < |jobs'| && jobs'[i] == j;
        assert i != k ==> jobs[i] in jobs;
      }
      if t in CommittedGraph(jobs) {
        var j :| j in jobs && j.state.Committed? && t in j.graph;
        var i :| 0 <= i < |jobs| && jobs[i] == j;
        assert jobs'[i] in jobs';
      }
      if jobs'[k].state.Committed? && t in jobs[k].graph {
        assert jobs'[k] in jobs';
      }
    }
  }

  lemma AddCommitted(
    upper: char -> string, initial: Cypher.GraphStore, s: Sys, s': Sys, graph: Graph, added: nat)
    requires Balanced(upper, initial, s)
    requires s'.store == s.store.Plus(Cypher.Image(upper, graph)) && s'.store.Size() == s.store.Size() + added
    requires CommittedGraph(s'.jobs) == CommittedGraph(s.jobs) + graph && s'.reported == s.reported + added
    ensures Balanced(upper, initial, s')
  {
    hide Cypher.Image, CommittedGraph, Cypher.GraphStore.Size;
    var before := CommittedGraph(s.jobs);
    Cypher.ImageOfUnion(upper, before, graph);
    Cypher.PlusAssociates(initial, Cypher.Image(upper, before), Cypher.Image(upper, graph));
  }

  lemma CommitBalances(upper: char -> string, initial: Cypher.GraphStore, s: Sys, e: Event)
    requires Balanced(upper, initial, s) && e.Commit? && e.job < |s.jobs| && s.jobs[e.job].state == Waiting
    requires Cypher.Elements(e.order) == s.jobs[e.job].graph
    ensures Balanced(upper, initial, DoCommit(upper, s, e))
  {
    hide Cypher.Image, Cypher.RunFrom, Cypher.Translate, Cypher.GraphStore.Size;
    var s', graph := DoCommit(upper, s, e), s.jobs[e.job].graph;
    Cypher.BatchAddsImage(upper, s.store, e.order, e.db);
    OnlyCommitsCount(s.jobs, s'.jobs, e.job);
    if s'.jobs[e.job].state.Committed? {
      AddCommitted(upper, initial, s, s', graph,
        Cypher.WriteBatch(s.store, Cypher.Translate(upper, e.order), e.db).1.value);
    } else {
      assert CommittedGraph(s'.jobs) == CommittedGraph(s.jobs);
      assert s'.store == s.store && s'.reported == s.reported;
    }
  }

  lemma BalancedStep(cfg: GateConfig, upper: char -> string, skew: real, initial: Cypher.GraphStore, s: Sys, e: Event)
    requires Balanced(upper, initial, s) && Legal(cfg, skew, s, e)
    ensures Balanced(upper, initial, Step(cfg, upper, s, e))
  {
    hide Cypher.Image, DoCommit, Unforged;
    match e
    case Validation(_, _, _, _) =>
    case Commit(_, _, _) => CommitBalances(upper, initial, s, e);
    case Write(_, _, _, _, _, _) =>
      assert CommittedGraph(Step(cfg, upper, s, e).jobs) == CommittedGraph(s.jobs);
  }

  /** Nothing reaches the store but the images of the committed graphs, nothing is lost, and the record
      counts reported to callers add up to the growth of the store. */
  lemma {:induction false} StoreIsWhatWasCommitted(
    cfg: GateConfig, upper: char -> string, skew: real, store: Cypher.GraphStore, now: real, wall: real,
    es: seq<Event>)
    requires LegalRun(cfg, upper, skew, Start(store, now, wall), es)
    ensures Balanced(upper, store, Run(cfg, upper, Start(store, now, wall), es))
  {
    if es == [] {
      assert store.Plus(Cypher.Image(upper, CommittedGraph([]))) == store;
    } else {
      var init := es[..|es| - 1];
      StoreIsWhatWasCommitted(cfg, upper, skew, store, now, wall, init);
      BalancedStep(cfg, upper, skew, store, Run(cfg, upper, Start(store, now, wall), init), es[|es| - 1]);
    }
  }

  // ----- The quota bounds the writes that pass -----

  function Walls(passes: seq<Pass>): seq<real>
  {
    seq(|passes|, i requires 0 <= i < |passes| => passes[i].wall)
  }

  /** Every pass was granted by the quota, at its own time. */
  ghost predicate Attested(s: Sys)
  {
    && |s.passes| <= |s.granted|
    && forall lo, hi :: CountIn(Walls(s.passes), lo, hi) <= CountIn(s.granted, lo, hi)
  }

  ghost predicate Metered(cfg: GateConfig, s: Sys)
  {
    && cfg.limits.Some?
    && Tracks(s.core.quota, s.granted, s.wall)
    && WithinLimits(cfg.limits.value, s.granted)
    && Attested(s)
  }

  lemma AttestedStep(s: Sys, s': Sys, q: Pass)
    requires Attested(s)
    requires || (s'.passes == s.passes && (s'.granted == s.granted || s'.granted == s.granted + [q.wall]))
             || (s'.passes == s.passes + [q] && s'.granted == s.granted + [q.wall])
    ensures Attested(s')
  {
    forall lo, hi ensures CountIn(Walls(s'.passes), lo, hi) <= CountIn(s'.granted, lo, hi) {
      assert CountIn(Walls(s.passes), lo, hi) <= CountIn(s.granted, lo, hi);
      CountInSnoc(s.granted, q.wall, lo, hi);
      if s'.passes == s.passes + [q] {
        assert Walls(s'.passes) == Walls(s.passes) + [q.wall];
        CountInSnoc(Walls(s.passes), q.wall, lo, hi);
      }
    }
  }

  lemma MeteredStep(cfg: GateConfig, upper: char -> string, skew: real, s: Sys, e: Event)
    requires Metered(cfg, s) && Legal(cfg, skew, s, e)
    ensures Metered(cfg, Step(cfg, upper, s, e))
  {
    if e.Write? {
      var l := cfg.limits.value;
      QuotaRefinesHistory(l, s.core.quota, s.granted, s.wall, e.wall);
      if Allows(l, s.granted, e.wall) {
        GrantKeepsLimits(l, s.granted, e.wall);
      }
      AttestedStep(s, Step(cfg, upper, s, e), PassOf(cfg, e));
    }
  }

  lemma {:induction false} RunIsMetered(
    cfg: GateConfig, upper: char -> string, skew: real, store: Cypher.GraphStore, now: real, wall: real,
    es: seq<Event>)
    requires cfg.limits.Some? && LegalRun(cfg, upper, skew, Start(store, now, wall), es)
    ensures Metered(cfg, Run(cfg, upper, Start(store, now, wall), es))
  {
    var start := Start(store, now, wall);
    if es == [] {
      assert FRESH.recent == Newer([], wall - WINDOW);
      assert Walls(start.passes) == [];
    } else {
      var init := es[..|es| - 1];
      RunIsMetered(cfg, upper, skew, store, now, wall, init);
      MeteredStep(cfg, upper, skew, Run(cfg, upper, start, init), es[|es| - 1]);
    }
  }

  /** With a policy attached, passing writes inherit both of its limits, the minute's at every instant. */
  lemma WritesInheritQuota(
    cfg: GateConfig, upper: char -> string, skew: real, store: Cypher.GraphStore, now: real, wall: real,
    es: seq<Event>, w: real)
    requires cfg.limits.Some? && LegalRun(cfg, upper, skew, Start(store, now, wall), es)
    ensures var s := Run(cfg, upper, Start(store, now, wall), es);
            && |s.passes| <= Max0(cfg.limits.value.perSession)
            && Within(Walls(s.passes), WINDOW, w) <= Max0(cfg.limits.value.perMinute)
  {
    RunIsMetered(cfg, upper, skew, store, now, wall, es);
    var s := Run(cfg, upper, Start(store, now, wall), es);
    assert Within(s.granted, WINDOW, w) <= Max0(cfg.limits.value.perMinute);
  }

  // ----- Bounded memory -----

  /** Policy and gate read one clock, and no write takes longer than `delay` from quota check to burn. */
  ghost predicate SharedClock(delay: real, s: Sys, e: Event)
  {
    e.Write? ==> e.wall <= e.at.check && e.at.burn <= e.wall + delay
  }

  ghost predicate SharedClockRun(cfg: GateConfig, upper: char -> string, delay: real, start: Sys, es: seq<Event>)
  {
    es != [] ==>
      var init, last := es[..|es| - 1], es[|es| - 1];
      SharedClockRun(cfg, upper, delay, start, init) && SharedClock(delay, Run(cfg, upper, start, init), last)
  }

  /** Every entry of the table was burned by a pass, and expires one TTL after it. */
  ghost predicate Entered(cfg: GateConfig, delay: real, s: Sys)
  {
    forall sig :: sig in s.core.consumed ==>
      exists p :: p in s.passes && Signature(cfg, p) == sig && p.at.burn <= p.wall + delay
                  && s.core.consumed[sig] == p.at.burn + cfg.ttl as real
  }

  lemma Subset(a: set<string>, b: set<string>)
    requires a <= b
    ensures |a| <= |b|
  {
    assert b == a + (b - a);
  }

  lemma {:induction false} KeysAreCounted(cfg: GateConfig, passes: seq<Pass>, keys: set<string>, lo: real, hi: real)
    requires forall k :: k in keys ==> exists p :: p in passes && Signature(cfg, p) == k && lo < p.wall <= hi
    ensures |keys| <= CountIn(Walls(passes), lo, hi)
  {
    if passes == [] {
      assert keys == {};
    } else {
      var init, last := passes[..|passes| - 1], passes[|passes| - 1];
      var sig := Signature(cfg, last);
      assert Walls(passes) == Walls(init) + [last.wall];
      CountInSnoc(Walls(init), last.wall, lo, hi);
      assert passes == init + [last];
      if lo < last.wall <= hi {
        KeysAreCounted(cfg, init, keys - {sig}, lo, hi);
        assert keys <= (keys - {sig}) + {sig};
        Subset(keys, (keys - {sig}) + {sig});
      } else {
        KeysAreCounted(cfg, init, keys, lo, hi);
      }
    }
  }

  /** What the memory bound needs of a state. */
  ghost predicate Small(cfg: GateConfig, delay: real, minutes: nat, s: Sys)
  {
    && Metered(cfg, s) && Entered(cfg, delay, s)
    && (forall p :: p in s.passes ==> p.wall <= s.wall)
    && |s.core.consumed| <= minutes * Max0(cfg.limits.value.perMinute)
  }

  /** Right after a burn, each entry belongs to a pass of the last `minutes` minutes. */
  lemma EntriesAreRecent(cfg: GateConfig, delay: real, minutes: nat, s: Sys, s': Sys, q: Pass)
    requires Entered(cfg, delay, s) && s'.passes == s.passes + [q]
    requires s'.core.consumed == Prune(s.core.consumed, q.at.prune)[Signature(cfg, q) := q.at.burn + cfg.ttl as real]
    requires q.wall <= q.at.prune <= q.at.burn <= q.wall + delay
    requires forall p :: p in s.passes ==> p.wall <= q.wall
    requires 0 < cfg.ttl && cfg.ttl as real + delay <= WINDOW * (minutes as real)
    ensures Entered(cfg, delay, s')
    ensures forall k :: k in s'.core.consumed.Keys ==>
      exists p :: && p in s'.passes && Signature(cfg, p) == k
                  && q.at.prune - WINDOW * (minutes as real) < p.wall <= q.at.prune
  {
    forall k | k in s'.core.consumed
      ensures exists p :: && p in s'.passes && Signature(cfg, p) == k && p.at.burn <= p.wall + delay
                          && s'.core.consumed[k] == p.at.burn + cfg.ttl as real
                          && q.at.prune - WINDOW * (minutes as real) < p.wall <= q.at.prune
    {
      if k == Signature(cfg, q) {
        assert q in s'.passes;
      } else {
        var p :| p in s.passes && Signature(cfg, p) == k && p.at.burn <= p.wall + delay
                 && s.core.consumed[k] == p.at.burn + cfg.ttl as real;
        assert p in s'.passes;
      }
    }
  }

  lemma RecentEntriesAreFew(
    cfg: GateConfig, l: Limits, minutes: nat, passes: seq<Pass>, granted: seq<real>, keys: set<string>, lo: real,
    hi: real)
    requires lo == hi - WINDOW * (minutes as real)
    requires WithinLimits(l, granted) && CountIn(Walls(passes), lo, hi) <= CountIn(granted, lo, hi)
    requires forall k :: k in keys ==> exists p :: p in passes && Signature(cfg, p) == k && lo < p.wall <= hi
    ensures |keys| <= minutes * Max0(l.perMinute)
  {
    hide CountIn, Walls, Signature;
    KeysAreCounted(cfg, passes, keys, lo, hi);
    MinutesBound(l, granted, hi, minutes);
  }

  lemma BurnKeepsSmall(cfg: GateConfig, delay: real, minutes: nat, s: Sys, s': Sys, q: Pass)
    requires Small(cfg, delay, minutes, s) && Metered(cfg, s') && s'.wall == q.wall && s.wall <= q.wall
    requires s'.passes == s.passes + [q] && q.wall <= q.at.prune <= q.at.burn <= q.wall + delay
    requires s'.core.consumed == Prune(s.core.consumed, q.at.prune)[Signature(cfg, q) := q.at.burn + cfg.ttl as real]
    requires 0 < cfg.ttl && cfg.ttl as real + delay <= WINDOW * (minutes as real)
    ensures Small(cfg, delay, minutes, s')
  {
    hide CountIn, Newer, Tracks, WithinLimits, Signature;
    EntriesAreRecent(cfg, delay, minutes, s, s', q);
    var lo := q.at.prune - WINDOW * (minutes as real);
    RecentEntriesAreFew(cfg, cfg.limits.value, minutes, s'.passes, s'.granted, s'.core.consumed.Keys, lo, q.at.prune);
  }

  lemma BurnStaysSmall(cfg: GateConfig, upper: char -> string, skew: real, delay: real, minutes: nat, s: Sys, e: Event)
    requires cfg.forgets && Small(cfg, delay, minutes, s) && Metered(cfg, Step(cfg, upper, s, e))
    requires e.Write? && Passes(cfg, s, e) && SharedClock(delay, s, e)
    requires s.wall <= e.wall && Ordered(e.at, s.now, skew)
    requires Parse(cfg.crypto, e.nonce).Some?
    requires Parse(cfg.crypto, e.nonce).value.signature == Signature(cfg, PassOf(cfg, e))
    requires 0 < cfg.ttl && cfg.ttl as real + delay <= WINDOW * (minutes as real)
    ensures Small(cfg, delay, minutes, Step(cfg, upper, s, e))
  {
    hide Metered, Entered;
    PassBurns(cfg, upper, s, e);
    var s', q := Step(cfg, upper, s, e), PassOf(cfg, e);
    assert s'.core.consumed == Prune(s.core.consumed, q.at.prune)[Signature(cfg, q) := q.at.burn + cfg.ttl as real];
    BurnKeepsSmall(cfg, delay, minutes, s, s', q);
  }

  lemma RefusalStaysSmall(
    cfg: GateConfig, upper: char -> string, skew: real, delay: real, minutes: nat, s: Sys, e: Event)
    requires Small(cfg, delay, minutes, s) && cfg.forgets
    requires e.Write? && Legal(cfg, skew, s, e) && !Passes(cfg, s, e)
    ensures Small(cfg, delay, minutes, Step(cfg, upper, s, e))
  {
    var s' := Step(cfg, upper, s, e);
    MeteredStep(cfg, upper, skew, s, e);
    RefusalOnlyPrunes(cfg, upper, s, e);
    assert s'.core.consumed.Keys <= s.core.consumed.Keys;
    Subset(s'.core.consumed.Keys, s.core.consumed.Keys);
  }

  lemma SmallStep(cfg: GateConfig, upper: char -> string, skew: real, delay: real, minutes: nat, s: Sys, e: Event)
    requires cfg.crypto.Ideal() && cfg.forgets && Sourced(cfg, s) && Small(cfg, delay, minutes, s)
    requires Legal(cfg, skew, s, e) && SharedClock(delay, s, e)
    requires 0 < cfg.ttl && cfg.ttl as real + delay <= WINDOW * (minutes as real)
    ensures Small(cfg, delay, minutes, Step(cfg, upper, s, e))
  {
    hide Sourced, Tracks, WithinLimits, Attested, Signature, Unforged, VerifyNonce;
    MeteredStep(cfg, upper, skew, s, e);
    if e.Write? && Passes(cfg, s, e) {
      PassHasOrigin(cfg, skew, s, e);
      assert Parse(cfg.crypto, e.nonce).Some? by { PassBurns(cfg, upper, s, e); }
      BurnStaysSmall(cfg, upper, skew, delay, minutes, s, e);
    } else if e.Write? {
      RefusalStaysSmall(cfg, upper, skew, delay, minutes, s, e);
    }
  }

  lemma NothingEntered(cfg: GateConfig, delay: real, s: Sys)
    requires s.core.consumed == map[]
    ensures Entered(cfg, delay, s)
  {
  }

  lemma StartIsSourced(cfg: GateConfig, s: Sys)
    requires s.issued == [] && s.passes == [] && s.jobs == []
    ensures Sourced(cfg, s)
  {
  }

  /**
   With a quota of m writes a minute and one clock, the table of burned nonces never holds
   more than ceil((TTL + delay) / 60) * m entries, although only writes prune it.
   */
  lemma {:induction false} BoundedMemory(
    cfg: GateConfig, upper: char -> string, skew: real, delay: real, minutes: nat,
    store: Cypher.GraphStore, now: real, es: seq<Event>)
    requires cfg.crypto.Ideal() && cfg.forgets && cfg.limits.Some?
    requires 0 < cfg.ttl && 0.0 <= delay && cfg.ttl as real + delay <= WINDOW * (minutes as real)
    requires LegalRun(cfg, upper, skew, Start(store, now, now), es)
    requires SharedClockRun(cfg, upper, delay, Start(store, now, now), es)
    ensures Small(cfg, delay, minutes, Run(cfg, upper, Start(store, now, now), es))
    ensures |Run(cfg, upper, Start(store, now, now), es).core.consumed| <= minutes * Max0(cfg.limits.value.perMinute)
  {
    hide Metered, Entered, Sourced, Legal, SharedClock, Crypto.Ideal, Step;
    var start := Start(store, now, now);
    if es == [] {
      RunIsMetered(cfg, upper, skew, store, now, now, es);
      NothingEntered(cfg, delay, start);
    } else {
      var init, last := es[..|es| - 1], es[|es| - 1];
      BoundedMemory(cfg, upper, skew, delay, minutes, store, now, init);
      StartIsSourced(cfg, start);
      RunIsSourced(cfg, upper, skew, start, init);
      SmallStep(cfg, upper, skew, delay, minutes, Run(cfg, upper, start, init), last);
    }
  }
}
