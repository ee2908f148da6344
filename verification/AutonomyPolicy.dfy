/**
 The write quota of the autonomy policy: a session cap and a sliding one-minute window.
 The policy keeps only the timestamps of the last minute; the lemmas show that it decides
 as the full history of granted writes would, and what it therefore bounds.
 */
module AutonomyPolicies {
  import opened Wrappers
  import opened Timeline

  datatype Limits = Limits(perSession: int, perMinute: int)

  datatype QuotaState = QuotaState(count: nat, recent: seq<real>)

  datatype QuotaError = SessionExhausted | RateExceeded

  const WINDOW: real := 60.0

  const FRESH := QuotaState(0, [])

  function CheckQuota(l: Limits, s: QuotaState, now: real): (QuotaState, Result<(), QuotaError>)
  {
    if s.count >= l.perSession then (s, Err(SessionExhausted))
    else
      var recent := Newer(s.recent, now - WINDOW);
      if |recent| >= l.perMinute then (s.(recent := recent), Err(RateExceeded))
      else (QuotaState(s.count + 1, recent + [now]), Ok(()))
  }

  /** The policy object: a counter and a timestamp list, both updated in place. */
  class AutonomyPolicy {
    const limits: Limits
    var writeCount: nat
    var writeTimestamps: seq<real>

    ghost function State(): QuotaState
      reads this
    {
      QuotaState(writeCount, writeTimestamps)
    }

    constructor (limits: Limits)
      ensures this.limits == limits && State() == FRESH
    {
      this.limits := limits;
      writeCount := 0;
      writeTimestamps := [];
    }

    method CheckWriteQuota(now: real) returns (r: Result<(), QuotaError>)
      modifies this
      ensures (State(), r) == CheckQuota(limits, old(State()), now)
    {
      if writeCount >= limits.perSession {
        return Err(SessionExhausted);
      }
      writeTimestamps := Newer(writeTimestamps, now - WINDOW);
      if |writeTimestamps| >= limits.perMinute {
        return Err(RateExceeded);
      }
      writeCount := writeCount + 1;
      writeTimestamps := writeTimestamps + [now];
      r := Ok(());
    }
  }

  // ----- The reference: decide from every write ever granted -----

  predicate Allows(l: Limits, granted: seq<real>, now: real)
  {
    |granted| < l.perSession && Within(granted, WINDOW, now) < l.perMinute
  }

  function Max0(n: int): nat { if n < 0 then 0 else n }

  /** The pruned list is the whole history beyond some cutoff that no later check reaches back to. */
  ghost predicate Tracks(s: QuotaState, granted: seq<real>, last: real)
  {
    && s.count == |granted|
    && UpTo(granted, last)
    && exists cutoff :: cutoff <= last - WINDOW && s.recent == Newer(granted, cutoff)
  }

  /** Both limits, for every instant. */
  ghost predicate WithinLimits(l: Limits, granted: seq<real>)
  {
    && |granted| <= Max0(l.perSession)
    && forall w: real :: Within(granted, WINDOW, w) <= Max0(l.perMinute)
  }

  function Granted(l: Limits, s: QuotaState, granted: seq<real>, now: real): seq<real>
  {
    if CheckQuota(l, s, now).1.Ok? then granted + [now] else granted
  }

  /** Pruning is invisible: one check decides as the full history would, and goes on tracking it. */
  lemma QuotaRefinesHistory(l: Limits, s: QuotaState, granted: seq<real>, last: real, now: real)
    requires Tracks(s, granted, last) && last <= now
    ensures CheckQuota(l, s, now).1.Ok? <==> Allows(l, granted, now)
    ensures Tracks(CheckQuota(l, s, now).0, Granted(l, s, granted, now), now)
  {
    hide Newer, CountIn;
    var cutoff :| cutoff <= last - WINDOW && s.recent == Newer(granted, cutoff);
    var next := CheckQuota(l, s, now).0;
    if s.count >= l.perSession {
      assert next.recent == Newer(granted, cutoff);
    } else {
      NewerOfNewer(granted, cutoff, now - WINDOW);
      NewerIsCountIn(granted, now - WINDOW, now);
      NewerSnoc(granted, now, now - WINDOW);
      assert Newer(granted, now - WINDOW) + [] == Newer(granted, now - WINDOW);
      assert next.recent == Newer(Granted(l, s, granted, now), now - WINDOW);
    }
  }

  /** Which refusal: the session cap comes first, then the last sixty seconds. */
  lemma QuotaRefusals(l: Limits, s: QuotaState, granted: seq<real>, last: real, now: real)
    requires Tracks(s, granted, last) && last <= now
    ensures CheckQuota(l, s, now).1 == Err(SessionExhausted) <==> l.perSession <= |granted|
    ensures CheckQuota(l, s, now).1 == Err(RateExceeded) <==>
      |granted| < l.perSession && l.perMinute <= CountIn(granted, now - 60.0, now)
    ensures CheckQuota(l, s, now).1.Ok? <==>
      |granted| < l.perSession && CountIn(granted, now - 60.0, now) < l.perMinute
  {
    QuotaRefinesHistory(l, s, granted, last, now);
  }

  /** One more granted write keeps both bounds, at every instant and not only at the check's own. */
  lemma GrantKeepsLimits(l: Limits, granted: seq<real>, now: real)
    requires WithinLimits(l, granted) && UpTo(granted, now) && Allows(l, granted, now)
    ensures WithinLimits(l, granted + [now])
  {
    forall w: real ensures Within(granted + [now], WINDOW, w) <= Max0(l.perMinute) {
      CountInSnoc(granted, now, w - WINDOW, w);
      assert Within(granted, WINDOW, w) <= Max0(l.perMinute);
      if w >= now {
        CountInMonotone(granted, w - WINDOW, w, now - WINDOW, now);
      }
    }
  }

  /** A stretch of k minutes holds at most k minutes' worth of granted writes. */
  lemma {:induction false} MinutesBound(l: Limits, granted: seq<real>, hi: real, k: nat)
    requires WithinLimits(l, granted)
    ensures CountIn(granted, hi - WINDOW * (k as real), hi) <= k * Max0(l.perMinute)
    decreases k
  {
    if k == 0 {
      EmptyWindow(granted, hi);
    } else {
      var m := Max0(l.perMinute);
      MinutesBound(l, granted, hi - WINDOW, k - 1);
      var lo := hi - WINDOW * (k as real);
      assert lo == hi - WINDOW - WINDOW * ((k - 1) as real);
      CountInSplit(granted, lo, hi - WINDOW, hi);
      assert Within(granted, WINDOW, hi) <= m;
      assert k * m == (k - 1) * m + m;
    }
  }

  // ----- Whole sessions -----

  /** The state and the history after checks at the given times, starting from a new session. */
  function Session(l: Limits, times: seq<real>): (QuotaState, seq<real>)
  {
    if times == [] then (FRESH, [])
    else
      var (s, granted) := Session(l, times[..|times| - 1]);
      var now := times[|times| - 1];
      (CheckQuota(l, s, now).0, Granted(l, s, granted, now))
  }

  /** For every session on a clock that never steps back: both bounds hold at every instant,
      and the next check decides as the full history does. */
  lemma {:induction false} SlidingWindow(l: Limits, times: seq<real>, now: real)
    requires UpTo(times, now)
    ensures WithinLimits(l, Session(l, times).1)
    ensures |Session(l, times).1| <= Max0(l.perSession)
    ensures forall lo, w: real :: lo == w - 60.0 ==> CountIn(Session(l, times).1, lo, w) <= Max0(l.perMinute)
    ensures Tracks(Session(l, times).0, Session(l, times).1, now)
    ensures CheckQuota(l, Session(l, times).0, now).1.Ok? <==> Allows(l, Session(l, times).1, now)
  {
    if times == [] {
      assert FRESH.recent == Newer([], now - WINDOW);
    } else {
      var init, last := times[..|times| - 1], times[|times| - 1];
      SlidingWindow(l, init, last);
      var (s, granted) := Session(l, init);
      QuotaRefinesHistory(l, s, granted, last, last);
      if Allows(l, granted, last) {
        GrantKeepsLimits(l, granted, last);
      }
    }
    QuotaRefinesHistory(l, Session(l, times).0, Session(l, times).1, now, now);
    forall lo, w: real | lo == w - 60.0 ensures CountIn(Session(l, times).1, lo, w) <= Max0(l.perMinute) {
      assert Within(Session(l, times).1, WINDOW, w) <= Max0(l.perMinute);
    }
  }

  lemma SessionSnoc(l: Limits, times: seq<real>, now: real)
    ensures var (s, granted) := Session(l, times);
            Session(l, times + [now]) == (CheckQuota(l, s, now).0, Granted(l, s, granted, now))
  {
    assert (times + [now])[..|times|] == times;
  }

  /** The clock hypothesis is needed: after one backward step a minute holds three writes of a quota of two. */
  lemma BackwardClockBreaksWindow()
    ensures !WithinLimits(Limits(50, 2), Session(Limits(50, 2), [0.0] + [1.0] + [100.0] + [1.0]).1)
  {
    var l := Limits(50, 2);
    SessionSnoc(l, [], 0.0);
    assert [] + [0.0] == [0.0];
    assert Session(l, [0.0]) == (QuotaState(1, [0.0]), [0.0]);
    SessionSnoc(l, [0.0], 1.0);
    NewerSnoc([], 0.0, -59.0);
    assert Newer([0.0], 1.0 - WINDOW) == [0.0];
    assert Session(l, [0.0] + [1.0]) == (QuotaState(2, [0.0] + [1.0]), [0.0] + [1.0]);
    SessionSnoc(l, [0.0] + [1.0], 100.0);
    NewerSnoc([], 0.0, 40.0);
    NewerSnoc([0.0], 1.0, 40.0);
    assert [0.0] + [1.0] == [0.0, 1.0];
    assert Newer([0.0], 40.0) == [];
    assert Newer([0.0, 1.0], 100.0 - WINDOW) == [];
    assert Session(l, [0.0] + [1.0] + [100.0]) == (QuotaState(3, [] + [100.0]), [0.0] + [1.0] + [100.0]);
    SessionSnoc(l, [0.0] + [1.0] + [100.0], 1.0);
    NewerSnoc([], 100.0, -59.0);
    assert [] + [100.0] == [100.0];
    assert Newer([100.0], 1.0 - WINDOW) == [100.0];
    var g := [0.0, 1.0, 100.0, 1.0];
    assert Session(l, [0.0] + [1.0] + [100.0] + [1.0]).1 == g;
    CountInSnoc([], 0.0, -59.0, 1.0);
    CountInSnoc([0.0], 1.0, -59.0, 1.0);
    CountInSnoc([0.0] + [1.0], 100.0, -59.0, 1.0);
    CountInSnoc([0.0] + [1.0] + [100.0], 1.0, -59.0, 1.0);
    assert g == [0.0] + [1.0] + [100.0] + [1.0];
    assert Within(g, WINDOW, 1.0) == 3;
  }
}
