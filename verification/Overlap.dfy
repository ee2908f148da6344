/**
 The breaker under overlapping messages. The kernel asks whether a circuit is open, awaits the processing, and
 records a failure afterwards; other messages do the same in between. Each event is one stretch without an await.
 */
module OverlappingMessages {
  import opened Timeline
  import opened CircuitBreakers

  /** `pending` holds the texts of the messages that were let through and are still being processed. */
  datatype Flight = Flight(s: BreakerState, history: map<string, seq<real>>, pending: multiset<string>, now: real)

  datatype FlightEvent =
    | Arrives(text: string, time: real)
    | Ends(text: string, time: real, fails: bool)

  function Arrive(cfg: BreakerConfig, w: Flight, text: string, time: real): Flight
  {
    var (s, open) := IsOpen(cfg, w.s, text, time);
    Flight(s, w.history, if open then w.pending else w.pending + multiset{text}, time)
  }

  function End(cfg: BreakerConfig, similar: Similarity, w: Flight, text: string, time: real, fails: bool): Flight
  {
    var pending := w.pending - multiset{text};
    if !fails then w.(pending := pending, now := time)
    else Flight(RecordFailure(cfg, similar, w.s, text, text, time).0,
                w.history[text := HistoryOf(w.history, text) + [time]], pending, time)
  }

  function FlightStep(cfg: BreakerConfig, similar: Similarity, w: Flight, e: FlightEvent): Flight
  {
    match e
    case Arrives(text, time) => Arrive(cfg, w, text, time)
    case Ends(text, time, fails) => End(cfg, similar, w, text, time, fails)
  }

  function Fly(cfg: BreakerConfig, similar: Similarity, w: Flight, es: seq<FlightEvent>): Flight
  {
    if es == [] then w else FlightStep(cfg, similar, Fly(cfg, similar, w, es[..|es| - 1]), es[|es| - 1])
  }

  function Quiet(start: real): Flight { Flight(CLOSED, map[], multiset{}, start) }

  /** A clock that never steps back, only messages under way end, and never more than `c` of one text are. */
  ghost predicate Orderly(cfg: BreakerConfig, similar: Similarity, w: Flight, es: seq<FlightEvent>, c: nat)
  {
    es != [] ==>
      var init, e := es[..|es| - 1], es[|es| - 1];
      var before := Fly(cfg, similar, w, init);
      && Orderly(cfg, similar, w, init, c)
      && before.now <= e.time
      && (e.Ends? ==> before.pending[e.text] > 0)
      && FlightStep(cfg, similar, before, e).pending[e.text] <= c
  }

  // ----- What every event keeps, one text at a time -----

  /** How buffer and circuit stand to the history when failures may be recorded unasked. */
  ghost predicate Follows(cfg: BreakerConfig, fs: seq<Failure>, open: bool, text: string, h: seq<real>, now: real)
  {
    var width := cfg.window as real;
    && UpTo(h, now)
    && (forall f :: f in fs ==> f.params == text)
    && (exists cutoff :: cutoff <= now - width && Times(fs) == Newer(h, cutoff))
    && (open && 0 < cfg.window ==> fs != [])
    && (!open ==> CountIn(h, now - width, now) < AtLeastOne(cfg.threshold))
    && (h != [] && now - h[|h| - 1] <= width && Within(h, width, h[|h| - 1]) >= cfg.threshold ==> open)
  }

  /** Once a window holds `threshold` failures, only the messages under way can add to it. */
  ghost predicate Contained(cfg: BreakerConfig, c: nat, h: seq<real>, pending: nat, now: real)
  {
    var width, most := cfg.window as real, AtLeastOne(cfg.threshold) + c - 1;
    && pending <= c
    && (forall lo :: now - width <= lo && CountIn(h, lo, now) >= AtLeastOne(cfg.threshold) ==>
          CountIn(h, lo, now) + pending <= most)
    && (forall end :: Within(h, width, end) <= most)
  }

  lemma CountInLater(h: seq<real>, lo: real, now: real, t: real)
    requires UpTo(h, now) && now <= t
    ensures CountIn(h, lo, t) == CountIn(h, lo, now)
  {
    CountInMonotone(h, lo, now, lo, t);
    CountInMonotone(h, lo, t, lo, now);
  }

  lemma LaterFollows(cfg: BreakerConfig, fs: seq<Failure>, open: bool, text: string, h: seq<real>, now: real, t: real)
    requires Follows(cfg, fs, open, text, h, now) && now <= t
    ensures Follows(cfg, fs, open, text, h, t)
  {
    hide Newer, CountIn;
    var width := cfg.window as real;
    CountInMonotone(h, t - width, t, now - width, now);
  }

  lemma LaterContained(cfg: BreakerConfig, c: nat, h: seq<real>, pending: nat, less: nat, now: real, t: real)
    requires Contained(cfg, c, h, pending, now) && UpTo(h, now) && now <= t && less <= pending
    ensures Contained(cfg, c, h, less, t)
  {
    forall lo ensures CountIn(h, lo, t) == CountIn(h, lo, now) {
      CountInLater(h, lo, now, t);
    }
  }

  /** The latest buffered failure is the last one of the history. */
  lemma LatestFailed(fs: seq<Failure>, h: seq<real>, cutoff: real, now: real)
    requires UpTo(h, now) && Times(fs) == Newer(h, cutoff) && fs != []
    ensures h != [] && h[|h| - 1] > cutoff && Latest(fs) == h[|h| - 1]
  {
    hide Newer, Latest;
    assert |Times(fs)| == |fs|;
    if h == [] || h[|h| - 1] <= cutoff {
      NothingNewer(h, cutoff);
      assert false;
    }
    NewerIsPart(h, cutoff, h[|h| - 1]);
    var ts := Times(fs);
    assert forall i :: 0 <= i < |fs| ==> ts[i] == fs[i].at;
    assert fs[|fs| - 1] in fs;
  }

  /** A check that finds the circuit closed leaves it closed, with a window that still has room. */
  lemma ClosedFollows(cfg: BreakerConfig, fs: seq<Failure>, open: bool, text: string, h: seq<real>, now: real, t: real)
    requires Follows(cfg, fs, open, text, h, now) && now <= t
    requires !(open && !(fs != [] && t - Latest(fs) > cfg.window as real))
    ensures Follows(cfg, if open then [] else fs, false, text, h, t)
  {
    hide Newer, CountIn, Latest;
    LaterFollows(cfg, fs, open, text, h, now, t);
    if open {
      var width := cfg.window as real;
      var cutoff :| cutoff <= now - width && Times(fs) == Newer(h, cutoff);
      LatestFailed(fs, h, cutoff, now);
      NothingNewer(h, t - width);
      NothingAfter(h, t - width, t);
      assert Times([]) == [];
    }
  }

  lemma AdmissionContained(cfg: BreakerConfig, c: nat, h: seq<real>, pending: nat, now: real, t: real)
    requires Contained(cfg, c, h, pending, now) && UpTo(h, now) && now <= t && pending + 1 <= c
    requires CountIn(h, t - cfg.window as real, t) < AtLeastOne(cfg.threshold)
    ensures Contained(cfg, c, h, pending + 1, t)
  {
    var width := cfg.window as real;
    forall lo | t - width <= lo ensures CountIn(h, lo, t) < AtLeastOne(cfg.threshold) {
      CountInMonotone(h, lo, t, t - width, t);
    }
  }

  /** Recording a failure, asked or not. */
  lemma RecordFollows(
    cfg: BreakerConfig, similar: Similarity, fs: seq<Failure>, open: bool, text: string, h: seq<real>, now: real,
    t: real)
    requires Follows(cfg, fs, open, text, h, now) && now <= t
    ensures var kept := Recent(fs + [Failure(text, t)], t - cfg.window as real);
            Follows(cfg, kept, open || CountSimilar(similar, kept, text) >= cfg.threshold, text, h + [t], t)
  {
    hide Recent, Newer, CountIn, CountSimilar;
    var cutoff :| cutoff <= now - cfg.window as real && Times(fs) == Newer(h, cutoff);
    KeptIsWindow(cfg, similar, fs, text, h, cutoff, t);
    var kept := Recent(fs + [Failure(text, t)], t - cfg.window as real);
    assert Times(kept) == Newer(h + [t], t - cfg.window as real);
    NewerSnoc(h, t, t - cfg.window as real);
    assert |kept| == |Times(kept)|;
    assert 0 < cfg.window ==> kept != [];
  }

  lemma RecordContained(cfg: BreakerConfig, c: nat, h: seq<real>, pending: nat, now: real, t: real)
    requires Contained(cfg, c, h, pending, now) && UpTo(h, now) && now <= t && 0 < pending
    ensures Contained(cfg, c, h + [t], pending - 1, t)
  {
    hide CountIn;
    var width, least := cfg.window as real, AtLeastOne(cfg.threshold);
    forall lo | t - width <= lo && CountIn(h + [t], lo, t) >= least
      ensures CountIn(h + [t], lo, t) + pending - 1 <= least + c - 1
    {
      CountInSnoc(h, t, lo, t);
      CountInLater(h, lo, now, t);
    }
    forall end ensures Within(h + [t], width, end) <= least + c - 1 {
      CountInSnoc(h, t, end - width, end);
      assert Within(h, width, end) <= least + c - 1;
      if end - width < t <= end {
        CountInLater(h, end - width, now, t);
        CountInLater(h, end - width, now, end);
      }
    }
  }

  ghost predicate Tracked(cfg: BreakerConfig, c: nat, w: Flight, text: string)
  {
    && Follows(cfg, FailuresOf(w.s, text), text in w.s.open, text, HistoryOf(w.history, text), w.now)
    && Contained(cfg, c, HistoryOf(w.history, text), w.pending[text], w.now)
  }

  lemma FollowsUpTo(cfg: BreakerConfig, fs: seq<Failure>, open: bool, text: string, h: seq<real>, now: real)
    requires Follows(cfg, fs, open, text, h, now)
    ensures UpTo(h, now)
  {
  }

  lemma RoomWhenClosed(cfg: BreakerConfig, fs: seq<Failure>, text: string, h: seq<real>, now: real)
    requires Follows(cfg, fs, false, text, h, now)
    ensures CountIn(h, now - cfg.window as real, now) < AtLeastOne(cfg.threshold)
  {
  }

  lemma ArrivalTracked(cfg: BreakerConfig, c: nat, w: Flight, text: string, time: real)
    requires Tracked(cfg, c, w, text) && w.now <= time && Arrive(cfg, w, text, time).pending[text] <= c
    ensures Tracked(cfg, c, Arrive(cfg, w, text, time), text)
  {
    hide Follows, Contained, Latest;
    var fs, open, h := FailuresOf(w.s, text), text in w.s.open, HistoryOf(w.history, text);
    assert UpTo(h, w.now) by { FollowsUpTo(cfg, fs, open, text, h, w.now); }
    if open && !(fs != [] && time - Latest(fs) > cfg.window as real) {
      LaterFollows(cfg, fs, open, text, h, w.now, time);
      LaterContained(cfg, c, h, w.pending[text], w.pending[text], w.now, time);
    } else {
      ClosedFollows(cfg, fs, open, text, h, w.now, time);
      RoomWhenClosed(cfg, if open then [] else fs, text, h, time);
      AdmissionContained(cfg, c, h, w.pending[text], w.now, time);
    }
  }

  lemma EndTracked(
    cfg: BreakerConfig, similar: Similarity, c: nat, w: Flight, text: string, time: real, fails: bool)
    requires Tracked(cfg, c, w, text) && w.now <= time && w.pending[text] > 0
    ensures Tracked(cfg, c, End(cfg, similar, w, text, time, fails), text)
  {
    hide Follows, Contained, Recent, CountSimilar;
    var fs, open, h, n := FailuresOf(w.s, text), text in w.s.open, HistoryOf(w.history, text), w.pending[text];
    assert UpTo(h, w.now) by { FollowsUpTo(cfg, fs, open, text, h, w.now); }
    if fails {
      RecordFollows(cfg, similar, fs, open, text, h, w.now, time);
      RecordContained(cfg, c, h, n, w.now, time);
    } else {
      LaterFollows(cfg, fs, open, text, h, w.now, time);
      LaterContained(cfg, c, h, n, n - 1, w.now, time);
    }
  }

  /** An event leaves every other text alone. */
  lemma OtherText(cfg: BreakerConfig, similar: Similarity, w: Flight, e: FlightEvent, text: string)
    requires text != e.text
    ensures var w' := FlightStep(cfg, similar, w, e);
            && FailuresOf(w'.s, text) == FailuresOf(w.s, text) && (text in w'.s.open <==> text in w.s.open)
            && HistoryOf(w'.history, text) == HistoryOf(w.history, text)
            && w'.pending[text] == w.pending[text] && w'.now == e.time
  {
    hide Recent, CountSimilar, Latest;
    match e
    case Arrives(_, _) =>
    case Ends(_, _, _) =>
  }

  lemma OtherTracked(cfg: BreakerConfig, similar: Similarity, c: nat, w: Flight, e: FlightEvent, text: string)
    requires Tracked(cfg, c, w, text) && w.now <= e.time && text != e.text
    ensures Tracked(cfg, c, FlightStep(cfg, similar, w, e), text)
  {
    hide Follows, Contained, FlightStep, FailuresOf, HistoryOf;
    OtherText(cfg, similar, w, e, text);
    var fs, open, h, n := FailuresOf(w.s, text), text in w.s.open, HistoryOf(w.history, text), w.pending[text];
    assert UpTo(h, w.now) by { FollowsUpTo(cfg, fs, open, text, h, w.now); }
    LaterFollows(cfg, fs, open, text, h, w.now, e.time);
    LaterContained(cfg, c, h, n, n, w.now, e.time);
  }

  lemma QuietTracked(cfg: BreakerConfig, c: nat, start: real, text: string)
    requires 0 < c
    ensures Tracked(cfg, c, Quiet(start), text)
  {
    assert Times([]) == Newer([], start - cfg.window as real);
  }

  lemma {:induction false} FlightIsTracked(
    cfg: BreakerConfig, similar: Similarity, c: nat, start: real, es: seq<FlightEvent>, text: string)
    requires 0 < c && Orderly(cfg, similar, Quiet(start), es, c)
    ensures Tracked(cfg, c, Fly(cfg, similar, Quiet(start), es), text)
  {
    hide Tracked, Arrive, End;
    if es == [] {
      QuietTracked(cfg, c, start, text);
    } else {
      var init, e := es[..|es| - 1], es[|es| - 1];
      var w := Fly(cfg, similar, Quiet(start), init);
      FlightIsTracked(cfg, similar, c, start, init, text);
      if e.text != text {
        OtherTracked(cfg, similar, c, w, e, text);
      } else if e.Arrives? {
        ArrivalTracked(cfg, c, w, text, e.time);
      } else {
        EndTracked(cfg, similar, c, w, text, e.time, e.fails);
      }
    }
  }

  // ----- The results -----

  /** With at most `c` messages of a text under way at once, no window ever holds more than `threshold + c - 1`
      failures of it (with a threshold of at least one), across all openings and automatic resets. */
  lemma OverlapBound(
    cfg: BreakerConfig, similar: Similarity, c: nat, start: real, es: seq<FlightEvent>, text: string, end: real)
    requires 0 < c && Orderly(cfg, similar, Quiet(start), es, c)
    ensures Within(HistoryOf(Fly(cfg, similar, Quiet(start), es).history, text), cfg.window as real, end)
         <= AtLeastOne(cfg.threshold) + c - 1
  {
    hide Fly, Orderly, CountIn;
    FlightIsTracked(cfg, similar, c, start, es, text);
  }

  // The bound is met: `threshold - 1` failures one by one, then `c` messages that all arrive before
  // the first of them fails.

  function OneByOne(text: string, time: real, n: nat): seq<FlightEvent>
  {
    if n == 0 then [] else OneByOne(text, time, n - 1) + [Arrives(text, time)] + [Ends(text, time, true)]
  }

  function Together(text: string, time: real, alone: nat, arrived: nat, failed: nat): seq<FlightEvent>
  {
    if failed > 0 then Together(text, time, alone, arrived, failed - 1) + [Ends(text, time, true)]
    else if arrived > 0 then Together(text, time, alone, arrived - 1, 0) + [Arrives(text, time)]
    else OneByOne(text, time, alone)
  }

  function Copies(x: real, n: nat): seq<real> { seq(n, _ => x) }

  lemma FlySnoc(cfg: BreakerConfig, similar: Similarity, w: Flight, es: seq<FlightEvent>, e: FlightEvent, c: nat)
    requires Orderly(cfg, similar, w, es, c)
    ensures var before := Fly(cfg, similar, w, es);
            var after := FlightStep(cfg, similar, before, e);
            && Fly(cfg, similar, w, es + [e]) == after
            && (before.now <= e.time && (e.Ends? ==> before.pending[e.text] > 0) && after.pending[e.text] <= c
                ==> Orderly(cfg, similar, w, es + [e], c))
  {
    assert (es + [e])[..|es|] == es;
  }

  lemma {:induction false} RecentIsShorter(fs: seq<Failure>, cutoff: real)
    ensures |Recent(fs, cutoff)| <= |fs|
  {
    if fs != [] {
      RecentIsShorter(fs[..|fs| - 1], cutoff);
    }
  }

  lemma {:induction false} SimilarAreFew(similar: Similarity, fs: seq<Failure>, params: string)
    ensures CountSimilar(similar, fs, params) <= |fs|
  {
    if fs != [] {
      SimilarAreFew(similar, fs[..|fs| - 1], params);
    }
  }

  /** A flight in which `n` messages have failed and `p` are under way, all at one instant. */
  ghost predicate Stage(w: Flight, text: string, time: real, n: nat, p: nat)
  {
    HistoryOf(w.history, text) == Copies(time, n) && w.pending[text] == p && w.now == time
  }

  ghost predicate Room(w: Flight, text: string, n: nat)
  {
    text !in w.s.open && |FailuresOf(w.s, text)| <= n
  }

  lemma OneArrives(cfg: BreakerConfig, w: Flight, text: string, time: real, n: nat, p: nat)
    requires Stage(w, text, time, n, p) && Room(w, text, n)
    ensures Stage(Arrive(cfg, w, text, time), text, time, n, p + 1) && Room(Arrive(cfg, w, text, time), text, n)
  {
  }

  lemma OneFails(cfg: BreakerConfig, similar: Similarity, w: Flight, text: string, time: real, n: nat, p: nat)
    requires Stage(w, text, time, n, p) && 0 < p
    ensures Stage(End(cfg, similar, w, text, time, true), text, time, n + 1, p - 1)
    ensures Room(w, text, n) && n + 1 < cfg.threshold ==> Room(End(cfg, similar, w, text, time, true), text, n + 1)
  {
    hide Recent, CountSimilar;
    var all := FailuresOf(w.s, text) + [Failure(text, time)];
    RecentIsShorter(all, time - cfg.window as real);
    SimilarAreFew(similar, Recent(all, time - cfg.window as real), text);
    assert Copies(time, n) + [time] == Copies(time, n + 1);
  }

  /** A flight of this many failures and messages under way, every one at the same instant. */
  ghost predicate Staged(
    cfg: BreakerConfig, similar: Similarity, c: nat, es: seq<FlightEvent>, text: string, time: real, n: nat, p: nat)
  {
    Orderly(cfg, similar, Quiet(time), es, c) && Stage(Fly(cfg, similar, Quiet(time), es), text, time, n, p)
  }

  lemma ArrivalStaged(
    cfg: BreakerConfig, similar: Similarity, c: nat, es: seq<FlightEvent>, text: string, time: real, n: nat, p: nat)
    requires Staged(cfg, similar, c, es, text, time, n, p) && p < c
    requires Room(Fly(cfg, similar, Quiet(time), es), text, n)
    ensures Staged(cfg, similar, c, es + [Arrives(text, time)], text, time, n, p + 1)
    ensures Room(Fly(cfg, similar, Quiet(time), es + [Arrives(text, time)]), text, n)
  {
    hide Fly, Orderly, Arrive, Room;
    FlySnoc(cfg, similar, Quiet(time), es, Arrives(text, time), c);
    OneArrives(cfg, Fly(cfg, similar, Quiet(time), es), text, time, n, p);
  }

  lemma FailureStaged(
    cfg: BreakerConfig, similar: Similarity, c: nat, es: seq<FlightEvent>, text: string, time: real, n: nat, p: nat)
    requires Staged(cfg, similar, c, es, text, time, n, p) && 0 < p <= c
    ensures Staged(cfg, similar, c, es + [Ends(text, time, true)], text, time, n + 1, p - 1)
    ensures Room(Fly(cfg, similar, Quiet(time), es), text, n) && n + 1 < cfg.threshold ==>
      Room(Fly(cfg, similar, Quiet(time), es + [Ends(text, time, true)]), text, n + 1)
  {
    hide Fly, Orderly, End, Room;
    FlySnoc(cfg, similar, Quiet(time), es, Ends(text, time, true), c);
    OneFails(cfg, similar, Fly(cfg, similar, Quiet(time), es), text, time, n, p);
  }

  lemma QuietStaged(cfg: BreakerConfig, similar: Similarity, c: nat, text: string, time: real)
    ensures Staged(cfg, similar, c, [], text, time, 0, 0) && Room(Fly(cfg, similar, Quiet(time), []), text, 0)
  {
  }

  lemma {:induction false} OneByOneRuns(
    cfg: BreakerConfig, similar: Similarity, c: nat, text: string, time: real, n: nat)
    requires 0 < c && n < AtLeastOne(cfg.threshold)
    ensures Staged(cfg, similar, c, OneByOne(text, time, n), text, time, n, 0)
    ensures Room(Fly(cfg, similar, Quiet(time), OneByOne(text, time, n)), text, n)
  {
    hide Staged, Fly, Room;
    if n == 0 {
      QuietStaged(cfg, similar, c, text, time);
    } else {
      var es := OneByOne(text, time, n - 1);
      OneByOneRuns(cfg, similar, c, text, time, n - 1);
      ArrivalStaged(cfg, similar, c, es, text, time, n - 1, 0);
      FailureStaged(cfg, similar, c, es + [Arrives(text, time)], text, time, n - 1, 1);
    }
  }

  lemma {:induction false} TogetherRuns(
    cfg: BreakerConfig, similar: Similarity, c: nat, text: string, time: real, alone: nat, arrived: nat, failed: nat)
    requires 0 < c && alone < AtLeastOne(cfg.threshold) && failed <= arrived <= c && (0 < failed ==> arrived == c)
    ensures var es := Together(text, time, alone, arrived, failed);
            && Staged(cfg, similar, c, es, text, time, alone + failed, arrived - failed)
            && (failed == 0 ==> Room(Fly(cfg, similar, Quiet(time), es), text, alone))
    decreases failed, arrived
  {
    hide Staged, Fly, Room;
    if failed > 0 {
      TogetherRuns(cfg, similar, c, text, time, alone, arrived, failed - 1);
      FailureStaged(cfg, similar, c, Together(text, time, alone, arrived, failed - 1), text, time,
                    alone + failed - 1, arrived - failed + 1);
    } else if arrived > 0 {
      TogetherRuns(cfg, similar, c, text, time, alone, arrived - 1, 0);
      ArrivalStaged(cfg, similar, c, Together(text, time, alone, arrived - 1, 0), text, time, alone, arrived - 1);
    } else {
      OneByOneRuns(cfg, similar, c, text, time, alone);
    }
  }

  lemma {:induction false} AllWithin(x: real, n: nat, width: real)
    requires 0.0 < width
    ensures Within(Copies(x, n), width, x) == n
  {
    if n > 0 {
      AllWithin(x, n - 1, width);
      assert Copies(x, n)[..n - 1] == Copies(x, n - 1);
    }
  }

  /** The bound cannot be improved: for every configuration with a window, and every `c`, some orderly flight meets
      it. */
  lemma OverlapBoundIsMet(cfg: BreakerConfig, similar: Similarity, c: nat, text: string, time: real)
    requires 0 < c && 0 < cfg.window
    ensures var es := Together(text, time, AtLeastOne(cfg.threshold) - 1, c, c);
            && Orderly(cfg, similar, Quiet(time), es, c)
            && Within(HistoryOf(Fly(cfg, similar, Quiet(time), es).history, text), cfg.window as real, time)
               == AtLeastOne(cfg.threshold) + c - 1
  {
    hide Together, Copies, Within, Fly, Orderly;
    TogetherRuns(cfg, similar, c, text, time, AtLeastOne(cfg.threshold) - 1, c, c);
    AllWithin(time, AtLeastOne(cfg.threshold) - 1 + c, cfg.window as real);
  }

  /**
   Where overlapping use departs from the history formula, exactly: a circuit that is open although the window of the
   last failure holds fewer than `threshold`, until a window has passed since. The breaker is never
   more permissive than the formula.
   */
  lemma OverlapDepartsIff(
    cfg: BreakerConfig, similar: Similarity, c: nat, start: real, es: seq<FlightEvent>, text: string, t: real)
    requires 0 < c && 0 < cfg.window && Orderly(cfg, similar, Quiet(start), es, c)
    requires Fly(cfg, similar, Quiet(start), es).now <= t
    ensures var w := Fly(cfg, similar, Quiet(start), es);
            var h, open := HistoryOf(w.history, text), IsOpen(cfg, w.s, text, t).1;
            && (OpenByHistory(cfg, h, t) ==> open)
            && (open != OpenByHistory(cfg, h, t) <==>
                  && text in w.s.open && h != [] && t - h[|h| - 1] <= cfg.window as real
                  && Within(h, cfg.window as real, h[|h| - 1]) < cfg.threshold)
  {
    FlightIsTracked(cfg, similar, c, start, es, text);
    hide Fly, Orderly, CountIn, Newer, Latest, Contained;
    var w := Fly(cfg, similar, Quiet(start), es);
    var fs, h := FailuresOf(w.s, text), HistoryOf(w.history, text);
    LaterFollows(cfg, fs, text in w.s.open, text, h, w.now, t);
    if text in w.s.open {
      var cutoff :| cutoff <= w.now - cfg.window as real && Times(fs) == Newer(h, cutoff);
      LatestFailed(fs, h, cutoff, w.now);
    }
  }

  // ----- One message of a text at a time -----

  /** With no overlap a message under way means a closed circuit, and an open one a full window. */
  ghost predicate Alone(cfg: BreakerConfig, w: Flight, text: string)
  {
    var h := HistoryOf(w.history, text);
    && (w.pending[text] > 0 ==> text !in w.s.open)
    && (text in w.s.open ==> h != [] && Within(h, cfg.window as real, h[|h| - 1]) >= cfg.threshold)
  }

  lemma ArrivalAlone(cfg: BreakerConfig, w: Flight, text: string, time: real)
    requires Alone(cfg, w, text)
    ensures Alone(cfg, Arrive(cfg, w, text, time), text)
  {
    hide Latest, CountIn;
  }

  lemma AtMostAllowed(cfg: BreakerConfig, c: nat, h: seq<real>, pending: nat, now: real)
    requires Contained(cfg, c, h, pending, now)
    ensures pending <= c
  {
  }

  lemma EndAlone(
    cfg: BreakerConfig, similar: Similarity, w: Flight, text: string, time: real, fails: bool)
    requires Alone(cfg, w, text) && Tracked(cfg, 1, w, text) && w.now <= time && w.pending[text] > 0
    ensures Alone(cfg, End(cfg, similar, w, text, time, fails), text)
  {
    hide CountIn, Newer, Recent, CountSimilar, Contained;
    AtMostAllowed(cfg, 1, HistoryOf(w.history, text), w.pending[text], w.now);
    if fails {
      RecordOpensIff(cfg, similar, w.s, text, text, HistoryOf(w.history, text), time);
    }
  }

  lemma OtherAlone(cfg: BreakerConfig, similar: Similarity, w: Flight, e: FlightEvent, text: string)
    requires Alone(cfg, w, text) && text != e.text
    ensures Alone(cfg, FlightStep(cfg, similar, w, e), text)
  {
    hide FlightStep, HistoryOf, Within;
    OtherText(cfg, similar, w, e, text);
  }

  lemma {:induction false} FlightIsAlone(
    cfg: BreakerConfig, similar: Similarity, start: real, es: seq<FlightEvent>, text: string)
    requires Orderly(cfg, similar, Quiet(start), es, 1)
    ensures Alone(cfg, Fly(cfg, similar, Quiet(start), es), text)
  {
    if es != [] {
      hide Alone, Tracked, Arrive, End;
      var init, e := es[..|es| - 1], es[|es| - 1];
      var w := Fly(cfg, similar, Quiet(start), init);
      FlightIsAlone(cfg, similar, start, init, text);
      FlightIsTracked(cfg, similar, 1, start, init, text);
      if e.text != text {
        OtherAlone(cfg, similar, w, e, text);
      } else if e.Arrives? {
        ArrivalAlone(cfg, w, text, e.time);
      } else {
        EndAlone(cfg, similar, w, text, e.time, e.fails);
      }
    }
  }

  /** Overlap is what makes the breaker depart from the history formula: with never two messages of one text under way,
      a circuit is open exactly by the formula at every later instant, however different texts interleave. */
  lemma WithoutOverlapNoDeparture(
    cfg: BreakerConfig, similar: Similarity, start: real, es: seq<FlightEvent>, text: string, t: real)
    requires 0 < cfg.window && Orderly(cfg, similar, Quiet(start), es, 1)
    requires Fly(cfg, similar, Quiet(start), es).now <= t
    ensures var w := Fly(cfg, similar, Quiet(start), es);
            IsOpen(cfg, w.s, text, t).1 <==> OpenByHistory(cfg, HistoryOf(w.history, text), t)
  {
    hide Fly, Orderly, Within, IsOpen;
    FlightIsAlone(cfg, similar, start, es, text);
    OverlapDepartsIff(cfg, similar, 1, start, es, text, t);
  }
}
