/**
 The retry circuit breaker: a pruned buffer of recent failures per tool, circuits opened on a
 count and closed lazily when next asked about. Under the kernel's sequential use the
 buffer and the lazy closing are invisible: a circuit is open exactly by a formula over the
 whole failure history.
 */
module CircuitBreakers {
  import opened Timeline

  datatype BreakerConfig = BreakerConfig(window: int, threshold: int)

  datatype Failure = Failure(params: string, at: real)

  datatype BreakerState = BreakerState(failures: map<string, seq<Failure>>, open: map<string, real>)

  const CLOSED := BreakerState(map[], map[])

  /** Equal parameters, or parameters whose feature vectors are close; a given relation here. */
  type Similarity = (string, string) -> bool

  function Recent(fs: seq<Failure>, cutoff: real): seq<Failure>
  {
    if fs == [] then []
    else Recent(fs[..|fs| - 1], cutoff) + (if fs[|fs| - 1].at > cutoff then [fs[|fs| - 1]] else [])
  }

  function CountSimilar(similar: Similarity, fs: seq<Failure>, params: string): nat
  {
    if fs == [] then 0
    else
      var last := fs[|fs| - 1].params;
      CountSimilar(similar, fs[..|fs| - 1], params) + (if last == params || similar(params, last) then 1 else 0)
  }

  function Latest(fs: seq<Failure>): (t: real)
    requires fs != []
    ensures (exists f :: f in fs && f.at == t) && forall f :: f in fs ==> f.at <= t
  {
    if |fs| == 1 then fs[0].at
    else
      var t := Latest(fs[1..]);
      assert fs == [fs[0]] + fs[1..];
      if fs[0].at > t then fs[0].at else t
  }

  function FailuresOf(s: BreakerState, tool: string): seq<Failure>
  {
    if tool in s.failures then s.failures[tool] else []
  }

  function Reset(s: BreakerState, tool: string): BreakerState
  {
    BreakerState(s.failures - {tool}, s.open - {tool})
  }

  function IsOpen(cfg: BreakerConfig, s: BreakerState, tool: string, now: real): (BreakerState, bool)
  {
    if tool !in s.open then (s, false)
    else
      var fs := FailuresOf(s, tool);
      if fs != [] && now - Latest(fs) > cfg.window as real then (Reset(s, tool), false) else (s, true)
  }

  function RecordFailure(
    cfg: BreakerConfig, similar: Similarity, s: BreakerState, tool: string, params: string, now: real)
    : (BreakerState, bool)
  {
    var kept := Recent(FailuresOf(s, tool) + [Failure(params, now)], now - cfg.window as real);
    var failures := if kept == [] then s.failures - {tool} else s.failures[tool := kept];
    if CountSimilar(similar, kept, params) >= cfg.threshold then
      (BreakerState(failures, s.open[tool := now]), true)
    else (BreakerState(failures, s.open), false)
  }

  /** The breaker object. */
  class CircuitBreaker {
    const cfg: BreakerConfig
    const similar: Similarity
    var failures: map<string, seq<Failure>>
    var openCircuits: map<string, real>

    ghost function State(): BreakerState
      reads this
    {
      BreakerState(failures, openCircuits)
    }

    constructor (cfg: BreakerConfig, similar: Similarity)
      ensures this.cfg == cfg && this.similar == similar && State() == CLOSED
    {
      this.cfg := cfg;
      this.similar := similar;
      failures := map[];
      openCircuits := map[];
    }

    method CountSimilarFailures(tool: string, params: string) returns (count: nat)
      ensures count == CountSimilar(similar, FailuresOf(State(), tool), params)
    {
      if tool !in failures {
        return 0;
      }
      var records := failures[tool];
      count := 0;
      for i := 0 to |records|
        invariant count == CountSimilar(similar, records[..i], params)
      {
        assert records[..i + 1][..i] == records[..i];
        if records[i].params == params || similar(params, records[i].params) {
          count := count + 1;
        }
      }
      assert records[..|records|] == records;
    }

    method CleanupExpired(tool: string, now: real)
      modifies this`failures
      ensures var kept := Recent(FailuresOf(old(State()), tool), now - cfg.window as real);
              failures == if kept == [] then old(failures) - {tool} else old(failures)[tool := kept]
    {
      if tool !in failures {
        return;
      }
      failures := failures[tool := Recent(failures[tool], now - cfg.window as real)];
      if failures[tool] == [] {
        failures := failures - {tool};
      }
    }

    method Record(tool: string, params: string, now: real) returns (trips: bool)
      modifies this
      ensures (State(), trips) == RecordFailure(cfg, similar, old(State()), tool, params, now)
    {
      hide Recent, CountSimilar;
      var records := (if tool in failures then failures[tool] else []) + [Failure(params, now)];
      failures := failures[tool := records];
      CleanupExpired(tool, now);
      assert failures == RecordFailure(cfg, similar, old(State()), tool, params, now).0.failures;
      var count := CountSimilarFailures(tool, params);
      trips := count >= cfg.threshold;
      if trips {
        openCircuits := openCircuits[tool := now];
      }
    }

    method ResetTool(tool: string)
      modifies this
      ensures State() == Reset(old(State()), tool)
    {
      failures := failures - {tool};
      openCircuits := openCircuits - {tool};
    }

    method Check(tool: string, now: real) returns (open: bool)
      modifies this
      ensures (State(), open) == IsOpen(cfg, old(State()), tool, now)
    {
      if tool !in openCircuits {
        return false;
      }
      if tool in failures && failures[tool] != [] {
        if now - Latest(failures[tool]) > cfg.window as real {
          ResetTool(tool);
          return false;
        }
      }
      open := true;
    }

    method ResetAll()
      modifies this
      ensures State() == CLOSED
    {
      failures := map[];
      openCircuits := map[];
    }
  }

  function SimilarAt(similar: Similarity, fs: seq<Failure>, params: string): set<nat>
  {
    set i: nat | i < |fs| && (fs[i].params == params || similar(params, fs[i].params))
  }

  lemma SimilarSnoc(similar: Similarity, fs: seq<Failure>, f: Failure, params: string)
    ensures SimilarAt(similar, fs + [f], params)
         == SimilarAt(similar, fs, params) + (if f.params == params || similar(params, f.params) then {|fs|} else {})
  {
  }

  /** The count is of the buffered failures with equal parameters or parameters the relation calls similar. */
  lemma {:induction false} CountsSimilar(similar: Similarity, fs: seq<Failure>, params: string)
    ensures CountSimilar(similar, fs, params) == |SimilarAt(similar, fs, params)|
  {
    if fs == [] {
      assert SimilarAt(similar, fs, params) == {};
    } else {
      var n, init := |fs| - 1, fs[..|fs| - 1];
      CountsSimilar(similar, init, params);
      assert fs == init + [fs[n]];
      SimilarSnoc(similar, init, fs[n], params);
      assert n !in SimilarAt(similar, init, params);
      hide SimilarAt;
    }
  }

  /** An explicit reset closes a tool's circuit and forgets its failures; no other tool notices. */
  lemma ResetForgets(cfg: BreakerConfig, s: BreakerState, tool: string, other: string, t: real)
    ensures !IsOpen(cfg, Reset(s, tool), tool, t).1 && FailuresOf(Reset(s, tool), tool) == []
    ensures other != tool ==>
      FailuresOf(Reset(s, tool), other) == FailuresOf(s, other)
      && IsOpen(cfg, Reset(s, tool), other, t).1 == IsOpen(cfg, s, other, t).1
    ensures !IsOpen(cfg, CLOSED, tool, t).1 && FailuresOf(CLOSED, tool) == []
  {
    hide Latest;
  }

  // ----- Sequential use -----

  /** One message as the kernel handles it: is its circuit open, and if not, did handling it fail, and when. */
  datatype Use = Use(tool: string, params: string, checked: real, failedAt: real, fails: bool)

  /** The breaker beside the history of every failure ever recorded, per tool. */
  datatype Watch = Watch(s: BreakerState, history: map<string, seq<real>>, now: real)

  function HistoryOf(history: map<string, seq<real>>, tool: string): seq<real>
  {
    if tool in history then history[tool] else []
  }

  function UseStep(cfg: BreakerConfig, similar: Similarity, w: Watch, u: Use): Watch
  {
    var (s, open) := IsOpen(cfg, w.s, u.tool, u.checked);
    if open || !u.fails then Watch(s, w.history, u.checked)
    else
      Watch(RecordFailure(cfg, similar, s, u.tool, u.params, u.failedAt).0,
            w.history[u.tool := HistoryOf(w.history, u.tool) + [u.failedAt]], u.failedAt)
  }

  function Uses(cfg: BreakerConfig, similar: Similarity, us: seq<Use>, start: real): Watch
  {
    if us == [] then Watch(CLOSED, map[], start)
    else UseStep(cfg, similar, Uses(cfg, similar, us[..|us| - 1], start), us[|us| - 1])
  }

  /** A clock that never steps back, and one parameter text per tool (the kernel passes the text itself). */
  ghost predicate Sequential(
    cfg: BreakerConfig, similar: Similarity, paramsOf: string -> string, us: seq<Use>, start: real)
  {
    us != [] ==>
      var init, u := us[..|us| - 1], us[|us| - 1];
      && Sequential(cfg, similar, paramsOf, init, start)
      && Uses(cfg, similar, init, start).now <= u.checked <= u.failedAt
      && u.params == paramsOf(u.tool)
  }

  /** The specification: the last `threshold` failures came close together, and recently. */
  predicate OpenByHistory(cfg: BreakerConfig, h: seq<real>, now: real)
  {
    h != [] &&
    var last := h[|h| - 1];
    && now - last <= cfg.window as real
    && Within(h, cfg.window as real, last) >= cfg.threshold
  }

  /** Some window or some threshold: the one configuration left out gets stuck. */
  predicate Sane(cfg: BreakerConfig)
  {
    cfg.window > 0 || cfg.threshold > 0
  }

  function Times(fs: seq<Failure>): seq<real>
  {
    seq(|fs|, i requires 0 <= i < |fs| => fs[i].at)
  }

  /** How one tool's buffer and circuit stand to its history. */
  ghost predicate Mirrors(cfg: BreakerConfig, fs: seq<Failure>, open: bool, params: string, h: seq<real>, now: real)
  {
    && UpTo(h, now)
    && (forall f :: f in fs ==> f.params == params)
    && if open then
         && h != [] && fs != [] && |fs| >= cfg.threshold
         && Times(fs) == Newer(h, h[|h| - 1] - cfg.window as real)
       else
         && (exists cutoff :: cutoff <= now - cfg.window as real && Times(fs) == Newer(h, cutoff))
         && !OpenByHistory(cfg, h, now)
  }

  ghost predicate Faithful(cfg: BreakerConfig, paramsOf: string -> string, w: Watch)
  {
    forall tool ::
      Mirrors(cfg, FailuresOf(w.s, tool), tool in w.s.open, paramsOf(tool), HistoryOf(w.history, tool), w.now)
  }

  lemma {:induction false} RecentTimes(fs: seq<Failure>, cutoff: real)
    ensures Times(Recent(fs, cutoff)) == Newer(Times(fs), cutoff)
    ensures forall f :: f in Recent(fs, cutoff) ==> f in fs
  {
    if fs != [] {
      RecentTimes(fs[..|fs| - 1], cutoff);
      assert Times(fs)[..|fs| - 1] == Times(fs[..|fs| - 1]);
      assert fs == fs[..|fs| - 1] + [fs[|fs| - 1]];
    }
  }

  lemma {:induction false} AllSimilar(similar: Similarity, fs: seq<Failure>, params: string)
    requires forall f :: f in fs ==> f.params == params
    ensures CountSimilar(similar, fs, params) == |fs|
  {
    if fs != [] {
      AllSimilar(similar, fs[..|fs| - 1], params);
    }
  }

  /** The latest buffered failure is the last one of the history. */
  lemma LatestIsLast(cfg: BreakerConfig, fs: seq<Failure>, h: seq<real>, now: real)
    requires UpTo(h, now) && h != [] && fs != []
    requires Times(fs) == Newer(h, h[|h| - 1] - cfg.window as real)
    ensures Latest(fs) == h[|h| - 1]
  {
    hide Newer, Latest;
    var last := h[|h| - 1];
    var cutoff := last - cfg.window as real;
    NewerIsPart(h, cutoff, last);
    if last <= cutoff {
      NothingNewer(h, cutoff);
    }
    var ts := Times(fs);
    assert forall i :: 0 <= i < |fs| ==> ts[i] == fs[i].at;
    assert fs[|fs| - 1] in fs;
  }

  /** The lazy check answers what the history says. */
  lemma CheckMirrors(cfg: BreakerConfig, fs: seq<Failure>, open: bool, params: string, h: seq<real>, now: real, t: real)
    requires Mirrors(cfg, fs, open, params, h, now) && now <= t
    ensures (open && !(fs != [] && t - Latest(fs) > cfg.window as real)) <==> OpenByHistory(cfg, h, t)
  {
    if open {
      LatestIsLast(cfg, fs, h, now);
      NewerIsCountIn(h, h[|h| - 1] - cfg.window as real, h[|h| - 1]);
      assert |fs| == |Times(fs)|;
    }
  }

  /** After a closed answer the buffer, cleared or not, still mirrors the history. */
  lemma ClosedMirrors(
    cfg: BreakerConfig, fs: seq<Failure>, open: bool, params: string, h: seq<real>, now: real, t: real)
    requires Mirrors(cfg, fs, open, params, h, now) && now <= t && !OpenByHistory(cfg, h, t)
    ensures Mirrors(cfg, if open then [] else fs, false, params, h, t)
  {
    if open {
      CheckMirrors(cfg, fs, open, params, h, now, t);
      LatestIsLast(cfg, fs, h, now);
      var last := h[|h| - 1];
      NothingNewer(h, last);
      assert Times([]) == [];
    }
  }

  lemma OpenAtLast(cfg: BreakerConfig, h: seq<real>, t: real)
    requires cfg.window >= 0 || cfg.threshold > 0
    requires UpTo(h, t)
    ensures OpenByHistory(cfg, h + [t], t) <==> CountIn(h + [t], t - cfg.window as real, t) >= cfg.threshold
  {
    if cfg.window < 0 {
      NothingAfter(h + [t], t - cfg.window as real, t);
    }
  }

  /** Recording prunes the buffer to the window that ends with the new failure, and counts all of it. */
  lemma KeptIsWindow(
    cfg: BreakerConfig, similar: Similarity, fs: seq<Failure>, params: string, h: seq<real>, cutoff: real, t: real)
    requires UpTo(h, t) && (forall f :: f in fs ==> f.params == params)
    requires cutoff <= t - cfg.window as real && Times(fs) == Newer(h, cutoff)
    ensures var kept := Recent(fs + [Failure(params, t)], t - cfg.window as real);
            && Times(kept) == Newer(h + [t], t - cfg.window as real)
            && (forall f :: f in kept ==> f.params == params)
            && CountSimilar(similar, kept, params) == |kept| == CountIn(h + [t], t - cfg.window as real, t)
  {
    hide Recent, Newer, CountIn, CountSimilar;
    var lo := t - cfg.window as real;
    var all := fs + [Failure(params, t)];
    var kept := Recent(all, lo);
    RecentTimes(all, lo);
    assert Times(all) == Times(fs) + [t];
    NewerSnoc(Times(fs), t, lo);
    NewerOfNewer(h, cutoff, lo);
    NewerSnoc(h, t, lo);
    AllSimilar(similar, kept, params);
    NewerIsCountIn(h + [t], lo, t);
    assert |kept| == |Times(kept)|;
  }

  /** Recording a failure on a closed circuit. */
  lemma RecordMirrors(
    cfg: BreakerConfig, similar: Similarity, fs: seq<Failure>, params: string, h: seq<real>, now: real, t: real)
    requires Sane(cfg) && Mirrors(cfg, fs, false, params, h, now) && now <= t
    ensures var kept := Recent(fs + [Failure(params, t)], t - cfg.window as real);
            Mirrors(cfg, kept, CountSimilar(similar, kept, params) >= cfg.threshold, params, h + [t], t)
  {
    hide Recent, Newer, CountIn, OpenByHistory, CountSimilar;
    var cutoff :| cutoff <= now - cfg.window as real && Times(fs) == Newer(h, cutoff);
    KeptIsWindow(cfg, similar, fs, params, h, cutoff, t);
    NewerSnoc(h, t, t - cfg.window as real);
    var kept := Recent(fs + [Failure(params, t)], t - cfg.window as real);
    assert |Times(kept)| == |kept|;
    assert OpenByHistory(cfg, h + [t], t) <==> |kept| >= cfg.threshold by { OpenAtLast(cfg, h, t); }
    assert Times(kept) == Newer(h + [t], t - cfg.window as real);
  }

  /** What one use does to its own tool's buffer, circuit and history. */
  lemma UsedTool(cfg: BreakerConfig, similar: Similarity, w: Watch, u: Use, fs: seq<Failure>, open: bool, blocked: bool)
    requires fs == FailuresOf(w.s, u.tool) && open == (u.tool in w.s.open)
    requires blocked == (open && !(fs != [] && u.checked - Latest(fs) > cfg.window as real))
    ensures var w' := UseStep(cfg, similar, w, u);
            var lo := u.failedAt - cfg.window as real;
            var kept := Recent((if open then [] else fs) + [Failure(u.params, u.failedAt)], lo);
            && FailuresOf(w'.s, u.tool) == (if blocked then fs else if u.fails then kept else if open then [] else fs)
            && (u.tool in w'.s.open <==>
                  blocked || (u.fails && CountSimilar(similar, kept, u.params) >= cfg.threshold))
            && HistoryOf(w'.history, u.tool)
                 == HistoryOf(w.history, u.tool) + (if !blocked && u.fails then [u.failedAt] else [])
            && w'.now == (if !blocked && u.fails then u.failedAt else u.checked)
  {
    hide Recent, CountSimilar, Latest;
  }

  /** It leaves every other tool alone. */
  lemma OtherTool(cfg: BreakerConfig, similar: Similarity, w: Watch, u: Use, tool: string)
    requires tool != u.tool
    ensures var w' := UseStep(cfg, similar, w, u);
            && FailuresOf(w'.s, tool) == FailuresOf(w.s, tool) && (tool in w'.s.open <==> tool in w.s.open)
            && HistoryOf(w'.history, tool) == HistoryOf(w.history, tool)
  {
    hide Recent, CountSimilar, Latest;
  }

  lemma LaterMirrors(cfg: BreakerConfig, fs: seq<Failure>, open: bool, params: string, h: seq<real>, now: real, t: real)
    requires Mirrors(cfg, fs, open, params, h, now) && now <= t
    ensures Mirrors(cfg, fs, open, params, h, t)
  {
  }

  lemma UsedToolMirrors(cfg: BreakerConfig, similar: Similarity, w: Watch, u: Use)
    requires Sane(cfg) && w.now <= u.checked <= u.failedAt
    requires Mirrors(cfg, FailuresOf(w.s, u.tool), u.tool in w.s.open, u.params, HistoryOf(w.history, u.tool), w.now)
    ensures var w' := UseStep(cfg, similar, w, u);
            Mirrors(cfg, FailuresOf(w'.s, u.tool), u.tool in w'.s.open, u.params, HistoryOf(w'.history, u.tool), w'.now)
  {
    hide *;
    var fs, open, h := FailuresOf(w.s, u.tool), u.tool in w.s.open, HistoryOf(w.history, u.tool);
    var blocked := open && !(fs != [] && u.checked - Latest(fs) > cfg.window as real);
    UsedTool(cfg, similar, w, u, fs, open, blocked);
    CheckMirrors(cfg, fs, open, u.params, h, w.now, u.checked);
    if blocked {
      LaterMirrors(cfg, fs, open, u.params, h, w.now, u.checked);
      assert h + [] == h;
    } else {
      ClosedMirrors(cfg, fs, open, u.params, h, w.now, u.checked);
      if u.fails {
        RecordMirrors(cfg, similar, if open then [] else fs, u.params, h, u.checked, u.failedAt);
      } else {
        assert h + [] == h;
      }
    }
  }

  lemma FaithfulStep(cfg: BreakerConfig, similar: Similarity, paramsOf: string -> string, w: Watch, u: Use)
    requires Sane(cfg) && Faithful(cfg, paramsOf, w)
    requires w.now <= u.checked <= u.failedAt && u.params == paramsOf(u.tool)
    ensures Faithful(cfg, paramsOf, UseStep(cfg, similar, w, u))
  {
    hide Mirrors, IsOpen, RecordFailure, FailuresOf, HistoryOf, Sane;
    var w' := UseStep(cfg, similar, w, u);
    forall tool
      ensures
        Mirrors(cfg, FailuresOf(w'.s, tool), tool in w'.s.open, paramsOf(tool), HistoryOf(w'.history, tool), w'.now)
    {
      assert Mirrors(cfg, FailuresOf(w.s, tool), tool in w.s.open, paramsOf(tool), HistoryOf(w.history, tool), w.now);
      if tool == u.tool {
        UsedToolMirrors(cfg, similar, w, u);
      } else {
        OtherTool(cfg, similar, w, u, tool);
        var h := HistoryOf(w.history, tool);
        LaterMirrors(cfg, FailuresOf(w.s, tool), tool in w.s.open, paramsOf(tool), h, w.now, w'.now);
      }
    }
  }

  lemma {:induction false} UsesAreFaithful(
    cfg: BreakerConfig, similar: Similarity, paramsOf: string -> string, us: seq<Use>, start: real)
    requires Sane(cfg) && Sequential(cfg, similar, paramsOf, us, start)
    ensures Faithful(cfg, paramsOf, Uses(cfg, similar, us, start))
  {
    if us == [] {
      assert Times([]) == Newer([], start - cfg.window as real);
    } else {
      var init := us[..|us| - 1];
      UsesAreFaithful(cfg, similar, paramsOf, init, start);
      FaithfulStep(cfg, similar, paramsOf, Uses(cfg, similar, init, start), us[|us| - 1]);
    }
  }

  /** Pruning and lazy reset are invisible: after any sequential use, and at any later time, a circuit is
      open exactly when the formula over its whole failure history says so; in particular none is stuck. */
  lemma BreakerRefinesHistory(
    cfg: BreakerConfig, similar: Similarity, paramsOf: string -> string, us: seq<Use>, start: real,
    tool: string, t: real)
    requires Sane(cfg) && Sequential(cfg, similar, paramsOf, us, start)
    requires Uses(cfg, similar, us, start).now <= t
    ensures var w := Uses(cfg, similar, us, start);
            IsOpen(cfg, w.s, tool, t).1 <==> OpenByHistory(cfg, HistoryOf(w.history, tool), t)
  {
    UsesAreFaithful(cfg, similar, paramsOf, us, start);
    var w := Uses(cfg, similar, us, start);
    assert Mirrors(cfg, FailuresOf(w.s, tool), tool in w.s.open, paramsOf(tool), HistoryOf(w.history, tool), w.now);
    CheckMirrors(cfg, FailuresOf(w.s, tool), tool in w.s.open, paramsOf(tool), HistoryOf(w.history, tool), w.now, t);
  }

  // ----- The retry-storm bound -----

  function AtLeastOne(n: int): nat { if n < 1 then 1 else n }

  ghost predicate AtMostWithin(h: seq<real>, width: real, bound: nat)
  {
    forall end :: Within(h, width, end) <= bound
  }

  ghost predicate NoStorm(cfg: BreakerConfig, h: seq<real>)
  {
    AtMostWithin(h, cfg.window as real, AtLeastOne(cfg.threshold))
  }

  /** A failure is recorded only on a closed circuit, so it cannot overfill any window. */
  lemma RecordKeepsBound(cfg: BreakerConfig, h: seq<real>, checked: real, t: real)
    requires NoStorm(cfg, h) && UpTo(h, checked) && checked <= t && !OpenByHistory(cfg, h, checked)
    ensures NoStorm(cfg, h + [t])
  {
    var width := cfg.window as real;
    forall end: real ensures Within(h + [t], width, end) <= AtLeastOne(cfg.threshold) {
      CountInSnoc(h, t, end - width, end);
      assert Within(h, width, end) <= AtLeastOne(cfg.threshold);
      if h != [] && end - width < t <= end {
        var last := h[|h| - 1];
        if checked - last > width {
          NothingAfter(h, end - width, end);
        } else {
          CountInMonotone(h, end - width, end, last - width, last);
        }
      }
    }
  }

  lemma StormStep(cfg: BreakerConfig, similar: Similarity, paramsOf: string -> string, w: Watch, u: Use)
    requires Sane(cfg) && Faithful(cfg, paramsOf, w) && w.now <= u.checked <= u.failedAt
    requires forall tool :: NoStorm(cfg, HistoryOf(w.history, tool))
    ensures forall tool :: NoStorm(cfg, HistoryOf(UseStep(cfg, similar, w, u).history, tool))
  {
    hide NoStorm;
    var fs, open, h := FailuresOf(w.s, u.tool), u.tool in w.s.open, HistoryOf(w.history, u.tool);
    assert Mirrors(cfg, fs, open, paramsOf(u.tool), h, w.now);
    CheckMirrors(cfg, fs, open, paramsOf(u.tool), h, w.now, u.checked);
    if !OpenByHistory(cfg, h, u.checked) {
      RecordKeepsBound(cfg, h, u.checked, u.failedAt);
    }
    forall tool ensures NoStorm(cfg, HistoryOf(UseStep(cfg, similar, w, u).history, tool)) {
      assert NoStorm(cfg, HistoryOf(w.history, tool));
    }
  }

  /** Across all openings and automatic resets: in no window, wherever it ends, are more than
      `threshold` failures recorded for one tool (one, if the threshold is below one). */
  lemma {:induction false} RetryStormBound(
    cfg: BreakerConfig, similar: Similarity, paramsOf: string -> string, us: seq<Use>, start: real)
    requires Sane(cfg) && Sequential(cfg, similar, paramsOf, us, start)
    ensures forall tool :: NoStorm(cfg, HistoryOf(Uses(cfg, similar, us, start).history, tool))
  {
    if us != [] {
      var init := us[..|us| - 1];
      RetryStormBound(cfg, similar, paramsOf, init, start);
      UsesAreFaithful(cfg, similar, paramsOf, init, start);
      StormStep(cfg, similar, paramsOf, Uses(cfg, similar, init, start), us[|us| - 1]);
    }
  }

  // ----- Where the history formula fails -----

  /** With neither a window nor a threshold one failure opens a circuit that never closes again, while the
      history formula calls it closed from the next instant on. */
  lemma DegenerateConfigGetsStuck(
    cfg: BreakerConfig, similar: Similarity, tool: string, params: string, f: real, t: real)
    requires !Sane(cfg) && f < t
    ensures var s := RecordFailure(cfg, similar, CLOSED, tool, params, f).0;
            IsOpen(cfg, s, tool, t) == (s, true) && !OpenByHistory(cfg, [f], t)
  {
    assert [] + [Failure(params, f)] == [Failure(params, f)];
    assert Recent([Failure(params, f)], f - cfg.window as real) == [];
  }

  lemma RecentSnoc(fs: seq<Failure>, f: Failure, cutoff: real)
    ensures Recent(fs + [f], cutoff) == Recent(fs, cutoff) + (if f.at > cutoff then [f] else [])
  {
    assert (fs + [f])[..|fs|] == fs;
  }

  lemma KeptEndsWith(fs: seq<Failure>, params: string, t: real, lo: real)
    requires lo < t && forall f :: f in fs ==> f.at <= t
    ensures var kept := Recent(fs + [Failure(params, t)], lo);
            kept != [] && Latest(kept) == t
  {
    var f := Failure(params, t);
    var kept := Recent(fs + [f], lo);
    RecentSnoc(fs, f, lo);
    RecentTimes(fs, lo);
    hide Recent, Latest;
    assert kept[|kept| - 1] == f && forall g :: g in kept ==> g.at <= t;
  }

  /** A failure recorded on an open circuit without asking first keeps it open for a window, whatever the count. */
  lemma UncheckedRecordRenews(
    cfg: BreakerConfig, similar: Similarity, s: BreakerState, tool: string, params: string, t: real, later: real)
    requires 0 < cfg.window && tool in s.open && (forall f :: f in FailuresOf(s, tool) ==> f.at <= t) && t <= later
    ensures var s' := RecordFailure(cfg, similar, s, tool, params, t).0;
            IsOpen(cfg, s', tool, later).1 <==> later - t <= cfg.window as real
  {
    hide CountSimilar, Recent, Latest;
    KeptEndsWith(FailuresOf(s, tool), params, t, t - cfg.window as real);
  }

  /** The buffer is what the history holds beyond some cutoff that the next pruning does not reach back to. */
  ghost predicate Buffers(cfg: BreakerConfig, fs: seq<Failure>, params: string, h: seq<real>, t: real)
  {
    && UpTo(h, t) && (forall f :: f in fs ==> f.params == params)
    && exists cutoff :: cutoff <= t - cfg.window as real && Times(fs) == Newer(h, cutoff)
  }

  /** The guard of the opening branch, in terms of the history the buffer was kept for. */
  lemma RecordOpensIff(
    cfg: BreakerConfig, similar: Similarity, s: BreakerState, tool: string, params: string, h: seq<real>, t: real)
    requires Buffers(cfg, FailuresOf(s, tool), params, h, t)
    ensures RecordFailure(cfg, similar, s, tool, params, t).1 <==>
      Within(h + [t], cfg.window as real, t) >= cfg.threshold
  {
    hide Recent, Newer, CountIn, CountSimilar;
    var cutoff :| cutoff <= t - cfg.window as real && Times(FailuresOf(s, tool)) == Newer(h, cutoff);
    KeptIsWindow(cfg, similar, FailuresOf(s, tool), params, h, cutoff, t);
  }

  /**
   When an unchecked record on an open circuit does no harm, exactly: the circuit then follows the history formula at
   every later instant if and only if `threshold` failures lie in the window that ends with the recorded
   one; and if `h` is the history behind the buffer, that is when the record would itself have opened the circuit.
   */
  lemma UncheckedRecordIff(
    cfg: BreakerConfig, similar: Similarity, s: BreakerState, tool: string, params: string, h: seq<real>, t: real)
    requires 0 < cfg.window && tool in s.open && forall f :: f in FailuresOf(s, tool) ==> f.at <= t
    ensures var (s', opens) := RecordFailure(cfg, similar, s, tool, params, t);
            var follows := forall later :: t <= later ==>
              (IsOpen(cfg, s', tool, later).1 <==> OpenByHistory(cfg, h + [t], later));
            && (follows <==> Within(h + [t], cfg.window as real, t) >= cfg.threshold)
            && (Buffers(cfg, FailuresOf(s, tool), params, h, t) ==> (follows <==> opens))
  {
    hide RecordFailure, IsOpen, Within, Buffers;
    var s' := RecordFailure(cfg, similar, s, tool, params, t).0;
    forall later | t <= later
      ensures IsOpen(cfg, s', tool, later).1 <==> later - t <= cfg.window as real
    {
      UncheckedRecordRenews(cfg, similar, s, tool, params, t, later);
    }
    assert IsOpen(cfg, s', tool, t).1;
    if Buffers(cfg, FailuresOf(s, tool), params, h, t) {
      RecordOpensIff(cfg, similar, s, tool, params, h, t);
    }
  }

  lemma OneKept(similar: Similarity, params: string, t: real, lo: real)
    requires lo < t
    ensures Recent([Failure(params, t)], lo) == [Failure(params, t)]
    ensures CountSimilar(similar, [Failure(params, t)], params) == 1
  {
    var f := Failure(params, t);
    assert [f][..0] == [];
    AllSimilar(similar, [f], params);
  }

  lemma FirstFails(cfg: BreakerConfig, similar: Similarity, tool: string, params: string, t: real)
    requires 0 < cfg.window && 1 < cfg.threshold
    ensures RecordFailure(cfg, similar, CLOSED, tool, params, t).0
         == BreakerState(map[tool := [Failure(params, t)]], map[])
  {
    OneKept(similar, params, t, t - cfg.window as real);
    hide Recent, CountSimilar;
    assert FailuresOf(CLOSED, tool) + [Failure(params, t)] == [Failure(params, t)];
  }

  lemma SecondOpens(similar: Similarity, s1: BreakerState, tool: string, params: string)
    requires s1 == BreakerState(map[tool := [Failure(params, 1.0)]], map[])
    ensures var s2 := RecordFailure(BreakerConfig(300, 2), similar, s1, tool, params, 2.0).0;
            tool in s2.open && forall f :: f in FailuresOf(s2, tool) ==> f.at <= 2.0
  {
    var f1, f2 := Failure(params, 1.0), Failure(params, 2.0);
    RecentSnoc([], f1, -298.0);
    RecentSnoc([f1], f2, -298.0);
    AllSimilar(similar, [f1] + [f2], params);
    assert Recent([], -298.0) == [];
    hide Recent, CountSimilar;
    assert [] + [f1] == [f1];
  }

  lemma ThirdIsAlone()
    ensures !OpenByHistory(BreakerConfig(300, 2), [1.0, 2.0, 400.0], 500.0)
  {
    CountInSnoc([], 1.0, 100.0, 400.0);
    CountInSnoc([1.0], 2.0, 100.0, 400.0);
    CountInSnoc([1.0] + [2.0], 400.0, 100.0, 400.0);
    assert [] + [1.0] == [1.0] && [1.0] + [2.0] + [400.0] == [1.0, 2.0, 400.0];
  }

  /** An instance: the third failure of this schedule, as of a second message in flight, keeps a circuit open that the
      history calls closed. */
  lemma UncheckedRecordKeepsOpen(similar: Similarity, tool: string, params: string)
    ensures var cfg := BreakerConfig(300, 2);
            var s1 := RecordFailure(cfg, similar, CLOSED, tool, params, 1.0).0;
            var s2 := RecordFailure(cfg, similar, s1, tool, params, 2.0).0;
            var s3 := RecordFailure(cfg, similar, s2, tool, params, 400.0).0;
            IsOpen(cfg, s3, tool, 500.0).1 && !OpenByHistory(cfg, [1.0, 2.0, 400.0], 500.0)
  {
    hide RecordFailure, IsOpen, FailuresOf, OpenByHistory;
    var cfg := BreakerConfig(300, 2);
    FirstFails(cfg, similar, tool, params, 1.0);
    var s1 := RecordFailure(cfg, similar, CLOSED, tool, params, 1.0).0;
    SecondOpens(similar, s1, tool, params);
    var s2 := RecordFailure(cfg, similar, s1, tool, params, 2.0).0;
    UncheckedRecordRenews(cfg, similar, s2, tool, params, 400.0, 500.0);
    ThirdIsAlone();
  }
}
