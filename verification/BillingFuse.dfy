/**
 The billing fuse, in exact rationals: spend accumulates per usage, the fuse trips on the usage
 that takes it over the cap and stays tripped until reset.
 */
module BillingFuses {

  datatype Rates = Rates(prompt: real, completion: real)

  datatype FuseConfig = FuseConfig(cap: real, pricing: map<string, Rates>, fallback: Rates)

  datatype Usage = Usage(promptTokens: int, completionTokens: int, model: string)

  datatype FuseState = FuseState(spend: real, history: seq<Usage>, tripped: bool)

  const UNUSED := FuseState(0.0, [], false)

  function Cost(cfg: FuseConfig, u: Usage): real
  {
    var rates := if u.model in cfg.pricing then cfg.pricing[u.model] else cfg.fallback;
    u.promptTokens as real / 1000000.0 * rates.prompt + u.completionTokens as real / 1000000.0 * rates.completion
  }

  /** The state after the usage, and whether the call returns normally: a tripped fuse raises. */
  function RecordUsage(cfg: FuseConfig, s: FuseState, u: Usage): (FuseState, bool)
  {
    if s.tripped then (s, false)
    else
      var spend := s.spend + Cost(cfg, u);
      (FuseState(spend, s.history + [u], spend > cfg.cap), spend <= cfg.cap)
  }

  /** The fuse object. */
  class BillingFuse {
    const cfg: FuseConfig
    var spend: real
    var history: seq<Usage>
    var tripped: bool

    ghost function State(): FuseState
      reads this
    {
      FuseState(spend, history, tripped)
    }

    constructor (cfg: FuseConfig)
      ensures this.cfg == cfg && State() == UNUSED
    {
      this.cfg := cfg;
      spend := 0.0;
      history := [];
      tripped := false;
    }

    method Record(u: Usage) returns (ok: bool)
      modifies this
      ensures (State(), ok) == RecordUsage(cfg, old(State()), u)
    {
      if tripped {
        return false;
      }
      spend := spend + Cost(cfg, u);
      history := history + [u];
      if spend > cfg.cap {
        tripped := true;
        return false;
      }
      ok := true;
    }

    method Reset()
      modifies this
      ensures State() == UNUSED
    {
      spend := 0.0;
      history := [];
      tripped := false;
    }

    function BudgetRemaining(): (r: real)
      reads this
      ensures r >= 0.0 && (r > 0.0 <==> spend < cfg.cap)
      ensures spend <= cfg.cap ==> spend + r == cfg.cap
    {
      if cfg.cap - spend > 0.0 then cfg.cap - spend else 0.0
    }
  }

  /** A usage costs its tokens at the model's listed rates per million, or at the fallback rates. */
  lemma CostPerMillion(cfg: FuseConfig, u: Usage)
    ensures u.model in cfg.pricing ==>
      var rates := cfg.pricing[u.model];
      1000000.0 * Cost(cfg, u)
        == u.promptTokens as real * rates.prompt + u.completionTokens as real * rates.completion
    ensures u.model !in cfg.pricing ==>
      1000000.0 * Cost(cfg, u)
        == u.promptTokens as real * cfg.fallback.prompt + u.completionTokens as real * cfg.fallback.completion
  {
  }

  /** A call raises exactly when it leaves the fuse tripped, and charges unless it found it so. */
  lemma RecordedOrRaised(cfg: FuseConfig, s: FuseState, u: Usage)
    ensures var (s', ok) := RecordUsage(cfg, s, u);
            && (ok <==> !s'.tripped)
            && (s.tripped ==> s' == s)
            && (!s.tripped ==> s'.history == s.history + [u] && s'.spend == s.spend + Cost(cfg, u)
                               && (s'.tripped <==> cfg.cap < s'.spend))
  {
    hide Cost;
  }

  // ----- Any sequence of usages -----

  function Total(cfg: FuseConfig, us: seq<Usage>): real
  {
    if us == [] then 0.0 else Total(cfg, us[..|us| - 1]) + Cost(cfg, us[|us| - 1])
  }

  function Charge(cfg: FuseConfig, us: seq<Usage>): FuseState
  {
    if us == [] then UNUSED else RecordUsage(cfg, Charge(cfg, us[..|us| - 1]), us[|us| - 1]).0
  }

  /** `k` usages are the shortest run whose total goes over the cap. */
  ghost predicate FirstOver(cfg: FuseConfig, us: seq<Usage>, k: nat)
  {
    && 0 < k <= |us| && Total(cfg, us[..k]) > cfg.cap
    && forall j :: 0 <= j < k ==> Total(cfg, us[..j]) <= cfg.cap
  }

  lemma {:induction false} UntrippedChargesAll(cfg: FuseConfig, us: seq<Usage>)
    requires !Charge(cfg, us).tripped
    ensures Charge(cfg, us).history == us
  {
    if us != [] {
      UntrippedChargesAll(cfg, us[..|us| - 1]);
    }
  }

  lemma {:induction false} SpendIsTotal(cfg: FuseConfig, us: seq<Usage>)
    requires 0.0 <= cfg.cap
    ensures var s := Charge(cfg, us);
            s.spend == Total(cfg, s.history) && (s.tripped <==> s.spend > cfg.cap) && s.history <= us
  {
    hide Cost;
    if us != [] {
      var init := us[..|us| - 1];
      SpendIsTotal(cfg, init);
      var before := Charge(cfg, init);
      if !before.tripped {
        assert (before.history + [us[|us| - 1]])[..|before.history|] == before.history;
        UntrippedChargesAll(cfg, init);
      }
    }
  }

  lemma {:induction false} UntrippedStaysUnder(cfg: FuseConfig, us: seq<Usage>, j: nat)
    requires 0.0 <= cfg.cap && !Charge(cfg, us).tripped && j <= |us|
    ensures Total(cfg, us[..j]) <= cfg.cap
  {
    if j == |us| {
      SpendIsTotal(cfg, us);
      UntrippedChargesAll(cfg, us);
      assert us[..j] == us;
    } else {
      var init := us[..|us| - 1];
      UntrippedStaysUnder(cfg, init, j);
      assert init[..j] == us[..j];
    }
  }

  lemma FirstOverExtends(cfg: FuseConfig, us: seq<Usage>, more: seq<Usage>, k: nat)
    requires us <= more && FirstOver(cfg, us, k)
    ensures FirstOver(cfg, more, k)
  {
    hide Total;
    assert forall j :: 0 <= j <= |us| ==> us[..j] == more[..j];
  }

  lemma TripsNow(cfg: FuseConfig, us: seq<Usage>, init: seq<Usage>)
    requires 0.0 <= cfg.cap && us != [] && init == us[..|us| - 1]
    requires !Charge(cfg, init).tripped && Total(cfg, us) > cfg.cap
    ensures FirstOver(cfg, us, |us|)
  {
    hide Cost, Charge, Total;
    assert us[..|us|] == us;
    forall j | 0 <= j < |us| ensures Total(cfg, us[..j]) <= cfg.cap {
      UntrippedStaysUnder(cfg, init, j);
      assert init[..j] == us[..j];
    }
  }

  lemma {:induction false} TrippedAtFirstOver(cfg: FuseConfig, us: seq<Usage>)
    requires 0.0 <= cfg.cap && Charge(cfg, us).tripped
    ensures FirstOver(cfg, us, |Charge(cfg, us).history|)
  {
    hide Cost;
    var init := us[..|us| - 1];
    if Charge(cfg, init).tripped {
      TrippedAtFirstOver(cfg, init);
      FirstOverExtends(cfg, init, us, |Charge(cfg, us).history|);
    } else {
      SpendIsTotal(cfg, us);
      UntrippedChargesAll(cfg, init);
      assert Charge(cfg, us).history == us[..|us|] == us;
      TripsNow(cfg, us, init);
    }
  }

  /**
   The fuse charges exactly the usages up to and including the first that takes the running
   total over the cap, whatever the costs; it is tripped just when there is one, its spend is always
   the sum of its history, and the overshoot is at most the cost of the usage that tripped it.
   */
  lemma FuseAccounting(cfg: FuseConfig, us: seq<Usage>)
    requires 0.0 <= cfg.cap
    ensures var s := Charge(cfg, us);
            && s.spend == Total(cfg, s.history) && s.history <= us
            && (s.tripped <==> s.spend > cfg.cap)
            && (s.tripped <==> exists k :: FirstOver(cfg, us, k))
            && (s.tripped ==> FirstOver(cfg, us, |s.history|))
            && (!s.tripped ==> s.history == us)
            && (s.tripped ==> s.spend - cfg.cap <= Cost(cfg, s.history[|s.history| - 1]))
  {
    hide Cost, Charge;
    SpendIsTotal(cfg, us);
    var s := Charge(cfg, us);
    if s.tripped {
      TrippedAtFirstOver(cfg, us);
      assert s.history == us[..|s.history|];
      assert us[..|s.history|][..|s.history| - 1] == us[..|s.history| - 1];
    } else {
      UntrippedChargesAll(cfg, us);
      forall k | FirstOver(cfg, us, k) ensures false {
        UntrippedStaysUnder(cfg, us, k);
      }
    }
  }

  /** Once tripped, no usage changes anything until the fuse is reset. */
  lemma {:induction false} TripLatches(cfg: FuseConfig, us: seq<Usage>, more: seq<Usage>)
    requires Charge(cfg, us).tripped
    ensures Charge(cfg, us + more) == Charge(cfg, us)
  {
    if more == [] {
      assert us + more == us;
    } else {
      TripLatches(cfg, us, more[..|more| - 1]);
      assert (us + more)[..|us + more| - 1] == us + more[..|more| - 1];
    }
  }

  // ----- The kernel's defaults -----

  const SONNET := Rates(3.0, 15.0)

  const OPUS := Rates(15.0, 75.0)

  const HAIKU := Rates(1.0, 5.0)

  const PRICING := map[
    "claude-sonnet-4-20250514" := SONNET, "claude-opus-4-20250514" := OPUS, "claude-opus-4" := OPUS,
    "claude-haiku-4-5-20251001" := HAIKU, "claude-haiku-4-5" := HAIKU,
    "gpt-4o" := Rates(2.5, 10.0), "gpt-4o-mini" := Rates(0.15, 0.6), "gpt-4" := Rates(30.0, 60.0),
    "gpt-3.5-turbo" := Rates(0.5, 1.5), "claude-sonnet-4" := SONNET]

  const DEFAULTS := FuseConfig(0.5, PRICING, SONNET)

  /** What the kernel charges for each billed message. */
  const BILLED := Usage(800, 400, "claude-sonnet-4")

  function Billed(n: nat): seq<Usage> { seq(n, _ => BILLED) }

  lemma {:induction false} BilledTotal(n: nat)
    ensures Total(DEFAULTS, Billed(n)) == n as real * 0.0084
  {
    if n > 0 {
      BilledTotal(n - 1);
      assert Billed(n)[..n - 1] == Billed(n - 1);
    }
  }

  /** With the defaults, 59 billed messages are paid for in full; the 60th is the first reported as exhausted,
      after it was processed, and every later one is too. */
  lemma SixtiethMessageTrips(n: nat)
    ensures Charge(DEFAULTS, Billed(n)).tripped <==> 60 <= n
    ensures |Charge(DEFAULTS, Billed(n)).history| == if n < 60 then n else 60
  {
    FuseAccounting(DEFAULTS, Billed(n));
    forall j | 0 <= j <= n ensures Total(DEFAULTS, Billed(n)[..j]) == j as real * 0.0084 {
      BilledTotal(j);
      assert Billed(n)[..j] == Billed(j);
    }
    hide Total, Charge;
    if 60 <= n {
      assert FirstOver(DEFAULTS, Billed(n), 60);
    }
  }
}
