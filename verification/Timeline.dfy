/**
 Histories of time-stamped happenings, and pruned copies of them: what is newer than a cutoff,
 and how many fall into a half-open window. Shared by the write quota and the circuit breaker.
 */
module Timeline {

  /** The timestamps later than the cutoff, in order. */
  function Newer(ts: seq<real>, cutoff: real): seq<real>
  {
    if ts == [] then []
    else Newer(ts[..|ts| - 1], cutoff) + (if ts[|ts| - 1] > cutoff then [ts[|ts| - 1]] else [])
  }

  function CountIn(ts: seq<real>, lo: real, hi: real): nat
  {
    if ts == [] then 0
    else CountIn(ts[..|ts| - 1], lo, hi) + (if lo < ts[|ts| - 1] <= hi then 1 else 0)
  }

  /** How many fall into the window of the given width that ends at `end`, its first instant excluded. */
  function Within(ts: seq<real>, width: real, end: real): nat
  {
    CountIn(ts, end - width, end)
  }

  ghost predicate UpTo(ts: seq<real>, last: real)
  {
    && (forall i :: 0 <= i < |ts| ==> ts[i] <= last)
    && (forall i, j :: 0 <= i < j < |ts| ==> ts[i] <= ts[j])
  }

  lemma NewerSnoc(ts: seq<real>, x: real, cutoff: real)
    ensures Newer(ts + [x], cutoff) == Newer(ts, cutoff) + (if x > cutoff then [x] else [])
  {
    assert (ts + [x])[..|ts|] == ts;
  }

  lemma {:induction false} NewerOfNewer(ts: seq<real>, c: real, d: real)
    requires c <= d
    ensures Newer(Newer(ts, c), d) == Newer(ts, d)
  {
    if ts != [] {
      var init, x := ts[..|ts| - 1], ts[|ts| - 1];
      NewerOfNewer(init, c, d);
      NewerSnoc(Newer(init, c), x, d);
      assert Newer(ts, c) == Newer(init, c) + (if x > c then [x] else []);
      assert x <= c ==> Newer(ts, c) == Newer(init, c) && Newer(ts, d) == Newer(init, d);
    }
  }

  lemma {:induction false} NewerIsCountIn(ts: seq<real>, lo: real, now: real)
    requires forall i :: 0 <= i < |ts| ==> ts[i] <= now
    ensures |Newer(ts, lo)| == CountIn(ts, lo, now)
  {
    if ts != [] {
      NewerIsCountIn(ts[..|ts| - 1], lo, now);
    }
  }

  lemma {:induction false} CountInMonotone(ts: seq<real>, lo: real, hi: real, lo': real, hi': real)
    requires lo' <= lo && (hi <= hi' || forall i :: 0 <= i < |ts| ==> ts[i] <= hi')
    ensures CountIn(ts, lo, hi) <= CountIn(ts, lo', hi')
  {
    if ts != [] {
      CountInMonotone(ts[..|ts| - 1], lo, hi, lo', hi');
    }
  }

  lemma {:induction false} CountInSplit(ts: seq<real>, lo: real, mid: real, hi: real)
    requires lo <= mid <= hi
    ensures CountIn(ts, lo, hi) == CountIn(ts, lo, mid) + CountIn(ts, mid, hi)
  {
    if ts != [] {
      CountInSplit(ts[..|ts| - 1], lo, mid, hi);
    }
  }

  lemma CountInSnoc(ts: seq<real>, x: real, lo: real, hi: real)
    ensures CountIn(ts + [x], lo, hi) == CountIn(ts, lo, hi) + (if lo < x <= hi then 1 else 0)
  {
    assert (ts + [x])[..|ts|] == ts;
  }

  lemma {:induction false} EmptyWindow(ts: seq<real>, hi: real)
    ensures CountIn(ts, hi, hi) == 0
  {
    if ts != [] {
      EmptyWindow(ts[..|ts| - 1], hi);
    }
  }

  lemma {:induction false} NothingAfter(h: seq<real>, lo: real, hi: real)
    requires forall i :: 0 <= i < |h| ==> h[i] <= lo
    ensures CountIn(h, lo, hi) == 0
  {
    if h != [] {
      NothingAfter(h[..|h| - 1], lo, hi);
    }
  }

  lemma {:induction false} NothingNewer(h: seq<real>, lo: real)
    requires forall i :: 0 <= i < |h| ==> h[i] <= lo
    ensures Newer(h, lo) == []
  {
    if h != [] {
      NothingNewer(h[..|h| - 1], lo);
    }
  }

  /** What is newer comes from the history, in order, ending as the history does. */
  lemma {:induction false} NewerIsPart(h: seq<real>, cutoff: real, last: real)
    requires UpTo(h, last)
    ensures UpTo(Newer(h, cutoff), last)
    ensures h != [] && h[|h| - 1] > cutoff ==>
      Newer(h, cutoff) != [] && Newer(h, cutoff)[|Newer(h, cutoff)| - 1] == h[|h| - 1]
  {
    if h != [] {
      NewerIsPart(h[..|h| - 1], cutoff, h[|h| - 1]);
    }
  }
}
