/**
 * Choosing the first provider of a request (nntp.go: dispatchWeights, speedScore and the
 * start selection of doSendWithRetry).
 */
module Dispatch {
  import Failover

  const MAX_SPEED_SCORE := 4

  /** A main provider as dispatch sees it. */
  datatype Main = Main(quotaExceeded: bool, available: int, speed: real)

  /** A faster provider never scores lower, and the fastest and the unmeasured ones score
      the maximum. */
  function SpeedScore(speed: real, maxSpeed: real): (s: int)
    requires maxSpeed > 0.0
    ensures 1 <= s <= MAX_SPEED_SCORE
    ensures speed <= 0.0 || speed >= maxSpeed ==> s == MAX_SPEED_SCORE
  {
    if speed <= 0.0 then MAX_SPEED_SCORE
    else
      assert speed >= maxSpeed ==> speed / maxSpeed >= 1.0;
      var s := (MAX_SPEED_SCORE as real * (speed / maxSpeed) + 0.5).Floor;
      if s < 1 then 1 else if s > MAX_SPEED_SCORE then MAX_SPEED_SCORE else s
  }

  lemma SpeedScoreMonotone(slow: real, fast: real, maxSpeed: real)
    requires 0.0 < slow <= fast && maxSpeed > 0.0
    ensures SpeedScore(slow, maxSpeed) <= SpeedScore(fast, maxSpeed)
  {
    assert slow / maxSpeed <= fast / maxSpeed;
  }

  /** The fastest measured speed, or zero. */
  function MaxSpeed(mains: seq<Main>): (top: real)
    ensures top >= 0.0
    ensures forall i :: 0 <= i < |mains| ==> mains[i].speed <= top
  {
    if mains == [] then 0.0
    else
      var init := MaxSpeed(mains[..|mains| - 1]);
      if mains[|mains| - 1].speed > init then mains[|mains| - 1].speed else init
  }

  /** A provider over quota weighs nothing; any other one weighs at least one. */
  function Weight(m: Main, speedAware: bool, top: real): (w: nat)
    requires top >= 0.0
    ensures w == 0 <==> m.quotaExceeded
    ensures !m.quotaExceeded && m.available > 0 ==> m.available <= w <= MAX_SPEED_SCORE * m.available
  {
    if m.quotaExceeded then 0
    else
      var base := if m.available > 1 then m.available else 1;
      if speedAware && top > 0.0 then ScaledWeight(base, SpeedScore(m.speed, top)) else base
  }

  function ScaledWeight(base: nat, score: int): (w: nat)
    requires base >= 1 && 1 <= score <= MAX_SPEED_SCORE
    ensures base <= w <= MAX_SPEED_SCORE * base
  {
    base * score
  }

  function Weights(mains: seq<Main>, speedAware: bool): (ws: seq<nat>)
    ensures |ws| == |mains|
    ensures forall i :: 0 <= i < |mains| ==> (ws[i] == 0 <==> mains[i].quotaExceeded)
  {
    var top := MaxSpeed(mains);
    seq(|mains|, i requires 0 <= i < |mains| => Weight(mains[i], speedAware, top))
  }

  function Sum(ws: seq<nat>): nat {
    if ws == [] then 0 else Sum(ws[..|ws| - 1]) + ws[|ws| - 1]
  }

  lemma SumSnoc(ws: seq<nat>, i: nat)
    requires i < |ws|
    ensures Sum(ws[..i + 1]) == Sum(ws[..i]) + ws[i]
  {
    assert ws[..i + 1][..i] == ws[..i];
  }

  lemma {:induction false} SumMonotone(ws: seq<nat>, i: nat, j: nat)
    requires i <= j <= |ws|
    ensures Sum(ws[..i]) <= Sum(ws[..j])
    decreases j - i
  {
    if i < j {
      SumSnoc(ws, i);
      SumMonotone(ws, i + 1, j);
    }
  }

  /** Cumulative weights, one pass. */
  method DispatchWeights(mains: seq<Main>, speedAware: bool) returns (cum: seq<int>, total: int)
    ensures |cum| == |mains| && total == Sum(Weights(mains, speedAware))
    ensures forall i :: 0 <= i < |mains| ==> cum[i] == Sum(Weights(mains, speedAware)[..i + 1])
  {
    var ws := Weights(mains, speedAware);
    var top := 0.0;
    if speedAware {
      for i := 0 to |mains|
        invariant top == MaxSpeed(mains[..i])
      {
        assert mains[..i + 1][..i] == mains[..i];
        if mains[i].speed > top { top := mains[i].speed; }
      }
      assert mains[..|mains|] == mains;
    }
    cum, total := [], 0;
    for i := 0 to |mains|
      invariant |cum| == i && total == Sum(ws[..i])
      invariant forall k :: 0 <= k < i ==> cum[k] == Sum(ws[..k + 1])
    {
      var w := 0;
      if !mains[i].quotaExceeded {
        w := if mains[i].available > 1 then mains[i].available else 1;
        if speedAware && top > 0.0 {
          w := w * SpeedScore(mains[i].speed, top);
        }
      }
      assert w == ws[i];
      SumSnoc(ws, i);
      total := total + w;
      cum := cum + [total];
    }
    assert ws[..|mains|] == ws;
  }

  /** Binary search for the first element that is at least `x`. */
  method SearchInts(a: seq<int>, x: int) returns (i: nat)
    requires forall p, q :: 0 <= p < q < |a| ==> a[p] <= a[q]
    ensures i <= |a|
    ensures forall k :: 0 <= k < i ==> a[k] < x
    ensures forall k :: i <= k < |a| ==> x <= a[k]
  {
    i := 0;
    var j := |a|;
    while i < j
      invariant i <= j <= |a|
      invariant forall k :: 0 <= k < i ==> a[k] < x
      invariant forall k :: j <= k < |a| ==> x <= a[k]
    {
      var h := (i + j) / 2;
      if a[h] < x { i := h + 1; } else { j := h; }
    }
  }

  /** Provider `i` owns the slots between its predecessors' weight and its own. */
  predicate Owns(ws: seq<nat>, i: nat, slot: nat)
    requires i < |ws|
  {
    Sum(ws[..i]) <= slot < Sum(ws[..i + 1])
  }

  /** The provider a counter value selects: in range, and never one over quota. */
  method RoundRobinStart(mains: seq<Main>, speedAware: bool, counter: nat) returns (start: nat)
    requires mains != []
    ensures start < |mains|
    ensures var ws := Weights(mains, speedAware);
            if Sum(ws) == 0 then start == 0
            else Owns(ws, start, counter % Sum(ws)) && !mains[start].quotaExceeded
  {
    ghost var ws := Weights(mains, speedAware);
    var cum, total := DispatchWeights(mains, speedAware);
    if total == 0 { return 0; }
    var slot := counter % total;
    forall p, q | 0 <= p < q < |cum| ensures cum[p] <= cum[q] { SumMonotone(ws, p + 1, q + 1); }
    start := SearchInts(cum, slot + 1);
    OwnerFound(ws, cum, start, slot);
  }

  lemma OwnerFound(ws: seq<nat>, cum: seq<int>, start: nat, slot: nat)
    requires |cum| == |ws| && slot < Sum(ws) && start <= |ws|
    requires forall k :: 0 <= k < |cum| ==> cum[k] == Sum(ws[..k + 1])
    requires forall k :: 0 <= k < |cum| ==> (cum[k] <= slot <==> k < start)
    ensures start < |ws| && Owns(ws, start, slot) && ws[start] > 0
  {
    assert ws[..|ws|] == ws && ws != [];
    assert cum[|ws| - 1] == Sum(ws);
    if start == 0 { assert ws[..0] == []; } else { assert cum[start - 1] <= slot; }
    assert slot < cum[start];
    SumSnoc(ws, start);
  }

  /** First provider with capacity and quota left, in declaration order; otherwise the first. */
  method FifoStart(mains: seq<Main>) returns (start: nat)
    requires mains != []
    ensures start < |mains|
    ensures forall k :: 0 <= k < start ==> mains[k].available <= 0 || mains[k].quotaExceeded
    ensures (exists k :: 0 <= k < |mains| && mains[k].available > 0 && !mains[k].quotaExceeded)
            ==> mains[start].available > 0 && !mains[start].quotaExceeded
  {
    start := 0;
    for i := 0 to |mains|
      invariant start == 0
      invariant forall k :: 0 <= k < i ==> mains[k].available <= 0 || mains[k].quotaExceeded
    {
      if mains[i].available > 0 && !mains[i].quotaExceeded {
        return i;
      }
    }
  }

  // ---------------------------------------------------------------------------
  // Proportionality

  /** How many of the `n` counter values from `from` on select provider `i`. */
  function Chosen(ws: seq<nat>, i: nat, from: nat, n: nat): nat
    requires i < |ws| && Sum(ws) > 0
  {
    if n == 0 then 0
    else Chosen(ws, i, from, n - 1) + (if Owns(ws, i, (from + n - 1) % Sum(ws)) then 1 else 0)
  }

  /** Sliding the stretch by one drops its first value and takes in the next. */
  lemma {:induction false} ChosenSlides(ws: seq<nat>, i: nat, from: nat, n: nat)
    requires i < |ws| && Sum(ws) > 0
    ensures Chosen(ws, i, from + 1, n) + (if Owns(ws, i, from % Sum(ws)) then 1 else 0)
            == Chosen(ws, i, from, n + 1)
  {
    if n == 0 {
    } else {
      ChosenSlides(ws, i, from, n - 1);
    }
  }

  lemma {:induction false} ChosenFromZero(ws: seq<nat>, i: nat, n: nat)
    requires i < |ws| && Sum(ws) > 0 && n <= Sum(ws)
    ensures var lo, hi := Sum(ws[..i]), Sum(ws[..i + 1]);
            Chosen(ws, i, 0, n) == if n <= lo then 0 else if n <= hi then n - lo else hi - lo
  {
    SumSnoc(ws, i);
    if n == 0 {
    } else {
      ChosenFromZero(ws, i, n - 1);
      SmallMod(n - 1, Sum(ws));
      assert 0 + n - 1 == n - 1;
    }
  }

  lemma SmallMod(a: nat, m: nat)
    requires a < m
    ensures a % m == a
  {
  }

  lemma ModPeriod(a: nat, m: nat)
    requires m > 0
    ensures (a + m) % m == a % m
  {
    var d := (a + m) / m - (a / m + 1);
    assert m * d == a % m - (a + m) % m;
    Multiple(m, d);
  }

  lemma Multiple(m: nat, d: int)
    ensures d >= 1 ==> m * d >= m
    ensures d <= -1 ==> m * d + m <= 0
  {
  }

  /** Any stretch of counter values as long as the total weight selects each provider exactly
      as often as its weight, wherever the stretch begins. */
  lemma {:induction false} DispatchIsProportional(ws: seq<nat>, i: nat, from: nat)
    requires i < |ws| && Sum(ws) > 0
    ensures Chosen(ws, i, from, Sum(ws)) == ws[i]
  {
    var w := Sum(ws);
    if from == 0 {
      ChosenFromZero(ws, i, w);
      SumSnoc(ws, i);
      SumMonotone(ws, i + 1, |ws|);
      assert ws[..|ws|] == ws;
    } else {
      DispatchIsProportional(ws, i, from - 1);
      ChosenSlides(ws, i, from - 1, w);
      ModPeriod(from - 1, w);
      assert Chosen(ws, i, from - 1, w + 1)
             == Chosen(ws, i, from - 1, w) + (if Owns(ws, i, (from - 1 + w) % w) then 1 else 0);
    }
  }

  /** No slot has two owners, so the selection is a function of the counter. */
  lemma OwnerIsUnique(ws: seq<nat>, i: nat, j: nat, slot: nat)
    requires i < |ws| && j < |ws| && Owns(ws, i, slot) && Owns(ws, j, slot)
    ensures i == j
  {
    if i < j { SumMonotone(ws, i + 1, j); }
    if j < i { SumMonotone(ws, j + 1, i); }
  }

  /** From any start the walk visits each main exactly once. */
  lemma RotationVisitsEachOnce<T>(mains: seq<T>, start: nat)
    requires start < |mains|
    ensures |Failover.Rotate(mains, start)| == |mains|
    ensures multiset(Failover.Rotate(mains, start)) == multiset(mains)
    ensures Failover.Rotate(mains, start)[0] == mains[start]
  {
    assert mains == mains[..start] + mains[start..];
  }
}
