/**
 * The per-provider circuit breaker (circuit_breaker.go): leases, generations, a
 * sliding failure window that is pruned lazily, and exclusive half-open probes.
 *
 * Times are integers (nanoseconds); the clock is an argument of every operation.
 */
module Breaker {
  const SECOND := 1_000_000_000
  const THRESHOLD := 3
  const WINDOW := 30 * SECOND

  datatype State = Closed | Open

  datatype Lease = Lease(generation: nat, enabled: bool, probe: bool)

  datatype Completion = Neutral | Succeeded | Failed

  datatype Acquired = Granted(lease: Lease) | Denied(halfOpen: bool, retryAt: int)

  datatype Snapshot =
    | Disabled
    | Enabled(open: bool, halfOpen: bool, failures: nat, openUntil: int, cooldown: int, probeInFlight: bool)

  /** The fields of a provider breaker. */
  datatype Fields = Fields(
    state: State,
    failures: seq<int>,
    cooldownIndex: nat,
    openUntil: int,
    probeInFlight: bool,
    generation: nat)

  const INITIAL := Fields(Closed, [], 0, 0, false, 0)

  function Cooldown(index: nat): int {
    match index
    case 0 => 10 * SECOND
    case 1 => 20 * SECOND
    case 2 => 40 * SECOND
    case 3 => 80 * SECOND
    case _ => 120 * SECOND
  }

  // ---------------------------------------------------------------------------
  // What each operation does to the fields

  /** Without its leading entries older than the cutoff. */
  function Prune(failures: seq<int>, cutoff: int): seq<int> {
    if failures != [] && failures[0] < cutoff then Prune(failures[1..], cutoff) else failures
  }

  function Opened(b: Fields, index: nat, now: int): Fields {
    Fields(Open, [], index, now + Cooldown(index), false, b.generation + 1)
  }

  function Reset(b: Fields): Fields {
    Fields(Closed, [], 0, 0, false, b.generation + 1)
  }

  predicate Admits(b: Fields, now: int) {
    b.state == Closed || (b.openUntil <= now && !b.probeInFlight)
  }

  function LeaseFor(b: Fields): Lease { Lease(b.generation, true, b.state == Open) }

  function AfterAcquire(b: Fields, now: int): Fields {
    if b.state == Open && Admits(b, now) then b.(probeInFlight := true) else b
  }

  /** `now` is the reading taken for the failure, `later` the one taken while opening. */
  function AfterComplete(b: Fields, lease: Lease, completion: Completion, now: int, later: int): Fields {
    if !lease.enabled then b
    else if completion == Succeeded then Reset(b)
    else if lease.generation != b.generation then b
    else if lease.probe then
      if !b.probeInFlight then b
      else if completion == Failed then
        Opened(b, if b.cooldownIndex < 4 then b.cooldownIndex + 1 else b.cooldownIndex, later)
      else b.(probeInFlight := false)
    else if completion != Failed || b.state != Closed then b
    else
      var failures := Prune(b.failures, now - WINDOW) + [now];
      if |failures| >= THRESHOLD then Opened(b, 0, later) else b.(failures := failures)
  }

  function AfterSnapshot(b: Fields, now: int): Fields {
    if b.state == Closed then b.(failures := Prune(b.failures, now - WINDOW)) else b
  }

  // ---------------------------------------------------------------------------
  // The object itself

  class ProviderBreaker {
    const enabled: bool
    var state: State
    var failures: seq<int>
    var cooldownIndex: nat
    var openUntil: int
    var probeInFlight: bool
    var generation: nat

    ghost function Value(): Fields
      reads this
    {
      Fields(state, failures, cooldownIndex, openUntil, probeInFlight, generation)
    }

    constructor (enabled: bool)
      ensures this.enabled == enabled && Value() == INITIAL
    {
      this.enabled := enabled;
      state, failures, cooldownIndex := Closed, [], 0;
      openUntil, probeInFlight, generation := 0, false, 0;
    }

    /** The one eligibility boundary: a disabled breaker hands out no-op leases. */
    method Acquire(now: int) returns (r: Acquired)
      modifies this
      ensures !enabled ==> r == Granted(Lease(generation, false, false)) && Value() == old(Value())
      ensures enabled ==> Value() == AfterAcquire(old(Value()), now)
      ensures enabled ==> (r.Granted? <==> Admits(old(Value()), now))
      ensures enabled && r.Granted? ==> r.lease == LeaseFor(old(Value()))
      ensures r.Denied? ==> r.retryAt == openUntil && r.halfOpen == (openUntil <= now)
    {
      var lease := Lease(generation, enabled, false);
      if !enabled || state == Closed {
        return Granted(lease);
      }
      var halfOpen := false;
      if openUntil <= now {
        halfOpen := true;
        if !probeInFlight {
          probeInFlight := true;
          return Granted(lease.(probe := true));
        }
      }
      return Denied(halfOpen, openUntil);
    }

    method Complete(lease: Lease, completion: Completion, now: int, later: int)
      modifies this
      ensures Value() == AfterComplete(old(Value()), lease, completion, now, later)
    {
      if !lease.enabled { return; }
      if completion == Succeeded {
        state, failures, cooldownIndex, openUntil, probeInFlight := Closed, [], 0, 0, false;
        generation := generation + 1;
        return;
      }
      if lease.generation != generation { return; }
      if lease.probe {
        if !probeInFlight { return; }
        probeInFlight := false;
        if completion == Failed {
          if cooldownIndex < 4 { cooldownIndex := cooldownIndex + 1; }
          OpenLocked(later);
        }
        return;
      }
      if completion != Failed || state != Closed { return; }
      PruneLocked(now);
      failures := failures + [now];
      if |failures| >= THRESHOLD {
        cooldownIndex := 0;
        OpenLocked(later);
      }
    }

    method PruneLocked(now: int)
      modifies this`failures
      ensures failures == Prune(old(failures), now - WINDOW)
    {
      var cutoff := now - WINDOW;
      var first := 0;
      while first < |failures| && failures[first] < cutoff
        invariant 0 <= first <= |failures|
        invariant Prune(failures[first..], cutoff) == Prune(failures, cutoff)
      {
        assert failures[first..][1..] == failures[first + 1..];
        first := first + 1;
      }
      if first > 0 { failures := failures[first..]; }
    }

    method OpenLocked(now: int)
      modifies this
      ensures Value() == Opened(old(Value()), old(cooldownIndex), now)
    {
      state, failures, probeInFlight := Open, [], false;
      openUntil := now + Cooldown(cooldownIndex);
      generation := generation + 1;
    }

    /** A snapshot may forget failures that no longer matter, and nothing else. */
    method TakeSnapshot(now: int) returns (s: Snapshot)
      modifies this`failures
      ensures !enabled ==> s == Disabled && Value() == old(Value())
      ensures enabled ==> Value() == AfterSnapshot(old(Value()), now)
      ensures enabled ==> s == Enabled(state == Open, state == Open && openUntil <= now, |failures|, openUntil,
                                       if state == Open then Cooldown(cooldownIndex) else 0, probeInFlight)
    {
      if !enabled { return Disabled; }
      var halfOpen := false;
      if state == Closed {
        PruneLocked(now);
      } else if openUntil <= now {
        halfOpen := true;
      }
      var cooldown := if state == Open then Cooldown(cooldownIndex) else 0;
      return Enabled(state == Open, halfOpen, |failures|, openUntil, cooldown, probeInFlight);
    }
  }

  // ---------------------------------------------------------------------------
  // Runs: any interleaving of the locked operations, each lease completed at most once

  datatype Op =
    | DoAcquire(now: int)
    | DoComplete(lease: Lease, completion: Completion, now: int, later: int)
    | DoSnapshot(now: int)

  function Begin(op: Op): int { op.now }

  function End(op: Op): int { if op.DoComplete? then op.later else op.now }

  /** The breaker together with the leases that are out. */
  datatype System = System(b: Fields, out: multiset<Lease>)

  predicate Allowed(s: System, op: Op) {
    op.DoComplete? ==> op.lease in s.out
  }

  function FieldsNext(b: Fields, op: Op): Fields {
    match op
    case DoAcquire(now) => AfterAcquire(b, now)
    case DoComplete(lease, completion, now, later) => AfterComplete(b, lease, completion, now, later)
    case DoSnapshot(now) => AfterSnapshot(b, now)
  }

  function Next(s: System, op: Op): System
    requires Allowed(s, op)
  {
    var out :=
      match op
      case DoAcquire(now) => if Admits(s.b, now) then s.out + multiset{LeaseFor(s.b)} else s.out
      case DoComplete(lease, _, _, _) => s.out - multiset{lease}
      case DoSnapshot(_) => s.out;
    System(FieldsNext(s.b, op), out)
  }

  /** The clock reading after `ops`; a breaker is created at time zero. */
  function LastEnd(ops: seq<Op>): int { if ops == [] then 0 else End(ops[|ops| - 1]) }

  /** `s` is reached from a fresh breaker by `ops`, read by a non-decreasing clock. */
  ghost predicate Reaches(ops: seq<Op>, s: System) {
    if ops == [] then s == System(INITIAL, multiset{})
    else
      var last := ops[|ops| - 1];
      && Begin(last) <= End(last)
      && LastEnd(ops[..|ops| - 1]) <= Begin(last)
      && exists prev :: Reaches(ops[..|ops| - 1], prev) && Allowed(prev, last) && s == Next(prev, last)
  }

  function Probe(b: Fields): Lease { Lease(b.generation, true, true) }

  function Ordinary(b: Fields): Lease { Lease(b.generation, true, false) }

  ghost predicate Exclusive(s: System) {
    && s.out[Probe(s.b)] == (if s.b.probeInFlight then 1 else 0)
    && (s.b.state == Open ==> s.out[Ordinary(s.b)] == 0)
    && (s.b.state == Closed ==> !s.b.probeInFlight)
    && (forall l :: l in s.out ==> l.enabled && l.generation <= s.b.generation)
  }

  lemma ExclusiveAcquire(s: System, now: int)
    requires Exclusive(s)
    ensures Exclusive(Next(s, DoAcquire(now)))
  {
    var t := Next(s, DoAcquire(now));
    assert forall l :: l in t.out ==> l in s.out || l == LeaseFor(s.b);
  }

  /** Every completion either keeps the generation, or starts one that no lease is from. */
  lemma ExclusiveComplete(s: System, lease: Lease, completion: Completion, now: int, later: int)
    requires Exclusive(s) && lease in s.out
    ensures Exclusive(Next(s, DoComplete(lease, completion, now, later)))
  {
    var t := Next(s, DoComplete(lease, completion, now, later));
    assert forall l :: l in t.out ==> l in s.out;
    assert Lease(s.b.generation + 1, true, true) !in s.out;
    assert Lease(s.b.generation + 1, true, false) !in s.out;
  }

  lemma ExclusiveStep(s: System, op: Op)
    requires Exclusive(s) && Allowed(s, op)
    ensures Exclusive(Next(s, op))
  {
    match op
    case DoAcquire(now) => ExclusiveAcquire(s, now);
    case DoComplete(lease, completion, now, later) => ExclusiveComplete(s, lease, completion, now, later);
    case DoSnapshot(now) =>
  }

  /** In every reachable state: a probe is in flight exactly when one current-generation
      probe lease is out (never two), an open breaker has no current ordinary lease, and
      an acquire is refused only before the cooldown ends or while that one probe is out. */
  lemma {:induction false} ProbesAreExclusive(ops: seq<Op>, s: System)
    requires Reaches(ops, s)
    ensures Exclusive(s)
    ensures s.out[Probe(s.b)] <= 1
    ensures s.b.probeInFlight <==> Probe(s.b) in s.out
    ensures s.b.state == Open ==> Ordinary(s.b) !in s.out
    ensures forall now :: !Admits(s.b, now) <==>
                          s.b.state == Open && (now < s.b.openUntil || Probe(s.b) in s.out)
  {
    if ops == [] {
    } else {
      var prev :| Reaches(ops[..|ops| - 1], prev) && Allowed(prev, ops[|ops| - 1]) && s == Next(prev, ops[|ops| - 1]);
      ProbesAreExclusive(ops[..|ops| - 1], prev);
      ExclusiveStep(prev, ops[|ops| - 1]);
    }
  }

  // ---------------------------------------------------------------------------
  // The reference: full history, no pruning, no saturating index

  /** `log` holds every failure counted in the current closed period, oldest first;
      `failedProbes` counts failed probes since the breaker left that period. */
  datatype History = History(
    state: State,
    log: seq<int>,
    failedProbes: nat,
    openUntil: int,
    probeInFlight: bool,
    generation: nat)

  const EMPTY := History(Closed, [], 0, 0, false, 0)

  /** How many logged failures are at most 30 seconds old at `now`. */
  function Recent(log: seq<int>, now: int): nat {
    if log == [] then 0
    else Recent(log[..|log| - 1], now) + (if now - log[|log| - 1] <= WINDOW then 1 else 0)
  }

  /** Does completing `lease` with a failure open a closed breaker? */
  predicate Trips(h: History, lease: Lease, now: int) {
    && h.state == Closed && lease.enabled && !lease.probe && lease.generation == h.generation
    && Recent(h.log, now) >= 2
  }

  function HistoryAcquire(h: History, now: int): History {
    if h.state == Open && h.openUntil <= now then h.(probeInFlight := true) else h
  }

  function HistoryComplete(h: History, lease: Lease, completion: Completion, now: int, later: int): History {
    if !lease.enabled then h
    else if completion == Succeeded then History(Closed, [], 0, 0, false, h.generation + 1)
    else if lease.generation != h.generation then h
    else if lease.probe then
      if !h.probeInFlight then h
      else if completion == Neutral then h.(probeInFlight := false)
      else History(Open, [], h.failedProbes + 1, later + Cooldown(h.failedProbes + 1), false, h.generation + 1)
    else if completion == Neutral || h.state == Open then h
    else if Trips(h, lease, now) then History(Open, [], 0, later + Cooldown(0), false, h.generation + 1)
    else h.(log := h.log + [now])
  }

  function HistoryNext(h: History, op: Op): History {
    match op
    case DoSnapshot(_) => h
    case DoAcquire(now) => HistoryAcquire(h, now)
    case DoComplete(lease, completion, now, later) => HistoryComplete(h, lease, completion, now, later)
  }

  function HistoryAfter(ops: seq<Op>): History {
    if ops == [] then EMPTY else HistoryNext(HistoryAfter(ops[..|ops| - 1]), ops[|ops| - 1])
  }

  ghost predicate Sorted(s: seq<int>) { forall i, j :: 0 <= i < j < |s| ==> s[i] <= s[j] }

  /** The log is in clock order and ends no later than `now`. */
  ghost predicate Timely(log: seq<int>, now: int) {
    Sorted(log) && (forall i :: 0 <= i < |log| ==> log[i] <= now)
  }

  /** The breaker shows the history's state, its window is the history's log minus a
      prefix that is already too old, and its index is the saturated probe count. */
  ghost predicate Shows(b: Fields, h: History, now: int) {
    SameStatus(b, h) && ShowsLog(b.failures, h.log, now)
  }

  ghost predicate SameStatus(b: Fields, h: History) {
    && b.state == h.state && b.openUntil == h.openUntil && b.probeInFlight == h.probeInFlight
    && b.generation == h.generation
    && b.cooldownIndex == (if h.failedProbes < 4 then h.failedProbes else 4)
  }

  ghost predicate ShowsLog(failures: seq<int>, log: seq<int>, now: int) {
    exists k: nat :: Forgot(failures, log, k, now)
  }

  ghost predicate Forgot(failures: seq<int>, log: seq<int>, k: nat, now: int) {
    && k <= |log| && failures == log[k..]
    && forall i :: 0 <= i < k ==> log[i] < now - WINDOW
  }

  lemma TimelyStep(h: History, was: int, op: Op)
    requires Timely(h.log, was) && was <= Begin(op) <= End(op)
    ensures Timely(HistoryNext(h, op).log, End(op))
  {
    var g := HistoryNext(h, op);
    assert g.log == [] || g.log == h.log || g.log == h.log + [Begin(op)];
  }

  lemma {:induction false} PruneForgets(log: seq<int>, k: nat, was: int, now: int) returns (m: nat)
    requires Sorted(log) && k <= |log| && was <= now && Forgot(log[k..], log, k, was)
    ensures Forgot(Prune(log[k..], now - WINDOW), log, m, now) && m + Recent(log, now) == |log|
    decreases |log| - k
  {
    if k < |log| && log[k] < now - WINDOW {
      assert log[k..][1..] == log[k + 1..];
      m := PruneForgets(log, k + 1, now, now);
    } else {
      RecentIsSuffix(log, k, now);
      m := k;
    }
  }

  lemma {:induction false} RecentIsSuffix(log: seq<int>, k: nat, now: int)
    requires Sorted(log) && k <= |log|
    requires forall i :: 0 <= i < k ==> log[i] < now - WINDOW
    requires k < |log| ==> log[k] >= now - WINDOW
    ensures k + Recent(log, now) == |log|
  {
    if log == [] {
    } else {
      var init := log[..|log| - 1];
      if k == |log| {
        RecentIsSuffix(init, k - 1, now);
      } else {
        assert log[k] <= log[|log| - 1];
        RecentIsSuffix(init, k, now);
      }
    }
  }

  lemma ShowsLogLater(failures: seq<int>, log: seq<int>, was: int, now: int)
    requires ShowsLog(failures, log, was) && was <= now
    ensures ShowsLog(failures, log, now)
  {
    var k: nat :| Forgot(failures, log, k, was);
    assert Forgot(failures, log, k, now);
  }

  /** Pruning keeps the window a view of the log, with exactly the recent entries left. */
  lemma ShowsLogPruned(failures: seq<int>, log: seq<int>, was: int, now: int)
    requires Timely(log, was) && ShowsLog(failures, log, was) && was <= now
    ensures ShowsLog(Prune(failures, now - WINDOW), log, now)
    ensures |Prune(failures, now - WINDOW)| == Recent(log, now)
  {
    var k: nat :| Forgot(failures, log, k, was);
    var m := PruneForgets(log, k, was, now);
  }

  lemma ShowsLogSnoc(failures: seq<int>, log: seq<int>, now: int)
    requires ShowsLog(failures, log, now)
    ensures ShowsLog(failures + [now], log + [now], now)
  {
    var k: nat :| Forgot(failures, log, k, now);
    assert (log + [now])[k..] == log[k..] + [now];
    assert Forgot(failures + [now], log + [now], k, now);
  }

  lemma ShowsLogEmpty(now: int)
    ensures ShowsLog([], [], now)
  {
    assert Forgot([], [], 0, now);
  }

  /** The one counted failure: the pruned window has three entries exactly when the
      unpruned log has two recent ones. */
  lemma ShowsFailure(b: Fields, h: History, now: int, later: int)
    requires SameStatus(b, h) && b.state == Closed && now <= later
    requires ShowsLog(Prune(b.failures, now - WINDOW) + [now], h.log + [now], later)
    requires |Prune(b.failures, now - WINDOW)| == Recent(h.log, now)
    ensures Shows(AfterComplete(b, Ordinary(b), Failed, now, later),
                  HistoryComplete(h, Ordinary(b), Failed, now, later), later)
  {
    if Recent(h.log, now) >= 2 {
      ShowsLogEmpty(later);
    }
  }

  lemma ShowsOther(b: Fields, h: History, lease: Lease, completion: Completion, now: int, later: int)
    requires Shows(b, h, later)
    requires !(lease == Ordinary(b) && completion == Failed && b.state == Closed)
    ensures Shows(AfterComplete(b, lease, completion, now, later),
                  HistoryComplete(h, lease, completion, now, later), later)
  {
    ShowsLogEmpty(later);
  }

  lemma ShowsComplete(b: Fields, h: History, was: int, lease: Lease, completion: Completion, now: int, later: int)
    requires Shows(b, h, was) && Timely(h.log, was) && was <= now <= later
    ensures Shows(AfterComplete(b, lease, completion, now, later),
                  HistoryComplete(h, lease, completion, now, later), later)
  {
    if lease == Ordinary(b) && completion == Failed && b.state == Closed {
      var pruned := Prune(b.failures, now - WINDOW);
      ShowsLogPruned(b.failures, h.log, was, now);
      ShowsLogSnoc(pruned, h.log, now);
      ShowsLogLater(pruned + [now], h.log + [now], now, later);
      ShowsFailure(b, h, now, later);
    } else {
      ShowsLogLater(b.failures, h.log, was, later);
      ShowsOther(b, h, lease, completion, now, later);
    }
  }

  lemma ShowsAcquire(b: Fields, h: History, was: int, now: int)
    requires Shows(b, h, was) && was <= now
    ensures Shows(AfterAcquire(b, now), HistoryAcquire(h, now), now)
  {
    ShowsLogLater(b.failures, h.log, was, now);
  }

  lemma ShowsSnapshot(b: Fields, h: History, was: int, now: int)
    requires Shows(b, h, was) && Timely(h.log, was) && was <= now
    ensures Shows(AfterSnapshot(b, now), h, now)
  {
    ShowsLogLater(b.failures, h.log, was, now);
    ShowsLogPruned(b.failures, h.log, was, now);
  }

  lemma ShowsStep(b: Fields, h: History, was: int, op: Op)
    requires Shows(b, h, was) && Timely(h.log, was) && was <= Begin(op) <= End(op)
    ensures Shows(FieldsNext(b, op), HistoryNext(h, op), End(op))
  {
    match op
    case DoAcquire(now) => ShowsAcquire(b, h, was, now);
    case DoSnapshot(now) => ShowsSnapshot(b, h, was, now);
    case DoComplete(lease, completion, now, later) =>
      ShowsComplete(b, h, was, lease, completion, now, later);
  }

  lemma {:induction false} LogIsTimely(ops: seq<Op>, s: System)
    requires Reaches(ops, s)
    ensures Timely(HistoryAfter(ops).log, LastEnd(ops))
  {
    if ops == [] {
    } else {
      var init, last := ops[..|ops| - 1], ops[|ops| - 1];
      var prev :| Reaches(init, prev) && Allowed(prev, last) && s == Next(prev, last);
      LogIsTimely(init, prev);
      TimelyStep(HistoryAfter(init), LastEnd(init), last);
    }
  }

  /** Every run of the breaker shows the full-history reference: pruning, snapshots and
      the saturating index are unobservable. */
  lemma {:induction false} BreakerShowsHistory(ops: seq<Op>, s: System)
    requires Reaches(ops, s)
    ensures Shows(s.b, HistoryAfter(ops), LastEnd(ops))
  {
    if ops == [] {
      ShowsLogEmpty(0);
    } else {
      var init, last := ops[..|ops| - 1], ops[|ops| - 1];
      var prev :| Reaches(init, prev) && Allowed(prev, last) && s == Next(prev, last);
      BreakerShowsHistory(init, prev);
      LogIsTimely(init, prev);
      ProbesAreExclusive(init, prev);
      ShowsStep(prev.b, HistoryAfter(init), LastEnd(init), last);
    }
  }

  /** A closed breaker opens exactly on a failure of a current ordinary lease that has two
      earlier failures of the same closed period at most 30 seconds old, and an open one
      closes exactly on a success. */
  ghost predicate SwitchesExactly(b: Fields, h: History, op: Op) {
    var t := FieldsNext(b, op);
    if b.state == Closed then
      t.state == Open <==> op.DoComplete? && op.completion == Failed && Trips(h, op.lease, op.now)
    else
      t.state == Closed <==> op.DoComplete? && op.completion == Succeeded
  }

  lemma SwitchesStep(b: Fields, h: History, was: int, op: Op)
    requires Shows(b, h, was) && Timely(h.log, was) && was <= Begin(op)
    requires op.DoComplete? ==> op.lease.enabled
    requires op.DoComplete? && b.state == Closed ==> op.lease != Probe(b) && !b.probeInFlight
    ensures SwitchesExactly(b, h, op)
  {
    if op.DoComplete? && b.state == Closed {
      ShowsLogPruned(b.failures, h.log, was, op.now);
    }
  }

  /** Over every run: the breaker switches exactly when the full history says so, and the
      cooldown in force is the one of the number of failed probes since the opening. */
  lemma OpensExactlyOnThirdRecentFailure(ops: seq<Op>, s: System, op: Op)
    requires Reaches(ops, s) && Allowed(s, op)
    requires LastEnd(ops) <= Begin(op)
    ensures SwitchesExactly(s.b, HistoryAfter(ops), op)
    ensures Cooldown(s.b.cooldownIndex) == Cooldown(HistoryAfter(ops).failedProbes)
  {
    BreakerShowsHistory(ops, s);
    ProbesAreExclusive(ops, s);
    LogIsTimely(ops, s);
    LeaseStatus(s, op);
    SwitchesStep(s.b, HistoryAfter(ops), LastEnd(ops), op);
  }

  lemma LeaseStatus(s: System, op: Op)
    requires Exclusive(s) && Allowed(s, op)
    ensures op.DoComplete? ==> op.lease.enabled
    ensures op.DoComplete? && s.b.state == Closed ==> op.lease != Probe(s.b) && !s.b.probeInFlight
  {
  }
}
