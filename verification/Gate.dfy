/**
 * The connection gate (nntp.go: connGate and the gate steps of runConnSlot): a throttled
 * counter shared by the slot goroutines of one provider.
 */
module Gate {
  /** The counters under the gate's mutex. `restoring`: a restore timer is armed. */
  datatype Counters = Counters(maxSlots: nat, allowed: nat, held: int, running: int, available: int, restoring: bool)

  class ConnGate {
    const maxSlots: nat
    var allowed: nat
    var held: int
    var running: int
    var available: int
    var restoring: bool

    ghost function Value(): Counters
      reads this
    {
      Counters(maxSlots, allowed, held, running, available, restoring)
    }

    constructor (slots: nat)
      ensures Value() == Counters(slots, slots, 0, 0, slots, false)
    {
      maxSlots, allowed, held, running, available, restoring := slots, slots, 0, 0, slots, false;
    }

    /** One round of the waiting loop of enter: a slot is granted, or the caller must wait
        (or give up because its context is gone). */
    method TryEnter() returns (granted: bool)
      modifies this
      ensures granted <==> old(held) < allowed
      ensures Value() == if granted then Entered(old(Value())) else old(Value())
    {
      granted := held < allowed;
      if granted {
        held := held + 1;
        available := allowed - held;
      }
    }

    method Exit()
      modifies this
      ensures Value() == Exited(old(Value()))
    {
      held := held - 1;
      available := allowed - held;
    }

    method MarkRunning()
      modifies this
      ensures Value() == old(Value()).(running := old(running) + 1)
    {
      running := running + 1;
    }

    method MarkNotRunning()
      modifies this
      ensures Value() == old(Value()).(running := old(running) - 1)
    {
      running := running - 1;
    }

    method Throttle()
      modifies this
      ensures Value() == Throttled(old(Value()))
    {
      var newAllowed := if running > 1 then running else 1;
      if newAllowed < allowed { allowed := newAllowed; }
      restoring := true;
      available := allowed - held;
    }

    method Restore()
      modifies this
      ensures Value() == Restored(old(Value()))
    {
      allowed := maxSlots;
      restoring := false;
      available := allowed - held;
    }

    method Stop()
      modifies this
      ensures Value() == old(Value()).(restoring := false)
    {
      restoring := false;
    }
  }

  function Entered(g: Counters): Counters { g.(held := g.held + 1, available := g.allowed - (g.held + 1)) }

  function Exited(g: Counters): Counters { g.(held := g.held - 1, available := g.allowed - (g.held - 1)) }

  function Throttled(g: Counters): Counters {
    var target := if g.running > 1 then g.running else 1;
    var allowed := if target < g.allowed then target else g.allowed;
    g.(allowed := allowed, available := allowed - g.held, restoring := true)
  }

  function Restored(g: Counters): Counters {
    g.(allowed := g.maxSlots, available := g.maxSlots - g.held, restoring := false)
  }

  // ---------------------------------------------------------------------------
  // Any number of slots, any interleaving

  /** Where a slot goroutine stands: waiting for work or for the gate, past the gate and
      connecting (or winding down), or inside Run. */
  datatype Slot = Idle | Connecting | Running

  datatype System = System(gate: Counters, slots: seq<Slot>)

  datatype Step =
    | Enter(slot: nat)          // gate.enter returns true
    | Throttle(slot: nat)       // the server refused this connection: max connections
    | StartRun(slot: nat)       // markRunning
    | EndRun(slot: nat)         // markNotRunning
    | Leave(slot: nat)          // exit, after Run or after a failed connect
    | TimerFires                // restore
    | StopGate                  // stop

  predicate Enabled(s: System, a: Step) {
    match a
    case Enter(i) => i < |s.slots| && s.slots[i] == Idle && s.gate.held < s.gate.allowed
    case Throttle(i) => i < |s.slots| && s.slots[i] == Connecting
    case StartRun(i) => i < |s.slots| && s.slots[i] == Connecting
    case EndRun(i) => i < |s.slots| && s.slots[i] == Running
    case Leave(i) => i < |s.slots| && s.slots[i] == Connecting
    case TimerFires => true
    case StopGate => true
  }

  function Next(s: System, a: Step): System
    requires Enabled(s, a)
  {
    match a
    case Enter(i) => System(Entered(s.gate), s.slots[i := Connecting])
    case Throttle(_) => System(Throttled(s.gate), s.slots)
    case StartRun(i) => System(s.gate.(running := s.gate.running + 1), s.slots[i := Running])
    case EndRun(i) => System(s.gate.(running := s.gate.running - 1), s.slots[i := Connecting])
    case Leave(i) => System(Exited(s.gate), s.slots[i := Idle])
    case TimerFires => System(Restored(s.gate), s.slots)
    case StopGate => System(s.gate.(restoring := false), s.slots)
  }

  function Start(n: nat): System {
    System(Counters(n, n, 0, 0, n, false), seq(n, _ => Idle))
  }

  /** `s` is reached by `steps` from `n` idle slots. */
  ghost predicate Reaches(n: nat, steps: seq<Step>, s: System) {
    if steps == [] then s == Start(n)
    else
      var last := steps[|steps| - 1];
      exists prev :: Reaches(n, steps[..|steps| - 1], prev) && Enabled(prev, last) && s == Next(prev, last)
  }

  function Count(slots: seq<Slot>, what: set<Slot>): nat {
    if slots == [] then 0 else (if slots[0] in what then 1 else 0) + Count(slots[1..], what)
  }

  lemma {:induction false} CountUpdate(slots: seq<Slot>, i: nat, v: Slot, what: set<Slot>)
    requires i < |slots|
    ensures Count(slots[i := v], what) ==
            Count(slots, what) - (if slots[i] in what then 1 else 0) + (if v in what then 1 else 0)
  {
    var new_ := slots[i := v];
    if i == 0 {
      assert new_[1..] == slots[1..];
    } else {
      assert new_[1..] == slots[1..][i - 1 := v];
      CountUpdate(slots[1..], i - 1, v, what);
    }
  }

  lemma {:induction false} CountBound(slots: seq<Slot>, small: set<Slot>, large: set<Slot>)
    requires small <= large
    ensures Count(slots, small) <= Count(slots, large) <= |slots|
  {
    if slots == [] {
    } else {
      CountBound(slots[1..], small, large);
    }
  }

  lemma {:induction false} CountIdle(n: nat, what: set<Slot>)
    requires Idle !in what
    ensures Count(seq(n, _ => Idle), what) == 0
  {
    if n == 0 {
    } else {
      assert seq(n, _ => Idle)[1..] == seq(n - 1, _ => Idle);
      CountIdle(n - 1, what);
    }
  }

  const PAST_GATE: set<Slot> := {Connecting, Running}
  const IN_RUN: set<Slot> := {Running}

  /** The counters tell the truth about the slots. */
  ghost predicate Truthful(n: nat, s: System) {
    && |s.slots| == n && s.gate.maxSlots == n
    && s.gate.held == Count(s.slots, PAST_GATE)
    && s.gate.running == Count(s.slots, IN_RUN)
    && 1 <= s.gate.allowed <= n
    && s.gate.available == s.gate.allowed - s.gate.held
  }

  lemma TruthfulStep(n: nat, s: System, a: Step)
    requires Truthful(n, s) && Enabled(s, a)
    ensures Truthful(n, Next(s, a))
    ensures !a.TimerFires? ==> Next(s, a).gate.allowed <= s.gate.allowed
  {
    CountBound(s.slots, IN_RUN, PAST_GATE);
    match a
    case Enter(i) => CountUpdate(s.slots, i, Connecting, PAST_GATE); CountUpdate(s.slots, i, Connecting, IN_RUN);
    case Throttle(_) =>
    case StartRun(i) => CountUpdate(s.slots, i, Running, PAST_GATE); CountUpdate(s.slots, i, Running, IN_RUN);
    case EndRun(i) => CountUpdate(s.slots, i, Connecting, PAST_GATE); CountUpdate(s.slots, i, Connecting, IN_RUN);
    case Leave(i) => CountUpdate(s.slots, i, Idle, PAST_GATE); CountUpdate(s.slots, i, Idle, IN_RUN);
    case TimerFires =>
    case StopGate =>
  }

  /** For any number of slots and any interleaving: `held` is the number of slots past the
      gate, `running` the number inside Run, and the limits order them. */
  lemma {:induction false} GateIsSafe(n: nat, steps: seq<Step>, s: System)
    requires n >= 1 && Reaches(n, steps, s)
    ensures Truthful(n, s)
    ensures 0 <= s.gate.running <= s.gate.held <= s.gate.maxSlots
  {
    if steps == [] {
      CountIdle(n, PAST_GATE);
      CountIdle(n, IN_RUN);
    } else {
      var prev :| Reaches(n, steps[..|steps| - 1], prev) && Enabled(prev, steps[|steps| - 1])
                  && s == Next(prev, steps[|steps| - 1]);
      GateIsSafe(n, steps[..|steps| - 1], prev);
      TruthfulStep(n, prev, steps[|steps| - 1]);
    }
    CountBound(s.slots, IN_RUN, PAST_GATE);
  }

  /** A throttle holds until the timer: it cuts the limit to at most the connections then
      running (at least one), and no sequence of other steps raises it again. */
  lemma {:induction false} ThrottleHolds(n: nat, s: System, slot: nat, later: seq<Step>, t: System)
    requires Truthful(n, s) && Enabled(s, Throttle(slot))
    requires Follows(Next(s, Throttle(slot)), later, t)
    requires forall i :: 0 <= i < |later| ==> !later[i].TimerFires?
    ensures t.gate.allowed <= (if s.gate.running > 1 then s.gate.running else 1)
    ensures Truthful(n, t)
  {
    TruthfulStep(n, s, Throttle(slot));
    NoRaise(n, Next(s, Throttle(slot)), later, t);
  }

  ghost predicate Follows(s: System, steps: seq<Step>, t: System)
    decreases |steps|
  {
    if steps == [] then t == s else Enabled(s, steps[0]) && Follows(Next(s, steps[0]), steps[1..], t)
  }

  lemma {:induction false} NoRaise(n: nat, s: System, steps: seq<Step>, t: System)
    requires Truthful(n, s) && Follows(s, steps, t) && (forall i :: 0 <= i < |steps| ==> !steps[i].TimerFires?)
    ensures t.gate.allowed <= s.gate.allowed && Truthful(n, t)
    decreases |steps|
  {
    if steps == [] {
    } else {
      TruthfulStep(n, s, steps[0]);
      NoRaise(n, Next(s, steps[0]), steps[1..], t);
    }
  }
}
