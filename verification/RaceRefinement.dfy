/**
 * Racing against walking: when a parallel STAT race yields what one-by-one failover
 * yields, and when it does not.
 */
module RaceRefinement {
  import opened Basics
  import opened Errors
  import opened Attempts
  import opened Failover
  import opened Absence

  /** What the caller of a high-level operation can tell apart. */
  datatype Seen = Served(provider: string, code: int) | Failed(kind: Outcome) | Unattributed

  ghost function Observe(r: Response): Seen {
    match ResponseError(r)
    case None => Served(r.provider, r.code)
    case Some(Transport(t)) => Failed(t.kind)
    case Some(_) => Unattributed
  }

  /** The command went wrong after bytes had reached the caller's writer. */
  predicate Breaks(job: Job, a: Answer) {
    !a.cancelled && a.ok && a.err.Some? && Committed(job, a)
  }

  /** The request ends at this member. */
  predicate Stops(job: Job, m: Member) {
    !m.quotaExceeded && (Serves(m.answer) || Breaks(job, m.answer))
  }

  function FirstStop(job: Job, ms: seq<Member>): Option<Member> {
    if ms == [] then None
    else if Stops(job, ms[0]) then Some(ms[0])
    else FirstStop(job, ms[1..])
  }

  /** The failure classes one member contributes when it is called. */
  function Marks(m: Member): set<Outcome> {
    if m.quotaExceeded then {ProviderUnavailable} else Failures(m.answer.attempts)
  }

  function AllMarks(ms: seq<Member>): set<Outcome> {
    if ms == [] then {} else Marks(ms[0]) + AllMarks(ms[1..])
  }

  predicate Confirms(a: Answer) { Answered(a) && a.code == 223 }

  /** A provider's STAT agrees with its real answer: a denial means the command would have
      failed in the same classes without ending the request, and a confirmation reports no
      failure class of its own. A confirming provider may still fail the command. */
  ghost predicate Agrees(job: Job, m: Member) {
    && Failures(m.probe.attempts) <= Failures(m.answer.attempts)
    && (!Confirms(m.probe) ==> !Stops(job, m) && Failures(m.probe.attempts) == Failures(m.answer.attempts))
  }

  ghost predicate Settled(job: Job, ms: seq<Member>) {
    AllReliable(job, ms) && forall i :: 0 <= i < |ms| ==> Agrees(job, ms[i])
  }

  predicate Knows(acc: Acc) { acc.lastAbsent.Some? && HardAbsent(acc.lastAbsent.value.answer) }

  /** What a round does, said without the engine: it ends at the first member that stops
      the request, or passes with exactly the members' failure classes added. */
  ghost predicate Summarises(job: Job, ms: seq<Member>, acc: Acc, phase: Phase) {
    match FirstStop(job, ms)
    case None =>
      && phase.Through?
      && Failures(phase.acc.attempts) == Failures(acc.attempts) + AllMarks(ms)
      && (Knows(acc) ==> Knows(phase.acc))
    case Some(m) =>
      && phase.Delivered? && phase.member == m
      && Failures(acc.attempts) + Failures(m.answer.attempts) <= Failures(phase.attempts)
      && Cancellation !in Failures(phase.attempts)
  }

  // ---------------------------------------------------------------------------
  // The sequential walk

  lemma CallSummary(job: Job, m: Member, acc: Acc)
    requires Reliable(job, m) && !m.quotaExceeded && Cancellation !in Failures(acc.attempts)
    ensures match CallMember(job, m, acc)
            case Moved(next) =>
              && !Stops(job, m) && Failures(next.attempts) == Failures(acc.attempts) + Marks(m)
              && (Knows(acc) ==> Knows(next))
            case Absent(next) =>
              && !Stops(job, m) && Failures(next.attempts) == Failures(acc.attempts) + Marks(m)
              && (Knows(acc) ==> Knows(next))
              && HardAbsent(m.answer)
            case Ended(phase) =>
              Stops(job, m) && phase.Delivered? && phase.member == m
              && Failures(phase.attempts) == Failures(acc.attempts) + Failures(m.answer.attempts)
              && Cancellation !in Failures(phase.attempts)
    ensures Cancellation !in Marks(m)
  {
    FailuresConcat(acc.attempts, m.answer.attempts);
  }

  lemma SkipSummary(job: Job, m: Member, acc: Acc)
    requires m.quotaExceeded
    ensures Failures(SkipOverQuota(job, m, acc).attempts) == Failures(acc.attempts) + Marks(m)
  {
    FailuresSnoc(acc.attempts, QuotaEvidence(job, m));
  }

  lemma StepSummary(job: Job, ms: seq<Member>, acc: Acc, next: Acc, phase: Phase)
    requires ms != [] && !Stops(job, ms[0])
    requires Failures(next.attempts) == Failures(acc.attempts) + Marks(ms[0]) && (Knows(acc) ==> Knows(next))
    requires Summarises(job, ms[1..], next, phase)
    ensures Summarises(job, ms, acc, phase)
  {
  }

  lemma {:induction false} WalkSummary(job: Job, ms: seq<Member>, acc: Acc)
    requires AllReliable(job, ms) && Cancellation !in Failures(acc.attempts)
    ensures Summarises(job, ms, acc, Walk(job, ms, acc))
  {
    if ms == [] {
    } else {
      var phase := Walk(job, ms, acc);
      if ms[0].quotaExceeded {
        var next := SkipOverQuota(job, ms[0], acc);
        SkipSummary(job, ms[0], acc);
        WalkSummary(job, ms[1..], next);
        StepSummary(job, ms, acc, next, phase);
      } else {
        CallSummary(job, ms[0], acc);
        match CallMember(job, ms[0], acc)
        case Moved(next) =>
          WalkSummary(job, ms[1..], next);
          StepSummary(job, ms, acc, next, phase);
        case Absent(next) =>
          var kept := next.(lastAbsent := Some(ms[0]));
          WalkSummary(job, ms[1..], kept);
          StepSummary(job, ms, acc, kept, phase);
        case Ended(_) =>
      }
    }
  }

  // ---------------------------------------------------------------------------
  // The race

  lemma {:induction false} WinnersSummary(job: Job, ms: seq<Member>, acc: Acc)
    requires AllReliable(job, ms) && (forall i :: 0 <= i < |ms| ==> !ms[i].quotaExceeded)
    requires Cancellation !in Failures(acc.attempts)
    ensures Summarises(job, ms, acc, Winners(job, ms, acc))
  {
    if ms == [] {
    } else {
      var phase := Winners(job, ms, acc);
      CallSummary(job, ms[0], acc);
      match CallMember(job, ms[0], acc)
      case Moved(next) =>
        WinnersSummary(job, ms[1..], next);
        StepSummary(job, ms, acc, next, phase);
      case Absent(next) =>
        WinnersSummary(job, ms[1..], next);
        StepSummary(job, ms, acc, next, phase);
      case Ended(_) =>
    }
  }

  /** The providers a race calls after probing. */
  function Confirming(ms: seq<Member>): seq<Member> {
    if ms == [] then []
    else (if Confirms(ms[0].probe) then [ms[0]] else []) + Confirming(ms[1..])
  }

  function ProbeMarks(ms: seq<Member>): set<Outcome> {
    if ms == [] then {} else Failures(ms[0].probe.attempts) + ProbeMarks(ms[1..])
  }

  lemma ReadProbeSummary(job: Job, m: Member, s: Probed)
    requires Reliable(job, m) && !s.cancelled
    ensures var r := ReadProbe(m, s);
            && !r.cancelled && r.acc.lastAbsent == s.acc.lastAbsent
            && Failures(r.acc.attempts) == Failures(s.acc.attempts) + Failures(m.probe.attempts)
            && r.winners == s.winners + (if Confirms(m.probe) then [m] else [])
  {
    FailuresConcat(s.acc.attempts, m.probe.attempts);
  }

  lemma {:induction false} ReadProbesMarks(job: Job, ms: seq<Member>, s: Probed)
    requires AllReliable(job, ms) && !s.cancelled
    ensures !ReadProbes(ms, s).cancelled && ReadProbes(ms, s).acc.lastAbsent == s.acc.lastAbsent
    ensures Failures(ReadProbes(ms, s).acc.attempts) == Failures(s.acc.attempts) + ProbeMarks(ms)
  {
    if ms == [] {
    } else {
      ReadProbeSummary(job, ms[0], s);
      ReadProbesMarks(job, ms[1..], ReadProbe(ms[0], s));
    }
  }

  lemma {:induction false} ReadProbesWinners(job: Job, ms: seq<Member>, s: Probed)
    requires AllReliable(job, ms) && !s.cancelled
    ensures ReadProbes(ms, s).winners == s.winners + Confirming(ms)
  {
    if ms == [] {
    } else {
      var t := ReadProbe(ms[0], s);
      ReadProbeSummary(job, ms[0], s);
      ReadProbesWinners(job, ms[1..], t);
      Regroup(s.winners, if Confirms(ms[0].probe) then [ms[0]] else [], Confirming(ms[1..]));
    }
  }

  /** Under agreement the confirming providers hold the first stop, ... */
  lemma {:induction false} ConfirmingHoldsFirstStop(job: Job, ms: seq<Member>)
    requires forall i :: 0 <= i < |ms| ==> Agrees(job, ms[i])
    ensures FirstStop(job, Confirming(ms)) == FirstStop(job, ms)
  {
    if ms == [] {
    } else {
      ConfirmingHoldsFirstStop(job, ms[1..]);
      assert Agrees(job, ms[0]);
      if Confirms(ms[0].probe) {
        assert Confirming(ms)[1..] == Confirming(ms[1..]);
      } else {
        assert Confirming(ms) == Confirming(ms[1..]);
      }
    }
  }

  /** ... and their failure classes together with the probes' are those of a full walk. */
  lemma {:induction false} ConfirmingHoldsMarks(job: Job, ms: seq<Member>)
    requires forall i :: 0 <= i < |ms| ==> Agrees(job, ms[i]) && !ms[i].quotaExceeded
    ensures ProbeMarks(ms) + AllMarks(Confirming(ms)) == AllMarks(ms)
  {
    if ms == [] {
    } else {
      ConfirmingHoldsMarks(job, ms[1..]);
      assert Agrees(job, ms[0]);
      if Confirms(ms[0].probe) {
        assert Confirming(ms)[1..] == Confirming(ms[1..]);
      } else {
        assert Confirming(ms) == Confirming(ms[1..]);
      }
    }
  }

  lemma {:induction false} ConfirmingAreMembers(ms: seq<Member>)
    ensures forall m :: m in Confirming(ms) ==> m in ms
  {
    if ms == [] {
    } else {
      ConfirmingAreMembers(ms[1..]);
    }
  }

  lemma {:induction false} ProbesNeverCancel(job: Job, ms: seq<Member>)
    requires AllReliable(job, ms)
    ensures Cancellation !in ProbeMarks(ms)
  {
    if ms == [] {
    } else {
      ProbesNeverCancel(job, ms[1..]);
    }
  }

  lemma ConfirmingSuffices(job: Job, ms: seq<Member>)
    requires Settled(job, ms) && (forall i :: 0 <= i < |ms| ==> !ms[i].quotaExceeded)
    ensures AllReliable(job, Confirming(ms))
    ensures forall i :: 0 <= i < |Confirming(ms)| ==> !Confirming(ms)[i].quotaExceeded
  {
    ConfirmingAreMembers(ms);
    var ws := Confirming(ms);
    forall i | 0 <= i < |ws| ensures Reliable(job, ws[i]) && ProbeConforms(ws[i]) && !ws[i].quotaExceeded {
      assert ws[i] in ms;
    }
  }

  function QuotaMarks(ms: seq<Member>): set<Outcome> {
    if ms == [] then {} else (if ms[0].quotaExceeded then {ProviderUnavailable} else {}) + QuotaMarks(ms[1..])
  }

  lemma {:induction false} FilterSummary(job: Job, ms: seq<Member>, acc: Acc)
    ensures var f := FilterQuota(job, ms, acc);
            f.lastAbsent == acc.lastAbsent && Failures(f.attempts) == Failures(acc.attempts) + QuotaMarks(ms)
  {
    if ms == [] {
    } else {
      if ms[0].quotaExceeded {
        SkipSummary(job, ms[0], acc);
        FilterSummary(job, ms[1..], SkipOverQuota(job, ms[0], acc));
      } else {
        FilterSummary(job, ms[1..], acc);
      }
    }
  }

  lemma EligibleHead(ms: seq<Member>)
    requires ms != []
    ensures if ms[0].quotaExceeded then Eligible(ms) == Eligible(ms[1..])
            else Eligible(ms) != [] && Eligible(ms)[0] == ms[0] && Eligible(ms)[1..] == Eligible(ms[1..])
  {}

  lemma {:induction false} EligibleSettled(job: Job, ms: seq<Member>)
    requires Settled(job, ms)
    ensures Settled(job, Eligible(ms)) && (forall i :: 0 <= i < |Eligible(ms)| ==> !Eligible(ms)[i].quotaExceeded)
  {
    if ms == [] {
    } else {
      var live, rest := Eligible(ms), Eligible(ms[1..]);
      EligibleSettled(job, ms[1..]);
      EligibleHead(ms);
      if !ms[0].quotaExceeded {
        assert Reliable(job, ms[0]) && ProbeConforms(ms[0]) && Agrees(job, ms[0]);
        assert forall i :: 1 <= i < |live| ==> live[i] == rest[i - 1];
      }
    }
  }

  lemma {:induction false} EligibleMarks(job: Job, ms: seq<Member>)
    ensures FirstStop(job, Eligible(ms)) == FirstStop(job, ms)
    ensures QuotaMarks(ms) + AllMarks(Eligible(ms)) == AllMarks(ms)
    ensures Cancellation !in QuotaMarks(ms)
  {
    if ms == [] {
    } else {
      EligibleMarks(job, ms[1..]);
      EligibleHead(ms);
    }
  }

  lemma EligibleSuffices(job: Job, ms: seq<Member>)
    requires Settled(job, ms)
    ensures Settled(job, Eligible(ms)) && (forall i :: 0 <= i < |Eligible(ms)| ==> !Eligible(ms)[i].quotaExceeded)
    ensures FirstStop(job, Eligible(ms)) == FirstStop(job, ms)
    ensures QuotaMarks(ms) + AllMarks(Eligible(ms)) == AllMarks(ms)
    ensures Cancellation !in QuotaMarks(ms)
  {
    EligibleSettled(job, ms);
    EligibleMarks(job, ms);
  }

  /** Exactly one candidate is eligible and its reply is neither success, absence nor 502. */
  predicate Lonely(ms: seq<Member>) {
    |Eligible(ms)| == 1 && Soft(Eligible(ms)[0].answer)
  }

  /** Re-base a summary on an earlier state and an equivalent list of members. */
  lemma Rebase(job: Job, from: seq<Member>, to: seq<Member>, before: Acc, after: Acc, phase: Phase)
    requires Summarises(job, from, after, phase) && FirstStop(job, from) == FirstStop(job, to)
    requires Failures(before.attempts) <= Failures(after.attempts)
    requires Failures(after.attempts) + AllMarks(from) == Failures(before.attempts) + AllMarks(to)
    requires after.lastAbsent == before.lastAbsent
    ensures Summarises(job, to, before, phase)
  {
  }

  lemma SingleSummary(job: Job, m: Member, acc: Acc)
    requires Reliable(job, m) && !m.quotaExceeded && !Soft(m.answer) && Cancellation !in Failures(acc.attempts)
    ensures Summarises(job, [m], acc, Single(job, m, acc))
  {
    CallSummary(job, m, acc);
    assert [m][1..] == [];
    assert AllMarks([m]) == Marks(m) + AllMarks([]);
    assert FirstStop(job, [m]) == if Stops(job, m) then Some(m) else FirstStop(job, []);
  }

  lemma ProbedSummary(job: Job, live: seq<Member>, acc: Acc)
    requires Settled(job, live) && (forall i :: 0 <= i < |live| ==> !live[i].quotaExceeded)
    requires Cancellation !in Failures(acc.attempts)
    ensures Summarises(job, live, acc, AfterProbes(job, ReadProbes(live, Probed(acc, [], false))))
  {
    var s := ReadProbes(live, Probed(acc, [], false));
    ReadProbesMarks(job, live, Probed(acc, [], false));
    ReadProbesWinners(job, live, Probed(acc, [], false));
    ConfirmingHoldsFirstStop(job, live);
    ConfirmingHoldsMarks(job, live);
    ConfirmingSuffices(job, live);
    ProbesNeverCancel(job, live);
    assert s.winners == Confirming(live);
    WinnersSummary(job, s.winners, s.acc);
    Rebase(job, s.winners, live, acc, s.acc, Winners(job, s.winners, s.acc));
  }

  /** Outside the lonely case a race ends where a walk would. */
  lemma RaceSummary(job: Job, ms: seq<Member>, acc: Acc)
    requires Settled(job, ms) && Cancellation !in Failures(acc.attempts) && !Lonely(ms)
    ensures Summarises(job, ms, acc, Race(job, ms, acc))
  {
    var live, filtered := Eligible(ms), FilterQuota(job, ms, acc);
    FilterSummary(job, ms, acc);
    EligibleSuffices(job, ms);
    if |live| == 0 {
      assert FirstStop(job, live) == None && AllMarks(live) == {};
    } else if |live| == 1 {
      SingleSummary(job, live[0], filtered);
      assert live == [live[0]];
      Rebase(job, live, ms, acc, filtered, Single(job, live[0], filtered));
    } else {
      ProbedSummary(job, live, filtered);
      Rebase(job, live, ms, acc, filtered, AfterProbes(job, ReadProbes(live, Probed(filtered, [], false))));
    }
  }

  // ---------------------------------------------------------------------------
  // Both modes of a whole request

  function Racing(job: Job): Job { job.(raceable := true) }

  function Walking(job: Job): Job { job.(raceable := false) }

  /** The mains left when the first absence is found, if one is found at all. */
  function AfterFirstAbsence(job: Job, ms: seq<Member>): Option<seq<Member>> {
    if ms == [] || Stops(job, ms[0]) then None
    else if !ms[0].quotaExceeded && Answered(ms[0].answer) && HardAbsent(ms[0].answer) then Some(ms[1..])
    else AfterFirstAbsence(job, ms[1..])
  }

  /** The state in which the first absence leaves the engine: the same in both modes. */
  ghost predicate Missed(acc: Acc) {
    Knows(acc) && HardAbsence in Failures(acc.attempts) && Cancellation !in Failures(acc.attempts)
  }

  lemma AbsentMisses(job: Job, m: Member, acc: Acc, next: Acc)
    requires Reliable(job, m) && CallMember(job, m, acc) == Absent(next) && !m.quotaExceeded
    requires Cancellation !in Failures(acc.attempts)
    ensures Missed(next.(lastAbsent := Some(m)))
  {
    CallSummary(job, m, acc);
    var last := m.answer.attempts[|m.answer.attempts| - 1];
    assert last.outcome == HardAbsence;
    assert HardAbsence in Failures(m.answer.attempts);
  }

  lemma {:induction false} WalkingMainsAreWalks(job: Job, ms: seq<Member>, acc: Acc)
    ensures Mains(Walking(job), ms, acc) == Walk(Walking(job), ms, acc)
  {
    if ms == [] {
    } else {
      match Visit(Walking(job), ms[0], acc)
      case Moved(next) => WalkingMainsAreWalks(job, ms[1..], next);
      case Absent(next) => WalkingMainsAreWalks(job, ms[1..], next.(lastAbsent := Some(ms[0])));
      case Ended(_) =>
    }
  }

  /** Both modes agree up to the first absence; there one races and the other walks on. */
  lemma {:induction false} ModesPart(job: Job, ms: seq<Member>, acc: Acc) returns (at: Acc)
    requires AllReliable(job, ms) && Cancellation !in Failures(acc.attempts)
    ensures match AfterFirstAbsence(job, ms)
            case None =>
              && Mains(Racing(job), ms, acc) == Walk(Walking(job), ms, acc)
              && (Mains(Racing(job), ms, acc).Through? ==> Mains(Racing(job), ms, acc).acc.lastAbsent == acc.lastAbsent)
            case Some(rest) =>
              && Missed(at)
              && Mains(Racing(job), ms, acc) == Race(Racing(job), rest, at)
              && Walk(Walking(job), ms, acc) == Walk(Walking(job), rest, at)
  {
    at := acc;
    if ms == [] {
    } else {
      VisitIgnoresMode(job, ms[0], acc);
      if ms[0].quotaExceeded {
        SkipSummary(job, ms[0], acc);
        at := ModesPart(job, ms[1..], SkipOverQuota(job, ms[0], acc));
      } else {
        CallSummary(job, ms[0], acc);
        match CallMember(job, ms[0], acc)
        case Moved(next) => at := ModesPart(job, ms[1..], next);
        case Absent(next) =>
          AbsentMisses(job, ms[0], acc, next);
          at := next.(lastAbsent := Some(ms[0]));
        case Ended(_) =>
      }
    }
  }

  lemma VisitIgnoresMode(job: Job, m: Member, acc: Acc)
    ensures Visit(Racing(job), m, acc) == Visit(job, m, acc) == Visit(Walking(job), m, acc)
    ensures !m.quotaExceeded ==>
              (CallMember(job, m, acc).Absent? <==> Answered(m.answer) && HardAbsent(m.answer))
  {
  }

  // ---------------------------------------------------------------------------
  // The refinement

  lemma FinishObserved(acc: Acc)
    requires Knows(acc) && Failures(acc.attempts) != {}
    ensures Observe(Finish(acc)) == Failed(AggregateKind(Failures(acc.attempts)))
  {
  }

  /** Next to an absence, any failure that is not one makes the verdict inconclusive. */
  lemma FailureNextToAbsence(job: Job, m: Member, fs: set<Outcome>)
    requires Reliable(job, m) && HardAbsence in fs && Cancellation !in fs && Failures(m.answer.attempts) <= fs
    requires Soft(m.answer) || Breaks(job, m.answer)
    ensures AggregateKind(fs) == Inconclusive
  {
    LastEvidence(job.req, m.provider, m.answer);
    KindOfMixed(fs, HardAbsence, Expected(job.req, m.provider, m.answer));
  }

  lemma DeliveredObserved(job: Job, m: Member, attempts: seq<Evidence>)
    requires Reliable(job, m) && Failures(m.answer.attempts) <= Failures(attempts)
    requires HardAbsence in Failures(attempts) && Cancellation !in Failures(attempts)
    requires Serves(m.answer) || Soft(m.answer) || Breaks(job, m.answer)
    ensures Observe(Response(m.answer.code, m.answer.err, attempts, m.provider.id)) ==
            if Serves(m.answer) then Served(m.provider.id, m.answer.code) else Failed(Inconclusive)
  {
    if !Serves(m.answer) { FailureNextToAbsence(job, m, Failures(attempts)); }
  }

  /** What a round that begins after an absence shows, if it is the last one. */
  ghost function Expectation(job: Job, ms: seq<Member>, fs: set<Outcome>): Seen {
    match FirstStop(job, ms)
    case None => Failed(AggregateKind(fs + AllMarks(ms)))
    case Some(m) => if Serves(m.answer) then Served(m.provider.id, m.answer.code) else Failed(Inconclusive)
  }

  lemma {:induction false} FirstStopIsMember(job: Job, ms: seq<Member>)
    ensures FirstStop(job, ms).Some? ==> FirstStop(job, ms).value in ms && Stops(job, FirstStop(job, ms).value)
  {
    if ms == [] || Stops(job, ms[0]) {
    } else {
      FirstStopIsMember(job, ms[1..]);
    }
  }

  lemma SummaryObserved(job: Job, ms: seq<Member>, acc: Acc, phase: Phase)
    requires AllReliable(job, ms) && Missed(acc) && Summarises(job, ms, acc, phase)
    ensures Observe(Settle(job, phase).resp) == Expectation(job, ms, Failures(acc.attempts))
  {
    FirstStopIsMember(job, ms);
    match FirstStop(job, ms)
    case None => FinishObserved(phase.acc);
    case Some(m) => DeliveredObserved(job, m, phase.attempts);
  }

  lemma {:induction false} ModeFree(job: Job, ms: seq<Member>)
    ensures FirstStop(Racing(job), ms) == FirstStop(job, ms) == FirstStop(Walking(job), ms)
    ensures Settled(job, ms) ==> Settled(Racing(job), ms) && Settled(Walking(job), ms)
  {
    if ms == [] {
    } else {
      ModeFree(job, ms[1..]);
    }
  }

  lemma {:induction false} MarksNeverCancel(job: Job, ms: seq<Member>)
    requires AllReliable(job, ms)
    ensures Cancellation !in AllMarks(ms)
  {
    if ms == [] {
    } else {
      MarksNeverCancel(job, ms[1..]);
    }
  }

  lemma {:induction false} MarksOfMember(ms: seq<Member>, m: Member)
    requires m in ms
    ensures Marks(m) <= AllMarks(ms)
  {
    if m != ms[0] { MarksOfMember(ms[1..], m); }
  }

  /** A lonely soft reply neither stops a walk nor leaves it anything but inconclusive. */
  lemma LonelyFacts(job: Job, ms: seq<Member>, fs: set<Outcome>)
    requires Settled(job, ms) && Lonely(ms) && HardAbsence in fs && Cancellation !in fs
    ensures FirstStop(job, ms) == None
    ensures Reliable(job, Eligible(ms)[0])
    ensures forall more :: Cancellation !in more ==> AggregateKind(fs + AllMarks(ms) + more) == Inconclusive
  {
    var m := Eligible(ms)[0];
    EligibleSuffices(job, ms);
    assert Eligible(ms) == [m];
    assert FirstStop(job, [m]) == if Stops(job, m) then Some(m) else FirstStop(job, [m][1..]);
    MarksOfMember(Eligible(ms), m);
    MarksNeverCancel(job, ms);
    forall more | Cancellation !in more ensures AggregateKind(fs + AllMarks(ms) + more) == Inconclusive {
      FailureNextToAbsence(job, m, fs + AllMarks(ms) + more);
    }
  }

  lemma LonelyRace(job: Job, ms: seq<Member>, acc: Acc)
    requires Settled(job, ms) && Lonely(ms) && Missed(acc)
    ensures Race(job, ms, acc).Delivered?
    ensures Observe(Settle(job, Race(job, ms, acc)).resp) == Failed(Inconclusive)
  {
    var m := Eligible(ms)[0];
    LonelyFacts(job, ms, {HardAbsence});
    FilterSummary(job, ms, acc);
    EligibleSuffices(job, ms);
    var attempts := FilterQuota(job, ms, acc).attempts + m.answer.attempts;
    FailuresConcat(FilterQuota(job, ms, acc).attempts, m.answer.attempts);
    DeliveredObserved(job, m, attempts);
  }

  /** One-by-one failover after an absence, over the remaining mains and the backups. */
  ghost function Overall(job: Job, rest: seq<Member>, backups: seq<Member>, fs: set<Outcome>): Seen {
    if FirstStop(job, rest).Some? then Expectation(job, rest, fs)
    else Expectation(job, backups, fs + AllMarks(rest))
  }

  lemma WalkingObserved(job: Job, rest: seq<Member>, backups: seq<Member>, acc: Acc)
    requires AllReliable(job, rest) && AllReliable(job, backups) && Missed(acc) && !job.raceable
    ensures Observe(Settle(job, AfterMains(job, backups, Walk(job, rest, acc))).resp)
            == Overall(job, rest, backups, Failures(acc.attempts))
  {
    WalkSummary(job, rest, acc);
    var phase := Walk(job, rest, acc);
    if phase.Through? {
      MarksNeverCancel(job, rest);
      WalkSummary(job, backups, phase.acc);
      SummaryObserved(job, backups, phase.acc, Walk(job, backups, phase.acc));
    } else {
      SummaryObserved(job, rest, acc, phase);
    }
  }

  lemma RacingObserved(job: Job, rest: seq<Member>, backups: seq<Member>, acc: Acc)
    requires Settled(job, rest) && Settled(job, backups) && Missed(acc) && job.raceable
    ensures Observe(Settle(job, AfterMains(job, backups, Race(job, rest, acc))).resp)
            == if Lonely(rest) then Failed(Inconclusive) else Overall(job, rest, backups, Failures(acc.attempts))
  {
    if Lonely(rest) {
      LonelyRace(job, rest, acc);
    } else {
      RaceSummary(job, rest, acc);
      var phase := Race(job, rest, acc);
      if phase.Through? {
        MarksNeverCancel(job, rest);
        if Lonely(backups) {
          LonelyRace(job, backups, phase.acc);
          LonelyFacts(job, backups, Failures(phase.acc.attempts));
          assert Failures(phase.acc.attempts) + AllMarks(backups) + {}
                 == Failures(phase.acc.attempts) + AllMarks(backups);
        } else {
          RaceSummary(job, backups, phase.acc);
          SummaryObserved(job, backups, phase.acc, Race(job, backups, phase.acc));
        }
      } else {
        SummaryObserved(job, rest, acc, phase);
      }
    }
  }

  /** The race of the remaining mains has one eligible provider, its reply is a failure
      code that is neither absence nor 502, and the backups would have served the request. */
  predicate Shadowed(job: Job, mains: seq<Member>, backups: seq<Member>) {
    && AfterFirstAbsence(job, mains).Some?
    && Lonely(AfterFirstAbsence(job, mains).value)
    && FirstStop(job, backups).Some?
    && Serves(FirstStop(job, backups).value.answer)
  }

  /** With answers fixed and each STAT agreeing with its command, racing and walking show
      the caller the same thing, the same provider's response or the same kind of failure,
      exactly when no lone candidate's failure shadows a backup. */
  lemma RaceRefinesWalkUnlessShadowed(job: Job, mains: seq<Member>, backups: seq<Member>)
    requires Settled(job, mains) && Settled(job, backups)
    ensures Observe(Send(Racing(job), mains, backups).resp) == Observe(Send(Walking(job), mains, backups).resp)
            <==> !Shadowed(job, mains, backups)
  {
    var at := ModesPart(job, mains, NOTHING);
    WalkingMainsAreWalks(job, mains, NOTHING);
    match AfterFirstAbsence(job, mains)
    case None =>
      var phase := Mains(Racing(job), mains, NOTHING);
      if phase.Through? { WalkIgnoresMode(job, backups, phase.acc); }
      SettleIgnoresMode(job, AfterMains(Racing(job), backups, phase));
    case Some(rest) =>
      RestIsSettled(job, mains);
      PartedModes(job, rest, backups, at);
  }

  lemma PartedModes(job: Job, rest: seq<Member>, backups: seq<Member>, at: Acc)
    requires Settled(job, rest) && Settled(job, backups) && Missed(at)
    ensures Observe(Settle(Racing(job), AfterMains(Racing(job), backups, Race(Racing(job), rest, at))).resp)
            == Observe(Settle(Walking(job), AfterMains(Walking(job), backups, Walk(Walking(job), rest, at))).resp)
            <==> !(Lonely(rest) && FirstStop(job, backups).Some? && Serves(FirstStop(job, backups).value.answer))
  {
    ModeFree(job, rest);
    ModeFree(job, backups);
    var fs := Failures(at.attempts);
    RacingObserved(Racing(job), rest, backups, at);
    WalkingObserved(Walking(job), rest, backups, at);
    assert Overall(Racing(job), rest, backups, fs) == Overall(Walking(job), rest, backups, fs);
    if Lonely(rest) {
      LonelyFacts(job, rest, fs);
      MarksNeverCancel(job, backups);
      assert AggregateKind(fs + AllMarks(rest) + AllMarks(backups)) == Inconclusive;
    }
  }

  lemma {:induction false} RestIsSettled(job: Job, ms: seq<Member>)
    requires Settled(job, ms)
    ensures AfterFirstAbsence(job, ms).Some? ==> Settled(job, AfterFirstAbsence(job, ms).value)
  {
    if ms == [] {
    } else {
      RestIsSettled(job, ms[1..]);
    }
  }

  lemma {:induction false} WalkIgnoresMode(job: Job, ms: seq<Member>, acc: Acc)
    ensures Walk(Racing(job), ms, acc) == Walk(Walking(job), ms, acc)
  {
    if ms == [] {
    } else {
      VisitIgnoresMode(job, ms[0], acc);
      match Visit(job, ms[0], acc)
      case Moved(next) => WalkIgnoresMode(job, ms[1..], next);
      case Absent(next) => WalkIgnoresMode(job, ms[1..], next.(lastAbsent := Some(ms[0])));
      case Ended(_) =>
    }
  }

  lemma SettleIgnoresMode(job: Job, phase: Phase)
    ensures Settle(Racing(job), phase) == Settle(Walking(job), phase)
  {
  }

  /** Such a case exists: one main answers 430, the only other one 400, and a backup has
      the article. Racing reports a failure where walking serves it. */
  lemma ARaceCanShadowABackup()
    ensures var job := Job(Request(Body, false), true, Canceled);
            var mains, backups := [Voice("a", 430, 430), Voice("b", 400, 400)], [Voice("c", 222, 223)];
            && Shadowed(job, mains, backups)
            && Settled(job, mains) && Settled(job, backups)
            && Observe(Send(Racing(job), mains, backups).resp) != Observe(Send(Walking(job), mains, backups).resp)
  {
    var job := Job(Request(Body, false), true, Canceled);
    var a, b, c := Voice("a", 430, 430), Voice("b", 400, 400), Voice("c", 222, 223);
    ShadowedTrio(job, a, b, c);
    TrioIsSettled(job);
    RaceRefinesWalkUnlessShadowed(job, [a, b], [c]);
  }

  lemma TrioIsSettled(job: Job)
    requires job.req == Request(Body, false)
    ensures Settled(job, [Voice("a", 430, 430), Voice("b", 400, 400)]) && Settled(job, [Voice("c", 222, 223)])
  {
    VoiceIsReliable(job, "a", 430, 430);
    VoiceIsReliable(job, "b", 400, 400);
    VoiceIsReliable(job, "c", 222, 223);
  }

  lemma ShadowedTrio(job: Job, a: Member, b: Member, c: Member)
    requires !a.quotaExceeded && !b.quotaExceeded && !c.quotaExceeded
    requires Answered(a.answer) && HardAbsent(a.answer) && Soft(b.answer) && Serves(c.answer)
    ensures Shadowed(job, [a, b], [c])
  {
    assert [a, b][1..] == [b] && [b][1..] == [];
    assert Eligible([b]) == [b] + Eligible([]);
    assert AfterFirstAbsence(job, [a, b]) == Some([b]);
    assert FirstStop(job, [c]) == Some(c);
  }

  lemma VoiceIsReliable(job: Job, id: string, code: int, probe: int)
    requires job.req == Request(Body, false) && code > 0 && probe > 0
    ensures var m := Voice(id, code, probe);
            Reliable(job, m) && !m.quotaExceeded
            && (code == probe && !(200 <= code < 400) ==> Agrees(job, m))
            && (200 <= code < 400 && probe == 223 ==> Agrees(job, m))
  {
    VoiceEvidence(id, code, probe);
  }

  // ---------------------------------------------------------------------------
  // Absence is also reported whenever it is warranted

  /** The member misses the article on the command and on the probe, and reports nothing else. */
  ghost predicate Misses(m: Member) {
    && !m.quotaExceeded
    && Answered(m.answer) && HardAbsent(m.answer) && Failures(m.answer.attempts) == {HardAbsence}
    && !Confirms(m.probe) && Failures(m.probe.attempts) == {HardAbsence}
  }

  lemma {:induction false} MissesNeverStop(job: Job, ms: seq<Member>)
    requires forall i :: 0 <= i < |ms| ==> Misses(ms[i])
    ensures FirstStop(job, ms) == None && AllMarks(ms) <= {HardAbsence} && !Lonely(ms)
    ensures Eligible(ms) == ms
  {
    if ms == [] {
    } else {
      assert Misses(ms[0]);
      MissesNeverStop(job, ms[1..]);
    }
  }

  /** If every provider misses the article, that is what the caller is told, raced or not. */
  lemma AbsenceIsComplete(job: Job, mains: seq<Member>, backups: seq<Member>)
    requires mains != [] && AllReliable(job, mains) && AllReliable(job, backups)
    requires forall i :: 0 <= i < |mains| ==> Misses(mains[i])
    requires forall i :: 0 <= i < |backups| ==> Misses(backups[i])
    ensures Observe(Send(job, mains, backups).resp) == Failed(HardAbsence)
  {
    var rest := mains[1..];
    assert Misses(mains[0]);
    var at := FirstMiss(job, mains);
    MissesOverall(job, rest, backups);
    if job.raceable {
      MissesAgree(job, rest);
      MissesAgree(job, backups);
      RacingObserved(job, rest, backups, at);
    } else {
      WalkingObserved(job, rest, backups, at);
    }
  }

  lemma MissesAgree(job: Job, ms: seq<Member>)
    requires AllReliable(job, ms) && (forall i :: 0 <= i < |ms| ==> Misses(ms[i]))
    ensures Settled(job, ms)
  {
    forall i | 0 <= i < |ms| ensures Agrees(job, ms[i]) { assert Misses(ms[i]); }
  }

  lemma MissesOverall(job: Job, rest: seq<Member>, backups: seq<Member>)
    requires forall i :: 0 <= i < |rest| ==> Misses(rest[i])
    requires forall i :: 0 <= i < |backups| ==> Misses(backups[i])
    ensures Overall(job, rest, backups, {HardAbsence}) == Failed(HardAbsence) && !Lonely(rest)
  {
    MissesNeverStop(job, rest);
    MissesNeverStop(job, backups);
    KindOfSingleton(HardAbsence);
    assert {HardAbsence} + AllMarks(rest) + AllMarks(backups) == {HardAbsence};
  }

  lemma FirstMiss(job: Job, mains: seq<Member>) returns (at: Acc)
    requires mains != [] && Reliable(job, mains[0]) && Misses(mains[0])
    ensures Missed(at) && Failures(at.attempts) == {HardAbsence}
    ensures Mains(job, mains, NOTHING) == if job.raceable then Race(job, mains[1..], at) else Walk(job, mains[1..], at)
  {
    CallSummary(job, mains[0], NOTHING);
    VisitIgnoresMode(job, mains[0], NOTHING);
    at := CallMember(job, mains[0], NOTHING).acc.(lastAbsent := Some(mains[0]));
    if !job.raceable {
      assert Walking(job) == job;
      WalkingMainsAreWalks(job, mains[1..], at);
    }
  }
}
