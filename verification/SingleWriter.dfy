/**
 * A caller-supplied writer receives decoded bytes from at most one attempt, across
 * same-provider retries, probe winners, mains and backups: exactly when it receives more.
 */
module SingleWriter {
  import opened Basics
  import opened Attempts
  import opened Failover

  /** The attempts of one contact that wrote to the caller's writer. Probes have no writer. */
  function ContactWrites(x: Contact): nat { if x.Called? then x.member.answer.writes else 0 }

  /** All attempts of a request that wrote to the caller's writer. */
  function Writes(trail: seq<Contact>): nat {
    if trail == [] then 0 else Writes(trail[..|trail| - 1]) + ContactWrites(trail[|trail| - 1])
  }

  predicate Wrote(x: Contact) { ContactWrites(x) > 0 }

  /** The call wrote and came back without a response although nobody cancelled it: the
      provider was removed, or its response channel closed empty. */
  predicate Abandoned(x: Contact) { Wrote(x) && !x.member.answer.ok && !x.member.answer.cancelled }

  /** Every call that wrote was abandoned. */
  ghost predicate Clean(trail: seq<Contact>) {
    forall x :: x in trail && Wrote(x) ==> Abandoned(x)
  }

  /** Every call that wrote was abandoned, except the last. */
  ghost predicate Sealed(trail: seq<Contact>) {
    trail == [] || Clean(trail[..|trail| - 1])
  }

  ghost predicate RoundOk(phase: Phase) {
    if phase.Through? then Clean(phase.acc.trail) else Sealed(TrailOf(phase))
  }

  lemma CleanSnoc(trail: seq<Contact>, x: Contact)
    requires Clean(trail)
    ensures Sealed(trail + [x]) && ((Wrote(x) ==> Abandoned(x)) ==> Clean(trail + [x]))
  {
    assert (trail + [x])[..|trail|] == trail;
  }

  lemma CleanIsSealed(trail: seq<Contact>)
    requires Clean(trail)
    ensures Sealed(trail)
  {
  }

  lemma CallSeals(job: Job, m: Member, acc: Acc)
    requires job.req.writer && BothMeet(job, m) && Clean(acc.trail)
    ensures match CallMember(job, m, acc)
            case Moved(next) => Clean(next.trail)
            case Absent(next) => Clean(next.trail)
            case Ended(phase) => !phase.Through? && RoundOk(phase)
  {
    CleanSnoc(acc.trail, Called(m));
  }

  lemma SkipSeals(job: Job, m: Member, acc: Acc)
    requires Clean(acc.trail)
    ensures Clean(SkipOverQuota(job, m, acc).trail)
  {
    CleanSnoc(acc.trail, Passed(m));
  }

  lemma VisitSeals(job: Job, m: Member, acc: Acc)
    requires job.req.writer && BothMeet(job, m) && Clean(acc.trail)
    ensures match Visit(job, m, acc)
            case Moved(next) => Clean(next.trail)
            case Absent(next) => Clean(next.trail)
            case Ended(phase) => !phase.Through? && RoundOk(phase)
  {
    if m.quotaExceeded { SkipSeals(job, m, acc); } else { CallSeals(job, m, acc); }
  }

  lemma {:induction false} WalkSeals(job: Job, ms: seq<Member>, acc: Acc)
    requires job.req.writer && AllMeet(job, ms) && Clean(acc.trail)
    ensures RoundOk(Walk(job, ms, acc))
  {
    if ms == [] {
    } else {
      VisitSeals(job, ms[0], acc);
      match Visit(job, ms[0], acc)
      case Moved(next) => WalkSeals(job, ms[1..], next);
      case Absent(next) => WalkSeals(job, ms[1..], next.(lastAbsent := Some(ms[0])));
      case Ended(_) =>
    }
  }

  lemma {:induction false} WinnersSeal(job: Job, ms: seq<Member>, acc: Acc)
    requires job.req.writer && AllMeet(job, ms) && Clean(acc.trail)
    ensures RoundOk(Winners(job, ms, acc))
  {
    if ms == [] {
    } else {
      CallSeals(job, ms[0], acc);
      match CallMember(job, ms[0], acc)
      case Moved(next) => WinnersSeal(job, ms[1..], next);
      case Absent(next) => WinnersSeal(job, ms[1..], next);
      case Ended(_) =>
    }
  }

  lemma {:induction false} FilterSeals(job: Job, ms: seq<Member>, acc: Acc)
    requires Clean(acc.trail)
    ensures Clean(FilterQuota(job, ms, acc).trail)
  {
    if ms == [] {
    } else if ms[0].quotaExceeded {
      SkipSeals(job, ms[0], acc);
      FilterSeals(job, ms[1..], SkipOverQuota(job, ms[0], acc));
    } else {
      FilterSeals(job, ms[1..], acc);
    }
  }

  lemma {:induction false} ProbesSeal(job: Job, ms: seq<Member>, s: Probed)
    requires AllMeet(job, ms) && AllMeet(job, s.winners) && Clean(s.acc.trail)
    ensures Clean(ReadProbes(ms, s).acc.trail) && AllMeet(job, ReadProbes(ms, s).winners)
  {
    if ms == [] {
    } else {
      CleanSnoc(s.acc.trail, Asked(ms[0]));
      ProbesSeal(job, ms[1..], ReadProbe(ms[0], s));
    }
  }

  lemma RaceSeals(job: Job, ms: seq<Member>, acc: Acc)
    requires job.req.writer && AllMeet(job, ms) && Clean(acc.trail)
    ensures RoundOk(Race(job, ms, acc))
  {
    var live, filtered := Eligible(ms), FilterQuota(job, ms, acc);
    FilterSeals(job, ms, acc);
    FilterAmong(job, ms, NOTHING, ms);
    MeetWithin(job, live, ms);
    if |live| == 1 {
      CallSeals(job, live[0], filtered);
      CleanSnoc(filtered.trail, Called(live[0]));
    } else if |live| > 1 {
      var s := ReadProbes(live, Probed(filtered, [], false));
      ProbesSeal(job, live, Probed(filtered, [], false));
      CleanIsSealed(s.acc.trail);
      WinnersSeal(job, s.winners, s.acc);
    }
  }

  lemma {:induction false} MainsSeal(job: Job, ms: seq<Member>, acc: Acc)
    requires job.req.writer && AllMeet(job, ms) && Clean(acc.trail)
    ensures RoundOk(Mains(job, ms, acc))
  {
    if ms == [] {
    } else {
      VisitSeals(job, ms[0], acc);
      match Visit(job, ms[0], acc)
      case Moved(next) => MainsSeal(job, ms[1..], next);
      case Absent(next) =>
        var missed := next.(lastAbsent := Some(ms[0]));
        if job.raceable { RaceSeals(job, ms[1..], missed); } else { MainsSeal(job, ms[1..], missed); }
      case Ended(_) =>
    }
  }

  lemma {:induction false} SendSeals(job: Job, mains: seq<Member>, backups: seq<Member>)
    requires job.req.writer && AllMeet(job, mains) && AllMeet(job, backups)
    ensures Sealed(Send(job, mains, backups).trail)
  {
    if mains == [] {
    } else {
      MainsSeal(job, mains, NOTHING);
      var phase := Mains(job, mains, NOTHING);
      if phase.Through? {
        RaceSeals(job, backups, phase.acc);
        WalkSeals(job, backups, phase.acc);
        CleanIsSealed(phase.acc.trail);
        var last := Backups(job, backups, phase.acc);
        if last.Through? { CleanIsSealed(last.acc.trail); }
      }
    }
  }

  // ---------------------------------------------------------------------------
  // Counting

  /** An abandoned call that wrote, and a later call that wrote. */
  ghost predicate WritesAgain(trail: seq<Contact>) {
    exists i, j :: 0 <= i < j < |trail| && Abandoned(trail[i]) && Wrote(trail[j])
  }

  ghost predicate EachAtMostOnce(trail: seq<Contact>) {
    forall x :: x in trail ==> ContactWrites(x) <= 1
  }

  /** The first call that wrote, if any. */
  lemma {:induction false} SomeWrite(trail: seq<Contact>)
    ensures Writes(trail) > 0 <==> exists i :: 0 <= i < |trail| && Wrote(trail[i])
  {
    if trail == [] {
    } else {
      var init := trail[..|trail| - 1];
      SomeWrite(init);
      assert forall i :: 0 <= i < |init| ==> init[i] == trail[i];
      if exists i :: 0 <= i < |trail| && Wrote(trail[i]) {
        var i :| 0 <= i < |trail| && Wrote(trail[i]);
        if i < |init| { assert Wrote(init[i]); }
      }
    }
  }

  lemma {:induction false} CountsWrites(trail: seq<Contact>)
    requires EachAtMostOnce(trail)
    ensures Writes(trail) >= 2 <==> exists i, j :: 0 <= i < j < |trail| && Wrote(trail[i]) && Wrote(trail[j])
  {
    if trail == [] {
    } else {
      var init, last := trail[..|trail| - 1], trail[|trail| - 1];
      assert last in trail && forall x :: x in init ==> x in trail;
      CountsWrites(init);
      SomeWrite(init);
      assert forall i :: 0 <= i < |init| ==> init[i] == trail[i];
      if exists i, j :: 0 <= i < j < |trail| && Wrote(trail[i]) && Wrote(trail[j]) {
        var i, j :| 0 <= i < j < |trail| && Wrote(trail[i]) && Wrote(trail[j]);
        assert Wrote(init[i]);
        if j < |init| { assert Wrote(init[j]); }
      }
    }
  }

  /** The writer of a request receives bytes from two attempts or more, over all retries,
      winners, mains and backups, if and only if a call that wrote came back without a
      response, uncancelled, and a later call wrote too. */
  lemma {:induction false} AtMostOneWriter(job: Job, mains: seq<Member>, backups: seq<Member>)
    requires job.req.writer && AllMeet(job, mains + backups)
    ensures Writes(Send(job, mains, backups).trail) >= 2 <==> WritesAgain(Send(job, mains, backups).trail)
  {
    var trail := Send(job, mains, backups).trail;
    assert forall i :: 0 <= i < |mains| ==> (mains + backups)[i] == mains[i];
    assert forall i :: 0 <= i < |backups| ==> (mains + backups)[|mains| + i] == backups[i];
    SendSeals(job, mains, backups);
    SendContactsMembers(job, mains, backups);
    forall x | x in trail ensures ContactWrites(x) <= 1 {
      var i :| 0 <= i < |mains + backups| && (mains + backups)[i] == x.member;
      assert BothMeet(job, x.member);
    }
    CountsWrites(trail);
    SealedPairs(trail);
  }

  lemma SealedPairs(trail: seq<Contact>)
    requires Sealed(trail)
    ensures (exists i, j :: 0 <= i < j < |trail| && Wrote(trail[i]) && Wrote(trail[j])) <==> WritesAgain(trail)
  {
    if i, j :| 0 <= i < j < |trail| && Wrote(trail[i]) && Wrote(trail[j]) {
      assert trail[..|trail| - 1][i] == trail[i];
      assert Abandoned(trail[i]) && Wrote(trail[j]);
    }
  }
}
