/**
 * Where the evidence of a response comes from: it is what the contacted providers said, in
 * the order of the contacts, nothing lost and nothing added; and what that means for an
 * absence concluded from 451 replies.
 */
module Testimony {
  import opened Basics
  import opened Errors
  import opened Attempts
  import opened Failover
  import opened Absence

  /** The evidence one contact gave. */
  function Said(job: Job, x: Contact): seq<Evidence> {
    match x
    case Passed(m) => [QuotaEvidence(job, m)]
    case Asked(m) => m.probe.attempts
    case Called(m) => m.answer.attempts
  }

  function AllSaid(job: Job, trail: seq<Contact>): seq<Evidence> {
    if trail == [] then [] else AllSaid(job, trail[..|trail| - 1]) + Said(job, trail[|trail| - 1])
  }

  predicate CutOff(x: Contact) {
    match x
    case Passed(_) => false
    case Asked(m) => m.probe.cancelled
    case Called(m) => m.answer.cancelled
  }

  /** A call that came back without a response although nobody cancelled it. */
  predicate Unanswered(x: Contact) { x.Called? && !x.member.answer.ok && !x.member.answer.cancelled }

  ghost predicate AllUnanswered(trail: seq<Contact>) { forall x :: x in trail ==> Unanswered(x) }

  // ---------------------------------------------------------------------------
  // Conservation

  /** The evidence is what was said, and nobody was cancelled. */
  ghost predicate Tells(job: Job, attempts: seq<Evidence>, trail: seq<Contact>) {
    attempts == AllSaid(job, trail) && forall x :: x in trail ==> !CutOff(x)
  }

  /** There is an error or an absence to report. */
  predicate Notes(acc: Acc) { acc.lastErr.Some? || acc.lastAbsent.Some? }

  ghost predicate Kept(job: Job, acc: Acc) {
    Tells(job, acc.attempts, acc.trail) && (Notes(acc) <==> !AllUnanswered(acc.trail))
  }

  /** What a phase that may be over has gathered. */
  ghost predicate PhaseKept(job: Job, phase: Phase) {
    match phase
    case Through(acc) => Kept(job, acc)
    case Delivered(_, attempts, trail) => attempts == AllSaid(job, trail) && !AllUnanswered(trail)
    case Interrupted(attempts, trail) => attempts == AllSaid(job, trail) && !AllUnanswered(trail)
  }

  lemma SaidSnoc(job: Job, trail: seq<Contact>, x: Contact)
    ensures AllSaid(job, trail + [x]) == AllSaid(job, trail) + Said(job, x)
  {
    assert (trail + [x])[..|trail|] == trail;
  }

  /** One more contact and what it said. */
  lemma OneMore(job: Job, attempts: seq<Evidence>, trail: seq<Contact>, x: Contact)
    requires attempts == AllSaid(job, trail)
    ensures attempts + Said(job, x) == AllSaid(job, trail + [x])
    ensures Tells(job, attempts, trail) && !CutOff(x) ==> Tells(job, attempts + Said(job, x), trail + [x])
    ensures AllUnanswered(trail + [x]) <==> AllUnanswered(trail) && Unanswered(x)
  {
    SaidSnoc(job, trail, x);
    assert forall y :: y in trail + [x] <==> y in trail || y == x;
  }

  /** One more contact with what it said, and with a note unless it went unanswered. */
  ghost predicate Adds(job: Job, acc: Acc, x: Contact, next: Acc) {
    && next.attempts == acc.attempts + Said(job, x) && next.trail == acc.trail + [x] && !CutOff(x)
    && (Notes(next) <==> Notes(acc) || !Unanswered(x))
  }

  lemma AddsKeeps(job: Job, acc: Acc, x: Contact, next: Acc)
    requires Kept(job, acc) && Adds(job, acc, x, next)
    ensures Kept(job, next)
  {
    OneMore(job, acc.attempts, acc.trail, x);
  }

  /** A phase that ended with this contact. */
  ghost predicate EndsWith(job: Job, acc: Acc, x: Contact, phase: Phase) {
    match phase
    case Through(_) => false
    case Delivered(_, attempts, trail) =>
      attempts == acc.attempts + Said(job, x) && trail == acc.trail + [x] && !Unanswered(x)
    case Interrupted(attempts, trail) =>
      attempts == acc.attempts + Said(job, x) && trail == acc.trail + [x] && !Unanswered(x)
  }

  lemma EndKeeps(job: Job, acc: Acc, x: Contact, phase: Phase)
    requires Kept(job, acc) && EndsWith(job, acc, x, phase)
    ensures PhaseKept(job, phase)
  {
    OneMore(job, acc.attempts, acc.trail, x);
  }

  lemma CallAdds(job: Job, m: Member, acc: Acc)
    ensures match CallMember(job, m, acc)
            case Moved(next) => Adds(job, acc, Called(m), next) && next.lastAbsent == acc.lastAbsent
            case Absent(next) =>
              && Adds(job, acc, Called(m), next.(lastAbsent := Some(m))) && next.lastAbsent == acc.lastAbsent
              && (acc.lastAbsent.Some? ==> Adds(job, acc, Called(m), next))
            case Ended(phase) => EndsWith(job, acc, Called(m), phase)
  {
  }

  lemma CallKeeps(job: Job, m: Member, acc: Acc)
    requires Kept(job, acc)
    ensures match CallMember(job, m, acc)
            case Moved(next) => Kept(job, next) && next.lastAbsent == acc.lastAbsent
            case Absent(next) =>
              && Kept(job, next.(lastAbsent := Some(m)))
              && (acc.lastAbsent.Some? ==> Kept(job, next) && next.lastAbsent == acc.lastAbsent)
            case Ended(phase) => PhaseKept(job, phase)
  {
    CallAdds(job, m, acc);
    match CallMember(job, m, acc)
    case Moved(next) => AddsKeeps(job, acc, Called(m), next);
    case Absent(next) =>
      AddsKeeps(job, acc, Called(m), next.(lastAbsent := Some(m)));
      if acc.lastAbsent.Some? { AddsKeeps(job, acc, Called(m), next); }
    case Ended(phase) => EndKeeps(job, acc, Called(m), phase);
  }

  lemma SkipKeeps(job: Job, m: Member, acc: Acc)
    requires Kept(job, acc)
    ensures Kept(job, SkipOverQuota(job, m, acc))
  {
    AddsKeeps(job, acc, Passed(m), SkipOverQuota(job, m, acc));
  }

  lemma VisitKeeps(job: Job, m: Member, acc: Acc)
    requires Kept(job, acc)
    ensures match Visit(job, m, acc)
            case Moved(next) => Kept(job, next)
            case Absent(next) => Kept(job, next.(lastAbsent := Some(m)))
            case Ended(phase) => PhaseKept(job, phase)
  {
    if m.quotaExceeded { SkipKeeps(job, m, acc); } else { CallKeeps(job, m, acc); }
  }

  lemma {:induction false} WalkKeeps(job: Job, ms: seq<Member>, acc: Acc)
    requires Kept(job, acc)
    ensures PhaseKept(job, Walk(job, ms, acc))
  {
    if ms == [] {
    } else {
      VisitKeeps(job, ms[0], acc);
      match Visit(job, ms[0], acc)
      case Moved(next) => WalkKeeps(job, ms[1..], next);
      case Absent(next) => WalkKeeps(job, ms[1..], next.(lastAbsent := Some(ms[0])));
      case Ended(_) =>
    }
  }

  lemma {:induction false} WinnersKeep(job: Job, ms: seq<Member>, acc: Acc)
    requires Kept(job, acc) && acc.lastAbsent.Some?
    ensures PhaseKept(job, Winners(job, ms, acc))
  {
    if ms == [] {
    } else {
      CallKeeps(job, ms[0], acc);
      match CallMember(job, ms[0], acc)
      case Moved(next) => WinnersKeep(job, ms[1..], next);
      case Absent(next) => WinnersKeep(job, ms[1..], next);
      case Ended(_) =>
    }
  }

  lemma {:induction false} FilterKeeps(job: Job, ms: seq<Member>, acc: Acc)
    requires Kept(job, acc)
    ensures Kept(job, FilterQuota(job, ms, acc)) && FilterQuota(job, ms, acc).lastAbsent == acc.lastAbsent
  {
    if ms == [] {
    } else {
      SkipKeeps(job, ms[0], acc);
      FilterKeeps(job, ms[1..], if ms[0].quotaExceeded then SkipOverQuota(job, ms[0], acc) else acc);
    }
  }

  ghost predicate ProbesKept(job: Job, s: Probed) {
    && s.acc.attempts == AllSaid(job, s.acc.trail) && s.acc.lastAbsent.Some? && !AllUnanswered(s.acc.trail)
    && (!s.cancelled ==> Tells(job, s.acc.attempts, s.acc.trail))
  }

  lemma ProbeAdds(job: Job, m: Member, s: Probed)
    ensures var r := ReadProbe(m, s);
            && r.acc.attempts == s.acc.attempts + Said(job, Asked(m)) && r.acc.trail == s.acc.trail + [Asked(m)]
            && (r.cancelled <==> s.cancelled || CutOff(Asked(m))) && r.acc.lastAbsent == s.acc.lastAbsent
  {
  }

  lemma ProbeKeeps(job: Job, m: Member, s: Probed, r: Probed)
    requires ProbesKept(job, s)
    requires r.acc.attempts == s.acc.attempts + Said(job, Asked(m)) && r.acc.trail == s.acc.trail + [Asked(m)]
    requires (r.cancelled <==> s.cancelled || CutOff(Asked(m))) && r.acc.lastAbsent == s.acc.lastAbsent
    ensures ProbesKept(job, r)
  {
    OneMore(job, s.acc.attempts, s.acc.trail, Asked(m));
  }

  lemma {:induction false} ProbesKeep(job: Job, ms: seq<Member>, s: Probed)
    requires ProbesKept(job, s)
    ensures ProbesKept(job, ReadProbes(ms, s))
  {
    if ms == [] {
    } else {
      ProbeAdds(job, ms[0], s);
      ProbeKeeps(job, ms[0], s, ReadProbe(ms[0], s));
      ProbesKeep(job, ms[1..], ReadProbe(ms[0], s));
    }
  }

  lemma SingleKeeps(job: Job, m: Member, acc: Acc)
    requires Kept(job, acc) && acc.lastAbsent.Some?
    ensures PhaseKept(job, Single(job, m, acc))
  {
    if Soft(m.answer) {
      EndKeeps(job, acc, Called(m), Single(job, m, acc));
    } else {
      CallKeeps(job, m, acc);
    }
  }

  lemma RaceKeeps(job: Job, ms: seq<Member>, acc: Acc)
    requires Kept(job, acc) && acc.lastAbsent.Some?
    ensures PhaseKept(job, Race(job, ms, acc))
  {
    var live, filtered := Eligible(ms), FilterQuota(job, ms, acc);
    FilterKeeps(job, ms, acc);
    if |live| == 1 {
      SingleKeeps(job, live[0], filtered);
    } else if |live| > 1 {
      var s := ReadProbes(live, Probed(filtered, [], false));
      ProbesKeep(job, live, Probed(filtered, [], false));
      if !s.cancelled { WinnersKeep(job, s.winners, s.acc); }
    }
  }

  lemma {:induction false} MainsKeep(job: Job, ms: seq<Member>, acc: Acc)
    requires Kept(job, acc)
    ensures PhaseKept(job, Mains(job, ms, acc))
  {
    if ms == [] {
    } else {
      VisitKeeps(job, ms[0], acc);
      match Visit(job, ms[0], acc)
      case Moved(next) => MainsKeep(job, ms[1..], next);
      case Absent(next) =>
        var missed := next.(lastAbsent := Some(ms[0]));
        if job.raceable { RaceKeeps(job, ms[1..], missed); } else { MainsKeep(job, ms[1..], missed); }
      case Ended(_) =>
    }
  }

  lemma {:induction false} RoundsKeep(job: Job, mains: seq<Member>, backups: seq<Member>)
    ensures PhaseKept(job, AfterMains(job, backups, Mains(job, mains, NOTHING)))
  {
    MainsKeep(job, mains, NOTHING);
    var first := Mains(job, mains, NOTHING);
    if first.Through? {
      if job.raceable && first.acc.lastAbsent.Some? {
        RaceKeeps(job, backups, first.acc);
      } else {
        WalkKeeps(job, backups, first.acc);
      }
    }
  }

  /** Whatever the mode and the outcome, a response carries exactly what the contacted providers
      said, in the order of the contacts; unless all calls came back unanswered, when it carries
      nothing. */
  lemma {:induction false} EvidenceIsConserved(job: Job, mains: seq<Member>, backups: seq<Member>)
    ensures var sent := Send(job, mains, backups);
            sent.resp.attempts == if AllUnanswered(sent.trail) then [] else AllSaid(job, sent.trail)
  {
    RoundsKeep(job, mains, backups);
  }

  // ---------------------------------------------------------------------------
  // A provider's last word

  function LastBy(id: string, attempts: seq<Evidence>): Option<Evidence> {
    if attempts == [] then None
    else
      var e := attempts[|attempts| - 1];
      if e.provider == id then Some(e) else LastBy(id, attempts[..|attempts| - 1])
  }

  lemma {:induction false} LastByIsIn(id: string, attempts: seq<Evidence>)
    ensures LastBy(id, attempts).Some? ==> LastBy(id, attempts).value in attempts
    decreases |attempts|
  {
    if attempts == [] {
    } else {
      LastByIsIn(id, attempts[..|attempts| - 1]);
    }
  }

  lemma {:induction false} LastByConcat(id: string, a: seq<Evidence>, b: seq<Evidence>)
    ensures LastBy(id, a + b) == if LastBy(id, b).Some? then LastBy(id, b) else LastBy(id, a)
    decreases |b|
  {
    if b == [] {
      assert a + b == a;
    } else {
      assert (a + b)[..|a + b| - 1] == a + b[..|b| - 1];
      LastByConcat(id, a, b[..|b| - 1]);
    }
  }

  lemma {:induction false} LastByOwn(id: string, b: seq<Evidence>, owner: string)
    requires forall e :: e in b ==> e.provider == owner
    ensures LastBy(id, b) == if b == [] || owner != id then None else Some(b[|b| - 1])
    decreases |b|
  {
    if b == [] {
    } else {
      assert b[|b| - 1] in b;
      LastByOwn(id, b[..|b| - 1], owner);
    }
  }

  ghost predicate SpeaksForItself(job: Job, x: Contact) {
    forall e :: e in Said(job, x) ==> e.provider == x.member.provider.id && Genuine(e)
  }

  /** The contact a provider's last word comes from. */
  lemma {:induction false} LastSpeaker(job: Job, trail: seq<Contact>, id: string) returns (x: Contact)
    requires forall y :: y in trail ==> SpeaksForItself(job, y)
    requires LastBy(id, AllSaid(job, trail)).Some?
    ensures x in trail && x.member.provider.id == id && Said(job, x) != []
    ensures LastBy(id, AllSaid(job, trail)) == Some(Said(job, x)[|Said(job, x)| - 1])
    decreases |trail|
  {
    var init, last := trail[..|trail| - 1], trail[|trail| - 1];
    assert trail == init + [last] && SpeaksForItself(job, last);
    LastByConcat(id, AllSaid(job, init), Said(job, last));
    LastByOwn(id, Said(job, last), last.member.provider.id);
    if LastBy(id, Said(job, last)).Some? {
      x := last;
    } else {
      x := LastSpeaker(job, init, id);
    }
  }

  lemma ContactsSpeak(job: Job, mains: seq<Member>, backups: seq<Member>)
    requires AllMeet(job, mains + backups)
    ensures forall x :: x in Send(job, mains, backups).trail ==> SpeaksForItself(job, x)
  {
    SendContactsMembers(job, mains, backups);
    forall x | x in Send(job, mains, backups).trail ensures SpeaksForItself(job, x) {
      var i :| 0 <= i < |mains + backups| && (mains + backups)[i] == x.member;
      assert BothMeet(job, x.member);
    }
  }

  // ---------------------------------------------------------------------------
  // Absence concluded from 451

  /** Both answers of a member are ones its retry loop can give (CallConfirms451). */
  predicate BothConfirm(m: Member) { Confirmed451(m.answer) && Confirmed451(m.probe) }

  /** The contact was given a response, if only an error. */
  predicate Responded(x: Contact) {
    match x
    case Passed(_) => true
    case Asked(m) => m.probe.ok
    case Called(m) => m.answer.ok
  }

  /** This contact gave the provider's last word, which is a 451 taken for absence. */
  ghost predicate ConcludesBy451(job: Job, sent: Sent, id: string, x: Contact) {
    && x in sent.trail && x.member.provider.id == id && EndsIn451(Said(job, x))
    && LastBy(id, sent.resp.attempts) == Some(Said(job, x)[|Said(job, x)| - 1])
  }

  /** A reported absence came through all rounds, with nobody cancelled. */
  lemma {:induction false} AbsenceKeepsAll(job: Job, mains: seq<Member>, backups: seq<Member>)
    requires AllMeet(job, mains + backups) && DistinctIds(mains + backups)
    requires ReportsAbsence(Send(job, mains, backups).resp)
    ensures var sent := Send(job, mains, backups);
            sent.resp.attempts == AllSaid(job, sent.trail) && forall x :: x in sent.trail ==> !CutOff(x)
  {
    var phase := AfterMains(job, backups, Mains(job, mains, NOTHING));
    NoMainsIsNotAbsent(job, backups);
    AllCovered(job, mains, backups);
    AbsentRunsThrough(job, Ids(mains + backups), phase);
    RoundsKeep(job, mains, backups);
  }

  /** The first 451 alone never completes a provider's conclusion, exactly: if the last word of a
      provider in a reported absence is a 451, it was given by one call or probe, and that saw
      a second 451 if and only if it was given a response. */
  lemma {:induction false} Second451Concludes(job: Job, mains: seq<Member>, backups: seq<Member>, id: string)
    returns (x: Contact)
    requires AllMeet(job, mains + backups) && DistinctIds(mains + backups)
    requires forall m :: m in mains + backups ==> BothConfirm(m)
    requires ReportsAbsence(Send(job, mains, backups).resp)
    requires var e := LastBy(id, Send(job, mains, backups).resp.attempts); e.Some? && Is451(e.value)
    ensures ConcludesBy451(job, Send(job, mains, backups), id, x)
    ensures Second451(Said(job, x)) <==> Responded(x)
  {
    var sent := Send(job, mains, backups);
    AbsenceKeepsAll(job, mains, backups);
    ContactsSpeak(job, mains, backups);
    SendContactsMembers(job, mains, backups);
    AbsenceIsSound(job, mains, backups);
    x := LastSpeaker(job, sent.trail, id);
    var e := Said(job, x)[|Said(job, x)| - 1];
    assert e in Said(job, x);
    LastByIsIn(id, sent.resp.attempts);
    assert SpeaksForItself(job, x) && BothConfirm(x.member) && !CutOff(x);
    assert e.outcome == HardAbsence;
  }

  // ---------------------------------------------------------------------------
  // It happens

  /** The one provider is removed while it works: the response says nothing of it. */
  lemma ARemovalLosesEvidence(job: Job, m: Member)
    requires !m.quotaExceeded && m.answer == TryGroup(job.req, m.provider, false, Turn(0, GroupRemoved(false), false))
    ensures var sent := Send(job, [m], []);
            Called(m) in sent.trail && Said(job, Called(m)) != [] && sent.resp.attempts == []
  {
    assert [m][1..] == [];
    assert [] + [Called(m)] == [Called(m)];
    var acc := Acc([] + m.answer.attempts, None, None, [Called(m)]);
    assert Mains(job, [m], NOTHING) == Through(acc);
  }

  /** A provider that is to answer 451 twice answers it once; then the caller departs. */
  function CutShort(): seq<Turn> {
    [Turn(0, Reply(0, AtHead, 451, None, true, false), false), Turn(1, ClosedEmpty(false), false)]
  }

  lemma {:induction false} CutShortReturns(req: Request, p: Provider, script: seq<Turn>)
    requires Maps451(p.absentAfterRetry, req.op, 451) && script == CutShort()
    ensures var run := RetryFrom(req, p, script, Start(false));
            && run.Returned? && !run.answer.ok && !run.answer.cancelled
            && run.answer.attempts == [BuildEvidence(req.op, p.absentAfterRetry, p.id, 451, None, false)]
  {
    var first, second := script[0], script[1];
    var a := TryGroup(req, p, false, first);
    var now := Record(Start(false), first, a);
    assert now.attempts == a.attempts;
    var loop := Decide(req, p, now, first, a).loop;
    assert RetryFrom(req, p, script, Start(false)) == RetryFrom(req, p, script[1..], loop);
    assert script[1..][0] == second;
    assert Record(loop, second, TryGroup(req, p, true, second)).attempts == a.attempts;
  }

  lemma Mapped451Misses(op: Operation, id: string, attempts: seq<Evidence>)
    requires IsArticleOperation(op) && attempts == [BuildEvidence(op, true, id, 451, None, false)]
    ensures EndsIn451(attempts) && !Second451(attempts) && AllGenuine(attempts) && Failures(attempts) == {HardAbsence}
  {
    BuiltEvidenceUnambiguous(op, true, id, 451, None, false);
    FailuresSnoc([], attempts[0]);
    assert [] + [attempts[0]] == attempts;
  }

  /** The first 451 stands alone in a reported absence. */
  lemma AFirst451CanConclude(job: Job, script: seq<Turn>)
    requires !job.raceable && IsArticleOperation(job.req.op) && script == CutShort()
    ensures var p := Provider("b", true);
            var run := RetryFrom(job.req, p, script, Start(false));
            && run.Returned? && EndsIn451(run.answer.attempts) && !Second451(run.answer.attempts)
            && ReportsAbsence(Send(job, [Voice("a", 430, 430), Member(p, false, run.answer, run.answer)], []).resp)
  {
    var p := Provider("b", true);
    CutShortReturns(job.req, p, script);
    VoiceEvidence("a", 430, 430);
    var b := RetryFrom(job.req, p, script, Start(false)).answer;
    Mapped451Misses(job.req.op, "b", b.attempts);
    ClosedChannelHidesAProvider(job, Voice("a", 430, 430), Member(p, false, b, b));
  }
}
