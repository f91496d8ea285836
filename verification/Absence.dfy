/**
 * "Article absent" is not concluded from partial evidence: exactly when a reported absence
 * is every provider's last word, for all provider lists, raced or sequential.
 */
module Absence {
  import opened Basics
  import opened Errors
  import opened Attempts
  import opened Failover

  // ---------------------------------------------------------------------------
  // Who has spoken

  /** The class of a provider's latest attempt in the evidence. */
  function LastWord(id: string, attempts: seq<Evidence>): Option<Outcome> {
    if attempts == [] then None
    else
      var e := attempts[|attempts| - 1];
      if e.provider == id then Some(e.outcome) else LastWord(id, attempts[..|attempts| - 1])
  }

  /** A provider's last word is a failure. */
  predicate Heard(id: string, attempts: seq<Evidence>) {
    LastWord(id, attempts).Some? && LastWord(id, attempts) != Some(Success)
  }

  /** A contact that leaves the provider without a verdict: its response channel closed with
      no evidence at all, or a STAT answered with a success that is not 223. */
  predicate Mute(x: Contact) {
    match x
    case Passed(_) => false
    case Asked(m) => Vanished(m.probe) || (Answered(m.probe) && 200 <= m.probe.code < 400 && m.probe.code != 223)
    case Called(m) => Vanished(m.answer)
  }

  predicate Vanished(a: Answer) { !a.ok && a.attempts == [] }

  ghost predicate Silent(id: string, trail: seq<Contact>) {
    exists x :: x in trail && x.member.provider.id == id && Mute(x)
  }

  function Ids(ms: seq<Member>): set<string> {
    if ms == [] then {} else {ms[0].provider.id} + Ids(ms[1..])
  }

  /** No two providers have the same id; the client refuses a configuration in which two do. */
  predicate DistinctIds(ms: seq<Member>) {
    ms == [] || (ms[0].provider.id !in Ids(ms[1..]) && DistinctIds(ms[1..]))
  }

  /** The caller's test for absence: errors.Is(err, ErrArticleNotFound). */
  ghost predicate ReportsAbsence(r: Response) {
    ResponseError(r).Some? && IsNotFound(ResponseError(r).value)
  }

  ghost predicate AllGenuine(attempts: seq<Evidence>) {
    forall e :: e in attempts ==> Genuine(e)
  }

  lemma {:induction false} LastWordConcat(id: string, a: seq<Evidence>, b: seq<Evidence>)
    ensures LastWord(id, a + b) == if LastWord(id, b).Some? then LastWord(id, b) else LastWord(id, a)
    decreases |b|
  {
    if b == [] {
      assert a + b == a;
    } else {
      assert (a + b)[..|a + b| - 1] == a + b[..|b| - 1];
      LastWordConcat(id, a, b[..|b| - 1]);
    }
  }

  lemma {:induction false} LastWordOfOther(id: string, b: seq<Evidence>)
    requires forall e :: e in b ==> e.provider != id
    ensures LastWord(id, b) == None
    decreases |b|
  {
    if b == [] {
    } else {
      assert b[|b| - 1] in b;
      LastWordOfOther(id, b[..|b| - 1]);
    }
  }

  // ---------------------------------------------------------------------------
  // One contact

  /** These providers have been dealt with: their last word is a failure, or they were
      silent, and not both. */
  ghost predicate Covered(gone: set<string>, acc: Acc) {
    forall id :: id in gone ==> (Heard(id, acc.attempts) <==> !Silent(id, acc.trail))
  }

  /** Nothing but a confirming STAT is known of these providers. */
  ghost predicate Waits(rest: set<string>, acc: Acc) {
    forall id :: id in rest ==> !Heard(id, acc.attempts) && !Silent(id, acc.trail)
  }

  /** A contact with one provider, and the evidence it gave. */
  ghost predicate Contacts(acc: Acc, next: Acc, x: Contact, told: seq<Evidence>) {
    && next.attempts == acc.attempts + told && next.trail == acc.trail + [x]
    && forall e :: e in told ==> e.provider == x.member.provider.id
  }

  lemma SilentSnoc(id: string, trail: seq<Contact>, x: Contact)
    ensures Silent(id, trail + [x]) <==> Silent(id, trail) || (x.member.provider.id == id && Mute(x))
  {
    assert forall y :: y in trail + [x] <==> y in trail || y == x;
  }

  /** A contact changes what is known of its own provider only. */
  lemma OthersKept(acc: Acc, next: Acc, x: Contact, told: seq<Evidence>, id: string)
    requires Contacts(acc, next, x, told) && id != x.member.provider.id
    ensures Heard(id, next.attempts) == Heard(id, acc.attempts) && Silent(id, next.trail) == Silent(id, acc.trail)
  {
    LastWordOfOther(id, told);
    LastWordConcat(id, acc.attempts, told);
    SilentSnoc(id, acc.trail, x);
  }

  lemma OwnKnown(acc: Acc, next: Acc, x: Contact, told: seq<Evidence>)
    requires Contacts(acc, next, x, told) && Waits({x.member.provider.id}, acc)
    ensures var id := x.member.provider.id;
            && (Heard(id, next.attempts) <==> told != [] && told[|told| - 1].outcome != Success)
            && (Silent(id, next.trail) <==> Mute(x))
  {
    var id := x.member.provider.id;
    assert !Heard(id, acc.attempts) && !Silent(id, acc.trail);
    if told != [] { assert told[|told| - 1] in told; }
    LastWordConcat(id, acc.attempts, told);
    SilentSnoc(id, acc.trail, x);
  }

  lemma ContactKeeps(acc: Acc, next: Acc, x: Contact, told: seq<Evidence>, gone: set<string>, rest: set<string>)
    requires Contacts(acc, next, x, told) && Covered(gone, acc) && Waits(rest, acc)
    requires x.member.provider.id !in gone + rest
    ensures Covered(gone, next) && Waits(rest, next)
  {
    forall id | id in gone + rest
      ensures Heard(id, next.attempts) == Heard(id, acc.attempts) && Silent(id, next.trail) == Silent(id, acc.trail)
    {
      OthersKept(acc, next, x, told, id);
    }
  }

  /** A contact that ends with a failure, or with nothing at all, deals with its provider. */
  lemma ContactCovers(acc: Acc, next: Acc, x: Contact, told: seq<Evidence>, gone: set<string>, rest: set<string>)
    requires Contacts(acc, next, x, told) && Covered(gone, acc) && Waits(rest, acc)
    requires Waits({x.member.provider.id}, acc)
    requires x.member.provider.id !in gone + rest
    requires Mute(x) <==> (told == [] || told[|told| - 1].outcome == Success)
    ensures Covered(gone + {x.member.provider.id}, next) && Waits(rest, next)
  {
    ContactKeeps(acc, next, x, told, gone, rest);
    OwnKnown(acc, next, x, told);
  }

  // ---------------------------------------------------------------------------
  // The verdict

  /** What the engine remembers is backed by its evidence. */
  ghost predicate Sane(acc: Acc) {
    && AllGenuine(acc.attempts)
    && (acc.lastAbsent.Some? ==> HardAbsent(acc.lastAbsent.value.answer) && HardAbsence in Failures(acc.attempts))
    && (acc.lastErr.Some? && IsNotFound(acc.lastErr.value) ==> Failures(acc.attempts) != {})
  }

  /** An answer that neither served the request nor vanished ends with a failure, which is
      neither an absence nor a cancellation if bytes were written or the reply was soft. */
  lemma LastEvidence(req: Request, p: Provider, a: Answer)
    requires Meets(req, p, a) && !a.cancelled
    ensures !Serves(a) ==> (Vanished(a) <==> a.attempts == [] || a.attempts[|a.attempts| - 1].outcome == Success)
    ensures Serves(a) ==> a.attempts != [] && a.attempts[|a.attempts| - 1].outcome == Success
    ensures Answered(a) && HardAbsent(a) ==> HardAbsence in Failures(a.attempts)
    ensures Soft(a) || (a.ok && a.committed && a.err.Some?) ==>
              Expected(req, p, a) !in {Success, HardAbsence} && Expected(req, p, a) in Failures(a.attempts)
    ensures !Serves(a) && a.attempts != [] ==> Failures(a.attempts) != {}
  {
    if a.attempts != [] {
      var last := a.attempts[|a.attempts| - 1];
      assert last in a.attempts;
      assert last.outcome != Success ==> last.outcome in Failures(a.attempts);
    }
  }

  /** A delivered response never reads as absence. */
  lemma DeliveredIsNotAbsence(job: Job, m: Member, attempts: seq<Evidence>)
    requires BothMeet(job, m) && AllGenuine(attempts) && !m.answer.cancelled
    requires Failures(m.answer.attempts) <= Failures(attempts)
    requires Serves(m.answer) || Soft(m.answer) || (m.answer.ok && m.answer.err.Some? && Committed(job, m.answer))
    ensures !ReportsAbsence(Response(m.answer.code, m.answer.err, attempts, m.provider.id))
  {
    var a := m.answer;
    LastEvidence(job.req, m.provider, a);
    if !Serves(a) {
      var cause := if a.err.Some? then a.err else ToError(a.code);
      assert Failures(attempts) != {HardAbsence};
      AbsentIffUniformAbsence(attempts, cause);
    }
  }

  /** The verdict without a delivered response is absence exactly when every failure is. */
  lemma FinishIsFaithful(acc: Acc)
    requires Sane(acc)
    ensures ReportsAbsence(Finish(acc)) <==>
              Failures(acc.attempts) == {HardAbsence} && (acc.lastErr.Some? || acc.lastAbsent.Some?)
    ensures ReportsAbsence(Finish(acc)) ==> Finish(acc).attempts == acc.attempts
  {
    if Failures(acc.attempts) != {} {
      AbsentIffUniformAbsence(acc.attempts, acc.lastErr);
      if acc.lastErr.None? && acc.lastAbsent.Some? {
        AbsentIffUniformAbsence(acc.attempts, ToError(acc.lastAbsent.value.answer.code));
      }
    } else if acc.lastErr.Some? {
      NothingFailed(acc.attempts, acc.lastErr);
    }
  }

  lemma NothingFailed(attempts: seq<Evidence>, given: Option<Error>)
    requires Failures(attempts) == {}
    ensures Aggregate(attempts, given).cause == given
  {
    assert AggregateKind({}) == Inconclusive by { assert forall o: Outcome :: o in {o}; }
    forall e | e in attempts ensures e.outcome == Success {
      var i :| 0 <= i < |attempts| && attempts[i] == e;
      assert e.outcome != Success ==> e.outcome in Failures(attempts);
    }
    LastOfKindFinds(attempts, Inconclusive);
  }

  // ---------------------------------------------------------------------------
  // One step of a round

  /** A round so far: either it goes on with these providers dealt with and those still
      waiting, or the response it ends with is no absence. */
  ghost predicate RoundOk(gone: set<string>, rest: set<string>, phase: Phase) {
    match phase
    case Through(acc) => Sane(acc) && Covered(gone, acc) && Waits(rest, acc)
    case Delivered(m, attempts, _) => !ReportsAbsence(Response(m.answer.code, m.answer.err, attempts, m.provider.id))
    case Interrupted(_, _) => true
  }

  lemma CallIsSane(job: Job, m: Member, acc: Acc)
    requires BothMeet(job, m) && Sane(acc)
    ensures match CallMember(job, m, acc)
            case Moved(next) => Sane(next)
            case Absent(next) => Sane(next.(lastAbsent := Some(m))) && Sane(next)
            case Ended(phase) => phase.Through? || RoundOk({}, {}, phase)
  {
    var all := acc.attempts + m.answer.attempts;
    FailuresConcat(acc.attempts, m.answer.attempts);
    assert AllGenuine(all);
    if !m.answer.cancelled {
      LastEvidence(job.req, m.provider, m.answer);
      if CallMember(job, m, acc).Ended? { DeliveredIsNotAbsence(job, m, all); }
    }
  }

  lemma CallTells(job: Job, m: Member, acc: Acc)
    requires BothMeet(job, m) && !CallMember(job, m, acc).Ended?
    ensures var told := m.answer.attempts;
            && Contacts(acc, CallMember(job, m, acc).acc, Called(m), told)
            && (Mute(Called(m)) <==> told == [] || told[|told| - 1].outcome == Success)
  {
    LastEvidence(job.req, m.provider, m.answer);
  }

  lemma CallCovers(job: Job, m: Member, acc: Acc, gone: set<string>, rest: set<string>)
    requires BothMeet(job, m) && Sane(acc) && Covered(gone, acc) && Waits(rest, acc) && Waits({m.provider.id}, acc)
    requires m.provider.id !in gone + rest
    ensures match CallMember(job, m, acc)
            case Moved(next) => RoundOk(gone + {m.provider.id}, rest, Through(next))
            case Absent(next) =>
              && RoundOk(gone + {m.provider.id}, rest, Through(next))
              && RoundOk(gone + {m.provider.id}, rest, Through(next.(lastAbsent := Some(m))))
            case Ended(phase) => RoundOk(gone + {m.provider.id}, rest, phase)
  {
    CallIsSane(job, m, acc);
    var call := CallMember(job, m, acc);
    if !call.Ended? {
      CallTells(job, m, acc);
      ContactCovers(acc, call.acc, Called(m), m.answer.attempts, gone, rest);
    }
  }

  lemma SkipCovers(job: Job, m: Member, acc: Acc, gone: set<string>, rest: set<string>)
    requires Sane(acc) && Covered(gone, acc) && Waits(rest, acc) && Waits({m.provider.id}, acc)
    requires m.provider.id !in gone + rest
    ensures RoundOk(gone + {m.provider.id}, rest, Through(SkipOverQuota(job, m, acc)))
  {
    var e := QuotaEvidence(job, m);
    FailuresSnoc(acc.attempts, e);
    ContactCovers(acc, SkipOverQuota(job, m, acc), Passed(m), [e], gone, rest);
  }

  lemma VisitCovers(job: Job, m: Member, acc: Acc, gone: set<string>, rest: set<string>)
    requires BothMeet(job, m) && Sane(acc) && Covered(gone, acc) && Waits(rest, acc) && Waits({m.provider.id}, acc)
    requires m.provider.id !in gone + rest
    ensures match Visit(job, m, acc)
            case Moved(next) => RoundOk(gone + {m.provider.id}, rest, Through(next))
            case Absent(next) => RoundOk(gone + {m.provider.id}, rest, Through(next.(lastAbsent := Some(m))))
            case Ended(phase) => RoundOk(gone + {m.provider.id}, rest, phase)
  {
    if m.quotaExceeded { SkipCovers(job, m, acc, gone, rest); } else { CallCovers(job, m, acc, gone, rest); }
  }

  // ---------------------------------------------------------------------------
  // Whole rounds

  /** What a round needs: answers the retry loop can give, and providers with ids of their own. */
  ghost predicate Ready(job: Job, ms: seq<Member>, acc: Acc, gone: set<string>, rest: set<string>) {
    && AllMeet(job, ms) && DistinctIds(ms) && Ids(ms) !! gone && Ids(ms) !! rest && gone !! rest
    && Sane(acc) && Covered(gone, acc) && Waits(rest + Ids(ms), acc)
  }

  lemma TailMeets(job: Job, ms: seq<Member>)
    requires ms != [] && AllMeet(job, ms)
    ensures BothMeet(job, ms[0]) && AllMeet(job, ms[1..])
  {
    forall i | 0 <= i < |ms[1..]| ensures BothMeet(job, ms[1..][i]) { assert ms[1..][i] == ms[i + 1]; }
  }

  lemma ReadyNext(job: Job, ms: seq<Member>, acc: Acc, gone: set<string>, rest: set<string>, next: Acc)
    requires ms != [] && Ready(job, ms, acc, gone, rest)
    requires RoundOk(gone + {ms[0].provider.id}, rest + Ids(ms[1..]), Through(next))
    ensures Ready(job, ms[1..], next, gone + {ms[0].provider.id}, rest)
    ensures gone + {ms[0].provider.id} + Ids(ms[1..]) == gone + Ids(ms)
  {
    TailMeets(job, ms);
  }

  lemma {:induction false} WalkCovers(job: Job, ms: seq<Member>, acc: Acc, gone: set<string>, rest: set<string>)
    requires Ready(job, ms, acc, gone, rest)
    ensures RoundOk(gone + Ids(ms), rest, Walk(job, ms, acc))
  {
    if ms == [] {
      assert gone + Ids(ms) == gone && rest + Ids(ms) == rest;
    } else {
      var more := gone + {ms[0].provider.id};
      VisitCovers(job, ms[0], acc, gone, rest + Ids(ms[1..]));
      match Visit(job, ms[0], acc)
      case Moved(next) =>
        ReadyNext(job, ms, acc, gone, rest, next);
        WalkCovers(job, ms[1..], next, more, rest);
      case Absent(next) =>
        ReadyNext(job, ms, acc, gone, rest, next.(lastAbsent := Some(ms[0])));
        WalkCovers(job, ms[1..], next.(lastAbsent := Some(ms[0])), more, rest);
      case Ended(_) =>
    }
  }

  lemma {:induction false} WinnersCover(job: Job, ms: seq<Member>, acc: Acc, gone: set<string>, rest: set<string>)
    requires Ready(job, ms, acc, gone, rest)
    ensures RoundOk(gone + Ids(ms), rest, Winners(job, ms, acc))
  {
    if ms == [] {
      assert gone + Ids(ms) == gone && rest + Ids(ms) == rest;
    } else {
      var more := gone + {ms[0].provider.id};
      CallCovers(job, ms[0], acc, gone, rest + Ids(ms[1..]));
      match CallMember(job, ms[0], acc)
      case Moved(next) =>
        ReadyNext(job, ms, acc, gone, rest, next);
        WinnersCover(job, ms[1..], next, more, rest);
      case Absent(next) =>
        ReadyNext(job, ms, acc, gone, rest, next);
        WinnersCover(job, ms[1..], next, more, rest);
      case Ended(_) =>
    }
  }

  // ---------------------------------------------------------------------------
  // The race

  function QuotaIds(ms: seq<Member>): set<string> {
    if ms == [] then {} else (if ms[0].quotaExceeded then {ms[0].provider.id} else {}) + QuotaIds(ms[1..])
  }

  lemma {:induction false} EligibleIds(job: Job, ms: seq<Member>)
    requires AllMeet(job, ms) && DistinctIds(ms)
    ensures AllMeet(job, Eligible(ms)) && DistinctIds(Eligible(ms))
    ensures Ids(ms) == QuotaIds(ms) + Ids(Eligible(ms)) && QuotaIds(ms) !! Ids(Eligible(ms))
  {
    if ms == [] {
    } else {
      EligibleIds(job, ms[1..]);
      if ms[0].quotaExceeded {
        assert Eligible(ms) == Eligible(ms[1..]);
      } else {
        assert Eligible(ms)[0] == ms[0] && Eligible(ms)[1..] == Eligible(ms[1..]);
      }
    }
  }

  lemma {:induction false} FilterCovers(job: Job, ms: seq<Member>, acc: Acc, gone: set<string>, rest: set<string>)
    requires Sane(acc) && Covered(gone, acc) && Waits(rest + QuotaIds(ms), acc) && DistinctIds(ms)
    requires QuotaIds(ms) !! gone && QuotaIds(ms) !! rest && gone !! rest
    ensures RoundOk(gone + QuotaIds(ms), rest, Through(FilterQuota(job, ms, acc)))
  {
    if ms == [] {
      assert gone + QuotaIds(ms) == gone && rest + QuotaIds(ms) == rest;
    } else {
      QuotaIdsAreIds(ms[1..]);
      if ms[0].quotaExceeded {
        var next := SkipOverQuota(job, ms[0], acc);
        SkipCovers(job, ms[0], acc, gone, rest + QuotaIds(ms[1..]));
        FilterCovers(job, ms[1..], next, gone + {ms[0].provider.id}, rest);
        assert gone + {ms[0].provider.id} + QuotaIds(ms[1..]) == gone + QuotaIds(ms);
      } else {
        assert QuotaIds(ms) == QuotaIds(ms[1..]);
        FilterCovers(job, ms[1..], acc, gone, rest);
      }
    }
  }

  lemma {:induction false} QuotaIdsAreIds(ms: seq<Member>)
    ensures QuotaIds(ms) <= Ids(ms)
  {
    if ms == [] {
    } else {
      QuotaIdsAreIds(ms[1..]);
    }
  }

  /** What one probe adds, and when it is mute. */
  lemma ProbeTells(job: Job, m: Member, s: Probed)
    requires BothMeet(job, m) && !m.probe.cancelled
    ensures Contacts(s.acc, ReadProbe(m, s).acc, Asked(m), m.probe.attempts)
    ensures var told, x := m.probe.attempts, Asked(m);
            if ReadProbe(m, s).winners == s.winners then
              Mute(x) <==> told == [] || told[|told| - 1].outcome == Success
            else
              && ReadProbe(m, s).winners == s.winners + [m] && !Mute(x)
              && told != [] && told[|told| - 1].outcome == Success
  {
    LastEvidence(STAT_REQUEST, m.provider, m.probe);
  }

  lemma ProbeIsSane(job: Job, m: Member, s: Probed)
    requires BothMeet(job, m) && Sane(s.acc) && !m.probe.cancelled
    ensures Sane(ReadProbe(m, s).acc)
  {
    LastEvidence(STAT_REQUEST, m.provider, m.probe);
    FailuresConcat(s.acc.attempts, m.probe.attempts);
    assert AllGenuine(s.acc.attempts + m.probe.attempts);
  }

  /** A probe that was not cancelled deals with its provider, or confirms it and leaves it
      waiting for the command. */
  lemma ProbeCovers(job: Job, m: Member, s: Probed, gone: set<string>, rest: set<string>)
    requires BothMeet(job, m) && Sane(s.acc) && Covered(gone, s.acc) && Waits(rest, s.acc)
    requires Waits({m.provider.id}, s.acc) && m.provider.id !in gone + rest && !m.probe.cancelled
    ensures var r := ReadProbe(m, s);
            if r.winners == s.winners then RoundOk(gone + {m.provider.id}, rest, Through(r.acc))
            else r.winners == s.winners + [m] && RoundOk(gone, rest + {m.provider.id}, Through(r.acc))
  {
    var r := ReadProbe(m, s);
    ProbeTells(job, m, s);
    ProbeIsSane(job, m, s);
    if r.winners == s.winners {
      ContactCovers(s.acc, r.acc, Asked(m), m.probe.attempts, gone, rest);
    } else {
      ContactKeeps(s.acc, r.acc, Asked(m), m.probe.attempts, gone, rest);
      OwnKnown(s.acc, r.acc, Asked(m), m.probe.attempts);
    }
  }

  lemma {:induction false} CancelStays(ms: seq<Member>, s: Probed)
    requires s.cancelled
    ensures ReadProbes(ms, s).cancelled
  {
    if ms == [] {
    } else {
      CancelStays(ms[1..], ReadProbe(ms[0], s));
    }
  }

  lemma IdsSnoc(job: Job, ms: seq<Member>, m: Member)
    requires AllMeet(job, ms) && DistinctIds(ms) && BothMeet(job, m) && m.provider.id !in Ids(ms)
    ensures AllMeet(job, ms + [m]) && DistinctIds(ms + [m]) && Ids(ms + [m]) == Ids(ms) + {m.provider.id}
  {
    if ms == [] {
      assert [m][1..] == [];
    } else {
      assert (ms + [m])[1..] == ms[1..] + [m];
      TailMeets(job, ms);
      IdsSnoc(job, ms[1..], m);
      forall i | 0 <= i < |ms + [m]| ensures BothMeet(job, (ms + [m])[i]) {
        if i < |ms| { assert (ms + [m])[i] == ms[i]; }
      }
    }
  }

  /** The state while probes are folded in: winners wait for the command, the others of
      `gone` are dealt with. */
  ghost predicate Probing(job: Job, s: Probed, gone: set<string>, rest: set<string>) {
    && AllMeet(job, s.winners) && DistinctIds(s.winners) && Ids(s.winners) !! gone && Ids(s.winners) !! rest
    && RoundOk(gone, rest + Ids(s.winners), Through(s.acc))
  }

  /** What folding in the probes of `ms` needs. */
  ghost predicate Probable(job: Job, ms: seq<Member>, s: Probed, gone: set<string>, rest: set<string>) {
    && AllMeet(job, ms) && DistinctIds(ms) && Probing(job, s, gone, rest) && !s.cancelled
    && gone !! rest && Ids(ms) !! gone && Ids(ms) !! rest && Ids(ms) !! Ids(s.winners) && Waits(Ids(ms), s.acc)
  }

  lemma ProbeSettles(job: Job, ms: seq<Member>, s: Probed, gone: set<string>, rest: set<string>)
    requires ms != [] && Probable(job, ms, s, gone, rest) && !ms[0].probe.cancelled
    requires ReadProbe(ms[0], s).winners == s.winners
    ensures Probable(job, ms[1..], ReadProbe(ms[0], s), gone + {ms[0].provider.id}, rest)
  {
    TailMeets(job, ms);
    ProbeCovers(job, ms[0], s, gone, rest + Ids(s.winners) + Ids(ms[1..]));
  }

  lemma ProbeConfirms(job: Job, ms: seq<Member>, s: Probed, gone: set<string>, rest: set<string>)
    requires ms != [] && Probable(job, ms, s, gone, rest) && !ms[0].probe.cancelled
    requires ReadProbe(ms[0], s).winners != s.winners
    ensures Probable(job, ms[1..], ReadProbe(ms[0], s), gone, rest)
    ensures Ids(ReadProbe(ms[0], s).winners) == Ids(s.winners) + {ms[0].provider.id}
  {
    TailMeets(job, ms);
    ProbeCovers(job, ms[0], s, gone, rest + Ids(s.winners) + Ids(ms[1..]));
    IdsSnoc(job, s.winners, ms[0]);
  }

  lemma {:induction false} ProbesCover(job: Job, ms: seq<Member>, s: Probed, gone: set<string>, rest: set<string>)
    returns (after: set<string>)
    requires Probable(job, ms, s, gone, rest)
    ensures var r := ReadProbes(ms, s);
            !r.cancelled ==>
              Probing(job, r, after, rest) && after !! rest
              && after + Ids(r.winners) == gone + Ids(s.winners) + Ids(ms)
  {
    after := gone;
    if ms == [] {
    } else if ms[0].probe.cancelled {
      CancelStays(ms[1..], ReadProbe(ms[0], s));
    } else {
      var t, more := ReadProbe(ms[0], s), gone;
      if t.winners == s.winners {
        ProbeSettles(job, ms, s, gone, rest);
        more := gone + {ms[0].provider.id};
      } else {
        ProbeConfirms(job, ms, s, gone, rest);
      }
      after := ProbesCover(job, ms[1..], t, more, rest);
    }
  }

  lemma SingleCovers(job: Job, m: Member, acc: Acc, gone: set<string>, rest: set<string>)
    requires BothMeet(job, m) && Sane(acc) && Covered(gone, acc) && Waits(rest, acc) && Waits({m.provider.id}, acc)
    requires m.provider.id !in gone + rest
    ensures RoundOk(gone + {m.provider.id}, rest, Single(job, m, acc))
  {
    if Soft(m.answer) {
      FailuresConcat(acc.attempts, m.answer.attempts);
      assert AllGenuine(acc.attempts + m.answer.attempts);
      DeliveredIsNotAbsence(job, m, acc.attempts + m.answer.attempts);
    } else {
      CallCovers(job, m, acc, gone, rest);
    }
  }

  lemma ProbedCovers(job: Job, live: seq<Member>, acc: Acc, gone: set<string>, rest: set<string>)
    requires Ready(job, live, acc, gone, rest)
    ensures RoundOk(gone + Ids(live), rest, AfterProbes(job, ReadProbes(live, Probed(acc, [], false))))
  {
    var s := ReadProbes(live, Probed(acc, [], false));
    assert rest + Ids([]) == rest && gone + Ids([]) + Ids(live) == gone + Ids(live);
    var after := ProbesCover(job, live, Probed(acc, [], false), gone, rest);
    if !s.cancelled {
      WinnersCover(job, s.winners, s.acc, after, rest);
    }
  }

  /** A race of eligible candidates. */
  lemma LiveCovers(job: Job, live: seq<Member>, acc: Acc, gone: set<string>, rest: set<string>)
    requires Ready(job, live, acc, gone, rest)
    ensures RoundOk(gone + Ids(live), rest,
                    if |live| == 0 then Through(acc) else if |live| == 1 then Single(job, live[0], acc)
                    else AfterProbes(job, ReadProbes(live, Probed(acc, [], false))))
  {
    if |live| == 0 {
      assert gone + Ids(live) == gone && rest + Ids(live) == rest;
    } else if |live| == 1 {
      assert live[1..] == [] && Ids(live) == {live[0].provider.id};
      SingleCovers(job, live[0], acc, gone, rest);
    } else {
      ProbedCovers(job, live, acc, gone, rest);
    }
  }

  lemma RaceCovers(job: Job, ms: seq<Member>, acc: Acc, gone: set<string>, rest: set<string>)
    requires Ready(job, ms, acc, gone, rest)
    ensures RoundOk(gone + Ids(ms), rest, Race(job, ms, acc))
  {
    var live, filtered := Eligible(ms), FilterQuota(job, ms, acc);
    EligibleIds(job, ms);
    FilterCovers(job, ms, acc, gone, rest + Ids(live));
    assert gone + QuotaIds(ms) + Ids(live) == gone + Ids(ms);
    LiveCovers(job, live, filtered, gone + QuotaIds(ms), rest);
  }

  // ---------------------------------------------------------------------------
  // The whole request

  lemma {:induction false} MainsCover(job: Job, ms: seq<Member>, acc: Acc, gone: set<string>, rest: set<string>)
    requires Ready(job, ms, acc, gone, rest)
    ensures RoundOk(gone + Ids(ms), rest, Mains(job, ms, acc))
  {
    if ms == [] {
      assert gone + Ids(ms) == gone && rest + Ids(ms) == rest;
    } else {
      var more := gone + {ms[0].provider.id};
      VisitCovers(job, ms[0], acc, gone, rest + Ids(ms[1..]));
      match Visit(job, ms[0], acc)
      case Moved(next) =>
        ReadyNext(job, ms, acc, gone, rest, next);
        MainsCover(job, ms[1..], next, more, rest);
      case Absent(next) =>
        var missed := next.(lastAbsent := Some(ms[0]));
        ReadyNext(job, ms, acc, gone, rest, missed);
        if job.raceable {
          RaceCovers(job, ms[1..], missed, more, rest);
        } else {
          MainsCover(job, ms[1..], missed, more, rest);
        }
      case Ended(_) =>
    }
  }

  lemma MeetConcat(job: Job, a: seq<Member>, b: seq<Member>)
    requires AllMeet(job, a + b)
    ensures AllMeet(job, a) && AllMeet(job, b)
  {
    forall i | 0 <= i < |a| ensures BothMeet(job, a[i]) { assert (a + b)[i] == a[i]; }
    forall i | 0 <= i < |b| ensures BothMeet(job, b[i]) { assert (a + b)[|a| + i] == b[i]; }
  }

  lemma {:induction false} IdsConcat(a: seq<Member>, b: seq<Member>)
    ensures Ids(a + b) == Ids(a) + Ids(b)
    ensures DistinctIds(a + b) <==> DistinctIds(a) && DistinctIds(b) && Ids(a) !! Ids(b)
  {
    if a == [] {
      assert a + b == b;
    } else {
      assert (a + b)[1..] == a[1..] + b;
      IdsConcat(a[1..], b);
    }
  }

  /** Both rounds together. */
  lemma AllCovered(job: Job, mains: seq<Member>, backups: seq<Member>)
    requires AllMeet(job, mains + backups) && DistinctIds(mains + backups)
    ensures RoundOk(Ids(mains + backups), {}, AfterMains(job, backups, Mains(job, mains, NOTHING)))
  {
    IdsConcat(mains, backups);
    MeetConcat(job, mains, backups);
    MainsCover(job, mains, NOTHING, {}, Ids(backups));
    assert {} + Ids(mains) == Ids(mains) && {} + Ids(backups) == Ids(backups);
    var first := Mains(job, mains, NOTHING);
    if first.Through? {
      RaceCovers(job, backups, first.acc, Ids(mains), {});
      WalkCovers(job, backups, first.acc, Ids(mains), {});
    }
  }

  lemma {:induction false} IdOfMember(ms: seq<Member>, m: Member)
    requires m in ms
    ensures m.provider.id in Ids(ms)
  {
    if ms[0] != m { IdOfMember(ms[1..], m); }
  }

  lemma {:induction false} UniformLastWord(id: string, attempts: seq<Evidence>)
    requires Failures(attempts) <= {HardAbsence}
    ensures Heard(id, attempts) <==> LastWord(id, attempts) == Some(HardAbsence)
    ensures LastWord(id, attempts) == Some(HardAbsence) ==>
              exists e :: e in attempts && e.provider == id && e.outcome == HardAbsence
    decreases |attempts|
  {
    if attempts == [] {
    } else {
      var init, last := attempts[..|attempts| - 1], attempts[|attempts| - 1];
      assert attempts == init + [last];
      FailuresSnoc(init, last);
      UniformLastWord(id, init);
      if last.provider == id { assert last in attempts; }
    }
  }

  lemma CancelledIsNotAbsent(job: Job, attempts: seq<Evidence>)
    ensures !ReportsAbsence(CancellationResponse(job, attempts))
  {
    var t := CancellationResponse(job, attempts).err.value.report;
    assert !IsNotFound(t.cause.value);
  }

  /** Only a round that went through to its end can report absence. */
  lemma AbsentRunsThrough(job: Job, gone: set<string>, phase: Phase)
    requires RoundOk(gone, {}, phase) && ReportsAbsence(Settle(job, phase).resp)
    ensures phase.Through? && Failures(phase.acc.attempts) == {HardAbsence}
    ensures Settle(job, phase) == Sent(Finish(phase.acc), phase.acc.trail)
    ensures Finish(phase.acc).attempts == phase.acc.attempts
  {
    match phase
    case Through(acc) => FinishIsFaithful(acc);
    case Interrupted(attempts, _) => CancelledIsNotAbsent(job, attempts);
    case Delivered(_, _, _) =>
  }

  lemma NoMainsIsNotAbsent(job: Job, backups: seq<Member>)
    ensures !ReportsAbsence(Send(job, [], backups).resp)
  {
    assert !IsNotFound(Sentinel(Other));
  }

  /** The central claim, exactly. A request is reported absent only if no attempt failed in any
      other way; and then a hard absence is the last word of every configured provider, main and
      backup, if and only if none of them was silent. */
  lemma {:induction false} AbsenceIsSound(job: Job, mains: seq<Member>, backups: seq<Member>)
    requires AllMeet(job, mains + backups) && DistinctIds(mains + backups)
    requires ReportsAbsence(Send(job, mains, backups).resp)
    ensures var sent := Send(job, mains, backups);
            && (forall e :: e in sent.resp.attempts ==> e.outcome == Success || e.outcome == HardAbsence)
            && (forall m :: m in mains + backups ==>
                  (LastWord(m.provider.id, sent.resp.attempts) == Some(HardAbsence)
                   <==> !Silent(m.provider.id, sent.trail)))
  {
    var phase := AfterMains(job, backups, Mains(job, mains, NOTHING));
    NoMainsIsNotAbsent(job, backups);
    AllCovered(job, mains, backups);
    AbsentRunsThrough(job, Ids(mains + backups), phase);
    KindOfSingleton(HardAbsence);
    OnlyAbsence(phase.acc.attempts);
    forall m | m in mains + backups
      ensures LastWord(m.provider.id, phase.acc.attempts) == Some(HardAbsence)
              <==> !Silent(m.provider.id, phase.acc.trail)
    {
      IdOfMember(mains + backups, m);
      UniformLastWord(m.provider.id, phase.acc.attempts);
    }
  }

  // ---------------------------------------------------------------------------
  // Live contexts and conforming probes

  /** Both answers of a member are ones its retry loop can give while the contexts stay live
      (LiveCallsInform). */
  ghost predicate Reliable(job: Job, m: Member) {
    BothMeet(job, m) && Informative(m.answer) && Informative(m.probe)
  }

  /** A STAT reply is 223 or an error, as section 6.2.4 of RFC 3977 has it. */
  predicate ProbeConforms(m: Member) {
    Answered(m.probe) && 200 <= m.probe.code < 400 ==> m.probe.code == 223
  }

  ghost predicate AllReliable(job: Job, ms: seq<Member>) {
    forall i :: 0 <= i < |ms| ==> Reliable(job, ms[i]) && ProbeConforms(ms[i])
  }

  /** Reliable providers are never silent, so that a reported absence is their last word. */
  lemma {:induction false} ReliableAbsenceIsSound(job: Job, mains: seq<Member>, backups: seq<Member>)
    requires AllReliable(job, mains + backups) && DistinctIds(mains + backups)
    requires ReportsAbsence(Send(job, mains, backups).resp)
    ensures var attempts := Send(job, mains, backups).resp.attempts;
            && (forall e :: e in attempts ==> e.outcome == Success || e.outcome == HardAbsence)
            && (forall m :: m in mains + backups ==> LastWord(m.provider.id, attempts) == Some(HardAbsence))
  {
    AbsenceIsSound(job, mains, backups);
    SendContactsMembers(job, mains, backups);
    var sent := Send(job, mains, backups);
    forall x | x in sent.trail ensures !Mute(x) {
      var i :| 0 <= i < |mains + backups| && (mains + backups)[i] == x.member;
      assert Reliable(job, x.member) && ProbeConforms(x.member);
    }
  }

  // ---------------------------------------------------------------------------
  // Both ways of being silent happen

  function Says(id: string, op: Operation, code: int): Answer {
    Answer(code, None, [BuildEvidence(op, false, id, code, None, false)], true, false, false, 0, AtHead)
  }

  function Voice(id: string, code: int, probe: int): Member {
    Member(Provider(id, false), false, Says(id, Body, code), Says(id, Stat, probe))
  }

  lemma RaceOfTwo(job: Job, b: Member, c: Member, acc: Acc)
    requires !b.quotaExceeded && !c.quotaExceeded
    ensures Race(job, [b, c], acc) == AfterProbes(job, ReadProbe(c, ReadProbe(b, Probed(acc, [], false))))
  {
    assert [b, c][1..] == [c] && [c][1..] == [];
    assert Eligible([c]) == [c] && Eligible([b, c]) == [b, c];
    assert FilterQuota(job, [c], acc) == acc;
    assert FilterQuota(job, [b, c], acc) == FilterQuota(job, [c], acc);
    var s0 := Probed(acc, [], false);
    assert ReadProbes([c], ReadProbe(b, s0)) == ReadProbe(c, ReadProbe(b, s0));
    assert ReadProbes([b, c], s0) == ReadProbes([c], ReadProbe(b, s0));
  }

  /** Evidence whose only failure is absence. */
  ghost predicate OnlyMisses(attempts: seq<Evidence>) {
    AllGenuine(attempts) && Failures(attempts) == {HardAbsence}
  }

  /** A STAT reply that is a success other than 223 makes the pool report absence although
      that provider never said so, whatever it would have answered to the command. */
  lemma OtherStatSuccessHidesAProvider(job: Job, a: Member, b: Member, c: Member)
    requires job.raceable && !a.quotaExceeded && !b.quotaExceeded && !c.quotaExceeded
    requires Answered(a.answer) && HardAbsent(a.answer) && OnlyMisses(a.answer.attempts)
    requires Answered(c.probe) && HardAbsent(c.probe) && OnlyMisses(c.probe.attempts)
    requires Serves(b.probe) && b.probe.code != 223 && AllGenuine(b.probe.attempts) && Failures(b.probe.attempts) == {}
    ensures ReportsAbsence(Send(job, [a, b, c], []).resp)
    ensures Send(job, [a, b, c], []).resp.attempts == a.answer.attempts + b.probe.attempts + c.probe.attempts
  {
    var acc := HiddenRound(job, a, b, c);
    assert Race(job, [], acc) == Through(acc);
    FailuresConcat(a.answer.attempts, b.probe.attempts);
    FailuresConcat(a.answer.attempts + b.probe.attempts, c.probe.attempts);
    AbsentIffUniformAbsence(acc.attempts, acc.lastErr);
  }

  lemma HiddenRound(job: Job, a: Member, b: Member, c: Member) returns (acc: Acc)
    requires job.raceable && !a.quotaExceeded && !b.quotaExceeded && !c.quotaExceeded
    requires Answered(a.answer) && HardAbsent(a.answer)
    requires Answered(c.probe) && HardAbsent(c.probe)
    requires Serves(b.probe) && b.probe.code != 223
    ensures Mains(job, [a, b, c], NOTHING) == Through(acc) && acc.lastErr.Some? && acc.lastAbsent.Some?
    ensures acc.attempts == a.answer.attempts + b.probe.attempts + c.probe.attempts
  {
    var first := Acc([] + a.answer.attempts, None, Some(a), [] + [Called(a)]);
    assert Visit(job, a, NOTHING) == Absent(first.(lastAbsent := None));
    assert [a, b, c][1..] == [b, c];
    RaceOfTwo(job, b, c, first);
    var s := ReadProbe(b, Probed(first, [], false));
    assert s == Probed(first.(attempts := first.attempts + b.probe.attempts, lastErr := Some(Named(b.probe.code)),
                              trail := first.trail + [Asked(b)]), [], false);
    acc := s.acc.(attempts := s.acc.attempts + c.probe.attempts, trail := s.acc.trail + [Asked(c)]);
    assert ReadProbe(c, s) == Probed(acc, [], false);
    assert [] + a.answer.attempts == a.answer.attempts;
  }

  /** A provider that has the article and answers its STAT with 200. */
  lemma AnOddStatReplyHidesTheArticle(job: Job)
    requires job.raceable
    ensures var mains := [Voice("a", 430, 430), Voice("b", 222, 200), Voice("c", 430, 430)];
            ReportsAbsence(Send(job, mains, []).resp) && Serves(mains[1].answer)
  {
    VoiceEvidence("a", 430, 430);
    VoiceEvidence("b", 222, 200);
    VoiceEvidence("c", 430, 430);
    OtherStatSuccessHidesAProvider(job, Voice("a", 430, 430), Voice("b", 222, 200), Voice("c", 430, 430));
  }

  lemma VoiceEvidence(id: string, code: int, probe: int)
    ensures var m := Voice(id, code, probe);
            && AllGenuine(m.answer.attempts) && AllGenuine(m.probe.attempts)
            && Failures(m.answer.attempts) == {ClassifyOutcome(code, ToError(code))} - {Success}
            && Failures(m.probe.attempts) == {ClassifyOutcome(probe, ToError(probe))} - {Success}
  {
    var m := Voice(id, code, probe);
    FailuresSnoc([], m.answer.attempts[0]);
    FailuresSnoc([], m.probe.attempts[0]);
    assert [] + [m.answer.attempts[0]] == m.answer.attempts && [] + [m.probe.attempts[0]] == m.probe.attempts;
  }

  lemma AbsenceThenSilence(job: Job, a: Member, b: Member, acc: Acc)
    requires !job.raceable && !a.quotaExceeded && !b.quotaExceeded
    requires Answered(a.answer) && HardAbsent(a.answer)
    requires !b.answer.ok && !b.answer.cancelled
    requires acc == Acc(a.answer.attempts + b.answer.attempts, None, Some(a), [Called(a), Called(b)])
    ensures AfterMains(job, [], Mains(job, [a, b], NOTHING)) == Through(acc)
  {
    var first := Acc(a.answer.attempts, None, Some(a), [Called(a)]);
    assert [] + a.answer.attempts == a.answer.attempts && [] + [Called(a)] == [Called(a)];
    assert [Called(a)] + [Called(b)] == [Called(a), Called(b)];
    assert [a, b][1..] == [b] && [b][1..] == [];
    assert Mains(job, [b], first) == Through(acc);
  }

  /** A response channel closed empty, which only a departing caller causes, makes the pool
      report absence although that provider never spoke, or never finished speaking. */
  lemma ClosedChannelHidesAProvider(job: Job, a: Member, b: Member)
    requires !job.raceable && !a.quotaExceeded && !b.quotaExceeded
    requires Answered(a.answer) && HardAbsent(a.answer) && OnlyMisses(a.answer.attempts)
    requires !b.answer.ok && !b.answer.cancelled
    requires AllGenuine(b.answer.attempts) && Failures(b.answer.attempts) <= {HardAbsence}
    ensures ReportsAbsence(Send(job, [a, b], []).resp)
    ensures Send(job, [a, b], []).resp.attempts == a.answer.attempts + b.answer.attempts
  {
    var second := Acc(a.answer.attempts + b.answer.attempts, None, Some(a), [Called(a), Called(b)]);
    AbsenceThenSilence(job, a, b, second);
    FailuresConcat(a.answer.attempts, b.answer.attempts);
    AbsentIffUniformAbsence(second.attempts, ToError(a.answer.code));
  }

  /** The provider "b" is left by its caller while "a" has answered 430. */
  lemma AClosedChannelHidesB(job: Job)
    requires !job.raceable
    ensures var b := Member(Provider("b", false), false, Answer(0, None, [], false, false, false, 0, Unwritten),
                            Says("b", Stat, 223));
            && b.answer == TryGroup(job.req, b.provider, false, Turn(0, ClosedEmpty(false), false))
            && ReportsAbsence(Send(job, [Voice("a", 430, 430), b], []).resp)
  {
    var b := Member(Provider("b", false), false, Answer(0, None, [], false, false, false, 0, Unwritten),
                    Says("b", Stat, 223));
    VoiceEvidence("a", 430, 430);
    ClosedChannelHidesAProvider(job, Voice("a", 430, 430), b);
  }
}
