/**
 * Whole requests over what the network does: every provider's answers are those of its
 * retry loop on a script, behind a breaker that admits or refuses it, and the mains are
 * visited from any start index.
 */
module Requests {
  import Breaker
  import opened Basics
  import opened Errors
  import opened Attempts
  import opened Failover
  import opened Absence
  import opened SingleWriter
  import opened Testimony

  /** What will happen to one provider when it is sent the command, and when it is probed. */
  datatype Plan = Plan(
    provider: Provider,
    overQuota: bool,
    acquired: Breaker.Acquired,
    gone: Option<Mark>,
    script: seq<Turn>,
    probeAcquired: Breaker.Acquired,
    probeGone: Option<Mark>,
    probeScript: seq<Turn>)

  function CallRun(job: Job, p: Plan): Run {
    Resilient(job.req, p.provider, false, p.acquired, p.gone, p.script)
  }

  function ProbeRun(p: Plan): Run {
    Resilient(STAT_REQUEST, p.provider, false, p.probeAcquired, p.probeGone, p.probeScript)
  }

  predicate ContextError(gone: Option<Mark>) { gone.Some? ==> gone.value == Canceled || gone.value == DeadlineExceeded }

  /** The scripts are ones the connections can produce, and both calls would return. */
  ghost predicate Feasible(job: Job, p: Plan) {
    && LegalScript(job.req, p.script) && LegalScript(STAT_REQUEST, p.probeScript)
    && ContextError(p.gone) && ContextError(p.probeGone)
    && CallRun(job, p).Returned? && ProbeRun(p).Returned?
  }

  ghost predicate AllFeasible(job: Job, ps: seq<Plan>) {
    forall i :: 0 <= i < |ps| ==> Feasible(job, ps[i])
  }

  function MemberOf(job: Job, p: Plan): Member
    requires CallRun(job, p).Returned? && ProbeRun(p).Returned?
  {
    Member(p.provider, p.overQuota, CallRun(job, p).answer, ProbeRun(p).answer)
  }

  ghost function Members(job: Job, ps: seq<Plan>): (ms: seq<Member>)
    requires AllFeasible(job, ps)
    ensures |ms| == |ps| && forall i :: 0 <= i < |ps| ==> ms[i] == MemberOf(job, ps[i])
  {
    seq(|ps|, i requires 0 <= i < |ps| => MemberOf(job, ps[i]))
  }

  /** The engine on these plans, from this start index. */
  ghost function Outcome(job: Job, mains: seq<Plan>, start: nat, backups: seq<Plan>): Sent
    requires AllFeasible(job, mains) && AllFeasible(job, backups) && (mains == [] || start < |mains|)
  {
    Send(job, if mains == [] then [] else Rotate(Members(job, mains), start), Members(job, backups))
  }

  lemma PlansMeet(job: Job, p: Plan)
    requires Feasible(job, p)
    ensures BothMeet(job, MemberOf(job, p)) && MemberOf(job, p).answer.writes == CallRun(job, p).loop.writes
  {
    RetriesAreBounded(job.req, p.provider, false, p.acquired, p.gone, p.script);
    RetriesAreBounded(STAT_REQUEST, p.provider, false, p.probeAcquired, p.probeGone, p.probeScript);
  }

  lemma AllPlansMeet(job: Job, ps: seq<Plan>)
    requires AllFeasible(job, ps)
    ensures AllMeet(job, Members(job, ps))
  {
    forall i | 0 <= i < |ps| ensures BothMeet(job, Members(job, ps)[i]) { PlansMeet(job, ps[i]); }
  }

  /** Rotating a list keeps its members and their ids. */
  lemma {:induction false} RotationKeeps(ms: seq<Member>, k: nat)
    requires k <= |ms|
    ensures var order := ms[k..] + ms[..k];
            Within(ms, order) && Within(order, ms) && Ids(order) == Ids(ms) && (DistinctIds(ms) ==> DistinctIds(order))
  {
    var order := ms[k..] + ms[..k];
    assert ms == ms[..k] + ms[k..];
    IdsConcat(ms[..k], ms[k..]);
    IdsConcat(ms[k..], ms[..k]);
    forall m | m in ms ensures m in order { assert m in ms[..k] || m in ms[k..]; }
  }

  lemma {:induction false} MeetTogether(job: Job, a: seq<Member>, b: seq<Member>)
    requires AllMeet(job, a) && AllMeet(job, b)
    ensures AllMeet(job, a + b)
  {
    forall i | 0 <= i < |a + b| ensures BothMeet(job, (a + b)[i]) {
      if i < |a| { assert (a + b)[i] == a[i]; } else { assert (a + b)[i] == b[i - |a|]; }
    }
  }

  /** The providers in the order of their visits: the same ones, whatever the start. */
  lemma {:induction false} VisitOrder(job: Job, mains: seq<Plan>, start: nat, backups: seq<Plan>)
    returns (order: seq<Member>)
    requires AllFeasible(job, mains) && AllFeasible(job, backups) && (mains == [] || start < |mains|)
    ensures Outcome(job, mains, start, backups) == Send(job, order, Members(job, backups))
    ensures AllMeet(job, order + Members(job, backups))
    ensures Within(Members(job, mains), order) && Within(order, Members(job, mains))
    ensures DistinctIds(Members(job, mains) + Members(job, backups)) ==> DistinctIds(order + Members(job, backups))
  {
    var ms, bs := Members(job, mains), Members(job, backups);
    order := if mains == [] then [] else Rotate(ms, start);
    RotationKeeps(ms, if mains == [] then 0 else start);
    IdsConcat(ms, bs);
    IdsConcat(order, bs);
    AllPlansMeet(job, mains);
    AllPlansMeet(job, backups);
    MeetWithin(job, order, ms);
    MeetTogether(job, order, bs);
  }

  lemma {:induction false} PlanIsVisited(job: Job, mains: seq<Plan>, backups: seq<Plan>, order: seq<Member>, p: Plan)
    returns (m: Member)
    requires AllFeasible(job, mains) && AllFeasible(job, backups) && Within(Members(job, mains), order)
    requires p in mains + backups
    ensures m in order + Members(job, backups) && m.provider == p.provider
  {
    if p in mains {
      var i :| 0 <= i < |mains| && mains[i] == p;
      m := Members(job, mains)[i];
      assert m in Members(job, mains);
    } else {
      var i :| 0 <= i < |backups| && backups[i] == p;
      m := Members(job, backups)[i];
    }
  }

  lemma {:induction false} MemberIsPlanned(job: Job, mains: seq<Plan>, backups: seq<Plan>, order: seq<Member>,
                                           m: Member)
    returns (p: Plan)
    requires AllFeasible(job, mains) && AllFeasible(job, backups) && Within(order, Members(job, mains))
    requires m in order + Members(job, backups)
    ensures p in mains + backups && Feasible(job, p) && m == MemberOf(job, p)
  {
    if m in order {
      var i :| 0 <= i < |mains| && Members(job, mains)[i] == m;
      p := mains[i];
    } else {
      var i :| 0 <= i < |backups| && Members(job, backups)[i] == m;
      p := backups[i];
    }
  }

  // ---------------------------------------------------------------------------
  // Absence

  /** Absence soundness over everything the network, the breakers and the start index may do:
      a reported absence rests on no other failure, and it is the last word of every provider,
      main and backup, exactly for those that were not silent. */
  lemma {:induction false} AbsenceOverScripts(job: Job, mains: seq<Plan>, start: nat, backups: seq<Plan>)
    requires AllFeasible(job, mains) && AllFeasible(job, backups) && (mains == [] || start < |mains|)
    requires DistinctIds(Members(job, mains) + Members(job, backups))
    requires ReportsAbsence(Outcome(job, mains, start, backups).resp)
    ensures var sent := Outcome(job, mains, start, backups);
            && (forall e :: e in sent.resp.attempts ==> e.outcome == Success || e.outcome == HardAbsence)
            && (forall p :: p in mains + backups ==>
                  (LastWord(p.provider.id, sent.resp.attempts) == Some(HardAbsence)
                   <==> !Silent(p.provider.id, sent.trail)))
  {
    var bs := Members(job, backups);
    var order := VisitOrder(job, mains, start, backups);
    AbsenceIsSound(job, order, bs);
    var sent := Outcome(job, mains, start, backups);
    forall p | p in mains + backups
      ensures LastWord(p.provider.id, sent.resp.attempts) == Some(HardAbsence) <==> !Silent(p.provider.id, sent.trail)
    {
      var m := PlanIsVisited(job, mains, backups, order, p);
    }
  }

  /** The caller and the client stay, and STAT is answered 223 or with an error. */
  ghost predicate Peaceful(job: Job, p: Plan) {
    && p.gone == None && p.probeGone == None
    && (forall i :: 0 <= i < |p.script| ==> Live(p.script[i]))
    && (forall i :: 0 <= i < |p.probeScript| ==> Live(p.probeScript[i]))
    && (Feasible(job, p) ==> ProbeConforms(MemberOf(job, p)))
  }

  lemma PeacefulIsReliable(job: Job, p: Plan)
    requires Feasible(job, p) && Peaceful(job, p)
    ensures Reliable(job, MemberOf(job, p)) && ProbeConforms(MemberOf(job, p))
  {
    PlansMeet(job, p);
    LiveCallsInform(job.req, p.provider, false, p.acquired, p.script);
    LiveCallsInform(STAT_REQUEST, p.provider, false, p.probeAcquired, p.probeScript);
  }

  /** With live contexts and conforming probes nobody is silent: absence is reported only when
      it is the last word of every provider. */
  lemma {:induction false} LiveAbsenceIsSound(job: Job, mains: seq<Plan>, start: nat, backups: seq<Plan>)
    requires AllFeasible(job, mains) && AllFeasible(job, backups) && (mains == [] || start < |mains|)
    requires DistinctIds(Members(job, mains) + Members(job, backups))
    requires forall p :: p in mains + backups ==> Peaceful(job, p)
    requires ReportsAbsence(Outcome(job, mains, start, backups).resp)
    ensures forall p :: p in mains + backups ==>
              LastWord(p.provider.id, Outcome(job, mains, start, backups).resp.attempts) == Some(HardAbsence)
  {
    var ms, bs := Members(job, mains), Members(job, backups);
    var order := VisitOrder(job, mains, start, backups);
    forall m | m in order + bs ensures Reliable(job, m) && ProbeConforms(m) {
      var p := MemberIsPlanned(job, mains, backups, order, m);
      PeacefulIsReliable(job, p);
    }
    ReliableAbsenceIsSound(job, order, bs);
    forall p | p in mains + backups
      ensures LastWord(p.provider.id, Outcome(job, mains, start, backups).resp.attempts) == Some(HardAbsence)
    {
      var m := PlanIsVisited(job, mains, backups, order, p);
    }
  }

  /** A call returned with its response channel closed empty: the caller's context is done. */
  predicate Departed(a: Answer) { !a.ok && a.err.None? }

  lemma PlansConfirm(job: Job, p: Plan)
    requires Feasible(job, p)
    ensures BothConfirm(MemberOf(job, p))
    ensures Peaceful(job, p) ==> !Departed(MemberOf(job, p).answer) && !Departed(MemberOf(job, p).probe)
  {
    CallConfirms451(job.req, p.provider, false, p.acquired, p.gone, p.script);
    CallConfirms451(STAT_REQUEST, p.provider, false, p.probeAcquired, p.probeGone, p.probeScript);
    if Peaceful(job, p) {
      LiveCallsAnswer(job.req, p.provider, false, p.acquired, p.script);
      LiveCallsAnswer(STAT_REQUEST, p.provider, false, p.probeAcquired, p.probeScript);
    }
  }

  /** The second 451 over scripts: if the last word of a provider in a reported absence is a 451,
      it was given by one call or probe, which saw a second 451 if and only if its retry was
      given a response; with live contexts it always was. */
  lemma {:induction false} Second451OverScripts(job: Job, mains: seq<Plan>, start: nat, backups: seq<Plan>, id: string)
    returns (x: Contact)
    requires AllFeasible(job, mains) && AllFeasible(job, backups) && (mains == [] || start < |mains|)
    requires DistinctIds(Members(job, mains) + Members(job, backups))
    requires ReportsAbsence(Outcome(job, mains, start, backups).resp)
    requires var e := LastBy(id, Outcome(job, mains, start, backups).resp.attempts); e.Some? && Is451(e.value)
    ensures ConcludesBy451(job, Outcome(job, mains, start, backups), id, x)
    ensures Second451(Said(job, x)) <==> Responded(x)
    ensures (forall p :: p in mains + backups ==> Peaceful(job, p)) ==> Second451(Said(job, x))
  {
    var bs := Members(job, backups);
    var order := VisitOrder(job, mains, start, backups);
    forall m | m in order + bs ensures BothConfirm(m) {
      var p := MemberIsPlanned(job, mains, backups, order, m);
      PlansConfirm(job, p);
    }
    x := Second451Concludes(job, order, bs, id);
    SendContactsMembers(job, order, bs);
    var p := MemberIsPlanned(job, mains, backups, order, x.member);
    PlansConfirm(job, p);
    AbsenceKeepsAll(job, order, bs);
  }

  // ---------------------------------------------------------------------------
  // The caller's writer

  /** Decoded bytes of this dispatch reached the caller's writer. */
  predicate TurnWrote(t: Turn) { !t.event.SlotFailed? && t.event.wrote }

  /** The dispatch a finished call returned from. */
  function LastTurn(req: Request, p: Provider, script: seq<Turn>, loop: Loop): (t: Turn)
    requires RetryFrom(req, p, script, loop).Returned?
    ensures t in script
  {
    var a := TryGroup(req, p, loop.young, script[0]);
    match Decide(req, p, Record(loop, script[0], a), script[0], a)
    case Again(next) => LastTurn(req, p, script[1..], next)
    case _ => script[0]
  }

  /** The provider was removed in the middle of an attempt that wrote. */
  predicate Removes(t: Turn) { t.event == GroupRemoved(true) }

  /** The provider was removed in the middle of the attempt its call ended with, which wrote. */
  predicate RemovedWriting(job: Job, p: Plan) {
    && p.acquired.Granted? && CallRun(job, p).Returned?
    && Removes(LastTurn(job.req, p.provider, p.script, Start(p.acquired.lease.probe)))
  }

  /** A call that wrote and came back without a response was interrupted by a removal, or its
      caller had departed. */
  lemma {:induction false} AbandonedWasRemoved(req: Request, p: Provider, script: seq<Turn>, loop: Loop)
    requires req.writer && LegalScript(req, script) && AtHeadOfLoop(req, p, loop)
    requires RetryFrom(req, p, script, loop).Returned?
    ensures var a := RetryFrom(req, p, script, loop).answer;
            !a.ok && !a.cancelled && a.writes > 0 && !Departed(a) <==> Removes(LastTurn(req, p, script, loop))
  {
    var t := script[0];
    var a := TryGroup(req, p, loop.young, t);
    var d := Decide(req, p, Record(loop, t, a), t, a);
    if d.Again? {
      AgainKeeps(req, p, loop, t, a);
      AbandonedWasRemoved(req, p, script[1..], d.loop);
    }
  }

  lemma AbandonedCallWasRemoved(job: Job, p: Plan)
    requires job.req.writer && Feasible(job, p)
    ensures Abandoned(Called(MemberOf(job, p))) && !Departed(MemberOf(job, p).answer) <==> RemovedWriting(job, p)
  {
    match p.acquired
    case Denied(_, _) =>
    case Granted(lease) => AbandonedWasRemoved(job.req, p.provider, p.script, Start(lease.probe));
  }

  /** Bytes in the caller's writer come from a dispatch of the script. */
  lemma {:induction false} SomeTurnWrote(req: Request, p: Provider, script: seq<Turn>, loop: Loop)
    requires RetryFrom(req, p, script, loop).loop.writes > loop.writes
    ensures exists i :: 0 <= i < |script| && TurnWrote(script[i])
  {
    var a := TryGroup(req, p, loop.young, script[0]);
    var d := Decide(req, p, Record(loop, script[0], a), script[0], a);
    if a.writes > 0 {
      assert TurnWrote(script[0]);
    } else {
      SomeTurnWrote(req, p, script[1..], d.loop);
      var i :| 0 <= i < |script[1..]| && TurnWrote(script[1..][i]);
      assert script[i + 1] == script[1..][i];
    }
  }

  /** The call of `p` returned because its caller had departed, and that of `q` came later. */
  ghost predicate DepartedBefore(job: Job, trail: seq<Contact>, p: Plan, q: Plan) {
    && Feasible(job, p) && Feasible(job, q) && Departed(MemberOf(job, p).answer)
    && exists i, j :: 0 <= i < j < |trail|
                      && trail[i] == Called(MemberOf(job, p)) && trail[j] == Called(MemberOf(job, q))
  }

  /** A command submitted once the context is done is failed before it is written. */
  ghost predicate WritesInTime(p: Plan, end: int) {
    forall i :: 0 <= i < |p.script| && TurnWrote(p.script[i]) ==> p.script[i].submitted < end
  }

  ghost predicate StartsLate(p: Plan, end: int) {
    forall i :: 0 <= i < |p.script| ==> p.script[i].submitted >= end
  }

  /** The caller's context is done at the instant `end` and stays done. A channel is closed empty
      only by a connection that saw the context done, so that whatever is dispatched after such
      a call is submitted from then on. */
  ghost predicate GoneStaysGone(job: Job, ps: seq<Plan>, trail: seq<Contact>, end: int) {
    && (forall p :: p in ps ==> WritesInTime(p, end))
    && (forall p, q :: p in ps && q in ps && DepartedBefore(job, trail, p, q) ==> StartsLate(q, end))
  }

  /** A caller who stays: no call returned because it had departed, and all dispatches were
      submitted before `end`. */
  ghost predicate AllStay(job: Job, ps: seq<Plan>, end: int) {
    forall p :: p in ps ==>
      && Feasible(job, p) && !Departed(MemberOf(job, p).answer)
      && forall i :: 0 <= i < |p.script| ==> p.script[i].submitted < end
  }

  lemma NobodyDeparts(job: Job, ps: seq<Plan>, trail: seq<Contact>, end: int)
    requires AllStay(job, ps, end)
    ensures GoneStaysGone(job, ps, trail, end)
  {
  }

  /** Nothing is written behind a departed caller. */
  lemma NothingBehindDeparted(job: Job, ps: seq<Plan>, trail: seq<Contact>, end: int, p: Plan, q: Plan)
    requires GoneStaysGone(job, ps, trail, end) && p in ps && q in ps && DepartedBefore(job, trail, p, q)
    ensures !Wrote(Called(MemberOf(job, q)))
  {
    PlansMeet(job, q);
    if Wrote(Called(MemberOf(job, q))) {
      SomeTurnWrote(job.req, q.provider, q.script, Start(q.acquired.lease.probe));
    }
  }

  /** Every call counted in a request is one of the plans', with all attempts of its retry loop. */
  ghost predicate CountsPlan(job: Job, ps: seq<Plan>, x: Contact) {
    exists p :: p in ps && Feasible(job, p) && x.member == MemberOf(job, p)
                && x.member.answer.writes == CallRun(job, p).loop.writes
  }

  /** A provider was removed in the middle of an attempt that wrote, and a later call wrote. */
  ghost predicate WritesAfterRemoval(job: Job, ps: seq<Plan>, trail: seq<Contact>) {
    exists i, j :: 0 <= i < j < |trail| && IsRemoved(job, ps, trail[i]) && Wrote(trail[j])
  }

  ghost predicate IsRemoved(job: Job, ps: seq<Plan>, x: Contact) {
    x.Called? && exists p :: p in ps && Feasible(job, p) && x.member == MemberOf(job, p) && RemovedWriting(job, p)
  }

  lemma {:induction false} PlansOnTheTrail(job: Job, mains: seq<Plan>, start: nat, backups: seq<Plan>)
    requires AllFeasible(job, mains) && AllFeasible(job, backups) && (mains == [] || start < |mains|)
    ensures forall x :: x in Outcome(job, mains, start, backups).trail ==> CountsPlan(job, mains + backups, x)
  {
    var bs := Members(job, backups);
    var order := VisitOrder(job, mains, start, backups);
    SendContactsMembers(job, order, bs);
    forall x | x in Outcome(job, mains, start, backups).trail ensures CountsPlan(job, mains + backups, x) {
      var p := MemberIsPlanned(job, mains, backups, order, x.member);
      PlansMeet(job, p);
    }
  }

  /** A second writer behind an abandoned call means that its provider was removed: a departed
      caller's writer is not written to again. */
  lemma AgainMeansRemoved(job: Job, ps: seq<Plan>, trail: seq<Contact>, end: int, i: nat, j: nat)
    requires job.req.writer && GoneStaysGone(job, ps, trail, end)
    requires i < j < |trail| && CountsPlan(job, ps, trail[i]) && CountsPlan(job, ps, trail[j])
    ensures Abandoned(trail[i]) && Wrote(trail[j]) <==> IsRemoved(job, ps, trail[i]) && Wrote(trail[j])
  {
    var p :| p in ps && Feasible(job, p) && trail[i].member == MemberOf(job, p);
    var q :| q in ps && Feasible(job, q) && trail[j].member == MemberOf(job, q);
    AbandonedCallWasRemoved(job, p);
    if Abandoned(trail[i]) && Wrote(trail[j]) && Departed(trail[i].member.answer) {
      assert DepartedBefore(job, trail, p, q);
      NothingBehindDeparted(job, ps, trail, end, p, q);
    }
    if IsRemoved(job, ps, trail[i]) {
      var r :| r in ps && Feasible(job, r) && trail[i].member == MemberOf(job, r) && RemovedWriting(job, r);
      AbandonedCallWasRemoved(job, r);
    }
  }

  /** Some script has a removal in the middle of an attempt that writes. */
  ghost predicate SomeRemoval(ps: seq<Plan>) {
    exists p :: p in ps && exists i :: 0 <= i < |p.script| && Removes(p.script[i])
  }

  lemma RemovedIsSomeRemoval(job: Job, ps: seq<Plan>, x: Contact)
    requires IsRemoved(job, ps, x)
    ensures SomeRemoval(ps)
  {
    var p :| p in ps && Feasible(job, p) && x.member == MemberOf(job, p) && RemovedWriting(job, p);
    var t := LastTurn(job.req, p.provider, p.script, Start(p.acquired.lease.probe));
    var k :| 0 <= k < |p.script| && p.script[k] == t;
    assert Removes(p.script[k]);
  }

  lemma SecondWriterMeansRemoval(job: Job, ps: seq<Plan>, trail: seq<Contact>, end: int)
    requires job.req.writer && GoneStaysGone(job, ps, trail, end)
    requires forall x :: x in trail ==> CountsPlan(job, ps, x)
    ensures WritesAgain(trail) <==> WritesAfterRemoval(job, ps, trail)
    ensures WritesAgain(trail) ==> SomeRemoval(ps)
  {
    if WritesAgain(trail) {
      var i, j :| 0 <= i < j < |trail| && Abandoned(trail[i]) && Wrote(trail[j]);
      assert trail[i] in trail && trail[j] in trail;
      AgainMeansRemoved(job, ps, trail, end, i, j);
      RemovedIsSomeRemoval(job, ps, trail[i]);
    }
    if WritesAfterRemoval(job, ps, trail) {
      var i, j :| 0 <= i < j < |trail| && IsRemoved(job, ps, trail[i]) && Wrote(trail[j]);
      assert trail[i] in trail && trail[j] in trail;
      AgainMeansRemoved(job, ps, trail, end, i, j);
    }
  }

  /** At most one attempt writes to the caller's writer, counting all attempts of every retry
      loop, winner, main and backup. More than one does if and only if a call that wrote came
      back without a response and a later call wrote; and that is, if and only if a provider
      was removed in the middle of an attempt that wrote and a later call wrote. */
  lemma {:induction false} OneWriterOverScripts(job: Job, mains: seq<Plan>, start: nat, backups: seq<Plan>, end: int)
    requires job.req.writer
    requires AllFeasible(job, mains) && AllFeasible(job, backups) && (mains == [] || start < |mains|)
    ensures var ps, trail := mains + backups, Outcome(job, mains, start, backups).trail;
            && (forall x :: x in trail ==> CountsPlan(job, ps, x))
            && (Writes(trail) >= 2 <==> WritesAgain(trail))
            && (GoneStaysGone(job, ps, trail, end) ==>
                  && (Writes(trail) >= 2 <==> WritesAfterRemoval(job, ps, trail))
                  && (!SomeRemoval(ps) ==> Writes(trail) <= 1))
  {
    var ps, trail := mains + backups, Outcome(job, mains, start, backups).trail;
    var order := VisitOrder(job, mains, start, backups);
    AtMostOneWriter(job, order, Members(job, backups));
    PlansOnTheTrail(job, mains, start, backups);
    if GoneStaysGone(job, ps, trail, end) { SecondWriterMeansRemoval(job, ps, trail, end); }
  }

  // ---------------------------------------------------------------------------
  // It happens

  /** The provider is admitted, and its one dispatch comes back like this. */
  ghost predicate OneShot(p: Plan, t: Turn) {
    !p.overQuota && p.acquired.Granted? && p.script == [t]
  }

  lemma {:induction false} OneShotReturns(job: Job, p: Plan, t: Turn)
    requires OneShot(p, t)
    ensures var a := TryGroup(job.req, p.provider, p.acquired.lease.probe, t);
            (!a.ok || (job.req.writer && a.committed)) && !a.cancelled ==>
              CallRun(job, p) == Returned(a, Record(Start(p.acquired.lease.probe), t, a))
  {
    var a, start := TryGroup(job.req, p.provider, p.acquired.lease.probe, t), Start(p.acquired.lease.probe);
    assert Record(start, t, a).attempts == a.attempts;
    assert p.script[0] == t;
  }

  lemma OnePass(ms: seq<Member>)
    requires ms != []
    ensures Rotate(ms, 0) == ms
  {
  }

  lemma {:induction false} TwoPlans(job: Job, ps: seq<Plan>, none: seq<Plan>)
    requires |ps| == 2 && AllFeasible(job, ps) && none == []
    ensures Outcome(job, ps, 0, none) == Send(job, [MemberOf(job, ps[0]), MemberOf(job, ps[1])], [])
  {
    var ms := Members(job, ps);
    OnePass(ms);
    assert ms == [ms[0], ms[1]] && Members(job, none) == [];
  }

  lemma TwoCalls(a: Member, b: Member)
    ensures Writes([Called(a), Called(b)]) == a.answer.writes + b.answer.writes
  {
    assert [Called(a), Called(b)][..1] == [Called(a)] && [Called(a)][..0] == [];
    assert Writes([Called(a)]) == Writes([]) + a.answer.writes;
  }

  lemma {:induction false} RemovedThenServed(job: Job, a: Member, b: Member)
    requires !a.quotaExceeded && !a.answer.cancelled && !a.answer.ok && !b.quotaExceeded && Serves(b.answer)
    ensures Send(job, [a, b], []).trail == [Called(a), Called(b)]
  {
    var next := Acc([] + a.answer.attempts, None, None, [] + [Called(a)]);
    assert [a, b][1..] == [b];
    assert Mains(job, [a, b], NOTHING) == Mains(job, [b], next);
    assert [] + [Called(a)] + [Called(b)] == [Called(a), Called(b)];
  }

  /** What the removed provider's call gives, and what the serving one's. */
  lemma {:induction false} ShotAnswers(job: Job, p: Plan, t: Turn)
    requires job.req.writer && Feasible(job, p) && OneShot(p, t)
    ensures var a := MemberOf(job, p).answer;
            && (t.event == GroupRemoved(true) ==> !a.ok && !a.cancelled && a.err.Some? && a.writes == 1)
            && (t.event.Reply? && t.event.created >= t.submitted && t.event.code == 222 && t.event.err == None
                && t.event.wrote
                ==> Serves(a) && a.writes == 1)
  {
    OneShotReturns(job, p, t);
  }

  lemma {:induction false} TwoOnTheTrail(job: Job, ps: seq<Plan>)
    requires |ps| == 2 && AllFeasible(job, ps) && !ps[0].overQuota && !ps[1].overQuota
    requires var a := MemberOf(job, ps[0]).answer; !a.cancelled && !a.ok && a.writes == 1
    requires var b := MemberOf(job, ps[1]).answer; Serves(b) && b.writes == 1
    ensures Writes(Outcome(job, ps, 0, []).trail) == 2
  {
    var a, b := MemberOf(job, ps[0]), MemberOf(job, ps[1]);
    TwoPlans(job, ps, []);
    RemovedThenServed(job, a, b);
    TwoCalls(a, b);
  }

  /** The first provider is removed while its one attempt writes, the second serves. */
  ghost predicate RemovedThenServing(ps: seq<Plan>, s: Turn, t: Turn) {
    && |ps| == 2 && OneShot(ps[0], s) && OneShot(ps[1], t) && s.event == GroupRemoved(true)
    && t.event.Reply? && t.event.created >= t.submitted && t.event.code == 222 && t.event.err == None && t.event.wrote
  }

  /** Then the caller's writer receives bytes from both, and no caller departed. */
  lemma {:induction false} ARemovalWritesTwice(job: Job, ps: seq<Plan>, s: Turn, t: Turn)
    requires job.req.writer && AllFeasible(job, ps) && RemovedThenServing(ps, s, t)
    ensures Writes(Outcome(job, ps, 0, []).trail) == 2
    ensures !Departed(MemberOf(job, ps[0]).answer) && !Departed(MemberOf(job, ps[1]).answer)
  {
    assert Feasible(job, ps[0]) && Feasible(job, ps[1]);
    ShotAnswers(job, ps[0], s);
    ShotAnswers(job, ps[1], t);
    TwoOnTheTrail(job, ps);
  }

  /** Such providers can be had: admitted, with one dispatch, and denying a STAT. */
  lemma {:induction false} SuchPlansExist(job: Job, provider: Provider, lease: Breaker.Lease, t: Turn) returns (p: Plan)
    requires job.req.writer && MayWrite(job.req) && !lease.probe
    requires t.event == GroupRemoved(true) || t.event == Reply(t.submitted, AtHead, 222, None, true, true)
    ensures Feasible(job, p) && OneShot(p, t) && p.provider == provider
  {
    var denied := Turn(t.submitted, Reply(t.submitted, AtHead, 430, None, true, false), false);
    p := Plan(provider, false, Breaker.Granted(lease), None, [t], Breaker.Granted(lease), None, [denied]);
    OneShotReturns(job, p, t);
    assert p.probeScript[0] == denied && p.script[0] == t;
    assert RetryFrom(STAT_REQUEST, provider, [denied], Start(false)).Returned?;
  }
}
