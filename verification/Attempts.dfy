/**
 * One provider's share of a request (nntp.go: tryGroup, tryGroupResilient): dispatching,
 * evidence, the bounded same-provider retries and the breaker lease around them.
 *
 * The connections, the clock and the contexts are the environment: a script of turns
 * says how each dispatched request came back.
 */
module Attempts {
  import opened Basics
  import opened Errors
  import Breaker

  const MAX_CONN_DIED_RETRIES := 2

  datatype Request = Request(op: Operation, writer: bool)

  datatype Provider = Provider(id: string, absentAfterRetry: bool)

  /** How far a request got on its connection. */
  datatype Reach = Unwritten | Queued | AtHead

  /** How a dispatched request comes back. `wrote` says whether decoded bytes of the
      attempt reached the caller's writer, `open` whether the request's context was still
      open when its evidence was made. */
  datatype Event =
    | ClientDone(why: Mark, wrote: bool)
    | CallerDone(why: Mark, wrote: bool)
    | GroupRemoved(wrote: bool)
    | ClosedEmpty(wrote: bool)
    | SlotFailed(cause: Error)
    | Reply(created: int, reach: Reach, code: int, err: Option<Error>, open: bool, wrote: bool)

  /** One dispatch: when it was submitted, how it came back, and whether the caller
      went away during the pause that precedes a 451 retry. */
  datatype Turn = Turn(submitted: int, event: Event, delayCancelled: bool)

  /** What tryGroup and tryGroupResilient return. `committed` is the flag the response's
      request carries; `writes` counts the attempts behind the answer whose decoded bytes
      reached the caller's writer. */
  datatype Answer = Answer(
    code: int,
    err: Option<Error>,
    attempts: seq<Evidence>,
    ok: bool,
    cancelled: bool,
    committed: bool,
    writes: nat,
    reach: Reach)

  function Count(wrote: bool): nat { if wrote then 1 else 0 }

  /** The provider kept an open request waiting at the response head for too long. */
  predicate TimedOut(reach: Reach, open: bool, err: Option<Error>) {
    reach == AtHead && open && err.Some? && FirstNetwork(err.value) == Some(true)
  }

  function Attempted(req: Request, p: Provider, code: int, err: Option<Error>, timedOut: bool): seq<Evidence> {
    [BuildEvidence(req.op, p.absentAfterRetry, p.id, code, err, timedOut)]
  }

  function FailAttempt(req: Request, p: Provider, cause: Error, done: bool, wrote: bool): Answer {
    Answer(0, Some(cause), Attempted(req, p, 0, Some(cause), false), false, done, wrote, Count(wrote), Unwritten)
  }

  /** A request that demands a fresh transport is refused by a connection created before
      it was submitted. */
  predicate Refuses(young: bool, t: Turn) {
    t.event.Reply? && young && t.event.created < t.submitted
  }

  function TryGroup(req: Request, p: Provider, young: bool, t: Turn): Answer {
    match t.event
    case ClientDone(why, wrote) => FailAttempt(req, p, Sentinel(why), true, wrote)
    case CallerDone(why, wrote) => FailAttempt(req, p, Sentinel(why), true, wrote)
    case GroupRemoved(wrote) => FailAttempt(req, p, Sentinel(ConnectionDied), false, wrote)
    case ClosedEmpty(wrote) => Answer(0, None, [], false, false, false, Count(wrote), Unwritten)
    case SlotFailed(err) =>
      Answer(0, Some(err), Attempted(req, p, 0, Some(err), false), true, false, false, 0, Unwritten)
    case Reply(created, reach, code, err, open, wrote) =>
      if Refuses(young, t) then
        Answer(0, Some(Sentinel(FreshTransportRequired)), [], true, false, false, 0, Unwritten)
      else
        Answer(code, err, Attempted(req, p, code, err, TimedOut(reach, open, err)), true, false, wrote, Count(wrote),
               reach)
  }

  predicate FreshRequired(a: Answer) { a.err.Some? && IsMark(a.err.value, FreshTransportRequired) }

  // ---------------------------------------------------------------------------
  // The retry loop

  /** One evidence-bearing dispatch: under which demand it ran and on which connection. */
  datatype Service = Service(young: bool, submitted: int, created: Option<int>)

  function ServiceOf(young: bool, t: Turn): Service {
    Service(young, t.submitted, if t.event.Reply? then Some(t.event.created) else None)
  }

  datatype Loop = Loop(
    attempts: seq<Evidence>,
    services: seq<Service>,
    connRetries: nat,
    temporaryRetried: bool,
    mapped451Retry: bool,
    young: bool,
    writes: nat)

  datatype Run = Waiting(loop: Loop) | Returned(answer: Answer, loop: Loop)

  function Record(loop: Loop, t: Turn, a: Answer): Loop {
    loop.(attempts := loop.attempts + a.attempts,
          services := loop.services + (if a.attempts == [] then [] else [ServiceOf(loop.young, t)]),
          writes := loop.writes + a.writes)
  }

  /** The answer a call returns: the last attempt's, with the evidence and writes of all. */
  function Final(a: Answer, loop: Loop): Answer { a.(attempts := loop.attempts, writes := loop.writes) }

  datatype Decision = Stop | StopCancelled | Again(loop: Loop)

  /** What the loop does with an answer, `loop` already holding its evidence. */
  function Decide(req: Request, p: Provider, loop: Loop, t: Turn, a: Answer): Decision {
    if a.cancelled || !a.ok then Stop
    else if req.writer && a.committed then Stop
    else if FreshRequired(a) then Again(loop)
    else if !loop.temporaryRetried && a.err.None? && a.code == 451 then
      if t.delayCancelled then StopCancelled
      else
        Again(loop.(temporaryRetried := true, mapped451Retry := Maps451(p.absentAfterRetry, req.op, a.code),
                    young := true))
    else if loop.mapped451Retry && IsConnectionDeath(a.err) then Stop
    else if loop.connRetries < MAX_CONN_DIED_RETRIES && IsConnectionDeath(a.err) then
      Again(loop.(connRetries := loop.connRetries + 1))
    else Stop
  }

  function RetryFrom(req: Request, p: Provider, script: seq<Turn>, loop: Loop): Run {
    if script == [] then Waiting(loop)
    else
      var a := TryGroup(req, p, loop.young, script[0]);
      var now := Record(loop, script[0], a);
      match Decide(req, p, now, script[0], a)
      case Stop => Returned(Final(a, now), now)
      case StopCancelled => Returned(Final(a, now).(cancelled := true), now)
      case Again(next) => RetryFrom(req, p, script[1..], next)
  }

  function Start(young: bool): Loop { Loop([], [], 0, false, false, young, 0) }

  /** The breaker refused: no attempt is made, but the refusal is evidence. */
  function RefusedAnswer(req: Request, p: Provider, gone: Option<Mark>): Answer {
    var cause := Sentinel(if gone.Some? then gone.value else BreakerOpen);
    Answer(0, Some(cause), Attempted(req, p.(absentAfterRetry := false), 0, Some(cause), false),
           gone.None?, gone.Some?, false, 0, Unwritten)
  }

  /** Some attempt was answered 451 and the provider's policy took that for absence. */
  predicate Took451ForAbsence(attempts: seq<Evidence>) {
    exists i :: 0 <= i < |attempts| && attempts[i].code == 451 && attempts[i].outcome == HardAbsence
  }

  /** Breaker accounting of one finished provider request. */
  function Completion(a: Answer): Breaker.Completion {
    if a.cancelled || !a.ok || a.attempts == [] || Took451ForAbsence(a.attempts) then Breaker.Neutral
    else
      var final := a.attempts[|a.attempts| - 1];
      match final.outcome
      case Success => Breaker.Succeeded
      case TemporaryFailure =>
        if final.cause.Some? && IsMark(final.cause.value, BreakerOpen) then Breaker.Neutral else Breaker.Failed
      case TransportFailure =>
        if final.timedOut || a.reach != Queued then Breaker.Failed else Breaker.Neutral
      case _ => Breaker.Neutral
  }

  function Resilient(req: Request, p: Provider, young: bool, acquired: Breaker.Acquired, gone: Option<Mark>,
                     script: seq<Turn>): Run
  {
    match acquired
    case Denied(_, _) => Returned(RefusedAnswer(req, p, gone), Start(young))
    case Granted(lease) => RetryFrom(req, p, script, Start(young || lease.probe))
  }

  /** The retry loop as the client runs it. Whatever the script, the breaker sees exactly
      one acquire and, once the call returns after being admitted, exactly one completion. */
  method TryGroupResilient(b: Breaker.ProviderBreaker, req: Request, p: Provider, young: bool, script: seq<Turn>,
                           at: int, gone: Option<Mark>, done: int, later: int)
    returns (run: Run, acquired: Breaker.Acquired)
    modifies b
    ensures acquired.Granted? <==> !b.enabled || Breaker.Admits(old(b.Value()), at)
    ensures !b.enabled ==> b.Value() == old(b.Value())
    ensures run == Resilient(req, p, young, acquired, gone, script)
    ensures b.enabled && (acquired.Denied? || run.Waiting?) ==> b.Value() == Breaker.AfterAcquire(old(b.Value()), at)
    ensures b.enabled && acquired.Granted? && run.Returned? ==>
              b.Value() == Breaker.AfterComplete(Breaker.AfterAcquire(old(b.Value()), at), acquired.lease,
                                                 Completion(run.answer), done, later)
  {
    acquired := b.Acquire(at);
    if acquired.Denied? {
      run := Returned(RefusedAnswer(req, p, gone), Start(young));
      return;
    }
    var loop := Start(young || acquired.lease.probe);
    var i := 0;
    while i < |script|
      invariant 0 <= i <= |script|
      invariant b.Value() == if b.enabled then Breaker.AfterAcquire(old(b.Value()), at) else old(b.Value())
      invariant RetryFrom(req, p, script[i..], loop) == RetryFrom(req, p, script, Start(young || acquired.lease.probe))
    {
      assert script[i..][0] == script[i] && script[i..][1..] == script[i + 1..];
      var a := TryGroup(req, p, loop.young, script[i]);
      var now := Record(loop, script[i], a);
      match Decide(req, p, now, script[i], a) {
        case Stop =>
          run := Returned(Final(a, now), now);
          b.Complete(acquired.lease, Completion(run.answer), done, later);
          return;
        case StopCancelled =>
          run := Returned(Final(a, now).(cancelled := true), now);
          b.Complete(acquired.lease, Completion(run.answer), done, later);
          return;
        case Again(next) =>
          loop := next;
      }
      i := i + 1;
    }
    run := Waiting(loop);
  }

  // ---------------------------------------------------------------------------
  // Bounds on the loop

  /** How many more evidence-bearing attempts the loop may still make. */
  function Budget(loop: Loop): int {
    if loop.mapped451Retry then 1
    else MAX_CONN_DIED_RETRIES + 1 - loop.connRetries + (if loop.temporaryRetried then 0 else 1)
  }

  /** Errors of the pool's own making are always wrapped with the provider name, decoded
      bytes exist only for a 220 or 222 reply to BODY or ARTICLE, and neither such a reply's
      failure nor any other error reports "not found" next to a higher-ranked class. */
  predicate Legal(req: Request, t: Turn) {
    match t.event
    case ClientDone(why, wrote) => (why == Canceled || why == DeadlineExceeded) && (wrote ==> MayWrite(req))
    case CallerDone(why, wrote) => (why == Canceled || why == DeadlineExceeded) && (wrote ==> MayWrite(req))
    case GroupRemoved(wrote) => wrote ==> MayWrite(req)
    case ClosedEmpty(wrote) => wrote ==> MayWrite(req)
    case SlotFailed(err) => LegalError(0, err)
    case Reply(_, _, code, err, _, wrote) =>
      && (err.Some? ==> LegalError(code, err.value))
      && (wrote ==> MayWrite(req) && (code == 220 || code == 222) && (err.Some? ==> !IsNotFound(err.value)))
  }

  predicate MayWrite(req: Request) { req.op == Body || req.op == Article }

  predicate LegalError(code: int, e: Error) {
    && !e.Protocol? && !e.Transport?
    && !IsMark(e, FreshTransportRequired)
    && !(IsNotFound(e) && OutranksAbsence(code, e))
  }

  ghost predicate LegalScript(req: Request, script: seq<Turn>) {
    forall i :: 0 <= i < |script| ==> Legal(req, script[i])
  }

  /** The evidence of a 451 reply. */
  predicate Is451(e: Evidence) { e.cause == Some(Protocol(451)) }

  /** A demand for a fresh transport was served by no connection older than the submission. */
  predicate Honoured(s: Service) {
    s.young && s.created.Some? ==> s.submitted <= s.created.value
  }

  /** What holds of the evidence gathered so far, wherever the loop stands or stopped:
      every attempt after a 451 ran on a fresh transport. */
  ghost predicate Gathered(req: Request, p: Provider, loop: Loop) {
    && |loop.services| == |loop.attempts|
    && (forall e :: e in loop.attempts ==> e.provider == p.id && Genuine(e))
    && (forall j :: 0 <= j < |loop.services| ==> Honoured(loop.services[j]))
    && (forall i, j :: 0 <= i < j < |loop.attempts| && Is451(loop.attempts[i]) ==> loop.services[j].young)
  }

  /** What holds at the head of the loop. */
  ghost predicate AtHeadOfLoop(req: Request, p: Provider, loop: Loop) {
    && Gathered(req, p, loop)
    && loop.connRetries <= MAX_CONN_DIED_RETRIES
    && (loop.mapped451Retry ==> loop.temporaryRetried)
    && (loop.temporaryRetried ==> loop.young)
    && (!loop.temporaryRetried ==> forall i :: 0 <= i < |loop.attempts| ==> !Is451(loop.attempts[i]))
    && (loop.temporaryRetried && Maps451(p.absentAfterRetry, req.op, 451) ==> loop.mapped451Retry)
    && (loop.mapped451Retry ==> forall i :: 0 <= i < |loop.attempts| - 1 ==> !Is451(loop.attempts[i]))
    && (forall e :: e in loop.attempts ==> e.outcome != Success)
    && (req.writer ==> loop.writes == 0)
  }

  lemma TryGroupEvidence(req: Request, p: Provider, young: bool, t: Turn)
    requires Legal(req, t)
    ensures var a := TryGroup(req, p, young, t);
            && |a.attempts| <= 1
            && (a.attempts != [] ==> a.attempts[0].provider == p.id && Genuine(a.attempts[0]))
            && (a.attempts != [] ==> Honoured(ServiceOf(young, t)))
            && (FreshRequired(a) ==> a.attempts == [] && a.writes == 0)
            && (a.attempts != [] ==> (Is451(a.attempts[0]) <==> a.err.None? && a.code == 451))
            && (a.ok && !FreshRequired(a) ==> a.attempts != [])
  {
  }

  lemma RecordKeeps(req: Request, p: Provider, loop: Loop, t: Turn)
    requires AtHeadOfLoop(req, p, loop) && Legal(req, t)
    ensures Gathered(req, p, Record(loop, t, TryGroup(req, p, loop.young, t)))
  {
    TryGroupEvidence(req, p, loop.young, t);
    GatheredSnoc(req, p, loop, TryGroup(req, p, loop.young, t), t);
  }

  lemma GatheredSnoc(req: Request, p: Provider, loop: Loop, a: Answer, t: Turn)
    requires AtHeadOfLoop(req, p, loop)
    requires |a.attempts| <= 1
    requires a.attempts != [] ==> a.attempts[0].provider == p.id && Genuine(a.attempts[0])
    requires a.attempts != [] ==> Honoured(ServiceOf(loop.young, t))
    ensures Gathered(req, p, Record(loop, t, a))
  {
    var now := Record(loop, t, a);
    if a.attempts == [] {
      assert now.attempts == loop.attempts;
    } else {
      assert now.attempts == loop.attempts + [a.attempts[0]];
      assert forall i :: 0 <= i < |loop.attempts| && Is451(loop.attempts[i]) ==> loop.young;
    }
  }

  lemma AgainKeeps(req: Request, p: Provider, loop: Loop, t: Turn, a: Answer)
    requires AtHeadOfLoop(req, p, loop) && Legal(req, t) && a == TryGroup(req, p, loop.young, t)
    requires Decide(req, p, Record(loop, t, a), t, a).Again?
    ensures var next := Decide(req, p, Record(loop, t, a), t, a).loop;
            AtHeadOfLoop(req, p, next) && |next.attempts| + Budget(next) <= |loop.attempts| + Budget(loop)
  {
    RecordKeeps(req, p, loop, t);
    TryGroupEvidence(req, p, loop.young, t);
    var now := Record(loop, t, a);
    if a.attempts != [] {
      assert now.attempts == loop.attempts + [a.attempts[0]];
      assert (a.err.None? && a.code == 451) || IsConnectionDeath(a.err);
    } else {
      assert now.attempts == loop.attempts;
    }
  }

  // ---------------------------------------------------------------------------
  // What an answer tells its caller

  /** The class of the final evidence, read off the answer. */
  function Expected(req: Request, p: Provider, a: Answer): Outcome {
    if a.err.None? && Maps451(p.absentAfterRetry, req.op, a.code) then HardAbsence
    else ClassifyOutcome(a.code, if a.err.Some? then a.err else ToError(a.code))
  }

  ghost predicate Concludes(req: Request, p: Provider, a: Answer) {
    && a.attempts != []
    && a.attempts[|a.attempts| - 1].code == a.code
    && a.attempts[|a.attempts| - 1].outcome == Expected(req, p, a)
  }

  /** The contract between one provider's retry loop and the failover engine. */
  ghost predicate Meets(req: Request, p: Provider, a: Answer) {
    && (forall e :: e in a.attempts ==> e.provider == p.id && Genuine(e))
    && (a.ok && !a.cancelled ==> Concludes(req, p, a))
    && (!a.ok && a.attempts != [] ==> a.attempts[|a.attempts| - 1].outcome != Success)
    && (a.err.Some? ==> !a.err.value.Transport?)
    && (a.ok && a.committed ==> (a.code == 220 || a.code == 222) && (a.err.Some? ==> !IsNotFound(a.err.value)))
    && (req.writer ==> a.writes <= 1 && (a.ok ==> (a.committed <==> a.writes == 1)))
  }

  lemma TryMeets(req: Request, p: Provider, young: bool, t: Turn)
    requires Legal(req, t)
    ensures var a := TryGroup(req, p, young, t);
            !FreshRequired(a) ==> Meets(req, p, a) && (a.ok ==> a.attempts != [])
  {
    TryGroupEvidence(req, p, young, t);
  }

  /** Earlier failed attempts in front of an answer. */
  lemma MeetsAfter(req: Request, p: Provider, earlier: seq<Evidence>, a: Answer)
    requires Meets(req, p, a) && (a.ok ==> a.attempts != [])
    requires forall e :: e in earlier ==> e.provider == p.id && Genuine(e) && e.outcome != Success
    ensures Meets(req, p, a.(attempts := earlier + a.attempts))
  {
    var all := earlier + a.attempts;
    if a.attempts != [] {
      assert all[|all| - 1] == a.attempts[|a.attempts| - 1];
    } else {
      assert all == earlier;
    }
  }

  lemma StopMeets(req: Request, p: Provider, loop: Loop, t: Turn, a: Answer)
    requires AtHeadOfLoop(req, p, loop) && Legal(req, t) && a == TryGroup(req, p, loop.young, t)
    ensures !FreshRequired(a) ==> Meets(req, p, Final(a, Record(loop, t, a)))
  {
    TryMeets(req, p, loop.young, t);
    if !FreshRequired(a) { MeetsAfter(req, p, loop.attempts, a); }
  }

  /** Whatever the environment does, a call ends with evidence that is genuine and bounded,
      with a retried 451 confined to the last two attempts of a provider that maps it, with
      fresh transports after any 451, and with at most one attempt in the caller's writer. */
  ghost predicate EndsWell(req: Request, p: Provider, run: Run, limit: int) {
    && Gathered(req, p, run.loop)
    && |run.loop.attempts| <= limit
    && (Maps451(p.absentAfterRetry, req.op, 451) ==>
          forall i :: 0 <= i < |run.loop.attempts| - 2 ==> !Is451(run.loop.attempts[i]))
    && (req.writer ==> run.loop.writes <= 1)
    && (run.Returned? ==>
          && run.answer.attempts == run.loop.attempts && run.answer.writes == run.loop.writes
          && Meets(req, p, run.answer))
  }

  /** A 451 the provider maps is retried once, so it is among the last two attempts. */
  lemma MappedIsLate(req: Request, p: Provider, loop: Loop, t: Turn, a: Answer)
    requires AtHeadOfLoop(req, p, loop) && |a.attempts| <= 1 && Maps451(p.absentAfterRetry, req.op, 451)
    ensures var all := Record(loop, t, a).attempts; forall i :: 0 <= i < |all| - 2 ==> !Is451(all[i])
  {
    var all := Record(loop, t, a).attempts;
    assert forall i :: 0 <= i < |loop.attempts| ==> all[i] == loop.attempts[i];
  }

  lemma StopEndsWell(req: Request, p: Provider, loop: Loop, t: Turn, a: Answer)
    requires AtHeadOfLoop(req, p, loop) && Legal(req, t) && a == TryGroup(req, p, loop.young, t)
    requires !Decide(req, p, Record(loop, t, a), t, a).Again?
    ensures var now := Record(loop, t, a);
            var answer := if Decide(req, p, now, t, a).Stop? then Final(a, now) else Final(a, now).(cancelled := true);
            EndsWell(req, p, Returned(answer, now), |loop.attempts| + Budget(loop))
  {
    RecordKeeps(req, p, loop, t);
    TryGroupEvidence(req, p, loop.young, t);
    StopMeets(req, p, loop, t, a);
    if Maps451(p.absentAfterRetry, req.op, 451) { MappedIsLate(req, p, loop, t, a); }
  }

  lemma {:induction false} RetryEndsWell(req: Request, p: Provider, script: seq<Turn>, loop: Loop)
    requires LegalScript(req, script) && AtHeadOfLoop(req, p, loop)
    ensures EndsWell(req, p, RetryFrom(req, p, script, loop), |loop.attempts| + Budget(loop))
  {
    if script == [] {
    } else {
      var t := script[0];
      var a := TryGroup(req, p, loop.young, t);
      var d := Decide(req, p, Record(loop, t, a), t, a);
      if d.Again? {
        AgainKeeps(req, p, loop, t, a);
        RetryEndsWell(req, p, script[1..], d.loop);
        WidenLimit(req, p, RetryFrom(req, p, script[1..], d.loop),
                   |d.loop.attempts| + Budget(d.loop), |loop.attempts| + Budget(loop));
      } else {
        StopEndsWell(req, p, loop, t, a);
      }
    }
  }

  lemma WidenLimit(req: Request, p: Provider, run: Run, small: int, large: int)
    requires EndsWell(req, p, run, small) && small <= large
    ensures EndsWell(req, p, run, large)
  {
  }

  /** The whole provider call: at most four evidence-bearing attempts, at most one of them
      after a mapped 451, every attempt after a 451 on a connection no older than its own
      submission, and an answer the failover engine can rely on. */
  lemma RetriesAreBounded(req: Request, p: Provider, young: bool, acquired: Breaker.Acquired,
                          gone: Option<Mark>, script: seq<Turn>)
    requires LegalScript(req, script)
    requires gone.Some? ==> gone.value == Canceled || gone.value == DeadlineExceeded
    ensures var run := Resilient(req, p, young, acquired, gone, script);
            && (acquired.Granted? ==> EndsWell(req, p, run, 4))
            && (run.Returned? ==> Meets(req, p, run.answer) && |run.answer.attempts| <= 4)
            && (acquired.Denied? ==> run.answer.writes == 0 && |run.answer.attempts| == 1)
  {
    if acquired.Granted? {
      RetryEndsWell(req, p, script, Start(young || acquired.lease.probe));
    }
  }

  /** An attempt served after a 451 was made by a connection created no earlier than that
      attempt was submitted. */
  lemma FreshAfter451(req: Request, p: Provider, script: seq<Turn>, young: bool, i: nat, j: nat)
    requires LegalScript(req, script)
    requires i < j < |RetryFrom(req, p, script, Start(young)).loop.attempts|
    requires Is451(RetryFrom(req, p, script, Start(young)).loop.attempts[i])
    ensures var s := RetryFrom(req, p, script, Start(young)).loop.services;
            j < |s| && (s[j].created.Some? ==> s[j].submitted <= s[j].created.value)
  {
    RetryEndsWell(req, p, script, Start(young));
  }

  // ---------------------------------------------------------------------------
  // The second 451

  /** The evidence ends with a 451 that the provider's policy took for absence. */
  predicate EndsIn451(attempts: seq<Evidence>) {
    attempts != [] && Is451(attempts[|attempts| - 1]) && attempts[|attempts| - 1].outcome == HardAbsence
  }

  /** The attempt before the last was answered 451 as well. */
  predicate Second451(attempts: seq<Evidence>) {
    |attempts| >= 2 && Is451(attempts[|attempts| - 2])
  }

  /** An answer that ends in a mapped 451 has seen two of them, unless the channel of the retry
      closed empty. */
  predicate Confirmed451(a: Answer) {
    !a.cancelled && EndsIn451(a.attempts) ==> (Second451(a.attempts) <==> a.ok) && (!a.ok ==> a.err.None?)
  }

  /** What the loop knows about 451: absence only where the policy says so, and a retry under
      way was caused by the last attempt. */
  ghost predicate Knows451(req: Request, p: Provider, loop: Loop) {
    && (forall e :: e in loop.attempts && Is451(e) && e.outcome == HardAbsence ==>
          Maps451(p.absentAfterRetry, req.op, 451))
    && (loop.mapped451Retry ==> loop.attempts != [] && Is451(loop.attempts[|loop.attempts| - 1]))
  }

  lemma Try451(req: Request, p: Provider, young: bool, t: Turn)
    requires Legal(req, t)
    ensures var a := TryGroup(req, p, young, t);
            a.attempts != [] && Is451(a.attempts[0]) && a.attempts[0].outcome == HardAbsence ==>
              a.ok && !a.cancelled && Maps451(p.absentAfterRetry, req.op, 451)
  {
    TryGroupEvidence(req, p, young, t);
  }

  lemma Again451(req: Request, p: Provider, loop: Loop, t: Turn, a: Answer)
    requires AtHeadOfLoop(req, p, loop) && Knows451(req, p, loop)
    requires Legal(req, t) && a == TryGroup(req, p, loop.young, t)
    requires Decide(req, p, Record(loop, t, a), t, a).Again?
    ensures Knows451(req, p, Decide(req, p, Record(loop, t, a), t, a).loop)
  {
    TryGroupEvidence(req, p, loop.young, t);
    Try451(req, p, loop.young, t);
    if a.attempts == [] {
      assert Record(loop, t, a).attempts == loop.attempts;
    } else {
      assert Record(loop, t, a).attempts == loop.attempts + [a.attempts[0]];
    }
  }

  /** The loop stops on a dispatch that left no evidence: its channel closed empty. */
  lemma StopEmpty451(req: Request, p: Provider, loop: Loop, t: Turn, a: Answer)
    requires AtHeadOfLoop(req, p, loop) && Knows451(req, p, loop)
    requires Legal(req, t) && a == TryGroup(req, p, loop.young, t)
    requires Decide(req, p, Record(loop, t, a), t, a).Stop? && a.attempts == []
    ensures Confirmed451(Final(a, Record(loop, t, a)))
  {
    var all := Record(loop, t, a).attempts;
    TryGroupEvidence(req, p, loop.young, t);
    assert all == loop.attempts && !a.ok && a.err.None?;
    if EndsIn451(all) { assert all[|all| - 1] in loop.attempts; }
  }

  /** It stops on a dispatch with evidence: a mapped 451 is the retry of an earlier one. */
  lemma StopSpoken451(req: Request, p: Provider, loop: Loop, t: Turn, a: Answer)
    requires AtHeadOfLoop(req, p, loop) && Knows451(req, p, loop)
    requires Legal(req, t) && a == TryGroup(req, p, loop.young, t)
    requires Decide(req, p, Record(loop, t, a), t, a).Stop? && a.attempts != []
    ensures Confirmed451(Final(a, Record(loop, t, a)))
  {
    var all := Record(loop, t, a).attempts;
    TryGroupEvidence(req, p, loop.young, t);
    Try451(req, p, loop.young, t);
    assert all == loop.attempts + [a.attempts[0]];
    if EndsIn451(all) && !a.cancelled { assert loop.mapped451Retry; }
  }

  lemma Stop451(req: Request, p: Provider, loop: Loop, t: Turn, a: Answer)
    requires AtHeadOfLoop(req, p, loop) && Knows451(req, p, loop)
    requires Legal(req, t) && a == TryGroup(req, p, loop.young, t)
    requires Decide(req, p, Record(loop, t, a), t, a).Stop?
    ensures Confirmed451(Final(a, Record(loop, t, a)))
  {
    if a.attempts == [] { StopEmpty451(req, p, loop, t, a); } else { StopSpoken451(req, p, loop, t, a); }
  }

  /** The first 451 alone never completes a provider's conclusion: a returned answer that ends in
      a mapped 451 has seen a second one, except exactly when the retry's channel closed empty. */
  lemma {:induction false} RetryConfirms451(req: Request, p: Provider, script: seq<Turn>, loop: Loop)
    requires LegalScript(req, script) && AtHeadOfLoop(req, p, loop) && Knows451(req, p, loop)
    ensures var run := RetryFrom(req, p, script, loop);
            run.Returned? ==> Confirmed451(run.answer)
  {
    if script == [] {
    } else {
      var t := script[0];
      var a := TryGroup(req, p, loop.young, t);
      var d := Decide(req, p, Record(loop, t, a), t, a);
      if d.Again? {
        AgainKeeps(req, p, loop, t, a);
        Again451(req, p, loop, t, a);
        RetryConfirms451(req, p, script[1..], d.loop);
      } else if d.Stop? {
        Stop451(req, p, loop, t, a);
      }
    }
  }

  lemma CallConfirms451(req: Request, p: Provider, young: bool, acquired: Breaker.Acquired, gone: Option<Mark>,
                        script: seq<Turn>)
    requires LegalScript(req, script)
    ensures var run := Resilient(req, p, young, acquired, gone, script);
            run.Returned? ==> Confirmed451(run.answer)
  {
    if acquired.Granted? { RetryConfirms451(req, p, script, Start(young || acquired.lease.probe)); }
  }

  // ---------------------------------------------------------------------------
  // Breaker accounting

  /** What giving back a lease without a judgement does: a current probe is over. */
  function GivenBack(b: Breaker.Fields, lease: Breaker.Lease): Breaker.Fields {
    if lease.enabled && lease.probe && lease.generation == b.generation then b.(probeInFlight := false) else b
  }

  /** An answer that says nothing about the provider's health. */
  predicate SaysNothing(req: Request, p: Provider, a: Answer) {
    a.cancelled || !a.ok || Took451ForAbsence(a.attempts) || Expected(req, p, a) == HardAbsence
  }

  predicate IsService(a: Answer) {
    && !a.cancelled && a.ok && a.err.None? && 200 <= a.code < 400
    && !Took451ForAbsence(a.attempts)
  }

  lemma CompletionJudges(req: Request, p: Provider, a: Answer)
    requires Meets(req, p, a)
    ensures SaysNothing(req, p, a) ==> Completion(a) == Breaker.Neutral
    ensures Completion(a) == Breaker.Succeeded <==> IsService(a)
  {
  }

  lemma NeutralGivesBack(b: Breaker.Fields, lease: Breaker.Lease, now: int, later: int)
    ensures Breaker.AfterComplete(b, lease, Breaker.Neutral, now, later) == GivenBack(b, lease)
  {
  }

  /** Cancelled and unanswered requests, missing articles and calls in which a 451 was taken
      for one are never held for or against the provider: an ordinary lease leaves its
      breaker as it is, a probe only makes room for the next. */
  lemma AbsenceNeverTrips(req: Request, p: Provider, young: bool, lease: Breaker.Lease, gone: Option<Mark>,
                          script: seq<Turn>, b: Breaker.Fields, now: int, later: int)
    requires LegalScript(req, script)
    ensures var run := Resilient(req, p, young, Breaker.Granted(lease), gone, script);
            run.Returned? && SaysNothing(req, p, run.answer) ==>
              Breaker.AfterComplete(b, lease, Completion(run.answer), now, later) == GivenBack(b, lease)
  {
    RetriesAreBounded(req, p, young, Breaker.Granted(lease), None, script);
    var run := RetryFrom(req, p, script, Start(young || lease.probe));
    if run.Returned? { CompletionJudges(req, p, run.answer); }
    NeutralGivesBack(b, lease, now, later);
  }

  /** Exactly a served request closes the breaker: one answered with a success, no attempt of
      which was a 451 taken for absence. */
  lemma OnlyServiceCounts(req: Request, p: Provider, young: bool, lease: Breaker.Lease, gone: Option<Mark>,
                          script: seq<Turn>)
    requires LegalScript(req, script)
    ensures var run := Resilient(req, p, young, Breaker.Granted(lease), gone, script);
            run.Returned? ==> (Completion(run.answer) == Breaker.Succeeded <==> IsService(run.answer))
  {
    RetriesAreBounded(req, p, young, Breaker.Granted(lease), None, script);
    var run := RetryFrom(req, p, script, Start(young || lease.probe));
    if run.Returned? { CompletionJudges(req, p, run.answer); }
  }

  // ---------------------------------------------------------------------------
  // Live contexts

  /** The caller and the client stay, and no connection reports their absence. */
  predicate Live(t: Turn) {
    && !t.delayCancelled
    && match t.event
       case ClientDone(_, _) => false
       case CallerDone(_, _) => false
       case ClosedEmpty(_) => false
       case GroupRemoved(_) => true
       case SlotFailed(err) => !CancelMark(err)
       case Reply(_, _, _, err, _, _) => err.Some? ==> !CancelMark(err.value)
  }

  predicate CancelMark(e: Error) { IsMark(e, Canceled) || IsMark(e, DeadlineExceeded) }

  /** With live contexts every answer is uncancelled and carries evidence, none of it a
      cancellation. */
  ghost predicate Informative(a: Answer) {
    !a.cancelled && a.attempts != [] && Cancellation !in Failures(a.attempts)
  }

  lemma LiveEvidence(req: Request, p: Provider, code: int, err: Option<Error>, timedOut: bool)
    requires err.Some? ==> !CancelMark(err.value)
    ensures Cancellation !in Failures(Attempted(req, p, code, err, timedOut))
  {
    var e := Attempted(req, p, code, err, timedOut)[0];
    assert e.outcome != Cancellation;
  }

  lemma LiveTryInforms(req: Request, p: Provider, young: bool, t: Turn)
    requires Legal(req, t) && Live(t)
    ensures var a := TryGroup(req, p, young, t);
            && !a.cancelled && Cancellation !in Failures(a.attempts)
            && (!FreshRequired(a) ==> a.attempts != [])
  {
    match t.event
    case GroupRemoved(_) => LiveEvidence(req, p, 0, Some(Sentinel(ConnectionDied)), false);
    case SlotFailed(err) => LiveEvidence(req, p, 0, Some(err), false);
    case Reply(_, reach, code, err, open, _) => LiveEvidence(req, p, code, err, TimedOut(reach, open, err));
  }

  lemma {:induction false} LiveRetryInforms(req: Request, p: Provider, script: seq<Turn>, loop: Loop)
    requires LegalScript(req, script) && (forall i :: 0 <= i < |script| ==> Live(script[i]))
    requires Cancellation !in Failures(loop.attempts)
    ensures var run := RetryFrom(req, p, script, loop);
            run.Returned? ==> Informative(run.answer)
  {
    if script == [] {
    } else {
      var t := script[0];
      var a := TryGroup(req, p, loop.young, t);
      LiveTryInforms(req, p, loop.young, t);
      FailuresConcat(loop.attempts, a.attempts);
      var d := Decide(req, p, Record(loop, t, a), t, a);
      if d.Again? {
        LiveRetryInforms(req, p, script[1..], d.loop);
      }
    }
  }

  /** With live contexts no response channel closes empty. */
  lemma {:induction false} LiveRetryAnswers(req: Request, p: Provider, script: seq<Turn>, loop: Loop)
    requires LegalScript(req, script) && (forall i :: 0 <= i < |script| ==> Live(script[i]))
    ensures var run := RetryFrom(req, p, script, loop);
            run.Returned? ==> run.answer.ok || run.answer.err.Some?
  {
    if script == [] {
    } else {
      var t := script[0];
      var a := TryGroup(req, p, loop.young, t);
      var d := Decide(req, p, Record(loop, t, a), t, a);
      if d.Again? { LiveRetryAnswers(req, p, script[1..], d.loop); }
    }
  }

  lemma LiveCallsAnswer(req: Request, p: Provider, young: bool, acquired: Breaker.Acquired, script: seq<Turn>)
    requires LegalScript(req, script) && (forall i :: 0 <= i < |script| ==> Live(script[i]))
    ensures var run := Resilient(req, p, young, acquired, None, script);
            run.Returned? ==> run.answer.ok || run.answer.err.Some?
  {
    if acquired.Granted? { LiveRetryAnswers(req, p, script, Start(young || acquired.lease.probe)); }
  }

  lemma LiveCallsInform(req: Request, p: Provider, young: bool, acquired: Breaker.Acquired, script: seq<Turn>)
    requires LegalScript(req, script) && (forall i :: 0 <= i < |script| ==> Live(script[i]))
    ensures var run := Resilient(req, p, young, acquired, None, script);
            run.Returned? ==> Informative(run.answer)
  {
    if acquired.Granted? {
      LiveRetryInforms(req, p, script, Start(young || acquired.lease.probe));
    }
  }
}
