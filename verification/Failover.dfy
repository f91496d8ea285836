/**
 * The failover engine (nntp.go: doSendWithRetry, raceCandidates; errors.go: responseError).
 *
 * It walks the main providers from a start index, switches to a parallel STAT race after
 * the first hard absence, then goes through the backups, and turns the evidence gathered
 * into one verdict. What each provider would answer to the real command and to a STAT
 * probe is given; `Attempts` proves which answers are possible.
 */
module Failover {
  import opened Basics
  import opened Errors
  import opened Attempts

  /** A provider of the snapshot with its two possible answers. */
  datatype Member = Member(provider: Provider, quotaExceeded: bool, answer: Answer, probe: Answer)

  /** `raceable`: probing is on and the command names a message-ID. `why` is the context
      error reported when the caller or the client goes away. */
  datatype Job = Job(req: Request, raceable: bool, why: Mark)

  datatype Response = Response(code: int, err: Option<Error>, attempts: seq<Evidence>, provider: string)

  /** What the engine did with a provider: passed it over because of its quota, probed it
      with a STAT, or sent it the real command. */
  datatype Contact = Passed(member: Member) | Asked(member: Member) | Called(member: Member)

  /** A response, and the contacts made for it in order. */
  datatype Sent = Sent(resp: Response, trail: seq<Contact>)

  /** The variables the engine accumulates. A remembered absence also means that later
      rounds are raced (`hasResp` and `post430` are set together before the backups). */
  datatype Acc = Acc(attempts: seq<Evidence>, lastErr: Option<Error>, lastAbsent: Option<Member>, trail: seq<Contact>)

  const NOTHING := Acc([], None, None, [])

  datatype Phase =
    | Through(acc: Acc)
    | Delivered(member: Member, attempts: seq<Evidence>, trail: seq<Contact>)
    | Interrupted(attempts: seq<Evidence>, trail: seq<Contact>)

  datatype Call = Moved(acc: Acc) | Absent(acc: Acc) | Ended(phase: Phase)

  const STAT_REQUEST := Request(Stat, false)

  /** Both answers of every member are ones its retry loop can give (RetriesAreBounded). */
  ghost predicate AllMeet(job: Job, ms: seq<Member>) {
    forall i :: 0 <= i < |ms| ==> BothMeet(job, ms[i])
  }

  ghost predicate BothMeet(job: Job, m: Member) {
    Meets(job.req, m.provider, m.answer) && Meets(STAT_REQUEST, m.provider, m.probe)
  }

  // ---------------------------------------------------------------------------
  // Reading an answer

  predicate HardAbsent(a: Answer) {
    || a.code == 423 || a.code == 430
    || (a.code == 451 && a.attempts != []
        && a.attempts[|a.attempts| - 1].code == 451 && a.attempts[|a.attempts| - 1].outcome == HardAbsence)
  }

  predicate Committed(job: Job, a: Answer) { job.req.writer && a.committed }

  predicate Answered(a: Answer) { !a.cancelled && a.ok && a.err.None? }

  /** A reply that is neither a success, nor an absence, nor "service unavailable". */
  predicate Soft(a: Answer) {
    Answered(a) && a.code != 502 && !HardAbsent(a) && !(200 <= a.code < 400)
  }

  predicate Serves(a: Answer) { Answered(a) && !HardAbsent(a) && 200 <= a.code < 400 }

  function Named(code: int): Error {
    Wrapped(if ToError(code).Some? then ToError(code).value else Sentinel(Other))
  }

  // ---------------------------------------------------------------------------
  // The engine

  function QuotaEvidence(job: Job, m: Member): Evidence {
    BuildEvidence(job.req.op, false, m.provider.id, 0, Some(Wrapped(Sentinel(QuotaExceeded))), false)
  }

  function SkipOverQuota(job: Job, m: Member, acc: Acc): Acc {
    acc.(attempts := acc.attempts + [QuotaEvidence(job, m)], lastErr := Some(Wrapped(Sentinel(QuotaExceeded))),
         trail := acc.trail + [Passed(m)])
  }

  /** Send the real command to one provider and read the answer. */
  function CallMember(job: Job, m: Member, acc: Acc): Call {
    var a := m.answer;
    var now := acc.(attempts := acc.attempts + a.attempts, trail := acc.trail + [Called(m)]);
    if a.cancelled then Ended(Interrupted(now.attempts, now.trail))
    else if !a.ok then Moved(now)
    else if a.err.Some? then
      if Committed(job, a) then Ended(Delivered(m, now.attempts, now.trail)) else Moved(now.(lastErr := a.err))
    else if a.code == 502 then Moved(now.(lastErr := Some(Wrapped(Protocol(502)))))
    else if HardAbsent(a) then Absent(now)
    else if a.code < 200 || 400 <= a.code then Moved(now.(lastErr := Some(Named(a.code))))
    else Ended(Delivered(m, now.attempts, now.trail))
  }

  function Visit(job: Job, m: Member, acc: Acc): Call {
    if m.quotaExceeded then Moved(SkipOverQuota(job, m, acc)) else CallMember(job, m, acc)
  }

  /** One provider after the other, in order. */
  function Walk(job: Job, ms: seq<Member>, acc: Acc): Phase {
    if ms == [] then Through(acc)
    else
      match Visit(job, ms[0], acc)
      case Moved(next) => Walk(job, ms[1..], next)
      case Absent(next) => Walk(job, ms[1..], next.(lastAbsent := Some(ms[0])))
      case Ended(phase) => phase
  }

  /** The main providers: the first absence hands the rest to a race, when racing is on. */
  function Mains(job: Job, ms: seq<Member>, acc: Acc): Phase {
    if ms == [] then Through(acc)
    else
      match Visit(job, ms[0], acc)
      case Moved(next) => Mains(job, ms[1..], next)
      case Absent(next) =>
        if job.raceable then Race(job, ms[1..], next.(lastAbsent := Some(ms[0])))
        else Mains(job, ms[1..], next.(lastAbsent := Some(ms[0])))
      case Ended(phase) => phase
  }

  function Eligible(ms: seq<Member>): seq<Member> {
    if ms == [] then []
    else (if ms[0].quotaExceeded then [] else [ms[0]]) + Eligible(ms[1..])
  }

  function FilterQuota(job: Job, ms: seq<Member>, acc: Acc): Acc {
    if ms == [] then acc
    else FilterQuota(job, ms[1..], if ms[0].quotaExceeded then SkipOverQuota(job, ms[0], acc) else acc)
  }

  datatype Probed = Probed(acc: Acc, winners: seq<Member>, cancelled: bool)

  /** Fold one probe result in. */
  function ReadProbe(m: Member, s: Probed): Probed {
    var a := m.probe;
    var now := s.acc.(attempts := s.acc.attempts + a.attempts, trail := s.acc.trail + [Asked(m)]);
    if a.cancelled then s.(acc := now, cancelled := true)
    else if !a.ok then s.(acc := now)
    else if a.err.Some? then s.(acc := now.(lastErr := a.err))
    else if a.code == 502 then s.(acc := now.(lastErr := Some(Wrapped(Protocol(502)))))
    else if HardAbsent(a) then s.(acc := now)
    else if a.code == 223 then s.(acc := now, winners := s.winners + [m])
    else s.(acc := now.(lastErr := Some(Named(a.code))))
  }

  function ReadProbes(ms: seq<Member>, s: Probed): Probed {
    if ms == [] then s else ReadProbes(ms[1..], ReadProbe(ms[0], s))
  }

  /** The STAT-positive providers, in configured order. */
  function Winners(job: Job, ms: seq<Member>, acc: Acc): Phase {
    if ms == [] then Through(acc)
    else
      match CallMember(job, ms[0], acc)
      case Moved(next) => Winners(job, ms[1..], next)
      case Absent(next) => Winners(job, ms[1..], next)
      case Ended(phase) => phase
  }

  /** A lone candidate gets the real command without a probe, and any reply other than an
      absence or 502 is final. */
  function Single(job: Job, m: Member, acc: Acc): Phase {
    if Soft(m.answer) then
      Delivered(m, acc.attempts + m.answer.attempts, acc.trail + [Called(m)])
    else
      match CallMember(job, m, acc)
      case Moved(next) => Through(next)
      case Absent(next) => Through(next)
      case Ended(phase) => phase
  }

  function AfterProbes(job: Job, s: Probed): Phase {
    if s.cancelled then Interrupted(s.acc.attempts, s.acc.trail) else Winners(job, s.winners, s.acc)
  }

  function Race(job: Job, ms: seq<Member>, acc: Acc): Phase {
    var live, filtered := Eligible(ms), FilterQuota(job, ms, acc);
    if |live| == 0 then Through(filtered)
    else if |live| == 1 then Single(job, live[0], filtered)
    else AfterProbes(job, ReadProbes(live, Probed(filtered, [], false)))
  }

  ghost function Finish(acc: Acc): Response {
    if acc.lastErr.Some? then
      Response(0, Some(Transport(Aggregate(acc.attempts, acc.lastErr))), acc.attempts, "")
    else if acc.lastAbsent.Some? then
      Response(acc.lastAbsent.value.answer.code, None, acc.attempts, acc.lastAbsent.value.provider.id)
    else Response(0, Some(Sentinel(Other)), [], "")
  }

  function CancellationResponse(job: Job, attempts: seq<Evidence>): Response {
    var last := if attempts == [] then "" else attempts[|attempts| - 1].provider;
    Response(0, Some(Transport(TransportError(Cancellation, last, 0, attempts, Some(Sentinel(job.why))))), attempts, "")
  }

  ghost function Settle(job: Job, phase: Phase): Sent {
    match phase
    case Through(acc) => Sent(Finish(acc), acc.trail)
    case Delivered(m, attempts, trail) => Sent(Response(m.answer.code, m.answer.err, attempts, m.provider.id), trail)
    case Interrupted(attempts, trail) => Sent(CancellationResponse(job, attempts), trail)
  }

  function Backups(job: Job, ms: seq<Member>, acc: Acc): Phase {
    if job.raceable && acc.lastAbsent.Some? then Race(job, ms, acc) else Walk(job, ms, acc)
  }

  function AfterMains(job: Job, backups: seq<Member>, phase: Phase): Phase {
    if phase.Through? then Backups(job, backups, phase.acc) else phase
  }

  /** The whole request: `mains` in visiting order, then `backups`. */
  ghost function Send(job: Job, mains: seq<Member>, backups: seq<Member>): Sent {
    if mains == [] then Sent(Response(0, Some(Sentinel(Other)), [], ""), [])
    else Settle(job, AfterMains(job, backups, Mains(job, mains, NOTHING)))
  }

  /** What a high-level call reports: nothing, or the error with the aggregated evidence. */
  ghost function ResponseError(r: Response): Option<Error> {
    var cause := if r.err.Some? then r.err else ToError(r.code);
    if cause.None? then None
    else if cause.value.Transport? || r.attempts == [] then cause
    else Some(Transport(Aggregate(r.attempts, cause)))
  }

  function Rotate<T>(s: seq<T>, start: nat): seq<T>
    requires start <= |s|
  {
    s[start..] + s[..start]
  }

  // ---------------------------------------------------------------------------
  // The engine as it runs

  lemma EligibleStep(live: seq<Member>, ms: seq<Member>)
    requires ms != []
    ensures live + Eligible(ms) == (if ms[0].quotaExceeded then live else live + [ms[0]]) + Eligible(ms[1..])
  {
    if ms[0].quotaExceeded {
      assert Eligible(ms) == Eligible(ms[1..]);
    } else {
      Regroup(live, [ms[0]], Eligible(ms[1..]));
    }
  }

  method FilterCandidates(job: Job, candidates: seq<Member>, given: Acc) returns (live: seq<Member>, acc: Acc)
    ensures live == Eligible(candidates) && acc == FilterQuota(job, candidates, given)
  {
    live, acc := [], given;
    ghost var passed, skipped := Eligible(candidates), FilterQuota(job, candidates, given);
    var i := 0;
    while i < |candidates|
      invariant 0 <= i <= |candidates|
      invariant live + Eligible(candidates[i..]) == passed
      invariant FilterQuota(job, candidates[i..], acc) == skipped
    {
      assert candidates[i..][1..] == candidates[i + 1..];
      EligibleStep(live, candidates[i..]);
      if candidates[i].quotaExceeded {
        acc := SkipOverQuota(job, candidates[i], acc);
      } else {
        live := live + [candidates[i]];
      }
      i := i + 1;
    }
  }

  /** Probe results arrive in any order; they are stored by index and folded in configured
      order, so the order of arrival cannot be observed. */
  method CollectProbes(live: seq<Member>, acc: Acc) returns (s: Probed)
    ensures s == ReadProbes(live, Probed(acc, [], false))
  {
    var ordered := new Option<Member>[|live|](_ => None);
    var out := set k {:trigger live[k]} | 0 <= k < |live|;
    while out != {}
      invariant forall k :: k in out ==> 0 <= k < |live|
      invariant forall k :: 0 <= k < |live| && k !in out ==> ordered[k] == Some(live[k])
    {
      var k :| k in out;
      ordered[k] := Some(live[k]);
      out := out - {k};
    }

    s := Probed(acc, [], false);
    var i := 0;
    while i < ordered.Length
      invariant 0 <= i <= ordered.Length
      invariant ReadProbes(live[i..], s) == ReadProbes(live, Probed(acc, [], false))
    {
      assert live[i..][1..] == live[i + 1..];
      s := ReadProbe(ordered[i].value, s);
      i := i + 1;
    }
  }

  method TryWinners(job: Job, winners: seq<Member>, given: Acc) returns (phase: Phase)
    ensures phase == Winners(job, winners, given)
  {
    var acc := given;
    var i := 0;
    while i < |winners|
      invariant 0 <= i <= |winners|
      invariant Winners(job, winners[i..], acc) == Winners(job, winners, given)
    {
      assert winners[i..][1..] == winners[i + 1..];
      match CallMember(job, winners[i], acc) {
        case Moved(next) => acc := next;
        case Absent(next) => acc := next;
        case Ended(p) => return p;
      }
      i := i + 1;
    }
    return Through(acc);
  }

  method RaceCandidates(job: Job, candidates: seq<Member>, given: Acc) returns (phase: Phase)
    ensures phase == Race(job, candidates, given)
  {
    var live, acc := FilterCandidates(job, candidates, given);
    if |live| == 0 { return Through(acc); }
    if |live| == 1 { return Single(job, live[0], acc); }
    var s := CollectProbes(live, acc);
    if s.cancelled { return Interrupted(s.acc.attempts, s.acc.trail); }
    phase := TryWinners(job, s.winners, s.acc);
  }

  lemma Wrap(i: nat, n: nat)
    requires 0 < n && i < 2 * n
    ensures i % n == if i < n then i else i - n
  {}

  lemma RotateAt<T>(s: seq<T>, start: nat, k: nat)
    requires start < |s| && k < |s|
    ensures Rotate(s, start)[k] == s[(start + k) % |s|]
  {
    Wrap(start + k, |s|);
  }

  /** The provider visited at turn `k`. */
  function At(mains: seq<Member>, start: nat, k: nat): (m: Member)
    requires start < |mains| && k < |mains|
    ensures m == Rotate(mains, start)[k]
  {
    RotateAt(mains, start, k);
    mains[(start + k) % |mains|]
  }

  method RestOf(mains: seq<Member>, start: nat, from: nat) returns (rest: seq<Member>)
    requires start < |mains| && from <= |mains|
    ensures rest == Rotate(mains, start)[from..]
  {
    rest := [];
    for a := from to |mains|
      invariant rest == Rotate(mains, start)[from..a]
    {
      rest := rest + [At(mains, start, a)];
    }
  }

  lemma MainsStep(job: Job, ms: seq<Member>, k: nat, acc: Acc)
    requires k < |ms|
    ensures Mains(job, ms[k..], acc) == AfterVisit(job, ms, k, Visit(job, ms[k], acc))
  {
    assert ms[k..][1..] == ms[k + 1..];
  }

  /** How the main round goes on behind turn `k`. */
  function AfterVisit(job: Job, ms: seq<Member>, k: nat, call: Call): Phase
    requires k < |ms|
  {
    match call
    case Moved(next) => Mains(job, ms[k + 1..], next)
    case Absent(next) =>
      var missed := next.(lastAbsent := Some(ms[k]));
      if job.raceable then Race(job, ms[k + 1..], missed) else Mains(job, ms[k + 1..], missed)
    case Ended(phase) => phase
  }

  /** One turn of the main round: it ends the round, or the next turn follows with `next`. */
  method TryMain(job: Job, mains: seq<Member>, start: nat, k: nat, acc: Acc)
    returns (ended: bool, phase: Phase, next: Acc)
    requires start < |mains| && k < |mains|
    ensures var order := Rotate(mains, start);
            Mains(job, order[k..], acc) == if ended then phase else Mains(job, order[k + 1..], next)
  {
    var m := At(mains, start, k);
    MainsStep(job, Rotate(mains, start), k, acc);
    var call := Visit(job, m, acc);
    phase, next := Through(acc), acc;
    if call.Ended? { return true, call.phase, acc; }
    if call.Moved? { return false, phase, call.acc; }
    next := call.acc.(lastAbsent := Some(m));
    ended := job.raceable;
    if ended {
      var rest := RestOf(mains, start, k + 1);
      phase := RaceCandidates(job, rest, next);
    }
  }

  method TryMains(job: Job, mains: seq<Member>, start: nat) returns (phase: Phase)
    requires start < |mains|
    ensures phase == Mains(job, Rotate(mains, start), NOTHING)
  {
    ghost var order := Rotate(mains, start);
    var acc := NOTHING;
    var attempt := 0;
    assert order[0..] == order;
    while attempt < |mains|
      invariant 0 <= attempt <= |mains|
      invariant Mains(job, order[attempt..], acc) == Mains(job, order, NOTHING)
    {
      var ended, last, next := TryMain(job, mains, start, attempt, acc);
      if ended { return last; }
      acc := next;
      attempt := attempt + 1;
    }
    return Through(acc);
  }

  method WalkBackups(job: Job, backups: seq<Member>, given: Acc) returns (phase: Phase)
    ensures phase == Walk(job, backups, given)
  {
    var acc := given;
    var i := 0;
    while i < |backups|
      invariant 0 <= i <= |backups|
      invariant Walk(job, backups[i..], acc) == Walk(job, backups, given)
    {
      assert backups[i..][1..] == backups[i + 1..];
      match Visit(job, backups[i], acc) {
        case Moved(next) => acc := next;
        case Absent(next) => acc := next.(lastAbsent := Some(backups[i]));
        case Ended(p) => return p;
      }
      i := i + 1;
    }
    return Through(acc);
  }

  method Conclude(job: Job, phase: Phase) returns (sent: Sent)
    ensures sent == Settle(job, phase)
  {
    match phase {
      case Through(acc) =>
        if acc.lastErr.Some? {
          var t := NewTransportError(acc.attempts, acc.lastErr);
          sent := Sent(Response(0, Some(Transport(t)), acc.attempts, ""), acc.trail);
        } else if acc.lastAbsent.Some? {
          var m := acc.lastAbsent.value;
          sent := Sent(Response(m.answer.code, None, acc.attempts, m.provider.id), acc.trail);
        } else {
          sent := Sent(Response(0, Some(Sentinel(Other)), [], ""), acc.trail);
        }
      case Delivered(m, attempts, trail) =>
        sent := Sent(Response(m.answer.code, m.answer.err, attempts, m.provider.id), trail);
      case Interrupted(attempts, trail) =>
        sent := Sent(CancellationResponse(job, attempts), trail);
    }
  }

  method DoSendWithRetry(job: Job, mains: seq<Member>, start: nat, backups: seq<Member>) returns (sent: Sent)
    requires mains == [] || start < |mains|
    ensures sent == Send(job, if mains == [] then [] else Rotate(mains, start), backups)
  {
    if mains == [] { return Sent(Response(0, Some(Sentinel(Other)), [], ""), []); }
    var phase := TryMains(job, mains, start);
    if phase.Through? {
      if job.raceable && phase.acc.lastAbsent.Some? {
        phase := RaceCandidates(job, backups, phase.acc);
      } else {
        phase := WalkBackups(job, backups, phase.acc);
      }
    }
    sent := Conclude(job, phase);
  }

  // ---------------------------------------------------------------------------
  // Whom the engine contacts

  function TrailOf(phase: Phase): seq<Contact> {
    match phase
    case Through(acc) => acc.trail
    case Delivered(_, _, trail) => trail
    case Interrupted(_, trail) => trail
  }

  ghost predicate Among(trail: seq<Contact>, all: seq<Member>) {
    forall x :: x in trail ==> x.member in all
  }

  ghost predicate Within(ms: seq<Member>, all: seq<Member>) {
    forall m :: m in ms ==> m in all
  }

  lemma MeetWithin(job: Job, ms: seq<Member>, all: seq<Member>)
    requires Within(ms, all) && AllMeet(job, all)
    ensures AllMeet(job, ms)
  {
    forall i | 0 <= i < |ms| ensures BothMeet(job, ms[i]) { assert ms[i] in ms; }
  }

  lemma {:induction false} WalkAmong(job: Job, ms: seq<Member>, acc: Acc, all: seq<Member>)
    requires Within(ms, all) && Among(acc.trail, all)
    ensures Among(TrailOf(Walk(job, ms, acc)), all)
  {
    if ms == [] {
    } else {
      assert ms[0] in ms && forall m :: m in ms[1..] ==> m in ms;
      match Visit(job, ms[0], acc)
      case Moved(next) => WalkAmong(job, ms[1..], next, all);
      case Absent(next) => WalkAmong(job, ms[1..], next.(lastAbsent := Some(ms[0])), all);
      case Ended(_) =>
    }
  }

  lemma {:induction false} WinnersAmong(job: Job, ms: seq<Member>, acc: Acc, all: seq<Member>)
    requires Within(ms, all) && Among(acc.trail, all)
    ensures Among(TrailOf(Winners(job, ms, acc)), all)
  {
    if ms == [] {
    } else {
      assert ms[0] in ms && forall m :: m in ms[1..] ==> m in ms;
      match CallMember(job, ms[0], acc)
      case Moved(next) => WinnersAmong(job, ms[1..], next, all);
      case Absent(next) => WinnersAmong(job, ms[1..], next, all);
      case Ended(_) =>
    }
  }

  lemma {:induction false} FilterAmong(job: Job, ms: seq<Member>, acc: Acc, all: seq<Member>)
    requires Within(ms, all) && Among(acc.trail, all)
    ensures Among(FilterQuota(job, ms, acc).trail, all) && Within(Eligible(ms), all)
  {
    if ms == [] {
    } else {
      assert ms[0] in ms && forall m :: m in ms[1..] ==> m in ms;
      FilterAmong(job, ms[1..], if ms[0].quotaExceeded then SkipOverQuota(job, ms[0], acc) else acc, all);
    }
  }

  lemma {:induction false} ProbesAmong(ms: seq<Member>, s: Probed, all: seq<Member>)
    requires Within(ms, all) && Among(s.acc.trail, all) && Within(s.winners, all)
    ensures Among(ReadProbes(ms, s).acc.trail, all) && Within(ReadProbes(ms, s).winners, all)
  {
    if ms == [] {
    } else {
      assert ms[0] in ms && forall m :: m in ms[1..] ==> m in ms;
      ProbesAmong(ms[1..], ReadProbe(ms[0], s), all);
    }
  }

  lemma RaceAmong(job: Job, ms: seq<Member>, acc: Acc, all: seq<Member>)
    requires Within(ms, all) && Among(acc.trail, all)
    ensures Among(TrailOf(Race(job, ms, acc)), all)
  {
    var live, filtered := Eligible(ms), FilterQuota(job, ms, acc);
    FilterAmong(job, ms, acc, all);
    if |live| == 1 {
      assert live[0] in live;
    } else if |live| > 1 {
      var s := ReadProbes(live, Probed(filtered, [], false));
      ProbesAmong(live, Probed(filtered, [], false), all);
      WinnersAmong(job, s.winners, s.acc, all);
    }
  }

  lemma {:induction false} MainsAmong(job: Job, ms: seq<Member>, acc: Acc, all: seq<Member>)
    requires Within(ms, all) && Among(acc.trail, all)
    ensures Among(TrailOf(Mains(job, ms, acc)), all)
  {
    if ms == [] {
    } else {
      assert ms[0] in ms && forall m :: m in ms[1..] ==> m in ms;
      match Visit(job, ms[0], acc)
      case Moved(next) => MainsAmong(job, ms[1..], next, all);
      case Absent(next) =>
        var missed := next.(lastAbsent := Some(ms[0]));
        if job.raceable { RaceAmong(job, ms[1..], missed, all); } else { MainsAmong(job, ms[1..], missed, all); }
      case Ended(_) =>
    }
  }

  /** Only configured providers are contacted. */
  lemma {:induction false} SendContactsMembers(job: Job, mains: seq<Member>, backups: seq<Member>)
    ensures Among(Send(job, mains, backups).trail, mains + backups)
  {
    var all := mains + backups;
    MainsAmong(job, mains, NOTHING, all);
    var phase := Mains(job, mains, NOTHING);
    if phase.Through? {
      RaceAmong(job, backups, phase.acc, all);
      WalkAmong(job, backups, phase.acc, all);
    }
  }
}
