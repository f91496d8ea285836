/**
 * Attempt evidence and its aggregation into one final verdict (errors.go).
 *
 * Go error chains are modelled as trees, so that `errors.Is` and `errors.As` are
 * recursive searches and the category match of protocol errors (423 and 430 are the
 * same "no such article") is explicit.
 */
module Errors {
  import opened Basics

  datatype Outcome =
    | Success
    | HardAbsence
    | TemporaryFailure
    | ProviderUnavailable
    | CorruptBody
    | Cancellation
    | TransportFailure
    | Inconclusive

  datatype Operation = Unknown | Body | Stat | Head | Article | Post

  /** Sentinels the library compares with `errors.Is`. `Closed` stands for the
      EOF / closed pipe / closed socket family, `Other` for any unrecognised leaf. */
  datatype Mark =
    | Canceled
    | DeadlineExceeded
    | BodyCorrupt
    | CRCMismatch
    | BreakerOpen
    | QuotaExceeded
    | InvalidConfiguration
    | MaxConnections
    | ConnectionDied
    | FreshTransportRequired
    | Closed
    | Other

  datatype Error =
    | Sentinel(mark: Mark)
    | Protocol(status: int)
    | Greeting(status: int)
    | Network(timeout: bool)
    | Wrapped(inner: Error)
    | Classified(original: Error, category: Error)
    | Transport(report: TransportError)

  datatype Evidence = Evidence(
    provider: string,
    operation: Operation,
    outcome: Outcome,
    code: int,
    cause: Option<Error>,
    timedOut: bool)

  datatype TransportError = TransportError(
    kind: Outcome,
    provider: string,
    code: int,
    attempts: seq<Evidence>,
    cause: Option<Error>)

  // ---------------------------------------------------------------------------
  // errors.Is / errors.As

  predicate IsMark(e: Error, m: Mark) {
    match e
    case Sentinel(k) => k == m
    case Protocol(_) => false
    case Greeting(c) => m == MaxConnections && (c == 400 || c == 502)
    case Network(_) => false
    case Wrapped(i) => IsMark(i, m)
    case Classified(o, c) => IsMark(o, m) || IsMark(c, m)
    case Transport(t) => t.cause.Some? && IsMark(t.cause.value, m)
  }

  function Category(code: int): int {
    if code == 423 then 430 else code
  }

  /** `errors.Is(e, &Error{Code: code})`: protocol errors match by category. */
  predicate IsCode(e: Error, code: int) {
    match e
    case Sentinel(_) => false
    case Protocol(c) => Category(c) == Category(code)
    case Greeting(c) => (c == 480 || c == 481) && c == code
    case Network(_) => false
    case Wrapped(i) => IsCode(i, code)
    case Classified(o, c) => IsCode(o, code) || IsCode(c, code)
    case Transport(t) => t.cause.Some? && IsCode(t.cause.value, code)
  }

  const ARTICLE_NOT_FOUND := 430

  predicate IsNotFound(e: Error) { IsCode(e, ARTICLE_NOT_FOUND) }

  predicate HasProtocol(e: Error) {
    match e
    case Protocol(_) => true
    case Wrapped(i) => HasProtocol(i)
    case Classified(o, c) => HasProtocol(o) || HasProtocol(c)
    case Transport(t) => t.cause.Some? && HasProtocol(t.cause.value)
    case _ => false
  }

  /** The first net.Error of the chain; context.DeadlineExceeded is one too. */
  function FirstNetwork(e: Error): Option<bool> {
    match e
    case Network(t) => Some(t)
    case Sentinel(m) => if m == DeadlineExceeded then Some(true) else None
    case Wrapped(i) => FirstNetwork(i)
    case Classified(o, c) => if FirstNetwork(o).Some? then FirstNetwork(o) else FirstNetwork(c)
    case Transport(t) => if t.cause.Some? then FirstNetwork(t.cause.value) else None
    case _ => None
  }

  predicate IsConnectionDeath(err: Option<Error>) {
    && err.Some?
    && !IsCode(err.value, 480) && !IsCode(err.value, 481) && !IsMark(err.value, InvalidConfiguration)
    && (IsMark(err.value, ConnectionDied) || IsMark(err.value, Closed)
        || FirstNetwork(err.value) == Some(false))
  }

  // ---------------------------------------------------------------------------
  // Classification

  predicate IsArticleOperation(op: Operation) { op in {Stat, Body, Head, Article} }

  function ToError(code: int): Option<Error> {
    if 200 <= code < 400 then None else Some(Protocol(Category(code)))
  }

  /** The classes tested before article absence in the classification switch. */
  predicate OutranksAbsence(code: int, e: Error) {
    || IsMark(e, Canceled) || IsMark(e, DeadlineExceeded)
    || IsMark(e, BodyCorrupt) || IsMark(e, CRCMismatch)
    || IsMark(e, BreakerOpen)
    || Unavailable(code, e)
  }

  predicate Unavailable(code: int, e: Error) {
    || IsCode(e, 502) || IsCode(e, 480) || IsCode(e, 481)
    || IsMark(e, QuotaExceeded) || IsMark(e, InvalidConfiguration) || IsMark(e, MaxConnections)
    || code == 502
  }

  function ClassifyOutcome(code: int, err: Option<Error>): Outcome {
    match err
    case None =>
      if 200 <= code < 400 then Success
      else if code == 502 then ProviderUnavailable
      else if code == 423 || code == 430 then HardAbsence
      else if code == 451 then TemporaryFailure
      else Inconclusive
    case Some(e) =>
      if IsMark(e, Canceled) || IsMark(e, DeadlineExceeded) then Cancellation
      else if IsMark(e, BodyCorrupt) || IsMark(e, CRCMismatch) then CorruptBody
      else if IsMark(e, BreakerOpen) then TemporaryFailure
      else if Unavailable(code, e) then ProviderUnavailable
      else if code == 423 || code == 430 || IsNotFound(e) then HardAbsence
      else if code == 451 then TemporaryFailure
      else if HasProtocol(e) then Inconclusive
      else TransportFailure
  }

  predicate Maps451(absentAfterRetry: bool, op: Operation, code: int) {
    code == 451 && absentAfterRetry && IsArticleOperation(op)
  }

  function BuildEvidence(op: Operation, absentAfterRetry: bool, provider: string,
                         code: int, err: Option<Error>, timedOut: bool): (e: Evidence)
    ensures e.outcome == Success <==> e.cause.None?
    ensures err.None? && !(200 <= code < 400) ==> e.outcome != Success
  {
    var cause := if err.Some? then err else ToError(code);
    var outcome :=
      if err.None? && Maps451(absentAfterRetry, op, code) then HardAbsence
      else ClassifyOutcome(code, cause);
    Evidence(provider, op, outcome, code, cause, timedOut)
  }

  // ---------------------------------------------------------------------------
  // Aggregation

  /** The failure classes present in the evidence: successes never take part. */
  function Failures(attempts: seq<Evidence>): set<Outcome> {
    set i | 0 <= i < |attempts| && attempts[i].outcome != Success :: attempts[i].outcome
  }

  ghost function AggregateKind(fs: set<Outcome>): Outcome {
    if Cancellation in fs then Cancellation
    else if o: Outcome :| fs == {o} then o
    else Inconclusive
  }

  ghost predicate Mixed(fs: set<Outcome>) {
    && Cancellation !in fs
    && exists a, b :: a in fs && b in fs && a != b
  }

  /** Last cause, from the back, of an attempt that neither succeeded nor found the
      article absent. */
  function MixedCause(attempts: seq<Evidence>, fallback: Option<Error>): Option<Error> {
    if attempts == [] then fallback
    else
      var e := attempts[|attempts| - 1];
      if e.outcome != Success && e.outcome != HardAbsence && e.cause.Some? then e.cause
      else MixedCause(attempts[..|attempts| - 1], fallback)
  }

  /** Last attempt of the given class. */
  function LastOfKind(attempts: seq<Evidence>, kind: Outcome): Option<Evidence> {
    if attempts == [] then None
    else if attempts[|attempts| - 1].outcome == kind then Some(attempts[|attempts| - 1])
    else LastOfKind(attempts[..|attempts| - 1], kind)
  }

  function WithClassification(cause: Error, code: int): (e: Error)
    ensures IsCode(e, code)
    ensures forall m :: IsMark(e, m) <==> IsMark(cause, m)
  {
    if IsCode(cause, code) then cause else Classified(cause, Protocol(code))
  }

  /** What the final error says, stated through the set of failure classes. */
  ghost function Aggregate(attempts: seq<Evidence>, cause: Option<Error>): TransportError {
    var fs := Failures(attempts);
    var kind := AggregateKind(fs);
    var chosen := if Mixed(fs) then None else LastOfKind(attempts, kind);
    var raw :=
      if Mixed(fs) then MixedCause(attempts, cause)
      else if chosen.Some? && chosen.value.cause.Some? then chosen.value.cause
      else cause;
    TransportError(
      kind,
      if chosen.Some? then chosen.value.provider else "",
      if chosen.Some? then chosen.value.code else 0,
      attempts,
      if kind == HardAbsence && raw.Some? then Some(WithClassification(raw.value, ARTICLE_NOT_FOUND)) else raw)
  }

  lemma FailuresSnoc(attempts: seq<Evidence>, e: Evidence)
    ensures Failures(attempts + [e])
            == Failures(attempts) + (if e.outcome == Success then {} else {e.outcome})
  {
    var all := attempts + [e];
    assert forall i :: 0 <= i < |attempts| ==> all[i] == attempts[i];
    assert all[|attempts|] == e;
  }

  lemma FailuresConcat(a: seq<Evidence>, b: seq<Evidence>)
    ensures Failures(a + b) == Failures(a) + Failures(b)
  {
    var all := a + b;
    forall o | o in Failures(a) + Failures(b) ensures o in Failures(all) {
      if o in Failures(a) {
        var i :| 0 <= i < |a| && a[i].outcome != Success && a[i].outcome == o;
        assert all[i] == a[i];
      } else {
        var i :| 0 <= i < |b| && b[i].outcome != Success && b[i].outcome == o;
        assert all[|a| + i] == b[i];
      }
    }
    forall o | o in Failures(all) ensures o in Failures(a) + Failures(b) {
      var i :| 0 <= i < |all| && all[i].outcome != Success && all[i].outcome == o;
      if i < |a| { assert a[i].outcome == o; } else { assert b[i - |a|].outcome == o; }
    }
  }

  lemma KindOfSingleton(o: Outcome)
    ensures AggregateKind({o}) == o
    ensures !Mixed({o})
  {
    if o != Cancellation {
      assert {o} == {o};
      var p: Outcome :| {o} == {p};
      assert o in {p};
    }
  }

  lemma KindOfMixed(fs: set<Outcome>, a: Outcome, b: Outcome)
    requires Cancellation !in fs && a in fs && b in fs && a != b
    ensures Mixed(fs) && AggregateKind(fs) == Inconclusive
  {
    assert forall o: Outcome :: fs == {o} ==> a == o && b == o;
  }

  /** The three-flag loop of newTransportError computes the class of the *set* of
      failures: order and multiplicity of the attempts never matter. */
  method ClassifyFailures(attempts: seq<Evidence>) returns (kind: Outcome, mixed: bool)
    ensures kind == AggregateKind(Failures(attempts)) && (mixed <==> Mixed(Failures(attempts)))
  {
    kind, mixed := Inconclusive, false;
    var haveKind := false;
    ghost var fs: set<Outcome> := {};
    for n := 0 to |attempts|
      invariant fs == Failures(attempts[..n])
      invariant haveKind <==> fs != {}
      invariant !haveKind ==> kind == Inconclusive && !mixed
      invariant kind == Cancellation <==> Cancellation in fs
      invariant kind == Cancellation ==> !mixed
      invariant haveKind && kind != Cancellation && !mixed ==> fs == {kind}
      invariant mixed ==> kind == Inconclusive && Mixed(fs)
    {
      var attempt := attempts[n];
      assert attempts[..n + 1] == attempts[..n] + [attempt];
      FailuresSnoc(attempts[..n], attempt);
      ghost var before := fs;
      fs := fs + (if attempt.outcome == Success then {} else {attempt.outcome});
      if attempt.outcome == Success { continue; }
      if attempt.outcome == Cancellation {
        kind, haveKind, mixed := Cancellation, true, false;
        continue;
      }
      if kind == Cancellation { continue; }
      if !haveKind {
        kind, haveKind := attempt.outcome, true;
      } else if kind != attempt.outcome {
        if !mixed {
          KindOfMixed(fs, kind, attempt.outcome);
        } else {
          assert before <= fs;
        }
        kind, mixed := Inconclusive, true;
      } else if mixed {
        assert before <= fs;
      }
    }
    assert attempts[..|attempts|] == attempts;
    FlagsGiveKind(fs, kind, haveKind, mixed);
  }

  /** The cause of a mixed result: the last one that is not an absence. */
  method ChooseMixedCause(attempts: seq<Evidence>, given: Option<Error>) returns (cause: Option<Error>)
    ensures cause == MixedCause(attempts, given)
  {
    cause := given;
    var i := |attempts|;
    assert attempts[..i] == attempts;
    while i > 0
      invariant 0 <= i <= |attempts|
      invariant MixedCause(attempts[..i], given) == MixedCause(attempts, given)
    {
      var attempt := attempts[i - 1];
      assert attempts[..i][..i - 1] == attempts[..i - 1];
      if attempt.outcome != Success && attempt.outcome != HardAbsence && attempt.cause.Some? {
        return attempt.cause;
      }
      i := i - 1;
    }
  }

  /** The attempt that represents a uniform result. */
  method ChooseRepresentative(attempts: seq<Evidence>, kind: Outcome) returns (chosen: Option<Evidence>)
    ensures chosen == LastOfKind(attempts, kind)
  {
    var i := |attempts|;
    assert attempts[..i] == attempts;
    while i > 0
      invariant 0 <= i <= |attempts|
      invariant LastOfKind(attempts[..i], kind) == LastOfKind(attempts, kind)
    {
      assert attempts[..i][..i - 1] == attempts[..i - 1];
      if attempts[i - 1].outcome == kind { return Some(attempts[i - 1]); }
      i := i - 1;
    }
    return None;
  }

  method NewTransportError(attempts: seq<Evidence>, given: Option<Error>) returns (t: TransportError)
    ensures t == Aggregate(attempts, given)
  {
    var kind, mixed := ClassifyFailures(attempts);
    var provider, code, cause := "", 0, given;
    if mixed {
      cause := ChooseMixedCause(attempts, given);
    } else {
      var chosen := ChooseRepresentative(attempts, kind);
      if chosen.Some? {
        provider, code := chosen.value.provider, chosen.value.code;
        if chosen.value.cause.Some? { cause := chosen.value.cause; }
      }
    }
    if kind == HardAbsence && cause.Some? {
      cause := Some(WithClassification(cause.value, ARTICLE_NOT_FOUND));
    }
    t := TransportError(kind, provider, code, attempts, cause);
  }

  lemma FlagsGiveKind(fs: set<Outcome>, kind: Outcome, haveKind: bool, mixed: bool)
    requires haveKind <==> fs != {}
    requires !haveKind ==> kind == Inconclusive && !mixed
    requires kind == Cancellation <==> Cancellation in fs
    requires kind == Cancellation ==> !mixed
    requires haveKind && kind != Cancellation && !mixed ==> fs == {kind}
    requires mixed ==> kind == Inconclusive && Mixed(fs)
    ensures kind == AggregateKind(fs) && (mixed <==> Mixed(fs))
  {
    if mixed {
      var a, b :| a in fs && b in fs && a != b;
      KindOfMixed(fs, a, b);
    } else if haveKind && kind != Cancellation {
      KindOfSingleton(kind);
    } else if !haveKind {
      assert forall o: Outcome :: o in {o};
    }
  }

  // ---------------------------------------------------------------------------
  // What the aggregate may be believed for

  /** A cause that `errors.Is` reports as "article not found" belongs to an attempt
      classified as hard absence. */
  predicate Unambiguous(e: Evidence) {
    e.cause.Some? && IsNotFound(e.cause.value) ==> e.outcome == HardAbsence
  }

  predicate Genuine(e: Evidence) {
    && (e.outcome == Success <==> e.cause.None?)
    && Unambiguous(e)
  }

  /** Evidence built from a reply is unambiguous exactly when its error does not carry
      a higher-ranked class next to "article not found". */
  lemma BuiltEvidenceUnambiguous(op: Operation, absent: bool, provider: string, code: int, err: Option<Error>,
                                 timedOut: bool)
    ensures Genuine(BuildEvidence(op, absent, provider, code, err, timedOut))
            <==> !(err.Some? && IsNotFound(err.value) && OutranksAbsence(code, err.value))
  {
  }

  /** A missing article reported next to a cancellation: the outcome is the cancellation, and
      the cause still tests as "not found". */
  lemma AnErrorCanBeAmbiguous(op: Operation, absent: bool, provider: string)
    ensures var e := BuildEvidence(op, absent, provider, 0, Some(Classified(Protocol(430), Sentinel(Canceled))), false);
            e.outcome == Cancellation && IsNotFound(e.cause.value) && !Genuine(e)
  {
    var err := Classified(Protocol(430), Sentinel(Canceled));
    assert IsMark(err, Canceled) && IsNotFound(err);
    BuiltEvidenceUnambiguous(op, absent, provider, 0, Some(err), false);
  }

  lemma {:induction false} LastOfKindFinds(attempts: seq<Evidence>, kind: Outcome)
    ensures kind != Success && kind in Failures(attempts) ==> LastOfKind(attempts, kind).Some?
    ensures LastOfKind(attempts, kind).Some? ==>
              LastOfKind(attempts, kind).value in attempts && LastOfKind(attempts, kind).value.outcome == kind
  {
    if attempts == [] {
    } else {
      var init := attempts[..|attempts| - 1];
      LastOfKindFinds(init, kind);
      assert attempts == init + [attempts[|attempts| - 1]];
      FailuresSnoc(init, attempts[|attempts| - 1]);
    }
  }

  lemma {:induction false} MixedCauseFinds(attempts: seq<Evidence>, fallback: Option<Error>)
    requires forall e :: e in attempts ==> Genuine(e)
    requires exists o :: o in Failures(attempts) && o != HardAbsence
    ensures exists e :: e in attempts && e.outcome != Success && e.outcome != HardAbsence
                        && e.cause == MixedCause(attempts, fallback)
  {
    var last := attempts[|attempts| - 1];
    var init := attempts[..|attempts| - 1];
    assert attempts == init + [last] && last in attempts;
    FailuresSnoc(init, last);
    if !(last.outcome != Success && last.outcome != HardAbsence && last.cause.Some?) {
      assert forall e :: e in init ==> e in attempts;
      MixedCauseFinds(init, fallback);
    }
  }

  lemma OnlyAbsence(attempts: seq<Evidence>)
    requires AggregateKind(Failures(attempts)) == HardAbsence
    ensures Failures(attempts) == {HardAbsence}
    ensures forall e :: e in attempts ==> e.outcome == Success || e.outcome == HardAbsence
  {
    forall e | e in attempts && e.outcome != Success ensures e.outcome == HardAbsence {
      var i :| 0 <= i < |attempts| && attempts[i] == e;
      assert e.outcome in Failures(attempts);
    }
  }

  /** For genuine evidence containing a failure, `errors.Is(final, ErrArticleNotFound)`
      holds exactly when every failure in it is a hard absence. A hard-absence cause
      can never leak out of a mixed result. */
  lemma AbsentIffUniformAbsence(attempts: seq<Evidence>, given: Option<Error>)
    requires forall e :: e in attempts ==> Genuine(e)
    requires Failures(attempts) != {}
    ensures var t := Aggregate(attempts, given);
            && t.cause.Some?
            && (IsNotFound(t.cause.value) <==> t.kind == HardAbsence)
            && (IsNotFound(t.cause.value) <==> Failures(attempts) == {HardAbsence})
  {
    var fs := Failures(attempts);
    var kind := AggregateKind(fs);
    if fs == {HardAbsence} { KindOfSingleton(HardAbsence); }
    if kind == HardAbsence { OnlyAbsence(attempts); }
    if Mixed(fs) {
      var a, b :| a in fs && b in fs && a != b;
      KindOfMixed(fs, a, b);
      assert (if a == HardAbsence then b else a) != HardAbsence;
      MixedCauseFinds(attempts, given);
    } else {
      UniformKind(fs);
      LastOfKindFinds(attempts, kind);
    }
  }

  lemma UniformKind(fs: set<Outcome>)
    requires fs != {} && !Mixed(fs)
    ensures AggregateKind(fs) in fs
  {
    if Cancellation !in fs {
      var o :| o in fs;
      assert fs == {o};
      KindOfSingleton(o);
    }
  }

  /** A uniform verdict takes provider, code and cause from one and the same attempt;
      a mixed verdict names no provider. */
  lemma SummaryIsCoherent(attempts: seq<Evidence>, given: Option<Error>)
    requires forall e :: e in attempts ==> Genuine(e)
    requires Failures(attempts) != {}
    ensures var t := Aggregate(attempts, given);
            if Mixed(Failures(attempts)) then t.provider == "" && t.code == 0
            else exists e :: e in attempts && e.outcome == t.kind && t.provider == e.provider && t.code == e.code
                             && (t.cause == e.cause || (t.kind == HardAbsence && e.cause.Some?
                                 && t.cause == Some(Classified(e.cause.value, Protocol(ARTICLE_NOT_FOUND)))))
  {
    var fs := Failures(attempts);
    if !Mixed(fs) {
      UniformKind(fs);
      LastOfKindFinds(attempts, AggregateKind(fs));
      var e := LastOfKind(attempts, AggregateKind(fs)).value;
      assert e in attempts && e.cause.Some?;
    }
  }
}
