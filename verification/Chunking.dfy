/**
 * The response decoder does not care how the wire was cut into reads (reader.go:64-148,
 * 271-315), and exactly when it does.
 */
module Chunking {
  import opened Basics
  import opened Decoder

  // ---------------------------------------------------------------- the native decoder

  /** Decoding a concatenation is decoding the parts, unless the first part ends the body. */
  lemma {:induction false} DecodeSplits(step: Step, s: Native, a: Bytes, b: Bytes)
    ensures var u := Decode(step, s, a);
            if u.end != EndNone then Decode(step, s, a + b) == u
            else var w := Decode(step, u.state, b);
                 Decode(step, s, a + b) == Run(w.state, u.out + w.out, |a| + w.used, w.end)
    decreases |a|
  {
    if a == [] {
      assert a + b == b;
    } else {
      assert (a + b)[0] == a[0] && (a + b)[1..] == a[1..] + b;
      var m := step(s, a[0]);
      if m.end == EndNone {
        DecodeSplits(step, m.next, a[1..], b);
        var u := Decode(step, m.next, a[1..]);
        assert u.end == EndNone ==>
                 m.out + (u.out + Decode(step, u.state, b).out) == (m.out + u.out) + Decode(step, u.state, b).out;
      }
    }
  }

  /** A call that ends on a held '=' has consumed that '=' last. */
  lemma {:induction false} HeldIsLast(step: Step, s: Native, a: Bytes)
    requires Contract(step) && a != []
    requires Decode(step, s, a).end == EndNone && Decode(step, s, a).state == CRLFEQ
    ensures a[|a| - 1] == EQUALS
    decreases |a|
  {
    var m := step(s, a[0]);
    assert MoveOk(s, a[0], m);
    if |a| > 1 {
      HeldIsLast(step, m.next, a[1..]);
    } else {
      assert a[1..] == [];
    }
  }

  /** A byte without output in front of a native call. */
  lemma SilentByte(step: Step, s: Native, c: Byte, next: Native, b: Bytes)
    requires step(s, c) == Move(next, [], EndNone)
    ensures var w := Decode(step, next, b);
            Decode(step, s, [c] + b) == Run(w.state, w.out, 1 + w.used, w.end)
  {
    assert ([c] + b)[1..] == b;
    assert [] + Decode(step, next, b).out == Decode(step, next, b).out;
  }

  /** The native decoder is in the middle of ".\r\n" and `b` completes it. */
  predicate CompletesTerminator(s: Native, b: Bytes) {
    || (s == CRLFDT && [CR, LF] <= b)
    || (s == CRLFDTCR && [LF] <= b)
  }

  /** A terminator found within two bytes of a call was begun in an earlier one. */
  lemma ShortTerminator(step: Step, s: Native, b: Bytes)
    requires Contract(step)
    ensures var u := Decode(step, s, b);
            (u.end == EndArticle && u.used < 3) <==> CompletesTerminator(s, b)
  {
    if b != [] {
      var m := step(s, b[0]);
      assert MoveOk(s, b[0], m);
      var c := b[1..];
      if m.end == EndNone && c != [] {
        var m' := step(m.next, c[0]);
        assert MoveOk(m.next, c[0], m');
        assert c[0] == b[1];
      }
    }
  }

  /** "=y" is always found in one call. */
  lemma ControlTakesTwo(step: Step, s: Native, b: Bytes)
    requires Contract(step) && s != CRLFEQ
    ensures Decode(step, s, b).end == EndControl ==> Decode(step, s, b).used >= 2
  {
    if b != [] { assert MoveOk(s, b[0], step(s, b[0])); }
  }

  /** No call leaves the decoder holding an '='. */
  lemma {:induction false} EndedSteady(step: Step, s: Native, b: Bytes)
    requires Contract(step)
    ensures var u := Decode(step, s, b); u.end != EndNone ==> u.state !in {CRLFEQ, CRLFDT, CRLFDTCR}
    decreases |b|
  {
    if b == [] {
    } else {
      var m := step(s, b[0]);
      assert MoveOk(s, b[0], m);
      if m.end == EndNone { EndedSteady(step, m.next, b[1..]); }
    }
  }

  // ---------------------------------------------------------------- the body

  predicate Steady(r: Response) { r.native != CRLFEQ }

  /** The cut after this state falls inside the terminator of a yEnc body. */
  predicate SplitsTerminator(r: Response, b: Bytes) {
    InBody(r) && CompletesTerminator(r.native, b)
  }

  /** A body call that ends the body ends it in the same way with more bytes behind. */
  lemma BodyEnds(step: Step, r: Response, a: Bytes, b: Bytes)
    requires Contract(step) && a != []
    requires Decode(step, r.native, a).end != EndNone
    ensures YencBody(step, r, a + b) == YencBody(step, r, a)
  {
    DecodeSplits(step, r.native, a, b);
  }

  /** Settling a call with `k` more bytes in front, if it does not back up into them. */
  lemma SettleShifts(r: Response, s: Native, out: Bytes, k: nat, w: Run)
    requires w.end == EndControl ==> w.used >= 2
    requires w.end == EndArticle ==> w.used >= 3
    ensures Settle(r, Run(w.state, out + w.out, k + w.used, w.end))
         == Then(k, Settle(r.(native := s, decoded := r.decoded + out), w))
  {
    assert r.decoded + (out + w.out) == (r.decoded + out) + w.out;
  }

  /** A body does not end within a presented '=' and what precedes it. */
  lemma {:induction false} HeldTakes(step: Step, c: Bytes)
    requires Contract(step) && c != [] && c[0] == EQUALS
    ensures var w := Decode(step, CRLF, c);
            (w.end == EndControl ==> w.used >= 2) && (w.end == EndArticle ==> w.used >= 3)
  {
    ShortTerminator(step, CRLF, c);
    ControlTakesTwo(step, CRLF, c);
  }

  /** A native call over a held '=' does what presenting the '=' again does. */
  lemma {:induction false} HeldWhole(step: Step, s: Native, a: Bytes, b: Bytes, c: Bytes)
    requires Contract(step) && a != [] && a[|a| - 1] == EQUALS && c == a[|a| - 1..] + b
    requires Decode(step, s, a).end == EndNone && Decode(step, s, a).state == CRLFEQ
    ensures var w := Decode(step, CRLF, c);
            && Decode(step, s, a + b) == Run(w.state, Decode(step, s, a).out + w.out, |a| - 1 + w.used, w.end)
            && (w.end == EndControl ==> w.used >= 2)
            && (w.end == EndArticle ==> w.used >= 3)
  {
    assert c == [EQUALS] + b;
    DecodeSplits(step, s, a, b);
    SilentByte(step, CRLF, EQUALS, CRLFEQ, b);
    HeldTakes(step, c);
  }

  lemma HeldJoins(step: Step, r: Response, a: Bytes, b: Bytes, c: Bytes)
    requires InBody(r) && a != [] && c == a[|a| - 1..] + b
    requires Decode(step, r.native, a).end == EndNone && Decode(step, r.native, a).state == CRLFEQ
    requires var w := Decode(step, CRLF, c);
             && Decode(step, r.native, a + b)
                == Run(w.state, Decode(step, r.native, a).out + w.out, |a| - 1 + w.used, w.end)
             && (w.end == EndControl ==> w.used >= 2)
             && (w.end == EndArticle ==> w.used >= 3)
    ensures var f := YencBody(step, r, a);
            YencBody(step, r, a + b) == Then(f.n, YencBody(step, f.r, a[f.n..] + b))
  {
    HeldSettles(r, Decode(step, r.native, a), Decode(step, CRLF, c), |a|);
  }

  lemma HeldSettles(r: Response, u: Run, w: Run, n: nat)
    requires u.end == EndNone && u.state == CRLFEQ && u.used == n > 0
    requires w.end == EndControl ==> w.used >= 2
    requires w.end == EndArticle ==> w.used >= 3
    ensures var f := Settle(r, u);
            f.n == n - 1 && f.r.native == CRLF && f.r.body == r.body
            && Settle(r, Run(w.state, u.out + w.out, n - 1 + w.used, w.end)) == Then(f.n, Settle(f.r, w))
  {
    SettleShifts(r, CRLF, u.out, n - 1, w);
  }

  lemma FreeSplits(step: Step, r: Response, a: Bytes, b: Bytes)
    requires Contract(step) && Steady(r) && InBody(r)
    requires a != []
    requires Decode(step, r.native, a).end == EndNone && Decode(step, r.native, a).state != CRLFEQ
    ensures var f := YencBody(step, r, a);
            !CompletesTerminator(f.r.native, b) ==>
              YencBody(step, r, a + b) == Then(f.n, YencBody(step, f.r, a[f.n..] + b))
  {
    var u := Decode(step, r.native, a);
    if b == [] {
      assert a + b == a && a[|a|..] + b == [];
    } else if !CompletesTerminator(u.state, b) {
      DecodeSplits(step, r.native, a, b);
      assert a[|a|..] + b == b;
      ShortTerminator(step, u.state, b);
      ControlTakesTwo(step, u.state, b);
      SettleShifts(r, u.state, u.out, |a|, Decode(step, u.state, b));
    }
  }

  /** A body call that does not: the whole equals the two calls, the second one being shown
      what the first left, unless the cut falls inside the terminator. */
  lemma BodySplits(step: Step, r: Response, a: Bytes, b: Bytes)
    requires Contract(step) && Steady(r) && InBody(r)
    requires a != [] && Decode(step, r.native, a).end == EndNone
    ensures var f := YencBody(step, r, a);
            f.fault == Fine && f.r.body && (!CompletesTerminator(f.r.native, b) ==>
              YencBody(step, r, a + b) == Then(f.n, YencBody(step, f.r, a[f.n..] + b)))
  {
    if Decode(step, r.native, a).state == CRLFEQ {
      HeldIsLast(step, r.native, a);
      HeldWhole(step, r.native, a, b, a[|a| - 1..] + b);
      HeldJoins(step, r, a, b, a[|a| - 1..] + b);
    } else {
      FreeSplits(step, r, a, b);
    }
  }

  /** The bytes a body call decodes fit in what it consumes, so decoding in place never
      overwrites a byte that is presented again. */
  lemma {:induction false} OutputFits(step: Step, s: Native, b: Bytes)
    requires Contract(step)
    ensures var u := Decode(step, s, b); |u.out| <= u.used
    ensures var u := Decode(step, s, b);
            u.end == EndNone && u.state == CRLFEQ && s != CRLFEQ ==> |u.out| <= u.used - 1
    ensures var u := Decode(step, s, b);
            u.end == EndControl ==> |u.out| <= u.used - (if s == CRLFEQ then 1 else 2)
    ensures var u := Decode(step, s, b);
            u.end == EndArticle ==> if u.used < 3 then u.out == [] else |u.out| <= u.used - 3
    decreases |b|
  {
    if b == [] {
    } else {
      var m := step(s, b[0]);
      assert MoveOk(s, b[0], m);
      if m.end == EndNone {
        OutputFits(step, m.next, b[1..]);
        ShortTerminator(step, m.next, b[1..]);
      }
    }
  }

  lemma DecodesInPlace(step: Step, r: Response, buf: Bytes)
    requires Contract(step) && Steady(r)
    ensures var f := YencBody(step, r, buf);
            f.fault == Fine ==> r.decoded <= f.r.decoded && |f.r.decoded| - |r.decoded| <= f.n
  {
    OutputFits(step, r.native, buf);
  }

  // ---------------------------------------------------------------- one cut

  /** More bytes behind do not move the first line end. */
  lemma {:induction false} CutExtends(a: Bytes, b: Bytes)
    requires Cut(a).Some?
    ensures Cut(a + b) == Cut(a)
    decreases |a|
  {
    assert (a + b)[0] == a[0] && (a + b)[1] == a[1];
    if !(a[0] == CR && a[1] == LF) {
      assert (a + b)[1..] == a[1..] + b;
      CutExtends(a[1..], b);
    }
  }

  /** A call has stopped for good. */
  predicate Over(f: Fed) { f.fault != Fine || f.r.eof }

  /** `whole` is `f` followed by `second`. */
  predicate Joined(f: Fed, whole: Fed, b: Bytes, second: Fed) {
    if Over(f) then whole == f
    else Steady(f.r) && (SplitsTerminator(f.r, b) || whole == Then(f.n, second))
  }

  type Scanner = (Response, Bytes) -> Fed

  function Scanning(m: Machine): Scanner { (r, buf) => Scan(m, r, buf) }

  /** Scanning `a + b` is scanning `a` and then what it left followed by `b`. */
  ghost predicate ScannerJoins(scan: Scanner, r: Response, a: Bytes, b: Bytes) {
    var f := scan(r, a);
    0 <= f.n <= |a| && Joined(f, scan(r, a + b), b, scan(f.r, a[f.n..] + b))
  }

  ghost predicate Joins(m: Machine, r: Response, a: Bytes, b: Bytes) {
    ScannerJoins(Scanning(m), r, a, b)
  }

  /** A machine whose lines do not touch the native decoder. */
  ghost predicate Sound(m: Machine) {
    && Contract(m.step)
    && forall r, l :: m.line(r, l).0.native == r.native && m.line(r, l).1 != OutOfRange
  }

  lemma {:induction false} ScanJoins(m: Machine, r: Response, a: Bytes, b: Bytes)
    requires Sound(m) && Steady(r) && !r.eof
    ensures Joins(m, r, a, b)
    decreases |a|, InBody(r), 1
  {
    if !InBody(r) {
      if Cut(a).Some? {
        LineJoins(m, r, a, b);
      } else {
        assert a[0..] + b == a + b;
      }
    } else if a == [] {
      assert a[0..] + b == a + b;
    } else if Decode(m.step, r.native, a).end == EndNone {
      BodySplits(m.step, r, a, b);
      StillInBody(m, r, a, b);
    } else {
      BodyEnds(m.step, r, a, b);
      EndedSteady(m.step, r.native, a);
      BodyJoins(m, r, a, b);
    }
  }

  /** Dropping in two steps. */
  lemma Shifted(a: Bytes, m: nat, n: nat, b: Bytes)
    requires m + n <= |a|
    ensures (a + b)[m..] == a[m..] + b && a[m..][n..] + b == a[m + n..] + b
  {}

  /** A step of `k` bytes in front of two scans that join. */
  lemma StepJoins(scan: Scanner, r: Response, next: Response, k: nat, a: Bytes, b: Bytes)
    requires k <= |a| && ScannerJoins(scan, next, a[k..], b)
    requires scan(r, a) == Then(k, scan(next, a[k..]))
    requires scan(r, a + b) == Then(k, scan(next, (a + b)[k..]))
    ensures ScannerJoins(scan, r, a, b)
  {
    var f := scan(next, a[k..]);
    Shifted(a, k, f.n, b);
    JoinedShifts(k, f, scan(next, a[k..] + b), b, scan(f.r, a[k + f.n..] + b));
  }

  lemma JoinedShifts(k: nat, f: Fed, whole: Fed, b: Bytes, second: Fed)
    requires Joined(f, whole, b, second)
    ensures Joined(Then(k, f), Then(k, whole), b, second)
  {}

  lemma {:induction false} LineJoins(m: Machine, r: Response, a: Bytes, b: Bytes)
    requires Sound(m) && Steady(r) && !r.eof && !InBody(r) && Cut(a).Some?
    ensures Joins(m, r, a, b)
    decreases |a|, InBody(r), 0
  {
    CutExtends(a, b);
    var i := Cut(a).value;
    assert (a + b)[..i] == a[..i];
    var (next, fault) := m.line(r, a[..i]);
    if fault == Fine && !next.eof {
      ScanJoins(m, next, a[i + 2..], b);
      StepJoins(Scanning(m), r, next, i + 2, a, b);
    }
  }

  lemma {:induction false} BodyJoins(m: Machine, r: Response, a: Bytes, b: Bytes)
    requires Sound(m) && Steady(r) && !r.eof && InBody(r) && a != []
    requires Decode(m.step, r.native, a).end != EndNone
    requires Decode(m.step, r.native, a).state != CRLFEQ
    requires YencBody(m.step, r, a + b) == YencBody(m.step, r, a)
    ensures Joins(m, r, a, b)
    decreases |a|, InBody(r), 0
  {
    var y := YencBody(m.step, r, a);
    if y.fault == Fine {
      ScanJoins(m, y.r, a[y.n..], b);
      StepJoins(Scanning(m), r, y.r, y.n, a, b);
    }
  }

  /** How a call goes on behind a body call. */
  function BehindBody(m: Machine, y: Fed, buf: Bytes): Fed
    requires 0 <= y.n <= |buf|
  {
    if y.fault != Fine || y.r.body then y else Then(y.n, Scan(m, y.r, buf[y.n..]))
  }

  lemma {:induction false} ScanBody(m: Machine, r: Response, buf: Bytes)
    requires InBody(r)
    ensures Scan(m, r, buf) == BehindBody(m, YencBody(m.step, r, buf), buf)
  {
  }

  function BehindLine(m: Machine, taken: (Response, Fault), n: nat, buf: Bytes): Fed
    requires 0 < n <= |buf|
  {
    if taken.1 != Fine || taken.0.eof then Fed(taken.0, n, taken.1) else Then(n, Scan(m, taken.0, buf[n..]))
  }

  lemma {:induction false} ScanLine(m: Machine, r: Response, buf: Bytes)
    requires !InBody(r) && Cut(buf).Some?
    ensures Scan(m, r, buf) == BehindLine(m, m.line(r, buf[..Cut(buf).value]), Cut(buf).value + 2, buf)
  {
  }

  lemma {:induction false} BodyShifts(m: Machine, r: Response, r': Response, k: nat, ab: Bytes)
    requires InBody(r) && InBody(r') && k <= |ab|
    requires YencBody(m.step, r, ab) == Then(k, YencBody(m.step, r', ab[k..]))
    ensures Scan(m, r, ab) == Then(k, Scan(m, r', ab[k..]))
  {
    var y := YencBody(m.step, r', ab[k..]);
    ScanBody(m, r, ab);
    ScanBody(m, r', ab[k..]);
    assert ab[k..][y.n..] == ab[k + y.n..];
  }

  lemma {:induction false} StillInBody(m: Machine, r: Response, a: Bytes, b: Bytes)
    requires InBody(r) && !r.eof && a != []
    requires Decode(m.step, r.native, a).end == EndNone
    requires var f := YencBody(m.step, r, a);
             f.fault == Fine && f.r.body && (!CompletesTerminator(f.r.native, b) ==>
               YencBody(m.step, r, a + b) == Then(f.n, YencBody(m.step, f.r, a[f.n..] + b)))
    ensures Joins(m, r, a, b)
  {
    var f := YencBody(m.step, r, a);
    ScanBody(m, r, a);
    if !CompletesTerminator(f.r.native, b) {
      assert (a + b)[f.n..] == a[f.n..] + b;
      BodyShifts(m, r, f.r, f.n, a + b);
    }
  }

  /** The response is inside a terminator of a yEnc body. */
  predicate InTerminator(r: Response) { InBody(r) && r.native in {CRLFDT, CRLFDTCR} }

  lemma BodyTakesAll(step: Step, r: Response, a: Bytes)
    ensures var y := YencBody(step, r, a);
            y.fault == Fine && InTerminator(y.r) ==> y.n == |a| && y.r.body
  {}

  predicate TakesAll(f: Fed, a: Bytes) { !Over(f) && InTerminator(f.r) ==> f.n == |a| }

  /** A call that stops inside a terminator has consumed everything it was shown. */
  lemma {:induction false} MidTerminator(m: Machine, r: Response, a: Bytes)
    ensures TakesAll(Scan(m, r, a), a)
    decreases |a|, InBody(r)
  {
    if InBody(r) {
      ScanBody(m, r, a);
      BodyTakesAll(m.step, r, a);
      var y := YencBody(m.step, r, a);
      if y.fault == Fine && !y.r.body { MidTerminator(m, y.r, a[y.n..]); }
    } else if Cut(a).Some? {
      ScanLine(m, r, a);
      var i := Cut(a).value;
      var (next, fault) := m.line(r, a[..i]);
      if fault == Fine && !next.eof { MidTerminator(m, next, a[i + 2..]); }
    } else {
      assert Scan(m, r, a) == Fed(r, 0, Fine);
    }
  }

  /** The rest of a terminator cannot be backed up over. */
  lemma RestFaults(m: Machine, r: Response, b: Bytes)
    requires Sound(m) && SplitsTerminator(r, b)
    ensures Scan(m, r, b).fault == OutOfRange
  {
    ShortTerminator(m.step, r.native, b);
  }

  /** The next call after this state does what the whole call would have done. */
  predicate CleanCut(r: Response, rest: Bytes, b: Bytes) {
    && !SplitsTerminator(r, b)
    && !(Stuck(r) && Cut(rest + b).Some?)
  }

  /** One cut, exactly: two calls do what one does unless the cut falls inside the
      terminator of a yEnc body or behind a line taken for uuencoded text by its shape with
      a complete line still to come. */
  lemma CutAgrees(m: Machine, r: Response, a: Bytes, b: Bytes)
    requires Sound(m) && Steady(r) && !r.eof && !Stuck(r)
    requires Feed(m, r, a + b).fault != OutOfRange
    ensures var f := Feed(m, r, a);
            if Over(f) then Feed(m, r, a + b) == f
            else
              && Steady(f.r)
              && (Feed(m, r, a + b) == Then(f.n, Feed(m, f.r, a[f.n..] + b)) <==> CleanCut(f.r, a[f.n..], b))
  {
    ScanJoins(m, r, a, b);
    var f := Scan(m, r, a);
    if !Over(f) && SplitsTerminator(f.r, b) {
      MidTerminator(m, r, a);
      assert a[f.n..] + b == b;
      RestFaults(m, f.r, b);
    }
  }

  // ---------------------------------------------------------------- every chunking

  function Flat(chunks: seq<Bytes>): Bytes {
    if chunks == [] then [] else chunks[0] + Flat(chunks[1..])
  }

  /** The read loop: each call is shown what the last one left followed by the next chunk. */
  function Drive(m: Machine, r: Response, pending: Bytes, chunks: seq<Bytes>): Fed
    decreases |chunks|
  {
    if chunks == [] then Fed(r, 0, Fine)
    else
      var f := Feed(m, r, pending + chunks[0]);
      if Over(f) then f
      else Then(f.n, Drive(m, f.r, (pending + chunks[0])[f.n..], chunks[1..]))
  }

  /** Every cut the run comes to is clean. */
  ghost predicate CleanCuts(m: Machine, r: Response, pending: Bytes, chunks: seq<Bytes>)
    decreases |chunks|
  {
    chunks == [] || (
      var f := Feed(m, r, pending + chunks[0]);
      var rest := (pending + chunks[0])[f.n..];
      Over(f) || (
        && CleanCut(f.r, rest, Flat(chunks[1..]))
        && (Stuck(f.r) || CleanCuts(m, f.r, rest, chunks[1..])))
    )
  }

  /** A response taken for uuencoded text never moves again. */
  lemma {:induction false} StuckForever(m: Machine, r: Response, pending: Bytes, chunks: seq<Bytes>)
    requires Stuck(r) && !r.eof
    ensures Drive(m, r, pending, chunks) == Fed(r, 0, Fine)
    decreases |chunks|
  {
    if chunks == [] {
    } else {
      StuckForever(m, r, (pending + chunks[0])[0..], chunks[1..]);
    }
  }

  /** Cutting the terminator, once or twice, ends in an index out of range. */
  lemma {:induction false} SplitFaults(m: Machine, r: Response, chunks: seq<Bytes>)
    requires Sound(m) && !r.eof && SplitsTerminator(r, Flat(chunks))
    ensures Drive(m, r, [], chunks).fault == OutOfRange
    decreases |chunks|
  {
    var a := chunks[0];
    assert [] + a == a;
    if CompletesTerminator(r.native, a) {
      RestFaults(m, r, a);
    } else {
      PartOfTerminator(m, r, a, Flat(chunks[1..]));
      var f := Scan(m, r, a);
      assert a[f.n..] == [];
      SplitFaults(m, f.r, chunks[1..]);
    }
  }

  lemma PartOfRun(step: Step, s: Native, a: Bytes, b: Bytes)
    requires Contract(step) && a != []
    requires CompletesTerminator(s, a + b) && !CompletesTerminator(s, a)
    ensures s == CRLFDT && a == [CR] && [LF] <= b
    ensures Decode(step, s, a) == Run(CRLFDTCR, [], 1, EndNone)
  {
    assert a[0] == (a + b)[0];
    assert |a| == 1 && b[0] == (a + b)[1];
    assert MoveOk(s, CR, step(s, CR));
    assert a[1..] == [];
  }

  lemma PartOfTerminator(m: Machine, r: Response, a: Bytes, b: Bytes)
    requires Sound(m) && SplitsTerminator(r, a + b) && !CompletesTerminator(r.native, a)
    ensures var f := Scan(m, r, a);
            f.fault == Fine && f.n == |a| && f.r.eof == r.eof && SplitsTerminator(f.r, b)
  {
    if a == [] {
      assert a + b == b;
    } else {
      PartOfRun(m.step, r.native, a, b);
    }
  }

  /** Every chunking, exactly: the read loop leaves the response one whole call leaves, with
      the same status, lines, header lines, decoded bytes and total consumed, if and only if
      every cut it comes to is clean. */
  lemma {:induction false} ChunksAgree(m: Machine, r: Response, pending: Bytes, chunks: seq<Bytes>)
    requires Sound(m) && Steady(r) && !r.eof && !Stuck(r)
    requires Feed(m, r, pending) == Fed(r, 0, Fine)
    requires Feed(m, r, pending + Flat(chunks)).fault != OutOfRange
    ensures Drive(m, r, pending, chunks) == Feed(m, r, pending + Flat(chunks)) <==> CleanCuts(m, r, pending, chunks)
    decreases |chunks|, 0
  {
    if chunks == [] {
      assert pending + Flat(chunks) == pending;
    } else {
      var a, b := pending + chunks[0], Flat(chunks[1..]);
      assert pending + Flat(chunks) == a + b;
      var f := Feed(m, r, a);
      CutAgrees(m, r, a, b);
      if !Over(f) {
        CutStep(m, r, a, chunks[1..]);
      }
    }
  }

  lemma {:induction false} CutStep(m: Machine, r: Response, a: Bytes, chunks: seq<Bytes>)
    requires Sound(m) && Steady(r) && !r.eof && !Stuck(r) && !Over(Feed(m, r, a))
    requires Feed(m, r, a + Flat(chunks)).fault != OutOfRange
    ensures var f := Feed(m, r, a);
            var rest := a[f.n..];
            Then(f.n, Drive(m, f.r, rest, chunks)) == Feed(m, r, a + Flat(chunks))
            <==> CleanCut(f.r, rest, Flat(chunks)) && (Stuck(f.r) || CleanCuts(m, f.r, rest, chunks))
    decreases |chunks|, 1
  {
    var f := Feed(m, r, a);
    var rest := a[f.n..];
    CutAgrees(m, r, a, Flat(chunks));
    if SplitsTerminator(f.r, Flat(chunks)) {
      MidTerminator(m, r, a);
      assert rest == [];
      SplitFaults(m, f.r, chunks);
    } else if Stuck(f.r) {
      StuckForever(m, f.r, rest, chunks);
    } else {
      assert a + [] == a && rest + [] == rest;
      CutAgrees(m, r, a, []);
      assert Feed(m, f.r, rest) == Fed(f.r, 0, Fine);
      ChunksAgree(m, f.r, rest, chunks);
    }
  }

  // ---------------------------------------------------------------- the response decoder

  lemma ReaderIsSound(step: Step)
    requires Contract(step)
    ensures Sound(Reader(step))
  {
    forall r, l ensures TakeLine(r, l).0.native == r.native && TakeLine(r, l).1 != OutOfRange {}
  }

  predicate BetweenTerminators(s: Native) { s !in {CRLFEQ, CRLFDT, CRLFDTCR} }

  /** A whole response is never backed up past its start. */
  lemma {:induction false} WholeStaysInRange(m: Machine, r: Response, buf: Bytes)
    requires Sound(m) && BetweenTerminators(r.native)
    ensures Scan(m, r, buf).fault != OutOfRange
    decreases |buf|, InBody(r)
  {
    if InBody(r) {
      var y := YencBody(m.step, r, buf);
      ShortTerminator(m.step, r.native, buf);
      ControlTakesTwo(m.step, r.native, buf);
      EndedSteady(m.step, r.native, buf);
      if !y.r.body { WholeStaysInRange(m, y.r, buf[y.n..]); }
    } else if Cut(buf).Some? {
      var i := Cut(buf).value;
      var (next, fault) := m.line(r, buf[..i]);
      if fault == Fine && !next.eof { WholeStaysInRange(m, next, buf[i + 2..]); }
    }
  }

  /** For every native decoder within the contract, every byte stream and every way of
      cutting it into reads: the response ends as after one whole call if and only if every
      cut is clean. */
  lemma ChunkingIndependence(step: Step, chunks: seq<Bytes>)
    requires Contract(step)
    ensures var m := Reader(step);
            Drive(m, FRESH, [], chunks) == Feed(m, FRESH, Flat(chunks)) <==> CleanCuts(m, FRESH, [], chunks)
  {
    ReaderIsSound(step);
    WholeStaysInRange(Reader(step), FRESH, Flat(chunks));
    assert [] + Flat(chunks) == Flat(chunks);
    ChunksAgree(Reader(step), FRESH, [], chunks);
  }

  /** Only a format opens a body. */
  predicate Tidy(r: Response) { r.body ==> r.format != Unknown }

  ghost predicate LinesKeepFormat(m: Machine) {
    forall r, l :: Tidy(r) ==>
      var next := m.line(r, l).0;
      Tidy(next) && (next.format == Unknown ==> r.format == Unknown)
  }

  lemma ReaderKeepsFormat(step: Step)
    ensures LinesKeepFormat(Reader(step))
  {
    forall r, l | Tidy(r)
      ensures Tidy(TakeLine(r, l).0) && (TakeLine(r, l).0.format == Unknown ==> r.format == Unknown)
    {
    }
  }

  /** A format once detected is kept. */
  lemma {:induction false} KeepsFormat(m: Machine, r: Response, buf: Bytes)
    requires LinesKeepFormat(m) && Tidy(r)
    ensures var f := Scan(m, r, buf);
            Tidy(f.r) && (f.r.format == Unknown ==> r.format == Unknown)
    decreases |buf|, InBody(r)
  {
    if InBody(r) {
      ScanBody(m, r, buf);
      var y := YencBody(m.step, r, buf);
      if y.fault == Fine && !y.r.body { KeepsFormat(m, y.r, buf[y.n..]); }
    } else if Cut(buf).Some? {
      ScanLine(m, r, buf);
      var i := Cut(buf).value;
      var (next, fault) := m.line(r, buf[..i]);
      if fault == Fine && !next.eof { KeepsFormat(m, next, buf[i + 2..]); }
    }
  }

  lemma {:induction false} PrefixFormat(m: Machine, r: Response, a: Bytes, b: Bytes)
    requires LinesKeepFormat(m) && Tidy(r) && Scan(m, r, a + b).r.format == Unknown
    ensures Scan(m, r, a).r.format == Unknown
    decreases |a|
  {
    KeepsFormat(m, r, a + b);
    if Cut(a).Some? {
      CutExtends(a, b);
      var i := Cut(a).value;
      assert (a + b)[..i] == a[..i] && (a + b)[i + 2..] == a[i + 2..] + b;
      var (next, fault) := m.line(r, a[..i]);
      if fault == Fine && !next.eof { PrefixFormat(m, next, a[i + 2..], b); }
    }
  }

  lemma {:induction false} PlainCutsAreClean(m: Machine, r: Response, pending: Bytes, chunks: seq<Bytes>)
    requires Sound(m) && LinesKeepFormat(m) && Steady(r) && !r.eof && Tidy(r)
    requires var w := Feed(m, r, pending + Flat(chunks)); w.fault != OutOfRange && w.r.format == Unknown
    ensures CleanCuts(m, r, pending, chunks)
    decreases |chunks|
  {
    if chunks != [] && !Stuck(r) {
      var a, b := pending + chunks[0], Flat(chunks[1..]);
      assert pending + Flat(chunks) == a + b;
      PrefixFormat(m, r, a, b);
      KeepsFormat(m, r, a);
      CutAgrees(m, r, a, b);
      var f := Feed(m, r, a);
      if !Over(f) { PlainCutsAreClean(m, f.r, a[f.n..], chunks[1..]); }
    }
  }

  /** Line mode, outright: a response in which no binary format is detected ends the same
      way for every chunking. */
  lemma LineModeIsOutright(step: Step, chunks: seq<Bytes>)
    requires Contract(step)
    requires Feed(Reader(step), FRESH, Flat(chunks)).r.format == Unknown
    ensures Drive(Reader(step), FRESH, [], chunks) == Feed(Reader(step), FRESH, Flat(chunks))
  {
    ReaderIsSound(step);
    WholeStaysInRange(Reader(step), FRESH, Flat(chunks));
    assert [] + Flat(chunks) == Flat(chunks);
    ReaderKeepsFormat(step);
    PlainCutsAreClean(Reader(step), FRESH, [], chunks);
    ChunkingIndependence(step, chunks);
  }

  // ---------------------------------------------------------------- where it fails

  const STATUS_222: Bytes := [50, 50, 50, CR, LF]           // "222"
  const SHAPED_LIKE_UU: Bytes := [35, 65, 66, 67, 68, CR, LF]  // "#ABCD"
  const TERMINATOR: Bytes := [DOT, CR, LF]

  lemma ReadsStatus222(step: Step, rest: Bytes)
    ensures Scan(Reader(step), FRESH, STATUS_222 + rest) == Then(5, Scan(Reader(step), AFTER_222, rest))
  {
    var buf := STATUS_222 + rest;
    assert Cut(buf[3..]) == Some(0) && Cut(buf[2..]) == Some(1) && Cut(buf[1..]) == Some(2) && Cut(buf) == Some(3);
    assert buf[..3] == [50, 50, 50] && buf[5..] == rest;
    var t: Bytes := [50, 50, 50];
    assert t[..3] == t && t[..2] == [50, 50] && t[..2][..1] == [50] && t[..2][..1][..0] == [];
    assert Digits([50]) == Some(2) && Digits([50, 50]) == Some(22) && Digits(t) == Some(222);
  }

  const AFTER_222 := FRESH.(status := 222, message := [50, 50, 50])

  lemma ShapedHead(step: Step, rest: Bytes)
    ensures Scan(Reader(step), FRESH, STATUS_222 + SHAPED_LIKE_UU + rest)
         == Then(12, Scan(Reader(step), AFTER_222.(format := UU, body := true), rest))
  {
    ReadsStatus222(step, SHAPED_LIKE_UU + rest);
    assert STATUS_222 + SHAPED_LIKE_UU + rest == STATUS_222 + (SHAPED_LIKE_UU + rest);
    ShapedLine(step, AFTER_222, rest);
  }

  lemma TerminatorLine(m: Machine, r: Response)
    requires m.line == TakeLine && !InBody(r)
    ensures Scan(m, r, TERMINATOR).r.eof
  {
    assert Cut(TERMINATOR[1..]) == Some(0) && Cut(TERMINATOR) == Some(1) && TERMINATOR[..1] == [DOT];
  }

  /** A BODY line that merely looks uuencoded: read whole, the response ends; cut behind
      that line, it never does. */
  lemma ALineShapedLikeUUStalls(step: Step, more: seq<Bytes>)
    ensures Feed(Reader(step), FRESH, STATUS_222 + SHAPED_LIKE_UU + TERMINATOR).r.eof
    ensures !Drive(Reader(step), FRESH, [], [STATUS_222 + SHAPED_LIKE_UU] + more).r.eof
  {
    var first := STATUS_222 + SHAPED_LIKE_UU;
    var stuck := AFTER_222.(format := UU, body := true);
    ShapedHead(step, TERMINATOR);
    TerminatorLine(Reader(step), stuck);
    ShapedHead(step, []);
    assert first + [] == first && [] + first == first && ([first] + more)[1..] == more;
    assert Feed(Reader(step), FRESH, first) == Fed(stuck, 12, Fine);
    StuckForever(Reader(step), stuck, first[12..], more);
  }

  lemma ShapedLine(step: Step, r: Response, rest: Bytes)
    requires r.status == 222 && r.format == Unknown && !r.body && !r.eof
    ensures Scan(Reader(step), r, SHAPED_LIKE_UU + rest)
         == Then(7, Scan(Reader(step), r.(format := UU, body := true), rest))
  {
    var buf := SHAPED_LIKE_UU + rest;
    assert Cut(buf[5..]) == Some(0);
    assert Cut(buf[4..]) == Some(1);
    assert Cut(buf[3..]) == Some(2);
    assert Cut(buf[2..]) == Some(3);
    assert Cut(buf[1..]) == Some(4);
    var l: Bytes := [35, 65, 66, 67, 68];
    assert buf[..5] == l && buf[7..] == rest;
    assert LooksUU(l, 5);
    assert ProbablyUU(r, l);
  }

  lemma TerminatorDecodes()
    ensures Decode(YEnc, CRLF, TERMINATOR[..1]) == Run(CRLFDT, [], 1, EndNone)
    ensures Decode(YEnc, CRLF, TERMINATOR[..2]) == Run(CRLFDTCR, [], 2, EndNone)
    ensures Decode(YEnc, CRLF, TERMINATOR) == Run(CRLF, [], 3, EndArticle)
  {
    SilentByte(YEnc, CRLF, DOT, CRLFDT, []);
    SilentByte(YEnc, CRLF, DOT, CRLFDT, [CR]);
    SilentByte(YEnc, CRLFDT, CR, CRLFDTCR, []);
    SilentByte(YEnc, CRLF, DOT, CRLFDT, [CR, LF]);
    SilentByte(YEnc, CRLFDT, CR, CRLFDTCR, [LF]);
    assert [DOT] + [] == TERMINATOR[..1] && [CR] + [] == [CR] && [DOT] + [CR] == TERMINATOR[..2];
    assert [DOT] + [CR, LF] == TERMINATOR && [CR] + [LF] == [CR, LF];
  }

  lemma TerminatorEnds(r: Response)
    requires InBody(r) && !r.eof && r.native == CRLF
    ensures Feed(Reader(YEnc), r, TERMINATOR).r.eof
  {
    TerminatorDecodes();
    var y := YencBody(YEnc, r, TERMINATOR);
    assert y.n == 0 && y.fault == Fine && !y.r.body;
    assert TERMINATOR[0..] == TERMINATOR;
    assert Cut(TERMINATOR[1..]) == Some(0) && TERMINATOR[..1] == [DOT];
    assert Cut(TERMINATOR) == Some(1);
    assert Scan(Reader(YEnc), y.r, TERMINATOR).r.eof;
  }

  lemma CutTerminatorFaults(r: Response, k: nat)
    requires InBody(r) && !r.eof && r.native == CRLF && 1 <= k <= 2
    ensures var f := Scan(Reader(YEnc), r, TERMINATOR[..k]);
            && f.fault == Fine && f.n == k && !f.r.eof
            && Drive(Reader(YEnc), f.r, [], [TERMINATOR[k..]]).fault == OutOfRange
  {
    TerminatorDecodes();
    YEncMeetsContract();
    ReaderIsSound(YEnc);
    var b := TERMINATOR[k..];
    var chunks := [b];
    assert chunks[1..] == [] && Flat(chunks) == b;
    SplitFaults(Reader(YEnc), YencBody(YEnc, r, TERMINATOR[..k]).r, chunks);
  }

  const BEGIN_LINE: Bytes := YBEGIN + [CR, LF]   // "=ybegin " without a part

  const IN_BODY := AFTER_222.(format := Yenc, headers := [YBEGIN], body := true)

  lemma BeginCut(buf: Bytes, rest: Bytes)
    requires buf == BEGIN_LINE + rest
    ensures Cut(buf) == Some(8) && buf[..8] == YBEGIN && buf[10..] == rest
  {
    assert Cut(buf[8..]) == Some(0) && Cut(buf[7..]) == Some(1) && Cut(buf[6..]) == Some(2);
    assert Cut(buf[5..]) == Some(3) && Cut(buf[4..]) == Some(4) && Cut(buf[3..]) == Some(5);
    assert Cut(buf[2..]) == Some(6) && Cut(buf[1..]) == Some(7);
  }

  lemma BeginOpens()
    ensures TakeLine(AFTER_222, YBEGIN) == (IN_BODY, Fine)
  {
    assert Index(YBEGIN[7..], PART) == None;
    assert [] + [YBEGIN] == [YBEGIN];
  }

  lemma BeginLine(step: Step, rest: Bytes)
    ensures Scan(Reader(step), AFTER_222, BEGIN_LINE + rest) == Then(10, Scan(Reader(step), IN_BODY, rest))
  {
    var buf := BEGIN_LINE + rest;
    BeginCut(buf, rest);
    BeginOpens();
    ScanLine(Reader(step), AFTER_222, buf);
  }

  lemma BodyHead(step: Step, rest: Bytes)
    ensures Scan(Reader(step), FRESH, STATUS_222 + BEGIN_LINE + rest) == Then(15, Scan(Reader(step), IN_BODY, rest))
  {
    ReadsStatus222(step, BEGIN_LINE + rest);
    assert STATUS_222 + BEGIN_LINE + rest == STATUS_222 + (BEGIN_LINE + rest);
    BeginLine(step, rest);
  }

  /** A yEnc body ended by the article terminator itself: read whole, the response ends;
      cut inside the terminator, the back-up runs out of range. */
  lemma ACutTerminatorRunsOutOfRange(k: nat)
    requires 1 <= k <= 2
    ensures var head := STATUS_222 + BEGIN_LINE;
            && Feed(Reader(YEnc), FRESH, head + TERMINATOR).r.eof
            && Drive(Reader(YEnc), FRESH, [], [head + TERMINATOR[..k], TERMINATOR[k..]]).fault == OutOfRange
  {
    var head, a, b := STATUS_222 + BEGIN_LINE, TERMINATOR[..k], TERMINATOR[k..];
    BodyHead(YEnc, TERMINATOR);
    TerminatorEnds(IN_BODY);
    BodyHead(YEnc, a);
    CutTerminatorFaults(IN_BODY, k);
    assert [] + (head + a) == head + a && [head + a, b][1..] == [b];
    assert (head + a)[15 + k..] == [];
  }
}
