/**
 * What line mode reads: the decoder undoes the framing of a multi-line response
 * (section 3.1.1 of RFC 3977), for every chunking of the wire. Stuffed dots are left in.
 */
module LineMode {
  import opened Basics
  import opened Decoder
  import opened Chunking

  const BREAK: Bytes := [CR, LF]

  function Wire(lines: seq<Bytes>): Bytes {
    if lines == [] then [] else lines[0] + BREAK + Wire(lines[1..])
  }

  predicate IsLine(l: Bytes) { Cut(l) == None }

  /** A line without a line break ends at the break put behind it. */
  lemma {:induction false} CutsLine(l: Bytes, rest: Bytes)
    requires IsLine(l)
    ensures Cut(l + BREAK + rest) == Some(|l|)
    decreases |l|
  {
    var buf := l + BREAK + rest;
    if l == [] {
    } else {
      assert buf[1..] == l[1..] + BREAK + rest;
      assert buf[0] == l[0] && (|l| == 1 ==> buf[1] == CR) && (|l| > 1 ==> buf[1] == l[1]);
      CutsLine(l[1..], rest);
    }
  }

  /** A response whose lines are kept as text. */
  predicate KeptAsText(r: Response) {
    r.format == Unknown && !r.body && !r.eof && r.status !in {0, 220, 222}
  }

  ghost predicate KeepsText(m: Machine) {
    forall r, l :: KeptAsText(r) && l != [DOT] ==> m.line(r, l) == (r.(lines := r.lines + [l]), Fine)
  }

  lemma ReaderKeepsText(step: Step)
    ensures KeepsText(Reader(step))
  {
    forall r, l | KeptAsText(r) && l != [DOT] ensures TakeLine(r, l) == (r.(lines := r.lines + [l]), Fine) {}
  }

  lemma ReadsLine(m: Machine, r: Response, l: Bytes, rest: Bytes)
    requires KeepsText(m) && IsLine(l) && l != [DOT] && KeptAsText(r)
    ensures Scan(m, r, l + BREAK + rest) == Then(|l| + 2, Scan(m, r.(lines := r.lines + [l]), rest))
  {
    CutsLine(l, rest);
    var buf := l + BREAK + rest;
    assert buf[..|l|] == l && buf[|l| + 2..] == rest;
    assert m.line(r, l) == (r.(lines := r.lines + [l]), Fine);
  }

  predicate ReadsOne(scan: Scanner, r: Response, l: Bytes, rest: Bytes) {
    scan(r, l + BREAK + rest) == Then(|l| + 2, scan(r.(lines := r.lines + [l]), rest))
  }

  /** Text lines are read one by one. */
  ghost predicate ReadsText(scan: Scanner) {
    forall r, l, rest :: KeptAsText(r) && IsLine(l) && l != [DOT] ==> ReadsOne(scan, r, l, rest)
  }

  lemma ReaderReadsText(step: Step)
    ensures ReadsText(Scanning(Reader(step)))
  {
    ReaderKeepsText(step);
    var m := Reader(step);
    forall r, l, rest | KeptAsText(r) && IsLine(l) && l != [DOT]
      ensures ReadsOne(Scanning(m), r, l, rest)
    {
      ReadsLine(m, r, l, rest);
    }
  }

  lemma {:induction false} ReadsLines(scan: Scanner, r: Response, lines: seq<Bytes>, rest: Bytes)
    requires ReadsText(scan) && KeptAsText(r)
    requires forall l :: l in lines ==> IsLine(l) && l != [DOT]
    ensures scan(r, Wire(lines) + rest) == Then(|Wire(lines)|, scan(r.(lines := r.lines + lines), rest))
    decreases |lines|
  {
    if lines == [] {
      assert Wire(lines) + rest == rest && r.lines + lines == r.lines;
    } else {
      var l, more := lines[0], lines[1..];
      var next := r.(lines := r.lines + [l]);
      Regroup(l + BREAK, Wire(more), rest);
      assert l in lines;
      assert ReadsOne(scan, r, l, Wire(more) + rest);
      ReadsLines(scan, next, more, rest);
      assert next.lines + more == r.lines + lines;
    }
  }

  lemma ReadsEnd(step: Step, r: Response, rest: Bytes)
    requires !InBody(r)
    ensures Scan(Reader(step), r, TERMINATOR + rest) == Fed(r.(eof := true), 3, Fine)
  {
    assert IsLine([DOT]);
    CutsLine([DOT], rest);
    var buf := TERMINATOR + rest;
    assert [DOT] + BREAK + rest == buf && buf[..1] == [DOT];
  }

  /** What a response whose first line is `head` must leave, and how much of the wire. */
  function Expected(head: Bytes, code: int, lines: seq<Bytes>): Fed {
    var r := FRESH.(message := head, status := code, eof := true);
    if Multiline(code) then Fed(r.(lines := lines), |head| + 2 + |Wire(lines)| + 3, Fine)
    else Fed(r, |head| + 2, Fine)
  }

  lemma ReadsStatus(step: Step, head: Bytes, code: int, rest: Bytes)
    requires IsLine(head) && |head| >= 3 && Integer(head[..3]) == Some(code)
    ensures var r := FRESH.(message := head, status := code);
            Scan(Reader(step), FRESH, head + BREAK + rest) ==
            if Multiline(code) then Then(|head| + 2, Scan(Reader(step), r, rest))
            else Fed(r.(eof := true), |head| + 2, Fine)
  {
    CutsLine(head, rest);
    var buf := head + BREAK + rest;
    assert buf[..|head|] == head && buf[|head| + 2..] == rest;
  }

  /** Read back: a status line and, for a multi-line code outside ARTICLE and BODY, its lines
      and terminator come back as they were sent, in order, with nothing beyond the response
      consumed, however the wire was cut. */
  lemma ReadsBack(step: Step, head: Bytes, code: int, lines: seq<Bytes>, rest: Bytes, chunks: seq<Bytes>)
    requires Contract(step)
    requires IsLine(head) && |head| >= 3 && Integer(head[..3]) == Some(code) && code !in {220, 222}
    requires forall l :: l in lines ==> IsLine(l) && l != [DOT]
    requires Flat(chunks) == head + BREAK + (Wire(lines) + (TERMINATOR + rest))
    ensures Drive(Reader(step), FRESH, [], chunks) == Expected(head, code, lines)
  {
    ReadsStatus(step, head, code, Wire(lines) + (TERMINATOR + rest));
    var r := FRESH.(message := head, status := code);
    if Multiline(code) {
      ReaderReadsText(step);
      ReadsLines(Scanning(Reader(step)), r, lines, TERMINATOR + rest);
      ReadsEnd(step, r.(lines := lines), rest);
      assert [] + lines == lines;
    }
    LineModeIsOutright(step, chunks);
  }

  /** A first line that does not begin with a number is a protocol desync. */
  lemma GarbageIsDesync(step: Step, head: Bytes, rest: Bytes, chunks: seq<Bytes>)
    requires Contract(step)
    requires IsLine(head) && |head| >= 3 && Integer(head[..3]) == None
    requires Flat(chunks) == head + BREAK + rest
    ensures Drive(Reader(step), FRESH, [], chunks) == Fed(FRESH.(message := head), |head| + 2, Desync)
  {
    CutsLine(head, rest);
    var buf := head + BREAK + rest;
    assert buf[..|head|] == head;
    LineModeIsOutright(step, chunks);
  }
}
