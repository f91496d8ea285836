/**
 * The streaming response decoder (reader.go): status line, line mode, format detection,
 * yEnc header lines and the back-up logic around the native yEnc decoder.
 *
 * The native decoder is any byte-at-a-time machine that meets `Contract`.
 */
module Decoder {
  import opened Basics
  import ReadBuffer

  type Byte = ReadBuffer.Byte
  type Bytes = seq<Byte>

  const CR: Byte := 13
  const LF: Byte := 10
  const DOT: Byte := 46
  const EQUALS: Byte := 61
  const YBEGIN: Bytes := [61, 121, 98, 101, 103, 105, 110, 32]  // "=ybegin "
  const YPART: Bytes := [61, 121, 112, 97, 114, 116, 32]        // "=ypart "
  const PART: Bytes := [32, 112, 97, 114, 116, 61]              // " part="
  const BEGIN: Bytes := [98, 101, 103, 105, 110, 32]            // "begin "

  // ---------------------------------------------------------------- native decoder

  /** The decoder states of rapidyenc. */
  datatype Native = NONE | EQ | CR_ | CRLF | CRLFEQ | CRLFDT | CRLFDTCR

  datatype End = EndNone | EndControl | EndArticle

  /** What one byte does: the next state, the decoded bytes and whether the body ends. */
  datatype Move = Move(next: Native, out: Bytes, end: End)

  type Step = (Native, Byte) -> Move

  /** What the response decoder relies on. An '=' at the start of a line is held back
      without output; a control line is announced from there; an article terminator is
      announced exactly by a line feed after a carriage return after a line-leading dot;
      none of these bytes produce output and no byte produces more than one. */
  ghost predicate Contract(step: Step) {
    && step(CRLF, EQUALS) == Move(CRLFEQ, [], EndNone)
    && forall s, b :: MoveOk(s, b, step(s, b))
  }

  predicate MoveOk(s: Native, b: Byte, m: Move) {
    && |m.out| <= 1
    && (m.next == CRLFEQ ==> b == EQUALS && m.out == [])
    && (m.end == EndControl ==> s == CRLFEQ && m.out == [])
    && (m.end == EndArticle <==> s == CRLFDTCR && b == LF)
    && (m.end == EndArticle ==> m.out == [])
    && (m.next == CRLFDTCR <==> s == CRLFDT && b == CR)
    && (m.next in {CRLFDT, CRLFDTCR} ==> m.out == [])
    && (m.end != EndNone ==> m.next !in {CRLFEQ, CRLFDT, CRLFDTCR})
  }

  /** The result of one native call. */
  datatype Run = Run(state: Native, out: Bytes, used: nat, end: End)

  function After(m: Move, rest: Run): Run {
    Run(rest.state, m.out + rest.out, rest.used + 1, rest.end)
  }

  /** One native call: bytes are taken until one ends the body or none is left. */
  function Decode(step: Step, s: Native, buf: Bytes): (r: Run)
    ensures r.used <= |buf|
    ensures if r.end == EndNone then r.used == |buf| else r.used >= 1
    decreases |buf|
  {
    if buf == [] then Run(s, [], 0, EndNone)
    else
      var m := step(s, buf[0]);
      if m.end != EndNone then Run(m.next, m.out, 1, m.end)
      else After(m, Decode(step, m.next, buf[1..]))
  }

  /** A native decoder: yEnc in raw NNTP framing, with dots at line starts removed. */
  function YEnc(s: Native, b: Byte): Move {
    if s == CRLFEQ && b == 121 then Move(NONE, [], EndControl)
    else if s == CRLFDTCR && b == LF then Move(CRLF, [], EndArticle)
    else if s == CRLFDT && b == CR then Move(CRLFDTCR, [], EndNone)
    else if b == CR then Move(CR_, [], EndNone)
    else if b == LF then Move(if s == CR_ then CRLF else NONE, [], EndNone)
    else if s == EQ || s == CRLFEQ then Move(NONE, [(b + 256 - 64 - 42) % 256], EndNone)
    else if s == CRLF && b == DOT then Move(CRLFDT, [], EndNone)
    else if b == EQUALS then Move(if s == CRLF || s == CRLFDT then CRLFEQ else EQ, [], EndNone)
    else Move(NONE, [(b + 256 - 42) % 256], EndNone)
  }

  lemma YEncMeetsContract()
    ensures Contract(YEnc)
  {
    forall s, b ensures MoveOk(s, b, YEnc(s, b)) {}
  }

  // ---------------------------------------------------------------- response state

  datatype Format = Unknown | Yenc | UU

  datatype Response = Response(
    status: int,
    message: Bytes,
    lines: seq<Bytes>,     // lines kept as text
    headers: seq<Bytes>,   // lines given to the yEnc header reader; all metadata derives from them
    format: Format,
    body: bool,
    emptyLine: bool,
    eof: bool,
    native: Native,
    decoded: Bytes)

  const FRESH := Response(0, [], [], [], Unknown, false, false, false, CRLF, [])

  datatype Fault = Fine | Desync | OutOfRange

  /** What a call leaves: the response, the bytes it consumed and how it failed. */
  datatype Fed = Fed(r: Response, n: int, fault: Fault)

  function Then(k: int, f: Fed): Fed { f.(n := k + f.n) }

  /** The position of the first CRLF. */
  function Cut(buf: Bytes): (i: Option<nat>)
    ensures i.Some? ==> i.value + 2 <= |buf| && buf[i.value] == CR && buf[i.value + 1] == LF
  {
    FirstPair(buf, CR, LF)
  }

  // ---------------------------------------------------------------- small readers

  predicate IsDigit(b: Byte) { 48 <= b <= 57 }

  function Digits(t: Bytes): Option<int> {
    if t == [] then Some(0)
    else match Digits(t[..|t| - 1])
      case None => None
      case Some(v) => if IsDigit(t[|t| - 1]) then Some(10 * v + (t[|t| - 1] as int - 48)) else None
  }

  /** A decimal integer with an optional sign. */
  function Integer(t: Bytes): Option<int> {
    if t == [] then None
    else if t[0] != 43 && t[0] != 45 then Digits(t)
    else if |t| == 1 then None
    else match Digits(t[1..]) case None => None case Some(v) => Some(if t[0] == 45 then -v else v)
  }

  predicate Int64(i: Option<int>) {
    i.Some? && -0x8000_0000_0000_0000 <= i.value < 0x8000_0000_0000_0000
  }

  function Index(data: Bytes, pat: Bytes): (i: Option<nat>)
    ensures i.Some? ==> i.value + |pat| <= |data|
  {
    if |data| < |pat| then None
    else if pat <= data then Some(0)
    else if data == [] then None
    else match Index(data[1..], pat) case None => None case Some(i) => Some(i + 1)
  }

  function Token(data: Bytes): Bytes {
    if data == [] || data[0] in {0, 32, CR, LF} then [] else [data[0]] + Token(data[1..])
  }

  /** Does this header line switch to the body? `=ypart` does, and so does an `=ybegin`
      without a readable part number. */
  predicate Opens(line: Bytes) {
    if YBEGIN <= line then
      var data := line[7..];
      match Index(data, PART)
      case None => true
      case Some(i) => !Int64(Integer(Token(data[i + |PART|..])))
    else YPART <= line
  }

  predicate Multiline(code: int) { code == 222 || code == 220 || code == 221 || code == 101 }

  predicate LooksUU(line: Bytes, length: int) {
    && 0 < length <= |line|
    && (forall k :: 1 <= k < length ==> 32 <= line[k] <= 96)
    && (forall k :: length <= k < |line| ==> line[k] == 32 || line[k] == 96)
  }

  /** The line is taken for the first line of a uuencoded part by its shape alone. */
  predicate ProbablyUU(r: Response, line: Bytes) {
    var l := if [DOT, DOT] <= line then line[1..] else line;
    && |l| > 1
    && (r.status == 222 || (r.status == 220 && r.emptyLine))
    && (var c: int := l[0];
        LooksUU(l, ((c - 32) % 64 * 4 + 5) / 3) || LooksUU(l, if c == 96 then 0 else (c - 32) % 64))
  }

  /** Format detection. A "begin " line decides nothing: once its leading spaces are gone
      no further space can follow. */
  function Detect(r: Response, line: Bytes): Response {
    if r.status != 222 && r.status != 220 then r
    else if line == [] then r.(emptyLine := true)
    else if YBEGIN <= line then r.(format := Yenc)
    else if (|line| == 60 || |line| == 61) && line[0] == 77 then r.(format := UU)
    else if BEGIN <= line then r
    else if ProbablyUU(r, line) then r.(format := UU, body := true)
    else r
  }

  // ---------------------------------------------------------------- one call

  /** One complete line in line mode. */
  function TakeLine(r: Response, line: Bytes): (Response, Fault) {
    if line == [DOT] then (r.(eof := true), Fine)
    else if r.format == Unknown && r.status == 0 && |line| >= 3 then
      match Integer(line[..3])
      case None => (r.(message := line), Desync)
      case Some(code) => (r.(message := line, status := code, eof := r.eof || !Multiline(code)), Fine)
    else
      var d := if r.format == Unknown then Detect(r, line) else r;
      match d.format
      case Unknown => (d.(lines := d.lines + [line]), Fine)
      case Yenc => (d.(headers := d.headers + [line], body := d.body || Opens(line)), Fine)
      case UU => (d, Fine)
  }

  /** The response after a native call that backed up by `back` bytes. */
  function Absorb(r: Response, u: Run, state: Native, back: nat, body: bool): Fed {
    Fed(r.(native := state, decoded := r.decoded + u.out, body := body), u.used - back, Fine)
  }

  /** The back-up after a native call: a held '=' is presented again, and so are "=y" and
      the terminator. Backing up past the start of the window is an index out of range. */
  function Settle(r: Response, u: Run): Fed {
    match u.end
    case EndNone => if u.state == CRLFEQ then Absorb(r, u, CRLF, 1, r.body) else Absorb(r, u, u.state, 0, r.body)
    case EndControl => if u.used < 2 then Fed(r, 0, OutOfRange) else Absorb(r, u, u.state, 2, false)
    case EndArticle => if u.used < 3 then Fed(r, 0, OutOfRange) else Absorb(r, u, u.state, 3, false)
  }

  /** One call in the body. */
  function YencBody(step: Step, r: Response, buf: Bytes): (f: Fed)
    ensures 0 <= f.n <= |buf|
  {
    if buf == [] then Fed(r, 0, Fine) else Settle(r, Decode(step, r.native, buf))
  }

  predicate InBody(r: Response) { r.body && r.format == Yenc }

  /** What a call is made of: the native decoder and the handling of complete lines. */
  datatype Machine = Machine(step: Step, line: (Response, Bytes) -> (Response, Fault))

  /** Everything one call does once it works at all. */
  function Scan(m: Machine, r: Response, buf: Bytes): (f: Fed)
    ensures 0 <= f.n <= |buf|
    decreases |buf|, InBody(r)
  {
    if InBody(r) then
      var y := YencBody(m.step, r, buf);
      if y.fault != Fine || y.r.body then y
      else Then(y.n, Scan(m, y.r, buf[y.n..]))
    else
      match Cut(buf)
      case None => Fed(r, 0, Fine)
      case Some(i) =>
        var (next, fault) := m.line(r, buf[..i]);
        if fault != Fine || next.eof then Fed(next, i + 2, fault)
        else Then(i + 2, Scan(m, next, buf[i + 2..]))
  }

  /** A response taken for uuencoded text by shape: its next call consumes nothing. */
  predicate Stuck(r: Response) { r.body && r.format != Yenc }

  /** One call of Feed. */
  function Feed(m: Machine, r: Response, buf: Bytes): (f: Fed)
    ensures 0 <= f.n <= |buf|
  {
    if Stuck(r) then Fed(r, 0, Fine) else Scan(m, r, buf)
  }

  /** The response decoder over a native decoder. */
  function Reader(step: Step): Machine { Machine(step, TakeLine) }
}
