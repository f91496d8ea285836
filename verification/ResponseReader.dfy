/**
 * NNTPResponse (reader.go:25-148, 271-315): the object that is fed the wire, with the
 * fields its methods update. Its calls are those of the decoder function, whose behaviour
 * under every chunking is in module Chunking.
 */
module ResponseReader {
  import opened Basics
  import opened Decoder

  class NNTPResponse {
    var status: int
    var message: Bytes
    var lines: seq<Bytes>
    var headers: seq<Bytes>
    var format: Format
    var body: bool
    var emptyLine: bool
    var eof: bool
    var native: Native
    var decoded: Bytes
    var bytesConsumed: int

    ghost function View(): Response
      reads this
    {
      Response(status, message, lines, headers, format, body, emptyLine, eof, native, decoded)
    }

    /** The response as decoding sees it: `eof` is set and never asked. */
    ghost function Open(): Response
      reads this
    {
      View().(eof := false)
    }

    /** The fields are those of `r`, and `eof` stays set once it `was`. */
    ghost predicate Shows(r: Response, was: bool)
      reads this
    {
      View() == r.(eof := was || r.eof)
    }

    /** A line was handled as the line function says. */
    ghost predicate Handled(taken: (Response, Fault), was: bool, stop: bool, fault: Fault)
      reads this
    {
      Shows(taken.0, was) && fault == taken.1 && (stop <==> fault != Fine || taken.0.eof)
    }

    constructor ()
      ensures View() == FRESH && bytesConsumed == 0
    {
      status, message, lines, headers, format := 0, [], [], [], Unknown;
      body, emptyLine, eof, native, decoded, bytesConsumed := false, false, false, CRLF, [], 0;
    }

    method DecodeYenc(step: Step, buf: Bytes) returns (n: int, fault: Fault)
      modifies this
      ensures bytesConsumed == old(bytesConsumed) && eof == old(eof)
      ensures var y := YencBody(step, old(Open()), buf);
              fault == y.fault && (fault == Fine ==> Open() == y.r && n == y.n)
    {
      if buf == [] { return 0, Fine; }
      var u := Decoder.Decode(step, native, buf);
      native := u.state;
      decoded := decoded + u.out;
      n, fault := u.used, Fine;
      match u.end {
        case EndNone =>
          if native == CRLFEQ {
            native := CRLF;
            n := n - 1;
          }
        case EndControl =>
          body := false;
          n := n - 2;
        case EndArticle =>
          body := false;
          n := n - 3;
      }
      if n < 0 { fault := OutOfRange; }
    }

    method DetectFormat(line: Bytes)
      modifies this
      ensures Open() == Detect(old(Open()), line) && eof == old(eof) && bytesConsumed == old(bytesConsumed)
    {
      if status != 222 && status != 220 { return; }
      if line == [] {
        emptyLine := true;
      } else if YBEGIN <= line {
        format := Yenc;
      } else if (|line| == 60 || |line| == 61) && line[0] == 77 {
        format := UU;
      } else if !(BEGIN <= line)
                && ProbablyUU(Response(status, [], [], [], format, body, emptyLine, eof, native, []), line) {
        format, body := UU, true;
      }
    }

    /** The status line; `stop` when it ends the response or the call. */
    method ReadStatus(line: Bytes) returns (stop: bool, fault: Fault)
      requires format == Unknown && status == 0 && |line| >= 3
      modifies this
      ensures bytesConsumed == old(bytesConsumed)
      ensures line != [DOT] && Handled(TakeLine(old(Open()), line), old(eof), stop, fault)
    {
      message := line;
      var code := Integer(line[..3]);
      if code == None { return true, Desync; }
      status := code.value;
      if !Multiline(status) {
        eof := true;
        return true, Fine;
      }
      return false, Fine;
    }

    /** A line that is kept according to its format. */
    method KeepLine(line: Bytes)
      requires line != [DOT] && !(format == Unknown && status == 0 && |line| >= 3)
      modifies this
      ensures bytesConsumed == old(bytesConsumed)
      ensures Handled(TakeLine(old(Open()), line), old(eof), false, Fine)
    {
      if format == Unknown { DetectFormat(line); }
      match format {
        case Unknown => lines := lines + [line];
        case Yenc =>
          headers := headers + [line];
          if Opens(line) { body := true; }
        case UU =>
      }
    }

    /** One line of the line loop; `stop` when it ends the response or the call. */
    method HandleLine(line: Bytes) returns (stop: bool, fault: Fault)
      modifies this
      ensures bytesConsumed == old(bytesConsumed)
      ensures Handled(TakeLine(old(Open()), line), old(eof), stop, fault)
    {
      if line == [DOT] {
        eof := true;
        return true, Fine;
      }
      if format == Unknown && status == 0 && |line| >= 3 {
        stop, fault := ReadStatus(line);
        return;
      }
      KeepLine(line);
      return false, Fine;
    }

    /** Cut the next line and handle it; `stop` when the call ends here. */
    method DecodeLine(step: Step, rest: Bytes) returns (stop: bool, n: int, fault: Fault)
      requires !InBody(View())
      modifies this
      ensures bytesConsumed == old(bytesConsumed) && (!stop ==> eof == old(eof) && 0 < n <= |rest|)
      ensures var f := Scan(Reader(step), old(Open()), rest);
              if stop then Shows(f.r, old(eof)) && n == f.n && fault == f.fault
              else f == Then(n, Scan(Reader(step), Open(), rest[n..]))
    {
      var cut := Cut(rest);
      if cut == None { return true, 0, Fine; }
      stop, fault := HandleLine(rest[..cut.value]);
      n := cut.value + 2;
    }

    /** Decode the body from here; `stop` when the call ends in it. */
    method DecodeBody(step: Step, rest: Bytes) returns (stop: bool, n: int, fault: Fault)
      requires InBody(View())
      modifies this
      ensures bytesConsumed == old(bytesConsumed) && eof == old(eof) && (!stop ==> !body && 0 <= n <= |rest|)
      ensures var f := Scan(Reader(step), old(Open()), rest);
              if stop then fault == f.fault && (fault != OutOfRange ==> Shows(f.r, old(eof)) && n == f.n)
              else f == Then(n, Scan(Reader(step), Open(), rest[n..]))
    {
      n, fault := DecodeYenc(step, rest);
      stop := fault != Fine || body;
    }

    /** The line loop. */
    method DecodeLines(step: Step, buf: Bytes) returns (read: int, fault: Fault)
      requires !body
      modifies this
      ensures bytesConsumed == old(bytesConsumed)
      ensures var f := Scan(Reader(step), old(Open()), buf);
              fault == f.fault && (fault != OutOfRange ==> Shows(f.r, old(eof)) && read == f.n)
    {
      ghost var whole := Scan(Reader(step), Open(), buf);
      var rest := buf;
      read := 0;
      while true
        invariant eof == old(eof) && !InBody(View()) && bytesConsumed == old(bytesConsumed)
        invariant whole == Then(read, Scan(Reader(step), Open(), rest))
        decreases |rest|
      {
        var stop, n;
        stop, n, fault := DecodeLine(step, rest);
        read, rest := read + n, if stop then rest else rest[n..];
        if stop { return; }
        if format == Yenc && body {
          stop, n, fault := DecodeBody(step, rest);
          read, rest := read + n, if stop then rest else rest[n..];
          if stop { return; }
        }
      }
    }

    method DecodeBuffer(step: Step, buf: Bytes) returns (read: int, fault: Fault)
      modifies this
      ensures bytesConsumed == old(bytesConsumed)
      ensures var f := Decoder.Feed(Reader(step), old(Open()), buf);
              fault == f.fault && (fault != OutOfRange ==> Shows(f.r, old(eof)) && read == f.n)
    {
      var rest := buf;
      read, fault := 0, Fine;
      if body && format == Yenc {
        var stop;
        stop, read, fault := DecodeBody(step, buf);
        if stop { return; }
        rest := buf[read..];
      }
      if !body {
        var n;
        n, fault := DecodeLines(step, rest);
        read := read + n;
      }
    }

    /** Feed the next bytes: a response that is complete stays so, whatever else they change. */
    method Feed(step: Step, buf: Bytes) returns (consumed: int, done: bool, fault: Fault)
      modifies this
      ensures var f := Decoder.Feed(Reader(step), old(Open()), buf);
              && fault == f.fault
              && (fault != OutOfRange ==>
                    Shows(f.r, old(eof)) && consumed == f.n && bytesConsumed == old(bytesConsumed) + f.n)
              && (done <==> fault == Fine && eof)
    {
      consumed, fault := DecodeBuffer(step, buf);
      bytesConsumed := bytesConsumed + consumed;
      done := fault == Fine && eof;
    }
  }
}
