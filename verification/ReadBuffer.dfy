/**
 * The connection's read buffer (readBuffer.go) and the drain control of an abandoned
 * BODY response (the control closure of readerLoop in nntp.go).
 *
 * The socket, the decoder and the contexts are the environment: scripts say what each
 * read delivers, how much each feed consumes and scribbles over, and what each control
 * call finds.
 */
module ReadBuffer {
  import opened Basics

  type Byte = b: int | 0 <= b < 256

  const DEFAULT_SIZE: nat := 128 * 1024
  const MAX_SIZE: nat := 8 * 1024 * 1024

  /** What one read finds on the socket; it delivers no more than the free space. */
  datatype Arrival = Arrival(data: seq<Byte>, failed: bool)

  /** What one call of the feeder does with the window it is shown: how much of it to
      consume, what to leave behind in the consumed part, and whether it is finished. */
  datatype Meal = Meal(appetite: nat, scribble: nat -> Byte, done: bool, failed: bool)

  /** What one control call finds: the request's context is done, the drain time is over. */
  datatype Glance = Glance(cancelled: bool, expired: bool)

  datatype Result = Complete | ReadFailed | FeedFailed | Overflow | DrainLimit | Unfinished

  class Buffer {
    var buf: array<Byte>
    var start: nat
    var end: nat

    ghost predicate Valid()
      reads this
    {
      && start <= end <= buf.Length <= MAX_SIZE
      && (start < end || (start == 0 && end == 0))
    }

    ghost function Window(): seq<Byte>
      reads this, buf
      requires Valid()
    {
      buf[start..end]
    }

    constructor (size: nat)
      requires size <= MAX_SIZE
      ensures Valid() && fresh(buf) && Window() == []
    {
      buf := new Byte[size](_ => 0);
      start, end := 0, 0;
    }

    method Init()
      requires Valid()
      modifies this
      ensures Valid() && Window() == old(Window()) && buf.Length > 0
      ensures buf == old(buf) || fresh(buf)
    {
      if buf.Length == 0 { buf := new Byte[DEFAULT_SIZE](_ => 0); }
    }

    method Advance(consumed: int)
      requires Valid() && consumed <= end - start
      modifies this`start, this`end
      ensures Valid() && Window() == old(Window())[Max(consumed, 0)..]
    {
      if consumed <= 0 { return; }
      start := start + consumed;
      if start >= end { start, end := 0, 0; }
    }

    method Compact()
      requires Valid()
      modifies this`start, this`end, buf
      ensures Valid() && Window() == old(Window()) && start == 0
    {
      if start == 0 || start == end { return; }
      var n := end - start;
      forall k | 0 <= k < n { buf[k] := buf[start + k]; }
      assert buf[0..n] == old(buf[start..end]);
      end := n;
      start := 0;
    }

    /** Make room for at least one more byte. The only refusal is a window that already
        holds the maximum, all of it unconsumed. */
    method EnsureWriteSpace() returns (ok: bool)
      requires Valid()
      modifies this, buf
      ensures Valid() && Window() == old(Window()) && (buf == old(buf) || fresh(buf))
      ensures ok <==> old(|Window()|) < MAX_SIZE
      ensures ok ==> end < buf.Length
    {
      if end < buf.Length { return true; }
      if start > 0 {
        Compact();
        if end < buf.Length { return true; }
      }
      var cur := if buf.Length == 0 then DEFAULT_SIZE else buf.Length;
      var newLen := Min(cur * 2, MAX_SIZE);
      if newLen <= buf.Length { return false; }
      Grow(newLen);
      return true;
    }

    method Grow(newLen: nat)
      requires Valid() && buf.Length < newLen <= MAX_SIZE
      modifies this
      ensures Valid() && Window() == old(Window()) && fresh(buf) && buf.Length == newLen && start == 0
    {
      var nb := new Byte[newLen](_ => 0);
      forall k | 0 <= k < end - start { nb[k] := buf[start + k]; }
      end := end - start;
      start := 0;
      buf := nb;
    }

    /** Append to the window what fits behind it. */
    method Put(data: seq<Byte>)
      requires Valid() && end + |data| <= buf.Length
      modifies this`end, buf
      ensures Valid() && Window() == old(Window()) + data
    {
      var e := end;
      for k := 0 to |data|
        invariant end == e && buf[start..e] == old(buf[start..end]) && buf[e..e + k] == data[..k]
      {
        buf[e + k] := data[k];
      }
      end := end + |data|;
      assert data[..|data|] == data;
      assert buf[start..end] == buf[start..e] + buf[e..end];
    }

    /** One read: what arrives is appended to the window. */
    method ReadMore(a: Arrival) returns (got: seq<Byte>, r: Result)
      requires Valid()
      modifies this, buf
      ensures Valid() && (buf == old(buf) || fresh(buf))
      ensures Window() == old(Window()) + got
      ensures r == Overflow <==> old(|Window()|) == MAX_SIZE
      ensures r == Overflow ==> got == []
      ensures r != Overflow ==> got <= a.data && r == if a.failed then ReadFailed else Complete
    {
      var ok := EnsureWriteSpace();
      if !ok { return [], Overflow; }
      var n := Min(|a.data|, buf.Length - end);
      got := a.data[..n];
      Put(got);
      r := if a.failed then ReadFailed else Complete;
    }

    /** One feed: the feeder is shown the window, cut to `limit` bytes if that is not zero,
        consumes a prefix of it and may overwrite only what it consumed. */
    method Feed(m: Meal, limit: nat) returns (eaten: seq<Byte>)
      requires Valid()
      modifies this`start, this`end, buf
      ensures Valid() && eaten + Window() == old(Window())
      ensures |eaten| <= m.appetite && (limit > 0 ==> |eaten| <= limit)
    {
      var shown := if limit > 0 && end - start > limit then limit else end - start;
      var n := Min(m.appetite, shown);
      eaten := Prefix(n);
      Scribble(n, m.scribble);
      Advance(n);
      assert old(Window()) == old(Window())[..n] + old(Window())[n..];
    }

    function Prefix(n: nat): (p: seq<Byte>)
      reads this, buf
      requires Valid() && n <= end - start
      ensures p == Window()[..n]
    {
      buf[start..start + n]
    }

    /** Overwrite the first `n` bytes of the window. */
    method Scribble(n: nat, with: nat -> Byte)
      requires Valid() && n <= end - start
      modifies buf
      ensures Valid() && Window()[n..] == old(Window())[n..]
    {
      for k := 0 to n
        invariant Valid()
        invariant forall j :: start + n <= j < buf.Length ==> buf[j] == old(buf[j])
      {
        buf[start + k] := with(k);
      }
    }
  }

  /** The drain control of one response. `drainStart` is the consumption at which the
      request was first seen cancelled. */
  class DrainControl {
    const isBody: bool
    const limit: nat
    var deliver: bool
    var drainStart: int

    ghost predicate Draining()
      reads this
    {
      !deliver && isBody && drainStart >= 0
    }

    /** The drain has begun no later than `consumed` and is within its limit. */
    ghost predicate Within(consumed: int)
      reads this
    {
      && (deliver ==> drainStart < 0)
      && drainStart <= consumed
      && (Draining() && limit > 0 ==> consumed - drainStart <= limit)
    }

    constructor (isBody: bool, limit: nat, deliver: bool)
      ensures this.isBody == isBody && this.limit == limit && this.deliver == deliver && drainStart == -1
    {
      this.isBody, this.limit, this.deliver, drainStart := isBody, limit, deliver, -1;
    }

    /** Consulted before reads and feeds: an error ends the drain, otherwise the next feed
        may consume `maxFeed` bytes (zero: any number). */
    method Control(consumed: nat, g: Glance) returns (maxFeed: nat, stop: bool)
      requires Within(consumed)
      modifies this
      ensures Within(consumed)
      ensures old(drainStart) >= 0 ==> drainStart == old(drainStart)
      ensures old(drainStart) < 0 && drainStart >= 0 ==> drainStart == consumed
      ensures !old(deliver) ==> !deliver
      ensures g.cancelled ==> !deliver
      ensures !deliver && isBody ==> Draining()
      ensures Draining() && limit > 0 && !stop ==> 0 < maxFeed == limit - (consumed - drainStart)
    {
      if deliver && g.cancelled {
        deliver, drainStart := false, consumed;
      }
      if !deliver && isBody {
        if drainStart < 0 { drainStart := consumed; }
        if g.expired { return 0, true; }
        var remaining := limit - (consumed - drainStart);
        if limit > 0 && remaining <= 0 { return 0, true; }
        return Max(remaining, 0), false;
      }
      return 0, false;
    }
  }

  /** The configured bound on abandoned bytes; it is always positive. */
  function DrainBytes(configured: int): (n: nat)
    ensures n > 0
    ensures configured > 0 ==> n == configured
  {
    if configured <= 0 then 1024 * 1024 else configured
  }

  /** What the loop has done so far: bytes consumed, bytes read, script positions. */
  datatype Progress = Progress(consumed: seq<Byte>, read: seq<Byte>, arrivals: nat, meals: nat, glances: nat)

  /** The bytes consumed followed by the window are the initial window followed by the
      bytes read. */
  ghost predicate Queue(initial: seq<Byte>, p: Progress, window: seq<Byte>) {
    p.consumed + window == initial + p.read
  }

  lemma QueueGrows(c: seq<Byte>, w: seq<Byte>, i: seq<Byte>, r: seq<Byte>, got: seq<Byte>)
    requires c + w == i + r
    ensures c + (w + got) == i + (r + got)
  {
    assert c + (w + got) == (c + w) + got == (i + r) + got;
  }

  lemma QueueMoves(c: seq<Byte>, eaten: seq<Byte>, w: seq<Byte>)
    ensures c + (eaten + w) == (c + eaten) + w
  {}

  /** Ask the control, then read. */
  method PullMore(rb: Buffer, ctl: DrainControl, a: Arrival, g: Glance, p: Progress, ghost initial: seq<Byte>)
    returns (r: Result, q: Progress)
    requires rb.Valid() && ctl.Within(|p.consumed|) && Queue(initial, p, rb.Window())
    modifies rb, rb.buf, ctl
    ensures rb.Valid() && (rb.buf == old(rb.buf) || fresh(rb.buf))
    ensures Queue(initial, q, rb.Window()) && q.consumed == p.consumed && ctl.Within(|q.consumed|)
    ensures r == Overflow ==> |rb.Window()| == MAX_SIZE
    ensures q.arrivals == p.arrivals + 1 && q.meals == p.meals && q.glances == p.glances + 1
  {
    q := p.(arrivals := p.arrivals + 1, glances := p.glances + 1);
    var _, stop := ctl.Control(|p.consumed|, g);
    if stop { return DrainLimit, q; }
    var got;
    got, r := rb.ReadMore(a);
    q := q.(read := p.read + got);
    QueueGrows(p.consumed, old(rb.Window()), initial, p.read, got);
  }

  /** Ask the control, feed what it allows, ask again. */
  method FeedOnce(rb: Buffer, ctl: DrainControl, m: Meal, before: Glance, after: Glance, p: Progress,
                  ghost initial: seq<Byte>)
    returns (r: Result, q: Progress)
    requires rb.Valid() && ctl.Within(|p.consumed|) && Queue(initial, p, rb.Window())
    modifies rb`start, rb`end, rb.buf, ctl
    ensures rb.Valid()
    ensures Queue(initial, q, rb.Window()) && q.read == p.read && ctl.Within(|q.consumed|)
    ensures r == Complete || r == FeedFailed || r == DrainLimit || r == Unfinished
    ensures q.arrivals == p.arrivals && q.meals == p.meals + 1 && q.glances == p.glances + 2
  {
    q := p.(meals := p.meals + 1, glances := p.glances + 2);
    var limit, stop := ctl.Control(|p.consumed|, before);
    if stop { return DrainLimit, q; }
    var eaten := rb.Feed(m, limit);
    q := q.(consumed := p.consumed + eaten);
    QueueMoves(p.consumed, eaten, rb.Window());
    if m.failed { return FeedFailed, q; }
    var _, stop' := ctl.Control(|q.consumed|, after);
    if stop' { return DrainLimit, q; }
    if eaten == [] && rb.start < rb.end && !m.done { rb.Compact(); }
    return if m.done then Complete else Unfinished, q;
  }

  /** The read/feed loop. Whatever the socket delivers, however much the feeder consumes and
      whenever the request is cancelled:
      the bytes consumed followed by the window are the initial window followed by the bytes
      read; overflow is reported only while the maximum is held unconsumed; and once a BODY
      request has been seen cancelled no more than the drain limit is consumed. */
  method FeedUntilDone(rb: Buffer, ctl: DrainControl, arrivals: seq<Arrival>, meals: seq<Meal>, glances: seq<Glance>)
    returns (r: Result, p: Progress)
    requires rb.Valid() && ctl.drainStart < 0
    modifies rb, rb.buf, ctl
    ensures rb.Valid()
    ensures p.consumed + rb.Window() == old(rb.Window()) + p.read
    ensures r == Overflow ==> |rb.Window()| == MAX_SIZE
    ensures ctl.Draining() && ctl.limit > 0 ==> 0 <= |p.consumed| - ctl.drainStart <= ctl.limit
  {
    ghost var initial := rb.Window();
    rb.Init();
    p := Progress([], [], 0, 0, 0);
    r := Unfinished;
    while p.glances + 4 <= |glances| && p.arrivals + 2 <= |arrivals| && p.meals < |meals|
      invariant rb.Valid() && (rb.buf == old(rb.buf) || fresh(rb.buf))
      invariant Queue(initial, p, rb.Window()) && ctl.Within(|p.consumed|)
      invariant r == Unfinished
      decreases |glances| - p.glances
    {
      if rb.start == rb.end {
        r, p := PullMore(rb, ctl, arrivals[p.arrivals], glances[p.glances], p, initial);
        if r != Complete { return; }
      }
      r, p := FeedOnce(rb, ctl, meals[p.meals], glances[p.glances], glances[p.glances + 1], p, initial);
      if r != Unfinished { return; }
      r, p := PullMore(rb, ctl, arrivals[p.arrivals], glances[p.glances], p, initial);
      if r != Complete { return; }
      r := Unfinished;
    }
  }
}
