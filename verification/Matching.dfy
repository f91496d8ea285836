/**
 * FIFO matching on a pooled connection: which reply a request gets, for every interleaving
 * of the steps of Pipeline, and exactly when it is its own.
 */
module Matching {
  import opened Basics
  import opened Pipeline

  // ---------------------------------------------------------------------------
  // What a run has behind it

  /** The step leaves an exchange before its reply is read: the reader moves on from the
      head, or the failure sweep takes a request out of the FIFO while the reader may still
      match the next one. */
  predicate Leaves(s: State, a: Action) {
    a == Reading(Abandon) || (a == Closing(Pop) && ReadsOn(s))
  }

  predicate IsRead(a: Action) { a.Reading? && a.read.ReadOne? }

  /** `left`: an exchange was left. `late`: the request last matched was matched after
      that. `read`: a reply was read for a request matched so late. */
  datatype Past = Past(left: bool, late: bool, read: bool)

  function Remember(h: Past, s: State, a: Action): Past {
    Past(h.left || Leaves(s, a), if a == Reading(Match) then h.left else h.late, h.read || (IsRead(a) && h.late))
  }

  function History(c: Config, start: State, actions: seq<Action>): Past {
    if actions == [] then Past(false, false, false)
    else
      match Play(c, start, Init(actions))
      case None => Past(false, false, false)
      case Some(s) => Remember(History(c, start, Init(actions)), s, Last(actions))
  }

  ghost predicate LeavesAt(c: Config, start: State, actions: seq<Action>, i: nat)
    requires i < |actions|
  {
    Play(c, start, actions[..i]).Some? && Leaves(Play(c, start, actions[..i]).value, actions[i])
  }

  /** After an exchange was left (at `i`) a request was matched (at `j`) and, while it was the
      one last matched, a reply was read (at `k`). */
  ghost predicate ReadsLate(c: Config, start: State, actions: seq<Action>) {
    exists k: nat :: k < |actions| && ReadsLateAt(c, start, actions, k)
  }

  ghost predicate ReadsLateAt(c: Config, start: State, actions: seq<Action>, k: nat)
    requires k < |actions|
  {
    IsRead(actions[k]) && MatchedLate(c, start, actions[..k])
  }

  ghost predicate MatchedLate(c: Config, start: State, actions: seq<Action>) {
    exists i: nat, j: nat :: i < j < |actions| && MatchedLateAt(c, start, actions, i, j)
  }

  ghost predicate MatchedLateAt(c: Config, start: State, actions: seq<Action>, i: nat, j: nat)
    requires i < j < |actions|
  {
    && LeavesAt(c, start, actions, i) && actions[j] == Reading(Match)
    && forall l :: j < l < |actions| ==> actions[l] != Reading(Match)
  }

  // ---------------------------------------------------------------------------
  // In step: the replies owed are those due

  function Replies(p: seq<Req>): seq<Reply> {
    if p == [] then [] else [Reply(p[0], false)] + Replies(p[1..])
  }

  lemma {:induction false} RepliesSnoc(p: seq<Req>, r: Req)
    ensures Replies(p + [r]) == Replies(p) + [Reply(r, false)]
  {
    if p == [] {
      assert [r][1..] == [] && p + [r] == [r];
    } else {
      assert (p + [r])[1..] == p[1..] + [r];
      RepliesSnoc(p[1..], r);
    }
  }

  /** What the server still owes the request at the head. */
  function HeadOwed(s: State): seq<Reply> {
    if !s.reader.Head? then []
    else if !s.reader.second then [Reply(s.reader.req, false)]
    else if s.wire.postSent then [Reply(s.reader.req, true)]
    else []
  }

  /** The replies that are due, in the order in which the requests will be matched. */
  function Due(s: State): seq<Reply> {
    HeadOwed(s) + Replies(s.book.pending) + (if s.writer.Wrote? then [Reply(s.writer.req, false)] else [])
  }

  predicate Leaving(s: State) { s.writer.Ending? || s.writer.Gone? }

  /** The two-step POST: a POST is the youngest request in flight until its first reply is
      read, and a head waiting for its second reply has been given the article or still
      blocks the writer. */
  ghost predicate PostOk(s: State) {
    var p := s.book.pending;
    && (forall i :: 0 <= i < |p| && p[i].kind == Post ==> i == |p| - 1 && (s.writer == PostWait(p[i]) || Leaving(s)))
    && (IsOffer(s) ==> p == [] && (s.writer == PostWait(s.reader.req) || Leaving(s)))
    && (s.reader.Head? && s.reader.second && !s.wire.postSent ==>
          p == [] && (s.writer == PostWait(s.reader.req) || Leaving(s)))
    && (s.writer.PostWait? ==> Waits(s, s.writer.req))
  }

  /** Where the request of a waiting POST is, and what it has been told. */
  predicate Waits(s: State, r: Req) {
    var p := s.book.pending;
    && r.kind == Post
    && (|| (p != [] && p[|p| - 1] == r && s.wire.postReady.None?)
        || (p == [] && s.reader == Head(r, false) && s.wire.postReady.None?)
        || (p == [] && s.reader == Head(r, true) && s.wire.postReady == Some(true) && !s.wire.postSent)
        || (p == [] && !s.reader.Head? && s.wire.postReady == Some(false)))
  }

  /** The replies owed are those due, in order. */
  ghost predicate InStep(s: State) { s.wire.owed == Due(s) && PostOk(s) }

  /** A writer that neither holds a written request nor waits for a 340 does not matter. */
  predicate Quiet(w: Writer) { !w.Wrote? && !w.PostWait? }

  lemma InStepQuiet(s: State, t: State)
    requires InStep(s) && Quiet(s.writer) && Quiet(t.writer) && (Leaving(s) ==> Leaving(t))
    requires t.reader == s.reader && t.book.pending == s.book.pending && t.wire == s.wire
    ensures InStep(t)
  {
  }

  lemma InStepPick(c: Config, s: State, a: PickStep)
    requires PickEnabled(c, s, a) && InStep(s)
    ensures InStep(PickDo(c, s, a))
  {
    InStepQuiet(s, PickDo(c, s, a));
  }

  lemma InStepPush(c: Config, s: State)
    requires SendEnabled(c, s, Push) && InStep(s)
    ensures InStep(SendDo(c, s, Push))
  {
    var t := SendDo(c, s, Push);
    RepliesSnoc(s.book.pending, s.writer.req);
    assert Due(t) == Due(s);
    assert forall i :: 0 <= i < |s.book.pending| ==> t.book.pending[i] == s.book.pending[i];
    assert t.book.pending[|t.book.pending| - 1] == s.writer.req;
  }

  lemma InStepPostGo(c: Config, s: State)
    requires SendEnabled(c, s, PostGo) && InStep(s)
    ensures InStep(SendDo(c, s, PostGo))
  {
    assert s.book.pending == [] && Replies([]) == [] && Due(s) == [];
  }

  lemma InStepWrite(c: Config, s: State)
    requires SendEnabled(c, s, WriteCommand) && InStep(s)
    ensures InStep(SendDo(c, s, WriteCommand))
  {
    assert Due(SendDo(c, s, WriteCommand)) == Due(s) + [Reply(s.writer.req, false)];
  }

  lemma InStepSend(c: Config, s: State, a: SendStep)
    requires SendEnabled(c, s, a) && InStep(s)
    ensures InStep(SendDo(c, s, a))
  {
    match a
    case Push => InStepPush(c, s);
    case PostGo => InStepPostGo(c, s);
    case WriteCommand => InStepWrite(c, s);
    case PostNo =>
    case PostExit =>
    case _ => InStepQuiet(s, SendDo(c, s, a));
  }

  /** The one step that logs a reply: it is the head's own. */
  lemma HeadReadsItsOwn(s: State)
    requires InStep(s) && s.reader.Head? && s.wire.owed != []
    ensures s.wire.owed[0] == Reply(s.reader.req, s.reader.second)
  {
    assert s.reader.second && !s.wire.postSent ==> Due(s) == [];
  }

  lemma InStepReply(s: State, proceed: bool, retire: bool)
    requires s.reader.Head? && 0 < s.wire.buffered <= |s.wire.owed| && (proceed ==> IsOffer(s)) && InStep(s)
    ensures InStep(DoRead(s, proceed, retire))
  {
    HeadReadsItsOwn(s);
  }

  lemma InStepRead(c: Config, s: State, a: ReadStep)
    requires ReadEnabled(c, s, a) && InStep(s) && !a.Abandon?
    ensures ReadsOn(ReadDo(c, s, a)) ==> InStep(ReadDo(c, s, a))
  {
    if a.ReadOne? {
      InStepReply(s, a.proceed, a.retire);
    } else if a.Match? {
      assert Replies(s.book.pending) == [Reply(s.book.pending[0], false)] + Replies(s.book.pending[1..]);
    }
  }

  lemma InStepEnd(c: Config, s: State, a: EndStep)
    requires EndEnabled(c, s, a) && InStep(s) && ReadsOn(s) && !a.Pop?
    ensures InStep(EndDo(c, s, a))
  {
  }

  // ---------------------------------------------------------------------------
  // Out of step: a reply nobody waits for comes first

  predicate Stale(s: State, x: Reply) { x.req in s.book.closed || s.book.failing == Some(x.req) }

  /** The only POST was left between its two replies: nothing is owed, nothing can be
      matched, and at most its article is still to be sent. */
  predicate Hushed(s: State) {
    && s.wire.owed == [] && s.book.pending == [] && !s.reader.Head?
    && (Leaving(s) || (s.writer.PostWait? && s.writer.req in s.book.closed && s.wire.postReady == Some(true)))
  }

  /** A request matched before an exchange was left still gets its own reply; whatever is
      read next is stale. */
  ghost predicate Shifted(s: State, late: bool) {
    var owed := s.wire.owed;
    if s.reader.Head? && !late then
      && !IsOffer(s) && |owed| >= 2
      && owed[0] == Reply(s.reader.req, s.reader.second) && Stale(s, owed[1])
    else
      (owed != [] && Stale(s, owed[0])) || Hushed(s)
  }

  lemma AbandonShifts(c: Config, s: State)
    requires ReadEnabled(c, s, Abandon) && InStep(s)
    ensures Shifted(ReadDo(c, s, Abandon), false)
  {
    if s.wire.owed == [] {
      assert s.reader.second && !s.wire.postSent;
    } else {
      HeadReadsItsOwn(s);
    }
  }

  lemma PopShifts(c: Config, s: State)
    requires EndEnabled(c, s, Pop) && ReadsOn(s) && InStep(s)
    ensures Shifted(EndDo(c, s, Pop), false)
  {
    assert Replies(s.book.pending) == [Reply(s.book.pending[0], false)] + Replies(s.book.pending[1..]);
    if s.reader.Head? {
      assert HeadOwed(s) == [Reply(s.reader.req, s.reader.second)];
      assert s.wire.owed[1] == Reply(s.book.pending[0], false);
    }
  }

  lemma ShiftedPick(c: Config, s: State, a: PickStep, late: bool)
    requires PickEnabled(c, s, a) && Shifted(s, late)
    ensures Shifted(PickDo(c, s, a), late)
  {
  }

  lemma ShiftedSend(c: Config, s: State, a: SendStep, late: bool)
    requires SendEnabled(c, s, a) && Shifted(s, late)
    ensures Shifted(SendDo(c, s, a), late)
  {
  }

  lemma ShiftedRead(c: Config, s: State, a: ReadStep, late: bool)
    requires ReadEnabled(c, s, a) && Shifted(s, late) && !(a.ReadOne? && late) && ReadsOn(ReadDo(c, s, a))
    ensures Shifted(ReadDo(c, s, a), late || a.Match?)
  {
  }

  lemma ShiftedEnd(c: Config, s: State, a: EndStep, late: bool)
    requires EndEnabled(c, s, a) && Shifted(s, late)
    ensures Shifted(EndDo(c, s, a), late)
  {
  }

  // ---------------------------------------------------------------------------
  // The wire over whole runs

  /** While replies are read at all and none was read late, the wire is in step, or shifted
      once an exchange has been left. */
  ghost predicate WireOk(s: State, h: Past) {
    && (h.late ==> h.left)
    && (ReadsOn(s) && !h.read ==> if h.left then Shifted(s, h.late) else InStep(s))
  }

  lemma WireKept(c: Config, s: State, a: Action, h: Past)
    requires Enabled(c, s, a) && WireOk(s, h)
    ensures WireOk(Do(c, s, a), Remember(h, s, a))
  {
    if ReadsOn(Do(c, s, a)) && !Remember(h, s, a).read {
      assert ReadsOn(s);
      if h.left {
        match a
        case Picking(p) => ShiftedPick(c, s, p, h.late);
        case Sending(p) => ShiftedSend(c, s, p, h.late);
        case Reading(p) => ShiftedRead(c, s, p, h.late);
        case Closing(p) => ShiftedEnd(c, s, p, h.late);
      } else {
        match a
        case Picking(p) => InStepPick(c, s, p);
        case Sending(p) => InStepSend(c, s, p);
        case Reading(p) => if p.Abandon? { AbandonShifts(c, s); } else { InStepRead(c, s, p); }
        case Closing(p) => if p.Pop? { PopShifts(c, s); } else { InStepEnd(c, s, p); }
      }
    }
  }

  predicate Own(x: Exchange) { x.got == Reply(x.req, x.second) }

  ghost predicate AllOwn(log: seq<Exchange>) { forall i :: 0 <= i < |log| ==> Own(log[i]) }

  lemma AllOwnSnoc(log: seq<Exchange>, x: Exchange)
    ensures AllOwn(log + [x]) <==> AllOwn(log) && Own(x)
  {
    var all := log + [x];
    assert all[|log|] == x && forall i :: 0 <= i < |log| ==> all[i] == log[i];
  }

  /** A late read is exactly what makes the log go wrong. */
  lemma LogKept(c: Config, s: State, a: Action, h: Past)
    requires Enabled(c, s, a) && WireOk(s, h) && Owned(s) && (h.read <==> !AllOwn(s.wire.log))
    ensures Remember(h, s, a).read <==> !AllOwn(Do(c, s, a).wire.log)
  {
    if IsRead(a) {
      ReadLogs(c, s, a.read, h);
    }
  }

  lemma ReadLogs(c: Config, s: State, a: ReadStep, h: Past)
    requires ReadEnabled(c, s, a) && a.ReadOne? && WireOk(s, h) && Owned(s) && (h.read <==> !AllOwn(s.wire.log))
    ensures h.read || h.late <==> !AllOwn(ReadDo(c, s, a).wire.log)
  {
    AllOwnSnoc(s.wire.log, Exchange(s.reader.req, s.reader.second, s.wire.owed[0]));
    if !h.read {
      if h.late {
        assert OwnedOnce(s, s.reader.req);
      } else if !h.left {
        HeadReadsItsOwn(s);
      }
    }
  }

  lemma {:induction false} WireInvariant(c: Config, start: State, actions: seq<Action>, s: State)
    requires Reaches(c, start, actions, s)
    ensures var h := History(c, start, actions); WireOk(s, h) && (h.read <==> !AllOwn(s.wire.log))
  {
    if actions == [] {
    } else {
      var prev := Play(c, start, Init(actions)).value;
      WireInvariant(c, start, Init(actions), prev);
      Invariant(c, start, Init(actions), prev);
      var h := History(c, start, Init(actions));
      WireKept(c, prev, Last(actions), h);
      LogKept(c, prev, Last(actions), h);
    }
  }

  // ---------------------------------------------------------------------------
  // The history, said over the actions

  lemma EarlierLeaves(c: Config, start: State, actions: seq<Action>, i: nat)
    requires actions != [] && i < |actions| - 1
    ensures LeavesAt(c, start, actions, i) <==> LeavesAt(c, start, Init(actions), i)
  {
    assert actions[..i] == Init(actions)[..i];
  }

  lemma {:induction false} LeftMeans(c: Config, start: State, actions: seq<Action>)
    requires Play(c, start, actions).Some?
    ensures History(c, start, actions).left <==> exists i: nat :: i < |actions| && LeavesAt(c, start, actions, i)
  {
    if actions == [] {
    } else {
      LeftMeans(c, start, Init(actions));
      forall i: nat | i < |actions| - 1
        ensures LeavesAt(c, start, actions, i) <==> LeavesAt(c, start, Init(actions), i)
      {
        EarlierLeaves(c, start, actions, i);
      }
      assert LeavesAt(c, start, actions, |actions| - 1)
             <==> Leaves(Play(c, start, Init(actions)).value, Last(actions));
    }
  }

  lemma EarlierMatch(c: Config, start: State, actions: seq<Action>, i: nat, j: nat)
    requires actions != [] && i < j < |actions| - 1
    ensures MatchedLateAt(c, start, actions, i, j)
            <==> MatchedLateAt(c, start, Init(actions), i, j) && Last(actions) != Reading(Match)
  {
    EarlierLeaves(c, start, actions, i);
    if MatchedLateAt(c, start, actions, i, j) {
      assert forall l :: j < l < |actions| - 1 ==> actions[l] == Init(actions)[l];
    }
  }

  lemma {:induction false} LateMeans(c: Config, start: State, actions: seq<Action>)
    requires Play(c, start, actions).Some?
    ensures History(c, start, actions).late <==> MatchedLate(c, start, actions)
  {
    if actions == [] {
    } else {
      var init := Init(actions);
      LateMeans(c, start, init);
      forall i: nat, j: nat | i < j < |actions| - 1
        ensures MatchedLateAt(c, start, actions, i, j)
                <==> MatchedLateAt(c, start, init, i, j) && Last(actions) != Reading(Match)
      {
        EarlierMatch(c, start, actions, i, j);
      }
      if Last(actions) == Reading(Match) {
        LeftMeans(c, start, init);
        LastMatchIsLate(c, start, actions);
      }
    }
  }

  lemma LastMatchIsLate(c: Config, start: State, actions: seq<Action>)
    requires actions != [] && Last(actions) == Reading(Match)
    ensures (exists i: nat :: i < |Init(actions)| && LeavesAt(c, start, Init(actions), i))
            <==> MatchedLate(c, start, actions)
  {
    var init, last := Init(actions), |actions| - 1;
    if i: nat :| i < |init| && LeavesAt(c, start, init, i) {
      EarlierLeaves(c, start, actions, i);
      assert MatchedLateAt(c, start, actions, i, last);
    }
    if i: nat, j: nat :| i < j < |actions| && MatchedLateAt(c, start, actions, i, j) {
      assert j == last;
      EarlierLeaves(c, start, actions, i);
    }
  }

  lemma ReadsLateSnoc(c: Config, start: State, actions: seq<Action>)
    requires actions != []
    ensures ReadsLate(c, start, actions)
            <==> ReadsLate(c, start, Init(actions)) || (IsRead(Last(actions)) && MatchedLate(c, start, Init(actions)))
  {
    var init := Init(actions);
    forall k: nat | k < |init| ensures ReadsLateAt(c, start, actions, k) <==> ReadsLateAt(c, start, init, k) {
      assert actions[..k] == init[..k];
    }
    assert ReadsLateAt(c, start, actions, |init|) <==> IsRead(Last(actions)) && MatchedLate(c, start, init);
  }

  lemma {:induction false} ReadMeans(c: Config, start: State, actions: seq<Action>)
    requires Play(c, start, actions).Some?
    ensures History(c, start, actions).read <==> ReadsLate(c, start, actions)
  {
    if actions == [] {
    } else {
      ReadMeans(c, start, Init(actions));
      LateMeans(c, start, Init(actions));
      ReadsLateSnoc(c, start, actions);
    }
  }

  // ---------------------------------------------------------------------------
  // FIFO matching

  /** FIFO matching over all interleavings, exactly: every reply read was the reply to the
      command it was read for if and only if no reply was read for a request matched after
      an exchange had been left. */
  lemma RepliesMatchRequests(c: Config, start: State, actions: seq<Action>, s: State)
    requires Reaches(c, start, actions, s)
    ensures AllOwn(s.wire.log) <==> !ReadsLate(c, start, actions)
    ensures (forall i: nat :: i < |actions| ==> !LeavesAt(c, start, actions, i)) ==> AllOwn(s.wire.log)
  {
    WireInvariant(c, start, actions, s);
    ReadMeans(c, start, actions);
    if ReadsLate(c, start, actions) {
      var k: nat :| k < |actions| && ReadsLateAt(c, start, actions, k);
      var i: nat, j: nat :| i < j < k && MatchedLateAt(c, start, actions[..k], i, j);
      assert actions[..k][..i] == actions[..i];
      assert LeavesAt(c, start, actions, i);
    }
  }

  // ---------------------------------------------------------------------------
  // Behind a closed socket

  /** Replies read or at least received. */
  function Received(s: State): nat { |s.wire.log| + s.wire.buffered }

  lemma ShutStep(c: Config, s: State, a: Action)
    requires Enabled(c, s, a) && s.wire.shut
    ensures Do(c, s, a).wire.shut && Received(Do(c, s, a)) == Received(s)
  {
  }

  /** Once the socket is closed nothing more is received: the replies read from then on are at
      most those that were in the read buffer. */
  lemma {:induction false} ShutReadsTheBuffer(c: Config, start: State, actions: seq<Action>, k: nat, p: State, s: State)
    requires k <= |actions| && Play(c, start, actions[..k]) == Some(p) && Play(c, start, actions) == Some(s)
    requires p.wire.shut
    ensures s.wire.shut && |s.wire.log| <= Received(s) == |p.wire.log| + p.wire.buffered
  {
    if k == |actions| {
      assert actions[..k] == actions;
    } else {
      assert Init(actions)[..k] == actions[..k];
      var prev := Play(c, start, Init(actions)).value;
      ShutReadsTheBuffer(c, start, Init(actions), k, p, prev);
      ShutStep(c, prev, Last(actions));
    }
  }

  // ---------------------------------------------------------------------------
  // How often a reply is read

  /** For each reply read for a request, in order, whether it was the second one. */
  function ReadsFor(log: seq<Exchange>, r: Req): seq<bool> {
    if log == [] then []
    else
      var x := log[|log| - 1];
      ReadsFor(log[..|log| - 1], r) + (if x.req == r then [x.second] else [])
  }

  lemma ReadsSnoc(log: seq<Exchange>, x: Exchange, r: Req)
    ensures ReadsFor(log + [x], r) == ReadsFor(log, r) + (if x.req == r then [x.second] else [])
  {
    assert (log + [x])[..|log|] == log;
  }

  /** Nothing has been read for an open request, except a 340 whose second reply is awaited. */
  ghost predicate ReadsOk(s: State, r: Req) {
    var had := ReadsFor(s.wire.log, r);
    if r in s.book.closed then had == [] || had == [false] || (had == [false, true] && r.kind == Post)
    else had == if s.reader == Head(r, true) then [false] else []
  }

  ghost predicate CountsOk(s: State) {
    && (s.reader.Head? && s.reader.second ==> s.reader.req.kind == Post)
    && forall r :: ReadsOk(s, r)
  }

  /** What a reply adds, and what the request it answers has had read in the end. */
  lemma CountsReply(s: State, proceed: bool, retire: bool, r: Req)
    requires s.reader.Head? && 0 < s.wire.buffered <= |s.wire.owed| && (proceed ==> IsOffer(s))
    requires s.reader.req !in s.book.closed && CountsOk(s)
    ensures ReadsOk(DoRead(s, proceed, retire), r)
    ensures r in s.book.closed ==> ReadsFor(DoRead(s, proceed, retire).wire.log, r) == ReadsFor(s.wire.log, r)
    ensures r == s.reader.req && !proceed ==>
              ReadsFor(DoRead(s, proceed, retire).wire.log, r) == if s.reader.second then [false, true] else [false]
  {
    assert ReadsOk(s, r);
    ReadsSnoc(s.wire.log, Exchange(s.reader.req, s.reader.second, s.wire.owed[0]), r);
  }

  lemma CountsKept(c: Config, s: State, a: Action, r: Req)
    requires Enabled(c, s, a) && Owned(s) && CountsOk(s)
    ensures ReadsOk(Do(c, s, a), r)
    ensures r in s.book.closed ==>
              r in Do(c, s, a).book.closed && ReadsFor(Do(c, s, a).wire.log, r) == ReadsFor(s.wire.log, r)
  {
    assert ReadsOk(s, r);
    if IsRead(a) {
      assert OwnedOnce(s, s.reader.req);
      CountsReply(s, a.read.proceed, a.read.retire, r);
    } else if a.Reading? {
      CountsMove(c, s, a.read, r);
    } else {
      LogUntouched(c, s, a);
      CountsUntouched(s, Do(c, s, a), r);
    }
  }

  /** The writer and the environment leave the reader and the log alone. */
  lemma LogUntouched(c: Config, s: State, a: Action)
    requires Enabled(c, s, a) && !a.Reading?
    ensures var t := Do(c, s, a);
            t.wire.log == s.wire.log && t.reader == s.reader && s.book.closed <= t.book.closed
  {
  }

  /** The reader moving without reading. */
  lemma CountsMove(c: Config, s: State, a: ReadStep, r: Req)
    requires ReadEnabled(c, s, a) && !a.ReadOne? && ReadsOk(s, r)
    ensures ReadsOk(ReadDo(c, s, a), r)
    ensures ReadDo(c, s, a).wire.log == s.wire.log && s.book.closed <= ReadDo(c, s, a).book.closed
  {
  }

  /** Steps that leave the reader and the log alone. */
  lemma CountsUntouched(s: State, t: State, r: Req)
    requires ReadsOk(s, r) && t.wire.log == s.wire.log && t.reader == s.reader && s.book.closed <= t.book.closed
    ensures ReadsOk(t, r)
  {
  }

  lemma CountsKeptAll(c: Config, s: State, a: Action)
    requires Enabled(c, s, a) && Owned(s) && CountsOk(s)
    ensures CountsOk(Do(c, s, a))
  {
    forall r ensures ReadsOk(Do(c, s, a), r) { CountsKept(c, s, a, r); }
  }

  lemma {:induction false} CountsInvariant(c: Config, start: State, actions: seq<Action>, s: State)
    requires Reaches(c, start, actions, s)
    ensures CountsOk(s)
  {
    if actions == [] {
    } else {
      var prev := Play(c, start, Init(actions)).value;
      CountsInvariant(c, start, Init(actions), prev);
      Invariant(c, start, Init(actions), prev);
      CountsKeptAll(c, prev, Last(actions));
    }
  }

  lemma {:induction false} PrefixPlays(c: Config, start: State, actions: seq<Action>, k: nat)
    requires k <= |actions| && Play(c, start, actions).Some?
    ensures Play(c, start, actions[..k]).Some?
    ensures k < |actions| ==> Play(c, start, actions[..k + 1]) == Next(c, Play(c, start, actions[..k]), actions[k])
  {
    if k == |actions| {
      assert actions[..k] == actions;
    } else {
      PrefixPlays(c, start, Init(actions), k);
      assert Init(actions)[..k] == actions[..k];
      assert Init(actions[..k + 1]) == actions[..k];
    }
  }

  /** What has been read for an answered request never changes. */
  lemma {:induction false} ClosedStays(c: Config, start: State, actions: seq<Action>, k: nat, p: State, r: Req)
    requires Initial(start) && k <= |actions| && Play(c, start, actions).Some?
    requires Play(c, start, actions[..k]) == Some(p) && r in p.book.closed
    ensures var s := Play(c, start, actions).value;
            r in s.book.closed && ReadsFor(s.wire.log, r) == ReadsFor(p.wire.log, r)
  {
    if k == |actions| {
      assert actions[..k] == actions;
    } else {
      var init := Init(actions);
      assert init[..k] == actions[..k];
      ClosedStays(c, start, init, k, p, r);
      var prev := Play(c, start, init).value;
      CountsInvariant(c, start, init, prev);
      Invariant(c, start, init, prev);
      CountsKept(c, prev, Last(actions), r);
    }
  }

  lemma AnsweredNow(c: Config, start: State, actions: seq<Action>, p: State, retire: bool)
    requires Reaches(c, start, actions, p) && ReadEnabled(c, p, ReadOne(false, retire))
    ensures var t, r := ReadDo(c, p, ReadOne(false, retire)), p.reader.req;
            r in t.book.closed && ReadsFor(t.wire.log, r) == if p.reader.second then [false, true] else [false]
  {
    Invariant(c, start, actions, p);
    CountsInvariant(c, start, actions, p);
    assert OwnedOnce(p, p.reader.req);
    CountsReply(p, false, retire, p.reader.req);
  }

  /** A request answered with a reply (by step `k`) has had exactly one reply read for it in
      the whole run, or exactly two if it is a POST that was let proceed. */
  lemma EachIsReadOnce(c: Config, start: State, actions: seq<Action>, s: State, k: nat)
    requires Reaches(c, start, actions, s) && k < |actions|
    requires IsRead(actions[k]) && !actions[k].read.proceed
    ensures Play(c, start, actions[..k]).Some?
    ensures var p := Play(c, start, actions[..k]).value;
            && p.reader.Head? && p.reader.req in s.book.closed
            && ReadsFor(s.wire.log, p.reader.req) == if p.reader.second then [false, true] else [false]
  {
    PrefixPlays(c, start, actions, k);
    PrefixPlays(c, start, actions, k + 1);
    var p := Play(c, start, actions[..k]).value;
    AnsweredNow(c, start, actions[..k], p, actions[k].read.retire);
    ClosedStays(c, start, actions, k + 1, Play(c, start, actions[..k + 1]).value, p.reader.req);
  }

  // ---------------------------------------------------------------------------
  // Both ways of leaving an exchange happen

  /** A request that needs no slot but an inflight one. */
  predicate Probe(r: Req) { r.kind == Stat && r.priority }

  predicate ThreeProbes(first: Req, second: Req, third: Req) {
    Probe(first) && Probe(second) && Probe(third) && first != second && first != third && second != third
  }

  function Begin(first: Req): State {
    State(Boot(first), Idle, Book(None, [], None, Some(first), {first}, {}), Slots(0, {}, {}, false, 0),
          Wire([], [], None, false, 0, false), false)
  }

  /** These STATs are in the FIFO, none is answered, and nothing has been received. */
  function Flying(reqs: seq<Req>, accepted: set<Req>, owed: seq<Reply>, writer: Writer, tokens: nat): State {
    State(writer, Idle, Book(None, reqs, None, None, accepted, {}), Slots(tokens, {}, {}, false, 0),
          Wire(owed, [], None, false, 0, false), false)
  }

  /** Six more actions of a run. */
  function Six(c: Config, s: Option<State>, a: Action, b: Action, d: Action, e: Action, f: Action, g: Action)
    : Option<State>
  {
    Next(c, Next(c, Next(c, Next(c, Next(c, Next(c, s, a), b), d), e), f), g)
  }

  lemma OneMore(c: Config, start: State, run: seq<Action>, a: Action)
    ensures Play(c, start, run + [a]) == Next(c, Play(c, start, run), a)
  {
    assert Init(run + [a]) == run;
  }

  lemma SixMore(c: Config, start: State, run: seq<Action>,
                a: Action, b: Action, d: Action, e: Action, f: Action, g: Action)
    ensures Play(c, start, run + [a, b, d, e, f, g]) == Six(c, Play(c, start, run), a, b, d, e, f, g)
  {
    OneMore(c, start, run, a);
    OneMore(c, start, run + [a], b);
    OneMore(c, start, run + [a] + [b], d);
    OneMore(c, start, run + [a] + [b] + [d], e);
    OneMore(c, start, run + [a] + [b] + [d] + [e], f);
    OneMore(c, start, run + [a] + [b] + [d] + [e] + [f], g);
    assert run + [a, b, d, e, f, g] == run + [a] + [b] + [d] + [e] + [f] + [g];
  }

  function WriteFirst(): seq<Action> {
    [Picking(BootToken), Sending(TakeBody), Sending(TakeStat), Sending(WriteCommand), Sending(Push), Picking(TakeToken)]
  }

  /** The next STAT is taken and written. */
  function WriteNext(r: Req): seq<Action> {
    [Picking(Look), Picking(TakePriority(r)), Sending(TakeBody), Sending(TakeStat), Sending(WriteCommand),
     Sending(Push)]
  }

  lemma FirstIsWritten(c: Config, first: Req)
    requires c.depth >= 2 && Probe(first)
    ensures Play(c, Begin(first), [] + WriteFirst())
         == Some(Flying([first], {first}, [Reply(first, false)], Token, 2))
  {
    SixMore(c, Begin(first), [], Picking(BootToken), Sending(TakeBody), Sending(TakeStat), Sending(WriteCommand),
            Sending(Push), Picking(TakeToken));
    assert [] + [first] == [first] && [] + [Reply(first, false)] == [Reply(first, false)];
  }

  lemma NextSteps(c: Config, reqs: seq<Req>, accepted: set<Req>, owed: seq<Reply>, r: Req)
    requires Probe(r) && r !in accepted && |reqs| < c.depth
    ensures Six(c, Some(Flying(reqs, accepted, owed, Token, |reqs| + 1)), Picking(Look), Picking(TakePriority(r)),
                Sending(TakeBody), Sending(TakeStat), Sending(WriteCommand), Sending(Push))
         == Some(Flying(reqs + [r], accepted + {r}, owed + [Reply(r, false)], Loop, |reqs| + 1))
  {
  }

  lemma NextIsWritten(c: Config, start: State, run: seq<Action>, reqs: seq<Req>, accepted: set<Req>, owed: seq<Reply>,
                      r: Req)
    requires Probe(r) && r !in accepted && |reqs| < c.depth
    requires Play(c, start, run) == Some(Flying(reqs, accepted, owed, Token, |reqs| + 1))
    ensures Play(c, start, run + WriteNext(r))
         == Some(Flying(reqs + [r], accepted + {r}, owed + [Reply(r, false)], Loop, |reqs| + 1))
  {
    NextSteps(c, reqs, accepted, owed, r);
    SixMore(c, start, run, Picking(Look), Picking(TakePriority(r)), Sending(TakeBody), Sending(TakeStat),
            Sending(WriteCommand), Sending(Push));
  }

  function WriteTwo(second: Req): seq<Action> { [] + WriteFirst() + WriteNext(second) }

  function WriteThree(second: Req, third: Req): seq<Action> {
    WriteTwo(second) + [Picking(TakeToken)] + WriteNext(third)
  }

  function TwoFlying(first: Req, second: Req, writer: Writer, tokens: nat): State {
    Flying([first, second], {first, second}, [Reply(first, false), Reply(second, false)], writer, tokens)
  }

  function ThreeFlying(first: Req, second: Req, third: Req): State {
    Flying([first, second, third], {first, second, third},
           [Reply(first, false), Reply(second, false), Reply(third, false)], Loop, 3)
  }

  lemma TwoInFlight(c: Config, first: Req, second: Req)
    requires c.depth >= 2 && Probe(first) && Probe(second) && first != second
    ensures Play(c, Begin(first), WriteTwo(second)) == Some(TwoFlying(first, second, Loop, 2))
  {
    FirstIsWritten(c, first);
    NextIsWritten(c, Begin(first), [] + WriteFirst(), [first], {first}, [Reply(first, false)], second);
    assert [first] + [second] == [first, second] && {first} + {second} == {first, second};
    assert [Reply(first, false)] + [Reply(second, false)] == [Reply(first, false), Reply(second, false)];
  }

  lemma ThreeInFlight(c: Config, first: Req, second: Req, third: Req)
    requires c.depth >= 3 && ThreeProbes(first, second, third)
    ensures Play(c, Begin(first), WriteThree(second, third)) == Some(ThreeFlying(first, second, third))
  {
    var reqs, accepted := [first, second], {first, second};
    var owed := [Reply(first, false), Reply(second, false)];
    TwoInFlight(c, first, second);
    OneMore(c, Begin(first), WriteTwo(second), Picking(TakeToken));
    NextIsWritten(c, Begin(first), WriteTwo(second) + [Picking(TakeToken)], reqs, accepted, owed, third);
    assert reqs + [third] == [first, second, third] && accepted + {third} == {first, second, third};
    assert owed + [Reply(third, false)] == [Reply(first, false), Reply(second, false), Reply(third, false)];
  }

  /** The last reply read was read for `r`, which it answered, and was the reply to `other`. */
  ghost predicate GetsReplyOf(s: Option<State>, r: Req, other: Req) {
    && s.Some? && r in s.value.book.closed && s.value.wire.log != []
    && s.value.wire.log[|s.value.wire.log| - 1] == Exchange(r, false, Reply(other, false))
  }

  /** The first STAT is left at the head, and then both replies arrive. */
  function Abandoning(): seq<Action> {
    [Reading(Match), Reading(Abandon), Reading(ReleaseToken), Reading(ReleaseSlots), Reading(Match), Reading(Fetch(2))]
  }

  function LeftBehind(first: Req, second: Req): State {
    State(Loop, Head(second, false), Book(None, [], None, None, {first, second}, {first}),
          Slots(1, {}, {}, false, 0),
          Wire([Reply(first, false), Reply(second, false)], [], None, false, 2, false), false)
  }

  lemma AbandonedSteps(c: Config, first: Req, second: Req)
    requires Probe(first) && Probe(second) && first != second
    ensures Six(c, Some(TwoFlying(first, second, Loop, 2)), Reading(Match), Reading(Abandon),
                Reading(ReleaseToken), Reading(ReleaseSlots), Reading(Match), Reading(Fetch(2)))
         == Some(LeftBehind(first, second))
  {
    assert [first, second][1..] == [second] && [second][1..] == [];
    assert {} + {first} == {first} && {} - {first} == {};
  }

  /** A STAT left at the head: the next one is answered with its reply. */
  lemma AnAbandonedStatShiftsReplies(c: Config, first: Req, second: Req)
    requires c.depth >= 2 && Probe(first) && Probe(second) && first != second
    ensures var run := WriteTwo(second) + Abandoning() + [Reading(ReadOne(false, false))];
            Initial(Begin(first)) && GetsReplyOf(Play(c, Begin(first), run), second, first)
  {
    var run := WriteTwo(second);
    TwoInFlight(c, first, second);
    SixMore(c, Begin(first), run, Reading(Match), Reading(Abandon), Reading(ReleaseToken), Reading(ReleaseSlots),
            Reading(Match), Reading(Fetch(2)));
    AbandonedSteps(c, first, second);
    OneMore(c, Begin(first), run + Abandoning(), Reading(ReadOne(false, false)));
  }

  /** One read receives three replies; the first is answered and the writer leaves its loop. */
  function AnswerFirst(): seq<Action> {
    [Reading(Match), Reading(Fetch(3)), Reading(ReadOne(false, false)), Reading(ReleaseToken), Reading(ReleaseSlots),
     Picking(LoopExit)]
  }

  /** The writer cancels, closes the socket and sweeps one request under the idle reader. */
  function SweepOne(): seq<Action> {
    [Closing(EndCancel), Closing(HangUp), Closing(Pop), Closing(FailPopped), Reading(Match),
     Reading(ReadOne(false, false))]
  }

  /** The first of three STATs is answered and the other replies are in the read buffer. */
  function Buffered(first: Req, second: Req, third: Req): State {
    State(Ending, Idle, Book(None, [second, third], None, None, {first, second, third}, {first}),
          Slots(2, {}, {}, false, 0),
          Wire([Reply(second, false), Reply(third, false)], [Exchange(first, false, Reply(first, false))], None, false,
               2, false), false)
  }

  lemma AnswerSteps(c: Config, first: Req, second: Req, third: Req)
    requires ThreeProbes(first, second, third)
    ensures Six(c, Some(ThreeFlying(first, second, third)), Reading(Match), Reading(Fetch(3)),
                Reading(ReadOne(false, false)), Reading(ReleaseToken), Reading(ReleaseSlots), Picking(LoopExit))
         == Some(Buffered(first, second, third))
  {
    assert [first, second, third][1..] == [second, third];
    assert [Reply(first, false), Reply(second, false), Reply(third, false)][1..]
           == [Reply(second, false), Reply(third, false)];
    assert {} + {first} == {first} && {} - {first} == {};
    assert [] + [Exchange(first, false, Reply(first, false))] == [Exchange(first, false, Reply(first, false))];
  }

  lemma SweepSteps(c: Config, first: Req, second: Req, third: Req)
    requires ThreeProbes(first, second, third)
    ensures GetsReplyOf(Six(c, Some(Buffered(first, second, third)), Closing(EndCancel), Closing(HangUp), Closing(Pop),
                            Closing(FailPopped), Reading(Match), Reading(ReadOne(false, false))), third, second)
  {
    assert [second, third][1..] == [third];
  }

  lemma AnswerRuns(c: Config, start: State, run: seq<Action>, first: Req, second: Req, third: Req)
    requires ThreeProbes(first, second, third) && Play(c, start, run) == Some(ThreeFlying(first, second, third))
    ensures Play(c, start, run + AnswerFirst()) == Some(Buffered(first, second, third))
  {
    SixMore(c, start, run, Reading(Match), Reading(Fetch(3)), Reading(ReadOne(false, false)), Reading(ReleaseToken),
            Reading(ReleaseSlots), Picking(LoopExit));
    AnswerSteps(c, first, second, third);
  }

  lemma SweepRuns(c: Config, start: State, run: seq<Action>, first: Req, second: Req, third: Req)
    requires ThreeProbes(first, second, third) && Play(c, start, run) == Some(Buffered(first, second, third))
    ensures GetsReplyOf(Play(c, start, run + SweepOne()), third, second)
  {
    SixMore(c, start, run, Closing(EndCancel), Closing(HangUp), Closing(Pop), Closing(FailPopped), Reading(Match),
            Reading(ReadOne(false, false)));
    SweepSteps(c, first, second, third);
  }

  /** A STAT swept by the writer's clean-up under an idle reader: the socket is closed by then,
      but its reply is in the read buffer already, and the request behind it gets that reply. */
  lemma ASweptStatShiftsReplies(c: Config, first: Req, second: Req, third: Req)
    requires c.depth >= 3 && ThreeProbes(first, second, third)
    ensures var run := WriteThree(second, third) + AnswerFirst() + SweepOne();
            Initial(Begin(first)) && GetsReplyOf(Play(c, Begin(first), run), third, second)
  {
    ThreeInFlight(c, first, second, third);
    AnswerRuns(c, Begin(first), WriteThree(second, third), first, second, third);
    SweepRuns(c, Begin(first), WriteThree(second, third) + AnswerFirst(), first, second, third);
  }
}
