/**
 * One pooled NNTP connection (nntp.go: Run, readerLoop, failOutstanding): a writer and a
 * reader share a FIFO of pending requests, three counting semaphores and a wake channel.
 *
 * Every action below is one atomic step of one of the two loops, of the failure sweep
 * they share, or of the environment; a run is any interleaving of them.
 */
module Pipeline {
  import opened Basics

  datatype Kind = Stat | Body | Plain | Post

  datatype Req = Req(id: nat, kind: Kind, priority: bool)

  /** Bodyless commands skip the body window. */
  predicate Cheap(r: Req) { r.kind == Stat }

  /** STAT commands that only the background window admits. */
  predicate Ordinary(r: Req) { r.kind == Stat && !r.priority }

  /** The server's replies to one command: one, or two for a POST it lets proceed. */
  datatype Reply = Reply(req: Req, second: bool)

  /** One reply read on behalf of a request. */
  datatype Exchange = Exchange(req: Req, second: bool, got: Reply)

  /** Window sizes of a connection: pipeline depth, body window, background STAT window. */
  datatype Config = Config(depth: nat, bodies: nat, stats: nat)

  /** Resolve a provider's settings into window sizes. Whatever the settings, every window
      admits at least one command, and ordinary STATs always leave the priority headroom
      (cut to at most one less than the depth) free. */
  function SizeWindows(inflight: int, statInflight: int, background: int, headroom: int): (c: Config)
    ensures 1 <= c.bodies <= c.depth && 1 <= c.stats <= c.depth
    ensures c.stats + Min(Max(headroom, 0), c.depth - 1) <= c.depth
    ensures inflight > 0 ==> c.bodies == inflight
    ensures inflight > 0 && statInflight >= inflight ==> c.depth == statInflight
  {
    var bodies := if inflight <= 0 then 1 else inflight;
    var depth := if statInflight < bodies then bodies else statInflight;
    var room := Max(headroom, 0);
    var kept := if room >= depth then depth - 1 else room;
    var stats := if background <= 0 then depth else background;
    Config(depth, bodies, Min(stats, depth - kept))
  }

  datatype Writer =
    | Boot(req: Req)           // bootstrap request, no slot yet
    | Loop                     // top of the main loop
    | Token                    // inflight slot taken, nothing chosen
    | Looked(blocked: bool)    // deferred STAT and window inspected
    | Parked                   // waiting for priority work or a freed window slot
    | Choose                   // no priority work: pick normal work
    | Recheck(req: Req)        // normal work picked, look for priority work once more
    | Took(req: Req)
    | Bodied(req: Req)         // body slot held if one is needed
    | Ready(req: Req)          // background slot held if one is needed
    | Wrote(req: Req)          // command written, not yet in the FIFO
    | PostWait(req: Req)       // waiting for 340 before sending the article
    | Draining                 // idle disconnect: soaking up inflight slots
    | Ending                   // deferred clean-up of Run
    | Gone

  datatype Reader =
    | Idle
    | Head(req: Req, second: bool)
    | Answered(req: Req, retire: bool)   // channel closed, slots still held
    | Released(req: Req, retire: bool)   // inflight slot given back
    | Failing                            // failing what is left in the FIFO
    | Exited

  /** Who holds which request. `closed` are the requests whose response channel has been
      closed; `unsent` is the variable the clean-up of Run consults. */
  datatype Book = Book(
    deferred: Option<Req>,
    pending: seq<Req>,
    failing: Option<Req>,
    unsent: Option<Req>,
    accepted: set<Req>,
    closed: set<Req>)

  /** The semaphores, the wake channel, and releases of the STAT window whose wake-up has
      not been sent yet. */
  datatype Slots = Slots(tokens: nat, body: set<Req>, stat: set<Req>, freed: bool, signals: nat)

  /** `owed`: replies of the server not yet read, in order, of which the first `buffered` are
      in the read buffer; `log`: those read so far; `shut`: the socket has been closed. */
  datatype Wire = Wire(
    owed: seq<Reply>,
    log: seq<Exchange>,
    postReady: Option<bool>,
    postSent: bool,
    buffered: nat,
    shut: bool)

  datatype State = State(writer: Writer, reader: Reader, book: Book, slots: Slots, wire: Wire, done: bool)

  /** The writer choosing what to do next. */
  datatype PickStep =
    | BootToken | BootFail(exit: bool)
    | TakeToken | LoopExit
    | Look | TakePriority(req: Req) | NoPriority | Wake | GiveUpToken(drain: bool)
    | ChooseDeferred | ChooseNormal(req: Req)
    | RecheckNone | RecheckPriority(req: Req)

  /** The writer taking slots for a request and writing it. */
  datatype SendStep =
    | TookFail(exit: bool) | TookExit | TakeBody | TakeStat | DeferFull
    | WriteCommand | WriteError | Push
    | PostGo | PostNo | PostExit

  datatype ReadStep =
    | Match | IdleExit(sweep: bool) | Fetch(count: nat)
    | ReadOne(proceed: bool, retire: bool) | ReadFail | Abandon
    | ReleaseToken | ReleaseSlots | FailExit

  /** The end of Run, the failure sweep of either loop, wake-ups, and cancellation. */
  datatype EndStep =
    | DrainToken | DrainExit
    | EndUnsent | EndDeferred | EndCancel | HangUp | Finish
    | Pop | FailPopped | Signal | Cancel

  datatype Action = Picking(pick: PickStep) | Sending(send: SendStep) | Reading(read: ReadStep) | Closing(end: EndStep)

  // ---------------------------------------------------------------------------
  // Helpers on the parts of a state

  function Close(b: Book, r: Req): Book { b.(closed := b.closed + {r}) }

  function Accept(b: Book, r: Req): Book { b.(accepted := b.accepted + {r}) }

  function GiveToken(s: Slots): Slots { s.(tokens := if s.tokens > 0 then s.tokens - 1 else 0) }

  /** Give a background slot back, if it is held; the wake-up follows as its own step. */
  function FreeStat(s: Slots, r: Req): Slots {
    if r in s.stat then s.(stat := s.stat - {r}, signals := s.signals + 1) else s
  }

  predicate Blocked(c: Config, s: State) {
    s.book.deferred.Some? && Ordinary(s.book.deferred.value) && |s.slots.stat| == c.stats
  }

  /** The reply awaited at the head decides whether a POST may send its article. */
  predicate IsOffer(s: State) { s.reader.Head? && s.reader.req.kind == Post && !s.reader.second }

  /** The reader may match and read further requests. */
  predicate ReadsOn(s: State) {
    && !s.reader.Failing? && !s.reader.Exited?
    && !((s.reader.Answered? || s.reader.Released?) && s.reader.retire)
  }

  /** Either loop fails what is left in the FIFO; the writer closes the socket first. */
  predicate Sweeping(s: State) { s.reader.Failing? || (s.writer.Ending? && s.wire.shut) }

  // ---------------------------------------------------------------------------
  // The steps

  predicate PickEnabled(c: Config, s: State, a: PickStep) {
    match a
    case BootToken => s.writer.Boot? && s.slots.tokens < c.depth
    case BootFail(_) => s.writer.Boot?
    case TakeToken => s.writer.Loop? && s.slots.tokens < c.depth
    case LoopExit => s.writer.Loop?
    case Look => s.writer.Token?
    case TakePriority(r) =>
      && (s.writer.Looked? || s.writer.Parked? || (s.writer.Choose? && s.book.deferred.None?))
      && r.priority && r !in s.book.accepted
    case NoPriority => s.writer.Looked?
    case Wake => s.writer.Parked? && s.slots.freed
    case GiveUpToken(drain) =>
      if drain then s.writer.Choose? && s.book.deferred.None?
      else s.writer.Token? || s.writer.Parked? || (s.writer.Choose? && s.book.deferred.None?)
    case ChooseDeferred => s.writer.Choose? && s.book.deferred.Some?
    case ChooseNormal(r) => s.writer.Choose? && s.book.deferred.None? && !r.priority && r !in s.book.accepted
    case RecheckNone => s.writer.Recheck?
    case RecheckPriority(r) => s.writer.Recheck? && r.priority && r !in s.book.accepted
  }

  function PickDo(c: Config, s: State, a: PickStep): State
    requires PickEnabled(c, s, a)
  {
    match a
    case BootToken => s.(writer := Took(s.writer.req), slots := s.slots.(tokens := s.slots.tokens + 1))
    case BootFail(exit) => s.(writer := if exit then Ending else Loop, book := Close(s.book, s.writer.req))
    case TakeToken => s.(writer := Token, slots := s.slots.(tokens := s.slots.tokens + 1))
    case LoopExit => s.(writer := Ending)
    case Look => s.(writer := Looked(Blocked(c, s)))
    case TakePriority(r) => s.(writer := Took(r), book := Accept(s.book, r).(unsent := Some(r)))
    case NoPriority => s.(writer := if s.writer.blocked then Parked else Choose)
    case Wake => s.(writer := Choose, slots := s.slots.(freed := false))
    case GiveUpToken(drain) => s.(writer := if drain then Draining else Ending, slots := GiveToken(s.slots))
    case ChooseDeferred => s.(writer := Recheck(s.book.deferred.value), book := s.book.(deferred := None))
    case ChooseNormal(r) => s.(writer := Recheck(r), book := Accept(s.book, r))
    case RecheckNone => s.(writer := Took(s.writer.req), book := s.book.(unsent := Some(s.writer.req)))
    case RecheckPriority(r) =>
      s.(writer := Took(r), book := Accept(s.book, r).(deferred := Some(s.writer.req), unsent := Some(r)))
  }

  predicate SendEnabled(c: Config, s: State, a: SendStep) {
    match a
    case TookFail(_) => s.writer.Took?
    case TookExit => s.writer.Took? && s.done
    case TakeBody => s.writer.Took? && (Cheap(s.writer.req) || |s.slots.body| < c.bodies)
    case TakeStat => s.writer.Bodied? && (!Ordinary(s.writer.req) || |s.slots.stat| < c.stats)
    case DeferFull => s.writer.Bodied? && Ordinary(s.writer.req) && |s.slots.stat| >= c.stats
    case WriteCommand => s.writer.Ready?
    case WriteError => s.writer.Ready?
    case Push => s.writer.Wrote? && |s.book.pending| < c.depth
    case PostGo => s.writer.PostWait? && s.wire.postReady == Some(true)
    case PostNo => s.writer.PostWait? && s.wire.postReady == Some(false)
    case PostExit => s.writer.PostWait?
  }

  function SendDo(c: Config, s: State, a: SendStep): State
    requires SendEnabled(c, s, a)
  {
    match a
    case TookFail(exit) =>
      s.(writer := if exit then Ending else Loop, book := Close(s.book, s.writer.req), slots := GiveToken(s.slots))
    case TookExit => s.(writer := Ending, slots := GiveToken(s.slots))
    case TakeBody =>
      s.(writer := Bodied(s.writer.req),
         slots := if Cheap(s.writer.req) then s.slots else s.slots.(body := s.slots.body + {s.writer.req}))
    case TakeStat =>
      s.(writer := Ready(s.writer.req),
         slots := if Ordinary(s.writer.req) then s.slots.(stat := s.slots.stat + {s.writer.req}) else s.slots)
    case DeferFull =>
      s.(writer := Loop, book := s.book.(deferred := Some(s.writer.req), unsent := None), slots := GiveToken(s.slots))
    case WriteCommand =>
      s.(writer := Wrote(s.writer.req), wire := s.wire.(owed := s.wire.owed + [Reply(s.writer.req, false)]))
    case WriteError =>
      s.(writer := Ending, book := Close(s.book, s.writer.req), slots := FreeStat(GiveToken(s.slots), s.writer.req))
    case Push =>
      s.(writer := if s.writer.req.kind == Post then PostWait(s.writer.req) else Loop,
         book := s.book.(pending := s.book.pending + [s.writer.req], unsent := None),
         wire := if s.writer.req.kind == Post then s.wire.(postReady := None) else s.wire)
    case PostGo =>
      s.(writer := Loop, wire := s.wire.(owed := s.wire.owed + [Reply(s.writer.req, true)], postSent := true))
    case PostNo => s.(writer := Loop)
    case PostExit => s.(writer := Ending)
  }

  /** Reading a reply at the response head, from the read buffer. 340 lets the article go and keeps the head;
      anything else answers the request. */
  function DoRead(s: State, proceed: bool, retire: bool): State
    requires s.reader.Head? && 0 < s.wire.buffered <= |s.wire.owed|
  {
    var r, second := s.reader.req, s.reader.second;
    var wire := s.wire.(owed := s.wire.owed[1..], log := s.wire.log + [Exchange(r, second, s.wire.owed[0])],
                        buffered := s.wire.buffered - 1);
    if proceed then
      s.(reader := Head(r, true), wire := wire.(postReady := Some(true), postSent := false))
    else
      s.(reader := Answered(r, retire), book := Close(s.book, r),
         wire := if IsOffer(s) then wire.(postReady := Some(false)) else wire)
  }

  predicate ReadEnabled(c: Config, s: State, a: ReadStep) {
    match a
    case Match => s.reader.Idle? && s.book.pending != []
    case IdleExit(_) => s.reader.Idle? && s.done
    case Fetch(n) => s.reader.Head? && s.wire.buffered == 0 && !s.wire.shut && 0 < n <= |s.wire.owed|
    case ReadOne(proceed, retire) =>
      && s.reader.Head? && 0 < s.wire.buffered <= |s.wire.owed|
      && (proceed ==> s.reader.req.kind == Post && !s.reader.second)
    case ReadFail => s.reader.Head?
    case Abandon => s.reader.Head? && s.reader.req.kind != Body
    case ReleaseToken => s.reader.Answered?
    case ReleaseSlots => s.reader.Released?
    case FailExit => s.reader.Failing? && s.book.pending == [] && s.book.failing.None?
  }

  function ReadDo(c: Config, s: State, a: ReadStep): State
    requires ReadEnabled(c, s, a)
  {
    match a
    case Match => s.(reader := Head(s.book.pending[0], false), book := s.book.(pending := s.book.pending[1..]))
    case IdleExit(sweep) => s.(reader := if sweep then Failing else Exited)
    case Fetch(n) => s.(wire := s.wire.(buffered := n))
    case ReadOne(proceed, retire) => DoRead(s, proceed, retire)
    case ReadFail =>
      s.(reader := Answered(s.reader.req, true), book := Close(s.book, s.reader.req),
         wire := if IsOffer(s) then s.wire.(postReady := Some(false)) else s.wire)
    case Abandon =>
      s.(reader := Answered(s.reader.req, false), book := Close(s.book, s.reader.req),
         wire := if IsOffer(s) then s.wire.(postReady := Some(false)) else s.wire)
    case ReleaseToken => s.(reader := Released(s.reader.req, s.reader.retire), slots := GiveToken(s.slots))
    case ReleaseSlots =>
      s.(reader := if s.reader.retire then Failing else Idle,
         wire := s.wire.(shut := s.wire.shut || s.reader.retire),
         slots := FreeStat(s.slots, s.reader.req).(body := s.slots.body - {s.reader.req}))
    case FailExit => s.(reader := Exited, done := true)
  }

  predicate EndEnabled(c: Config, s: State, a: EndStep) {
    match a
    case DrainToken => s.writer.Draining? && s.slots.tokens < c.depth
    case DrainExit => s.writer.Draining?
    case EndUnsent => s.writer.Ending? && s.book.unsent.Some?
    case EndDeferred => s.writer.Ending? && s.book.deferred.Some?
    case EndCancel => s.writer.Ending?
    case HangUp => s.writer.Ending?
    case Finish =>
      && s.writer.Ending? && s.done && s.wire.shut && s.book.unsent.None? && s.book.deferred.None?
      && s.book.pending == [] && s.book.failing.None?
    case Pop => Sweeping(s) && s.book.failing.None? && s.book.pending != []
    case FailPopped => s.book.failing.Some?
    case Signal => s.slots.signals > 0
    case Cancel => true
  }

  function EndDo(c: Config, s: State, a: EndStep): State
    requires EndEnabled(c, s, a)
  {
    match a
    case DrainToken => s.(slots := s.slots.(tokens := s.slots.tokens + 1))
    case DrainExit => s.(writer := Ending)
    case EndUnsent => s.(book := Close(s.book, s.book.unsent.value).(unsent := None))
    case EndDeferred => s.(book := Close(s.book, s.book.deferred.value).(deferred := None))
    case EndCancel => s.(done := true)
    case HangUp => s.(wire := s.wire.(shut := true))
    case Finish => s.(writer := Gone)
    case Pop =>
      s.(book := s.book.(failing := Some(s.book.pending[0]), pending := s.book.pending[1..]),
         slots := FreeStat(s.slots, s.book.pending[0]))
    case FailPopped =>
      s.(book := Close(s.book, s.book.failing.value).(failing := None), slots := GiveToken(s.slots))
    case Signal => s.(slots := s.slots.(freed := true, signals := s.slots.signals - 1))
    case Cancel => s.(done := true)
  }

  predicate Enabled(c: Config, s: State, a: Action) {
    match a
    case Picking(p) => PickEnabled(c, s, p)
    case Sending(p) => SendEnabled(c, s, p)
    case Reading(p) => ReadEnabled(c, s, p)
    case Closing(p) => EndEnabled(c, s, p)
  }

  function Do(c: Config, s: State, a: Action): State
    requires Enabled(c, s, a)
  {
    match a
    case Picking(p) => PickDo(c, s, p)
    case Sending(p) => SendDo(c, s, p)
    case Reading(p) => ReadDo(c, s, p)
    case Closing(p) => EndDo(c, s, p)
  }

  // ---------------------------------------------------------------------------
  // Runs

  /** A connection just handed its bootstrap request; a second request comes along only
      behind a priority one. */
  ghost predicate Initial(s: State) {
    && s.writer.Boot? && s.reader.Idle? && !s.done
    && (s.book.deferred.Some? ==>
          s.writer.req.priority && !s.book.deferred.value.priority && s.book.deferred.value != s.writer.req)
    && s.book == Book(s.book.deferred, [], None, Some(s.writer.req),
                      {s.writer.req} + (if s.book.deferred.Some? then {s.book.deferred.value} else {}), {})
    && s.slots == Slots(0, {}, {}, false, 0)
    && s.wire == Wire([], [], None, false, 0, false)
  }

  /** The state after these actions, if each of them was enabled in its turn. */
  function Play(c: Config, start: State, actions: seq<Action>): Option<State> {
    if actions == [] then Some(start) else Next(c, Play(c, start, Init(actions)), Last(actions))
  }

  function Next(c: Config, s: Option<State>, a: Action): Option<State> {
    if s.Some? && Enabled(c, s.value, a) then Some(Do(c, s.value, a)) else None
  }

  function Init(actions: seq<Action>): seq<Action>
    requires actions != []
  {
    actions[..|actions| - 1]
  }

  function Last(actions: seq<Action>): Action
    requires actions != []
  {
    actions[|actions| - 1]
  }

  ghost predicate Reaches(c: Config, start: State, actions: seq<Action>, s: State) {
    Initial(start) && Play(c, start, actions) == Some(s)
  }

  // ---------------------------------------------------------------------------
  // Ownership

  function Is(o: Option<Req>, r: Req): nat { if o == Some(r) then 1 else 0 }

  /** The request the writer is working on. While Run cleans up it is whatever `unsent`
      still names, unless that has been answered. */
  function Hand(s: State): Option<Req> {
    match s.writer
    case Boot(r) => Some(r)
    case Recheck(r) => Some(r)
    case Took(r) => Some(r)
    case Bodied(r) => Some(r)
    case Ready(r) => Some(r)
    case Wrote(r) => Some(r)
    case Ending => if s.book.unsent.Some? && s.book.unsent.value !in s.book.closed then s.book.unsent else None
    case _ => None
  }

  function AtHead(s: State): Option<Req> { if s.reader.Head? then Some(s.reader.req) else None }

  /** In how many places an unanswered request is: deferred, being written, pending, at the
      response head, or popped by the failure sweep. */
  function Places(s: State, r: Req): nat {
    Is(s.book.deferred, r) + Is(Hand(s), r) + multiset(s.book.pending)[r] + Is(AtHead(s), r) + Is(s.book.failing, r)
  }

  /** An accepted request is in exactly one place or answered, never both; any other
      request is nowhere. */
  ghost predicate OwnedOnce(s: State, r: Req) {
    Places(s, r) + (if r in s.book.closed then 1 else 0) == (if r in s.book.accepted then 1 else 0)
  }

  ghost predicate Owned(s: State) { forall r :: OwnedOnce(s, r) }

  /** What `unsent` may name, depending on where the writer is. */
  ghost predicate UnsentOk(s: State) {
    match s.writer
    case Boot(r) => s.book.unsent == Some(r)
    case Took(r) => s.book.unsent == Some(r)
    case Bodied(r) => s.book.unsent == Some(r)
    case Ready(r) => s.book.unsent == Some(r)
    case Wrote(r) => s.book.unsent == Some(r)
    case Ending => true
    case Gone => s.book.unsent.None? && s.book.deferred.None? && s.book.pending == [] && s.book.failing.None?
    case _ => s.book.unsent.Some? ==> s.book.unsent.value in s.book.closed
  }

  /** A deferred request is an ordinary-lane one, and while it waits only priority work is
      in the writer's hand: the slot for it is free whenever it is about to be filled. */
  ghost predicate DeferredOk(s: State) {
    && (s.book.deferred.Some? ==> !s.book.deferred.value.priority)
    && match s.writer
       case Boot(r) => s.book.deferred.Some? ==> r.priority
       case Recheck(r) => s.book.deferred.None? && !r.priority
       case Took(r) => s.book.deferred.Some? ==> r.priority
       case Bodied(r) => s.book.deferred.Some? ==> r.priority
       case Ready(r) => s.book.deferred.Some? ==> r.priority
       case Wrote(r) => s.book.deferred.Some? ==> r.priority
       case _ => true
  }

  ghost predicate Accounted(s: State) { Owned(s) && UnsentOk(s) && DeferredOk(s) }

  lemma PendingHead(p: seq<Req>, r: Req)
    requires p != []
    ensures multiset(p)[r] == multiset(p[1..])[r] + (if p[0] == r then 1 else 0)
  {
    assert p == [p[0]] + p[1..];
  }

  lemma OwnedPick(c: Config, s: State, a: PickStep, r: Req)
    requires OwnedOnce(s, r) && UnsentOk(s) && DeferredOk(s) && PickEnabled(c, s, a)
    ensures OwnedOnce(PickDo(c, s, a), r)
  {
  }

  lemma OwnedSend(c: Config, s: State, a: SendStep, r: Req)
    requires OwnedOnce(s, r) && UnsentOk(s) && DeferredOk(s) && SendEnabled(c, s, a)
    ensures OwnedOnce(SendDo(c, s, a), r)
  {
  }

  lemma OwnedRead(c: Config, s: State, a: ReadStep, r: Req)
    requires OwnedOnce(s, r) && ReadEnabled(c, s, a)
    ensures OwnedOnce(ReadDo(c, s, a), r)
  {
    if a.Match? { PendingHead(s.book.pending, r); }
  }

  lemma OwnedSweep(c: Config, s: State, a: EndStep, r: Req)
    requires OwnedOnce(s, r) && EndEnabled(c, s, a) && (a.Pop? || a.FailPopped?)
    ensures OwnedOnce(EndDo(c, s, a), r)
  {
    if a.Pop? { PendingHead(s.book.pending, r); }
  }

  lemma OwnedEnd(c: Config, s: State, a: EndStep, r: Req)
    requires OwnedOnce(s, r) && UnsentOk(s) && EndEnabled(c, s, a)
    ensures OwnedOnce(EndDo(c, s, a), r)
  {
    if a.Pop? || a.FailPopped? { OwnedSweep(c, s, a, r); }
  }

  lemma UnsentPick(c: Config, s: State, a: PickStep)
    requires UnsentOk(s) && PickEnabled(c, s, a)
    ensures UnsentOk(PickDo(c, s, a))
  {
  }

  lemma UnsentSend(c: Config, s: State, a: SendStep)
    requires UnsentOk(s) && SendEnabled(c, s, a)
    ensures UnsentOk(SendDo(c, s, a))
  {
  }

  lemma UnsentRead(c: Config, s: State, a: ReadStep)
    requires UnsentOk(s) && ReadEnabled(c, s, a)
    ensures UnsentOk(ReadDo(c, s, a))
  {
  }

  lemma UnsentEnd(c: Config, s: State, a: EndStep)
    requires UnsentOk(s) && EndEnabled(c, s, a)
    ensures UnsentOk(EndDo(c, s, a))
  {
  }

  lemma DeferredPick(c: Config, s: State, a: PickStep)
    requires DeferredOk(s) && PickEnabled(c, s, a)
    ensures DeferredOk(PickDo(c, s, a))
  {
  }

  lemma DeferredSend(c: Config, s: State, a: SendStep)
    requires DeferredOk(s) && SendEnabled(c, s, a)
    ensures DeferredOk(SendDo(c, s, a))
  {
  }

  lemma DeferredRead(c: Config, s: State, a: ReadStep)
    requires DeferredOk(s) && ReadEnabled(c, s, a)
    ensures DeferredOk(ReadDo(c, s, a))
  {
  }

  lemma DeferredEnd(c: Config, s: State, a: EndStep)
    requires DeferredOk(s) && EndEnabled(c, s, a)
    ensures DeferredOk(EndDo(c, s, a))
  {
  }

  lemma OwnedKept(c: Config, s: State, a: Action)
    requires Accounted(s) && Enabled(c, s, a)
    ensures Accounted(Do(c, s, a))
  {
    match a {
      case Picking(p) => UnsentPick(c, s, p); DeferredPick(c, s, p);
      case Sending(p) => UnsentSend(c, s, p); DeferredSend(c, s, p);
      case Reading(p) => UnsentRead(c, s, p); DeferredRead(c, s, p);
      case Closing(p) => UnsentEnd(c, s, p); DeferredEnd(c, s, p);
    }
    forall r ensures OwnedOnce(Do(c, s, a), r) {
      assert OwnedOnce(s, r);
      match a
      case Picking(p) => OwnedPick(c, s, p, r);
      case Sending(p) => OwnedSend(c, s, p, r);
      case Reading(p) => OwnedRead(c, s, p, r);
      case Closing(p) => OwnedEnd(c, s, p, r);
    }
  }

  // ---------------------------------------------------------------------------
  // Windows

  /** Inflight slots the writer and the reader answer for. */
  function Spoken(s: State): nat {
    (if s.writer.Token? || s.writer.Looked? || s.writer.Parked? || s.writer.Choose? || s.writer.Recheck?
        || s.writer.Took? || s.writer.Bodied? || s.writer.Ready? || s.writer.Wrote? then 1 else 0)
    + (if s.reader.Head? || s.reader.Answered? then 1 else 0)
    + (if s.book.failing.Some? then 1 else 0)
  }

  ghost predicate TokensOk(c: Config, s: State) {
    Spoken(s) + |s.book.pending| <= s.slots.tokens <= c.depth
  }

  predicate Slotted(s: Slots, r: Req) {
    (!Cheap(r) ==> r in s.body) && (Ordinary(r) ==> r in s.stat)
  }

  /** Written or about to be: in the FIFO, at the response head, or holding all its slots. */
  predicate InFlight(s: State, r: Req) {
    r in s.book.pending || AtHead(s) == Some(r) || s.writer == Ready(r) || s.writer == Wrote(r)
  }

  ghost predicate SlotOnce(s: State, r: Req) {
    && (InFlight(s, r) ==> Slotted(s.slots, r))
    && (s.writer == Bodied(r) && !Cheap(r) ==> r in s.slots.body)
  }

  ghost predicate SlotsOk(c: Config, s: State) {
    && |s.slots.body| <= c.bodies && |s.slots.stat| <= c.stats
    && (s.reader.Answered? || s.reader.Released? ==> s.reader.req in s.book.closed)
  }

  /** A writer waiting for the STAT window never waits in vain: the window is full, a wake
      token is there, or a release is about to send one. */
  ghost predicate WakeOk(c: Config, s: State) {
    s.writer == Looked(true) || s.writer.Parked? ==>
      |s.slots.stat| == c.stats || s.slots.freed || s.slots.signals > 0
  }

  ghost predicate WindowsOk(c: Config, s: State) { TokensOk(c, s) && SlotsOk(c, s) && WakeOk(c, s) }

  lemma WindowsPick(c: Config, s: State, a: PickStep)
    requires PickEnabled(c, s, a) && WindowsOk(c, s)
    ensures WindowsOk(c, PickDo(c, s, a))
  {
  }

  lemma WindowsSend(c: Config, s: State, a: SendStep)
    requires SendEnabled(c, s, a) && WindowsOk(c, s)
    ensures WindowsOk(c, SendDo(c, s, a))
  {
  }

  lemma WindowsRead(c: Config, s: State, a: ReadStep)
    requires ReadEnabled(c, s, a) && WindowsOk(c, s)
    ensures WindowsOk(c, ReadDo(c, s, a))
  {
  }

  lemma WindowsEnd(c: Config, s: State, a: EndStep)
    requires EndEnabled(c, s, a) && WindowsOk(c, s)
    ensures WindowsOk(c, EndDo(c, s, a))
  {
  }

  lemma SlotOncePick(c: Config, s: State, a: PickStep, r: Req)
    requires PickEnabled(c, s, a) && SlotOnce(s, r) && SlotsOk(c, s) && OwnedOnce(s, r) && OwnedOnce(PickDo(c, s, a), r)
    ensures SlotOnce(PickDo(c, s, a), r)
  {
  }

  lemma SlotOnceSend(c: Config, s: State, a: SendStep, r: Req)
    requires SendEnabled(c, s, a) && SlotOnce(s, r) && SlotsOk(c, s) && OwnedOnce(s, r) && OwnedOnce(SendDo(c, s, a), r)
    ensures SlotOnce(SendDo(c, s, a), r)
  {
  }

  lemma SlotOnceRead(c: Config, s: State, a: ReadStep, r: Req)
    requires ReadEnabled(c, s, a) && SlotOnce(s, r) && SlotsOk(c, s) && OwnedOnce(s, r) && OwnedOnce(ReadDo(c, s, a), r)
    ensures SlotOnce(ReadDo(c, s, a), r)
  {
  }

  lemma SlotOnceEnd(c: Config, s: State, a: EndStep, r: Req)
    requires EndEnabled(c, s, a) && SlotOnce(s, r) && SlotsOk(c, s) && OwnedOnce(s, r) && OwnedOnce(EndDo(c, s, a), r)
    ensures SlotOnce(EndDo(c, s, a), r)
  {
  }

  lemma WindowsKept(c: Config, s: State, a: Action)
    requires Enabled(c, s, a) && Accounted(s) && WindowsOk(c, s) && (forall r :: SlotOnce(s, r))
    ensures WindowsOk(c, Do(c, s, a)) && (forall r :: SlotOnce(Do(c, s, a), r))
  {
    OwnedKept(c, s, a);
    match a {
      case Picking(p) => WindowsPick(c, s, p);
      case Sending(p) => WindowsSend(c, s, p);
      case Reading(p) => WindowsRead(c, s, p);
      case Closing(p) => WindowsEnd(c, s, p);
    }
    forall r ensures SlotOnce(Do(c, s, a), r) {
      assert OwnedOnce(s, r) && OwnedOnce(Do(c, s, a), r) && SlotOnce(s, r);
      match a
      case Picking(p) => SlotOncePick(c, s, p, r);
      case Sending(p) => SlotOnceSend(c, s, p, r);
      case Reading(p) => SlotOnceRead(c, s, p, r);
      case Closing(p) => SlotOnceEnd(c, s, p, r);
    }
  }

  // ---------------------------------------------------------------------------
  // All runs

  ghost predicate Inv(c: Config, s: State) {
    Accounted(s) && WindowsOk(c, s) && forall r :: SlotOnce(s, r)
  }

  lemma InitialInv(c: Config, s: State)
    requires Initial(s)
    ensures Inv(c, s)
  {
    forall r ensures OwnedOnce(s, r) && SlotOnce(s, r) {}
  }

  lemma {:induction false} Invariant(c: Config, start: State, actions: seq<Action>, s: State)
    requires Reaches(c, start, actions, s)
    ensures Inv(c, s)
  {
    if actions == [] {
      InitialInv(c, s);
    } else {
      var prev := Play(c, start, Init(actions)).value;
      Invariant(c, start, Init(actions), prev);
      OwnedKept(c, prev, Last(actions));
      WindowsKept(c, prev, Last(actions));
    }
  }

  /** Each accepted request is deferred, being written, pending, at the head, being failed,
      or answered, and only one of these. */
  ghost predicate EachInOnePlace(s: State) {
    forall r :: if r in s.book.accepted then (if r in s.book.closed then Places(s, r) == 0 else Places(s, r) == 1)
                else Places(s, r) == 0 && r !in s.book.closed
  }

  lemma PlacesFromInv(c: Config, s: State)
    requires Inv(c, s)
    ensures EachInOnePlace(s)
    ensures s.reader.Head? ==> s.reader.req !in s.book.closed
    ensures s.writer.Gone? && s.reader.Exited? ==> s.book.accepted == s.book.closed
  {
    forall r ensures Places(s, r) + (if r in s.book.closed then 1 else 0) == (if r in s.book.accepted then 1 else 0) {
      assert OwnedOnce(s, r);
    }
    if s.reader.Head? { assert OwnedOnce(s, s.reader.req); }
    if s.writer.Gone? && s.reader.Exited? {
      forall r ensures r in s.book.accepted <==> r in s.book.closed { assert OwnedOnce(s, r); }
    }
  }

  /** In every reachable state each accepted request is in one place or answered; the reader
      never answers a channel that is closed; a request about to be deferred finds the place
      free; and when both loops have ended every request has been answered. */
  lemma RequestsAreOwned(c: Config, start: State, actions: seq<Action>, s: State)
    requires Reaches(c, start, actions, s)
    ensures EachInOnePlace(s)
    ensures s.reader.Head? ==> s.reader.req !in s.book.closed
    ensures s.writer.Recheck? || (s.writer.Bodied? && Ordinary(s.writer.req)) ==> s.book.deferred.None?
    ensures s.writer.Gone? && s.reader.Exited? ==> s.book.accepted == s.book.closed
  {
    Invariant(c, start, actions, s);
    PlacesFromInv(c, s);
  }

  /** Pushing to the FIFO never blocks; non-STAT commands in flight never exceed the body
      window, ordinary STATs never exceed the background window, and a parked writer is
      never left without a wake-up. */
  lemma WindowsHold(c: Config, start: State, actions: seq<Action>, s: State, flying: set<Req>)
    requires Reaches(c, start, actions, s)
    requires forall r :: r in flying ==> InFlight(s, r)
    ensures s.writer.Wrote? ==> |s.book.pending| < c.depth
    ensures |s.book.pending| + (if s.reader.Head? then 1 else 0) <= s.slots.tokens <= c.depth
    ensures (forall r :: r in flying ==> !Cheap(r)) ==> |flying| <= c.bodies
    ensures (forall r :: r in flying ==> Ordinary(r)) ==> |flying| <= c.stats
    ensures s.writer.Parked? ==> |s.slots.stat| == c.stats || s.slots.freed || s.slots.signals > 0
  {
    Invariant(c, start, actions, s);
    forall r | r in flying ensures Slotted(s.slots, r) { assert SlotOnce(s, r); }
    if forall r :: r in flying ==> !Cheap(r) { Fewer(flying, s.slots.body); }
    if forall r :: r in flying ==> Ordinary(r) { Fewer(flying, s.slots.stat); }
  }

  lemma {:induction false} Fewer(a: set<Req>, b: set<Req>)
    requires a <= b
    ensures |a| <= |b|
  {
    if a == {} {
    } else {
      var x :| x in a;
      Fewer(a - {x}, b - {x});
    }
  }
}
