/** One websocket session as a protocol: callers, the read and write pumps and whoever closes the
    session take steps in any order, against a server that may answer late, twice or never. */
module MatterSession {
  import opened Text

  /** A server reply either carries a result or an error code. */
  datatype Body = Result(payload: string) | Rejected(code: int, details: string)

  datatype Reply = Reply(id: string, body: Body)

  datatype Frame = ReplyFrame(reply: Reply) | EventFrame(event: string) | Malformed

  datatype Outcome = Replied(reply: Reply) | Cancelled | Closed(reason: string) | NotEncoded

  /** A call waits for room in the write channel, then for its reply; it has its outcome before it
      removes itself from the pending map. */
  datatype Phase = Sending | Waiting | Leaving(outcome: Outcome) | Returned(outcome: Outcome)

  /** `slot` is the call's reply channel, one deep. */
  datatype Call = Call(command: string, args: string, phase: Phase, slot: Option<Reply>)

  /** The read pump is reading, holds a reply it has found the call for, waits for the close it has
      asked for, is about to run its deferred close, or is gone. */
  datatype Pump = Reading | Holding(n: nat, reply: Reply) | Closing | Exiting | Gone

  /** The close function has not run, has recorded the reason, has closed `done`, or has finished. */
  datatype Stage = Open | ReasonSet | DoneClosed | Finished

  /** `began` holds how many frames had been read when each call began. */
  datatype Session = Session(
    next: nat,
    calls: map<nat, Call>,
    began: map<nat, nat>,
    pending: map<string, nat>,
    queue: seq<nat>,
    written: seq<nat>,
    pump: Pump,
    read: seq<Frame>,
    events: seq<string>,
    consumed: seq<string>,
    stage: Stage,
    err: Option<string>)

  const FRESH := Session(0, map[], map[], map[], [], [], Reading, [], [], [], Open, None)

  const WRITE_BUFFER: nat := 64
  const EVENT_BUFFER: nat := 256

  predicate InFlight(c: Call) {
    !c.phase.Returned?
  }

  predicate Done(s: Session) {
    s.stage == DoneClosed || s.stage == Finished
  }

  function Err(s: Session): string {
    if s.err.Some? then s.err.value else "session closed"
  }

  function SetCall(s: Session, n: nat, c: Call): Session {
    s.(calls := s.calls[n := c])
  }

  // ---------- steps ----------

  datatype Step =
    | Begin(command: string, args: string)
    | Enqueue(n: nat)
    | Take(n: nat)
    | GiveUp(n: nat, outcome: Outcome)
    | Leave(n: nat)
    | Write
    | Read(frame: Frame)
    | Deliver
    | ReadFails(cause: string)
    | PumpSeesDone
    | PumpExits
    | Consume
    | Close(reason: Option<string>)
    | Advance

  predicate Active(s: Session, n: nat) {
    n in s.calls && (s.calls[n].phase == Sending || s.calls[n].phase == Waiting)
  }

  predicate Enabled(s: Session, step: Step) {
    match step
    case Begin(_, _) => true
    case Enqueue(n) => n in s.calls && s.calls[n].phase == Sending && |s.queue| < WRITE_BUFFER
    case Take(n) => n in s.calls && s.calls[n].phase == Waiting && s.calls[n].slot.Some?
    case GiveUp(n, o) =>
      Active(s, n) && (o == Cancelled || (o == NotEncoded && s.calls[n].phase == Sending) || (o == Closed(Err(s)) && Done(s)))
    case Leave(n) => n in s.calls && s.calls[n].phase.Leaving?
    case Write => s.queue != []
    case Read(frame) => s.pump == Reading && (frame.EventFrame? ==> s.stage != Finished)
    case Deliver => s.pump.Holding?
    case ReadFails(_) => s.pump == Reading
    case PumpSeesDone => (s.pump == Reading && Done(s)) || (s.pump == Closing && s.stage == Finished)
    case PumpExits => s.pump == Exiting && s.stage != ReasonSet && s.stage != DoneClosed
    case Consume => s.events != []
    case Close(reason) => reason.Some?
    case Advance => s.stage == ReasonSet || s.stage == DoneClosed
  }

  /** The close function runs once: only the first caller sets the reason. */
  function CloseWith(s: Session, reason: Option<string>): Session {
    if s.stage == Open then s.(stage := ReasonSet, err := if s.err.None? then reason else s.err) else s
  }

  function Receive(s: Session, frame: Frame): Session {
    var s1 := s.(read := s.read + [frame]);
    match frame
    case ReplyFrame(r) =>
      if r.id in s.pending && s.pending[r.id] in s.calls then
        s1.(pump := Holding(s.pending[r.id], r))
      else s1
    case EventFrame(e) => if |s.events| < EVENT_BUFFER then s1.(events := s.events + [e]) else s1
    case Malformed => s1
  }

  function Apply(s: Session, step: Step): Session
    requires Enabled(s, step)
  {
    match step
    case Begin(command, args) =>
      var n := s.next + 1;
      s.(next := n, calls := s.calls[n := Call(command, args, Sending, None)], began := s.began[n := |s.read|],
         pending := s.pending[Decimal(n) := n])
    case Enqueue(n) => SetCall(s, n, s.calls[n].(phase := Waiting)).(queue := s.queue + [n])
    case Take(n) => SetCall(s, n, s.calls[n].(phase := Leaving(Replied(s.calls[n].slot.value)), slot := None))
    case GiveUp(n, o) => SetCall(s, n, s.calls[n].(phase := Leaving(o)))
    case Leave(n) => SetCall(s, n, s.calls[n].(phase := Returned(s.calls[n].phase.outcome))).(pending := s.pending - {Decimal(n)})
    case Write => s.(queue := s.queue[1..], written := s.written + [s.queue[0]])
    case Read(frame) => Receive(s, frame)
    case Deliver =>
      var n := s.pump.n;
      if n in s.calls && s.calls[n].slot.None? then
        SetCall(s, n, s.calls[n].(slot := Some(s.pump.reply))).(pump := Reading)
      else s.(pump := Reading)
    case ReadFails(reason) => CloseWith(s, Some(reason)).(pump := Closing)
    case PumpSeesDone => s.(pump := Exiting)
    case PumpExits => CloseWith(s, None).(pump := Gone)
    case Consume => s.(events := s.events[1..], consumed := s.consumed + [s.events[0]])
    case Close(reason) => CloseWith(s, reason)
    case Advance => s.(stage := if s.stage == ReasonSet then DoneClosed else Finished)
  }

  // ---------- invariants ----------

  /** Numbers are handed out once, and the pending map holds exactly the calls in flight, each under
      its own number. */
  ghost predicate IdsOk(s: Session) {
    && (forall n :: n in s.calls <==> 1 <= n <= s.next)
    && (forall n :: n in s.calls ==> (InFlight(s.calls[n]) <==> Decimal(n) in s.pending))
    && (forall id :: id in s.pending ==> s.pending[id] in s.calls && id == Decimal(s.pending[id]))
  }

  predicate WasRead(s: Session, r: Reply) {
    ReplyFrame(r) in s.read
  }

  predicate OwnReply(s: Session, n: nat, r: Reply) {
    r.id == Decimal(n) && WasRead(s, r)
  }

  predicate Answers(f: Frame, id: string) {
    f.ReplyFrame? && f.reply.id == id
  }

  /** The first reply with this id among the frames. */
  function FirstReply(frames: seq<Frame>, id: string): Option<Reply> {
    if frames == [] then None
    else
      var before, last := FirstReply(frames[..|frames| - 1], id), frames[|frames| - 1];
      if before.Some? then before else if Answers(last, id) then Some(last.reply) else None
  }

  /** The frames read since the call began. */
  function Since(s: Session, n: nat): seq<Frame> {
    if n in s.began && s.began[n] <= |s.read| then s.read[s.began[n]..] else []
  }

  function FirstFor(s: Session, n: nat): Option<Reply> {
    FirstReply(Since(s, n), Decimal(n))
  }

  /** The only reply a call can return is the first with its id that was read since it began, whatever
      the reply says. While the call waits that reply is in its slot or in the read pump's hand: it is
      never lost, and no duplicate takes its place. */
  ghost predicate CallOk(s: Session, n: nat)
    requires n in s.calls
  {
    var c, first := s.calls[n], FirstFor(s, n);
    && n in s.began && s.began[n] <= |s.read|
    && ((c.phase.Leaving? || c.phase.Returned?) && c.phase.outcome.Replied? ==> Some(c.phase.outcome.reply) == first)
    && (Active(s, n) ==> (c.slot.Some? ==> c.slot == first) && (first.Some? ==> c.slot == first || s.pump == Holding(n, first.value)))
  }

  ghost predicate CallsOk(s: Session) {
    && (forall n :: n in s.calls ==> CallOk(s, n))
    && (s.pump.Holding? ==> HeldOk(s, s.pump.n, s.pump.reply))
  }

  ghost predicate HeldOk(s: Session, n: nat, r: Reply) {
    n in s.calls && FirstFor(s, n).Some? && (Active(s, n) && s.calls[n].slot.None? ==> FirstFor(s, n) == Some(r))
  }

  /** Nothing is sent that no caller asked for, and nothing twice: a number is queued or written
      only after its call got past the write channel. */
  ghost predicate WritesOk(s: Session) {
    && (forall n :: n in s.queue + s.written ==> n in s.calls && s.calls[n].phase != Sending)
    && (forall i, j :: 0 <= i < j < |s.written + s.queue| ==> (s.written + s.queue)[i] != (s.written + s.queue)[j])
  }

  /** Once `done` is closed there is a reason; the read pump runs its deferred close only after
      somebody else has closed. */
  ghost predicate CloseOk(s: Session) {
    && (s.stage == Open <==> s.err.None?)
    && (s.pump == Closing ==> s.stage != Open)
    && (s.pump == Exiting || s.pump == Gone ==> Done(s))
  }

  function EventsIn(frames: seq<Frame>): seq<string> {
    if frames == [] then []
    else
      var last := frames[|frames| - 1];
      EventsIn(frames[..|frames| - 1]) + if last.EventFrame? then [last.event] else []
  }

  ghost predicate Subsequence(a: seq<string>, b: seq<string>) {
    if a == [] then true
    else if b == [] then false
    else Subsequence(a, b[..|b| - 1]) || (a[|a| - 1] == b[|b| - 1] && Subsequence(a[..|a| - 1], b[..|b| - 1]))
  }

  lemma {:induction false} SubsequenceGrows(a: seq<string>, b: seq<string>, e: string)
    requires Subsequence(a, b)
    ensures Subsequence(a, b + [e]) && Subsequence(a + [e], b + [e])
  {
    assert (b + [e])[..|b|] == b && (a + [e])[..|a|] == a;
  }

  lemma {:induction false} SubsequencePrefix(a: seq<string>, k: nat, b: seq<string>)
    requires Subsequence(a, b) && k <= |a|
    ensures Subsequence(a[..k], b)
    decreases |b|
  {
    if k < |a| && b != [] {
      var front := b[..|b| - 1];
      if Subsequence(a, front) {
        SubsequencePrefix(a, k, front);
      } else {
        SubsequencePrefix(a[..|a| - 1], k, front);
        assert a[..|a| - 1][..k] == a[..k];
      }
      if a[..k] != [] {
        assert Subsequence(a[..k], front);
      }
    } else if k == |a| {
      assert a[..k] == a;
    }
  }

  /** Events reach the consumer in the order they were read, with gaps where it was too slow. */
  ghost predicate EventsOk(s: Session) {
    Subsequence(s.consumed + s.events, EventsIn(s.read))
  }

  ghost predicate Inv(s: Session) {
    IdsOk(s) && CallsOk(s) && CloseOk(s) && EventsOk(s) && WritesOk(s)
  }

  // ---------- every step keeps them ----------

  lemma BeginIds(s: Session, command: string, args: string)
    requires IdsOk(s)
    ensures IdsOk(Apply(s, Begin(command, args)))
  {
    NextUnused(s);
    AddedIds(s, Call(command, args, Sending, None));
  }

  lemma AddedIds(s: Session, c: Call)
    requires IdsOk(s) && InFlight(c) && s.next + 1 !in s.calls && Decimal(s.next + 1) !in s.pending
    requires forall n :: n in s.calls ==> Decimal(n) != Decimal(s.next + 1)
    ensures IdsOk(s.(next := s.next + 1, calls := s.calls[s.next + 1 := c], pending := s.pending[Decimal(s.next + 1) := s.next + 1]))
  {
  }

  lemma NextUnused(s: Session)
    requires IdsOk(s)
    ensures s.next + 1 !in s.calls && Decimal(s.next + 1) !in s.pending
    ensures forall n :: n in s.calls ==> Decimal(n) != Decimal(s.next + 1)
  {
    forall n | n in s.calls ensures Decimal(n) != Decimal(s.next + 1) {
      if Decimal(n) == Decimal(s.next + 1) {
        DecimalInjective(n, s.next + 1);
      }
    }
  }

  lemma LeaveIds(s: Session, n: nat)
    requires IdsOk(s) && Enabled(s, Leave(n))
    ensures IdsOk(Apply(s, Leave(n)))
  {
    forall m | m in s.calls && m != n ensures Decimal(m) != Decimal(n) {
      if Decimal(m) == Decimal(n) {
        DecimalInjective(m, n);
      }
    }
  }

  /** The step changes no number and moves no call in or out of flight. */
  lemma SameIds(s: Session, s': Session)
    requires IdsOk(s) && s'.pending == s.pending && s'.next == s.next && s'.calls.Keys == s.calls.Keys
    requires forall n :: n in s.calls ==> (InFlight(s.calls[n]) <==> InFlight(s'.calls[n]))
    ensures IdsOk(s')
  {
  }

  lemma IdsKept(s: Session, step: Step)
    requires IdsOk(s) && Enabled(s, step)
    ensures IdsOk(Apply(s, step))
  {
    match step
    case Begin(command, args) => BeginIds(s, command, args);
    case Leave(n) => LeaveIds(s, n);
    case _ =>
      StepIds(s, step);
      forall n | n in s.calls ensures InFlight(s.calls[n]) <==> InFlight(Apply(s, step).calls[n]) {
        FlightKept(s, step, n);
      }
      SameIds(s, Apply(s, step));
  }

  lemma StepIds(s: Session, step: Step)
    requires Enabled(s, step) && !step.Begin? && !step.Leave?
    ensures var s' := Apply(s, step);
      s'.pending == s.pending && s'.next == s.next && s'.calls.Keys == s.calls.Keys
  {
  }

  lemma FlightKept(s: Session, step: Step, n: nat)
    requires Enabled(s, step) && !step.Begin? && !step.Leave? && n in s.calls
    ensures n in Apply(s, step).calls && (InFlight(s.calls[n]) <==> InFlight(Apply(s, step).calls[n]))
  {
  }

  lemma FirstReplyGrows(frames: seq<Frame>, f: Frame, id: string)
    ensures FirstReply(frames + [f], id) ==
      if FirstReply(frames, id).Some? then FirstReply(frames, id) else if Answers(f, id) then Some(f.reply) else None
  {
    assert (frames + [f])[..|frames|] == frames;
  }

  /** What makes a reply the first. */
  lemma {:induction false} FirstReplyMeans(frames: seq<Frame>, id: string)
    ensures match FirstReply(frames, id)
      case Some(r) => exists i :: 0 <= i < |frames| && frames[i] == ReplyFrame(r) && r.id == id && forall j :: 0 <= j < i ==> !Answers(frames[j], id)
      case None => forall i :: 0 <= i < |frames| ==> !Answers(frames[i], id)
  {
    if frames == [] {
    } else {
      var front, last := frames[..|frames| - 1], frames[|frames| - 1];
      FirstReplyMeans(front, id);
      var before := FirstReply(front, id);
      if before.Some? {
        var i :| 0 <= i < |front| && front[i] == ReplyFrame(before.value) && before.value.id == id && forall j :: 0 <= j < i ==> !Answers(front[j], id);
        assert frames[i] == front[i] && forall j :: 0 <= j < i ==> frames[j] == front[j];
      } else {
        assert forall j :: 0 <= j < |front| ==> frames[j] == front[j];
        assert frames[|front|] == last;
      }
    }
  }

  lemma FirstForGrows(s: Session, frame: Frame, n: nat)
    requires n in s.began && s.began[n] <= |s.read|
    ensures var s' := s.(read := s.read + [frame]);
      FirstFor(s', n) == if FirstFor(s, n).Some? then FirstFor(s, n) else if Answers(frame, Decimal(n)) then Some(frame.reply) else None
  {
    assert (s.read + [frame])[s.began[n]..] == s.read[s.began[n]..] + [frame];
    FirstReplyGrows(Since(s, n), frame, Decimal(n));
  }

  lemma ReceiveFrame(s: Session, frame: Frame, n: nat)
    requires n in s.began && s.began[n] <= |s.read|
    ensures var s' := Receive(s, frame);
      && s'.calls == s.calls && s'.began == s.began && |s.read| <= |s'.read|
      && FirstFor(s', n) == FirstFor(s.(read := s.read + [frame]), n)
  {
  }

  lemma PendingCall(s: Session, n: nat)
    requires IdsOk(s) && n in s.calls && InFlight(s.calls[n])
    ensures Decimal(n) in s.pending && s.pending[Decimal(n)] == n
  {
    DecimalInjective(n, s.pending[Decimal(n)]);
  }

  lemma ReceiveKeeps(s: Session, frame: Frame)
    requires IdsOk(s) && CallsOk(s) && s.pump == Reading
    ensures CallsOk(Receive(s, frame))
  {
    var s' := Receive(s, frame);
    forall n | n in s'.calls ensures CallOk(s', n) {
      ReceivedCall(s, frame, n);
    }
    if s'.pump.Holding? {
      ReceivedHeld(s, frame);
    }
  }

  lemma ReceivedHeld(s: Session, frame: Frame)
    requires IdsOk(s) && CallsOk(s) && s.pump == Reading && Receive(s, frame).pump.Holding?
    ensures var s' := Receive(s, frame); HeldOk(s', s'.pump.n, s'.pump.reply)
  {
    var n := s.pending[frame.reply.id];
    assert CallOk(s, n) && Answers(frame, Decimal(n));
    FirstForGrows(s, frame, n);
    ReceiveFrame(s, frame, n);
  }

  lemma ReceivedCall(s: Session, frame: Frame, n: nat)
    requires IdsOk(s) && n in s.calls && CallOk(s, n) && s.pump == Reading
    ensures n in Receive(s, frame).calls && CallOk(Receive(s, frame), n)
  {
    FirstForGrows(s, frame, n);
    ReceiveFrame(s, frame, n);
    if Active(s, n) {
      PendingCall(s, n);
    }
  }

  lemma CallKept(s: Session, step: Step, n: nat)
    requires Enabled(s, step) && !step.Read? && n in Apply(s, step).calls
    requires n in s.calls ==> CallOk(s, n)
    requires step.Begin? ==> s.next + 1 !in s.calls
    requires s.pump.Holding? ==> HeldOk(s, s.pump.n, s.pump.reply)
    ensures CallOk(Apply(s, step), n)
  {
    if n !in s.calls {
      NewCall(s, step, n);
    } else if step.Begin? {
      BeginOthers(s, step, n);
    } else {
      OldCall(s, step, n);
    }
  }

  lemma NewCall(s: Session, step: Step, n: nat)
    requires Enabled(s, step) && !step.Read? && n !in s.calls && n in Apply(s, step).calls
    ensures CallOk(Apply(s, step), n)
  {
  }

  lemma BeginOthers(s: Session, step: Step, n: nat)
    requires step.Begin? && n in s.calls && CallOk(s, n) && s.next + 1 !in s.calls
    ensures CallOk(Apply(s, step), n)
  {
  }

  lemma OldCall(s: Session, step: Step, n: nat)
    requires Enabled(s, step) && !step.Read? && !step.Begin? && n in s.calls && CallOk(s, n)
    requires s.pump.Holding? ==> HeldOk(s, s.pump.n, s.pump.reply)
    ensures n in Apply(s, step).calls && CallOk(Apply(s, step), n)
  {
    var s' := Apply(s, step);
    assert s'.read == s.read;
    if step.Deliver? {
      DeliverKeeps(s, n);
    }
  }

  lemma DeliverKeeps(s: Session, n: nat)
    requires Enabled(s, Deliver) && n in s.calls && CallOk(s, n) && HeldOk(s, s.pump.n, s.pump.reply)
    ensures n in Apply(s, Deliver).calls && CallOk(Apply(s, Deliver), n)
  {
  }

  lemma HeldKept(s: Session, step: Step)
    requires Enabled(s, step) && !step.Read? && (step.Begin? ==> s.next + 1 !in s.calls)
    requires s.pump.Holding? ==> HeldOk(s, s.pump.n, s.pump.reply)
    ensures var s' := Apply(s, step);
      s'.pump.Holding? ==> HeldOk(s', s'.pump.n, s'.pump.reply)
  {
  }

  lemma CallsKept(s: Session, step: Step)
    requires IdsOk(s) && CallsOk(s) && Enabled(s, step)
    ensures CallsOk(Apply(s, step))
  {
    if step.Read? {
      ReceiveKeeps(s, step.frame);
    } else {
      forall n | n in Apply(s, step).calls ensures CallOk(Apply(s, step), n) {
        CallKept(s, step, n);
      }
      HeldKept(s, step);
    }
  }

  lemma CloseKept(s: Session, step: Step)
    requires CloseOk(s) && Enabled(s, step)
    ensures CloseOk(Apply(s, step))
  {
  }

  lemma EventsRead(frames: seq<Frame>, f: Frame)
    ensures EventsIn(frames + [f]) == EventsIn(frames) + if f.EventFrame? then [f.event] else []
  {
    assert (frames + [f])[..|frames|] == frames;
  }

  lemma EventsReceived(s: Session, frame: Frame)
    requires EventsOk(s)
    ensures EventsOk(Receive(s, frame))
  {
    EventsRead(s.read, frame);
    var all := s.consumed + s.events;
    if frame.EventFrame? {
      SubsequenceGrows(all, EventsIn(s.read), frame.event);
      assert s.consumed + (s.events + [frame.event]) == all + [frame.event];
    } else {
      assert EventsIn(s.read) + [] == EventsIn(s.read);
    }
  }

  lemma EventsKept(s: Session, step: Step)
    requires EventsOk(s) && Enabled(s, step)
    ensures EventsOk(Apply(s, step))
  {
    var s' := Apply(s, step);
    if step.Read? {
      EventsReceived(s, step.frame);
    } else {
      EventsSame(s, step);
    }
  }

  lemma EventsSame(s: Session, step: Step)
    requires Enabled(s, step) && !step.Read?
    ensures Apply(s, step).consumed + Apply(s, step).events == s.consumed + s.events && Apply(s, step).read == s.read
  {
    if step.Consume? {
      assert s.events == [s.events[0]] + s.events[1..];
    }
  }

  lemma WritesKept(s: Session, step: Step)
    requires IdsOk(s) && WritesOk(s) && Enabled(s, step)
    ensures WritesOk(Apply(s, step))
  {
    var s' := Apply(s, step);
    if step.Write? {
      WriteKeeps(s);
    } else if step.Enqueue? {
      EnqueueKeeps(s, step.n);
    } else {
      QueueKept(s, step);
      forall n | n in s.queue + s.written ensures n in s'.calls && s'.calls[n].phase != Sending {
        PastSending(s, step, n);
      }
    }
  }

  lemma WriteKeeps(s: Session)
    requires WritesOk(s) && Enabled(s, Write)
    ensures WritesOk(Apply(s, Write))
  {
    var s' := Apply(s, Write);
    assert s'.written + s'.queue == s.written + s.queue;
    assert forall n :: n in s'.queue + s'.written ==> n in s.queue + s.written;
  }

  lemma EnqueueKeeps(s: Session, n: nat)
    requires WritesOk(s) && Enabled(s, Enqueue(n))
    ensures WritesOk(Apply(s, Enqueue(n)))
  {
    var s' := Apply(s, Enqueue(n));
    assert s'.written + s'.queue == (s.written + s.queue) + [n];
    assert n !in s.queue + s.written;
    assert forall i :: 0 <= i < |s.written + s.queue| ==> (s.written + s.queue)[i] in s.queue + s.written;
  }

  lemma QueueKept(s: Session, step: Step)
    requires Enabled(s, step) && !step.Write? && !step.Enqueue?
    ensures Apply(s, step).queue == s.queue && Apply(s, step).written == s.written
  {
  }

  lemma PastSending(s: Session, step: Step, n: nat)
    requires Enabled(s, step) && n in s.calls && s.calls[n].phase != Sending && (step.Begin? ==> s.next + 1 !in s.calls)
    ensures n in Apply(s, step).calls && Apply(s, step).calls[n].phase != Sending
  {
  }

  lemma StepKeeps(s: Session, step: Step)
    requires Inv(s) && Enabled(s, step)
    ensures Inv(Apply(s, step))
  {
    IdsKept(s, step);
    CallsKept(s, step);
    CloseKept(s, step);
    EventsKept(s, step);
    WritesKept(s, step);
  }

  // ---------- what a caller and an observer may rely on ----------

  ghost predicate IsRun(ss: seq<Session>, steps: seq<Step>) {
    && |ss| == |steps| + 1 && ss[0] == FRESH
    && forall i :: 0 <= i < |steps| ==> Enabled(ss[i], steps[i]) && ss[i + 1] == Apply(ss[i], steps[i])
  }

  lemma {:induction false} RunSafe(ss: seq<Session>, steps: seq<Step>, k: nat)
    requires IsRun(ss, steps) && k < |ss|
    ensures Inv(ss[k])
  {
    if k == 0 {
      assert EventsIn(FRESH.read) == [];
    } else {
      RunSafe(ss, steps, k - 1);
      assert ss[k - 1 + 1] == ss[k];
      StepKeeps(ss[k - 1], steps[k - 1]);
    }
  }

  /** A call that returned a reply returned one that carries its own id and came over the wire. */
  lemma ReturnedReply(s: Session, n: nat)
    requires CallsOk(s) && n in s.calls && s.calls[n].phase.Returned? && s.calls[n].phase.outcome.Replied?
    ensures OwnReply(s, n, s.calls[n].phase.outcome.reply)
  {
    var i := FirstReturned(s, n);
    assert s.read[i] in s.read;
  }

  /** The `i`-th frame read is the first since call `n` began that carries its id. */
  ghost predicate IsFirst(s: Session, n: nat, i: nat) {
    && n in s.began && s.began[n] <= i < |s.read| && Answers(s.read[i], Decimal(n))
    && forall j :: s.began[n] <= j < i ==> !Answers(s.read[j], Decimal(n))
  }

  lemma FirstAt(s: Session, n: nat, i: nat)
    requires IsFirst(s, n, i)
    ensures FirstFor(s, n) == Some(s.read[i].reply)
  {
    var b, frames := s.began[n], Since(s, n);
    FirstReplyMeans(frames, Decimal(n));
    assert frames[i - b] == s.read[i];
    var r := FirstFor(s, n).value;
    var k :| 0 <= k < |frames| && frames[k] == ReplyFrame(r) && r.id == Decimal(n) && forall j :: 0 <= j < k ==> !Answers(frames[j], Decimal(n));
    assert frames[k] == s.read[b + k];
    assert k == i - b;
  }

  /** The reply a call has taken is the first since it began. */
  lemma FirstReturned(s: Session, n: nat) returns (i: nat)
    requires CallsOk(s) && n in s.calls && (s.calls[n].phase.Leaving? || s.calls[n].phase.Returned?) && s.calls[n].phase.outcome.Replied?
    ensures IsFirst(s, n, i) && s.read[i] == ReplyFrame(s.calls[n].phase.outcome.reply)
  {
    assert CallOk(s, n);
    var b, frames, r := s.began[n], Since(s, n), s.calls[n].phase.outcome.reply;
    FirstReplyMeans(frames, Decimal(n));
    var k :| 0 <= k < |frames| && frames[k] == ReplyFrame(r) && r.id == Decimal(n) && forall j :: 0 <= j < k ==> !Answers(frames[j], Decimal(n));
    i := b + k;
    assert s.read[i] == frames[k];
    forall j | b <= j < i ensures !Answers(s.read[j], Decimal(n)) {
      assert s.read[j] == frames[j - b];
    }
  }

  /** Once the first reply has been read, result or rejection, a call that still waits has it in its
      slot, or the read pump has it in hand. */
  lemma FirstHeld(s: Session, n: nat, i: nat)
    requires CallsOk(s) && Active(s, n) && IsFirst(s, n, i)
    ensures s.calls[n].slot == Some(s.read[i].reply) || s.pump == Holding(n, s.read[i].reply)
  {
    assert CallOk(s, n);
    FirstAt(s, n, i);
  }

  /** And it can return it. */
  lemma FirstReturns(s: Session, n: nat, i: nat) returns (s': Session)
    requires CallsOk(s) && n in s.calls && s.calls[n].phase == Waiting && IsFirst(s, n, i)
    ensures s' == s || (Enabled(s, Deliver) && s' == Apply(s, Deliver))
    ensures Enabled(s', Take(n)) && Enabled(Apply(s', Take(n)), Leave(n))
    ensures Apply(Apply(s', Take(n)), Leave(n)).calls[n].phase == Returned(Replied(s.read[i].reply))
  {
    FirstHeld(s, n, i);
    assert CallOk(s, n);
    FirstAt(s, n, i);
    s' := if s.calls[n].slot.Some? then s else Apply(s, Deliver);
  }

  /** A reply that was read before its call began is not for that call, though it carries its number. */
  lemma EarlyReplyLost(r: Reply)
    requires r.id == Decimal(1)
    ensures var s1 := Apply(FRESH, Read(ReplyFrame(r)));
      var s2 := Apply(s1, Begin("ping", "{}"));
      WasRead(s2, r) && Active(s2, 1) && s2.calls[1].slot == None && s2.pump == Reading
  {
    assert FRESH.read + [ReplyFrame(r)] == [ReplyFrame(r)];
  }

  /** A call that gives up returns the outcome it gave up with. */
  lemma GaveUp(s: Session, n: nat, o: Outcome)
    requires Enabled(s, GiveUp(n, o))
    ensures Enabled(Apply(s, GiveUp(n, o)), Leave(n)) && Apply(Apply(s, GiveUp(n, o)), Leave(n)).calls[n].phase == Returned(o)
  {
  }

  /** A call gets past the write channel while fewer than 64 wait there. */
  lemma RoomToWrite(s: Session, n: nat)
    requires n in s.calls && s.calls[n].phase == Sending
    ensures Enabled(s, Enqueue(n)) <==> |s.queue| < 64
    ensures |s.queue| < 64 ==> Apply(s, Enqueue(n)).calls[n].phase == Waiting
  {
  }

  /** An event is queued while there is room for it, and dropped otherwise. */
  lemma EventQueued(s: Session, e: string)
    requires Enabled(s, Read(EventFrame(e)))
    ensures Apply(s, Read(EventFrame(e))).events == if |s.events| < 256 then s.events + [e] else s.events
    ensures Apply(s, Read(EventFrame(e))).pending == s.pending && Apply(s, Read(EventFrame(e))).pump == Reading
  {
  }

  /** Closing an open session records the reason and reaches its end: `done` is closed in between. */
  lemma CloseFinishes(s: Session, reason: string)
    requires CloseOk(s) && s.stage == Open
    ensures var s1 := Apply(s, Close(Some(reason)));
      && s1.err == Some(reason) && Enabled(s1, Advance)
      && var s2 := Apply(s1, Advance);
      && Done(s2) && s2.stage != Finished && Err(s2) == reason && Enabled(s2, Advance)
      && Apply(s2, Advance).stage == Finished && Err(Apply(s2, Advance)) == reason
  {
  }

  /** A failed read closes the session with its cause, and once that is done the pump ends. */
  lemma FailedReadCloses(s: Session, cause: string)
    requires CloseOk(s) && s.stage == Open && s.pump == Reading
    ensures var s1 := Apply(s, ReadFails(cause));
      && s1.err == Some(cause) && s1.stage == ReasonSet
      && var s3 := Apply(Apply(s1, Advance), Advance);
      && Enabled(s3, PumpSeesDone) && Enabled(Apply(s3, PumpSeesDone), PumpExits)
      && Apply(Apply(s3, PumpSeesDone), PumpExits).pump == Gone && Apply(Apply(s3, PumpSeesDone), PumpExits).err == Some(cause)
  {
  }

  // ---------- what a run leaves behind ----------

  function FramesOf(steps: seq<Step>): seq<Frame> {
    if steps == [] then []
    else
      var last := steps[|steps| - 1];
      FramesOf(steps[..|steps| - 1]) + if last.Read? then [last.frame] else []
  }

  function EnqueuedOf(steps: seq<Step>): seq<nat> {
    if steps == [] then []
    else
      var last := steps[|steps| - 1];
      EnqueuedOf(steps[..|steps| - 1]) + if last.Enqueue? then [last.n] else []
  }

  lemma StepTrace(s: Session, step: Step)
    requires Enabled(s, step)
    ensures Apply(s, step).read == s.read + if step.Read? then [step.frame] else []
  {
  }

  lemma WriteTrace(s: Session, step: Step)
    requires Enabled(s, step)
    ensures Apply(s, step).written + Apply(s, step).queue == s.written + s.queue + if step.Enqueue? then [step.n] else []
  {
    if step.Write? {
      assert s.queue == [s.queue[0]] + s.queue[1..];
    } else if !step.Enqueue? {
      QueueKept(s, step);
    }
  }

  /** Every frame read is on record, and the calls that got past the write channel are written in the
      order they got there, each of them: none is lost between the channel and the wire. */
  lemma {:induction false} RunTrace(ss: seq<Session>, steps: seq<Step>, k: nat)
    requires IsRun(ss, steps) && k < |ss|
    ensures ss[k].read == FramesOf(steps[..k])
    ensures ss[k].written + ss[k].queue == EnqueuedOf(steps[..k])
  {
    if k == 0 {
    } else {
      RunTrace(ss, steps, k - 1);
      assert ss[k - 1 + 1] == ss[k];
      assert steps[..k][..k - 1] == steps[..k - 1];
      StepTrace(ss[k - 1], steps[k - 1]);
      WriteTrace(ss[k - 1], steps[k - 1]);
    }
  }

  /** The reason, once recorded, stays: every later close and every later observer finds the first
      one, and `done` is never seen without it. */
  lemma FirstReasonWins(s: Session, step: Step)
    requires CloseOk(s) && Enabled(s, step)
    ensures s.err.Some? ==> Apply(s, step).err == s.err
    ensures s.err.None? && Apply(s, step).err.Some? ==>
      (step.ReadFails? && Apply(s, step).err == Some(step.cause)) || (step.Close? && Apply(s, step).err == step.reason)
    ensures Done(Apply(s, step)) ==> Apply(s, step).err.Some?
  {
    CloseKept(s, step);
    ReasonOnce(s, step);
  }

  lemma ReasonOnce(s: Session, step: Step)
    requires CloseOk(s) && Enabled(s, step)
    ensures s.err.Some? ==> Apply(s, step).err == s.err
    ensures s.err.None? && Apply(s, step).err.Some? ==>
      (step.ReadFails? && Apply(s, step).err == Some(step.cause)) || (step.Close? && Apply(s, step).err == step.reason)
  {
  }

  /** What the consumer has seen is an in-order selection of the events read off the wire. */
  lemma ConsumedInOrder(s: Session)
    requires EventsOk(s)
    ensures Subsequence(s.consumed, EventsIn(s.read))
  {
    SubsequencePrefix(s.consumed + s.events, |s.consumed|, EventsIn(s.read));
    assert (s.consumed + s.events)[..|s.consumed|] == s.consumed;
  }

  /** No caller is stuck once `done` is closed: it can give up with the recorded reason, and leave. */
  lemma NobodyStuck(s: Session, n: nat)
    requires CloseOk(s) && Done(s) && Active(s, n)
    ensures var give := GiveUp(n, Closed(Err(s)));
      && Enabled(s, give)
      && Enabled(Apply(s, give), Leave(n))
      && Apply(Apply(s, give), Leave(n)).calls[n].phase == Returned(Closed(s.err.value))
  {
  }

  /** A reply to nobody in flight, late or foreign, changes no call. */
  lemma StrayReply(s: Session, r: Reply)
    requires IdsOk(s) && s.pump == Reading
    requires forall n :: n in s.calls && InFlight(s.calls[n]) ==> r.id != Decimal(n)
    ensures Apply(s, Read(ReplyFrame(r))) == s.(read := s.read + [ReplyFrame(r)])
  {
    forall id | id in s.pending ensures id != r.id {
      assert id == Decimal(s.pending[id]) && InFlight(s.calls[s.pending[id]]);
    }
  }

  /** Nor does a second reply to a call whose first one is buffered. */
  lemma DuplicateReply(s: Session, n: nat, r: Reply)
    requires IdsOk(s) && CallsOk(s) && s.pump == Reading && Active(s, n) && s.calls[n].slot.Some? && r.id == Decimal(n)
    ensures var s1 := Apply(s, Read(ReplyFrame(r)));
      && Enabled(s1, Deliver)
      && Apply(s1, Deliver) == s.(read := s.read + [ReplyFrame(r)])
  {
    assert CallOk(s, n);
    var m := s.pending[r.id];
    assert m == n by {
      DecimalInjective(m, n);
    }
    var s1 := Apply(s, Read(ReplyFrame(r)));
    assert s1.calls == s.calls;
  }

  /** What a step may do to a call that exists: never its command or arguments, and nothing at all
      once it has returned except fill a slot nobody reads. */
  lemma CallsOnlyGrow(s: Session, step: Step, n: nat)
    requires s.next + 1 !in s.calls && Enabled(s, step) && n in s.calls
    ensures var s' := Apply(s, step);
      && n in s'.calls && s'.calls[n].command == s.calls[n].command && s'.calls[n].args == s.calls[n].args
      && (s.calls[n].phase.Returned? ==> s'.calls[n].phase == s.calls[n].phase)
      && s.read <= s'.read
  {
  }

  // ---------- the object ----------

  /** The client as the source has it, one method for each stretch of code that runs without
      another goroutine stepping in. */
  class MatterClient {
    var nextID: nat
    var calls: map<nat, Call>
    ghost var began: map<nat, nat>
    var pending: map<string, nat>
    var writeCh: seq<nat>
    var events: seq<string>
    var pump: Pump
    var stage: Stage
    var err: Option<string>
    ghost var written: seq<nat>
    ghost var read: seq<Frame>
    ghost var consumed: seq<string>

    ghost function State(): Session
      reads this
    {
      Session(nextID, calls, began, pending, writeCh, written, pump, read, events, consumed, stage, err)
    }

    constructor ()
      ensures State() == FRESH
    {
      nextID, calls, pending, writeCh, events := 0, map[], map[], [], [];
      pump, stage, err := Reading, Open, None;
      written, read, consumed, began := [], [], [], map[];
    }

    method BeginCall(command: string, args: string) returns (n: nat)
      modifies this
      ensures State() == Apply(old(State()), Begin(command, args)) && n == nextID
    {
      nextID := nextID + 1;
      n := nextID;
      calls, began := calls[n := Call(command, args, Sending, None)], began[n := |read|];
      pending := pending[Decimal(n) := n];
    }

    method EnqueueCall(n: nat)
      requires Enabled(State(), Enqueue(n))
      modifies this
      ensures State() == Apply(old(State()), Enqueue(n))
    {
      writeCh := writeCh + [n];
      calls := calls[n := calls[n].(phase := Waiting)];
    }

    method TakeReply(n: nat) returns (r: Reply)
      requires Enabled(State(), Take(n))
      modifies this
      ensures State() == Apply(old(State()), Take(n)) && Some(r) == old(calls)[n].slot
    {
      r := calls[n].slot.value;
      calls := calls[n := calls[n].(phase := Leaving(Replied(r)), slot := None)];
    }

    method GiveUpCall(n: nat, outcome: Outcome)
      requires Enabled(State(), GiveUp(n, outcome))
      modifies this
      ensures State() == Apply(old(State()), GiveUp(n, outcome))
    {
      calls := calls[n := calls[n].(phase := Leaving(outcome))];
    }

    method LeaveCall(n: nat) returns (outcome: Outcome)
      requires Enabled(State(), Leave(n))
      modifies this
      ensures State() == Apply(old(State()), Leave(n)) && old(calls)[n].phase == Leaving(outcome)
    {
      outcome := calls[n].phase.outcome;
      pending := pending - {Decimal(n)};
      calls := calls[n := calls[n].(phase := Returned(outcome))];
    }

    method PumpWrites()
      requires Enabled(State(), Write)
      modifies this
      ensures State() == Apply(old(State()), Write)
    {
      written := written + [writeCh[0]];
      writeCh := writeCh[1..];
    }

    method PumpReads(frame: Frame)
      requires Enabled(State(), Read(frame))
      modifies this
      ensures State() == Apply(old(State()), Read(frame))
    {
      read := read + [frame];
      match frame
      case ReplyFrame(r) =>
        if r.id in pending && pending[r.id] in calls {
          pump := Holding(pending[r.id], r);
        }
      case EventFrame(e) =>
        if |events| < EVENT_BUFFER {
          events := events + [e];
        }
      case Malformed =>
    }

    method PumpDelivers()
      requires Enabled(State(), Deliver)
      modifies this
      ensures State() == Apply(old(State()), Deliver)
    {
      var n := pump.n;
      if n in calls && calls[n].slot.None? {
        calls := calls[n := calls[n].(slot := Some(pump.reply))];
      }
      pump := Reading;
    }

    method CloseOnce(reason: Option<string>)
      modifies this
      ensures State() == CloseWith(old(State()), reason)
    {
      if stage == Open {
        stage := ReasonSet;
        if err.None? {
          err := reason;
        }
      }
    }

    method FinishClose()
      requires Enabled(State(), Advance)
      modifies this
      ensures State() == Apply(old(State()), Advance)
    {
      stage := if stage == ReasonSet then DoneClosed else Finished;
    }

    method PumpFails(cause: string)
      requires Enabled(State(), ReadFails(cause))
      modifies this
      ensures State() == Apply(old(State()), ReadFails(cause))
    {
      CloseOnce(Some(cause));
      pump := Closing;
    }

    /** The pump's deferred close finds the session closed already. */
    method PumpExit()
      requires Inv(State()) && Enabled(State(), PumpExits)
      modifies this
      ensures State() == Apply(old(State()), PumpExits) && err == old(err) && err.Some?
    {
      CloseOnce(None);
      pump := Gone;
    }

    method NextEvent() returns (e: string)
      requires Enabled(State(), Consume)
      modifies this
      ensures State() == Apply(old(State()), Consume) && e == old(events)[0]
    {
      e := events[0];
      events := events[1..];
      consumed := consumed + [e];
    }
  }
}
