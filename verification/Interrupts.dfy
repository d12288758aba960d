/**
 Calls, replies and signal interrupts between one client thread and the server
 thread that stands for it.

 A signal handler on the client runs between an interrupt_enter and an
 interrupt_exit call.  The reply to a call that the signal interrupted must reach
 the frame that waits for it, and only after that handler is done, although the
 reply may be produced while the handler is being entered, or may already have
 been sent, in which case the client pushes it back.

 One pass of `doWork` is one step here; `InterruptPasses` takes its end apart.
 */
module Interrupts {
  import opened Counting
  import opened Options

  type CallId = nat

  datatype Call = Normal(id: CallId) | InterruptEnter | InterruptExit

  datatype Reply = Answer(id: CallId) | EnterAck | ExitAck

  datatype Ctx = Ctx(savedReply: Option<Reply>, interruptedCall: Option<Call>)

  datatype Server = Server(
    pending: Option<Call>,
    active: Option<Call>,
    suspended: bool,
    continuation: bool,
    interrupts: seq<Ctx>,
    interruptedForSignal: bool,
    interruptedContinuation: bool,
    handlingInterruptedCall: bool,
    pendingCallOverride: bool,
    pendingSavedReply: Option<Reply>,
    pendingInterrupts: seq<Call>,
    outbox: seq<Reply>,
    thrown: bool)

  /** How the code of an ordinary call goes on when it is given the processor. */
  datatype How = Replies | Suspends(withContinuation: bool)

  datatype Message = Request(call: Call) | PushReply(reply: Reply)

  // ---------------------------------------------------------------- the server thread

  function Throw(s: Server): Server {
    s.(thrown := true)
  }

  function Top(s: Server): Ctx
    requires s.interrupts != []
  {
    s.interrupts[|s.interrupts| - 1]
  }

  function SetTop(s: Server, ctx: Ctx): Server
    requires s.interrupts != []
  {
    s.(interrupts := s.interrupts[|s.interrupts| - 1 := ctx])
  }

  /** `setPendingCall`: an interrupt_enter waits behind a pending call. */
  function SetPending(s: Server, call: Call): Server {
    if s.pending.None? then s.(pending := Some(call))
    else if call.InterruptEnter? then s.(pendingInterrupts := s.pendingInterrupts + [call])
    else Throw(s)
  }

  /** The push_reply branch of `callFromMessage`. */
  function SavePushed(s: Server, reply: Reply): Server {
    if s.pending == Some(InterruptEnter) then s.(pendingSavedReply := Some(reply))
    else if s.interrupts == [] || Top(s).savedReply.Some? then Throw(s)
    else SetTop(s, Ctx(Some(reply), Top(s).interruptedCall))
  }

  /** The call whose code is running: the interrupted one while interrupt_enter
      resumes it. */
  function CurrentCall(s: Server): (c: Option<Call>)
    ensures c.Some? && s.interruptedForSignal ==> s.interrupts != []
  {
    if !s.interruptedForSignal then s.active
    else if s.interrupts == [] then None
    else Top(s).interruptedCall
  }

  /** `_deactivateCallLocked` of the current call. */
  function Deactivated(s: Server): Server
    requires s.interruptedForSignal ==> s.interrupts != []
  {
    if s.interruptedForSignal then SetTop(s, Ctx(Top(s).savedReply, None)) else s.(active := None)
  }

  function KeepOrSend(s: Server, reply: Reply): Server
    requires s.interruptedForSignal ==> s.interrupts != []
  {
    if !s.interruptedForSignal then s.(outbox := s.outbox + [reply])
    else if Top(s).savedReply.Some? then Throw(s)
    else SetTop(s, Ctx(Some(reply), Top(s).interruptedCall))
  }

  /** `pushCallReply`. */
  function PushCallReply(s: Server, call: Call, reply: Reply): Server {
    if CurrentCall(s) != Some(call) then Throw(s) else KeepOrSend(Deactivated(s), reply)
  }

  /** The current call's code runs until it replies or suspends; a call that was
      interrupted hands over to the end of interrupt_enter. */
  function Continue(s: Server, how: How): Server {
    match how
    case Suspends(k) => s.(suspended := true, continuation := k)
    case Replies =>
      match CurrentCall(s)
      case Some(Normal(id)) =>
        var s1 := PushCallReply(s, Normal(id), Answer(id));
        if s.interruptedForSignal && !s1.thrown then FinishEnter(s1) else s1
      case _ => Throw(s)
  }

  /** The end of `_handleInterruptEnterForCurrentThread`, and the reply. */
  function FinishEnter(s: Server): Server
    requires s.interrupts != []
  {
    var s1 := s.(handlingInterruptedCall := false,
                 pendingCallOverride := s.pendingCallOverride && !s.handlingInterruptedCall,
                 interruptedForSignal := false);
    PushCallReply(SetTop(s1, Ctx(Top(s1).savedReply, None)), InterruptEnter, EnterAck)
  }

  /** A reply that was pushed back before interrupt_enter got to run. */
  function TakePushed(s: Server): Server
    requires s.interrupts != []
  {
    if s.pendingSavedReply.None? then s
    else SetTop(s, Ctx(s.pendingSavedReply, Top(s).interruptedCall)).(pendingSavedReply := None)
  }

  /** The call that interrupt_enter interrupts, if any, runs on. */
  function RunInterrupted(s: Server, how: How): Server
    requires s.interrupts != []
  {
    var s1 := s.(interruptedForSignal := true, interruptedContinuation := false);
    if s.interruptedContinuation then Continue(s1, how)
    else if Top(s).interruptedCall.Some? then
      Continue(s1.(handlingInterruptedCall := true, pendingCallOverride := true), how)
    else FinishEnter(s1)
  }

  /** `InterruptEnter::processCall`. */
  function EnterInterrupt(s: Server, how: How): Server {
    if s.interrupts == [] || (s.pendingSavedReply.Some? && Top(s).savedReply.Some?) then Throw(s)
    else RunInterrupted(TakePushed(s), how)
  }

  /** `InterruptExit::processCall`. */
  function ExitInterrupt(s: Server): Server {
    var s1 := PushCallReply(s, InterruptExit, ExitAck);
    if s1.thrown || s1.interrupts == [] then Throw(s1)
    else
      s1.(interrupts := s1.interrupts[..|s1.interrupts| - 1],
          outbox := s1.outbox + match Top(s1).savedReply { case Some(r) => [r] case None => [] })
  }

  function Process(s: Server, call: Call, how: How): Server {
    match call
    case Normal(_) => Continue(s, how)
    case InterruptEnter => EnterInterrupt(s, how)
    case InterruptExit => ExitInterrupt(s)
  }

  /** The interrupt context `doWork` opens for a pending interrupt_enter. */
  function OpenContext(s: Server): Server {
    if !s.pendingCallOverride && s.pending == Some(InterruptEnter) then
      s.(interrupts := s.interrupts + [Ctx(None, s.active)], active := None,
         interruptedContinuation := s.continuation, continuation := false)
    else s
  }

  /** A pass of `doWork` up to `doneWorking`. */
  function PassBody(s: Server, how: How): Server {
    var s1 := OpenContext(s);
    if s1.continuation && s1.pending.Some? then Throw(s1)
    else if s1.suspended && (s1.pendingCallOverride || s1.pending.None?) then
      Continue(s1.(suspended := false, continuation := false), how)
    else if s1.pending.None? then s1
    else Process(s1.(suspended := false, active := s1.pending, pending := None), s1.pending.value, how)
  }

  /** The end of a pass: an interrupt that waited behind the call is pending now. */
  function PassEnd(s: Server): Server {
    if s.thrown || s.pendingInterrupts == [] then s
    else if s.pending.Some? then Throw(s)
    else s.(pending := Some(s.pendingInterrupts[0]), pendingInterrupts := s.pendingInterrupts[1..])
  }

  /** One pass of `doWork`. */
  function DoWork(s: Server, how: How): Server {
    PassEnd(PassBody(s, how))
  }

  // ---------------------------------------------------------------- client and server

  /** A client frame: the program or a signal handler running, waiting for the
      reply to a call, waiting in interrupt_enter, waiting there until the server
      has taken a pushed reply, or waiting in interrupt_exit. */
  datatype Frame = Running | Waiting(id: CallId) | Entering | Pushing | Exiting

  /** `acked` is the byte in the reply-push pipe; `delivered` are the calls whose
      frame has got its reply, in order. */
  datatype System = System(srv: Server, frames: seq<Frame>, toServer: seq<Message>, acked: bool,
                           next: CallId, delivered: seq<CallId>, confused: bool)

  datatype Event = StartCall | Signal | HandlerReturns | ClientReceives | ReadAck | Deliver | Work(how: How)

  const IdleServer := Server(None, None, false, false, [], false, false, false, false, None, [], [], false)
  const Start := System(IdleServer, [Running], [], false, 0, [], false)

  function TopFrame(y: System): Frame
    requires y.frames != []
  {
    y.frames[|y.frames| - 1]
  }

  function SetTopFrame(y: System, f: Frame): System
    requires y.frames != []
  {
    y.(frames := y.frames[|y.frames| - 1 := f])
  }

  function Sends(y: System, m: Message): System {
    y.(toServer := y.toServer + [m])
  }

  /** What a frame does with the next reply on its socket. */
  function Receives(y: System, reply: Reply): System
    requires y.frames != []
  {
    match TopFrame(y)
    case Waiting(id) =>
      if reply == Answer(id) then SetTopFrame(y, Running).(delivered := y.delivered + [id]) else y.(confused := true)
    case Entering =>
      if reply == EnterAck then SetTopFrame(y, Running) else Sends(SetTopFrame(y, Pushing), PushReply(reply))
    case Exiting =>
      if reply == ExitAck then y.(frames := y.frames[..|y.frames| - 1]) else y.(confused := true)
    case _ => y
  }

  function Delivered(s: Server, m: Message): Server {
    match m
    case Request(call) => SetPending(s, call)
    case PushReply(reply) => SavePushed(s, reply)
  }

  // The events; one that is not possible changes nothing.

  function StartsCall(y: System): System
    requires y.frames != []
  {
    if !TopFrame(y).Running? then y
    else Sends(SetTopFrame(y, Waiting(y.next)), Request(Normal(y.next))).(next := y.next + 1)
  }

  function GetsSignal(y: System): System
    requires y.frames != []
  {
    if !TopFrame(y).Running? && !TopFrame(y).Waiting? then y
    else Sends(y.(frames := y.frames + [Entering]), Request(InterruptEnter))
  }

  function LeavesHandler(y: System): System
    requires y.frames != []
  {
    if !TopFrame(y).Running? || |y.frames| == 1 then y
    else Sends(SetTopFrame(y, Exiting), Request(InterruptExit))
  }

  function ReadsAck(y: System): System
    requires y.frames != []
  {
    if !TopFrame(y).Pushing? || !y.acked then y else SetTopFrame(y, Entering).(acked := false)
  }

  function ReceivesNext(y: System): System
    requires y.frames != []
  {
    if y.srv.outbox == [] || TopFrame(y).Running? || TopFrame(y).Pushing? then y
    else Receives(y.(srv := y.srv.(outbox := y.srv.outbox[1..])), y.srv.outbox[0])
  }

  function Delivers(y: System): System {
    if y.toServer == [] then y
    else y.(srv := Delivered(y.srv, y.toServer[0]), toServer := y.toServer[1..],
            acked := y.acked || y.toServer[0].PushReply?)
  }

  function Works(y: System, how: How): System {
    y.(srv := DoWork(y.srv, how))
  }

  function Step(y: System, ev: Event): System {
    if y.frames == [] then y
    else
      match ev
      case StartCall => StartsCall(y)
      case Signal => GetsSignal(y)
      case HandlerReturns => LeavesHandler(y)
      case ClientReceives => ReceivesNext(y)
      case ReadAck => ReadsAck(y)
      case Deliver => Delivers(y)
      case Work(how) => Works(y, how)
  }

  function Run(y: System, evs: seq<Event>): System
    decreases |evs|
  {
    if evs == [] then y else Run(Step(y, evs[0]), evs[1..])
  }

  // ---------------------------------------------------------------- the reachable states

  /** The context of a level whose interrupt_enter is done: it holds exactly the
      reply the frame below is waiting for. */
  function SavedFor(f: Frame): Option<Reply> {
    if f.Waiting? then Some(Answer(f.id)) else None
  }

  function Levels(frames: seq<Frame>): (cs: seq<Ctx>)
    ensures |cs| == |frames|
  {
    seq(|frames|, i requires 0 <= i < |frames| => Ctx(SavedFor(frames[i]), None))
  }

  function Idle(levels: seq<Ctx>, outbox: seq<Reply>): Server {
    IdleServer.(interrupts := levels, outbox := outbox)
  }

  /** A call, `behind` which the client has sent something else, on its way: sent,
      pending, suspended, or answered. */
  ghost predicate CallUnderWay(y: System, levels: seq<Ctx>, id: CallId, behind: seq<Message>) {
    || (y.toServer == [Request(Normal(id))] + behind && y.srv == Idle(levels, []))
    || (y.toServer == behind && y.srv == Idle(levels, []).(pending := Some(Normal(id))))
    || (y.toServer == behind && y.srv == SuspendedIn(levels, id, y.srv.continuation))
    || (y.toServer == behind && y.srv == Idle(levels, [Answer(id)]))
  }

  function SuspendedIn(levels: seq<Ctx>, id: CallId, k: bool): Server {
    Idle(levels, []).(active := Some(Normal(id)), suspended := true, continuation := k)
  }

  /** interrupt_enter has resumed the call it interrupts, and that has suspended again. */
  function ResumedInEnter(levels: seq<Ctx>, id: CallId, k: bool, h: bool): Server {
    Idle(levels + [Ctx(None, Some(Normal(id)))], []).
      (active := Some(InterruptEnter), suspended := true, continuation := k, interruptedForSignal := true,
       handlingInterruptedCall := h, pendingCallOverride := h)
  }

  ghost predicate EnteringOverRunning(y: System, below: seq<Ctx>) {
    || (y.toServer == [Request(InterruptEnter)] && y.srv == Idle(below, []))
    || (y.toServer == [] && y.srv == Idle(below, []).(pending := Some(InterruptEnter)))
    || (y.toServer == [] && y.srv == Idle(below + [Ctx(None, None)], [EnterAck]))
  }

  ghost predicate EnteringOverWaiting(y: System, below: seq<Ctx>, id: CallId) {
    || CallUnderWay(y, below, id, [Request(InterruptEnter)])
    || (y.toServer == [] && y.srv == EnterQueued(below, id))
    || (y.toServer == [] && EnterPending(y.srv, below, id))
    || (y.toServer == [] && y.srv == ResumedInEnter(below, id, y.srv.continuation, y.srv.pendingCallOverride))
    || (y.toServer == [] && y.srv == Idle(below + [Ctx(None, None)], [Answer(id), EnterAck]))
    || (y.toServer == [] && y.srv == Idle(below + [Ctx(Some(Answer(id)), None)], [EnterAck]))
  }

  /** An interrupt_enter waits behind the call it interrupts. */
  function EnterQueued(below: seq<Ctx>, id: CallId): Server {
    Idle(below, []).(pending := Some(Normal(id)), pendingInterrupts := [InterruptEnter])
  }

  /** An interrupt_enter is pending; the call it interrupts is suspended, answered
      on the wire, or answered and pushed back. */
  ghost predicate EnterPending(s: Server, below: seq<Ctx>, id: CallId) {
    || s == SuspendedIn(below, id, s.continuation).(pending := Some(InterruptEnter))
    || s == Idle(below, [Answer(id)]).(pending := Some(InterruptEnter))
    || s == Idle(below, []).(pending := Some(InterruptEnter), pendingSavedReply := Some(Answer(id)))
  }

  /** The client has pushed the answer back and not yet read the acknowledgement. */
  ghost predicate PushingOverWaiting(y: System, below: seq<Ctx>, id: CallId) {
    var push := PushReply(Answer(id));
    if y.acked then
      && y.toServer == []
      && (|| y.srv == Idle(below, []).(pending := Some(InterruptEnter), pendingSavedReply := Some(Answer(id)))
          || y.srv == Idle(below + [Ctx(Some(Answer(id)), None)], [EnterAck]))
    else
      || (y.toServer == [Request(InterruptEnter), push] && y.srv == Idle(below, []))
      || (y.toServer == [push] && y.srv == Idle(below, []).(pending := Some(InterruptEnter)))
      || (y.toServer == [push] && y.srv == Idle(below + [Ctx(None, None)], [EnterAck]))
  }

  ghost predicate ExitingOver(y: System, below: seq<Ctx>, f: Frame) {
    var here := below + [Ctx(SavedFor(f), None)];
    || (y.toServer == [Request(InterruptExit)] && y.srv == Idle(here, []))
    || (y.toServer == [] && y.srv == Idle(here, []).(pending := Some(InterruptExit)))
    || (y.toServer == [] && y.srv == Idle(below, [ExitAck] + if f.Waiting? then [Answer(f.id)] else []))
  }

  ghost predicate Inv(y: System) {
    && y.frames != [] && !y.confused
    && (forall i | 0 <= i < |y.frames| - 1 :: y.frames[i].Running? || y.frames[i].Waiting?)
    && (y.acked ==> TopFrame(y).Pushing?)
    && var n := |y.frames| - 1;
       match TopFrame(y)
       case Running => y.toServer == [] && y.srv == Idle(Levels(y.frames[..n]), [])
       case Waiting(id) => CallUnderWay(y, Levels(y.frames[..n]), id, [])
       case Entering =>
         && n > 0
         && var below := Levels(y.frames[..n - 1]);
            if y.frames[n - 1].Running? then EnteringOverRunning(y, below)
            else EnteringOverWaiting(y, below, y.frames[n - 1].id)
       case Pushing =>
         n > 0 && y.frames[n - 1].Waiting? && PushingOverWaiting(y, Levels(y.frames[..n - 1]), y.frames[n - 1].id)
       case Exiting =>
         n > 0 && ExitingOver(y, Levels(y.frames[..n - 1]), y.frames[n - 1])
  }

  // ---------------------------------------------------------------- one step at a time

  lemma LevelsSnoc(frames: seq<Frame>, n: nat)
    requires 0 < n <= |frames|
    ensures Levels(frames[..n]) == Levels(frames[..n - 1]) + [Ctx(SavedFor(frames[n - 1]), None)]
  {
  }

  lemma WorkOnCall(levels: seq<Ctx>, id: CallId, k: bool, how: How)
    ensures DoWork(Idle(levels, []).(pending := Some(Normal(id))), how) ==
            if how.Replies? then Idle(levels, [Answer(id)]) else SuspendedIn(levels, id, how.withContinuation)
    ensures DoWork(SuspendedIn(levels, id, k), how) ==
            if how.Replies? then Idle(levels, [Answer(id)]) else SuspendedIn(levels, id, how.withContinuation)
    ensures forall out :: DoWork(Idle(levels, out), how) == Idle(levels, out)
  {
  }

  /** interrupt_enter over a suspended call: the call runs on first, and whatever
      it replies is kept.  One that was suspended in the middle, with its stack, goes
      before any other call from then on. */
  lemma WorkOnEnterSuspended(levels: seq<Ctx>, id: CallId, k: bool, how: How)
    ensures DoWork(SuspendedIn(levels, id, k).(pending := Some(InterruptEnter)), how) ==
            if how.Replies? then Idle(levels + [Ctx(Some(Answer(id)), None)], [EnterAck])
            else ResumedInEnter(levels, id, how.withContinuation, !k)
  {
  }

  /** An interrupt_enter that waited becomes pending at the end of the pass. */
  lemma WorkOnQueued(levels: seq<Ctx>, id: CallId, how: How)
    ensures var s := PassBody(EnterQueued(levels, id), how);
            && s.pending.None? && s.pendingInterrupts == [InterruptEnter] && !s.thrown
            && EnterPending(DoWork(EnterQueued(levels, id), how), levels, id)
  {
  }

  lemma WorkOnResumed(levels: seq<Ctx>, id: CallId, k: bool, h: bool, how: How)
    ensures DoWork(ResumedInEnter(levels, id, k, h), how) ==
            if how.Replies? then Idle(levels + [Ctx(Some(Answer(id)), None)], [EnterAck])
            else ResumedInEnter(levels, id, how.withContinuation, h)
  {
  }

  /** interrupt_enter with no call to interrupt. */
  lemma WorkOnEnterIdle(levels: seq<Ctx>, out: seq<Reply>, pushed: Option<Reply>, how: How)
    ensures DoWork(Idle(levels, out).(pending := Some(InterruptEnter), pendingSavedReply := pushed), how)
         == Idle(levels + [Ctx(pushed, None)], out + [EnterAck])
  {
  }

  lemma WorkOnExit(levels: seq<Ctx>, saved: Option<Reply>, how: How)
    ensures DoWork(Idle(levels + [Ctx(saved, None)], []).(pending := Some(InterruptExit)), how)
         == Idle(levels, [ExitAck] + if saved.Some? then [saved.value] else [])
  {
  }

  /** A call that goes before the others is resumed even over a pending one, which stays
      pending. */
  lemma OverrideHoldsBack(s: Server, how: How)
    requires s.pendingCallOverride && s.suspended && !s.continuation
    ensures PassBody(s, how) == Continue(s.(suspended := false), how)
  {
    hide Continue;
    hide Process;
  }

  /** The interrupts behind a pending call wait in line: a new one joins at the end, and
      the end of a pass lets the first one go, or finds a call in its place and throws. */
  lemma InterruptsWaitInLine(s: Server)
    requires !s.thrown
    ensures s.pending.Some? ==>
              SetPending(s, InterruptEnter) == s.(pendingInterrupts := s.pendingInterrupts + [InterruptEnter])
    ensures s.pendingInterrupts != [] && s.pending.None? ==>
              var s' := PassEnd(s);
              [s'.pending.value] + s'.pendingInterrupts == s.pendingInterrupts && s' == s.(pending := s'.pending,
                                                                 pendingInterrupts := s'.pendingInterrupts)
    ensures PassEnd(s).thrown <==> s.pendingInterrupts != [] && s.pending.Some?
  {
  }

  /** What the program on the client may do: call from a frame that runs, get a signal in
      one that runs or waits, and return from a handler that runs. */
  lemma ClientMayAct(y: System)
    requires y.frames != []
    ensures TopFrame(y).Running? ==>
              var y' := StartsCall(y);
              && TopFrame(y') == Waiting(y.next) && y'.next == y.next + 1 && |y'.frames| == |y.frames|
              && y'.toServer == y.toServer + [Request(Normal(y.next))]
    ensures TopFrame(y).Running? || TopFrame(y).Waiting? ==>
              var y' := GetsSignal(y);
              y'.frames == y.frames + [Entering] && y'.toServer == y.toServer + [Request(InterruptEnter)]
    ensures TopFrame(y).Running? && |y.frames| > 1 ==>
              var y' := LeavesHandler(y);
              TopFrame(y') == Exiting && |y'.frames| == |y.frames|
              && y'.toServer == y.toServer + [Request(InterruptExit)]
  {
  }

  /** A frame is confused exactly by a reply that is not its own; only interrupt_enter
      expects another, and pushes it back. */
  lemma ConfusedIff(y: System, reply: Reply)
    requires y.frames != [] && !y.confused
    ensures var y' := Receives(y, reply);
            && (y'.confused <==> (TopFrame(y).Waiting? && reply != Answer(TopFrame(y).id)) ||
                                 (TopFrame(y).Exiting? && reply != ExitAck))
            && (y'.toServer == if TopFrame(y).Entering? && reply != EnterAck then y.toServer + [PushReply(reply)]
                               else y.toServer)
  {
  }

  lemma WorkUnderCall(y: System, levels: seq<Ctx>, id: CallId, behind: seq<Message>, how: How)
    requires CallUnderWay(y, levels, id, behind)
    ensures CallUnderWay(Works(y, how), levels, id, behind)
  {
    hide DoWork;
    WorkOnCall(levels, id, y.srv.continuation, how);
  }

  lemma WorkOverRunning(y: System, below: seq<Ctx>, how: How)
    requires EnteringOverRunning(y, below)
    ensures EnteringOverRunning(Works(y, how), below)
  {
    hide DoWork;
    WorkOnCall(y.srv.interrupts, 0, false, how);
    WorkOnEnterIdle(below, [], None, how);
  }

  lemma WorkOverWaiting(y: System, below: seq<Ctx>, id: CallId, how: How)
    requires EnteringOverWaiting(y, below, id)
    ensures EnteringOverWaiting(Works(y, how), below, id)
  {
    hide DoWork;
    hide CallUnderWay;
    if CallUnderWay(y, below, id, [Request(InterruptEnter)]) {
      WorkUnderCall(y, below, id, [Request(InterruptEnter)], how);
    } else {
      var s := y.srv;
      WorkOnCall(s.interrupts, id, false, how);
      WorkOnQueued(below, id, how);
      WorkOnEnterIdle(below, [Answer(id)], None, how);
      WorkOnEnterIdle(below, [], Some(Answer(id)), how);
      WorkOnEnterSuspended(below, id, s.continuation, how);
      WorkOnResumed(below, id, s.continuation, s.pendingCallOverride, how);
    }
  }

  lemma WorkWhilePushing(y: System, below: seq<Ctx>, id: CallId, how: How)
    requires PushingOverWaiting(y, below, id)
    ensures PushingOverWaiting(Works(y, how), below, id)
  {
    hide DoWork;
    WorkOnCall(y.srv.interrupts, 0, false, how);
    WorkOnEnterIdle(below, [], None, how);
    WorkOnEnterIdle(below, [], Some(Answer(id)), how);
  }

  lemma WorkWhileExiting(y: System, below: seq<Ctx>, f: Frame, how: How)
    requires ExitingOver(y, below, f)
    ensures ExitingOver(Works(y, how), below, f)
  {
    hide DoWork;
    WorkOnCall(y.srv.interrupts, 0, false, how);
    WorkOnExit(below, SavedFor(f), how);
  }

  lemma WorkKeepsInv(y: System, how: How)
    requires Inv(y)
    ensures Inv(Works(y, how))
  {
    hide DoWork;
    hide Levels;
    hide CallUnderWay;
    hide EnteringOverRunning;
    hide EnteringOverWaiting;
    hide PushingOverWaiting;
    hide ExitingOver;
    var n := |y.frames| - 1;
    match TopFrame(y)
    case Running => WorkOnCall(y.srv.interrupts, 0, false, how);
    case Waiting(id) => WorkUnderCall(y, Levels(y.frames[..n]), id, [], how);
    case Exiting => WorkWhileExiting(y, Levels(y.frames[..n - 1]), y.frames[n - 1], how);
    case Pushing => WorkWhilePushing(y, Levels(y.frames[..n - 1]), y.frames[n - 1].id, how);
    case Entering =>
      if y.frames[n - 1].Running? {
        WorkOverRunning(y, Levels(y.frames[..n - 1]), how);
      } else {
        WorkOverWaiting(y, Levels(y.frames[..n - 1]), y.frames[n - 1].id, how);
      }
  }

  lemma DeliverUnderCall(y: System, levels: seq<Ctx>, id: CallId, behind: seq<Message>)
    requires CallUnderWay(y, levels, id, behind) && (behind == [] || behind == [Request(InterruptEnter)])
    ensures var y' := Delivers(y);
            || CallUnderWay(y', levels, id, behind)
            || (behind != [] && y'.toServer == [] && y'.srv == EnterQueued(levels, id))
            || (behind != [] && y'.toServer == [] && EnterPending(y'.srv, levels, id))
  {
    hide SavePushed;
  }

  lemma DeliverWhileEntering(y: System, below: seq<Ctx>, f: Frame)
    requires if f.Waiting? then EnteringOverWaiting(y, below, f.id) else EnteringOverRunning(y, below)
    ensures var y' := Delivers(y);
            if f.Waiting? then EnteringOverWaiting(y', below, f.id) else EnteringOverRunning(y', below)
  {
    hide SavePushed;
    hide CallUnderWay;
    if f.Waiting? && CallUnderWay(y, below, f.id, [Request(InterruptEnter)]) {
      DeliverUnderCall(y, below, f.id, [Request(InterruptEnter)]);
    }
  }

  lemma DeliverWhilePushing(y: System, below: seq<Ctx>, id: CallId)
    requires PushingOverWaiting(y, below, id)
    ensures PushingOverWaiting(Delivers(y), below, id)
  {
  }

  lemma DeliverWhileExiting(y: System, below: seq<Ctx>, f: Frame)
    requires ExitingOver(y, below, f)
    ensures ExitingOver(Delivers(y), below, f)
  {
    hide SavePushed;
  }

  lemma DeliverAcks(y: System)
    ensures var y' := Delivers(y);
            && y'.frames == y.frames && y'.confused == y.confused && (y.acked ==> y'.acked)
            && (y'.acked && !y.acked ==> y.toServer != [] && y.toServer[0].PushReply?)
  {
    hide Delivered;
  }

  lemma DeliverKeepsInv(y: System)
    requires Inv(y)
    ensures Inv(Delivers(y))
  {
    DeliverAcks(y);
    var n := |y.frames| - 1;
    if TopFrame(y).Running? {
      hide Levels;
    } else if TopFrame(y).Waiting? {
      hide Delivers;
      hide Levels;
      DeliverUnderCall(y, Levels(y.frames[..n]), TopFrame(y).id, []);
    } else {
      hide Delivers;
      hide Levels;
      var below, f := Levels(y.frames[..n - 1]), y.frames[n - 1];
      if TopFrame(y).Entering? {
        DeliverWhileEntering(y, below, f);
      } else if TopFrame(y).Pushing? {
        DeliverWhilePushing(y, below, f.id);
      } else {
        DeliverWhileExiting(y, below, f);
      }
    }
  }

  /** In interrupt_enter the client gets its acknowledgement, or first the answer
      that was already on the wire, which it pushes back. */
  lemma ReceiveWhileEntering(y: System)
    requires Inv(y) && TopFrame(y).Entering?
    ensures Inv(ReceivesNext(y))
  {
    hide Levels;
    hide ExitingOver;
    var n := |y.frames| - 1;
    LevelsSnoc(y.frames, n);
    var y' := ReceivesNext(y);
    assert y'.frames[..n] == y.frames[..n] && y'.frames[..n - 1] == y.frames[..n - 1];
    if y.frames[n - 1].Waiting? {
      ReceiveOverWaiting(y, Levels(y.frames[..n - 1]), y.frames[n - 1].id);
      hide EnteringOverWaiting;
      hide PushingOverWaiting;
    }
  }

  lemma ReceiveOverWaiting(y: System, below: seq<Ctx>, id: CallId)
    requires y.frames != [] && TopFrame(y).Entering? && !y.acked && EnteringOverWaiting(y, below, id)
    ensures var y' := ReceivesNext(y);
            && y'.frames != []
            && (|| y' == y
                || (TopFrame(y').Pushing? && PushingOverWaiting(y', below, id) && !y'.acked)
                || (TopFrame(y').Running? && y'.toServer == []
                    && y'.srv == Idle(below + [Ctx(Some(Answer(id)), None)], [])))
  {
  }

  /** In interrupt_exit it gets the acknowledgement, and behind it the answer. */
  lemma ReceiveWhileExiting(y: System)
    requires Inv(y) && TopFrame(y).Exiting?
    ensures Inv(ReceivesNext(y))
  {
    hide Levels;
    hide EnteringOverRunning;
    hide EnteringOverWaiting;
    hide PushingOverWaiting;
    var n := |y.frames| - 1;
    assert y.frames[..n][..n - 1] == y.frames[..n - 1];
  }

  lemma ReceiveWhileWaiting(y: System)
    requires Inv(y) && TopFrame(y).Waiting?
    ensures Inv(ReceivesNext(y))
  {
    hide Levels;
    hide EnteringOverRunning;
    hide EnteringOverWaiting;
    hide PushingOverWaiting;
    hide ExitingOver;
    var n := |y.frames| - 1;
    assert ReceivesNext(y).frames[..n] == y.frames[..n];
  }

  lemma ReceiveKeepsInv(y: System)
    requires Inv(y)
    ensures Inv(ReceivesNext(y))
  {
    match TopFrame(y)
    case Entering => ReceiveWhileEntering(y);
    case Exiting => ReceiveWhileExiting(y);
    case Waiting(_) => ReceiveWhileWaiting(y);
    case Running => hide Inv;
    case Pushing => hide Inv;
  }

  lemma StartCallKeepsInv(y: System)
    requires Inv(y)
    ensures Inv(StartsCall(y))
  {
    hide Levels;
    var n := |y.frames| - 1;
    assert StartsCall(y).frames[..n] == y.frames[..n];
  }

  lemma SignalKeepsInv(y: System)
    requires Inv(y)
    ensures Inv(GetsSignal(y))
  {
    hide Levels;
    var n := |y.frames| - 1;
    var y' := GetsSignal(y);
    assert |y'.frames| == n + 2 ==> y'.frames[..n] == y.frames[..n];
  }

  lemma HandlerReturnKeepsInv(y: System)
    requires Inv(y)
    ensures Inv(LeavesHandler(y))
  {
    hide Levels;
    var n := |y.frames| - 1;
    if n > 0 {
      LevelsSnoc(y.frames, n);
      assert LeavesHandler(y).frames[..n - 1] == y.frames[..n - 1];
    }
  }

  lemma ReadAckKeepsInv(y: System)
    requires Inv(y)
    ensures Inv(ReadsAck(y))
  {
    hide Levels;
    var n := |y.frames| - 1;
    if n > 0 {
      assert ReadsAck(y).frames[..n - 1] == y.frames[..n - 1];
    }
  }

  lemma StepKeepsInv(y: System, ev: Event)
    requires Inv(y)
    ensures Inv(Step(y, ev))
  {
    hide StartsCall;
    hide GetsSignal;
    hide LeavesHandler;
    hide ReceivesNext;
    hide ReadsAck;
    hide Delivers;
    hide Works;
    hide Inv;
    match ev
    case StartCall => StartCallKeepsInv(y);
    case Signal => SignalKeepsInv(y);
    case HandlerReturns => HandlerReturnKeepsInv(y);
    case ClientReceives => ReceiveKeepsInv(y);
    case ReadAck => ReadAckKeepsInv(y);
    case Deliver => DeliverKeepsInv(y);
    case Work(how) => WorkKeepsInv(y, how);
  }

  // ---------------------------------------------------------------- every run

  lemma {:induction false} RunKeepsInv(y: System, evs: seq<Event>)
    requires Inv(y)
    ensures Inv(Run(y, evs))
    decreases |evs|
  {
    hide Inv;
    hide Step;
    if evs != [] {
      StepKeepsInv(y, evs[0]);
      RunKeepsInv(Step(y, evs[0]), evs[1..]);
    }
  }

  lemma NotThrown(y: System)
    requires Inv(y)
    ensures !y.srv.thrown
  {
    hide Levels;
  }

  /** What a message that reaches the server does: it is not refused, a request
      becomes the pending call or waits as the only one behind it, and a reply that was
      pushed back is kept. */
  lemma DeliverySucceeds(y: System)
    requires Inv(y) && y.toServer != []
    ensures var y' := Delivers(y);
            && Inv(y') && !y'.srv.thrown && y'.srv == Delivered(y.srv, y.toServer[0])
            && (y.toServer[0].Request? ==> Accepted(y.srv, y'.srv, y.toServer[0].call))
            && (y.toServer[0].PushReply? ==> Kept(y'.srv, y.toServer[0].reply))
  {
    DeliverKeepsInv(y);
    NotThrown(Delivers(y));
    NothingQueued(y);
    hide Inv;
    if y.toServer[0].Request? {
      RequestAccepted(y.srv, y.toServer[0].call);
    } else {
      ReplyKept(y.srv, y.toServer[0].reply);
    }
  }

  predicate Accepted(s: Server, s': Server, call: Call) {
    if s.pending.None? then s'.pending == Some(call) && s'.pendingInterrupts == s.pendingInterrupts
    else call.InterruptEnter? && s'.pending == s.pending && s'.pendingInterrupts == [call]
  }

  predicate Kept(s: Server, reply: Reply) {
    s.pendingSavedReply == Some(reply) || (s.interrupts != [] && Top(s).savedReply == Some(reply))
  }

  /** While a message is on its way nothing waits behind a pending call. */
  lemma NothingQueued(y: System)
    requires Inv(y) && y.toServer != []
    ensures y.srv.pendingInterrupts == []
  {
    hide Levels;
  }

  lemma RequestAccepted(s: Server, call: Call)
    requires !SetPending(s, call).thrown && s.pendingInterrupts == []
    ensures Accepted(s, SetPending(s, call), call)
  {
  }

  lemma ReplyKept(s: Server, reply: Reply)
    requires !SavePushed(s, reply).thrown
    ensures Kept(SavePushed(s, reply), reply)
  {
    assert Throw(s).thrown && Kept(s.(pendingSavedReply := Some(reply)), reply);
    if s.interrupts != [] {
      assert Kept(SetTop(s, Ctx(Some(reply), Top(s).interruptedCall)), reply);
    }
    hide Kept;
    hide SetTop;
    hide Throw;
  }

  /** However calls, signals, handlers and passes of the server interleave: no check
      on the server throws, and the client never sees a reply it does not expect. */
  lemma NothingGoesWrong(evs: seq<Event>)
    ensures var y := Run(Start, evs);
            Inv(y) && !y.srv.thrown && !y.confused
  {
    assert Levels(Start.frames[..0]) == [];
    RunKeepsInv(Start, evs);
    NotThrown(Run(Start, evs));
  }

  /** When the acknowledgement of interrupt_exit is on the wire, the answer for the
      frame below, if it waits for one, is directly behind it, and nothing else is. */
  lemma AnswerRightAfterExit(y: System)
    requires Inv(y) && TopFrame(y).Exiting? && y.srv.outbox != []
    ensures var f := y.frames[|y.frames| - 2];
            y.srv.outbox == [ExitAck] + if f.Waiting? then [Answer(f.id)] else []
  {
  }

  // ---------------------------------------------------------------- exactly once

  function WaitingFor(frames: seq<Frame>, id: CallId): nat {
    if frames == [] then 0
    else WaitingFor(frames[..|frames| - 1], id) + One(frames[|frames| - 1] == Waiting(id))
  }

  function Occurs(ids: seq<CallId>, id: CallId): nat {
    if ids == [] then 0 else Occurs(ids[..|ids| - 1], id) + One(ids[|ids| - 1] == id)
  }

  function InContexts(cs: seq<Ctx>, id: CallId): nat {
    if cs == [] then 0
    else
      var c := cs[|cs| - 1];
      InContexts(cs[..|cs| - 1], id) +
      One(c.savedReply == Some(Answer(id))) + One(c.interruptedCall == Some(Normal(id)))
  }

  function InMessages(ms: seq<Message>, id: CallId): nat {
    if ms == [] then 0
    else One(ms[0] == Request(Normal(id)) || ms[0] == PushReply(Answer(id))) + InMessages(ms[1..], id)
  }

  function InReplies(rs: seq<Reply>, id: CallId): nat {
    if rs == [] then 0 else One(rs[0] == Answer(id)) + InReplies(rs[1..], id)
  }

  /** In how many places on the server the call, or its answer, currently is. */
  function CopiesOnServer(s: Server, id: CallId): nat {
    One(s.pending == Some(Normal(id))) + One(Normal(id) in s.pendingInterrupts) + One(s.active == Some(Normal(id))) +
    InContexts(s.interrupts, id) + One(s.pendingSavedReply == Some(Answer(id))) + InReplies(s.outbox, id)
  }

  /** And anywhere. */
  function Copies(y: System, id: CallId): nat {
    InMessages(y.toServer, id) + CopiesOnServer(y.srv, id)
  }

  lemma ShortLists(id: CallId)
    ensures InMessages([], id) == 0 && InReplies([], id) == 0
    ensures forall m :: InMessages([m], id) == One(m == Request(Normal(id)) || m == PushReply(Answer(id)))
    ensures forall m, m' :: InMessages([m, m'], id) == InMessages([m], id) + InMessages([m'], id)
    ensures forall r :: InReplies([r], id) == One(r == Answer(id))
    ensures forall r, r' :: InReplies([r, r'], id) == InReplies([r], id) + InReplies([r'], id)
  {
    forall m, m'
      ensures InMessages([m, m'], id) == InMessages([m], id) + InMessages([m'], id)
    {
      assert [m, m'][1..] == [m'];
    }
    forall r, r'
      ensures InReplies([r, r'], id) == InReplies([r], id) + InReplies([r'], id)
    {
      assert [r, r'][1..] == [r'];
    }
  }

  lemma ContextSnoc(cs: seq<Ctx>, c: Ctx, id: CallId)
    ensures InContexts(cs + [c], id) ==
            InContexts(cs, id) + One(c.savedReply == Some(Answer(id))) + One(c.interruptedCall == Some(Normal(id)))
  {
    assert (cs + [c])[..|cs|] == cs;
  }

  lemma {:induction false} RepliesSnoc(rs: seq<Reply>, r: Reply, id: CallId)
    ensures InReplies(rs + [r], id) == InReplies(rs, id) + One(r == Answer(id))
  {
    if rs == [] {
      assert rs + [r] == [r] && [r][1..] == [];
    } else {
      assert (rs + [r])[1..] == rs[1..] + [r];
      RepliesSnoc(rs[1..], r, id);
    }
  }

  lemma TopContext(s: Server, ctx: Ctx, id: CallId)
    requires s.interrupts != []
    ensures InContexts(SetTop(s, ctx).interrupts, id) ==
            InContexts(s.interrupts[..|s.interrupts| - 1], id) +
            One(ctx.savedReply == Some(Answer(id))) + One(ctx.interruptedCall == Some(Normal(id)))
  {
    var cs := s.interrupts[..|s.interrupts| - 1];
    assert SetTop(s, ctx).interrupts == cs + [ctx];
    ContextSnoc(cs, ctx, id);
  }

  lemma SentReplacesCall(s: Server, own: CallId, id: CallId)
    requires !s.interruptedForSignal && s.active == Some(Normal(own))
    ensures var s' := s.(active := None, outbox := s.outbox + [Answer(own)]);
            PushCallReply(s, Normal(own), Answer(own)) == s' && CopiesOnServer(s', id) == CopiesOnServer(s, id)
  {
    hide InContexts;
    hide InReplies;
    RepliesSnoc(s.outbox, Answer(own), id);
  }

  lemma SavedReplacesCall(s: Server, own: CallId, id: CallId)
    requires s.interruptedForSignal && s.interrupts != [] && Top(s) == Ctx(None, Some(Normal(own)))
    ensures var s' := SetTop(s, Ctx(Some(Answer(own)), None));
            PushCallReply(s, Normal(own), Answer(own)) == s' && CopiesOnServer(s', id) == CopiesOnServer(s, id)
  {
    hide InContexts;
    hide InReplies;
    var n := |s.interrupts| - 1;
    var s1 := Deactivated(s);
    assert s1.interrupts == s.interrupts[n := Ctx(None, None)];
    assert KeepOrSend(s1, Answer(own)) == SetTop(s, Ctx(Some(Answer(own)), None)) by {
      assert s1.interrupts[n := Ctx(Some(Answer(own)), None)] == s.interrupts[n := Ctx(Some(Answer(own)), None)];
    }
    TopContext(s, Ctx(Some(Answer(own)), None), id);
    TopContext(s, Top(s), id);
    assert SetTop(s, Top(s)).interrupts == s.interrupts;
  }

  /** The answer takes the place of its call, whether it is sent or saved: nothing is
      lost and nothing doubled. */
  lemma AnswerReplacesCall(s: Server, own: CallId, id: CallId)
    requires !s.thrown && !PushCallReply(s, Normal(own), Answer(own)).thrown
    ensures CopiesOnServer(PushCallReply(s, Normal(own), Answer(own)), id) == CopiesOnServer(s, id)
  {
    hide CopiesOnServer;
    if s.interruptedForSignal {
      assert s.interrupts != [] && Top(s) == Ctx(None, Some(Normal(own)));
      SavedReplacesCall(s, own, id);
    } else {
      SentReplacesCall(s, own, id);
    }
  }

  /** interrupt_exit takes a saved answer out of its context and sends it. */
  lemma ExitMovesAnswer(s: Server, id: CallId)
    requires !s.thrown && !ExitInterrupt(s).thrown && s.active == Some(InterruptExit) && !s.interruptedForSignal
    requires s.interrupts != [] && Top(s).interruptedCall.None?
    ensures CopiesOnServer(ExitInterrupt(s), id) == CopiesOnServer(s, id)
    ensures ExitInterrupt(s).outbox ==
            s.outbox + [ExitAck] + match Top(s).savedReply { case Some(r) => [r] case None => [] }
  {
    hide InContexts;
    hide InReplies;
    var n := |s.interrupts| - 1;
    assert s.interrupts == s.interrupts[..n] + [Top(s)];
    ContextSnoc(s.interrupts[..n], Top(s), id);
    RepliesSnoc(s.outbox, ExitAck, id);
    if Top(s).savedReply.Some? {
      RepliesSnoc(s.outbox + [ExitAck], Top(s).savedReply.value, id);
    } else {
      assert s.outbox + [ExitAck] + [] == s.outbox + [ExitAck];
    }
  }

  lemma {:induction false} LevelsHoldAnswers(frames: seq<Frame>, id: CallId)
    ensures InContexts(Levels(frames), id) == WaitingFor(frames, id)
  {
    if frames != [] {
      var n := |frames|;
      LevelsHoldAnswers(frames[..n - 1], id);
      LevelsSnoc(frames, n);
      assert frames[..n] == frames;
      ContextSnoc(Levels(frames[..n - 1]), Ctx(SavedFor(frames[n - 1]), None), id);
    }
  }

  lemma CopiesUnderCall(y: System, levels: seq<Ctx>, own: CallId, behind: seq<Message>, id: CallId)
    requires CallUnderWay(y, levels, own, behind) && (behind == [] || behind == [Request(InterruptEnter)])
    ensures Copies(y, id) == InContexts(levels, id) + One(own == id)
  {
    hide InMessages;
    hide InReplies;
    hide InContexts;
    ShortLists(id);
    assert [Request(Normal(own))] + [] == [Request(Normal(own))];
    assert [Request(Normal(own))] + [Request(InterruptEnter)] == [Request(Normal(own)), Request(InterruptEnter)];
  }

  lemma CopiesEnterPending(y: System, below: seq<Ctx>, own: CallId, id: CallId)
    requires y.toServer == [] && EnterPending(y.srv, below, own)
    ensures Copies(y, id) == InContexts(below, id) + One(own == id)
  {
    hide InMessages;
    hide InReplies;
    hide InContexts;
    ShortLists(id);
  }

  lemma CopiesWhileEntering(y: System, below: seq<Ctx>, own: CallId, id: CallId)
    requires EnteringOverWaiting(y, below, own)
    ensures Copies(y, id) == InContexts(below, id) + One(own == id)
  {
    hide InMessages;
    hide InReplies;
    hide InContexts;
    hide CallUnderWay;
    hide EnterPending;
    ShortLists(id);
    if CallUnderWay(y, below, own, [Request(InterruptEnter)]) {
      CopiesUnderCall(y, below, own, [Request(InterruptEnter)], id);
    } else if EnterPending(y.srv, below, own) {
      CopiesEnterPending(y, below, own, id);
    } else {
      ContextSnoc(below, Ctx(None, Some(Normal(own))), id);
      ContextSnoc(below, Ctx(None, None), id);
      ContextSnoc(below, Ctx(Some(Answer(own)), None), id);
    }
  }

  lemma CopiesOverRunning(y: System, below: seq<Ctx>, id: CallId)
    requires EnteringOverRunning(y, below)
    ensures Copies(y, id) == InContexts(below, id)
  {
    hide InMessages;
    hide InReplies;
    hide InContexts;
    ShortLists(id);
    ContextSnoc(below, Ctx(None, None), id);
  }

  lemma CopiesWhilePushing(y: System, below: seq<Ctx>, own: CallId, id: CallId)
    requires PushingOverWaiting(y, below, own)
    ensures Copies(y, id) == InContexts(below, id) + One(own == id)
  {
    hide InMessages;
    hide InReplies;
    hide InContexts;
    ShortLists(id);
    ContextSnoc(below, Ctx(None, None), id);
    ContextSnoc(below, Ctx(Some(Answer(own)), None), id);
  }

  lemma CopiesWhileExiting(y: System, below: seq<Ctx>, f: Frame, id: CallId)
    requires ExitingOver(y, below, f)
    ensures Copies(y, id) == InContexts(below, id) + One(f == Waiting(id))
  {
    hide InMessages;
    hide InReplies;
    hide InContexts;
    ShortLists(id);
    ContextSnoc(below, Ctx(SavedFor(f), None), id);
    assert [ExitAck] + [] == [ExitAck];
    assert f.Waiting? ==> [ExitAck] + [Answer(f.id)] == [ExitAck, Answer(f.id)];
  }

  /** A call for which a frame waits exists in exactly one place, as a request, a
      call in progress, or an answer; any other call in none. */
  lemma OneCopy(y: System, id: CallId)
    requires Inv(y)
    ensures Copies(y, id) == WaitingFor(y.frames, id)
  {
    hide Levels;
    hide Copies;
    hide CallUnderWay;
    hide EnteringOverRunning;
    hide EnteringOverWaiting;
    hide PushingOverWaiting;
    hide ExitingOver;
    var n := |y.frames| - 1;
    var levels := Levels(y.frames[..n]);
    LevelsHoldAnswers(y.frames[..n], id);
    if TopFrame(y).Running? {
      CopiesAtRest(y, id);
    } else if TopFrame(y).Waiting? {
      CopiesUnderCall(y, levels, TopFrame(y).id, [], id);
    } else {
      var below, f := Levels(y.frames[..n - 1]), y.frames[n - 1];
      LevelsHoldAnswers(y.frames[..n - 1], id);
      assert y.frames[..n][..n - 1] == y.frames[..n - 1];
      if TopFrame(y).Exiting? {
        CopiesWhileExiting(y, below, f, id);
      } else if TopFrame(y).Pushing? {
        CopiesWhilePushing(y, below, f.id, id);
      } else if f.Running? {
        CopiesOverRunning(y, below, id);
      } else {
        CopiesWhileEntering(y, below, f.id, id);
      }
    }
  }

  lemma CopiesAtRest(y: System, id: CallId)
    requires y.toServer == [] && y.srv == Idle(y.srv.interrupts, [])
    ensures Copies(y, id) == InContexts(y.srv.interrupts, id)
  {
  }

  /** Every call ever started has either been answered to its frame, once, or is
      waited for by one frame. */
  ghost predicate Accounted(y: System) {
    forall id: CallId :: Occurs(y.delivered, id) + WaitingFor(y.frames, id) == One(id < y.next)
  }

  lemma WaitingAfter(frames: seq<Frame>, f: Frame, id: CallId)
    ensures WaitingFor(frames + [f], id) == WaitingFor(frames, id) + One(f == Waiting(id))
  {
    assert (frames + [f])[..|frames|] == frames;
  }

  /** One call, over a step that changes the top frame. */
  lemma AccountOf(y: System, y': System, id: CallId)
    requires y.frames != [] && y'.frames != [] && Accounted(y)
    requires |y'.frames| == |y.frames| && y'.frames[..|y.frames| - 1] == y.frames[..|y.frames| - 1]
    requires y'.delivered ==
             if TopFrame(y).Waiting? && !TopFrame(y').Waiting? then y.delivered + [TopFrame(y).id] else y.delivered
    requires TopFrame(y').Waiting? ==>
               TopFrame(y') == TopFrame(y) || (!TopFrame(y).Waiting? && TopFrame(y') == Waiting(y.next))
    requires y'.next == y.next + One(!TopFrame(y).Waiting? && TopFrame(y').Waiting?)
    ensures Occurs(y'.delivered, id) + WaitingFor(y'.frames, id) == One(id < y'.next)
  {
    var n := |y.frames| - 1;
    assert Occurs(y.delivered, id) + WaitingFor(y.frames, id) == One(id < y.next);
    assert Occurs(y.delivered, y.next) + WaitingFor(y.frames, y.next) == 0;
    if |y'.delivered| > |y.delivered| {
      assert y'.delivered[..|y.delivered|] == y.delivered;
    } else {
      assert y'.delivered == y.delivered;
    }
  }

  /** The part of a step that the account depends on. */
  ghost predicate AccountStep(y: System, y': System) {
    y.frames != [] && y'.frames != [] &&
    var n := |y.frames| - 1;
    var was, top := TopFrame(y), TopFrame(y');
    || (y'.frames == y.frames && y'.delivered == y.delivered && y'.next == y.next)
    || (y'.frames == y.frames + [Entering] && y'.delivered == y.delivered && y'.next == y.next)
    || (y'.frames == y.frames[..n] && was.Exiting? && y'.delivered == y.delivered && y'.next == y.next)
    || (&& |y'.frames| == n + 1 && y'.frames[..n] == y.frames[..n]
        && y'.delivered == (if was.Waiting? && !top.Waiting? then y.delivered + [was.id] else y.delivered)
        && (top.Waiting? ==> top == was || (!was.Waiting? && top == Waiting(y.next)))
        && y'.next == y.next + One(!was.Waiting? && top.Waiting?))
  }

  lemma StepsAccount(y: System, ev: Event)
    requires y.frames != [] && (TopFrame(y).Exiting? ==> |y.frames| > 1)
    ensures AccountStep(y, Step(y, ev))
  {
    hide DoWork;
    hide Delivered;
  }

  lemma AccountKept(y: System, y': System)
    requires Accounted(y) && AccountStep(y, y')
    ensures Accounted(y')
  {
    hide Occurs;
    hide WaitingFor;
    var n := |y.frames| - 1;
    forall id: CallId
      ensures Occurs(y'.delivered, id) + WaitingFor(y'.frames, id) == One(id < y'.next)
    {
      assert y.frames == y.frames[..n] + [TopFrame(y)];
      WaitingAfter(y.frames, Entering, id);
      WaitingAfter(y.frames[..n], TopFrame(y), id);
      if |y'.frames| == n + 1 {
        AccountOf(y, y', id);
      }
    }
  }

  lemma StepKeepsAccount(y: System, ev: Event)
    requires Inv(y) && Accounted(y)
    ensures Accounted(Step(y, ev))
  {
    InvHasFrames(y);
    hide Inv;
    hide Accounted;
    StepsAccount(y, ev);
    hide Step;
    AccountKept(y, Step(y, ev));
  }

  lemma InvHasFrames(y: System)
    requires Inv(y)
    ensures y.frames != [] && (TopFrame(y).Exiting? ==> |y.frames| > 1)
  {
  }

  lemma {:induction false} RunKeepsAccount(y: System, evs: seq<Event>)
    requires Inv(y) && Accounted(y)
    ensures Inv(Run(y, evs)) && Accounted(Run(y, evs))
    decreases |evs|
  {
    hide Inv;
    hide Step;
    hide Accounted;
    if evs != [] {
      StepKeepsInv(y, evs[0]);
      StepKeepsAccount(y, evs[0]);
      RunKeepsAccount(Step(y, evs[0]), evs[1..]);
    }
  }

  /** In every run, each call is answered to its frame at most once, and until then
      it exists in exactly one place, so its answer is neither lost nor doubled. */
  lemma ExactlyOnce(evs: seq<Event>, id: CallId)
    ensures var y := Run(Start, evs);
            && Occurs(y.delivered, id) + WaitingFor(y.frames, id) == One(id < y.next)
            && Copies(y, id) == WaitingFor(y.frames, id)
  {
    assert Levels(Start.frames[..0]) == [];
    forall i: CallId
      ensures WaitingFor(Start.frames, i) == 0
    {
      assert Start.frames[..0] == [];
    }
    RunKeepsAccount(Start, evs);
    OneCopy(Run(Start, evs), id);
  }

  // ---------------------------------------------------------------- the answer arrives

  function CallWeight(c: Option<Call>, normal: nat, enter: nat, exit: nat): nat {
    match c
    case None => 0
    case Some(Normal(_)) => normal
    case Some(InterruptEnter) => enter
    case Some(InterruptExit) => exit
  }

  function MessageWeight(m: Message): nat {
    match m
    case Request(c) => CallWeight(Some(c), 7, 4, 7)
    case PushReply(_) => 2
  }

  function MessagesWeight(ms: seq<Message>): nat {
    if ms == [] then 0 else MessageWeight(ms[0]) + MessagesWeight(ms[1..])
  }

  function RepliesWeight(rs: seq<Reply>): nat {
    if rs == [] then 0 else (if rs[0].Answer? then 4 else 1) + RepliesWeight(rs[1..])
  }

  function ServerWeight(s: Server): nat {
    CallWeight(s.pending, 6, 3, 6) + 3 * |s.pendingInterrupts| + CallWeight(s.active, 5, 2, 5) + RepliesWeight(s.outbox)
  }

  /** How much there is still to do before the top frame runs. */
  function Rank(y: System): nat {
    MessagesWeight(y.toServer) + ServerWeight(y.srv) + One(y.acked)
  }

  /** Something that can be done next, as long as no call suspends again. */
  function NextEvent(y: System): Event
    requires y.frames != []
  {
    if TopFrame(y).Pushing? && y.acked then ReadAck
    else if y.srv.outbox != [] && !TopFrame(y).Pushing? then ClientReceives
    else if y.toServer != [] then Deliver
    else Work(Replies)
  }

  ghost predicate Progress(y: System, y': System) {
    && Rank(y') < Rank(y)
    && y.frames != [] && y'.frames != []
    && |y'.frames| - One(TopFrame(y').Exiting?) == |y.frames| - One(TopFrame(y).Exiting?)
  }

  lemma {:induction false} WeightSnoc(ms: seq<Message>, m: Message)
    ensures MessagesWeight(ms + [m]) == MessagesWeight(ms) + MessageWeight(m)
  {
    if ms == [] {
      assert [m][1..] == [] && ms + [m] == [m];
    } else {
      WeightSnoc(ms[1..], m);
      assert (ms + [m])[1..] == ms[1..] + [m];
    }
  }

  lemma ReceiveIsProgress(y: System)
    requires Inv(y) && y.srv.outbox != [] && !TopFrame(y).Running? && !TopFrame(y).Pushing?
    ensures Progress(y, ReceivesNext(y))
  {
    if TopFrame(y).Entering? {
      RepliesInEnter(y);
    }
    hide Levels;
    hide CallUnderWay;
    hide EnteringOverWaiting;
    hide EnteringOverRunning;
    hide PushingOverWaiting;
    hide MessagesWeight;
    hide RepliesWeight;
    var out := y.srv.outbox;
    assert RepliesWeight(out) == (if out[0].Answer? then 4 else 1) + RepliesWeight(out[1..]) by { UnfoldReplies(out); }
    WeightSnoc(y.toServer, PushReply(out[0]));
  }

  lemma UnfoldReplies(rs: seq<Reply>)
    requires rs != []
    ensures RepliesWeight(rs) == (if rs[0].Answer? then 4 else 1) + RepliesWeight(rs[1..])
  {
  }

  lemma RepliesInEnter(y: System)
    requires Inv(y) && y.srv.outbox != [] && TopFrame(y).Entering?
    ensures y.srv.outbox[0] != ExitAck
  {
    hide Levels;
  }

  lemma DeliverIsProgress(y: System)
    requires y.frames != [] && y.toServer != []
    ensures Progress(y, Delivers(y))
  {
    hide RepliesWeight;
    hide ServerWeight;
    hide Delivered;
    DeliverWeight(y.srv, y.toServer[0]);
  }

  lemma DeliverWeight(s: Server, m: Message)
    ensures ServerWeight(Delivered(s, m)) <=
            ServerWeight(s) + if m.Request? then CallWeight(Some(m.call), 6, 3, 6) else 0
  {
    hide ServerWeight;
    hide SetPending;
    hide SavePushed;
    if m.Request? {
      PendingWeight(s, m.call);
    } else {
      PushedWeight(s, m.reply);
    }
  }

  lemma PendingWeight(s: Server, call: Call)
    ensures ServerWeight(SetPending(s, call)) <= ServerWeight(s) + CallWeight(Some(call), 6, 3, 6)
  {
    hide RepliesWeight;
    var most := ServerWeight(s) + CallWeight(Some(call), 6, 3, 6);
    assert s.pending.None? ==> ServerWeight(s.(pending := Some(call))) <= most;
    assert call.InterruptEnter? ==> ServerWeight(s.(pendingInterrupts := s.pendingInterrupts + [call])) <= most;
    assert ServerWeight(Throw(s)) <= most;
    hide ServerWeight;
    hide Throw;
  }

  lemma PushedWeight(s: Server, reply: Reply)
    ensures ServerWeight(SavePushed(s, reply)) == ServerWeight(s)
  {
    PushedKeepsLoad(s, reply);
    hide SavePushed;
    hide RepliesWeight;
    hide CallWeight;
  }

  predicate SameLoad(s: Server, s': Server) {
    && s'.pending == s.pending && s'.pendingInterrupts == s.pendingInterrupts
    && s'.active == s.active && s'.outbox == s.outbox
  }

  lemma PushedKeepsLoad(s: Server, reply: Reply)
    ensures SameLoad(s, SavePushed(s, reply))
  {
    assert SameLoad(s, s.(pendingSavedReply := Some(reply))) && SameLoad(s, Throw(s));
    if s.interrupts != [] {
      assert SameLoad(s, SetTop(s, Ctx(Some(reply), Top(s).interruptedCall)));
    }
    hide SameLoad;
    hide SetTop;
    hide Throw;
  }

  /** A pass in which the call does not suspend lowers the weight, unless there is
      nothing to do. */
  ghost predicate Advances(s: Server) {
    var s' := DoWork(s, Replies);
    if s.pending.None? && s.active.None? then s' == s else ServerWeight(s') < ServerWeight(s)
  }

  lemma ServerAdvances(y: System)
    requires Inv(y)
    ensures Advances(y.srv)
  {
    hide Levels;
    hide Advances;
    hide CallUnderWay;
    hide EnteringOverRunning;
    hide EnteringOverWaiting;
    hide PushingOverWaiting;
    hide ExitingOver;
    var n := |y.frames| - 1;
    if TopFrame(y).Running? {
      RestStays(y.srv);
    } else if TopFrame(y).Waiting? {
      CallAdvances(y, Levels(y.frames[..n]), TopFrame(y).id, []);
    } else {
      var below, f := Levels(y.frames[..n - 1]), y.frames[n - 1];
      if TopFrame(y).Exiting? {
        ExitAdvances(y, below, f);
      } else if TopFrame(y).Pushing? {
        PushAdvances(y, below, f.id);
      } else if f.Running? {
        EnterAdvances(y, below);
      } else {
        EnterOverCallAdvances(y, below, f.id);
      }
    }
  }

  lemma RestStays(s: Server)
    requires s == Idle(s.interrupts, s.outbox)
    ensures Advances(s)
  {
    hide DoWork;
    WorkOnCall(s.interrupts, 0, false, Replies);
  }

  lemma CallAdvances(y: System, levels: seq<Ctx>, id: CallId, behind: seq<Message>)
    requires CallUnderWay(y, levels, id, behind)
    ensures Advances(y.srv)
  {
    hide DoWork;
    hide RepliesWeight;
    ShortWeights();
    WorkOnCall(levels, id, y.srv.continuation, Replies);
  }

  lemma ExitAdvances(y: System, below: seq<Ctx>, f: Frame)
    requires ExitingOver(y, below, f)
    ensures Advances(y.srv)
  {
    hide DoWork;
    hide RepliesWeight;
    ShortWeights();
    WorkOnCall(y.srv.interrupts, 0, false, Replies);
    WorkOnExit(below, SavedFor(f), Replies);
    assert [ExitAck] + [] == [ExitAck];
    assert f.Waiting? ==> [ExitAck] + [Answer(f.id)] == [ExitAck, Answer(f.id)];
  }

  lemma EnterAdvances(y: System, below: seq<Ctx>)
    requires EnteringOverRunning(y, below)
    ensures Advances(y.srv)
  {
    hide DoWork;
    hide RepliesWeight;
    ShortWeights();
    WorkOnCall(y.srv.interrupts, 0, false, Replies);
    WorkOnEnterIdle(below, [], None, Replies);
    assert [] + [EnterAck] == [EnterAck];
  }

  lemma PushAdvances(y: System, below: seq<Ctx>, id: CallId)
    requires PushingOverWaiting(y, below, id)
    ensures Advances(y.srv)
  {
    hide DoWork;
    hide RepliesWeight;
    ShortWeights();
    WorkOnCall(y.srv.interrupts, 0, false, Replies);
    WorkOnEnterIdle(below, [], None, Replies);
    WorkOnEnterIdle(below, [], Some(Answer(id)), Replies);
    assert [] + [EnterAck] == [EnterAck];
  }

  lemma EnterOverCallAdvances(y: System, below: seq<Ctx>, id: CallId)
    requires EnteringOverWaiting(y, below, id)
    ensures Advances(y.srv)
  {
    hide Advances;
    hide CallUnderWay;
    hide EnterPending;
    if CallUnderWay(y, below, id, [Request(InterruptEnter)]) {
      CallAdvances(y, below, id, [Request(InterruptEnter)]);
    } else if EnterPending(y.srv, below, id) {
      PendingAdvances(y.srv, below, id);
    } else if y.srv.suspended {
      ResumedAdvances(y.srv, below, id);
    } else if y.srv == EnterQueued(below, id) {
      QueuedAdvances(below, id);
    } else {
      RestStays(y.srv);
    }
  }

  lemma PendingAdvances(s: Server, below: seq<Ctx>, id: CallId)
    requires EnterPending(s, below, id)
    ensures Advances(s)
  {
    hide DoWork;
    hide RepliesWeight;
    ShortWeights();
    WorkOnEnterIdle(below, [], Some(Answer(id)), Replies);
    WorkOnEnterIdle(below, [Answer(id)], None, Replies);
    assert [] + [EnterAck] == [EnterAck] && [Answer(id)] + [EnterAck] == [Answer(id), EnterAck];
    WorkOnEnterSuspended(below, id, s.continuation, Replies);
  }

  lemma ResumedAdvances(s: Server, below: seq<Ctx>, id: CallId)
    requires s == ResumedInEnter(below, id, s.continuation, s.pendingCallOverride)
    ensures Advances(s)
  {
    hide DoWork;
    hide RepliesWeight;
    ShortWeights();
    WorkOnResumed(below, id, s.continuation, s.pendingCallOverride, Replies);
  }

  lemma QueuedAdvances(below: seq<Ctx>, id: CallId)
    ensures Advances(EnterQueued(below, id))
  {
    ShortWeights();
    assert DoWork(EnterQueued(below, id), Replies) == Idle(below, [Answer(id)]).(pending := Some(InterruptEnter)) by {
      assert [InterruptEnter][1..] == [];
    }
  }

  lemma ShortWeights()
    ensures RepliesWeight([]) == 0
    ensures forall r :: RepliesWeight([r]) == if r.Answer? then 4 else 1
    ensures forall r, r' :: RepliesWeight([r, r']) == RepliesWeight([r]) + RepliesWeight([r'])
  {
    forall r, r'
      ensures RepliesWeight([r, r']) == RepliesWeight([r]) + RepliesWeight([r'])
    {
      assert [r, r'][1..] == [r'];
    }
  }

  /** An event of the server or the socket, with no call that suspends. */
  predicate Settles(ev: Event) {
    ev.ClientReceives? || ev.ReadAck? || ev.Deliver? || ev == Work(Replies)
  }

  /** Every such event that does anything is progress. */
  lemma EffectIsProgress(y: System, ev: Event)
    requires Inv(y) && Settles(ev)
    ensures Step(y, ev) == y || Progress(y, Step(y, ev))
  {
    hide ReceivesNext;
    hide Delivers;
    hide Works;
    hide ReadsAck;
    hide Progress;
    InvHasFrames(y);
    match ev
    case ReadAck => AckEffect(y);
    case ClientReceives => ReceiveEffect(y);
    case Deliver => DeliverEffect(y);
    case Work(_) => WorkEffect(y);
  }

  lemma AckEffect(y: System)
    requires y.frames != []
    ensures ReadsAck(y) == y || Progress(y, ReadsAck(y))
  {
    hide Progress;
    if TopFrame(y).Pushing? && y.acked {
      AckIsProgress(y);
    }
  }

  lemma ReceiveEffect(y: System)
    requires Inv(y)
    ensures ReceivesNext(y) == y || Progress(y, ReceivesNext(y))
  {
    InvHasFrames(y);
    hide Progress;
    hide Receives;
    if y.srv.outbox != [] && !TopFrame(y).Running? && !TopFrame(y).Pushing? {
      ReceiveIsProgress(y);
    }
  }

  lemma DeliverEffect(y: System)
    requires y.frames != []
    ensures Delivers(y) == y || Progress(y, Delivers(y))
  {
    hide Progress;
    hide Delivered;
    if y.toServer != [] {
      DeliverIsProgress(y);
    }
  }

  lemma WorkEffect(y: System)
    requires Inv(y)
    ensures Works(y, Replies) == y || Progress(y, Works(y, Replies))
  {
    ServerAdvances(y);
    InvHasFrames(y);
    hide Inv;
    hide DoWork;
    hide ServerWeight;
    hide MessagesWeight;
  }

  /** Nothing is left to do for the server and the socket. */
  ghost predicate Settled(y: System) {
    forall ev | Settles(ev) :: Step(y, ev) == y
  }

  /** That is so exactly when the top frame runs. */
  lemma SettledIsRunning(y: System)
    requires Inv(y)
    ensures y.frames != [] && (Settled(y) <==> TopFrame(y).Running?)
  {
    InvHasFrames(y);
    if TopFrame(y).Running? {
      NothingToDo(y);
    } else {
      NextHasEffect(y);
      assert Settles(NextEvent(y));
    }
  }

  lemma NothingToDo(y: System)
    requires Inv(y) && TopFrame(y).Running?
    ensures Settled(y)
  {
    var s := y.srv;
    assert s == Idle(s.interrupts, []) && y.toServer == [] by { hide Levels; }
    WorkOnCall(s.interrupts, 0, false, Replies);
    hide Inv;
    hide DoWork;
  }

  lemma AckIsProgress(y: System)
    requires y.frames != [] && TopFrame(y).Pushing? && y.acked
    ensures Progress(y, ReadsAck(y))
  {
    hide ServerWeight;
    hide MessagesWeight;
  }

  /** As long as the top frame does not run, one of them has an effect. */
  lemma NextHasEffect(y: System)
    requires Inv(y) && !TopFrame(y).Running?
    ensures Step(y, NextEvent(y)) != y
  {
    InvHasFrames(y);
    match NextEvent(y)
    case ReadAck => AckIsProgress(y);
    case ClientReceives => ReceiveIsProgress(y);
    case Deliver => DeliverIsProgress(y);
    case Work(_) => WorkIsNeeded(y);
  }

  lemma WorkIsNeeded(y: System)
    requires Inv(y) && NextEvent(y).Work? && !TopFrame(y).Running?
    ensures Works(y, Replies) != y
  {
    SomethingToDo(y);
    ServerAdvances(y);
    hide Inv;
    hide DoWork;
  }

  lemma SomethingToDo(y: System)
    requires Inv(y) && NextEvent(y).Work? && !TopFrame(y).Running?
    ensures y.srv.pending.Some? || y.srv.active.Some?
  {
    hide Levels;
  }

  /** The server's and the socket's share of the events. */
  predicate NoNewActivity(evs: seq<Event>) {
    forall ev | ev in evs :: Settles(ev)
  }

  /** How many events of a run change anything. */
  function Effective(y: System, evs: seq<Event>): nat
    decreases |evs|
  {
    if evs == [] then 0 else One(Step(y, evs[0]) != y) + Effective(Step(y, evs[0]), evs[1..])
  }

  /** From every reachable state, in every order in which the server and the socket do
      their work, with no further call or signal and calls that no longer suspend:
      there are at most `Rank(y)` events with an effect, and when no event has one the
      top frame runs.  So a frame that waits for an answer gets it, and one in
      interrupt_exit goes on in the frame below, which gets its answer too if it waits
      for one. */
  lemma {:induction false} TopFrameRuns(y: System, evs: seq<Event>)
    requires Inv(y) && NoNewActivity(evs)
    ensures var y' := Run(y, evs);
            && Inv(y') && Effective(y, evs) + Rank(y') <= Rank(y)
            && y.frames != [] && y'.frames != [] && (Settled(y') <==> TopFrame(y').Running?)
            && |y'.frames| - One(TopFrame(y').Exiting?) == |y.frames| - One(TopFrame(y).Exiting?)
    decreases |evs|
  {
    hide Inv;
    hide Step;
    hide Rank;
    hide Settled;
    hide Settles;
    SettledIsRunning(y);
    if evs != [] {
      EffectIsProgress(y, evs[0]);
      StepKeepsInv(y, evs[0]);
      TopFrameRuns(Step(y, evs[0]), evs[1..]);
    }
  }
}
