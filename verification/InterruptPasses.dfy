/**
 A pass of `doWork` in two steps: it sends its replies, or suspends, well before it
 gets to `doneWorking`, and in between messages arrive.

 Two things can go wrong there, because the interrupt_enter that waits behind a call
 becomes pending only at the end of the pass.  The client may push back the answer
 before that, and the server files it under another level or throws.  And a new call,
 with an interrupt behind it, may come in before the last pass is over, which then
 finds a call where it wants to put the interrupt.
 */
module InterruptPasses {
  import opened Options
  import opened Interrupts

  /** `finishing`: the pass under way has not come to `doneWorking` yet. */
  datatype Machine = Machine(y: System, finishing: bool)

  datatype Action = BeginPass(how: How) | EndPass | Other(ev: Event)

  const Initially := Machine(Start, false)

  /** While a pass is under way no other begins. */
  function Act(m: Machine, a: Action): Machine {
    match a
    case BeginPass(how) => if m.finishing then m else Machine(m.y.(srv := PassBody(m.y.srv, how)), true)
    case EndPass => if m.finishing then Machine(m.y.(srv := PassEnd(m.y.srv)), false) else m
    case Other(ev) => if ev.Work? then m else m.(y := Step(m.y, ev))
  }

  function Acts(m: Machine, acts: seq<Action>): Machine
    decreases |acts|
  {
    if acts == [] then m else Acts(Act(m, acts[0]), acts[1..])
  }

  // ---------------------------------------------------------------- going wrong

  /** Every saved reply is in the context of the frame that waits for it. */
  ghost predicate SavedInPlace(y: System) {
    && |y.srv.interrupts| <= |y.frames|
    && forall i | 0 <= i < |y.srv.interrupts| ::
         y.srv.interrupts[i].savedReply == None || y.srv.interrupts[i].savedReply == SavedFor(y.frames[i])
  }

  /** Nothing has gone wrong. */
  ghost predicate Sound(m: Machine) {
    !m.y.srv.thrown && !m.y.confused && SavedInPlace(m.y)
  }

  /** A reply is pushed back while the interrupt that it belongs to still waits behind
      the call; or a pass ends with an interrupt waiting behind a call that came in
      after the one it was about. */
  predicate Clashes(m: Machine, a: Action) {
    && m.y.srv.pendingInterrupts != []
    && match a
       case BeginPass(_) => false
       case EndPass => m.finishing && m.y.srv.pending.Some?
       case Other(ev) => ev.Deliver? && m.y.toServer != [] && m.y.toServer[0].PushReply?
  }

  predicate NoClash(m: Machine, acts: seq<Action>)
    decreases |acts|
  {
    acts != [] ==> !Clashes(m, acts[0]) && NoClash(Act(m, acts[0]), acts[1..])
  }

  ghost predicate AlwaysSound(m: Machine, acts: seq<Action>)
    decreases |acts|
  {
    Sound(m) && (acts != [] ==> AlwaysSound(Act(m, acts[0]), acts[1..]))
  }

  // ---------------------------------------------------------------- passes as one step

  /** An interrupt waits for the end of a pass that is done with the call. */
  predicate EndOwed(m: Machine) {
    m.finishing && m.y.srv.pendingInterrupts != [] && m.y.srv.pending.None?
  }

  /** The same with passes that are one step: such an end counts as done. */
  function Merged(m: Machine): System {
    if EndOwed(m) then m.y.(srv := PassEnd(m.y.srv)) else m.y
  }

  /** The events, with passes that are one step. */
  function MergedEvents(m: Machine, acts: seq<Action>): seq<Event>
    decreases |acts|
  {
    if acts == [] then []
    else
      (match acts[0]
       case BeginPass(how) => if m.finishing then [] else [Work(how)]
       case EndPass => []
       case Other(ev) => if ev.Work? then [] else [ev])
      + MergedEvents(Act(m, acts[0]), acts[1..])
  }

  /** Only an interrupt behind the call it interrupts ever waits. */
  lemma WaitsBehindCall(y: System)
    requires Inv(y)
    ensures y.srv.pendingInterrupts != [] ==>
              && |y.frames| > 1 && TopFrame(y).Entering? && y.frames[|y.frames| - 2].Waiting? && y.toServer == []
              && y.srv == EnterQueued(Levels(y.frames[..|y.frames| - 2]), y.frames[|y.frames| - 2].id)
  {
    hide Levels;
  }

  /** Where an end is owed. */
  ghost predicate Owed(m: Machine) {
    && EndOwed(m) && !m.y.srv.thrown && m.y.srv.pendingInterrupts == [InterruptEnter]
    && |m.y.frames| > 1 && m.y.frames[|m.y.frames| - 2].Waiting? && m.y.srv.pendingSavedReply.None?
    && Inv(Merged(m))
  }

  lemma PendingShape(y: System)
    requires Inv(y) && y.srv.pending == Some(InterruptEnter) && y.srv.pendingSavedReply.None?
    requires |y.frames| > 1 && y.frames[|y.frames| - 2].Waiting?
    ensures var n := |y.frames| - 1;
            && (TopFrame(y).Entering? || TopFrame(y).Pushing?) && !y.acked
            && y.srv.interrupts == Levels(y.frames[..n - 1])
            && (y.toServer == [] || y.toServer == [PushReply(Answer(y.frames[n - 1].id))])
  {
    hide Levels;
  }

  lemma OwedShape(m: Machine)
    requires Owed(m)
    ensures var y, n := m.y, |m.y.frames| - 1;
            && (TopFrame(y).Entering? || TopFrame(y).Pushing?) && !y.confused && !y.acked
            && y.srv.interrupts == Levels(y.frames[..n - 1])
            && (y.toServer == [] || y.toServer == [PushReply(Answer(y.frames[n - 1].id))])
            && Merged(m) == y.(srv := y.srv.(pending := Some(InterruptEnter), pendingInterrupts := []))
  {
    var y := m.y.(srv := m.y.srv.(pending := Some(InterruptEnter), pendingInterrupts := []));
    assert Merged(m) == y by { assert [InterruptEnter][1..] == []; }
    assert !y.confused by { assert Inv(y); }
    PendingShape(y);
    hide Inv;
    hide Levels;
  }

  /** The reachable states, as long as nothing clashes. */
  ghost predicate Reachable(m: Machine) {
    Owed(m) || (Inv(m.y) && !EndOwed(m))
  }

  lemma NothingOwed(m: Machine)
    requires Inv(m.y)
    ensures !EndOwed(m) && Merged(m) == m.y
  {
    WaitsBehindCall(m.y);
  }

  // ---------------------------------------------------------------- one action

  lemma BeginMerges(m: Machine, how: How)
    requires Inv(m.y) && !m.finishing
    ensures var m' := Act(m, BeginPass(how));
            Reachable(m') && Merged(m') == Works(m.y, how)
  {
    var y, m' := m.y, Act(m, BeginPass(how));
    WaitsBehindCall(y);
    WorkKeepsInv(y, how);
    if y.srv.pendingInterrupts == [] {
      BodyQueuesNothing(y.srv, how);
      NothingOwed(m');
    } else {
      var n := |y.frames| - 1;
      WorkOnQueued(Levels(y.frames[..n - 1]), y.frames[n - 1].id, how);
      hide Inv;
      hide PassBody;
    }
  }

  lemma BodyQueuesNothing(s: Server, how: How)
    requires s.pendingInterrupts == []
    ensures PassBody(s, how).pendingInterrupts == [] && DoWork(s, how) == PassBody(s, how)
  {
    BodyKeepsQueue(s, how);
    hide PassBody;
  }

  predicate SameQueue(s: Server, s': Server) {
    s'.pendingInterrupts == s.pendingInterrupts
  }

  lemma ReplyKeepsQueue(s: Server, call: Call, reply: Reply)
    ensures SameQueue(s, PushCallReply(s, call, reply))
  {
    assert SameQueue(s, Throw(s));
    if CurrentCall(s) == Some(call) {
      assert SameQueue(s, Deactivated(s));
      var s1 := Deactivated(s);
      assert SameQueue(s1, KeepOrSend(s1, reply));
      hide KeepOrSend;
      hide Deactivated;
    }
    hide Throw;
    hide CurrentCall;
  }

  lemma FinishKeepsQueue(s: Server)
    requires s.interrupts != []
    ensures SameQueue(s, FinishEnter(s))
  {
    hide PushCallReply;
    var s1 := s.(handlingInterruptedCall := false,
                 pendingCallOverride := s.pendingCallOverride && !s.handlingInterruptedCall,
                 interruptedForSignal := false);
    ReplyKeepsQueue(SetTop(s1, Ctx(Top(s1).savedReply, None)), InterruptEnter, EnterAck);
  }

  lemma ContinueKeepsQueue(s: Server, how: How)
    ensures SameQueue(s, Continue(s, how))
  {
    assert SameQueue(s, Throw(s));
    if how.Suspends? {
      assert SameQueue(s, s.(suspended := true, continuation := how.withContinuation));
      hide Throw;
    } else {
      hide PushCallReply;
      hide FinishEnter;
      hide Throw;
      AnswerKeepsQueue(s);
      hide SameQueue;
      hide CurrentCall;
    }
  }

  lemma AnswerKeepsQueue(s: Server)
    ensures forall id :: SameQueue(s, PushCallReply(s, Normal(id), Answer(id)))
    ensures forall id :: PushCallReply(s, Normal(id), Answer(id)).interrupts != [] ==>
              SameQueue(s, FinishEnter(PushCallReply(s, Normal(id), Answer(id))))
  {
    hide PushCallReply;
    hide FinishEnter;
    forall id
      ensures SameQueue(s, PushCallReply(s, Normal(id), Answer(id)))
      ensures PushCallReply(s, Normal(id), Answer(id)).interrupts != [] ==>
                SameQueue(s, FinishEnter(PushCallReply(s, Normal(id), Answer(id))))
    {
      ReplyKeepsQueue(s, Normal(id), Answer(id));
      var s1 := PushCallReply(s, Normal(id), Answer(id));
      if s1.interrupts != [] {
        FinishKeepsQueue(s1);
      }
    }
  }

  lemma RunKeepsQueue(s: Server, how: How)
    requires s.interrupts != []
    ensures SameQueue(s, RunInterrupted(s, how))
  {
    var s1 := s.(interruptedForSignal := true, interruptedContinuation := false);
    var s2 := s1.(handlingInterruptedCall := true, pendingCallOverride := true);
    assert SameQueue(s, s1) && SameQueue(s, s2);
    ContinueKeepsQueue(s1, how);
    ContinueKeepsQueue(s2, how);
    FinishKeepsQueue(s1);
    hide Continue;
    hide FinishEnter;
    hide Top;
  }

  lemma TakeKeepsQueue(s: Server)
    requires s.interrupts != []
    ensures SameQueue(s, TakePushed(s)) && TakePushed(s).interrupts != []
  {
  }

  lemma EnterKeepsQueue(s: Server, how: How)
    ensures SameQueue(s, EnterInterrupt(s, how))
  {
    assert SameQueue(s, Throw(s));
    hide Throw;
    hide RunInterrupted;
    hide Top;
    if s.interrupts != [] {
      TakeKeepsQueue(s);
      hide TakePushed;
      RunKeepsQueue(TakePushed(s), how);
    }
  }

  lemma ExitKeepsQueue(s: Server)
    ensures SameQueue(s, ExitInterrupt(s))
  {
    ReplyKeepsQueue(s, InterruptExit, ExitAck);
    hide PushCallReply;
  }

  lemma BodyKeepsQueue(s: Server, how: How)
    ensures SameQueue(s, PassBody(s, how))
  {
    var s1 := OpenContext(s);
    assert SameQueue(s, s1) && SameQueue(s1, Throw(s1));
    var s2 := s1.(suspended := false, continuation := false);
    var s3 := s1.(suspended := false, active := s1.pending, pending := None);
    assert SameQueue(s1, s2) && SameQueue(s1, s3);
    ContinueKeepsQueue(s2, how);
    ContinueKeepsQueue(s3, how);
    EnterKeepsQueue(s3, how);
    ExitKeepsQueue(s3);
    hide Continue;
    hide EnterInterrupt;
    hide ExitInterrupt;
    hide OpenContext;
    hide Throw;
  }

  lemma EndMerges(m: Machine)
    requires Reachable(m) && !Clashes(m, EndPass)
    ensures Reachable(Act(m, EndPass)) && Merged(Act(m, EndPass)) == Merged(m)
  {
    var m' := Act(m, EndPass);
    if Owed(m) {
      NothingOwed(m');
    } else {
      WaitsBehindCall(m.y);
      hide Inv;
    }
  }

  /** What a frame does with a reply does not concern the server. */
  lemma ReceivesCommutes(y: System, s: Server, reply: Reply)
    requires y.frames != []
    ensures Receives(y.(srv := s), reply) == Receives(y, reply).(srv := s) && Receives(y, reply).srv == y.srv
  {
    match TopFrame(y)
    case Running =>
    case Waiting(_) =>
    case Entering =>
    case Pushing =>
    case Exiting =>
  }

  predicate TakesNext(y: System)
    requires y.frames != []
  {
    y.srv.outbox != [] && !TopFrame(y).Running? && !TopFrame(y).Pushing?
  }

  lemma ReceiveCommutes(y: System, s: Server)
    requires y.frames != [] && s.outbox == y.srv.outbox && TakesNext(y)
    ensures var y', rest := ReceivesNext(y), y.srv.outbox[1..];
            && ReceivesNext(y.(srv := s)) == y'.(srv := s.(outbox := rest))
            && y'.srv == y.srv.(outbox := rest)
  {
    var rest := y.srv.outbox[1..];
    ReceivesCommutes(y.(srv := y.srv.(outbox := rest)), s.(outbox := rest), y.srv.outbox[0]);
    hide Receives;
  }

  lemma OwedReceives(m: Machine)
    requires Owed(m)
    ensures var m' := Act(m, Other(ClientReceives));
            Owed(m') && Merged(m') == Step(Merged(m), ClientReceives)
  {
    OwedShape(m);
    StepKeepsInv(Merged(m), ClientReceives);
    var y := m.y;
    var s := y.srv.(pending := Some(InterruptEnter), pendingInterrupts := []);
    hide Inv;
    hide Levels;
    if TakesNext(y) {
      ReceiveCommutes(y, s);
      EnterAgain(y);
      hide ReceivesNext;
    }
  }

  /** In interrupt_enter the frames below stay. */
  lemma EnterAgain(y: System)
    requires |y.frames| > 1 && (TopFrame(y).Entering? || TopFrame(y).Pushing?)
    ensures var frames := ReceivesNext(y).frames;
            |frames| == |y.frames| && frames[|frames| - 2] == y.frames[|frames| - 2]
  {
  }

  lemma OwedMerges(m: Machine, ev: Event)
    requires Owed(m) && !ev.Work? && !Clashes(m, Other(ev))
    ensures Owed(Act(m, Other(ev))) && Merged(Act(m, Other(ev))) == Step(Merged(m), ev)
  {
    if ev.ClientReceives? {
      OwedReceives(m);
    } else {
      OwedShape(m);
      hide Inv;
      hide Levels;
      OwedStays(m, ev);
    }
  }

  /** Nothing else happens while an end is owed. */
  lemma OwedStays(m: Machine, ev: Event)
    requires EndOwed(m) && !ev.Work? && !ev.ClientReceives? && !Clashes(m, Other(ev))
    requires m.y.frames != [] && (TopFrame(m.y).Entering? || TopFrame(m.y).Pushing?)
    requires (m.y.toServer == [] || m.y.toServer[0].PushReply?) && !m.y.acked
    ensures Step(m.y, ev) == m.y && Step(Merged(m), ev) == Merged(m)
  {
    hide Delivered;
    hide PassEnd;
  }

  /** One action, without a clash: seen with passes as one step, it is one event or
      none. */
  lemma ActMerges(m: Machine, a: Action)
    requires Reachable(m) && !Clashes(m, a)
    ensures Reachable(Act(m, a))
    ensures Merged(Act(m, a)) ==
            match a
            case BeginPass(how) => if m.finishing then Merged(m) else Step(Merged(m), Work(how))
            case EndPass => Merged(m)
            case Other(ev) => if ev.Work? then Merged(m) else Step(Merged(m), ev)
  {
    hide PassBody;
    hide PassEnd;
    match a
    case BeginPass(how) =>
      if !m.finishing {
        BeginMerges(m, how);
        InvHasFrames(m.y);
        hide Inv;
      }
    case EndPass => EndMerges(m);
    case Other(ev) =>
      if !ev.Work? {
        if Owed(m) {
          OwedMerges(m, ev);
        } else {
          StepKeepsInv(m.y, ev);
          NothingOwed(Act(m, a));
          hide Inv;
          hide Step;
        }
      }
  }

  // ---------------------------------------------------------------- sound or not

  lemma ReachableIsSound(m: Machine)
    requires Reachable(m)
    ensures Sound(m)
  {
    if Owed(m) {
      OwedShape(m);
      hide Inv;
    } else {
      NotThrown(m.y);
      ContextsInPlace(m.y);
    }
  }

  lemma ContextsInPlace(y: System)
    requires Inv(y)
    ensures SavedInPlace(y) && !y.confused
  {
    assert y.frames != [] && !y.confused;
    if |y.frames| > 1 {
      OneLevelMore(y);
      hide Inv;
      LevelsInPlace(y);
    } else {
      NoLevel(y);
      hide Inv;
    }
  }

  lemma LevelsInPlace(y: System)
    requires |y.frames| > 1
    requires var n := |y.frames| - 1;
             var below, cs := Levels(y.frames[..n - 1]), y.srv.interrupts;
             || cs == below
             || (|cs| == n && cs[..n - 1] == below
                 && (cs[n - 1].savedReply.None? || cs[n - 1].savedReply == SavedFor(y.frames[n - 1])))
    ensures SavedInPlace(y)
  {
    var n, cs := |y.frames| - 1, y.srv.interrupts;
    forall i | 0 <= i < |cs|
      ensures cs[i].savedReply == None || cs[i].savedReply == SavedFor(y.frames[i])
    {
      if i < n - 1 {
        assert cs[i] == Levels(y.frames[..n - 1])[i];
      }
    }
  }

  lemma NoLevel(y: System)
    requires Inv(y) && |y.frames| == 1
    ensures y.srv.interrupts == []
  {
    assert Levels(y.frames[..0]) == [];
    hide Levels;
  }

  /** The contexts are those of the frames below the top, but for the last one, which
      may be missing or hold nothing yet. */
  lemma OneLevelMore(y: System)
    requires Inv(y) && |y.frames| > 1
    ensures var n := |y.frames| - 1;
            var below, cs := Levels(y.frames[..n - 1]), y.srv.interrupts;
            || cs == below
            || (|cs| == n && cs[..n - 1] == below
                && (cs[n - 1].savedReply.None? || cs[n - 1].savedReply == SavedFor(y.frames[n - 1])))
  {
    var n := |y.frames| - 1;
    LevelsSnoc(y.frames, n);
    hide Levels;
  }

  /** A clash does harm, always. */
  lemma ClashIsUnsound(m: Machine, a: Action)
    requires Reachable(m) && Clashes(m, a)
    ensures !Sound(Act(m, a))
  {
    if a.EndPass? {
      hide Inv;
      hide SavedInPlace;
    } else if Owed(m) {
      OwedShape(m);
      hide Inv;
      PushedTooEarly(m);
    } else {
      WaitsBehindCall(m.y);
      hide Inv;
      assert false;
    }
  }

  /** The answer ends up in the context of another level, or the server throws. */
  lemma PushedTooEarly(m: Machine)
    requires var y, n := m.y, |m.y.frames| - 1;
             && n > 0 && y.frames[n - 1].Waiting? && y.srv.pending.None? && !y.srv.thrown
             && y.srv.interrupts == Levels(y.frames[..n - 1])
             && y.toServer == [PushReply(Answer(y.frames[n - 1].id))]
    ensures !Sound(Act(m, Other(Deliver)))
  {
    var y, n := m.y, |m.y.frames| - 1;
    var reply := Answer(y.frames[n - 1].id);
    DeliveredTooEarly(y.srv, reply);
    hide SavePushed;
    hide Top;
    assert n > 1 ==> y.srv.interrupts[n - 2].savedReply == SavedFor(y.frames[n - 2]);
  }

  lemma DeliveredTooEarly(s: Server, reply: Reply)
    requires s.pending.None?
    ensures var s', n := SavePushed(s, reply), |s.interrupts|;
            || s'.thrown
            || (n > 0 && s.interrupts[n - 1].savedReply.None?
                && |s'.interrupts| == n && s'.interrupts[n - 1].savedReply == Some(reply))
  {
    assert Throw(s).thrown;
    hide Throw;
  }

  // ---------------------------------------------------------------- every run

  lemma {:induction false} SoundIffNoClash(m: Machine, acts: seq<Action>)
    requires Reachable(m)
    ensures AlwaysSound(m, acts) <==> NoClash(m, acts)
    decreases |acts|
  {
    hide Reachable;
    hide Sound;
    hide Clashes;
    hide Act;
    ReachableIsSound(m);
    if acts != [] {
      var m' := Act(m, acts[0]);
      if Clashes(m, acts[0]) {
        ClashIsUnsound(m, acts[0]);
      } else {
        ActMerges(m, acts[0]);
        SoundIffNoClash(m', acts[1..]);
      }
    }
  }

  /** However calls, signals, handlers, messages and the two halves of the server's
      passes interleave: nothing goes wrong if and only if no clash occurs, that is, no
      reply is pushed back while its interrupt still waits behind a call, and no pass
      ends with an interrupt waiting behind a later call. */
  lemma NothingGoesWrongIff(acts: seq<Action>)
    ensures AlwaysSound(Initially, acts) <==> NoClash(Initially, acts)
  {
    StartIsReachable();
    SoundIffNoClash(Initially, acts);
  }

  lemma StartIsReachable()
    ensures Reachable(Initially) && Merged(Initially) == Start
  {
    assert Levels(Start.frames[..0]) == [];
  }

  lemma {:induction false} RunMerges(m: Machine, acts: seq<Action>)
    requires Reachable(m) && NoClash(m, acts)
    ensures Reachable(Acts(m, acts)) && Merged(Acts(m, acts)) == Run(Merged(m), MergedEvents(m, acts))
    decreases |acts|
  {
    hide Reachable;
    hide Merged;
    hide Clashes;
    hide Act;
    hide Step;
    if acts != [] {
      var m', rest := Act(m, acts[0]), MergedEvents(Act(m, acts[0]), acts[1..]);
      ActMerges(m, acts[0]);
      RunMerges(m', acts[1..]);
      var evs := MergedEvents(m, acts);
      if |evs| > |rest| {
        assert evs[1..] == rest;
      } else {
        assert evs == rest;
      }
    }
  }

  /** Without a clash it makes no difference that a pass takes two steps: up to the end
      of the last one, the run is one with passes as one step, so no call is lost or
      answered twice here either. */
  lemma PassesAreOneStep(acts: seq<Action>, id: CallId)
    requires NoClash(Initially, acts)
    ensures var y := Merged(Acts(Initially, acts));
            && y == Run(Start, MergedEvents(Initially, acts))
            && Occurs(y.delivered, id) + WaitingFor(y.frames, id) == (if id < y.next then 1 else 0)
            && Copies(y, id) == WaitingFor(y.frames, id)
  {
    StartIsReachable();
    RunMerges(Initially, acts);
    ExactlyOnce(MergedEvents(Initially, acts), id);
  }

  /** Passes follow one another: once one has ended another may begin, and until then
      none does. */
  lemma OnePassAtATime(m: Machine, how: How)
    ensures Act(m, BeginPass(how)).finishing && !Act(m, EndPass).finishing
    ensures m.finishing ==> Act(m, BeginPass(how)) == m
    ensures Act(Act(m, EndPass), BeginPass(how)).y.srv == PassBody(Act(m, EndPass).y.srv, how)
  {
    hide PassBody;
    hide PassEnd;
  }

  // ---------------------------------------------------------------- both clashes occur

  lemma TwoActs(m: Machine, acts: seq<Action>, k: nat)
    requires k + 2 <= |acts|
    ensures Acts(m, acts[k..]) == Acts(Act(Act(m, acts[k]), acts[k + 1]), acts[k + 2..])
  {
    hide Act;
    assert acts[k..][1..] == acts[k + 1..] && acts[k + 1..][1..] == acts[k + 2..];
  }

  /** A call gets to the server. */
  lemma CallArrives(m: Machine) returns (m': Machine)
    requires m.y.frames == [Running] && m.y.toServer == [] && !m.y.acked && m.y.srv == IdleServer
    ensures m' == Act(Act(m, Other(StartCall)), Other(Deliver))
    ensures m' == m.(y := m.y.(srv := IdleServer.(pending := Some(Normal(m.y.next))),
                               frames := [Waiting(m.y.next)], next := m.y.next + 1))
  {
    var m1 := Act(m, Other(StartCall));
    assert m1.y == m.y.(frames := [Waiting(m.y.next)], toServer := [Request(Normal(m.y.next))], next := m.y.next + 1);
    m' := Act(m1, Other(Deliver));
  }

  /** A signal comes before the server gets to the call. */
  lemma SignalBehind(m: Machine, id: CallId) returns (m': Machine)
    requires m.y.frames == [Waiting(id)] && m.y.toServer == [] && !m.y.acked
    requires m.y.srv == IdleServer.(pending := Some(Normal(id)))
    ensures m' == Act(Act(m, Other(Signal)), Other(Deliver))
    ensures m' == m.(y := m.y.(frames := [Waiting(id), Entering], srv := EnterQueued([], id)))
  {
    var m1 := Act(m, Other(Signal));
    assert m1.y == m.y.(frames := [Waiting(id), Entering], toServer := [Request(InterruptEnter)]);
    m' := Act(m1, Other(Deliver));
  }

  /** The call is answered, and the client gets the answer. */
  lemma AnswerArrives(m: Machine, id: CallId) returns (m': Machine)
    requires !m.finishing && m.y.frames == [Waiting(id)] && m.y.toServer == []
    requires m.y.srv == IdleServer.(pending := Some(Normal(id)))
    ensures m' == Act(Act(m, BeginPass(Replies)), Other(ClientReceives))
    ensures m' == Machine(m.y.(srv := IdleServer, frames := [Running], delivered := m.y.delivered + [id]), true)
  {
    var m1 := Act(m, BeginPass(Replies));
    assert m1 == Machine(m.y.(srv := IdleServer.(outbox := [Answer(id)])), true);
    m' := Act(m1, Other(ClientReceives));
  }

  /** The call is answered, but the client is in interrupt_enter and pushes the answer
      back. */
  lemma AnswerPushedBack(m: Machine, id: CallId) returns (m': Machine)
    requires !m.finishing && m.y.frames == [Waiting(id), Entering] && m.y.toServer == []
    requires m.y.srv == EnterQueued([], id)
    ensures m' == Act(Act(m, BeginPass(Replies)), Other(ClientReceives))
    ensures m'.y.toServer == [PushReply(Answer(id))] && m'.y.frames != []
    ensures m'.y.srv == IdleServer.(pendingInterrupts := [InterruptEnter])
  {
    var m1 := Act(m, BeginPass(Replies));
    assert m1 == Machine(m.y.(srv := IdleServer.(pendingInterrupts := [InterruptEnter], outbox := [Answer(id)])), true);
    m' := Act(m1, Other(ClientReceives));
  }

  /** The first clash: a signal comes before the server gets to the call, and the
      answer is pushed back before the pass that sent it is over. */
  lemma PushedBackTooEarly()
    ensures var acts := [Other(StartCall), Other(Deliver), Other(Signal), Other(Deliver), BeginPass(Replies),
                         Other(ClientReceives), Other(Deliver)];
            Acts(Initially, acts).y.srv.thrown
  {
    hide Act;
    hide Acts;
    var acts := [Other(StartCall), Other(Deliver), Other(Signal), Other(Deliver), BeginPass(Replies),
                 Other(ClientReceives), Other(Deliver)];
    var m1 := CallArrives(Initially);
    var m2 := SignalBehind(m1, 0);
    var m3 := AnswerPushedBack(m2, 0);
    DeliverThrows(m3, Answer(0));
    TwoActs(Initially, acts, 0);
    TwoActs(m1, acts, 2);
    TwoActs(m2, acts, 4);
    assert acts[0..] == acts && acts[6..] == [Other(Deliver)];
  }

  lemma EndThrows(m: Machine)
    requires m.finishing && m.y.srv.pending.Some? && m.y.srv.pendingInterrupts != []
    ensures Acts(m, [EndPass]).y.srv.thrown
  {
    assert [EndPass][1..] == [];
  }

  lemma DeliverThrows(m: Machine, reply: Reply)
    requires m.y.frames != [] && m.y.toServer == [PushReply(reply)]
    requires m.y.srv.pending.None? && m.y.srv.interrupts == []
    ensures Acts(m, [Other(Deliver)]).y.srv.thrown
  {
    assert [Other(Deliver)][1..] == [];
  }

  /** The second clash: the client has its answer, makes another call and gets a signal,
      all before the pass that sent the answer is over. */
  lemma NextCallTooEarly()
    ensures var acts := [Other(StartCall), Other(Deliver), BeginPass(Replies), Other(ClientReceives),
                         Other(StartCall), Other(Deliver), Other(Signal), Other(Deliver), EndPass];
            Acts(Initially, acts).y.srv.thrown
  {
    hide Act;
    hide Acts;
    var acts := [Other(StartCall), Other(Deliver), BeginPass(Replies), Other(ClientReceives),
                 Other(StartCall), Other(Deliver), Other(Signal), Other(Deliver), EndPass];
    var m1 := CallArrives(Initially);
    var m2 := AnswerArrives(m1, 0);
    var m3 := CallArrives(m2);
    var m4 := SignalBehind(m3, 1);
    EndThrows(m4);
    TwoActs(Initially, acts, 0);
    TwoActs(m1, acts, 2);
    TwoActs(m2, acts, 4);
    TwoActs(m3, acts, 6);
    assert acts[0..] == acts && acts[8..] == [EndPass];
  }
}
