/**
 The server thread's call and interrupt fields as the code updates them.

 `world` is the system that the thread is part of: its client, and the messages that
 are on their way.  What the client does in between is not the thread's business, as
 long as it is one of the client's steps.
 */
module InterruptThread {
  import opened Interrupts
  import opened Options

  class ServerThread {
    var pendingCall: Option<Call>
    var activeCall: Option<Call>
    var suspended: bool
    var continuationCallback: bool
    var interrupts: seq<Ctx>
    var interruptedForSignal: bool
    var interruptedContinuation: bool
    var handlingInterruptedCall: bool
    var pendingCallOverride: bool
    var pendingSavedReply: Option<Reply>
    var pendingInterrupts: seq<Call>
    var sent: seq<Reply>
    var thrown: bool
    ghost var world: System

    /** The thread is in one of the states that can be reached together with its
        client. */
    ghost predicate Valid()
      reads this
    {
      world.srv == Snapshot() && Inv(world)
    }

    ghost function Snapshot(): Server
      reads this
    {
      Server(pendingCall, activeCall, suspended, continuationCallback, interrupts, interruptedForSignal,
             interruptedContinuation, handlingInterruptedCall, pendingCallOverride, pendingSavedReply,
             pendingInterrupts, sent, thrown)
    }

    constructor ()
      ensures Valid() && world == Start
    {
      pendingCall, activeCall, pendingSavedReply := None, None, None;
      suspended, continuationCallback, interruptedForSignal, interruptedContinuation := false, false, false, false;
      handlingInterruptedCall, pendingCallOverride, thrown := false, false, false;
      interrupts, pendingInterrupts, sent := [], [], [];
      world := Start;
      new;
      assert Levels(Start.frames[..0]) == [];
    }

    // ---------------------------------------------------------------- messages

    /** A request arrives: it is never refused.  It becomes the pending call, or, if it
        is an interrupt_enter over a pending call, the only one to wait behind it. */
    method SetPendingCall(call: Call)
      requires Valid() && world.toServer != [] && world.toServer[0] == Request(call)
      modifies this
      ensures Valid() && world == Delivers(old(world)) && !thrown
      ensures if old(pendingCall).None? then pendingCall == Some(call) && pendingInterrupts == old(pendingInterrupts)
              else call.InterruptEnter? && pendingCall == old(pendingCall) && pendingInterrupts == [call]
    {
      DeliverySucceeds(world);
      hide Inv;
      world := Delivers(world);
      AcceptCall(call);
    }

    /** The body of `setPendingCall`, with all three branches. */
    method AcceptCall(call: Call)
      modifies this`pendingCall, this`pendingInterrupts, this`thrown
      ensures Snapshot() == SetPending(old(Snapshot()), call)
    {
      if pendingCall.None? {
        pendingCall := Some(call);
      } else if call.InterruptEnter? {
        pendingInterrupts := pendingInterrupts + [call];
      } else {
        thrown := true;
      }
    }

    /** A reply is pushed back: it is kept, for the pending interrupt_enter or in the top
        context, and overwrites nothing. */
    method ReceivePushedReply(reply: Reply)
      requires Valid() && world.toServer != [] && world.toServer[0] == PushReply(reply)
      modifies this
      ensures Valid() && world == Delivers(old(world)) && !thrown
      ensures pendingSavedReply == Some(reply) ||
              (interrupts != [] && interrupts[|interrupts| - 1].savedReply == Some(reply))
    {
      DeliverySucceeds(world);
      hide Inv;
      world := Delivers(world);
      SaveReply(reply);
    }

    /** The push_reply branch of `callFromMessage`. */
    method SaveReply(reply: Reply)
      modifies this`pendingSavedReply, this`interrupts, this`thrown
      ensures Snapshot() == SavePushed(old(Snapshot()), reply)
    {
      if pendingCall.Some? && pendingCall.value.InterruptEnter? {
        pendingSavedReply := Some(reply);
      } else if interrupts == [] || interrupts[|interrupts| - 1].savedReply.Some? {
        thrown := true;
      } else {
        SetTopContext(interrupts[|interrupts| - 1].(savedReply := Some(reply)));
      }
    }

    // ---------------------------------------------------------------- work

    /** One pass of `doWork`: no check fails, what was sent stays sent, and every call
        that a frame of the client waits for is still in exactly one place. */
    method DoWorkPass(how: How)
      requires Valid()
      modifies this
      ensures Valid() && world == Works(old(world), how) && !thrown
      ensures forall id :: Copies(world, id) == WaitingFor(world.frames, id)
    {
      WorkKeepsInv(world, how);
      ghost var next := Works(world, how);
      NotThrown(next);
      forall id
        ensures Copies(next, id) == WaitingFor(next.frames, id)
      {
        OneCopy(next, id);
      }
      hide Inv;
      hide Copies;
      hide DoWork;
      hide PassBody;
      hide PassEnd;
      RunPass(how);
      EndPass();
      assert Snapshot() == DoWork(old(Snapshot()), how) by { UnfoldWork(old(Snapshot()), how); }
      world := next;
    }

    static lemma UnfoldWork(s: Server, how: How)
      ensures DoWork(s, how) == PassEnd(PassBody(s, how))
    {
    }

    /** `doneWorking`: an interrupt that waited behind the call is pending now. */
    method EndPass()
      modifies this`pendingCall, this`pendingInterrupts, this`thrown
      ensures Snapshot() == PassEnd(old(Snapshot()))
    {
      if !thrown && pendingInterrupts != [] {
        if pendingCall.Some? {
          thrown := true;
          return;
        }
        pendingCall := Some(pendingInterrupts[0]);
        pendingInterrupts := pendingInterrupts[1..];
      }
    }

    method RunPass(how: How)
      modifies this
      ensures Snapshot() == PassBody(old(Snapshot()), how) && world == old(world)
    {
      hide Continue;
      hide Process;
      OpenInterruptContext();
      hide OpenContext;
      if continuationCallback && pendingCall.Some? {
        thrown := true;
        return;
      }
      if suspended && (pendingCallOverride || pendingCall.None?) {
        suspended := false;
        continuationCallback := false;
        RunCurrentCall(how);
      } else if pendingCall.Some? {
        suspended := false;
        var call := pendingCall.value;
        activeCall := pendingCall;
        pendingCall := None;
        ProcessCall(call, how);
      }
    }

    /** A pending interrupt_enter interrupts whatever the thread was doing. */
    method OpenInterruptContext()
      modifies this
      ensures Snapshot() == OpenContext(old(Snapshot())) && world == old(world)
    {
      if !pendingCallOverride && pendingCall == Some(InterruptEnter) {
        interrupts := interrupts + [Ctx(None, activeCall)];
        interruptedContinuation := continuationCallback;
        continuationCallback := false;
        activeCall := None;
      }
    }

    /** `processCall` of the kind at hand. */
    method ProcessCall(call: Call, how: How)
      modifies this
      ensures Snapshot() == Process(old(Snapshot()), call, how) && world == old(world)
    {
      hide Continue;
      hide EnterInterrupt;
      hide ExitInterrupt;
      match call
      case Normal(_) => RunCurrentCall(how);
      case InterruptEnter => ProcessInterruptEnter(how);
      case InterruptExit => ProcessInterruptExit();
    }

    /** The current call runs on, as far as it gets: its code, `syscallReturn` and
        the ways back to the top. */
    method RunCurrentCall(how: How)
      modifies this
      ensures Snapshot() == Continue(old(Snapshot()), how) && world == old(world)
    {
      hide FinishEnter;
      hide PushCallReply;
      if how.Suspends? {
        suspended := true;
        continuationCallback := how.withContinuation;
        return;
      }
      var call := activeCall;
      if interruptedForSignal {
        call := if interrupts == [] then None else interrupts[|interrupts| - 1].interruptedCall;
      }
      if call.None? || !call.value.Normal? {
        thrown := true;
        return;
      }
      ReplyTo(call.value, Answer(call.value.id));
      if interruptedForSignal && !thrown {
        assert interrupts != [] by { assert old(interrupts) != []; }
        EndInterruptEnter();
      }
    }

    /** `pushCallReply`: an answer takes the place of its call. */
    method ReplyTo(expected: Call, reply: Reply)
      modifies this`activeCall, this`interrupts, this`thrown, this`sent
      ensures Snapshot() == PushCallReply(old(Snapshot()), expected, reply)
      ensures |interrupts| == |old(interrupts)|
      ensures !old(thrown) && !thrown && expected.Normal? && reply == Answer(expected.id) ==>
                forall id :: CopiesOnServer(Snapshot(), id) == CopiesOnServer(old(Snapshot()), id)
    {
      ghost var s := Snapshot();
      if !s.thrown && expected.Normal? && reply == Answer(expected.id) && !PushCallReply(s, expected, reply).thrown {
        forall id
          ensures CopiesOnServer(PushCallReply(s, expected, reply), id) == CopiesOnServer(s, id)
        {
          AnswerReplacesCall(s, expected.id, id);
        }
      }
      hide CopiesOnServer;
      hide Deactivated;
      hide KeepOrSend;
      var ok := DeactivateCall(expected);
      if ok {
        SaveOrSendReply(reply);
      }
    }

    /** `_deactivateCallLocked`. */
    method DeactivateCall(expected: Call) returns (ok: bool)
      modifies this`activeCall, this`interrupts, this`thrown
      ensures ok <==> CurrentCall(old(Snapshot())) == Some(expected)
      ensures Snapshot() == if ok then Deactivated(old(Snapshot())) else Throw(old(Snapshot()))
      ensures |interrupts| == |old(interrupts)|
    {
      ok := true;
      if interruptedForSignal {
        if interrupts == [] || interrupts[|interrupts| - 1].interruptedCall != Some(expected) {
          thrown, ok := true, false;
          return;
        }
        SetTopContext(interrupts[|interrupts| - 1].(interruptedCall := None));
      } else {
        if activeCall != Some(expected) {
          thrown, ok := true, false;
          return;
        }
        activeCall := None;
      }
    }

    method SaveOrSendReply(reply: Reply)
      requires interruptedForSignal ==> interrupts != []
      modifies this`interrupts, this`thrown, this`sent
      ensures Snapshot() == KeepOrSend(old(Snapshot()), reply)
      ensures |interrupts| == |old(interrupts)|
    {
      if interruptedForSignal {
        if interrupts[|interrupts| - 1].savedReply.Some? {
          thrown := true;
          return;
        }
        SetTopContext(interrupts[|interrupts| - 1].(savedReply := Some(reply)));
      } else {
        sent := sent + [reply];
      }
    }

    method SetTopContext(ctx: Ctx)
      requires interrupts != []
      modifies this`interrupts
      ensures interrupts == old(interrupts)[|old(interrupts)| - 1 := ctx]
    {
      interrupts := interrupts[|interrupts| - 1 := ctx];
    }

    /** `InterruptEnter::processCall`. */
    method ProcessInterruptEnter(how: How)
      modifies this
      ensures Snapshot() == EnterInterrupt(old(Snapshot()), how) && world == old(world)
    {
      hide RunInterrupted;
      if interrupts == [] {
        thrown := true;
        return;
      }
      if pendingSavedReply.Some? {
        if interrupts[|interrupts| - 1].savedReply.Some? {
          thrown := true;
          return;
        }
        SetTopContext(interrupts[|interrupts| - 1].(savedReply := pendingSavedReply));
        pendingSavedReply := None;
      }
      assert Snapshot() == TakePushed(old(Snapshot()));
      ResumeInterruptedCall(how);
    }

    method ResumeInterruptedCall(how: How)
      requires interrupts != []
      modifies this
      ensures Snapshot() == RunInterrupted(old(Snapshot()), how) && world == old(world)
    {
      hide Continue;
      hide FinishEnter;
      interruptedForSignal := true;
      var hadContinuation := interruptedContinuation;
      interruptedContinuation := false;
      if hadContinuation {
        RunCurrentCall(how);
      } else if interrupts[|interrupts| - 1].interruptedCall.Some? {
        handlingInterruptedCall := true;
        pendingCallOverride := true;
        RunCurrentCall(how);
      } else {
        EndInterruptEnter();
      }
    }

    /** The end of `_handleInterruptEnterForCurrentThread`, and the reply to
        interrupt_enter. */
    method EndInterruptEnter()
      requires interrupts != []
      modifies this
      ensures Snapshot() == FinishEnter(old(Snapshot())) && world == old(world)
    {
      hide PushCallReply;
      if handlingInterruptedCall {
        handlingInterruptedCall := false;
        pendingCallOverride := false;
      }
      interruptedForSignal := false;
      SetTopContext(interrupts[|interrupts| - 1].(interruptedCall := None));
      ReplyTo(InterruptEnter, EnterAck);
    }

    /** `InterruptExit::processCall`: its own reply, and directly behind it the one that
        was saved. */
    method ProcessInterruptExit()
      modifies this
      ensures Snapshot() == ExitInterrupt(old(Snapshot())) && world == old(world)
    {
      hide CopiesOnServer;
      hide PushCallReply;
      ReplyTo(InterruptExit, ExitAck);
      if thrown || interrupts == [] {
        thrown := true;
        return;
      }
      var top := interrupts[|interrupts| - 1];
      interrupts := interrupts[..|interrupts| - 1];
      if top.savedReply.Some? {
        sent := sent + [top.savedReply.value];
      } else {
        assert sent == sent + [];
      }
    }
  }
}
