/**
 The work of a kqueue channel ends, and when it has ended the client knows: whatever
 order the steps under way are taken in, and without a further event or request, a
 live client with a queued event has got a notification that it has not acknowledged.
 */
module KqchanProgress {
  import opened Counting
  import opened Options
  import opened KqchanGate
  import opened Kqchan

  /** A step of what is under way: nobody asks for anything new. */
  predicate Internal(st: Step) {
    || st.PushNotification? || st.FinishSetup? || st.Pop? || st.PushReply? || st.FinishRead?
    || st.PushModify? || st.Send? || st.Look? || st.Act?
  }

  function ItemWeight(item: Item): nat {
    if item.Notification? then 1 else 6
  }

  function Weight(items: seq<Item>): nat {
    if items == [] then 0 else ItemWeight(items[0]) + Weight(items[1..])
  }

  function HandlerWeight(h: Handler): nat {
    match h
    case Idle => 0
    case Popping => 9
    case Replying(_) => 8
    case Finishing => 1
    case Modifying => 7
  }

  function GateWeight(g: Gate): nat {
    (if g.out <= |g.log| then Weight(g.log[g.out..]) else 0) + 2 * |g.hand| + 3 * One(g.slot.Some?)
  }

  /** How much is still to be done. */
  function Rank(p: Proc): nat {
    GateWeight(p.g) + HandlerWeight(p.handler) + 4 * p.looking + 5 * p.checks +
    4 * One(p.setup.SettingUp?) + |p.events|
  }

  lemma {:induction false} WeightSnoc(items: seq<Item>, item: Item)
    ensures Weight(items + [item]) == Weight(items) + ItemWeight(item)
  {
    if items == [] {
      assert items + [item] == [item] && [item][1..] == [];
    } else {
      WeightSnoc(items[1..], item);
      assert (items + [item])[1..] == items[1..] + [item];
    }
  }

  lemma PushWeighs(g: Gate, item: Item)
    requires g.out <= |g.log|
    ensures GateWeight(Push(g, item)) == GateWeight(g) + ItemWeight(item)
  {
    WeightSnoc(g.log[g.out..], item);
    assert Push(g, item).log[g.out..] == g.log[g.out..] + [item];
  }

  lemma RaiseWeighs(g: Gate)
    ensures GateWeight(Raise(g)) <= GateWeight(g) + 3
  {
    hide Weight;
  }

  lemma StopWeighs(g: Gate)
    ensures GateWeight(StopDeferring(g)) <= GateWeight(g)
  {
    hide Weight;
  }

  lemma PushRaisedWeighs(g: Gate, e: nat)
    requires g.out <= |g.log| && e in g.hand
    ensures GateWeight(PushRaised(g, e)) < GateWeight(g)
  {
    hide Weight;
    PushWeighs(g.(hand := g.hand - {e}), Notification(e));
  }

  lemma EmitWeighs(g: Gate)
    requires g.out < |g.log|
    ensures GateWeight(Emit(g)) + ItemWeight(g.log[g.out]) == GateWeight(g)
  {
    assert g.log[g.out..][1..] == g.log[g.out + 1..];
  }

  /** Every internal step that changes anything lowers the rank. */
  lemma EffectIsProgress(p: Proc, st: Step)
    requires p.g.out <= |p.g.log| && Internal(st)
    ensures Do(p, st) == p || Rank(Do(p, st)) < Rank(p)
  {
    hide GateWeight;
    hide Wanted;
    RaiseWeighs(p.g);
    StopWeighs(p.g);
    match st
    case PushNotification(e) =>
      if e in p.g.hand {
        PushRaisedWeighs(p.g, e);
      }
    case FinishSetup =>
    case Pop =>
    case PushReply =>
      if p.handler.Replying? {
        PushWeighs(p.g, ReadReply(p.g.epoch, p.handler.answer));
      }
    case FinishRead =>
    case PushModify => PushWeighs(p.g, ModifyReply);
    case Send =>
      if p.g.out < |p.g.log| {
        EmitWeighs(p.g);
      }
    case Look =>
    case Act =>
  }

  /** Nothing is left to do. */
  ghost predicate Settled(p: Proc) {
    forall st | Internal(st) :: Do(p, st) == p
  }

  /** That is so exactly when everything raised and answered has been sent, nobody is
      checking, and no request is being handled. */
  lemma SettledMeansDone(p: Proc)
    requires GateOk(p)
    ensures Settled(p) <==>
            && p.handler.Idle? && !p.setup.SettingUp? && p.checks == 0 && p.looking == 0
            && p.g.hand == {} && p.g.slot.None? && p.g.out == |p.g.log|
  {
    hide Wanted;
    if p.g.hand != {} {
      var e :| e in p.g.hand;
      PushRaisedWeighs(p.g, e);
      assert Internal(Kqchan.Step.PushNotification(e));
    }
    if Settled(p) {
      StepsSettled(p);
    }
  }

  lemma StepsSettled(p: Proc)
    requires GateOk(p) && Settled(p)
    ensures p.handler.Idle? && !p.setup.SettingUp? && p.checks == 0 && p.looking == 0 && p.g.out == |p.g.log|
  {
    assert Do(p, FinishSetup) == p && Do(p, Look) == p && Do(p, Act) == p && Do(p, Kqchan.Step.Send) == p;
    HandlerSettled(p);
    hide Popped;
    hide Raise;
  }

  lemma HandlerSettled(p: Proc)
    requires Settled(p)
    ensures p.handler.Idle?
  {
    hide Wanted;
    hide Raise;
    hide StopDeferring;
    assert Do(p, Pop).handler == p.handler && Do(p, PushReply).handler == p.handler;
    assert Do(p, FinishRead).handler == p.handler && Do(p, PushModify).handler == p.handler;
    assert p.handler.Popping? ==> Do(p, Pop).events == p.events;
  }

  /** How many steps of a run change anything. */
  function Effective(p: Proc, sts: seq<Step>): nat
    decreases |sts|
  {
    if sts == [] then 0 else One(Do(p, sts[0]) != p) + Effective(Do(p, sts[0]), sts[1..])
  }

  lemma {:induction false} WorkEnds(p: Proc, sts: seq<Step>)
    requires Sound(p) && forall st | st in sts :: Internal(st)
    ensures Sound(Kqchan.Run(p, sts)) && Effective(p, sts) + Rank(Kqchan.Run(p, sts)) <= Rank(p)
    decreases |sts|
  {
    hide Do;
    hide Rank;
    hide Internal;
    hide NotForgotten;
    hide InOrder;
    if sts != [] {
      assert sts[0] in sts;
      EffectIsProgress(p, sts[0]);
      StepKeepsSound(p, sts[0]);
      WorkEnds(Do(p, sts[0]), sts[1..]);
    }
  }

  /** From any reachable state, in any order of the internal steps: only so many of them
      have an effect, and when none has one left, a live client of a channel with a
      socket and a queued event has been sent a notification that it has not answered
      by a read. */
  lemma ClientIsTold(flags: Flags, before: seq<Step>, sts: seq<Step>)
    requires forall st | st in sts :: Internal(st)
    ensures var p := Kqchan.Run(Fresh(flags), before);
            var p' := Kqchan.Run(p, sts);
            && Effective(p, sts) + Rank(p') <= Rank(p)
            && (Settled(p') && !p'.dead && !p'.setup.NoSocket? && p'.events != [] ==>
                  p'.g.out == |p'.g.log| && Notification(p'.g.epoch) in p'.g.log)
  {
    RunKeeps(Fresh(flags), before);
    var p := Kqchan.Run(Fresh(flags), before);
    WorkEnds(p, sts);
    SettledMeansDone(Kqchan.Run(p, sts));
    hide Settled;
    hide InOrder;
  }

  function SetupStage(setup: Setup): nat {
    match setup
    case NoSocket => 0
    case SettingUp => 1
    case Up => 2
  }

  /** A channel gets its socket once and is set up once: no step takes that back, and
      asking for the socket gets it. */
  lemma SetupOnlyAdvances(p: Proc, st: Step)
    ensures var before, after := SetupStage(p.setup), SetupStage(Do(p, st).setup);
            && before <= after <= before + 1
            && (after > before ==> st == if before == 0 then GetSocket else FinishSetup)
            && (st.GetSocket? ==> after > 0) && (st.FinishSetup? && before > 0 ==> after == 2)
  {
    hide Wanted;
    hide Raise;
  }

  /** The flags of the last modify request of a run that finds the handler idle, or
      `flags` if there is none. */
  function LastFlags(p: Proc, sts: seq<Step>, flags: Flags): Flags
    decreases |sts|
  {
    if sts == [] then flags
    else LastFlags(Do(p, sts[0]), sts[1..], if sts[0].ModifyArrives? && p.handler.Idle? then sts[0].flags else flags)
  }

  lemma OnlyModifyChangesFlags(p: Proc, st: Step)
    ensures Do(p, st).flags == if st.ModifyArrives? && p.handler.Idle? then st.flags else p.flags
    ensures Do(p, st).dead <==> p.dead || st.PeerDies?
  {
    hide Wanted;
    hide Raise;
  }

  /** They are the flags in force, and the peer is dead exactly once it has died. */
  lemma {:induction false} FlagsAreLastModified(p: Proc, sts: seq<Step>)
    ensures Kqchan.Run(p, sts).flags == LastFlags(p, sts, p.flags)
    ensures Kqchan.Run(p, sts).dead <==> p.dead || PeerDies in sts
    decreases |sts|
  {
    hide Do;
    if sts != [] {
      OnlyModifyChangesFlags(p, sts[0]);
      FlagsAreLastModified(Do(p, sts[0]), sts[1..]);
      assert sts == [sts[0]] + sts[1..];
    }
  }

  /** How many modify requests a run takes up. */
  function ModifiesIn(p: Proc, sts: seq<Step>): nat
    decreases |sts|
  {
    if sts == [] then 0
    else One(sts[0].ModifyArrives? && p.handler.Idle?) + ModifiesIn(Do(p, sts[0]), sts[1..])
  }

  function ModifyReplies(g: Gate): nat {
    Count(g.log, (item: Item) => item.ModifyReply?)
  }

  lemma PushCountsModify(g: Gate, item: Item)
    ensures ModifyReplies(Push(g, item)) == ModifyReplies(g) + One(item.ModifyReply?)
  {
    CountSnoc(g.log, item, (item: Item) => item.ModifyReply?);
  }

  /** The gate's other operations push nothing, or a notification. */
  lemma GateAnswersNothing(g: Gate, e: nat)
    ensures ModifyReplies(Raise(g)) == ModifyReplies(BeginRead(g)) == ModifyReplies(g)
    ensures ModifyReplies(StopDeferring(g)) == ModifyReplies(Emit(g)) == ModifyReplies(g)
    ensures ModifyReplies(PushRaised(g, e)) == ModifyReplies(g)
  {
    PushCountsModify(g.(hand := g.hand - {e}), Notification(e));
    hide Count;
  }

  lemma StepAnswersModify(p: Proc, st: Step)
    ensures var p' := Do(p, st);
            ModifyReplies(p'.g) + One(p'.handler.Modifying?) ==
            ModifyReplies(p.g) + One(p.handler.Modifying?) + One(st.ModifyArrives? && p.handler.Idle?)
  {
    hide Wanted;
    hide ModifyReplies;
    GateAnswersNothing(p.g, if st.PushNotification? then st.epoch else 0);
    PushCountsModify(p.g, ModifyReply);
    if st.PushReply? && p.handler.Replying? {
      PushCountsModify(p.g, ReadReply(p.g.epoch, p.handler.answer));
    }
    hide Raise;
    hide BeginRead;
    hide StopDeferring;
    hide Emit;
    hide PushRaised;
    hide Push;
  }

  /** Each of them is answered, but for the one being handled. */
  lemma {:induction false} EveryModifyIsAnswered(p: Proc, sts: seq<Step>)
    ensures var p' := Kqchan.Run(p, sts);
            ModifyReplies(p'.g) + One(p'.handler.Modifying?) ==
            ModifyReplies(p.g) + One(p.handler.Modifying?) + ModifiesIn(p, sts)
    decreases |sts|
  {
    hide Do;
    hide ModifyReplies;
    if sts != [] {
      StepAnswersModify(p, sts[0]);
      EveryModifyIsAnswered(Do(p, sts[0]), sts[1..]);
    }
  }

  // ---------------------------------------------------------------- the gate with overlapping reads

  /** A step of what is under way on the channel. */
  predicate UnderWay(ev: Event) {
    ev.PushNotification? || ev.Reply? || ev.Finish? || ev.Send?
  }

  function ChannelRank(c: Channel): nat {
    GateWeight(c.g) + 8 * |c.replying| + |c.finishing|
  }

  lemma ChannelProgress(c: Channel, ev: Event)
    requires c.g.out <= |c.g.log| && UnderWay(ev)
    ensures KqchanGate.Step(c, ev) == c || ChannelRank(KqchanGate.Step(c, ev)) < ChannelRank(c)
  {
    hide GateWeight;
    StopWeighs(c.g);
    match ev
    case PushNotification(e) =>
      if e in c.g.hand {
        PushRaisedWeighs(c.g, e);
      }
    case Reply(r) => PushWeighs(c.g, ReadReply(r, None));
    case Finish(_) =>
    case Send =>
      if c.g.out < |c.g.log| {
        EmitWeighs(c.g);
      }
  }

  ghost predicate ChannelSettled(c: Channel) {
    forall ev | UnderWay(ev) :: KqchanGate.Step(c, ev) == c
  }

  lemma ChannelSettledMeansDone(c: Channel)
    requires c.g.out <= |c.g.log|
    ensures ChannelSettled(c) <==>
            c.replying == {} && c.finishing == {} && c.g.hand == {} && c.g.out == |c.g.log|
  {
    if c.g.out < |c.g.log| {
      Moves(c, Event.Send);
    } else if c.g.hand != {} {
      var e :| e in c.g.hand;
      PushRaisedWeighs(c.g, e);
      Moves(c, Event.PushNotification(e));
    } else if c.replying != {} {
      var r :| r in c.replying;
      assert r !in KqchanGate.Step(c, Reply(r)).replying;
      Moves(c, Reply(r));
    } else if c.finishing != {} {
      var r :| r in c.finishing;
      assert r !in KqchanGate.Step(c, Finish(r)).finishing;
      Moves(c, Finish(r));
    }
  }

  lemma Moves(c: Channel, ev: Event)
    requires UnderWay(ev) && KqchanGate.Step(c, ev) != c
    ensures !ChannelSettled(c)
  {
    hide KqchanGate.Step;
  }

  /** A client that keeps the rules and is owed a notification gets it: when nothing is
      left to do on the channel, it may read, or there was nothing to tell it. */
  lemma DisciplinedClientIsTold(c: Channel)
    requires Orderly(c) && ChannelSettled(c)
    ensures c.g.canSend || MayRead(c)
  {
    ChannelSettledMeansDone(c);
    hide ChannelSettled;
    var g := c.g;
    if !g.canSend {
      assert Plain(g.log)[2 * g.epoch] == Notification(g.epoch);
      PlainOnly(g.log, 2 * g.epoch);
      assert g.log[..g.out] == g.log;
    }
  }

  lemma {:induction false} PlainOnly(log: seq<Item>, i: nat)
    requires i < |Plain(log)|
    ensures Plain(log)[i] in log
  {
    var n := |log| - 1;
    if i < |Plain(log[..n])| {
      PlainOnly(log[..n], i);
    }
  }

  /** The replies on the channel are those of the reads and modify requests: one for each
      reply pushed and one for each modify request. */
  function Replies(log: seq<Item>, forModify: bool): nat {
    Count(log, (item: Item) => if forModify then item.ModifyReply? else item.ReadReply?)
  }

  function RepliedIn(c: Channel, evs: seq<Event>, forModify: bool): nat
    decreases |evs|
  {
    if evs == [] then 0
    else One(if forModify then evs[0].Modified? else evs[0].Reply? && evs[0].r in c.replying) +
         RepliedIn(KqchanGate.Step(c, evs[0]), evs[1..], forModify)
  }

  lemma {:induction false} EveryReplyIsLogged(c: Channel, evs: seq<Event>, forModify: bool)
    ensures Replies(KqchanGate.Run(c, evs).g.log, forModify) ==
            Replies(c.g.log, forModify) + RepliedIn(c, evs, forModify)
    decreases |evs|
  {
    hide Count;
    if evs != [] {
      var c' := KqchanGate.Step(c, evs[0]);
      if |c'.g.log| > |c.g.log| {
        CountSnoc(c.g.log, c'.g.log[|c.g.log|],
                  (item: Item) => if forModify then item.ModifyReply? else item.ReadReply?);
      }
      EveryReplyIsLogged(c', evs[1..], forModify);
    }
  }
}
