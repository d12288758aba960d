/**
 The kqueue channel of a watched process: its events are queued, the client is
 notified, and reads the events one by one.

 The message handler works on one request at a time; process events, the re-checks
 that run when a reply has been sent, and the pushes of notifications may happen
 between any two of its steps.
 */
module Kqchan {
  import opened Options
  import opened KqchanGate

  datatype Ev = Ev(mask: Flags, data: int)

  datatype Setup = NoSocket | SettingUp | Up

  /** What the message handler is doing: nothing, looking for an event to return,
      about to push the reply to a read, about to send what was deferred, or about
      to push the reply to a modify request. */
  datatype Handler = Idle | Popping | Replying(answer: Option<Answer>) | Finishing | Modifying

  /** `checks` are scheduled re-checks, `looking` those that have seen an event and
      will raise a notification.  `notified` are all events so far and `popped` those
      taken off the queue with the flags at that time. */
  datatype Proc = Proc(g: Gate, setup: Setup, events: seq<Ev>, flags: Flags, handler: Handler,
                       checks: nat, looking: nat, dead: bool,
                       notified: seq<Ev>, popped: seq<(Ev, Flags)>)

  function Fresh(flags: Flags): Proc {
    Proc(OpenGate, NoSocket, [], flags, Idle, 0, 0, false, [], [])
  }

  // ---------------------------------------------------------------- the steps

  datatype Step =
    | Notify(e: Ev)
    | PushNotification(epoch: nat)
    | GetSocket
    | FinishSetup
    | ReadArrives
    | Pop
    | PushReply
    | FinishRead
    | ModifyArrives(flags: Flags)
    | PushModify
    | Send
    | PeerDies
    | Look
    | Act

  /** `_notify`. */
  function Notified(p: Proc, e: Ev): Proc {
    p.(events := p.events + [e], notified := p.notified + [e], g := if p.setup.NoSocket? then p.g else Raise(p.g))
  }

  /** The end of `setup`. */
  function SetupChecked(p: Proc): Proc {
    p.(setup := Up, g := if p.events == [] then p.g else Raise(p.g))
  }

  /** The part of an event's flags that the client asked for. */
  function Wanted(e: Ev, flags: Flags): Flags {
    e.mask & flags
  }

  /** One turn of the loop in `_read`. */
  function Popped(p: Proc): Proc {
    if p.events == [] then p.(handler := Replying(None))
    else
      var e, hit := p.events[0], Wanted(p.events[0], p.flags);
      p.(events := p.events[1..], popped := p.popped + [(e, p.flags)],
         handler := if hit == 0 then Popping else Replying(Some(Answer(e.data, hit))))
  }

  /** The beginning of `_read`. */
  function Acknowledged(p: Proc): Proc {
    p.(g := BeginRead(p.g), handler := Popping)
  }

  function ReplyPushed(p: Proc): Proc
    requires p.handler.Replying?
  {
    p.(g := Push(p.g, ReadReply(p.g.epoch, p.handler.answer)), handler := Finishing)
  }

  /** The end of `_read`. */
  function ReadFinished(p: Proc): Proc {
    p.(g := StopDeferring(p.g), handler := Idle)
  }

  /** A message leaves the outbox; once a reply is sent, its callback schedules a
      re-check.  With the peer dead it is dropped. */
  function Sent(p: Proc): Proc {
    if p.g.out >= |p.g.log| then p
    else p.(g := Emit(p.g), checks := p.checks + if p.dead || p.g.log[p.g.out].Notification? then 0 else 1)
  }

  function Do(p: Proc, st: Step): Proc {
    match st
    case Notify(e) => Notified(p, e)
    case PushNotification(e) => p.(g := PushRaised(p.g, e))
    case GetSocket => if p.setup.NoSocket? then p.(setup := SettingUp) else p
    case FinishSetup => if p.setup.SettingUp? then SetupChecked(p) else p
    case ReadArrives => if p.handler.Idle? then Acknowledged(p) else p
    case Pop => if p.handler.Popping? then Popped(p) else p
    case PushReply => if p.handler.Replying? then ReplyPushed(p) else p
    case FinishRead => if p.handler.Finishing? then ReadFinished(p) else p
    case ModifyArrives(f) => if p.handler.Idle? then p.(flags := f, handler := Modifying) else p
    case PushModify => if p.handler.Modifying? then p.(g := Push(p.g, ModifyReply), handler := Idle) else p
    case Send => Sent(p)
    case PeerDies => p.(dead := true)
    case Look =>
      if p.checks > 0 then p.(checks := p.checks - 1, looking := p.looking + if p.events == [] then 0 else 1) else p
    case Act => if p.looking > 0 then p.(looking := p.looking - 1, g := Raise(p.g)) else p
  }

  function Run(p: Proc, sts: seq<Step>): Proc
    decreases |sts|
  {
    if sts == [] then p else Run(Do(p, sts[0]), sts[1..])
  }

  // ---------------------------------------------------------------- no event is forgotten

  /** The client has a notification coming that it has not answered by a read. */
  predicate Unacknowledged(g: Gate) {
    g.slot == Some(g.epoch) || g.epoch in g.hand || Notification(g.epoch) in g.log
  }

  /** A reply that will schedule a re-check is still in the outbox. */
  predicate RecheckQueued(g: Gate) {
    exists i :: 0 <= g.out <= i < |g.log| && !g.log[i].Notification?
  }

  predicate Reading(h: Handler) {
    h.Popping? || h.Replying? || h.Finishing?
  }

  ghost predicate GateOk(p: Proc) {
    && p.g.lost == 0 && p.g.out <= |p.g.log|
    && (p.g.defer <==> Reading(p.handler))
    && (p.g.slot.Some? ==> p.g.defer && !p.g.canSend && p.g.slot == Some(p.g.epoch))
    && (!p.g.canSend ==> Unacknowledged(p.g))
  }

  /** Somebody will see to it that the client looks at the queued events. */
  ghost predicate Attended(p: Proc) {
    || !p.g.canSend || p.handler.Popping? || p.handler.Replying? || RecheckQueued(p.g)
    || p.checks > 0 || p.looking > 0 || p.setup.SettingUp?
  }

  ghost predicate NotForgotten(p: Proc) {
    !p.dead && !p.setup.NoSocket? && p.events != [] ==> Attended(p)
  }

  lemma StepKeepsGate(p: Proc, st: Step)
    requires GateOk(p)
    ensures GateOk(Do(p, st))
  {
    hide Wanted;
    var g, g' := p.g, Do(p, st).g;
    if st.PushNotification? && st.epoch in g.hand {
      assert g'.log[|g.log|] == Notification(st.epoch);
    }
    if |g'.log| > |g.log| {
      assert forall x | x in g.log :: x in g'.log;
    }
  }

  lemma RecheckStays(p: Proc, st: Step)
    requires GateOk(p) && RecheckQueued(p.g) && !p.dead
    ensures var p' := Do(p, st);
            RecheckQueued(p'.g) || p'.checks > 0
  {
    hide Wanted;
    var g, p' := p.g, Do(p, st);
    var i :| 0 <= g.out <= i < |g.log| && !g.log[i].Notification?;
    assert p'.checks > 0 || (p'.g.out <= i < |p'.g.log| && p'.g.log[i] == g.log[i]);
  }

  lemma ReplyIsRechecked(p: Proc)
    requires GateOk(p) && p.handler.Replying?
    ensures RecheckQueued(Do(p, PushReply).g)
  {
    assert Do(p, PushReply).g.log[|p.g.log|] == ReadReply(p.g.epoch, p.handler.answer);
  }

  lemma StepForgetsNothing(p: Proc, st: Step)
    requires GateOk(p) && NotForgotten(p)
    ensures NotForgotten(Do(p, st))
  {
    if p.dead {
      assert Do(p, st).dead;
    } else {
      if RecheckQueued(p.g) {
        RecheckStays(p, st);
      }
      if st.PushReply? && p.handler.Replying? {
        ReplyIsRechecked(p);
      }
    }
  }

  // ---------------------------------------------------------------- what reads return

  function Events(popped: seq<(Ev, Flags)>): seq<Ev> {
    if popped == [] then [] else Events(popped[..|popped| - 1]) + [popped[|popped| - 1].0]
  }

  /** The answers to be given for the events popped: those whose flags matched. */
  function Matching(popped: seq<(Ev, Flags)>): seq<Answer> {
    if popped == [] then []
    else
      var (e, f) := popped[|popped| - 1];
      Matching(popped[..|popped| - 1]) + if Wanted(e, f) == 0 then [] else [Answer(e.data, Wanted(e, f))]
  }

  /** The events in the read replies, in order. */
  function Answers(log: seq<Item>): seq<Answer> {
    if log == [] then []
    else
      var item := log[|log| - 1];
      Answers(log[..|log| - 1]) + if item.ReadReply? && item.answer.Some? then [item.answer.value] else []
  }

  function ReadReplies(log: seq<Item>): seq<nat> {
    if log == [] then []
    else
      var item := log[|log| - 1];
      ReadReplies(log[..|log| - 1]) + if item.ReadReply? then [item.read] else []
  }

  /** One, two, three and so on. */
  function Upto(n: nat): seq<nat> {
    if n == 0 then [] else Upto(n - 1) + [n]
  }

  ghost predicate InOrder(p: Proc) {
    && p.notified == Events(p.popped) + p.events
    && Matching(p.popped) ==
       Answers(p.g.log) + (if p.handler.Replying? && p.handler.answer.Some? then [p.handler.answer.value] else [])
    && Upto(p.g.epoch) == ReadReplies(p.g.log) + (if p.handler.Popping? || p.handler.Replying? then [p.g.epoch] else [])
  }

  lemma LogSnoc(log: seq<Item>, item: Item)
    ensures Answers(log + [item]) ==
            Answers(log) + if item.ReadReply? && item.answer.Some? then [item.answer.value] else []
    ensures ReadReplies(log + [item]) == ReadReplies(log) + if item.ReadReply? then [item.read] else []
  {
    assert (log + [item])[..|log|] == log;
  }

  lemma PopSnoc(popped: seq<(Ev, Flags)>, e: Ev, f: Flags)
    ensures Events(popped + [(e, f)]) == Events(popped) + [e]
    ensures Matching(popped + [(e, f)]) ==
            Matching(popped) + if Wanted(e, f) == 0 then [] else [Answer(e.data, Wanted(e, f))]
  {
    hide Wanted;
    assert (popped + [(e, f)])[..|popped|] == popped;
  }

  lemma PopKeepsOrder(p: Proc)
    requires InOrder(p) && p.handler.Popping?
    ensures InOrder(Popped(p))
  {
    hide Wanted;
    hide Answers;
    hide ReadReplies;
    hide Matching;
    hide Events;
    hide Upto;
    if p.events != [] {
      var e, rest := p.events[0], p.events[1..];
      PopSnoc(p.popped, e, p.flags);
      assert Events(p.popped) + p.events == Events(p.popped) + [e] + rest;
    }
  }

  lemma ReplyKeepsOrder(p: Proc)
    requires InOrder(p) && p.handler.Replying?
    ensures InOrder(Do(p, PushReply))
  {
    hide Wanted;
    hide Answers;
    hide ReadReplies;
    hide Matching;
    hide Events;
    hide Upto;
    LogSnoc(p.g.log, ReadReply(p.g.epoch, p.handler.answer));
  }

  /** The other messages do not matter. */
  lemma OtherPushKeepsOrder(p: Proc, item: Item)
    requires !item.ReadReply?
    ensures Answers(p.g.log + [item]) == Answers(p.g.log) && ReadReplies(p.g.log + [item]) == ReadReplies(p.g.log)
  {
    LogSnoc(p.g.log, item);
  }

  lemma StepKeepsOrder(p: Proc, st: Step)
    requires InOrder(p)
    ensures InOrder(Do(p, st))
  {
    hide Wanted;
    hide Answers;
    hide ReadReplies;
    hide Matching;
    hide Events;
    hide Upto;
    if st.Pop? && p.handler.Popping? {
      PopKeepsOrder(p);
    } else if st.PushReply? && p.handler.Replying? {
      ReplyKeepsOrder(p);
    } else if st.PushNotification? {
      OtherPushKeepsOrder(p, Notification(st.epoch));
    } else if st.PushModify? {
      OtherPushKeepsOrder(p, ModifyReply);
    } else if st.Notify? {
      assert Events(p.popped) + (p.events + [st.e]) == Events(p.popped) + p.events + [st.e];
    } else if st.ReadArrives? {
      UptoSnoc(p.g.epoch);
    }
  }

  lemma UptoSnoc(n: nat)
    ensures Upto(n + 1) == Upto(n) + [n + 1]
  {
  }

  // ---------------------------------------------------------------- every run

  /** What holds between any two steps. */
  ghost predicate Sound(p: Proc) {
    GateOk(p) && NotForgotten(p) && InOrder(p)
  }

  lemma StepKeepsSound(p: Proc, st: Step)
    requires Sound(p)
    ensures Sound(Do(p, st))
  {
    hide GateOk;
    hide NotForgotten;
    hide InOrder;
    hide Do;
    StepKeepsGate(p, st);
    StepForgetsNothing(p, st);
    StepKeepsOrder(p, st);
  }

  lemma {:induction false} RunKeeps(p: Proc, sts: seq<Step>)
    requires Sound(p)
    ensures Sound(Run(p, sts))
    decreases |sts|
  {
    hide Sound;
    hide Do;
    if sts != [] {
      StepKeepsSound(p, sts[0]);
      RunKeeps(Do(p, sts[0]), sts[1..]);
    }
  }

  /** In every run from the start: while the client lives, queued events of a channel
      with a socket are attended to; while notifications are held back the client
      has one that it has not acknowledged; no notification is overwritten; events
      leave the queue in the order they came; the successful reads return exactly
      those whose flags matched when they were popped, in order; and every read is
      answered once, in order. */
  lemma EveryRun(flags: Flags, sts: seq<Step>)
    ensures var p := Run(Fresh(flags), sts);
            && (!p.dead && !p.setup.NoSocket? && p.events != [] ==> Attended(p))
            && (!p.g.canSend ==> Unacknowledged(p.g)) && p.g.lost == 0
            && InOrder(p) && p.notified == EventsOf(sts)
  {
    RunKeeps(Fresh(flags), sts);
    NotifiedIn(Fresh(flags), sts);
    assert [] + EventsOf(sts) == EventsOf(sts);
  }

  /** The events that a run brings. */
  function EventsOf(sts: seq<Step>): seq<Ev> {
    if sts == [] then [] else (if sts[0].Notify? then [sts[0].e] else []) + EventsOf(sts[1..])
  }

  /** All of them are queued, in order, and nothing else is. */
  lemma {:induction false} NotifiedIn(p: Proc, sts: seq<Step>)
    ensures Run(p, sts).notified == p.notified + EventsOf(sts)
    decreases |sts|
  {
    hide Wanted;
    if sts == [] {
      assert p.notified + [] == p.notified;
    } else {
      NotifiedIn(Do(p, sts[0]), sts[1..]);
      OneNotified(p, sts[0]);
      hide Do;
      var e := if sts[0].Notify? then [sts[0].e] else [];
      assert p.notified + (e + EventsOf(sts[1..])) == p.notified + e + EventsOf(sts[1..]);
    }
  }

  lemma OneNotified(p: Proc, st: Step)
    ensures Do(p, st).notified == p.notified + if st.Notify? then [st.e] else []
  {
    hide Wanted;
    hide Raise;
  }

  // ---------------------------------------------------------------- the flags of an answer

  /** All bits of `a` are set in `b`. */
  predicate Within(a: Flags, b: Flags) {
    a | b == b
  }

  /** `Wanted` is the largest set of bits that the event has and the client asked for. */
  lemma WantedIsCommon(e: Ev, flags: Flags, bits: Flags)
    ensures Within(Wanted(e, flags), flags) && Within(Wanted(e, flags), e.mask)
    ensures Within(bits, Wanted(e, flags)) <==> Within(bits, flags) && Within(bits, e.mask)
  {
    hide Within;
    hide Wanted;
    WantedWithin(e, flags);
    var w := Wanted(e, flags);
    if Within(bits, w) {
      WithinIsTransitive(bits, w, flags);
      WithinIsTransitive(bits, w, e.mask);
    } else if Within(bits, flags) && Within(bits, e.mask) {
      WantedIsLargest(e, flags, bits);
    }
  }

  lemma WantedWithin(e: Ev, flags: Flags)
    ensures Within(Wanted(e, flags), flags) && Within(Wanted(e, flags), e.mask)
  {
  }

  lemma WantedIsLargest(e: Ev, flags: Flags, bits: Flags)
    requires Within(bits, flags) && Within(bits, e.mask)
    ensures Within(bits, Wanted(e, flags))
  {
  }

  lemma WithinIsTransitive(x: Flags, y: Flags, z: Flags)
    requires Within(x, y) && Within(y, z)
    ensures Within(x, z)
  {
  }

  /** The event has something that the client asked for. */
  ghost predicate AskedFor(popped: (Ev, Flags)) {
    exists bits: Flags :: bits != 0 && Within(bits, popped.0.mask) && Within(bits, popped.1)
  }

  /** The answer is about the event, and says all that the client asked for and nothing
      else. */
  ghost predicate AnswerTo(a: Answer, popped: (Ev, Flags)) {
    && a.data == popped.0.data && a.fflags != 0
    && forall bits: Flags :: Within(bits, a.fflags) <==> Within(bits, popped.0.mask) && Within(bits, popped.1)
  }

  lemma WantedAnswers(e: Ev, f: Flags)
    ensures Wanted(e, f) != 0 <==> AskedFor((e, f))
    ensures Wanted(e, f) != 0 ==> AnswerTo(Answer(e.data, Wanted(e, f)), (e, f))
  {
    var w := Wanted(e, f);
    forall bits: Flags
      ensures Within(bits, w) <==> Within(bits, e.mask) && Within(bits, f)
    {
      WantedIsCommon(e, f, bits);
    }
    WantedIsCommon(e, f, w);
    hide Wanted;
    if AskedFor((e, f)) {
      var bits: Flags :| bits != 0 && Within(bits, e.mask) && Within(bits, f);
      assert Within(bits, w);
    }
  }

  /** The popped events that were asked for. */
  ghost function Asked(popped: seq<(Ev, Flags)>): seq<(Ev, Flags)> {
    if popped == [] then []
    else Asked(popped[..|popped| - 1]) + if AskedFor(popped[|popped| - 1]) then [popped[|popped| - 1]] else []
  }

  lemma {:induction false} MatchingAnswersAsked(popped: seq<(Ev, Flags)>)
    ensures |Matching(popped)| == |Asked(popped)|
    ensures forall i | 0 <= i < |Asked(popped)| :: AnswerTo(Matching(popped)[i], Asked(popped)[i])
  {
    hide AskedFor;
    hide AnswerTo;
    hide Wanted;
    if popped != [] {
      MatchingAnswersAsked(popped[..|popped| - 1]);
      WantedAnswers(popped[|popped| - 1].0, popped[|popped| - 1].1);
    }
  }

  /** In every run: the answers queued so far are answers to the first so many popped
      events that the client asked for, in order, each with exactly the bits asked for
      when it was popped; an event with no such bit is never answered. */
  lemma AnswersAreAskedFor(flags: Flags, sts: seq<Step>)
    ensures var p := Run(Fresh(flags), sts);
            var asked, answers := Asked(p.popped), Answers(p.g.log);
            && |answers| <= |asked| <= |answers| + 1 && (!p.handler.Replying? ==> |answers| == |asked|)
            && forall i | 0 <= i < |answers| :: AnswerTo(answers[i], asked[i])
  {
    RunKeeps(Fresh(flags), sts);
    var p := Run(Fresh(flags), sts);
    MatchingAnswersAsked(p.popped);
    hide AnswerTo;
    hide Asked;
    hide Matching;
    hide Answers;
    hide GateOk;
    hide NotForgotten;
    assert forall i | 0 <= i < |Answers(p.g.log)| :: Answers(p.g.log)[i] == Matching(p.popped)[i];
  }

  // ---------------------------------------------------------------- one read on its own

  /** Index of the first event the client wants. */
  function FirstWanted(events: seq<Ev>, flags: Flags): (k: nat)
    ensures k <= |events|
    ensures forall i | 0 <= i < k :: Wanted(events[i], flags) == 0
    ensures k < |events| ==> Wanted(events[k], flags) != 0
  {
    if events == [] || Wanted(events[0], flags) != 0 then 0 else 1 + FirstWanted(events[1..], flags)
  }

  /** The loop of `_read` when nothing happens in between. */
  function Searched(p: Proc): (p': Proc)
    requires p.handler.Popping?
    ensures p'.handler.Replying?
    decreases |p.events|
  {
    if Popped(p).handler.Popping? then Searched(Popped(p)) else Popped(p)
  }

  function Pops(n: nat): seq<Step> {
    seq(n, _ => Pop)
  }

  lemma FirstWantedStep(events: seq<Ev>, flags: Flags)
    ensures var k := FirstWanted(events, flags);
            && (k > 0 <==> events != [] && Wanted(events[0], flags) == 0)
            && (k > 0 ==> FirstWanted(events[1..], flags) == k - 1)
  {
    hide Wanted;
  }

  lemma FirstWantedRest(p: Proc)
    requires p.handler.Popping?
    ensures var k := FirstWanted(p.events, p.flags);
            var p1 := Popped(p);
            && (p1.handler.Popping? <==> k > 0 && p.events != [])
            && (k > 0 ==> p.events != [] && p1.events == p.events[1..] && p1.flags == p.flags
                          && FirstWanted(p1.events, p1.flags) == k - 1)
  {
    FirstWantedStep(p.events, p.flags);
    hide FirstWanted;
    hide Wanted;
  }

  /** The loop ends, after one turn for each event it discards and one more. */
  lemma {:induction false} SearchEnds(p: Proc)
    requires p.handler.Popping?
    ensures Run(p, Pops(FirstWanted(p.events, p.flags) + 1)) == Searched(p)
    decreases |p.events|
  {
    FirstWantedRest(p);
    var k := FirstWanted(p.events, p.flags);
    hide FirstWanted;
    hide Popped;
    assert Do(p, Pop) == Popped(p);
    hide Do;
    assert Pops(k + 1)[1..] == Pops(k) && Pops(k + 1)[0] == Pop;
    if k > 0 {
      SearchEnds(Popped(p));
    } else {
      assert Run(Popped(p), Pops(0)) == Popped(p);
    }
  }

  /** The answer is the first wanted event; without one the queue is empty. */
  lemma {:induction false} SearchFinds(p: Proc)
    requires p.handler.Popping?
    ensures var k := FirstWanted(p.events, p.flags);
            if k < |p.events| then
              && Searched(p).events == p.events[k + 1..]
              && Searched(p).handler == Replying(Some(Answer(p.events[k].data, Wanted(p.events[k], p.flags))))
            else Searched(p).events == [] && Searched(p).handler == Replying(None)
    decreases |p.events|
  {
    FirstWantedRest(p);
    var k := FirstWanted(p.events, p.flags);
    hide Wanted;
    if k > 0 {
      hide Popped;
      hide FirstWanted;
      SearchFinds(Popped(p));
    }
  }

  /** A read left alone. */
  function ReadOnce(p: Proc): Proc {
    ReadFinished(ReplyPushed(Searched(Acknowledged(p))))
  }

  lemma ReadKeepsSound(p: Proc)
    requires Sound(p) && p.handler.Idle?
    ensures Sound(ReadOnce(p))
  {
    hide Sound;
    hide Searched;
    hide Popped;
    var p1 := Acknowledged(p);
    assert Do(p, ReadArrives) == p1;
    StepKeepsSound(p, ReadArrives);
    SearchEnds(p1);
    RunKeeps(p1, Pops(FirstWanted(p1.events, p1.flags) + 1));
    var p2 := Searched(p1);
    StepKeepsSound(p2, PushReply);
    StepKeepsSound(ReplyPushed(p2), FinishRead);
  }

  /** The search changes the queue and the answer, not the gate. */
  lemma {:induction false} SearchKeepsGate(p: Proc)
    requires p.handler.Popping?
    ensures Searched(p).g == p.g
    decreases |p.events|
  {
    hide Wanted;
    if Popped(p).handler.Popping? {
      SearchKeepsGate(Popped(p));
    }
  }

  /** What the client gets from it: one reply, with the first event it wants, and
      notifications are no longer deferred. */
  lemma ReadAnswers(p: Proc)
    requires p.handler.Idle?
    ensures var k := FirstWanted(p.events, p.flags);
            var answer := if k < |p.events| then Some(Answer(p.events[k].data, Wanted(p.events[k], p.flags))) else None;
            var p' := ReadOnce(p);
            && p'.g.log == p.g.log + [ReadReply(p.g.epoch + 1, answer)]
            && p'.events == (if k < |p.events| then p.events[k + 1..] else [])
            && !p'.g.defer && p'.handler.Idle?
  {
    var p1 := Acknowledged(p);
    SearchFinds(p1);
    SearchKeepsGate(p1);
    hide Searched;
    hide FirstWanted;
    hide Wanted;
  }

  lemma RaiseIsSeen(g: Gate)
    requires !g.canSend ==> Unacknowledged(g)
    ensures !Raise(g).canSend && Unacknowledged(Raise(g))
  {
  }

  lemma ModifyKeepsSound(p: Proc, f: Flags)
    requires Sound(p) && p.handler.Idle?
    ensures Sound(p.(flags := f, g := Push(p.g, ModifyReply))) && RecheckQueued(Push(p.g, ModifyReply))
  {
    StepKeepsSound(p, ModifyArrives(f));
    StepKeepsSound(p.(flags := f, handler := Modifying), PushModify);
    assert Push(p.g, ModifyReply).log[|p.g.log|] == ModifyReply;
  }

  /** A re-check left alone. */
  function Rechecked(p: Proc): Proc
    requires p.checks > 0
  {
    p.(checks := p.checks - 1, g := if p.events == [] then p.g else Raise(p.g))
  }

  lemma RecheckKeepsSound(p: Proc)
    requires Sound(p) && p.checks > 0
    ensures Sound(Rechecked(p))
  {
    StepKeepsSound(p, Look);
    hide Sound;
    var p1 := Do(p, Look);
    if p.events != [] {
      StepKeepsSound(p1, Act);
      assert Do(p1, Act) == Rechecked(p);
    }
  }

  lemma GateIsSound(p: Proc)
    requires Sound(p)
    ensures !p.g.canSend ==> Unacknowledged(p.g)
  {
  }

  lemma NotifyKeepsSound(p: Proc, e: Ev)
    requires Sound(p)
    ensures var p' := Notified(p, e);
            Sound(p') && (!p.setup.NoSocket? ==> !p'.g.canSend && Unacknowledged(p'.g))
  {
    StepKeepsSound(p, Notify(e));
    GateIsSound(p);
    RaiseIsSeen(p.g);
    hide Sound;
  }

  lemma SetupKeepsSound(p: Proc)
    requires Sound(p) && p.setup.SettingUp?
    ensures var p' := SetupChecked(p);
            Sound(p') && (p.events != [] ==> !p'.g.canSend && Unacknowledged(p'.g))
  {
    StepKeepsSound(p, FinishSetup);
    GateIsSound(p);
    RaiseIsSeen(p.g);
    hide Sound;
  }

  // ---------------------------------------------------------------- the code

  /** The fields that every kind of channel has. */
  class NotificationGate {
    var canSendNotification: bool
    var deferNotification: bool
    var deferredNotification: Option<nat>
    var inHand: set<nat>
    var outbox: seq<Item>
    var sent: nat
    var notificationCount: nat
    ghost var lost: nat

    ghost function Snapshot(): Gate
      reads this
    {
      Gate(canSendNotification, deferNotification, deferredNotification, inHand, outbox, sent, notificationCount, lost)
    }

    constructor ()
      ensures Snapshot() == OpenGate
    {
      canSendNotification, deferNotification, deferredNotification, inHand := true, false, None, {};
      outbox, sent, notificationCount, lost := [], 0, 0, 0;
    }

    /** `_sendNotification`: afterwards the client has a notification that it has not
        acknowledged.  One that is not deferred is left in the caller's hand, to be
        pushed. */
    method SendNotification()
      modifies this
      ensures Snapshot() == Raise(old(Snapshot()))
      ensures old(!canSendNotification ==> Unacknowledged(Snapshot())) ==>
                !canSendNotification && Unacknowledged(Snapshot())
    {
      if !canSendNotification {
        return;
      }
      canSendNotification := false;
      if deferNotification {
        lost := lost + if deferredNotification.Some? then 1 else 0;
        deferredNotification := Some(notificationCount);
      } else {
        inHand := inHand + {notificationCount};
      }
    }

    /** `_sendDeferredNotification`: what is in the slot goes to the caller's hand, so
        that nothing is lost, and later notifications are not held back. */
    method SendDeferredNotification()
      modifies this
      ensures Snapshot() == StopDeferring(old(Snapshot()))
      ensures old(Unacknowledged(Snapshot())) ==> Unacknowledged(Snapshot())
    {
      deferNotification := false;
      if deferredNotification.Some? {
        inHand := inHand + {deferredNotification.value};
        deferredNotification := None;
      }
    }

    /** A read acknowledges, and defers from now on. */
    method Acknowledge()
      modifies this
      ensures Snapshot() == BeginRead(old(Snapshot()))
    {
      notificationCount := notificationCount + 1;
      canSendNotification := true;
      deferNotification := true;
    }

    method PushMessage(item: Item)
      modifies this
      ensures Snapshot() == Push(old(Snapshot()), item)
    {
      outbox := outbox + [item];
    }
  }

  class ProcessChannel {
    const base: NotificationGate
    var setup: Setup
    var events: seq<Ev>
    var flags: Flags
    var handler: Handler
    var checks: nat
    var looking: nat
    var dead: bool
    ghost var notified: seq<Ev>
    ghost var popped: seq<(Ev, Flags)>

    /** Queued events are attended to, a closed gate has an unacknowledged notification,
        none was overwritten, and events and replies are in order. */
    ghost predicate Valid()
      reads this, base
    {
      Sound(Snapshot())
    }

    ghost function Snapshot(): Proc
      reads this, base
    {
      Proc(base.Snapshot(), setup, events, flags, handler, checks, looking, dead, notified, popped)
    }

    constructor (initialFlags: Flags)
      ensures Valid() && Snapshot() == Fresh(initialFlags) && fresh(base)
    {
      base := new NotificationGate();
      setup, events, flags, handler, checks, looking, dead := NoSocket, [], initialFlags, Idle, 0, 0, false;
      notified, popped := [], [];
    }

    /** `Process::_notify`: with a socket, the client is going to be told. */
    method NotifyEvent(e: Ev)
      requires Valid()
      modifies this, base
      ensures Valid() && Snapshot() == Notified(old(Snapshot()), e)
      ensures notified == old(notified) + [e]
      ensures setup != NoSocket ==> !base.canSendNotification && Unacknowledged(base.Snapshot())
    {
      NotifyKeepsSound(Snapshot(), e);
      hide Sound;
      hide Unacknowledged;
      hide Raise;
      events := events + [e];
      notified := notified + [e];
      if setup != NoSocket {
        base.SendNotification();
      }
    }

    /** The end of `Process::setup`: the client is told of events that came before its
        socket. */
    method EndSetup()
      requires Valid() && setup == SettingUp
      modifies this, base
      ensures Valid() && Snapshot() == SetupChecked(old(Snapshot()))
      ensures events != [] ==> !base.canSendNotification && Unacknowledged(base.Snapshot())
    {
      SetupKeepsSound(Snapshot());
      hide Sound;
      hide Unacknowledged;
      hide Raise;
      if events != [] {
        base.SendNotification();
      }
      setup := Up;
    }

    /** The re-check that runs once a reply has been sent. */
    method CheckForEvents()
      requires Valid() && checks > 0
      modifies this, base
      ensures Valid() && Snapshot() == Rechecked(old(Snapshot()))
      ensures events != [] ==> !base.canSendNotification && Unacknowledged(base.Snapshot())
    {
      RecheckKeepsSound(Snapshot());
      GateIsSound(Snapshot());
      hide Sound;
      hide Unacknowledged;
      hide Raise;
      checks := checks - 1;
      if events != [] {
        base.SendNotification();
      }
    }

    /** `Process::_read`: one reply, with the first event the client wants, and nothing
        is held back any more. */
    method ReadEvent()
      requires Valid() && handler == Idle
      modifies this, base
      ensures Valid() && Snapshot() == ReadOnce(old(Snapshot()))
      ensures var k := FirstWanted(old(events), old(flags));
              var answer := if k < |old(events)|
                            then Some(Answer(old(events)[k].data, Wanted(old(events)[k], old(flags)))) else None;
              && base.outbox == old(base.outbox) + [ReadReply(old(base.notificationCount) + 1, answer)]
              && events == (if k < |old(events)| then old(events)[k + 1..] else [])
      ensures !base.deferNotification
    {
      ReadKeepsSound(Snapshot());
      ReadAnswers(Snapshot());
      hide Sound;
      hide FirstWanted;
      hide Wanted;
      hide ReadOnce;
      AnswerRead();
    }

    method AnswerRead()
      modifies this, base
      ensures Snapshot() == ReadOnce(old(Snapshot()))
    {
      hide Searched;
      hide BeginRead;
      hide StopDeferring;
      base.Acknowledge();
      handler := Popping;
      assert Snapshot() == Acknowledged(old(Snapshot()));
      SearchForEvent();
      ghost var p := Snapshot();
      base.PushMessage(ReadReply(base.notificationCount, handler.answer));
      base.SendDeferredNotification();
      handler := Idle;
      assert Snapshot() == ReadFinished(ReplyPushed(p));
    }

    /** The loop of `Process::_read`. */
    method SearchForEvent()
      requires handler == Popping
      modifies this
      ensures Snapshot() == Searched(old(Snapshot()))
    {
      hide Popped;
      ghost var goal := Searched(Snapshot());
      while true
        invariant handler == Popping && Searched(Snapshot()) == goal
        decreases |events|
      {
        var done := PopEvent();
        if done {
          break;
        }
      }
    }

    /** One turn of that loop. */
    method PopEvent() returns (done: bool)
      requires handler == Popping
      modifies this
      ensures Snapshot() == Popped(old(Snapshot()))
      ensures done <==> handler.Replying?
      ensures !done ==> handler == Popping && |events| < |old(events)|
    {
      hide Wanted;
      if events == [] {
        handler := Replying(None);
        return true;
      }
      var e := events[0];
      events := events[1..];
      popped := popped + [(e, flags)];
      var fflags := Wanted(e, flags);
      if fflags == 0 {
        return false;
      }
      handler := Replying(Some(Answer(e.data, fflags)));
      return true;
    }

    /** `Process::_modify`: the events are looked at again under the new flags, once the
        reply has been sent. */
    method ModifyFlags(newFlags: Flags)
      requires Valid() && handler == Idle
      modifies this, base
      ensures Valid() && flags == newFlags && base.outbox == old(base.outbox) + [ModifyReply]
      ensures RecheckQueued(base.Snapshot()) && events == old(events)
    {
      ModifyKeepsSound(Snapshot(), newFlags);
      hide Sound;
      hide RecheckQueued;
      flags := newFlags;
      base.PushMessage(ModifyReply);
    }
  }
}
