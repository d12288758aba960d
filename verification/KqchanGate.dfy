/**
 The notification gate of a kqueue channel: at most one notification is out until
 the client acknowledges it by reading, and while a read is being answered a new
 notification is held back until the reply is queued.
 */
module KqchanGate {
  import opened Counting
  import opened Options

  type Flags = bv32

  datatype Answer = Answer(data: int, fflags: Flags)

  /** Messages to the client.  A notification carries the number of reads begun when
      it was raised, a reply the number of its read. */
  datatype Item = Notification(epoch: nat) | ReadReply(read: nat, answer: Option<Answer>) | ModifyReply

  /** `hand` are notifications that some thread has raised and not yet pushed;
      `log` is everything ever pushed to the outbox and `out` how much of it has
      left; `lost` counts notifications overwritten in the slot. */
  datatype Gate = Gate(canSend: bool, defer: bool, slot: Option<nat>, hand: set<nat>,
                       log: seq<Item>, out: nat, epoch: nat, lost: nat)

  const OpenGate := Gate(true, false, None, {}, [], 0, 0, 0)

  /** `_sendNotification`, up to the push. */
  function Raise(g: Gate): Gate {
    if !g.canSend then g
    else if g.defer then g.(canSend := false, slot := Some(g.epoch), lost := g.lost + if g.slot.Some? then 1 else 0)
    else g.(canSend := false, hand := g.hand + {g.epoch})
  }

  /** The start of `_read`: it acknowledges, and defers from now on. */
  function BeginRead(g: Gate): Gate {
    g.(canSend := true, defer := true, epoch := g.epoch + 1)
  }

  function Push(g: Gate, item: Item): Gate {
    g.(log := g.log + [item])
  }

  /** Somebody pushes the notification in hand. */
  function PushRaised(g: Gate, e: nat): Gate {
    if e in g.hand then Push(g.(hand := g.hand - {e}), Notification(e)) else g
  }

  /** `_sendDeferredNotification`, up to the push. */
  function StopDeferring(g: Gate): Gate {
    g.(defer := false, slot := None, hand := if g.slot.Some? then g.hand + {g.slot.value} else g.hand)
  }

  /** The first message of the outbox leaves it. */
  function Emit(g: Gate): Gate {
    if g.out < |g.log| then g.(out := g.out + 1) else g
  }

  // ---------------------------------------------------------------- reads that may overlap

  /** The gate with the reads that have not pushed their reply, and those that have
      but have not come to the deferred notification. */
  datatype Channel = Channel(g: Gate, replying: set<nat>, finishing: set<nat>)

  const Start := Channel(OpenGate, {}, {})

  /** `Modified` is a modify request and its reply, which may come at any time. */
  datatype Event = Occurrence | PushNotification(e: nat) | Read | Reply(r: nat) | Finish(r: nat) | Modified | Send

  function Step(c: Channel, ev: Event): Channel {
    match ev
    case Occurrence => c.(g := Raise(c.g))
    case PushNotification(e) => c.(g := PushRaised(c.g, e))
    case Read => c.(g := BeginRead(c.g), replying := c.replying + {c.g.epoch + 1})
    case Reply(r) =>
      if r in c.replying then
        Channel(Push(c.g, ReadReply(r, None)), c.replying - {r}, c.finishing + {r})
      else c
    case Finish(r) => if r in c.finishing then c.(g := StopDeferring(c.g), finishing := c.finishing - {r}) else c
    case Modified => c.(g := Push(c.g, ModifyReply))
    case Send => c.(g := Emit(c.g))
  }

  function Run(c: Channel, evs: seq<Event>): Channel
    decreases |evs|
  {
    if evs == [] then c else Run(Step(c, evs[0]), evs[1..])
  }

  /** The client reads only when it has got every reply and, since its last read, a
      notification. */
  ghost predicate MayRead(c: Channel) {
    && c.g.out <= |c.g.log|
    && c.replying == {} && Notification(c.g.epoch) in c.g.log[..c.g.out]
  }

  ghost predicate Disciplined(c: Channel, evs: seq<Event>)
    decreases |evs|
  {
    evs != [] ==> (evs[0].Read? ==> MayRead(c)) && Disciplined(Step(c, evs[0]), evs[1..])
  }

  // ---------------------------------------------------------------- the order of messages

  /** Notification 0, reply 1, notification 1, reply 2, and so on: `n` messages. */
  function Alternating(n: nat): (s: seq<Item>)
    ensures |s| == n
    ensures forall i | 0 <= i < n :: s[i] == if i % 2 == 0 then Notification(i / 2) else ReadReply(i / 2 + 1, None)
  {
    if n == 0 then []
    else
      var k := n - 1;
      Alternating(k) + [if k % 2 == 0 then Notification(k / 2) else ReadReply(k / 2 + 1, None)]
  }

  /** The messages without the replies to modify requests. */
  function Plain(log: seq<Item>): seq<Item> {
    if log == [] then []
    else Plain(log[..|log| - 1]) + if log[|log| - 1].ModifyReply? then [] else [log[|log| - 1]]
  }

  lemma PlainSnoc(log: seq<Item>, item: Item)
    ensures Plain(log + [item]) == Plain(log) + if item.ModifyReply? then [] else [item]
  {
    assert (log + [item])[..|log|] == log;
  }

  lemma {:induction false} PlainHolds(log: seq<Item>, i: nat)
    requires i < |log| && !log[i].ModifyReply?
    ensures log[i] in Plain(log)
  {
    var n := |log| - 1;
    if i < n {
      assert log[..n][i] == log[i];
      PlainHolds(log[..n], i);
    }
  }

  /** Where a disciplined exchange is: what was pushed, what is in hand, what is in
      the slot, and who is on the way. */
  ghost predicate Orderly(c: Channel) {
    var g := c.g;
    && g.lost == 0 && g.out <= |g.log| && Plain(g.log) == Alternating(|Plain(g.log)|)
    && (|| AtRest(c)
        || NotificationInHand(c)
        || (c.replying == {g.epoch} && c.finishing == {} && Deferring(g) && |Plain(g.log)| == 2 * g.epoch - 1)
        || (c.replying == {} && c.finishing == {g.epoch} && Deferring(g) && |Plain(g.log)| == 2 * g.epoch))
  }

  ghost predicate AtRest(c: Channel) {
    var g := c.g;
    && c.replying == {} && c.finishing == {} && !g.defer && g.slot.None? && g.hand == {}
    && |Plain(g.log)| == 2 * g.epoch + if g.canSend then 0 else 1
  }

  ghost predicate NotificationInHand(c: Channel) {
    var g := c.g;
    && c.replying == {} && c.finishing == {} && !g.defer && g.slot.None? && g.hand == {g.epoch}
    && !g.canSend && |Plain(g.log)| == 2 * g.epoch
  }

  ghost predicate Deferring(g: Gate) {
    g.defer && g.epoch > 0 && g.hand == {} && g.slot == if g.canSend then None else Some(g.epoch)
  }

  lemma StepKeepsOrder(c: Channel, ev: Event)
    requires Orderly(c) && (ev.Read? ==> MayRead(c))
    ensures Orderly(Step(c, ev))
  {
    var c' := Step(c, ev);
    hide Plain;
    if |c'.g.log| > |c.g.log| {
      PlainSnoc(c.g.log, c'.g.log[|c.g.log|]);
    }
    if ev.Read? {
      ReadFindsRest(c);
      assert c'.replying == {c'.g.epoch};
    } else if ev.Finish? && c' != c {
      assert c'.finishing == {} && c'.g.hand == if c.g.canSend then {} else {c.g.epoch};
    } else if ev.PushNotification? && c' != c {
      assert c'.g.hand == {};
    } else if ev.Reply? && c' != c {
      assert c'.replying == {} && c'.finishing == {c.g.epoch};
    } else if ev.Occurrence? && c' != c && !c.g.defer {
      assert c'.g.hand == {c.g.epoch};
    }
  }

  /** A client that has got its notification finds the channel at rest. */
  lemma ReadFindsRest(c: Channel)
    requires Orderly(c) && MayRead(c)
    ensures AtRest(c) && !c.g.canSend
  {
    var g := c.g;
    var i :| 0 <= i < g.out && g.log[i] == Notification(g.epoch);
    PlainHolds(g.log, i);
    hide Plain;
    var j :| 0 <= j < |Plain(g.log)| && Plain(g.log)[j] == Notification(g.epoch);
    assert j == 2 * g.epoch;
  }

  /** With a disciplined client no notification is overwritten in the slot, and the
      messages, replies to modify requests apart, alternate: every reply comes before any notification raised after its
      read began, and there is one notification between two replies. */
  lemma {:induction false} DisciplinedRun(c: Channel, evs: seq<Event>)
    requires Orderly(c) && Disciplined(c, evs)
    ensures var g := Run(c, evs).g;
            Orderly(Run(c, evs)) && g.lost == 0 && Plain(g.log) == Alternating(|Plain(g.log)|)
    decreases |evs|
  {
    hide Orderly;
    hide MayRead;
    if evs != [] {
      StepKeepsOrder(c, evs[0]);
      DisciplinedRun(Step(c, evs[0]), evs[1..]);
    } else {
      OrderlyLog(c);
    }
  }

  lemma OrderlyLog(c: Channel)
    requires Orderly(c)
    ensures c.g.lost == 0 && Plain(c.g.log) == Alternating(|Plain(c.g.log)|)
  {
  }

  // ---------------------------------------------------------------- other clients

  /** The notifications raised during a run. */
  function Raised(c: Channel, evs: seq<Event>): nat
    decreases |evs|
  {
    if evs == [] then 0
    else One(evs[0].Occurrence? && c.g.canSend) + Raised(Step(c, evs[0]), evs[1..])
  }

  /** Between two reads, of whatever client, at most one notification is raised. */
  lemma {:induction false} OneNotificationPerRead(c: Channel, evs: seq<Event>)
    requires forall ev | ev in evs :: !ev.Read?
    ensures Raised(c, evs) <= if c.g.canSend then 1 else 0
    decreases |evs|
  {
    if evs != [] {
      OneNotificationPerRead(Step(c, evs[0]), evs[1..]);
    }
  }

  /** In how many places the notification with a number is: pushed, in hand, or in the
      slot. */
  function Copies(g: Gate, e: nat): nat {
    Count(g.log, (item: Item) => item == Notification(e)) + One(e in g.hand) + One(g.slot == Some(e))
  }

  /** Each notification is in one place at most, and none is before it is raised. */
  ghost predicate Once(g: Gate) {
    forall e: nat :: Copies(g, e) <= One(e < g.epoch || (e == g.epoch && !g.canSend))
  }

  /** All notifications: pushed, in hand, in the slot, and overwritten there. */
  function Notifications(g: Gate): nat {
    Count(g.log, (item: Item) => item.Notification?) + |g.hand| + One(g.slot.Some?) + g.lost
  }

  lemma CopiesSnoc(g: Gate, item: Item, e: nat)
    ensures Copies(Push(g, item), e) == Copies(g, e) + One(item == Notification(e))
  {
    CountSnoc(g.log, item, (item: Item) => item == Notification(e));
  }

  lemma NotificationsSnoc(g: Gate, item: Item)
    ensures Notifications(Push(g, item)) == Notifications(g) + One(item.Notification?)
  {
    CountSnoc(g.log, item, (item: Item) => item.Notification?);
  }

  /** From one gate to the next, `raised` more notifications. */
  ghost predicate Conserves(g: Gate, g': Gate, raised: nat) {
    Once(g) ==> Once(g') && Notifications(g') == Notifications(g) + raised
  }

  lemma RaiseConserves(g: Gate)
    ensures Conserves(g, Raise(g), One(g.canSend))
  {
    hide Count;
    if Once(g) && g.canSend {
      assert Copies(g, g.epoch) == 0;
      forall e: nat
        ensures Copies(Raise(g), e) <= One(e <= g.epoch)
      {
        assert Copies(g, e) <= One(e < g.epoch);
      }
    }
  }

  lemma PushConserves(g: Gate, item: Item)
    requires !item.Notification?
    ensures Conserves(g, Push(g, item), 0)
  {
    NotificationsSnoc(g, item);
    forall e: nat
      ensures Copies(Push(g, item), e) == Copies(g, e)
    {
      CopiesSnoc(g, item, e);
    }
    hide Copies;
    hide Notifications;
  }

  lemma PushRaisedConserves(g: Gate, n: nat)
    ensures Conserves(g, PushRaised(g, n), 0)
  {
    hide Count;
    if n in g.hand {
      var g1 := g.(hand := g.hand - {n});
      NotificationsSnoc(g1, Notification(n));
      forall e: nat
        ensures Copies(PushRaised(g, n), e) == Copies(g, e)
      {
        CopiesSnoc(g1, Notification(n), e);
      }
    }
  }

  lemma StopConserves(g: Gate)
    ensures Conserves(g, StopDeferring(g), 0)
  {
    hide Count;
    if Once(g) {
      assert g.slot.Some? ==> Copies(g, g.slot.value) <= 1;
      assert forall e: nat :: Copies(StopDeferring(g), e) == Copies(g, e);
    }
  }

  lemma BeginConserves(g: Gate)
    ensures Conserves(g, BeginRead(g), 0)
  {
    hide Count;
    if Once(g) {
      forall e: nat
        ensures Copies(BeginRead(g), e) <= One(e < g.epoch + 1)
      {
        assert Copies(g, e) <= One(e < g.epoch || (e == g.epoch && !g.canSend));
      }
    }
  }

  lemma EmitConserves(g: Gate)
    ensures Conserves(g, Emit(g), 0)
  {
    hide Count;
    assert forall e: nat :: Copies(Emit(g), e) == Copies(g, e);
  }

  lemma StepConserves(c: Channel, ev: Event)
    ensures Conserves(c.g, Step(c, ev).g, One(ev.Occurrence? && c.g.canSend))
  {
    hide Once;
    hide Notifications;
    match ev
    case Occurrence => RaiseConserves(c.g);
    case PushNotification(e) => PushRaisedConserves(c.g, e);
    case Read => BeginConserves(c.g);
    case Reply(r) => PushConserves(c.g, ReadReply(r, None));
    case Finish(_) => StopConserves(c.g);
    case Modified => PushConserves(c.g, ModifyReply);
    case Send => EmitConserves(c.g);
  }

  /** Whatever the client does: the notifications raised are exactly those pushed, in
      hand, in the slot and overwritten there, and none is in two places. */
  lemma {:induction false} NotificationsAccountedFor(c: Channel, evs: seq<Event>)
    requires Once(c.g)
    ensures Once(Run(c, evs).g)
    ensures Notifications(Run(c, evs).g) == Notifications(c.g) + Raised(c, evs)
    decreases |evs|
  {
    hide Once;
    hide Notifications;
    hide Step;
    if evs != [] {
      StepConserves(c, evs[0]);
      NotificationsAccountedFor(Step(c, evs[0]), evs[1..]);
    }
  }

  /** From the start, therefore: what was raised and is nowhere to be found has been
      overwritten. */
  lemma LostIsRaisedAndGone(evs: seq<Event>)
    ensures var g := Run(Start, evs).g;
            Raised(Start, evs) ==
            Count(g.log, (item: Item) => item.Notification?) + |g.hand| + One(g.slot.Some?) + g.lost
    ensures forall e: nat :: Copies(Run(Start, evs).g, e) <= 1
  {
    assert Once(Start.g);
    NotificationsAccountedFor(Start, evs);
    hide Count;
    var g := Run(Start, evs).g;
    assert Notifications(Start.g) == 0;
    forall e: nat
      ensures Copies(g, e) <= 1
    {
      assert Copies(g, e) <= One(e < g.epoch || (e == g.epoch && !g.canSend));
    }
  }

  /** An occurrence meets an open gate while a deferred notification is still in the
      slot. */
  predicate Overwrites(c: Channel, ev: Event) {
    ev.Occurrence? && c.g.canSend && c.g.defer && c.g.slot.Some?
  }

  predicate NoOverwrite(c: Channel, evs: seq<Event>)
    decreases |evs|
  {
    evs != [] ==> !Overwrites(c, evs[0]) && NoOverwrite(Step(c, evs[0]), evs[1..])
  }

  lemma {:induction false} LostOnlyGrows(c: Channel, evs: seq<Event>)
    ensures Run(c, evs).g.lost >= c.g.lost
    decreases |evs|
  {
    if evs != [] {
      LostOnlyGrows(Step(c, evs[0]), evs[1..]);
    }
  }

  /** Whatever the client does: a notification is lost during a run if and only if an
      occurrence finds the gate open while the slot is full. */
  lemma {:induction false} LostIffOverwrite(c: Channel, evs: seq<Event>)
    ensures Run(c, evs).g.lost == c.g.lost <==> NoOverwrite(c, evs)
    decreases |evs|
  {
    if evs != [] {
      var c' := Step(c, evs[0]);
      LostIffOverwrite(c', evs[1..]);
      LostOnlyGrows(c', evs[1..]);
    }
  }

  /** Every read begins with the slot empty. */
  predicate SlotEmptyAtReads(c: Channel, evs: seq<Event>)
    decreases |evs|
  {
    evs != [] ==> (evs[0].Read? ==> c.g.slot.None?) && SlotEmptyAtReads(Step(c, evs[0]), evs[1..])
  }

  lemma {:induction false} EmptySlotNoOverwrite(c: Channel, evs: seq<Event>)
    requires (c.g.slot.Some? ==> !c.g.canSend) && SlotEmptyAtReads(c, evs)
    ensures NoOverwrite(c, evs)
    decreases |evs|
  {
    if evs != [] {
      EmptySlotNoOverwrite(Step(c, evs[0]), evs[1..]);
    }
  }

  /** In particular, nothing is lost as long as every read begins with the slot
      empty. */
  lemma EmptySlotLosesNothing(c: Channel, evs: seq<Event>)
    requires (c.g.slot.Some? ==> !c.g.canSend) && SlotEmptyAtReads(c, evs)
    ensures Run(c, evs).g.lost == c.g.lost
  {
    EmptySlotNoOverwrite(c, evs);
    LostIffOverwrite(c, evs);
  }

  /** Nothing that empties the slot: no answered read comes to its deferred
      notification. */
  predicate SlotUntouched(evs: seq<Event>) {
    forall ev | ev in evs :: !ev.Finish? && !ev.Occurrence?
  }

  /** A read that begins with the slot full loses the next notification, unless an
      earlier read is finished in between. */
  lemma {:induction false} FullSlotLoses(c: Channel, between: seq<Event>)
    requires c.g.slot.Some? && SlotUntouched(between)
    ensures Run(c, [Read] + between + [Occurrence]).g.lost == c.g.lost + 1
  {
    var evs := [Read] + between + [Occurrence];
    assert evs[1..] == between + [Occurrence];
    OpenAndFull(Step(c, Read), between);
  }

  lemma {:induction false} OpenAndFull(c: Channel, between: seq<Event>)
    requires c.g.slot.Some? && c.g.canSend && c.g.defer && SlotUntouched(between)
    ensures Run(c, between + [Occurrence]).g.lost == c.g.lost + 1
    decreases |between|
  {
    var evs := between + [Occurrence];
    if between == [] {
      assert evs == [Occurrence] && evs[1..] == [];
    } else {
      assert evs[0] == between[0] && evs[1..] == between[1..] + [Occurrence];
      assert between[0] in between;
      OpenAndFull(Step(c, between[0]), between[1..]);
    }
  }

  /** Finishing it saves the notification. */
  lemma FinishSaves(c: Channel, r: nat)
    requires r in c.finishing
    ensures Run(c, [Read, Finish(r), Occurrence]).g.lost == c.g.lost
  {
    var evs := [Read, Finish(r), Occurrence];
    assert evs[1..] == [Finish(r), Occurrence] && evs[1..][1..] == [Occurrence];
    var c1 := Step(c, Read);
    var c2 := Step(c1, Finish(r));
    assert Run(c2, [Occurrence]) == Run(Step(c2, Occurrence), []);
    assert Run(c1, [Finish(r), Occurrence]) == Run(c2, [Occurrence]);
  }

  /** A client that reads again before it has its reply gets there: its second read
      finds the slot full, and the next notification is lost. */
  lemma OverlappingReadsFillSlot()
    ensures var c := Run(Start, [Occurrence, PushNotification(0), Send, Read, Occurrence]);
            c.g.slot.Some? && c.replying != {} && Run(c, [Read, Occurrence]).g.lost == 1
  {
    var evs := [Occurrence, PushNotification(0), Send, Read, Occurrence];
    var c1 := Step(Start, Occurrence);
    assert c1.g.hand == {0} && evs[1..] == [PushNotification(0), Send, Read, Occurrence];
    var c2 := Step(c1, PushNotification(0));
    assert evs[1..][1..] == [Send, Read, Occurrence];
    var c3 := Step(c2, Send);
    assert [Send, Read, Occurrence][1..] == [Read, Occurrence] && [Read, Occurrence][1..] == [Occurrence];
    var c4 := Step(c3, Read);
    var c5 := Step(c4, Occurrence);
    assert Run(c4, [Occurrence]) == Run(c5, []);
    assert 1 in c5.replying;
    FullSlotLoses(c5, []);
    assert [Read] + [] + [Occurrence] == [Read, Occurrence];
  }
}
