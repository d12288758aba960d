/**
 The queue of outgoing messages, and sending as many of them as the socket takes.
 */
module MessageQueues {
  import opened Counting
  import opened Options

  /** `callback`: whether something is to be done once the message is sent. */
  datatype Message = Message(id: nat, callback: bool)

  /** What a call of sendmmsg returns: how many messages it took, or an error. */
  datatype Result = Took(n: nat) | WouldBlock | Interrupted | PeerGone | OtherError

  const BATCH := 16

  /** How a message left the queue. */
  datatype Fate = Sent(m: Message) | Dropped(m: Message)

  datatype Outcome = Outcome(left: seq<Fate>, rest: seq<Message>, canSendMore: bool, thrown: bool)

  function Batch(q: seq<Message>): (n: nat)
    ensures n <= |q| && n <= BATCH && (n == |q| || n == BATCH)
  {
    if |q| < BATCH then |q| else BATCH
  }

  function Taken(q: seq<Message>, n: nat): (k: nat)
    ensures k <= Batch(q)
  {
    if n < Batch(q) then n else Batch(q)
  }

  function AllSent(ms: seq<Message>): seq<Fate> {
    seq(|ms|, i requires 0 <= i < |ms| => Sent(ms[i]))
  }

  /** `sendMany`, given the results of the successive system calls; when they are used
      up, the socket would block. */
  function SendMany(q: seq<Message>, results: seq<Result>): Outcome
    decreases |results|
  {
    if q == [] then Outcome([], [], true, false)
    else if results == [] || results[0].WouldBlock? then Outcome([], q, false, false)
    else
      match results[0]
      case Interrupted => SendMany(q, results[1..])
      case OtherError => Outcome([], q, true, true)
      case PeerGone =>
        After([Dropped(q[0])], SendMany(q[1..], results[1..]))
      case Took(n) =>
        var k := Taken(q, n);
        After(AllSent(q[..k]), SendMany(q[k..], results[1..]))
  }

  /** What the rest of a call comes to, after `before` has left. */
  function After(before: seq<Fate>, o: Outcome): Outcome {
    o.(left := before + o.left)
  }

  lemma AfterAfter(a: seq<Fate>, b: seq<Fate>, o: Outcome)
    ensures After(a, After(b, o)) == After(a + b, o)
  {
    assert a + (b + o.left) == a + b + o.left;
  }

  function Messages(fates: seq<Fate>): seq<Message> {
    seq(|fates|, i requires 0 <= i < |fates| => fates[i].m)
  }

  lemma MessagesAppend(a: seq<Fate>, b: seq<Fate>)
    ensures Messages(a + b) == Messages(a) + Messages(b)
  {
  }

  lemma SentMessages(ms: seq<Message>)
    ensures Messages(AllSent(ms)) == ms && forall f | f in AllSent(ms) :: f.Sent?
  {
  }

  lemma OrderAfter(first: seq<Fate>, k: nat, q: seq<Message>, o: Outcome)
    requires k <= |q| && Messages(first) == q[..k] && q[k..] == Messages(o.left) + o.rest
    ensures q == Messages(After(first, o).left) + o.rest
  {
    MessagesAppend(first, o.left);
    hide Messages;
    assert q == q[..k] + q[k..];
  }

  /** No message is skipped, doubled or moved: what has left the queue and what is
      still in it are the messages that were there, in order. */
  lemma {:induction false} SendManyKeepsOrder(q: seq<Message>, results: seq<Result>)
    ensures var o := SendMany(q, results);
            q == Messages(o.left) + o.rest
    decreases |results|
  {
    hide Messages;
    hide AllSent;
    if q == [] || results == [] || results[0].WouldBlock? || results[0].OtherError? {
      MessagesNone();
      assert [] + q == q;
    } else if results[0].Interrupted? {
      SendManyKeepsOrder(q, results[1..]);
    } else if results[0].PeerGone? {
      SendManyKeepsOrder(q[1..], results[1..]);
      MessagesOne(Dropped(q[0]));
      assert q[..1] == [q[0]];
      OrderAfter([Dropped(q[0])], 1, q, SendMany(q[1..], results[1..]));
    } else {
      var k := Taken(q, results[0].n);
      SendManyKeepsOrder(q[k..], results[1..]);
      SentMessages(q[..k]);
      OrderAfter(AllSent(q[..k]), k, q, SendMany(q[k..], results[1..]));
    }
  }

  lemma MessagesNone()
    ensures Messages([]) == []
  {
  }

  lemma MessagesOne(f: Fate)
    ensures Messages([f]) == [f.m]
  {
  }

  /** A message is dropped only when the peer is gone; and with the queue not empty
      afterwards, either the socket would block or an error was thrown. */
  lemma {:induction false} SendManyStops(q: seq<Message>, results: seq<Result>)
    ensures var o := SendMany(q, results);
            && (PeerGone !in results ==> forall f | f in o.left :: f.Sent?)
            && (o.rest == [] || !o.canSendMore || o.thrown)
    decreases |results|
  {
    hide AllSent;
    if q != [] && results != [] {
      if results[0].Interrupted? {
        SendManyStops(q, results[1..]);
      } else if results[0].PeerGone? {
        SendManyStops(q[1..], results[1..]);
      } else if results[0].Took? {
        SentMessages(q[..Taken(q, results[0].n)]);
        SendManyStops(q[Taken(q, results[0].n)..], results[1..]);
      }
    }
  }

  /** An error is thrown only if a call had one, and only with messages left; the
      socket counts as full exactly if messages are left and none was thrown. */
  lemma {:induction false} SendManyReports(q: seq<Message>, results: seq<Result>)
    ensures var o := SendMany(q, results);
            && (o.thrown ==> OtherError in results && o.rest != [])
            && (!o.canSendMore <==> o.rest != [] && !o.thrown)
    decreases |results|
  {
    hide AllSent;
    if q != [] && results != [] {
      if results[0].Interrupted? {
        SendManyReports(q, results[1..]);
      } else if results[0].PeerGone? {
        SendManyReports(q[1..], results[1..]);
      } else if results[0].Took? {
        SendManyReports(q[Taken(q, results[0].n)..], results[1..]);
      }
    }
  }

  // ---------------------------------------------------------------- what the calls took

  /** Which of the messages that left were sent. */
  function Sends(fates: seq<Fate>): (r: seq<bool>)
    ensures |r| == |fates|
  {
    seq(|fates|, i requires 0 <= i < |fates| => fates[i].Sent?)
  }

  /** With `n` messages queued, no call says that it took more than it was offered. */
  predicate Believable(n: nat, results: seq<Result>) {
    n > 0 && results != [] ==>
      match results[0]
      case Took(k) => k <= n && k <= BATCH && Believable(n - k, results[1..])
      case Interrupted => Believable(n, results[1..])
      case PeerGone => Believable(n - 1, results[1..])
      case WouldBlock => true
      case OtherError => true
  }

  /** What the calls that are made come to, with `n` messages queued: one after the
      other, as many messages sent as a call took, and one not sent where the peer is
      gone. */
  function TakenByCalls(n: nat, results: seq<Result>): seq<bool>
    requires Believable(n, results)
  {
    if n == 0 || results == [] then []
    else
      match results[0]
      case Took(k) => seq(k, _ => true) + TakenByCalls(n - k, results[1..])
      case Interrupted => TakenByCalls(n, results[1..])
      case PeerGone => [false] + TakenByCalls(n - 1, results[1..])
      case WouldBlock => []
      case OtherError => []
  }

  lemma SendsAppend(a: seq<Fate>, b: seq<Fate>)
    ensures Sends(a + b) == Sends(a) + Sends(b)
  {
  }

  lemma SendsOf(ms: seq<Message>, m: Message)
    ensures Sends(AllSent(ms)) == seq(|ms|, _ => true) && Sends([Dropped(m)]) == [false]
  {
  }

  /** The messages that leave the queue are exactly those that the calls took, and one
      for each call that found its peer gone. */
  lemma {:induction false} LeftIsWhatCallsTook(q: seq<Message>, results: seq<Result>)
    requires Believable(|q|, results)
    ensures Sends(SendMany(q, results).left) == TakenByCalls(|q|, results)
    decreases |results|
  {
    hide Sends;
    hide AllSent;
    if q == [] || results == [] || results[0].WouldBlock? || results[0].OtherError? {
      assert Sends([]) == [];
    } else if results[0].Interrupted? {
      LeftIsWhatCallsTook(q, results[1..]);
    } else if results[0].PeerGone? {
      LeftIsWhatCallsTook(q[1..], results[1..]);
      SendsOf([], q[0]);
      SendsAppend([Dropped(q[0])], SendMany(q[1..], results[1..]).left);
    } else {
      var k := results[0].n;
      LeftIsWhatCallsTook(q[k..], results[1..]);
      SendsOf(q[..k], q[0]);
      SendsAppend(AllSent(q[..k]), SendMany(q[k..], results[1..]).left);
    }
  }

  function TookInAll(results: seq<Result>): nat {
    if results == [] then 0 else (if results[0].Took? then results[0].n else 0) + TookInAll(results[1..])
  }

  function SentIn(fates: seq<Fate>): nat {
    if fates == [] then 0 else One(fates[0].Sent?) + SentIn(fates[1..])
  }

  lemma {:induction false} SentInAppend(a: seq<Fate>, b: seq<Fate>)
    ensures SentIn(a + b) == SentIn(a) + SentIn(b)
  {
    if a == [] {
      assert a + b == b;
    } else {
      SentInAppend(a[1..], b);
      assert (a + b)[1..] == a[1..] + b;
    }
  }

  lemma {:induction false} SentInBound(fates: seq<Fate>)
    ensures SentIn(fates) <= |fates|
  {
    if fates != [] {
      SentInBound(fates[1..]);
    }
  }

  /** Whatever the calls say, no message counts as sent that none of them took. */
  lemma {:induction false} NoMoreSentThanTaken(q: seq<Message>, results: seq<Result>)
    ensures SentIn(SendMany(q, results).left) <= TookInAll(results)
    decreases |results|
  {
    if q != [] && results != [] {
      if results[0].Interrupted? {
        NoMoreSentThanTaken(q, results[1..]);
      } else if results[0].PeerGone? {
        NoMoreSentThanTaken(q[1..], results[1..]);
        SentInAppend([Dropped(q[0])], SendMany(q[1..], results[1..]).left);
      } else if results[0].Took? {
        var k := Taken(q, results[0].n);
        NoMoreSentThanTaken(q[k..], results[1..]);
        SentInAppend(AllSent(q[..k]), SendMany(q[k..], results[1..]).left);
        SentInBound(AllSent(q[..k]));
      }
    }
  }

  /** The callbacks run: one for each message sent that has one, in order. */
  function Callbacks(fates: seq<Fate>): seq<Message> {
    if fates == [] then []
    else Callbacks(fates[..|fates| - 1]) +
         var f := fates[|fates| - 1];
         if f.Sent? && f.m.callback then [f.m] else []
  }

  lemma NoCallbacks()
    ensures Callbacks([]) == []
  {
  }

  lemma CallbacksSnoc(fates: seq<Fate>, f: Fate)
    ensures Callbacks(fates + [f]) == Callbacks(fates) + if f.Sent? && f.m.callback then [f.m] else []
  {
    assert (fates + [f])[..|fates|] == fates;
  }

  lemma {:induction false} CallbacksAppend(a: seq<Fate>, b: seq<Fate>)
    ensures Callbacks(a + b) == Callbacks(a) + Callbacks(b)
  {
    if b == [] {
      assert a + b == a;
    } else {
      hide Callbacks;
      var init, last := b[..|b| - 1], b[|b| - 1];
      assert a + b == a + init + [last] && b == init + [last];
      CallbacksAppend(a, init);
      CallbacksSnoc(a + init, last);
      CallbacksSnoc(init, last);
    }
  }

  /** A callback runs exactly for the messages sent that have one, as often as they were
      sent. */
  lemma {:induction false} CallbacksAreOfSent(fates: seq<Fate>, m: Message)
    ensures multiset(Callbacks(fates))[m] == if m.callback then multiset(fates)[Sent(m)] else 0
  {
    if fates != [] {
      var init, last := fates[..|fates| - 1], fates[|fates| - 1];
      CallbacksAreOfSent(init, m);
      assert fates == init + [last];
    }
  }

  class MessageQueue {
    var messages: seq<Message>
    ghost var pushed: seq<Message>
    ghost var gone: seq<Message>

    /** Over the life of the queue: the messages that have left it and those still in
        it are the messages pushed, in order. */
    ghost predicate Valid()
      reads this
    {
      pushed == gone + messages
    }

    constructor ()
      ensures Valid() && pushed == []
    {
      messages, pushed, gone := [], [], [];
    }

    method Push(m: Message)
      requires Valid()
      modifies this
      ensures Valid() && pushed == old(pushed) + [m] && gone == old(gone)
    {
      messages, pushed := messages + [m], pushed + [m];
      assert gone + old(messages) + [m] == gone + (old(messages) + [m]);
    }

    method Pop() returns (m: Option<Message>)
      requires Valid()
      modifies this
      ensures Valid() && pushed == old(pushed)
      ensures if m.Some? then gone == old(gone) + [m.value] else gone == old(gone) == pushed
    {
      if |messages| > 0 {
        m := Some(messages[0]);
        gone := gone + [messages[0]];
        assert old(gone) + messages == gone + messages[1..];
        messages := messages[1..];
      } else {
        m := None;
      }
    }

    /** Sends in batches until the queue is empty or the socket takes no more. */
    method SendAll(results: seq<Result>)
      returns (canSendMore: bool, thrown: bool, left: seq<Fate>, callbacks: seq<Message>)
      requires Valid()
      modifies this
      ensures Valid() && pushed == old(pushed) && gone == old(gone) + Messages(left)
      ensures var o := SendMany(old(messages), results);
              messages == o.rest && left == o.left && canSendMore == o.canSendMore && thrown == o.thrown
      ensures callbacks == Callbacks(left)
    {
      canSendMore, thrown, left, callbacks := SendBatches(results);
      SendManyKeepsOrder(old(messages), results);
      hide Messages;
      assert gone + (Messages(left) + messages) == gone + Messages(left) + messages;
      gone := gone + Messages(left);
    }

    /** The loop. */
    method SendBatches(results: seq<Result>)
      returns (canSendMore: bool, thrown: bool, left: seq<Fate>, callbacks: seq<Message>)
      modifies this`messages
      ensures var o := SendMany(old(messages), results);
              messages == o.rest && left == o.left && canSendMore == o.canSendMore && thrown == o.thrown
      ensures callbacks == Callbacks(left)
    {
      hide Callbacks;
      hide AllSent;
      canSendMore, thrown, left, callbacks := true, false, [], [];
      assert callbacks == Callbacks(left) by { NoCallbacks(); }
      var calls := 0;
      ghost var goal := SendMany(messages, results);
      assert goal == After([], goal) && results[0..] == results;
      while true
        invariant calls <= |results| && canSendMore && !thrown
        invariant goal == After(left, SendMany(messages, results[calls..]))
        invariant callbacks == Callbacks(left)
        decreases |results| - calls
      {
        assert left + [] == left;
        var len := Batch(messages);
        if len == 0 {
          break;
        }
        var ret := if calls < |results| then results[calls] else WouldBlock;
        if ret.WouldBlock? {
          canSendMore := false;
          break;
        }
        assert results[calls..][1..] == results[calls + 1..];
        calls := calls + 1;
        if ret.OtherError? {
          thrown := true;
          break;
        } else if ret.PeerGone? {
          CallbacksSnoc(left, Dropped(messages[0]));
          AfterAfter(left, [Dropped(messages[0])], SendMany(messages[1..], results[calls..]));
          left := left + [Dropped(messages[0])];
          messages := messages[1..];
        } else if ret.Took? {
          var sent, ran := TakeOff(Taken(messages, ret.n));
          AfterAfter(left, sent, SendMany(messages, results[calls..]));
          CallbacksAppend(left, sent);
          left, callbacks := left + sent, callbacks + ran;
        }
      }
    }

    /** The messages a call has taken leave the queue, and their callbacks run. */
    method TakeOff(n: nat) returns (sent: seq<Fate>, ran: seq<Message>)
      requires n <= |messages|
      modifies this`messages
      ensures messages == old(messages)[n..] && sent == AllSent(old(messages)[..n]) && ran == Callbacks(sent)
    {
      sent, ran := [], [];
      ghost var q := messages;
      for i := 0 to n
        invariant messages == q[i..] && sent == AllSent(q[..i]) && ran == Callbacks(sent)
      {
        var m := messages[0];
        CallbacksSnoc(sent, Sent(m));
        sent := sent + [Sent(m)];
        if m.callback {
          ran := ran + [m];
        } else {
          assert ran + [] == ran;
        }
        messages := messages[1..];
      }
    }
  }
}
