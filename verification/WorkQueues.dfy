/**
 The pool of native worker threads: a queue of work items under a mutex, a condition
 variable, and the number of workers thought to be available.  Permanent workers
 wait for ever, temporary ones for a while.
 */
module WorkQueues {
  import opened Counting
  import opened Options

  type Item = nat

  /** A worker about to lock the queue, asleep on the condition variable, woken and
      about to look again, timed out and about to look for the last time, at work, or
      gone. */
  datatype Phase = Starting | Asleep | Woken | TimedOut | Working | Gone

  datatype Worker = Worker(phase: Phase, permanent: bool)

  /** `notifies` are pushes that have not come to `notify_one`; `threads` is the size
      of the thread table; `leaked` counts the workers that left without giving up
      their availability. */
  datatype WorkQueue = WorkQueue(items: seq<Item>, available: int, workers: seq<Worker>, threads: nat,
                                 notifies: nat, pushed: seq<Item>, taken: seq<Item>, leaked: nat)

  datatype Event =
    | Push(item: Item)
    | Notify(i: nat)      // `i` is the sleeper that `notify_one` wakes, if any
    | Enter(i: nat)
    | Spurious(i: nat)
    | TimeOut(i: nat)
    | Look(i: nat)        // a woken or timed-out worker has the mutex again
    | Done(i: nat)

  function Initial(minimum: nat): WorkQueue {
    WorkQueue([], 0, seq(minimum, _ => Worker(Starting, true)), minimum, 0, [], [], 0)
  }

  function At(q: WorkQueue, i: nat, phase: Phase): WorkQueue
    requires i < |q.workers|
  {
    q.(workers := q.workers[i := q.workers[i].(phase := phase)])
  }

  /** `push`, under the mutex. */
  function Pushed(q: WorkQueue, item: Item, maximum: nat): WorkQueue {
    var q1 := q.(items := q.items + [item], pushed := q.pushed + [item]);
    if q.available == 0 && q.threads < maximum then
      q1.(workers := q.workers + [Worker(Starting, false)], threads := q.threads + 1)
    else q1.(notifies := q.notifies + 1)
  }

  /** The wait's predicate: with an item there, the worker takes it. */
  function Checked(q: WorkQueue, i: nat, otherwise: Phase): WorkQueue
    requires i < |q.workers|
  {
    if q.items == [] then At(q, i, otherwise)
    else At(q.(items := q.items[1..], taken := q.taken + [q.items[0]], available := q.available - 1), i, Working)
  }

  /** A timed-out worker that finds nothing removes itself from the thread table. */
  function LastLook(q: WorkQueue, i: nat): WorkQueue
    requires i < |q.workers| && q.threads > 0
  {
    if q.items == [] then At(q.(threads := q.threads - 1, leaked := q.leaked + 1), i, Gone) else Checked(q, i, Gone)
  }

  ghost predicate NobodyAsleep(q: WorkQueue) {
    forall j | 0 <= j < |q.workers| :: !q.workers[j].phase.Asleep?
  }

  ghost predicate Possible(q: WorkQueue, ev: Event) {
    match ev
    case Push(_) => true
    case Notify(i) => q.notifies > 0 && (if i < |q.workers| then q.workers[i].phase.Asleep? else NobodyAsleep(q))
    case Enter(i) => i < |q.workers| && q.workers[i].phase.Starting?
    case Spurious(i) => i < |q.workers| && q.workers[i].phase.Asleep?
    case TimeOut(i) => i < |q.workers| && q.workers[i].phase.Asleep? && !q.workers[i].permanent
    case Look(i) =>
      i < |q.workers| && (q.workers[i].phase.Woken? || (q.workers[i].phase.TimedOut? && q.threads > 0))
    case Done(i) => i < |q.workers| && q.workers[i].phase.Working?
  }

  ghost function Step(q: WorkQueue, ev: Event, maximum: nat): WorkQueue {
    if !Possible(q, ev) then q
    else
      match ev
      case Push(item) => Pushed(q, item, maximum)
      case Notify(i) =>
        var q1 := q.(notifies := q.notifies - 1);
        if i < |q.workers| then At(q1, i, Woken) else q1
      case Enter(i) => Checked(q.(available := q.available + 1), i, Asleep)
      case Spurious(i) => At(q, i, Woken)
      case TimeOut(i) => At(q, i, TimedOut)
      case Look(i) => if q.workers[i].phase.Woken? then Checked(q, i, Asleep) else LastLook(q, i)
      case Done(i) => At(q, i, Starting)
  }

  ghost function Run(q: WorkQueue, evs: seq<Event>, maximum: nat): WorkQueue
    decreases |evs|
  {
    if evs == [] then q else Run(Step(q, evs[0], maximum), evs[1..], maximum)
  }

  // ---------------------------------------------------------------- what holds in every state

  predicate IsWaiting(w: Worker) { w.phase.Asleep? || w.phase.Woken? || w.phase.TimedOut? }
  predicate IsAsleep(w: Worker) { w.phase.Asleep? }
  predicate IsComing(w: Worker) { w.phase.Starting? || w.phase.Woken? }
  predicate IsThere(w: Worker) { !w.phase.Gone? }

  ghost predicate Inv(q: WorkQueue) {
    && q.available == Count(q.workers, IsWaiting) + q.leaked
    && q.threads == Count(q.workers, IsThere)
    && (|q.items| <= q.notifies + Count(q.workers, IsComing) || NobodyAsleep(q))
    && q.pushed == q.taken + q.items
    && (forall j | 0 <= j < |q.workers| && q.workers[j].permanent ::
          !q.workers[j].phase.Gone? && !q.workers[j].phase.TimedOut?)
  }

  lemma MoveCounts(ws: seq<Worker>, i: nat, w: Worker)
    requires i < |ws|
    ensures forall p: Worker -> bool ::
              Count(ws[i := w], p) + (if p(ws[i]) then 1 else 0) == Count(ws, p) + (if p(w) then 1 else 0)
  {
    forall p: Worker -> bool
      ensures Count(ws[i := w], p) + (if p(ws[i]) then 1 else 0) == Count(ws, p) + (if p(w) then 1 else 0)
    {
      CountUpdate(ws, i, w, p);
    }
  }

  lemma PushKeepsInv(q: WorkQueue, item: Item, maximum: nat)
    requires Inv(q)
    ensures Inv(Pushed(q, item, maximum))
  {
    hide Count;
    assert q.taken + (q.items + [item]) == q.taken + q.items + [item];
    forall p: Worker -> bool
      ensures Count(q.workers + [Worker(Starting, false)], p) ==
              Count(q.workers, p) + (if p(Worker(Starting, false)) then 1 else 0)
    {
      CountSnoc(q.workers, Worker(Starting, false), p);
    }
  }

  lemma StepKeepsInv(q: WorkQueue, ev: Event, maximum: nat)
    requires Inv(q) && Possible(q, ev)
    ensures Inv(Step(q, ev, maximum))
  {
    hide Count;
    var q' := Step(q, ev, maximum);
    if ev.Push? {
      PushKeepsInv(q, ev.item, maximum);
    } else if ev.i < |q.workers| {
      MoveCounts(q.workers, ev.i, q'.workers[ev.i]);
      assert q'.workers == q.workers[ev.i := q'.workers[ev.i]];
      assert q.items != [] ==> q.taken + q.items == q.taken + [q.items[0]] + q.items[1..];
    }
  }

  /** A timed-out worker is still in the thread table, so its last look is always
      possible. */
  lemma TimedOutIsInTable(q: WorkQueue, i: nat)
    requires Inv(q) && i < |q.workers| && q.workers[i].phase.TimedOut?
    ensures q.threads > 0 && Possible(q, Look(i))
  {
    CountIn(q.workers, i, IsThere);
  }

  /** The permanent workers come first, and stay. */
  predicate Staffed(q: WorkQueue, minimum: nat) {
    |q.workers| >= minimum && forall j | 0 <= j < minimum :: q.workers[j].permanent
  }

  lemma {:induction false} RunKeepsInv(q: WorkQueue, evs: seq<Event>, minimum: nat, maximum: nat)
    requires Inv(q) && Staffed(q, minimum)
    ensures var q' := Run(q, evs, maximum);
            Inv(q') && Staffed(q', minimum) && q'.leaked >= q.leaked
    decreases |evs|
  {
    hide Inv;
    if evs != [] {
      if Possible(q, evs[0]) {
        StepKeepsInv(q, evs[0], maximum);
      }
      RunKeepsInv(Step(q, evs[0], maximum), evs[1..], minimum, maximum);
    }
  }

  lemma {:induction false} InitialInv(minimum: nat)
    ensures Inv(Initial(minimum)) && Staffed(Initial(minimum), minimum)
  {
    StartCounts(minimum);
  }

  lemma {:induction false} StartCounts(n: nat)
    ensures var ws := seq(n, _ => Worker(Starting, true));
            Count(ws, IsWaiting) == 0 && Count(ws, IsThere) == n
  {
    var ws := seq(n, _ => Worker(Starting, true));
    if n > 0 {
      StartCounts(n - 1);
      assert ws[..n - 1] == seq(n - 1, _ => Worker(Starting, true));
    }
  }

  /** In every run: the items taken so far and those queued are the items pushed, in
      order; the count of available workers is never below the number asleep; and
      while somebody sleeps, each queued item has a wake-up or a worker of its own
      on the way. */
  lemma EveryItemOnce(minimum: nat, maximum: nat, evs: seq<Event>)
    ensures var q := Run(Initial(minimum), evs, maximum);
            && q.pushed == q.taken + q.items
            && q.available == Count(q.workers, IsWaiting) + q.leaked >= Count(q.workers, IsAsleep)
            && (!NobodyAsleep(q) ==> |q.items| <= q.notifies + Count(q.workers, IsComing))
  {
    InitialInv(minimum);
    RunKeepsInv(Initial(minimum), evs, minimum, maximum);
    CountLess(Run(Initial(minimum), evs, maximum).workers, IsAsleep, IsWaiting);
  }

  /** The most workers a pool may have. */
  function Most(minimum: nat, maximum: nat): nat {
    if minimum < maximum then maximum else minimum
  }

  lemma StepKeepsBound(q: WorkQueue, ev: Event, minimum: nat, maximum: nat)
    requires q.threads <= Most(minimum, maximum)
    ensures Step(q, ev, maximum).threads <= Most(minimum, maximum)
  {
  }

  lemma {:induction false} RunKeepsBound(q: WorkQueue, evs: seq<Event>, minimum: nat, maximum: nat)
    requires q.threads <= Most(minimum, maximum)
    ensures Run(q, evs, maximum).threads <= Most(minimum, maximum)
    decreases |evs|
  {
    hide Step;
    if evs != [] {
      StepKeepsBound(q, evs[0], minimum, maximum);
      RunKeepsBound(Step(q, evs[0], maximum), evs[1..], minimum, maximum);
    }
  }

  lemma CountIsTable(q: WorkQueue)
    requires Inv(q)
    ensures Count(q.workers, IsThere) == q.threads
  {
  }

  /** In every run there are never more workers than the maximum, unless the pool was
      made with more permanent ones, and then never more than those. */
  lemma NeverTooManyWorkers(minimum: nat, maximum: nat, evs: seq<Event>)
    ensures Count(Run(Initial(minimum), evs, maximum).workers, IsThere) <= Most(minimum, maximum)
  {
    InitialInv(minimum);
    RunKeepsInv(Initial(minimum), evs, minimum, maximum);
    RunKeepsBound(Initial(minimum), evs, minimum, maximum);
  }

  /** A push starts one temporary worker exactly if none counts as available and there is
      room for one; otherwise it owes a wake-up. */
  lemma PushStartsWorker(q: WorkQueue, item: Item, maximum: nat)
    requires Inv(q)
    ensures var q' := Pushed(q, item, maximum);
            && q'.items == q.items + [item] && q'.available == q.available
            && if q.available == 0 && Count(q.workers, IsThere) < maximum
               then q'.workers == q.workers + [Worker(Starting, false)] && q'.notifies == q.notifies
               else q'.workers == q.workers && q'.notifies == q.notifies + 1
  {
  }

  lemma PushGains(q: WorkQueue, item: Item, minimum: nat, maximum: nat)
    requires Inv(q) && Staffed(q, minimum) && q.threads <= Most(minimum, maximum)
    ensures var q' := Pushed(q, item, maximum);
            && Step(q, Push(item), maximum) == q'
            && Inv(q') && Staffed(q', minimum) && q'.threads <= Most(minimum, maximum)
            && Count(q'.workers, IsThere) <= Most(minimum, maximum)
            && q'.pushed == q.pushed + [item]
            && if q.available == 0 && Count(q.workers, IsThere) < maximum
               then q'.workers == q.workers + [Worker(Starting, false)] && q'.notifies == q.notifies
               else q'.workers == q.workers && q'.notifies == q.notifies + 1
  {
    PushKeepsInv(q, item, maximum);
    PushStartsWorker(q, item, maximum);
    CountIsTable(q);
    CountIsTable(Pushed(q, item, maximum));
    hide Count;
    hide Inv;
  }

  /** How many wake-ups a run gives, to a sleeper or to nobody. */
  ghost function Notified(q: WorkQueue, evs: seq<Event>, maximum: nat): nat
    decreases |evs|
  {
    if evs == [] then 0
    else One(evs[0].Notify? && Possible(q, evs[0])) + Notified(Step(q, evs[0], maximum), evs[1..], maximum)
  }

  /** Every item pushed is worth a worker or a wake-up, and one only: those pushed are as
      many as the workers started, the wake-ups given and the wake-ups still owed. */
  lemma {:induction false} EveryPushIsOneWakeup(q: WorkQueue, evs: seq<Event>, maximum: nat)
    ensures var q' := Run(q, evs, maximum);
            |q'.pushed| + |q.workers| + q.notifies ==
            |q.pushed| + |q'.workers| + q'.notifies + Notified(q, evs, maximum)
    decreases |evs|
  {
    if evs != [] {
      EveryPushIsOneWakeup(Step(q, evs[0], maximum), evs[1..], maximum);
    }
  }

  /** So a queued item never waits for ever on sleepers alone: a worker is going to
      look, or a sleeper is going to be woken. */
  lemma NobodySleepsOnWork(minimum: nat, maximum: nat, evs: seq<Event>)
    requires minimum > 0 && Run(Initial(minimum), evs, maximum).items != []
    ensures var q := Run(Initial(minimum), evs, maximum);
            || (q.notifies > 0 && !NobodyAsleep(q))
            || exists j :: 0 <= j < |q.workers| && (IsComing(q.workers[j]) || q.workers[j].phase.Working?)
  {
    InitialInv(minimum);
    RunKeepsInv(Initial(minimum), evs, minimum, maximum);
    var q := Run(Initial(minimum), evs, maximum);
    assert q.workers[0].permanent;
    if q.workers[0].phase.Asleep? && q.notifies == 0 {
      var j := FindCounted(q.workers, IsComing);
    } else {
      assert IsComing(q.workers[0]) || q.workers[0].phase.Working? || q.workers[0].phase.Asleep?;
    }
  }

  /** How many temporary workers, during a run, looked for the last time and found
      nothing. */
  ghost function TimedOutInVain(q: WorkQueue, evs: seq<Event>, maximum: nat): nat
    decreases |evs|
  {
    if evs == [] then 0
    else
      var ev := evs[0];
      One(Possible(q, ev) && ev.Look? && q.workers[ev.i].phase.TimedOut? && q.items == []) +
      TimedOutInVain(Step(q, ev, maximum), evs[1..], maximum)
  }

  lemma {:induction false} LeakedIsTimedOut(q: WorkQueue, evs: seq<Event>, maximum: nat)
    ensures Run(q, evs, maximum).leaked == q.leaked + TimedOutInVain(q, evs, maximum)
    decreases |evs|
  {
    if evs != [] {
      LeakedIsTimedOut(Step(q, evs[0], maximum), evs[1..], maximum);
    }
  }

  /** `_threadsAvailable` exceeds the number of waiting workers by exactly the number
      of temporary workers that have timed out in vain: it is right if and only if
      there was none. */
  lemma AvailableIffNoTimeout(minimum: nat, maximum: nat, evs: seq<Event>)
    ensures var q := Run(Initial(minimum), evs, maximum);
            var gone := TimedOutInVain(Initial(minimum), evs, maximum);
            && q.available == Count(q.workers, IsWaiting) + gone
            && (q.available == Count(q.workers, IsWaiting) <==> gone == 0)
  {
    InitialInv(minimum);
    RunKeepsInv(Initial(minimum), evs, minimum, maximum);
    LeakedIsTimedOut(Initial(minimum), evs, maximum);
  }

  /** After one, no push ever starts another worker, whatever happens. */
  lemma LeakIsForever(minimum: nat, maximum: nat, evs: seq<Event>, more: seq<Event>, item: Item)
    requires TimedOutInVain(Initial(minimum), evs, maximum) > 0
    ensures var q := Run(Run(Initial(minimum), evs, maximum), more, maximum);
            Pushed(q, item, maximum).workers == q.workers
  {
    InitialInv(minimum);
    RunKeepsInv(Initial(minimum), evs, minimum, maximum);
    LeakedIsTimedOut(Initial(minimum), evs, maximum);
    RunKeepsInv(Run(Initial(minimum), evs, maximum), more, minimum, maximum);
  }

  /** It does happen: one permanent worker, room for two, and a temporary worker that
      finds its item taken. */
  lemma LeakHappens(item: Item)
    ensures var evs := [Push(item), Enter(0), Enter(1), TimeOut(1), Look(1)];
            TimedOutInVain(Initial(1), evs, 2) == 1
  {
    var evs := [Push(item), Enter(0), Enter(1), TimeOut(1), Look(1)];
    var q2 := ItemIsTaken(item);
    var q4 := WaitsInVain(q2);
    assert TimedOutInVain(q4, [Look(1)], 2) == 1 by { assert [Look(1)][1..] == []; }
    hide Step;
    assert evs[1..] == [Enter(0), Enter(1), TimeOut(1), Look(1)];
    assert evs[1..][1..] == [Enter(1), TimeOut(1), Look(1)];
    assert [Enter(1), TimeOut(1), Look(1)][1..] == [TimeOut(1), Look(1)] && [TimeOut(1), Look(1)][1..] == [Look(1)];
    assert TimedOutInVain(Step(q2, Enter(1), 2), [TimeOut(1), Look(1)], 2) == 1;
    assert TimedOutInVain(q2, [Enter(1), TimeOut(1), Look(1)], 2) == 1;
  }

  lemma ItemIsTaken(item: Item) returns (q: WorkQueue)
    ensures q == Step(Step(Initial(1), Push(item), 2), Enter(0), 2)
    ensures q.workers == [Worker(Working, true), Worker(Starting, false)] && q.items == []
  {
    var q1 := Step(Initial(1), Push(item), 2);
    assert q1.workers == [Worker(Starting, true), Worker(Starting, false)];
    q := Step(q1, Enter(0), 2);
  }

  lemma WaitsInVain(q: WorkQueue) returns (q': WorkQueue)
    requires q.workers == [Worker(Working, true), Worker(Starting, false)] && q.items == []
    ensures q' == Step(Step(q, Enter(1), 2), TimeOut(1), 2)
    ensures q'.workers == [Worker(Working, true), Worker(TimedOut, false)] && q'.items == []
  {
    var q1 := Step(q, Enter(1), 2);
    assert q1.workers == [Worker(Working, true), Worker(Asleep, false)];
    q' := Step(q1, TimeOut(1), 2);
  }

  // ---------------------------------------------------------------- the code

  /** One critical section of `worker` or `push` per method. */
  class Workers {
    const minimumThreads: nat
    const maximumThreads: nat
    var workItems: seq<Item>
    var threadsAvailable: int
    var workers: seq<Worker>
    var workerThreads: nat
    var notifies: nat
    ghost var pushed: seq<Item>
    ghost var taken: seq<Item>
    ghost var leaked: nat

    /** Every item pushed was taken or is queued, in order; the counts are right up to
        the workers that timed out; while somebody sleeps each queued item has a
        wake-up or a worker of its own; and the permanent workers are there, and not
        too many others. */
    ghost predicate Valid()
      reads this
    {
      && Inv(Snapshot()) && Staffed(Snapshot(), minimumThreads)
      && workerThreads <= Most(minimumThreads, maximumThreads)
    }

    ghost function Snapshot(): WorkQueue
      reads this
    {
      WorkQueue(workItems, threadsAvailable, workers, workerThreads, notifies, pushed, taken, leaked)
    }

    constructor (minimum: nat, maximum: nat)
      ensures Valid() && Snapshot() == Initial(minimum)
      ensures minimumThreads == minimum && maximumThreads == maximum
    {
      minimumThreads, maximumThreads := minimum, maximum;
      workItems, threadsAvailable, notifies := [], 0, 0;
      pushed, taken, leaked := [], [], 0;
      workers, workerThreads := [], 0;
      new;
      for i := 0 to minimum
        invariant workers == seq(i, _ => Worker(Starting, true)) && workerThreads == i
        invariant Snapshot() == WorkQueue([], 0, workers, workerThreads, 0, [], [], 0)
      {
        workers := workers + [Worker(Starting, true)];
        workerThreads := workerThreads + 1;
      }
      InitialInv(minimum);
    }

    /** `push`: the new item is covered like all others. */
    method PushItem(item: Item)
      requires Valid()
      modifies this
      ensures Valid() && Snapshot() == Step(old(Snapshot()), Push(item), maximumThreads)
      ensures pushed == old(pushed) + [item]
      ensures if old(threadsAvailable) == 0 && old(Count(workers, IsThere)) < maximumThreads
              then workers == old(workers) + [Worker(Starting, false)] && notifies == old(notifies)
              else workers == old(workers) && notifies == old(notifies) + 1
      ensures Count(workers, IsThere) <= Most(minimumThreads, maximumThreads)
    {
      PushGains(Snapshot(), item, minimumThreads, maximumThreads);
      hide Count;
      hide Inv;
      hide Staffed;
      hide Most;
      PlainPush(item);
    }

    /** The body of `push`, with both branches. */
    method PlainPush(item: Item)
      modifies this
      ensures Snapshot() == Pushed(old(Snapshot()), item, maximumThreads)
    {
      workItems := workItems + [item];
      pushed := pushed + [item];
      if threadsAvailable == 0 && workerThreads < maximumThreads {
        workers := workers + [Worker(Starting, false)];
        workerThreads := workerThreads + 1;
      } else {
        notifies := notifies + 1;
      }
    }

    /** The wait's predicate. */
    method TakeIfAny(i: nat, otherwise: Phase) returns (item: Option<Item>)
      requires i < |workers|
      modifies this`workItems, this`taken, this`threadsAvailable, this`workers
      ensures Snapshot() == Checked(old(Snapshot()), i, otherwise)
      ensures if item.Some? then old(workItems) == [item.value] + workItems else old(workItems) == []
    {
      if |workItems| > 0 {
        item := Some(workItems[0]);
        taken := taken + [workItems[0]];
        workItems := workItems[1..];
        threadsAvailable := threadsAvailable - 1;
        workers := workers[i := workers[i].(phase := Working)];
      } else {
        item := None;
        workers := workers[i := workers[i].(phase := otherwise)];
      }
    }

    /** A worker has locked the queue: it is available, and looks for the first time.
        It goes to sleep only on an empty queue. */
    method StartWaiting(i: nat) returns (item: Option<Item>)
      requires Valid() && i < |workers| && workers[i].phase == Starting
      modifies this
      ensures Valid() && Snapshot() == Step(old(Snapshot()), Enter(i), maximumThreads)
      ensures taken == old(taken) + if item.Some? then [item.value] else []
      ensures item.None? ==> workItems == [] && workers[i].phase == Asleep
    {
      StepKeepsInv(Snapshot(), Enter(i), maximumThreads);
      hide Inv;
      threadsAvailable := threadsAvailable + 1;
      item := TakeIfAny(i, Asleep);
      assert item.None? ==> taken + [] == taken;
    }

    /** A worker that was woken looks again. */
    method LookAgain(i: nat) returns (item: Option<Item>)
      requires Valid() && i < |workers| && workers[i].phase == Woken
      modifies this
      ensures Valid() && Snapshot() == Step(old(Snapshot()), Look(i), maximumThreads)
      ensures taken == old(taken) + if item.Some? then [item.value] else []
      ensures item.None? ==> workItems == [] && workers[i].phase == Asleep
    {
      StepKeepsInv(Snapshot(), Look(i), maximumThreads);
      hide Inv;
      item := TakeIfAny(i, Asleep);
      assert item.None? ==> taken + [] == taken;
    }

    /** The end of a temporary worker's timed wait: it leaves only an empty queue, but
        its availability stays counted. */
    method TimedWaitEnds(i: nat) returns (item: Option<Item>)
      requires Valid() && i < |workers| && workers[i].phase == TimedOut
      modifies this
      ensures Valid() && Snapshot() == Step(old(Snapshot()), Look(i), maximumThreads)
      ensures taken == old(taken) + if item.Some? then [item.value] else []
      ensures item.None? ==> workItems == [] && workers[i].phase == Gone && threadsAvailable == old(threadsAvailable)
    {
      TimedOutIsInTable(Snapshot(), i);
      StepKeepsInv(Snapshot(), Look(i), maximumThreads);
      hide Inv;
      item := TakeIfAny(i, Gone);
      assert item.None? ==> taken + [] == taken;
      if item.None? {
        workerThreads := workerThreads - 1;
        leaked := leaked + 1;
      }
    }
  }
}
