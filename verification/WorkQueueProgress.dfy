/**
 Every work item is taken: whatever order the workers and the wake-ups come in, and
 without a further push, all items have been taken in the end.
 */
module WorkQueueProgress {
  import opened Counting
  import opened WorkQueues

  /** The items that a run pushes. */
  function ItemsOf(evs: seq<Event>): seq<Item> {
    if evs == [] then [] else (if evs[0].Push? then [evs[0].item] else []) + ItemsOf(evs[1..])
  }

  lemma {:induction false} PushedIn(q: WorkQueue, evs: seq<Event>, maximum: nat)
    ensures Run(q, evs, maximum).pushed == q.pushed + ItemsOf(evs)
    decreases |evs|
  {
    if evs == [] {
      assert q.pushed + [] == q.pushed;
    } else {
      PushedIn(Step(q, evs[0], maximum), evs[1..], maximum);
      OneMore(q, evs[0], maximum);
      hide Step;
      var item := if evs[0].Push? then [evs[0].item] else [];
      assert q.pushed + (item + ItemsOf(evs[1..])) == q.pushed + item + ItemsOf(evs[1..]);
    }
  }

  lemma OneMore(q: WorkQueue, ev: Event, maximum: nat)
    ensures Step(q, ev, maximum).pushed == q.pushed + if ev.Push? then [ev.item] else []
  {
  }

  /** A step of the workers, or a wake-up that is owed. */
  predicate Internal(ev: Event) {
    ev.Notify? || ev.Enter? || ev.Look? || ev.Done?
  }

  function PhaseWeight(w: Worker): nat {
    match w.phase
    case Starting => 1
    case Asleep => 0
    case Woken => 1
    case TimedOut => 1
    case Working => 2
    case Gone => 0
  }

  /** How much is still to be done. */
  function Rank(q: WorkQueue): nat {
    2 * |q.items| + 2 * q.notifies + Sum(q.workers, PhaseWeight)
  }

  /** A possible step lowers the rank. */
  lemma StepIsProgress(q: WorkQueue, ev: Event, maximum: nat)
    requires Possible(q, ev) && Internal(ev)
    ensures Rank(Step(q, ev, maximum)) < Rank(q)
  {
    hide Sum;
    if ev.i < |q.workers| {
      var q' := Step(q, ev, maximum);
      SumUpdate(q.workers, ev.i, q'.workers[ev.i], PhaseWeight);
      assert q'.workers == q.workers[ev.i := q'.workers[ev.i]];
    }
  }

  /** Nothing is left to do. */
  ghost predicate Settled(q: WorkQueue) {
    forall ev | Internal(ev) :: !Possible(q, ev)
  }

  lemma SettledWorker(q: WorkQueue, j: nat)
    requires Inv(q) && Settled(q) && j < |q.workers|
    ensures q.workers[j].phase.Asleep? || q.workers[j].phase.Gone?
  {
    assert Internal(Enter(j)) && Internal(Look(j)) && Internal(Done(j));
    assert !Possible(q, Enter(j)) && !Possible(q, Look(j)) && !Possible(q, Done(j));
    if q.workers[j].phase.TimedOut? {
      TimedOutIsInTable(q, j);
    }
  }

  lemma NothingOwed(q: WorkQueue)
    requires Settled(q)
    ensures q.notifies == 0
  {
    if !NobodyAsleep(q) {
      var j :| 0 <= j < |q.workers| && q.workers[j].phase.Asleep?;
      assert Internal(Notify(j)) && !Possible(q, Notify(j));
    } else {
      assert Internal(Notify(|q.workers|)) && !Possible(q, Notify(|q.workers|));
    }
  }

  /** Then every item has been taken. */
  lemma SettledMeansAllTaken(q: WorkQueue, minimum: nat)
    requires Inv(q) && Staffed(q, minimum) && minimum > 0 && Settled(q)
    ensures q.items == [] && q.taken == q.pushed
  {
    NothingOwed(q);
    SettledWorker(q, 0);
    assert q.workers[0].permanent;
    if Count(q.workers, IsComing) > 0 {
      var j := FindCounted(q.workers, IsComing);
      SettledWorker(q, j);
    }
    assert q.taken + [] == q.taken;
  }

  /** How many steps of a run are taken. */
  ghost function Effective(q: WorkQueue, evs: seq<Event>, maximum: nat): nat
    decreases |evs|
  {
    if evs == [] then 0
    else One(Possible(q, evs[0])) + Effective(Step(q, evs[0], maximum), evs[1..], maximum)
  }

  lemma {:induction false} WorkEnds(q: WorkQueue, evs: seq<Event>, minimum: nat, maximum: nat)
    requires Inv(q) && Staffed(q, minimum) && forall ev | ev in evs :: Internal(ev)
    ensures var q' := Run(q, evs, maximum);
            Inv(q') && Staffed(q', minimum) && Effective(q, evs, maximum) + Rank(q') <= Rank(q)
    decreases |evs|
  {
    hide Inv;
    hide Rank;
    hide Internal;
    if evs != [] {
      assert evs[0] in evs;
      if Possible(q, evs[0]) {
        StepIsProgress(q, evs[0], maximum);
        StepKeepsInv(q, evs[0], maximum);
      }
      WorkEnds(Step(q, evs[0], maximum), evs[1..], minimum, maximum);
    }
  }

  /** From any reachable state of a pool with a permanent worker, in any order of the
      internal steps: there are only so many of them, and when none is left every item
      pushed has been taken, in the order of the pushes. */
  lemma EveryItemIsTaken(minimum: nat, maximum: nat, before: seq<Event>, evs: seq<Event>)
    requires minimum > 0 && forall ev | ev in evs :: Internal(ev)
    ensures var q := Run(Initial(minimum), before, maximum);
            var q' := Run(q, evs, maximum);
            && Effective(q, evs, maximum) + Rank(q') <= Rank(q)
            && (Settled(q') ==> q'.taken == ItemsOf(before))
  {
    InitialInv(minimum);
    RunKeepsInv(Initial(minimum), before, minimum, maximum);
    var q := Run(Initial(minimum), before, maximum);
    WorkEnds(q, evs, minimum, maximum);
    PushedIn(Initial(minimum), before, maximum);
    PushedIn(q, evs, maximum);
    NoItems(evs);
    assert q.pushed + [] == q.pushed && [] + ItemsOf(before) == ItemsOf(before);
    if Settled(Run(q, evs, maximum)) {
      SettledMeansAllTaken(Run(q, evs, maximum), minimum);
    }
  }

  lemma {:induction false} NoItems(evs: seq<Event>)
    requires forall ev | ev in evs :: Internal(ev)
    ensures ItemsOf(evs) == []
  {
    if evs != [] {
      assert evs[0] in evs;
      NoItems(evs[1..]);
    }
  }
}
