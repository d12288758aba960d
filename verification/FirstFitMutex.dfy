/**
 The kernel half of a first-fit pthread mutex: an unlock wakes the thread that has
 blocked longest or, with nobody blocked, is banked for the next thread to come.

 A drop that finds its thread no longer waiting gives up the queue lock before it
 tries the next one, so each attempt is a step of its own in the runs below.
 */
module FirstFitMutex {
  import opened Counting
  import opened SeqNum
  import opened Ksyn

  /** `redriving` holds the drop calls that are between two attempts. */
  datatype Mtx = Mtx(queue: seq<Kwe>, banked: nat, lseq: Seq, redriving: seq<Seq>)

  const Fresh := Mtx([], 0, 0, [])

  datatype Outcome = Woke(t: Thread) | Posted | Retry | Consumed | Blocked | Left | Cleared(n: nat) | Nothing

  datatype Event =
    | Drop(mgen: Seq)
    | Redrive(i: nat)
    | Wait(lockseq: Seq, t: Thread)
    | Abort(i: nat)
    | Clear(cvgen: Seq)

  predicate WakesUp(e: Kwe, asleep: set<Thread>) {
    e.state.InWait? && e.state.thread in asleep
  }

  /** One pass through the redrive label; `asleep` are the threads whose wake-up
      succeeds. */
  function Attempt(m: Mtx, mgen: Seq, asleep: set<Thread>): (Mtx, Outcome) {
    if m.queue == [] then (m.(banked := m.banked + 1, lseq := mgen), Posted)
    else if WakesUp(m.queue[0], asleep) then (m.(queue := m.queue[1..]), Woke(m.queue[0].state.thread))
    else (m.(queue := m.queue[1..]), Retry)
  }

  function Step(m: Mtx, ev: Event, asleep: set<Thread>): (Mtx, Outcome) {
    match ev
    case Drop(mgen) =>
      var (m1, out) := Attempt(m, mgen, asleep);
      (if out.Retry? then m1.(redriving := m1.redriving + [mgen]) else m1, out)
    case Redrive(i) =>
      if i >= |m.redriving| then (m, Nothing)
      else
        var (m1, out) := Attempt(m, m.redriving[i], asleep);
        (if out.Retry? then m1 else m1.(redriving := m1.redriving[..i] + m1.redriving[i + 1..]), out)
    case Wait(c, t) =>
      if m.banked > 0 then (m.(banked := m.banked - 1), Consumed)
      else (m.(queue := m.queue + [Kwe(c, InWait(t))]), Blocked)
    case Abort(i) =>
      if i < |m.queue| then (m.(queue := Removed(m.queue, i)), Left) else (m, Nothing)
    case Clear(cvgen) =>
      if m.banked > 0 && LowerEq(m.lseq, cvgen) then (m.(banked := 0, lseq := 0), Cleared(m.banked)) else (m, Nothing)
  }

  type Trace = seq<(Event, set<Thread>)>

  function Run(m: Mtx, evs: Trace): Mtx
    decreases |evs|
  {
    if evs == [] then m else Run(Step(m, evs[0].0, evs[0].1).0, evs[1..])
  }

  /** How many steps of a run satisfy `p`. */
  function Tally(m: Mtx, evs: Trace, p: (Event, Outcome) -> nat): nat
    decreases |evs|
  {
    if evs == [] then 0
    else
      var (m', out) := Step(m, evs[0].0, evs[0].1);
      p(evs[0].0, out) + Tally(m', evs[1..], p)
  }

  function Drops(m: Mtx, evs: Trace): nat { Tally(m, evs, (ev: Event, out: Outcome) => One(ev.Drop?)) }
  function Wakes(m: Mtx, evs: Trace): nat { Tally(m, evs, (ev: Event, out: Outcome) => One(out.Woke?)) }
  function Retries(m: Mtx, evs: Trace): nat { Tally(m, evs, (ev: Event, out: Outcome) => One(out.Retry?)) }
  function Takes(m: Mtx, evs: Trace): nat { Tally(m, evs, (ev: Event, out: Outcome) => One(out.Consumed?)) }
  function Blocks(m: Mtx, evs: Trace): nat { Tally(m, evs, (ev: Event, out: Outcome) => One(out.Blocked?)) }
  function Leaves(m: Mtx, evs: Trace): nat { Tally(m, evs, (ev: Event, out: Outcome) => One(out.Left?)) }
  function Clears(m: Mtx, evs: Trace): nat {
    Tally(m, evs, (ev: Event, out: Outcome) => if out.Cleared? then out.n else 0)
  }

  // ---------------------------------------------------------------- every run

  /** A banked unlock and a blocked thread never coexist. */
  predicate BankedMeansEmpty(m: Mtx) {
    m.banked > 0 ==> m.queue == []
  }

  lemma {:induction false} NeverBothInRun(m: Mtx, evs: Trace)
    requires BankedMeansEmpty(m)
    ensures BankedMeansEmpty(Run(m, evs))
    decreases |evs|
  {
    if evs != [] {
      NeverBothInRun(Step(m, evs[0].0, evs[0].1).0, evs[1..]);
    }
  }

  /** Both balances of one step. */
  lemma StepBalance(m: Mtx, ev: Event, asleep: set<Thread>)
    ensures var (m', out) := Step(m, ev, asleep);
            && m.banked + |m.redriving| + One(ev.Drop?) ==
               m'.banked + |m'.redriving| + One(out.Woke?) + One(out.Consumed?) + (if out.Cleared? then out.n else 0)
            && |m.queue| + One(out.Blocked?) == |m'.queue| + One(out.Woke?) + One(out.Left?) + One(out.Retry?)
  {
    hide Lower;
  }

  /** Every drop is worth exactly one grant: at the end of a run it has woken a
      thread, was consumed or cleared from the bank, is still banked, or is between
      two attempts. */
  lemma {:induction false} EveryDropIsOneGrant(m: Mtx, evs: Trace)
    ensures var m' := Run(m, evs);
            m.banked + |m.redriving| + Drops(m, evs) ==
            m'.banked + |m'.redriving| + Wakes(m, evs) + Takes(m, evs) + Clears(m, evs)
    decreases |evs|
  {
    hide Step;
    if evs != [] {
      StepBalance(m, evs[0].0, evs[0].1);
      EveryDropIsOneGrant(Step(m, evs[0].0, evs[0].1).0, evs[1..]);
    }
  }

  /** Every thread that blocks leaves the queue exactly once, and every further
      attempt of a drop has used up a queued thread: however the calls interleave,
      there are never more retries than threads that were or became blocked. */
  lemma {:induction false} EveryRetryShortensQueue(m: Mtx, evs: Trace)
    ensures var m' := Run(m, evs);
            |m.queue| + Blocks(m, evs) == |m'.queue| + Wakes(m, evs) + Leaves(m, evs) + Retries(m, evs)
    decreases |evs|
  {
    hide Step;
    if evs != [] {
      StepBalance(m, evs[0].0, evs[0].1);
      EveryRetryShortensQueue(Step(m, evs[0].0, evs[0].1).0, evs[1..]);
    }
  }

  /** From the start, with no drop under way and somebody blocked, every unlock so
      far went to a thread of its own: none is left over for the blocked one. */
  lemma NoUnlockWithheld(evs: Trace)
    requires Run(Fresh, evs).redriving == [] && Run(Fresh, evs).queue != []
    ensures Drops(Fresh, evs) == Wakes(Fresh, evs) + Takes(Fresh, evs) + Clears(Fresh, evs)
  {
    NeverBothInRun(Fresh, evs);
    EveryDropIsOneGrant(Fresh, evs);
  }

  /** The element that a step puts into the queue, and the one that a drop takes off,
      woken or in vain. */
  function Joins(ev: Event, out: Outcome): seq<Kwe> {
    if ev.Wait? && out.Blocked? then [Kwe(ev.lockseq, InWait(ev.t))] else []
  }

  function TakesOff(m: Mtx, out: Outcome): seq<Kwe> {
    if (out.Woke? || out.Retry?) && m.queue != [] then [m.queue[0]] else []
  }

  function JoinedIn(m: Mtx, evs: Trace): seq<Kwe>
    decreases |evs|
  {
    if evs == [] then []
    else
      var (m', out) := Step(m, evs[0].0, evs[0].1);
      Joins(evs[0].0, out) + JoinedIn(m', evs[1..])
  }

  function TakenOffIn(m: Mtx, evs: Trace): seq<Kwe>
    decreases |evs|
  {
    if evs == [] then []
    else
      var (m', out) := Step(m, evs[0].0, evs[0].1);
      TakesOff(m, out) + TakenOffIn(m', evs[1..])
  }

  /** First come, first served: as long as nobody gives up, drops take threads off in the
      order in which they blocked. */
  lemma {:induction false} FirstComeFirstServed(m: Mtx, evs: Trace)
    requires forall i | 0 <= i < |evs| :: !evs[i].0.Abort?
    ensures m.queue + JoinedIn(m, evs) == TakenOffIn(m, evs) + Run(m, evs).queue
    decreases |evs|
  {
    hide Step;
    hide Joins;
    hide TakesOff;
    if evs == [] {
      assert m.queue + [] == [] + m.queue;
    } else {
      var (m', out) := Step(m, evs[0].0, evs[0].1);
      OneServed(m, evs[0].0, evs[0].1);
      FirstComeFirstServed(m', evs[1..]);
      Shift(m.queue, Joins(evs[0].0, out), TakesOff(m, out), m'.queue,
            JoinedIn(m', evs[1..]), TakenOffIn(m', evs[1..]), Run(m', evs[1..]).queue);
    }
  }

  lemma Shift(q: seq<Kwe>, a: seq<Kwe>, t: seq<Kwe>, q': seq<Kwe>, b: seq<Kwe>, u: seq<Kwe>, r: seq<Kwe>)
    requires q + a == t + q' && q' + b == u + r
    ensures q + (a + b) == (t + u) + r
  {
    assert q + (a + b) == (q + a) + b;
    assert (t + q') + b == t + (q' + b);
    assert t + (u + r) == (t + u) + r;
  }

  lemma OneServed(m: Mtx, ev: Event, asleep: set<Thread>)
    requires !ev.Abort?
    ensures var (m', out) := Step(m, ev, asleep);
            && m.queue + Joins(ev, out) == TakesOff(m, out) + m'.queue
            && (out.Woke? ==> m.queue != [] && m.queue[0].state == InWait(out.t) && out.t in asleep)
            && (out.Retry? ==> m.queue != [] && !WakesUp(m.queue[0], asleep))
  {
    hide Lower;
  }

  /** Clearing concerns the unlocks banked up to a number: they go, all of them, and one
      banked above it stays. */
  lemma ClearUpTo(m: Mtx, cvgen: Seq, asleep: set<Thread>)
    ensures var (m', out) := Step(m, Clear(cvgen), asleep);
            && m'.queue == m.queue && m'.redriving == m.redriving
            && (if m.banked > 0 && Higher(m.lseq, cvgen) then m' == m && out == Nothing else m'.banked == 0)
            && (m.banked > 0 && m'.banked == 0 ==> out == Cleared(m.banked) && m'.lseq == 0)
            && (m.banked == 0 ==> m' == m && out == Nothing)
  {
    hide Lower;
    OrderFacts();
  }

  // ---------------------------------------------------------------- one drop on its own

  /** Index of the first thread that can be woken. */
  function FirstAsleep(q: seq<Kwe>, asleep: set<Thread>): (k: nat)
    ensures k <= |q|
    ensures forall i | 0 <= i < k :: !WakesUp(q[i], asleep)
    ensures k < |q| ==> WakesUp(q[k], asleep)
  {
    if q == [] || WakesUp(q[0], asleep) then 0 else 1 + FirstAsleep(q[1..], asleep)
  }

  /** What a drop comes to when nothing happens between its attempts: the first
      thread that can be woken is, those before it are dequeued in vain, and with
      none the unlock is banked. */
  function Dropped(m: Mtx, mgen: Seq, asleep: set<Thread>): (Mtx, Outcome) {
    var k := FirstAsleep(m.queue, asleep);
    if k < |m.queue| then (m.(queue := m.queue[k + 1..]), Woke(m.queue[k].state.thread))
    else (m.(queue := [], banked := m.banked + 1, lseq := mgen), Posted)
  }

  /** The drop, and then its further attempts. */
  function DropEvents(m: Mtx, mgen: Seq, asleep: set<Thread>): Trace {
    [(Drop(mgen), asleep)] + seq(FirstAsleep(m.queue, asleep), i => (Redrive(|m.redriving|), asleep))
  }

  lemma RedriveEnds(m: Mtx, mgen: Seq, asleep: set<Thread>)
    ensures Run(m, DropEvents(m, mgen, asleep)) == Dropped(m, mgen, asleep).0
  {
    var k := FirstAsleep(m.queue, asleep);
    var evs := DropEvents(m, mgen, asleep);
    var m1 := Step(m, evs[0].0, evs[0].1).0;
    if k > 0 {
      assert evs[1..] == seq(k, i => (Redrive(|m.redriving|), asleep));
      RedriveFrom(m1, |m.redriving|, asleep, k - 1);
      assert m1.redriving == m.redriving + [mgen];
    } else {
      assert evs[1..] == [];
    }
  }

  lemma {:induction false} RedriveFrom(m: Mtx, i: nat, asleep: set<Thread>, k: nat)
    requires i < |m.redriving| && k == FirstAsleep(m.queue, asleep)
    ensures var m' := Run(m, seq(k + 1, _ => (Redrive(i), asleep)));
            m' == Dropped(m, m.redriving[i], asleep).0.(redriving := m.redriving[..i] + m.redriving[i + 1..])
    decreases k
  {
    var evs := seq(k + 1, _ => (Redrive(i), asleep));
    var m1 := Step(m, evs[0].0, evs[0].1).0;
    if k > 0 {
      RedriveFrom(m1, i, asleep, k - 1);
      assert evs[1..] == seq(k, _ => (Redrive(i), asleep));
    } else {
      assert evs[1..] == [];
    }
  }

  /** One attempt, and the rest. */
  lemma DroppedStep(m: Mtx, mgen: Seq, asleep: set<Thread>)
    ensures var d := Dropped(m, mgen, asleep);
            if m.queue == [] then d == (m.(banked := m.banked + 1, lseq := mgen), Posted)
            else
              var m1 := m.(queue := m.queue[1..]);
              d == if WakesUp(m.queue[0], asleep) then (m1, Woke(m.queue[0].state.thread))
                   else Dropped(m1, mgen, asleep)
  {
  }

  lemma HeadRemoved(q: seq<Kwe>)
    requires q != []
    ensures Removed(q, 0) == q[1..]
  {
  }

  // ---------------------------------------------------------------- the code

  class FirstFitKwq {
    const kw: KsynWaitQueue
    var prepostCount: nat
    var prepostLseq: Seq

    ghost predicate Valid()
      reads this, kw
    {
      && kw.Counted() && kw.read.list == [] && BankedMeansEmpty(Snapshot())
      && forall i | 0 <= i < |kw.write.list| :: kw.write.list[i].state.InWait?
    }

    ghost function Snapshot(): Mtx
      reads this, kw
    {
      Mtx(kw.write.list, prepostCount, prepostLseq, [])
    }

    constructor ()
      ensures Valid() && Snapshot() == Fresh && fresh(kw)
    {
      kw := new KsynWaitQueue();
      prepostCount, prepostLseq := 0, 0;
    }

    /** `_psynch_mutexdrop_internal`, first-fit branch, with `ksyn_mtxsignal`.  It
        never signals an empty queue. */
    method PsynchMutexDrop(mgen: Word, asleep: set<Thread>) returns (out: Outcome)
      requires Valid()
      modifies this, kw
      ensures Valid() && (Snapshot(), out) == Dropped(old(Snapshot()), CountOf(mgen), asleep)
    {
      hide Dropped;
      hide Removed;
      ghost var goal := Dropped(Snapshot(), CountOf(mgen), asleep);
      while true
        invariant Valid() && Dropped(Snapshot(), CountOf(mgen), asleep) == goal
        decreases |kw.write.list|
      {
        DroppedStep(Snapshot(), CountOf(mgen), asleep);
        if kw.inqueue == 0 {
          prepostCount := prepostCount + 1;
          prepostLseq := CountOf(mgen);
          return Posted;
        }
        var t := kw.write.list[0].state.thread;
        HeadRemoved(kw.write.list);
        kw.RemoveItem(Write, 0);
        if t in asleep {
          return Woke(t);
        }
      }
    }

    /** `_psynch_mutexwait`, first-fit branch, up to the point where the thread
        blocks.  A thread that takes a banked unlock gets its own number back: the
        highest queued one is never asked for. */
    method PsynchMutexWait(mgen: Word, t: Thread) returns (out: Outcome, bits: int)
      requires Valid()
      modifies this, kw
      ensures Valid() && (Snapshot(), out) == Step(old(Snapshot()), Wait(CountOf(mgen), t), {})
      ensures bits == if out.Consumed? then Masked(mgen) + PTH_RWL_KBIT + PTH_RWL_EBIT else 0
    {
      if prepostCount != 0 {
        var highest := kw.highseq;
        prepostCount := prepostCount - 1;
        if kw.inqueue == 0 {
          bits := Masked(mgen) + PTH_RWL_KBIT + PTH_RWL_EBIT;
        } else {
          bits := 0x100 * highest + PTH_RWL_KBIT + PTH_RWL_EBIT;
        }
        return Consumed, bits;
      }
      kw.InsertFirstFit(Kwe(CountOf(mgen), InWait(t)), CountOf(mgen));
      out, bits := Blocked, 0;
    }

    /** `psynch_mtxcontinue` of an interrupted wait. */
    method PsynchMtxContinue(i: nat)
      requires Valid()
      modifies kw
      ensures Valid() && Snapshot() == Step(old(Snapshot()), Abort(i), {}).0
    {
      if i < |kw.write.list| {
        kw.RemoveItem(Write, i);
      }
    }

    /** `_psynch_cvclrprepost` on a first-fit mutex: no unlock banked at or below the
        number is left, all of them are cleared at once, one banked above it stays, and
        nobody blocked loses one. */
    method PsynchMutexClrPrepost(cvgen: Word) returns (cleared: nat)
      requires Valid()
      modifies this
      ensures Valid() && Snapshot() == Step(old(Snapshot()), Clear(CountOf(cvgen)), {}).0
      ensures prepostCount > 0 ==> !LowerEq(prepostLseq, CountOf(cvgen))
      ensures old(prepostCount) == prepostCount + cleared && (cleared > 0 ==> kw.write.list == [])
      ensures old(prepostCount) > 0 ==> (cleared > 0 <==> LowerEq(old(prepostLseq), CountOf(cvgen)))
      ensures cleared == 0 ==> Snapshot() == old(Snapshot())
    {
      cleared := 0;
      if prepostCount != 0 {
        if LowerEq(prepostLseq, CountOf(cvgen)) {
          cleared := prepostCount;
          prepostCount, prepostLseq := 0, 0;
        }
      }
    }
  }
}
