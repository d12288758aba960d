/**
 Nobody is stuck at a microthread mutex or condition variable, everybody is served in
 turn, and what counts as a wake-up without effect.
 */
module MicroLocksProgress {
  import opened Options
  import opened MicroLocks

  // ---------------------------------------------------------------- wake-ups without effect

  /** `resume` schedules a suspended microthread, and has no effect, which is counted,
      exactly for any other. */
  lemma ResumeOutcome(s: State, u: Tid)
    ensures var s' := Resume(s, u);
            if u in s.threads && s.threads[u].suspended
            then s'.scheduled == s.scheduled + {u} && s'.dropped == s.dropped
            else s'.scheduled == s.scheduled && s'.dropped == s.dropped + 1
  {
  }

  /** A scheduled microthread is taken up where it parked; for one that is running, not
      suspended or not parked the request has no effect, which is counted. */
  lemma WorkOutcome(s: State, t: Tid)
    requires t in s.threads && t in s.scheduled
    ensures var m, s' := s.threads[t], Step(s, Work(t));
            && s'.scheduled == s.scheduled - {t}
            && if !m.running && m.suspended && m.pc.Parked?
               then s'.dropped == s.dropped && s'.threads[t].running && !s'.threads[t].suspended
                    && s'.threads[t].pc == (if m.pc.q.MutexQueue? then Retry(m.pc.job) else Want(m.pc.job))
               else s'.dropped == s.dropped + 1 && s'.threads == s.threads
  {
  }

  /** A setter that owns the mutex stores its own value, and nobody else changes the
      info. */
  lemma OnlySettersStore(s: State, ev: Event)
    ensures var s' := Step(s, ev);
            if ev.Store? && ev.t in s.threads && s.threads[ev.t].pc.Holds? && s.threads[ev.t].pc.job.Setter?
            then s'.info == s.threads[ev.t].pc.job.value && s'.threads[ev.t].pc == Holds(Stored)
            else s'.info == s.info
  {
  }

  /** A native thread gets the queue lock exactly if that and the mutex are free, and
      only it gives the lock back. */
  lemma NativeLocks(s: State, n: nat)
    ensures var s' := Step(s, NativeLock(n));
            if s.mqHolder.None? && s.owner.None? then s' == s.(mqHolder := Some(Native(n))) else s' == s
    ensures var s' := Step(s, NativeUnlock(n));
            if s.mqHolder == Some(Native(n)) then s' == s.(mqHolder := None) else s' == s
  {
  }

  // ---------------------------------------------------------------- in turn

  /** A step took some from the front of a queue, and put at most one at its end. */
  predicate InTurn(q: seq<Tid>, q': seq<Tid>, taken: nat, joined: seq<Tid>) {
    taken <= |q| && q' == q[taken..] + joined && |joined| <= 1
  }

  lemma ResumeKeepsQueues(s: State, us: seq<Tid>)
    ensures var s' := ResumeAll(s, us); s'.mq == s.mq && s'.cvq == s.cvq && s'.threads == s.threads
  {
  }

  /** Both queues are first come, first served: a microthread joins at the end, and only
      one that failed to lock, or waits for the info; they leave from the front, one at
      an unlock and all at a setter's signal. */
  lemma QueuesInTurn(s: State, ev: Event) returns (m: nat, c: nat)
    ensures var s' := Step(s, ev);
            && InTurn(s.mq, s'.mq, m, if s' != s && ev.Try? && s'.owner != Some(ev.t) then [ev.t] else [])
            && InTurn(s.cvq, s'.cvq, c, if s' != s && ev.CvEnqueue? then [ev.t] else [])
            && (m > 0 ==> m == 1 && (ev.Unlock? || ev.CvUnlock?))
            && (s' != s && (ev.Unlock? || ev.CvUnlock?) && s.mq != [] ==> m == 1)
            && (c > 0 ==> ev.Signal? || (ev.Spurious? && c <= ev.count))
            && (s' != s && ev.Signal? ==> c == |s.cvq|)
  {
    hide ResumeAll;
    var s' := Step(s, ev);
    m, c := 0, 0;
    assert s.mq[0..] + [] == s.mq && s.cvq[0..] + [] == s.cvq;
    if (ev.Unlock? || ev.CvUnlock?) && s' != s {
      m := Popped(s.mq, 1);
      ResumeKeepsQueues(s.(owner := None, mq := s.mq[m..]), s.mq[..m]);
      assert s.mq[m..] + [] == s.mq[m..];
    } else if (ev.Signal? || ev.Spurious?) && s' != s {
      c := Popped(s.cvq, if ev.Signal? then |s.cvq| else ev.count);
      ResumeKeepsQueues(s.(cvq := s.cvq[c..]), s.cvq[..c]);
      assert s.cvq[c..] + [] == s.cvq[c..];
    }
  }

  // ---------------------------------------------------------------- nobody is stuck

  /** A step of somebody who has begun: no new job, and no wake-up out of the blue. */
  predicate Internal(ev: Event) {
    !ev.Start? && !ev.Spurious? && !ev.NativeLock?
  }

  /** Nobody can take a step. */
  ghost predicate Settled(s: State) {
    forall ev | Internal(ev) :: Step(s, ev) == s
  }

  /** One microthread, given what is free: it can take its next step, unless it is done
      or parked. */
  lemma ThreadMoves(s: State, t: Tid)
    requires Inv(s) && t in s.threads && Settled(s)
    ensures var pc := s.threads[t].pc;
            && !pc.Marking? && !pc.Leaving? && !pc.Letting? && !pc.CvOut?
            && (s.mqHolder.None? ==> !pc.Want? && !pc.Retry? && !pc.CvHeld?)
            && (s.cvHolder.None? ==> !pc.Signalling?)
            && (s.mqHolder.None? && s.cvHolder.None? ==> !pc.Holds?)
  {
    hide Release;
    hide SignalPass;
    hide Inv;
    assert Internal(Mark(t)) && Internal(Leave(t)) && Internal(Let(t)) && Internal(CvEnqueue(t));
    assert Step(s, Mark(t)) == s && Step(s, Leave(t)) == s && Step(s, Let(t)) == s && Step(s, CvEnqueue(t)) == s;
    TriesSettled(s, t);
    if s.mqHolder.None? && s.cvHolder.None? {
      HoldsSettled(s, t);
    }
  }

  lemma TriesSettled(s: State, t: Tid)
    requires t in s.threads && Settled(s)
    ensures var pc := s.threads[t].pc;
            && (s.mqHolder.None? ==> !pc.Want? && !pc.Retry? && !pc.CvHeld?)
            && (s.cvHolder.None? ==> !pc.Signalling?)
  {
    hide Release;
    hide SignalPass;
    assert Internal(Try(t)) && Internal(CvUnlock(t)) && Internal(Signal(t));
    assert Step(s, Try(t)).threads[t].pc == s.threads[t].pc;
    assert Step(s, CvUnlock(t)).threads[t].pc == s.threads[t].pc;
    assert Step(s, Signal(t)).threads[t].pc == s.threads[t].pc;
  }

  lemma HoldsSettled(s: State, t: Tid)
    requires t in s.threads && Settled(s) && s.mqHolder.None? && s.cvHolder.None?
    ensures !s.threads[t].pc.Holds?
  {
    hide Release;
    assert Internal(Store(t)) && Internal(Unlock(t)) && Internal(CvLock(t));
    assert Step(s, Store(t)).threads[t].pc == s.threads[t].pc;
    assert Step(s, Unlock(t)).threads[t].pc == s.threads[t].pc;
    assert Step(s, CvLock(t)).threads[t].pc == s.threads[t].pc;
  }

  lemma NativeMoves(s: State, n: nat)
    requires s.mqHolder == Some(Native(n))
    ensures !Settled(s)
  {
    assert Internal(NativeUnlock(n)) && Step(s, NativeUnlock(n)) != s;
  }

  /** The locks are free then. */
  lemma LocksAreFree(s: State)
    requires Inv(s) && Settled(s)
    ensures s.mqHolder.None? && s.cvHolder.None? && s.owner.None? && s.scheduled == {}
  {
    if s.mqHolder.Some? {
      match s.mqHolder.value
      case Native(n) => NativeMoves(s, n);
      case Microthread(t) =>
        assert ThreadOk(s, t);
        ThreadMoves(s, t);
    }
    if s.cvHolder.Some? && s.mqHolder.None? {
      assert ThreadOk(s, s.cvHolder.value);
      ThreadMoves(s, s.cvHolder.value);
    }
    if s.owner.Some? && s.mqHolder.None? && s.cvHolder.None? {
      assert ThreadOk(s, s.owner.value);
      ThreadMoves(s, s.owner.value);
    }
    if s.scheduled != {} {
      var t :| t in s.scheduled;
      assert ThreadOk(s, t);
      WorkOutcome(s, t);
      assert Internal(Work(t)) && t !in Step(s, Work(t)).scheduled;
    }
  }

  /** No deadlock: when nobody can take a step any more, every microthread is done, or is
      a waiter parked for info that is not there. */
  lemma SettledMeansDone(s: State)
    requires Inv(s) && NobodyStranded(s) && SignalComes(s) && Settled(s)
    ensures s.mq == [] && s.owner.None?
    ensures forall t | t in s.threads ::
              s.threads[t].pc.Outside? || (s.threads[t].pc.Parked? && s.threads[t].pc.q.CondQueue? && s.info == 0)
  {
    LocksAreFree(s);
    forall t | t in s.threads
      ensures s.threads[t].pc.Outside? || s.threads[t].pc.Parked?
    {
      ThreadMoves(s, t);
    }
    assert forall u :: !OnItsWay(s, u);
    assert s.mq == [];
    forall t | t in s.threads && s.threads[t].pc.Parked?
      ensures s.threads[t].pc.q.CondQueue? && s.info == 0
    {
      assert ThreadOk(s, t);
      assert WaitsForInfo(s, t);
      assert forall u :: !WillSignal(s, u);
    }
    hide Inv;
  }

  /** After every run from the start. */
  lemma NobodyIsStuck(start: State, evs: seq<Event>)
    requires Initial(start)
    ensures var s := Run(start, evs);
            Settled(s) ==>
              && s.mq == [] && s.owner.None?
              && forall t | t in s.threads ::
                   s.threads[t].pc.Outside? || (s.threads[t].pc.Parked? && s.threads[t].pc.q.CondQueue? && s.info == 0)
  {
    NothingLost(start, evs);
    var s := Run(start, evs);
    if Settled(s) {
      SettledMeansDone(s);
    }
  }
}
