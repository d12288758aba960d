/**
 Microthread mutexes and condition variables.

 A microthread that has to wait queues itself under a native lock, the queue lock,
 and suspends; the queue lock is released only once it is fully parked.  The steps
 below are the critical sections of the code, and between any two of them every
 other thread may take any of its own.

 One mutex with its condition variable is modelled, as used for a task's dyld
 info: readers wait until it is set, setters set and signal it; other microthreads
 just use the mutex, and so do native threads that are no microthread.
 */
module MicroLocks {
  import opened Options

  type Tid = nat

  /** What a microthread holds or wants the mutex for.  A setter that has stored
      its value still has to unlock and to signal. */
  datatype Job = Plain | Reader | Setter(value: nat) | Stored

  datatype Queue = MutexQueue | CondQueue

  datatype Pc =
    | Outside
    | Want(job: Job)                    // about to take the queue lock in dtape_mutex_lock
    | Retry(job: Job)                   // the same, after having been woken from the mutex queue
    | Marking(job: Job, q: Queue)       // queued, in suspend, with the queue lock
    | Leaving(job: Job, q: Queue)       // marked as suspended
    | Letting(job: Job, q: Queue)       // off its worker, which will drop the queue lock
    | Parked(job: Job, q: Queue)
    | Holds(job: Job)
    | CvHeld                            // in dtape_condvar_wait, with both locks
    | CvOut                             // the mutex is unlocked, the condvar queue lock is not
    | Signalling

  datatype Micro = Micro(pc: Pc, running: bool, suspended: bool)

  datatype Holder = Microthread(t: Tid) | Native(n: nat)

  /** `scheduled` are the microthreads handed to the worker pool, `dropped` counts
      the wake-ups that had no effect. */
  datatype State = State(owner: Option<Tid>, mqHolder: Option<Holder>, mq: seq<Tid>,
                         cvHolder: Option<Tid>, cvq: seq<Tid>, info: nat,
                         threads: map<Tid, Micro>, scheduled: set<Tid>, dropped: nat)

  // ---------------------------------------------------------------- the critical sections

  /** `dtape_mutex_lock`, one turn of its loop: the new owner and queue. */
  function LockPass(owner: Option<Tid>, mq: seq<Tid>, t: Tid): (Option<Tid>, seq<Tid>) {
    if owner.None? || owner == Some(t) then (Some(t), mq) else (owner, mq + [t])
  }

  /** How many waiters a signal takes off the queue. */
  function Popped(q: seq<Tid>, count: nat): (n: nat)
    ensures n <= |q|
  {
    if count < |q| then count else |q|
  }

  /** `Thread::resume`. */
  function Resume(s: State, u: Tid): State {
    if u in s.threads && s.threads[u].suspended then s.(scheduled := s.scheduled + {u})
    else s.(dropped := s.dropped + 1)
  }

  function ResumeAll(s: State, us: seq<Tid>): (s': State)
    ensures s' == s.(scheduled := s'.scheduled, dropped := s'.dropped) && s.scheduled <= s'.scheduled
    decreases |us|
  {
    if us == [] then s else ResumeAll(Resume(s, us[0]), us[1..])
  }

  /** `dtape_mutex_unlock`. */
  function Release(s: State): (s': State)
    ensures s'.threads == s.threads && s.scheduled <= s'.scheduled && s'.info == s.info
  {
    var n := Popped(s.mq, 1);
    ResumeAll(s.(owner := None, mq := s.mq[n..]), s.mq[..n])
  }

  /** `dtape_condvar_signal`. */
  function SignalPass(s: State, count: nat): (s': State)
    ensures s'.threads == s.threads && s.scheduled <= s'.scheduled
    ensures s'.info == s.info && s'.mq == s.mq && s'.owner == s.owner
  {
    var n := Popped(s.cvq, count);
    ResumeAll(s.(cvq := s.cvq[n..]), s.cvq[..n])
  }

  function Goto(s: State, t: Tid, pc: Pc): State
    requires t in s.threads
  {
    s.(threads := s.threads[t := s.threads[t].(pc := pc)])
  }

  // ---------------------------------------------------------------- the steps

  datatype Event =
    | Start(t: Tid, job: Job)
    | Try(t: Tid)
    | Mark(t: Tid)
    | Leave(t: Tid)
    | Let(t: Tid)
    | Work(t: Tid)
    | Store(t: Tid)
    | Unlock(t: Tid)
    | CvLock(t: Tid)
    | CvUnlock(t: Tid)
    | CvEnqueue(t: Tid)
    | Signal(t: Tid)
    | Spurious(count: nat)
    | NativeLock(n: nat)
    | NativeUnlock(n: nat)

  function TryLock(s: State, t: Tid, job: Job): State
    requires t in s.threads
  {
    if s.mqHolder.Some? then s
    else
      var (owner, mq) := LockPass(s.owner, s.mq, t);
      if owner == Some(t) then Goto(s.(owner := owner), t, Holds(job))
      else Goto(s.(mq := mq, mqHolder := Some(Microthread(t))), t, Marking(job, MutexQueue))
  }

  /** A worker takes a scheduled microthread: `doWork`. */
  function DoWork(s: State, t: Tid): State
    requires t in s.threads
  {
    var m := s.threads[t];
    var s1 := s.(scheduled := s.scheduled - {t});
    if m.running || !m.suspended || !m.pc.Parked? then s1.(dropped := s.dropped + 1)
    else
      s1.(threads := s.threads[t := Micro(if m.pc.q.MutexQueue? then Retry(m.pc.job) else Want(m.pc.job), true, false)])
  }

  function StoreInfo(s: State, t: Tid): State
    requires t in s.threads && s.threads[t].pc.Holds? && s.threads[t].pc.job.Setter?
  {
    Goto(s.(info := s.threads[t].pc.job.value), t, Holds(Stored))
  }

  function TakeCvLock(s: State, t: Tid): State
    requires t in s.threads
  {
    Goto(s.(cvHolder := Some(t)), t, CvHeld)
  }

  function EnqueueOnCv(s: State, t: Tid): State
    requires t in s.threads
  {
    Goto(s.(cvq := s.cvq + [t]), t, Marking(Reader, CondQueue))
  }

  function MarkSuspended(s: State, t: Tid): State
    requires t in s.threads && s.threads[t].pc.Marking?
  {
    var m := s.threads[t];
    s.(threads := s.threads[t := Micro(Leaving(m.pc.job, m.pc.q), m.running, true)])
  }

  /** The worker, back at the top, drops the queue lock. */
  function Park(s: State, t: Tid): State
    requires t in s.threads && s.threads[t].pc.Letting?
  {
    var pc := s.threads[t].pc;
    Goto(if pc.q.MutexQueue? then s.(mqHolder := None) else s.(cvHolder := None), t, Parked(pc.job, pc.q))
  }

  /** `Leave` is the second look `suspend` takes: resumed meanwhile, it returns. */
  function LeaveWorker(s: State, t: Tid): State
    requires t in s.threads && s.threads[t].pc.Leaving?
  {
    var m := s.threads[t];
    s.(threads := s.threads[t := if m.suspended then Micro(Letting(m.pc.job, m.pc.q), false, true)
                                 else m.(pc := Want(m.pc.job))])
  }

  /** A step of one microthread; it leaves the others where they are. */
  function ThreadStep(s: State, ev: Event, t: Tid): (s': State)
    requires t in s.threads
    ensures s'.threads.Keys == s.threads.Keys && s.scheduled - {t} <= s'.scheduled
    ensures forall u | u in s.threads && u != t :: s'.threads[u] == s.threads[u]
  {
    var m := s.threads[t];
    match ev
    case Start(_, job) => if m.pc.Outside? && !job.Stored? then Goto(s, t, Want(job)) else s
    case Try(_) => if m.pc.Want? || m.pc.Retry? then TryLock(s, t, m.pc.job) else s
    case Mark(_) => if m.pc.Marking? then MarkSuspended(s, t) else s
    case Leave(_) => if m.pc.Leaving? then LeaveWorker(s, t) else s
    case Let(_) => if m.pc.Letting? then Park(s, t) else s
    case Work(_) => if t in s.scheduled then DoWork(s, t) else s
    case Store(_) => if m.pc.Holds? && m.pc.job.Setter? then StoreInfo(s, t) else s
    case Unlock(_) =>
      if m.pc.Holds? && !m.pc.job.Setter? && !(m.pc.job.Reader? && s.info == 0) && s.mqHolder.None? then
        Goto(Release(s), t, if m.pc.job.Stored? then Signalling else Outside)
      else s
    case CvLock(_) =>
      if m.pc == Holds(Reader) && s.info == 0 && s.cvHolder.None? then TakeCvLock(s, t) else s
    case CvUnlock(_) => if m.pc.CvHeld? && s.mqHolder.None? then Goto(Release(s), t, CvOut) else s
    case CvEnqueue(_) => if m.pc.CvOut? then EnqueueOnCv(s, t) else s
    case Signal(_) =>
      if m.pc.Signalling? && s.cvHolder.None? then Goto(SignalPass(s, |s.cvq|), t, Outside) else s
    case _ => s
  }

  function Step(s: State, ev: Event): State {
    match ev
    case Spurious(count) => if s.cvHolder.None? then SignalPass(s, count) else s
    case NativeLock(n) => if s.mqHolder.None? && s.owner.None? then s.(mqHolder := Some(Native(n))) else s
    case NativeUnlock(n) => if s.mqHolder == Some(Native(n)) then s.(mqHolder := None) else s
    case _ => if ev.t in s.threads then ThreadStep(s, ev, ev.t) else s
  }

  function Run(s: State, evs: seq<Event>): State
    decreases |evs|
  {
    if evs == [] then s else Run(Step(s, evs[0]), evs[1..])
  }

  // ---------------------------------------------------------------- what holds in every state

  predicate InSuspend(pc: Pc, q: Queue) {
    (pc.Marking? || pc.Leaving? || pc.Letting?) && pc.q == q
  }

  /** Waiting in a queue, or on the way in. */
  predicate Queued(s: State, t: Tid, q: Queue)
    requires t in s.threads
  {
    InSuspend(s.threads[t].pc, q) || (s.threads[t].pc.Parked? && s.threads[t].pc.q == q && t !in s.scheduled)
  }

  predicate ThreadOk(s: State, t: Tid)
    requires t in s.threads
  {
    var m := s.threads[t];
    && (m.running <==> !m.pc.Letting? && !m.pc.Parked?)
    && (m.suspended <==> m.pc.Leaving? || m.pc.Letting? || m.pc.Parked?)
    && (s.owner == Some(t) <==> m.pc.Holds? || m.pc.CvHeld?)
    && (s.mqHolder == Some(Microthread(t)) <==> InSuspend(m.pc, MutexQueue))
    && (s.cvHolder == Some(t) <==> InSuspend(m.pc, CondQueue) || m.pc.CvHeld? || m.pc.CvOut?)
    && (t in s.mq <==> Queued(s, t, MutexQueue))
    && (t in s.cvq <==> Queued(s, t, CondQueue))
    && (t in s.scheduled ==> m.pc.Parked?)
    && (m.pc.CvHeld? ==> s.info == 0)
  }

  ghost predicate Distinct(q: seq<Tid>) {
    forall i, j | 0 <= i < j < |q| :: q[i] != q[j]
  }

  /** Dequeued from the mutex queue, woken, and not yet back at the lock. */
  predicate OnItsWay(s: State, u: Tid) {
    && u in s.threads
    && (s.threads[u].pc.Retry? || (s.threads[u].pc.Parked? && s.threads[u].pc.q.MutexQueue? && u in s.scheduled))
  }

  /** A reader that waits for the info or is about to. */
  predicate WaitsForInfo(s: State, u: Tid) {
    && u in s.threads
    && (s.threads[u].pc.CvHeld? || s.threads[u].pc.CvOut? || Queued(s, u, CondQueue))
  }

  /** A setter that has stored its value and will still signal. */
  predicate WillSignal(s: State, u: Tid) {
    u in s.threads && (s.threads[u].pc.Signalling? || s.threads[u].pc == Holds(Stored))
  }

  ghost predicate Inv(s: State) {
    && (forall t | t in s.threads :: ThreadOk(s, t))
    && Distinct(s.mq) && Distinct(s.cvq)
    && (forall t | t in s.mq :: t in s.threads)
    && (forall t | t in s.cvq :: t in s.threads)
    && (s.owner.Some? ==> s.owner.value in s.threads)
    && (s.cvHolder.Some? ==> s.cvHolder.value in s.threads)
    && (s.mqHolder.Some? && s.mqHolder.value.Microthread? ==> s.mqHolder.value.t in s.threads)
    && (s.mqHolder.Some? && s.mqHolder.value.Native? ==> s.owner.None?)
    && s.scheduled <= s.threads.Keys
    && s.dropped == 0
  }

  /** A free mutex that somebody waits for has a woken waiter on its way to it. */
  ghost predicate NobodyStranded(s: State) {
    s.owner.None? && s.mq != [] ==> exists u :: OnItsWay(s, u)
  }

  /** While the info is there, a waiting reader still has a signal coming. */
  ghost predicate SignalComes(s: State) {
    s.info != 0 && (exists r :: WaitsForInfo(s, r)) ==> exists u :: WillSignal(s, u)
  }

  // ---------------------------------------------------------------- one step at a time

  function Members(us: seq<Tid>): set<Tid> {
    set u | u in us
  }

  /** Wake-ups of suspended microthreads all take effect. */
  lemma {:induction false} ResumeAllSchedules(s: State, us: seq<Tid>)
    requires forall u | u in us :: u in s.threads && s.threads[u].suspended
    ensures ResumeAll(s, us) == s.(scheduled := s.scheduled + Members(us))
    decreases |us|
  {
    if us == [] {
      assert Members(us) == {};
    } else {
      var s1 := Resume(s, us[0]);
      ResumeAllSchedules(s1, us[1..]);
      assert {us[0]} + Members(us[1..]) == Members(us);
      assert s1.scheduled + Members(us[1..]) == s.scheduled + Members(us);
    }
  }

  /** A waiter that is dequeued while its queue lock is free is fully parked, so
      neither `resume` nor `doWork` drops the wake-up. */
  lemma PoppedIsParked(s: State, q: Queue, u: Tid)
    requires Inv(s) && u in (if q.MutexQueue? then s.mq else s.cvq)
    requires if q.MutexQueue? then s.mqHolder.None? else s.cvHolder.None?
    ensures u in s.threads && s.threads[u].pc.Parked? && s.threads[u].pc.q == q
    ensures s.threads[u].suspended && !s.threads[u].running && u !in s.scheduled
  {
    assert ThreadOk(s, u);
  }

  lemma ReleaseIs(s: State)
    requires Inv(s) && s.mqHolder.None?
    ensures Release(s) ==
            if s.mq == [] then s.(owner := None)
            else s.(owner := None, mq := s.mq[1..], scheduled := s.scheduled + {s.mq[0]})
  {
    if s.mq == [] {
      assert s.mq[..0] == [] && s.mq[0..] == s.mq;
    } else {
      PoppedIsParked(s, MutexQueue, s.mq[0]);
      assert s.mq[..1] == [s.mq[0]] && Members([s.mq[0]]) == {s.mq[0]};
      ResumeAllSchedules(s.(owner := None, mq := s.mq[1..]), s.mq[..1]);
    }
  }

  lemma SignalPassIs(s: State, count: nat)
    requires Inv(s) && s.cvHolder.None?
    ensures var n := Popped(s.cvq, count);
            SignalPass(s, count) == s.(cvq := s.cvq[n..], scheduled := s.scheduled + Members(s.cvq[..n]))
  {
    var n := Popped(s.cvq, count);
    forall u | u in s.cvq[..n]
      ensures u in s.threads && s.threads[u].suspended
    {
      PoppedIsParked(s, CondQueue, u);
    }
    ResumeAllSchedules(s.(cvq := s.cvq[n..]), s.cvq[..n]);
  }

  lemma ReleaseKeepsInv(s: State, t: Tid, pc: Pc)
    requires Inv(s) && s.mqHolder.None? && t in s.threads && s.owner == Some(t)
    requires pc == if s.threads[t].pc.CvHeld? then CvOut
                   else if s.threads[t].pc.job.Stored? then Signalling else Outside
    ensures Inv(Goto(Release(s), t, pc))
  {
    ReleaseIs(s);
    var s' := Goto(Release(s), t, pc);
    forall u | u in s'.threads
      ensures ThreadOk(s', u)
    {
      assert ThreadOk(s, u);
    }
  }

  lemma SignalKeepsInv(s: State, count: nat)
    requires Inv(s) && s.cvHolder.None?
    ensures Inv(SignalPass(s, count))
  {
    SignalPassIs(s, count);
    var n := Popped(s.cvq, count);
    var s' := SignalPass(s, count);
    forall u | u in s.cvq
      ensures s.threads[u].pc.Parked? && u !in s.scheduled && (u in s.cvq[..n] <==> u !in s.cvq[n..])
    {
      PoppedIsParked(s, CondQueue, u);
    }
    forall u | u in s'.threads
      ensures ThreadOk(s', u)
    {
      assert ThreadOk(s, u);
    }
  }

  lemma TryKeepsInv(s: State, t: Tid)
    requires Inv(s) && t in s.threads && (s.threads[t].pc.Want? || s.threads[t].pc.Retry?)
    ensures Inv(TryLock(s, t, s.threads[t].pc.job))
  {
    var s' := TryLock(s, t, s.threads[t].pc.job);
    assert ThreadOk(s, t);
    forall u | u in s'.threads
      ensures ThreadOk(s', u)
    {
      assert ThreadOk(s, u);
    }
  }

  lemma MarkKeepsInv(s: State, t: Tid)
    requires Inv(s) && t in s.threads && s.threads[t].pc.Marking?
    ensures Inv(MarkSuspended(s, t))
  {
    var s' := MarkSuspended(s, t);
    assert ThreadOk(s, t);
    forall u | u in s'.threads
      ensures ThreadOk(s', u)
    {
      assert ThreadOk(s, u);
    }
  }

  lemma LeaveKeepsInv(s: State, t: Tid)
    requires Inv(s) && t in s.threads && s.threads[t].pc.Leaving?
    ensures Inv(LeaveWorker(s, t))
  {
    var s' := LeaveWorker(s, t);
    assert ThreadOk(s, t);
    forall u | u in s'.threads
      ensures ThreadOk(s', u)
    {
      assert ThreadOk(s, u);
    }
  }

  lemma ParkKeepsInv(s: State, t: Tid)
    requires Inv(s) && t in s.threads && s.threads[t].pc.Letting?
    ensures Inv(Park(s, t))
  {
    var s' := Park(s, t);
    assert ThreadOk(s, t);
    forall u | u in s'.threads
      ensures ThreadOk(s', u)
    {
      assert ThreadOk(s, u);
    }
  }

  lemma WorkKeepsInv(s: State, t: Tid)
    requires Inv(s) && t in s.threads && t in s.scheduled
    ensures Inv(DoWork(s, t))
  {
    var s' := DoWork(s, t);
    assert ThreadOk(s, t);
    forall u | u in s'.threads
      ensures ThreadOk(s', u)
    {
      assert ThreadOk(s, u);
    }
  }

  lemma StartKeepsInv(s: State, t: Tid, job: Job)
    requires Inv(s) && t in s.threads && s.threads[t].pc.Outside?
    ensures Inv(Goto(s, t, Want(job)))
  {
    var s' := Goto(s, t, Want(job));
    assert ThreadOk(s, t);
    forall u | u in s'.threads
      ensures ThreadOk(s', u)
    {
      assert ThreadOk(s, u);
    }
  }

  lemma StoreKeepsInv(s: State, t: Tid)
    requires Inv(s) && t in s.threads && s.threads[t].pc.Holds? && s.threads[t].pc.job.Setter?
    ensures Inv(StoreInfo(s, t))
  {
    var s' := StoreInfo(s, t);
    assert ThreadOk(s, t);
    forall u | u in s'.threads
      ensures ThreadOk(s', u)
    {
      assert ThreadOk(s, u);
    }
  }

  lemma CvLockKeepsInv(s: State, t: Tid)
    requires Inv(s) && t in s.threads && s.threads[t].pc == Holds(Reader) && s.info == 0 && s.cvHolder.None?
    ensures Inv(TakeCvLock(s, t))
  {
    var s' := TakeCvLock(s, t);
    assert ThreadOk(s, t);
    forall u | u in s'.threads
      ensures ThreadOk(s', u)
    {
      assert ThreadOk(s, u);
    }
  }

  lemma CvEnqueueKeepsInv(s: State, t: Tid)
    requires Inv(s) && t in s.threads && s.threads[t].pc.CvOut?
    ensures Inv(EnqueueOnCv(s, t))
  {
    var s' := EnqueueOnCv(s, t);
    assert ThreadOk(s, t);
    forall u | u in s'.threads
      ensures ThreadOk(s', u)
    {
      assert ThreadOk(s, u);
    }
  }

  lemma SignalAllKeepsInv(s: State, t: Tid)
    requires Inv(s) && t in s.threads && s.threads[t].pc.Signalling? && s.cvHolder.None?
    ensures Inv(Goto(SignalPass(s, |s.cvq|), t, Outside))
  {
    SignalKeepsInv(s, |s.cvq|);
    hide SignalPass;
    DoneSignalling(SignalPass(s, |s.cvq|), t);
    hide Inv;
  }

  lemma DoneSignalling(s: State, t: Tid)
    requires Inv(s) && t in s.threads && s.threads[t].pc.Signalling?
    ensures Inv(Goto(s, t, Outside))
  {
    var s' := Goto(s, t, Outside);
    forall u | u in s'.threads
      ensures ThreadOk(s', u)
    {
      assert ThreadOk(s, u);
    }
  }

  lemma ThreadStepKeepsInv(s: State, ev: Event, t: Tid)
    requires Inv(s) && t in s.threads
    ensures Inv(ThreadStep(s, ev, t))
  {
    hide Release;
    hide SignalPass;
    hide TryLock;
    hide DoWork;
    hide LeaveWorker;
    hide MarkSuspended;
    hide Park;
    hide StoreInfo;
    hide TakeCvLock;
    hide EnqueueOnCv;
    hide Goto;
    assert ThreadOk(s, t);
    var pc := s.threads[t].pc;
    hide Inv;
    hide ThreadOk;
    if ev.Start? && pc.Outside? {
      StartKeepsInv(s, t, ev.job);
    } else if ev.Store? && pc.Holds? && pc.job.Setter? {
      StoreKeepsInv(s, t);
    } else if ev.CvLock? && pc == Holds(Reader) && s.info == 0 && s.cvHolder.None? {
      CvLockKeepsInv(s, t);
    } else if ev.CvEnqueue? && pc.CvOut? {
      CvEnqueueKeepsInv(s, t);
    } else if ev.Mark? && pc.Marking? {
      MarkKeepsInv(s, t);
    } else if ev.Leave? && pc.Leaving? {
      LeaveKeepsInv(s, t);
    } else if ev.Let? && pc.Letting? {
      ParkKeepsInv(s, t);
    } else if ev.Try? && (pc.Want? || pc.Retry?) {
      TryKeepsInv(s, t);
    } else if ev.Work? && t in s.scheduled {
      WorkKeepsInv(s, t);
    } else if ev.Signal? && pc.Signalling? && s.cvHolder.None? {
      SignalAllKeepsInv(s, t);
    } else if ev.Unlock? && pc.Holds? && !pc.job.Setter? && !(pc.job.Reader? && s.info == 0) && s.mqHolder.None? {
      ReleaseKeepsInv(s, t, if pc.job.Stored? then Signalling else Outside);
    } else if ev.CvUnlock? && pc.CvHeld? && s.mqHolder.None? {
      ReleaseKeepsInv(s, t, CvOut);
    }
  }

  lemma NativeKeepsInv(s: State, ev: Event)
    requires Inv(s) && (ev.NativeLock? || ev.NativeUnlock?)
    ensures Inv(Step(s, ev))
  {
    var s' := Step(s, ev);
    forall u | u in s'.threads
      ensures ThreadOk(s', u)
    {
      assert ThreadOk(s, u);
    }
  }

  lemma StepKeepsInv(s: State, ev: Event)
    requires Inv(s)
    ensures Inv(Step(s, ev))
  {
    if ev.NativeLock? || ev.NativeUnlock? {
      NativeKeepsInv(s, ev);
    } else {
      hide Inv;
      hide ThreadStep;
      hide SignalPass;
      if ev.Spurious? {
        if s.cvHolder.None? {
          SignalKeepsInv(s, ev.count);
        }
      } else if ev.t in s.threads {
        ThreadStepKeepsInv(s, ev, ev.t);
      }
    }
  }

  // ---------------------------------------------------------------- nobody is stranded

  lemma ReleaseWakes(s: State, t: Tid, pc: Pc)
    requires Inv(s) && s.mqHolder.None? && t in s.threads && s.owner == Some(t)
    ensures NobodyStranded(Goto(Release(s), t, pc))
  {
    ReleaseIs(s);
    assert ThreadOk(s, t);
    if s.mq != [] {
      PoppedIsParked(s, MutexQueue, s.mq[0]);
      assert OnItsWay(Goto(Release(s), t, pc), s.mq[0]);
    }
  }

  lemma UnlockWakesOldest(s: State, t: Tid, pc: Pc)
    requires Inv(s) && s.mqHolder.None? && t in s.threads && s.owner == Some(t)
    ensures var s' := Goto(Release(s), t, pc);
            && s'.owner.None? && s'.dropped == 0
            && (s.mq != [] ==> s'.mq == s.mq[1..] && OnItsWay(s', s.mq[0]))
  {
    ReleaseIs(s);
    assert ThreadOk(s, t);
    if s.mq != [] {
      PoppedIsParked(s, MutexQueue, s.mq[0]);
    }
  }

  lemma StayOnTheirWay(s: State, s': State)
    requires NobodyStranded(s) && (s'.owner.None? && s'.mq != [] ==> s.owner.None? && s.mq != [])
    requires forall u | OnItsWay(s, u) :: OnItsWay(s', u)
    ensures NobodyStranded(s')
  {
  }

  /** Other steps leave a woken waiter on its way. */
  lemma OwnWay(s: State, ev: Event, t: Tid)
    requires Inv(s) && t in s.threads && !ev.Unlock? && !ev.CvUnlock? && !ev.Try?
    ensures var s' := ThreadStep(s, ev, t);
            && (OnItsWay(s, t) ==> OnItsWay(s', t))
            && s'.owner == s.owner && s'.mq == s.mq
  {
    assert ThreadOk(s, t);
    hide Inv;
    hide SignalPass;
  }

  lemma ThreadStepStrandsNobody(s: State, ev: Event, t: Tid)
    requires Inv(s) && NobodyStranded(s) && t in s.threads
    ensures NobodyStranded(ThreadStep(s, ev, t))
  {
    var s' := ThreadStep(s, ev, t);
    if ev.Unlock? || ev.CvUnlock? {
      if s.owner == Some(t) && s.mqHolder.None? {
        ReleaseWakes(s, t, s'.threads[t].pc);
      } else {
        assert ThreadOk(s, t);
      }
    } else if ev.Try? {
      assert s' != s ==> s'.owner.Some?;
    } else {
      OwnWay(s, ev, t);
      hide Inv;
      hide ThreadStep;
      StayOnTheirWay(s, s');
    }
  }

  lemma StepStrandsNobody(s: State, ev: Event)
    requires Inv(s) && NobodyStranded(s)
    ensures NobodyStranded(Step(s, ev))
  {
    hide Inv;
    hide ThreadStep;
    if ev.Spurious? {
      if s.cvHolder.None? {
        SignalPassIs(s, ev.count);
        hide SignalPass;
        StayOnTheirWay(s, Step(s, ev));
      }
    } else if ev.NativeLock? || ev.NativeUnlock? {
      StayOnTheirWay(s, Step(s, ev));
    } else if ev.t in s.threads {
      ThreadStepStrandsNobody(s, ev, ev.t);
    }
  }

  // ---------------------------------------------------------------- no signal is missed

  /** A setter's signal finds every reader that saw the old info: none waits
      afterwards, not even one that was only about to. */
  lemma SignalFindsAll(s: State, t: Tid, r: Tid)
    requires Inv(s) && t in s.threads && s.threads[t].pc.Signalling? && s.cvHolder.None?
    ensures !WaitsForInfo(Goto(SignalPass(s, |s.cvq|), t, Outside), r)
  {
    SignalPassIs(s, |s.cvq|);
    assert s.cvq[..|s.cvq|] == s.cvq;
    if r in s.threads {
      assert ThreadOk(s, r);
    }
  }

  lemma SignalStillComes(s: State, s': State)
    requires SignalComes(s) && (s'.info != 0 ==> s.info != 0)
    requires forall r | WaitsForInfo(s', r) :: WaitsForInfo(s, r)
    requires forall u | WillSignal(s, u) :: WillSignal(s', u)
    ensures SignalComes(s')
  {
  }

  predicate SignalsNow(s: State, ev: Event, t: Tid)
    requires t in s.threads
  {
    ev.Signal? && s.threads[t].pc.Signalling? && s.cvHolder.None?
  }

  /** What a step means for the microthread that takes it. */
  predicate OwnStep(s: State, s': State, t: Tid) {
    && (WillSignal(s, t) ==> WillSignal(s', t))
    && (s'.info == s.info || WillSignal(s', t))
    && (WaitsForInfo(s', t) && !WaitsForInfo(s, t) ==> s'.info == 0)
  }

  lemma OwnStepLocking(s: State, ev: Event, t: Tid)
    requires t in s.threads && ThreadOk(s, t) && (ev.Start? || ev.Try? || ev.Store? || ev.CvLock? || ev.CvEnqueue?)
    ensures OwnStep(s, ThreadStep(s, ev, t), t)
  {
    hide Release;
    hide SignalPass;
    hide LockPass;
    hide MarkSuspended;
    hide LeaveWorker;
    hide Park;
    hide DoWork;
  }

  lemma OwnStepSuspending(s: State, ev: Event, t: Tid)
    requires t in s.threads && ThreadOk(s, t) && (ev.Mark? || ev.Leave? || ev.Let? || ev.Work?)
    ensures OwnStep(s, ThreadStep(s, ev, t), t)
  {
    hide Release;
    hide SignalPass;
    hide TryLock;
    hide StoreInfo;
    hide TakeCvLock;
    hide EnqueueOnCv;
  }

  lemma OwnStepReleasing(s: State, ev: Event, t: Tid)
    requires t in s.threads && ThreadOk(s, t) && (ev.Unlock? || ev.CvUnlock? || ev.Signal?)
    requires !SignalsNow(s, ev, t)
    ensures OwnStep(s, ThreadStep(s, ev, t), t)
  {
    hide Release;
    hide SignalPass;
    hide TryLock;
    hide StoreInfo;
    hide TakeCvLock;
    hide EnqueueOnCv;
    hide MarkSuspended;
    hide LeaveWorker;
    hide Park;
    hide DoWork;
  }

  lemma ThreadStepMissesNoSignal(s: State, ev: Event, t: Tid)
    requires Inv(s) && SignalComes(s) && t in s.threads
    ensures SignalComes(ThreadStep(s, ev, t))
  {
    var s' := ThreadStep(s, ev, t);
    if SignalsNow(s, ev, t) {
      forall r
        ensures !WaitsForInfo(s', r)
      {
        SignalFindsAll(s, t, r);
      }
    } else {
      assert ThreadOk(s, t);
      hide Inv;
      hide ThreadOk;
      hide ThreadStep;
      if ev.Start? || ev.Try? || ev.Store? || ev.CvLock? || ev.CvEnqueue? {
        OwnStepLocking(s, ev, t);
      } else if ev.Mark? || ev.Leave? || ev.Let? || ev.Work? {
        OwnStepSuspending(s, ev, t);
      } else if ev.Unlock? || ev.CvUnlock? || ev.Signal? {
        OwnStepReleasing(s, ev, t);
      } else {
        assert s' == s;
      }
      if !WillSignal(s', t) && s'.info != 0 {
        SignalStillComes(s, s');
      }
    }
  }

  lemma StepMissesNoSignal(s: State, ev: Event)
    requires Inv(s) && SignalComes(s)
    ensures SignalComes(Step(s, ev))
  {
    hide Inv;
    hide ThreadStep;
    if ev.Spurious? {
      if s.cvHolder.None? {
        SignalPassIs(s, ev.count);
        hide SignalPass;
        SignalStillComes(s, Step(s, ev));
      }
    } else if ev.NativeLock? || ev.NativeUnlock? {
      SignalStillComes(s, Step(s, ev));
    } else if ev.t in s.threads {
      ThreadStepMissesNoSignal(s, ev, ev.t);
    }
  }

  // ---------------------------------------------------------------- every run

  /** Everybody outside, the mutex free, and the info as it was left. */
  predicate Initial(s: State) {
    && (forall t | t in s.threads :: s.threads[t] == Micro(Outside, true, false))
    && s == State(None, None, [], None, [], s.info, s.threads, {}, 0)
  }

  lemma {:induction false} EveryRun(s: State, evs: seq<Event>)
    requires Inv(s) && NobodyStranded(s) && SignalComes(s)
    ensures var s' := Run(s, evs);
            Inv(s') && NobodyStranded(s') && SignalComes(s')
    decreases |evs|
  {
    hide Inv;
    hide NobodyStranded;
    hide SignalComes;
    hide Step;
    if evs != [] {
      StepKeepsAll(s, evs[0]);
      EveryRun(Step(s, evs[0]), evs[1..]);
    }
  }

  lemma StepKeepsAll(s: State, ev: Event)
    requires Inv(s) && NobodyStranded(s) && SignalComes(s)
    ensures Inv(Step(s, ev)) && NobodyStranded(Step(s, ev)) && SignalComes(Step(s, ev))
  {
    hide *;
    StepKeepsInv(s, ev);
    StepStrandsNobody(s, ev);
    StepMissesNoSignal(s, ev);
  }

  /** In every interleaving: a free mutex with waiters has a woken one on its way, a
      reader that waits although the info is there has a signal coming, and no
      wake-up was ever dropped. */
  lemma NothingLost(s: State, evs: seq<Event>)
    requires Initial(s)
    ensures var s' := Run(s, evs);
            Inv(s') && NobodyStranded(s') && SignalComes(s') && s'.dropped == 0
  {
    EveryRun(s, evs);
  }

  /** Two microthreads never own the mutex together, and none does while a native
      thread has the queue lock. */
  lemma Exclusion(s: State, t: Tid, u: Tid)
    requires Inv(s) && t in s.threads && u in s.threads
    requires s.threads[t].pc.Holds? || s.threads[t].pc.CvHeld?
    ensures s.threads[u].pc.Holds? || s.threads[u].pc.CvHeld? ==> t == u
    ensures s.mqHolder.Some? ==> s.mqHolder.value.Microthread?
  {
    assert ThreadOk(s, t) && ThreadOk(s, u);
  }

  /** A microthread's one link is in at most one queue, and there once. */
  lemma OneQueue(s: State, t: Tid)
    requires Inv(s)
    ensures multiset(s.mq)[t] + multiset(s.cvq)[t] <= 1
  {
    DistinctOnce(s.mq, t);
    DistinctOnce(s.cvq, t);
    if t in s.threads {
      assert ThreadOk(s, t);
    }
  }

  lemma {:induction false} DistinctOnce(q: seq<Tid>, t: Tid)
    requires Distinct(q)
    ensures multiset(q)[t] == if t in q then 1 else 0
  {
    if q != [] {
      DistinctOnce(q[1..], t);
      assert q == [q[0]] + q[1..];
    }
  }

  /** Once the info is set and every setter has signalled, no reader is asleep. */
  lemma ReadersAreAwake(s: State, r: Tid)
    requires Inv(s) && SignalComes(s) && s.info != 0
    requires forall u :: !WillSignal(s, u)
    ensures !WaitsForInfo(s, r)
  {
  }

  /** The waiter on its way gets the mutex, if nobody barges in. */
  lemma WokenWaiterGetsIt(s: State, u: Tid)
    requires Inv(s) && OnItsWay(s, u) && s.owner.None? && s.mqHolder.None?
    ensures Run(s, [Work(u), Try(u)]).owner == Some(u)
  {
    assert ThreadOk(s, u);
    hide Inv;
    hide ThreadOk;
    var s1 := Step(s, Work(u));
    assert s1.threads[u].pc.Retry? && s1.owner.None? && s1.mqHolder.None?;
    assert [Work(u), Try(u)][1..] == [Try(u)] && [Try(u)][1..] == [];
    assert Run(s1, [Try(u)]) == Run(Step(s1, Try(u)), []);
  }

  // ---------------------------------------------------------------- the code

  /** Which critical section a step is. */
  lemma StepIs(s: State, t: Tid)
    requires t in s.threads
    ensures var pc := s.threads[t].pc;
            && (pc.Holds? && !pc.job.Setter? && !(pc.job.Reader? && s.info == 0) && s.mqHolder.None? ==>
                  Step(s, Unlock(t)) == Goto(Release(s), t, if pc.job.Stored? then Signalling else Outside))
            && (pc.CvOut? ==> Step(s, CvEnqueue(t)) == EnqueueOnCv(s, t))
            && (pc.Leaving? ==> Step(s, Leave(t)) == LeaveWorker(s, t))
            && (t in s.scheduled ==> Step(s, Work(t)) == DoWork(s, t))
            && (pc.Signalling? && s.cvHolder.None? ==> Step(s, Signal(t)) == Goto(SignalPass(s, |s.cvq|), t, Outside))
  {
    hide Release;
    hide SignalPass;
    hide EnqueueOnCv;
    hide LeaveWorker;
    hide DoWork;
  }

  /** The mutex, the condition variable and the microthreads as the code updates
      them, one critical section per method. */
  class MutexAndCondvar {
    var owner: Option<Tid>
    var mqHolder: Option<Holder>
    var mq: seq<Tid>
    var cvHolder: Option<Tid>
    var cvq: seq<Tid>
    var info: nat
    var threads: map<Tid, Micro>
    var scheduled: set<Tid>
    var dropped: nat

    /** Queues, locks and microthreads agree, no wake-up was dropped, nobody is
        stranded, and waiting readers have a signal coming. */
    ghost predicate Valid()
      reads this
    {
      Inv(Snapshot()) && NobodyStranded(Snapshot()) && SignalComes(Snapshot())
    }

    ghost function Snapshot(): State
      reads this
    {
      State(owner, mqHolder, mq, cvHolder, cvq, info, threads, scheduled, dropped)
    }

    constructor (tids: set<Tid>)
      ensures Valid() && Initial(Snapshot()) && threads.Keys == tids
    {
      owner, mqHolder, cvHolder, mq, cvq, info, scheduled, dropped := None, None, None, [], [], 0, {}, 0;
      threads := map t | t in tids :: Micro(Outside, true, false);
    }

    /** `Thread::resume`: takes effect on a suspended microthread. */
    method ResumeThread(u: Tid)
      modifies this`scheduled, this`dropped
      ensures Snapshot() == Resume(old(Snapshot()), u)
    {
      if u !in threads || !threads[u].suspended {
        dropped := dropped + 1;
        return;
      }
      scheduled := scheduled + {u};
    }

    /** `dtape_mutex_lock`, one turn of its loop: the microthread owns the mutex, or is
        the last in its queue, and holds the queue lock until it is parked. */
    method LockTurn(t: Tid)
      requires Valid() && t in threads && (threads[t].pc.Want? || threads[t].pc.Retry?) && mqHolder.None?
      modifies this
      ensures Valid() && Snapshot() == Step(old(Snapshot()), Try(t))
      ensures owner.Some?
      ensures owner != Some(t) ==> mq == old(mq) + [t] && mqHolder == Some(Microthread(t))
    {
      StepKeepsAll(Snapshot(), Try(t));
      hide Inv;
      hide NobodyStranded;
      hide SignalComes;
      var job := threads[t].pc.job;
      if owner == None || owner == Some(t) {
        owner := Some(t);
        threads := threads[t := threads[t].(pc := Holds(job))];
      } else {
        mq := mq + [t];
        mqHolder := Some(Microthread(t));
        threads := threads[t := threads[t].(pc := Marking(job, MutexQueue))];
      }
    }

    /** `dtape_mutex_unlock`. */
    method MutexUnlock()
      modifies this`owner, this`mq, this`scheduled, this`dropped
      ensures Snapshot() == Release(old(Snapshot()))
    {
      owner := None;
      if mq == [] {
        assert mq[..0] == [] && mq[0..] == mq;
        return;
      }
      var u := mq[0];
      assert mq[..1] == [u] && [u][1..] == [];
      mq := mq[1..];
      assert ResumeAll(Snapshot(), [u]) == ResumeAll(Resume(Snapshot(), u), []);
      ResumeThread(u);
    }

    /** The mutex is unlocked by its owner: the oldest waiter is on its way, and its
        wake-up was not dropped. */
    method UnlockByOwner(t: Tid)
      requires Valid() && t in threads && threads[t].pc.Holds? && mqHolder.None?
      requires !threads[t].pc.job.Setter? && !(threads[t].pc.job.Reader? && info == 0)
      modifies this
      ensures Valid() && Snapshot() == Step(old(Snapshot()), Unlock(t))
      ensures owner.None? && dropped == 0
      ensures old(mq) != [] ==> mq == old(mq)[1..] && OnItsWay(Snapshot(), old(mq)[0])
    {
      ghost var pc := if threads[t].pc.job.Stored? then Signalling else Outside;
      StepIs(Snapshot(), t);
      StepKeepsAll(Snapshot(), Unlock(t));
      assert owner == Some(t) by { assert ThreadOk(Snapshot(), t); }
      UnlockWakesOldest(Snapshot(), t, pc);
      hide Inv;
      hide NobodyStranded;
      hide SignalComes;
      hide OnItsWay;
      hide Step;
      hide Release;
      MutexUnlock();
      threads := threads[t := threads[t].(pc := if threads[t].pc.job.Stored? then Signalling else Outside)];
    }

    /** `dtape_condvar_wait`, after it has unlocked the mutex: the waiter is last in the
        queue, and nobody can signal before it is parked. */
    method CondvarEnqueue(t: Tid)
      requires Valid() && t in threads && threads[t].pc == CvOut
      modifies this
      ensures Valid() && Snapshot() == Step(old(Snapshot()), CvEnqueue(t))
      ensures cvq == old(cvq) + [t] && cvHolder == Some(t)
    {
      StepIs(Snapshot(), t);
      StepKeepsAll(Snapshot(), CvEnqueue(t));
      assert cvHolder == Some(t) by { assert ThreadOk(Snapshot(), t); }
      hide Inv;
      hide NobodyStranded;
      hide SignalComes;
      hide Step;
      cvq := cvq + [t];
      threads := threads[t := threads[t].(pc := Marking(Reader, CondQueue))];
    }

    /** `suspend`, its first half: still queued, still with the queue lock. */
    method BeginSuspend(t: Tid)
      requires Valid() && t in threads && threads[t].pc.Marking?
      modifies this
      ensures Valid() && Snapshot() == Step(old(Snapshot()), Mark(t))
      ensures threads[t].suspended && Queued(Snapshot(), t, old(threads[t].pc.q))
    {
      StepKeepsAll(Snapshot(), Mark(t));
      hide Inv;
      hide NobodyStranded;
      hide SignalComes;
      var m := threads[t];
      threads := threads[t := m.(pc := Leaving(m.pc.job, m.pc.q), suspended := true)];
    }

    /** Its second half: back to the top of the microthread.  It has not been resumed
        meanwhile. */
    method EndSuspend(t: Tid)
      requires Valid() && t in threads && threads[t].pc.Leaving?
      modifies this
      ensures Valid() && Snapshot() == Step(old(Snapshot()), Leave(t))
      ensures threads[t].suspended && !threads[t].running && Queued(Snapshot(), t, old(threads[t].pc.q))
    {
      StepIs(Snapshot(), t);
      StepKeepsAll(Snapshot(), Leave(t));
      assert threads[t].suspended by { assert ThreadOk(Snapshot(), t); }
      hide Inv;
      hide NobodyStranded;
      hide SignalComes;
      hide Step;
      LeaveOrReturn(t);
    }

    /** The same with both branches of the code. */
    method LeaveOrReturn(t: Tid)
      requires t in threads && threads[t].pc.Leaving?
      modifies this`threads
      ensures Snapshot() == LeaveWorker(old(Snapshot()), t)
    {
      var m := threads[t];
      if m.suspended {
        threads := threads[t := m.(pc := Letting(m.pc.job, m.pc.q), running := false)];
      } else {
        threads := threads[t := m.(pc := Want(m.pc.job))];
      }
    }

    /** The end of `doWork`: the worker drops the queue lock, and leaves behind a queued
        microthread that any wake-up will find suspended and not running. */
    method DropQueueLock(t: Tid)
      requires Valid() && t in threads && threads[t].pc.Letting?
      modifies this
      ensures Valid() && Snapshot() == Step(old(Snapshot()), Let(t))
      ensures threads[t].suspended && !threads[t].running && Queued(Snapshot(), t, old(threads[t].pc.q))
      ensures if old(threads[t].pc.q).MutexQueue? then mqHolder.None? else cvHolder.None?
    {
      StepKeepsAll(Snapshot(), Let(t));
      assert ThreadOk(Snapshot(), t);
      hide Inv;
      hide NobodyStranded;
      hide SignalComes;
      var m := threads[t];
      if m.pc.q.MutexQueue? {
        mqHolder := None;
      } else {
        cvHolder := None;
      }
      threads := threads[t := m.(pc := Parked(m.pc.job, m.pc.q))];
    }

    /** The beginning of `doWork` for a scheduled microthread: it runs again, at the
        lock, and the request is not dropped. */
    method RunScheduled(t: Tid)
      requires Valid() && t in threads && t in scheduled
      modifies this
      ensures Valid() && Snapshot() == Step(old(Snapshot()), Work(t))
      ensures dropped == 0 && threads[t].running && (threads[t].pc.Want? || threads[t].pc.Retry?)
    {
      StepIs(Snapshot(), t);
      StepKeepsAll(Snapshot(), Work(t));
      assert dropped == 0 && !threads[t].running && threads[t].suspended && threads[t].pc.Parked? by {
        assert ThreadOk(Snapshot(), t);
      }
      hide Inv;
      hide NobodyStranded;
      hide SignalComes;
      hide Step;
      RunOrDrop(t);
    }

    /** The same with all branches of the code. */
    method RunOrDrop(t: Tid)
      requires t in threads && t in scheduled
      modifies this
      ensures Snapshot() == DoWork(old(Snapshot()), t)
    {
      scheduled := scheduled - {t};
      var m := threads[t];
      if m.running || !m.suspended || !m.pc.Parked? {
        dropped := dropped + 1;
        return;
      }
      var next := if m.pc.q.MutexQueue? then Retry(m.pc.job) else Want(m.pc.job);
      threads := threads[t := Micro(next, true, false)];
    }

    /** A setter signals: no reader waits afterwards, and no wake-up was dropped. */
    method SignalReaders(t: Tid)
      requires Valid() && t in threads && threads[t].pc == Signalling && cvHolder.None?
      modifies this
      ensures Valid() && Snapshot() == Step(old(Snapshot()), Signal(t))
      ensures dropped == 0 && forall r :: !WaitsForInfo(Snapshot(), r)
    {
      ghost var s := Snapshot();
      StepIs(s, t);
      StepKeepsAll(s, Signal(t));
      assert Step(s, Signal(t)).dropped == 0;
      forall r
        ensures !WaitsForInfo(Goto(SignalPass(s, |s.cvq|), t, Outside), r)
      {
        SignalFindsAll(s, t, r);
      }
      hide Inv;
      hide NobodyStranded;
      hide SignalComes;
      hide WaitsForInfo;
      hide Step;
      CondvarSignal(|cvq|);
      hide SignalPass;
      threads := threads[t := threads[t].(pc := Outside)];
    }

    /** `dtape_condvar_signal`. */
    method CondvarSignal(count: nat)
      modifies this`cvq, this`scheduled, this`dropped
      ensures Snapshot() == SignalPass(old(Snapshot()), count)
    {
      var left := count;
      ghost var n := Popped(cvq, count);
      ghost var goal := SignalPass(Snapshot(), count);
      while left > 0
        invariant n == Popped(cvq, left)
        invariant goal == ResumeAll(Snapshot().(cvq := cvq[n..]), cvq[..n])
        decreases left
      {
        if cvq == [] {
          break;
        }
        var u := cvq[0];
        assert cvq[..n][0] == u && cvq[..n][1..] == cvq[1..][..n - 1] && cvq[1..][n - 1..] == cvq[n..];
        cvq := cvq[1..];
        ResumeThread(u);
        left, n := left - 1, n - 1;
      }
      assert n == 0 && cvq[..0] == [] && cvq[0..] == cvq;
    }
  }
}
