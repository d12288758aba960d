/**
 The pool of kernel microthreads that run queued functions: a queue under a lock, a
 counting semaphore, and the number of runners that are available.
 */
module KernelAsync {
  import opened Counting
  import opened Options

  type Job = nat

  /** A runner's place in its loop: before it counts itself as available, before and
      in the semaphore, past it with a unit or without one (interrupted), at work,
      or terminated. */
  datatype Phase = Starting | Arriving | Blocked | Granted | Interrupted | Working | Dead

  datatype Runner = Runner(phase: Phase, permanent: bool)

  const MAX_PERMANENT_KERNEL_RUNNERS := 10

  /** `unsignalled` are the pushes that have not come to the semaphore yet; `idle`
      counts the times a runner found no work. */
  datatype Pool = Pool(queue: seq<Job>, sem: nat, available: int, runners: seq<Runner>, permanents: nat,
                       unsignalled: nat, pushed: seq<Job>, started: seq<Job>, idle: nat)

  const Fresh := Pool([], 0, 0, [], 0, 0, [], [], 0)

  datatype Event =
    | Push(job: Job)
    | Up(i: nat)          // a push signals; `i` is the blocked runner that gets the unit, if any
    | Arrive(i: nat)
    | Down(i: nat)
    | Interrupt(i: nat)
    | Take(i: nat)
    | GiveUp(i: nat)
    | Done(i: nat)

  function At(p: Pool, i: nat, phase: Phase): Pool
    requires i < |p.runners|
  {
    p.(runners := p.runners[i := p.runners[i].(phase := phase)])
  }

  /** `kernelAsync`, under the lock. */
  function Pushed(p: Pool, job: Job): Pool {
    var p1 := p.(queue := p.queue + [job], pushed := p.pushed + [job], unsignalled := p.unsignalled + 1);
    if p.available == 0 then
      var permanent := p.permanents < MAX_PERMANENT_KERNEL_RUNNERS;
      p1.(runners := p.runners + [Runner(Starting, permanent)], permanents := p.permanents + if permanent then 1 else 0)
    else p1
  }

  /** The semaphore hands a unit to a blocked runner, or keeps it. */
  function Signalled(p: Pool, i: nat): Pool
    requires p.unsignalled > 0
  {
    var p1 := p.(unsignalled := p.unsignalled - 1);
    if i < |p.runners| && p.runners[i].phase.Blocked? then At(p1, i, Granted) else p1.(sem := p.sem + 1)
  }

  /** Back at the loop condition. */
  function Again(p: Pool, i: nat): Pool
    requires i < |p.runners|
  {
    At(p, i, if p.runners[i].permanent then Starting else Dead)
  }

  /** A runner that got a unit looks into the queue. */
  function Taken(p: Pool, i: nat): Pool
    requires i < |p.runners|
  {
    var p1 := p.(available := p.available - 1);
    if p.queue == [] then Again(p1.(idle := p.idle + 1), i)
    else At(p1.(queue := p.queue[1..], started := p.started + [p.queue[0]]), i, Working)
  }

  ghost predicate NobodyBlocked(p: Pool) {
    forall j | 0 <= j < |p.runners| :: !p.runners[j].phase.Blocked?
  }

  ghost predicate Possible(p: Pool, ev: Event) {
    match ev
    case Push(_) => true
    case Up(i) => p.unsignalled > 0 && (if i < |p.runners| then p.runners[i].phase.Blocked? else NobodyBlocked(p))
    case Arrive(i) => i < |p.runners| && p.runners[i].phase.Starting?
    case Down(i) => i < |p.runners| && p.runners[i].phase.Arriving?
    case Interrupt(i) => i < |p.runners| && p.runners[i].phase.Blocked?
    case Take(i) => i < |p.runners| && p.runners[i].phase.Granted?
    case GiveUp(i) => i < |p.runners| && p.runners[i].phase.Interrupted?
    case Done(i) => i < |p.runners| && p.runners[i].phase.Working?
  }

  ghost function Step(p: Pool, ev: Event): Pool {
    if !Possible(p, ev) then p
    else
      match ev
      case Push(job) => Pushed(p, job)
      case Up(i) => Signalled(p, i)
      case Arrive(i) => At(p.(available := p.available + 1), i, Arriving)
      case Down(i) => if p.sem > 0 then At(p.(sem := p.sem - 1), i, Granted) else At(p, i, Blocked)
      case Interrupt(i) => At(p, i, Interrupted)
      case Take(i) => Taken(p, i)
      case GiveUp(i) => Again(p.(available := p.available - 1), i)
      case Done(i) => Again(p, i)
  }

  ghost function Run(p: Pool, evs: seq<Event>): Pool
    decreases |evs|
  {
    if evs == [] then p else Run(Step(p, evs[0]), evs[1..])
  }

  // ---------------------------------------------------------------- what holds in every state

  predicate IsGranted(r: Runner) { r.phase.Granted? }
  predicate IsAvailable(r: Runner) { r.phase.Arriving? || r.phase.Blocked? || r.phase.Granted? || r.phase.Interrupted? }
  predicate IsPermanent(r: Runner) { r.permanent && !r.phase.Dead? }

  ghost predicate Inv(p: Pool) {
    && |p.queue| == p.sem + Count(p.runners, IsGranted) + p.unsignalled
    && p.available == Count(p.runners, IsAvailable)
    && p.permanents == Count(p.runners, IsPermanent) <= MAX_PERMANENT_KERNEL_RUNNERS
    && (p.sem > 0 ==> NobodyBlocked(p))
    && p.pushed == p.started + p.queue
    && (if p.pushed == [] then p.runners == [] else p.permanents > 0)
    && (forall j | 0 <= j < |p.runners| :: p.runners[j].permanent ==> !p.runners[j].phase.Dead?)
    && p.idle == 0
  }

  /** Moving one runner changes each number by what that runner counts for. */
  lemma MoveCounts(rs: seq<Runner>, i: nat, r: Runner)
    requires i < |rs|
    ensures forall q: Runner -> bool ::
              Count(rs[i := r], q) + (if q(rs[i]) then 1 else 0) == Count(rs, q) + (if q(r) then 1 else 0)
  {
    forall q: Runner -> bool
      ensures Count(rs[i := r], q) + (if q(rs[i]) then 1 else 0) == Count(rs, q) + (if q(r) then 1 else 0)
    {
      CountUpdate(rs, i, r, q);
    }
  }

  lemma SpawnCounts(rs: seq<Runner>, r: Runner)
    ensures forall q: Runner -> bool :: Count(rs + [r], q) == Count(rs, q) + (if q(r) then 1 else 0)
  {
    forall q: Runner -> bool
      ensures Count(rs + [r], q) == Count(rs, q) + (if q(r) then 1 else 0)
    {
      CountSnoc(rs, r, q);
    }
  }

  lemma PushKeepsInv(p: Pool, job: Job)
    requires Inv(p)
    ensures Inv(Pushed(p, job))
  {
    assert p.runners == [] ==> Count(p.runners, IsAvailable) == 0;
    hide Count;
    assert p.started + (p.queue + [job]) == p.started + p.queue + [job];
    SpawnCounts(p.runners, Runner(Starting, true));
    SpawnCounts(p.runners, Runner(Starting, false));
  }

  lemma StepKeepsInv(p: Pool, ev: Event)
    requires Inv(p) && Possible(p, ev)
    ensures Inv(Step(p, ev))
  {
    hide Count;
    var p' := Step(p, ev);
    if ev.Push? {
      PushKeepsInv(p, ev.job);
    } else if ev.Take? {
      TakeKeepsInv(p, ev.i);
    } else if ev.i < |p.runners| {
      MoveCounts(p.runners, ev.i, p'.runners[ev.i]);
      assert p'.runners == p.runners[ev.i := p'.runners[ev.i]];
    }
  }

  lemma TakeKeepsInv(p: Pool, i: nat)
    requires Inv(p) && i < |p.runners| && p.runners[i].phase.Granted?
    ensures p.queue != [] && Inv(Taken(p, i))
  {
    GrantedHasWork(p, i);
    hide Count;
    var p' := Taken(p, i);
    MoveCounts(p.runners, i, p'.runners[i]);
    assert p.started + p.queue == p.started + [p.queue[0]] + p.queue[1..];
  }

  /** A runner that got past the semaphore finds a job. */
  lemma GrantedHasWork(p: Pool, i: nat)
    requires Inv(p) && i < |p.runners| && p.runners[i].phase.Granted?
    ensures p.queue != []
  {
    CountIn(p.runners, i, IsGranted);
  }

  /** `idle` counts exactly the looks that find no job; the availability is given up
      either way. */
  lemma IdleCountsEmptyLooks(p: Pool, i: nat)
    requires i < |p.runners|
    ensures var p' := Taken(p, i);
            && p'.available == p.available - 1
            && p'.idle == p.idle + One(p.queue == []) && p'.started + p'.queue == p.started + p.queue
            && (p.queue == [] ==> p'.runners[i].phase == if p.runners[i].permanent then Starting else Dead)
  {
    if p.queue != [] {
      assert p.started + p.queue == p.started + [p.queue[0]] + p.queue[1..];
    }
  }

  lemma {:induction false} RunKeepsInv(p: Pool, evs: seq<Event>)
    requires Inv(p)
    ensures Inv(Run(p, evs))
    decreases |evs|
  {
    hide Inv;
    if evs != [] {
      if Possible(p, evs[0]) {
        StepKeepsInv(p, evs[0]);
      }
      RunKeepsInv(Step(p, evs[0]), evs[1..]);
    }
  }

  /** In every run: the jobs started so far and those queued are the jobs pushed, in
      order; no runner ever finds the queue empty; the number of available runners is
      never negative; and a runner blocks only when every queued job has already
      been given to another or is still to be signalled. */
  lemma EveryJobOnce(evs: seq<Event>)
    ensures var p := Run(Fresh, evs);
            && p.pushed == p.started + p.queue && p.idle == 0 && p.available >= 0
            && (!NobodyBlocked(p) ==> |p.queue| == Count(p.runners, IsGranted) + p.unsignalled)
            && (p.pushed != [] ==> exists j :: 0 <= j < |p.runners| && IsPermanent(p.runners[j]))
  {
    RunKeepsInv(Fresh, evs);
    var p := Run(Fresh, evs);
    if p.pushed != [] {
      var j := FindCounted(p.runners, IsPermanent);
    }
  }

  // ---------------------------------------------------------------- the code

  /** The queue, the counters and the semaphore as the code updates them, one
      critical section per method. */
  class RunnerPool {
    var queue: seq<Job>
    var semaphore: nat
    var runnersAvailable: int
    var runners: seq<Runner>
    var permanents: nat
    var unsignalled: nat
    ghost var pushed: seq<Job>
    ghost var started: seq<Job>
    ghost var idle: nat

    /** No job is missing, and every queued one is paid for: by a unit of the
        semaphore, by a runner that has got one, or by a push still to signal. */
    ghost predicate Valid()
      reads this
    {
      Inv(Snapshot())
    }

    ghost function Snapshot(): Pool
      reads this
    {
      Pool(queue, semaphore, runnersAvailable, runners, permanents, unsignalled, pushed, started, idle)
    }

    constructor ()
      ensures Valid() && Snapshot() == Fresh
    {
      queue, semaphore, runnersAvailable, runners, permanents, unsignalled := [], 0, 0, [], 0, 0;
      pushed, started, idle := [], [], 0;
    }

    /** `kernelAsync`, under the lock: from then on there is a permanent runner, and
        somebody is available or has just been started. */
    method PushJob(job: Job)
      requires Valid()
      modifies this
      ensures Valid() && Snapshot() == Step(old(Snapshot()), Push(job))
      ensures pushed == old(pushed) + [job] && permanents > 0
      ensures runnersAvailable > 0 || runners[|runners| - 1].phase == Starting
    {
      StepKeepsInv(Snapshot(), Push(job));
      AvailableIsCounted(Snapshot());
      assert permanents == 0 ==> runnersAvailable == 0;
      hide Inv;
      queue := queue + [job];
      if runnersAvailable == 0 {
        var permanent := permanents < MAX_PERMANENT_KERNEL_RUNNERS;
        runners := runners + [Runner(Starting, permanent)];
        if permanent {
          permanents := permanents + 1;
        }
      }
      pushed, unsignalled := pushed + [job], unsignalled + 1;
    }

    /** A runner is going to wait for work. */
    method BecomeAvailable(i: nat)
      requires Valid() && i < |runners| && runners[i].phase == Starting
      modifies this
      ensures Valid() && Snapshot() == Step(old(Snapshot()), Arrive(i))
      ensures runnersAvailable > 0
    {
      AvailableIsCounted(Snapshot());
      StepKeepsInv(Snapshot(), Arrive(i));
      hide Inv;
      runnersAvailable := runnersAvailable + 1;
      runners := runners[i := runners[i].(phase := Arriving)];
    }

    /** The wait of a runner was interrupted: the count does not underflow, no job is
        lost, and a permanent runner goes again. */
    method StopWaiting(i: nat)
      requires Valid() && i < |runners| && runners[i].phase == Interrupted
      modifies this
      ensures Valid() && Snapshot() == Step(old(Snapshot()), GiveUp(i))
      ensures runnersAvailable >= 0 && queue == old(queue)
      ensures runners[i].permanent ==> runners[i].phase == Starting
    {
      StepKeepsInv(Snapshot(), GiveUp(i));
      AvailableIsCounted(Step(Snapshot(), GiveUp(i)));
      hide Inv;
      runnersAvailable := runnersAvailable - 1;
      runners := runners[i := runners[i].(phase := if runners[i].permanent then Starting else Dead)];
    }

    /** What a runner does once the semaphore lets it through: it never finds the queue
        empty. */
    method TakeJob(i: nat) returns (job: Option<Job>)
      requires Valid() && i < |runners| && runners[i].phase == Granted
      modifies this
      ensures Valid() && Snapshot() == Step(old(Snapshot()), Take(i))
      ensures job.Some? && started == old(started) + [job.value] && old(queue) == [job.value] + queue
    {
      TakeKeepsInv(Snapshot(), i);
      job := TakeOrGiveUp(i);
    }

    /** The same with both branches of the code. */
    method TakeOrGiveUp(i: nat) returns (job: Option<Job>)
      requires i < |runners|
      modifies this
      ensures Snapshot() == Taken(old(Snapshot()), i)
      ensures if job.Some? then old(queue) == [job.value] + queue else old(queue) == []
    {
      runnersAvailable := runnersAvailable - 1;
      if queue == [] {
        idle := idle + 1;
        runners := runners[i := runners[i].(phase := if runners[i].permanent then Starting else Dead)];
        return None;
      }
      job := Some(queue[0]);
      started := started + [queue[0]];
      queue := queue[1..];
      runners := runners[i := runners[i].(phase := Working)];
    }
  }

  lemma AvailableIsCounted(p: Pool)
    requires Inv(p)
    ensures p.available >= 0
  {
  }
}
