/**
 Every job is run: whatever order the runners and the semaphore take their steps in,
 and without a further push or interruption, all jobs have been started in the end.
 */
module KernelAsyncProgress {
  import opened Counting
  import opened KernelAsync

  /** The jobs that a run pushes. */
  function JobsOf(evs: seq<Event>): seq<Job> {
    if evs == [] then [] else (if evs[0].Push? then [evs[0].job] else []) + JobsOf(evs[1..])
  }

  lemma {:induction false} PushedIn(p: Pool, evs: seq<Event>)
    ensures Run(p, evs).pushed == p.pushed + JobsOf(evs)
    decreases |evs|
  {
    if evs == [] {
      assert p.pushed + [] == p.pushed;
    } else {
      PushedIn(Step(p, evs[0]), evs[1..]);
      OneMore(p, evs[0]);
      hide Step;
      var job := if evs[0].Push? then [evs[0].job] else [];
      assert p.pushed + (job + JobsOf(evs[1..])) == p.pushed + job + JobsOf(evs[1..]);
    }
  }

  lemma OneMore(p: Pool, ev: Event)
    ensures Step(p, ev).pushed == p.pushed + if ev.Push? then [ev.job] else []
  {
  }

  /** A step of the runners or the semaphore. */
  predicate Internal(ev: Event) {
    !ev.Push? && !ev.Interrupt?
  }

  function PhaseWeight(r: Runner): nat {
    match r.phase
    case Starting => 2
    case Arriving => 1
    case Blocked => 0
    case Granted => 1
    case Interrupted => 3
    case Working => 3
    case Dead => 0
  }

  /** How much is still to be done. */
  function Rank(p: Pool): nat {
    3 * |p.queue| + p.sem + 2 * p.unsignalled + Sum(p.runners, PhaseWeight)
  }

  /** A possible step lowers the rank. */
  lemma StepIsProgress(p: Pool, ev: Event)
    requires Inv(p) && Possible(p, ev) && Internal(ev)
    ensures Rank(Step(p, ev)) < Rank(p)
  {
    hide Sum;
    hide Count;
    if ev.i < |p.runners| {
      if ev.Take? {
        GrantedHasWork(p, ev.i);
      }
      hide Inv;
      var p' := Step(p, ev);
      SumUpdate(p.runners, ev.i, p'.runners[ev.i], PhaseWeight);
      assert p'.runners == p.runners[ev.i := p'.runners[ev.i]];
    }
  }

  /** Nothing is left to do. */
  ghost predicate Settled(p: Pool) {
    forall ev | Internal(ev) :: !Possible(p, ev)
  }

  lemma SettledRunner(p: Pool, j: nat)
    requires Settled(p) && j < |p.runners|
    ensures p.runners[j].phase.Blocked? || p.runners[j].phase.Dead?
  {
    assert Internal(Arrive(j)) && Internal(Down(j)) && Internal(Take(j)) && Internal(GiveUp(j)) && Internal(Done(j));
    assert !Possible(p, Arrive(j)) && !Possible(p, Down(j)) && !Possible(p, Take(j));
    assert !Possible(p, GiveUp(j)) && !Possible(p, Done(j));
  }

  lemma NothingOwed(p: Pool)
    requires Settled(p)
    ensures p.unsignalled == 0
  {
    if !NobodyBlocked(p) {
      var j :| 0 <= j < |p.runners| && p.runners[j].phase.Blocked?;
      assert Internal(Up(j)) && !Possible(p, Up(j));
    } else {
      assert Internal(Up(|p.runners|)) && !Possible(p, Up(|p.runners|));
    }
  }

  /** Then every job has been started. */
  lemma SettledMeansAllStarted(p: Pool)
    requires Inv(p) && Settled(p)
    ensures p.queue == [] && p.started == p.pushed
  {
    NothingOwed(p);
    if Count(p.runners, IsGranted) > 0 {
      var j := FindCounted(p.runners, IsGranted);
      SettledRunner(p, j);
    } else if p.sem > 0 {
      var j := FindCounted(p.runners, IsPermanent);
      SettledRunner(p, j);
    }
    assert p.started + [] == p.started;
  }

  /** How many steps of a run are taken. */
  ghost function Effective(p: Pool, evs: seq<Event>): nat
    decreases |evs|
  {
    if evs == [] then 0 else One(Possible(p, evs[0])) + Effective(Step(p, evs[0]), evs[1..])
  }

  lemma {:induction false} WorkEnds(p: Pool, evs: seq<Event>)
    requires Inv(p) && forall ev | ev in evs :: Internal(ev)
    ensures Inv(Run(p, evs)) && Effective(p, evs) + Rank(Run(p, evs)) <= Rank(p)
    decreases |evs|
  {
    hide Inv;
    hide Rank;
    hide Internal;
    if evs != [] {
      assert evs[0] in evs;
      if Possible(p, evs[0]) {
        StepIsProgress(p, evs[0]);
        StepKeepsInv(p, evs[0]);
      }
      WorkEnds(Step(p, evs[0]), evs[1..]);
    }
  }

  /** From any reachable state, in any order of the internal steps: there are only so
      many of them, and when none is left every job pushed has been started, in the
      order of the pushes. */
  lemma EveryJobIsRun(before: seq<Event>, evs: seq<Event>)
    requires forall ev | ev in evs :: Internal(ev)
    ensures var p := Run(Fresh, before);
            var p' := Run(p, evs);
            && Effective(p, evs) + Rank(p') <= Rank(p)
            && (Settled(p') ==> p'.started == JobsOf(before))
  {
    RunKeepsInv(Fresh, before);
    var p := Run(Fresh, before);
    WorkEnds(p, evs);
    PushedIn(Fresh, before);
    PushedIn(p, evs);
    NoJobs(evs);
    assert p.pushed + [] == p.pushed && [] + JobsOf(before) == JobsOf(before);
    if Settled(Run(p, evs)) {
      SettledMeansAllStarted(Run(p, evs));
    }
  }

  lemma {:induction false} NoJobs(evs: seq<Event>)
    requires forall ev | ev in evs :: Internal(ev)
    ensures JobsOf(evs) == []
  {
    if evs != [] {
      assert evs[0] in evs;
      NoJobs(evs[1..]);
    }
  }
}
