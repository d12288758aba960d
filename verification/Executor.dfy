/**
 Who may execute a microthread: the workers that take it from the pool's queue, and
 threads that impersonate it.  An impersonator first defers the microthread, so
 that run requests are remembered instead of served, then waits until nobody runs
 it.
 */
module Executor {

  datatype Deferral = NotDeferred | DeferredNotPending | DeferredPending

  datatype Actor = Worker(w: nat) | Impersonator(i: nat)

  /** `requests` are the run requests in the pool's queue.  The counters tell what
      became of the requests: `issued` from outside and `reissued` by an undefer,
      then `started`, `absorbed` by a deferral or `dropped`. */
  datatype Exec = Exec(running: bool, deferral: Deferral, requests: nat,
                       executing: set<Actor>, waiting: set<nat>,
                       issued: nat, reissued: nat, started: nat, absorbed: nat, dropped: nat)

  const Fresh := Exec(false, NotDeferred, 0, {}, {}, 0, 0, 0, 0, 0)

  datatype Event =
    | Request
    | TakeRequest(w: nat)   // a worker enters doWork
    | Finish(w: nat)        // and is back at the top
    | Defer(i: nat)         // impersonate(thread): _deferLocked
    | Seize(i: nat)         // its wait for !_running is over
    | Undefer(i: nat)       // impersonate(nullptr)

  /** The entry of `doWork`. */
  function EnterWork(s: Exec, w: nat): Exec
    requires s.requests > 0
  {
    var s1 := s.(requests := s.requests - 1);
    if !s.deferral.NotDeferred? then s1.(deferral := DeferredPending, absorbed := s.absorbed + 1)
    else if s.running then s1.(dropped := s.dropped + 1)
    else s1.(running := true, executing := s.executing + {Worker(w)}, started := s.started + 1)
  }

  /** `_undeferLocked`, after giving up `_running`. */
  function EndImpersonation(s: Exec, i: nat): Exec {
    var s1 := s.(running := false, executing := s.executing - {Impersonator(i)}, deferral := NotDeferred);
    if s.deferral.DeferredPending? then s1.(requests := s.requests + 1, reissued := s.reissued + 1) else s1
  }

  function Step(s: Exec, ev: Event): Exec {
    match ev
    case Request => s.(requests := s.requests + 1, issued := s.issued + 1)
    case TakeRequest(w) => if s.requests > 0 && Worker(w) !in s.executing then EnterWork(s, w) else s
    case Finish(w) =>
      if Worker(w) in s.executing then s.(running := false, executing := s.executing - {Worker(w)}) else s
    case Defer(i) =>
      if i in s.waiting || Impersonator(i) in s.executing then s
      else s.(waiting := s.waiting + {i},
              deferral := if s.deferral.NotDeferred? then DeferredNotPending else s.deferral)
    case Seize(i) =>
      if i in s.waiting && !s.running then
        s.(waiting := s.waiting - {i}, running := true, executing := s.executing + {Impersonator(i)})
      else s
    case Undefer(i) => if Impersonator(i) in s.executing then EndImpersonation(s, i) else s
  }

  function Run(s: Exec, evs: seq<Event>): Exec
    decreases |evs|
  {
    if evs == [] then s else Run(Step(s, evs[0]), evs[1..])
  }

  // ---------------------------------------------------------------- a single executor

  /** `_running` says exactly whether somebody executes the microthread, and that
      is one actor at most. */
  predicate SingleExecutor(s: Exec) {
    && (s.running <==> s.executing != {})
    && forall a, b | a in s.executing && b in s.executing :: a == b
  }

  predicate Balanced(s: Exec) {
    s.issued + s.reissued == s.requests + s.started + s.absorbed + s.dropped
  }

  lemma StepKeepsSingle(s: Exec, ev: Event)
    requires SingleExecutor(s)
    ensures SingleExecutor(Step(s, ev))
  {
  }

  lemma StepBalances(s: Exec, ev: Event)
    requires Balanced(s)
    ensures Balanced(Step(s, ev))
  {
  }

  /** In every interleaving, of any number of workers and impersonators, at most one
      of them executes the microthread; and every request is accounted for. */
  lemma {:induction false} AlwaysSingle(s: Exec, evs: seq<Event>)
    requires SingleExecutor(s) && Balanced(s)
    ensures SingleExecutor(Run(s, evs)) && Balanced(Run(s, evs))
    decreases |evs|
  {
    if evs != [] {
      StepKeepsSingle(s, evs[0]);
      StepBalances(s, evs[0]);
      AlwaysSingle(Step(s, evs[0]), evs[1..]);
    }
  }

  /** What becomes of a run request that a worker takes: while the microthread is
      deferred it is remembered; with nobody executing, the worker does; and it is
      dropped only if somebody else executes. */
  lemma RequestIsServed(s: Exec, w: nat)
    requires SingleExecutor(s) && s.requests > 0 && Worker(w) !in s.executing
    ensures var s' := Step(s, TakeRequest(w));
            && s'.requests == s.requests - 1 && s'.waiting == s.waiting
            && (if s.deferral != NotDeferred then s' == s.(requests := s'.requests, deferral := DeferredPending,
                                                           absorbed := s.absorbed + 1)
                else s'.deferral == NotDeferred &&
                     if s.executing == {} then s'.executing == {Worker(w)} && s'.started == s.started + 1
                     else s'.executing == s.executing && s'.dropped == s.dropped + 1)
  {
  }

  /** An impersonator whose turn it is gets the microthread, and gives it back. */
  lemma ImpersonatorIsServed(s: Exec, i: nat)
    requires SingleExecutor(s) && Apart(s)
    ensures i in s.waiting && s.executing == {} ==>
              var s' := Step(s, Seize(i));
              s'.executing == {Impersonator(i)} && s'.waiting == s.waiting - {i} && s'.deferral == s.deferral
    ensures Impersonator(i) in s.executing ==>
              var s' := Step(s, Undefer(i));
              s'.executing == {} && s'.waiting == s.waiting
    ensures i !in s.waiting && Impersonator(i) !in s.executing ==>
              var s' := Step(s, Defer(i));
              s'.executing == s.executing && s'.waiting == s.waiting + {i} && s'.deferral != NotDeferred
  {
  }

  /** A step of somebody who has begun. */
  predicate Internal(ev: Event) {
    ev.TakeRequest? || ev.Finish? || ev.Seize? || ev.Undefer?
  }

  /** Nobody is stuck: when no worker and no impersonator can take a step any more, nobody
      executes or waits for the microthread, and no run request is left. */
  lemma SettledMeansIdle(s: Exec)
    requires SingleExecutor(s)
    ensures (forall ev | Internal(ev) :: Step(s, ev) == s) ==>
              s.executing == {} && s.waiting == {} && s.requests == 0
  {
    if s.executing != {} {
      var a :| a in s.executing;
      var ev := if a.Worker? then Finish(a.w) else Undefer(a.i);
      assert Internal(ev) && a !in Step(s, ev).executing;
    } else if s.waiting != {} {
      var i :| i in s.waiting;
      assert Internal(Seize(i)) && Step(s, Seize(i)).running;
    } else if s.requests > 0 {
      assert Internal(TakeRequest(0)) && Step(s, TakeRequest(0)).requests == s.requests - 1;
    }
  }

  /** Nobody waits for the microthread and executes it at the same time. */
  predicate Apart(s: Exec) {
    forall i | i in s.waiting :: Impersonator(i) !in s.executing
  }

  lemma {:induction false} AlwaysApart(s: Exec, evs: seq<Event>)
    requires Apart(s)
    ensures Apart(Run(s, evs))
    decreases |evs|
  {
    if evs != [] {
      AlwaysApart(Step(s, evs[0]), evs[1..]);
    }
  }

  /** The requests issued are those of the run. */
  lemma {:induction false} IssuedIn(s: Exec, evs: seq<Event>)
    ensures Run(s, evs).issued == s.issued + Requests(evs)
    decreases |evs|
  {
    if evs != [] {
      IssuedIn(Step(s, evs[0]), evs[1..]);
    }
  }

  function Requests(evs: seq<Event>): nat {
    if evs == [] then 0 else (if evs[0].Request? then 1 else 0) + Requests(evs[1..])
  }

  /** The same as a number. */
  lemma AtMostOneExecutor(evs: seq<Event>)
    ensures |Run(Fresh, evs).executing| <= 1
  {
    AlwaysSingle(Fresh, evs);
    var s := Run(Fresh, evs).executing;
    if s != {} {
      var a :| a in s;
      assert s == {a};
    }
  }

  // ---------------------------------------------------------------- requests while deferred

  /** Somebody impersonates the microthread or waits to. */
  predicate Impersonated(s: Exec) {
    s.waiting != {} || exists a :: a in s.executing && a.Impersonator?
  }

  /** The step gives the impersonation up while another impersonator waits. */
  predicate Overlaps(s: Exec, ev: Event) {
    ev.Undefer? && Impersonator(ev.i) in s.executing && s.waiting != {}
  }

  predicate NoOverlap(s: Exec, evs: seq<Event>)
    decreases |evs|
  {
    evs != [] ==> !Overlaps(s, evs[0]) && NoOverlap(Step(s, evs[0]), evs[1..])
  }

  /** Deferred exactly as long as somebody impersonates. */
  predicate DeferredWhileImpersonated(s: Exec) {
    Impersonated(s) <==> !s.deferral.NotDeferred?
  }

  lemma StepKeepsDeferral(s: Exec, ev: Event)
    requires SingleExecutor(s) && DeferredWhileImpersonated(s) && !Overlaps(s, ev)
    ensures DeferredWhileImpersonated(Step(s, ev))
  {
    var s' := Step(s, ev);
    match ev
    case Request => assert s'.executing == s.executing;
    case TakeRequest(w) =>
      forall a | a in s'.executing && a.Impersonator?
        ensures a in s.executing
      {
      }
      assert forall a | a in s.executing && a.Impersonator? :: a in s'.executing;
    case Finish(w) =>
      if Worker(w) in s.executing {
        assert Step(s, ev).executing == {};
      }
    case Defer(i) => assert i in s'.waiting || Impersonator(i) in s'.executing;
    case Seize(i) => assert s' != s ==> Impersonator(i) in s'.executing && i in s.waiting;
    case Undefer(i) =>
      if Impersonator(i) in s.executing {
        assert Step(s, ev).executing == {};
      }
  }

  predicate DeferredThroughout(s: Exec, evs: seq<Event>)
    decreases |evs|
  {
    DeferredWhileImpersonated(s) && (evs != [] ==> DeferredThroughout(Step(s, evs[0]), evs[1..]))
  }

  lemma OverlapEndsDeferral(s: Exec, ev: Event)
    requires Overlaps(s, ev)
    ensures !DeferredWhileImpersonated(Step(s, ev))
  {
    assert Step(s, ev).waiting == s.waiting;
  }

  /** Over a whole run, the microthread stays deferred for as long as it is
      impersonated if and only if no impersonator gives up while another waits. */
  lemma {:induction false} DeferredIffNoOverlap(s: Exec, evs: seq<Event>)
    requires SingleExecutor(s) && DeferredWhileImpersonated(s)
    ensures DeferredThroughout(s, evs) <==> NoOverlap(s, evs)
    ensures NoOverlap(s, evs) ==> DeferredWhileImpersonated(Run(s, evs))
    decreases |evs|
  {
    if evs != [] {
      if Overlaps(s, evs[0]) {
        OverlapEndsDeferral(s, evs[0]);
      } else {
        StepKeepsSingle(s, evs[0]);
        StepKeepsDeferral(s, evs[0]);
        DeferredIffNoOverlap(Step(s, evs[0]), evs[1..]);
      }
    }
  }

  /** So a request that meets an impersonator is never dropped. */
  lemma ImpersonatorDropsNothing(evs: seq<Event>, w: nat)
    requires NoOverlap(Fresh, evs) && Impersonated(Run(Fresh, evs))
    ensures var s := Run(Fresh, evs);
            Step(s, TakeRequest(w)).dropped == s.dropped
  {
    DeferredIffNoOverlap(Fresh, evs);
  }

  /** And it may be, as soon as one gives up while another waits: whatever happened
      before, the next request after the other one takes over is lost. */
  lemma OverlapLosesRequests(s: Exec, ev: Event, j: nat, w: nat)
    requires SingleExecutor(s) && Overlaps(s, ev) && j in s.waiting
    ensures var s1 := Run(s, [ev, Seize(j), Request]);
            && Impersonated(s1) && s1.requests > 0
            && Step(s1, TakeRequest(w)).dropped == s1.dropped + 1
  {
    assert Step(s, ev).executing == {};
    var s1 := Step(s, ev);
    var s2 := Step(s1, Seize(j));
    var s3 := Step(s2, Request);
    assert [ev, Seize(j), Request][1..] == [Seize(j), Request] && [Seize(j), Request][1..] == [Request];
    assert Run(s2, [Request]) == Run(s3, []);
    assert Run(s1, [Seize(j), Request]) == s3;
    assert Impersonator(j) in s3.executing;
  }

  /** And it does happen: two impersonators, the second of which waits for the first. */
  lemma OverlapHappens()
    ensures NoOverlap(Fresh, [Defer(0), Seize(0), Defer(1)])
    ensures var s := Run(Fresh, [Defer(0), Seize(0), Defer(1)]);
            Overlaps(s, Undefer(0)) && 1 in s.waiting
    ensures var s := Run(Run(Fresh, [Defer(0), Seize(0), Defer(1)]), [Undefer(0), Seize(1), Request]);
            Impersonated(s) && Step(s, TakeRequest(0)).dropped == 1
  {
    var evs := [Defer(0), Seize(0), Defer(1)];
    var s1 := Step(Fresh, Defer(0));
    var s2 := Step(s1, Seize(0));
    var s3 := Step(s2, Defer(1));
    assert evs[1..] == [Seize(0), Defer(1)] && evs[1..][1..] == [Defer(1)] && [Defer(1)][1..] == [];
    assert Run(s2, [Defer(1)]) == Run(s3, []);
    assert Run(s1, evs[1..]) == s3;
    assert Run(Fresh, evs) == s3;
    assert NoOverlap(s2, [Defer(1)]) && NoOverlap(s1, [Seize(0), Defer(1)]);
    AlwaysSingle(Fresh, evs);
    OverlapLosesRequests(s3, Undefer(0), 1, 0);
    var s6 := Run(s3, [Undefer(0), Seize(1), Request]);
    KeepsDropped(s3, [Undefer(0), Seize(1), Request]);
  }

  /** Only a worker drops requests. */
  lemma {:induction false} KeepsDropped(s: Exec, evs: seq<Event>)
    requires forall ev | ev in evs :: !ev.TakeRequest?
    ensures Run(s, evs).dropped == s.dropped
    decreases |evs|
  {
    if evs != [] {
      KeepsDropped(Step(s, evs[0]), evs[1..]);
    }
  }

  // ---------------------------------------------------------------- one impersonation

  /** The requests that are handed to a worker during a run. */
  function Taken(s: Exec, evs: seq<Event>): nat
    decreases |evs|
  {
    if evs == [] then 0
    else
      (if evs[0].TakeRequest? && s.requests > 0 && Worker(evs[0].w) !in s.executing then 1 else 0) +
      Taken(Step(s, evs[0]), evs[1..])
  }

  predicate NoImpersonation(evs: seq<Event>) {
    forall ev | ev in evs :: !ev.Defer? && !ev.Undefer?
  }

  lemma {:induction false} WhileDeferred(s: Exec, evs: seq<Event>)
    requires !s.deferral.NotDeferred? && NoImpersonation(evs)
    ensures var s' := Run(s, evs);
            && s'.absorbed == s.absorbed + Taken(s, evs)
            && s'.dropped == s.dropped && s'.started == s.started && s'.reissued == s.reissued
            && s'.deferral == (if Taken(s, evs) > 0 then DeferredPending else s.deferral)
    decreases |evs|
  {
    if evs != [] {
      WhileDeferred(Step(s, evs[0]), evs[1..]);
    }
  }

  /** Between defer and undefer of the only impersonator, however many requests are
      taken from the queue, none is dropped and none starts the microthread: all of
      them together come back as exactly one request at the undefer. */
  lemma RequestsCollapse(s: Exec, i: nat, evs: seq<Event>)
    requires SingleExecutor(s) && s.deferral.NotDeferred? && s.waiting == {} && Impersonator(i) !in s.executing
    requires NoImpersonation(evs)
    requires Impersonator(i) in Run(Step(s, Defer(i)), evs).executing
    ensures var s1 := Step(s, Defer(i));
            var s2 := Run(s1, evs);
            var s3 := Step(s2, Undefer(i));
            && s3.dropped == s.dropped && s3.started == s.started
            && s3.absorbed == s.absorbed + Taken(s1, evs)
            && s3.reissued == s.reissued + (if Taken(s1, evs) > 0 then 1 else 0)
            && s3.requests == s2.requests + (if Taken(s1, evs) > 0 then 1 else 0)
            && s3.deferral.NotDeferred? && !s3.running
  {
    WhileDeferred(Step(s, Defer(i)), evs);
  }

  // ---------------------------------------------------------------- the code

  class Microthread {
    var running: bool
    var deferralState: Deferral
    var queued: nat            // how often it is in the worker pool's queue
    ghost var executing: set<Actor>
    ghost var waiting: set<nat>
    ghost var issued: nat
    ghost var reissued: nat
    ghost var started: nat
    ghost var absorbed: nat
    ghost var dropped: nat

    /** One executor at most, and every run request accounted for. */
    ghost predicate Valid()
      reads this
    {
      SingleExecutor(Snapshot()) && Balanced(Snapshot())
    }

    ghost function Snapshot(): Exec
      reads this
    {
      Exec(running, deferralState, queued, executing, waiting, issued, reissued, started, absorbed, dropped)
    }

    constructor ()
      ensures Valid() && Snapshot() == Fresh
    {
      running, deferralState, queued, executing, waiting := false, NotDeferred, 0, {}, {};
      issued, reissued, started, absorbed, dropped := 0, 0, 0, 0, 0;
    }

    /** The checks at the start of `doWork`.  A worker that goes on is the only one to
        run the microthread; and while an impersonator has it deferred, the request is
        kept for later. */
    method EnterDoWork(w: nat) returns (entered: bool)
      requires Valid() && queued > 0 && Worker(w) !in executing
      modifies this
      ensures Valid() && Snapshot() == Step(old(Snapshot()), TakeRequest(w))
      ensures entered ==> executing == {Worker(w)}
      ensures !entered ==> executing == old(executing)
      ensures old(DeferredWhileImpersonated(Snapshot()) && Impersonated(Snapshot())) ==>
                deferralState == DeferredPending && dropped == old(dropped)
    {
      StepKeepsSingle(Snapshot(), TakeRequest(w));
      StepBalances(Snapshot(), TakeRequest(w));
      queued := queued - 1;
      if deferralState != NotDeferred {
        deferralState := DeferredPending;
        absorbed := absorbed + 1;
        return false;
      }
      if running {
        dropped := dropped + 1;
        return false;
      }
      running := true;
      executing, started := executing + {Worker(w)}, started + 1;
      return true;
    }

    /** The end of `doWork`: nobody runs the microthread now. */
    method LeaveDoWork(w: nat)
      requires Valid() && Worker(w) in executing
      modifies this
      ensures Valid() && Snapshot() == Step(old(Snapshot()), Finish(w))
      ensures executing == {}
    {
      StepKeepsSingle(Snapshot(), Finish(w));
      running := false;
      executing := executing - {Worker(w)};
    }

    /** `_deferLocked`, up to its wait: no worker starts the microthread any more. */
    method DeferLocked(i: nat)
      requires Valid() && i !in waiting && Impersonator(i) !in executing
      modifies this
      ensures Valid() && Snapshot() == Step(old(Snapshot()), Defer(i))
      ensures forall w :: Step(Snapshot(), TakeRequest(w)).executing == executing
    {
      if deferralState == NotDeferred {
        deferralState := DeferredNotPending;
      }
      waiting := waiting + {i};
    }

    /** The rest of `impersonate` for the new thread: its wait ends when nobody runs the
        microthread, and it is the only one to. */
    method StartImpersonating(i: nat)
      requires Valid() && i in waiting && !running
      modifies this
      ensures Valid() && Snapshot() == Step(old(Snapshot()), Seize(i))
      ensures executing == {Impersonator(i)}
    {
      StepKeepsSingle(Snapshot(), Seize(i));
      running := true;
      waiting, executing := waiting - {i}, executing + {Impersonator(i)};
    }

    /** `impersonate` for the old thread, with `_undeferLocked`: what was kept comes
        back as one request; without another impersonator waiting, deferral and
        impersonation end together. */
    method StopImpersonating(i: nat)
      requires Valid() && Impersonator(i) in executing
      modifies this
      ensures Valid() && Snapshot() == Step(old(Snapshot()), Undefer(i))
      ensures executing == {} && queued == old(queued) + if old(deferralState).DeferredPending? then 1 else 0
      ensures waiting == {} ==> DeferredWhileImpersonated(Snapshot())
    {
      StepKeepsSingle(Snapshot(), Undefer(i));
      StepBalances(Snapshot(), Undefer(i));
      running := false;
      var previous := deferralState;
      deferralState := NotDeferred;
      executing := executing - {Impersonator(i)};
      if previous == DeferredPending {
        queued := queued + 1;
        reissued := reissued + 1;
      }
    }
  }
}
