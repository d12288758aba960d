/**
 The books of a condition variable: no blocked thread disappears, and the S word
 counts the threads that leave.
 */
module CondVarLedger {
  import opened Options
  import opened SeqNum
  import opened Ksyn
  import opened SleeperSets
  import opened CondVar

  /** From `cv` to `cv'` exactly the threads `woken` have left the queue. */
  predicate Left(cv: Cv, cv': Cv, woken: seq<Thread>) {
    Sleepers(cv.q) == Sleepers(cv'.q) + multiset(woken)
  }

  lemma BankLeaves(cv: Cv, e: Kwe)
    requires Banked(e)
    ensures Left(cv, Bank(cv, e), [])
  {
    hide Waiters;
    hide Inserted;
    SleepersInserted(cv.q, e);
  }

  lemma DropLeaves(cv: Cv, k: nat)
    requires k <= |cv.q|
    ensures Left(cv, DropFirst(cv, k), Waiters(cv.q[..k]))
  {
    SleepersSplit(cv.q, k);
  }

  lemma BroadcastLeaves(cv: Cv, upto: Seq)
    ensures var (cv', woken) := Broadcasted(cv, upto);
            Left(cv, cv', woken) && cv'.s == cv.s && cv'.l == cv.l
  {
    hide Waiters;
    hide FirstHigher;
    var k := FirstHigher(cv.q, upto);
    DropLeaves(cv, k);
    BankLeaves(DropFirst(cv, k), Kwe(upto, Broadcast));
  }

  lemma FixupLeaves(cv0: Cv, cv: Cv, out: Out)
    requires Left(cv0, cv, out.woken)
    ensures var (cv', out') := Fixup(cv, out);
            && Left(cv0, cv', out'.woken) && out'.blocked == out.blocked && out'.err == out.err
            && (!out'.cbit ==> cv'.s == cv.s && out'.woken == out.woken) && (out.cbit || (out'.cbit <==> cv.l == cv.s))
  {
    hide Waiters;
    hide FirstHigher;
    DropLeaves(cv, FirstHigher(cv.q, cv.l));
  }

  lemma ChosenLeaves(cv: Cv, k: Option<nat>, upto: Seq, from: Seq)
    requires k.Some? ==> k.value < |cv.q|
    ensures var (cv', broad, out) := SignalChosen(cv, k, upto, from);
            && Left(cv, cv', out.woken) && cv'.s == Plus(cv.s, |out.woken|) && cv'.l == cv.l
            && (broad ==> cv' == cv && out == Quiet) && !out.blocked && out.err == Ok && !out.cbit
  {
    hide Waiters;
    hide Lower;
    hide Removed;
    PlusZero(cv.s);
    BankLeaves(cv, Kwe(upto, Prepost(1)));
    if k.Some? {
      SleepersRemoved(cv.q, k.value);
      var e := cv.q[k.value];
      if e.state.Prepost? {
        SleepersReplaced(cv.q, k.value, e.(state := Prepost(e.state.count + 1)));
      }
    }
  }

  lemma PlusZero(s: Seq)
    ensures Plus(s, 0) == s
  {
  }

  lemma OneLeaves(cv: Cv, target: Option<Thread>, upto: Seq, from: Seq)
    ensures var (cv', broad, out) := SignalOne(cv, target, upto, from);
            && Left(cv, cv', out.woken) && cv'.s == Plus(cv.s, |out.woken|) && cv'.l == cv.l
            && (broad ==> cv' == cv && out == Quiet) && !out.blocked && out.err == Ok && !out.cbit
  {
    hide Waiters;
    hide Lower;
    hide SignalChosen;
    hide FindSignal;
    PlusZero(cv.s);
    if target.Some? {
      var k := IndexOf(cv.q, target.value);
      if k < |cv.q| {
        ChosenLeaves(cv, Some(k), upto, from);
      }
    } else {
      FindSignalRange(cv.q, 0, upto, from, None);
      ChosenLeaves(cv, FindSignal(cv.q, 0, upto, from, None), upto, from);
    }
  }

  lemma BroadEndLeaves(cv0: Cv, cv: Cv, upto: Seq, already: nat, out: Out)
    requires Left(cv0, cv, []) && !out.cbit
    ensures var (cv', out') := BroadEnd(cv, upto, already, out);
            && Left(cv0, cv', out'.woken) && out'.blocked == out.blocked && out'.err == out.err
            && (!out'.cbit ==> cv'.s == Plus(cv.s, already + |out'.woken|))
  {
    hide Waiters;
    hide Fixup;
    hide Broadcasted;
    hide Plus;
    hide BroadRefused;
    BroadcastLeaves(cv, upto);
    var (cv1, woken) := Broadcasted(cv, upto);
    FixupLeaves(cv0, cv1.(s := Plus(cv1.s, already + |woken|)),
                out.(woken := woken, refused := BroadRefused(cv, upto)));
  }

  /** The end of a signal: `cv0` is where the whole call began. */
  lemma EndLeaves(cv0: Cv, cv: Cv, broadcast: bool, upto: Seq, out: Out)
    requires Left(cv0, cv, out.woken) && (broadcast ==> out.woken == []) && !out.cbit
    ensures var (cv', out') := SignalEnd(cv, broadcast, upto, out);
            && Left(cv0, cv', out'.woken) && out'.blocked == out.blocked && out'.err == out.err
            && (!out'.cbit ==> cv'.s == Plus(cv.s, if broadcast then |out'.woken| else 0))
  {
    hide Left;
    hide Fixup;
    hide BroadEnd;
    hide Plus;
    PlusZero(cv.s);
    if broadcast {
      BroadEndLeaves(cv0, cv, upto, 0, out);
    } else {
      FixupLeaves(cv0, cv, out);
    }
  }

  lemma EndKeepsWoken(cv: Cv, upto: Seq, out: Out)
    requires !out.cbit
    ensures var (cv', out') := SignalEnd(cv, false, upto, out);
            !out'.cbit ==> out'.woken == out.woken
  {
    hide Waiters;
    hide FirstHigher;
  }

  /** The scan of a single signal, the first or the second one, and the end. */
  lemma ScanLeaves(cv: Cv, target: Option<Thread>, upto: Seq, from: Seq)
    ensures var (cv2, broad, out) := SignalOne(cv, target, upto, from);
            var (cv', out') := SignalEnd(cv2, broad, upto, out);
            && Left(cv, cv', out'.woken) && !out'.blocked && out'.err == Ok
            && (!out'.cbit ==> cv'.s == Plus(cv.s, |out'.woken|))
  {
    hide Left;
    hide SignalEnd;
    hide SignalOne;
    hide Plus;
    OneLeaves(cv, target, upto, from);
    var (cv2, broad, out) := SignalOne(cv, target, upto, from);
    PlusZero(cv.s);
    PlusZero(cv2.s);
    EndLeaves(cv, cv2, broad, upto, out);
    EndKeepsWoken(cv2, upto, out);
  }

  lemma SignalLeaves(cv: Cv, w: Words, target: Option<Thread>, broadcast: bool)
    ensures var (cv', out) := CvSignal(cv, w, target, broadcast);
            && Left(cv, cv', out.woken) && !out.blocked
            && (out.err == Ok && !out.cbit ==> cv'.s == Plus(Update(cv, w).s, |out.woken|))
  {
    hide Waiters;
    hide SignalEnd;
    hide BroadEnd;
    hide SignalOne;
    hide Plus;
    hide Lower;
    var cv1 := Update(cv, w);
    PlusZero(cv1.s);
    if !broadcast && cv1.l != cv1.s {
      ScanLeaves(cv1, target, w.l, Plus(w.u, 1));
    } else {
      EndLeaves(cv1, cv1, broadcast, w.l, Quiet);
      EndKeepsWoken(cv1, w.l, Quiet);
    }
  }

  lemma ConsumeLeaves(cv: Cv, k: nat, c: Seq)
    requires k < |cv.q| && Banked(cv.q[k])
    ensures var (cv', out) := Consume(cv, k, c);
            && Left(cv, cv', out.woken) && cv'.s == cv.s && cv'.l == cv.l
            && !out.blocked && out.err == Ok && !out.cbit
  {
    hide Waiters;
    hide Broadcasted;
    hide BroadRefused;
    hide Removed;
    var e := cv.q[k];
    BroadcastLeaves(cv, e.lockseq);
    SleepersRemoved(cv.q, k);
    if e.state.Prepost? && e.state.count > 1 {
      SleepersReplaced(cv.q, k, e.(state := Prepost(e.state.count - 1)));
    }
  }

  /** A waiter joins the queue, or returns at once and counts as having left. */
  lemma WaitLeaves(cv: Cv, w: Words, t: Thread)
    ensures var (cv', out) := CvWait(cv, w, t);
            && (if out.blocked then Sleepers(cv'.q) == Sleepers(cv.q) + multiset{t} && out.woken == []
                else Left(cv, cv', out.woken))
            && (out.err == Ok && !out.cbit ==> cv'.s == Plus(Update(cv, w).s, if out.blocked then 0 else 1))
  {
    hide Waiters;
    hide Consume;
    hide Fixup;
    hide Inserted;
    hide Plus;
    hide Lower;
    var cv1 := Update(cv, w);
    PlusZero(cv1.s);
    SleepersInserted(cv1.q, Kwe(w.l, InWait(t)));
    var found := FindPrepost(cv1.q, w.l);
    if found.Some? && Banked(cv1.q[found.value]) {
      ConsumeLeaves(cv1, found.value, w.l);
      var (cv2, out) := Consume(cv1, found.value, w.l);
      FixupLeaves(cv1, cv2.(s := Plus(cv2.s, 1)), out);
    }
  }

  /** A thread that gives up leaves, and counts. */
  lemma TimeoutLeaves(cv: Cv, t: Thread)
    ensures var (cv', out) := CvTimeout(cv, t);
            var gone := if IndexOf(cv.q, t) < |cv.q| then [t] else [];
            && Left(cv, cv', gone + out.woken) && !out.blocked
            && (!out.cbit ==> cv'.s == Plus(cv.s, |gone|))
  {
    hide Waiters;
    hide Plus;
    hide Removed;
    PlusZero(cv.s);
    var k := IndexOf(cv.q, t);
    if k < |cv.q| {
      SleepersRemoved(cv.q, k);
      var cv1 := cv.(q := Removed(cv.q, k), s := Plus(cv.s, 1));
      DropLeaves(cv1, |cv1.q|);
      assert cv1.q[..|cv1.q|] == cv1.q;
    }
  }

  // ---------------------------------------------------------------- every step and every run

  /** The thread that a step takes out of the queue without waking it. */
  function GivesUp(cv: Cv, ev: Event): seq<Thread> {
    if (ev.Timeout? || ev.Dying?) && IndexOf(cv.q, ev.t) < |cv.q| then [ev.t] else []
  }

  /** The thread that a step puts into the queue. */
  function Joins(ev: Event, out: Out): seq<Thread> {
    if ev.Wait? && out.blocked then [ev.t] else []
  }

  /** The balance of a step. */
  predicate Balanced(cv: Cv, ev: Event, cv': Cv, out: Out) {
    Sleepers(cv.q) + multiset(Joins(ev, out)) == Sleepers(cv'.q) + multiset(out.woken) + multiset(GivesUp(cv, ev))
  }

  lemma LeftBalances(cv: Cv, ev: Event, cv': Cv, out: Out)
    requires Left(cv, cv', out.woken) && !ev.Timeout? && !ev.Dying? && !(ev.Wait? && out.blocked)
    ensures Balanced(cv, ev, cv', out)
  {
    hide Sleepers;
  }

  lemma WaitBalances(cv: Cv, w: Words, t: Thread)
    ensures var (cv', out) := CvWait(cv, w, t);
            Balanced(cv, Wait(w, t), cv', out)
  {
    hide Sleepers;
    hide CvWait;
    WaitLeaves(cv, w, t);
  }

  lemma TimeoutBalances(cv: Cv, t: Thread)
    ensures var (cv', out) := CvTimeout(cv, t);
            Balanced(cv, Timeout(t), cv', out)
  {
    hide Sleepers;
    hide CvTimeout;
    TimeoutLeaves(cv, t);
    var out := CvTimeout(cv, t).1;
    assert multiset(GivesUp(cv, Timeout(t)) + out.woken) == multiset(GivesUp(cv, Timeout(t))) + multiset(out.woken);
  }

  lemma DyingBalances(cv: Cv, t: Thread)
    ensures var cv' := if IndexOf(cv.q, t) == |cv.q| then cv else cv.(q := Removed(cv.q, IndexOf(cv.q, t)));
            Balanced(cv, Dying(t), cv', Quiet)
  {
    hide Sleepers;
    hide Removed;
    if IndexOf(cv.q, t) < |cv.q| {
      SleepersRemoved(cv.q, IndexOf(cv.q, t));
    }
  }

  lemma RescanBalances(cv: Cv, ev: Event)
    requires ev.SignalRescan? || ev.BroadRescan? || ev.BroadScan? || ev.Clear?
    ensures var (cv', out) := Step(cv, ev);
            Left(cv, cv', out.woken)
  {
    hide Sleepers;
    hide CvTimeout;
    hide CvWait;
    hide CvSignal;
    hide SignalOne;
    hide SignalEnd;
    hide BroadEnd;
    hide FirstHigher;
    hide Waiters;
    if ev.SignalRescan? {
      ScanLeaves(cv, None, ev.upto, ev.from);
    } else if ev.BroadRescan? {
      BroadEndLeaves(cv, cv, ev.upto, ev.already, Quiet);
    } else {
      DropLeaves(cv, FirstHigher(cv.q, ev.upto));
    }
  }

  /** No blocked thread disappears: one that is no longer queued was reported as
      woken, or gave up itself.  This holds for every step, whatever the words and
      however the critical sections interleave. */
  lemma NobodyVanishes(cv: Cv, ev: Event)
    ensures var (cv', out) := Step(cv, ev);
            Sleepers(cv.q) + multiset(Joins(ev, out)) ==
            Sleepers(cv'.q) + multiset(out.woken) + multiset(GivesUp(cv, ev))
  {
    hide Sleepers;
    hide CvWait;
    hide CvSignal;
    hide CvTimeout;
    hide SignalOne;
    hide SignalEnd;
    hide BroadEnd;
    hide Left;
    var (cv', out) := Step(cv, ev);
    if ev.Wait? {
      WaitBalances(cv, ev.w, ev.t);
    } else if ev.Timeout? {
      TimeoutBalances(cv, ev.t);
    } else if ev.Dying? {
      DyingBalances(cv, ev.t);
    } else {
      if ev.Signal? {
        SignalLeaves(cv, ev.w, ev.target, false);
      } else if ev.Broad? {
        SignalLeaves(cv, ev.w, None, true);
      } else if ev.SignalRescan? || ev.BroadRescan? || ev.BroadScan? || ev.Clear? {
        RescanBalances(cv, ev);
      } else {
        QuietLeaves(cv, cv');
      }
      LeftBalances(cv, ev, cv', out);
    }
  }

  lemma QuietLeaves(cv: Cv, cv': Cv)
    requires cv'.q == cv.q
    ensures Left(cv, cv', [])
  {
  }

  ghost function JoinedIn(cv: Cv, evs: seq<Event>): multiset<Thread>
    decreases |evs|
  {
    if evs == [] then multiset{}
    else
      var (cv', out) := Step(cv, evs[0]);
      multiset(Joins(evs[0], out)) + JoinedIn(cv', evs[1..])
  }

  ghost function LeftIn(cv: Cv, evs: seq<Event>): multiset<Thread>
    decreases |evs|
  {
    if evs == [] then multiset{}
    else
      var (cv', out) := Step(cv, evs[0]);
      multiset(out.woken) + multiset(GivesUp(cv, evs[0])) + LeftIn(cv', evs[1..])
  }

  /** Over every run, the threads blocked at the end are those blocked at the start
      and those that came to block, less those that were woken or gave up: each
      thread as often as it blocked. */
  lemma {:induction false} EveryThreadAccountedFor(cv: Cv, evs: seq<Event>)
    ensures Sleepers(cv.q) + JoinedIn(cv, evs) == Sleepers(Run(cv, evs).q) + LeftIn(cv, evs)
    decreases |evs|
  {
    hide Sleepers;
    hide Step;
    if evs != [] {
      var (cv1, out) := Step(cv, evs[0]);
      NobodyVanishes(cv, evs[0]);
      EveryThreadAccountedFor(cv1, evs[1..]);
      Chained(Sleepers(cv.q), multiset(Joins(evs[0], out)), Sleepers(cv1.q),
              multiset(out.woken) + multiset(GivesUp(cv, evs[0])),
              JoinedIn(cv1, evs[1..]), Sleepers(Run(cv1, evs[1..]).q), LeftIn(cv1, evs[1..]));
    }
  }

  /** The words a step works with. */
  function Merged(cv: Cv, ev: Event): Cv {
    if ev.Wait? || ev.Signal? || ev.Broad? then Update(cv, ev.w) else cv
  }

  /** The S word counts departures: while L and S differ, every accepted step moves it
      by the number of threads it woke, turned back at the door, or saw give up, the
      second scan of a call as well, that of a broadcast also by those that the first
      one woke. */
  lemma SwordCountsDepartures(cv: Cv, ev: Event)
    requires ev.Wait? || ev.Signal? || ev.Broad? || ev.Timeout? || ev.SignalRescan? || ev.BroadRescan?
    ensures var (cv', out) := Step(cv, ev);
            var departed := match ev
                            case Wait(_, _) => if out.blocked then 0 else 1
                            case Timeout(_) => |GivesUp(cv, ev)|
                            case BroadRescan(_, already) => already + |out.woken|
                            case _ => |out.woken|;
            out.err == Ok && !out.cbit ==> cv'.s == Plus(Merged(cv, ev).s, departed)
  {
    hide Sleepers;
    hide CvWait;
    hide CvSignal;
    hide CvTimeout;
    hide BroadEnd;
    hide SignalOne;
    hide SignalEnd;
    hide Plus;
    hide Update;
    if ev.Wait? {
      WaitLeaves(cv, ev.w, ev.t);
    } else if ev.Signal? {
      SignalLeaves(cv, ev.w, ev.target, false);
    } else if ev.Broad? {
      SignalLeaves(cv, ev.w, None, true);
    } else if ev.SignalRescan? {
      ScanLeaves(cv, None, ev.upto, ev.from);
    } else if ev.BroadRescan? {
      QuietLeaves(cv, cv);
      BroadEndLeaves(cv, cv, ev.upto, ev.already, Quiet);
    } else {
      TimeoutLeaves(cv, ev.t);
    }
  }
}
