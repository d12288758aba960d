/**
 A banked signal is used once: signals banked at a number let exactly as many waits at
 that number return as there are, and no more.
 */
module CondVarBanked {
  import opened Counting
  import opened Options
  import opened SeqNum
  import opened Ksyn
  import opened CondVar
  import opened CondVarWakeups
  import opened CondVarChoice

  /** The element at index `k` holds `n` signals for `c`, and nothing else banked is at or
      above `c`. */
  ghost predicate HoldsAt(q: seq<Kwe>, c: Seq, n: nat, k: nat) {
    && 0 < n && k < |q| && q[k] == Kwe(c, Prepost(n))
    && forall i | 0 <= i < |q| && i != k && Banked(q[i]) :: Lower(q[i].lockseq, c)
  }

  /** Exactly `n` signals are banked at `c`, and nothing that covers it besides. */
  ghost predicate Exactly(q: seq<Kwe>, c: Seq, n: nat) {
    if n == 0 then !Covered(q, c) else exists k :: HoldsAt(q, c, n, k)
  }

  // ---------------------------------------------------------------- what a wait takes

  /** The element that a wait at `c` finds is the one that holds the signals for it. */
  lemma FindsHolder(b: Seq, q: seq<Kwe>, c: Seq, n: nat, k: nat)
    requires StrictlySorted(q) && BankedFirst(q) && Windowed(b, q) && InWindow(b, c) && HoldsAt(q, c, n, k)
    ensures FindPrepost(q, c) == Some(k)
  {
    hide Lower;
    hide InWindow;
    OrderFacts();
    var f := FirstHigherEq(q, c);
    assert HigherEq(q[k].lockseq, c);
    assert f < k ==> Banked(q[f]);
  }

  /** It takes one of them, and the last one takes the element away; everything else
      stays. */
  lemma TakesOne(cv: Cv, c: Seq, n: nat, k: nat)
    requires HoldsAt(cv.q, c, n, k)
    ensures var (cv', out) := Consume(cv, k, c);
            && out == Quiet && cv'.l == cv.l && cv'.s == cv.s && cv'.zeroed == cv.zeroed
            && (if n == 1 then cv'.q == cv.q[..k] + cv.q[k + 1..] && cv'.fake == cv.fake - 1
                else cv'.q == cv.q[..k] + [Kwe(c, Prepost(n - 1))] + cv.q[k + 1..] && cv'.fake == cv.fake)
  {
    hide Lower;
    hide Broadcasted;
  }

  lemma OneFewer(q: seq<Kwe>, c: Seq, n: nat, k: nat)
    requires HoldsAt(q, c, n, k)
    ensures Exactly(if n == 1 then q[..k] + q[k + 1..] else q[..k] + [Kwe(c, Prepost(n - 1))] + q[k + 1..], c, n - 1)
  {
    hide Lower;
    hide InWindow;
    OrderFacts();
    if n == 1 {
      var q' := q[..k] + q[k + 1..];
      forall i | 0 <= i < |q'| && Banked(q'[i])
        ensures !HigherEq(q'[i].lockseq, c)
      {
        assert q'[i] == q[if i < k then i else i + 1];
      }
    } else {
      var q' := q[..k] + [Kwe(c, Prepost(n - 1))] + q[k + 1..];
      assert forall i | 0 <= i < |q| && i != k :: q'[i] == q[i];
      assert HoldsAt(q', c, n - 1, k);
    }
  }

  /** A wait at `c`: with signals banked there it returns at once and one is gone; with
      none it blocks, or fails because another thread waits there. */
  lemma WaitAt(b: Seq, cv: Cv, w: Words, t: Thread, n: nat)
    requires QueueInv(cv) && FitsIn(b, cv, Wait(w, t)) && !HigherEq(w.s, w.l)
    requires Exactly(cv.q, w.l, n) && !CvWait(cv, w, t).1.cbit
    ensures var (cv', out) := CvWait(cv, w, t);
            && (out.err == Ok && !out.blocked <==> n > 0)
            && Exactly(cv'.q, w.l, if n == 0 then 0 else n - 1)
  {
    hide Lower;
    hide InWindow;
    hide Plus;
    hide Fixup;
    UpdateInv(b, cv, w);
    var cv1 := Update(cv, w);
    PrepostFound(b, cv.q, w.l);
    if n == 0 {
      WaitOutcome(b, cv, w, t);
      WaiterChangesNothing(cv.q, Kwe(w.l, InWait(t)), w.l, 0);
      hide Exactly;
    } else {
      var k :| HoldsAt(cv.q, w.l, n, k);
      FindsHolder(b, cv.q, w.l, n, k);
      TakesOne(cv1, w.l, n, k);
      OneFewer(cv.q, w.l, n, k);
      hide Exactly;
      hide HoldsAt;
      hide Consume;
      var (cv2, out) := Consume(cv1, k, w.l);
      FixupShape(cv2.(s := Plus(cv2.s, 1)), out);
      FixupErr(cv2.(s := Plus(cv2.s, 1)), out);
    }
  }

  /** A blocked thread more or less makes no difference. */
  lemma WaiterChangesNothing(q: seq<Kwe>, e: Kwe, c: Seq, n: nat)
    requires !Banked(e)
    ensures Exactly(q, c, n) ==> Exactly(Inserted(q, e), c, n)
  {
    hide Lower;
    hide InWindow;
    var p, f := Inserted(q, e), FirstHigher(q, e.lockseq);
    hide FirstHigher;
    assert forall i | 0 <= i < |p| :: p[i] == if i < f then q[i] else if i == f then e else q[i - 1];
    if n > 0 && Exactly(q, c, n) {
      var k :| HoldsAt(q, c, n, k);
      assert HoldsAt(p, c, n, if k < f then k else k + 1);
    }
  }

  lemma LeaverChangesNothing(q: seq<Kwe>, j: nat, c: Seq, n: nat)
    requires j < |q| && !Banked(q[j])
    ensures Exactly(q, c, n) ==> Exactly(Removed(q, j), c, n)
  {
    hide Lower;
    hide InWindow;
    var p := Removed(q, j);
    assert forall i | 0 <= i < |p| :: p[i] == q[if i < j then i else i + 1];
    if n > 0 && Exactly(q, c, n) {
      var k: nat :| HoldsAt(q, c, n, k);
      assert k != j;
      assert HoldsAt(p, c, n, if k < j then k else k - 1);
    }
  }

  /** A wait above `c` finds nothing banked: it blocks or fails. */
  lemma WaitAbove(b: Seq, cv: Cv, w: Words, t: Thread, c: Seq, n: nat)
    requires QueueInv(cv) && FitsIn(b, cv, Wait(w, t)) && InWindow(b, c) && !HigherEq(w.s, w.l)
    requires Exactly(cv.q, c, n) && Lower(c, w.l)
    ensures var (cv', out) := CvWait(cv, w, t);
            (out.blocked || out.err == EBUSY) && Exactly(cv'.q, c, n)
  {
    hide Lower;
    hide InWindow;
    hide Plus;
    NothingAbove(b, cv.q, c, n, w.l);
    UpdateInv(b, cv, w);
    PrepostFound(b, cv.q, w.l);
    WaitOutcome(b, cv, w, t);
    WaiterChangesNothing(cv.q, Kwe(w.l, InWait(t)), c, n);
    hide Exactly;
    hide Covered;
    hide QueueInv;
  }

  lemma NothingAbove(b: Seq, q: seq<Kwe>, c: Seq, n: nat, d: Seq)
    requires Windowed(b, q) && InWindow(b, c) && InWindow(b, d) && Exactly(q, c, n) && Lower(c, d)
    ensures !Covered(q, d)
  {
    hide Lower;
    hide InWindow;
    OrderFacts();
    WindowTransitive(b);
    if n > 0 {
      var k :| HoldsAt(q, c, n, k);
    }
  }

  // ---------------------------------------------------------------- what a signal adds

  /** A signal to nobody in particular up to `c`: it wakes a thread and leaves what is
      banked alone, asks for a broadcast, or adds exactly one. */
  lemma SignalAt(b: Seq, cv: Cv, c: Seq, from: Seq, n: nat)
    requires QueueInv(cv) && Windowed(b, cv.q) && InWindow(b, c) && Exactly(cv.q, c, n)
    ensures var (cv', broad, out) := SignalOne(cv, None, c, from);
            || broad
            || (out.woken != [] && Exactly(cv'.q, c, n))
            || (out.woken == [] && Exactly(cv'.q, c, n + 1))
  {
    hide Lower;
    hide InWindow;
    hide Plus;
    if NobodyInRange(cv.q, c) {
      AddsOne(b, cv, c, from, n);
    } else if !OnlyBelow(cv.q, c, from) {
      var i := Eligible(b, cv.q, c, from);
      SignalWakesFirst(b, cv, c, from, i);
      LeaverChangesNothing(cv.q, i, c, n);
      hide Exactly;
    } else {
      SignalAsksForBroadcast(b, cv, c, from);
    }
    hide SignalOne;
  }

  lemma AddsOne(b: Seq, cv: Cv, c: Seq, from: Seq, n: nat)
    requires QueueInv(cv) && Windowed(b, cv.q) && InWindow(b, c) && Exactly(cv.q, c, n) && NobodyInRange(cv.q, c)
    ensures var (cv', broad, out) := SignalOne(cv, None, c, from);
            !broad && out.woken == [] && Exactly(cv'.q, c, n + 1)
  {
    hide Lower;
    hide InWindow;
    hide SignalOne;
    if n == 0 {
      NothingToMerge(b, cv.q, c);
      SignalIsInserted(b, cv, c, from);
      FirstOne(b, cv.q, c);
    } else {
      var k: nat :| HoldsAt(cv.q, c, n, k);
      FindsHolder(b, cv.q, c, n, k);
      assert MergesInto(cv.q, c) == Some(k);
      SignalIsMerged(cv, c, from);
      var q' := cv.q[k := Kwe(c, Prepost(n + 1))];
      assert HoldsAt(q', c, n + 1, k);
    }
  }

  lemma NothingToMerge(b: Seq, q: seq<Kwe>, c: Seq)
    requires Windowed(b, q) && InWindow(b, c) && !Covered(q, c)
    ensures MergesInto(q, c).None?
  {
    hide Lower;
    hide InWindow;
    var k := FirstHigherEq(q, c);
    assert k < |q| ==> !Banked(q[k]);
  }

  lemma FirstOne(b: Seq, q: seq<Kwe>, c: Seq)
    requires !Covered(q, c)
    ensures var k := FirstHigherEq(q, c);
            Exactly(q[..k] + [Kwe(c, Prepost(1))] + q[k..], c, 1)
  {
    hide Lower;
    hide InWindow;
    OrderFacts();
    var k := FirstHigherEq(q, c);
    var p := q[..k] + [Kwe(c, Prepost(1))] + q[k..];
    forall i | 0 <= i < |p| && i != k && Banked(p[i])
      ensures Lower(p[i].lockseq, c)
    {
      var j := if i < k then i else i - 1;
      assert p[i] == q[j] && !HigherEq(q[j].lockseq, c);
    }
    assert HoldsAt(p, c, 1, k);
  }

  // ---------------------------------------------------------------- over runs

  /** Steps that concern what is banked at `c` only by waiting there: waits at or above
      it, and threads that give up or die; nothing balances. */
  ghost predicate Aside(b: Seq, cv: Cv, ev: Event, c: Seq) {
    && FitsIn(b, cv, ev) && Windowed(b, cv.q) && InWindow(b, c) && !Step(cv, ev).1.cbit
    && ((ev.Wait? && LowerEq(c, ev.w.l)) || ev.Timeout? || ev.Dying?)
  }

  ghost predicate AsideRun(cv: Cv, evs: seq<Event>, c: Seq)
    decreases |evs|
  {
    evs != [] ==>
      && (exists b :: Aside(b, cv, evs[0], c))
      && AsideRun(Step(cv, evs[0]).0, evs[1..], c)
  }

  lemma StepSpends(b: Seq, cv: Cv, ev: Event, c: Seq, n: nat)
    requires QueueInv(cv) && Aside(b, cv, ev, c) && Exactly(cv.q, c, n)
    ensures Spends(cv, ev, c) ==> n > 0
    ensures Exactly(Step(cv, ev).0.q, c, n - One(Spends(cv, ev, c)))
  {
    hide Lower;
    hide InWindow;
    hide Plus;
    if ev.Wait? {
      WaitSpends(b, cv, ev, c, n);
    } else {
      var j := IndexOf(cv.q, ev.t);
      if j < |cv.q| {
        LeaverChangesNothing(cv.q, j, c, n);
      }
      hide Exactly;
    }
  }

  lemma WaitSpends(b: Seq, cv: Cv, ev: Event, c: Seq, n: nat)
    requires QueueInv(cv) && Aside(b, cv, ev, c) && Exactly(cv.q, c, n) && ev.Wait?
    ensures Spends(cv, ev, c) ==> n > 0
    ensures Exactly(Step(cv, ev).0.q, c, n - One(Spends(cv, ev, c)))
  {
    hide Lower;
    hide InWindow;
    hide Exactly;
    if HigherEq(ev.w.s, ev.w.l) {
      assert Step(cv, ev).0 == cv && !Spends(cv, ev, c);
    } else {
      hide CvWait;
      hide QueueInv;
      if ev.w.l == c {
        WaitAt(b, cv, ev.w, ev.t, n);
      } else {
        WaitAbove(b, cv, ev.w, ev.t, c, n);
      }
    }
  }

  /** A banked signal is used once: over any such run at most as many waits at `c` return
      at once as signals were banked there, and exactly the others are left. */
  lemma {:induction false} BankedSignalsServeOnce(cv: Cv, evs: seq<Event>, c: Seq, n: nat)
    requires QueueInv(cv) && Exactly(cv.q, c, n) && AsideRun(cv, evs, c)
    ensures QueueInv(Run(cv, evs))
    ensures Spent(cv, evs, c) <= n && Exactly(Run(cv, evs).q, c, n - Spent(cv, evs, c))
    decreases |evs|
  {
    hide Lower;
    hide InWindow;
    hide QueueInv;
    hide Exactly;
    hide Step;
    hide Spends;
    if evs != [] {
      var b :| Aside(b, cv, evs[0], c);
      StepInv(cv, evs[0]);
      StepSpends(b, cv, evs[0], c, n);
      BankedSignalsServeOnce(Step(cv, evs[0]).0, evs[1..], c, n - One(Spends(cv, evs[0], c)));
    }
  }
}
