/**
 What a single signal does, exactly: which thread it wakes, when it turns into a
 broadcast, and where it is banked.
 */
module CondVarChoice {
  import opened Options
  import opened SeqNum
  import opened Ksyn
  import opened CondVar

  /** A blocked thread that a signal up to `upto` may wake. */
  predicate InRange(e: Kwe, upto: Seq) {
    !Banked(e) && LowerEq(e.lockseq, upto)
  }

  /** Nobody is blocked up to the number. */
  ghost predicate NobodyInRange(q: seq<Kwe>, upto: Seq) {
    forall i | 0 <= i < |q| :: !InRange(q[i], upto)
  }

  /** The first blocked thread at or above `from`; it is in range. */
  ghost predicate FirstEligible(q: seq<Kwe>, upto: Seq, from: Seq, i: nat) {
    && i < |q| && InRange(q[i], upto) && HigherEq(q[i].lockseq, from)
    && forall j | 0 <= j < i :: Banked(q[j]) || !HigherEq(q[j].lockseq, from)
  }

  /** Somebody is blocked in range, but only below `from`. */
  ghost predicate OnlyBelow(q: seq<Kwe>, upto: Seq, from: Seq) {
    && !NobodyInRange(q, upto)
    && forall i | 0 <= i < |q| :: InRange(q[i], upto) ==> !HigherEq(q[i].lockseq, from)
  }

  /** Everything in front of a thread in range is below the number, and what is in front
      of something banked is banked. */
  lemma InFrontOfRange(b: Seq, q: seq<Kwe>, upto: Seq, i: nat)
    requires StrictlySorted(q) && BankedFirst(q) && Windowed(b, q) && InWindow(b, upto)
    requires i < |q| && InRange(q[i], upto)
    ensures forall j | 0 <= j < i :: Lower(q[j].lockseq, upto)
    ensures forall j | i < j < |q| :: !Banked(q[j])
  {
    hide Lower;
    hide InWindow;
    WindowTransitive(b);
  }

  lemma FindsEligible(b: Seq, q: seq<Kwe>, k: nat, upto: Seq, from: Seq, best: Option<nat>, i: nat)
    requires StrictlySorted(q) && BankedFirst(q) && Windowed(b, q) && InWindow(b, upto)
    requires FirstEligible(q, upto, from, i) && k <= i
    ensures FindSignal(q, k, upto, from, best) == Some(i)
    decreases i - k
  {
    hide Lower;
    hide InWindow;
    OrderFacts();
    InFrontOfRange(b, q, upto, i);
    hide StrictlySorted;
    hide BankedFirst;
    if k < i {
      FindsEligible(b, q, k + 1, upto, from, if !Banked(q[k]) && best == None then Some(k) else best, i);
    }
  }

  lemma FindsBelow(b: Seq, q: seq<Kwe>, k: nat, upto: Seq, from: Seq, f: nat)
    requires StrictlySorted(q) && BankedFirst(q) && Windowed(b, q) && InWindow(b, upto)
    requires OnlyBelow(q, upto, from) && k <= |q|
    requires f < |q| && InRange(q[f], upto) && forall j | 0 <= j < f :: !InRange(q[j], upto)
    ensures FindSignal(q, k, upto, from, if f < k then Some(f) else None) == Some(f)
    decreases |q| - k
  {
    hide Lower;
    hide InWindow;
    OrderFacts();
    InFrontOfRange(b, q, upto, f);
    hide StrictlySorted;
    hide BankedFirst;
    if k < |q| && !(f < k && Higher(q[k].lockseq, upto)) {
      FindsBelow(b, q, k + 1, upto, from, f);
    }
  }

  /** With nobody in range, the banked element that a signal merges into: a broadcast
      that covers the number, or signals banked at it. */
  function MergesInto(q: seq<Kwe>, upto: Seq): Option<nat> {
    var k := FirstHigherEq(q, upto);
    if k < |q| && (q[k].state.Broadcast? || (q[k].state.Prepost? && q[k].lockseq == upto)) then Some(k) else None
  }

  lemma FindsNobody(q: seq<Kwe>, k: nat, upto: Seq, from: Seq)
    requires NobodyInRange(q, upto) && k <= FirstHigherEq(q, upto)
    ensures FindSignal(q, k, upto, from, None) == MergesInto(q, upto)
    decreases |q| - k
  {
    hide Lower;
    hide InWindow;
    OrderFacts();
    if k < FirstHigherEq(q, upto) {
      assert !HigherEq(q[k].lockseq, upto) && !InRange(q[k], upto);
      FindsNobody(q, k + 1, upto, from);
    } else if k < |q| {
      assert !InRange(q[k], upto);
    }
  }

  // ---------------------------------------------------------------- the signal

  /** A signal wakes one thread, the first one at or above `from`, and takes it and
      nothing else out of the queue. */
  lemma SignalWakesFirst(b: Seq, cv: Cv, upto: Seq, from: Seq, i: nat)
    requires QueueInv(cv) && Windowed(b, cv.q) && InWindow(b, upto)
    requires FirstEligible(cv.q, upto, from, i)
    ensures var (cv', broad, out) := SignalOne(cv, None, upto, from);
            && !broad && out == Quiet.(woken := [cv.q[i].state.thread])
            && cv' == cv.(q := cv.q[..i] + cv.q[i + 1..], s := Plus(cv.s, 1))
  {
    hide Lower;
    hide InWindow;
    hide Plus;
    OrderFacts();
    FindsEligible(b, cv.q, 0, upto, from, None, i);
    hide FindSignal;
  }

  /** It asks for a broadcast instead exactly when there is somebody in range and
      nobody in range is at or above `from`, and has then done nothing. */
  lemma SignalAsksForBroadcast(b: Seq, cv: Cv, upto: Seq, from: Seq)
    requires QueueInv(cv) && Windowed(b, cv.q) && InWindow(b, upto)
    ensures SignalOne(cv, None, upto, from).1 <==> OnlyBelow(cv.q, upto, from)
    ensures OnlyBelow(cv.q, upto, from) ==> SignalOne(cv, None, upto, from) == (cv, true, Quiet)
  {
    hide Lower;
    hide InWindow;
    hide Plus;
    OrderFacts();
    var q := cv.q;
    if NobodyInRange(q, upto) {
      FindsNobody(q, 0, upto, from);
    } else if OnlyBelow(q, upto, from) {
      var f := FirstInRange(q, upto);
      FindsBelow(b, q, 0, upto, from, f);
    } else {
      var i := Eligible(b, q, upto, from);
      SignalWakesFirst(b, cv, upto, from, i);
    }
  }

  lemma FirstInRange(q: seq<Kwe>, upto: Seq) returns (f: nat)
    requires !NobodyInRange(q, upto)
    ensures f < |q| && InRange(q[f], upto) && forall j | 0 <= j < f :: !InRange(q[j], upto)
  {
    f := 0;
    while !InRange(q[f], upto)
      invariant f < |q| && forall j | 0 <= j < f :: !InRange(q[j], upto)
      decreases |q| - f
    {
      f := f + 1;
    }
  }

  lemma Eligible(b: Seq, q: seq<Kwe>, upto: Seq, from: Seq) returns (i: nat)
    requires StrictlySorted(q) && BankedFirst(q) && Windowed(b, q) && InWindow(b, upto)
    requires !NobodyInRange(q, upto) && !OnlyBelow(q, upto, from)
    ensures FirstEligible(q, upto, from, i)
  {
    hide Lower;
    hide InWindow;
    var last :| 0 <= last < |q| && InRange(q[last], upto) && HigherEq(q[last].lockseq, from);
    InFrontOfRange(b, q, upto, last);
    i := 0;
    while Banked(q[i]) || !HigherEq(q[i].lockseq, from)
      invariant i <= last && forall j | 0 <= j < i :: Banked(q[j]) || !HigherEq(q[j].lockseq, from)
      decreases last - i
    {
      i := i + 1;
    }
  }

  /** With nobody in range it is banked.  It merges into a broadcast that covers the
      number, or adds one to the signals banked there. */
  lemma SignalIsMerged(cv: Cv, upto: Seq, from: Seq)
    requires NobodyInRange(cv.q, upto) && MergesInto(cv.q, upto).Some?
    ensures var k := MergesInto(cv.q, upto).value;
            SignalOne(cv, None, upto, from) ==
            (if cv.q[k].state.Broadcast? then cv
             else cv.(q := cv.q[k := Kwe(upto, Prepost(cv.q[k].state.count + 1))]), false, Quiet)
  {
    hide Lower;
    hide InWindow;
    FindsNobody(cv.q, 0, upto, from);
    hide FindSignal;
    hide NobodyInRange;
  }

  /** Or it is put in its place, as one. */
  lemma SignalIsInserted(b: Seq, cv: Cv, upto: Seq, from: Seq)
    requires QueueInv(cv) && Windowed(b, cv.q) && InWindow(b, upto)
    requires NobodyInRange(cv.q, upto) && MergesInto(cv.q, upto).None?
    ensures var k := FirstHigherEq(cv.q, upto);
            SignalOne(cv, None, upto, from) ==
            (cv.(q := cv.q[..k] + [Kwe(upto, Prepost(1))] + cv.q[k..], fake := cv.fake + 1), false, Quiet)
  {
    hide Lower;
    hide InWindow;
    FindsNobody(cv.q, 0, upto, from);
    PlaceOf(b, cv, upto);
    hide FindSignal;
    hide MergesInto;
    hide QueueInv;
    hide NobodyInRange;
    hide AtEnd;
  }

  lemma PlaceOf(b: Seq, cv: Cv, upto: Seq)
    requires QueueInv(cv) && Windowed(b, cv.q) && InWindow(b, upto)
    requires NobodyInRange(cv.q, upto) && MergesInto(cv.q, upto).None?
    ensures !AtEnd(cv.q, upto) && FirstHigher(cv.q, upto) == FirstHigherEq(cv.q, upto)
  {
    hide Lower;
    hide InWindow;
    OrderFacts();
    var q, k := cv.q, FirstHigherEq(cv.q, upto);
    AboveFirstHigher(b, q, upto);
    forall i | 0 <= i < |q|
      ensures q[i].lockseq != upto
    {
      assert !InRange(q[i], upto);
    }
  }

  /** A signal to a thread by name wakes that thread, and it alone, if it is in range
      and not below `from`; otherwise it asks for a broadcast. */
  lemma NamedSignal(cv: Cv, t: Thread, upto: Seq, from: Seq, i: nat)
    requires i < |cv.q| && cv.q[i].state == InWait(t) && forall j | 0 <= j < i :: cv.q[j].state != InWait(t)
    ensures SignalOne(cv, Some(t), upto, from) ==
            if LowerEq(cv.q[i].lockseq, upto) && HigherEq(cv.q[i].lockseq, from)
            then (cv.(q := cv.q[..i] + cv.q[i + 1..], s := Plus(cv.s, 1)), false, Quiet.(woken := [t]))
            else (cv, true, Quiet)
  {
    hide Lower;
    hide InWindow;
    hide Plus;
    OrderFacts();
    assert IndexOf(cv.q, t) == i;
    hide IndexOf;
  }

  lemma NamedButGone(cv: Cv, t: Thread, upto: Seq, from: Seq)
    requires forall i | 0 <= i < |cv.q| :: cv.q[i].state != InWait(t)
    ensures SignalOne(cv, Some(t), upto, from) == (cv, true, Quiet)
  {
    hide Lower;
    hide Plus;
    assert IndexOf(cv.q, t) == |cv.q|;
  }

  // ---------------------------------------------------------------- the whole call

  /** Seen from outside: on unbalanced words an accepted signal that finds an eligible
      thread wakes that one and no other, unless the words come to balance, and moves S
      by one. */
  lemma CallWakesOne(b: Seq, cv: Cv, w: Words, i: nat)
    requires QueueInv(cv) && Windowed(b, cv.q) && InWindow(b, w.l)
    requires var cv1 := Update(cv, w); cv1.l != cv1.s
    requires CvSignal(cv, w, None, false).1.err == Ok
    requires FirstEligible(cv.q, w.l, Plus(w.u, 1), i)
    ensures var (cv', out) := CvSignal(cv, w, None, false);
            var cv1 := Update(cv, w);
            && (out.cbit <==> cv1.l == Plus(cv1.s, 1))
            && (!out.cbit ==>
                  && out.woken == [cv.q[i].state.thread] && !out.blocked
                  && cv' == cv1.(q := cv.q[..i] + cv.q[i + 1..], s := Plus(cv1.s, 1)))
  {
    hide Lower;
    hide InWindow;
    hide Plus;
    hide FirstEligible;
    var cv1 := Update(cv, w);
    assert QueueInv(cv1) && cv1.q == cv.q;
    SignalWakesFirst(b, cv1, w.l, Plus(w.u, 1), i);
    hide SignalOne;
    hide QueueInv;
  }
}
