/**
 What the calls on a condition variable report and refuse, what clearing leaves, and
 what a call comes to that gives up the lock half-way and is left alone.
 */
module CondVarReports {
  import opened Options
  import opened SeqNum
  import opened Ksyn
  import opened CondVar
  import opened CondVarWakeups

  // ---------------------------------------------------------------- refusals

  /** A call whose words make no sense is refused and has no effect: a wait whose S is
      not below its L, a signal whose S is above its L, and one to nobody in particular
      whose range is empty. */
  lemma BadWords(cv: Cv, w: Words, t: Thread, target: Option<Thread>, broadcast: bool)
    ensures CvWait(cv, w, t).1.err == EINVAL <==> !Lower(w.s, w.l)
    ensures CvSignal(cv, w, target, broadcast).1.err == EINVAL <==>
            Lower(w.l, w.s) || (target.None? && Lower(w.l, Plus(w.u, 1)))
    ensures CvWait(cv, w, t).1.err == EINVAL ==> CvWait(cv, w, t) == (cv, Quiet.(err := EINVAL))
    ensures CvSignal(cv, w, target, broadcast).1.err == EINVAL ==>
              CvSignal(cv, w, target, broadcast) == (cv, Quiet.(err := EINVAL))
    ensures CvSignal(cv, w, target, broadcast).1.err in {Ok, EINVAL}
  {
    hide Lower;
    hide InWindow;
    hide Plus;
    OrderFacts();
    WaitErrors(cv, w, t);
    SignalErrors(cv, w, target, broadcast);
    hide CvWait;
    hide CvSignal;
  }

  lemma WaitErrors(cv: Cv, w: Words, t: Thread)
    ensures CvWait(cv, w, t).1.err == EINVAL <==> HigherEq(w.s, w.l)
    ensures HigherEq(w.s, w.l) ==> CvWait(cv, w, t) == (cv, Quiet.(err := EINVAL))
  {
    hide Lower;
    hide Plus;
    hide Broadcasted;
    hide BroadRefused;
    hide Inserted;
    hide FirstHigher;
    hide Waiters;
    hide Fakes;
  }

  lemma SignalErrors(cv: Cv, w: Words, target: Option<Thread>, broadcast: bool)
    ensures var out := CvSignal(cv, w, target, broadcast).1;
            out.err == if (target.None? && Higher(Plus(w.u, 1), w.l)) || Higher(w.s, w.l) then EINVAL else Ok
    ensures CvSignal(cv, w, target, broadcast).1.err == EINVAL ==>
              CvSignal(cv, w, target, broadcast) == (cv, Quiet.(err := EINVAL))
  {
    hide Lower;
    hide Plus;
    hide FindSignal;
    hide Bank;
    hide Removed;
    hide Broadcasted;
    hide BroadRefused;
    hide FirstHigher;
    hide Waiters;
    hide Fakes;
    FindSignalRange(Update(cv, w).q, 0, w.l, Plus(w.u, 1), None);
  }

  // ---------------------------------------------------------------- the two bits

  /** Nothing but banked elements is queued. */
  ghost predicate OnlyBanked(q: seq<Kwe>) {
    q != [] && forall i | 0 <= i < |q| :: Banked(q[i])
  }

  lemma {:induction false} FakesCountBanked(q: seq<Kwe>)
    ensures Fakes(q) <= |q|
    ensures Fakes(q) == |q| <==> forall i | 0 <= i < |q| :: Banked(q[i])
  {
    if q != [] {
      FakesCountBanked(q[1..]);
      assert forall i | 1 <= i < |q| :: q[i] == q[1..][i - 1];
    }
  }

  /** The C bit says that the words have balanced and the structure is cleaned up, the P
      bit that nothing but banked elements is left. */
  ghost predicate BitsAreRight(cv': Cv, out: Out) {
    && (out.cbit <==> cv'.zeroed) && (out.pbit <==> !out.cbit && OnlyBanked(cv'.q))
    && (out.cbit ==> cv'.l == cv'.u == cv'.s == 0)
  }

  lemma FixupReports(cv: Cv, out: Out)
    requires QueueInv(cv) && !cv.zeroed && !out.cbit && !out.pbit
    ensures BitsAreRight(Fixup(cv, out).0, Fixup(cv, out).1)
    ensures Fixup(cv, out).1.cbit <==> cv.l == cv.s
  {
    hide FirstHigher;
    hide Waiters;
    hide StrictlySorted;
    hide BankedFirst;
    FakesCountBanked(cv.q);
    hide Fakes;
  }

  lemma BroadEndReports(b: Seq, cv: Cv, upto: Seq)
    requires QueueInv(cv) && Windowed(b, cv.q) && InWindow(b, upto) && !cv.zeroed
    ensures var (cv', out) := BroadEnd(cv, upto, 0, Quiet); BitsAreRight(cv', out)
  {
    hide Lower;
    hide InWindow;
    BroadcastedInv(b, cv, upto);
    BroadcastedWords(cv, upto);
    var (cv1, woken) := Broadcasted(cv, upto);
    FixupReports(cv1.(s := Plus(cv1.s, 0 + |woken|)),
                 Quiet.(woken := woken, refused := BroadRefused(cv, upto)));
    hide Fixup;
    hide Broadcasted;
    hide BitsAreRight;
    hide QueueInv;
  }

  lemma OneKeepsQuiet(cv: Cv, target: Option<Thread>, upto: Seq, from: Seq)
    ensures var (cv', broad, out) := SignalOne(cv, target, upto, from);
            && !out.cbit && !out.pbit && cv'.zeroed == cv.zeroed
            && (broad ==> cv' == cv && out == Quiet)
  {
    hide Lower;
    hide Plus;
    hide FindSignal;
    hide Removed;
    assert Bank(cv, Kwe(upto, Prepost(1))).zeroed == cv.zeroed;
    hide Bank;
    FindSignalRange(cv.q, 0, upto, from, None);
  }

  lemma SignalReports(b: Seq, cv: Cv, w: Words, target: Option<Thread>, broadcast: bool)
    requires QueueInv(cv) && Windowed(b, cv.q) && InWindow(b, w.l) && (!cv.zeroed ==> InWindow(b, cv.l))
    requires CvSignal(cv, w, target, broadcast).1.err == Ok
    ensures var (cv', out) := CvSignal(cv, w, target, broadcast); BitsAreRight(cv', out)
  {
    hide Lower;
    hide InWindow;
    hide Plus;
    hide QueueInv;
    hide Windowed;
    hide SignalOne;
    hide Fixup;
    hide BroadEnd;
    hide BitsAreRight;
    UpdateInv(b, cv, w);
    var cv1, from := Update(cv, w), Plus(w.u, 1);
    SignalOneInv(b, cv1, target, w.l, from);
    OneKeepsQuiet(cv1, target, w.l, from);
    var (cv2, broad, out) := SignalOne(cv1, target, w.l, from);
    BroadEndReports(b, cv1, w.l);
    FixupReports(cv1, Quiet);
    FixupReports(cv2, out);
    hide Update;
  }

  lemma WaitReports(b: Seq, cv: Cv, w: Words, t: Thread)
    requires QueueInv(cv) && FitsIn(b, cv, Wait(w, t))
    ensures var (cv', out) := CvWait(cv, w, t);
            if out.err == Ok && !out.blocked then BitsAreRight(cv', out) else !out.cbit && !out.pbit
  {
    hide Lower;
    hide InWindow;
    hide Plus;
    hide Fixup;
    hide Consume;
    hide BitsAreRight;
    UpdateInv(b, cv, w);
    var cv1 := Update(cv, w);
    match FindPrepost(cv1.q, w.l)
    case None =>
    case Some(k) =>
      if Banked(cv1.q[k]) {
        ConsumeInv(b, cv1, w.l);
        ConsumeQuiet(cv1, k, w.l);
        var (cv2, out) := Consume(cv1, k, w.l);
        FixupReports(cv2.(s := Plus(cv2.s, 1)), out);
        FixupErr(cv2.(s := Plus(cv2.s, 1)), out);
      }
  }

  /** A wait that gives up leaves the queue, moves S by one, and reports the same way: the
      words balance exactly if S comes to L, and then nothing stays queued.  One that was
      granted in the meantime changes and reports nothing. */
  lemma TimeoutReports(cv: Cv, t: Thread)
    requires QueueInv(cv) && WordInv(cv)
    ensures var (cv', out) := CvTimeout(cv, t);
            var k := IndexOf(cv.q, t);
            if k == |cv.q| then cv' == cv && out == Quiet
            else
              && BitsAreRight(cv', out) && (out.cbit <==> cv.l == Plus(cv.s, 1))
              && (if out.cbit then cv'.q == [] && out.woken == Waiters(cv.q[..k] + cv.q[k + 1..])
                  else cv' == cv.(q := cv.q[..k] + cv.q[k + 1..], s := Plus(cv.s, 1)) && out.woken == [])
  {
    hide Lower;
    hide Plus;
    var k := IndexOf(cv.q, t);
    if k < |cv.q| {
      RemovedInv(cv, k);
      FakesCountBanked(Removed(cv.q, k));
    }
    hide IndexOf;
    hide Fakes;
    hide Waiters;
  }

  // ---------------------------------------------------------------- the flags of the model

  /** `refused` is reported exactly if an element was counted and not queued; `converted`
      exactly if turning a signal into a broadcast woke somebody; `leftover` exactly if
      something is queued after a clean-up. */
  lemma SignalRefusal(cv: Cv, target: Option<Thread>, upto: Seq, from: Seq)
    ensures var (cv', broad, out) := SignalOne(cv, target, upto, from);
            out.refused <==> cv'.fake > cv.fake && |cv'.q| == |cv.q|
  {
    hide Lower;
    hide Plus;
    hide FindSignal;
    hide FirstHigher;
    FindSignalRange(cv.q, 0, upto, from, None);
  }

  lemma BroadcastRefusal(cv: Cv, upto: Seq)
    ensures var cv1, cv' := FreeUpTo(cv, upto), Broadcasted(cv, upto).0;
            BroadRefused(cv, upto) <==> cv'.fake > cv1.fake && |cv'.q| == |cv1.q|
  {
    hide Lower;
    hide FirstHigher;
    hide Fakes;
    hide Waiters;
  }

  lemma ConversionFlags(cv: Cv, k: nat, c: Seq)
    requires k < |cv.q| && Banked(cv.q[k])
    ensures var (cv', out) := Consume(cv, k, c);
            var e := cv.q[k];
            && (out.converted <==> out.woken != [])
            && (out.refused <==> e.state.Prepost? && e.lockseq != c && BroadRefused(cv, e.lockseq))
  {
    hide Broadcasted;
    hide BroadRefused;
  }

  lemma LeftoverFlag(cv: Cv, out: Out)
    requires !out.leftover && !out.cbit
    ensures var (cv', out') := Fixup(cv, out);
            out'.leftover <==> out'.cbit && cv'.q != []
  {
    hide FirstHigher;
    hide Waiters;
    hide Fakes;
  }

  /** A wait that finds neither a banked element nor a place reports the refusal and
      changes nothing but the words. */
  lemma WaitRefusal(cv: Cv, w: Words, t: Thread)
    requires !HigherEq(w.s, w.l) && FindPrepost(cv.q, w.l).None?
    ensures var (cv', out) := CvWait(cv, w, t);
            && (out.refused <==> AtEnd(cv.q, w.l))
            && (out.refused ==> out.err == EBUSY && !out.blocked && cv' == Update(cv, w))
            && (!out.refused ==> out.blocked && |cv'.q| == |cv.q| + 1)
  {
    hide Lower;
    hide FindPrepost;
    assert Update(cv, w).q == cv.q;
    hide Update;
  }

  // ---------------------------------------------------------------- clearing

  /** Clearing up to a number, by a call or by the first scan of a broadcast, takes out
      what is at or below it and nothing else, and reports the threads among it. */
  lemma ClearsUpTo(b: Seq, cv: Cv, upto: Seq)
    requires QueueInv(cv) && Windowed(b, cv.q) && InWindow(b, upto)
    ensures var (cv', out) := Step(cv, Clear(upto));
            && Step(cv, BroadScan(upto)) == (cv', out)
            && (forall e | e in cv.q :: e in cv'.q <==> Higher(e.lockseq, upto))
            && (forall e | e in cv'.q :: e in cv.q)
            && cv'.l == cv.l && cv'.u == cv.u && cv'.s == cv.s && cv'.zeroed == cv.zeroed
            && out == Quiet.(woken := Waiters(cv.q[..|cv.q| - |cv'.q|]))
  {
    hide Lower;
    hide InWindow;
    hide Waiters;
    hide Fakes;
    var k := FirstHigher(cv.q, upto);
    CutAt(b, cv.q, upto);
    hide FirstHigher;
    hide QueueInv;
    assert |cv.q| - |cv.q[k..]| == k;
  }

  lemma CutAt(b: Seq, q: seq<Kwe>, upto: Seq)
    requires StrictlySorted(q) && Windowed(b, q) && InWindow(b, upto)
    ensures var rest := q[FirstHigher(q, upto)..];
            && (forall e | e in q :: e in rest <==> Higher(e.lockseq, upto))
            && forall e | e in rest :: e in q
  {
    hide Lower;
    hide InWindow;
    AboveFirstHigher(b, q, upto);
    hide StrictlySorted;
    var k := FirstHigher(q, upto);
    forall e | e in q
      ensures e in q[k..] <==> Higher(e.lockseq, upto)
    {
      var i :| 0 <= i < |q| && q[i] == e;
      if Higher(e.lockseq, upto) {
        assert q[k..][i - k] == e;
      }
    }
  }

  // ---------------------------------------------------------------- calls in two halves

  /** A signal that gives up the lock to allocate and then scans again comes to the
      whole call, if nothing happens in between. */
  lemma SplitSignal(cv: Cv, w: Words)
    requires CvSignal(cv, w, None, false).1.err == Ok && Update(cv, w).l != Update(cv, w).s
    ensures Step(Step(cv, SignalScan(w)).0, SignalRescan(w.l, Plus(w.u, 1))) == CvSignal(cv, w, None, false)
  {
    hide Lower;
    hide SignalOne;
    hide SignalEnd;
    hide Plus;
  }

  /** So does a broadcast, with the threads of both scans. */
  lemma SplitBroadcast(b: Seq, cv: Cv, w: Words)
    requires QueueInv(cv) && Windowed(b, cv.q) && InWindow(b, w.l)
    requires CvSignal(cv, w, None, true).1.err == Ok && Update(cv, w).l != Update(cv, w).s
    ensures var (cv1, out1) := Step(Step(cv, SignalScan(w)).0, BroadScan(w.l));
            var (cv2, out2) := Step(cv1, BroadRescan(w.l, |out1.woken|));
            var (cv', out) := CvSignal(cv, w, None, true);
            cv2 == cv' && out2 == out.(woken := out2.woken) && out.woken == out1.woken + out2.woken
  {
    hide Lower;
    hide Plus;
    var cv0 := Update(cv, w);
    assert QueueInv(cv0) && cv0.q == cv.q;
    BroadcastTwice(b, cv0, w.l);
    SplitSteps(cv, w);
    hide *;
  }

  /** The steps of both ways, unfolded. */
  lemma SplitSteps(cv: Cv, w: Words)
    requires CvSignal(cv, w, None, true).1.err == Ok
    ensures var cv0 := Update(cv, w);
            && Step(cv, SignalScan(w)).0 == cv0
            && Step(cv0, BroadScan(w.l)) ==
               (FreeUpTo(cv0, w.l), Quiet.(woken := Waiters(cv0.q[..FirstHigher(cv0.q, w.l)])))
            && CvSignal(cv, w, None, true) == BroadEnd(cv0, w.l, 0, Quiet)
    ensures forall c, n: nat :: Step(c, BroadRescan(w.l, n)) == BroadEnd(c, w.l, n, Quiet)
  {
    hide Lower;
    hide Plus;
    hide BroadEnd;
    hide Waiters;
    hide FirstHigher;
    hide Fakes;
    hide Update;
  }

  lemma BroadcastTwice(b: Seq, cv: Cv, upto: Seq)
    requires QueueInv(cv) && Windowed(b, cv.q) && InWindow(b, upto)
    ensures var woken := Waiters(cv.q[..FirstHigher(cv.q, upto)]);
            var (cv2, out2) := BroadEnd(FreeUpTo(cv, upto), upto, |woken|, Quiet);
            var (cv', out) := BroadEnd(cv, upto, 0, Quiet);
            cv2 == cv' && out2 == out.(woken := out2.woken) && out.woken == woken + out2.woken
  {
    hide Lower;
    hide InWindow;
    hide Plus;
    ScanTwice(b, cv, upto);
    var cv1, k := FreeUpTo(cv, upto), FirstHigher(cv.q, upto);
    var woken := Waiters(cv.q[..k]);
    hide FirstHigher;
    assert cv1.q[..0] == [] && cv1.q[0..] == cv1.q && Waiters([]) == [] && Fakes([]) == 0;
    assert DropFirst(cv1, 0) == cv1;
    hide Fakes;
    hide QueueInv;
    assert Broadcasted(cv1, upto) == (Broadcasted(cv, upto).0, []) && Broadcasted(cv, upto).1 == woken;
    assert BroadRefused(cv1, upto) == BroadRefused(cv, upto);
    hide Waiters;
    hide Broadcasted;
    hide BroadRefused;
    var c := Broadcasted(cv, upto).0;
    FixupAppends(c.(s := Plus(c.s, |woken|)), Quiet.(refused := BroadRefused(cv, upto)), woken);
    hide Fixup;
  }

  lemma FixupAppends(cv: Cv, out: Out, woken: seq<Thread>)
    requires out.woken == []
    ensures var (cv1, out1) := Fixup(cv, out);
            var (cv2, out2) := Fixup(cv, out.(woken := woken));
            cv1 == cv2 && out1 == out2.(woken := out1.woken) && out2.woken == woken + out1.woken
  {
    hide FirstHigher;
    hide Waiters;
    hide Fakes;
  }

  lemma ScanTwice(b: Seq, cv: Cv, upto: Seq)
    requires QueueInv(cv) && Windowed(b, cv.q) && InWindow(b, upto)
    ensures FirstHigher(FreeUpTo(cv, upto).q, upto) == 0
  {
    hide Lower;
    hide InWindow;
    AboveFirstHigher(b, cv.q, upto);
  }
}
