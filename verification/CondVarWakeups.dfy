/**
 No wake-up of a condition variable is lost: a signal that finds nobody to wake is
 banked, and what is banked is found by the thread it was meant for.
 */
module CondVarWakeups {
  import opened Options
  import opened SeqNum
  import opened Ksyn
  import opened CondVar

  /** A banked element is at or above `c`: a thread that arrives to wait at `c`
      must not block. */
  ghost predicate Covered(q: seq<Kwe>, c: Seq) {
    exists i :: 0 <= i < |q| && Banked(q[i]) && HigherEq(q[i].lockseq, c)
  }

  /** A banked element good for a wait at `c`: a broadcast at or above `c`, for any
      number of them; signals banked at `c` itself, if there are at least `n`. */
  predicate Serves(e: Kwe, c: Seq, n: nat) {
    match e.state
    case InWait(_) => false
    case Broadcast => HigherEq(e.lockseq, c)
    case Prepost(count) => e.lockseq == c && 0 < n <= count
  }

  /** The queue serves `n` waits at `c`; with `n == 0`, any number of them. */
  ghost predicate Served(q: seq<Kwe>, c: Seq, n: nat) {
    exists i :: 0 <= i < |q| && Serves(q[i], c, n)
  }

  ghost predicate WaitsAt(q: seq<Kwe>, c: Seq) {
    exists i :: 0 <= i < |q| && !Banked(q[i]) && q[i].lockseq == c
  }

  /** No thread sleeps at or below a banked signal. */
  lemma NobodySleepsBelowBanked(cv: Cv, i: nat, j: nat)
    requires QueueInv(cv) && i < |cv.q| && j < |cv.q|
    requires Banked(cv.q[i]) && !Banked(cv.q[j])
    ensures Lower(cv.q[i].lockseq, cv.q[j].lockseq)
  {
    hide Lower;
    hide InWindow;
    assert i != j;
    if j < i {
      assert false;
    }
  }

  lemma PrepostFound(b: Seq, q: seq<Kwe>, c: Seq)
    requires StrictlySorted(q) && BankedFirst(q) && Windowed(b, q) && InWindow(b, c)
    ensures match FindPrepost(q, c)
            case None => !WaitsAt(q, c) && !Covered(q, c)
            case Some(k) => if Banked(q[k]) then Covered(q, c) && !WaitsAt(q, c) else WaitsAt(q, c) && !Covered(q, c)
  {
    hide Lower;
    hide InWindow;
    OrderFacts();
    AboveFirstHigher(b, q, c);
    var k := FirstHigherEq(q, c);
    if Covered(q, c) && k < |q| {
      var i :| 0 <= i < |q| && Banked(q[i]) && HigherEq(q[i].lockseq, c);
      assert k < i ==> Banked(q[k]);
    }
  }

  /** Exactly when `cvwait` blocks, when it fails, and when it returns at once. */
  lemma WaitOutcome(b: Seq, cv: Cv, w: Words, t: Thread)
    requires QueueInv(cv) && FitsIn(b, cv, Wait(w, t)) && !HigherEq(w.s, w.l)
    ensures var (cv', out) := CvWait(cv, w, t);
            && (out.err == EBUSY <==> WaitsAt(cv.q, w.l))
            && (out.blocked <==> !WaitsAt(cv.q, w.l) && !Covered(cv.q, w.l))
            && (out.err == Ok || out.err == EBUSY)
            && (out.blocked ==> cv'.q == Inserted(cv.q, Kwe(w.l, InWait(t))))
  {
    hide Lower;
    hide InWindow;
    UpdateInv(b, cv, w);
    PrepostFound(b, cv.q, w.l);
    if FindPrepost(cv.q, w.l) == None {
      WaiterFindsPlace(b, cv.q, w.l, t);
      InsertInv(b, Update(cv, w), Kwe(w.l, InWait(t)));
    }
  }

  lemma CoveredBelow(b: Seq, q: seq<Kwe>, c: Seq, d: Seq)
    requires Windowed(b, q) && InWindow(b, c) && InWindow(b, d)
    requires Covered(q, d) && LowerEq(c, d)
    ensures Covered(q, c)
  {
    hide Lower;
    hide InWindow;
    var i :| 0 <= i < |q| && Banked(q[i]) && HigherEq(q[i].lockseq, d);
    LowerEqTransitive(b, c, d, q[i].lockseq);
  }

  lemma ServedIsCovered(q: seq<Kwe>, c: Seq, n: nat)
    requires Served(q, c, n)
    ensures Covered(q, c)
  {
    hide Lower;
    hide InWindow;
    var i :| 0 <= i < |q| && Serves(q[i], c, n);
    assert Banked(q[i]) && HigherEq(q[i].lockseq, c);
  }

  /** The queue at the end of a signal: cut short only when the words balance. */
  lemma SignalEndShape(cv: Cv, broadcast: bool, upto: Seq, out: Out)
    requires !out.cbit
    ensures var q := if broadcast then Broadcasted(cv, upto).0.q else cv.q;
            var (cv', out') := SignalEnd(cv, broadcast, upto, out);
            if out'.cbit then cv'.q == q[FirstHigher(q, cv.l)..]
            else cv'.q == q && out'.woken == (if broadcast then Broadcasted(cv, upto).1 else out.woken)
  {
    hide Fixup;
    hide BroadEnd;
    hide Broadcasted;
    hide FirstHigher;
    if broadcast {
      BroadEndShape(cv, upto, 0, out);
    } else {
      FixupShape(cv, out);
    }
  }

  lemma BroadEndShape(cv: Cv, upto: Seq, already: nat, out: Out)
    requires !out.cbit
    ensures var q := Broadcasted(cv, upto).0.q;
            var (cv', out') := BroadEnd(cv, upto, already, out);
            if out'.cbit then cv'.q == q[FirstHigher(q, cv.l)..]
            else cv'.q == q && out'.woken == Broadcasted(cv, upto).1
  {
    hide Fixup;
    hide Broadcasted;
    hide FirstHigher;
    hide BroadRefused;
    hide Plus;
    BroadcastedWords(cv, upto);
    var (cv1, woken) := Broadcasted(cv, upto);
    FixupShape(cv1.(s := Plus(cv1.s, already + |woken|)), out.(woken := woken, refused := BroadRefused(cv, upto)));
  }

  lemma FixupShape(cv: Cv, out: Out)
    requires !out.cbit
    ensures var (cv', out') := Fixup(cv, out);
            if out'.cbit then cv'.q == cv.q[FirstHigher(cv.q, cv.l)..] else cv'.q == cv.q && out'.woken == out.woken
  {
    hide FirstHigher;
    hide Waiters;
    hide Fakes;
  }

  /** The step finds L equal to S. */
  predicate FindsBalanced(cv: Cv, ev: Event) {
    if ev.Signal? || ev.Broad? || ev.Wait? then Update(cv, ev.w).l == Update(cv, ev.w).s
    else (ev.SignalRescan? || ev.BroadRescan?) && cv.l == cv.s
  }

  lemma ServedAfterReplacement(q: seq<Kwe>, k: nat, st: KweState, c: Seq, n: nat)
    requires k < |q| && Served(q, c, n) && !Serves(q[k], c, n)
    ensures Served(q[k := q[k].(state := st)], c, n)
  {
    hide Lower;
    hide InWindow;
    var i :| 0 <= i < |q| && Serves(q[i], c, n);
    assert q[k := q[k].(state := st)][i] == q[i];
  }

  lemma ServedAfterBanking(q: seq<Kwe>, k: nat, c: Seq, n: nat)
    requires k < |q| && q[k].state.Prepost? && Served(q, c, n)
    ensures Served(q[k := q[k].(state := Prepost(q[k].state.count + 1))], c, n)
  {
    hide Lower;
    hide InWindow;
    var i :| 0 <= i < |q| && Serves(q[i], c, n);
    assert Serves(q[k := q[k].(state := Prepost(q[k].state.count + 1))][i], c, n);
  }

  lemma ServedAfterRemoval(q: seq<Kwe>, k: nat, c: Seq, n: nat)
    requires k < |q| && !Serves(q[k], c, n) && Served(q, c, n)
    ensures Served(Removed(q, k), c, n)
  {
    hide Lower;
    hide InWindow;
    var i :| 0 <= i < |q| && Serves(q[i], c, n);
    assert Removed(q, k)[if i < k then i else i - 1] == q[i];
  }

  lemma ServedAfterInsertion(q: seq<Kwe>, e: Kwe, c: Seq, n: nat)
    requires Served(q, c, n)
    ensures Served(Inserted(q, e), c, n)
  {
    hide Lower;
    hide InWindow;
    var i :| 0 <= i < |q| && Serves(q[i], c, n);
    assert Inserted(q, e)[if i < FirstHigher(q, e.lockseq) then i else i + 1] == q[i];
  }

  lemma ServedAfterBroadcast(b: Seq, cv: Cv, upto: Seq, c: Seq, n: nat)
    requires QueueInv(cv) && Windowed(b, cv.q) && InWindow(b, upto) && InWindow(b, c)
    requires Served(cv.q, c, n) && cv.l != cv.s
    ensures Served(Broadcasted(cv, upto).0.q, c, n)
  {
    hide Lower;
    hide InWindow;
    hide QueueInv;
    hide Broadcasted;
    BroadcastedShape(b, cv, upto);
    var i :| 0 <= i < |cv.q| && Serves(cv.q[i], c, n);
    var k, q := FirstHigher(cv.q, upto), Broadcasted(cv, upto).0.q;
    if i < k {
      OrderFacts();
      LowerEqTransitive(b, c, cv.q[i].lockseq, upto);
      assert Serves(q[0], c, n);
    } else {
      assert q[1 + i - k] == cv.q[i];
    }
  }

  /** Dropping what is banked below `c`. */
  lemma ServedAfterDrop(b: Seq, q: seq<Kwe>, upto: Seq, c: Seq, n: nat)
    requires Windowed(b, q) && InWindow(b, upto) && InWindow(b, c) && Lower(upto, c)
    requires Served(q, c, n)
    ensures Served(q[FirstHigher(q, upto)..], c, n)
  {
    hide Lower;
    hide InWindow;
    OrderFacts();
    WindowTransitive(b);
    var i :| 0 <= i < |q| && Serves(q[i], c, n);
    var k := FirstHigher(q, upto);
    assert q[k..][i - k] == q[i];
  }

  lemma FewerServed(q: seq<Kwe>, c: Seq, n: nat)
    requires Served(q, c, n + 1) && n > 0
    ensures Served(q, c, n)
  {
    hide Lower;
    hide InWindow;
    var i :| 0 <= i < |q| && Serves(q[i], c, n + 1);
    assert Serves(q[i], c, n);
  }

  /** The step is a wait at `c` itself that returns at once. */
  predicate Spends(cv: Cv, ev: Event, c: Seq) {
    ev.Wait? && ev.w.l == c && var out := Step(cv, ev).1; out.err == Ok && !out.blocked
  }

  /** What is left for waits at `c` after the step. */
  function Remaining(cv: Cv, ev: Event, c: Seq, n: nat): nat {
    if n > 0 && Spends(cv, ev, c) then n - 1 else n
  }

  /** The wait takes from the element it found. */
  lemma ServedAfterConsume(b: Seq, cv: Cv, k: nat, d: Seq, c: Seq, n: nat)
    requires QueueInv(cv) && Windowed(b, cv.q) && InWindow(b, d) && InWindow(b, c)
    requires k < |cv.q| && Banked(cv.q[k]) && Served(cv.q, c, n) && cv.l != cv.s
    ensures var q' := Consume(cv, k, d).0.q;
            if n > 0 && d == c then n == 1 || Served(q', c, n - 1) else Served(q', c, n)
  {
    hide Lower;
    hide InWindow;
    hide QueueInv;
    hide Served;
    var e := cv.q[k];
    if n > 1 {
      FewerServed(cv.q, c, n - 1);
    }
    if e.state.Broadcast? {
    } else if e.lockseq != d {
      ServedAfterBroadcast(b, cv, e.lockseq, c, n);
      if n > 1 {
        ServedAfterBroadcast(b, cv, e.lockseq, c, n - 1);
      }
    } else if d != c || n == 0 {
      if e.state.count == 1 {
        ServedAfterRemoval(cv.q, k, c, n);
      } else {
        ServedAfterReplacement(cv.q, k, Prepost(e.state.count - 1), c, n);
      }
    } else if n > 1 {
      ServedAfterTaking(cv.q, k, c, n);
    }
  }

  lemma ServedAfterTaking(q: seq<Kwe>, k: nat, c: Seq, n: nat)
    requires k < |q| && q[k].state.Prepost? && q[k].lockseq == c && Served(q, c, n) && n > 1
    ensures Served(if q[k].state.count == 1 then Removed(q, k)
                   else q[k := q[k].(state := Prepost(q[k].state.count - 1))], c, n - 1)
  {
    hide Lower;
    hide InWindow;
    if Serves(q[k], c, n) {
      assert Serves(q[k := q[k].(state := Prepost(q[k].state.count - 1))][k], c, n - 1);
    } else {
      var i :| 0 <= i < |q| && Serves(q[i], c, n);
      assert Serves(q[i], c, n - 1);
      if q[k].state.count == 1 {
        assert Removed(q, k)[if i < k then i else i - 1] == q[i];
      } else {
        assert q[k := q[k].(state := Prepost(q[k].state.count - 1))][i] == q[i];
      }
    }
  }

  lemma ServedAfterWait(b: Seq, cv: Cv, w: Words, t: Thread, c: Seq, n: nat)
    requires QueueInv(cv) && FitsIn(b, cv, Wait(w, t)) && InWindow(b, c)
    requires Served(cv.q, c, n) && Update(cv, w).l != Update(cv, w).s && !CvWait(cv, w, t).1.cbit
    requires !(n == 1 && Spends(cv, Wait(w, t), c))
    ensures Served(CvWait(cv, w, t).0.q, c, Remaining(cv, Wait(w, t), c, n))
  {
    hide Lower;
    hide InWindow;
    hide Plus;
    hide Served;
    hide Windowed;
    hide Consume;
    hide Fixup;
    UpdateInv(b, cv, w);
    var cv1 := Update(cv, w);
    hide QueueInv;
    if !HigherEq(w.s, w.l) {
      match FindPrepost(cv1.q, w.l)
      case None =>
        ServedAfterInsertion(cv.q, Kwe(w.l, InWait(t)), c, n);
      case Some(k) =>
        if Banked(cv1.q[k]) {
          ServedAfterConsume(b, cv1, k, w.l, c, n);
          ConsumeQuiet(cv1, k, w.l);
          var (cv2, out) := Consume(cv1, k, w.l);
          FixupShape(cv2.(s := Plus(cv2.s, 1)), out);
          FixupErr(cv2.(s := Plus(cv2.s, 1)), out);
        }
    }
  }

  lemma ConsumeQuiet(cv: Cv, k: nat, c: Seq)
    requires k < |cv.q| && Banked(cv.q[k])
    ensures var out := Consume(cv, k, c).1; out.err == Ok && !out.blocked && !out.cbit && !out.pbit
  {
    hide Broadcasted;
    hide BroadRefused;
  }

  lemma FixupErr(cv: Cv, out: Out)
    ensures var out' := Fixup(cv, out).1; out'.err == out.err && out'.blocked == out.blocked
  {
    hide FirstHigher;
    hide Waiters;
    hide Fakes;
  }

  lemma ServedAfterChosen(cv: Cv, k: Option<nat>, upto: Seq, from: Seq, c: Seq, n: nat)
    requires Served(cv.q, c, n) && (k.Some? ==> k.value < |cv.q|)
    ensures var (cv', broad, out) := SignalChosen(cv, k, upto, from);
            Served(cv'.q, c, n) && !out.cbit && (broad ==> cv' == cv)
  {
    hide Lower;
    hide InWindow;
    hide Served;
    if k.None? {
      ServedAfterInsertion(cv.q, Kwe(upto, Prepost(1)), c, n);
    } else {
      match cv.q[k.value].state
      case InWait(_) => ServedAfterRemoval(cv.q, k.value, c, n);
      case Prepost(_) => ServedAfterBanking(cv.q, k.value, c, n);
      case Broadcast =>
    }
  }

  lemma ServedAfterSignalOne(cv: Cv, target: Option<Thread>, upto: Seq, from: Seq, c: Seq, n: nat)
    requires Served(cv.q, c, n)
    ensures var (cv', broad, out) := SignalOne(cv, target, upto, from);
            Served(cv'.q, c, n) && !out.cbit && (broad ==> cv' == cv)
  {
    hide Lower;
    hide InWindow;
    hide Served;
    hide SignalChosen;
    FindSignalRange(cv.q, 0, upto, from, None);
    var k := if target.Some? then Some(IndexOf(cv.q, target.value)) else FindSignal(cv.q, 0, upto, from, None);
    if k.None? || k.value < |cv.q| {
      ServedAfterChosen(cv, k, upto, from, c, n);
    }
  }

  lemma ServedAfterSignal(b: Seq, cv: Cv, w: Words, target: Option<Thread>, broadcast: bool, c: Seq, n: nat)
    requires QueueInv(cv) && Windowed(b, cv.q) && InWindow(b, w.l) && (!cv.zeroed ==> InWindow(b, cv.l))
    requires InWindow(b, c) && Served(cv.q, c, n)
    requires Update(cv, w).l != Update(cv, w).s
    ensures var (cv', out) := CvSignal(cv, w, target, broadcast);
            Served(cv'.q, c, n) || out.cbit
  {
    hide Served;
    hide SignalOne;
    hide SignalEnd;
    hide Broadcasted;
    hide FirstHigher;
    hide QueueInv;
    hide Windowed;
    hide Plus;
    hide Update;
    hide Lower;
    hide InWindow;
    UpdateInv(b, cv, w);
    var cv1, from := Update(cv, w), Plus(w.u, 1);
    ServedAfterBroadcast(b, cv1, w.l, c, n);
    SignalEndShape(cv1, broadcast, w.l, Quiet);
    ServedAfterSignalOne(cv1, target, w.l, from, c, n);
    var (cv2, broad, out) := SignalOne(cv1, target, w.l, from);
    SignalEndShape(cv2, broad, w.l, out);
  }

  lemma ServedAfterRescan(b: Seq, cv: Cv, ev: Event, c: Seq, n: nat)
    requires QueueInv(cv) && FitsIn(b, cv, ev) && InWindow(b, c) && Served(cv.q, c, n)
    requires (ev.SignalRescan? || ev.BroadRescan?) && cv.l != cv.s
    ensures var (cv', out) := Step(cv, ev);
            Served(cv'.q, c, n) || out.cbit
  {
    hide Served;
    hide SignalOne;
    hide SignalEnd;
    hide BroadEnd;
    hide Broadcasted;
    hide FirstHigher;
    hide QueueInv;
    hide Windowed;
    hide Lower;
    hide InWindow;
    ServedAfterBroadcast(b, cv, ev.upto, c, n);
    if ev.SignalRescan? {
      ServedAfterSignalOne(cv, None, ev.upto, ev.from, c, n);
      var (cv2, broad, out) := SignalOne(cv, None, ev.upto, ev.from);
      SignalEndShape(cv2, broad, ev.upto, out);
    } else {
      BroadEndShape(cv, ev.upto, ev.already, Quiet);
    }
  }

  /** A single signal wakes somebody, asks for a broadcast, or adds one to what is
      banked at its number. */
  lemma SignalOneNotLost(b: Seq, cv: Cv, target: Option<Thread>, upto: Seq, from: Seq, n: nat)
    requires QueueInv(cv) && Windowed(b, cv.q) && InWindow(b, upto)
    requires n == 0 || Served(cv.q, upto, n)
    ensures var (cv', broad, out) := SignalOne(cv, target, upto, from);
            && (broad || out.woken != [] || Served(cv'.q, upto, n + 1))
            && !out.cbit && (broad ==> cv' == cv)
  {
    hide Lower;
    hide InWindow;
    hide Served;
    if target.None? {
      FindSignalSpec(b, cv.q, 0, upto, from, None);
      var k := FindSignal(cv.q, 0, upto, from, None);
      if n == 0 {
        BankedIsServed(b, cv, k, upto, from);
      } else {
        ChosenAddsOne(cv, k, upto, from, n);
      }
    }
  }

  lemma ChosenAddsOne(cv: Cv, k: Option<nat>, upto: Seq, from: Seq, n: nat)
    requires QueueInv(cv) && n > 0 && Served(cv.q, upto, n)
    requires match k
             case Some(k) => k < |cv.q| && (Banked(cv.q[k]) ==>
               HigherEq(cv.q[k].lockseq, upto) && (cv.q[k].state.Prepost? ==> cv.q[k].lockseq == upto))
             case None => MayInsert(cv.q, Kwe(upto, Prepost(1)))
    ensures var (cv', broad, out) := SignalChosen(cv, k, upto, from);
            broad || out.woken != [] || Served(cv'.q, upto, n + 1)
  {
    hide Lower;
    hide InWindow;
    OrderFacts();
    var i :| 0 <= i < |cv.q| && Serves(cv.q[i], upto, n);
    if cv.q[i].state.Broadcast? {
      assert Serves(cv.q[i], upto, n + 1);
      hide StrictlySorted;
      hide Served;
      ServedAfterChosen(cv, k, upto, from, upto, n + 1);
    } else if Banked(cv.q[k.value]) {
      var q' := SignalChosen(cv, k, upto, from).0.q;
      assert cv.q[k.value].state.Prepost? ==> k.value == i;
      assert Serves(q'[k.value], upto, n + 1);
    }
  }

  lemma BankedIsServed(b: Seq, cv: Cv, k: Option<nat>, upto: Seq, from: Seq)
    requires QueueInv(cv) && Windowed(b, cv.q) && InWindow(b, upto)
    requires match k
             case Some(k) => k < |cv.q| && (Banked(cv.q[k]) ==>
               HigherEq(cv.q[k].lockseq, upto) && (cv.q[k].state.Prepost? ==> cv.q[k].lockseq == upto))
             case None => MayInsert(cv.q, Kwe(upto, Prepost(1)))
    ensures var (cv', broad, out) := SignalChosen(cv, k, upto, from);
            broad || out.woken != [] || Served(cv'.q, upto, 1)
  {
    hide Lower;
    hide InWindow;
    var q' := SignalChosen(cv, k, upto, from).0.q;
    if k.None? {
      var e := Kwe(upto, Prepost(1));
      InsertInv(b, cv, e);
      assert q'[FirstHigher(cv.q, upto)] == e && Serves(e, upto, 1);
    } else if Banked(cv.q[k.value]) {
      assert Serves(q'[k.value], upto, 1);
    }
  }

  /** An accepted signal or broadcast on an unbalanced condition variable: a signal
      wakes a thread, or adds one to what is banked at its upper number, or finds the
      condition variable balanced and cleared; a broadcast is banked for any number of
      waits, unless the words balance, and leaves nobody asleep in its range. */
  lemma SignalNotLost(b: Seq, cv: Cv, w: Words, target: Option<Thread>, broadcast: bool, n: nat)
    requires QueueInv(cv) && Windowed(b, cv.q) && InWindow(b, w.l) && (!cv.zeroed ==> InWindow(b, cv.l))
    requires CvSignal(cv, w, target, broadcast).1.err == Ok
    requires Update(cv, w).l != Update(cv, w).s
    requires n == 0 || Served(cv.q, w.l, n)
    ensures var (cv', out) := CvSignal(cv, w, target, broadcast);
            && (broadcast ==> out.cbit || Served(cv'.q, w.l, 0))
            && (out.woken != [] || out.cbit || Served(cv'.q, w.l, n + 1))
            && (broadcast ==> forall i | 0 <= i < |cv'.q| :: !Banked(cv'.q[i]) ==> Higher(cv'.q[i].lockseq, w.l))
  {
    hide Lower;
    hide InWindow;
    hide Plus;
    hide QueueInv;
    hide Windowed;
    hide SignalOne;
    hide SignalEnd;
    hide Served;
    hide Update;
    UpdateInv(b, cv, w);
    var cv1, from := Update(cv, w), Plus(w.u, 1);
    if broadcast {
      BroadcastEnd(b, cv1, w.l, Quiet, n);
    } else {
      SignalOneInv(b, cv1, target, w.l, from);
      SignalOneNotLost(b, cv1, target, w.l, from, n);
      var (cv2, broad, out) := SignalOne(cv1, target, w.l, from);
      if broad {
        BroadcastEnd(b, cv1, w.l, out, n);
      } else {
        SignalEndShape(cv2, broad, w.l, out);
      }
    }
  }

  lemma BroadcastEnd(b: Seq, cv: Cv, upto: Seq, out: Out, n: nat)
    requires QueueInv(cv) && Windowed(b, cv.q) && InWindow(b, upto) && cv.l != cv.s && !out.cbit
    ensures var (cv', out') := SignalEnd(cv, true, upto, out);
            && (out'.cbit || (Served(cv'.q, upto, 0) && Served(cv'.q, upto, n + 1)))
            && forall i | 0 <= i < |cv'.q| :: !Banked(cv'.q[i]) ==> Higher(cv'.q[i].lockseq, upto)
  {
    hide Lower;
    hide InWindow;
    hide QueueInv;
    hide Windowed;
    hide Served;
    SignalEndShape(cv, true, upto, out);
    BroadcastedShape(b, cv, upto);
    hide Broadcasted;
    hide SignalEnd;
    FrontServes(Broadcasted(cv, upto).0.q, upto, n);
  }

  lemma FrontServes(q: seq<Kwe>, upto: Seq, n: nat)
    requires q != [] && q[0] == Kwe(upto, Broadcast)
    ensures Served(q, upto, 0) && Served(q, upto, n + 1)
  {
    assert Serves(q[0], upto, 0) && Serves(q[0], upto, n + 1);
  }

  /** The step does not drop, clear or balance away what is banked for `c`, and its
      numbers fit a window together with `c`.  Waits that use up what is banked are
      allowed. */
  ghost predicate Calm(b: Seq, cv: Cv, ev: Event, c: Seq) {
    && FitsIn(b, cv, ev) && Windowed(b, cv.q) && InWindow(b, c)
    && (ev.Clear? || ev.BroadScan? ==> InWindow(b, ev.upto) && Lower(ev.upto, c))
    && !Step(cv, ev).1.cbit && !FindsBalanced(cv, ev)
  }

  /** What is banked for waits at `c` stays, through any calm step: a broadcast for
      good, a number of signals up to the one that the step may take. */
  lemma CoverPersists(b: Seq, cv: Cv, ev: Event, c: Seq, n: nat)
    requires QueueInv(cv) && Calm(b, cv, ev, c)
    requires Served(cv.q, c, n) && !(n == 1 && Spends(cv, ev, c))
    ensures Served(Step(cv, ev).0.q, c, Remaining(cv, ev, c, n))
  {
    hide Lower;
    hide InWindow;
    hide Plus;
    hide Served;
    hide StrictlySorted;
    hide BankedFirst;
    hide CvWait;
    hide CvSignal;
    match ev
    case Wait(w, t) => ServedAfterWait(b, cv, w, t, c, n);
    case Signal(w, target) => ServedAfterSignal(b, cv, w, target, false, c, n);
    case Broad(w) => ServedAfterSignal(b, cv, w, None, true, c, n);
    case Clear(upto) => ServedAfterDrop(b, cv.q, upto, c, n);
    case Timeout(t) =>
      if IndexOf(cv.q, t) < |cv.q| {
        ServedAfterRemoval(cv.q, IndexOf(cv.q, t), c, n);
      }
    case Dying(t) =>
      if IndexOf(cv.q, t) < |cv.q| {
        ServedAfterRemoval(cv.q, IndexOf(cv.q, t), c, n);
      }
    case Reclaim => ServedNotEmpty(cv.q, c, n);
    case SignalScan(w) =>
    case SignalRescan(_, _) => ServedAfterRescan(b, cv, ev, c, n);
    case BroadScan(upto) => ServedAfterDrop(b, cv.q, upto, c, n);
    case BroadRescan(_, _) => ServedAfterRescan(b, cv, ev, c, n);
  }

  lemma ServedNotEmpty(q: seq<Kwe>, c: Seq, n: nat)
    requires Served(q, c, n)
    ensures q != []
  {
    var i :| 0 <= i < |q| && Serves(q[i], c, n);
  }

  ghost predicate CalmRun(cv: Cv, evs: seq<Event>, c: Seq)
    decreases |evs|
  {
    evs != [] ==>
      && (exists b :: Calm(b, cv, evs[0], c))
      && CalmRun(Step(cv, evs[0]).0, evs[1..], c)
  }

  /** How many waits at `c` itself return at once in a run. */
  function Spent(cv: Cv, evs: seq<Event>, c: Seq): nat
    decreases |evs|
  {
    if evs == [] then 0
    else (if Spends(cv, evs[0], c) then 1 else 0) + Spent(Step(cv, evs[0]).0, evs[1..], c)
  }

  lemma {:induction false} CoverPersistsInRun(cv: Cv, evs: seq<Event>, c: Seq, n: nat)
    requires QueueInv(cv) && Served(cv.q, c, n) && CalmRun(cv, evs, c)
    requires n == 0 || Spent(cv, evs, c) < n
    ensures QueueInv(Run(cv, evs))
    ensures Served(Run(cv, evs).q, c, if n == 0 then 0 else n - Spent(cv, evs, c))
    decreases |evs|
  {
    hide Lower;
    hide InWindow;
    hide Served;
    hide QueueInv;
    hide Step;
    hide Spends;
    if evs != [] {
      var b :| Calm(b, cv, evs[0], c);
      StepInv(cv, evs[0]);
      CoverPersists(b, cv, evs[0], c, n);
      CoverPersistsInRun(Step(cv, evs[0]).0, evs[1..], c, Remaining(cv, evs[0], c, n));
    }
  }

  /** A wait at or below a served number returns at once. */
  lemma ServedWaitReturns(b: Seq, cv: Cv, c: Seq, n: nat, w: Words, t: Thread)
    requires QueueInv(cv) && FitsIn(b, cv, Wait(w, t)) && InWindow(b, c)
    requires Served(cv.q, c, n) && LowerEq(w.l, c) && !HigherEq(w.s, w.l)
    ensures var out := CvWait(cv, w, t).1; out.err == Ok && !out.blocked
  {
    hide Lower;
    hide InWindow;
    ServedIsCovered(cv.q, c, n);
    CoveredBelow(b, cv.q, w.l, c);
    PrepostFound(b, cv.q, w.l);
    WaitOutcome(b, cv, w, t);
  }

  /** No wake-up of a broadcast is lost: after any calm run, however many threads it
      has let through already, a thread that comes to wait at or below the number
      of the broadcast returns at once. */
  lemma BroadcastReachesAll(b: Seq, cv: Cv, w: Words, target: Option<Thread>,
                            evs: seq<Event>, b': Seq, w': Words, t: Thread)
    requires QueueInv(cv) && Windowed(b, cv.q) && InWindow(b, w.l) && (!cv.zeroed ==> InWindow(b, cv.l))
    requires Update(cv, w).l != Update(cv, w).s
    requires var (cv1, out) := CvSignal(cv, w, target, true);
             && out.err == Ok && !out.cbit
             && CalmRun(cv1, evs, w.l)
             && FitsIn(b', Run(cv1, evs), Wait(w', t)) && InWindow(b', w.l)
             && LowerEq(w'.l, w.l) && !HigherEq(w'.s, w'.l)
    ensures var out := CvWait(Run(CvSignal(cv, w, target, true).0, evs), w', t).1;
            out.err == Ok && !out.blocked
  {
    hide Lower;
    hide InWindow;
    hide QueueInv;
    hide Windowed;
    hide Served;
    hide Update;
    hide CvSignal;
    hide CvWait;
    var cv1 := CvSignal(cv, w, target, true).0;
    SignalNotLost(b, cv, w, target, true, 0);
    CvSignalInv(b, cv, w, target, true);
    CoverPersistsInRun(cv1, evs, w.l, 0);
    ServedWaitReturns(b', Run(cv1, evs), w.l, 0, w', t);
  }

  /** No wake-up of a signal is lost.  A signal that wakes nobody and does not find
      the condition variable balanced adds one to the `n` that are banked at its
      number.  After any calm run in which at most `n` waits at that number have
      returned, a thread that comes to wait at or below it returns at once. */
  lemma NoLostWakeup(b: Seq, cv: Cv, w: Words, target: Option<Thread>, broadcast: bool, n: nat,
                     evs: seq<Event>, b': Seq, w': Words, t: Thread)
    requires QueueInv(cv) && Windowed(b, cv.q) && InWindow(b, w.l) && (!cv.zeroed ==> InWindow(b, cv.l))
    requires Update(cv, w).l != Update(cv, w).s
    requires n == 0 || Served(cv.q, w.l, n)
    requires var (cv1, out) := CvSignal(cv, w, target, broadcast);
             && out.err == Ok && out.woken == [] && !out.cbit
             && CalmRun(cv1, evs, w.l) && Spent(cv1, evs, w.l) <= n
             && FitsIn(b', Run(cv1, evs), Wait(w', t)) && InWindow(b', w.l)
             && LowerEq(w'.l, w.l) && !HigherEq(w'.s, w'.l)
    ensures var out := CvWait(Run(CvSignal(cv, w, target, broadcast).0, evs), w', t).1;
            out.err == Ok && !out.blocked
  {
    hide Lower;
    hide InWindow;
    hide QueueInv;
    hide Windowed;
    hide Served;
    hide Update;
    hide CvSignal;
    hide CvWait;
    var cv1 := CvSignal(cv, w, target, broadcast).0;
    SignalNotLost(b, cv, w, target, broadcast, n);
    CvSignalInv(b, cv, w, target, broadcast);
    CoverPersistsInRun(cv1, evs, w.l, n + 1);
    ServedWaitReturns(b', Run(cv1, evs), w.l, n + 1 - Spent(cv1, evs, w.l), w', t);
  }

  /** The plainest case: whatever the words, a signal that comes before any waiter is
      found by the thread it was meant for. */
  lemma EarlySignalIsFound(w: Words, t: Thread)
    requires !Higher(Plus(w.u, 1), w.l) && Lower(w.s, w.l)
    ensures var (cv, out) := CvSignal(Fresh, w, None, false);
            out.err == Ok && out.woken == [] && !CvWait(cv, w, t).1.blocked
  {
    var (cv, out) := CvSignal(Fresh, w, None, false);
    var cv1 := Update(Fresh, w);
    assert cv1.q == [] && SignalOne(cv1, None, w.l, Plus(w.u, 1)).0.q == [Kwe(w.l, Prepost(1))];
    assert cv.q == [Kwe(w.l, Prepost(1))] && !out.cbit;
    NoLostWakeup(w.l, Fresh, w, None, false, 0, [], w.l, w, t);
  }
}
