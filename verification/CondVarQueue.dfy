/**
 The condition variable code as it runs: loops over the wait queue that take
 elements out one at a time, keep the caches, and update the words in place.
 Every method is proved against the functions of module CondVar.
 */
module CondVarQueue {
  import opened Options
  import opened SeqNum
  import opened Ksyn
  import opened CondVar

  class CondVarKwq {
    const kw: KsynWaitQueue
    var fakecount: int
    var lword: Seq
    var uword: Seq
    var sword: Seq
    var zeroedOut: bool

    ghost predicate Valid()
      reads this, kw
    {
      kw.Valid() && kw.read == EmptyKsynq
    }

    ghost function Snapshot(): Cv
      reads this, kw
    {
      Cv(kw.write.list, fakecount, lword, uword, sword, zeroedOut)
    }

    constructor ()
      ensures Valid() && Snapshot() == Fresh && fresh(kw)
    {
      kw := new KsynWaitQueue();
      fakecount, lword, uword, sword, zeroedOut := 0, 0, 0, 0, true;
    }

    ghost predicate Fitting(b: Seq, w: Words)
      reads this, kw
    {
      Windowed(b, kw.write.list) && InWindow(b, w.l) && (!zeroedOut ==> InWindow(b, lword))
    }

    /** `UPDATE_CVKWQ`: L is never lowered and is at or above the caller's; in a window
        that holds the live numbers it stays at or above everything queued. */
    method UpdateWords(w: Words, ghost b: Seq)
      requires Valid()
      modifies this
      ensures Valid() && Snapshot() == Update(old(Snapshot()), w)
      ensures !zeroedOut && LowerEq(w.l, lword) && (!old(zeroedOut) ==> LowerEq(old(lword), lword))
      ensures old(QueueInv(Snapshot())) ==> QueueInv(Snapshot())
      ensures old(Fitting(b, w)) && old(WordInv(Snapshot())) ==> AtOrBelow(kw.write.list, lword)
    {
      if Fitting(b, w) {
        UpdateInv(b, Snapshot(), w);
      }
      OrderFacts();
      hide Lower;
      hide InWindow;
      hide QueueInv;
      hide AtOrBelow;
      if zeroedOut {
        lword, uword, sword := w.l, w.u, w.s;
        zeroedOut := false;
      } else {
        if Higher(w.l, lword) {
          lword := w.l;
        }
        if Higher(w.u, uword) {
          uword := w.u;
        }
        if w.sinit && Higher(w.s, sword) {
          sword := w.s;
        }
      }
    }

    /** `ksyn_queue_find_cvpreposeq`. */
    method FindCvPrepost(c: Seq) returns (result: Option<nat>)
      ensures result == FindPrepost(kw.write.list, c)
    {
      var q := kw.write.list;
      result := None;
      var i := 0;
      while i < |q|
        invariant 0 <= i <= FirstHigherEq(q, c)
        invariant result == None
      {
        if HigherEq(q[i].lockseq, c) {
          result := Some(i);
          // a blocked thread must be strictly equal
          if q[i].state.InWait? && q[i].lockseq != c {
            result := None;
          }
          break;
        }
        i := i + 1;
      }
    }

    /** `ksyn_queue_find_signalseq`. */
    method FindSignalSeq(upto: Seq, from: Seq) returns (result: Option<nat>)
      ensures result == FindSignal(kw.write.list, 0, upto, from, None)
    {
      var q := kw.write.list;
      result := None;
      var i := 0;
      while i < |q|
        invariant 0 <= i <= |q|
        invariant FindSignal(q, 0, upto, from, None) == FindSignal(q, i, upto, from, result)
      {
        var e := q[i];
        if e.state.Prepost? && Higher(e.lockseq, upto) {
          return;
        }
        if e.state.Prepost? || e.state.Broadcast? {
          // match a banked signal at our number or any broadcast from there on
          if !Lower(e.lockseq, upto) {
            return Some(i);
          }
        } else {
          if Higher(e.lockseq, upto) {
            return;
          }
          if HigherEq(e.lockseq, from) {
            return Some(i);
          }
          if result == None {
            result := Some(i);
          }
        }
        i := i + 1;
      }
    }

    /** `ksyn_prepost`. */
    method PrepostAt(st: KweState, c: Seq, ghost b: Seq) returns (refused: bool)
      requires Valid() && Windowed(b, kw.write.list) && InWindow(b, c)
      modifies this`fakecount, kw
      ensures Valid() && Snapshot() == Bank(old(Snapshot()), Kwe(c, st))
      ensures refused == AtEnd(old(kw.write.list), c)
    {
      hide Lower;
      hide InWindow;
      hide Sorted;
      var res := kw.Insert(Write, Kwe(c, st), b);
      refused := res != Ok;
      fakecount := fakecount + 1;
    }

    /** Takes the first element out: wakes the thread or frees the element. */
    method TakeFirst() returns (e: Kwe)
      requires Valid() && kw.write.list != []
      modifies this`fakecount, kw
      ensures Valid() && e == old(kw.write.list)[0] && kw.write.list == old(kw.write.list)[1..]
      ensures fakecount == old(fakecount) - if Banked(e) then 1 else 0
    {
      hide Lower;
      hide InWindow;
      hide Sorted;
      e := kw.write.list[0];
      kw.RemoveItem(Write, 0);
      if !e.state.InWait? {
        fakecount := fakecount - 1;
      }
    }

    /** Takes elements from the front until one is above `upto` (or, with `all`,
        until none is left); returns the threads among them. */
    method TakeFront(upto: Seq, all: bool) returns (woken: seq<Thread>, freed: nat)
      requires Valid()
      modifies this`fakecount, kw
      ensures Valid()
      ensures var q := old(kw.write.list);
              var k := if all then |q| else FirstHigher(q, upto);
              && Snapshot() == DropFirst(old(Snapshot()), k)
              && woken == Waiters(q[..k]) && freed == Fakes(q[..k])
    {
      hide Lower;
      hide InWindow;
      hide Sorted;
      hide Windowed;
      hide FirstHigher;
      ghost var q := kw.write.list;
      ghost var k := if all then |q| else FirstHigher(q, upto);
      ghost var n: nat := 0;
      woken, freed := [], 0;
      assert Waiters(q[..0]) == [] && Fakes(q[..0]) == 0;
      hide Fakes;
      hide Waiters;
      while kw.write.list != []
        invariant Valid() && n <= k && kw.write.list == q[n..]
        invariant woken == Waiters(q[..n]) && freed == Fakes(q[..n])
        invariant fakecount == old(fakecount) - freed
        decreases |kw.write.list|
      {
        if !all && Higher(kw.write.list[0].lockseq, upto) {
          break;
        }
        assert kw.write.list[0] == q[n] && n < k;
        PrefixStep(q, n);
        var e := TakeFirst();
        assert kw.write.list == q[n + 1..];
        n := n + 1;
        if e.state.InWait? {
          woken := woken + [e.state.thread];
        } else {
          freed := freed + 1;
        }
      }
      assert n < |q| ==> kw.write.list[0] == q[n];
      assert n == k;
    }

    static lemma PrefixStep(q: seq<Kwe>, n: nat)
      requires n < |q|
      ensures Fakes(q[..n + 1]) == Fakes(q[..n]) + (if Banked(q[n]) then 1 else 0)
      ensures Waiters(q[..n + 1]) == Waiters(q[..n]) + (if Banked(q[n]) then [] else [q[n].state.thread])
    {
      if n == 0 {
        assert q[..1] == [q[0]] && q[..1][1..] == [];
      } else {
        PrefixStep(q[1..], n - 1);
        assert q[1..][..n - 1] == q[..n][1..] && q[1..][..n] == q[..n + 1][1..];
      }
    }

    /** `ksyn_handle_cvbroad`.  The element for the banked broadcast is one that
        was taken out, or is allocated, after which everything is scanned again. */
    method HandleBroad(upto: Seq, ghost b: Seq) returns (woken: seq<Thread>, refused: bool)
      requires Valid() && Windowed(b, kw.write.list) && InWindow(b, upto)
      modifies this`fakecount, kw
      ensures Valid()
      ensures (Snapshot(), woken) == Broadcasted(old(Snapshot()), upto)
      ensures refused == BroadRefused(old(Snapshot()), upto)
    {
      hide Lower;
      hide InWindow;
      hide Sorted;
      var spare: nat := 0;
      var done := false;
      woken, refused := [], false;
      ghost var k := FirstHigher(kw.write.list, upto);
      ghost var after := DropFirst(Snapshot(), k);
      while !done
        invariant Valid()
        invariant !done && spare == 0 ==> Snapshot() == old(Snapshot()) && woken == []
        invariant !done && spare > 0 ==> Snapshot() == after && woken == Waiters(old(kw.write.list)[..k])
        invariant !done ==> !refused
        invariant !done && spare > 0 ==> lword != sword
        invariant done ==> (Snapshot(), woken) == Broadcasted(old(Snapshot()), upto)
        invariant done ==> refused == BroadRefused(old(Snapshot()), upto)
        decreases if done then 0 else if spare > 0 then 1 else 2
      {
        ghost var before := kw.write.list;
        assert before[..0] == [];
        NothingLeftBelow(old(kw.write.list), upto);
        var more, freed := TakeFront(upto, false);
        woken := woken + more;
        assert Snapshot() == after && woken == Waiters(old(kw.write.list)[..k]);
        spare := spare + freed;
        if lword != sword {
          if spare == 0 {
            spare := 1;  // zalloc, with the lock dropped
          } else {
            refused := PrepostAt(Broadcast, upto, b);
            done := true;
          }
        } else {
          done := true;
        }
      }
    }

    static lemma NothingLeftBelow(q: seq<Kwe>, upto: Seq)
      ensures FirstHigher(q[FirstHigher(q, upto)..], upto) == 0
    {
    }

    /** `ksyn_cvupdate_fixup`. */
    method CvUpdateFixup(out: Out) returns (out': Out)
      requires Valid()
      modifies this, kw
      ensures Valid() && (Snapshot(), out') == Fixup(old(Snapshot()), out)
    {
      hide Lower;
      hide InWindow;
      hide Sorted;
      out' := out;
      if lword == sword {
        var woken: seq<Thread>, freed := [], 0;
        if kw.inqueue != 0 {
          woken, freed := TakeFront(lword, false);
        }
        lword, uword, sword := 0, 0, 0;
        zeroedOut := true;
        out' := out.(cbit := true, leftover := kw.inqueue != 0, woken := out.woken + woken);
      } else if kw.inqueue != 0 && fakecount == kw.inqueue {
        out' := out.(pbit := true);
      } else {
        out' := out.(pbit := false);
      }
    }

    /** `ksyn_cvsignal`. */
    method CvSignalOne(target: Option<Thread>, upto: Seq, from: Seq, ghost b: Seq) returns (broadcast: bool, out: Out)
      requires Valid() && Windowed(b, kw.write.list) && InWindow(b, upto)
      modifies this, kw
      ensures Valid()
      ensures (Snapshot(), broadcast, out) == SignalOne(old(Snapshot()), target, upto, from)
    {
      hide Lower;
      hide InWindow;
      hide Sorted;
      hide Plus;
      broadcast, out := false, Quiet;
      var k: Option<nat> := None;
      if target.Some? {
        var i := IndexOf(kw.write.list, target.value);
        if i == |kw.write.list| || Higher(kw.write.list[i].lockseq, upto) {
          // no longer waiting here, in which case a broadcast is posted instead
          broadcast := true;
          return;
        }
        k := Some(i);
      } else {
        var haveSpare := false;
        while true
          invariant Valid() && unchanged(this) && unchanged(kw) && k == None
          decreases !haveSpare
        {
          k := FindSignalSeq(upto, from);
          if k == None && !haveSpare {
            haveSpare := true;  // zalloc, with the lock dropped
          } else {
            break;
          }
        }
        FindSignalRange(kw.write.list, 0, upto, from, None);
      }
      if k.Some? {
        var e := kw.write.list[k.value];
        match e.state {
          case InWait(t) =>
            if Lower(e.lockseq, from) {
              broadcast := true;
            } else {
              kw.RemoveItem(Write, k.value);
              sword := Plus(sword, 1);
              out := out.(woken := [t]);
            }
          case Prepost(n) =>
            kw.SetState(k.value, Prepost(n + 1));
          case Broadcast =>
        }
      } else {
        var refused := PrepostAt(Prepost(1), upto, b);
        out := out.(refused := refused);
      }
    }

    /** `__psynch_cvsignal`. */
    method PsynchCvSignal(w: Words, target: Option<Thread>, broad: bool, ghost b: Seq) returns (out: Out)
      requires Valid() && Windowed(b, kw.write.list) && InWindow(b, w.l)
      requires QueueInv(Snapshot()) && (!zeroedOut ==> InWindow(b, lword))
      modifies this, kw
      ensures Valid() && (Snapshot(), out) == CvSignal(old(Snapshot()), w, target, broad)
      ensures QueueInv(Snapshot()) && !out.refused
    {
      hide Lower;
      hide InWindow;
      hide Windowed;
      hide Sorted;
      hide QueueInv;
      hide SignalOne;
      hide Broadcasted;
      hide Fixup;
      hide Plus;
      CvSignalInv(b, Snapshot(), w, target, broad);
      out := Quiet;
      var from := Plus(w.u, 1);
      if (target.None? && Higher(from, w.l)) || Higher(w.s, w.l) {
        return out.(err := EINVAL);
      }
      UpdateInv(b, Snapshot(), w);
      UpdateWords(w, b);
      var broadcast := broad;
      if !broadcast && lword != sword {
        SignalOneInv(b, Snapshot(), target, w.l, from);
        broadcast, out := CvSignalOne(target, w.l, from, b);
      }
      if broadcast {
        var woken, refused := HandleBroad(w.l, b);
        out := out.(woken := woken, refused := refused);
        sword := Plus(sword, |woken|);
      }
      out := CvUpdateFixup(out);
    }

    /** `_psynch_cvwait`, up to the point where the thread blocks. */
    method PsynchCvWait(w: Words, t: Thread, ghost b: Seq) returns (out: Out)
      requires Valid() && Windowed(b, kw.write.list) && InWindow(b, w.l)
      requires QueueInv(Snapshot()) && (!zeroedOut ==> InWindow(b, lword))
      modifies this, kw
      ensures Valid() && (Snapshot(), out) == CvWait(old(Snapshot()), w, t)
      ensures QueueInv(Snapshot()) && !out.refused && !out.converted
    {
      hide Lower;
      hide InWindow;
      hide Sorted;
      hide QueueInv;
      hide Consume;
      hide Fixup;
      hide Plus;
      CvWaitInv(b, Snapshot(), w, t);
      out := Quiet;
      if HigherEq(w.s, w.l) {
        return out.(err := EINVAL);
      }
      UpdateWords(w, b);
      var k := FindCvPrepost(w.l);
      if k == None {
        var res := kw.Insert(Write, Kwe(w.l, InWait(t)), b);
        return if res == Ok then out.(blocked := true) else out.(err := res, refused := true);
      }
      if kw.write.list[k.value].state.InWait? {
        return out.(err := EBUSY);
      }
      out := ConsumeBanked(k.value, w.l, b);
      sword := Plus(sword, 1);
      out := CvUpdateFixup(out);
    }

    /** What `_psynch_cvwait` does with the banked element it found. */
    method ConsumeBanked(k: nat, c: Seq, ghost b: Seq) returns (out: Out)
      requires Valid() && Windowed(b, kw.write.list)
      requires k < |kw.write.list| && Banked(kw.write.list[k])
      modifies this`fakecount, kw
      ensures Valid() && (Snapshot(), out) == Consume(old(Snapshot()), k, c)
    {
      hide Lower;
      hide InWindow;
      hide Sorted;
      out := Quiet;
      var e := kw.write.list[k];
      if e.state.Prepost? {
        if e.lockseq == c {
          if e.state.count == 1 {
            kw.RemoveItem(Write, k);
            fakecount := fakecount - 1;
          } else {
            kw.SetState(k, Prepost(e.state.count - 1));
          }
        } else {
          var woken, refused := HandleBroad(e.lockseq, b);
          out := out.(woken := woken, converted := woken != [], refused := refused);
        }
      }
    }

    /** `psynch_cvcontinue` after a timeout or an interruption. */
    method PsynchCvContinue(t: Thread) returns (out: Out)
      requires Valid()
      modifies this, kw
      ensures Valid() && (Snapshot(), out) == CvTimeout(old(Snapshot()), t)
    {
      hide Lower;
      hide InWindow;
      hide Sorted;
      hide Plus;
      out := Quiet;
      var k := IndexOf(kw.write.list, t);
      if k == |kw.write.list| {
        return;  // granted in the meantime
      }
      kw.RemoveItem(Write, k);
      sword := Plus(sword, 1);
      if lword == sword {
        ghost var q := kw.write.list;
        assert q[..|q|] == q;
        var woken, freed := TakeFront(lword, true);
        lword, uword, sword := 0, 0, 0;
        zeroedOut := true;
        out := out.(woken := woken, cbit := true);
      } else {
        out := out.(pbit := kw.inqueue != 0 && fakecount == kw.inqueue);
      }
    }

    /** The condition variable half of `_psynch_cvclrprepost`. */
    method PsynchCvClrPrepost(upto: Seq) returns (out: Out)
      requires Valid()
      modifies this, kw
      ensures Valid() && (Snapshot(), out) == Step(old(Snapshot()), Clear(upto))
    {
      var woken, freed := TakeFront(upto, false);
      out := Quiet.(woken := woken);
    }
  }
}
