/**
 The read-write lock code as it runs, over queues with cached numbers; every
 method is proved against the functions of module RwLock.
 */
module RwLockQueue {
  import opened Options
  import opened SeqNum
  import opened Ksyn
  import opened RwLock

  class RwLockKwq {
    const kw: KsynWaitQueue
    var prepost: Pending
    var intr: Intr
    var initCleared: bool
    var overlapGuard: bool
    var lastSeqWord: Word
    var lastUnlockSeq: Word
    var nextSeqWord: Word

    ghost predicate Valid()
      reads this, kw
    {
      kw.Valid() && AllWaiting(kw.read.list) && AllWaiting(kw.write.list)
    }

    ghost function Snapshot(): Rw
      reads this, kw
    {
      Rw(kw.read.list, kw.write.list, prepost, intr, initCleared, overlapGuard, lastSeqWord, lastUnlockSeq, nextSeqWord)
    }

    constructor ()
      ensures Valid() && Snapshot() == Fresh && fresh(kw)
    {
      kw := new KsynWaitQueue();
      prepost, intr, initCleared, overlapGuard := NoPending, NoIntr, false, false;
      lastSeqWord, lastUnlockSeq, nextSeqWord := PTHRW_RWS_INIT, PTHRW_RWL_INIT, PTHRW_RWS_INIT;
    }

    /** `ksyn_queue_count_tolowest`. */
    method CountTo(kqi: Which, upto: Seq) returns (n: nat)
      requires kw.Valid()
      ensures n == CountToLowest(kw.Queue(kqi).list, upto)
    {
      hide Lower;
      hide InWindow;
      hide Sorted;
      var kq := kw.Queue(kqi);
      n := 0;
      if kq.count == 0 || Higher(kq.firstnum, upto) {
        return;
      }
      if upto == kq.firstnum {
        return 1;
      }
      while n < |kq.list|
        invariant n <= |kq.list|
        invariant CountToLowest(kq.list, upto) == n + CountFrom(kq.list, n, upto)
      {
        var curval := kq.list[n].lockseq;
        if Higher(curval, upto) {
          break;
        }
        n := n + 1;
        if upto == curval {
          break;
        }
      }
    }

    /** `find_seq_till`. */
    method SeqTill(upto: Seq, nwaiters: nat) returns (enough: bool, count: nat)
      requires kw.Valid()
      ensures (enough, count) == FindSeqTill(kw.read.list, kw.write.list, upto, nwaiters)
    {
      hide Lower;
      hide InWindow;
      hide Sorted;
      count := 0;
      for i := 0 to 2
        invariant i == 0 ==> count == 0
        invariant i == 1 ==> count == CountToLowest(kw.read.list, upto) < nwaiters
        invariant i == 2 ==> count == FindSeqTill(kw.read.list, kw.write.list, upto, nwaiters).1
      {
        var n := CountTo(if i == 0 then Read else Write, upto);
        count := count + n;
        if count >= nwaiters {
          break;
        }
      }
      enough := count != 0 && count >= nwaiters;
    }

    /** `ksyn_signal` of the first element of a queue. */
    method SignalFirst(kqi: Which, asleep: set<Thread>) returns (e: Kwe, woke: bool)
      requires Valid() && kw.Queue(kqi).list != []
      modifies kw
      ensures Valid() && e == old(kw.Queue(kqi).list)[0] && kw.Queue(kqi).list == old(kw.Queue(kqi).list)[1..]
      ensures if kqi.Read? then kw.write == old(kw.write) else kw.read == old(kw.read)
      ensures woke == (e.state.thread in asleep)
    {
      hide Lower;
      hide InWindow;
      hide Sorted;
      e := kw.Queue(kqi).list[0];
      kw.RemoveItem(kqi, 0);
      woke := e.state.thread in asleep;
    }

    /** `ksyn_wakeupreaders`. */
    method WakeupReaders(limit: Seq, allReaders: bool, asleep: set<Thread>) returns (failed: nat, woken: nat)
      requires Valid()
      modifies kw
      ensures Valid() && kw.write == old(kw.write)
      ensures var r := old(kw.read.list);
              && woken == (if allReaders then |r| else FirstHigherEq(r, limit))
              && kw.read.list == r[woken..] && failed == Absent(r[..woken], asleep)
    {
      hide Lower;
      hide InWindow;
      hide Sorted;
      OrderFacts();
      ghost var r := kw.read.list;
      ghost var k := if allReaders then |r| else FirstHigherEq(r, limit);
      failed, woken := 0, 0;
      while kw.read.count != 0 && (allReaders || Lower(kw.read.firstnum, limit))
        invariant Valid() && kw.write == old(kw.write)
        invariant woken <= k && kw.read.list == r[woken..] && failed == Absent(r[..woken], asleep)
        decreases k - woken
      {
        assert kw.read.firstnum == r[woken].lockseq;
        assert woken < k;
        AbsentStep(r, woken, asleep);
        var e, woke := SignalFirst(Read, asleep);
        if !woke {
          failed := failed + 1;
        }
        woken := woken + 1;
      }
      assert woken < |r| ==> kw.read.firstnum == r[woken].lockseq;
    }

    static lemma AbsentStep(q: seq<Kwe>, n: nat, asleep: set<Thread>)
      requires n < |q|
      ensures Absent(q[..n + 1], asleep) ==
              Absent(q[..n], asleep) + if q[n].state.InWait? && q[n].state.thread in asleep then 0 else 1
    {
      if n == 0 {
        assert q[..1] == [q[0]] && q[..1][1..] == [];
      } else {
        AbsentStep(q[1..], n - 1, asleep);
        assert q[1..][..n - 1] == q[..n][1..] && q[1..][..n] == q[..n + 1][1..];
      }
    }

    /** `kwq_find_rw_lowest` on one queue. */
    method LowestIn(kqi: Which, arriving: Option<Seq>) returns (low: Option<Seq>)
      requires kw.Valid()
      ensures low == LowestOf(kw.Queue(kqi).list, arriving)
    {
      hide Lower;
      hide InWindow;
      hide Sorted;
      if kw.Queue(kqi).count != 0 {
        var first := kw.Queue(kqi).firstnum;
        if arriving.Some? && Lower(arriving.value, first) {
          first := arriving.value;
        }
        low := Some(first);
      } else {
        low := arriving;
      }
    }

    /** `kwq_handle_unlock`. */
    method KwqHandleUnlock(wc: Word, arr: Arrival, asleep: set<Thread>) returns (round: Round)
      requires Valid() && KindOf(Snapshot(), arr) != Panic
      modifies this, kw
      ensures Valid() && (Snapshot(), round) == HandleUnlock(old(Snapshot()), wc, arr, asleep)
    {
      hide Lower;
      hide InWindow;
      hide Sorted;
      hide Masked;
      hide GrantReaders;
      hide GrantWriter;
      lastSeqWord := wc;
      lastUnlockSeq := Masked(wc);
      overlapGuard := false;
      var lr := LowestIn(Read, if arr.Reader? then Some(arr.c) else None);
      var lw := LowestIn(Write, if arr.Writer? then Some(arr.c) else None);
      if lr.Some? && (lw.None? || !Lower(lw.value, lr.value)) {
        round := ReadersGo(wc, arr, lw, asleep);
      } else {
        round := WriterGoes(wc, arr, lw.value, asleep);
      }
    }

    /** The reader case of `kwq_handle_unlock`. */
    method ReadersGo(wc: Word, arr: Arrival, lw: Option<Seq>, asleep: set<Thread>) returns (round: Round)
      requires Valid() && lw == LowWriter(Snapshot(), arr) && !overlapGuard
      modifies this, kw
      ensures Valid() && (Snapshot(), round) == GrantReaders(old(Snapshot()), wc, arr, asleep)
    {
      hide Lower;
      hide InWindow;
      hide Sorted;
      hide Masked;
      hide Wrap;
      hide CountToLowest;
      hide Absent;
      hide FirstHigherEq;
      hide LowestOf;
      hide AllWaiting;
      overlapGuard := lw.None?;
      var needed, through := CountReaders(arr, lw);
      var bits := Wrap((if lw.None? then 0 else PTH_RWL_WBIT + PTH_RWL_KBIT) + PTHRW_INC * needed);
      nextSeqWord := Wrap(Masked(wc) + bits);
      var r := kw.read.list;
      var limit := if lw.Some? then lw.value else 0;
      var failed, woken := WakeupReaders(limit, lw.None?, asleep);
      if failed != 0 {
        intr := Intr(KWQ_INTR_READ, failed, limit, bits);
      }
      round := Round(ReadRound, needed, bits, r[..woken], failed, through);
    }

    /** How many readers the reader case is going to report, and whether the
        arriving one is among them. */
    method CountReaders(arr: Arrival, lw: Option<Seq>) returns (needed: nat, through: bool)
      requires Valid()
      ensures through <==> arr.Reader? && (lw.None? || Lower(arr.c, lw.value))
      ensures needed == (if lw.None? then |kw.read.list| else CountToLowest(kw.read.list, lw.value)) +
                        if through then 1 else 0
    {
      through := false;
      if lw.Some? {
        needed := CountTo(Read, lw.value);
        if arr.Reader? && Lower(arr.c, lw.value) {
          through := true;
          needed := needed + 1;
        }
      } else {
        needed := kw.read.count;
        if arr.Reader? {
          through := true;
          needed := needed + 1;
        }
      }
    }

    /** The writer case of `kwq_handle_unlock`. */
    method WriterGoes(wc: Word, arr: Arrival, low: Seq, asleep: set<Thread>) returns (round: Round)
      requires Valid() && LowWriter(Snapshot(), arr) == Some(low)
      modifies this, kw
      ensures Valid() && (Snapshot(), round) == GrantWriter(old(Snapshot()), wc, arr, asleep)
    {
      hide Lower;
      hide InWindow;
      hide Sorted;
      hide Masked;
      hide Wrap;
      var bits := PTHRW_INC + PTH_RWL_KBIT + PTH_RWL_EBIT;
      assert kw.write.list[..0] == [] && kw.write.list[0..] == kw.write.list;
      if arr.Writer? && low == arr.c {
        if kw.write.count != 0 {
          bits := bits + PTH_RWL_WBIT;
        }
        round := Round(WriteRound, 1, bits, [], 0, true);
      } else {
        if kw.write.count > 1 || arr.Writer? {
          bits := bits + PTH_RWL_WBIT;
        }
        ghost var w := kw.write.list;
        var e, woke := SignalFirst(Write, asleep);
        assert w[..1] == [e] && [e][1..] == [];
        assert Absent([e], asleep) == if woke then 0 else 1;
        var failed := 0;
        if !woke {
          failed := 1;
          intr := Intr(KWQ_INTR_WRITE, 1, low, bits);
        }
        round := Round(WriteRound, 1, bits, [e], failed, false);
      }
      nextSeqWord := Wrap(Masked(wc) + bits);
    }

    /** `_ksyn_check_init`.  The blocked threads stay; after a call with the I bit no
        call clears anything until that bit is taken off again, and nothing is pending
        or banked that was there before the first. */
    method KsynCheckInit(lgen: Word) returns (isInit: bool)
      requires Valid()
      modifies this
      ensures Valid() && Snapshot() == CheckInit(old(Snapshot()), lgen) && isInit == Bit(lgen, PTHRW_RWL_INIT)
      ensures kw.read.list == old(kw.read.list) && kw.write.list == old(kw.write.list)
      ensures isInit ==> forall l: Word :: CheckInit(Snapshot(), l) == Snapshot()
      ensures isInit && !old(initCleared) ==> prepost.count == 0 && intr.count == 0 && !overlapGuard
      ensures !isInit || old(initCleared) ==> Snapshot() == old(Snapshot())
    {
      hide Lower;
      hide InWindow;
      hide Sorted;
      isInit := Bit(lgen, PTHRW_RWL_INIT);
      if isInit && !initCleared {
        nextSeqWord := PTHRW_RWS_INIT;
        overlapGuard := false;
        prepost := NoPending;
        lastUnlockSeq := PTHRW_RWL_INIT;
        lastSeqWord := PTHRW_RWS_INIT;
        intr := NoIntr;
        initCleared := true;
      }
    }

    /** `_psynch_rw_unlock`. */
    method PsynchRwUnlock(lgen: Word, ugen: Word, wc: Word, asleep: set<Thread>) returns (out: Out)
      requires Valid()
      modifies this, kw
      ensures Valid() && (Snapshot(), out) == RwUnlock(old(Snapshot()), lgen, ugen, wc, asleep)
    {
      hide Lower;
      hide InWindow;
      hide Sorted;
      hide HandleUnlock;
      hide FindSeqTill;
      hide FindDiff;
      hide IsSeqLower;
      hide IsSeqHigherEq;
      hide Bit;
      var isInit := KsynCheckInit(lgen);
      if lastUnlockSeq != PTHRW_RWL_INIT && IsSeqLower(ugen, lastUnlockSeq) {
        return Out(Ok, false, 0, None);
      }
      var diff := FindDiff(lgen, ugen);
      var enough, count := SeqTill(CountOf(lgen), diff);
      if !enough && (count == 0 || count < diff) {
        if Bit(prepost.sseq, PTH_RWS_SBIT) || IsSeqHigherEq(wc, prepost.sseq) {
          prepost := Pending(diff - count, CountOf(lgen), wc);
          return Out(Ok, false, lgen, None);
        }
        return Out(Ok, false, 0, None);
      }
      var cleared := false;
      if isInit && initCleared {
        initCleared := false;
        cleared := true;
      }
      prepost := NoPending;
      EnoughSeen(kw.read.list, kw.write.list, CountOf(lgen), diff);
      var round := KwqHandleUnlock(wc, Nobody, asleep);
      if cleared && intr.count > 0 {
        initCleared := true;
      }
      out := Out(Ok, false, round.bits, Some(round));
    }

    /** `_kwq_handle_preposted_wakeup`. */
    method HandlePreposted(arr: Arrival, asleep: set<Thread>) returns (round: Option<Round>)
      requires Valid() && !arr.Nobody?
      modifies this, kw
      ensures Valid() && (Snapshot(), round) == Preposted(old(Snapshot()), arr, asleep)
    {
      hide Lower;
      hide InWindow;
      hide Sorted;
      if prepost.count == 0 || !LowerEq(arr.c, prepost.lseq) {
        return None;
      }
      prepost := prepost.(count := prepost.count - 1);
      if prepost.count > 0 {
        return None;
      }
      var sseq := prepost.sseq;
      prepost := NoPending;
      initCleared := false;
      var granted := KwqHandleUnlock(sseq, arr, asleep);
      round := Some(granted);
    }

    /** `__psynch_rw_lock`, up to the point where the thread blocks. */
    method PsynchRwLock(reader: bool, lgen: Word, wc: Word, t: Thread, asleep: set<Thread>, ghost b: Seq)
      returns (out: Out)
      requires Valid() && Windowed(b, kw.read.list) && Windowed(b, kw.write.list) && InWindow(b, CountOf(lgen))
      modifies this, kw
      ensures Valid() && (Snapshot(), out) == RwLockCall(old(Snapshot()), reader, lgen, wc, t, asleep)
    {
      hide Lower;
      hide InWindow;
      hide Sorted;
      hide HandleUnlock;
      hide Preposted;
      hide OverlapBits;
      hide IsSeqLowerEq;
      hide IsSeqHigherEq;
      hide Inserted;
      hide Wrap;
      var c := CountOf(lgen);
      var isInit := KsynCheckInit(lgen);
      var kind := if reader then PTH_RW_TYPE_READ else PTH_RW_TYPE_WRITE;
      if intr.count != 0 && intr.kind == kind && (intr.lockseq == 0 || LowerEq(c, intr.lockseq)) {
        out := Out(Ok, false, intr.bits, None);
        intr := intr.(count := intr.count - 1);
        if intr.bits == 0 {
          intr := NoIntr;
        }
        return;
      }
      if reader && overlapGuard && !Bit(wc, PTHRW_RWS_SAVEMASK) && !Bit(lgen, PTH_RWL_WBIT) {
        if IsSeqLowerEq(wc, nextSeqWord) || IsSeqHigherEq(lastSeqWord, wc) {
          nextSeqWord := Wrap(nextSeqWord + PTHRW_INC);
          return Out(Ok, false, OverlapBits(nextSeqWord), None);
        }
      }
      var arr := if reader then Reader(c) else Writer(c);
      RoundKeepsWindow(b, Snapshot(), arr, asleep);
      var round := HandlePreposted(arr, asleep);
      if round.Some? && round.value.through {
        return Out(Ok, false, round.value.bits, round);
      }
      out := Enqueue(reader, c, t, round, b);
    }

    /** `ksyn_wait`. */
    method Enqueue(reader: bool, c: Seq, t: Thread, round: Option<Round>, ghost b: Seq) returns (out: Out)
      requires Valid() && Windowed(b, kw.read.list) && Windowed(b, kw.write.list) && InWindow(b, c)
      modifies kw
      ensures Valid()
      ensures var was := old(Snapshot());
              var q := if reader then was.r else was.w;
              var q' := Inserted(q, Kwe(c, InWait(t)));
              if AtEnd(q, c) then Snapshot() == was && out == Out(EBUSY, false, 0, round)
              else Snapshot() == (if reader then was.(r := q') else was.(w := q')) && out == Out(Ok, true, 0, round)
    {
      hide Lower;
      hide InWindow;
      hide Sorted;
      InsertedWaiting(kw.Queue(if reader then Read else Write).list, Kwe(c, InWait(t)));
      var res := kw.Insert(if reader then Read else Write, Kwe(c, InWait(t)), b);
      out := Out(res, res == Ok, 0, round);
    }

    static lemma RoundKeepsWindow(b: Seq, rw: Rw, arr: Arrival, asleep: set<Thread>)
      requires !arr.Nobody? && Windowed(b, rw.r) && Windowed(b, rw.w)
      ensures var rw' := Preposted(rw, arr, asleep).0;
              Windowed(b, rw'.r) && Windowed(b, rw'.w)
    {
      hide Lower;
      hide InWindow;
      hide Sorted;
      hide HandleUnlock;
      var n, m := RoundShape(rw.(prepost := NoPending, initCleared := false), rw.prepost.sseq, arr, asleep);
    }

    /** `_psynch_rw_continue` of an interrupted wait. */
    method PsynchRwContinue(reader: bool, i: nat)
      requires Valid()
      modifies kw
      ensures Valid() && Snapshot() == RwAbort(old(Snapshot()), reader, i)
    {
      hide Lower;
      hide InWindow;
      hide Sorted;
      var kqi := if reader then Read else Write;
      if i < |kw.Queue(kqi).list| {
        kw.RemoveItem(kqi, i);
      }
    }
  }
}
