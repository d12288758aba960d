/**
 The words of a read-write lock: what a grant round tells the threads it lets go and
 the unlock it belongs to, and when a reader may join the readers without a round.
 */
module RwLockWords {
  import opened Counting
  import opened Options
  import opened SeqNum
  import opened Ksyn
  import opened RwLock

  // ---------------------------------------------------------------- the word of a round

  /** A writer is queued or arriving. */
  predicate SeesWriter(rw: Rw, arr: Arrival) {
    rw.w != [] || arr.Writer?
  }

  lemma WriterIsSeen(rw: Rw, arr: Arrival)
    ensures LowWriter(rw, arr).Some? <==> SeesWriter(rw, arr)
  {
  }

  /** A word made of a low byte and a count. */
  lemma WordOf(low: nat, n: nat)
    requires low < PTHRW_INC
    ensures var w := Wrap(low + PTHRW_INC * n);
            w % PTHRW_INC == low && CountOf(w) == n % COUNTS
  {
    var w := Wrap(low + PTHRW_INC * n);
    var m := (low + PTHRW_INC * n) / 0x1_0000_0000;
    var k := n - COUNTS * m;
    assert w == low + PTHRW_INC * k;
    assert 0 <= k < COUNTS && n == COUNTS * m + k;
    assert n % COUNTS == k;
  }

  /** The word of a round of readers carries the reported count, and the W and K bits
      exactly if there is a writer. */
  lemma ReadWord(rw: Rw, wc: Word, arr: Arrival, asleep: set<Thread>)
    requires KindOf(rw, arr) == ReadRound
    ensures var (rw', round) := HandleUnlock(rw, wc, arr, asleep);
            && round.kind == ReadRound && CountOf(round.bits) == round.count % COUNTS
            && round.bits % PTHRW_INC == (if SeesWriter(rw, arr) then PTH_RWL_WBIT + PTH_RWL_KBIT else 0)
            && (rw'.intr == rw.intr || rw'.intr.bits == round.bits)
  {
    hide Lower;
    hide Masked;
    hide CountToLowest;
    hide Absent;
    hide FirstHigherEq;
    hide CountOf;
    var round := HandleUnlock(rw, wc, arr, asleep).1;
    WriterIsSeen(rw, arr);
    WordOf(if SeesWriter(rw, arr) then PTH_RWL_WBIT + PTH_RWL_KBIT else 0, round.count);
    hide Wrap;
  }

  /** The word of a writer's round carries a count of one, the K and E bits, and the W
      bit exactly if a writer is left. */
  lemma WriteWord(rw: Rw, wc: Word, arr: Arrival, asleep: set<Thread>)
    requires KindOf(rw, arr) == WriteRound
    ensures var (rw', round) := HandleUnlock(rw, wc, arr, asleep);
            var left := rw'.w != [] || (arr.Writer? && !round.through);
            && round.kind == WriteRound && CountOf(round.bits) == 1
            && round.bits % PTHRW_INC == PTH_RWL_KBIT + PTH_RWL_EBIT + (if left then PTH_RWL_WBIT else 0)
            && (rw'.intr == rw.intr || rw'.intr.bits == round.bits)
  {
    hide Lower;
    hide Masked;
    hide Wrap;
    hide Absent;
  }

  /** What a round leaves for later calls to compare with: the words it began and ended
      at, and the guard, exactly after readers with no writer. */
  lemma RoundLeaves(rw: Rw, wc: Word, arr: Arrival, asleep: set<Thread>)
    requires HandleUnlock(rw, wc, arr, asleep).1.kind != Panic
    ensures var (rw', round) := HandleUnlock(rw, wc, arr, asleep);
            && rw'.lastSeqWord == wc && rw'.lastUnlock == Masked(wc)
            && rw'.nextSeqWord == (Masked(wc) + round.bits) % 0x1_0000_0000
            && (rw'.overlap <==> round.kind == ReadRound && !SeesWriter(rw, arr))
  {
    hide Lower;
    hide Masked;
    hide CountToLowest;
    hide Absent;
    hide FirstHigherEq;
    WriterIsSeen(rw, arr);
  }

  // ---------------------------------------------------------------- what a call returns

  /** An unlock returns the word of its round.  Afterwards no unlock waits, and a
      re-initialisation counts as done only if grants are banked from it. */
  lemma UnlockReturns(rw: Rw, lgen: Word, ugen: Word, wc: Word, asleep: set<Thread>)
    ensures var (rw', out) := RwUnlock(rw, lgen, ugen, wc, asleep);
            && out.err == Ok && !out.blocked
            && (out.round.Some? ==>
                  && out.bits == out.round.value.bits && rw'.prepost == NoPending
                  && rw'.lastSeqWord == wc && rw'.lastUnlock == Masked(wc)
                  && rw'.nextSeqWord == (Masked(wc) + out.bits) % 0x1_0000_0000
                  && (rw'.initCleared <==>
                        CheckInit(rw, lgen).initCleared && (!Bit(lgen, PTHRW_RWL_INIT) || rw'.intr.count > 0)))
  {
    hide Bit;
    hide CountOf;
    hide IsSeqLower;
    hide IsSeqHigherEq;
    hide FindDiff;
    hide FindSeqTill;
    hide HandleUnlock;
    hide Masked;
    UnlockNoPanic(rw, lgen, ugen, wc, asleep);
    var rw2 := UnlockRoundState(rw, lgen);
    RoundKeepsWaiting(rw2, wc, Nobody, asleep);
    RoundKeepsInit(rw2, wc, Nobody, asleep);
    if RwUnlock(rw, lgen, ugen, wc, asleep).1.round.Some? {
      RoundLeaves(rw2, wc, Nobody, asleep);
    }
  }

  lemma RoundKeepsInit(rw: Rw, wc: Word, arr: Arrival, asleep: set<Thread>)
    ensures HandleUnlock(rw, wc, arr, asleep).0.initCleared == rw.initCleared
  {
    hide Lower;
    hide Masked;
    hide Wrap;
    hide CountToLowest;
    hide Absent;
    hide FirstHigherEq;
  }

  /** A lock call returns at once without a round exactly if it takes a banked grant or
      joins the readers; with a round exactly if the round lets it through, and then
      with the word of the round.  Otherwise it blocks, or fails because its number is
      taken. */
  lemma LockReturns(rw: Rw, reader: bool, lgen: Word, wc: Word, t: Thread, asleep: set<Thread>)
    ensures var (rw', out) := RwLockCall(rw, reader, lgen, wc, t, asleep);
            var rw1 := CheckInit(rw, lgen);
            var takes := Redeems(rw1, if reader then PTH_RW_TYPE_READ else PTH_RW_TYPE_WRITE, CountOf(lgen));
            var atOnce := out.err == Ok && !out.blocked;
            && (atOnce && out.round.None? <==> takes || Overlaps(rw1, reader, lgen, wc))
            && (takes ==> out.bits == rw1.intr.bits)
            && (out.round.Some? ==> (atOnce <==> out.round.value.through))
            && (atOnce && out.round.Some? ==> out.bits == out.round.value.bits)
            && (!atOnce ==> out.bits == 0 && (out.blocked <==> out.err == Ok))
  {
    hide Lower;
    hide Bit;
    hide CountOf;
    hide Redeems;
    hide Overlaps;
    hide OverlapBits;
    hide HandleUnlock;
    hide Inserted;
    hide AtEnd;
    hide Wrap;
  }

  /** The first call with the I bit starts over: the blocked threads stay, nothing is
      pending or banked, the guard is down and the words are as new; and no further call
      does it again. */
  lemma StartsOverOnce(rw: Rw, lgen: Word, later: Word)
    ensures var rw' := CheckInit(rw, lgen);
            && rw'.r == rw.r && rw'.w == rw.w
            && (Bit(lgen, PTHRW_RWL_INIT) ==> CheckInit(rw', later) == rw' && rw'.initCleared)
            && (!Bit(lgen, PTHRW_RWL_INIT) || rw.initCleared ==> rw' == rw)
            && (rw' != rw ==> rw' == Fresh.(r := rw.r, w := rw.w, initCleared := true))
  {
    hide Bit;
  }

  // ---------------------------------------------------------------- joining the readers

  /** The word of a reader that joins: a count of one, the low byte of the next word
      that is expected, and the M bit. */
  lemma OverlapWord(next: Word)
    ensures var bits := OverlapBits(next);
            && CountOf(bits) == 1 && Bit(bits, PTH_RWL_MBIT)
            && bits % PTH_RWL_MBIT == next % PTH_RWL_MBIT && bits / 0x80 % 2 == next / 0x80 % 2
  {
    var a, m, h := ByteParts(next);
    assert OverlapBits(next) == PTHRW_INC + (a + 0x40 + 0x80 * h);
  }

  /** The low byte: six bits, the M bit, and one more. */
  lemma ByteParts(w: Word) returns (a: nat, m: nat, h: nat)
    ensures a < 0x40 && m < 2 && h < 2 && w % PTHRW_INC == a + 0x40 * m + 0x80 * h
    ensures w % 0x40 == a && w / 0x40 % 2 == m && w / 0x80 % 2 == h
  {
    var s := w / 0x40;
    a, m, h := w % 0x40, s % 2, s / 2 % 2;
    var k := s / 4;
    assert w == 0x40 * s + a && s == 4 * k + 2 * h + m by { assert s / 2 == 2 * k + h; }
    assert w == 0x100 * k + (a + 0x40 * m + 0x80 * h);
    ByteOf(w, k, a + 0x40 * m + 0x80 * h);
    assert w == 0x80 * (2 * k + h) + (0x40 * m + a);
  }

  lemma ByteOf(w: Word, k: nat, low: nat)
    requires w == 0x100 * k + low && low < 0x100
    ensures w % 0x100 == low
  {
  }

  /** A reader may join exactly while the guard is up, neither of its words announces a
      writer, and its S word is not beyond the one that is expected next, or the last. */
  lemma JoinsIff(rw: Rw, reader: bool, lgen: Word, wc: Word)
    ensures Overlaps(rw, reader, lgen, wc) <==>
            && reader && rw.overlap && !Bit(lgen, PTH_RWL_WBIT) && !Bit(wc, PTHRW_RWS_SAVEMASK)
            && (LowerEq(CountOf(wc), CountOf(rw.nextSeqWord)) || LowerEq(CountOf(wc), CountOf(rw.lastSeqWord)))
  {
    WordOrderIsCountOrder(wc, rw.nextSeqWord);
    WordOrderIsCountOrder(rw.lastSeqWord, wc);
    SameCount(wc, rw.nextSeqWord);
    SameCount(rw.lastSeqWord, wc);
    hide IsSeqLower;
    hide IsSeqHigher;
    hide Lower;
    hide Masked;
    hide CountOf;
    hide Bit;
  }

  lemma SameCount(x: Word, y: Word)
    ensures Masked(x) == Masked(y) <==> CountOf(x) == CountOf(y)
  {
  }

  /** The lock call joins the readers. */
  predicate Joins(rw: Rw, ev: Event) {
    && ev.Lock?
    && var rw1 := CheckInit(rw, ev.lgen);
       Overlaps(rw1, ev.reader, ev.lgen, ev.wc) && !Redeems(rw1, PTH_RW_TYPE_READ, CountOf(ev.lgen))
  }

  /** A reader that joins is counted in the word that is expected next, and gets its low
      byte; nothing else changes. */
  lemma JoinIsCounted(rw: Rw, ev: Event, asleep: set<Thread>)
    requires Joins(rw, ev)
    ensures var (rw', out) := Step(rw, ev, asleep);
            var rw1 := CheckInit(rw, ev.lgen);
            && rw' == rw1.(nextSeqWord := rw'.nextSeqWord)
            && CountOf(rw'.nextSeqWord) == (CountOf(rw1.nextSeqWord) + 1) % COUNTS
            && rw'.nextSeqWord % PTHRW_INC == rw1.nextSeqWord % PTHRW_INC
            && out == Out(Ok, false, OverlapBits(rw'.nextSeqWord), None)
  {
    assert ev.reader;
    hide Overlaps;
    hide Redeems;
    hide OverlapBits;
    hide Preposted;
    var next := CheckInit(rw, ev.lgen).nextSeqWord;
    assert next == next % PTHRW_INC + PTHRW_INC * CountOf(next);
    WordOf(next % PTHRW_INC, CountOf(next) + 1);
    assert Wrap(next + PTHRW_INC) == Wrap(next % PTHRW_INC + PTHRW_INC * (CountOf(next) + 1));
    hide Wrap;
    hide CountOf;
  }

  function JoinsIn(rw: Rw, evs: seq<(Event, set<Thread>)>): nat
    decreases |evs|
  {
    if evs == [] then 0 else One(Joins(rw, evs[0].0)) + JoinsIn(Step(rw, evs[0].0, evs[0].1).0, evs[1..])
  }

  /** No step of the run has a round or starts the structure over. */
  ghost predicate SameRound(rw: Rw, evs: seq<(Event, set<Thread>)>)
    decreases |evs|
  {
    evs != [] ==>
      var (rw', out) := Step(rw, evs[0].0, evs[0].1);
      out.round.None? && !Clears(rw, evs[0].0) && SameRound(rw', evs[1..])
  }

  lemma StepCountsJoins(rw: Rw, ev: Event, asleep: set<Thread>)
    requires Step(rw, ev, asleep).1.round.None? && !Clears(rw, ev)
    ensures CountOf(Step(rw, ev, asleep).0.nextSeqWord) == (CountOf(rw.nextSeqWord) + One(Joins(rw, ev))) % COUNTS
  {
    if Joins(rw, ev) {
      JoinIsCounted(rw, ev, asleep);
      hide CountOf;
    } else {
      assert ev.Lock? && Overlaps(CheckInit(rw, ev.lgen), ev.reader, ev.lgen, ev.wc) ==> ev.reader;
      hide CountOf;
      hide Lower;
      hide Bit;
      hide OverlapBits;
      hide HandleUnlock;
      hide Inserted;
      hide AtEnd;
      hide Wrap;
      hide IsSeqLower;
      hide IsSeqHigherEq;
      hide FindDiff;
      hide FindSeqTill;
      hide Overlaps;
      hide Redeems;
    }
  }

  /** From one round to the next, the word that is expected counts the readers the round
      let go and, one by one, those that have joined since. */
  lemma {:induction false} NextCountsJoins(rw: Rw, evs: seq<(Event, set<Thread>)>)
    requires SameRound(rw, evs)
    ensures CountOf(Run(rw, evs).nextSeqWord) == (CountOf(rw.nextSeqWord) + JoinsIn(rw, evs)) % COUNTS
    decreases |evs|
  {
    hide Step;
    hide Joins;
    hide Clears;
    hide CountOf;
    if evs != [] {
      var rw' := Step(rw, evs[0].0, evs[0].1).0;
      StepCountsJoins(rw, evs[0].0, evs[0].1);
      NextCountsJoins(rw', evs[1..]);
      AddOnce(CountOf(rw.nextSeqWord), One(Joins(rw, evs[0].0)), JoinsIn(rw', evs[1..]));
    }
  }

  lemma AddOnce(a: Seq, b: nat, c: nat)
    ensures ((a + b) % COUNTS + c) % COUNTS == (a + (b + c)) % COUNTS
  {
    var k := (a + b) / COUNTS;
    assert a + b == COUNTS * k + (a + b) % COUNTS;
    ModOf((a + b) % COUNTS + c, k);
  }

  lemma {:induction false} ModOf(x: nat, k: nat)
    ensures (x + COUNTS * k) % COUNTS == x % COUNTS
  {
    if k > 0 {
      ModOf(x, k - 1);
    }
  }

  /** Whether the last round, if the structure was not started over since, was one of
      readers with no writer in sight. */
  ghost function LastSawNoWriter(rw: Rw, evs: seq<(Event, set<Thread>)>, was: bool): bool
    decreases |evs|
  {
    if evs == [] then was
    else
      var (rw', out) := Step(rw, evs[0].0, evs[0].1);
      var now := if out.round.Some?
                 then out.round.value.kind == ReadRound && !SeesWriter(rw, ArrivalOf(evs[0].0))
                 else was && !Clears(rw, evs[0].0);
      LastSawNoWriter(rw', evs[1..], now)
  }

  lemma StepGuards(rw: Rw, ev: Event, asleep: set<Thread>)
    ensures var (rw', out) := Step(rw, ev, asleep);
            rw'.overlap <==> if out.round.Some? then out.round.value.kind == ReadRound && !SeesWriter(rw, ArrivalOf(ev))
                             else rw.overlap && !Clears(rw, ev)
  {
    hide Lower;
    hide Bit;
    hide CountOf;
    hide Redeems;
    hide Overlaps;
    hide OverlapBits;
    hide HandleUnlock;
    hide Inserted;
    hide AtEnd;
    hide Wrap;
    hide IsSeqLower;
    hide IsSeqHigherEq;
    hide FindDiff;
    hide FindSeqTill;
    if ev.Lock? {
      var rw1 := CheckInit(rw, ev.lgen);
      RoundNotPanic(rw1.(prepost := NoPending, initCleared := false), rw1.prepost.sseq, ArrivalOf(ev), asleep);
      RoundLeaves(rw1.(prepost := NoPending, initCleared := false), rw1.prepost.sseq, ArrivalOf(ev), asleep);
    } else if ev.Unlock? {
      UnlockNoPanic(rw, ev.lgen, ev.ugen, ev.wc, asleep);
      if Step(rw, ev, asleep).1.round.Some? {
        RoundLeaves(UnlockRoundState(rw, ev.lgen), ev.wc, Nobody, asleep);
      }
    }
  }

  /** Over every run the guard says just that. */
  lemma {:induction false} GuardIsLastRound(rw: Rw, evs: seq<(Event, set<Thread>)>)
    ensures Run(rw, evs).overlap <==> LastSawNoWriter(rw, evs, rw.overlap)
    decreases |evs|
  {
    hide Step;
    hide Clears;
    if evs != [] {
      StepGuards(rw, evs[0].0, evs[0].1);
      GuardIsLastRound(Step(rw, evs[0].0, evs[0].1).0, evs[1..]);
    }
  }

  /** So after any run, a lock call that returns at once, without a round and without a
      banked grant, is a reader's; the last round let readers go and saw no writer, and
      neither its lock word nor its S word announces one. */
  lemma OnlyReadersJoin(evs: seq<(Event, set<Thread>)>, ev: Event, asleep: set<Thread>)
    requires ev.Lock?
    requires var rw := Run(Fresh, evs);
             var out := Step(rw, ev, asleep).1;
             && out.err == Ok && !out.blocked && out.round.None?
             && !Redeems(CheckInit(rw, ev.lgen), if ev.reader then PTH_RW_TYPE_READ else PTH_RW_TYPE_WRITE,
                         CountOf(ev.lgen))
    ensures ev.reader && LastSawNoWriter(Fresh, evs, false) && !Clears(Run(Fresh, evs), ev)
    ensures !Bit(ev.lgen, PTH_RWL_WBIT) && !Bit(ev.wc, PTHRW_RWS_SAVEMASK)
  {
    hide CountOf;
    hide RwLockCall;
    hide Redeems;
    LockReturns(Run(Fresh, evs), ev.reader, ev.lgen, ev.wc, ev.t, asleep);
    GuardIsLastRound(Fresh, evs);
    hide LastSawNoWriter;
  }
}
