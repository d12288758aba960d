/**
 The kernel half of a pthread read-write lock: which blocked threads an unlock (or
 the last thread an earlier unlock was waiting for) lets go.
 */
module RwLock {
  import opened Options
  import opened SeqNum
  import opened Ksyn
  import opened Counting

  const KWQ_INTR_NONE := 0
  const KWQ_INTR_READ := 0x1
  const KWQ_INTR_WRITE := 0x2
  const PTH_RW_TYPE_READ := 0x01
  const PTH_RW_TYPE_WRITE := 0x04

  const PTH_RWL_WBIT := 0x04
  const PTH_RWL_MBIT := 0x40
  const PTHRW_RWL_INIT := 0x80
  const PTHRW_RWS_INIT := 0x01
  const PTH_RWS_SBIT := 0x01
  const PTHRW_RWS_SAVEMASK := 0x04

  predicate Bit(w: Word, mask: int)
    requires mask > 0
  {
    w / mask % 2 == 1
  }

  function Wrap(n: nat): Word {
    n % 0x1_0000_0000
  }

  /** Failed wake-ups that the threads will ask for again. */
  datatype Intr = Intr(kind: nat, count: nat, lockseq: Seq, bits: Word)

  /** An unlock that waits for threads still on their way to the kernel. */
  datatype Pending = Pending(count: nat, lseq: Seq, sseq: Word)

  datatype Rw = Rw(r: seq<Kwe>, w: seq<Kwe>, prepost: Pending, intr: Intr, initCleared: bool, overlap: bool,
                   lastSeqWord: Word, lastUnlock: Word, nextSeqWord: Word)

  const NoIntr := Intr(KWQ_INTR_NONE, 0, 0, 0)
  const NoPending := Pending(0, 0, PTHRW_RWS_INIT)
  const Fresh := Rw([], [], NoPending, NoIntr, false, false, PTHRW_RWS_INIT, PTHRW_RWL_INIT, PTHRW_RWS_INIT)

  /** The thread in whose call a grant round takes place, if it is a locker. */
  datatype Arrival = Nobody | Reader(c: Seq) | Writer(c: Seq)

  datatype Kind = ReadRound | WriteRound | Panic

  /** What a grant round does: `count` is the number put into the update word,
      `released` the dequeued threads, `failed` how many of those did not wake,
      `through` whether the arriving thread gets the lock. */
  datatype Round = Round(kind: Kind, count: nat, bits: Word, released: seq<Kwe>, failed: nat, through: bool)

  // ---------------------------------------------------------------- counting

  /** `ksyn_queue_count_tolowest`. */
  function CountToLowest(q: seq<Kwe>, upto: Seq): nat {
    if q == [] || Higher(q[0].lockseq, upto) then 0
    else if upto == q[0].lockseq then 1
    else CountFrom(q, 0, upto)
  }

  /** The loop of `ksyn_queue_count_tolowest`, from index `i` on. */
  function CountFrom(q: seq<Kwe>, i: nat, upto: Seq): nat
    requires i <= |q|
    decreases |q| - i
  {
    if i == |q| || Higher(q[i].lockseq, upto) then 0
    else if q[i].lockseq == upto then 1
    else 1 + CountFrom(q, i + 1, upto)
  }

  /** `find_seq_till`: whether enough threads are in place, and how many it saw. */
  function FindSeqTill(r: seq<Kwe>, w: seq<Kwe>, upto: Seq, need: nat): (bool, nat) {
    var n := CountToLowest(r, upto);
    var n := if n >= need then n else n + CountToLowest(w, upto);
    (n != 0 && n >= need, n)
  }

  function Absent(q: seq<Kwe>, asleep: set<Thread>): nat {
    if q == [] then 0
    else (if q[0].state.InWait? && q[0].state.thread in asleep then 0 else 1) + Absent(q[1..], asleep)
  }

  // ---------------------------------------------------------------- the grant round

  /** `kwq_find_rw_lowest`: lowest reader and lowest writer, the arriving thread
      included. */
  function LowestOf(q: seq<Kwe>, arriving: Option<Seq>): Option<Seq> {
    if q == [] then arriving
    else if arriving.Some? && Lower(arriving.value, q[0].lockseq) then arriving
    else Some(q[0].lockseq)
  }

  function LowReader(rw: Rw, arr: Arrival): Option<Seq> {
    LowestOf(rw.r, if arr.Reader? then Some(arr.c) else None)
  }

  function LowWriter(rw: Rw, arr: Arrival): Option<Seq> {
    LowestOf(rw.w, if arr.Writer? then Some(arr.c) else None)
  }

  function KindOf(rw: Rw, arr: Arrival): Kind {
    var lr, lw := LowReader(rw, arr), LowWriter(rw, arr);
    if lr.Some? && (lw.None? || !Lower(lw.value, lr.value)) then ReadRound
    else if lw.Some? then WriteRound
    else Panic
  }

  /** How many readers `ksyn_wakeupreaders` dequeues. */
  function ReadersBelow(r: seq<Kwe>, limit: Option<Seq>): nat {
    if limit.None? then |r| else FirstHigherEq(r, limit.value)
  }

  /** `kwq_handle_unlock`.  `asleep` are the threads whose wake-up succeeds. */
  function HandleUnlock(rw: Rw, wc: Word, arr: Arrival, asleep: set<Thread>): (Rw, Round) {
    var rw1 := rw.(lastSeqWord := wc, lastUnlock := Masked(wc), overlap := false);
    match KindOf(rw, arr)
    case ReadRound => GrantReaders(rw1, wc, arr, asleep)
    case WriteRound => GrantWriter(rw1, wc, arr, asleep)
    case Panic => (rw1, Round(Panic, 0, 0, [], 0, false))
  }

  function GrantReaders(rw: Rw, wc: Word, arr: Arrival, asleep: set<Thread>): (Rw, Round) {
    var lw := LowWriter(rw, arr);
    var through := arr.Reader? && (lw.None? || Lower(arr.c, lw.value));
    var count := (if lw.None? then |rw.r| else CountToLowest(rw.r, lw.value)) + if through then 1 else 0;
    var bits := Wrap((if lw.None? then 0 else PTH_RWL_WBIT + PTH_RWL_KBIT) + PTHRW_INC * count);
    var n := ReadersBelow(rw.r, lw);
    var failed := Absent(rw.r[..n], asleep);
    var rw1 := rw.(r := rw.r[n..], overlap := lw.None?, nextSeqWord := Wrap(Masked(wc) + bits),
                   intr := if failed == 0 then rw.intr
                           else Intr(KWQ_INTR_READ, failed, if lw.None? then 0 else lw.value, bits));
    (rw1, Round(ReadRound, count, bits, rw.r[..n], failed, through))
  }

  function GrantWriter(rw: Rw, wc: Word, arr: Arrival, asleep: set<Thread>): (Rw, Round)
    requires LowWriter(rw, arr).Some?
  {
    var low := LowWriter(rw, arr).value;
    var through := arr.Writer? && low == arr.c;
    var pending := if through then rw.w != [] else |rw.w| > 1 || arr.Writer?;
    var bits := PTHRW_INC + PTH_RWL_KBIT + PTH_RWL_EBIT + if pending then PTH_RWL_WBIT else 0;
    var n := if through || rw.w == [] then 0 else 1;
    var failed := Absent(rw.w[..n], asleep);
    var rw1 := rw.(w := rw.w[n..], nextSeqWord := Wrap(Masked(wc) + bits),
                   intr := if failed == 0 then rw.intr else Intr(KWQ_INTR_WRITE, 1, low, bits));
    (rw1, Round(if through || rw.w != [] then WriteRound else Panic, 1, bits, rw.w[..n], failed, through))
  }

  // ---------------------------------------------------------------- the entry points

  /** `_ksyn_check_init`, with `CLEAR_REINIT_BITS`. */
  function CheckInit(rw: Rw, lgen: Word): Rw {
    if Bit(lgen, PTHRW_RWL_INIT) && !rw.initCleared then
      Fresh.(r := rw.r, w := rw.w, initCleared := true)
    else rw
  }

  datatype Out = Out(err: Errno, blocked: bool, bits: Word, round: Option<Round>)

  /** `_psynch_rw_unlock`. */
  function RwUnlock(rw: Rw, lgen: Word, ugen: Word, wc: Word, asleep: set<Thread>): (Rw, Out) {
    var rw1 := CheckInit(rw, lgen);
    if rw1.lastUnlock != PTHRW_RWL_INIT && IsSeqLower(ugen, rw1.lastUnlock) then (rw1, Out(Ok, false, 0, None))
    else
      var diff := FindDiff(lgen, ugen);
      var (enough, count) := FindSeqTill(rw1.r, rw1.w, CountOf(lgen), diff);
      if !enough && (count == 0 || count < diff) then
        if Bit(rw1.prepost.sseq, PTH_RWS_SBIT) || IsSeqHigherEq(wc, rw1.prepost.sseq) then
          (rw1.(prepost := Pending(diff - count, CountOf(lgen), wc)), Out(Ok, false, lgen, None))
        else (rw1, Out(Ok, false, 0, None))
      else
        var cleared := Bit(lgen, PTHRW_RWL_INIT) && rw1.initCleared;
        var (rw3, round) := HandleUnlock(UnlockRoundState(rw, lgen), wc, Nobody, asleep);
        (rw3.(initCleared := rw3.initCleared || (cleared && rw3.intr.count > 0)),
         Out(Ok, false, round.bits, Some(round)))
  }

  /** `_kwq_handle_interrupted_wakeup`. */
  predicate Redeems(rw: Rw, kind: nat, lseq: Seq) {
    rw.intr.count != 0 && rw.intr.kind == kind && (rw.intr.lockseq == 0 || LowerEq(lseq, rw.intr.lockseq))
  }

  function Redeemed(rw: Rw): Rw
    requires rw.intr.count != 0
  {
    rw.(intr := if rw.intr.bits == 0 then NoIntr else rw.intr.(count := rw.intr.count - 1))
  }

  /** `_kwq_handle_overlap`. */
  predicate Overlaps(rw: Rw, reader: bool, lgen: Word, wc: Word) {
    && reader && rw.overlap && !Bit(wc, PTHRW_RWS_SAVEMASK) && !Bit(lgen, PTH_RWL_WBIT)
    && (IsSeqLowerEq(wc, rw.nextSeqWord) || IsSeqHigherEq(rw.lastSeqWord, wc))
  }

  function OverlapBits(next: Word): Word {
    PTHRW_INC + next % PTHRW_INC + if Bit(next, PTH_RWL_MBIT) then 0 else PTH_RWL_MBIT
  }

  /** `_kwq_handle_preposted_wakeup`: the arriving thread may be the last one an
      earlier unlock was waiting for. */
  function Preposted(rw: Rw, arr: Arrival, asleep: set<Thread>): (Rw, Option<Round>)
    requires !arr.Nobody?
  {
    if rw.prepost.count == 0 || !LowerEq(arr.c, rw.prepost.lseq) then (rw, None)
    else if rw.prepost.count > 1 then (rw.(prepost := rw.prepost.(count := rw.prepost.count - 1)), None)
    else
      var (rw1, round) := HandleUnlock(rw.(prepost := NoPending, initCleared := false), rw.prepost.sseq, arr, asleep);
      (rw1, Some(round))
  }

  /** `__psynch_rw_lock`, up to the point where the thread blocks. */
  function RwLockCall(rw: Rw, reader: bool, lgen: Word, wc: Word, t: Thread, asleep: set<Thread>): (Rw, Out) {
    var c := CountOf(lgen);
    var arr := if reader then Reader(c) else Writer(c);
    var rw1 := CheckInit(rw, lgen);
    if Redeems(rw1, if reader then PTH_RW_TYPE_READ else PTH_RW_TYPE_WRITE, c) then
      (Redeemed(rw1), Out(Ok, false, rw1.intr.bits, None))
    else if Overlaps(rw1, reader, lgen, wc) then
      var next := Wrap(rw1.nextSeqWord + PTHRW_INC);
      (rw1.(nextSeqWord := next), Out(Ok, false, OverlapBits(next), None))
    else
      var (rw2, round) := Preposted(rw1, arr, asleep);
      if round.Some? && round.value.through then (rw2, Out(Ok, false, round.value.bits, round))
      else
        var q := if reader then rw2.r else rw2.w;
        if AtEnd(q, c) then (rw2, Out(EBUSY, false, 0, round))
        else
          var q' := Inserted(q, Kwe(c, InWait(t)));
          (if reader then rw2.(r := q') else rw2.(w := q'), Out(Ok, true, 0, round))
  }

  /** `_psynch_rw_continue` of an interrupted wait. */
  function RwAbort(rw: Rw, reader: bool, i: nat): Rw {
    if reader then (if i < |rw.r| then rw.(r := Removed(rw.r, i)) else rw)
    else if i < |rw.w| then rw.(w := Removed(rw.w, i)) else rw
  }

  // ---------------------------------------------------------------- what a round means

  ghost predicate AllWaiting(q: seq<Kwe>) {
    forall i | 0 <= i < |q| :: q[i].state.InWait?
  }

  ghost predicate RwInv(rw: Rw) {
    Sorted(rw.r) && Sorted(rw.w) && AllWaiting(rw.r) && AllWaiting(rw.w)
  }

  ghost predicate Fits(b: Seq, rw: Rw, arr: Arrival) {
    Windowed(b, rw.r) && Windowed(b, rw.w) && (!arr.Nobody? ==> InWindow(b, arr.c))
  }

  /** How many threads a round lets go. */
  function Granted(round: Round): nat {
    |round.released| + if round.through then 1 else 0
  }

  predicate HasNumber(q: seq<Kwe>, c: Seq) {
    exists i :: 0 <= i < |q| && q[i].lockseq == c
  }

  /** Some queued reader has the number of the lowest writer. */
  predicate SharesNumber(rw: Rw, arr: Arrival) {
    var lw := LowWriter(rw, arr);
    lw.Some? && HasNumber(rw.r, lw.value)
  }

  /** A round of readers: exactly those below the lowest writer go, and with them
      an arriving reader that is; no writer moves. */
  ghost predicate IsReadRound(rw: Rw, arr: Arrival, rw': Rw, round: Round) {
    var lw := LowWriter(rw, arr);
    && rw'.w == rw.w && rw.r == round.released + rw'.r
    && (forall i | 0 <= i < |round.released| :: lw.None? || Lower(round.released[i].lockseq, lw.value))
    && (rw'.r != [] ==> lw.Some?)
    && (forall i | 0 <= i < |rw'.r| :: !Lower(rw'.r[i].lockseq, lw.value))
    && (round.through <==> arr.Reader? && (lw.None? || Lower(arr.c, lw.value)))
  }

  /** A round for one writer: the lowest one, which is either queued or arriving;
      no reader moves. */
  ghost predicate IsWriteRound(rw: Rw, arr: Arrival, rw': Rw, round: Round) {
    && rw'.r == rw.r && rw.w == round.released + rw'.w
    && Granted(round) == 1
    && (round.through ==> arr.Writer? && forall i | 0 <= i < |rw.w| :: LowerEq(arr.c, rw.w[i].lockseq))
    && (!round.through ==> forall i | 0 <= i < |rw.w| :: LowerEq(round.released[0].lockseq, rw.w[i].lockseq))
    && (!round.through && arr.Writer? ==> Lower(round.released[0].lockseq, arr.c))
    && (forall i | 0 <= i < |rw.r| :: Lower(LowWriter(rw, arr).value, rw.r[i].lockseq))
    && (arr.Reader? ==> Lower(LowWriter(rw, arr).value, arr.c))
  }

  /** The loop counts the readers below, and once the first that is equal. */
  lemma CountFromExact(b: Seq, q: seq<Kwe>, i: nat, upto: Seq)
    requires Sorted(q) && Windowed(b, q) && InWindow(b, upto)
    requires i <= FirstHigherEq(q, upto)
    ensures var k := FirstHigherEq(q, upto);
            CountFrom(q, i, upto) == k - i + if k < |q| && q[k].lockseq == upto then 1 else 0
    decreases |q| - i
  {
    hide Lower;
    hide InWindow;
    hide Masked;
    hide Wrap;
    OrderFacts();
    if i < |q| && !HigherEq(q[i].lockseq, upto) {
      CountFromExact(b, q, i + 1, upto);
    }
  }

  lemma EqualIsFirst(b: Seq, q: seq<Kwe>, c: Seq)
    requires Sorted(q) && Windowed(b, q) && InWindow(b, c)
    ensures forall i | FirstHigherEq(q, c) <= i < |q| :: HigherEq(q[i].lockseq, c)
    ensures var k := FirstHigherEq(q, c);
            HasNumber(q, c) <==> k < |q| && q[k].lockseq == c
  {
    hide Lower;
    hide InWindow;
    hide Masked;
    hide Wrap;
    AboveFirst(b, q, c);
    var k := FirstHigherEq(q, c);
    forall i | 0 <= i < |q| && q[i].lockseq == c
      ensures k < |q| && q[k].lockseq == c
    {
      OrderFacts();
      assert k < i ==> LowerEq(q[k].lockseq, q[i].lockseq);
    }
  }

  lemma LowestOfBound(b: Seq, q: seq<Kwe>, arriving: Option<Seq>)
    requires Sorted(q) && Windowed(b, q) && (arriving.Some? ==> InWindow(b, arriving.value))
    ensures match LowestOf(q, arriving)
            case None => q == [] && arriving.None?
            case Some(low) =>
              && InWindow(b, low)
              && (forall i | 0 <= i < |q| :: LowerEq(low, q[i].lockseq))
              && (arriving.Some? ==> LowerEq(low, arriving.value))
              && (arriving == Some(low) || (q != [] && low == q[0].lockseq))
  {
    hide Lower;
    hide InWindow;
    hide Masked;
    hide Wrap;
    OrderFacts();
    if q != [] {
      forall i | 0 <= i < |q|
        ensures LowerEq(LowestOf(q, arriving).value, q[i].lockseq)
      {
        LowerEqTransitive(b, LowestOf(q, arriving).value, q[0].lockseq, q[i].lockseq);
      }
    }
  }

  lemma ReadRoundIs(b: Seq, rw: Rw, wc: Word, arr: Arrival, asleep: set<Thread>)
    requires RwInv(rw) && Fits(b, rw, arr) && KindOf(rw, arr) == ReadRound
    ensures var (rw', round) := HandleUnlock(rw, wc, arr, asleep);
            && IsReadRound(rw, arr, rw', round)
            && round.count == Granted(round) + (if SharesNumber(rw, arr) then 1 else 0)
  {
    hide Sorted;
    hide AllWaiting;
    hide Windowed;
    hide InWindow;
    hide Lower;
    hide Masked;
    hide HasNumber;
    hide KindOf;
    hide LowestOf;
    hide GrantReaders;
    var rw1 := rw.(lastSeqWord := wc, lastUnlock := Masked(wc), overlap := false);
    assert HandleUnlock(rw, wc, arr, asleep) == GrantReaders(rw1, wc, arr, asleep);
    assert LowWriter(rw1, arr) == LowWriter(rw, arr);
    GrantReadersIs(b, rw1, wc, arr, asleep);
  }

  lemma GrantReadersIs(b: Seq, rw: Rw, wc: Word, arr: Arrival, asleep: set<Thread>)
    requires RwInv(rw) && Fits(b, rw, arr)
    ensures var (rw', round) := GrantReaders(rw, wc, arr, asleep);
            && IsReadRound(rw, arr, rw', round) && round.kind == ReadRound
            && round.count == Granted(round) + (if SharesNumber(rw, arr) then 1 else 0)
  {
    GrantReadersRound(b, rw, wc, arr, asleep);
    GrantReadersCount(b, rw, wc, arr, asleep);
    hide GrantReaders;
    hide IsReadRound;
    hide SharesNumber;
  }

  lemma GrantReadersCount(b: Seq, rw: Rw, wc: Word, arr: Arrival, asleep: set<Thread>)
    requires RwInv(rw) && Fits(b, rw, arr)
    ensures var round := GrantReaders(rw, wc, arr, asleep).1;
            round.count == Granted(round) + (if SharesNumber(rw, arr) then 1 else 0)
  {
    hide Lower;
    hide InWindow;
    hide Masked;
    hide Wrap;
    hide CountToLowest;
    hide Absent;
    hide Sorted;
    hide Windowed;
    hide AllWaiting;
    hide FirstHigherEq;
    hide LowestOf;
    hide HasNumber;
    LowestOfBound(b, rw.w, if arr.Writer? then Some(arr.c) else None);
    if LowWriter(rw, arr).Some? {
      ReadersSplit(b, rw.r, LowWriter(rw, arr).value);
    }
  }

  lemma GrantReadersRound(b: Seq, rw: Rw, wc: Word, arr: Arrival, asleep: set<Thread>)
    requires RwInv(rw) && Fits(b, rw, arr)
    ensures var (rw', round) := GrantReaders(rw, wc, arr, asleep);
            IsReadRound(rw, arr, rw', round) && round.kind == ReadRound
  {
    hide Lower;
    hide InWindow;
    hide Masked;
    hide Wrap;
    hide CountToLowest;
    hide Absent;
    hide Sorted;
    hide Windowed;
    hide AllWaiting;
    hide FirstHigherEq;
    hide LowestOf;
    hide HasNumber;
    var lw := LowWriter(rw, arr);
    LowestOfBound(b, rw.w, if arr.Writer? then Some(arr.c) else None);
    var n := ReadersBelow(rw.r, lw);
    assert rw.r == rw.r[..n] + rw.r[n..];
    if lw.Some? {
      ReadersSplit(b, rw.r, lw.value);
    } else {
      assert rw.r[|rw.r|..] == [];
    }
  }

  /** The dequeued prefix, the rest, and the count of `ksyn_queue_count_tolowest`. */
  lemma ReadersSplit(b: Seq, r: seq<Kwe>, limit: Seq)
    requires Sorted(r) && Windowed(b, r) && InWindow(b, limit)
    ensures var n := FirstHigherEq(r, limit);
            && (forall i | 0 <= i < n :: Lower(r[i].lockseq, limit))
            && (forall i | n <= i < |r| :: !Lower(r[i].lockseq, limit))
            && CountToLowest(r, limit) == n + if HasNumber(r, limit) then 1 else 0
  {
    hide Lower;
    hide InWindow;
    hide Masked;
    hide Wrap;
    OrderFacts();
    hide CountFrom;
    EqualIsFirst(b, r, limit);
    CountFromExact(b, r, 0, limit);
  }

  lemma WriteRoundIs(b: Seq, rw: Rw, wc: Word, arr: Arrival, asleep: set<Thread>)
    requires RwInv(rw) && Fits(b, rw, arr) && KindOf(rw, arr) == WriteRound
    ensures var (rw', round) := HandleUnlock(rw, wc, arr, asleep);
            IsWriteRound(rw, arr, rw', round) && round.kind == WriteRound
  {
    hide Lower;
    hide InWindow;
    hide Masked;
    hide Wrap;
    OrderFacts();
    LowestOfBound(b, rw.w, if arr.Writer? then Some(arr.c) else None);
    LowestOfBound(b, rw.r, if arr.Reader? then Some(arr.c) else None);
    var lw, lr := LowWriter(rw, arr).value, LowReader(rw, arr);
    if lr.Some? {
      forall i | 0 <= i < |rw.r|
        ensures Lower(lw, rw.r[i].lockseq)
      {
        LowerThenEq(b, lw, lr.value, rw.r[i].lockseq);
      }
      if arr.Reader? {
        LowerThenEq(b, lw, lr.value, arr.c);
      }
    }
  }

  /** Every grant round lets go exactly the readers below the lowest writer or
      exactly one writer, the lowest, and never both.  The count it reports is the
      number of threads let go, unless a reader shares the lowest writer's number:
      then, and only then, it is off. */
  lemma GrantRound(b: Seq, rw: Rw, wc: Word, arr: Arrival, asleep: set<Thread>)
    requires RwInv(rw) && Fits(b, rw, arr) && KindOf(rw, arr) != Panic
    ensures var (rw', round) := HandleUnlock(rw, wc, arr, asleep);
            && (round.kind == ReadRound || round.kind == WriteRound)
            && (round.kind == ReadRound ==> IsReadRound(rw, arr, rw', round))
            && (round.kind == WriteRound ==> IsWriteRound(rw, arr, rw', round))
            && (round.count == Granted(round) <==> !SharesNumber(rw, arr))
  {
    hide Lower;
    hide InWindow;
    hide Masked;
    hide Wrap;
    if KindOf(rw, arr) == ReadRound {
      ReadRoundIs(b, rw, wc, arr, asleep);
    } else {
      WriteRoundIs(b, rw, wc, arr, asleep);
      OrderFacts();
    }
  }

  /** The kind under which the failed wake-ups of a round are banked. */
  function IntrKind(kind: Kind): nat {
    match kind
    case ReadRound => KWQ_INTR_READ
    case WriteRound => KWQ_INTR_WRITE
    case Panic => KWQ_INTR_NONE
  }

  /** Failed wake-ups are banked, all of them, for the words the threads would
      have got, in place of what was banked before; without any, that stays. */
  lemma FailedWakeupsBanked(rw: Rw, wc: Word, arr: Arrival, asleep: set<Thread>)
    ensures var (rw', round) := HandleUnlock(rw, wc, arr, asleep);
            && round.failed == Absent(round.released, asleep)
            && (if round.failed == 0 then rw'.intr == rw.intr
                else
                  && rw'.intr.count == round.failed && rw'.intr.bits == round.bits
                  && rw'.intr.kind == IntrKind(round.kind) && round.kind != Panic)
  {
    hide Lower;
    hide InWindow;
    hide Masked;
    hide Wrap;
    if rw.w != [] {
      assert rw.w[..1][1..] == [];
    }
  }

  /** A round shortens the queues from the front. */
  lemma RoundShape(rw: Rw, wc: Word, arr: Arrival, asleep: set<Thread>) returns (n: nat, m: nat)
    ensures n <= |rw.r| && m <= |rw.w|
    ensures var rw' := HandleUnlock(rw, wc, arr, asleep).0;
            rw'.r == rw.r[n..] && rw'.w == rw.w[m..]
  {
    hide Lower;
    hide InWindow;
    hide Masked;
    hide Wrap;
    n, m := 0, 0;
    assert rw.r[0..] == rw.r && rw.w[0..] == rw.w;
    match KindOf(rw, arr)
    case ReadRound => n := ReadersBelow(rw.r, LowWriter(rw, arr));
    case WriteRound => m := |HandleUnlock(rw, wc, arr, asleep).1.released|;
    case Panic =>
  }

  lemma RoundKeepsInv(b: Seq, rw: Rw, wc: Word, arr: Arrival, asleep: set<Thread>)
    requires RwInv(rw) && Windowed(b, rw.r) && Windowed(b, rw.w)
    ensures var rw' := HandleUnlock(rw, wc, arr, asleep).0;
            RwInv(rw') && Windowed(b, rw'.r) && Windowed(b, rw'.w)
  {
    hide Lower;
    hide InWindow;
    hide Masked;
    hide Wrap;
    var n, m := RoundShape(rw, wc, arr, asleep);
  }

  /** The count can be off: a reader and a writer that both come with number one, and
      an unlock that expects no thread.  The round reports a count of one and lets
      nobody go. */
  lemma CountCanBeOff(reader: Thread, writer: Thread, asleep: set<Thread>)
    ensures var rw := Run(Fresh, [(Lock(true, 0x100, 0, reader), asleep), (Lock(false, 0x100, 0, writer), asleep)]);
            var (rw', out) := RwUnlock(rw, 0x100, 0x100, 0x100, asleep);
            && out.round.Some? && out.round.value.count == 1 && Granted(out.round.value) == 0
            && rw'.r == rw.r == [Kwe(1, InWait(reader))] && rw'.w == rw.w == [Kwe(1, InWait(writer))]
  {
    var evs: seq<(Event, set<Thread>)> :=
      [(Lock(true, 0x100, 0, reader), asleep), (Lock(false, 0x100, 0, writer), asleep)];
    var rw1 := Step(Fresh, evs[0].0, asleep).0;
    assert rw1 == Fresh.(r := [Kwe(1, InWait(reader))]);
    var rw2 := Step(rw1, evs[1].0, asleep).0;
    assert rw2 == rw1.(w := [Kwe(1, InWait(writer))]);
    RoundOfNobody(rw2, Kwe(1, InWait(reader)), Kwe(1, InWait(writer)), asleep);
    hide RwUnlock;
    hide Step;
    calc {
      Run(Fresh, evs);
      Run(rw1, evs[1..]);
      { assert evs[1..][0] == evs[1]; }
      Run(rw2, evs[1..][1..]);
      { assert |evs[1..][1..]| == 0; }
      rw2;
    }
  }

  lemma RoundOfNobody(rw: Rw, reader: Kwe, writer: Kwe, asleep: set<Thread>)
    requires rw == Fresh.(r := [reader], w := [writer]) && reader.lockseq == writer.lockseq == 1
    ensures var (rw', out) := RwUnlock(rw, 0x100, 0x100, 0x100, asleep);
            && out.round.Some? && out.round.value.count == 1 && Granted(out.round.value) == 0
            && rw'.r == rw.r && rw'.w == rw.w
  {
    hide Absent;
    hide CountFrom;
    hide Wrap;
    assert CountToLowest(rw.r, 1) == 1 && FirstHigherEq(rw.r, 1) == 0;
  }

  /** Unless a reader shares the lowest writer's number, a round lets somebody go. */
  lemma RoundIsNotEmpty(b: Seq, rw: Rw, wc: Word, arr: Arrival, asleep: set<Thread>)
    requires RwInv(rw) && Fits(b, rw, arr) && KindOf(rw, arr) != Panic
    requires !SharesNumber(rw, arr)
    requires arr.Reader? && LowWriter(rw, arr).Some? ==> arr.c != LowWriter(rw, arr).value
    ensures var round := HandleUnlock(rw, wc, arr, asleep).1;
            |round.released| > 0 || round.through
  {
    if KindOf(rw, arr) == ReadRound {
      ReadRoundIs(b, rw, wc, arr, asleep);
      LowestIsBelow(b, rw, arr);
      hide *;
      var (rw', round) := HandleUnlock(rw, wc, arr, asleep);
      SomebodyBelow(rw, arr, rw', round);
    } else {
      WriteRoundIs(b, rw, wc, arr, asleep);
    }
  }

  /** The lowest reader of a round of readers is below the lowest writer, unless the
      two share their number. */
  lemma LowestIsBelow(b: Seq, rw: Rw, arr: Arrival)
    requires RwInv(rw) && Fits(b, rw, arr) && KindOf(rw, arr) == ReadRound && !SharesNumber(rw, arr)
    requires arr.Reader? && LowWriter(rw, arr).Some? ==> arr.c != LowWriter(rw, arr).value
    ensures var lr, lw := LowReader(rw, arr), LowWriter(rw, arr);
            && lr.Some? && (lw.Some? ==> Lower(lr.value, lw.value))
            && ((rw.r != [] && lr.value == rw.r[0].lockseq) || (arr.Reader? && lr.value == arr.c))
  {
    hide Lower;
    hide InWindow;
    hide Sorted;
    hide Windowed;
    hide AllWaiting;
    OrderFacts();
    LowestOfBound(b, rw.r, if arr.Reader? then Some(arr.c) else None);
  }

  lemma SomebodyBelow(rw: Rw, arr: Arrival, rw': Rw, round: Round)
    requires IsReadRound(rw, arr, rw', round)
    requires var lr, lw := LowReader(rw, arr), LowWriter(rw, arr);
             && lr.Some? && (lw.Some? ==> Lower(lr.value, lw.value))
             && ((rw.r != [] && lr.value == rw.r[0].lockseq) || (arr.Reader? && lr.value == arr.c))
    ensures |round.released| > 0 || round.through
  {
    hide Lower;
    hide LowestOf;
    if round.released == [] {
      assert rw'.r == rw.r;
    }
  }

  // ---------------------------------------------------------------- no panic

  /** A round that takes place in an unlock finds a thread to let go, whatever the
      words are: it does not reach a panic. */
  lemma UnlockNoPanic(rw: Rw, lgen: Word, ugen: Word, wc: Word, asleep: set<Thread>)
    ensures var round := RwUnlock(rw, lgen, ugen, wc, asleep).1.round;
            round.Some? ==> round.value.kind != Panic && |rw.r| + |rw.w| > 0
  {
    hide FindSeqTill;
    hide Bit;
    hide FindDiff;
    hide IsSeqLower;
    hide IsSeqHigherEq;
    hide CountOf;
    hide HandleUnlock;
    UnlockHasThreads(rw, lgen, ugen, wc, asleep);
    if RwUnlock(rw, lgen, ugen, wc, asleep).1.round.Some? {
      RoundNotPanic(UnlockRoundState(rw, lgen), wc, Nobody, asleep);
    }
  }

  /** Neither does one in a lock call, which has at least the caller. */
  lemma LockNoPanic(rw: Rw, reader: bool, lgen: Word, wc: Word, t: Thread, asleep: set<Thread>)
    ensures var round := RwLockCall(rw, reader, lgen, wc, t, asleep).1.round;
            round.Some? ==> round.value.kind != Panic
  {
    hide Bit;
    hide CountOf;
    hide Overlaps;
    hide OverlapBits;
    hide Redeems;
    hide Inserted;
    hide AtEnd;
    hide Lower;
    hide HandleUnlock;
    var arr := if reader then Reader(CountOf(lgen)) else Writer(CountOf(lgen));
    var rw1 := CheckInit(rw, lgen);
    RoundNotPanic(rw1.(prepost := NoPending, initCleared := false), rw1.prepost.sseq, arr, asleep);
  }

  /** The state in which the grant round of an unlock starts. */
  function UnlockRoundState(rw: Rw, lgen: Word): Rw {
    var rw1 := CheckInit(rw, lgen);
    rw1.(prepost := NoPending, initCleared := rw1.initCleared && !Bit(lgen, PTHRW_RWL_INIT))
  }

  /** An unlock that goes on to a grant round has seen a queued thread. */
  lemma UnlockHasThreads(rw: Rw, lgen: Word, ugen: Word, wc: Word, asleep: set<Thread>)
    ensures RwUnlock(rw, lgen, ugen, wc, asleep).1.round.Some? ==> |rw.r| + |rw.w| > 0
  {
    hide FindDiff;
    hide IsSeqLower;
    hide IsSeqHigherEq;
    hide HandleUnlock;
    hide Bit;
    hide CountOf;
    hide FindSeqTill;
    EnoughSeen(rw.r, rw.w, CountOf(lgen), FindDiff(lgen, ugen));
  }

  /** Seeing enough threads means there is one. */
  lemma EnoughSeen(r: seq<Kwe>, w: seq<Kwe>, upto: Seq, need: nat)
    ensures var (enough, count) := FindSeqTill(r, w, upto, need);
            (enough ==> count > 0) && (count > 0 ==> |r| + |w| > 0)
  {
    hide CountFrom;
    hide Lower;
  }

  lemma RoundNotPanic(rw: Rw, wc: Word, arr: Arrival, asleep: set<Thread>)
    requires !arr.Nobody? || |rw.r| + |rw.w| > 0
    ensures HandleUnlock(rw, wc, arr, asleep).1.kind != Panic
  {
    hide Lower;
    hide Wrap;
    hide Masked;
    hide CountToLowest;
    hide Absent;
  }

  /** The write bit is set in every round that leaves a writer queued. */
  lemma WriteBitSet(rw: Rw, wc: Word, arr: Arrival, asleep: set<Thread>)
    ensures var (rw', round) := HandleUnlock(rw, wc, arr, asleep);
            round.kind != Panic && rw'.w != [] ==> Bit(round.bits, PTH_RWL_WBIT)
    ensures var (rw', round) := HandleUnlock(rw, wc, arr, asleep);
            round.kind == WriteRound ==> Bit(round.bits, PTH_RWL_KBIT) && Bit(round.bits, PTH_RWL_EBIT)
  {
    hide Lower;
    hide Masked;
    hide Wrap;
    hide Bit;
    hide CountToLowest;
    hide Absent;
    hide FirstHigherEq;
    LowByte(PTH_RWL_WBIT + PTH_RWL_KBIT, HandleUnlock(rw, wc, arr, asleep).1.count);
    ConstantBits();
  }

  lemma ConstantBits()
    ensures var bits := PTHRW_INC + PTH_RWL_KBIT + PTH_RWL_EBIT;
            && Bit(bits, PTH_RWL_KBIT) && Bit(bits, PTH_RWL_EBIT)
            && Bit(bits + PTH_RWL_WBIT, PTH_RWL_KBIT) && Bit(bits + PTH_RWL_WBIT, PTH_RWL_EBIT)
            && Bit(bits + PTH_RWL_WBIT, PTH_RWL_WBIT) && Bit(PTH_RWL_WBIT + PTH_RWL_KBIT, PTH_RWL_WBIT)
  {
  }

  lemma LowByte(low: nat, n: nat)
    requires low < PTHRW_INC
    ensures var w := Wrap(low + PTHRW_INC * n);
            w % PTHRW_INC == low && (Bit(w, PTH_RWL_WBIT) <==> Bit(low, PTH_RWL_WBIT))
  {
    var w := Wrap(low + PTHRW_INC * n);
    var m := (low + PTHRW_INC * n) / 0x1_0000_0000;
    assert w == low + PTHRW_INC * (n - 0x100_0000 * m);
    var k := n - 0x100_0000 * m;
    assert w / PTH_RWL_WBIT == low / PTH_RWL_WBIT + 64 * k;
  }

  // ---------------------------------------------------------------- an unlock that waits

  /** How many queued threads `find_seq_till` counts at or below a number: those
      below it, and one that has it. */
  function SeenUpTo(q: seq<Kwe>, c: Seq): nat {
    FirstHigherEq(q, c) + if HasNumber(q, c) then 1 else 0
  }

  lemma SeenIsCounted(b: Seq, q: seq<Kwe>, c: Seq)
    requires Sorted(q) && Windowed(b, q) && InWindow(b, c)
    ensures CountToLowest(q, c) == SeenUpTo(q, c)
  {
    hide Lower;
    hide InWindow;
    OrderFacts();
    hide CountFrom;
    EqualIsFirst(b, q, c);
    CountFromExact(b, q, 0, c);
  }

  /** What an unlock does: nothing when it is stale; a grant round exactly when as
      many threads are queued as it expects, and at least one; and otherwise it waits
      for the missing ones, unless a later unlock waits already.  (Expecting none, it
      looks at the readers only.) */
  lemma UnlockOutcome(b: Seq, rw: Rw, lgen: Word, ugen: Word, wc: Word, asleep: set<Thread>)
    requires RwInv(rw) && Fits(b, rw, Nobody) && InWindow(b, CountOf(lgen))
    ensures var (rw', out) := RwUnlock(rw, lgen, ugen, wc, asleep);
            var rw1 := CheckInit(rw, lgen);
            var stale := rw1.lastUnlock != PTHRW_RWL_INIT && IsSeqLower(ugen, rw1.lastUnlock);
            var expected := FindDiff(lgen, ugen);
            var seen := SeenUpTo(rw.r, CountOf(lgen)) + if expected == 0 then 0 else SeenUpTo(rw.w, CountOf(lgen));
            && (out.round.Some? <==> !stale && seen >= expected && seen > 0)
            && (!stale && out.round.None? ==>
                  if Bit(rw1.prepost.sseq, PTH_RWS_SBIT) || IsSeqHigherEq(wc, rw1.prepost.sseq)
                  then rw' == rw1.(prepost := Pending(expected - seen, CountOf(lgen), wc)) && out.bits == lgen
                  else rw' == rw1 && out.bits == 0)
            && (stale ==> rw' == rw1 && out.bits == 0)
  {
    hide Lower;
    hide InWindow;
    hide IsSeqLower;
    hide IsSeqHigherEq;
    hide Bit;
    hide FindDiff;
    hide HandleUnlock;
    hide Sorted;
    hide Windowed;
    SeenIsCounted(b, rw.r, CountOf(lgen));
    SeenIsCounted(b, rw.w, CountOf(lgen));
    hide CountToLowest;
    hide SeenUpTo;
  }

  /** The call starts the structure over: the first with the I bit. */
  predicate Clears(rw: Rw, ev: Event) {
    !ev.Abort? && Bit(ev.lgen, PTHRW_RWL_INIT) && !rw.initCleared
  }

  /** An unlock older than the last one. */
  predicate Stale(rw: Rw, ev: Event) {
    ev.Unlock? && rw.lastUnlock != PTHRW_RWL_INIT && IsSeqLower(ev.ugen, rw.lastUnlock)
  }

  /** A lock call that neither takes a banked grant nor joins the readers, at a
      number that a waiting unlock counts. */
  predicate Counts(rw: Rw, ev: Event) {
    && ev.Lock? && rw.prepost.count > 0 && LowerEq(CountOf(ev.lgen), rw.prepost.lseq)
    && !Redeems(rw, if ev.reader then PTH_RW_TYPE_READ else PTH_RW_TYPE_WRITE, CountOf(ev.lgen))
    && !Overlaps(rw, ev.reader, ev.lgen, ev.wc)
  }

  /** Any run without a later unlock and without starting over: lock calls of all
      kinds, interrupted waits, stale unlocks. */
  ghost predicate NoLaterUnlock(rw: Rw, evs: seq<(Event, set<Thread>)>)
    decreases |evs|
  {
    evs != [] ==>
      && !Clears(rw, evs[0].0) && (evs[0].0.Unlock? ==> Stale(rw, evs[0].0))
      && NoLaterUnlock(Step(rw, evs[0].0, evs[0].1).0, evs[1..])
  }

  /** Which steps of a run contain a grant round. */
  function Rounds(rw: Rw, evs: seq<(Event, set<Thread>)>): (r: seq<bool>)
    ensures |r| == |evs|
    decreases |evs|
  {
    if evs == [] then []
    else
      var (rw', out) := Step(rw, evs[0].0, evs[0].1);
      [out.round.Some?] + Rounds(rw', evs[1..])
  }

  /** How many steps of a run the waiting unlock counts. */
  function Counted(rw: Rw, evs: seq<(Event, set<Thread>)>): nat
    decreases |evs|
  {
    if evs == [] then 0
    else One(Counts(rw, evs[0].0)) + Counted(Step(rw, evs[0].0, evs[0].1).0, evs[1..])
  }

  lemma OneStepWaiting(rw: Rw, ev: Event, asleep: set<Thread>)
    requires !Clears(rw, ev) && (ev.Unlock? ==> Stale(rw, ev))
    ensures var (rw', out) := Step(rw, ev, asleep);
            && (out.round.Some? <==> Counts(rw, ev) && rw.prepost.count == 1)
            && rw'.prepost.count == rw.prepost.count - One(Counts(rw, ev))
  {
    hide Lower;
    hide Bit;
    hide CountOf;
    hide Redeems;
    hide Overlaps;
    hide HandleUnlock;
    hide Inserted;
    hide AtEnd;
    hide IsSeqLower;
    hide FindSeqTill;
    hide FindDiff;
    if ev.Lock? {
      var arr := ArrivalOf(ev);
      RoundKeepsWaiting(rw.(prepost := NoPending, initCleared := false), rw.prepost.sseq, arr, asleep);
    }
  }

  lemma RoundKeepsWaiting(rw: Rw, wc: Word, arr: Arrival, asleep: set<Thread>)
    ensures HandleUnlock(rw, wc, arr, asleep).0.prepost == rw.prepost
  {
    hide Lower;
    hide Masked;
    hide Wrap;
    hide CountToLowest;
    hide Absent;
    hide FirstHigherEq;
  }

  /** An unlock that waits for `n` threads takes its grant round in the `n`th lock
      call it counts, whatever else happens in between, and in no other step. */
  lemma {:induction false} WaitingUnlockFiresAtLast(rw: Rw, evs: seq<(Event, set<Thread>)>, i: nat)
    requires NoLaterUnlock(rw, evs) && i < |evs|
    ensures Rounds(rw, evs)[i] <==>
            Counted(rw, evs[..i]) + 1 == rw.prepost.count && Counted(rw, evs[..i + 1]) == rw.prepost.count
    decreases |evs|
  {
    hide Step;
    hide Counts;
    hide Clears;
    hide Stale;
    OneStepWaiting(rw, evs[0].0, evs[0].1);
    var rw' := Step(rw, evs[0].0, evs[0].1).0;
    assert evs[..i + 1][1..] == evs[1..][..i];
    if i > 0 {
      assert evs[..i][1..] == evs[1..][..i - 1];
      WaitingUnlockFiresAtLast(rw', evs[1..], i - 1);
      CountedBound(rw', evs[1..], i);
    }
  }

  lemma {:induction false} CountedBound(rw: Rw, evs: seq<(Event, set<Thread>)>, i: nat)
    requires NoLaterUnlock(rw, evs) && i <= |evs|
    ensures Counted(rw, evs[..i]) <= rw.prepost.count
    decreases |evs|
  {
    hide Step;
    hide Counts;
    if i > 0 {
      OneStepWaiting(rw, evs[0].0, evs[0].1);
      assert evs[..i][1..] == evs[1..][..i - 1];
      CountedBound(Step(rw, evs[0].0, evs[0].1).0, evs[1..], i - 1);
    }
  }

  // ---------------------------------------------------------------- runs

  datatype Event =
    | Lock(reader: bool, lgen: Word, wc: Word, t: Thread)
    | Unlock(lgen: Word, ugen: Word, wc: Word)
    | Abort(reader: bool, i: nat)

  /** A step, given which blocked threads can still be woken. */
  function Step(rw: Rw, ev: Event, asleep: set<Thread>): (Rw, Out) {
    match ev
    case Lock(reader, lgen, wc, t) => RwLockCall(rw, reader, lgen, wc, t, asleep)
    case Unlock(lgen, ugen, wc) => RwUnlock(rw, lgen, ugen, wc, asleep)
    case Abort(reader, i) => (RwAbort(rw, reader, i), Out(Ok, false, 0, None))
  }

  function ArrivalOf(ev: Event): Arrival {
    if !ev.Lock? then Nobody else if ev.reader then Reader(CountOf(ev.lgen)) else Writer(CountOf(ev.lgen))
  }

  ghost predicate EventFits(rw: Rw, ev: Event) {
    exists b :: Fits(b, rw, ArrivalOf(ev))
  }

  ghost predicate IsRound(rw: Rw, arr: Arrival, rw': Rw, round: Round) {
    && (round.kind == ReadRound || round.kind == WriteRound)
    && (round.kind == ReadRound ==> IsReadRound(rw, arr, rw', round))
    && (round.kind == WriteRound ==> IsWriteRound(rw, arr, rw', round))
  }

  /** The state a step's grant round leaves behind; the thread of a lock call may
      queue itself afterwards. */
  function AfterRound(rw: Rw, ev: Event, asleep: set<Thread>): Rw {
    if ev.Lock? then Preposted(CheckInit(rw, ev.lgen), ArrivalOf(ev), asleep).0 else Step(rw, ev, asleep).0
  }

  lemma StepInv(rw: Rw, ev: Event, asleep: set<Thread>)
    requires RwInv(rw) && EventFits(rw, ev)
    ensures RwInv(Step(rw, ev, asleep).0)
    ensures var round := Step(rw, ev, asleep).1.round;
            round.Some? ==> IsRound(rw, ArrivalOf(ev), AfterRound(rw, ev, asleep), round.value)
  {
    hide Lower;
    hide InWindow;
    hide Masked;
    hide Wrap;
    var b :| Fits(b, rw, ArrivalOf(ev));
    match ev
    case Lock(reader, lgen, wc, t) =>
      PrepostedInv(b, CheckInit(rw, lgen), ArrivalOf(ev), asleep);
      LockInv(b, rw, reader, lgen, wc, t, asleep);
    case Unlock(lgen, ugen, wc) => UnlockInv(b, rw, lgen, ugen, wc, asleep);
    case Abort(reader, i) => AbortInv(b, rw, reader, i);
  }

  lemma UnlockInv(b: Seq, rw: Rw, lgen: Word, ugen: Word, wc: Word, asleep: set<Thread>)
    requires RwInv(rw) && Fits(b, rw, Nobody)
    ensures var (rw', out) := RwUnlock(rw, lgen, ugen, wc, asleep);
            RwInv(rw') && (out.round.Some? ==> IsRound(rw, Nobody, rw', out.round.value))
  {
    hide Lower;
    hide InWindow;
    hide Masked;
    hide Wrap;
    hide FindSeqTill;
    hide FindDiff;
    hide IsSeqLower;
    hide IsSeqHigherEq;
    hide Bit;
    hide HandleUnlock;
    hide Sorted;
    hide CountOf;
    UnlockNoPanic(rw, lgen, ugen, wc, asleep);
    var rw2 := UnlockRoundState(rw, lgen);
    RoundKeepsInv(b, rw2, wc, Nobody, asleep);
    if RwUnlock(rw, lgen, ugen, wc, asleep).1.round.Some? {
      GrantRound(b, rw2, wc, Nobody, asleep);
      var (rw3, round) := HandleUnlock(rw2, wc, Nobody, asleep);
      RoundOfQueues(rw2, rw3, rw, RwUnlock(rw, lgen, ugen, wc, asleep).0, Nobody, round);
    }
  }

  /** Whether something is a proper round depends on the queues only. */
  lemma RoundOfQueues(rw1: Rw, rw1': Rw, rw2: Rw, rw2': Rw, arr: Arrival, round: Round)
    requires rw1.r == rw2.r && rw1.w == rw2.w && rw1'.r == rw2'.r && rw1'.w == rw2'.w
    ensures IsRound(rw1, arr, rw1', round) ==> IsRound(rw2, arr, rw2', round)
  {
    hide Lower;
  }

  lemma AbortInv(b: Seq, rw: Rw, reader: bool, i: nat)
    requires RwInv(rw)
    ensures RwInv(RwAbort(rw, reader, i))
  {
    hide Lower;
    hide InWindow;
    hide Masked;
    hide Wrap;
    if i < |rw.r| {
      RemovedSorted(b, rw.r, i);
    }
    if i < |rw.w| {
      RemovedSorted(b, rw.w, i);
    }
  }

  lemma LockInv(b: Seq, rw: Rw, reader: bool, lgen: Word, wc: Word, t: Thread, asleep: set<Thread>)
    requires var arr := if reader then Reader(CountOf(lgen)) else Writer(CountOf(lgen));
             RwInv(rw) && Fits(b, rw, arr)
    ensures RwInv(RwLockCall(rw, reader, lgen, wc, t, asleep).0)
  {
    hide Lower;
    hide InWindow;
    hide Masked;
    hide Wrap;
    var e := Kwe(CountOf(lgen), InWait(t));
    var arr := if reader then Reader(e.lockseq) else Writer(e.lockseq);
    var rw1 := CheckInit(rw, lgen);
    PrepostedInv(b, rw1, arr, asleep);
    var rw2 := Preposted(rw1, arr, asleep).0;
    EnqueueInv(b, rw2, e, reader);
  }

  lemma EnqueueInv(b: Seq, rw: Rw, e: Kwe, reader: bool)
    requires RwInv(rw) && Windowed(b, rw.r) && Windowed(b, rw.w) && InWindow(b, e.lockseq) && e.state.InWait?
    ensures RwInv(if reader then rw.(r := Inserted(rw.r, e)) else rw.(w := Inserted(rw.w, e)))
  {
    hide Lower;
    hide InWindow;
    hide Masked;
    hide Wrap;
    var q := if reader then rw.r else rw.w;
    InsertedSorted(b, q, e);
    InsertedWaiting(q, e);
  }

  lemma InsertedWaiting(q: seq<Kwe>, e: Kwe)
    requires AllWaiting(q) && e.state.InWait?
    ensures AllWaiting(Inserted(q, e))
  {
    hide Lower;
    hide InWindow;
    hide Masked;
    hide Wrap;
  }

  lemma PrepostedInv(b: Seq, rw: Rw, arr: Arrival, asleep: set<Thread>)
    requires RwInv(rw) && Fits(b, rw, arr) && !arr.Nobody?
    ensures var (rw', round) := Preposted(rw, arr, asleep);
            && RwInv(rw') && Windowed(b, rw'.r) && Windowed(b, rw'.w)
            && (round.Some? ==> IsRound(rw, arr, rw', round.value))
  {
    hide Lower;
    hide InWindow;
    hide Masked;
    hide Wrap;
    hide HandleUnlock;
    hide Sorted;
    hide IsReadRound;
    hide IsWriteRound;
    hide Windowed;
    var rw1 := rw.(prepost := NoPending, initCleared := false);
    RoundKeepsInv(b, rw1, rw.prepost.sseq, arr, asleep);
    GrantRound(b, rw1, rw.prepost.sseq, arr, asleep);
    var (rw2, round) := HandleUnlock(rw1, rw.prepost.sseq, arr, asleep);
    RoundOfQueues(rw1, rw2, rw, rw2, arr, round);
  }

  ghost function Run(rw: Rw, evs: seq<(Event, set<Thread>)>): Rw
    decreases |evs|
  {
    if evs == [] then rw else Run(Step(rw, evs[0].0, evs[0].1).0, evs[1..])
  }

  ghost predicate RunFits(rw: Rw, evs: seq<(Event, set<Thread>)>)
    decreases |evs|
  {
    evs != [] ==> EventFits(rw, evs[0].0) && RunFits(Step(rw, evs[0].0, evs[0].1).0, evs[1..])
  }

  /** Every round that takes place during the run is a proper one. */
  ghost predicate ProperRounds(rw: Rw, evs: seq<(Event, set<Thread>)>)
    decreases |evs|
  {
    evs != [] ==>
      var (rw', out) := Step(rw, evs[0].0, evs[0].1);
      && (out.round.Some? ==>
            IsRound(rw, ArrivalOf(evs[0].0), AfterRound(rw, evs[0].0, evs[0].1), out.round.value))
      && ProperRounds(rw', evs[1..])
  }

  /** In every run of lock calls, unlocks and interrupted waits, whichever wake-ups
      fail: the queues stay sorted and hold blocked threads only, no step panics,
      and every grant round is proper. */
  lemma {:induction false} EveryRun(rw: Rw, evs: seq<(Event, set<Thread>)>)
    requires RwInv(rw) && RunFits(rw, evs)
    ensures RwInv(Run(rw, evs)) && ProperRounds(rw, evs)
    decreases |evs|
  {
    hide Lower;
    hide InWindow;
    hide Masked;
    hide Wrap;
    if evs != [] {
      StepInv(rw, evs[0].0, evs[0].1);
      EveryRun(Step(rw, evs[0].0, evs[0].1).0, evs[1..]);
    }
  }
}
