/**
 The two element queues of a psynch wait queue, with the numbers cached about
 them: per queue its length and the sequence numbers at its ends, and over both
 queues the total length and the lowest and highest sequence number.
 */
module Ksyn {
  import opened SeqNum

  type Thread = nat

  /** A blocked thread, a banked signal (with the number merged into it), or a
      banked broadcast. */
  datatype KweState = InWait(thread: Thread) | Prepost(count: Positive) | Broadcast

  type Positive = n: int | 1 <= n witness 1

  /** A queue element; `kwe_lockseq` is always stored masked. */
  datatype Kwe = Kwe(lockseq: Seq, state: KweState)

  datatype Which = Read | Write

  datatype Errno = Ok | EBUSY | ESRCH | EINVAL

  // ---------------------------------------------------------------- lists

  ghost predicate Windowed(b: Seq, q: seq<Kwe>) {
    forall i | 0 <= i < |q| :: InWindow(b, q[i].lockseq)
  }

  ghost predicate Sorted(q: seq<Kwe>) {
    forall i, j | 0 <= i < j < |q| :: LowerEq(q[i].lockseq, q[j].lockseq)
  }

  predicate Banked(e: Kwe) {
    !e.state.InWait?
  }

  function Fakes(q: seq<Kwe>): nat {
    if q == [] then 0 else (if Banked(q[0]) then 1 else 0) + Fakes(q[1..])
  }

  /** The threads blocked in a list, in order. */
  function Waiters(q: seq<Kwe>): seq<Thread> {
    if q == [] then []
    else (if Banked(q[0]) then [] else [q[0].state.thread]) + Waiters(q[1..])
  }

  function FirstHigherEq(q: seq<Kwe>, c: Seq): (k: nat)
    ensures k <= |q|
    ensures forall i | 0 <= i < k :: !HigherEq(q[i].lockseq, c)
    ensures k < |q| ==> HigherEq(q[k].lockseq, c)
  {
    if q == [] || HigherEq(q[0].lockseq, c) then 0 else 1 + FirstHigherEq(q[1..], c)
  }

  function Removed(q: seq<Kwe>, i: nat): seq<Kwe>
    requires i < |q|
  {
    q[..i] + q[i + 1..]
  }

  /** Index of the first element above `c`. */
  function FirstHigher(q: seq<Kwe>, c: Seq): (k: nat)
    ensures k <= |q|
    ensures forall i | 0 <= i < k :: !Higher(q[i].lockseq, c)
    ensures k < |q| ==> Higher(q[k].lockseq, c)
  {
    if q == [] || Higher(q[0].lockseq, c) then 0 else 1 + FirstHigher(q[1..], c)
  }

  /** The list with `e` put behind everything that is not above it. */
  function Inserted(q: seq<Kwe>, e: Kwe): seq<Kwe> {
    var k := FirstHigher(q, e.lockseq);
    q[..k] + [e] + q[k..]
  }

  /** Inserting keeps a list sorted as long as everything is in one window. */
  lemma InsertedSorted(b: Seq, q: seq<Kwe>, e: Kwe)
    requires Sorted(q) && Windowed(b, q) && InWindow(b, e.lockseq)
    ensures Sorted(Inserted(q, e)) && Windowed(b, Inserted(q, e))
  {
    hide Lower;
    hide InWindow;
    AboveFirst(b, q, e.lockseq);
    var k := FirstHigher(q, e.lockseq);
    assert forall i | 0 <= i < k :: LowerEq(q[i].lockseq, e.lockseq) by {
      OrderFacts();
    }
    SpliceSorted(q, k, e);
  }

  lemma SpliceSorted(q: seq<Kwe>, k: nat, e: Kwe)
    requires k <= |q| && Sorted(q)
    requires forall i | 0 <= i < k :: LowerEq(q[i].lockseq, e.lockseq)
    requires forall i | k <= i < |q| :: LowerEq(e.lockseq, q[i].lockseq)
    ensures Sorted(q[..k] + [e] + q[k..])
  {
    hide LowerEq;
    var p := q[..k] + [e] + q[k..];
    forall i, j | 0 <= i < j < |p|
      ensures LowerEq(p[i].lockseq, p[j].lockseq)
    {
      assert p[i] == if i < k then q[i] else if i == k then e else q[i - 1];
      assert p[j] == if j < k then q[j] else if j == k then e else q[j - 1];
    }
  }

  /** Behind the first element above `c` (or not below it) everything is. */
  lemma AboveFirst(b: Seq, q: seq<Kwe>, c: Seq)
    requires Sorted(q) && Windowed(b, q) && InWindow(b, c)
    ensures forall i | FirstHigher(q, c) <= i < |q| :: Higher(q[i].lockseq, c)
    ensures forall i | FirstHigherEq(q, c) <= i < |q| :: HigherEq(q[i].lockseq, c)
  {
    hide Lower;
    hide InWindow;
    OrderFacts();
    WindowTransitive(b);
    var k, m := FirstHigher(q, c), FirstHigherEq(q, c);
    forall i | k < i < |q|
      ensures Higher(q[i].lockseq, c)
    {
      assert LowerEq(q[k].lockseq, q[i].lockseq);
    }
    forall i | m < i < |q|
      ensures HigherEq(q[i].lockseq, c)
    {
      assert LowerEq(q[m].lockseq, q[i].lockseq);
    }
  }

  lemma RemovedSorted(b: Seq, q: seq<Kwe>, i: nat)
    requires i < |q|
    ensures Sorted(q) ==> Sorted(Removed(q, i))
    ensures Windowed(b, q) ==> Windowed(b, Removed(q, i))
  {
    hide LowerEq;
    hide InWindow;
  }

  // ---------------------------------------------------------------- extremes of both queues

  /** What `find_nextlowseq` looks for, given sorted queues. */
  function Lowest(r: seq<Kwe>, w: seq<Kwe>): Seq {
    if r == [] then (if w == [] then 0 else w[0].lockseq)
    else if w != [] && Lower(w[0].lockseq, r[0].lockseq) then w[0].lockseq
    else r[0].lockseq
  }

  /** What `find_nexthighseq` looks for, given sorted queues. */
  function Highest(r: seq<Kwe>, w: seq<Kwe>): Seq {
    if r == [] then (if w == [] then 0 else w[|w| - 1].lockseq)
    else if w != [] && Higher(w[|w| - 1].lockseq, r[|r| - 1].lockseq) then w[|w| - 1].lockseq
    else r[|r| - 1].lockseq
  }

  lemma LowerEqTransitive(b: Seq, x: Seq, y: Seq, z: Seq)
    requires InWindow(b, x) && InWindow(b, y) && InWindow(b, z)
    requires LowerEq(x, y) && LowerEq(y, z)
    ensures LowerEq(x, z)
  {
    hide Lower;
    hide InWindow;
    WindowTransitive(b);
  }

  /** They are the minimum and the maximum over everything queued. */
  lemma ExtremesBound(b: Seq, r: seq<Kwe>, w: seq<Kwe>)
    requires Sorted(r) && Sorted(w) && Windowed(b, r) && Windowed(b, w)
    ensures forall e | e in r || e in w ::
              LowerEq(Lowest(r, w), e.lockseq) && LowerEq(e.lockseq, Highest(r, w))
    ensures r != [] || w != [] ==>
              && (exists e :: (e in r || e in w) && e.lockseq == Lowest(r, w))
              && (exists e :: (e in r || e in w) && e.lockseq == Highest(r, w))
  {
    hide Lower;
    hide InWindow;
    OrderFacts();
    forall e | e in r || e in w
      ensures LowerEq(Lowest(r, w), e.lockseq) && LowerEq(e.lockseq, Highest(r, w))
    {
      var q := if e in r then r else w;
      var i :| 0 <= i < |q| && q[i] == e;
      LowerEqTransitive(b, Lowest(r, w), q[0].lockseq, e.lockseq);
      LowerEqTransitive(b, e.lockseq, q[|q| - 1].lockseq, Highest(r, w));
    }
    if r != [] || w != [] {
      var low := if r == [] || (w != [] && Lower(w[0].lockseq, r[0].lockseq)) then w[0] else r[0];
      assert low in r || low in w;
      var high := if r == [] || (w != [] && Higher(w[|w| - 1].lockseq, r[|r| - 1].lockseq)) then w[|w| - 1]
                  else r[|r| - 1];
      assert high in r || high in w;
    }
  }

  /** `c` is the number at the front or at the back. */
  predicate AtEnd(q: seq<Kwe>, c: Seq) {
    q != [] && (c == q[0].lockseq || c == q[|q| - 1].lockseq)
  }

  lemma NoneHigherThanLast(b: Seq, q: seq<Kwe>, c: Seq)
    requires q != [] && Sorted(q) && Windowed(b, q) && InWindow(b, c)
    requires Lower(q[|q| - 1].lockseq, c)
    ensures FirstHigher(q, c) == |q|
  {
    hide Lower;
    hide InWindow;
    OrderFacts();
    AboveFirst(b, q, c);
  }

  lemma ExtremesAfterInsert(b: Seq, r: seq<Kwe>, w: seq<Kwe>, e: Kwe)
    requires Sorted(r) && Sorted(w) && Windowed(b, r) && Windowed(b, w) && InWindow(b, e.lockseq)
    requires r != [] || w != []
    ensures var low := if Lower(e.lockseq, Lowest(r, w)) then e.lockseq else Lowest(r, w);
            Lowest(Inserted(r, e), w) == low == Lowest(r, Inserted(w, e))
    ensures var high := if Higher(e.lockseq, Highest(r, w)) then e.lockseq else Highest(r, w);
            Highest(Inserted(r, e), w) == high == Highest(r, Inserted(w, e))
  {
    hide Lower;
    hide InWindow;
    OrderFacts();
    WindowTransitive(b);
    EndsAfterInsert(b, r, e);
    EndsAfterInsert(b, w, e);
    hide Inserted;
    hide Sorted;
  }

  lemma EndsAfterInsert(b: Seq, q: seq<Kwe>, e: Kwe)
    requires Sorted(q) && Windowed(b, q) && InWindow(b, e.lockseq)
    ensures var p := Inserted(q, e);
            && p != []
            && p[0].lockseq == (if q == [] || Lower(e.lockseq, q[0].lockseq) then e.lockseq else q[0].lockseq)
            && p[|p| - 1].lockseq ==
               (if q == [] || Higher(e.lockseq, q[|q| - 1].lockseq) then e.lockseq else q[|q| - 1].lockseq)
  {
    hide Lower;
    hide InWindow;
    OrderFacts();
    AboveFirst(b, q, e.lockseq);
  }

  lemma LowerThenEq(b: Seq, x: Seq, y: Seq, z: Seq)
    requires InWindow(b, x) && InWindow(b, y) && InWindow(b, z)
    ensures Lower(x, y) && LowerEq(y, z) ==> Lower(x, z)
    ensures LowerEq(x, y) && Lower(y, z) ==> Lower(x, z)
  {
    hide Lower;
    hide InWindow;
    WindowTransitive(b);
  }

  /** Removing an element with another number than the lowest (highest) leaves
      the lowest (highest) alone. */
  lemma ExtremesAfterRemove(b: Seq, r: seq<Kwe>, w: seq<Kwe>, kqi: Which, i: nat)
    requires Sorted(r) && Sorted(w) && Windowed(b, r) && Windowed(b, w)
    requires i < |if kqi.Read? then r else w|
    requires |r| + |w| > 1
    ensures var q := if kqi.Read? then r else w;
            var r' := if kqi.Read? then Removed(r, i) else r;
            var w' := if kqi.Read? then w else Removed(w, i);
            && (q[i].lockseq != Lowest(r, w) ==> Lowest(r', w') == Lowest(r, w))
            && (q[i].lockseq != Highest(r, w) ==> Highest(r', w') == Highest(r, w))
  {
    hide Lower;
    hide InWindow;
    var q, o := if kqi.Read? then r else w, if kqi.Read? then w else r;
    var p := Removed(q, i);
    EndsAfterRemove(q, i);
    if p != [] && o != [] {
      OrderFacts();
      RemovedSorted(b, q, i);
      LowerThenEq(b, o[0].lockseq, q[0].lockseq, p[0].lockseq);
      LowerThenEq(b, p[|p| - 1].lockseq, q[|q| - 1].lockseq, o[|o| - 1].lockseq);
    }
    hide Sorted;
    hide Removed;
    hide Windowed;
  }

  lemma EndsAfterRemove(q: seq<Kwe>, i: nat)
    requires Sorted(q) && i < |q|
    ensures var p := Removed(q, i);
            && |p| == |q| - 1
            && (i > 0 ==> p[0] == q[0])
            && (i < |q| - 1 ==> p[|p| - 1] == q[|q| - 1])
            && (p != [] ==> p[0] in q && p[|p| - 1] in q)
            && (p != [] ==> LowerEq(q[0].lockseq, p[0].lockseq) && LowerEq(p[|p| - 1].lockseq, q[|q| - 1].lockseq))
  {
    hide Lower;
  }

  // ---------------------------------------------------------------- the structure

  /** One `ksyn_queue`: the list and what is cached about it. */
  datatype Ksynq = Ksynq(list: seq<Kwe>, count: nat, firstnum: Seq, lastnum: Seq)

  const EmptyKsynq := Ksynq([], 0, 0, 0)

  ghost predicate Exact(k: Ksynq) {
    && k.count == |k.list|
    && k.firstnum == (if k.list == [] then 0 else k.list[0].lockseq)
    && k.lastnum == (if k.list == [] then 0 else k.list[|k.list| - 1].lockseq)
  }

  ghost predicate Spans(b: Seq, low: Seq, high: Seq, q: seq<Kwe>) {
    && InWindow(b, low) && InWindow(b, high) && Windowed(b, q)
    && forall i | 0 <= i < |q| :: LowerEq(low, q[i].lockseq) && LowerEq(q[i].lockseq, high)
  }

  lemma SpansOne(b: Seq, e: Kwe)
    ensures InWindow(b, e.lockseq) ==> Spans(b, e.lockseq, e.lockseq, [e])
  {
  }

  /** Bounds that take a new number in. */
  lemma SpansSnoc(b: Seq, low: Seq, high: Seq, q: seq<Kwe>, e: Kwe)
    requires q != []
    ensures var c := e.lockseq;
            Spans(b, low, high, q) && InWindow(b, c) ==>
              Spans(b, if Lower(c, low) then c else low, if Higher(c, high) then c else high, q + [e])
  {
    hide Lower;
    hide InWindow;
    OrderFacts();
    WindowTransitive(b);
  }

  /** The queue part of `struct ksyn_wait_queue`. */
  class KsynWaitQueue {
    var read: Ksynq
    var write: Ksynq
    var inqueue: nat
    var lowseq: Seq
    var highseq: Seq
    /** Start of a window that holds everything queued. */
    ghost var base: Seq

    ghost predicate Counted()
      reads this
    {
      && read.count == |read.list|
      && write.count == |write.list|
      && inqueue == |read.list| + |write.list|
    }

    /** Sorted lists and exact caches. */
    ghost predicate Valid()
      reads this
    {
      && Counted()
      && Exact(read) && Exact(write)
      && Sorted(read.list) && Sorted(write.list)
      && Windowed(base, read.list) && Windowed(base, write.list)
      && lowseq == Lowest(read.list, write.list)
      && highseq == Highest(read.list, write.list)
    }

    function Queue(kqi: Which): Ksynq
      reads this
    {
      if kqi.Read? then read else write
    }

    constructor ()
      ensures Valid() && read == EmptyKsynq && write == EmptyKsynq
    {
      read, write := EmptyKsynq, EmptyKsynq;
      inqueue, lowseq, highseq, base := 0, 0, 0, 0;
    }

    method SetQueue(kqi: Which, k: Ksynq)
      modifies this`read, this`write
      ensures Queue(kqi) == k
      ensures if kqi.Read? then write == old(write) else read == old(read)
    {
      if kqi.Read? {
        read := k;
      } else {
        write := k;
      }
    }

    /** `ksyn_queue_insert` for the sequence-ordered queues (SEQFIT).  It refuses
        an element exactly when its number sits at an end already, and its search
        for a place in the middle always finds one. */
    method Insert(kqi: Which, e: Kwe, ghost b: Seq) returns (res: Errno)
      requires Valid()
      requires Windowed(b, read.list) && Windowed(b, write.list) && InWindow(b, e.lockseq)
      modifies this
      ensures Valid() && base == b
      ensures res == Ok || res == EBUSY
      ensures res == EBUSY <==> AtEnd(old(Queue(kqi).list), e.lockseq)
      ensures Queue(kqi).list == if res == Ok then Inserted(old(Queue(kqi).list), e) else old(Queue(kqi).list)
      ensures if kqi.Read? then write == old(write) else read == old(read)
    {
      hide Lower;
      hide InWindow;
      if inqueue > 0 {
        ExtremesAfterInsert(b, read.list, write.list, e);
      }
      base := b;
      var kq;
      kq, res := Place(Queue(kqi), e, b);
      if res == Ok {
        SetQueue(kqi, kq);
        inqueue := inqueue + 1;
        UpdateLowHigh(e.lockseq);
      }
    }

    /** The branches of `ksyn_queue_insert` on one queue. */
    static method Place(k: Ksynq, e: Kwe, ghost b: Seq) returns (kq: Ksynq, res: Errno)
      requires Exact(k) && Sorted(k.list) && Windowed(b, k.list) && InWindow(b, e.lockseq)
      ensures res == if AtEnd(k.list, e.lockseq) then EBUSY else Ok
      ensures res == Ok ==>
                && kq.list == Inserted(k.list, e)
                && Exact(kq) && Sorted(kq.list) && Windowed(b, kq.list)
    {
      hide Lower;
      hide InWindow;
      OrderFacts();
      ghost var f := FirstHigher(k.list, e.lockseq);
      EndsAfterInsert(b, k.list, e);
      InsertedSorted(b, k.list, e);
      kq, res := k, Ok;
      if kq.count == 0 {
        kq := kq.(list := [e] + kq.list, firstnum := e.lockseq, lastnum := e.lockseq);
      } else if e.lockseq == kq.firstnum || e.lockseq == kq.lastnum {
        res := EBUSY;
      } else if Lower(kq.lastnum, e.lockseq) {
        NoneHigherThanLast(b, kq.list, e.lockseq);
        kq := kq.(list := kq.list + [e], lastnum := e.lockseq);
      } else if Lower(e.lockseq, kq.firstnum) {
        kq := kq.(list := [e] + kq.list, firstnum := e.lockseq);
      } else {
        res := ESRCH;
        var i := 0;
        while i < |k.list|
          invariant 0 <= i <= f < |k.list|
          invariant kq == k && res == ESRCH
        {
          if Higher(kq.list[i].lockseq, e.lockseq) {
            kq := kq.(list := kq.list[..i] + [e] + kq.list[i..]);
            res := Ok;
            break;
          }
          i := i + 1;
        }
      }
      kq := kq.(count := kq.count + 1);
    }

    method UpdateLowHigh(c: Seq)
      modifies this`lowseq, this`highseq
      ensures lowseq == if inqueue == 1 || Lower(c, old(lowseq)) then c else old(lowseq)
      ensures highseq == if inqueue == 1 || Higher(c, old(highseq)) then c else old(highseq)
    {
      if inqueue == 1 {
        lowseq := c;
        highseq := c;
      } else {
        if Lower(c, lowseq) {
          lowseq := c;
        }
        if Higher(c, highseq) {
          highseq := c;
        }
      }
    }

    /** With the write queue in use only: the cached numbers bound what is queued, in a
        window that starts at `b`. */
    ghost predicate Bounds(b: Seq)
      reads this
    {
      && read.list == []
      && (write.list != [] ==>
            Spans(b, write.firstnum, write.lastnum, write.list) && Spans(b, lowseq, highseq, write.list))
    }

    /** `ksyn_queue_insert` for first-fit mutexes (FIRSTFIT): arrival order.  The list
        is not sorted, but the cached numbers go on bounding what is queued, and each is
        an old one or the new number. */
    method InsertFirstFit(e: Kwe, ghost b: Seq)
      requires Counted()
      modifies this
      ensures Counted()
      ensures write.list == old(write.list) + [e] && read == old(read)
      ensures old(Bounds(b)) && InWindow(b, e.lockseq) ==> Bounds(b)
      ensures write.firstnum in {old(write.firstnum), e.lockseq} && write.lastnum in {old(write.lastnum), e.lockseq}
      ensures lowseq in {old(lowseq), e.lockseq} && highseq in {old(highseq), e.lockseq}
    {
      hide Lower;
      hide InWindow;
      ghost var q, first, last, low, high := write.list, write.firstnum, write.lastnum, lowseq, highseq;
      if write.count == 0 {
        write := write.(list := [e] + write.list, firstnum := e.lockseq, lastnum := e.lockseq);
      } else {
        write := write.(list := write.list + [e]);
        if Lower(e.lockseq, write.firstnum) {
          write := write.(firstnum := e.lockseq);
        }
        if Higher(e.lockseq, write.lastnum) {
          write := write.(lastnum := e.lockseq);
        }
      }
      write := write.(count := write.count + 1);
      inqueue := inqueue + 1;
      UpdateLowHigh(e.lockseq);
      SpansOne(b, e);
      if q != [] {
        SpansSnoc(b, first, last, q, e);
        SpansSnoc(b, low, high, q, e);
      }
      hide Spans;
    }

    /** `ksyn_queue_remove_item`: takes one element out and, on sorted queues,
        leaves every cached number exact. */
    method RemoveItem(kqi: Which, i: nat)
      requires Counted() && i < |Queue(kqi).list|
      modifies this
      ensures Counted() && base == old(base)
      ensures Queue(kqi).list == Removed(old(Queue(kqi).list), i)
      ensures if kqi.Read? then write == old(write) else read == old(read)
      ensures old(Valid()) ==> Valid()
    {
      hide Lower;
      hide InWindow;
      if Valid() {
        RemovedSorted(base, Queue(kqi).list, i);
        if inqueue > 1 {
          ExtremesAfterRemove(base, read.list, write.list, kqi, i);
        }
      }
      hide Sorted;
      hide Windowed;
      hide Removed;
      var curseq := Queue(kqi).list[i].lockseq;
      var kq := TakeOut(Queue(kqi), i);
      SetQueue(kqi, kq);
      inqueue := inqueue - 1;
      RefreshLowHigh(curseq);
    }

    /** One queue without its element `i`. */
    static method TakeOut(k: Ksynq, i: nat) returns (kq: Ksynq)
      requires i < |k.list| && k.count == |k.list|
      ensures kq.list == Removed(k.list, i) && |kq.list| == |k.list| - 1 && Exact(kq)
    {
      kq := k.(list := k.list[..i] + k.list[i + 1..], count := k.count - 1);
      if kq.count > 0 {
        kq := kq.(firstnum := kq.list[0].lockseq, lastnum := kq.list[|kq.list| - 1].lockseq);
      } else {
        kq := kq.(firstnum := 0, lastnum := 0);
      }
    }

    /** The lowest and highest number after an element numbered `curseq` is gone. */
    method RefreshLowHigh(curseq: Seq)
      modifies this`lowseq, this`highseq
      ensures inqueue == 0 ==> lowseq == 0 && highseq == 0
      ensures inqueue > 0 && Exact(read) && Exact(write) ==>
                && lowseq == (if old(lowseq) == curseq then Lowest(read.list, write.list) else old(lowseq))
                && highseq == (if old(highseq) == curseq then Highest(read.list, write.list) else old(highseq))
    {
      if inqueue > 0 {
        if lowseq == curseq {
          var low := FindNextLowSeq();
          lowseq := low;
        }
        if highseq == curseq {
          var high := FindNextHighSeq();
          highseq := high;
        }
      } else {
        lowseq := 0;
        highseq := 0;
      }
    }

    /** Changes what an element stands for and nothing else. */
    method SetState(i: nat, st: KweState)
      requires Counted() && i < |write.list|
      modifies this`write
      ensures Counted() && read == old(read) && base == old(base)
      ensures write.list == old(write.list)[i := old(write.list)[i].(state := st)]
      ensures old(Valid()) ==> Valid()
    {
      write := write.(list := write.list[i := write.list[i].(state := st)]);
    }

    method FindNextLowSeq() returns (lowest: Seq)
      ensures Exact(read) && Exact(write) ==> lowest == Lowest(read.list, write.list)
    {
      lowest := 0;
      var first := true;
      for i := 0 to 2
        invariant i == 0 ==> first && lowest == 0
        invariant Exact(read) && Exact(write) && i == 1 ==>
            first == (read.list == []) && lowest == Lowest(read.list, [])
        invariant Exact(read) && Exact(write) && i == 2 ==> lowest == Lowest(read.list, write.list)
      {
        var kq := Queue(if i == 0 then Read else Write);
        if kq.count > 0 {
          var current := kq.firstnum;
          if first || Lower(current, lowest) {
            lowest := current;
            first := false;
          }
        }
      }
    }

    method FindNextHighSeq() returns (highest: Seq)
      ensures Exact(read) && Exact(write) ==> highest == Highest(read.list, write.list)
    {
      highest := 0;
      var first := true;
      for i := 0 to 2
        invariant i == 0 ==> first && highest == 0
        invariant Exact(read) && Exact(write) && i == 1 ==>
            first == (read.list == []) && highest == Highest(read.list, [])
        invariant Exact(read) && Exact(write) && i == 2 ==> highest == Highest(read.list, write.list)
      {
        var kq := Queue(if i == 0 then Read else Write);
        if kq.count > 0 {
          var current := kq.lastnum;
          if first || Higher(current, highest) {
            highest := current;
            first := false;
          }
        }
      }
    }
  }
}
