/**
 The kernel half of a pthread condition variable: what each entry point does to
 the wait queue and to the L, U and S words, and what holds in every run.

 One step is one entry point (`cvwait`, `cvsignal`, `cvbroad`, `cvclrprepost`, a
 wait that times out, a thread that dies).  `cvsignal` and `cvbroad` drop the
 lock when they have to allocate an element; the critical sections before and
 after are separate steps as well (`SignalScan`, `SignalRescan`, `BroadScan`,
 `BroadRescan`), so that the queue invariant also covers what comes between.
 */
module CondVar {
  import opened Options
  import opened SeqNum
  import opened Ksyn

  /** The state: the write queue, the number of banked elements in it, the three
      words, and whether the words are zeroed out.  A structure that has just
      been created behaves like one whose words are zeroed out. */
  datatype Cv = Cv(q: seq<Kwe>, fake: int, l: Seq, u: Seq, s: Seq, zeroed: bool)

  const Fresh := Cv([], 0, 0, 0, 0, true)

  /** The words a caller passes in; `sinit` is the C bit of the S word. */
  datatype Words = Words(l: Seq, u: Seq, s: Seq, sinit: bool)

  /** What a step reports.  `refused`: an insertion whose result is ignored, or
      the caller's own, was turned down.  `converted`: turning a banked signal
      into a broadcast inside `cvwait` woke somebody.  `leftover`: L equals S but
      elements stay queued. */
  datatype Out = Out(err: Errno, blocked: bool, woken: seq<Thread>, cbit: bool, pbit: bool,
                     refused: bool, converted: bool, leftover: bool)

  const Quiet := Out(Ok, false, [], false, false, false, false, false)

  // ---------------------------------------------------------------- the helpers of the C code

  /** Index of the element of a blocked thread, or the length. */
  function IndexOf(q: seq<Kwe>, t: Thread): (k: nat)
    ensures k <= |q|
    ensures k < |q| ==> q[k].state == InWait(t)
    ensures forall i | 0 <= i < k :: q[i].state != InWait(t)
  {
    if q == [] || q[0].state == InWait(t) then 0 else 1 + IndexOf(q[1..], t)
  }

  /** `UPDATE_CVKWQ`. */
  function Update(cv: Cv, w: Words): Cv {
    if cv.zeroed then cv.(l := w.l, u := w.u, s := w.s, zeroed := false)
    else
      cv.(l := if Higher(w.l, cv.l) then w.l else cv.l,
          u := if Higher(w.u, cv.u) then w.u else cv.u,
          s := if w.sinit && Higher(w.s, cv.s) then w.s else cv.s)
  }

  /** `ksyn_prepost`: the insertion may be refused, the count goes up anyway. */
  function Bank(cv: Cv, e: Kwe): Cv {
    cv.(q := if AtEnd(cv.q, e.lockseq) then cv.q else Inserted(cv.q, e), fake := cv.fake + 1)
  }

  /** Takes the first `k` elements out. */
  function DropFirst(cv: Cv, k: nat): Cv
    requires k <= |cv.q|
  {
    cv.(q := cv.q[k..], fake := cv.fake - Fakes(cv.q[..k]))
  }

  /** `ksyn_queue_free_items` with `all == 0`. */
  function FreeUpTo(cv: Cv, upto: Seq): Cv {
    DropFirst(cv, FirstHigher(cv.q, upto))
  }

  /** `ksyn_handle_cvbroad`, with the threads it wakes. */
  function Broadcasted(cv: Cv, upto: Seq): (Cv, seq<Thread>) {
    var k := FirstHigher(cv.q, upto);
    var cv' := DropFirst(cv, k);
    (if cv.l != cv.s then Bank(cv', Kwe(upto, Broadcast)) else cv', Waiters(cv.q[..k]))
  }

  /** `ksyn_cvupdate_fixup`. */
  function Fixup(cv: Cv, out: Out): (Cv, Out) {
    if cv.l == cv.s then
      var cv' := FreeUpTo(cv, cv.l);
      (cv'.(l := 0, u := 0, s := 0, zeroed := true),
       out.(cbit := true, leftover := cv'.q != [],
            woken := out.woken + Waiters(cv.q[..FirstHigher(cv.q, cv.l)])))
    else
      (cv, out.(pbit := cv.q != [] && cv.fake == |cv.q|))
  }

  /** `ksyn_queue_find_cvpreposeq`. */
  function FindPrepost(q: seq<Kwe>, c: Seq): Option<nat> {
    var k := FirstHigherEq(q, c);
    if k == |q| || (q[k].state.InWait? && q[k].lockseq != c) then None else Some(k)
  }

  /** `ksyn_queue_find_signalseq`, from index `i` on; `best` is the eligible
      thread seen so far. */
  function FindSignal(q: seq<Kwe>, i: nat, upto: Seq, from: Seq, best: Option<nat>): Option<nat>
    requires i <= |q|
    decreases |q| - i
  {
    if i == |q| then best
    else if q[i].state.Prepost? && Higher(q[i].lockseq, upto) then best
    else if Banked(q[i]) then
      if Lower(q[i].lockseq, upto) then FindSignal(q, i + 1, upto, from, best) else Some(i)
    else if Higher(q[i].lockseq, upto) then best
    else if HigherEq(q[i].lockseq, from) then Some(i)
    else FindSignal(q, i + 1, upto, from, if best == None then Some(i) else best)
  }

  /** The part of `ksyn_cvsignal` after the element has been chosen (if any). */
  function SignalChosen(cv: Cv, k: Option<nat>, upto: Seq, from: Seq): (r: (Cv, bool, Out))
    requires k.Some? ==> k.value < |cv.q|
  {
    if k.None? then
      (Bank(cv, Kwe(upto, Prepost(1))), false, Quiet.(refused := AtEnd(cv.q, upto)))
    else
      var e := cv.q[k.value];
      match e.state
      case InWait(t) =>
        if Lower(e.lockseq, from) then (cv, true, Quiet)
        else (cv.(q := Removed(cv.q, k.value), s := Plus(cv.s, 1)), false, Quiet.(woken := [t]))
      case Prepost(n) =>
        (cv.(q := cv.q[k.value := e.(state := Prepost(n + 1))]), false, Quiet)
      case Broadcast => (cv, false, Quiet)
  }

  /** `ksyn_cvsignal`: new state, whether to broadcast instead, report. */
  function SignalOne(cv: Cv, target: Option<Thread>, upto: Seq, from: Seq): (r: (Cv, bool, Out)) {
    match target
    case Some(t) =>
      var k := IndexOf(cv.q, t);
      if k == |cv.q| || Higher(cv.q[k].lockseq, upto) then (cv, true, Quiet)
      else SignalChosen(cv, Some(k), upto, from)
    case None =>
      var k := FindSignal(cv.q, 0, upto, from, None);
      FindSignalRange(cv.q, 0, upto, from, None);
      SignalChosen(cv, k, upto, from)
  }

  lemma FindSignalRange(q: seq<Kwe>, i: nat, upto: Seq, from: Seq, best: Option<nat>)
    requires i <= |q| && (best.Some? ==> best.value < |q| && q[best.value].state.InWait?)
    ensures var r := FindSignal(q, i, upto, from, best);
            r.Some? ==> r.value < |q|
    decreases |q| - i
  {
    hide Lower;
    hide InWindow;
  }

  /** A broadcast, the S update and the fix-up; `already` is the number of threads that
      a first scan has woken, before the lock was given up to allocate. */
  function BroadEnd(cv: Cv, upto: Seq, already: nat, out: Out): (Cv, Out) {
    var (cv', woken) := Broadcasted(cv, upto);
    Fixup(cv'.(s := Plus(cv'.s, already + |woken|)), out.(woken := woken, refused := BroadRefused(cv, upto)))
  }

  /** The end of `__psynch_cvsignal`. */
  function SignalEnd(cv: Cv, broadcast: bool, upto: Seq, out: Out): (Cv, Out) {
    if broadcast then BroadEnd(cv, upto, 0, out) else Fixup(cv, out)
  }

  predicate BroadRefused(cv: Cv, upto: Seq) {
    cv.l != cv.s && AtEnd(DropFirst(cv, FirstHigher(cv.q, upto)).q, upto)
  }

  // ---------------------------------------------------------------- the entry points

  /** `__psynch_cvsignal`. */
  function CvSignal(cv: Cv, w: Words, target: Option<Thread>, broadcast: bool): (Cv, Out) {
    var from := Plus(w.u, 1);
    if (target.None? && Higher(from, w.l)) || Higher(w.s, w.l) then (cv, Quiet.(err := EINVAL))
    else
      var cv1 := Update(cv, w);
      if !broadcast && cv1.l != cv1.s then
        var (cv2, broad, out) := SignalOne(cv1, target, w.l, from);
        SignalEnd(cv2, broad, w.l, out)
      else
        SignalEnd(cv1, broadcast, w.l, Quiet)
  }

  /** `_psynch_cvwait`. */
  function CvWait(cv: Cv, w: Words, t: Thread): (Cv, Out) {
    if HigherEq(w.s, w.l) then (cv, Quiet.(err := EINVAL))
    else
      var cv1 := Update(cv, w);
      match FindPrepost(cv1.q, w.l)
      case None =>
        if AtEnd(cv1.q, w.l) then (cv1, Quiet.(err := EBUSY, refused := true))
        else (cv1.(q := Inserted(cv1.q, Kwe(w.l, InWait(t)))), Quiet.(blocked := true))
      case Some(k) =>
        if cv1.q[k].state.InWait? then (cv1, Quiet.(err := EBUSY))
        else
          var (cv2, out) := Consume(cv1, k, w.l);
          Fixup(cv2.(s := Plus(cv2.s, 1)), out)
  }

  /** What `cvwait` does to the banked element it found. */
  function Consume(cv: Cv, k: nat, c: Seq): (Cv, Out)
    requires k < |cv.q| && Banked(cv.q[k])
  {
    var e := cv.q[k];
    if e.state.Broadcast? then (cv, Quiet)
    else if e.lockseq != c then
      var (cv', woken) := Broadcasted(cv, e.lockseq);
      (cv', Quiet.(woken := woken, converted := woken != [], refused := BroadRefused(cv, e.lockseq)))
    else if e.state.count == 1 then (cv.(q := Removed(cv.q, k), fake := cv.fake - 1), Quiet)
    else (cv.(q := cv.q[k := e.(state := Prepost(e.state.count - 1))]), Quiet)
  }

  /** `psynch_cvcontinue` of a wait that timed out or was interrupted.  A thread
      that is no longer queued was granted in the meantime. */
  function CvTimeout(cv: Cv, t: Thread): (Cv, Out) {
    var k := IndexOf(cv.q, t);
    if k == |cv.q| then (cv, Quiet)
    else
      var cv1 := cv.(q := Removed(cv.q, k), s := Plus(cv.s, 1));
      if cv1.l == cv1.s then
        (DropFirst(cv1, |cv1.q|).(l := 0, u := 0, s := 0, zeroed := true),
         Quiet.(woken := Waiters(cv1.q), cbit := true))
      else
        (cv1, Quiet.(pbit := cv1.q != [] && cv1.fake == |cv1.q|))
  }

  datatype Event =
    | Wait(w: Words, t: Thread)
    | Signal(w: Words, target: Option<Thread>)
    | Broad(w: Words)
    | Clear(upto: Seq)            // psynch_cvclrprepost
    | Timeout(t: Thread)
    | Dying(t: Thread)            // dtape_psynch_thread_dying
    | Reclaim                     // ksyn_wqrelease frees an unused structure
    | SignalScan(w: Words)        // cvsignal up to the allocation
    | SignalRescan(upto: Seq, from: Seq)
    | BroadScan(upto: Seq)        // a broadcast up to the allocation
    | BroadRescan(upto: Seq, already: nat)

  predicate Atomic(ev: Event) {
    !ev.SignalScan? && !ev.SignalRescan? && !ev.BroadScan? && !ev.BroadRescan?
  }

  function Step(cv: Cv, ev: Event): (Cv, Out) {
    match ev
    case Wait(w, t) => CvWait(cv, w, t)
    case Signal(w, target) => CvSignal(cv, w, target, false)
    case Broad(w) => CvSignal(cv, w, None, true)
    case Clear(upto) => (FreeUpTo(cv, upto), Quiet.(woken := Waiters(cv.q[..FirstHigher(cv.q, upto)])))
    case Timeout(t) => CvTimeout(cv, t)
    case Dying(t) =>
      var k := IndexOf(cv.q, t);
      (if k == |cv.q| then cv else cv.(q := Removed(cv.q, k)), Quiet)
    case Reclaim => (if cv.q == [] then Fresh else cv, Quiet)
    case SignalScan(w) => (Update(cv, w), Quiet)
    case SignalRescan(upto, from) =>
      var (cv2, broad, out) := SignalOne(cv, None, upto, from);
      SignalEnd(cv2, broad, upto, out)
    case BroadScan(upto) => (FreeUpTo(cv, upto), Quiet.(woken := Waiters(cv.q[..FirstHigher(cv.q, upto)])))
    case BroadRescan(upto, already) => BroadEnd(cv, upto, already, Quiet)
  }

  // ---------------------------------------------------------------- the invariant

  ghost predicate StrictlySorted(q: seq<Kwe>) {
    forall i, j | 0 <= i < j < |q| :: Lower(q[i].lockseq, q[j].lockseq)
  }

  /** No banked element behind a blocked thread. */
  ghost predicate BankedFirst(q: seq<Kwe>) {
    forall i, j | 0 <= i < j < |q| :: Banked(q[j]) ==> Banked(q[i])
  }

  ghost predicate QueueInv(cv: Cv) {
    StrictlySorted(cv.q) && BankedFirst(cv.q) && cv.fake == Fakes(cv.q)
  }

  /** Nothing is queued beyond L, and nothing at all once the words are gone. */
  ghost predicate WordInv(cv: Cv) {
    if cv.zeroed then cv.q == [] else AtOrBelow(cv.q, cv.l)
  }

  ghost predicate AtOrBelow(q: seq<Kwe>, l: Seq) {
    forall e | e in q :: LowerEq(e.lockseq, l)
  }

  /** The sequence number a step may insert or compare with. */
  function Argument(ev: Event): Option<Seq> {
    match ev
    case Wait(w, _) => Some(w.l)
    case Signal(w, _) => Some(w.l)
    case Broad(w) => Some(w.l)
    case SignalRescan(upto, _) => Some(upto)
    case BroadRescan(upto, _) => Some(upto)
    case _ => None
  }

  /** The live numbers lie in one window that starts at `b`. */
  ghost predicate FitsIn(b: Seq, cv: Cv, ev: Event) {
    Argument(ev).Some? ==>
      && Windowed(b, cv.q)
      && InWindow(b, Argument(ev).value)
      && (!cv.zeroed ==> InWindow(b, cv.l))
  }

  ghost predicate Fits(cv: Cv, ev: Event) {
    exists b :: FitsIn(b, cv, ev)
  }

  // ---------------------------------------------------------------- list lemmas

  lemma FakesSplit(q: seq<Kwe>, k: nat)
    requires k <= |q|
    ensures Fakes(q) == Fakes(q[..k]) + Fakes(q[k..])
  {
    hide Lower;
    hide InWindow;
    if k == 0 {
      assert q[..0] == [] && q[0..] == q;
    } else {
      assert q[..k][1..] == q[1..][..k - 1] && q[k..] == q[1..][k - 1..];
      FakesSplit(q[1..], k - 1);
    }
  }

  lemma FakesAround(q: seq<Kwe>, k: nat, e: Kwe)
    requires k <= |q|
    ensures Fakes(q[..k] + [e] + q[k..]) == Fakes(q) + (if Banked(e) then 1 else 0)
    ensures k < |q| ==> Fakes(q[k := e]) == Fakes(Removed(q, k)) + (if Banked(e) then 1 else 0)
    ensures k < |q| ==> Fakes(Removed(q, k)) == Fakes(q) - (if Banked(q[k]) then 1 else 0)
  {
    hide Lower;
    hide InWindow;
    var p := q[..k] + [e] + q[k..];
    FakesSplit(p, k);
    assert p[..k] == q[..k] && p[k..] == [e] + q[k..];
    FakesSplit(q, k);
    if k < |q| {
      var r := Removed(q, k);
      FakesSplit(r, k);
      assert r[..k] == q[..k] && r[k..] == q[k..][1..];
      var u := q[k := e];
      FakesSplit(u, k);
      assert u[..k] == q[..k] && u[k..] == [e] + r[k..];
    }
  }

  /** A list of blocked threads only, or of banked elements only. */
  lemma FakesAll(q: seq<Kwe>)
    ensures (forall i | 0 <= i < |q| :: Banked(q[i])) ==> Fakes(q) == |q| && Waiters(q) == []
    ensures Fakes(q) <= |q| && |Waiters(q)| == |q| - Fakes(q)
  {
    hide Lower;
    hide InWindow;
  }

  lemma RemovedInv(cv: Cv, k: nat)
    requires QueueInv(cv) && k < |cv.q|
    ensures QueueInv(cv.(q := Removed(cv.q, k), fake := cv.fake - if Banked(cv.q[k]) then 1 else 0))
  {
    hide Lower;
    hide InWindow;
    hide Fakes;
    FakesAround(cv.q, k, cv.q[k]);
    var p := Removed(cv.q, k);
    forall i, j | 0 <= i < j < |p|
      ensures Lower(p[i].lockseq, p[j].lockseq) && (Banked(p[j]) ==> Banked(p[i]))
    {
      assert p[i] == cv.q[if i < k then i else i + 1];
      assert p[j] == cv.q[if j < k then j else j + 1];
    }
  }

  /** Exchanging a banked element for another at the same place. */
  lemma ReplacedInv(cv: Cv, k: nat, st: KweState)
    requires QueueInv(cv) && k < |cv.q| && Banked(cv.q[k]) && !st.InWait?
    ensures QueueInv(cv.(q := cv.q[k := cv.q[k].(state := st)]))
  {
    hide Lower;
    hide InWindow;
    hide Fakes;
    FakesAround(cv.q, k, cv.q[k].(state := st));
  }

  lemma DropFirstInv(cv: Cv, k: nat)
    requires QueueInv(cv) && k <= |cv.q|
    ensures QueueInv(DropFirst(cv, k))
  {
    hide Lower;
    hide InWindow;
    hide Fakes;
    FakesSplit(cv.q, k);
  }

  /** Where an element may be put: its number is new; a banked one goes in front
      of all blocked threads, and no banked one is above a thread's place. */
  ghost predicate MayInsert(q: seq<Kwe>, e: Kwe) {
    forall i | 0 <= i < |q| ::
      && q[i].lockseq != e.lockseq
      && (Banked(e) && !Banked(q[i]) ==> Higher(q[i].lockseq, e.lockseq))
      && (!Banked(e) && Banked(q[i]) ==> Lower(q[i].lockseq, e.lockseq))
  }

  /** In a strictly sorted list the elements behind the first higher one are
      higher too. */
  lemma AboveFirstHigher(b: Seq, q: seq<Kwe>, c: Seq)
    requires StrictlySorted(q) && Windowed(b, q) && InWindow(b, c)
    ensures forall i | FirstHigher(q, c) <= i < |q| :: Higher(q[i].lockseq, c)
    ensures forall i | FirstHigherEq(q, c) < i < |q| :: Higher(q[i].lockseq, c)
  {
    hide Lower;
    hide InWindow;
    OrderFacts();
    WindowTransitive(b);
    var k, m := FirstHigher(q, c), FirstHigherEq(q, c);
    forall i | k < i < |q|
      ensures Higher(q[i].lockseq, c)
    {
      assert Lower(q[k].lockseq, q[i].lockseq);
    }
    forall i | m < i < |q|
      ensures Higher(q[i].lockseq, c)
    {
      assert Lower(q[m].lockseq, q[i].lockseq);
    }
  }

  lemma InsertInv(b: Seq, cv: Cv, e: Kwe)
    requires QueueInv(cv) && MayInsert(cv.q, e)
    requires Windowed(b, cv.q) && InWindow(b, e.lockseq)
    ensures !AtEnd(cv.q, e.lockseq)
    ensures QueueInv(cv.(q := Inserted(cv.q, e), fake := cv.fake + if Banked(e) then 1 else 0))
    ensures Windowed(b, Inserted(cv.q, e))
  {
    hide Lower;
    hide InWindow;
    hide Fakes;
    OrderFacts();
    var k := FirstHigher(cv.q, e.lockseq);
    FakesAround(cv.q, k, e);
    AboveFirstHigher(b, cv.q, e.lockseq);
    SpliceInv(cv.q, k, e);
  }

  lemma SpliceInv(q: seq<Kwe>, k: nat, e: Kwe)
    requires k <= |q| && StrictlySorted(q) && BankedFirst(q)
    requires forall i | 0 <= i < k :: Lower(q[i].lockseq, e.lockseq) && (Banked(e) ==> Banked(q[i]))
    requires forall i | k <= i < |q| :: Lower(e.lockseq, q[i].lockseq) && (Banked(q[i]) ==> Banked(e))
    ensures StrictlySorted(q[..k] + [e] + q[k..]) && BankedFirst(q[..k] + [e] + q[k..])
  {
    hide Lower;
    hide InWindow;
    var p := q[..k] + [e] + q[k..];
    forall i, j | 0 <= i < j < |p|
      ensures Lower(p[i].lockseq, p[j].lockseq) && (Banked(p[j]) ==> Banked(p[i]))
    {
      assert p[i] == if i < k then q[i] else if i == k then e else q[i - 1];
      assert p[j] == if j < k then q[j] else if j == k then e else q[j - 1];
    }
  }

  // ---------------------------------------------------------------- every step keeps the invariant

  /** On unbalanced words a broadcast replaces everything at or below its number
      by one banked element. */
  lemma BroadcastedShape(b: Seq, cv: Cv, upto: Seq)
    requires QueueInv(cv) && Windowed(b, cv.q) && InWindow(b, upto)
    ensures var rest := cv.q[FirstHigher(cv.q, upto)..];
            && Broadcasted(cv, upto).0.q == (if cv.l != cv.s then [Kwe(upto, Broadcast)] + rest else rest)
            && forall i | 0 <= i < |rest| :: Higher(rest[i].lockseq, upto)
  {
    hide Lower;
    hide InWindow;
    OrderFacts();
    AboveFirstHigher(b, cv.q, upto);
    var rest, e := cv.q[FirstHigher(cv.q, upto)..], Kwe(upto, Broadcast);
    InsertInFront(rest, e);
  }

  lemma InsertInFront(q: seq<Kwe>, e: Kwe)
    requires forall i | 0 <= i < |q| :: Higher(q[i].lockseq, e.lockseq)
    ensures Inserted(q, e) == [e] + q && !AtEnd(q, e.lockseq)
  {
    hide Lower;
    hide InWindow;
    OrderFacts();
    assert q[..0] + [e] + q[0..] == [e] + q;
  }

  lemma BroadcastedInv(b: Seq, cv: Cv, upto: Seq)
    requires QueueInv(cv) && Windowed(b, cv.q) && InWindow(b, upto)
    ensures QueueInv(Broadcasted(cv, upto).0) && !BroadRefused(cv, upto)
    ensures Windowed(b, Broadcasted(cv, upto).0.q)
    ensures forall e | e in Broadcasted(cv, upto).0.q :: e in cv.q || e == Kwe(upto, Broadcast)
  {
    hide Lower;
    hide InWindow;
    var k, e := FirstHigher(cv.q, upto), Kwe(upto, Broadcast);
    BroadcastedShape(b, cv, upto);
    DropFirstInv(cv, k);
    FrontInv(b, DropFirst(cv, k), e);
    hide QueueInv;
    hide Inserted;
  }

  lemma FrontInv(b: Seq, cv: Cv, e: Kwe)
    requires QueueInv(cv) && Banked(e) && forall i | 0 <= i < |cv.q| :: Higher(cv.q[i].lockseq, e.lockseq)
    requires Windowed(b, cv.q) && InWindow(b, e.lockseq)
    ensures !AtEnd(cv.q, e.lockseq) && QueueInv(Bank(cv, e)) && Windowed(b, Bank(cv, e).q)
  {
    hide Lower;
    hide InWindow;
    hide Fakes;
    FakesAround(cv.q, 0, e);
    SpliceInv(cv.q, 0, e);
    InsertInFront(cv.q, e);
    assert cv.q[..0] + [e] + cv.q[0..] == [e] + cv.q;
  }

  /** What the search for an element to signal comes back with. */
  lemma FindSignalSpec(b: Seq, q: seq<Kwe>, i: nat, upto: Seq, from: Seq, best: Option<nat>)
    requires StrictlySorted(q) && BankedFirst(q) && Windowed(b, q) && InWindow(b, upto)
    requires i <= |q|
    requires forall j | 0 <= j < i :: Lower(q[j].lockseq, upto) || (!Banked(q[j]) && q[j].lockseq == upto)
    requires if best == None then forall j | 0 <= j < i :: Banked(q[j]) && Lower(q[j].lockseq, upto)
             else best.value < i && !Banked(q[best.value])
    ensures var r := FindSignal(q, i, upto, from, best);
            match r
            case Some(k) =>
              k < |q| &&
              if Banked(q[k]) then HigherEq(q[k].lockseq, upto) && (q[k].state.Prepost? ==> q[k].lockseq == upto)
              else LowerEq(q[k].lockseq, upto)
            case None => MayInsert(q, Kwe(upto, Prepost(1)))
    decreases |q| - i
  {
    hide Lower;
    hide InWindow;
    OrderFacts();
    if i == |q| {
    } else if q[i].state.Prepost? && Higher(q[i].lockseq, upto) {
      TailAbove(b, q, i, upto);
    } else if Banked(q[i]) {
      if Lower(q[i].lockseq, upto) {
        FindSignalSpec(b, q, i + 1, upto, from, best);
      }
    } else if Higher(q[i].lockseq, upto) {
      TailAbove(b, q, i, upto);
    } else if !HigherEq(q[i].lockseq, from) {
      FindSignalSpec(b, q, i + 1, upto, from, if best == None then Some(i) else best);
    }
  }

  lemma TailAbove(b: Seq, q: seq<Kwe>, i: nat, c: Seq)
    requires StrictlySorted(q) && Windowed(b, q) && InWindow(b, c)
    requires i < |q| && Higher(q[i].lockseq, c)
    ensures forall j | i <= j < |q| :: Higher(q[j].lockseq, c)
  {
    hide Lower;
    hide InWindow;
    OrderFacts();
    WindowTransitive(b);
    forall j | i < j < |q|
      ensures Higher(q[j].lockseq, c)
    {
      assert Lower(q[i].lockseq, q[j].lockseq);
    }
  }

  /** Everything a step on the queue alone has to keep. */
  ghost predicate Kept(b: Seq, cv: Cv, cv': Cv, upto: Seq) {
    && QueueInv(cv') && Windowed(b, cv'.q)
    && cv.zeroed == cv'.zeroed && cv.l == cv'.l
    && (WordInv(cv) && !cv.zeroed && LowerEq(upto, cv.l) ==> WordInv(cv'))
  }

  lemma InsertedElements(q: seq<Kwe>, e: Kwe)
    ensures forall x | x in Inserted(q, e) :: x in q || x == e
  {
    hide Lower;
    hide InWindow;
  }

  lemma RemovedElements(q: seq<Kwe>, k: nat)
    requires k < |q|
    ensures forall x | x in Removed(q, k) :: x in q
  {
    hide Lower;
    hide InWindow;
  }

  lemma InsertKept(b: Seq, cv: Cv, e: Kwe)
    requires QueueInv(cv) && Windowed(b, cv.q) && InWindow(b, e.lockseq) && MayInsert(cv.q, e)
    ensures !AtEnd(cv.q, e.lockseq)
    ensures Kept(b, cv, cv.(q := Inserted(cv.q, e), fake := cv.fake + if Banked(e) then 1 else 0), e.lockseq)
  {
    hide Lower;
    hide InWindow;
    InsertInv(b, cv, e);
    InsertedElements(cv.q, e);
    hide QueueInv;
    hide Windowed;
    hide Inserted;
  }

  lemma RemoveKept(b: Seq, cv: Cv, k: nat, s: Seq, upto: Seq)
    requires QueueInv(cv) && Windowed(b, cv.q) && k < |cv.q|
    ensures Kept(b, cv, cv.(q := Removed(cv.q, k), fake := cv.fake - (if Banked(cv.q[k]) then 1 else 0), s := s), upto)
  {
    hide Lower;
    hide InWindow;
    RemovedInv(cv, k);
    RemovedElements(cv.q, k);
  }

  lemma ReplaceKept(b: Seq, cv: Cv, k: nat, st: KweState, upto: Seq)
    requires QueueInv(cv) && Windowed(b, cv.q) && k < |cv.q| && Banked(cv.q[k]) && !st.InWait?
    ensures Kept(b, cv, cv.(q := cv.q[k := cv.q[k].(state := st)]), upto)
  {
    hide Lower;
    hide InWindow;
    ReplacedInv(cv, k, st);
  }

  lemma SignalChosenInv(b: Seq, cv: Cv, k: Option<nat>, upto: Seq, from: Seq)
    requires QueueInv(cv) && Windowed(b, cv.q) && InWindow(b, upto)
    requires if k.Some? then k.value < |cv.q| else MayInsert(cv.q, Kwe(upto, Prepost(1)))
    ensures var (cv', broad, out) := SignalChosen(cv, k, upto, from);
            Kept(b, cv, cv', upto) && !out.refused && !out.converted && !out.leftover
  {
    hide Lower;
    hide InWindow;
    hide Fakes;
    hide StrictlySorted;
    hide BankedFirst;
    hide Windowed;
    match k
    case None =>
      InsertKept(b, cv, Kwe(upto, Prepost(1)));
    case Some(k) =>
      match cv.q[k].state
      case InWait(t) => RemoveKept(b, cv, k, Plus(cv.s, 1), upto);
      case Prepost(n) => ReplaceKept(b, cv, k, Prepost(n + 1), upto);
      case Broadcast =>
  }

  lemma SignalOneInv(b: Seq, cv: Cv, target: Option<Thread>, upto: Seq, from: Seq)
    requires QueueInv(cv) && Windowed(b, cv.q) && InWindow(b, upto)
    ensures var (cv', broad, out) := SignalOne(cv, target, upto, from);
            Kept(b, cv, cv', upto) && !out.refused && !out.converted && !out.leftover
  {
    hide Lower;
    hide InWindow;
    hide Fakes;
    hide StrictlySorted;
    hide BankedFirst;
    if target.Some? {
      var k := IndexOf(cv.q, target.value);
      if k < |cv.q| {
        SignalChosenInv(b, cv, Some(k), upto, from);
      }
    } else {
      FindSignalSpec(b, cv.q, 0, upto, from, None);
      SignalChosenInv(b, cv, FindSignal(cv.q, 0, upto, from, None), upto, from);
    }
  }

  lemma FixupInv(cv: Cv, out: Out)
    requires QueueInv(cv)
    ensures QueueInv(Fixup(cv, out).0)
    ensures var out' := Fixup(cv, out).1;
            out'.refused == out.refused && out'.converted == out.converted
    ensures !cv.zeroed && WordInv(cv) ==>
              && WordInv(Fixup(cv, out).0)
              && (!out.leftover ==> !Fixup(cv, out).1.leftover)
  {
    hide Lower;
    hide InWindow;
    OrderFacts();
    DropFirstInv(cv, FirstHigher(cv.q, cv.l));
    if WordInv(cv) && !cv.zeroed {
      if FirstHigher(cv.q, cv.l) < |cv.q| {
        assert false;
      }
    }
  }

  lemma BroadcastedWords(cv: Cv, upto: Seq)
    ensures var cv' := Broadcasted(cv, upto).0; cv'.l == cv.l && cv'.s == cv.s && cv'.zeroed == cv.zeroed
  {
    hide FirstHigher;
    hide Waiters;
    hide Fakes;
    hide Inserted;
  }

  lemma BroadEndInv(b: Seq, cv: Cv, upto: Seq, already: nat, out: Out)
    requires QueueInv(cv) && Windowed(b, cv.q) && InWindow(b, upto)
    requires !out.refused && !out.converted && !out.leftover
    ensures var (cv', out') := BroadEnd(cv, upto, already, out);
            && QueueInv(cv') && !out'.refused && !out'.converted
            && (WordInv(cv) && !cv.zeroed && LowerEq(upto, cv.l) ==> WordInv(cv') && !out'.leftover)
  {
    hide Lower;
    hide InWindow;
    hide Fakes;
    hide StrictlySorted;
    hide BankedFirst;
    hide Plus;
    hide Fixup;
    hide Broadcasted;
    hide BroadRefused;
    BroadcastedInv(b, cv, upto);
    BroadcastedWords(cv, upto);
    var (cv1, woken) := Broadcasted(cv, upto);
    FixupInv(cv1.(s := Plus(cv1.s, already + |woken|)), out.(woken := woken, refused := false));
  }

  /** The end of a signal. */
  lemma SignalEndInv(b: Seq, cv: Cv, broadcast: bool, upto: Seq, out: Out)
    requires QueueInv(cv) && Windowed(b, cv.q) && InWindow(b, upto)
    requires !out.refused && !out.converted && !out.leftover
    ensures var (cv', out') := SignalEnd(cv, broadcast, upto, out);
            && QueueInv(cv') && !out'.refused && !out'.converted
            && (WordInv(cv) && !cv.zeroed && LowerEq(upto, cv.l) ==> WordInv(cv') && !out'.leftover)
  {
    hide Lower;
    hide QueueInv;
    hide WordInv;
    hide Fixup;
    hide BroadEnd;
    if broadcast {
      BroadEndInv(b, cv, upto, 0, out);
    } else {
      FixupInv(cv, out);
    }
  }

  /** One of two words, and not lower than either. */
  predicate Later(x: Seq, y: Seq, z: Seq) {
    (z == x || z == y) && LowerEq(x, z) && LowerEq(y, z)
  }

  /** Merging the words: L and U become the later of the two, and S too, but only if the
      caller vouches for its own; after a clean-up the caller's words are taken as they
      are. */
  lemma WordsMerge(cv: Cv, w: Words)
    ensures var cv' := Update(cv, w);
            && cv'.q == cv.q && cv'.fake == cv.fake && !cv'.zeroed
            && (if cv.zeroed then cv'.l == w.l && cv'.u == w.u && cv'.s == w.s
                else
                  && Later(cv.l, w.l, cv'.l) && Later(cv.u, w.u, cv'.u)
                  && (if w.sinit then Later(cv.s, w.s, cv'.s) else cv'.s == cv.s))
  {
    hide Lower;
    OrderFacts();
  }

  lemma UpdateInv(b: Seq, cv: Cv, w: Words)
    requires InWindow(b, w.l) && Windowed(b, cv.q) && (!cv.zeroed ==> InWindow(b, cv.l))
    ensures QueueInv(cv) ==> QueueInv(Update(cv, w))
    ensures var cv' := Update(cv, w);
            !cv'.zeroed && cv'.q == cv.q && InWindow(b, cv'.l) && LowerEq(w.l, cv'.l)
    ensures WordInv(cv) ==> WordInv(Update(cv, w))
  {
    hide Lower;
    hide InWindow;
    OrderFacts();
    if !cv.zeroed && WordInv(cv) {
      var cv' := Update(cv, w);
      forall e | e in cv.q
        ensures LowerEq(e.lockseq, cv'.l)
      {
        LowerEqTransitive(b, e.lockseq, cv.l, cv'.l);
      }
    }
  }

  lemma CvSignalInv(b: Seq, cv: Cv, w: Words, target: Option<Thread>, broadcast: bool)
    requires QueueInv(cv) && Windowed(b, cv.q) && InWindow(b, w.l) && (!cv.zeroed ==> InWindow(b, cv.l))
    ensures var (cv', out) := CvSignal(cv, w, target, broadcast);
            && QueueInv(cv') && !out.refused && !out.converted
            && (WordInv(cv) ==> WordInv(cv') && !out.leftover)
  {
    hide Lower;
    hide InWindow;
    hide Plus;
    hide QueueInv;
    hide Windowed;
    hide WordInv;
    hide SignalOne;
    hide SignalEnd;
    hide Update;
    UpdateInv(b, cv, w);
    var cv1 := Update(cv, w);
    SignalOneInv(b, cv1, target, w.l, Plus(w.u, 1));
    var (cv2, broad, out) := SignalOne(cv1, target, w.l, Plus(w.u, 1));
    SignalEndInv(b, cv2, broad, w.l, out);
    SignalEndInv(b, cv1, broadcast, w.l, Quiet);
  }

  lemma ConsumeInv(b: Seq, cv: Cv, c: Seq)
    requires QueueInv(cv) && Windowed(b, cv.q) && InWindow(b, c)
    requires FindPrepost(cv.q, c).Some? && Banked(cv.q[FindPrepost(cv.q, c).value])
    ensures var (cv', out) := Consume(cv, FindPrepost(cv.q, c).value, c);
            && QueueInv(cv') && !out.refused && !out.converted && !out.leftover
            && cv'.zeroed == cv.zeroed && cv'.l == cv.l
            && (WordInv(cv) && !cv.zeroed ==> WordInv(cv'))
  {
    hide Lower;
    hide InWindow;
    hide Fakes;
    var k := FindPrepost(cv.q, c).value;
    var e := cv.q[k];
    if e.state.Prepost? {
      if e.lockseq != c {
        BroadcastedInv(b, cv, e.lockseq);
        ConvertWakesNobody(b, cv, k);
      } else if e.state.count == 1 {
        RemovedInv(cv, k);
      } else {
        ReplacedInv(cv, k, Prepost(e.state.count - 1));
      }
    }
  }

  /** A broadcast up to a banked element finds banked elements only. */
  lemma ConvertWakesNobody(b: Seq, cv: Cv, k: nat)
    requires QueueInv(cv) && Windowed(b, cv.q) && k < |cv.q| && Banked(cv.q[k])
    ensures Broadcasted(cv, cv.q[k].lockseq).1 == []
  {
    hide Lower;
    hide InWindow;
    hide Fakes;
    var f := FirstHigher(cv.q, cv.q[k].lockseq);
    assert k + 1 < |cv.q| ==> Lower(cv.q[k].lockseq, cv.q[k + 1].lockseq);
    FakesAll(cv.q[..f]);
  }

  lemma CvWaitInv(b: Seq, cv: Cv, w: Words, t: Thread)
    requires QueueInv(cv) && Windowed(b, cv.q) && InWindow(b, w.l) && (!cv.zeroed ==> InWindow(b, cv.l))
    ensures var (cv', out) := CvWait(cv, w, t);
            && QueueInv(cv') && !out.refused && !out.converted
            && (WordInv(cv) ==> WordInv(cv') && !out.leftover)
  {
    hide Lower;
    hide InWindow;
    hide Plus;
    hide QueueInv;
    hide Windowed;
    hide WordInv;
    hide Inserted;
    hide Consume;
    hide Fixup;
    UpdateInv(b, cv, w);
    var cv1 := Update(cv, w);
    match FindPrepost(cv1.q, w.l)
    case None =>
      WaiterKept(b, cv1, w.l, t);
    case Some(k) =>
      if Banked(cv1.q[k]) {
        ConsumeInv(b, cv1, w.l);
        var (cv2, out) := Consume(cv1, k, w.l);
        SwordInv(cv2, Plus(cv2.s, 1));
        FixupInv(cv2.(s := Plus(cv2.s, 1)), out);
      }
  }

  lemma SwordInv(cv: Cv, s: Seq)
    ensures QueueInv(cv) ==> QueueInv(cv.(s := s))
    ensures WordInv(cv) ==> WordInv(cv.(s := s))
  {
  }

  lemma WaiterKept(b: Seq, cv: Cv, c: Seq, t: Thread)
    requires QueueInv(cv) && Windowed(b, cv.q) && InWindow(b, c) && FindPrepost(cv.q, c) == None
    ensures !AtEnd(cv.q, c) && Kept(b, cv, cv.(q := Inserted(cv.q, Kwe(c, InWait(t)))), c)
  {
    hide Lower;
    hide InWindow;
    WaiterFindsPlace(b, cv.q, c, t);
    InsertKept(b, cv, Kwe(c, InWait(t)));
  }

  lemma WaiterFindsPlace(b: Seq, q: seq<Kwe>, c: Seq, t: Thread)
    requires StrictlySorted(q) && BankedFirst(q) && Windowed(b, q) && InWindow(b, c)
    requires FindPrepost(q, c) == None
    ensures MayInsert(q, Kwe(c, InWait(t)))
  {
    hide Lower;
    hide InWindow;
    OrderFacts();
    AboveFirstHigher(b, q, c);
    var k := FirstHigherEq(q, c);
    forall i | 0 <= i < |q|
      ensures q[i].lockseq != c && (Banked(q[i]) ==> Lower(q[i].lockseq, c))
    {
      assert k < i && Banked(q[i]) ==> Banked(q[k]);
    }
  }

  lemma CvTimeoutInv(cv: Cv, t: Thread)
    requires QueueInv(cv)
    ensures QueueInv(CvTimeout(cv, t).0)
    ensures WordInv(cv) ==> WordInv(CvTimeout(cv, t).0)
  {
    hide Lower;
    hide InWindow;
    hide Plus;
    hide Fakes;
    var k := IndexOf(cv.q, t);
    if k < |cv.q| {
      RemovedInv(cv, k);
      var cv1 := cv.(q := Removed(cv.q, k), s := Plus(cv.s, 1));
      DropFirstInv(cv1, |cv1.q|);
      RemovedElements(cv.q, k);
    }
  }

  /** One step, whichever it is. */
  lemma StepInv(cv: Cv, ev: Event)
    requires QueueInv(cv) && Fits(cv, ev)
    ensures var (cv', out) := Step(cv, ev);
            && QueueInv(cv') && !out.refused && !out.converted
            && (Atomic(ev) && WordInv(cv) ==> WordInv(cv') && !out.leftover)
  {
    hide Lower;
    hide InWindow;
    hide Plus;
    hide Windowed;
    var b :| FitsIn(b, cv, ev);
    match ev
    case Wait(w, t) => CvWaitInv(b, cv, w, t);
    case Signal(w, target) => CvSignalInv(b, cv, w, target, false);
    case Broad(w) => CvSignalInv(b, cv, w, None, true);
    case Clear(upto) => DropFirstInv(cv, FirstHigher(cv.q, upto));
    case Timeout(t) => CvTimeoutInv(cv, t);
    case Dying(t) =>
      if IndexOf(cv.q, t) < |cv.q| {
        RemovedInv(cv, IndexOf(cv.q, t));
      }
    case Reclaim =>
    case SignalScan(w) =>
    case SignalRescan(upto, from) =>
      SignalOneInv(b, cv, None, upto, from);
      var (cv2, broad, out) := SignalOne(cv, None, upto, from);
      SignalEndInv(b, cv2, broad, upto, out);
    case BroadScan(upto) => DropFirstInv(cv, FirstHigher(cv.q, upto));
    case BroadRescan(upto, already) => BroadEndInv(b, cv, upto, already, Quiet);
  }

  // ---------------------------------------------------------------- runs

  ghost function Run(cv: Cv, evs: seq<Event>): Cv
    decreases |evs|
  {
    if evs == [] then cv else Run(Step(cv, evs[0]).0, evs[1..])
  }

  ghost predicate RunFits(cv: Cv, evs: seq<Event>)
    decreases |evs|
  {
    evs != [] ==> Fits(cv, evs[0]) && RunFits(Step(cv, evs[0]).0, evs[1..])
  }

  /** What the steps of a run report. */
  ghost function Reports(cv: Cv, evs: seq<Event>): seq<Out>
    decreases |evs|
  {
    if evs == [] then [] else [Step(cv, evs[0]).1] + Reports(Step(cv, evs[0]).0, evs[1..])
  }

  /** In every run, however the critical sections interleave: the queue is
      strictly sorted, banked elements precede blocked threads, `kw_fakecount` is
      exact, no insertion is refused and no conversion wakes anybody. */
  lemma {:induction false} EveryRunKeepsQueue(cv: Cv, evs: seq<Event>)
    requires QueueInv(cv) && RunFits(cv, evs)
    ensures QueueInv(Run(cv, evs))
    ensures forall out | out in Reports(cv, evs) :: !out.refused && !out.converted
    decreases |evs|
  {
    hide Lower;
    hide InWindow;
    if evs != [] {
      StepInv(cv, evs[0]);
      EveryRunKeepsQueue(Step(cv, evs[0]).0, evs[1..]);
    }
  }

  /** With atomic entry points, moreover: nothing is queued beyond L, nothing at
      all while the words are zeroed out, and a condition variable that becomes
      balanced is emptied. */
  lemma {:induction false} EveryRunKeepsWords(cv: Cv, evs: seq<Event>)
    requires QueueInv(cv) && WordInv(cv) && RunFits(cv, evs)
    requires forall ev | ev in evs :: Atomic(ev)
    ensures WordInv(Run(cv, evs))
    ensures forall out | out in Reports(cv, evs) :: !out.leftover
    decreases |evs|
  {
    hide Lower;
    hide InWindow;
    if evs != [] {
      StepInv(cv, evs[0]);
      EveryRunKeepsWords(Step(cv, evs[0]).0, evs[1..]);
    }
  }
}
