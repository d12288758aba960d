/**
 The books of a read-write lock, over every run: what becomes of the threads that
 block, and what becomes of the grants that failed to wake anybody.
 */
module RwLockLedger {
  import opened Options
  import opened SeqNum
  import opened Ksyn
  import opened Counting
  import opened SleeperSets
  import opened RwLock

  // ---------------------------------------------------------------- threads

  function Queued(rw: Rw): multiset<Thread> {
    Sleepers(rw.r) + Sleepers(rw.w)
  }

  /** The thread a step puts to sleep. */
  function Joins(ev: Event, out: Out): multiset<Thread> {
    if ev.Lock? && out.blocked then multiset{ev.t} else multiset{}
  }

  /** The thread whose wait a step aborts. */
  function Aborts(rw: Rw, ev: Event): multiset<Thread> {
    if !ev.Abort? then multiset{}
    else if ev.reader then (if ev.i < |rw.r| then Sleeper(rw.r[ev.i]) else multiset{})
    else if ev.i < |rw.w| then Sleeper(rw.w[ev.i])
    else multiset{}
  }

  /** The threads that the grant round of a step dequeues. */
  function Releases(out: Out): multiset<Thread> {
    if out.round.Some? then Sleepers(out.round.value.released) else multiset{}
  }

  lemma RoundReleases(rw: Rw, wc: Word, arr: Arrival, asleep: set<Thread>)
    ensures var (rw', round) := HandleUnlock(rw, wc, arr, asleep);
            Queued(rw) == Queued(rw') + Sleepers(round.released)
  {
    hide Lower;
    hide Masked;
    hide Wrap;
    hide CountToLowest;
    hide Absent;
    hide FirstHigherEq;
    hide LowestOf;
    hide Sleepers;
    NobodyAsleep();
    match KindOf(rw, arr)
    case ReadRound => SleepersSplit(rw.r, ReadersBelow(rw.r, LowWriter(rw, arr)));
    case WriteRound => SleepersSplit(rw.w, |HandleUnlock(rw, wc, arr, asleep).1.released|);
    case Panic =>
  }

  lemma NobodyAsleep()
    ensures Sleepers([]) == multiset{}
  {
  }

  lemma PrepostedReleases(rw: Rw, arr: Arrival, asleep: set<Thread>)
    requires !arr.Nobody?
    ensures var (rw', round) := Preposted(rw, arr, asleep);
            Queued(rw) == Queued(rw') + if round.Some? then Sleepers(round.value.released) else multiset{}
  {
    hide Lower;
    hide HandleUnlock;
    hide Sleepers;
    RoundReleases(rw.(prepost := NoPending, initCleared := false), rw.prepost.sseq, arr, asleep);
  }

  lemma EnqueueJoins(rw: Rw, reader: bool, e: Kwe)
    ensures Queued(if reader then rw.(r := Inserted(rw.r, e)) else rw.(w := Inserted(rw.w, e))) ==
            Queued(rw) + Sleeper(e)
  {
    hide Sleepers;
    hide Inserted;
    SleepersInserted(if reader then rw.r else rw.w, e);
  }

  /** A lock call takes a banked grant or joins the readers, and leaves the queues
      alone; or it has come to the preposted unlock, and may queue itself behind it. */
  lemma LockShape(rw: Rw, ev: Event, asleep: set<Thread>)
    requires ev.Lock?
    ensures var (rw', out) := Step(rw, ev, asleep);
            var (rw2, round) := Preposted(CheckInit(rw, ev.lgen), ArrivalOf(ev), asleep);
            var e := Kwe(CountOf(ev.lgen), InWait(ev.t));
            || (!out.blocked && out.round.None? && rw'.r == rw.r && rw'.w == rw.w)
            || (!out.blocked && out.round == round && rw' == rw2)
            || (out.blocked && out.round == round
                && rw' == if ev.reader then rw2.(r := Inserted(rw2.r, e)) else rw2.(w := Inserted(rw2.w, e)))
  {
    hide Lower;
    hide Bit;
    hide CountOf;
    hide Redeems;
    hide Overlaps;
    hide OverlapBits;
    hide Preposted;
    hide Inserted;
    hide AtEnd;
    hide Wrap;
  }

  lemma LockBalances(rw: Rw, ev: Event, asleep: set<Thread>)
    requires ev.Lock?
    ensures var (rw', out) := Step(rw, ev, asleep);
            Queued(rw) + Joins(ev, out) == Queued(rw') + Releases(out)
  {
    var rw1, arr, e := CheckInit(rw, ev.lgen), ArrivalOf(ev), Kwe(CountOf(ev.lgen), InWait(ev.t));
    var (rw2, round) := Preposted(rw1, arr, asleep);
    assert Queued(rw1) == Queued(rw) && Sleeper(e) == multiset{ev.t};
    LockShape(rw, ev, asleep);
    PrepostedReleases(rw1, arr, asleep);
    EnqueueJoins(rw2, ev.reader, e);
    hide Step;
    hide Preposted;
    hide CheckInit;
    hide Inserted;
    hide Sleepers;
    hide Sleeper;
    hide CountOf;
    hide ArrivalOf;
    var (rw', out) := Step(rw, ev, asleep);
    if !(!out.blocked && out.round.None?) {
      hide Queued;
    }
  }

  lemma UnlockBalances(rw: Rw, ev: Event, asleep: set<Thread>)
    requires ev.Unlock?
    ensures var (rw', out) := Step(rw, ev, asleep);
            Queued(rw) == Queued(rw') + Releases(out)
  {
    hide Bit;
    hide CountOf;
    hide IsSeqLower;
    hide IsSeqHigherEq;
    hide FindDiff;
    hide FindSeqTill;
    hide HandleUnlock;
    hide Sleepers;
    RoundReleases(UnlockRoundState(rw, ev.lgen), ev.wc, Nobody, asleep);
  }

  lemma AbortBalances(rw: Rw, ev: Event, asleep: set<Thread>)
    requires ev.Abort?
    ensures Queued(rw) == Queued(Step(rw, ev, asleep).0) + Aborts(rw, ev)
    ensures Step(rw, ev, asleep).1 == Out(Ok, false, 0, None)
  {
    hide Sleepers;
    hide Sleeper;
    if ev.reader && ev.i < |rw.r| {
      SleepersRemoved(rw.r, ev.i);
    } else if !ev.reader && ev.i < |rw.w| {
      SleepersRemoved(rw.w, ev.i);
    }
  }

  /** One step: the threads queued before and the one that blocks are those queued
      after, those released and the one that gives up. */
  lemma NobodyVanishes(rw: Rw, ev: Event, asleep: set<Thread>)
    ensures var (rw', out) := Step(rw, ev, asleep);
            Queued(rw) + Joins(ev, out) == Queued(rw') + (Releases(out) + Aborts(rw, ev))
  {
    hide Queued;
    hide Sleepers;
    hide RwLockCall;
    hide RwUnlock;
    hide RwAbort;
    match ev
    case Lock(_, _, _, _) => LockBalances(rw, ev, asleep);
    case Unlock(_, _, _) => UnlockBalances(rw, ev, asleep);
    case Abort(_, _) => AbortBalances(rw, ev, asleep);
  }

  ghost function JoinedIn(rw: Rw, evs: seq<(Event, set<Thread>)>): multiset<Thread>
    decreases |evs|
  {
    if evs == [] then multiset{}
    else
      var (rw', out) := Step(rw, evs[0].0, evs[0].1);
      Joins(evs[0].0, out) + JoinedIn(rw', evs[1..])
  }

  ghost function LeftIn(rw: Rw, evs: seq<(Event, set<Thread>)>): multiset<Thread>
    decreases |evs|
  {
    if evs == [] then multiset{}
    else
      var (rw', out) := Step(rw, evs[0].0, evs[0].1);
      Releases(out) + Aborts(rw, evs[0].0) + LeftIn(rw', evs[1..])
  }

  /** Over every run, whatever the words and whichever wake-ups fail: the lock calls
      that blocked are exactly those released by a grant round, those aborted and those
      still queued. */
  lemma {:induction false} EveryThreadAccountedFor(rw: Rw, evs: seq<(Event, set<Thread>)>)
    ensures Queued(rw) + JoinedIn(rw, evs) == Queued(Run(rw, evs)) + LeftIn(rw, evs)
    decreases |evs|
  {
    hide Step;
    hide Queued;
    hide Releases;
    hide Aborts;
    hide Joins;
    if evs != [] {
      var (rw', out) := Step(rw, evs[0].0, evs[0].1);
      NobodyVanishes(rw, evs[0].0, evs[0].1);
      EveryThreadAccountedFor(rw', evs[1..]);
      Chained(Queued(rw), Joins(evs[0].0, out), Queued(rw'), Releases(out) + Aborts(rw, evs[0].0),
              JoinedIn(rw', evs[1..]), Queued(Run(rw', evs[1..])), LeftIn(rw', evs[1..]));
    }
  }

  // ---------------------------------------------------------------- failed grants

  predicate StaysAway(e: Kwe, asleep: set<Thread>) {
    e.state.InWait? ==> e.state.thread !in asleep
  }

  /** A round counts as failed exactly the threads that it took off and that were no
      longer asleep. */
  lemma {:induction false} FailedAreAbsent(q: seq<Kwe>, asleep: set<Thread>)
    ensures Absent(q, asleep) == Count(q, (e: Kwe) => StaysAway(e, asleep))
    decreases |q|
  {
    if q != [] {
      FailedAreAbsent(q[1..], asleep);
      CountFromFront(q, (e: Kwe) => StaysAway(e, asleep));
    }
  }

  /** How many grants of a kind (for readers or for writers) are banked. */
  function Bank(rw: Rw, kind: nat): nat {
    if rw.intr.kind == kind then rw.intr.count else 0
  }

  /** How many wake-ups of a kind fail in a step. */
  function Fails(out: Out, kind: nat): nat {
    if out.round.Some? && IntrKind(out.round.value.kind) == kind then out.round.value.failed else 0
  }

  /** The step is a lock call that takes a banked grant. */
  predicate Takes(rw: Rw, ev: Event) {
    && ev.Lock?
    && Redeems(CheckInit(rw, ev.lgen), if ev.reader then PTH_RW_TYPE_READ else PTH_RW_TYPE_WRITE, CountOf(ev.lgen))
  }

  /** The step has a grant round in which a wake-up fails. */
  predicate FailingRound(out: Out) {
    out.round.Some? && out.round.value.failed > 0
  }

  /** The step throws away banked grants of the kind: it starts the structure over, or
      banks the failures of a new round in place of them, or takes the first of
      several grants whose word is zero. */
  predicate Loses(rw: Rw, ev: Event, out: Out, kind: nat) {
    && Bank(rw, kind) > 0
    && (Clears(rw, ev) || FailingRound(out) || (Takes(rw, ev) && rw.intr.bits == 0 && rw.intr.count > 1))
  }

  /** How many it throws away. */
  function Lost(rw: Rw, ev: Event, out: Out, kind: nat): nat {
    if Loses(rw, ev, out, kind) then Bank(rw, kind) - One(Takes(rw, ev)) else 0
  }

  lemma RoundBanks(rw: Rw, wc: Word, arr: Arrival, asleep: set<Thread>, kind: nat)
    requires kind != KWQ_INTR_NONE
    ensures var (rw', round) := HandleUnlock(rw, wc, arr, asleep);
            if round.failed == 0 then rw'.intr == rw.intr
            else Bank(rw', kind) == if IntrKind(round.kind) == kind then round.failed else 0
  {
    FailedWakeupsBanked(rw, wc, arr, asleep);
    hide HandleUnlock;
  }

  lemma PrepostedBanks(rw: Rw, arr: Arrival, asleep: set<Thread>, kind: nat)
    requires !arr.Nobody? && kind != KWQ_INTR_NONE
    ensures var (rw', round) := Preposted(rw, arr, asleep);
            if round.None? || round.value.failed == 0 then rw'.intr == rw.intr
            else Bank(rw', kind) == if IntrKind(round.value.kind) == kind then round.value.failed else 0
  {
    hide Lower;
    hide HandleUnlock;
    RoundBanks(rw.(prepost := NoPending, initCleared := false), rw.prepost.sseq, arr, asleep, kind);
  }

  lemma LockBanks(rw: Rw, ev: Event, asleep: set<Thread>, kind: nat)
    requires ev.Lock? && kind != KWQ_INTR_NONE
    ensures var (rw', out) := Step(rw, ev, asleep);
            && Bank(rw, kind) + Fails(out, kind) ==
               Bank(rw', kind) + Lost(rw, ev, out, kind) + One(Takes(rw, ev) && rw.intr.kind == kind)
            && (Loses(rw, ev, out, kind) <==> Lost(rw, ev, out, kind) > 0)
  {
    hide Lower;
    hide Bit;
    hide CountOf;
    hide Overlaps;
    hide OverlapBits;
    hide Preposted;
    hide Inserted;
    hide AtEnd;
    PrepostedBanks(CheckInit(rw, ev.lgen), ArrivalOf(ev), asleep, kind);
  }

  lemma UnlockBanks(rw: Rw, ev: Event, asleep: set<Thread>, kind: nat)
    requires ev.Unlock? && kind != KWQ_INTR_NONE
    ensures var (rw', out) := Step(rw, ev, asleep);
            Bank(rw, kind) + Fails(out, kind) == Bank(rw', kind) + Lost(rw, ev, out, kind)
  {
    hide Bit;
    hide CountOf;
    hide IsSeqLower;
    hide IsSeqHigherEq;
    hide FindDiff;
    hide FindSeqTill;
    hide HandleUnlock;
    RoundBanks(UnlockRoundState(rw, ev.lgen), ev.wc, Nobody, asleep, kind);
  }

  /** One step: what was banked and what fails is what is banked afterwards, what is
      thrown away and what a lock call takes.  A lock call never takes a writer's
      grant, because it asks for type 0x04 where 0x2 is banked. */
  lemma GrantBalances(rw: Rw, ev: Event, asleep: set<Thread>, kind: nat)
    requires kind != KWQ_INTR_NONE
    ensures var (rw', out) := Step(rw, ev, asleep);
            && Bank(rw, kind) + Fails(out, kind) ==
               Bank(rw', kind) + Lost(rw, ev, out, kind) + One(Takes(rw, ev) && rw.intr.kind == kind)
            && (Loses(rw, ev, out, kind) <==> Lost(rw, ev, out, kind) > 0)
    ensures Takes(rw, ev) ==> rw.intr.kind != KWQ_INTR_WRITE
  {
    hide RwLockCall;
    hide RwUnlock;
    match ev
    case Lock(_, _, _, _) => LockBanks(rw, ev, asleep, kind);
    case Unlock(_, _, _) => UnlockBanks(rw, ev, asleep, kind);
    case Abort(_, _) =>
  }

  ghost function FailedIn(rw: Rw, evs: seq<(Event, set<Thread>)>, kind: nat): nat
    decreases |evs|
  {
    if evs == [] then 0
    else
      var (rw', out) := Step(rw, evs[0].0, evs[0].1);
      Fails(out, kind) + FailedIn(rw', evs[1..], kind)
  }

  ghost function TakenIn(rw: Rw, evs: seq<(Event, set<Thread>)>, kind: nat): nat
    decreases |evs|
  {
    if evs == [] then 0
    else
      One(Takes(rw, evs[0].0) && rw.intr.kind == kind) + TakenIn(Step(rw, evs[0].0, evs[0].1).0, evs[1..], kind)
  }

  ghost function LostIn(rw: Rw, evs: seq<(Event, set<Thread>)>, kind: nat): nat
    decreases |evs|
  {
    if evs == [] then 0
    else
      var (rw', out) := Step(rw, evs[0].0, evs[0].1);
      Lost(rw, evs[0].0, out, kind) + LostIn(rw', evs[1..], kind)
  }

  /** No step of the run throws away banked grants of the kind. */
  ghost predicate NothingThrownAway(rw: Rw, evs: seq<(Event, set<Thread>)>, kind: nat)
    decreases |evs|
  {
    evs != [] ==>
      var (rw', out) := Step(rw, evs[0].0, evs[0].1);
      !Loses(rw, evs[0].0, out, kind) && NothingThrownAway(rw', evs[1..], kind)
  }

  /** Over every run, readers' and writers' grants apart: those that failed are exactly
      those taken by a later lock call, those still banked and those lost; and none is
      lost if and only if no step throws any away, that is, if no failing round and no
      starting over finds any banked (or a zero word).  Writers' grants are never
      taken. */
  lemma {:induction false} GrantsAccountedFor(rw: Rw, evs: seq<(Event, set<Thread>)>, kind: nat)
    requires kind != KWQ_INTR_NONE
    ensures Bank(rw, kind) + FailedIn(rw, evs, kind) ==
            TakenIn(rw, evs, kind) + Bank(Run(rw, evs), kind) + LostIn(rw, evs, kind)
    ensures LostIn(rw, evs, kind) == 0 <==> NothingThrownAway(rw, evs, kind)
    ensures TakenIn(rw, evs, KWQ_INTR_WRITE) == 0
    decreases |evs|
  {
    hide Step;
    hide Takes;
    hide FailingRound;
    hide Fails;
    hide Loses;
    hide Lost;
    hide Bank;
    if evs != [] {
      var (rw', out) := Step(rw, evs[0].0, evs[0].1);
      GrantBalances(rw, evs[0].0, evs[0].1, kind);
      GrantsAccountedFor(rw', evs[1..], kind);
    }
  }

  /** A reader whom the banked grants are meant for. */
  predicate Asks(intr: Intr, ev: Event) {
    ev.Lock? && ev.reader && (intr.lockseq == 0 || LowerEq(CountOf(ev.lgen), intr.lockseq))
  }

  function Asking(intr: Intr, evs: seq<(Event, set<Thread>)>): nat {
    if evs == [] then 0 else One(Asks(intr, evs[0].0)) + Asking(intr, evs[1..])
  }

  /** Any run in which the structure is not started over and no further wake-up
      fails. */
  ghost predicate NoOtherFailure(rw: Rw, evs: seq<(Event, set<Thread>)>)
    decreases |evs|
  {
    evs != [] ==>
      var (rw', out) := Step(rw, evs[0].0, evs[0].1);
      !Clears(rw, evs[0].0) && !FailingRound(out) && NoOtherFailure(rw', evs[1..])
  }

  lemma OneAsk(rw: Rw, ev: Event, asleep: set<Thread>)
    requires rw.intr.kind == KWQ_INTR_READ && rw.intr.bits != 0
    requires !Clears(rw, ev) && !FailingRound(Step(rw, ev, asleep).1)
    ensures var (rw', out) := Step(rw, ev, asleep);
            && (Takes(rw, ev) <==> Asks(rw.intr, ev) && rw.intr.count > 0)
            && rw'.intr == rw.intr.(count := rw.intr.count - One(Takes(rw, ev)))
            && (Takes(rw, ev) ==> out == Out(Ok, false, rw.intr.bits, None) && rw'.r == rw.r && rw'.w == rw.w)
  {
    hide Lower;
    hide Bit;
    hide CountOf;
    hide Overlaps;
    hide OverlapBits;
    hide Preposted;
    hide HandleUnlock;
    hide Inserted;
    hide AtEnd;
    hide IsSeqLower;
    hide IsSeqHigherEq;
    hide FindDiff;
    hide FindSeqTill;
    if ev.Lock? {
      PrepostedBanks(rw, ArrivalOf(ev), asleep, KWQ_INTR_READ);
    } else if ev.Unlock? {
      RoundBanks(UnlockRoundState(rw, ev.lgen), ev.wc, Nobody, asleep, KWQ_INTR_READ);
    }
  }

  /** Banked reader grants are handed out one each, whatever else happens in between:
      a reader gets one if and only if they are meant for it and fewer such readers
      than grants came before.  It returns with the banked word instead of blocking. */
  lemma {:induction false} BankedGrantsHandedOut(rw: Rw, evs: seq<(Event, set<Thread>)>, i: nat)
    requires rw.intr.kind == KWQ_INTR_READ && rw.intr.bits != 0 && NoOtherFailure(rw, evs) && i < |evs|
    ensures var at := Run(rw, evs[..i]);
            var (after, out) := Step(at, evs[i].0, evs[i].1);
            && (Takes(at, evs[i].0) <==> Asks(rw.intr, evs[i].0) && Asking(rw.intr, evs[..i]) < rw.intr.count)
            && (Takes(at, evs[i].0) ==>
                  out == Out(Ok, false, rw.intr.bits, None) && after.r == at.r && after.w == at.w)
    decreases |evs|
  {
    hide Step;
    hide Takes;
    hide Clears;
    hide FailingRound;
    var rw' := Step(rw, evs[0].0, evs[0].1).0;
    OneAsk(rw, evs[0].0, evs[0].1);
    if i > 0 {
      assert evs[..i][1..] == evs[1..][..i - 1] && evs[..i][0] == evs[0];
      SameAsking(rw.intr, rw'.intr, evs[1..][..i - 1]);
      BankedGrantsHandedOut(rw', evs[1..], i - 1);
    }
  }

  lemma {:induction false} SameAsking(intr: Intr, intr': Intr, evs: seq<(Event, set<Thread>)>)
    requires intr.lockseq == intr'.lockseq
    ensures Asking(intr, evs) == Asking(intr', evs)
  {
    if evs != [] {
      SameAsking(intr, intr', evs[1..]);
    }
  }

  /** Grants do get lost: a reader's wake-up fails and is banked; before the reader
      comes back, a writer's wake-up fails and takes its place. */
  lemma FailedReaderIsForgotten(reader: Thread, writer: Thread)
    ensures var evs := [(Lock(true, 0x100, 0, reader), {}), (Unlock(0x100, 0, 0), {}),
                        (Lock(false, 0x200, 0, writer), {}), (Unlock(0x200, 0x100, 0), {})];
            && FailedIn(Fresh, evs, KWQ_INTR_READ) == LostIn(Fresh, evs, KWQ_INTR_READ) == 1
            && Bank(Run(Fresh, evs), KWQ_INTR_READ) == TakenIn(Fresh, evs, KWQ_INTR_READ) == 0
  {
    var evs: seq<(Event, set<Thread>)> := [(Lock(true, 0x100, 0, reader), {}), (Unlock(0x100, 0, 0), {}),
                                           (Lock(false, 0x200, 0, writer), {}), (Unlock(0x200, 0x100, 0), {})];
    var rw1 := ReaderBlocks(reader);
    var rw2 := ReaderFails(rw1, Kwe(1, InWait(reader)));
    var rw3 := WriterBlocks(rw2, writer);
    var rw4 := WriterFails(rw3, Kwe(2, InWait(writer)));
    hide *;
    Posted(Fresh, evs, rw1, 0, 0);
    Posted(rw1, evs[1..], rw2, 1, 0);
    Posted(rw2, evs[2..], rw3, 0, 0);
    Posted(rw3, evs[3..], rw4, 0, 1);
    NothingPosted(rw4, evs[4..]);
    assert evs[1..][1..] == evs[2..] && evs[2..][1..] == evs[3..] && evs[3..][1..] == evs[4..];
  }

  /** One step with all wake-ups failing, and its entries in the readers' book. */
  ghost predicate Entry(rw: Rw, ev: Event, rw': Rw, fails: nat, lost: nat) {
    var (after, out) := Step(rw, ev, {});
    && after == rw' && Fails(out, KWQ_INTR_READ) == fails && Lost(rw, ev, out, KWQ_INTR_READ) == lost
    && !Takes(rw, ev)
  }

  lemma Posted(rw: Rw, evs: seq<(Event, set<Thread>)>, rw': Rw, fails: nat, lost: nat)
    requires evs != [] && evs[0].1 == {} && Entry(rw, evs[0].0, rw', fails, lost)
    ensures FailedIn(rw, evs, KWQ_INTR_READ) == fails + FailedIn(rw', evs[1..], KWQ_INTR_READ)
    ensures LostIn(rw, evs, KWQ_INTR_READ) == lost + LostIn(rw', evs[1..], KWQ_INTR_READ)
    ensures TakenIn(rw, evs, KWQ_INTR_READ) == TakenIn(rw', evs[1..], KWQ_INTR_READ)
    ensures Run(rw, evs) == Run(rw', evs[1..])
  {
    hide Step;
    hide Fails;
    hide Lost;
    hide Takes;
  }

  lemma NothingPosted(rw: Rw, evs: seq<(Event, set<Thread>)>)
    requires evs == []
    ensures FailedIn(rw, evs, KWQ_INTR_READ) == LostIn(rw, evs, KWQ_INTR_READ) == 0
    ensures TakenIn(rw, evs, KWQ_INTR_READ) == 0 && Run(rw, evs) == rw
  {
  }

  lemma ReaderBlocks(t: Thread) returns (rw': Rw)
    ensures rw' == Fresh.(r := [Kwe(1, InWait(t))])
    ensures Entry(Fresh, Lock(true, 0x100, 0, t), rw', 0, 0)
  {
    rw' := Step(Fresh, Lock(true, 0x100, 0, t), {}).0;
  }

  lemma ReaderFails(rw: Rw, e: Kwe) returns (rw': Rw)
    requires rw == Fresh.(r := [e]) && e.lockseq == 1
    ensures rw'.r == rw'.w == [] && rw'.prepost == NoPending && rw'.lastUnlock == 0
    ensures rw'.intr == Intr(KWQ_INTR_READ, 1, 0, 0x100)
    ensures Entry(rw, Unlock(0x100, 0, 0), rw', 1, 0)
  {
    hide CountFrom;
    assert CountToLowest(rw.r, 1) == 1;
    assert rw.r[..1] == [e] && [e][1..] == [] && Absent([e], {}) == 1;
    rw' := Step(rw, Unlock(0x100, 0, 0), {}).0;
  }

  lemma WriterBlocks(rw: Rw, t: Thread) returns (rw': Rw)
    requires rw.r == rw.w == [] && rw.prepost == NoPending && rw.intr == Intr(KWQ_INTR_READ, 1, 0, 0x100)
    ensures rw' == rw.(w := [Kwe(2, InWait(t))])
    ensures Entry(rw, Lock(false, 0x200, 0, t), rw', 0, 0)
  {
    rw' := Step(rw, Lock(false, 0x200, 0, t), {}).0;
  }

  lemma WriterFails(rw: Rw, e: Kwe) returns (rw': Rw)
    requires rw.r == [] && rw.w == [e] && e.lockseq == 2 && rw.lastUnlock == 0
    requires rw.intr == Intr(KWQ_INTR_READ, 1, 0, 0x100)
    ensures Bank(rw', KWQ_INTR_READ) == 0
    ensures Entry(rw, Unlock(0x200, 0x100, 0), rw', 0, 1)
  {
    hide CountFrom;
    assert CountToLowest(rw.w, 2) == 1;
    assert rw.w[..1] == [e] && [e][1..] == [] && Absent([e], {}) == 1;
    rw' := Step(rw, Unlock(0x200, 0x100, 0), {}).0;
  }
}
