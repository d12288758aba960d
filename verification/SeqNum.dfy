/**
 The wrapping sequence numbers of the psynch wait queues.

 A lock word is 32 bits wide: the low 8 bits are flags, the upper 24 bits are a
 count that wraps.  The comparisons below work on whole words, exactly as the C
 helpers do (`w & PTHRW_COUNT_MASK` is written `w - w % 256`).  The rest of the
 project compares counts; `WordOrderIsCountOrder` justifies that.
 */
module SeqNum {

  /** A 32-bit lock word. */
  type Word = w: int | 0 <= w < 0x1_0000_0000

  /** The 24-bit count held in the upper bits of a word. */
  type Seq = c: int | 0 <= c < 0x100_0000

  /** Number of distinct counts. */
  const COUNTS := 0x100_0000

  /** Half of them: the size of the window in which the order is meaningful. */
  const HALF := 0x80_0000

  const PTHRW_INC := 0x100

  // Flag bits of a lock word.
  const PTH_RWL_KBIT := 0x01
  const PTH_RWL_EBIT := 0x02

  const PTHRW_MAX_READERS := 0xFFFF_FF00

  function Masked(w: Word): Word {
    w - w % 0x100
  }

  function CountOf(w: Word): Seq {
    w / 0x100
  }

  predicate IsSeqLower(x: Word, y: Word) {
    var x, y := Masked(x), Masked(y);
    if x < y then y - x < PTHRW_MAX_READERS / 2 else x - y > PTHRW_MAX_READERS / 2
  }

  predicate IsSeqLowerEq(x: Word, y: Word) {
    if Masked(x) == Masked(y) then true else IsSeqLower(x, y)
  }

  predicate IsSeqHigher(x: Word, y: Word) {
    var x, y := Masked(x), Masked(y);
    if x > y then x - y < PTHRW_MAX_READERS / 2 else y - x > PTHRW_MAX_READERS / 2
  }

  predicate IsSeqHigherEq(x: Word, y: Word) {
    if Masked(x) == Masked(y) then true else IsSeqHigher(x, y)
  }

  function DiffGenSeq(x: Word, y: Word): Word {
    var x, y := Masked(x), Masked(y);
    if x == y then 0
    else if x > y then x - y
    else PTHRW_MAX_READERS - y + x + PTHRW_INC
  }

  function FindDiff(upto: Word, lowest: Word): Word {
    if upto == lowest then 0
    else
      var diff := if IsSeqLower(upto, lowest) then DiffGenSeq(lowest, upto) else DiffGenSeq(upto, lowest);
      diff / 0x100
  }

  // ---------------------------------------------------------------- counts

  predicate Lower(x: Seq, y: Seq) {
    if x < y then y - x < HALF else x - y >= HALF
  }

  predicate Higher(x: Seq, y: Seq) {
    Lower(y, x)
  }

  predicate LowerEq(x: Seq, y: Seq) {
    x == y || Lower(x, y)
  }

  predicate HigherEq(x: Seq, y: Seq) {
    x == y || Lower(y, x)
  }

  /** Adding to a count wraps. */
  function Plus(x: Seq, n: nat): Seq {
    (x + n) % COUNTS
  }

  /** How far one has to count up from `b` to reach `x`. */
  function Pos(b: Seq, x: Seq): Seq {
    if x >= b then x - b else x - b + COUNTS
  }

  /** `x` is one of the HALF consecutive counts that start at `b`. */
  predicate InWindow(b: Seq, x: Seq) {
    Pos(b, x) < HALF
  }

  // ---------------------------------------------------------------- properties

  /** The word comparisons only look at the counts; the C code writes `higher`
      separately from `lower`, and the two are each other's mirror image. */
  lemma WordOrderIsCountOrder(x: Word, y: Word)
    ensures IsSeqLower(x, y) == Lower(CountOf(x), CountOf(y))
    ensures IsSeqHigher(x, y) == Higher(CountOf(x), CountOf(y))
    ensures IsSeqLowerEq(x, y) == LowerEq(CountOf(x), CountOf(y))
    ensures IsSeqHigherEq(x, y) == HigherEq(CountOf(x), CountOf(y))
    ensures IsSeqLower(x, y) == IsSeqHigher(y, x)
  {
    assert Masked(x) == 0x100 * CountOf(x) && Masked(y) == 0x100 * CountOf(y);
  }

  /** Exactly one of lower, same count, higher: also for two words that are
      exactly half the circle apart, where the numerically larger one is lower. */
  lemma Trichotomy(x: Word, y: Word)
    ensures IsSeqLower(x, y) || CountOf(x) == CountOf(y) || IsSeqHigher(x, y)
    ensures !(IsSeqLower(x, y) && IsSeqHigher(x, y))
    ensures IsSeqLower(x, y) || IsSeqHigher(x, y) ==> CountOf(x) != CountOf(y)
    ensures CountOf(x) == CountOf(y) + HALF ==> IsSeqLower(x, y)
  {
    WordOrderIsCountOrder(x, y);
  }

  /** On HALF consecutive counts, across the wrap or not, `lower` is the order of
      the positions: hence a strict total order there. */
  lemma WindowOrder(b: Seq, x: Word, y: Word)
    requires InWindow(b, CountOf(x)) && InWindow(b, CountOf(y))
    ensures IsSeqLower(x, y) <==> Pos(b, CountOf(x)) < Pos(b, CountOf(y))
    ensures IsSeqLowerEq(x, y) <==> Pos(b, CountOf(x)) <= Pos(b, CountOf(y))
  {
    WordOrderIsCountOrder(x, y);
  }

  /** The window is as large as it can be: on HALF + 1 consecutive counts the
      order of the positions is lost for exactly those pairs of ends at which the
      count wraps in between. */
  lemma WindowIsMaximal(b: Seq, x: Seq, y: Seq)
    requires Pos(b, x) == 0 && Pos(b, y) == HALF
    ensures Lower(x, y) <==> y < x
    ensures Higher(x, y) <==> x < y
  {
  }

  /** `find_diff` is the circular distance between the two counts: symmetric and
      at most half the circle, whichever of its two branches is taken. */
  lemma FindDiffIsCircularDistance(x: Word, y: Word)
    ensures var d := Pos(CountOf(x), CountOf(y));
            FindDiff(x, y) == if d <= HALF then d else COUNTS - d
    ensures FindDiff(x, y) == FindDiff(y, x) <= HALF
    ensures FindDiff(x, y) == 0 <==> CountOf(x) == CountOf(y)
  {
    WordOrderIsCountOrder(x, y);
    WordOrderIsCountOrder(y, x);
    DiffIsForwardDistance(x, y);
    DiffIsForwardDistance(y, x);
  }

  /** `diff_genseq` counts upward from its second argument to its first. */
  lemma DiffIsForwardDistance(x: Word, y: Word)
    ensures DiffGenSeq(x, y) == 0x100 * Pos(CountOf(y), CountOf(x))
    ensures DiffGenSeq(x, y) == 0 <==> CountOf(x) == CountOf(y)
  {
    assert Masked(x) == 0x100 * CountOf(x) && Masked(y) == 0x100 * CountOf(y);
  }

  // ---------------------------------------------------------------- the order, abstractly

  /** `lower` is total and asymmetric, window or not. */
  lemma OrderFacts()
    ensures forall x: Seq, y: Seq {:trigger Lower(x, y)} :: Lower(x, y) ==> x != y && !Lower(y, x)
    ensures forall x: Seq, y: Seq {:trigger Lower(x, y)} :: x != y && !Lower(x, y) ==> Lower(y, x)
  {
  }

  /** In a window it is transitive too. */
  lemma WindowTransitive(b: Seq)
    ensures forall x: Seq, y: Seq, z: Seq {:trigger Lower(x, y), Lower(y, z)} ::
              InWindow(b, x) && InWindow(b, y) && InWindow(b, z) && Lower(x, y) && Lower(y, z) ==> Lower(x, z)
  {
  }
}
