/**
 The threads blocked in a wait queue, as a multiset, and what the list operations do
 to it.
 */
module SleeperSets {
  import opened Ksyn

  /** The threads blocked in a list. */
  function Sleepers(q: seq<Kwe>): multiset<Thread> {
    multiset(Waiters(q))
  }

  function Sleeper(e: Kwe): multiset<Thread> {
    match e.state
    case InWait(t) => multiset{t}
    case _ => multiset{}
  }

  lemma {:induction false} WaitersAppend(a: seq<Kwe>, b: seq<Kwe>)
    ensures Waiters(a + b) == Waiters(a) + Waiters(b)
    decreases |a|
  {
    if a == [] {
      assert a + b == b;
    } else {
      assert (a + b)[1..] == a[1..] + b;
      WaitersAppend(a[1..], b);
    }
  }

  lemma SleepersAppend(a: seq<Kwe>, b: seq<Kwe>)
    ensures Sleepers(a + b) == Sleepers(a) + Sleepers(b)
  {
    WaitersAppend(a, b);
  }

  lemma SleepersSplit(q: seq<Kwe>, k: nat)
    requires k <= |q|
    ensures Sleepers(q) == Sleepers(q[..k]) + Sleepers(q[k..])
  {
    assert q == q[..k] + q[k..];
    SleepersAppend(q[..k], q[k..]);
  }

  lemma SleepersOne(e: Kwe)
    ensures Sleepers([e]) == Sleeper(e)
  {
    assert [e][1..] == [] && Waiters([]) == [];
    assert Waiters([e]) == if Banked(e) then [] else [e.state.thread];
  }

  lemma SleepersSplice(q: seq<Kwe>, k: nat, e: Kwe)
    requires k <= |q|
    ensures Sleepers(q[..k] + [e] + q[k..]) == Sleepers(q) + Sleeper(e)
  {
    hide Waiters;
    SleepersAppend(q[..k] + [e], q[k..]);
    SleepersAppend(q[..k], [e]);
    SleepersOne(e);
    SleepersSplit(q, k);
  }

  lemma SleepersInserted(q: seq<Kwe>, e: Kwe)
    ensures Sleepers(Inserted(q, e)) == Sleepers(q) + Sleeper(e)
  {
    SleepersSplice(q, FirstHigher(q, e.lockseq), e);
  }

  lemma SleepersRemoved(q: seq<Kwe>, k: nat)
    requires k < |q|
    ensures Sleepers(q) == Sleepers(Removed(q, k)) + Sleeper(q[k])
  {
    hide Waiters;
    var p := Removed(q, k);
    assert p[..k] == q[..k] && p[k..] == q[k + 1..] && q == p[..k] + [q[k]] + p[k..];
    SleepersSplice(p, k, q[k]);
  }

  lemma SleepersReplaced(q: seq<Kwe>, k: nat, e: Kwe)
    requires k < |q| && Banked(q[k]) && Banked(e)
    ensures Sleepers(q[k := e]) == Sleepers(q)
  {
    hide Waiters;
    var q' := q[k := e];
    assert Removed(q', k) == Removed(q, k);
    SleepersRemoved(q, k);
    SleepersRemoved(q', k);
  }

  /** Two accounts, one after the other. */
  lemma Chained(a: multiset<Thread>, j: multiset<Thread>, b: multiset<Thread>, l: multiset<Thread>,
                j': multiset<Thread>, c: multiset<Thread>, l': multiset<Thread>)
    requires a + j == b + l && b + j' == c + l'
    ensures a + (j + j') == c + (l + l')
  {
    assert a + (j + j') == b + l + j' && c + (l + l') == c + l' + l;
  }
}
