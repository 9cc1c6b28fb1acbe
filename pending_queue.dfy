/** What one `runQueue` pass does to the pending queue. The pass is a
    `forEach` that splices the current element out after running it, so
    every removal shifts the next element under the index just visited:
    the pass runs the items at even positions and leaves those at odd
    positions queued. */
module PendingQueue {

  /** The items one pass runs, in the order it runs them. */
  function Executed<T>(q: seq<T>): (run: seq<T>)
    ensures |run| == (|q| + 1) / 2
  {
    if |q| <= 1 then q else [q[0]] + Executed(q[2..])
  }

  /** The items one pass leaves in the queue, in their original order. */
  function Kept<T>(q: seq<T>): (left: seq<T>)
    ensures |left| == |q| / 2
  {
    if |q| <= 1 then [] else [q[1]] + Kept(q[2..])
  }

  /** The k-th item a pass runs is the item at position 2k. */
  lemma {:induction false} ExecutedAt<T>(q: seq<T>, k: nat)
    requires k < |Executed(q)|
    ensures Executed(q)[k] == q[2 * k]
    decreases |q|
  {
    if |q| > 1 && k > 0 {
      ExecutedAt(q[2..], k - 1);
    }
  }

  /** The k-th item a pass keeps is the item at position 2k + 1. */
  lemma {:induction false} KeptAt<T>(q: seq<T>, k: nat)
    requires k < |Kept(q)|
    ensures Kept(q)[k] == q[2 * k + 1]
    decreases |q|
  {
    if k > 0 {
      KeptAt(q[2..], k - 1);
    }
  }

  /** The queue `cur` after a pass over `q` has run `i` items: the first
      `i` survivors are the odd-position items, the rest is untouched. */
  ghost predicate PassAt<T>(q: seq<T>, cur: seq<T>, i: nat) {
    && |cur| + i == |q|
    && i <= |Executed(q)|
    && (forall k :: 0 <= k < i && k < |cur| ==> cur[k] == q[2 * k + 1])
    && (forall k :: i <= k < |cur| ==> cur[k] == q[k + i])
  }

  /** One step of the pass: the element at index `i` is the next even-position
      item; splicing it out leaves the state after `i + 1` items. */
  lemma PassStep<T>(q: seq<T>, cur: seq<T>, i: nat)
    requires PassAt(q, cur, i) && i < |cur|
    ensures cur[i] == Executed(q)[i]
    ensures PassAt(q, cur[..i] + cur[i + 1..], i + 1)
  {
    ExecutedAt(q, i);
    var next := cur[..i] + cur[i + 1..];
    forall k | 0 <= k < i + 1 && k < |next| ensures next[k] == q[2 * k + 1] {
      if k < i {
        assert next[k] == cur[k];
      } else {
        assert next[k] == cur[k + 1] == q[k + 1 + i];
      }
    }
    forall k | i + 1 <= k < |next| ensures next[k] == q[k + i + 1] {
      assert next[k] == cur[k + 1];
    }
  }

  /** When the index passes the end, the pass has run every even-position
      item and the queue holds exactly the odd-position ones. */
  lemma PassEnd<T>(q: seq<T>, cur: seq<T>, i: nat)
    requires PassAt(q, cur, i) && i >= |cur|
    ensures i == |Executed(q)| && cur == Kept(q)
  {
    forall k | 0 <= k < |cur| ensures cur[k] == Kept(q)[k] {
      KeptAt(q, k);
    }
  }

  /** A pass neither loses nor duplicates an item: what it runs and what it
      keeps together are the queue. */
  lemma {:induction false} PassPartitionsQueue<T>(q: seq<T>)
    ensures multiset(Executed(q)) + multiset(Kept(q)) == multiset(q)
    decreases |q|
  {
    if |q| > 1 {
      var a, b, rest := q[0], q[1], q[2..];
      PassPartitionsQueue(rest);
      PairSplits(a, b, rest, Executed(rest), Kept(rest));
      PassOnPair(q);
    } else {
      assert Executed(q) == q && Kept(q) == [];
    }
  }

  /** A pass over two or more items runs the first, keeps the second and
      carries on over the rest. */
  lemma PassOnPair<T>(q: seq<T>)
    requires |q| > 1
    ensures Executed(q) == [q[0]] + Executed(q[2..])
    ensures Kept(q) == [q[1]] + Kept(q[2..])
    ensures q == [q[0]] + ([q[1]] + q[2..])
  {
    var tail := [q[1]] + q[2..];
    assert |tail| == |q| - 1;
    assert forall k :: 0 <= k < |tail| ==> tail[k] == q[k + 1];
    assert q == [q[0]] + tail;
  }

  /** One step of the partition argument, stated on plain sequences. */
  lemma PairSplits<T>(a: T, b: T, rest: seq<T>, e: seq<T>, l: seq<T>)
    requires multiset(e) + multiset(l) == multiset(rest)
    ensures multiset([a] + e) + multiset([b] + l) == multiset([a] + ([b] + rest))
  {
    calc {
      multiset([a] + e) + multiset([b] + l);
      multiset{a} + multiset{b} + (multiset(e) + multiset(l));
      multiset{a} + multiset{b} + multiset(rest);
      multiset{a} + multiset([b] + rest);
    }
  }

  /** Appending to a queue of even length adds one item to what the next
      pass runs; appending to one of odd length changes nothing there. */
  lemma {:induction false} ExecutedAppend<T>(q: seq<T>, x: T)
    ensures Executed(q + [x]) == if |q| % 2 == 0 then Executed(q) + [x] else Executed(q)
    decreases |q|
  {
    if |q| > 1 {
      assert (q + [x])[2..] == q[2..] + [x];
      ExecutedAppend(q[2..], x);
    }
  }

  /** Appending to a queue of odd length adds one item to what the next pass
      keeps; appending to one of even length changes nothing there. */
  lemma {:induction false} KeptAppend<T>(q: seq<T>, x: T)
    ensures Kept(q + [x]) == if |q| % 2 == 1 then Kept(q) + [x] else Kept(q)
    decreases |q|
  {
    if |q| > 1 {
      assert (q + [x])[2..] == q[2..] + [x];
      KeptAppend(q[2..], x);
    }
  }

  /** The order in which the items of `q` run when passes are repeated with
      no new item pushed in between, until the queue is empty. */
  function Drain<T>(q: seq<T>): seq<T>
    decreases |q|
  {
    if q == [] then [] else Executed(q) + Drain(Kept(q))
  }

  /** Repeated passes run every queued item exactly once. */
  lemma {:induction false} DrainRunsEachItemOnce<T>(q: seq<T>)
    ensures multiset(Drain(q)) == multiset(q)
    decreases |q|
  {
    if q != [] {
      DrainRunsEachItemOnce(Kept(q));
      PassPartitionsQueue(q);
    }
  }

  /** ... but not in arrival order: three items queued while connecting run
      first, third, second. */
  lemma DrainIsNotFifo<T>(a: T, b: T, c: T)
    ensures Drain([a, b, c]) == [a, c, b]
  {
    assert Executed([a, b, c]) == [a, c];
    assert Kept([a, b, c]) == [b];
    assert Drain([b]) == [b] by { assert Executed([b]) == [b]; assert Kept([b]) == []; }
  }
}
