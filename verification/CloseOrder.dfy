/**
 The order in which NVENC encoders are closed
 (crates/termland-codec/src/encoder.rs).

 Of several encoders, the one with the latest place in the order must go first.
 `CloseOrder` keeps a list of open encoders and closes from its end. `Ledger`
 is the rule it implements, stated on sets of encoders without that list.
 */
module CloseOrder {
  import opened Prelude

  // ----- The rule -----

  /** Encoders by their place in opening order: used, dropped but not yet closed, closed. */
  datatype Ledger<+T> = Ledger(total: nat, inUse: set<nat>, waiting: map<nat, T>, closed: set<nat>)

  function Empty<T>(): Ledger<T> {
    Ledger(0, {}, map[], {})
  }

  function Opening<T>(l: Ledger<T>): Ledger<T> {
    l.(total := l.total + 1, inUse := l.inUse + {l.total})
  }

  /** Dropped encoders that nothing in use is newer than. */
  function Ready<T>(waiting: map<nat, T>, inUse: set<nat>): set<nat> {
    set k | k in waiting && forall u :: u in inUse ==> u < k
  }

  /** Encoder `q` is dropped: everything that is ready is closed. */
  function Dropping<T>(l: Ledger<T>, q: nat, item: T): Ledger<T> {
    var inUse, waiting := l.inUse - {q}, l.waiting[q := item];
    var ready := Ready(waiting, inUse);
    Ledger(l.total, inUse, waiting - ready, l.closed + ready)
  }

  /** The first `n` places. */
  function First(n: nat): (places: set<nat>)
    ensures |places| == n && forall k :: k in places <==> 0 <= k < n
  {
    if n == 0 then {} else First(n - 1) + {n - 1}
  }

  /** Every encoder is in exactly one place, and none waits without a newer one in use. */
  ghost predicate Balanced<T>(l: Ledger<T>) {
    && (forall k: nat :: k < l.total <==> k in l.inUse || k in l.waiting || k in l.closed)
    && (forall k :: k in l.inUse ==> k !in l.waiting && k !in l.closed)
    && (forall k :: k in l.waiting ==> k !in l.closed)
    && (forall k :: k in l.waiting ==> exists u :: u in l.inUse && k < u)
  }

  lemma OpenBalanced<T>(l: Ledger<T>)
    requires Balanced(l)
    ensures Balanced(Opening(l))
  {
    forall k | k in l.waiting ensures exists u :: u in Opening(l).inUse && k < u {
      var u :| u in l.inUse && k < u;
      assert u in Opening(l).inUse;
    }
  }

  /**
   A drop keeps the books balanced. What it closes was not closed before, and
   nothing newer than it stays open.
   */
  lemma DropBalanced<T>(l: Ledger<T>, q: nat, item: T)
    requires Balanced(l) && q in l.inUse
    ensures Balanced(Dropping(l, q, item))
    ensures var after := Dropping(l, q, item);
            forall k :: k in after.closed - l.closed ==>
              k !in l.closed && forall o :: o in after.inUse + after.waiting.Keys ==> o < k
  {
    var after := Dropping(l, q, item);
    var waiting := l.waiting[q := item];
    assert waiting.Keys == l.waiting.Keys + {q};
    forall k | k in after.waiting ensures exists u :: u in after.inUse && k < u {
      assert !(forall u :: u in after.inUse ==> u < k);
      var u :| u in after.inUse && !(u < k);
      assert u != k;
    }
    forall k, o | k in after.closed - l.closed && o in after.waiting ensures o < k {
      var u :| u in after.inUse && o < u;
      assert u < k;
    }
  }

  datatype Op<+T> = OpenOp | DropOp(seqNo: nat, item: T)

  function Run<T>(ops: seq<Op<T>>): Ledger<T> {
    if |ops| == 0 then Empty()
    else
      var so := Run(ops[..|ops| - 1]);
      match ops[|ops| - 1]
      case OpenOp => Opening(so)
      case DropOp(q, item) => Dropping(so, q, item)
  }

  /** Each drop is of an encoder in use: nothing is dropped twice. */
  ghost predicate DropsOnce<T>(ops: seq<Op<T>>) {
    |ops| > 0 ==>
      && DropsOnce(ops[..|ops| - 1])
      && (ops[|ops| - 1].DropOp? ==> ops[|ops| - 1].seqNo in Run(ops[..|ops| - 1]).inUse)
  }

  /** Over any run: opened = in use + waiting + closed, and once nothing is in use everything is closed. */
  lemma {:induction false} RunBalanced<T>(ops: seq<Op<T>>)
    requires DropsOnce(ops)
    ensures var l := Run(ops);
            && Balanced(l)
            && |l.inUse| + |l.waiting| + |l.closed| == l.total
            && (l.inUse == {} ==> l.closed == First(l.total))
  {
    var l := Run(ops);
    if |ops| > 0 {
      var front, last := ops[..|ops| - 1], ops[|ops| - 1];
      RunBalanced(front);
      match last {
        case OpenOp => OpenBalanced(Run(front));
        case DropOp(q, item) => DropBalanced(Run(front), q, item);
      }
    }
    BalancedAddsUp(l);
  }

  lemma BalancedAddsUp<T>(l: Ledger<T>)
    requires Balanced(l)
    ensures |l.inUse| + |l.waiting| + |l.closed| == l.total
    ensures l.inUse == {} ==> l.closed == First(l.total)
  {
    ThreeParts(l.inUse, l.waiting.Keys, l.closed, l.total);
    assert |l.waiting| == |l.waiting.Keys|;
    if l.inUse == {} {
      assert l.waiting.Keys == {};
    }
  }

  lemma ThreeParts(a: set<nat>, b: set<nat>, c: set<nat>, n: nat)
    requires forall k: nat :: k < n <==> k in a || k in b || k in c
    requires a !! b && a !! c && b !! c
    ensures |a| + |b| + |c| == n
  {
    assert (a + b) !! c && a + b + c == First(n);
  }

  // ----- The list -----

  /** An open encoder: in use, or dropped and waiting with what is to be closed. */
  datatype Entry<+T> = Entry(seqNo: nat, waiting: Option<T>)

  /** Places increase along the list and are below `next`. */
  ghost predicate Ordered<T>(open: seq<Entry<T>>, next: nat) {
    && (forall i, j :: 0 <= i < j < |open| ==> open[i].seqNo < open[j].seqNo)
    && (forall i :: 0 <= i < |open| ==> open[i].seqNo < next)
  }

  ghost function InUse<T>(open: seq<Entry<T>>): set<nat> {
    set i | 0 <= i < |open| && open[i].waiting.None? :: open[i].seqNo
  }

  ghost function Dropped<T>(open: seq<Entry<T>>): set<nat> {
    set i | 0 <= i < |open| && open[i].waiting.Some? :: open[i].seqNo
  }

  /** The list shows the same encoders in use and waiting as the ledger. */
  ghost predicate Shows<T>(open: seq<Entry<T>>, next: nat, l: Ledger<T>) {
    && next == l.total && Ordered(open, next)
    && InUse(open) == l.inUse && Dropped(open) == l.waiting.Keys
    && forall i :: 0 <= i < |open| && open[i].waiting.Some? ==> l.waiting[open[i].seqNo] == open[i].waiting.value
  }

  lemma OpenShows<T>(open: seq<Entry<T>>, next: nat, l: Ledger<T>)
    requires Shows(open, next, l)
    ensures Shows(open + [Entry(next, None)], next + 1, Opening(l))
  {
    var after := open + [Entry(next, None)];
    assert InUse(after) == InUse(open) + {next} by {
      assert after[|open|].seqNo == next;
      forall k | k in InUse(open) ensures k in InUse(after) {
        var i :| 0 <= i < |open| && open[i].waiting.None? && open[i].seqNo == k;
        assert after[i] == open[i];
      }
    }
    assert Dropped(after) == Dropped(open) by {
      forall k | k in Dropped(open) ensures k in Dropped(after) {
        var i :| 0 <= i < |open| && open[i].waiting.Some? && open[i].seqNo == k;
        assert after[i] == open[i];
      }
    }
  }

  /** Marking the entry of `q` as dropped. */
  lemma MarkShows<T>(open: seq<Entry<T>>, next: nat, l: Ledger<T>, at: nat, item: T)
    requires Shows(open, next, l) && at < |open|
    ensures var q := open[at].seqNo;
            Shows(open[at := Entry(q, Some(item))], next, l.(inUse := l.inUse - {q}, waiting := l.waiting[q := item]))
  {
    var q, after := open[at].seqNo, open[at := Entry(open[at].seqNo, Some(item))];
    assert after[at].seqNo == q;
    forall k | k in InUse(open) - {q} ensures k in InUse(after) {
      var i :| 0 <= i < |open| && open[i].waiting.None? && open[i].seqNo == k;
      assert after[i] == open[i];
    }
    forall k | k in Dropped(open) + {q} ensures k in Dropped(after) {
      if k != q {
        var i :| 0 <= i < |open| && open[i].waiting.Some? && open[i].seqNo == k;
        assert after[i] == open[i];
      }
    }
    assert InUse(after) == InUse(open) - {q};
    assert Dropped(after) == Dropped(open) + {q};
  }

  /** Removing a waiting last entry: it is newer than everything left, so it was ready. */
  lemma PopShows<T>(open: seq<Entry<T>>, next: nat, l: Ledger<T>)
    requires Shows(open, next, l) && |open| > 0 && open[|open| - 1].waiting.Some?
    ensures var k := open[|open| - 1].seqNo;
            && Shows(open[..|open| - 1], next, l.(waiting := l.waiting - {k}))
            && k in Ready(l.waiting, l.inUse)
            && forall o :: o in l.waiting - {k} ==> o < k
  {
    var k, after := open[|open| - 1].seqNo, open[..|open| - 1];
    forall u | u in InUse(open) ensures u < k && u in InUse(after) {
      var i :| 0 <= i < |open| && open[i].waiting.None? && open[i].seqNo == u;
      assert after[i] == open[i];
    }
    forall o | o in Dropped(open) - {k} ensures o < k && o in Dropped(after) {
      var i :| 0 <= i < |open| && open[i].waiting.Some? && open[i].seqNo == o;
      assert after[i] == open[i];
    }
    assert open[|open| - 1].seqNo in Dropped(open);
    assert InUse(after) == InUse(open);
    assert Dropped(after) == Dropped(open) - {k};
  }

  /** If the newest entry is in use, or there is none, nothing is ready. */
  lemma NothingReady<T>(open: seq<Entry<T>>, next: nat, l: Ledger<T>)
    requires Shows(open, next, l) && (|open| > 0 ==> open[|open| - 1].waiting.None?)
    ensures Ready(l.waiting, l.inUse) == {}
  {
    if |open| > 0 {
      assert open[|open| - 1].seqNo in InUse(open);
      forall k | k in Dropped(open) ensures k < open[|open| - 1].seqNo {
        var i :| 0 <= i < |open| && open[i].waiting.Some? && open[i].seqNo == k;
      }
    } else {
      assert Dropped(open) == {};
    }
  }

  /** `items` are what `order` names in `waiting`, newest first. */
  ghost predicate NewestFirst<T>(order: seq<nat>, items: seq<T>, waiting: map<nat, T>) {
    && |order| == |items|
    && (forall i, j :: 0 <= i < j < |order| ==> order[i] > order[j])
    && (forall i :: 0 <= i < |order| ==> order[i] in waiting && items[i] == waiting[order[i]])
  }

  /** Having closed `order` so far, the rest of what is ready is among what is left. */
  ghost predicate Popped<T>(order: seq<nat>, items: seq<T>, waiting: map<nat, T>, inUse: set<nat>, left: map<nat, T>) {
    && NewestFirst(order, items, waiting)
    && left.Keys <= waiting.Keys && (forall k :: k in left ==> left[k] == waiting[k])
    && (forall k :: k in waiting ==> k in left || k in order)
    && (forall k :: k in order ==> k !in left && k in Ready(waiting, inUse))
    && (forall o, k :: o in left && k in order ==> o < k)
  }

  lemma PoppedMore<T>(order: seq<nat>, items: seq<T>, waiting: map<nat, T>, inUse: set<nat>, left: map<nat, T>, k: nat)
    requires Popped(order, items, waiting, inUse, left)
    requires k in left && k in Ready(left, inUse) && forall o :: o in left - {k} ==> o < k
    ensures Popped(order + [k], items + [left[k]], waiting, inUse, left - {k})
  {
  }

  lemma PoppedAll<T>(order: seq<nat>, items: seq<T>, waiting: map<nat, T>, inUse: set<nat>, left: map<nat, T>)
    requires Popped(order, items, waiting, inUse, left) && Ready(left, inUse) == {}
    ensures (set k | k in order) == Ready(waiting, inUse)
    ensures left == waiting - Ready(waiting, inUse)
  {
    assert forall k :: k in left && k in Ready(waiting, inUse) ==> k in Ready(left, inUse);
  }

  class Schedule<T> {
    /** Open encoders, oldest first. */
    var open: seq<Entry<T>>
    var next: nat
    ghost var ledger: Ledger<T>

    /** The list follows the ledger, and its last entry is in use. */
    ghost predicate Valid()
      reads this
    {
      Shows(open, next, ledger) && (|open| > 0 ==> open[|open| - 1].waiting.None?)
    }

    constructor ()
      ensures Valid() && ledger == Empty()
    {
      open, next, ledger := [], 0, Empty();
    }

    /** A new encoder takes the last place. */
    method Opened() returns (seqNo: nat)
      requires Valid()
      modifies this
      ensures Valid() && ledger == Opening(old(ledger)) && seqNo == old(ledger.total)
    {
      seqNo := next;
      OpenShows(open, next, ledger);
      next := next + 1;
      open := open + [Entry(seqNo, None)];
      ledger := Opening(ledger);
    }

    method Find(seqNo: nat) returns (at: Option<nat>)
      requires Valid()
      ensures at.Some? ==> at.value < |open| && open[at.value].seqNo == seqNo
      ensures at.Some? <==> seqNo in ledger.inUse + ledger.waiting.Keys
    {
      for i := 0 to |open|
        invariant forall j :: 0 <= j < i ==> open[j].seqNo != seqNo
      {
        if open[i].seqNo == seqNo {
          assert seqNo in InUse(open) + Dropped(open);
          return Some(i);
        }
      }
      return None;
    }

    /**
     The owner of place `seqNo` lets go. What this makes ready comes back, latest
     place first; an item without a place comes back by itself.
     */
    method Drop(seqNo: nat, item: T) returns (close: seq<T>, ghost order: seq<nat>)
      requires Valid()
      modifies this
      ensures Valid()
      ensures seqNo !in old(ledger.inUse + ledger.waiting.Keys) ==>
                close == [item] && ledger == old(ledger)
      ensures seqNo in old(ledger.inUse + ledger.waiting.Keys) ==>
                && ledger == Dropping(old(ledger), seqNo, item)
                // Exactly the encoders that became ready, newest first.
                && (set k | k in order) == Ready(old(ledger.waiting)[seqNo := item], ledger.inUse)
                && NewestFirst(order, close, old(ledger.waiting)[seqNo := item])
    {
      order := [];
      var at := Find(seqNo);
      if at.None? {
        return [item], [];
      }
      MarkShows(open, next, ledger, at.value, item);
      open := open[at.value := Entry(seqNo, Some(item))];
      ghost var marked := ledger.(inUse := ledger.inUse - {seqNo}, waiting := ledger.waiting[seqNo := item]);
      close, order := PopWaiting(marked);
      ledger := Dropping(ledger, seqNo, item);
    }

    /** Take entries off the end while they are waiting. */
    method PopWaiting(ghost marked: Ledger<T>) returns (close: seq<T>, ghost order: seq<nat>)
      requires Shows(open, next, marked)
      modifies this`open
      ensures |open| > 0 ==> open[|open| - 1].waiting.None?
      ensures (set k | k in order) == Ready(marked.waiting, marked.inUse)
      ensures NewestFirst(order, close, marked.waiting)
      ensures forall closed :: Shows(open, next, Ledger(marked.total, marked.inUse,
                                     marked.waiting - Ready(marked.waiting, marked.inUse), closed))
    {
      close, order := [], [];
      ghost var left := marked;
      while |open| > 0 && open[|open| - 1].waiting.Some?
        modifies this`open
        invariant Shows(open, next, left) && left == marked.(waiting := left.waiting)
        invariant Popped(order, close, marked.waiting, marked.inUse, left.waiting)
      {
        PopShows(open, next, left);
        var e := open[|open| - 1];
        PoppedMore(order, close, marked.waiting, marked.inUse, left.waiting, e.seqNo);
        open := open[..|open| - 1];
        close := close + [e.waiting.value];
        order := order + [e.seqNo];
        left := left.(waiting := left.waiting - {e.seqNo});
      }
      NothingReady(open, next, left);
      PoppedAll(order, close, marked.waiting, marked.inUse, left.waiting);
    }
  }
}
