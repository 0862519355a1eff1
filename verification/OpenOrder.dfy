/**
 Closing encoders in the order they were opened in, seen from the driver
 (crates/termland-codec/src/encoder.rs).

 An encoder may be closed only when no younger one is open. The list
 of `CloseOrder` goes by the order encoders are recorded in, but FFmpeg opens
 them before they are recorded, and not under the list's lock. Here opening and
 recording are two steps, which several sessions interleave, and the exact
 condition is given for the closes to come to be in order.
 */
module OpenOrder {
  import opened CloseOrder

  /** Encoders are numbered as FFmpeg opens them; `numbers` gives the number of the encoder at each place. */
  datatype Timeline<+T> = Timeline(ledger: Ledger<T>, clock: nat, unrecorded: set<nat>, numbers: seq<nat>)

  datatype Act<+T> = OpenAct | RecordAct(number: nat) | DropAct(place: nat, item: T)

  function Start<T>(): Timeline<T> {
    Timeline(Empty(), 0, {}, [])
  }

  predicate Possible<T>(t: Timeline<T>, a: Act<T>) {
    match a
    case OpenAct => true
    case RecordAct(o) => o in t.unrecorded
    case DropAct(q, _) => q in t.ledger.inUse
  }

  /** Steps that are not possible change nothing. */
  function Do<T>(t: Timeline<T>, a: Act<T>): Timeline<T> {
    if !Possible(t, a) then t
    else
      match a
      case OpenAct => t.(clock := t.clock + 1, unrecorded := t.unrecorded + {t.clock})
      case RecordAct(o) =>
        t.(ledger := Opening(t.ledger), unrecorded := t.unrecorded - {o}, numbers := t.numbers + [o])
      case DropAct(q, item) => t.(ledger := Dropping(t.ledger, q, item))
  }

  function DoAll<T>(t: Timeline<T>, acts: seq<Act<T>>): Timeline<T>
    decreases |acts|
  {
    if |acts| == 0 then t else DoAll(Do(t, acts[0]), acts[1..])
  }

  /** Places of encoders that are recorded and not closed. */
  function Places<T>(l: Ledger<T>): set<nat> {
    l.inUse + l.waiting.Keys
  }

  /** Every place has an encoder's number, and no number is too large. */
  ghost predicate Sound<T>(t: Timeline<T>) {
    && Balanced(t.ledger) && |t.numbers| == t.ledger.total
    && (forall o :: o in t.unrecorded ==> o < t.clock)
    && (forall k :: 0 <= k < |t.numbers| ==> t.numbers[k] < t.clock && t.numbers[k] !in t.unrecorded)
    && (forall j, k :: 0 <= j < k < |t.numbers| ==> t.numbers[j] != t.numbers[k])
  }

  /** What dropping place `q` closes; the latest place goes first. */
  function Closing<T>(l: Ledger<T>, q: nat, item: T): set<nat> {
    Ready(l.waiting[q := item], l.inUse - {q})
  }

  /** When place `k` is closed in that drop, these are still open. */
  function OpenStill<T>(l: Ledger<T>, q: nat, item: T, k: nat): set<nat> {
    set j | j in Places(l) && !(j in Closing(l, q, item) && k <= j)
  }

  /** Whatever is closed, no younger encoder is open at that moment. */
  ghost predicate InOrder<T>(t: Timeline<T>, a: Act<T>)
    requires Sound(t)
  {
    a.DropAct? && Possible(t, a) ==>
      forall k :: k in Closing(t.ledger, a.place, a.item) ==>
        && k < |t.numbers|
        && (forall o :: o in t.unrecorded ==> o < t.numbers[k])
        && (forall j :: j in OpenStill(t.ledger, a.place, a.item, k) ==> j < |t.numbers| && t.numbers[j] < t.numbers[k])
  }

  ghost predicate AllInOrder<T>(t: Timeline<T>, acts: seq<Act<T>>)
    requires Sound(t)
    decreases |acts|
  {
    |acts| > 0 ==>
      InOrder(t, acts[0]) && (DoSound(t, acts[0]); AllInOrder(Do(t, acts[0]), acts[1..]))
  }

  /** Of the open encoders, the order of recording is that of opening, and those not yet recorded are oldest. */
  ghost predicate Agrees<T>(t: Timeline<T>)
    requires Sound(t)
  {
    && (forall j, k :: j in Places(t.ledger) && k in Places(t.ledger) && j < k ==> t.numbers[j] < t.numbers[k])
    && (forall o, k :: o in t.unrecorded && k in Places(t.ledger) ==> o < t.numbers[k])
  }

  lemma DoSound<T>(t: Timeline<T>, a: Act<T>)
    requires Sound(t)
    ensures Sound(Do(t, a))
  {
    if Possible(t, a) {
      match a {
        case OpenAct =>
        case RecordAct(o) => OpenBalanced(t.ledger);
        case DropAct(q, item) => DropBalanced(t.ledger, q, item);
      }
    }
  }

  // ----- When the orders agree -----

  lemma AgreeingDrop<T>(t: Timeline<T>, q: nat, item: T)
    requires Sound(t) && Agrees(t) && q in t.ledger.inUse
    ensures InOrder(t, DropAct(q, item))
    ensures Sound(Do(t, DropAct(q, item))) && Agrees(Do(t, DropAct(q, item)))
  {
    DoSound(t, DropAct(q, item));
    DropBalanced(t.ledger, q, item);
    var l, after := t.ledger, Dropping(t.ledger, q, item);
    assert l.waiting[q := item].Keys == l.waiting.Keys + {q};
    assert Places(after) <= Places(l);
    forall k, j | k in Closing(l, q, item) && j in OpenStill(l, q, item, k)
      ensures j < k
    {
      assert k !in l.closed && k in after.closed - l.closed;
      if j !in Closing(l, q, item) {
        assert j in Places(after);
      }
    }
  }

  lemma {:induction false} AgreeingDrops<T>(t: Timeline<T>, drops: seq<Act<T>>)
    requires Sound(t) && Agrees(t) && forall a :: a in drops ==> a.DropAct?
    ensures AllInOrder(t, drops)
    decreases |drops|
  {
    if |drops| > 0 {
      var a := drops[0];
      assert a in drops && forall b :: b in drops[1..] ==> b in drops;
      DoSound(t, a);
      if Possible(t, a) {
        AgreeingDrop(t, a.place, a.item);
      }
      AgreeingDrops(Do(t, a), drops[1..]);
    }
  }

  // ----- When they do not -----

  /** Place `k` is open, and so is an encoder opened after it that is not recorded after it. */
  ghost predicate Threatened<T>(t: Timeline<T>, k: nat)
    requires Sound(t)
  {
    && k in Places(t.ledger)
    && ((exists o :: o in t.unrecorded && t.numbers[k] < o)
        || (exists j :: j in Places(t.ledger) && j < k && t.numbers[k] < t.numbers[j]))
  }

  lemma DisagreeThreatens<T>(t: Timeline<T>) returns (k: nat)
    requires Sound(t) && !Agrees(t)
    ensures Threatened(t, k)
  {
    if o, p :| o in t.unrecorded && p in Places(t.ledger) && !(o < t.numbers[p]) {
      k := p;
      assert t.numbers[k] < o;
    } else {
      var j, p :| j in Places(t.ledger) && p in Places(t.ledger) && j < p && !(t.numbers[j] < t.numbers[p]);
      k := p;
      assert t.numbers[k] < t.numbers[j];
    }
  }

  /** Closing a threatened place is out of order. */
  lemma ThreatIsWrong<T>(t: Timeline<T>, k: nat, u: nat, item: T)
    requires Sound(t) && Threatened(t, k) && u in t.ledger.inUse && k in Closing(t.ledger, u, item)
    ensures !InOrder(t, DropAct(u, item))
  {
    if !(exists o :: o in t.unrecorded && t.numbers[k] < o) {
      var j :| j in Places(t.ledger) && j < k && t.numbers[k] < t.numbers[j];
      assert j in OpenStill(t.ledger, u, item, k);
    }
  }

  /** A threatened place that a drop does not close is still threatened. */
  lemma ThreatStays<T>(t: Timeline<T>, k: nat, u: nat, item: T)
    requires Sound(t) && Threatened(t, k) && u in t.ledger.inUse && k !in Closing(t.ledger, u, item)
    ensures Sound(Do(t, DropAct(u, item))) && Threatened(Do(t, DropAct(u, item)), k)
  {
    DoSound(t, DropAct(u, item));
    var l, after := t.ledger, Dropping(t.ledger, u, item);
    assert l.waiting[u := item].Keys == l.waiting.Keys + {u};
    assert k in Places(after);
    if !(exists o :: o in t.unrecorded && t.numbers[k] < o) {
      var j :| j in Places(l) && j < k && t.numbers[k] < t.numbers[j];
      assert j in Places(after);
    }
  }

  /** Dropping what is in use from a threatened place on closes it out of order. */
  lemma {:induction false} ThreatComesTrue<T(00)>(t: Timeline<T>, k: nat) returns (drops: seq<Act<T>>)
    requires Sound(t) && Threatened(t, k)
    ensures (forall a :: a in drops ==> a.DropAct?) && !AllInOrder(t, drops)
    decreases t.ledger.inUse
  {
    var item: T :| true;
    var u: nat;
    if k in t.ledger.inUse {
      u := k;
    } else {
      u :| u in t.ledger.inUse && k < u;
    }
    var a := DropAct(u, item);
    if k in Closing(t.ledger, u, item) {
      ThreatIsWrong(t, k, u, item);
      drops := [a];
    } else {
      ThreatStays(t, k, u, item);
      var rest := ThreatComesTrue(Do(t, a), k);
      drops := [a] + rest;
      assert drops[1..] == rest;
    }
  }

  /**
   However the encoders now open are dropped, none is closed before a younger one
   that is open, exactly when their recorded order is that of opening
   and none opened after a recorded one has yet to be recorded.
   */
  lemma ClosesInOrderIff<T(00)>(t: Timeline<T>)
    requires Sound(t)
    ensures (forall drops: seq<Act<T>> :: (forall a :: a in drops ==> a.DropAct?) ==> AllInOrder(t, drops)) <==>
            Agrees(t)
  {
    if Agrees(t) {
      forall drops: seq<Act<T>> | forall a :: a in drops ==> a.DropAct?
        ensures AllInOrder(t, drops)
      {
        AgreeingDrops(t, drops);
      }
    } else {
      var k := DisagreeThreatens(t);
      var drops := ThreatComesTrue(t, k);
    }
  }

  // ----- Runs -----

  /** Each encoder is recorded before another is opened or dropped. */
  ghost predicate AtOnce<T>(t: Timeline<T>, acts: seq<Act<T>>)
    decreases |acts|
  {
    |acts| > 0 ==>
      (acts[0].RecordAct? || t.unrecorded == {}) && AtOnce(Do(t, acts[0]), acts[1..])
  }

  /** Recording in the order of opening, with at most the latest encoder still to be recorded. */
  ghost predicate UpToDate<T>(t: Timeline<T>) {
    && Sound(t) && (forall j, k :: 0 <= j < k < |t.numbers| ==> t.numbers[j] < t.numbers[k])
    && (forall o :: o in t.unrecorded ==> o == t.clock - 1)
  }

  /** Then every close of the run is in order. */
  lemma {:induction false} AtOnceInOrder<T>(t: Timeline<T>, acts: seq<Act<T>>)
    requires UpToDate(t) && AtOnce(t, acts)
    ensures AllInOrder(t, acts)
    decreases |acts|
  {
    if |acts| > 0 {
      var a := acts[0];
      DoSound(t, a);
      if a.DropAct? && Possible(t, a) {
        AgreeingDrop(t, a.place, a.item);
      }
      AtOnceInOrder(Do(t, a), acts[1..]);
    }
  }

  lemma {:induction false} RunOrdered<T>(t: Timeline<T>, acts: seq<Act<T>>)
    requires Sound(t)
    ensures Sound(DoAll(t, acts))
    decreases |acts|
  {
    if |acts| > 0 {
      DoSound(t, acts[0]);
      RunOrdered(Do(t, acts[0]), acts[1..]);
    }
  }

  lemma StartOrdered<T>()
    ensures Sound(Start<T>()) && UpToDate(Start<T>())
  {
  }

  /** A run from the start, when encoders are recorded at once: every close is in order. */
  lemma RecordedAtOnce<T>(acts: seq<Act<T>>)
    requires AtOnce(Start(), acts)
    ensures Sound(Start<T>()) && AllInOrder(Start(), acts)
  {
    StartOrdered<T>();
    AtOnceInOrder(Start(), acts);
  }

  /** Two sessions that record the other way round: the older encoder is closed under the newer one. */
  lemma RecordedCrosswise<T>(item: T) returns (acts: seq<Act<T>>, t: Timeline<T>)
    ensures acts == [OpenAct, OpenAct, RecordAct(1), RecordAct(0)] && t == DoAll(Start(), acts) && Sound(t)
    ensures t.numbers == [1, 0] && !InOrder(t, DropAct(1, item))
  {
    acts := [OpenAct, OpenAct, RecordAct(1), RecordAct(0)];
    StartOrdered<T>();
    RunOrdered(Start(), acts);
    var t2 := Do(Do(Start<T>(), OpenAct), OpenAct);
    assert t2 == Timeline(Empty(), 2, {0, 1}, []);
    var t3 := Do(t2, RecordAct(1));
    assert t3 == Timeline(Ledger(1, {0}, map[], {}), 2, {0}, [1]);
    t := Do(t3, RecordAct(0));
    assert t == Timeline(Ledger(2, {0, 1}, map[], {}), 2, {}, [1, 0]);
    assert acts[1..] == [OpenAct, RecordAct(1), RecordAct(0)];
    assert acts[1..][1..] == [RecordAct(1), RecordAct(0)];
    assert acts[1..][1..][1..] == [RecordAct(0)];
    hide InOrder;
    CrossedIsWrong(t, item);
  }

  lemma CrossedIsWrong<T>(t: Timeline<T>, item: T)
    requires t == Timeline(Ledger(2, {0, 1}, map[], {}), 2, {}, [1, 0]) && Sound(t)
    ensures !InOrder(t, DropAct(1, item))
  {
    assert 1 in Closing(t.ledger, 1, item);
    assert 0 in OpenStill(t.ledger, 1, item, 1);
  }

  /** One session opens an encoder while another drops its own: the lock does not keep them apart. */
  lemma OpenedMeanwhile<T>(item: T) returns (acts: seq<Act<T>>, t: Timeline<T>)
    ensures acts == [OpenAct, RecordAct(0), OpenAct] && t == DoAll(Start(), acts) && Sound(t)
    ensures t.unrecorded == {1} && !InOrder(t, DropAct(0, item))
  {
    acts := [OpenAct, RecordAct(0), OpenAct];
    StartOrdered<T>();
    RunOrdered(Start(), acts);
    var t1 := Do(Start<T>(), OpenAct);
    assert t1 == Timeline(Empty(), 1, {0}, []);
    var t2 := Do(t1, RecordAct(0));
    assert t2 == Timeline(Ledger(1, {0}, map[], {}), 1, {}, [0]);
    t := Do(t2, OpenAct);
    assert t == Timeline(Ledger(1, {0}, map[], {}), 2, {1}, [0]);
    assert acts[1..] == [RecordAct(0), OpenAct];
    assert acts[1..][1..] == [OpenAct];
    assert 0 in Closing(t.ledger, 0, item);
  }
}
