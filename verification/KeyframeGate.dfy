/**
 The iOS video decoder's queue and keyframe gate (ios/Termland/VideoDecoder.swift).

 Packets wait on a serial queue of bounded length; decoding starts only at a
 keyframe, again after every reconfiguration, error, reset and overflow. The
 state is given by step functions that also record a trace of what happened.
 VideoToolbox is a `Platform`: any of its calls may fail at any step. The
 dequeueing block is two steps, so that packets may be submitted in between.
 */
module KeyframeGate {
  import opened Prelude
  import opened AnnexB

  const MAX_PENDING: nat := 8

  /** `codec` is None for a codec this device cannot decode. */
  datatype Packet = Packet(codec: Option<NALCodec>, keyframe: bool, data: seq<byte>)
  {
    function Unit(): Option<AccessUnit> {
      if codec.None? then None else Reshaped(data, codec.value)
    }

    /** It holds more than parameter sets and delimiters. */
    predicate HasPicture() {
      Unit().Some? && Unit().value.sampleData != []
    }

    predicate IsRasl() {
      Unit().Some? && Unit().value.IsSkippableLeadingPicture()
    }

    /** A CRA or BLA picture, which RASL pictures may follow. */
    predicate IsCleanRandomAccess() {
      Unit().Some? && AnnexB.IsCleanRandomAccess(Unit().value.pictureType, codec.value)
    }
  }

  datatype Status = NoErr | InvalidSession | OtherError

  datatype Platform = Platform(
    makesFormat: bool, acceptsFormat: bool, createsSession: bool, makesSample: bool, status: Status)

  /** `at` is the trace position of the packet's submission. */
  datatype Task = DecodeTask(packet: Packet, at: nat) | RearmTask | ReleaseTask

  datatype Event =
    | Submitted(packet: Packet)
    | Dropped                              // the queue was full
    | Dequeued(at: nat)
    | Armed                                // wait for a keyframe from here on
    | Disarmed(packet: Packet, at: nat)    // this picture ends the wait
    | Admitted(packet: Packet, at: nat)    // let through while not waiting
    | Skipped(packet: Packet, at: nat)     // a RASL picture right after a CRA
    | Fed(packet: Packet, at: nat)         // handed to the decoder session

  datatype Running = Running(packet: Packet, at: nat, since: nat)

  datatype Decoder = Decoder(
    pending: int, overflowed: bool, queue: seq<Task>, current: Option<Running>,
    session: bool, format: bool, parameterSets: seq<AnnexB.Unit>, codec: Option<NALCodec>,
    awaiting: bool, skipping: bool, released: bool, reported: bool,
    trace: seq<Event>)

  const INITIAL := Decoder(0, false, [], None, false, false, [], None, true, false, false, false, [Armed])

  function Log(d: Decoder, e: Event): Decoder {
    d.(trace := d.trace + [e])
  }

  function Arm(d: Decoder): Decoder {
    Log(d.(awaiting := true), Armed)
  }

  function Teardown(d: Decoder): Decoder {
    d.(session := false, format := false)
  }

  /** Full means dropped: the caller is never made to wait. */
  function Submit(d: Decoder, p: Packet): Decoder {
    if d.pending >= MAX_PENDING then Log(d.(overflowed := true), Dropped)
    else Log(d.(pending := d.pending + 1, queue := d.queue + [DecodeTask(p, |d.trace|)]), Submitted(p))
  }

  /** The next block starts; for a packet, up to the end of its locked section. */
  function Dequeue(d: Decoder): Decoder
    requires d.queue != [] && d.current.None?
  {
    var rest := d.(queue := d.queue[1..]);
    match d.queue[0]
    case RearmTask => Arm(rest)
    case ReleaseTask => Teardown(rest.(released := true))
    case DecodeTask(p, at) => Start(rest, p, at)
  }

  /** A packet's locked section. */
  function Start(d: Decoder, p: Packet, at: nat): Decoder {
    var running := Log(d.(pending := d.pending - 1, current := Some(Running(p, at, |d.trace|))), Dequeued(at));
    if d.overflowed then Arm(running.(overflowed := false)) else running
  }

  /** Hand a picture to the session, if there is one and a sample buffer can be made. */
  function Feed(d: Decoder, p: Packet, at: nat, pf: Platform): Decoder {
    if !d.session || !d.format || !pf.makesSample then d
    else
      var fed := Log(d, Fed(p, at));
      match pf.status
      case NoErr => fed
      case InvalidSession => Arm(Teardown(fed).(parameterSets := []))
      case OtherError => Arm(fed)
  }

  function Gate(d: Decoder, p: Packet, at: nat, pf: Platform): Decoder {
    if d.awaiting then
      if !p.keyframe || !d.session then d
      else Feed(Log(d.(awaiting := false, skipping := p.IsCleanRandomAccess()), Disarmed(p, at)), p, at, pf)
    else if d.skipping && p.IsRasl() then Log(d, Skipped(p, at))
    else Feed(Log(d.(skipping := false), Admitted(p, at)), p, at, pf)
  }

  function Configure(d: Decoder, sets: seq<AnnexB.Unit>, pf: Platform): Decoder {
    if !pf.makesFormat then Arm(d)
    else
      var known := d.(parameterSets := sets);
      if d.session && pf.acceptsFormat then known.(format := true)
      else Arm(known.(format := true, session := false)).(session := pf.createsSession)
  }

  /** A mid-stream codec change starts over. */
  function SwitchCodec(d: Decoder, codec: NALCodec): Decoder {
    if d.codec == Some(codec) then d
    else Arm(Teardown(d).(codec := Some(codec), parameterSets := []))
  }

  /** Adopt the packet's codec, and its parameter sets when they are complete and new. */
  function Prepare(d: Decoder, sets: seq<AnnexB.Unit>, codec: NALCodec, pf: Platform): Decoder {
    var switched := SwitchCodec(d, codec);
    if sets != [] && IsComplete(sets, codec) && sets != switched.parameterSets then Configure(switched, sets, pf)
    else switched
  }

  /** The running block decodes its packet. */
  function Decode(d: Decoder, pf: Platform): Decoder
    requires d.current.Some?
  {
    var Running(p, at, _) := d.current.value;
    var idle := d.(current := None);
    if d.released then idle
    else if p.codec.None? then idle.(reported := true)
    else if p.Unit().None? then idle
    else
      var ready := Prepare(idle, p.Unit().value.parameterSets, p.codec.value, pf);
      if p.HasPicture() then Gate(ready, p, at, pf) else ready
  }

  /** A reset, or a decode error reported from VideoToolbox's thread. */
  function Enqueue(d: Decoder, t: Task): Decoder {
    d.(queue := d.queue + [t])
  }

  datatype Action =
    | SubmitPacket(packet: Packet)
    | StartBlock
    | FinishBlock(platform: Platform)
    | Reset
    | AsyncError
    | Release

  /** Steps that are not possible in a state leave it alone. */
  function Step(d: Decoder, a: Action): Decoder {
    match a
    case SubmitPacket(p) => Submit(d, p)
    case StartBlock => if d.queue != [] && d.current.None? then Dequeue(d) else d
    case FinishBlock(pf) => if d.current.Some? then Decode(d, pf) else d
    case Reset => Enqueue(d, RearmTask)
    case AsyncError => Enqueue(d, RearmTask)
    case Release => Enqueue(d, ReleaseTask)
  }

  function Run(d: Decoder, actions: seq<Action>): Decoder {
    if |actions| == 0 then d else Step(Run(d, actions[..|actions| - 1]), actions[|actions| - 1])
  }

  // ----- Reading the trace -----

  /** No longer waiting for a keyframe. */
  function GateOpen(trace: seq<Event>): bool {
    if |trace| == 0 then false
    else
      match trace[|trace| - 1]
      case Armed => false
      case Disarmed(_, _) => true
      case _ => GateOpen(trace[..|trace| - 1])
  }

  /** Still among the pictures that directly follow a CRA or BLA resynchronisation. */
  function Leading(trace: seq<Event>): bool {
    if |trace| == 0 then false
    else
      match trace[|trace| - 1]
      case Disarmed(p, _) => p.IsCleanRandomAccess()
      case Admitted(_, _) => false
      case _ => Leading(trace[..|trace| - 1])
  }

  /** Since the drop at `i` a keyframe was dequeued and then ended the wait. */
  ghost predicate Cleared(trace: seq<Event>, i: nat) {
    exists q, k, p, at ::
      i < q < k < |trace| && trace[q] == Dequeued(at) && trace[k] == Disarmed(p, at)
  }

  /** Some packet has been dequeued since position `i`. */
  ghost predicate DequeuedSince(trace: seq<Event>, i: nat) {
    exists q :: i < q < |trace| && trace[q].Dequeued?
  }

  /** Event `f` was justified by what came before. */
  ghost predicate Justified(trace: seq<Event>, f: nat)
    requires f < |trace|
  {
    var before := trace[..f];
    match trace[f]
    case Disarmed(p, _) => !GateOpen(before) && p.keyframe && p.HasPicture()
    case Admitted(p, _) => GateOpen(before) && p.HasPicture() && (Leading(before) ==> !p.IsRasl())
    case Skipped(p, _) => p.IsRasl()
    case Fed(p, at) =>
      && GateOpen(before) && f > 0 && (trace[f - 1] == Disarmed(p, at) || trace[f - 1] == Admitted(p, at))
      && (forall i: nat :: i < at && i < f && trace[i] == Dropped ==> Cleared(before, i))
    case _ => true
  }

  ghost predicate AllJustified(trace: seq<Event>) {
    forall f: nat :: f < |trace| ==> Justified(trace, f)
  }

  function Waiting(queue: seq<Task>): nat {
    if |queue| == 0 then 0
    else (if queue[0].DecodeTask? then 1 else 0) + Waiting(queue[1..])
  }

  ghost predicate Sound(d: Decoder) {
    && d.pending == Waiting(d.queue) && d.pending <= MAX_PENDING
    && (d.session ==> d.format)
    && d.awaiting == !GateOpen(d.trace) && d.skipping == Leading(d.trace)
    && AllJustified(d.trace)
    && (forall t :: t in d.queue && t.DecodeTask? ==> t.at < |d.trace|)
    && CurrentSound(d)
    && (forall i: nat :: i < |d.trace| && d.trace[i] == Dropped ==> DropHandled(d, i))
  }

  ghost predicate CurrentSound(d: Decoder) {
    d.current.Some? ==>
      var r := d.current.value;
      && r.at < r.since < |d.trace| && d.trace[r.since] == Dequeued(r.at)
      && !DequeuedSince(d.trace, r.since)
  }

  /** After a drop: the flag is up until the next dequeue, then the gate waits until a keyframe clears it. */
  ghost predicate DropHandled(d: Decoder, i: nat) {
    if DequeuedSince(d.trace, i) then d.awaiting || Cleared(d.trace, i) else d.overflowed
  }

  // ----- Preservation -----

  lemma MoreTrace(trace: seq<Event>, e: Event)
    ensures var more := trace + [e];
            && GateOpen(more) == (if e == Armed then false else if e.Disarmed? then true else GateOpen(trace))
            && Leading(more) == (if e.Disarmed? then e.packet.IsCleanRandomAccess()
                                 else if e.Admitted? then false else Leading(trace))
    ensures forall i: nat :: i < |trace| ==>
              (DequeuedSince(trace + [e], i) <==> DequeuedSince(trace, i) || e.Dequeued?)
    ensures forall i: nat :: Cleared(trace, i) ==> Cleared(trace + [e], i)
    ensures !DequeuedSince(trace + [e], |trace|)
  {
    hide Reshaped;
    assert (trace + [e])[..|trace|] == trace;
    hide GateOpen, Leading, DequeuedSince, Cleared;
    forall i: nat | i < |trace|
      ensures DequeuedSince(trace + [e], i) <==> DequeuedSince(trace, i) || e.Dequeued?
    {
      MoreDequeued(trace, e, i);
    }
    forall i: nat | Cleared(trace, i) ensures Cleared(trace + [e], i) {
      MoreCleared(trace, e, i);
    }
    NothingAfter(trace + [e]);
  }

  lemma MoreDequeued(trace: seq<Event>, e: Event, i: nat)
    requires i < |trace|
    ensures DequeuedSince(trace + [e], i) <==> DequeuedSince(trace, i) || e.Dequeued?
  {
    var more := trace + [e];
    if DequeuedSince(trace, i) {
      var q :| i < q < |trace| && trace[q].Dequeued?;
      assert more[q].Dequeued?;
    }
    if e.Dequeued? {
      assert more[|trace|].Dequeued?;
    }
  }

  lemma MoreCleared(trace: seq<Event>, e: Event, i: nat)
    requires Cleared(trace, i)
    ensures Cleared(trace + [e], i)
  {
    var more := trace + [e];
    var q, k, p, at :| i < q < k < |trace| && trace[q] == Dequeued(at) && trace[k] == Disarmed(p, at);
    assert more[q] == Dequeued(at) && more[k] == Disarmed(p, at);
  }

  lemma NothingAfter(trace: seq<Event>)
    ensures |trace| > 0 ==> !DequeuedSince(trace, |trace| - 1)
  {
  }

  lemma MoreJustified(trace: seq<Event>, e: Event)
    requires AllJustified(trace) && Justified(trace + [e], |trace|)
    ensures AllJustified(trace + [e])
  {
    var more := trace + [e];
    forall f: nat | f < |more| ensures Justified(more, f) {
      if f < |trace| {
        assert more[..f] == trace[..f];
        assert Justified(trace, f);
      }
    }
  }

  /** Recording one event keeps the drop and current-block conditions, given the new gate. */
  lemma LogSound(d: Decoder, e: Event)
    requires Sound(d) && !e.Dequeued? && !e.Disarmed? && Justified(d.trace + [e], |d.trace|)
    requires e.Dropped? ==> d.overflowed
    ensures var after := Log(d, e).(awaiting := if e == Armed then true else d.awaiting,
                                    skipping := if e.Admitted? then false else d.skipping);
            Sound(after)
  {
    MoreTrace(d.trace, e);
    MoreJustified(d.trace, e);
    var after := Log(d, e).(awaiting := if e == Armed then true else d.awaiting,
                            skipping := if e.Admitted? then false else d.skipping);
    forall i: nat | i < |after.trace| && after.trace[i] == Dropped ensures DropHandled(after, i) {
      if i < |d.trace| {
        assert DropHandled(d, i);
      }
    }
  }

  /** An event that neither arms nor admits leaves every field but the trace alone. */
  lemma LogOnly(d: Decoder, e: Event)
    requires Sound(d) && Justified(d.trace + [e], |d.trace|)
    requires !e.Dequeued? && !e.Disarmed? && !e.Dropped? && !e.Armed? && !e.Admitted?
    ensures Sound(Log(d, e))
  {
    LogSound(d, e);
    hide Sound, Justified;
    assert Log(d, e) == Log(d, e).(awaiting := d.awaiting, skipping := d.skipping);
  }

  lemma ArmSound(d: Decoder)
    requires Sound(d)
    ensures Sound(Arm(d))
  {
    LogSound(d, Armed);
  }

  lemma {:induction false} WaitingMore(queue: seq<Task>, t: Task)
    ensures Waiting(queue + [t]) == Waiting(queue) + if t.DecodeTask? then 1 else 0
  {
    if |queue| == 0 {
      assert queue + [t] == [t];
    } else {
      assert (queue + [t])[1..] == queue[1..] + [t];
      WaitingMore(queue[1..], t);
    }
  }

  lemma EnqueueSound(d: Decoder, t: Task)
    requires Sound(d) && !t.DecodeTask?
    ensures Sound(Enqueue(d, t))
  {
    WaitingMore(d.queue, t);
    forall i: nat | i < |d.trace| && d.trace[i] == Dropped ensures DropHandled(Enqueue(d, t), i) {
      assert DropHandled(d, i);
    }
  }

  lemma OverflowSound(d: Decoder)
    requires Sound(d)
    ensures Sound(Log(d.(overflowed := true), Dropped))
  {
    var flagged := d.(overflowed := true);
    forall i: nat | i < |d.trace| && d.trace[i] == Dropped ensures DropHandled(flagged, i) {
      assert DropHandled(d, i);
    }
    LogSound(flagged, Dropped);
  }

  /** Accepting a packet, once its submission is recorded. */
  lemma AcceptSound(d: Decoder, p: Packet, at: nat)
    requires Sound(d) && d.pending < MAX_PENDING && at < |d.trace|
    ensures Sound(d.(pending := d.pending + 1, queue := d.queue + [DecodeTask(p, at)]))
  {
    var after := d.(pending := d.pending + 1, queue := d.queue + [DecodeTask(p, at)]);
    WaitingMore(d.queue, DecodeTask(p, at));
    forall i: nat | i < |d.trace| && d.trace[i] == Dropped ensures DropHandled(after, i) {
      assert DropHandled(d, i);
    }
  }

  lemma BoundedPending(d: Decoder)
    requires Sound(d)
    ensures 0 <= d.pending <= MAX_PENDING
  {
  }

  lemma SubmitSound(d: Decoder, p: Packet)
    requires Sound(d)
    ensures Sound(Submit(d, p))
  {
    BoundedPending(d);
    hide Sound;
    if d.pending >= MAX_PENDING {
      OverflowSound(d);
    } else {
      LogOnly(d, Submitted(p));
      AcceptSound(Log(d, Submitted(p)), p, |d.trace|);
      var logged := Log(d, Submitted(p));
      assert Submit(d, p) ==
             logged.(pending := logged.pending + 1, queue := logged.queue + [DecodeTask(p, |d.trace|)]);
    }
  }

  /** Taking the head block off the queue. */
  lemma PopSound(d: Decoder)
    requires Sound(d) && d.queue != []
    ensures Sound(d.(queue := d.queue[1..], pending := d.pending - if d.queue[0].DecodeTask? then 1 else 0))
  {
    var after := d.(queue := d.queue[1..], pending := d.pending - if d.queue[0].DecodeTask? then 1 else 0);
    forall i: nat | i < |d.trace| && d.trace[i] == Dropped ensures DropHandled(after, i) {
      assert DropHandled(d, i);
    }
  }

  lemma DequeueSound(d: Decoder)
    requires Sound(d) && d.queue != [] && d.current.None?
    ensures Sound(Dequeue(d))
  {
    PopSound(d);
    match d.queue[0] {
      case RearmTask =>
        ArmSound(d.(queue := d.queue[1..]));
      case ReleaseTask =>
        var rest := d.(queue := d.queue[1..]);
        forall i: nat | i < |rest.trace| && rest.trace[i] == Dropped
          ensures DropHandled(Teardown(rest.(released := true)), i)
        {
          assert DropHandled(rest, i);
        }
      case DecodeTask(p, at) =>
        StartSound(d, p, at);
    }
  }

  /** The locked section: whatever was dropped before it, the flag has been turned into a wait. */
  lemma StartSound(d: Decoder, p: Packet, at: nat)
    requires Sound(d) && d.queue != [] && d.current.None? && d.queue[0] == DecodeTask(p, at)
    ensures Sound(Start(d.(queue := d.queue[1..]), p, at))
  {
    HeadIsPast(d);
    PopPacketSound(d);
    hide *;
    StartOn(d.(queue := d.queue[1..]), p, at);
  }

  lemma StartOn(d: Decoder, p: Packet, at: nat)
    requires Sound(d.(pending := d.pending - 1)) && d.current.None? && at < |d.trace|
    ensures Sound(Start(d, p, at))
  {
    var popped := d.(pending := d.pending - 1);
    StartIs(d, p, at);
    hide *;
    if d.overflowed {
      OverflowedStart(popped, p, at);
    } else {
      PlainStart(popped, p, at);
    }
  }

  lemma PopPacketSound(d: Decoder)
    requires Sound(d) && d.queue != [] && d.queue[0].DecodeTask?
    ensures Sound(d.(queue := d.queue[1..]).(pending := d.pending - 1))
  {
    PopSound(d);
    hide *;
    assert d.(queue := d.queue[1..]).(pending := d.pending - 1) == d.(queue := d.queue[1..], pending := d.pending - 1);
  }

  lemma StartIs(d: Decoder, p: Packet, at: nat)
    ensures var running := Log(d.(pending := d.pending - 1).(current := Some(Running(p, at, |d.trace|))), Dequeued(at));
            Start(d, p, at) == if d.overflowed then Arm(running.(overflowed := false)) else running
  {
  }

  lemma HeadIsPast(d: Decoder)
    requires Sound(d) && d.queue != [] && d.queue[0].DecodeTask?
    ensures d.queue[0].at < |d.trace|
  {
    assert d.queue[0] in d.queue;
  }

  lemma PlainStart(d: Decoder, p: Packet, at: nat)
    requires Sound(d) && d.current.None? && at < |d.trace| && !d.overflowed
    ensures Sound(Log(d.(current := Some(Running(p, at, |d.trace|))), Dequeued(at)))
  {
    var e := Dequeued(at);
    var after := Log(d.(current := Some(Running(p, at, |d.trace|))), e);
    MoreTrace(d.trace, e);
    MoreJustified(d.trace, e);
    assert after.trace[|d.trace|] == e;
    forall i: nat | i < |after.trace| && after.trace[i] == Dropped ensures DropHandled(after, i) {
      assert DropHandled(d, i);
    }
  }

  lemma OverflowedStart(d: Decoder, p: Packet, at: nat)
    requires Sound(d) && d.current.None? && at < |d.trace|
    ensures Sound(Arm(Log(d.(current := Some(Running(p, at, |d.trace|))), Dequeued(at)).(overflowed := false)))
  {
    var e := Dequeued(at);
    var mid := Log(d.(current := Some(Running(p, at, |d.trace|))), e);
    var after := Arm(mid.(overflowed := false));
    MoreTrace(d.trace, e);
    MoreJustified(d.trace, e);
    assert mid.trace[|d.trace|] == e;
    MoreTrace(mid.trace, Armed);
    MoreJustified(mid.trace, Armed);
    forall i: nat | i < |after.trace| && after.trace[i] == Dropped ensures DropHandled(after, i) {
      assert DequeuedSince(mid.trace, i);
    }
  }

  /** Fields that neither the trace nor the queue depends on may change freely. */
  lemma SameGate(d: Decoder, after: Decoder)
    requires Sound(d)
    requires after == d.(current := after.current, session := after.session, format := after.format,
                         parameterSets := after.parameterSets, codec := after.codec,
                         released := after.released, reported := after.reported)
    requires after.session ==> after.format
    requires after.current.None? || after.current == d.current
    ensures Sound(after)
  {
    forall i: nat | i < |d.trace| && d.trace[i] == Dropped ensures DropHandled(after, i) {
      assert DropHandled(d, i);
    }
  }

  lemma SwitchSound(d: Decoder, codec: NALCodec)
    requires Sound(d)
    ensures Sound(SwitchCodec(d, codec))
  {
    var torn := Teardown(d).(codec := Some(codec), parameterSets := []);
    SameGate(d, torn);
    ArmSound(torn);
  }

  lemma ConfigureSound(d: Decoder, sets: seq<AnnexB.Unit>, pf: Platform)
    requires Sound(d)
    ensures Sound(Configure(d, sets, pf))
  {
    ArmSound(d);
    var known := d.(parameterSets := sets);
    SameGate(d, known.(format := true));
    SameGate(d, known.(format := true, session := false));
    var armed := Arm(known.(format := true, session := false));
    ArmSound(known.(format := true, session := false));
    SameGate(armed, armed.(session := pf.createsSession));
  }

  /** The packet submitted at `at` was dequeued at `since`, and none has been dequeued after it. */
  ghost predicate Started(trace: seq<Event>, at: nat, since: nat) {
    at < since < |trace| && trace[since] == Dequeued(at) && !DequeuedSince(trace, since)
  }

  lemma StartedMore(trace: seq<Event>, at: nat, since: nat, e: Event)
    requires Started(trace, at, since) && !e.Dequeued?
    ensures Started(trace + [e], at, since)
  {
    MoreTrace(trace, e);
  }

  lemma DisarmSound(d: Decoder, p: Packet, at: nat, since: nat)
    requires Sound(d) && Started(d.trace, at, since)
    requires d.awaiting && p.keyframe && p.HasPicture()
    ensures Sound(Log(d.(awaiting := false, skipping := p.IsCleanRandomAccess()), Disarmed(p, at)))
  {
    var e := Disarmed(p, at);
    var after := Log(d.(awaiting := false, skipping := p.IsCleanRandomAccess()), e);
    assert after.trace[..|d.trace|] == d.trace;
    MoreTrace(d.trace, e);
    MoreJustified(d.trace, e);
    assert after.trace[since] == Dequeued(at) && after.trace[|d.trace|] == e;
    forall i: nat | i < |after.trace| && after.trace[i] == Dropped ensures DropHandled(after, i) {
      assert DropHandled(d, i);
      if DequeuedSince(after.trace, i) {
        var q :| i < q < |d.trace| && d.trace[q].Dequeued?;
        assert q <= since;
      }
    }
  }

  lemma AdmitSound(d: Decoder, p: Packet, at: nat)
    requires Sound(d) && !d.awaiting && p.HasPicture() && (d.skipping ==> !p.IsRasl())
    ensures Sound(Log(d.(skipping := false), Admitted(p, at)))
  {
    var e := Admitted(p, at);
    assert (d.trace + [e])[..|d.trace|] == d.trace;
    LogSound(d, e);
  }

  lemma FeedSound(d: Decoder, p: Packet, at: nat, since: nat, pf: Platform)
    requires Sound(d) && Started(d.trace, at, since) && !d.awaiting
    requires d.trace[|d.trace| - 1] == Disarmed(p, at) || d.trace[|d.trace| - 1] == Admitted(p, at)
    ensures Sound(Feed(d, p, at, pf))
  {
    if d.session && d.format && pf.makesSample {
      var e := Fed(p, at);
      FeedJustified(d, p, at, since);
      hide Sound, Justified;
      LogSound(d, e);
      var fed := Log(d, e);
      ArmSound(fed);
      SameGate(fed, Teardown(fed).(parameterSets := []));
      ArmSound(Teardown(fed).(parameterSets := []));
    }
  }

  lemma FeedJustified(d: Decoder, p: Packet, at: nat, since: nat)
    requires Sound(d) && Started(d.trace, at, since) && !d.awaiting
    requires d.trace[|d.trace| - 1] == Disarmed(p, at) || d.trace[|d.trace| - 1] == Admitted(p, at)
    ensures Justified(d.trace + [Fed(p, at)], |d.trace|)
  {
    assert (d.trace + [Fed(p, at)])[..|d.trace|] == d.trace;
    forall i: nat | i < at && d.trace[i] == Dropped ensures Cleared(d.trace, i) {
      assert DropHandled(d, i);
      assert DequeuedSince(d.trace, i) by { assert i < since; }
    }
  }

  lemma GateSound(d: Decoder, p: Packet, at: nat, since: nat, pf: Platform)
    requires Sound(d) && Started(d.trace, at, since) && p.HasPicture()
    ensures Sound(Gate(d, p, at, pf))
  {
    if d.awaiting {
      if p.keyframe && d.session {
        DisarmSound(d, p, at, since);
        StartedMore(d.trace, at, since, Disarmed(p, at));
        FeedSound(Log(d.(awaiting := false, skipping := p.IsCleanRandomAccess()), Disarmed(p, at)), p, at, since, pf);
      }
    } else if d.skipping && p.IsRasl() {
      assert (d.trace + [Skipped(p, at)])[..|d.trace|] == d.trace;
      LogSound(d, Skipped(p, at));
    } else {
      AdmitSound(d, p, at);
      StartedMore(d.trace, at, since, Admitted(p, at));
      FeedSound(Log(d.(skipping := false), Admitted(p, at)), p, at, since, pf);
    }
  }

  lemma SwitchedTrace(d: Decoder, codec: NALCodec)
    ensures SwitchCodec(d, codec).trace in {d.trace, d.trace + [Armed]}
  {
  }

  lemma ConfiguredTrace(d: Decoder, sets: seq<AnnexB.Unit>, pf: Platform)
    ensures Configure(d, sets, pf).trace in {d.trace, d.trace + [Armed]}
  {
    if !pf.makesFormat {
      assert Configure(d, sets, pf).trace == d.trace + [Armed];
    } else if d.session && pf.acceptsFormat {
      assert Configure(d, sets, pf).trace == d.trace;
    } else {
      assert Configure(d, sets, pf).trace == d.trace + [Armed];
    }
  }

  lemma PrepareSound(d: Decoder, sets: seq<AnnexB.Unit>, codec: NALCodec, pf: Platform, at: nat, since: nat)
    requires Sound(d) && Started(d.trace, at, since)
    ensures Sound(Prepare(d, sets, codec, pf)) && Started(Prepare(d, sets, codec, pf).trace, at, since)
  {
    hide Sound, Started, IsComplete, SwitchCodec, Configure;
    var switched := SwitchCodec(d, codec);
    SwitchSound(d, codec);
    SwitchedTrace(d, codec);
    StartedMore(d.trace, at, since, Armed);
    ConfigureSound(switched, sets, pf);
    ConfiguredTrace(switched, sets, pf);
    StartedMore(switched.trace, at, since, Armed);
  }

  lemma DecodeSound(d: Decoder, pf: Platform)
    requires Sound(d) && d.current.Some?
    ensures Sound(Decode(d, pf))
  {
    var Running(p, at, since) := d.current.value;
    var idle := d.(current := None);
    SameGate(d, idle);
    SameGate(d, idle.(reported := true));
    if !d.released && p.Unit().Some? {
      PrepareSound(idle, p.Unit().value.parameterSets, p.codec.value, pf, at, since);
      if p.HasPicture() {
        GateSound(Prepare(idle, p.Unit().value.parameterSets, p.codec.value, pf), p, at, since, pf);
      }
    }
  }

  lemma StepSound(d: Decoder, a: Action)
    requires Sound(d)
    ensures Sound(Step(d, a))
  {
    match a {
      case SubmitPacket(p) => SubmitSound(d, p);
      case StartBlock =>
        if d.queue != [] && d.current.None? {
          DequeueSound(d);
        }
      case FinishBlock(pf) =>
        if d.current.Some? {
          DecodeSound(d, pf);
        }
      case Reset => EnqueueSound(d, RearmTask);
      case AsyncError => EnqueueSound(d, RearmTask);
      case Release => EnqueueSound(d, ReleaseTask);
    }
  }

  /** Every interleaving of submissions, blocks, resets and errors keeps the invariant. */
  lemma {:induction false} SoundOn(d: Decoder, actions: seq<Action>)
    requires Sound(d)
    ensures Sound(Run(d, actions))
  {
    hide Sound, Step;
    if |actions| > 0 {
      var front := actions[..|actions| - 1];
      SoundOn(d, front);
      StepSound(Run(d, front), actions[|actions| - 1]);
    }
  }

  lemma RunSound(actions: seq<Action>)
    ensures Sound(Run(INITIAL, actions))
  {
    assert INITIAL.trace[..0] == [];
    assert !GateOpen(INITIAL.trace) && !Leading(INITIAL.trace);
    SoundOn(INITIAL, actions);
  }

  // ----- What it means -----

  /** An open gate was opened by a keyframe, and nothing has re-armed it since. */
  lemma {:induction false} OpenedBy(trace: seq<Event>) returns (k: nat)
    requires GateOpen(trace)
    ensures k < |trace| && trace[k].Disarmed?
    ensures forall j :: k < j < |trace| ==> trace[j] != Armed
  {
    if trace[|trace| - 1].Disarmed? {
      k := |trace| - 1;
    } else {
      var front := trace[..|trace| - 1];
      k := OpenedBy(front);
      assert forall j :: 0 <= j < |front| ==> trace[j] == front[j];
    }
  }

  /** Between a re-arm and the next picture fed, a keyframe with a picture ended the wait. */
  lemma KeyframeBeforeFeeding(t: seq<Event>, a: nat, f: nat) returns (k: nat)
    requires AllJustified(t) && a < f < |t| && t[a] == Armed && t[f].Fed?
    ensures a < k < f && t[k].Disarmed? && t[k].packet.keyframe && t[k].packet.HasPicture()
  {
    assert Justified(t, f);
    k := OpenedBy(t[..f]);
    assert t[..f][a] == Armed && t[..f][k] == t[k];
    assert Justified(t, k);
  }

  /** The picture that ends a wait is itself fed at once. */
  ghost predicate PromptFeeds(trace: seq<Event>) {
    forall k :: 0 <= k < |trace| && trace[k].Disarmed? ==>
      k + 1 < |trace| && trace[k + 1] == Fed(trace[k].packet, trace[k].at)
  }

  /** If waits end by feeding, the first picture fed after a re-arm is a keyframe. */
  lemma KeyframeFirst(t: seq<Event>, a: nat, f: nat)
    requires AllJustified(t) && PromptFeeds(t)
    requires a < f < |t| && t[a] == Armed && t[f].Fed? && forall j :: a < j < f ==> !t[j].Fed?
    ensures t[f].packet.keyframe
  {
    var k := KeyframeBeforeFeeding(t, a, f);
    assert t[k + 1].Fed?;
  }

  /** A keyframe that ends the wait is fed in the same step exactly when its sample buffer can be made. */
  lemma DisarmFeedsIff(d: Decoder, p: Packet, at: nat, pf: Platform)
    requires d.awaiting && p.keyframe && d.session && d.format
    ensures var t := Gate(d, p, at, pf).trace;
            && |d.trace| < |t| && t[|d.trace|] == Disarmed(p, at)
            && (|d.trace| + 1 < |t| && t[|d.trace| + 1] == Fed(p, at) <==> pf.makesSample)
  {
    hide Reshaped;
    var disarmed := Log(d.(awaiting := false, skipping := p.IsCleanRandomAccess()), Disarmed(p, at));
    FeedLogs(disarmed, p, at, pf);
  }

  lemma FeedLogs(d: Decoder, p: Packet, at: nat, pf: Platform)
    requires d.session && d.format
    ensures if pf.makesSample then d.trace + [Fed(p, at)] <= Feed(d, p, at, pf).trace else Feed(d, p, at, pf) == d
  {
    if pf.makesSample {
      match pf.status
      case NoErr =>
      case InvalidSession => assert Feed(d, p, at, pf).trace == d.trace + [Fed(p, at)] + [Armed];
      case OtherError => assert Feed(d, p, at, pf).trace == d.trace + [Fed(p, at)] + [Armed];
    }
  }

  /** This block ends a wait: it holds a keyframe's picture, and there is a session to decode it. */
  predicate EndsWait(d: Decoder, pf: Platform) {
    d.current.Some? && !d.released &&
    var p := d.current.value.packet;
    p.keyframe && p.HasPicture() &&
    var ready := Prepare(d.(current := None), p.Unit().value.parameterSets, p.codec.value, pf);
    ready.awaiting && ready.session
  }

  /** Whenever a block of the run ends a wait, its sample buffer can be made. */
  ghost predicate SamplesForWaits(actions: seq<Action>) {
    forall n :: 0 <= n < |actions| ==> SampleForWait(Run(INITIAL, actions[..n]), actions[n])
  }

  ghost predicate SampleForWait(d: Decoder, a: Action) {
    a.FinishBlock? && EndsWait(d, a.platform) ==> a.platform.makesSample
  }

  /** An event that is neither end of a wait nor feeding changes nothing, nor does feeding what was admitted. */
  lemma MorePrompt(trace: seq<Event>, e: Event)
    requires !e.Disarmed?
    requires e.Fed? ==> |trace| > 0 && !trace[|trace| - 1].Disarmed?
    ensures PromptFeeds(trace + [e]) <==> PromptFeeds(trace)
  {
    var more := trace + [e];
    assert forall k :: 0 <= k < |trace| ==> more[k] == trace[k];
    if PromptFeeds(more) {
      forall k | 0 <= k < |trace| && trace[k].Disarmed?
        ensures k + 1 < |trace| && trace[k + 1] == Fed(trace[k].packet, trace[k].at)
      {
        assert more[k].Disarmed? && more[|trace|] == e;
      }
    }
    if PromptFeeds(trace) {
      forall k | 0 <= k < |more| && more[k].Disarmed?
        ensures k + 1 < |more| && more[k + 1] == Fed(more[k].packet, more[k].at)
      {
        assert trace[k].Disarmed?;
      }
    }
  }

  lemma FedAtOnce(trace: seq<Event>, p: Packet, at: nat)
    ensures PromptFeeds(trace + [Disarmed(p, at)] + [Fed(p, at)]) <==> PromptFeeds(trace)
    ensures !PromptFeeds(trace + [Disarmed(p, at)])
  {
    var one, both := trace + [Disarmed(p, at)], trace + [Disarmed(p, at)] + [Fed(p, at)];
    assert one[|trace|].Disarmed?;
    assert both[|trace|] == Disarmed(p, at) && both[|trace| + 1] == Fed(p, at);
    assert forall k :: 0 <= k < |trace| ==> both[k] == trace[k];
    if PromptFeeds(both) {
      forall k | 0 <= k < |trace| && trace[k].Disarmed?
        ensures k + 1 < |trace| && trace[k + 1] == Fed(trace[k].packet, trace[k].at)
      {
        assert both[k].Disarmed? && both[k + 1] == Fed(both[k].packet, both[k].at);
      }
    }
    if PromptFeeds(trace) {
      forall k | 0 <= k < |both| && both[k].Disarmed?
        ensures k + 1 < |both| && both[k + 1] == Fed(both[k].packet, both[k].at)
      {
        assert k < |trace| ==> trace[k].Disarmed?;
      }
    }
  }

  lemma GatePrompt(d: Decoder, p: Packet, at: nat, pf: Platform)
    requires d.session ==> d.format
    ensures PromptFeeds(Gate(d, p, at, pf).trace) <==>
            PromptFeeds(d.trace) && (d.awaiting && p.keyframe && d.session ==> pf.makesSample)
  {
    hide PromptFeeds, Reshaped;
    var fed := Fed(p, at);
    if d.awaiting && p.keyframe && d.session {
      FedAtOnce(d.trace, p, at);
      MorePrompt(d.trace + [Disarmed(p, at)] + [fed], Armed);
    } else {
      var admitted := d.trace + [Admitted(p, at)];
      MorePrompt(d.trace, Skipped(p, at));
      MorePrompt(d.trace, Admitted(p, at));
      MorePrompt(admitted, fed);
      MorePrompt(admitted + [fed], Armed);
    }
  }

  lemma PreparePrompt(d: Decoder, sets: seq<AnnexB.Unit>, codec: NALCodec, pf: Platform)
    ensures PromptFeeds(Prepare(d, sets, codec, pf).trace) <==> PromptFeeds(d.trace)
  {
    hide PromptFeeds, IsComplete, SwitchCodec, Configure;
    var switched := SwitchCodec(d, codec);
    SwitchedTrace(d, codec);
    MorePrompt(d.trace, Armed);
    ConfiguredTrace(switched, sets, pf);
    MorePrompt(switched.trace, Armed);
  }

  lemma ConfiguredFormat(d: Decoder, sets: seq<AnnexB.Unit>, pf: Platform)
    requires d.session ==> d.format
    ensures var after := Configure(d, sets, pf); after.session ==> after.format
  {
    if pf.makesFormat && !(d.session && pf.acceptsFormat) {
      assert Configure(d, sets, pf).format;
    }
  }

  lemma PreparedFormat(d: Decoder, sets: seq<AnnexB.Unit>, codec: NALCodec, pf: Platform)
    requires d.session ==> d.format
    ensures var after := Prepare(d, sets, codec, pf); after.session ==> after.format
  {
    hide IsComplete, Configure;
    ConfiguredFormat(SwitchCodec(d, codec), sets, pf);
  }

  lemma DecodePrompt(d: Decoder, pf: Platform)
    requires d.current.Some? && (d.session ==> d.format)
    ensures PromptFeeds(Decode(d, pf).trace) <==>
            PromptFeeds(d.trace) && (EndsWait(d, pf) ==> pf.makesSample)
  {
    hide PromptFeeds, Prepare, Gate, Reshaped;
    var p := d.current.value.packet;
    if !d.released && p.Unit().Some? {
      var idle, sets := d.(current := None), p.Unit().value.parameterSets;
      PreparedFormat(idle, sets, p.codec.value, pf);
      PreparePrompt(idle, sets, p.codec.value, pf);
      GatePrompt(Prepare(idle, sets, p.codec.value, pf), p, d.current.value.at, pf);
    }
  }

  lemma DequeuePrompt(d: Decoder)
    requires d.queue != [] && d.current.None?
    ensures PromptFeeds(Dequeue(d).trace) <==> PromptFeeds(d.trace)
  {
    hide PromptFeeds;
    MorePrompt(d.trace, Armed);
    if d.queue[0].DecodeTask? {
      MorePrompt(d.trace, Dequeued(d.queue[0].at));
      MorePrompt(d.trace + [Dequeued(d.queue[0].at)], Armed);
    }
  }

  lemma StepPrompt(d: Decoder, a: Action)
    requires d.session ==> d.format
    ensures PromptFeeds(Step(d, a).trace) <==> PromptFeeds(d.trace) && SampleForWait(d, a)
  {
    hide PromptFeeds, EndsWait, Decode, Dequeue;
    match a {
      case SubmitPacket(p) =>
        MorePrompt(d.trace, Dropped);
        MorePrompt(d.trace, Submitted(p));
      case StartBlock =>
        if d.queue != [] && d.current.None? {
          DequeuePrompt(d);
        }
      case FinishBlock(pf) =>
        if d.current.Some? {
          DecodePrompt(d, pf);
        } else {
          NoBlockNoEnd(d, pf);
        }
      case Reset =>
      case AsyncError =>
      case Release =>
    }
  }

  lemma NoBlockNoEnd(d: Decoder, pf: Platform)
    ensures d.current.None? ==> !EndsWait(d, pf)
  {
  }

  /** Every wait ends by feeding its keyframe exactly when each block that ends one can make its sample buffer. */
  lemma {:induction false} RunPrompt(actions: seq<Action>)
    ensures PromptFeeds(Run(INITIAL, actions).trace) <==> SamplesForWaits(actions)
  {
    if |actions| > 0 {
      hide PromptFeeds, SamplesForWaits, SampleForWait, Step, Run, Sound;
      var front, last := actions[..|actions| - 1], actions[|actions| - 1];
      assert actions == front + [last];
      RunPrompt(front);
      RunSound(front);
      SoundFormat(Run(INITIAL, front));
      StepPrompt(Run(INITIAL, front), last);
      RunMore(INITIAL, front, last);
      SamplesMore(front, last);
    }
  }

  lemma SoundFormat(d: Decoder)
    requires Sound(d)
    ensures d.session ==> d.format
  {
  }

  lemma SamplesMore(actions: seq<Action>, a: Action)
    ensures SamplesForWaits(actions + [a]) <==> SamplesForWaits(actions) && SampleForWait(Run(INITIAL, actions), a)
  {
    hide Run, SampleForWait;
    var more := actions + [a];
    assert more[..|actions|] == actions && more[|actions|] == a;
    assert forall n :: 0 <= n < |actions| ==> more[..n] == actions[..n] && more[n] == actions[n];
  }

  /** A stretch without Disarmed or Admitted events leaves `Leading` as it was. */
  lemma {:induction false} LeadingStays(trace: seq<Event>, j: nat, i: nat)
    requires j < i <= |trace| && trace[j].Disarmed? && trace[j].packet.IsCleanRandomAccess()
    requires forall m :: j < m < i ==> !trace[m].Disarmed? && !trace[m].Admitted?
    ensures Leading(trace[..i])
  {
    hide Reshaped;
    assert trace[..i][|trace[..i]| - 1] == trace[i - 1];
    if i > j + 1 {
      assert trace[..i][..i - 1] == trace[..i - 1];
      LeadingStays(trace, j, i - 1);
    }
  }

  /** The first Admitted event after a position, given that there is one. */
  lemma {:induction false} FirstAdmitted(trace: seq<Event>, j: nat, i: nat) returns (m: nat)
    requires j < i < |trace| && trace[i].Admitted?
    ensures j < m <= i && trace[m].Admitted? && forall n :: j < n < m ==> !trace[n].Admitted?
    decreases i - j
  {
    if trace[j + 1].Admitted? {
      m := j + 1;
    } else {
      m := FirstAdmitted(trace, j + 1, i);
    }
  }

  /**
   After resynchronising at a CRA or BLA picture, RASL pictures are skipped
   until some other picture has been admitted (section 8.1.3 of H.265).
   */
  lemma RaslRunSkipped(t: seq<Event>, j: nat, i: nat)
    requires AllJustified(t) && j < i < |t|
    requires t[j].Disarmed? && t[j].packet.IsCleanRandomAccess()
    requires t[i].Admitted? && t[i].packet.IsRasl() && forall m :: j < m < i ==> !t[m].Disarmed?
    ensures exists m :: j < m < i && t[m].Admitted? && !t[m].packet.IsRasl()
  {
    hide Reshaped;
    var m := FirstAdmitted(t, j, i);
    LeadingStays(t, j, m);
    assert Justified(t, m);
  }

  /**
   No picture submitted after an overflow drop is decoded unless, after that
   drop, a keyframe was dequeued and ended the wait.
   */
  lemma OverflowResyncs(t: seq<Event>, i: nat, f: nat)
    requires AllJustified(t) && f < |t| && t[f].Fed? && i < t[f].at && i < f && t[i] == Dropped
    ensures exists q, k :: i < q < k < f && t[k].Disarmed? && t[k].packet.keyframe && t[q] == Dequeued(t[k].at)
  {
    assert Justified(t, f) && Cleared(t[..f], i);
    var q, k, p, at :| i < q < k < f && t[..f][q] == Dequeued(at) && t[..f][k] == Disarmed(p, at);
    assert t[q] == Dequeued(at) && t[k] == Disarmed(p, at);
    assert Justified(t, k);
  }

  /**
   Over every interleaving: the queue is bounded and counted, and the trace
   satisfies the premises of the lemmas above.
   */
  lemma EveryRun(actions: seq<Action>)
    ensures var d := Run(INITIAL, actions);
            && d.pending == Waiting(d.queue) && d.pending <= MAX_PENDING
            && AllJustified(d.trace)
            && (PromptFeeds(d.trace) <==> SamplesForWaits(actions))
  {
    RunSound(actions);
    RunPrompt(actions);
  }

  /** Over every run: a packet is dropped exactly when eight are waiting, and accepted otherwise. */
  lemma DroppedIff(actions: seq<Action>, p: Packet)
    ensures var d := Run(INITIAL, actions);
            && (Step(d, SubmitPacket(p)).trace == d.trace + [Dropped] <==> Waiting(d.queue) == 8)
            && (Waiting(d.queue) < 8 ==>
                  Step(d, SubmitPacket(p)).queue == d.queue + [DecodeTask(p, |d.trace|)])
  {
    var d := Run(INITIAL, actions);
    RunSound(actions);
    assert (d.trace + [Dropped])[|d.trace|] != (d.trace + [Submitted(p)])[|d.trace|];
  }

  // ----- The decoder -----

  class VideoDecoder {
    var pending: int
    var overflowed: bool
    /** Blocks on the serial queue. */
    var queue: seq<Task>
    /** The packet of the block that is running, once its locked section is over. */
    var current: Option<Running>
    var session: bool
    var format: bool
    var parameterSets: seq<AnnexB.Unit>
    var codec: Option<NALCodec>
    var awaitingKeyframe: bool
    var skippingLeadingPictures: bool
    var released: bool
    var reportedUnsupported: bool
    var trace: seq<Event>

    function View(): Decoder
      reads this
    {
      Decoder(pending, overflowed, queue, current, session, format, parameterSets, codec,
              awaitingKeyframe, skippingLeadingPictures, released, reportedUnsupported, trace)
    }

    constructor ()
      ensures View() == INITIAL
    {
      pending, overflowed, queue, current := 0, false, [], None;
      session, format, parameterSets, codec := false, false, [], None;
      awaitingKeyframe, skippingLeadingPictures, released, reportedUnsupported := true, false, false, false;
      trace := [Armed];
    }

    method Rearm()
      modifies this`awaitingKeyframe, this`trace
      ensures View() == Arm(old(View()))
    {
      awaitingKeyframe := true;
      trace := trace + [Armed];
    }

    method TeardownSession()
      modifies this`session, this`format
      ensures View() == Teardown(old(View()))
    {
      session := false;
      format := false;
    }

    /** A packet joins the queue, or is dropped and leaves its mark on the overflow flag. */
    method SubmitPacket(p: Packet)
      modifies this
      ensures View() == Submit(old(View()), p)
    {
      if pending >= MAX_PENDING {
        overflowed := true;
        trace := trace + [Dropped];
        return;
      }
      pending := pending + 1;
      queue := queue + [DecodeTask(p, |trace|)];
      trace := trace + [Submitted(p)];
    }

    /** Run the next block; a packet's block stops after its locked section. */
    method RunBlock()
      requires queue != [] && current.None?
      modifies this`queue, this`current, this`pending, this`overflowed, this`released, this`session, this`format
      modifies this`awaitingKeyframe, this`trace
      ensures View() == Dequeue(old(View()))
    {
      hide Reshaped;
      var task := queue[0];
      queue := queue[1..];
      match task {
        case RearmTask => Rearm();
        case ReleaseTask =>
          released := true;
          TeardownSession();
        case DecodeTask(p, at) =>
          StartPacket(p, at);
      }
    }

    /** The locked section: the packet no longer counts, and an overflow becomes a wait. */
    method StartPacket(p: Packet, at: nat)
      modifies this`current, this`pending, this`overflowed, this`awaitingKeyframe, this`trace
      ensures View() == Start(old(View()), p, at)
    {
      current := Some(Running(p, at, |trace|));
      pending := pending - 1;
      trace := trace + [Dequeued(at)];
      if overflowed {
        overflowed := false;
        Rearm();
      }
    }

    /** The rest of a packet's block. */
    method DecodeCurrent(pf: Platform)
      requires current.Some?
      modifies this
      ensures View() == Decode(old(View()), pf)
    {
      var p, at := current.value.packet, current.value.at;
      current := None;
      if released {
        return;
      }
      if p.codec.None? {
        reportedUnsupported := true;
        return;
      }
      var unit := p.Unit();
      if unit.None? {
        return;
      }
      PrepareSession(unit.value.parameterSets, p.codec.value, pf);
      if unit.value.sampleData == [] {
        return;
      }
      PassGate(p, at, pf);
    }

    method PrepareSession(sets: seq<AnnexB.Unit>, nalCodec: NALCodec, pf: Platform)
      modifies this`parameterSets, this`session, this`format, this`codec, this`awaitingKeyframe, this`trace
      ensures View() == Prepare(old(View()), sets, nalCodec, pf)
    {
      hide IsComplete, Configure;
      if codec != Some(nalCodec) {
        TeardownSession();
        codec := Some(nalCodec);
        parameterSets := [];
        Rearm();
      }
      if sets != [] && IsComplete(sets, nalCodec) && sets != parameterSets {
        ConfigureSession(sets, pf);
      }
    }

    method ConfigureSession(sets: seq<AnnexB.Unit>, pf: Platform)
      modifies this`parameterSets, this`session, this`format, this`awaitingKeyframe, this`trace
      ensures View() == Configure(old(View()), sets, pf)
    {
      hide Reshaped;
      if !pf.makesFormat {
        Rearm();
        return;
      }
      hide Arm, Teardown;
      parameterSets := sets;
      assert View() == old(View()).(parameterSets := sets);
      if session && pf.acceptsFormat {
        format := true;
        return;
      }
      NewSession(pf);
    }

    /** The session cannot go on with the new format: replace it, and wait for a keyframe. */
    method NewSession(pf: Platform)
      modifies this`session, this`format, this`awaitingKeyframe, this`trace
      ensures View() == Arm(old(View()).(format := true, session := false)).(session := pf.createsSession)
    {
      TeardownSession();
      format := true;
      Rearm();
      session := pf.createsSession;
    }

    method PassGate(p: Packet, at: nat, pf: Platform)
      modifies this`parameterSets, this`session, this`format, this`awaitingKeyframe, this`trace
      modifies this`skippingLeadingPictures
      ensures View() == Gate(old(View()), p, at, pf)
    {
      hide Reshaped;
      if awaitingKeyframe {
        if !p.keyframe || !session {
          return;
        }
        awaitingKeyframe := false;
        skippingLeadingPictures := p.IsCleanRandomAccess();
        trace := trace + [Disarmed(p, at)];
      } else {
        if skippingLeadingPictures && p.IsRasl() {
          trace := trace + [Skipped(p, at)];
          return;
        }
        skippingLeadingPictures := false;
        trace := trace + [Admitted(p, at)];
      }
      FeedNow(p, at, pf);
    }

    /** The tail of a packet's block: hand the picture over, and wait again if that fails. */
    method FeedNow(p: Packet, at: nat, pf: Platform)
      modifies this`parameterSets, this`session, this`format, this`awaitingKeyframe, this`trace
      ensures View() == Feed(old(View()), p, at, pf)
    {
      if !session || !format || !pf.makesSample {
        return;
      }
      trace := trace + [Fed(p, at)];
      if pf.status != NoErr {
        if pf.status == InvalidSession {
          TeardownSession();
          parameterSets := [];
        }
        Rearm();
      }
    }

    /** A new connection, or an error reported by the session: wait for a keyframe, in queue order. */
    method QueueRearm()
      modifies this
      ensures View() == Enqueue(old(View()), RearmTask)
    {
      queue := queue + [RearmTask];
    }

    method QueueRelease()
      modifies this
      ensures View() == Enqueue(old(View()), ReleaseTask)
    {
      queue := queue + [ReleaseTask];
    }

    /** Whatever comes next, if it is possible now. */
    method Perform(a: Action)
      modifies this
      ensures View() == Step(old(View()), a)
    {
      hide Submit, Dequeue, Decode, Enqueue;
      match a {
        case SubmitPacket(p) => SubmitPacket(p);
        case StartBlock =>
          if queue != [] && current.None? {
            RunBlock();
          }
        case FinishBlock(pf) =>
          if current.Some? {
            DecodeCurrent(pf);
          }
        case Reset => QueueRearm();
        case AsyncError => QueueRearm();
        case Release => QueueRelease();
      }
    }
  }

  /** A decoder driven through a run, in any interleaving, keeps the invariant after every step. */
  method Drive(decoder: VideoDecoder, actions: seq<Action>)
    requires Sound(decoder.View())
    modifies decoder
    ensures decoder.View() == Run(old(decoder.View()), actions) && Sound(decoder.View())
  {
    hide Sound, Step, Run;
    ghost var start := decoder.View();
    RunNone(start);
    for n := 0 to |actions|
      invariant decoder.View() == Run(start, actions[..n]) && Sound(decoder.View())
    {
      StepSound(decoder.View(), actions[n]);
      decoder.Perform(actions[n]);
      RunMore(start, actions[..n], actions[n]);
      assert actions[..n + 1] == actions[..n] + [actions[n]];
    }
    assert actions[..|actions|] == actions;
  }

  lemma RunNone(d: Decoder)
    ensures Run(d, []) == d
  {
  }

  // ----- What does not hold -----

  const SPS: AnnexB.Unit := [0x67]
  const PPS: AnnexB.Unit := [0x68]
  const IDR: AnnexB.Unit := [0x65]
  const SLICE: AnnexB.Unit := [0x41]

  const WORKS := Platform(true, true, true, true, NoErr)

  lemma KindMore(units: seq<AnnexB.Unit>, u: AnnexB.Unit, codec: NALCodec, kind: Kind)
    ensures OfKind(units + [u], codec, kind)
         == OfKind(units, codec, kind) + if KindOf(u, codec) == kind then [u] else []
    ensures FirstSlice(units + [u], codec)
         == if FirstSlice(units, codec).Some? then FirstSlice(units, codec) else SliceType(u, codec)
  {
    assert (units + [u])[..|units|] == units;
  }

  lemma KindsOfThree(a: AnnexB.Unit, b: AnnexB.Unit, c: AnnexB.Unit, kind: Kind)
    ensures OfKind([a, b, c], H264, kind)
         == (if KindOf(a, H264) == kind then [a] else []) + (if KindOf(b, H264) == kind then [b] else [])
            + (if KindOf(c, H264) == kind then [c] else [])
    ensures SliceType(a, H264).None? && SliceType(b, H264).None? ==> FirstSlice([a, b, c], H264) == SliceType(c, H264)
  {
    KindMore([], a, H264, kind);
    KindMore([a], b, H264, kind);
    KindMore([a, b], c, H264, kind);
    assert [] + [a] == [a] && [a] + [b] == [a, b] && [a, b] + [c] == [a, b, c];
  }

  /** What the gate sees of the two packets. */
  ghost predicate IsKey(p: Packet) {
    && p.codec == Some(H264) && p.keyframe && p.HasPicture() && !p.IsRasl() && !p.IsCleanRandomAccess()
    && p.Unit().value.parameterSets == [SPS, PPS]
  }

  ghost predicate IsDelta(p: Packet) {
    && p.codec == Some(H264) && !p.keyframe && p.HasPicture() && !p.IsRasl()
    && p.Unit().value.parameterSets == []
  }

  lemma ThreeUnits(data: seq<byte>, a: AnnexB.Unit, b: AnnexB.Unit, c: AnnexB.Unit)
    requires Units(data) == [a, b, c]
    requires KindOf(a, H264) == Sps && KindOf(b, H264) == Pps && KindOf(c, H264) == Other
    requires SliceType(a, H264).None? && SliceType(b, H264).None?
    ensures Reshaped(data, H264) == Some(AccessUnit([a, b], Prefixed([c]), SliceType(c, H264)))
  {
    hide Units, KindOf, Prefixed, SliceType;
    KindsOfThree(a, b, c, Sps);
    KindsOfThree(a, b, c, Pps);
    KindsOfThree(a, b, c, Other);
    assert OfKind([a, b, c], H264, Sps) == [a];
    assert OfKind([a, b, c], H264, Pps) == [b];
    assert OfKind([a, b, c], H264, Other) == [c];
    assert [a] + [b] == [a, b];
  }

  lemma KeyIsKey(p: Packet)
    requires p.codec == Some(H264) && p.keyframe && Units(p.data) == [SPS, PPS, IDR]
    ensures IsKey(p)
  {
    ThreeUnits(p.data, SPS, PPS, IDR);
    assert |Prefixed([IDR])| >= 4;
  }

  lemma DeltaIsDelta(p: Packet)
    requires p.codec == Some(H264) && !p.keyframe && Units(p.data) == [SLICE]
    ensures IsDelta(p)
  {
    OneUnit(p.data, SLICE, H264);
    assert |Prefixed([SLICE])| >= 4;
    hide Reshaped;
  }

  lemma OneUnit(data: seq<byte>, a: AnnexB.Unit, codec: NALCodec)
    requires Units(data) == [a] && KindOf(a, codec) == Other
    ensures Reshaped(data, codec) == Some(AccessUnit([], Prefixed([a]), SliceType(a, codec)))
  {
    hide Units, KindOf, Prefixed, SliceType;
    KindMore([], a, codec, Vps);
    KindMore([], a, codec, Sps);
    KindMore([], a, codec, Pps);
    KindMore([], a, codec, Other);
    assert [] + [a] == [a];
    assert OfKind([], codec, Other) == [];
  }

  /** A smallest H.264 keyframe packet, and a delta. */
  lemma KeyAndDelta() returns (key: Packet, delta: Packet)
    ensures key == Packet(Some(H264), true, Serialize([SPS, PPS, IDR], [0, 0, 0], 0)) && IsKey(key)
    ensures delta == Packet(Some(H264), false, Serialize([SLICE], [0], 0)) && IsDelta(delta)
  {
    key := Packet(Some(H264), true, Serialize([SPS, PPS, IDR], [0, 0, 0], 0));
    delta := Packet(Some(H264), false, Serialize([SLICE], [0], 0));
    SplitSerialized([SPS, PPS, IDR], [0, 0, 0], 0);
    SplitSerialized([SLICE], [0], 0);
    KeyIsKey(key);
    DeltaIsDelta(delta);
  }

  /** A session is running and pictures are let through. */
  ghost predicate Warm(d: Decoder) {
    && d.session && d.format && d.codec == Some(H264) && d.parameterSets == [SPS, PPS]
    && !d.awaiting && !d.skipping && !d.overflowed && !d.released && d.current.None?
  }

  /** No session yet, waiting for the first keyframe. */
  ghost predicate Cold(d: Decoder) {
    && !d.session && d.codec.None? && d.parameterSets == []
    && d.awaiting && !d.released && d.current.None?
  }

  /** One whole block. */
  function Block(d: Decoder, pf: Platform): Decoder {
    Step(Step(d, StartBlock), FinishBlock(pf))
  }

  lemma BlockSplits(d: Decoder, p: Packet, at: nat, pf: Platform)
    requires d.queue != [] && d.queue[0] == DecodeTask(p, at) && d.current.None? && !d.released && p.HasPicture()
    ensures var idle := Dequeue(d).(current := None);
            Block(d, pf) == Gate(Prepare(idle, p.Unit().value.parameterSets, p.codec.value, pf), p, at, pf)
  {
    var started := Dequeue(d);
    assert Step(d, StartBlock) == started;
    assert started.current.value.packet == p && started.current.value.at == at && !started.released;
  }

  /** A warm decoder feeds what comes. */
  lemma WarmBlock(d: Decoder, p: Packet, at: nat)
    requires Warm(d) && d.queue != [] && d.queue[0] == DecodeTask(p, at) && (IsKey(p) || IsDelta(p))
    ensures var after := Block(d, WORKS);
            && Warm(after) && after.queue == d.queue[1..] && after.pending == d.pending - 1
            && after.trace == d.trace + [Dequeued(at), Admitted(p, at), Fed(p, at)]
  {
    BlockSplits(d, p, at, WORKS);
    var idle := Dequeue(d).(current := None);
    PrepareWarm(idle, p.Unit().value.parameterSets);
    AdmitTrace(idle, p, at);
  }

  lemma PrepareWarm(idle: Decoder, sets: seq<AnnexB.Unit>)
    requires idle.codec == Some(H264) && (sets == [] || sets == idle.parameterSets)
    ensures Prepare(idle, sets, H264, WORKS) == idle
  {
  }

  lemma AdmitTrace(d: Decoder, p: Packet, at: nat)
    requires !d.awaiting && !d.skipping && d.session && d.format
    ensures Gate(d, p, at, WORKS) == d.(trace := d.trace + [Admitted(p, at)] + [Fed(p, at)])
  {
  }

  /** A cold decoder that gets a keyframe becomes warm, feeding it if a sample can be made. */
  lemma ColdBlock(d: Decoder, p: Packet, at: nat, pf: Platform)
    requires Cold(d) && IsKey(p) && d.queue != [] && d.queue[0] == DecodeTask(p, at)
    requires pf == WORKS.(makesSample := pf.makesSample)
    ensures var after := Block(d, pf);
            && Warm(after) && after.queue == d.queue[1..] && after.pending == d.pending - 1
            && after.trace == d.trace + [Dequeued(at)] + (if d.overflowed then [Armed] else []) + [Armed] + [Armed]
                              + [Disarmed(p, at)] + (if pf.makesSample then [Fed(p, at)] else [])
  {
    BlockSplits(d, p, at, pf);
    var idle := Dequeue(d).(current := None);
    assert idle.trace == d.trace + [Dequeued(at)] + if d.overflowed then [Armed] else [];
    PrepareCold(idle, pf);
    DisarmTrace(Prepare(idle, [SPS, PPS], H264, pf), p, at, pf);
  }

  lemma PrepareCold(idle: Decoder, pf: Platform)
    requires !idle.session && idle.codec.None? && idle.parameterSets == [] && idle.awaiting
    requires pf.makesFormat && pf.createsSession
    ensures Prepare(idle, [SPS, PPS], H264, pf)
         == idle.(session := true, format := true, codec := Some(H264), parameterSets := [SPS, PPS],
                  trace := idle.trace + [Armed] + [Armed])
  {
    assert IsComplete([SPS, PPS], H264) by {
      assert SPS in [SPS, PPS] && PPS in [SPS, PPS];
    }
    hide IsComplete, Configure;
    var switched := idle.(format := false, codec := Some(H264), awaiting := true, trace := idle.trace + [Armed]);
    assert SwitchCodec(idle, H264) == switched;
    ConfigureCold(switched, [SPS, PPS], pf);
  }

  lemma ConfigureCold(d: Decoder, sets: seq<AnnexB.Unit>, pf: Platform)
    requires !d.session && d.awaiting && pf.makesFormat && pf.createsSession
    ensures Configure(d, sets, pf)
         == d.(session := true, format := true, parameterSets := sets, trace := d.trace + [Armed])
  {
  }

  lemma DisarmTrace(d: Decoder, p: Packet, at: nat, pf: Platform)
    requires d.awaiting && p.keyframe && d.session && d.format && pf.status == NoErr && !p.IsCleanRandomAccess()
    ensures Gate(d, p, at, pf)
         == d.(awaiting := false, skipping := false,
               trace := d.trace + [Disarmed(p, at)] + if pf.makesSample then [Fed(p, at)] else [])
  {
  }

  lemma RunMore(d: Decoder, actions: seq<Action>, a: Action)
    ensures Run(d, actions + [a]) == Step(Run(d, actions), a)
  {
    assert (actions + [a])[..|actions|] == actions;
  }

  /**
   When the sample buffer of the keyframe that ends a wait cannot be made, the
   first picture fed is the delta that follows it.
   */
  lemma DeltaFedFirst(key: Packet, delta: Packet) returns (actions: seq<Action>)
    requires IsKey(key) && IsDelta(delta)
    ensures Run(INITIAL, actions).trace ==
            [Armed, Submitted(key), Dequeued(1), Armed, Armed, Disarmed(key, 1),
             Submitted(delta), Dequeued(6), Admitted(delta, 6), Fed(delta, 6)]
  {
    var broken := WORKS.(makesSample := false);
    actions := [];
    actions := Then(actions, SubmitPacket(key));
    var d1 := Run(INITIAL, actions);
    ColdBlock(d1, key, 1, broken);
    actions := Then(actions, StartBlock);
    actions := Then(actions, FinishBlock(broken));
    var d2 := Run(INITIAL, actions);
    ColdTrace(d2.trace, key);
    SecondRuns(d2, delta);
    actions := Then(actions, SubmitPacket(delta));
    actions := Then(actions, StartBlock);
    actions := Then(actions, FinishBlock(WORKS));
    ListJoins(d2.trace, key, delta);
  }

  lemma ColdTrace(t: seq<Event>, key: Packet)
    requires t == [Armed] + [Submitted(key)] + [Dequeued(1)] + [] + [Armed] + [Armed] + [Disarmed(key, 1)] + []
    ensures t == [Armed, Submitted(key), Dequeued(1), Armed, Armed, Disarmed(key, 1)] && |t| == 6
  {
  }

  lemma ListJoins(t: seq<Event>, key: Packet, delta: Packet)
    requires t == [Armed, Submitted(key), Dequeued(1), Armed, Armed, Disarmed(key, 1)]
    ensures t + [Submitted(delta), Dequeued(6), Admitted(delta, 6), Fed(delta, 6)] ==
            [Armed, Submitted(key), Dequeued(1), Armed, Armed, Disarmed(key, 1),
             Submitted(delta), Dequeued(6), Admitted(delta, 6), Fed(delta, 6)]
  {
  }

  lemma SecondRuns(d: Decoder, delta: Packet)
    requires Warm(d) && d.queue == [] && d.pending == 0 && IsDelta(delta)
    ensures Block(Submit(d, delta), WORKS).trace
         == d.trace + [Submitted(delta), Dequeued(|d.trace|), Admitted(delta, |d.trace|), Fed(delta, |d.trace|)]
  {
    WarmBlock(Submit(d, delta), delta, |d.trace|);
  }

  /** One more action in a run from the start. */
  lemma Then(actions: seq<Action>, a: Action) returns (more: seq<Action>)
    ensures more == actions + [a] && Run(INITIAL, more) == Step(Run(INITIAL, actions), a)
  {
    more := actions + [a];
    RunMore(INITIAL, actions, a);
  }

  /** Only keyframes submitted before position `i` have ended a wait. */
  ghost predicate OnlyEarlyDisarms(t: seq<Event>, i: nat) {
    forall k :: 0 <= k < |t| && t[k].Disarmed? ==> t[k].at < i
  }

  /** `n` more submissions of `p` while there is room. */
  lemma {:induction false} SubmitMany(actions: seq<Action>, p: Packet, n: nat) returns (more: seq<Action>)
    requires var d := Run(INITIAL, actions); 0 <= d.pending && d.pending + n <= MAX_PENDING && |d.trace| == 1 + d.pending
    requires var d := Run(INITIAL, actions);
             && d == INITIAL.(pending := d.pending, queue := d.queue, trace := d.trace) && d.trace[0] == Armed
             && |d.queue| == d.pending && OnlyEarlyDisarms(d.trace, 0)
             && forall j :: 0 <= j < |d.queue| ==> d.queue[j] == DecodeTask(p, 1 + j)
    ensures var d, after := Run(INITIAL, actions), Run(INITIAL, more);
            && after == INITIAL.(pending := d.pending + n, queue := after.queue, trace := after.trace)
            && |after.queue| == after.pending && |after.trace| == 1 + after.pending
            && OnlyEarlyDisarms(after.trace, 0)
            && forall j :: 0 <= j < |after.queue| ==> after.queue[j] == DecodeTask(p, 1 + j)
    decreases n
  {
    hide Run;
    if n == 0 {
      more := actions;
    } else {
      more := Then(actions, SubmitPacket(p));
      more := SubmitMany(more, p, n - 1);
    }
  }

  ghost predicate Feedable(queue: seq<Task>) {
    forall t :: t in queue ==> t.DecodeTask? && (IsKey(t.packet) || IsDelta(t.packet))
  }

  /** A warm decoder works off `n` packets without another wait ending. */
  lemma {:induction false} WarmBlocks(actions: seq<Action>, n: nat, i: nat) returns (more: seq<Action>)
    requires var d := Run(INITIAL, actions);
             && Warm(d) && n <= |d.queue| && OnlyEarlyDisarms(d.trace, i)
             && Feedable(d.queue)
    ensures var d, after := Run(INITIAL, actions), Run(INITIAL, more);
            && Warm(after) && after.queue == d.queue[n..] && OnlyEarlyDisarms(after.trace, i)
            && d.trace <= after.trace
    decreases n
  {
    if n == 0 {
      more := actions;
    } else {
      var d := Run(INITIAL, actions);
      assert d.queue[0] in d.queue;
      WarmBlock(d, d.queue[0].packet, d.queue[0].at);
      more := Then(actions, StartBlock);
      more := Then(more, FinishBlock(WORKS));
      more := WarmBlocks(more, n - 1, i);
    }
  }

  /** A queue full of keyframes, and one packet dropped at `i`. */
  ghost predicate Overflowed(d: Decoder, key: Packet, i: nat) {
    && Cold(d) && d.overflowed && d.pending == MAX_PENDING && |d.queue| == MAX_PENDING
    && (forall j :: 0 <= j < |d.queue| ==> d.queue[j] == DecodeTask(key, 1 + j))
    && |d.trace| == i + 1 && MAX_PENDING < i && d.trace[i] == Dropped && OnlyEarlyDisarms(d.trace, 0)
  }

  lemma FillAndDrop(key: Packet, extra: Packet) returns (actions: seq<Action>, i: nat)
    ensures Overflowed(Run(INITIAL, actions), key, i)
  {
    actions := SubmitMany([], key, MAX_PENDING);
    i := |Run(INITIAL, actions).trace|;
    actions := Then(actions, SubmitPacket(extra));
  }

  /** After the resynchronisation: warm, with the delta last in a full queue. */
  ghost predicate Resynced(d: Decoder, key: Packet, delta: Packet, i: nat, at: nat) {
    && Warm(d) && |d.queue| == MAX_PENDING && i < at && i < |d.trace| && d.trace[i] == Dropped
    && OnlyEarlyDisarms(d.trace, i)
    && (forall j :: 0 <= j < MAX_PENDING - 1 ==> d.queue[j] == DecodeTask(key, 2 + j))
    && d.queue[MAX_PENDING - 1] == DecodeTask(delta, at)
  }

  lemma ResyncState(d: Decoder, warm: Decoder, key: Packet, delta: Packet, i: nat)
    requires Overflowed(d, key, i) && Warm(warm)
    requires warm.queue == d.queue[1..] && warm.pending == d.pending - 1
    requires warm.trace == d.trace + [Dequeued(1)] + [Armed] + [Armed] + [Armed] + [Disarmed(key, 1)] + [Fed(key, 1)]
    ensures Resynced(Submit(warm, delta), key, delta, i, |warm.trace|)
  {
    var d' := Submit(warm, delta);
    assert d'.queue == d.queue[1..] + [DecodeTask(delta, |warm.trace|)];
    assert warm.trace[i] == d.trace[i];
    assert forall k :: 0 <= k < |d.trace| ==> d'.trace[k] == d.trace[k];
  }

  /** The first queued keyframe ends the wait, and there is room for one more packet. */
  lemma Resync(actions: seq<Action>, key: Packet, delta: Packet, i: nat) returns (more: seq<Action>, at: nat)
    requires IsKey(key) && Overflowed(Run(INITIAL, actions), key, i)
    ensures Resynced(Run(INITIAL, more), key, delta, i, at)
  {
    var d := Run(INITIAL, actions);
    ColdBlock(d, key, 1, WORKS);
    var cold := Then(actions, StartBlock);
    cold := Then(cold, FinishBlock(WORKS));
    var warm := Run(INITIAL, cold);
    ResyncState(d, warm, key, delta, i);
    at := |warm.trace|;
    more := Then(cold, SubmitPacket(delta));
  }

  /** The last packet of a resynchronised queue is fed. */
  lemma DrainAll(actions: seq<Action>, key: Packet, delta: Packet, i: nat, at: nat) returns (more: seq<Action>)
    requires IsKey(key) && IsDelta(delta) && Resynced(Run(INITIAL, actions), key, delta, i, at)
    ensures var t := Run(INITIAL, more).trace;
            && i + 1 < |t| && t[i] == Dropped && OnlyEarlyDisarms(t, i) && t[|t| - 1] == Fed(delta, at)
  {
    var d := Run(INITIAL, actions);
    ResyncedFeedable(d, key, delta, i, at);
    more := WarmBlocks(actions, MAX_PENDING - 1, i);
    more := FeedLast(more, delta, i, at);
  }

  lemma ResyncedFeedable(d: Decoder, key: Packet, delta: Packet, i: nat, at: nat)
    requires IsKey(key) && IsDelta(delta) && Resynced(d, key, delta, i, at)
    ensures Feedable(d.queue) && d.queue[MAX_PENDING - 1..] == [DecodeTask(delta, at)]
  {
    hide IsKey, IsDelta, OnlyEarlyDisarms;
  }

  lemma FeedLast(actions: seq<Action>, delta: Packet, i: nat, at: nat) returns (more: seq<Action>)
    requires var d := Run(INITIAL, actions);
             && Warm(d) && d.queue == [DecodeTask(delta, at)] && IsDelta(delta)
             && i < |d.trace| && d.trace[i] == Dropped && OnlyEarlyDisarms(d.trace, i)
    ensures var t := Run(INITIAL, more).trace;
            && i + 1 < |t| && t[i] == Dropped && OnlyEarlyDisarms(t, i) && t[|t| - 1] == Fed(delta, at)
  {
    var last := Run(INITIAL, actions);
    WarmBlock(last, delta, at);
    more := Then(actions, StartBlock);
    more := Then(more, FinishBlock(WORKS));
    LastFed(last.trace, Run(INITIAL, more).trace, delta, i, at);
  }

  lemma LastFed(t: seq<Event>, u: seq<Event>, delta: Packet, i: nat, at: nat)
    requires i < |t| && t[i] == Dropped && OnlyEarlyDisarms(t, i)
    requires u == t + [Dequeued(at), Admitted(delta, at), Fed(delta, at)]
    ensures i + 1 < |u| && u[i] == Dropped && OnlyEarlyDisarms(u, i) && u[|u| - 1] == Fed(delta, at)
  {
    forall k | 0 <= k < |u| && u[k].Disarmed? ensures u[k].at < i {
      assert u[k] == t[k];
    }
  }

  /**
   The keyframe that clears an overflow may have been submitted before it: the
   flag is consumed by packets already queued. Here a delta submitted after a
   drop is fed although every wait was ended by a keyframe submitted before it.
   */
  lemma ClearedByEarlierKeyframe(key: Packet, delta: Packet) returns (actions: seq<Action>, i: nat, at: nat)
    requires IsKey(key) && IsDelta(delta)
    ensures var t := Run(INITIAL, actions).trace;
            && i + 1 < |t| && t[i] == Dropped && i < at && t[|t| - 1] == Fed(delta, at) && OnlyEarlyDisarms(t, i)
  {
    actions, i := FillAndDrop(key, delta);
    actions, at := Resync(actions, key, delta, i);
    actions := DrainAll(actions, key, delta, i, at);
  }
}
