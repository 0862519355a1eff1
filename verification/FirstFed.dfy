/**
 Whether a keyframe is the first picture fed after a wait
 (ios/Termland/VideoDecoder.swift).

 The gate is opened before the sample buffer of the keyframe is made. When that
 buffer cannot be made the gate is open all the same, and what is fed next
 depends on the overflow flag and the queue. The exact condition is given for
 every state of the decoder, over every continuation.
 */
module FirstFed {
  import opened Prelude
  import opened AnnexB
  import opened KeyframeGate
  import opened Resync

  // ----- The first picture fed after a wait -----

  ghost predicate NoneFed(t: seq<Event>, from: nat, to: nat) {
    forall j :: from <= j < to && j < |t| ==> !t[j].Fed?
  }

  /** If anything is fed from position `from` on, a keyframe is fed first. */
  ghost predicate KeyframeFedFirst(t: seq<Event>, from: nat) {
    forall f :: from <= f < |t| && t[f].Fed? && NoneFed(t, from, f) ==> t[f].packet.keyframe
  }

  lemma {:induction false} RunGrows(d: Decoder, actions: seq<Action>)
    ensures d.trace <= Run(d, actions).trace
  {
    hide Step;
    if |actions| > 0 {
      var front := actions[..|actions| - 1];
      RunGrows(d, front);
      StepGrows(Run(d, front), actions[|actions| - 1]);
    }
  }

  /** A block that ends a wait, and can make its sample buffer, feeds its picture. */
  lemma EndsWaitFeeds(d: Decoder, pf: Platform) returns (k: nat)
    requires EndsWait(d, pf) && pf.makesSample && (d.session ==> d.format)
    ensures |d.trace| <= k < |Decode(d, pf).trace|
    ensures Decode(d, pf).trace[k] == Fed(d.current.value.packet, d.current.value.at)
  {
    hide Reshaped, Prepare, IsComplete, Feed;
    var p, at := d.current.value.packet, d.current.value.at;
    var idle, sets := d.(current := None), p.Unit().value.parameterSets;
    var ready := Prepare(idle, sets, p.codec.value, pf);
    PreparedEvents(idle, sets, p.codec.value, pf);
    PreparedFormat(idle, sets, p.codec.value, pf);
    var disarmed := Log(ready.(awaiting := false, skipping := p.IsCleanRandomAccess()), Disarmed(p, at));
    FeedLogs(disarmed, p, at, pf);
    k := |disarmed.trace|;
    assert (disarmed.trace + [Fed(p, at)])[k] == Fed(p, at);
  }

  lemma SampleFeedsKeyframe(d: Decoder, pf: Platform, actions: seq<Action>)
    requires Sound(d) && EndsWait(d, pf) && pf.makesSample
    ensures KeyframeFedFirst(Run(Decode(d, pf), actions).trace, |d.trace|)
  {
    hide Run, Decode, Sound, EndsWait;
    SoundFormat(d);
    EndsOnKeyframe(d, pf);
    DecodedEvents(d, pf);
    RunGrows(Decode(d, pf), actions);
    var k := EndsWaitFeeds(d, pf);
    var t := Run(Decode(d, pf), actions).trace;
    forall f | |d.trace| <= f < |t| && t[f].Fed? && NoneFed(t, |d.trace|, f)
      ensures t[f].packet.keyframe
    {
      assert t[k].Fed? && f <= k;
      assert t[f] == Decode(d, pf).trace[f];
    }
  }

  lemma EndsOnKeyframe(d: Decoder, pf: Platform)
    requires EndsWait(d, pf)
    ensures d.current.Some? && d.current.value.packet.keyframe && !d.released
  {
  }

  // ----- Without a sample buffer, a delta can come first -----

  const QUIET := WORKS.(makesSample := false)

  /** `u` goes on from `t` without anything fed. */
  ghost predicate Quietly(t: seq<Event>, u: seq<Event>) {
    t <= u && NoneFed(u, |t|, |u|)
  }

  lemma QuietlyOn(t: seq<Event>, u: seq<Event>, w: seq<Event>)
    requires Quietly(t, u) && Quietly(u, w)
    ensures Quietly(t, w)
  {
    assert forall j :: 0 <= j < |u| ==> w[j] == u[j];
  }

  ghost predicate Idle(d: Decoder) {
    Sound(d) && !d.released && d.current.None?
  }

  predicate NoRelease(queue: seq<Task>) {
    forall t :: t in queue ==> !t.ReleaseTask?
  }

  lemma QuietBlock(d: Decoder, pf: Platform)
    requires d.current.Some? && !pf.makesSample
    ensures var after := Decode(d, pf);
            && Quietly(d.trace, after.trace) && after.current.None? && after.queue == d.queue
            && after.released == d.released
  {
    hide Decode, Look, EndsWait;
    DecodedEvents(d, pf);
    DecodedRest(d, pf);
    DecodedLook(d, pf);
    LookReleased(d);
    LookReleased(Decode(d, pf));
  }

  lemma LookReleased(d: Decoder)
    ensures Look(d).released == d.released && LookAhead(d).released == d.released
  {
    hide Reshaped, IsComplete;
  }

  lemma QuietTask(d: Decoder)
    requires Idle(d) && d.queue != [] && !d.queue[0].ReleaseTask?
    ensures var after := Run(d, Working(d.queue[0], QUIET));
            Idle(after) && after.queue == d.queue[1..] && Quietly(d.trace, after.trace)
  {
    hide Sound, Run, Decode, Dequeue;
    var t, y := d.queue[0], Dequeue(d);
    SoundOn(d, Working(t, QUIET));
    WorkingRun(d, t, QUIET);
    DequeuedLook(d);
    DequeuedEvents(d);
    if t.DecodeTask? {
      QuietBlock(y, QUIET);
      QuietlyOn(d.trace, y.trace, Decode(y, QUIET).trace);
    }
  }

  /** The queue worked off while no sample buffer can be made. */
  lemma {:induction false} DrainQuietly(d: Decoder) returns (actions: seq<Action>)
    requires Idle(d) && NoRelease(d.queue)
    ensures var after := Run(d, actions);
            Idle(after) && after.queue == [] && Quietly(d.trace, after.trace)
    decreases |d.queue|
  {
    hide Idle, Run, Working;
    if |d.queue| == 0 {
      actions := [];
      RunNone(d);
    } else {
      assert d.queue[0] in d.queue;
      var first := Working(d.queue[0], QUIET);
      QuietTask(d);
      actions := DrainQuietly(Run(d, first));
      RunConcat(d, first, actions);
      QuietlyOn(d.trace, Run(d, first).trace, Run(d, first + actions).trace);
      actions := first + actions;
    }
  }

  /** A keyframe of one unit, with these parameter sets before it. */
  ghost predicate IsKeyWith(p: Packet, sets: seq<AnnexB.Unit>) {
    && p.codec == Some(H264) && p.keyframe && p.HasPicture() && !p.IsRasl() && !p.IsCleanRandomAccess()
    && p.Unit().value.parameterSets == sets && IsComplete(sets, H264)
  }

  /** Another sequence parameter set than `SPS`. */
  const OTHER_SPS: AnnexB.Unit := [0x67, 1]

  /** Whatever parameter sets are known, some keyframe brings others. */
  lemma FreshKey(known: seq<AnnexB.Unit>) returns (key: Packet, sets: seq<AnnexB.Unit>)
    ensures IsKeyWith(key, sets) && sets != known && sets != []
  {
    hide IsKeyWith, Serialize, Units;
    var sps := if known == [SPS, PPS] then OTHER_SPS else SPS;
    sets := [sps, PPS];
    assert sets[0] == sps;
    assert SPS != OTHER_SPS by { assert |OTHER_SPS| == 2; }
    key := Packet(Some(H264), true, Serialize([sps, PPS, IDR], [0, 0, 0], 0));
    SplitSerialized([sps, PPS, IDR], [0, 0, 0], 0);
    KeyIsKeyWith(key, sps);
  }

  lemma KeyIsKeyWith(p: Packet, sps: AnnexB.Unit)
    requires p.codec == Some(H264) && p.keyframe && Units(p.data) == [sps, PPS, IDR]
    requires sps == SPS || sps == OTHER_SPS
    ensures IsKeyWith(p, [sps, PPS])
  {
    ThreeUnits(p.data, sps, PPS, IDR);
    assert sps in [sps, PPS] && PPS in [sps, PPS];
    assert |Prefixed([IDR])| >= 4;
    hide Reshaped, Units;
  }

  /** Pictures are let through, and there is a session to feed them to. */
  ghost predicate Open(d: Decoder) {
    d.session && d.format && !d.awaiting && !d.skipping && !d.overflowed && d.codec == Some(H264)
  }

  /** New parameter sets bring a session up. */
  lemma PreparedFresh(d: Decoder, sets: seq<AnnexB.Unit>, pf: Platform)
    requires sets != [] && IsComplete(sets, H264) && sets != d.parameterSets
    requires pf.makesFormat && pf.acceptsFormat && pf.createsSession
    ensures var after := Prepare(d, sets, H264, pf);
            && after.session && after.format && after.codec == Some(H264)
            && after.released == d.released && after.overflowed == d.overflowed
  {
    hide IsComplete, Configure;
    ConfiguredFresh(SwitchCodec(d, H264), sets, pf);
  }

  lemma ConfiguredFresh(d: Decoder, sets: seq<AnnexB.Unit>, pf: Platform)
    requires pf.makesFormat && pf.acceptsFormat && pf.createsSession
    ensures var after := Configure(d, sets, pf);
            && after.session && after.format && after.codec == d.codec
            && after.released == d.released && after.overflowed == d.overflowed
  {
    if d.session {
      assert Configure(d, sets, pf).session;
    } else {
      assert Configure(d, sets, pf).session;
    }
  }

  lemma QuietGate(d: Decoder, p: Packet, at: nat, pf: Platform)
    requires d.session && p.keyframe && !p.IsRasl() && !p.IsCleanRandomAccess() && !pf.makesSample
    ensures var after := Gate(d, p, at, pf);
            after == d.(awaiting := false, skipping := false, trace := after.trace)
  {
    hide Reshaped;
  }

  /** One packet submitted and worked off. */
  function One(p: Packet, pf: Platform): seq<Action> {
    [SubmitPacket(p), StartBlock, FinishBlock(pf)]
  }

  lemma SubmittedFirst(d: Decoder, p: Packet)
    requires Idle(d) && d.queue == []
    ensures Submit(d, p) == Log(d.(pending := 1, queue := [DecodeTask(p, |d.trace|)]), Submitted(p))
    ensures d.current.None?
  {
    assert d.pending == 0;
    assert [] + [DecodeTask(p, |d.trace|)] == [DecodeTask(p, |d.trace|)];
  }

  lemma OneRun(d: Decoder, p: Packet, pf: Platform)
    requires Idle(d) && d.queue == []
    ensures var y := Run(d, One(p, pf)[..2]);
            && y.current == Some(Running(p, |d.trace|, |d.trace| + 1)) && y.queue == [] && Look(y) == Look(d)
            && !y.overflowed && y.awaiting == (d.awaiting || d.overflowed)
            && y == Start(Log(d.(pending := 1), Submitted(p)), p, |d.trace|)
            && y.trace == d.trace + [Submitted(p)] + [Dequeued(|d.trace|)] + (if d.overflowed then [Armed] else [])
            && Run(d, One(p, pf)) == Decode(y, pf)
  {
    hide Reshaped, Decode, Start, Dequeue, Submit;
    var s := Submit(d, p);
    SubmittedFirst(d, p);
    DequeuedPacket(s, p, |d.trace|);
    StartedLook(s.(queue := []), p, |d.trace|);
    hide Idle, Start;
    assert Look(s.(queue := [])) == Look(d);
    RunOne(d, SubmitPacket(p));
    RunMore(d, [SubmitPacket(p)], StartBlock);
    assert One(p, pf)[..2] == [SubmitPacket(p)] + [StartBlock];
    RunMore(d, One(p, pf)[..2], FinishBlock(pf));
    assert One(p, pf) == One(p, pf)[..2] + [FinishBlock(pf)];
  }

  /** A keyframe with new parameter sets opens the gate, although no sample buffer can be made of it. */
  lemma OpenQuietly(d: Decoder) returns (actions: seq<Action>)
    requires Idle(d) && d.queue == []
    ensures var after := Run(d, actions);
            Idle(after) && after.queue == [] && Open(after) && Quietly(d.trace, after.trace)
  {
    hide Reshaped, Run, Sound, IsComplete, Prepare, Gate;
    var key, sets := FreshKey(d.parameterSets);
    actions := One(key, QUIET);
    SoundOn(d, actions);
    OneRun(d, key, QUIET);
    var y := Run(d, actions[..2]);
    QuietBlock(y, QUIET);
    QuietlyOn(d.trace, y.trace, Decode(y, QUIET).trace);
    var idle := y.(current := None);
    PreparedFresh(idle, sets, QUIET);
    QuietGate(Prepare(idle, sets, H264, QUIET), key, |d.trace|, QUIET);
  }

  /** An open gate feeds a delta. */
  lemma OpenFeeds(d: Decoder, delta: Packet)
    requires Idle(d) && d.queue == [] && Open(d) && IsDelta(delta)
    ensures Run(d, One(delta, WORKS)).trace
         == d.trace + [Submitted(delta)] + [Dequeued(|d.trace|)] + [Admitted(delta, |d.trace|)] + [Fed(delta, |d.trace|)]
  {
    hide Reshaped, Run, Sound, IsComplete, Prepare, Gate;
    OneRun(d, delta, WORKS);
    var y := Run(d, One(delta, WORKS)[..2]);
    var idle := y.(current := None);
    PrepareWarm(idle, []);
    AdmitTrace(idle, delta, |d.trace|);
  }

  lemma DeltaLast(t: seq<Event>, u: seq<Event>, v: seq<Event>, delta: Packet, at: nat, from: nat)
    requires Quietly(t, u) && from <= |t| && NoneFed(t, from, |t|) && !delta.keyframe
    requires v == u + [Submitted(delta)] + [Dequeued(at)] + [Admitted(delta, at)] + [Fed(delta, at)]
    ensures !KeyframeFedFirst(v, from)
  {
    var f := |u| + 3;
    assert v[f] == Fed(delta, at);
    forall j | from <= j < f ensures !v[j].Fed? {
      assert j < |u| ==> v[j] == u[j];
      assert j < |t| ==> u[j] == t[j];
    }
    assert NoneFed(v, from, f);
  }

  /** An idle decoder that will not be released can be made to feed a delta next. */
  lemma DeltaCanComeFirst(d: Decoder, from: nat) returns (actions: seq<Action>)
    requires Idle(d) && NoRelease(d.queue) && from <= |d.trace| && NoneFed(d.trace, from, |d.trace|)
    ensures !KeyframeFedFirst(Run(d, actions).trace, from)
  {
    hide Run, Idle, Open, NoRelease, IsDelta, One, KeyframeFedFirst;
    var _, delta := KeyAndDelta();
    DeltaIsNoKey(delta);
    var drained := DrainQuietly(d);
    var d1 := Run(d, drained);
    var opening := OpenQuietly(d1);
    var d2 := Run(d1, opening);
    QuietlyOn(d.trace, d1.trace, d2.trace);
    OpenFeeds(d2, delta);
    RunConcat(d, drained, opening);
    RunConcat(d, drained + opening, One(delta, WORKS));
    actions := drained + opening + One(delta, WORKS);
    DeltaLast(d.trace, d2.trace, Run(d, actions).trace, delta, |d2.trace|, from);
  }

  lemma DeltaIsNoKey(p: Packet)
    requires IsDelta(p)
    ensures !p.keyframe
  {
  }

  /**
   A block ends a wait, and no release is queued behind it. Where later sample
   buffers may fail too, nothing but this block's own can help: every
   continuation feeds a keyframe first exactly when the block can make it.
   */
  lemma KeyframeFirstWhateverFails(d: Decoder, pf: Platform)
    requires Sound(d) && EndsWait(d, pf) && NoRelease(d.queue)
    ensures (forall actions :: KeyframeFedFirst(Run(Step(d, FinishBlock(pf)), actions).trace, |d.trace|)) <==>
            pf.makesSample
  {
    hide Sound, EndsWait, NoRelease, KeyframeFedFirst, Run, Decode;
    EndsOnKeyframe(d, pf);
    var after := Decode(d, pf);
    if pf.makesSample {
      forall actions ensures KeyframeFedFirst(Run(after, actions).trace, |d.trace|) {
        SampleFeedsKeyframe(d, pf, actions);
      }
    } else {
      StepSound(d, FinishBlock(pf));
      QuietBlock(d, pf);
      var actions := DeltaCanComeFirst(after, |d.trace|);
    }
  }

  /**
   What follows a wait that ended without a sample buffer: the next picture in
   the queue that brings no parameter sets is fed, whatever it is, unless the
   wait ended at a CRA or BLA picture and this one is RASL.
   */
  lemma FailureFeedsNext(d: Decoder, pf: Platform, p: Packet, at: nat)
    requires Sound(d) && EndsWait(d, pf) && !pf.makesSample && !d.overflowed
    requires d.queue != [] && d.queue[0] == DecodeTask(p, at) && p.HasPicture()
    requires p.codec == d.current.value.packet.codec && p.Unit().value.parameterSets == []
    ensures var failed, key := Step(d, FinishBlock(pf)), d.current.value.packet;
            Block(failed, WORKS).trace ==
            failed.trace + [Dequeued(at)]
            + if key.IsCleanRandomAccess() && p.IsRasl() then [Skipped(p, at)] else [Admitted(p, at)] + [Fed(p, at)]
  {
    hide Reshaped, Prepare, Gate, IsComplete, Dequeue, Start, Decode, Sound, EndsWait;
    EndsOnKeyframe(d, pf);
    var failed := Decode(d, pf);
    SoundFormat(d);
    FailedState(d, pf);
    BlockSplits(failed, p, at, WORKS);
    DequeuedPacket(failed, p, at);
    StartedFields(failed.(queue := failed.queue[1..]), p, at);
    var idle := Dequeue(failed).(current := None);
    PreparedBare(idle, p.codec.value, WORKS);
    GateOpened(idle, p, at);
  }

  lemma StartedFields(d: Decoder, p: Packet, at: nat)
    requires !d.overflowed
    ensures Start(d, p, at) == d.(pending := d.pending - 1, current := Some(Running(p, at, |d.trace|)),
                                  trace := d.trace + [Dequeued(at)])
  {
  }

  lemma PreparedBare(d: Decoder, codec: NALCodec, pf: Platform)
    requires d.codec == Some(codec)
    ensures Prepare(d, [], codec, pf) == d
  {
  }

  lemma GateOpened(d: Decoder, p: Packet, at: nat)
    requires !d.awaiting && d.session && d.format
    ensures Gate(d, p, at, WORKS).trace ==
            d.trace + if d.skipping && p.IsRasl() then [Skipped(p, at)] else [Admitted(p, at)] + [Fed(p, at)]
  {
    hide Reshaped;
  }

  /** The gate is open after a failed resynchronisation. */
  lemma FailedState(d: Decoder, pf: Platform)
    requires EndsWait(d, pf) && !pf.makesSample && (d.session ==> d.format)
    ensures var after, key := Decode(d, pf), d.current.value.packet;
            && after.session && after.format && !after.awaiting && after.codec == key.codec
            && after.skipping == key.IsCleanRandomAccess() && !after.released && after.overflowed == d.overflowed
            && after.current.None? && after.queue == d.queue
  {
    hide Reshaped, Prepare, IsComplete;
    var p, at := d.current.value.packet, d.current.value.at;
    var idle, sets := d.(current := None), p.Unit().value.parameterSets;
    PreparedFormat(idle, sets, p.codec.value, pf);
    PreparedRest(idle, sets, p.codec.value, pf);
    PreparedLook(idle, p, pf);
    PreparedCodec(idle, sets, p.codec.value, pf);
  }

  lemma PreparedCodec(d: Decoder, sets: seq<AnnexB.Unit>, codec: NALCodec, pf: Platform)
    ensures Prepare(d, sets, codec, pf).codec == Some(codec)
  {
    hide IsComplete, Configure;
    ConfiguredLook(SwitchCodec(d, codec), sets, pf);
  }

  // ----- When later sample buffers can be made -----

  /** Every block of the continuation can make its sample buffer; the other calls may go any way. */
  ghost predicate Samples(actions: seq<Action>) {
    forall a :: a in actions && a.FinishBlock? ==> a.platform.makesSample
  }

  ghost predicate AllWorks(actions: seq<Action>) {
    forall a :: a in actions && a.FinishBlock? ==> a.platform == WORKS
  }

  /** What a task does to a decoder that lets pictures through. */
  datatype Fate =
    | Passes     // nothing: the next task decides
    | Guards     // a keyframe is fed next, or nothing but after one
    | Exposes    // another picture is fed

  function FateOf(codec: NALCodec, skipping: bool, t: Task): Fate {
    match t
    case RearmTask => Guards
    case ReleaseTask => Guards
    case DecodeTask(p, _) =>
      if p.Unit().None? then Passes
      else if p.codec != Some(codec) then Guards
      else if !p.HasPicture() || (skipping && p.IsRasl()) then Passes
      else if p.keyframe then Guards
      else Exposes
  }

  /** The first task that does not pass is one that guards. */
  predicate Guarded(codec: NALCodec, skipping: bool, queue: seq<Task>)
    decreases |queue|
  {
    |queue| > 0 &&
    match FateOf(codec, skipping, queue[0])
    case Passes => Guarded(codec, skipping, queue[1..])
    case Guards => true
    case Exposes => false
  }

  lemma {:induction false} GuardedAt(codec: NALCodec, skipping: bool, queue: seq<Task>)
    ensures Guarded(codec, skipping, queue) <==>
            exists i :: 0 <= i < |queue| && FateOf(codec, skipping, queue[i]) == Guards
                        && forall j :: 0 <= j < i ==> FateOf(codec, skipping, queue[j]) == Passes
    decreases |queue|
  {
    hide FateOf;
    if |queue| > 0 && FateOf(codec, skipping, queue[0]) == Passes {
      var rest := queue[1..];
      GuardedAt(codec, skipping, rest);
      if i :| 0 <= i < |rest| && FateOf(codec, skipping, rest[i]) == Guards
              && forall j :: 0 <= j < i ==> FateOf(codec, skipping, rest[j]) == Passes {
        assert FateOf(codec, skipping, queue[i + 1]) == Guards;
        assert forall j :: 0 < j < i + 1 ==> queue[j] == rest[j - 1];
      }
      if i :| 0 <= i < |queue| && FateOf(codec, skipping, queue[i]) == Guards
              && forall j :: 0 <= j < i ==> FateOf(codec, skipping, queue[j]) == Passes {
        assert i > 0 && rest[i - 1] == queue[i];
        assert forall j :: 0 <= j < i - 1 ==> rest[j] == queue[j + 1];
      }
    }
  }

  /**
   Nothing but a keyframe can be fed next: the decoder is released or waiting, or
   the running block and after it the overflow flag or the queue see to it.
   */
  predicate Sheltered(d: Decoder) {
    || d.released || d.awaiting
    || (d.codec.Some? &&
        match FateOfCurrent(d)
        case Passes => d.overflowed || Guarded(d.codec.value, d.skipping, d.queue)
        case Guards => true
        case Exposes => false)
  }

  function FateOfCurrent(d: Decoder): Fate
    requires d.codec.Some?
  {
    if d.current.None? then Passes
    else FateOf(d.codec.value, d.skipping, DecodeTask(d.current.value.packet, d.current.value.at))
  }

  /** Pictures are let through only while there is a session. */
  predicate Live(d: Decoder) {
    d.awaiting || d.released || (d.session && d.codec.Some?)
  }

  // ----- A session for whatever is let through -----

  lemma FeedLive(d: Decoder, p: Packet, at: nat, pf: Platform)
    requires Live(d)
    ensures Live(Feed(d, p, at, pf))
  {
    if d.session && d.format && pf.makesSample {
      match pf.status
      case NoErr =>
      case InvalidSession =>
      case OtherError =>
    }
  }

  lemma GateLive(d: Decoder, p: Packet, at: nat, pf: Platform)
    requires Live(d) && d.codec.Some?
    ensures Live(Gate(d, p, at, pf))
  {
    hide Reshaped, Feed;
    if d.awaiting {
      if p.keyframe && d.session {
        FeedLive(Log(d.(awaiting := false, skipping := p.IsCleanRandomAccess()), Disarmed(p, at)), p, at, pf);
      }
    } else if !(d.skipping && p.IsRasl()) {
      FeedLive(Log(d.(skipping := false), Admitted(p, at)), p, at, pf);
    }
  }

  /** An open gate stays as it is while its codec goes on, or is armed; working calls never arm it. */
  lemma PreparedOpen(d: Decoder, sets: seq<AnnexB.Unit>, codec: NALCodec, pf: Platform)
    requires !d.awaiting && d.session && d.format
    ensures var ready := Prepare(d, sets, codec, pf);
            && (ready.awaiting || (ready == d.(parameterSets := ready.parameterSets) && d.codec == Some(codec)))
            && (pf == WORKS && d.codec == Some(codec) ==> !ready.awaiting)
  {
    hide IsComplete, Configure;
    if d.codec == Some(codec) {
      ConfiguredOpen(d, sets, pf);
    } else {
      ConfiguredAwaiting(SwitchCodec(d, codec), sets, pf);
    }
  }

  lemma ConfiguredOpen(d: Decoder, sets: seq<AnnexB.Unit>, pf: Platform)
    requires !d.awaiting && d.session && d.format
    ensures var after := Configure(d, sets, pf);
            if pf.makesFormat && pf.acceptsFormat then after == d.(parameterSets := sets) else after.awaiting
  {
    if !pf.makesFormat {
    } else if pf.acceptsFormat {
    } else {
      assert Configure(d, sets, pf).awaiting;
    }
  }

  lemma PreparedLive(d: Decoder, sets: seq<AnnexB.Unit>, codec: NALCodec, pf: Platform)
    requires Live(d) && !d.released && (d.session ==> d.format)
    ensures Live(Prepare(d, sets, codec, pf))
  {
    hide Prepare;
    if d.awaiting {
      PreparedAwaiting(d, sets, codec, pf);
    } else {
      PreparedOpen(d, sets, codec, pf);
    }
  }

  lemma DecodedLive(d: Decoder, pf: Platform)
    requires Live(d) && d.current.Some? && (d.session ==> d.format)
    ensures Live(Decode(d, pf))
  {
    hide Reshaped, Prepare, Gate;
    var p := d.current.value.packet;
    if !d.released && p.Unit().Some? {
      var idle, sets := d.(current := None), p.Unit().value.parameterSets;
      PreparedLive(idle, sets, p.codec.value, pf);
      PreparedCodec(idle, sets, p.codec.value, pf);
      GateLive(Prepare(idle, sets, p.codec.value, pf), p, d.current.value.at, pf);
    }
  }

  lemma DequeuedLive(d: Decoder)
    requires Live(d) && d.queue != [] && d.current.None?
    ensures Live(Dequeue(d))
  {
    hide Dequeue, Start;
    match d.queue[0]
    case RearmTask => DequeuedRearm(d);
    case ReleaseTask => DequeuedRelease(d);
    case DecodeTask(p, at) =>
      DequeuedPacket(d, p, at);
      StartedGate(d.(queue := d.queue[1..]), p, at);
  }

  lemma StartedGate(d: Decoder, p: Packet, at: nat)
    ensures var after := Start(d, p, at);
            after == d.(pending := after.pending, overflowed := false, current := Some(Running(p, at, |d.trace|)),
                        awaiting := d.awaiting || d.overflowed, trace := after.trace)
  {
    hide Reshaped;
    if d.overflowed {
    } else {
    }
  }

  /** In every step a session is kept for what is let through. */
  lemma StepLive(d: Decoder, a: Action)
    requires Sound(d) && Live(d)
    ensures Live(Step(d, a))
  {
    SoundFormat(d);
    hide Sound, Dequeue, Decode;
    match a {
      case SubmitPacket(p) => SubmitFields(d, p);
      case StartBlock =>
        if d.queue != [] && d.current.None? {
          DequeuedLive(d);
        }
      case FinishBlock(pf) =>
        if d.current.Some? {
          DecodedLive(d, pf);
        }
      case Reset =>
      case AsyncError =>
      case Release =>
    }
  }

  lemma {:induction false} RunLive(actions: seq<Action>)
    ensures Live(Run(INITIAL, actions))
  {
    hide Live, Step;
    if |actions| == 0 {
      InitiallyLive();
    } else {
      var front := actions[..|actions| - 1];
      RunLive(front);
      RunSound(front);
      StepLive(Run(INITIAL, front), actions[|actions| - 1]);
    }
  }

  lemma InitiallyLive()
    ensures Live(INITIAL)
  {
  }

  // ----- Sheltered: a keyframe comes first -----

  /** A keyframe was fed since `from`, before anything else. */
  ghost predicate KeyFed(t: seq<Event>, from: nat) {
    exists f :: from <= f < |t| && t[f].Fed? && t[f].packet.keyframe && NoneFed(t, from, f)
  }

  /** So far, so good: a keyframe was fed first, or nothing was and nothing but a keyframe can be. */
  ghost predicate Fine(d: Decoder, from: nat) {
    from <= |d.trace| && (KeyFed(d.trace, from) || (NoneFed(d.trace, from, |d.trace|) && Sheltered(d)))
  }

  lemma FineIsFirst(d: Decoder, from: nat)
    requires Fine(d, from)
    ensures KeyframeFedFirst(d.trace, from)
  {
    hide Sheltered;
    if KeyFed(d.trace, from) {
      var k :| from <= k < |d.trace| && d.trace[k].Fed? && d.trace[k].packet.keyframe && NoneFed(d.trace, from, k);
      forall f | from <= f < |d.trace| && d.trace[f].Fed? && NoneFed(d.trace, from, f)
        ensures d.trace[f].packet.keyframe
      {
        assert f == k;
      }
    }
  }

  lemma KeyFedOn(t: seq<Event>, u: seq<Event>, from: nat)
    requires KeyFed(t, from) && t <= u
    ensures KeyFed(u, from)
  {
    var k :| from <= k < |t| && t[k].Fed? && t[k].packet.keyframe && NoneFed(t, from, k);
    assert u[k] == t[k];
    forall j | from <= j < k ensures !u[j].Fed? {
      assert u[j] == t[j];
    }
  }

  /** What a stretch fed first is what is fed first from before it, if nothing was fed before. */
  lemma FineOn(t: seq<Event>, u: seq<Event>, from: nat)
    requires t <= u && from <= |t| && NoneFed(t, from, |t|)
    ensures KeyFed(u, |t|) ==> KeyFed(u, from)
    ensures NoneFed(u, |t|, |u|) ==> NoneFed(u, from, |u|)
  {
    assert forall j :: 0 <= j < |t| ==> u[j] == t[j];
    if KeyFed(u, |t|) {
      var k :| |t| <= k < |u| && u[k].Fed? && u[k].packet.keyframe && NoneFed(u, |t|, k);
      assert NoneFed(u, from, k);
    }
  }

  /** The first picture fed in a stretch that feeds one. */
  lemma {:induction false} FirstIn(t: seq<Event>, from: nat, k: nat) returns (f: nat)
    requires from <= k < |t| && t[k].Fed?
    ensures from <= f <= k && t[f].Fed? && NoneFed(t, from, f)
    decreases k - from
  {
    if t[from].Fed? {
      f := from;
    } else {
      f := FirstIn(t, from + 1, k);
    }
  }

  /** A block feeds nothing but its own packet. */
  lemma BlockFeeds(d: Decoder, pf: Platform, k: nat)
    requires d.current.Some? && |d.trace| <= k < |Decode(d, pf).trace| && Decode(d, pf).trace[k].Fed?
    ensures if d.current.value.packet.keyframe then KeyFed(Decode(d, pf).trace, |d.trace|)
            else !KeyframeFedFirst(Decode(d, pf).trace, |d.trace|)
  {
    hide Decode, EndsWait, NoneFed;
    DecodedEvents(d, pf);
    var f := FirstIn(Decode(d, pf).trace, |d.trace|, k);
    assert Decode(d, pf).trace[f].packet == d.current.value.packet;
  }

  lemma {:induction false} GuardedMore(codec: NALCodec, skipping: bool, queue: seq<Task>, t: Task)
    requires Guarded(codec, skipping, queue)
    ensures Guarded(codec, skipping, queue + [t])
    decreases |queue|
  {
    hide FateOf;
    assert (queue + [t])[0] == queue[0] && (queue + [t])[1..] == queue[1..] + [t];
    if FateOf(codec, skipping, queue[0]) == Passes {
      GuardedMore(codec, skipping, queue[1..], t);
    }
  }

  /** What stands in the queue matters no more than its first tasks. */
  lemma ShelteredMore(d: Decoder, after: Decoder, t: Task)
    requires Sheltered(d) && (after.queue == d.queue || after.queue == d.queue + [t])
    requires after == d.(pending := after.pending, overflowed := after.overflowed, queue := after.queue,
                         trace := after.trace)
    requires d.overflowed ==> after.overflowed
    ensures Sheltered(after)
  {
    hide FateOf, Guarded;
    if d.codec.Some? && Guarded(d.codec.value, d.skipping, d.queue) {
      GuardedMore(d.codec.value, d.skipping, d.queue, t);
    }
  }

  lemma ShelteredDequeue(d: Decoder)
    requires Sheltered(d) && d.queue != [] && d.current.None?
    ensures Sheltered(Dequeue(d))
  {
    hide Dequeue, Start, FateOf;
    match d.queue[0]
    case RearmTask => DequeuedRearm(d);
    case ReleaseTask => DequeuedRelease(d);
    case DecodeTask(p, at) =>
      DequeuedPacket(d, p, at);
      StartedGate(d.(queue := d.queue[1..]), p, at);
  }

  /** A block that neither is released nor lacks a unit, in two parts. */
  lemma DecodedInTwo(d: Decoder, pf: Platform)
    requires d.current.Some? && !d.released && d.current.value.packet.Unit().Some?
    ensures var p := d.current.value.packet;
            var ready := Prepare(d.(current := None), p.Unit().value.parameterSets, p.codec.value, pf);
            Decode(d, pf) == if p.HasPicture() then Gate(ready, p, d.current.value.at, pf) else ready
  {
    hide Reshaped, Prepare, Gate;
  }

  lemma DecodedNothing(d: Decoder, pf: Platform)
    requires d.current.Some? && (d.released || d.current.value.packet.Unit().None?)
    ensures var after := Decode(d, pf);
            after == d.(current := None, reported := after.reported)
  {
    hide Reshaped, Prepare, Gate;
  }

  /** The gate, when it is open and has a session. */
  lemma GateOpenly(d: Decoder, p: Packet, at: nat, pf: Platform)
    requires !d.awaiting && d.session && d.format && pf.makesSample
    ensures if d.skipping && p.IsRasl() then Gate(d, p, at, pf) == d.(trace := d.trace + [Skipped(p, at)])
            else d.trace + [Admitted(p, at)] + [Fed(p, at)] <= Gate(d, p, at, pf).trace
  {
    hide Reshaped, Feed;
    if !(d.skipping && p.IsRasl()) {
      FeedLogs(Log(d.(skipping := false), Admitted(p, at)), p, at, pf);
    }
  }

  /** A gate that waits and is not opened leaves everything alone. */
  lemma GateStays(d: Decoder, pf: Platform)
    requires d.current.Some? && !d.released && !EndsWait(d, pf) && d.current.value.packet.Unit().Some?
    requires var p := d.current.value.packet;
             Prepare(d.(current := None), p.Unit().value.parameterSets, p.codec.value, pf).awaiting
    ensures var p := d.current.value.packet;
            Decode(d, pf) == Prepare(d.(current := None), p.Unit().value.parameterSets, p.codec.value, pf)
  {
    hide Reshaped, Prepare, Feed;
  }

  lemma QuietPrepare(d: Decoder, sets: seq<AnnexB.Unit>, codec: NALCodec, pf: Platform)
    ensures Quietly(d.trace, Prepare(d, sets, codec, pf).trace)
  {
    hide Prepare;
    PreparedEvents(d, sets, codec, pf);
  }

  /** A block under an open gate that goes on being open. */
  lemma OpenBlock(d: Decoder, pf: Platform)
    requires d.current.Some? && !d.released && !d.awaiting && d.session && d.format && pf.makesSample
    requires d.current.value.packet.Unit().Some?
    requires var p := d.current.value.packet;
             !Prepare(d.(current := None), p.Unit().value.parameterSets, p.codec.value, pf).awaiting
    ensures var after, p := Decode(d, pf), d.current.value.packet;
            && d.codec == p.codec
            && match FateOfCurrent(d)
               case Passes =>
                 after == d.(current := None, parameterSets := after.parameterSets, trace := after.trace)
                 && Quietly(d.trace, after.trace)
               case Guards => KeyFed(after.trace, |d.trace|)
               case Exposes => !KeyframeFedFirst(after.trace, |d.trace|)
  {
    hide Reshaped, Prepare, Gate, Decode, KeyFed, KeyframeFedFirst;
    var p, at := d.current.value.packet, d.current.value.at;
    var idle, sets := d.(current := None), p.Unit().value.parameterSets;
    PreparedOpen(idle, sets, p.codec.value, pf);
    DecodedInTwo(d, pf);
    var ready := Prepare(idle, sets, p.codec.value, pf);
    if p.HasPicture() {
      GateOpenly(ready, p, at, pf);
      if !(d.skipping && p.IsRasl()) {
        var t := Decode(d, pf).trace;
        assert t[|d.trace| + 1] == (d.trace + [Admitted(p, at)] + [Fed(p, at)])[|d.trace| + 1];
        BlockFeeds(d, pf, |d.trace| + 1);
      }
    }
  }

  /** Whatever the running block does with a sample buffer, it feeds a keyframe first or shelters what follows. */
  lemma ShelteredBlock(d: Decoder, pf: Platform)
    requires d.current.Some? && Live(d) && (d.session ==> d.format) && Sheltered(d) && pf.makesSample
    ensures var after := Decode(d, pf);
            KeyFed(after.trace, |d.trace|) || (Quietly(d.trace, after.trace) && Sheltered(after))
  {
    hide Reshaped, Prepare, Gate, Decode, KeyFed, KeyframeFedFirst, Guarded, EndsWait;
    var p, at := d.current.value.packet, d.current.value.at;
    if d.released || p.Unit().None? {
      DecodedNothing(d, pf);
    } else if EndsWait(d, pf) {
      var k := EndsWaitFeeds(d, pf);
      EndsOnKeyframe(d, pf);
      BlockFeeds(d, pf, k);
    } else {
      var idle, sets := d.(current := None), p.Unit().value.parameterSets;
      var ready := Prepare(idle, sets, p.codec.value, pf);
      if ready.awaiting {
        GateStays(d, pf);
        QuietPrepare(idle, sets, p.codec.value, pf);
      } else {
        if d.awaiting {
          PreparedAwaiting(idle, sets, p.codec.value, pf);
          assert false;
        }
        OpenBlock(d, pf);
      }
    }
  }

  lemma FineStep(d: Decoder, from: nat, a: Action)
    requires Sound(d) && Live(d) && Fine(d, from) && (a.FinishBlock? ==> a.platform.makesSample)
    ensures Fine(Step(d, a), from)
  {
    hide Sound, Dequeue, Decode, Sheltered, KeyFed, NoneFed;
    var after := Step(d, a);
    StepGrows(d, a);
    if KeyFed(d.trace, from) {
      KeyFedOn(d.trace, after.trace, from);
    } else {
      ShelteredStep(d, a);
      FineOn(d.trace, after.trace, from);
    }
  }

  lemma ShelteredStep(d: Decoder, a: Action)
    requires Sound(d) && Live(d) && Sheltered(d) && (a.FinishBlock? ==> a.platform.makesSample)
    ensures var after := Step(d, a);
            KeyFed(after.trace, |d.trace|) || (NoneFed(after.trace, |d.trace|, |after.trace|) && Sheltered(after))
  {
    SoundFormat(d);
    hide Sound, Dequeue, Decode, Sheltered, KeyFed, Live;
    match a {
      case SubmitPacket(p) =>
        SubmitFields(d, p);
        ShelteredMore(d, Submit(d, p), DecodeTask(p, |d.trace|));
      case StartBlock =>
        if d.queue != [] && d.current.None? {
          DequeuedEvents(d);
          ShelteredDequeue(d);
        }
      case FinishBlock(pf) =>
        if d.current.Some? {
          ShelteredBlock(d, pf);
        }
      case Reset => ShelteredMore(d, Enqueue(d, RearmTask), RearmTask);
      case AsyncError => ShelteredMore(d, Enqueue(d, RearmTask), RearmTask);
      case Release => ShelteredMore(d, Enqueue(d, ReleaseTask), ReleaseTask);
    }
  }

  lemma {:induction false} FineRun(d: Decoder, from: nat, actions: seq<Action>)
    requires Sound(d) && Live(d) && Fine(d, from) && Samples(actions)
    ensures var after := Run(d, actions); Sound(after) && Live(after) && Fine(after, from)
  {
    hide Sound, Live, Fine, Step;
    if |actions| > 0 {
      var front, last := actions[..|actions| - 1], actions[|actions| - 1];
      assert last in actions && forall a :: a in front ==> a in actions;
      FineRun(d, from, front);
      var mid := Run(d, front);
      StepSound(mid, last);
      StepLive(mid, last);
      FineStep(mid, from, last);
    }
  }

  // ----- Not sheltered: a delta can come first -----

  const HEVC_SLICE: AnnexB.Unit := [0x02, 0x01]

  /** A delta in either codec: one slice, no parameter sets. */
  lemma DeltaOf(codec: NALCodec) returns (delta: Packet)
    ensures forall skipping, at :: FateOf(codec, skipping, DecodeTask(delta, at)) == Exposes
  {
    var slice := if codec == H264 then SLICE else HEVC_SLICE;
    hide Serialize, Units;
    delta := Packet(Some(codec), false, Serialize([slice], [0], 0));
    SplitSerialized([slice], [0], 0);
    OneUnit(delta.data, slice, codec);
    assert |Prefixed([slice])| >= 4;
  }

  /** A block under working calls and an open gate. */
  lemma WorkingOpenBlock(d: Decoder)
    requires d.current.Some? && !d.released && !d.awaiting && d.session && d.format && d.codec.Some?
    ensures var after := Decode(d, WORKS);
            match FateOfCurrent(d)
            case Passes =>
              && after == d.(current := None, parameterSets := after.parameterSets, reported := after.reported,
                             trace := after.trace)
              && Quietly(d.trace, after.trace)
            case Guards => true
            case Exposes => !KeyframeFedFirst(after.trace, |d.trace|)
  {
    hide Reshaped, Prepare, Gate, Decode, KeyFed, KeyframeFedFirst;
    var p := d.current.value.packet;
    if p.Unit().None? {
      DecodedNothing(d, WORKS);
    } else if p.codec == d.codec {
      PreparedOpen(d.(current := None), p.Unit().value.parameterSets, p.codec.value, WORKS);
      OpenBlock(d, WORKS);
    }
  }

  /** What is wrong in a later stretch is wrong from before it, if nothing was fed before. */
  lemma WrongOn(t: seq<Event>, u: seq<Event>, from: nat)
    requires t <= u && from <= |t| && NoneFed(t, from, |t|) && !KeyframeFedFirst(u, |t|)
    ensures !KeyframeFedFirst(u, from)
  {
    assert forall j :: 0 <= j < |t| ==> u[j] == t[j];
    var f :| |t| <= f < |u| && u[f].Fed? && NoneFed(u, |t|, f) && !u[f].packet.keyframe;
    assert NoneFed(u, from, f);
  }

  /** The gate is open and nothing is running, nor will the next packet be met by the overflow flag. */
  ghost predicate Through(d: Decoder) {
    Idle(d) && !d.awaiting && !d.overflowed && d.session && d.codec.Some?
  }

  lemma AllWorksMore(a: seq<Action>, b: seq<Action>)
    requires AllWorks(a) && AllWorks(b)
    ensures AllWorks(a + b)
  {
  }

  lemma SubmittedOpen(d: Decoder, p: Packet) returns (y: Decoder)
    requires Through(d) && d.queue == []
    ensures y == d.(pending := y.pending, queue := y.queue, current := y.current, trace := y.trace)
    ensures y.current.Some? && y.current.value.packet == p && Quietly(d.trace, y.trace)
    ensures Run(d, One(p, WORKS)) == Decode(y, WORKS)
  {
    hide Run, Decode, Start, Look;
    OneRun(d, p, WORKS);
    y := Run(d, One(p, WORKS)[..2]);
    StartedGate(Log(d.(pending := 1), Submitted(p)), p, |d.trace|);
  }

  /** With nothing in the queue, a delta submitted now. */
  lemma SubmitDelta(d: Decoder) returns (actions: seq<Action>)
    requires Through(d) && d.queue == []
    ensures AllWorks(actions) && !KeyframeFedFirst(Run(d, actions).trace, |d.trace|)
  {
    SoundFormat(d);
    hide Run, Decode, KeyframeFedFirst, FateOf, NoneFed, EndsWait, One, Idle;
    var delta := DeltaOf(d.codec.value);
    actions := One(delta, WORKS);
    var y := SubmittedOpen(d, delta);
    assert FateOfCurrent(y) == Exposes;
    WorkingOpenBlock(y);
    DecodedEvents(y, WORKS);
    WrongOn(y.trace, Run(d, actions).trace, |d.trace|);
  }

  /** A packet's locked section leaves an open gate as it was. */
  lemma StartedOpen(d: Decoder, p: Packet, at: nat)
    requires Through(d) && d.queue != [] && d.queue[0] == DecodeTask(p, at)
    ensures var y := Dequeue(d);
            && y == d.(pending := y.pending, queue := d.queue[1..], current := y.current, trace := y.trace)
            && y.current.Some? && y.current.value.packet == p && y.current.value.at == at
            && Quietly(d.trace, y.trace)
  {
    hide Sound, Dequeue, Start;
    DequeuedPacket(d, p, at);
    StartedGate(d.(queue := d.queue[1..]), p, at);
    DequeuedEvents(d);
  }

  /** A task of the queue that passes leaves the gate open for the next. */
  lemma PassTask(d: Decoder)
    requires Through(d) && d.queue != []
    requires FateOf(d.codec.value, d.skipping, d.queue[0]) != Guards
    ensures var after := Run(d, Working(d.queue[0], WORKS));
            if FateOf(d.codec.value, d.skipping, d.queue[0]) == Exposes then !KeyframeFedFirst(after.trace, |d.trace|)
            else Through(after) && after.queue == d.queue[1..] && after.codec == d.codec
                 && after.skipping == d.skipping && Quietly(d.trace, after.trace)
  {
    SoundFormat(d);
    var t, y := d.queue[0], Dequeue(d);
    assert t.DecodeTask?;
    hide Reshaped, Run, Sound, Decode, Dequeue, KeyframeFedFirst, FateOf, NoneFed, EndsWait;
    SoundOn(d, Working(t, WORKS));
    WorkingRun(d, t, WORKS);
    StartedOpen(d, t.packet, t.at);
    assert FateOfCurrent(y) == FateOf(d.codec.value, d.skipping, t);
    WorkingOpenBlock(y);
    DecodedEvents(y, WORKS);
    if FateOf(d.codec.value, d.skipping, t) == Exposes {
      WrongOn(y.trace, Decode(y, WORKS).trace, |d.trace|);
    } else {
      QuietlyOn(d.trace, y.trace, Decode(y, WORKS).trace);
    }
  }

  lemma {:induction false} DeltaFollows(d: Decoder) returns (actions: seq<Action>)
    requires Through(d) && !Guarded(d.codec.value, d.skipping, d.queue)
    ensures AllWorks(actions) && !KeyframeFedFirst(Run(d, actions).trace, |d.trace|)
    decreases |d.queue|
  {
    hide Run, FateOf, KeyframeFedFirst, NoneFed;
    if d.queue == [] {
      actions := SubmitDelta(d);
    } else {
      var first := Working(d.queue[0], WORKS);
      PassTask(d);
      if FateOf(d.codec.value, d.skipping, d.queue[0]) == Exposes {
        actions := first;
      } else {
        var after := Run(d, first);
        var later := DeltaFollows(after);
        RunConcat(d, first, later);
        RunGrows(after, later);
        WrongOn(after.trace, Run(after, later).trace, |d.trace|);
        AllWorksMore(first, later);
        actions := first + later;
      }
    }
  }

  /** The running block first, if there is one. */
  lemma DeltaFollowsAny(d: Decoder) returns (actions: seq<Action>)
    requires Sound(d) && Live(d) && !Sheltered(d)
    ensures AllWorks(actions) && !KeyframeFedFirst(Run(d, actions).trace, |d.trace|)
  {
    hide Run, FateOf, Guarded, KeyframeFedFirst, NoneFed, Sound, Decode;
    if d.current.None? {
      actions := DeltaFollows(d);
    } else {
      SoundFormat(d);
      var first := [FinishBlock(WORKS)];
      RunOne(d, FinishBlock(WORKS));
      WorkingOpenBlock(d);
      if FateOfCurrent(d) == Exposes {
        actions := first;
      } else {
        StepSound(d, FinishBlock(WORKS));
        var after := Decode(d, WORKS);
        var later := DeltaFollows(after);
        RunConcat(d, first, later);
        RunGrows(after, later);
        WrongOn(after.trace, Run(after, later).trace, |d.trace|);
        AllWorksMore(first, later);
        actions := first + later;
      }
    }
  }

  // ----- The condition -----

  /**
   At any moment of any run: in every continuation whose sample buffers can be
   made the first picture fed is a keyframe, exactly when the decoder is
   sheltered. Continuations in which every call works decide it already.
   */
  lemma KeyframeNextIff(d: Decoder, from: nat)
    requires Sound(d) && Live(d) && from <= |d.trace| && NoneFed(d.trace, from, |d.trace|)
    ensures (forall actions | Samples(actions) :: KeyframeFedFirst(Run(d, actions).trace, from)) <==> Sheltered(d)
    ensures (forall actions | AllWorks(actions) :: KeyframeFedFirst(Run(d, actions).trace, from)) <==> Sheltered(d)
  {
    hide Sound, Live, Sheltered, KeyframeFedFirst, Run, NoneFed;
    if Sheltered(d) {
      forall actions | Samples(actions) ensures KeyframeFedFirst(Run(d, actions).trace, from) {
        FineRun(d, from, actions);
        FineIsFirst(Run(d, actions), from);
      }
      assert forall actions :: AllWorks(actions) ==> Samples(actions);
    } else {
      var actions := DeltaFollowsAny(d);
      RunGrows(d, actions);
      WrongOn(d.trace, Run(d, actions).trace, from);
      assert AllWorks(actions) && Samples(actions);
    }
  }

  /**
   A block that ends a wait, when later sample buffers can be made: the first
   picture fed is a keyframe exactly when this block can make its own, or the
   overflow flag is up, or the queue guards: before any other picture that would
   be fed comes a keyframe, a re-arm, a release or a change of codec.
   */
  lemma KeyframeFirstIff(d: Decoder, pf: Platform)
    requires Sound(d) && EndsWait(d, pf)
    ensures var key, after := d.current.value.packet, Step(d, FinishBlock(pf));
            (forall actions | Samples(actions) :: KeyframeFedFirst(Run(after, actions).trace, |d.trace|)) <==>
            pf.makesSample || d.overflowed || Guarded(key.codec.value, key.IsCleanRandomAccess(), d.queue)
    // Continuations in which every call works decide it already.
    ensures var key, after := d.current.value.packet, Step(d, FinishBlock(pf));
            (forall actions | AllWorks(actions) :: KeyframeFedFirst(Run(after, actions).trace, |d.trace|)) <==>
            pf.makesSample || d.overflowed || Guarded(key.codec.value, key.IsCleanRandomAccess(), d.queue)
  {
    SoundFormat(d);
    EndsOnKeyframe(d, pf);
    hide Reshaped, Sound, EndsWait, KeyframeFedFirst, Run, Decode, Guarded;
    var after := Decode(d, pf);
    if pf.makesSample {
      forall actions ensures KeyframeFedFirst(Run(after, actions).trace, |d.trace|) {
        SampleFeedsKeyframe(d, pf, actions);
      }
    } else {
      StepSound(d, FinishBlock(pf));
      QuietBlock(d, pf);
      FailedState(d, pf);
      KeyframeNextIff(after, |d.trace|);
    }
  }
}
