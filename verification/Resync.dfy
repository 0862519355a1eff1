/**
 Which keyframe ends the wait after an overflow (ios/Termland/VideoDecoder.swift).

 One would wish it had been submitted after the packet that was dropped. In some
 runs it was not; here is the exact condition, over every continuation of a run.
 */
module Resync {
  import opened Prelude
  import opened AnnexB
  import opened KeyframeGate

  // ----- Runs in two parts -----

  lemma {:induction false} RunConcat(d: Decoder, a: seq<Action>, b: seq<Action>)
    ensures Run(d, a + b) == Run(Run(d, a), b)
  {
    hide Step;
    if |b| == 0 {
      assert a + b == a;
    } else {
      assert (a + b)[..|a + b| - 1] == a + b[..|b| - 1];
      RunConcat(d, a, b[..|b| - 1]);
    }
  }

  lemma RunOne(d: Decoder, a: Action)
    ensures Run(d, [a]) == Step(d, a)
  {
    assert [a][..0] == [];
  }

  // ----- Which keyframe clears an overflow -----

  /** After the drop at `i` a packet not newer than the drop was dequeued, and ended a wait. */
  ghost predicate ClearedByOld(t: seq<Event>, i: nat) {
    exists q: nat, k: nat, p, at: nat :: ClearsAt(t, i, q, k, p, at)
  }

  ghost predicate ClearsAt(t: seq<Event>, i: nat, q: nat, k: nat, p: Packet, at: nat) {
    i < q < k < |t| && t[q] == Dequeued(at) && t[k] == Disarmed(p, at) && at <= i
  }

  /** What decides whether a packet finds a session: the rest of the state does not matter. */
  datatype Outlook = Outlook(
    session: bool, parameterSets: seq<AnnexB.Unit>, codec: Option<NALCodec>, released: bool)

  function Look(d: Decoder): Outlook {
    Outlook(d.session, d.parameterSets, d.codec, d.released)
  }

  /** The outlook after a packet when every platform call works. */
  function Readied(o: Outlook, p: Packet): Outlook {
    if o.released || p.Unit().None? then o
    else
      var sets, codec := p.Unit().value.parameterSets, p.codec.value;
      var switched := if o.codec == Some(codec) then o else Outlook(false, [], Some(codec), false);
      if sets != [] && IsComplete(sets, codec) && sets != switched.parameterSets then
        switched.(session := true, parameterSets := sets)
      else switched
  }

  /** A keyframe with a picture, and a session to decode it. */
  predicate EndsIt(o: Outlook, p: Packet) {
    !o.released && p.keyframe && p.HasPicture() && Readied(o, p).session
  }

  /** Some queued keyframe finds a session, before a release, when every platform call works. */
  predicate Usable(o: Outlook, queue: seq<Task>)
    decreases |queue|
  {
    if |queue| == 0 then false
    else
      match queue[0]
      case RearmTask => Usable(o, queue[1..])
      case ReleaseTask => false
      case DecodeTask(p, _) => EndsIt(o, p) || Usable(Readied(o, p), queue[1..])
  }

  /** The outlook once the running block is over. */
  function LookAhead(d: Decoder): Outlook {
    if d.current.Some? then Readied(Look(d), d.current.value.packet) else Look(d)
  }

  /** `w` is at least as hopeful as `x`: it has a session, or they are the same. */
  predicate Better(w: Outlook, x: Outlook) {
    w.codec == x.codec && w.released == x.released && (w.session || w == x)
  }

  lemma ReadiedBetter(w: Outlook, x: Outlook, p: Packet)
    requires Better(w, x)
    ensures Better(Readied(w, p), Readied(x, p))
  {
    hide Reshaped, IsComplete;
  }

  lemma {:induction false} UsableBetter(w: Outlook, x: Outlook, queue: seq<Task>)
    requires Better(w, x) && Usable(x, queue)
    ensures Usable(w, queue)
    decreases |queue|
  {
    hide Readied;
    match queue[0]
    case RearmTask => UsableBetter(w, x, queue[1..]);
    case DecodeTask(p, _) =>
      ReadiedBetter(w, x, p);
      if !EndsIt(w, p) {
        UsableBetter(Readied(w, p), Readied(x, p), queue[1..]);
      }
  }

  // ----- Whatever the platform does -----

  lemma PreparedLook(d: Decoder, p: Packet, pf: Platform)
    requires !d.released && p.Unit().Some?
    ensures var ready := Prepare(d, p.Unit().value.parameterSets, p.codec.value, pf);
            Better(Readied(Look(d), p), Look(ready)) && (pf == WORKS ==> Look(ready) == Readied(Look(d), p))
  {
    hide Reshaped, IsComplete, Configure;
    ConfiguredLook(SwitchCodec(d, p.codec.value), p.Unit().value.parameterSets, pf);
  }

  lemma ConfiguredLook(d: Decoder, sets: seq<AnnexB.Unit>, pf: Platform)
    ensures var after := Look(Configure(d, sets, pf));
            && after.codec == d.codec && after.released == d.released
            && (pf == WORKS ==> after.session && after.parameterSets == sets)
  {
    if pf.makesFormat && !(d.session && pf.acceptsFormat) {
      assert Configure(d, sets, pf).parameterSets == sets;
    }
  }

  lemma GateLook(d: Decoder, p: Packet, at: nat, pf: Platform)
    ensures var after := Look(Gate(d, p, at, pf));
            && after.codec == d.codec && after.released == d.released && (!d.session ==> after == Look(d))
            && (pf == WORKS ==> after == Look(d))
  {
    hide Reshaped, Feed;
    FeedLook(Log(d.(awaiting := false, skipping := p.IsCleanRandomAccess()), Disarmed(p, at)), p, at, pf);
    FeedLook(Log(d.(skipping := false), Admitted(p, at)), p, at, pf);
  }

  /** What feeding may do, field by field. */
  lemma FeedFields(d: Decoder, p: Packet, at: nat, pf: Platform)
    ensures var after := Feed(d, p, at, pf);
            && after == d.(session := after.session, format := after.format, parameterSets := after.parameterSets,
                           awaiting := after.awaiting, trace := after.trace)
            && after.trace in {d.trace, d.trace + [Fed(p, at)], d.trace + [Fed(p, at)] + [Armed]}
            && (after.trace != d.trace ==> d.session && pf.makesSample)
            && (after.session, after.parameterSets) in {(d.session, d.parameterSets), (false, [])}
            && (after.session != d.session || after.parameterSets != d.parameterSets ==> d.session && pf.status != NoErr)
  {
    hide Arm, Teardown, Log;
    if d.session && d.format && pf.makesSample {
      FedFields(Log(d, Fed(p, at)));
      LogFields(d, Fed(p, at));
    }
  }

  lemma LogFields(d: Decoder, e: Event)
    ensures Log(d, e) == d.(trace := d.trace + [e])
  {
  }

  lemma FedFields(d: Decoder)
    ensures Arm(d) == d.(awaiting := true, trace := d.trace + [Armed])
    ensures Arm(Teardown(d).(parameterSets := []))
         == d.(session := false, format := false, parameterSets := [], awaiting := true, trace := d.trace + [Armed])
  {
  }

  lemma FeedLook(d: Decoder, p: Packet, at: nat, pf: Platform)
    ensures var after := Look(Feed(d, p, at, pf));
            && after.codec == d.codec && after.released == d.released && (!d.session ==> after == Look(d))
            && (pf == WORKS ==> after == Look(d))
  {
    hide Feed;
    FeedFields(d, p, at, pf);
  }

  /** A block leaves no better outlook than working calls would have; with working calls, that very one. */
  lemma DecodedLook(d: Decoder, pf: Platform)
    requires d.current.Some?
    ensures Better(LookAhead(d), Look(Decode(d, pf)))
    ensures pf == WORKS ==> Look(Decode(d, pf)) == LookAhead(d)
  {
    hide Reshaped, Prepare, Gate, IsComplete;
    var p, at := d.current.value.packet, d.current.value.at;
    if !d.released && p.Unit().Some? {
      var idle := d.(current := None);
      PreparedLook(idle, p, pf);
      GateLook(Prepare(idle, p.Unit().value.parameterSets, p.codec.value, pf), p, at, pf);
    }
  }

  /** Events added by a block, and which of them end a wait. */
  lemma DecodedEvents(d: Decoder, pf: Platform)
    requires d.current.Some?
    ensures var t := Decode(d, pf).trace;
            && d.trace <= t
            && forall k :: |d.trace| <= k < |t| ==>
                 !t[k].Dequeued? && !t[k].Dropped?
                 && (t[k].Fed? ==> pf.makesSample && t[k] == Fed(d.current.value.packet, d.current.value.at))
                 && (t[k].Disarmed? ==> t[k] == Disarmed(d.current.value.packet, d.current.value.at) && EndsWait(d, pf))
  {
    hide Reshaped, Prepare, Gate, IsComplete;
    var p, at := d.current.value.packet, d.current.value.at;
    if !d.released && p.Unit().Some? {
      var idle, sets := d.(current := None), p.Unit().value.parameterSets;
      PreparedEvents(idle, sets, p.codec.value, pf);
      var ready := Prepare(idle, sets, p.codec.value, pf);
      if p.HasPicture() {
        GateEvents(ready, p, at, pf);
      }
    }
  }

  lemma PreparedEvents(d: Decoder, sets: seq<AnnexB.Unit>, codec: NALCodec, pf: Platform)
    ensures var t := Prepare(d, sets, codec, pf).trace;
            d.trace <= t && forall k :: |d.trace| <= k < |t| ==> t[k] == Armed
  {
    hide IsComplete, Configure, SwitchCodec;
    SwitchedTrace(d, codec);
    ConfiguredTrace(SwitchCodec(d, codec), sets, pf);
  }

  lemma GateEvents(d: Decoder, p: Packet, at: nat, pf: Platform)
    ensures var t := Gate(d, p, at, pf).trace;
            && d.trace <= t
            && forall k :: |d.trace| <= k < |t| ==>
                 t[k] in {Disarmed(p, at), Admitted(p, at), Skipped(p, at), Fed(p, at), Armed}
                 && (t[k].Fed? ==> pf.makesSample)
                 && (t[k].Disarmed? ==> d.awaiting && p.keyframe && d.session)
  {
    hide Reshaped;
    if d.awaiting {
      if p.keyframe && d.session {
        FeedEvents(Log(d.(awaiting := false, skipping := p.IsCleanRandomAccess()), Disarmed(p, at)), p, at, pf);
      }
    } else if !(d.skipping && p.IsRasl()) {
      FeedEvents(Log(d.(skipping := false), Admitted(p, at)), p, at, pf);
    }
  }

  lemma FeedEvents(d: Decoder, p: Packet, at: nat, pf: Platform)
    ensures var t := Feed(d, p, at, pf).trace;
            && d.trace <= t
            && forall k :: |d.trace| <= k < |t| ==> t[k] in {Fed(p, at), Armed} && (t[k].Fed? ==> pf.makesSample)
  {
    hide Feed;
    FeedFields(d, p, at, pf);
  }

  /** A block that ends a wait does so with an outlook that lets it. */
  lemma EndsWaitNeedsOutlook(d: Decoder, pf: Platform)
    requires EndsWait(d, pf)
    ensures EndsIt(Look(d), d.current.value.packet)
  {
    hide Reshaped, Prepare, IsComplete;
    PreparedLook(d.(current := None), d.current.value.packet, pf);
  }

  // ----- No usable keyframe: only a newer one clears -----

  /** The running block cannot end a wait on behalf of a packet dequeued since the drop and no newer than it. */
  ghost predicate CurrentHarmless(d: Decoder, i: nat) {
    d.current.Some? && d.current.value.at <= i && d.current.value.since > i ==>
      !EndsIt(Look(d), d.current.value.packet)
  }

  /** `early` is what is left of the queue at the drop, and nothing in it or before it can clear the drop. */
  ghost predicate Hopeless(d: Decoder, early: seq<Task>, i: nat) {
    && early <= d.queue
    && (forall j :: |early| <= j < |d.queue| && d.queue[j].DecodeTask? ==> d.queue[j].at > i)
    && !Usable(LookAhead(d), early)
    && CurrentHarmless(d, i)
    && !ClearedByOld(d.trace, i)
  }

  /** Events that do not end a wait clear nothing. */
  lemma NothingCleared(t: seq<Event>, u: seq<Event>, i: nat)
    requires t <= u && forall k :: |t| <= k < |u| ==> !u[k].Disarmed?
    ensures ClearedByOld(u, i) ==> ClearedByOld(t, i)
  {
    if ClearedByOld(u, i) {
      var q: nat, k: nat, p, at: nat :| ClearsAt(u, i, q, k, p, at);
      assert k < |t|;
      assert ClearsAt(t, i, q, k, p, at);
    }
  }

  lemma SubmitFields(d: Decoder, p: Packet)
    ensures var after := Submit(d, p);
            && after == d.(pending := after.pending, overflowed := after.overflowed, queue := after.queue,
                           trace := after.trace)
            && after.queue in {d.queue, d.queue + [DecodeTask(p, |d.trace|)]}
            && after.trace in {d.trace + [Dropped], d.trace + [Submitted(p)]}
  {
    hide Reshaped;
    if d.pending >= MAX_PENDING {
      assert Submit(d, p).queue == d.queue;
    } else {
      assert Submit(d, p).queue == d.queue + [DecodeTask(p, |d.trace|)];
    }
  }

  lemma HopelessSubmit(d: Decoder, early: seq<Task>, i: nat, p: Packet)
    requires Hopeless(d, early, i) && i < |d.trace|
    ensures Hopeless(Submit(d, p), early, i)
  {
    hide Usable, Reshaped, Submit, ClearedByOld;
    var after := Submit(d, p);
    SubmitFields(d, p);
    NothingCleared(d.trace, after.trace, i);
    assert Look(after) == Look(d);
  }

  lemma HopelessEnqueue(d: Decoder, early: seq<Task>, i: nat, t: Task)
    requires Hopeless(d, early, i) && !t.DecodeTask?
    ensures Hopeless(Enqueue(d, t), early, i)
  {
    hide Usable, Reshaped;
    assert Look(Enqueue(d, t)) == Look(d);
  }

  lemma HopelessDequeue(d: Decoder, early: seq<Task>, i: nat) returns (left: seq<Task>)
    requires Hopeless(d, early, i) && d.queue != [] && d.current.None? && i < |d.trace|
    ensures Hopeless(Dequeue(d), left, i)
  {
    hide Reshaped, Dequeue;
    left := if early == [] then [] else early[1..];
    var after := Dequeue(d);
    DequeuedLook(d);
    forall j | |left| <= j < |after.queue| && after.queue[j].DecodeTask?
      ensures after.queue[j].at > i
    {
      assert after.queue[j] == d.queue[j + 1];
    }
    hide Readied, EndsIt;
    DequeuedEvents(d);
    NothingCleared(d.trace, after.trace, i);
    if early != [] {
      assert d.queue[0] == early[0];
    }
    if d.queue[0].ReleaseTask? {
      ReleasedUnusable(LookAhead(after), left);
    }
  }

  lemma {:induction false} ReleasedUnusable(o: Outlook, queue: seq<Task>)
    requires o.released
    ensures !Usable(o, queue)
    decreases |queue|
  {
    if |queue| > 0 {
      ReleasedUnusable(o, queue[1..]);
      assert queue[0].DecodeTask? ==> Readied(o, queue[0].packet) == o;
    }
  }

  lemma DequeuedLook(d: Decoder)
    requires d.queue != [] && d.current.None?
    ensures var after := Dequeue(d);
            && after.queue == d.queue[1..]
            && match d.queue[0]
               case RearmTask => Look(after) == Look(d) && after.current.None?
               case ReleaseTask => Look(after).released && after.current.None?
               case DecodeTask(p, at) => Look(after) == Look(d) && after.current == Some(Running(p, at, |d.trace|))
  {
    hide Dequeue, Start;
    match d.queue[0]
    case RearmTask => DequeuedRearm(d);
    case ReleaseTask => DequeuedRelease(d);
    case DecodeTask(p, at) =>
      DequeuedPacket(d, p, at);
      StartedLook(d.(queue := d.queue[1..]), p, at);
  }

  lemma DequeuedEvents(d: Decoder)
    requires d.queue != [] && d.current.None?
    ensures var t := Dequeue(d).trace;
            && d.trace <= t
            && forall k :: |d.trace| <= k < |t| ==> t[k].Dequeued? || t[k].Armed?
  {
    hide Dequeue, Start;
    match d.queue[0]
    case RearmTask => DequeuedRearm(d);
    case ReleaseTask => DequeuedRelease(d);
    case DecodeTask(p, at) =>
      DequeuedPacket(d, p, at);
      StartedLook(d.(queue := d.queue[1..]), p, at);
  }

  lemma DequeuedRearm(d: Decoder)
    requires d.queue != [] && d.current.None? && d.queue[0].RearmTask?
    ensures Dequeue(d) == d.(queue := d.queue[1..], awaiting := true, trace := d.trace + [Armed])
  {
  }

  lemma DequeuedRelease(d: Decoder)
    requires d.queue != [] && d.current.None? && d.queue[0].ReleaseTask?
    ensures Dequeue(d) == d.(queue := d.queue[1..], released := true, session := false, format := false)
  {
  }

  lemma DequeuedPacket(d: Decoder, p: Packet, at: nat)
    requires d.queue != [] && d.current.None? && d.queue[0] == DecodeTask(p, at)
    ensures Dequeue(d) == Start(d.(queue := d.queue[1..]), p, at)
  {
    hide Start;
  }

  lemma StartedLook(d: Decoder, p: Packet, at: nat)
    ensures var after := Start(d, p, at);
            && Look(after) == Look(d) && after.current == Some(Running(p, at, |d.trace|)) && after.queue == d.queue
            && after.trace == d.trace + [Dequeued(at)] + (if d.overflowed then [Armed] else [])
            && !after.overflowed && after.awaiting == (d.awaiting || d.overflowed)
  {
  }

  lemma HopelessFinish(d: Decoder, early: seq<Task>, i: nat, pf: Platform)
    requires Hopeless(d, early, i) && d.current.Some? && CurrentSound(d)
    ensures Hopeless(Decode(d, pf), early, i)
  {
    hide Reshaped, Decode, EndsWait, Readied, EndsIt;
    var after := Decode(d, pf);
    DecodedRest(d, pf);
    DecodedLook(d, pf);
    if Usable(Look(after), early) {
      UsableBetter(LookAhead(d), Look(after), early);
    }
    if ClearedByOld(after.trace, i) {
      BlockClears(d, pf, i);
    }
  }

  /** What is cleared after a block was cleared before, or by this block's packet, dequeued since the drop. */
  lemma BlockClears(d: Decoder, pf: Platform, i: nat)
    requires d.current.Some? && CurrentSound(d) && ClearedByOld(Decode(d, pf).trace, i)
    ensures ClearedByOld(d.trace, i) ||
            (d.current.value.at <= i < d.current.value.since && EndsIt(Look(d), d.current.value.packet))
  {
    hide Decode, EndsWait, EndsIt;
    DecodedEvents(d, pf);
    var t := Decode(d, pf).trace;
    var q: nat, k: nat, p, at: nat :| ClearsAt(t, i, q, k, p, at);
    if k < |d.trace| {
      assert ClearsAt(d.trace, i, q, k, p, at);
    } else {
      EndsWaitNeedsOutlook(d, pf);
      assert t[q].Dequeued? && q < |d.trace|;
      assert d.trace[q].Dequeued? && !(d.current.value.since < q);
    }
  }

  lemma DecodedRest(d: Decoder, pf: Platform)
    requires d.current.Some?
    ensures var after := Decode(d, pf);
            after.current.None? && after.queue == d.queue && after.overflowed == d.overflowed && after.pending == d.pending
  {
    hide Reshaped, Prepare, Gate;
    var p, at := d.current.value.packet, d.current.value.at;
    if !d.released && p.Unit().Some? {
      var idle := d.(current := None);
      PreparedRest(idle, p.Unit().value.parameterSets, p.codec.value, pf);
      GateRest(Prepare(idle, p.Unit().value.parameterSets, p.codec.value, pf), p, at, pf);
    }
  }

  /** Preparing and gating touch the session, the gate and the trace, and nothing else. */
  predicate SameRest(d: Decoder, after: Decoder) {
    after == d.(session := after.session, format := after.format, parameterSets := after.parameterSets,
                codec := after.codec, awaiting := after.awaiting, skipping := after.skipping, trace := after.trace)
  }

  lemma PreparedRest(d: Decoder, sets: seq<AnnexB.Unit>, codec: NALCodec, pf: Platform)
    ensures SameRest(d, Prepare(d, sets, codec, pf))
  {
    hide IsComplete, Configure, SwitchCodec;
    SwitchedRest(d, codec);
    ConfiguredRest(SwitchCodec(d, codec), sets, pf);
  }

  lemma SwitchedRest(d: Decoder, codec: NALCodec)
    ensures SameRest(d, SwitchCodec(d, codec))
  {
  }

  lemma ConfiguredRest(d: Decoder, sets: seq<AnnexB.Unit>, pf: Platform)
    ensures SameRest(d, Configure(d, sets, pf))
  {
    if !pf.makesFormat {
    } else if d.session && pf.acceptsFormat {
    } else {
    }
  }

  lemma GateRest(d: Decoder, p: Packet, at: nat, pf: Platform)
    ensures SameRest(d, Gate(d, p, at, pf))
  {
    hide Reshaped, Feed;
    FeedRest(Log(d.(awaiting := false, skipping := p.IsCleanRandomAccess()), Disarmed(p, at)), p, at, pf);
    FeedRest(Log(d.(skipping := false), Admitted(p, at)), p, at, pf);
  }

  lemma FeedRest(d: Decoder, p: Packet, at: nat, pf: Platform)
    ensures SameRest(d, Feed(d, p, at, pf))
  {
    hide Feed;
    FeedFields(d, p, at, pf);
  }

  lemma HopelessStep(d: Decoder, early: seq<Task>, i: nat, a: Action) returns (left: seq<Task>)
    requires Hopeless(d, early, i) && CurrentSound(d) && i < |d.trace|
    ensures Hopeless(Step(d, a), left, i)
  {
    hide Hopeless, CurrentSound, Dequeue, Decode;
    left := early;
    match a {
      case SubmitPacket(p) => HopelessSubmit(d, early, i, p);
      case StartBlock =>
        if d.queue != [] && d.current.None? {
          left := HopelessDequeue(d, early, i);
        }
      case FinishBlock(pf) =>
        if d.current.Some? {
          HopelessFinish(d, early, i, pf);
        }
      case Reset => HopelessEnqueue(d, early, i, RearmTask);
      case AsyncError => HopelessEnqueue(d, early, i, RearmTask);
      case Release => HopelessEnqueue(d, early, i, ReleaseTask);
    }
  }

  lemma SoundParts(d: Decoder)
    requires Sound(d)
    ensures CurrentSound(d)
  {
  }

  lemma StepGrows(d: Decoder, a: Action)
    ensures d.trace <= Step(d, a).trace
  {
    hide Dequeue, Decode;
    if a.FinishBlock? && d.current.Some? {
      DecodedEvents(d, a.platform);
    } else if a.StartBlock? && d.queue != [] && d.current.None? {
      DequeuedEvents(d);
    }
  }

  lemma {:induction false} HopelessRun(d: Decoder, early: seq<Task>, i: nat, actions: seq<Action>)
    returns (left: seq<Task>)
    requires Hopeless(d, early, i) && Sound(d) && i < |d.trace|
    ensures Hopeless(Run(d, actions), left, i) && Sound(Run(d, actions)) && i < |Run(d, actions).trace|
  {
    hide Hopeless, Sound, Step;
    if |actions| == 0 {
      left := early;
    } else {
      var front, last := actions[..|actions| - 1], actions[|actions| - 1];
      left := HopelessRun(d, early, i, front);
      var mid := Run(d, front);
      SoundParts(mid);
      left := HopelessStep(mid, left, i, last);
      StepSound(mid, last);
      StepGrows(mid, last);
    }
  }

  /** The state right after a packet was dropped. */
  ghost predicate JustDropped(d: Decoder, i: nat) {
    Sound(d) && d.overflowed && |d.trace| == i + 1 && d.trace[i] == Dropped
  }

  lemma DropIsRecorded(d: Decoder, p: Packet)
    requires Sound(d) && d.pending >= MAX_PENDING
    ensures JustDropped(Submit(d, p), |d.trace|)
  {
    SubmitSound(d, p);
  }

  lemma HopelessAtDrop(d: Decoder, i: nat)
    requires JustDropped(d, i) && !Usable(LookAhead(d), d.queue)
    ensures Hopeless(d, d.queue, i)
  {
    hide Usable;
  }

  // ----- A usable keyframe: it can clear -----

  lemma PreparedAwaiting(d: Decoder, sets: seq<AnnexB.Unit>, codec: NALCodec, pf: Platform)
    requires d.awaiting
    ensures Prepare(d, sets, codec, pf).awaiting
  {
    hide IsComplete, Configure;
    ConfiguredAwaiting(SwitchCodec(d, codec), sets, pf);
  }

  lemma ConfiguredAwaiting(d: Decoder, sets: seq<AnnexB.Unit>, pf: Platform)
    ensures d.awaiting ==> Configure(d, sets, pf).awaiting
  {
    if !pf.makesFormat {
    } else if d.session && pf.acceptsFormat {
    } else {
    }
  }

  /** With working calls a waiting decoder ends its wait exactly on a keyframe that finds a session. */
  lemma WorkingBlock(d: Decoder)
    requires d.current.Some? && d.awaiting
    ensures EndsWait(d, WORKS) <==> EndsIt(Look(d), d.current.value.packet)
    ensures !EndsWait(d, WORKS) ==> Decode(d, WORKS).awaiting
  {
    hide Reshaped, Prepare, IsComplete, Feed;
    var p, at := d.current.value.packet, d.current.value.at;
    if !d.released && p.Unit().Some? {
      PreparedLook(d.(current := None), p, WORKS);
      PreparedAwaiting(d.(current := None), p.Unit().value.parameterSets, p.codec.value, WORKS);
    }
  }

  lemma EndsWaitDisarms(d: Decoder, pf: Platform) returns (k: nat)
    requires EndsWait(d, pf)
    ensures |d.trace| <= k < |Decode(d, pf).trace|
    ensures Decode(d, pf).trace[k] == Disarmed(d.current.value.packet, d.current.value.at)
  {
    hide Reshaped, Prepare, IsComplete, Feed;
    var p, at := d.current.value.packet, d.current.value.at;
    var idle, sets := d.(current := None), p.Unit().value.parameterSets;
    var ready := Prepare(idle, sets, p.codec.value, pf);
    PreparedEvents(idle, sets, p.codec.value, pf);
    var disarmed := Log(ready.(awaiting := false, skipping := p.IsCleanRandomAccess()), Disarmed(p, at));
    FeedEvents(disarmed, p, at, pf);
    k := |ready.trace|;
    assert disarmed.trace[k] == Disarmed(p, at);
  }

  /** How to work off one task, with the platform as given. */
  function Working(t: Task, pf: Platform): seq<Action> {
    if t.DecodeTask? then [StartBlock, FinishBlock(pf)] else [StartBlock]
  }

  lemma WorkingRun(d: Decoder, t: Task, pf: Platform)
    requires d.queue != [] && d.queue[0] == t && d.current.None? && !t.ReleaseTask?
    ensures var y := Dequeue(d);
            Run(d, Working(t, pf)) == if t.DecodeTask? then Decode(y, pf) else y
  {
    hide Dequeue, Decode;
    DequeuedLook(d);
    RunOne(d, StartBlock);
    if t.DecodeTask? {
      assert [StartBlock, FinishBlock(pf)] == [StartBlock] + [FinishBlock(pf)];
      RunMore(d, [StartBlock], FinishBlock(pf));
    }
  }

  lemma {:induction false} UsableClears(d: Decoder, early: seq<Task>, i: nat) returns (actions: seq<Action>)
    requires Usable(Look(d), early) && early <= d.queue && d.current.None?
    requires (d.overflowed || d.awaiting) && i < |d.trace|
    requires forall t :: t in early && t.DecodeTask? ==> t.at <= i
    ensures ClearedByOld(Run(d, actions).trace, i)
    decreases |early|
  {
    hide Run, Dequeue, Decode, EndsWait, EndsIt, Readied;
    var t := early[0];
    assert d.queue[0] == t && t in early;
    var y := Dequeue(d);
    DequeuedLook(d);
    WorkingRun(d, t, WORKS);
    if t.DecodeTask? {
      DequeuedArmed(d);
      WorkingBlock(y);
      DecodedRest(y, WORKS);
      DecodedLook(y, WORKS);
      var z := Decode(y, WORKS);
      DecodedEvents(y, WORKS);
      if EndsIt(Look(d), t.packet) {
        var k := EndsWaitDisarms(y, WORKS);
        assert ClearsAt(z.trace, i, |d.trace|, k, t.packet, t.at);
        actions := Working(t, WORKS);
      } else {
        assert early[1..] <= z.queue;
        actions := UsableClears(z, early[1..], i);
        RunConcat(d, Working(t, WORKS), actions);
        actions := Working(t, WORKS) + actions;
      }
    } else {
      DequeuedRearm(d);
      assert early[1..] <= y.queue;
      actions := UsableClears(y, early[1..], i);
      RunConcat(d, Working(t, WORKS), actions);
      actions := Working(t, WORKS) + actions;
    }
  }

  lemma DequeuedArmed(d: Decoder)
    requires d.queue != [] && d.queue[0].DecodeTask? && d.current.None?
    ensures var after := Dequeue(d);
            && after.awaiting == (d.awaiting || d.overflowed)
            && |d.trace| < |after.trace| && after.trace[|d.trace|] == Dequeued(d.queue[0].at)
  {
    hide Start, Dequeue;
    DequeuedPacket(d, d.queue[0].packet, d.queue[0].at);
    StartedLook(d.(queue := d.queue[1..]), d.queue[0].packet, d.queue[0].at);
  }

  /** The running block over with working calls, then the queue as above. */
  lemma UsableClearsDrop(d: Decoder, i: nat) returns (actions: seq<Action>)
    requires JustDropped(d, i) && Usable(LookAhead(d), d.queue)
    ensures ClearedByOld(Run(d, actions).trace, i)
  {
    hide Run, Decode, Usable, Readied;
    assert forall t :: t in d.queue && t.DecodeTask? ==> t.at <= i;
    if d.current.Some? {
      DecodedRest(d, WORKS);
      DecodedLook(d, WORKS);
      DecodedEvents(d, WORKS);
      RunOne(d, FinishBlock(WORKS));
      actions := UsableClears(Decode(d, WORKS), d.queue, i);
      RunConcat(d, [FinishBlock(WORKS)], actions);
      actions := [FinishBlock(WORKS)] + actions;
    } else {
      actions := UsableClears(d, d.queue, i);
    }
  }

  // ----- The condition -----

  /**
   A packet dropped because the queue was full: some continuation ends the wait
   with a keyframe no newer than it exactly when a queued keyframe finds a
   session, that is, when `Usable` holds of the queue at the drop.
   */
  lemma ClearedByOldIff(d: Decoder, p: Packet)
    requires Sound(d) && d.pending >= MAX_PENDING
    ensures (exists actions :: ClearedByOld(Run(Submit(d, p), actions).trace, |d.trace|)) <==>
            Usable(LookAhead(d), d.queue)
  {
    hide Sound, Usable, ClearedByOld, Hopeless, Run;
    var i, dropped := |d.trace|, Submit(d, p);
    DropIsRecorded(d, p);
    assert LookAhead(dropped) == LookAhead(d) && dropped.queue == d.queue;
    if Usable(LookAhead(d), d.queue) {
      var actions := UsableClearsDrop(dropped, i);
    } else {
      forall actions
        ensures !ClearedByOld(Run(dropped, actions).trace, i)
      {
        NeverClearedByOld(dropped, i, actions);
      }
    }
  }

  lemma NeverClearedByOld(d: Decoder, i: nat, actions: seq<Action>)
    requires JustDropped(d, i) && !Usable(LookAhead(d), d.queue)
    ensures !ClearedByOld(Run(d, actions).trace, i)
  {
    hide Usable, ClearedByOld, Run;
    HopelessAtDrop(d, i);
    var _ := HopelessRun(d, d.queue, i, actions);
  }

  /** A keyframe with a picture. */
  predicate HoldsKeyframe(t: Task) {
    t.DecodeTask? && t.packet.keyframe && t.packet.HasPicture()
  }

  /** With no keyframe in the queue at the drop, only keyframes submitted after it end a wait after it. */
  lemma NewerKeyframeClears(d: Decoder, p: Packet, actions: seq<Action>, q: nat, k: nat)
    requires Sound(d) && d.pending >= MAX_PENDING
    requires forall t :: t in d.queue ==> !HoldsKeyframe(t)
    requires var t := Run(Submit(d, p), actions).trace;
             |d.trace| < q < k < |t| && t[k].Disarmed? && t[q] == Dequeued(t[k].at)
    ensures Run(Submit(d, p), actions).trace[k].at > |d.trace|
  {
    hide Sound, Usable, Run, LookAhead;
    var t := Run(Submit(d, p), actions).trace;
    NoKeyframeNoUse(LookAhead(d), d.queue);
    if t[k].at <= |d.trace| {
      OldClears(t, |d.trace|, q, k);
      ClearedByOldIff(d, p);
      assert false;
    }
  }

  lemma OldClears(t: seq<Event>, i: nat, q: nat, k: nat)
    requires i < q < k < |t| && t[k].Disarmed? && t[q] == Dequeued(t[k].at) && t[k].at <= i
    ensures ClearedByOld(t, i)
  {
    assert ClearsAt(t, i, q, k, t[k].packet, t[k].at);
  }

  lemma {:induction false} NoKeyframeNoUse(o: Outlook, queue: seq<Task>)
    requires forall t :: t in queue ==> !HoldsKeyframe(t)
    ensures !Usable(o, queue)
    decreases |queue|
  {
    hide Readied;
    if |queue| > 0 {
      assert queue[0] in queue;
      forall o' {
        NoKeyframeNoUse(o', queue[1..]);
      }
    }
  }

  /**
   In a steady stream, with a session up, one codec and no release queued, the
   condition is simply that the queue holds a keyframe.
   */
  lemma {:induction false} SteadyStream(o: Outlook, queue: seq<Task>)
    requires o.session && !o.released && o.codec.Some?
    requires forall t :: t in queue ==> !t.ReleaseTask?
    requires forall t :: t in queue && t.DecodeTask? && t.packet.Unit().Some? ==> t.packet.codec == o.codec
    ensures Usable(o, queue) <==> exists t :: t in queue && HoldsKeyframe(t)
    decreases |queue|
  {
    hide Reshaped, IsComplete;
    if |queue| > 0 {
      var head, rest := queue[0], queue[1..];
      assert head in queue && forall t :: t in queue <==> t == head || t in rest;
      var next := if head.DecodeTask? then Readied(o, head.packet) else o;
      assert next.session && !next.released && next.codec == o.codec;
      SteadyStream(next, rest);
    }
  }
}
