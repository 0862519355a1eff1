/**
 What makes the iOS decoder wait for a keyframe, and that it then does
 (ios/Termland/VideoDecoder.swift).

 The laws speak of actions, of VideoToolbox's answers and of the trace: a
 picture that VideoToolbox refuses, a re-arm, a dequeue after an overflow, a
 codec change, an unusable format and a new session each start a wait, nothing
 else does, and no picture is fed before a keyframe has ended it. And the wait
 does end: a keyframe with its parameter sets is fed unless a session could not
 be created before.
 */
module Rearming {
  import opened Prelude
  import opened AnnexB
  import opened KeyframeGate
  import opened Resync
  import opened FirstFed

  // ----- What starts a wait -----

  /** The packet brings a complete description of its stream that is not the one in use. */
  predicate BringsNewSets(d: Decoder, p: Packet) {
    p.Unit().Some? &&
    var sets := p.Unit().value.parameterSets;
    sets != [] && IsComplete(sets, p.codec.value) && sets != d.parameterSets
  }

  /** What was decoded before is no reference for what comes from this step on. */
  predicate Unsettles(d: Decoder, a: Action) {
    match a
    case StartBlock =>
      && d.queue != [] && d.current.None?
      && (d.queue[0].RearmTask? || (d.queue[0].DecodeTask? && d.overflowed))
    case FinishBlock(pf) =>
      && d.current.Some? && !d.released && d.current.value.packet.Unit().Some?
      && var p := d.current.value.packet;
         p.codec != d.codec
         || (BringsNewSets(d, p) && (!pf.makesFormat || !d.session || !pf.acceptsFormat))
    case _ => false
  }

  /** The events a step adds. */
  function Added(d: Decoder, a: Action): seq<Event> {
    StepGrows(d, a);
    Step(d, a).trace[|d.trace|..]
  }

  /** The step hands over a picture that VideoToolbox refuses. */
  ghost predicate Refused(d: Decoder, a: Action) {
    a.FinishBlock? && a.platform.status != NoErr && exists e :: e in Added(d, a) && e.Fed?
  }

  // ----- The events of a step -----

  lemma FeedTrace(d: Decoder, p: Packet, at: nat, pf: Platform)
    ensures Feed(d, p, at, pf).trace ==
            if d.session && d.format && pf.makesSample then
              d.trace + [Fed(p, at)] + if pf.status == NoErr then [] else [Armed]
            else d.trace
  {
    hide Reshaped;
    if d.session && d.format && pf.makesSample {
      match pf.status
      case NoErr => assert d.trace + [Fed(p, at)] + [] == d.trace + [Fed(p, at)];
      case InvalidSession =>
      case OtherError =>
    }
  }

  /** The gate adds a wait exactly to a picture that was fed and refused. */
  lemma GateArms(d: Decoder, p: Packet, at: nat, pf: Platform)
    ensures var t := Gate(d, p, at, pf).trace;
            && d.trace <= t
            && (Armed in t[|d.trace|..] <==> pf.status != NoErr && exists e :: e in t[|d.trace|..] && e.Fed?)
            && (Armed in t[|d.trace|..] ==> t[|t| - 1] == Armed)
  {
    hide Reshaped, Feed;
    var t := Gate(d, p, at, pf).trace;
    if d.awaiting {
      if p.keyframe && d.session {
        var disarmed := Log(d.(awaiting := false, skipping := p.IsCleanRandomAccess()), Disarmed(p, at));
        FeedTrace(disarmed, p, at, pf);
        FedAfter(d.trace, Disarmed(p, at), p, at, pf, t);
      }
    } else if !(d.skipping && p.IsRasl()) {
      FeedTrace(Log(d.(skipping := false), Admitted(p, at)), p, at, pf);
      FedAfter(d.trace, Admitted(p, at), p, at, pf, t);
    }
  }

  lemma FedAfter(t: seq<Event>, e: Event, p: Packet, at: nat, pf: Platform, u: seq<Event>)
    requires !e.Armed? && !e.Fed?
    requires u == t + [e] || u == t + [e] + [Fed(p, at)] + if pf.status == NoErr then [] else [Armed]
    ensures t <= u
    ensures Armed in u[|t|..] <==> pf.status != NoErr && exists f :: f in u[|t|..] && f.Fed?
    ensures Armed in u[|t|..] ==> u[|u| - 1] == Armed
  {
    if u == t + [e] {
      assert u[|t|..] == [e];
    } else {
      assert u[|t|..] == [e] + [Fed(p, at)] + if pf.status == NoErr then [] else [Armed];
      assert Fed(p, at) in u[|t|..];
    }
  }

  /** A block's packet is unsettling before the gate looks at it. */
  lemma PrepareArms(d: Decoder, pf: Platform)
    requires d.current.Some? && !d.released && d.current.value.packet.Unit().Some?
    ensures var p := d.current.value.packet;
            var t := Prepare(d.(current := None), p.Unit().value.parameterSets, p.codec.value, pf).trace;
            if Unsettles(d, FinishBlock(pf)) then d.trace + [Armed] <= t else t == d.trace
  {
    hide Reshaped, IsComplete, Configure, SwitchCodec;
    var p, idle := d.current.value.packet, d.(current := None);
    var sets, switched := p.Unit().value.parameterSets, SwitchCodec(idle, p.codec.value);
    SwitchArms(idle, p.codec.value);
    if sets != [] && IsComplete(sets, p.codec.value) && sets != switched.parameterSets {
      ConfigureArms(switched, sets, pf);
    }
  }

  lemma SwitchArms(d: Decoder, codec: NALCodec)
    ensures if d.codec == Some(codec) then SwitchCodec(d, codec) == d
            else SwitchCodec(d, codec).trace == d.trace + [Armed]
  {
  }

  lemma ConfigureArms(d: Decoder, sets: seq<AnnexB.Unit>, pf: Platform)
    ensures Configure(d, sets, pf).trace ==
            d.trace + if !pf.makesFormat || !d.session || !pf.acceptsFormat then [Armed] else []
  {
    if !pf.makesFormat {
    } else if d.session && pf.acceptsFormat {
    } else {
    }
  }

  lemma DecodeArms(d: Decoder, pf: Platform)
    requires d.current.Some?
    ensures var t := Decode(d, pf).trace;
            && d.trace <= t
            && (Unsettles(d, FinishBlock(pf)) ==> d.trace + [Armed] <= t)
            && (Armed in t[|d.trace|..] <==>
                Unsettles(d, FinishBlock(pf))
                || (pf.status != NoErr && exists e :: e in t[|d.trace|..] && e.Fed?))
            && (pf.status != NoErr && (exists e :: e in t[|d.trace|..] && e.Fed?) ==> t[|t| - 1] == Armed)
  {
    hide Reshaped, Prepare, Gate, Decode, Unsettles;
    var p := d.current.value.packet;
    if d.released || p.Unit().None? {
      DecodedNothing(d, pf);
      NotUnsettled(d, pf);
    } else {
      var u := DecodeParts(d, pf);
      hide *;
      PartsArm(d.trace, u, Decode(d, pf).trace, Unsettles(d, FinishBlock(pf)), pf.status != NoErr);
    }
  }

  /** The trace between the two parts of a block. */
  lemma DecodeParts(d: Decoder, pf: Platform) returns (u: seq<Event>)
    requires d.current.Some? && !d.released && d.current.value.packet.Unit().Some?
    ensures var t, v := d.trace, Decode(d, pf).trace;
            && t <= u <= v && (forall k :: |t| <= k < |u| ==> u[k] == Armed)
            && (if Unsettles(d, FinishBlock(pf)) then t + [Armed] <= u else u == t)
            && (v == u || ((Armed in v[|u|..] <==> pf.status != NoErr && exists e :: e in v[|u|..] && e.Fed?)
                           && (Armed in v[|u|..] ==> v[|v| - 1] == Armed)))
  {
    hide Reshaped, Prepare, Gate, Decode, Unsettles;
    var p := d.current.value.packet;
    DecodedInTwo(d, pf);
    PrepareArms(d, pf);
    PreparedEvents(d.(current := None), p.Unit().value.parameterSets, p.codec.value, pf);
    var ready := Prepare(d.(current := None), p.Unit().value.parameterSets, p.codec.value, pf);
    u := ready.trace;
    if p.HasPicture() {
      GateArms(ready, p, d.current.value.at, pf);
    }
  }

  lemma PartsArm(t: seq<Event>, u: seq<Event>, v: seq<Event>, unsettled: bool, refusing: bool)
    requires t <= u <= v && (forall k :: |t| <= k < |u| ==> u[k] == Armed)
    requires if unsettled then t + [Armed] <= u else u == t
    requires v == u || ((Armed in v[|u|..] <==> refusing && exists e :: e in v[|u|..] && e.Fed?)
                        && (Armed in v[|u|..] ==> v[|v| - 1] == Armed))
    ensures unsettled ==> t + [Armed] <= v
    ensures Armed in v[|t|..] <==> unsettled || (refusing && exists e :: e in v[|t|..] && e.Fed?)
    ensures refusing && (exists e :: e in v[|t|..] && e.Fed?) ==> v[|v| - 1] == Armed
  {
    InTwo(t, u, v);
  }

  lemma NotUnsettled(d: Decoder, pf: Platform)
    requires d.current.Some? && (d.released || d.current.value.packet.Unit().None?)
    ensures !Unsettles(d, FinishBlock(pf))
  {
  }

  /** Waits first, then what the gate added. */
  lemma InTwo(t: seq<Event>, u: seq<Event>, v: seq<Event>)
    requires t <= u <= v && forall k :: |t| <= k < |u| ==> u[k] == Armed
    ensures v[|t|..] == u[|t|..] + v[|u|..]
    ensures Armed in v[|t|..] <==> |t| < |u| || Armed in v[|u|..]
    ensures (exists e :: e in v[|t|..] && e.Fed?) <==> exists e :: e in v[|u|..] && e.Fed?
  {
    assert v[|t|..] == u[|t|..] + v[|u|..];
    if |t| < |u| {
      assert u[|t|] in u[|t|..];
    }
  }

  /** A step starts a wait exactly when it unsettles, or hands over a picture that is refused. */
  lemma WaitStartsIff(d: Decoder, a: Action)
    ensures Armed in Added(d, a) <==> Unsettles(d, a) || Refused(d, a)
  {
    hide Dequeue, Decode, Unsettles;
    StepGrows(d, a);
    match a {
      case SubmitPacket(p) =>
        SubmitFields(d, p);
        NothingUnsettles(d, a);
      case StartBlock =>
        if d.queue != [] && d.current.None? {
          DequeueStarts(d);
        } else {
          NothingUnsettles(d, a);
        }
      case FinishBlock(pf) =>
        if d.current.Some? {
          DecodeArms(d, pf);
        } else {
          NothingUnsettles(d, a);
        }
      case Reset => NothingUnsettles(d, a);
      case AsyncError => NothingUnsettles(d, a);
      case Release => NothingUnsettles(d, a);
    }
  }

  /** Only blocks unsettle. */
  lemma NothingUnsettles(d: Decoder, a: Action)
    requires match a
             case StartBlock => d.queue == [] || d.current.Some?
             case FinishBlock(_) => d.current.None?
             case _ => true
    ensures !Unsettles(d, a)
  {
  }

  lemma DequeueStarts(d: Decoder)
    requires d.queue != [] && d.current.None?
    ensures d.trace <= Dequeue(d).trace
    ensures Armed in Dequeue(d).trace[|d.trace|..] <==> Unsettles(d, StartBlock)
  {
    hide Dequeue;
    DequeueArms(d);
    var t := Dequeue(d).trace;
    if Unsettles(d, StartBlock) {
      assert t[|t| - 1] == Armed && t[|t| - 1] in t[|d.trace|..];
    }
  }

  lemma DequeueArms(d: Decoder)
    requires d.queue != [] && d.current.None?
    ensures Dequeue(d).trace ==
            d.trace + match d.queue[0]
                      case RearmTask => [Armed]
                      case ReleaseTask => []
                      case DecodeTask(_, at) => [Dequeued(at)] + if d.overflowed then [Armed] else []
  {
    hide Dequeue, Start;
    match d.queue[0]
    case RearmTask => DequeuedRearm(d);
    case ReleaseTask =>
      DequeuedRelease(d);
      assert d.trace + [] == d.trace;
    case DecodeTask(p, at) =>
      DequeuedPacket(d, p, at);
      StartedLook(d.(queue := d.queue[1..]), p, at);
  }

  // ----- Nothing is fed before a keyframe has ended it -----

  /** A keyframe with a picture ended a wait between these positions. */
  ghost predicate EndedBetween(t: seq<Event>, from: nat, f: nat) {
    exists k :: from <= k < f && k < |t| && t[k].Disarmed? && t[k].packet.keyframe && t[k].packet.HasPicture()
  }

  lemma EndedAfter(t: seq<Event>, a: nat, f: nat, from: nat)
    requires AllJustified(t) && from <= a < f < |t| && t[a] == Armed && t[f].Fed?
    ensures EndedBetween(t, from, f)
  {
    hide AllJustified, Reshaped;
    var k := KeyframeBeforeFeeding(t, a, f);
  }

  /** Up to step `n`, and to its end. */
  lemma RunParts(actions: seq<Action>, n: nat)
    requires n < |actions|
    ensures var before, t := Run(INITIAL, actions[..n]), Run(INITIAL, actions).trace;
            && before.trace <= Step(before, actions[n]).trace <= t && AllJustified(t)
  {
    hide Run, Step, AllJustified;
    var before := Run(INITIAL, actions[..n]);
    RunAt(actions, n);
    StepGrows(before, actions[n]);
    RunGrows(Step(before, actions[n]), actions[n + 1..]);
    RunJustified(actions);
  }

  lemma RunAt(actions: seq<Action>, n: nat)
    requires n < |actions|
    ensures Run(INITIAL, actions) == Run(Step(Run(INITIAL, actions[..n]), actions[n]), actions[n + 1..])
  {
    hide Run, Step;
    assert actions[..n + 1] == actions[..n] + [actions[n]];
    RunMore(INITIAL, actions[..n], actions[n]);
    assert actions == actions[..n + 1] + actions[n + 1..];
    RunConcat(INITIAL, actions[..n + 1], actions[n + 1..]);
  }

  lemma RunJustified(actions: seq<Action>)
    ensures AllJustified(Run(INITIAL, actions).trace)
  {
    hide Run;
    RunSound(actions);
  }

  lemma UnsettledArms(d: Decoder, a: Action) returns (k: nat)
    requires Unsettles(d, a)
    ensures |d.trace| <= k < |Step(d, a).trace| && Step(d, a).trace[k] == Armed
    ensures forall j :: |d.trace| <= j < k ==> !Step(d, a).trace[j].Fed?
  {
    hide Reshaped, Dequeue, Decode, BringsNewSets, IsComplete;
    if a.StartBlock? {
      DequeueArms(d);
      k := if d.queue[0].RearmTask? then |d.trace| else |d.trace| + 1;
    } else {
      DecodeArms(d, a.platform);
      k := |d.trace|;
      assert (d.trace + [Armed])[k] == Armed;
    }
  }

  /** Over every run: from an unsettling step on, no picture is fed before a keyframe has ended a wait. */
  lemma UnsettledWaits(actions: seq<Action>, n: nat, f: nat)
    requires n < |actions| && Unsettles(Run(INITIAL, actions[..n]), actions[n])
    requires |Run(INITIAL, actions[..n]).trace| <= f < |Run(INITIAL, actions).trace|
    requires Run(INITIAL, actions).trace[f].Fed?
    ensures EndedBetween(Run(INITIAL, actions).trace, |Run(INITIAL, actions[..n]).trace|, f)
  {
    hide Run, Step, Unsettles, AllJustified;
    var before, t := Run(INITIAL, actions[..n]), Run(INITIAL, actions).trace;
    RunParts(actions, n);
    var k := UnsettledArms(before, actions[n]);
    var after := Step(before, actions[n]).trace;
    assert t[k] == after[k];
    assert f < |after| ==> t[f] == after[f];
    EndedAfter(t, k, f, |before.trace|);
  }

  lemma RefusedIsLast(d: Decoder, a: Action)
    requires Refused(d, a)
    ensures Step(d, a).trace != [] && Step(d, a).trace[|Step(d, a).trace| - 1] == Armed
  {
    hide Decode, Unsettles;
    if d.current.Some? {
      DecodeArms(d, a.platform);
    }
  }

  /** Over every run: once VideoToolbox has refused a picture, none is fed before a keyframe has ended a new wait. */
  lemma RefusedWaits(actions: seq<Action>, n: nat, f: nat)
    requires n < |actions| && Refused(Run(INITIAL, actions[..n]), actions[n])
    requires |Step(Run(INITIAL, actions[..n]), actions[n]).trace| <= f < |Run(INITIAL, actions).trace|
    requires Run(INITIAL, actions).trace[f].Fed?
    ensures EndedBetween(Run(INITIAL, actions).trace, |Step(Run(INITIAL, actions[..n]), actions[n]).trace|, f)
  {
    hide Run, Step, Refused, AllJustified, Reshaped;
    var t, after := Run(INITIAL, actions).trace, Step(Run(INITIAL, actions[..n]), actions[n]).trace;
    RunParts(actions, n);
    RefusedIsLast(Run(INITIAL, actions[..n]), actions[n]);
    assert t[|after| - 1] == after[|after| - 1];
    EndedAfter(t, |after| - 1, f, |after| - 1);
  }

  // ----- Resets and releases reach everything submitted after them -----

  /** `task` stands in the queue before everything submitted from `b` on, and none of that has been fed. */
  ghost predicate TaskAhead(d: Decoder, b: nat, task: Task, j: nat) {
    && j < |d.queue| && d.queue[j] == task
    && (forall i :: 0 <= i < j && d.queue[i].DecodeTask? ==> d.queue[i].at < b)
    && (d.current.Some? ==> d.current.value.at < b)
    && NoneSince(d, b)
  }

  /** Nothing submitted from `b` on has been fed. */
  ghost predicate NoneSince(d: Decoder, b: nat) {
    forall f :: 0 <= f < |d.trace| && d.trace[f].Fed? ==> d.trace[f].at < b
  }

  /** The wait has begun at `a`, before anything submitted from `b` on was fed. */
  ghost predicate Rearmed(d: Decoder, b: nat, a: nat) {
    b <= a < |d.trace| && d.trace[a] == Armed
    && forall f :: 0 <= f < a && d.trace[f].Fed? ==> d.trace[f].at < b
  }

  /** The task took effect before anything submitted from `b` on was fed. */
  ghost predicate TookEffect(d: Decoder, b: nat, task: Task) {
    if task.RearmTask? then exists a: nat :: Rearmed(d, b, a) else d.released && NoneSince(d, b)
  }

  ghost predicate TaskHolds(d: Decoder, b: nat, task: Task) {
    b <= |d.trace| && ((exists j: nat :: TaskAhead(d, b, task, j)) || TookEffect(d, b, task))
  }

  lemma RearmedStays(d: Decoder, e: Decoder, b: nat)
    requires d.trace <= e.trace && exists a: nat :: Rearmed(d, b, a)
    ensures exists a: nat :: Rearmed(e, b, a)
  {
    var a: nat :| Rearmed(d, b, a);
    assert forall f :: 0 <= f <= a ==> e.trace[f] == d.trace[f];
    assert Rearmed(e, b, a);
  }

  /** A released decoder feeds nothing more and stays released. */
  lemma ReleasedStays(d: Decoder, a: Action)
    requires d.released
    ensures var after := Step(d, a);
            && after.released && d.trace <= after.trace
            && forall f :: |d.trace| <= f < |after.trace| ==> !after.trace[f].Fed?
  {
    hide Dequeue, Decode, Reshaped;
    StepGrows(d, a);
    match a {
      case SubmitPacket(p) => SubmitFields(d, p);
      case StartBlock =>
        if d.queue != [] && d.current.None? {
          DequeuedLook(d);
          DequeuedEvents(d);
        }
      case FinishBlock(pf) =>
        if d.current.Some? {
          DecodedNothing(d, pf);
        }
      case Reset =>
      case AsyncError =>
      case Release =>
    }
  }

  lemma NoneSinceOn(d: Decoder, e: Decoder, b: nat)
    requires NoneSince(d, b) && d.trace <= e.trace
    requires forall f :: |d.trace| <= f < |e.trace| && e.trace[f].Fed? ==> e.trace[f].at < b
    ensures NoneSince(e, b)
  {
    assert forall f :: 0 <= f < |d.trace| ==> e.trace[f] == d.trace[f];
  }

  lemma EffectStays(d: Decoder, b: nat, task: Task, a: Action)
    requires TookEffect(d, b, task)
    ensures TookEffect(Step(d, a), b, task)
  {
    hide Step;
    StepGrows(d, a);
    if task.RearmTask? {
      RearmedStays(d, Step(d, a), b);
    } else {
      ReleasedStays(d, a);
      NoneSinceOn(d, Step(d, a), b);
    }
  }

  /** New events that feed nothing submitted since, and a queue that only grows. */
  lemma AheadOn(d: Decoder, e: Decoder, b: nat, task: Task, j: nat)
    requires TaskAhead(d, b, task, j) && d.queue <= e.queue && (e.current.Some? ==> e.current == d.current)
    requires d.trace <= e.trace
    requires forall f :: |d.trace| <= f < |e.trace| && e.trace[f].Fed? ==> e.trace[f].at < b
    ensures TaskAhead(e, b, task, j)
  {
    NoneSinceOn(d, e, b);
  }

  lemma AheadDequeue(d: Decoder, b: nat, task: Task, j: nat)
    requires TaskAhead(d, b, task, j) && b <= |d.trace| && d.current.None? && !task.DecodeTask?
    ensures TaskHolds(Dequeue(d), b, task)
  {
    hide Dequeue, Start;
    var after := Dequeue(d);
    DequeueArms(d);
    DequeuedLook(d);
    NoneSinceOn(d, after, b);
    if j == 0 {
      if task.RearmTask? {
        assert Rearmed(after, b, |d.trace|);
      }
    } else {
      assert TaskAhead(after, b, task, j - 1);
    }
  }

  lemma TaskStep(d: Decoder, b: nat, task: Task, a: Action)
    requires TaskHolds(d, b, task) && !task.DecodeTask?
    ensures TaskHolds(Step(d, a), b, task)
  {
    hide Dequeue, Decode, Reshaped, TookEffect;
    StepGrows(d, a);
    if TookEffect(d, b, task) {
      hide Step;
      EffectStays(d, b, task, a);
    } else {
      var j: nat :| TaskAhead(d, b, task, j);
      if a.StartBlock? && d.current.None? {
        AheadDequeue(d, b, task, j);
      } else {
        OtherwiseAhead(d, b, task, a, j);
      }
    }
  }

  lemma OtherwiseAhead(d: Decoder, b: nat, task: Task, a: Action, j: nat)
    requires TaskAhead(d, b, task, j) && !(a.StartBlock? && d.current.None?)
    ensures TaskAhead(Step(d, a), b, task, j)
  {
    hide Dequeue, Decode, Reshaped, TaskAhead, EndsWait;
    match a {
      case SubmitPacket(p) =>
        SubmitFields(d, p);
        AheadOn(d, Submit(d, p), b, task, j);
      case StartBlock =>
      case FinishBlock(pf) =>
        if d.current.Some? {
          DecodedRest(d, pf);
          DecodedEvents(d, pf);
          AheadCurrent(d, b, task, j);
          AheadOn(d, Decode(d, pf), b, task, j);
        }
      case Reset => AheadOn(d, Enqueue(d, RearmTask), b, task, j);
      case AsyncError => AheadOn(d, Enqueue(d, RearmTask), b, task, j);
      case Release => AheadOn(d, Enqueue(d, ReleaseTask), b, task, j);
    }
  }

  lemma AheadCurrent(d: Decoder, b: nat, task: Task, j: nat)
    requires TaskAhead(d, b, task, j) && d.current.Some?
    ensures d.current.value.at < b
  {
  }

  lemma {:induction false} TaskRun(d: Decoder, b: nat, task: Task, actions: seq<Action>)
    requires TaskHolds(d, b, task) && !task.DecodeTask?
    ensures TaskHolds(Run(d, actions), b, task)
  {
    hide TaskHolds, Step;
    if |actions| > 0 {
      TaskRun(d, b, task, actions[..|actions| - 1]);
      TaskStep(Run(d, actions[..|actions| - 1]), b, task, actions[|actions| - 1]);
    }
  }

  /** Everything queued, running or fed was submitted before now. */
  ghost predicate AllPast(d: Decoder) {
    && (forall t :: t in d.queue && t.DecodeTask? ==> t.at < |d.trace|)
    && (d.current.Some? ==> d.current.value.at < |d.trace|)
    && (forall f :: 0 <= f < |d.trace| && d.trace[f].Fed? ==> d.trace[f].at < |d.trace|)
  }

  lemma PastStep(d: Decoder, a: Action)
    requires AllPast(d)
    ensures AllPast(Step(d, a))
  {
    hide Dequeue, Decode, Reshaped, EndsWait, AllPast;
    match a {
      case SubmitPacket(p) =>
        SubmitFields(d, p);
        PastOn(d, Submit(d, p), DecodeTask(p, |d.trace|));
      case StartBlock =>
        if d.queue != [] && d.current.None? {
          PastDequeue(d);
        }
      case FinishBlock(pf) =>
        if d.current.Some? {
          DecodedRest(d, pf);
          DecodedEvents(d, pf);
          PastCurrent(d);
          PastOn(d, Decode(d, pf), RearmTask);
        }
      case Reset => PastOn(d, Enqueue(d, RearmTask), RearmTask);
      case AsyncError => PastOn(d, Enqueue(d, RearmTask), RearmTask);
      case Release => PastOn(d, Enqueue(d, ReleaseTask), ReleaseTask);
    }
  }

  lemma PastOn(d: Decoder, e: Decoder, t: Task)
    requires AllPast(d) && d.trace <= e.trace && (e.current.Some? ==> e.current == d.current)
    requires e.queue == d.queue || e.queue == d.queue + [t]
    requires e.queue != d.queue && t.DecodeTask? ==> t.at < |e.trace|
    requires forall f :: |d.trace| <= f < |e.trace| && e.trace[f].Fed? ==> e.trace[f].at < |e.trace|
    ensures AllPast(e)
  {
    assert forall f :: 0 <= f < |d.trace| ==> e.trace[f] == d.trace[f];
  }

  lemma PastCurrent(d: Decoder)
    requires AllPast(d) && d.current.Some?
    ensures d.current.value.at < |d.trace|
  {
  }

  lemma PastDequeue(d: Decoder)
    requires AllPast(d) && d.queue != [] && d.current.None?
    ensures AllPast(Dequeue(d))
  {
    hide Dequeue, Start;
    assert d.queue[0] in d.queue;
    DequeueArms(d);
    DequeuedLook(d);
    assert forall f :: 0 <= f < |d.trace| ==> Dequeue(d).trace[f] == d.trace[f];
  }

  lemma {:induction false} PastRun(actions: seq<Action>)
    ensures AllPast(Run(INITIAL, actions))
  {
    hide Step;
    if |actions| > 0 {
      PastRun(actions[..|actions| - 1]);
      hide AllPast;
      PastStep(Run(INITIAL, actions[..|actions| - 1]), actions[|actions| - 1]);
    }
  }

  lemma TaskBegins(d: Decoder, task: Task)
    requires AllPast(d)
    ensures TaskHolds(Enqueue(d, task), |d.trace|, task)
  {
    var after := Enqueue(d, task);
    forall i | 0 <= i < |d.queue| && after.queue[i].DecodeTask?
      ensures after.queue[i].at < |d.trace|
    {
      assert d.queue[i] in d.queue;
    }
    assert TaskAhead(after, |d.trace|, task, |d.queue|);
  }

  /** From the action that queued it on. */
  lemma TaskQueued(actions: seq<Action>, n: nat, task: Task)
    requires n < |actions| && !task.DecodeTask?
    requires Step(Run(INITIAL, actions[..n]), actions[n]) == Enqueue(Run(INITIAL, actions[..n]), task)
    ensures TaskHolds(Run(INITIAL, actions), |Run(INITIAL, actions[..n]).trace|, task)
  {
    hide Run, AllPast, TaskHolds, Step, Enqueue;
    var before := Run(INITIAL, actions[..n]);
    PastRun(actions[..n]);
    TaskBegins(before, task);
    RunAt(actions, n);
    TaskRun(Step(before, actions[n]), |before.trace|, task, actions[n + 1..]);
  }

  /**
   Over every run: no packet submitted after a reset, or after an error was
   reported from VideoToolbox's thread, is fed unless a keyframe ended a wait since.
   */
  lemma ResetWaits(actions: seq<Action>, n: nat, f: nat)
    requires n < |actions| && (actions[n].Reset? || actions[n].AsyncError?)
    requires f < |Run(INITIAL, actions).trace| && Run(INITIAL, actions).trace[f].Fed?
    requires Run(INITIAL, actions).trace[f].at >= |Run(INITIAL, actions[..n]).trace|
    ensures EndedBetween(Run(INITIAL, actions).trace, |Run(INITIAL, actions[..n]).trace|, f)
  {
    hide Run, TaskHolds, AllJustified, Dequeue, Decode;
    TaskQueued(actions, n, RearmTask);
    RunJustified(actions);
    ResetHeld(Run(INITIAL, actions), |Run(INITIAL, actions[..n]).trace|, f);
  }

  lemma ResetHeld(d: Decoder, b: nat, f: nat)
    requires TaskHolds(d, b, RearmTask) && AllJustified(d.trace)
    requires f < |d.trace| && d.trace[f].Fed? && d.trace[f].at >= b
    ensures EndedBetween(d.trace, b, f)
  {
    hide AllJustified;
    var a: nat :| Rearmed(d, b, a);
    EndedAfter(d.trace, a, f, b);
  }

  /** Over every run: nothing submitted after a release is ever fed. */
  lemma ReleaseStops(actions: seq<Action>, n: nat, f: nat)
    requires n < |actions| && actions[n].Release?
    requires f < |Run(INITIAL, actions).trace| && Run(INITIAL, actions).trace[f].Fed?
    ensures Run(INITIAL, actions).trace[f].at < |Run(INITIAL, actions[..n]).trace|
  {
    hide Run, Dequeue, Decode;
    TaskQueued(actions, n, ReleaseTask);
  }

  /** A released decoder has no session, and goes on feeding nothing. */
  lemma {:induction false} RunReleased(actions: seq<Action>)
    ensures Run(INITIAL, actions).released ==> !Run(INITIAL, actions).session
  {
    hide Step;
    if |actions| > 0 {
      var before, a := Run(INITIAL, actions[..|actions| - 1]), actions[|actions| - 1];
      RunReleased(actions[..|actions| - 1]);
      hide Run;
      StepReleased(before, a);
    }
  }

  lemma StepReleased(d: Decoder, a: Action)
    requires d.released ==> !d.session
    ensures Step(d, a).released ==> !Step(d, a).session
  {
    hide Dequeue, Decode, Reshaped;
    match a {
      case SubmitPacket(p) => SubmitFields(d, p);
      case StartBlock =>
        if d.queue != [] && d.current.None? {
          DequeueReleased(d);
        }
      case FinishBlock(pf) =>
        if d.current.Some? {
          if d.released {
            DecodedNothing(d, pf);
          } else {
            DecodedLook(d, pf);
            LookReleased(d);
            hide Look;
            LookReleased(Decode(d, pf));
          }
        }
      case Reset =>
      case AsyncError =>
      case Release =>
    }
  }

  lemma DequeueReleased(d: Decoder)
    requires d.queue != [] && d.current.None? && (d.released ==> !d.session)
    ensures Dequeue(d).released ==> !Dequeue(d).session
  {
    hide Dequeue;
    match d.queue[0]
    case RearmTask => DequeuedRearm(d);
    case ReleaseTask => DequeuedRelease(d);
    case DecodeTask(p, at) => DequeuedLook(d);
  }

  /** A released decoder stays released, step by step, until nothing is left of the queue: see `ReleasedStays`. */
  lemma {:induction false} ReleasedRun(d: Decoder, actions: seq<Action>)
    requires d.released
    ensures var after := Run(d, actions);
            && after.released && d.trace <= after.trace
            && forall f :: |d.trace| <= f < |after.trace| ==> !after.trace[f].Fed?
  {
    hide Step;
    if |actions| > 0 {
      ReleasedRun(d, actions[..|actions| - 1]);
      ReleasedStays(Run(d, actions[..|actions| - 1]), actions[|actions| - 1]);
    }
  }

  // ----- An overflow starts one wait -----

  /** A packet was dropped, and none has been dequeued since. */
  ghost predicate DropOpen(t: seq<Event>) {
    exists i :: 0 <= i < |t| && t[i] == Dropped && !DequeuedSince(t, i)
  }

  lemma DropOpenMore(t: seq<Event>, e: Event)
    ensures DropOpen(t + [e]) <==> e == Dropped || (DropOpen(t) && !e.Dequeued?)
  {
    var u := t + [e];
    MoreTrace(t, e);
    hide DequeuedSince;
    assert forall i :: 0 <= i < |t| ==> u[i] == t[i];
    if e == Dropped {
      assert u[|t|] == Dropped;
    }
    if DropOpen(t) && !e.Dequeued? {
      var i :| 0 <= i < |t| && t[i] == Dropped && !DequeuedSince(t, i);
      assert u[i] == Dropped && !DequeuedSince(u, i);
    }
    if DropOpen(u) {
      var i :| 0 <= i < |u| && u[i] == Dropped && !DequeuedSince(u, i);
      assert i < |t| ==> t[i] == Dropped && !DequeuedSince(t, i);
    }
  }

  /** Events that neither drop nor dequeue leave it as it was. */
  lemma {:induction false} DropOpenSame(t: seq<Event>, u: seq<Event>)
    requires t <= u && forall k :: |t| <= k < |u| ==> !u[k].Dropped? && !u[k].Dequeued?
    ensures DropOpen(u) <==> DropOpen(t)
    decreases |u|
  {
    hide DropOpen;
    if |u| == |t| {
      assert u == t;
    } else {
      var front := u[..|u| - 1];
      DropOpenSame(t, front);
      DropOpenMore(front, u[|u| - 1]);
      assert u == front + [u[|u| - 1]];
    }
  }

  lemma FlagStep(d: Decoder, a: Action)
    requires d.overflowed <==> DropOpen(d.trace)
    ensures Step(d, a).overflowed <==> DropOpen(Step(d, a).trace)
  {
    hide Dequeue, Decode, Reshaped, DropOpen, EndsWait;
    match a {
      case SubmitPacket(p) =>
        DropOpenMore(d.trace, Dropped);
        DropOpenMore(d.trace, Submitted(p));
      case StartBlock =>
        if d.queue != [] && d.current.None? {
          FlagDequeue(d);
        }
      case FinishBlock(pf) =>
        if d.current.Some? {
          DecodedRest(d, pf);
          DecodedEvents(d, pf);
          DropOpenSame(d.trace, Decode(d, pf).trace);
        }
      case Reset =>
      case AsyncError =>
      case Release =>
    }
  }

  lemma FlagDequeue(d: Decoder)
    requires d.queue != [] && d.current.None? && (d.overflowed <==> DropOpen(d.trace))
    ensures Dequeue(d).overflowed <==> DropOpen(Dequeue(d).trace)
  {
    hide Dequeue, Start, DropOpen;
    match d.queue[0]
    case RearmTask =>
      DequeuedRearm(d);
      DropOpenMore(d.trace, Armed);
    case ReleaseTask => DequeuedRelease(d);
    case DecodeTask(p, at) =>
      DequeuedPacket(d, p, at);
      StartedLook(d.(queue := d.queue[1..]), p, at);
      DropOpenMore(d.trace, Dequeued(at));
      assert d.trace + [Dequeued(at)] + [] == d.trace + [Dequeued(at)];
      DropOpenMore(d.trace + [Dequeued(at)], Armed);
  }

  /** Over every run the flag is up exactly while a drop waits for the next packet to be dequeued. */
  lemma {:induction false} OverflowedIff(actions: seq<Action>)
    ensures Run(INITIAL, actions).overflowed <==> DropOpen(Run(INITIAL, actions).trace)
  {
    hide Step;
    if |actions| > 0 {
      OverflowedIff(actions[..|actions| - 1]);
      hide DropOpen;
      FlagStep(Run(INITIAL, actions[..|actions| - 1]), actions[|actions| - 1]);
    }
  }

  // ----- A codec this device cannot decode -----

  /** It is reported, and the packet changes nothing else; nothing but such a packet is reported. */
  lemma ReportedIff(d: Decoder, pf: Platform)
    requires d.current.Some?
    ensures var after, unsupported := Decode(d, pf), !d.released && d.current.value.packet.codec.None?;
            && (after.reported <==> d.reported || unsupported)
            && (unsupported ==> after == d.(current := None, reported := true))
  {
    hide Reshaped, Prepare, Gate;
    var p, at := d.current.value.packet, d.current.value.at;
    if !d.released && p.Unit().Some? {
      var idle, sets := d.(current := None), p.Unit().value.parameterSets;
      PreparedRest(idle, sets, p.codec.value, pf);
      GateRest(Prepare(idle, sets, p.codec.value, pf), p, at, pf);
    }
  }

  // ----- The wait does end -----

  /** Every session asked for could be created. */
  ghost predicate SessionsCreated(actions: seq<Action>) {
    forall a :: a in actions && a.FinishBlock? ==> a.platform.createsSession
  }

  /** Without a session no parameter sets are remembered, so the next ones are new. */
  predicate Fresh(d: Decoder) {
    d.released || d.session || d.parameterSets == []
  }

  /** A session is described by complete parameter sets of the codec in use. */
  predicate Described(d: Decoder) {
    d.session ==> d.codec.Some? && IsComplete(d.parameterSets, d.codec.value)
  }

  lemma PrepareDescribed(d: Decoder, sets: seq<AnnexB.Unit>, codec: NALCodec, pf: Platform)
    requires Described(d)
    ensures var after := Prepare(d, sets, codec, pf);
            && Described(after) && after.codec == Some(codec)
            && (Fresh(d) && !d.released && pf.createsSession ==> Fresh(after))
  {
    hide IsComplete, Configure, SwitchCodec;
    var switched := SwitchCodec(d, codec);
    SwitchDescribed(d, codec);
    if sets != [] && IsComplete(sets, codec) && sets != switched.parameterSets {
      ConfigureDescribed(switched, sets, pf);
    }
  }

  lemma SwitchDescribed(d: Decoder, codec: NALCodec)
    requires Described(d)
    ensures var after := SwitchCodec(d, codec);
            Described(after) && after.codec == Some(codec) && (Fresh(d) ==> Fresh(after)) && after.released == d.released
  {
    hide IsComplete;
  }

  lemma ConfigureDescribed(d: Decoder, sets: seq<AnnexB.Unit>, pf: Platform)
    requires Described(d) && d.codec.Some? && IsComplete(sets, d.codec.value)
    ensures var after := Configure(d, sets, pf);
            Described(after) && after.codec == d.codec && (Fresh(d) && pf.createsSession ==> Fresh(after))
  {
    hide IsComplete, Arm;
    FedFields(d);
    FedFields(d.(parameterSets := sets, format := true, session := false));
    if !pf.makesFormat {
    } else if d.session && pf.acceptsFormat {
    } else {
      assert Configure(d, sets, pf).session == pf.createsSession;
    }
  }

  lemma GateDescribed(d: Decoder, p: Packet, at: nat, pf: Platform)
    requires Described(d)
    ensures Described(Gate(d, p, at, pf)) && (Fresh(d) ==> Fresh(Gate(d, p, at, pf)))
  {
    hide IsComplete, Reshaped, Feed;
    FeedDescribed(Log(d.(awaiting := false, skipping := p.IsCleanRandomAccess()), Disarmed(p, at)), p, at, pf);
    FeedDescribed(Log(d.(skipping := false), Admitted(p, at)), p, at, pf);
  }

  lemma FeedDescribed(d: Decoder, p: Packet, at: nat, pf: Platform)
    ensures Described(d) ==> Described(Feed(d, p, at, pf))
    ensures Fresh(d) ==> Fresh(Feed(d, p, at, pf))
  {
    hide IsComplete;
    if d.session && d.format && pf.makesSample {
      match pf.status
      case NoErr =>
      case InvalidSession =>
      case OtherError =>
    }
  }

  lemma StepDescribed(d: Decoder, a: Action)
    requires Described(d)
    ensures Described(Step(d, a))
    ensures Fresh(d) && (a.FinishBlock? ==> a.platform.createsSession) ==> Fresh(Step(d, a))
  {
    hide Dequeue, Decode, Reshaped, IsComplete, Prepare, Gate;
    match a {
      case SubmitPacket(p) => SubmitFields(d, p);
      case StartBlock =>
        if d.queue != [] && d.current.None? {
          DequeueDescribed(d);
        }
      case FinishBlock(pf) =>
        if d.current.Some? {
          DecodeDescribed(d, pf);
        }
      case Reset =>
      case AsyncError =>
      case Release =>
    }
  }

  lemma DequeueDescribed(d: Decoder)
    requires d.queue != [] && d.current.None? && Described(d)
    ensures Described(Dequeue(d)) && (Fresh(d) ==> Fresh(Dequeue(d)))
  {
    hide Dequeue, Start, IsComplete;
    match d.queue[0]
    case RearmTask => DequeuedRearm(d);
    case ReleaseTask => DequeuedRelease(d);
    case DecodeTask(p, at) =>
      DequeuedPacket(d, p, at);
      StartedLook(d.(queue := d.queue[1..]), p, at);
  }

  lemma DecodeDescribed(d: Decoder, pf: Platform)
    requires d.current.Some? && Described(d)
    ensures Described(Decode(d, pf)) && (Fresh(d) && pf.createsSession ==> Fresh(Decode(d, pf)))
  {
    hide Decode, Reshaped, IsComplete, Prepare, Gate;
    var p := d.current.value.packet;
    if d.released || p.Unit().None? {
      DecodedNothing(d, pf);
    } else {
      DecodedInTwo(d, pf);
      PrepareDescribed(d.(current := None), p.Unit().value.parameterSets, p.codec.value, pf);
      GateDescribed(Prepare(d.(current := None), p.Unit().value.parameterSets, p.codec.value, pf),
                    p, d.current.value.at, pf);
    }
  }

  /** Over every run a session stands for complete parameter sets of the codec in use. */
  lemma {:induction false} RunDescribed(actions: seq<Action>)
    ensures Described(Run(INITIAL, actions))
    ensures SessionsCreated(actions) ==> Fresh(Run(INITIAL, actions))
  {
    hide Step, IsComplete;
    if |actions| > 0 {
      var front, last := actions[..|actions| - 1], actions[|actions| - 1];
      assert last in actions && forall a :: a in front ==> a in actions;
      RunDescribed(front);
      StepDescribed(Run(INITIAL, front), last);
    }
  }

  /** A keyframe with a picture and complete parameter sets. */
  predicate Complete(p: Packet) {
    p.keyframe && p.HasPicture() && IsComplete(p.Unit().value.parameterSets, p.codec.value)
  }

  /**
   Over every run whose sessions could be created: a keyframe with its parameter
   sets is fed, whatever was refused or reset before, when the calls of its own
   block work. (A keyframe that calls itself RASL may be skipped behind a CRA.)
   */
  lemma CompleteKeyframeIsFed(actions: seq<Action>)
    requires SessionsCreated(actions)
    requires var d := Run(INITIAL, actions);
             && d.current.Some? && !d.released && Complete(d.current.value.packet)
             && !d.current.value.packet.IsRasl()
    ensures var d := Run(INITIAL, actions);
            Fed(d.current.value.packet, d.current.value.at) in Added(d, FinishBlock(WORKS))
  {
    hide Run, Decode, Sound, Live;
    var d := Run(INITIAL, actions);
    RunSound(actions);
    SoundFormat(d);
    RunLive(actions);
    RunDescribed(actions);
    FreshKeyframeIsFed(d);
    StepGrows(d, FinishBlock(WORKS));
  }

  lemma FreshKeyframeIsFed(d: Decoder)
    requires d.current.Some? && !d.released && Complete(d.current.value.packet) && !d.current.value.packet.IsRasl()
    requires Fresh(d) && Live(d) && (d.session ==> d.format)
    ensures var t := Decode(d, WORKS).trace;
            d.trace <= t && Fed(d.current.value.packet, d.current.value.at) in t[|d.trace|..]
  {
    hide Decode, Reshaped, IsComplete, Prepare, Gate;
    var p, at := d.current.value.packet, d.current.value.at;
    var idle, sets := d.(current := None), p.Unit().value.parameterSets;
    var ready := Prepare(idle, sets, p.codec.value, WORKS);
    DecodedInTwo(d, WORKS);
    CompleteIsSome(sets, p.codec.value);
    PreparedSession(idle, sets, p.codec.value);
    PreparedFormat(idle, sets, p.codec.value, WORKS);
    PreparedEvents(idle, sets, p.codec.value, WORKS);
    GateFeeds(ready, p, at);
  }

  lemma CompleteIsSome(sets: seq<AnnexB.Unit>, codec: NALCodec)
    requires IsComplete(sets, codec)
    ensures sets != []
  {
  }

  lemma PreparedSession(d: Decoder, sets: seq<AnnexB.Unit>, codec: NALCodec)
    requires (d.session || d.parameterSets == []) && sets != [] && IsComplete(sets, codec)
    ensures Prepare(d, sets, codec, WORKS).session
  {
    hide IsComplete, Configure;
    ConfiguredLook(SwitchCodec(d, codec), sets, WORKS);
  }

  lemma GateFeeds(d: Decoder, p: Packet, at: nat)
    requires d.session && d.format && p.keyframe && !p.IsRasl()
    ensures var t := Gate(d, p, at, WORKS).trace;
            d.trace <= t && forall from :: 0 <= from <= |d.trace| ==> Fed(p, at) in t[from..]
  {
    hide Reshaped, Feed;
    var t := Gate(d, p, at, WORKS).trace;
    if d.awaiting {
      FeedTrace(Log(d.(awaiting := false, skipping := p.IsCleanRandomAccess()), Disarmed(p, at)), p, at, WORKS);
    } else {
      FeedTrace(Log(d.(skipping := false), Admitted(p, at)), p, at, WORKS);
    }
    assert t[|d.trace| + 1] == Fed(p, at);
    forall from | 0 <= from <= |d.trace| ensures Fed(p, at) in t[from..] {
      assert t[from..][|d.trace| + 1 - from] == Fed(p, at);
    }
  }

  /**
   A session that could not be created is not asked for again: as long as the
   parameter sets are the same, no keyframe ends the wait, whatever works by then.
   */
  lemma FailedCreationSticks(d: Decoder, pf: Platform)
    requires d.current.Some? && d.awaiting && !d.session && d.current.value.packet.Unit().Some?
    requires d.current.value.packet.codec == d.codec
    requires d.current.value.packet.Unit().value.parameterSets == d.parameterSets
    ensures Decode(d, pf) == d.(current := None)
  {
    hide Reshaped, IsComplete;
  }
}
