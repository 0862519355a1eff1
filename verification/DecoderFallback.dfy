/**
 The client's video decoder and its fallback through the backend list
 (crates/termland-codec/src/decoder.rs), and the thread that drives it
 (`decode_thread` in crates/termland-client/src/connection.rs).

 FFmpeg may answer any way when a backend is opened or fed a packet. The object
 `Ffmpeg` keeps the calls made to it and its answers, and `Served` says what one
 `decode` call owes given the answers it got; the ghost results are the calls a
 method added.
 */
module DecoderFallback {
  import opened Prelude

  datatype Codec = Av1 | Vp9 | Vp8 | H265 | H264

  datatype Backend =
    | IntelQsv | NvidiaCuvid | Dav1d
    | Vp9Vaapi | Vp9V4l2m2m | LibvpxVp9
    | Vp8V4l2m2m | Libvpx
    | HevcQsv | HevcCuvid | HevcVaapi | HevcV4l2m2m | HevcSoftware
    | H264Qsv | H264Cuvid | H264Vaapi | H264V4l2m2m | H264Software

  function CodecOf(b: Backend): Codec {
    match b
    case IntelQsv | NvidiaCuvid | Dav1d => Av1
    case Vp9Vaapi | Vp9V4l2m2m | LibvpxVp9 => Vp9
    case Vp8V4l2m2m | Libvpx => Vp8
    case HevcQsv | HevcCuvid | HevcVaapi | HevcV4l2m2m | HevcSoftware => H265
    case H264Qsv | H264Cuvid | H264Vaapi | H264V4l2m2m | H264Software => H264
  }

  const PRIORITY: seq<Backend> := [
    NvidiaCuvid, IntelQsv, Vp9Vaapi, Vp9V4l2m2m, Vp8V4l2m2m,
    HevcCuvid, HevcVaapi, HevcV4l2m2m, HevcQsv,
    H264Cuvid, H264Vaapi, H264V4l2m2m, H264Qsv,
    Dav1d, LibvpxVp9, Libvpx, HevcSoftware, H264Software]

  const MAX_REINIT_FAILURES: nat := 2

  /** Where a backend stands in the priority list. */
  function Rank(b: Backend): nat {
    match b
    case NvidiaCuvid => 0 case IntelQsv => 1 case Vp9Vaapi => 2 case Vp9V4l2m2m => 3 case Vp8V4l2m2m => 4
    case HevcCuvid => 5 case HevcVaapi => 6 case HevcV4l2m2m => 7 case HevcQsv => 8
    case H264Cuvid => 9 case H264Vaapi => 10 case H264V4l2m2m => 11 case H264Qsv => 12
    case Dav1d => 13 case LibvpxVp9 => 14 case Libvpx => 15 case HevcSoftware => 16 case H264Software => 17
  }

  /** The list holds every backend exactly once. */
  lemma ListedOnce(k: nat, b: Backend)
    requires k < |PRIORITY|
    ensures PRIORITY[k] == b <==> Rank(b) == k
    ensures Rank(b) < |PRIORITY|
  {
  }

  /** The list does not mix codecs up, and each has one software decoder. */
  lemma CodecsOf(b: Backend)
    ensures CodecOf(b) == Av1 <==> b in {NvidiaCuvid, IntelQsv, Dav1d}
    ensures CodecOf(b) == Vp9 <==> b in {Vp9Vaapi, Vp9V4l2m2m, LibvpxVp9}
    ensures CodecOf(b) == Vp8 <==> b in {Vp8V4l2m2m, Libvpx}
    ensures CodecOf(b) == H265 <==> b in {HevcCuvid, HevcVaapi, HevcV4l2m2m, HevcQsv, HevcSoftware}
    ensures CodecOf(b) == H264 <==> b in {H264Cuvid, H264Vaapi, H264V4l2m2m, H264Qsv, H264Software}
  {
  }

  predicate Software(b: Backend) {
    b in {Dav1d, LibvpxVp9, Libvpx, HevcSoftware, H264Software}
  }

  predicate OpenSource(codec: Codec) {
    codec in {Av1, Vp9, Vp8}
  }

  /**
   Hardware comes before software, among either the open codecs before the
   others, and of one codec's hardware Quick Sync last.
   */
  lemma TriedInOrder()
    ensures forall b, c :: !Software(b) && Software(c) ==> Rank(b) < Rank(c)
    ensures forall b, c :: Software(b) == Software(c) && OpenSource(CodecOf(b)) && !OpenSource(CodecOf(c)) ==>
              Rank(b) < Rank(c)
    ensures Rank(NvidiaCuvid) < Rank(IntelQsv) && Rank(Vp9Vaapi) < Rank(Vp9V4l2m2m)
    ensures Rank(HevcCuvid) < Rank(HevcVaapi) < Rank(HevcV4l2m2m) < Rank(HevcQsv)
    ensures Rank(H264Cuvid) < Rank(H264Vaapi) < Rank(H264V4l2m2m) < Rank(H264Qsv)
  {
    forall b, c | !Software(b) && Software(c) ensures Rank(b) < 13 <= Rank(c) {
    }
  }

  datatype Size = Size(width: nat, height: nat)

  /** What FFmpeg makes of a packet: `send_packet`, then `receive_frame`. */
  datatype Outcome = SendAgain | SendError | ReceiveAgain | ReceiveError | Picture(size: Size)

  datatype Call = Opened(backend: Backend, ok: bool) | Fed(backend: Backend, outcome: Outcome)

  /** What is asked of the scaler: to be made for a picture size, and to run on a picture. */
  datatype Scaling = MakeScaler(size: Size, ok: bool) | RunScaler(scaler: Size, picture: Size, ok: bool)

  datatype Error = InitFailed | DecodeFailed | NoFrame

  type Filter = Option<Codec>

  predicate Matches(filter: Filter, b: Backend) {
    filter == None || CodecOf(b) == filter.value
  }

  /** FFmpeg refused the packet, as opposed to having no picture yet. */
  predicate Breaks(o: Outcome) {
    o.SendAgain? || o.SendError? || o.ReceiveError?
  }

  /** The call shows that the backend does not work here. */
  predicate Rejects(c: Call, b: Backend) {
    c.backend == b && if c.Opened? then !c.ok else Breaks(c.outcome)
  }

  predicate Rejected(made: seq<Call>, b: Backend) {
    exists i :: 0 <= i < |made| && Rejects(made[i], b)
  }

  /** Packets handed to FFmpeg. */
  function Feeds(made: seq<Call>): nat {
    if |made| == 0 then 0 else Feeds(made[..|made| - 1]) + if made[|made| - 1].Fed? then 1 else 0
  }

  lemma {:induction false} FeedsAppend(a: seq<Call>, b: seq<Call>)
    ensures Feeds(a + b) == Feeds(a) + Feeds(b)
  {
    if |b| == 0 {
      assert a + b == a;
    } else {
      assert (a + b)[..|a + b| - 1] == a + b[..|b| - 1];
      FeedsAppend(a, b[..|b| - 1]);
    }
  }

  /** The decoder's own fields, as a value. */
  datatype State = State(
    index: nat,                 // into PRIORITY
    failed: seq<Backend>,
    confirmed: bool,            // has decoded a frame
    reinitFailures: nat,        // consecutive
    filter: Filter)

  /** In the list, in codec, and every backend given up on comes before it. */
  ghost predicate Sound(s: State) {
    && s.index < |PRIORITY|
    && Matches(s.filter, PRIORITY[s.index])
    && forall b :: b in s.failed ==> Rank(b) < s.index
  }

  /** Every matching backend from `lo` up to `hi` was tried and did not work. */
  ghost predicate AllRejected(filter: Filter, made: seq<Call>, lo: nat, hi: nat) {
    forall b :: lo <= Rank(b) < hi && Matches(filter, b) ==> Rejected(made, b)
  }

  ghost predicate InCodec(filter: Filter, made: seq<Call>) {
    forall i :: 0 <= i < |made| ==> Matches(filter, made[i].backend)
  }

  ghost predicate GavePicture(made: seq<Call>, b: Backend, size: Size) {
    |made| > 0 && made[|made| - 1] == Fed(b, Picture(size))
  }

  /** What one `decode` call may do to FFmpeg and to its place in the list. */
  ghost predicate Tried(s: State, made: seq<Call>, t: State) {
    && Sound(t) && t.filter == s.filter && t.index >= s.index
    && InCodec(s.filter, made)
    && AllRejected(s.filter, made, s.index, t.index)
    && Feeds(made) <= t.index - s.index + 1 + (if s.confirmed then 1 else 0)
    && (s.confirmed && t.index > s.index ==> s.reinitFailures + 1 >= MAX_REINIT_FAILURES)
    && (s.confirmed && t.index == s.index ==> t.confirmed)
  }

  /** The backend refused the packet and was given a fresh context. */
  ghost predicate Reopened(made: seq<Call>, b: Backend) {
    |made| >= 2 && made[0].Fed? && Rejects(made[0], b) && made[1].Opened? && made[1].backend == b
  }

  /** Whether the last call gave a picture. */
  predicate EndsWithPicture(made: seq<Call>, b: Backend) {
    |made| > 0 && made[|made| - 1].Fed? && made[|made| - 1].backend == b && made[|made| - 1].outcome.Picture?
  }

  /** Why the result is what it is: the current backend was asked first, and FFmpeg's answers leave no other way. */
  ghost predicate Explained(s: State, made: seq<Call>, r: Result<Size, Error>, t: State) {
    && s.index < |PRIORITY| && t.index < |PRIORITY|
    && |made| > 0 && made[0].Fed? && made[0].backend == PRIORITY[s.index]
    && var last := made[|made| - 1];
       // No picture yet, which after a refusal only a confirmed backend may plead.
    && (r == Err(NoFrame) ==>
          last.Fed? && last.backend == PRIORITY[t.index]
          && (last.outcome.ReceiveAgain? || (last.outcome.SendAgain? && t.confirmed)))
       // A picture that could not be scaled, or a refusal by a backend that has worked.
    && (r == Err(DecodeFailed) ==>
          t.confirmed && (EndsWithPicture(made, PRIORITY[t.index]) || Rejects(last, PRIORITY[t.index])))
    && (t.confirmed ==> (s.confirmed && t.index == s.index) || EndsWithPicture(made, PRIORITY[t.index]))
    && (s.confirmed && t.index == s.index && r == Err(DecodeFailed) ==>
          if |made| == 1 then t.reinitFailures == 0
          else Reopened(made, PRIORITY[s.index]) && t.reinitFailures == s.reinitFailures + 1 < MAX_REINIT_FAILURES)
    && (s.confirmed && (t.index > s.index || r == Err(InitFailed)) ==> Reopened(made, PRIORITY[s.index]))
  }

  /** What its result means. */
  ghost predicate Answered(s: State, made: seq<Call>, r: Result<Size, Error>, t: State) {
    && t.index < |PRIORITY|
    && (t.index == s.index && r == Err(NoFrame) ==> t == s)
    && (r.Ok? ==> t.confirmed && t.reinitFailures == 0 && GavePicture(made, PRIORITY[t.index], r.value))
    && (r != Err(InitFailed) && s.index < |PRIORITY| ==>
          s.failed <= t.failed && (t.index > s.index ==> PRIORITY[s.index] in t.failed))
    && (r == Err(InitFailed) ==> t.failed == [] && AllRejected(s.filter, made, t.index, |PRIORITY|))
  }

  /** What one `decode` call owes: from state `s`, making the calls `made`, to result `r` and state `t`. */
  ghost predicate Served(s: State, made: seq<Call>, r: Result<Size, Error>, t: State) {
    Tried(s, made, t) && Answered(s, made, r, t) && Explained(s, made, r, t)
  }

  // ----- From a picture to a frame -----

  /** The scaler a decoder holds, by the size it was made for, and the picture size the decoder remembers. */
  datatype Lens = Lens(scaler: Option<Size>, size: Size)

  /** The pictures that were scaled. */
  function Pictures(scaling: seq<Scaling>): seq<Size> {
    if |scaling| == 0 then []
    else
      var last := scaling[|scaling| - 1];
      Pictures(scaling[..|scaling| - 1]) + if last.RunScaler? && last.ok then [last.picture] else []
  }

  lemma {:induction false} PicturesAppend(a: seq<Scaling>, b: seq<Scaling>)
    ensures Pictures(a + b) == Pictures(a) + Pictures(b)
  {
    if |b| == 0 {
      assert a + b == a;
    } else {
      assert (a + b)[..|a + b| - 1] == a + b[..|b| - 1];
      PicturesAppend(a, b[..|b| - 1]);
    }
  }

  /** The last call gave this picture. */
  predicate PictureLast(made: seq<Call>) {
    |made| > 0 && made[|made| - 1].Fed? && made[|made| - 1].outcome.Picture?
  }

  /** One picture through the scaler at hand, when there is one and the size has not changed, or through a new one. */
  ghost predicate Rendered(lens: Lens, picture: Size, scaling: seq<Scaling>) {
    if lens.scaler.Some? && lens.size == picture then
      |scaling| == 1 && scaling[0] == RunScaler(lens.scaler.value, picture, scaling[0].ok)
    else RenderedAnew(picture, scaling)
  }

  ghost predicate RenderedAnew(picture: Size, scaling: seq<Scaling>) {
    && |scaling| > 0
    && var last := scaling[|scaling| - 1];
       if last.RunScaler? then
         |scaling| > 1 && scaling[|scaling| - 2] == MakeScaler(picture, true)
         && last == RunScaler(picture, picture, last.ok)
       else last == MakeScaler(picture, false)
  }

  /**
   What was asked of the scaler in a call, and the frame that comes of it: one
   exactly for a picture that was scaled. A picture without a frame has a scaler
   call that failed, and the last one made.
   */
  ghost predicate Conveyed(lens: Lens, made: seq<Call>, scaling: seq<Scaling>, r: Result<Size, Error>) {
    && Pictures(scaling) == (if r.Ok? then [r.value] else [])
    && (r.Ok? ==> PictureLast(made) && made[|made| - 1].outcome.size == r.value)
    && (PictureLast(made) ==>
          && (if |made| == 1 then Rendered(lens, made[0].outcome.size, scaling) && |scaling| <= 2
              else RenderedAnew(made[|made| - 1].outcome.size, scaling))
          && (r.Ok? <==> scaling[|scaling| - 1].ok))
  }

  /** Everything asked of the scaler before the last backend's feed failed, and that backend started with none. */
  lemma ConveyedByNext(before: seq<Call>, failed: seq<Scaling>, later: seq<Call>, scaling: seq<Scaling>,
                       r: Result<Size, Error>, bare: Lens)
    requires |before| > 0 && |later| > 0 && Pictures(failed) == []
    requires bare.scaler == None && Conveyed(bare, later, scaling, r)
    ensures forall lens :: Conveyed(lens, before + later, failed + scaling, r)
  {
    PicturesAppend(failed, scaling);
    hide Pictures, RenderedAnew;
    assert (before + later)[|before + later| - 1] == later[|later| - 1];
    if PictureLast(later) {
      RenderedAfter(failed, scaling, later[|later| - 1].outcome.size);
    }
  }

  lemma RenderedAfter(failed: seq<Scaling>, scaling: seq<Scaling>, picture: Size)
    requires RenderedAnew(picture, scaling)
    ensures RenderedAnew(picture, failed + scaling) && scaling != []
    ensures (failed + scaling)[|failed + scaling| - 1] == scaling[|scaling| - 1]
  {
    assert |scaling| > 1 ==> (failed + scaling)[|failed + scaling| - 2] == scaling[|scaling| - 2];
  }

  lemma OnePicture(before: seq<Scaling>, scaler: Size, picture: Size, ok: bool)
    requires before == [] || before == [MakeScaler(picture, true)]
    ensures Pictures(before + [RunScaler(scaler, picture, ok)]) == if ok then [picture] else []
    ensures Pictures([MakeScaler(picture, false)]) == []
  {
    PicturesAppend(before, [RunScaler(scaler, picture, ok)]);
    assert Pictures([]) == [];
  }

  /** No backend was left to serve the packet. */
  lemma ConveyedByNone(before: seq<Call>, failed: seq<Scaling>, probing: seq<Call>)
    requires |before| > 0
    requires forall i :: 0 <= i < |probing| ==> probing[i].Opened?
    ensures forall lens :: Conveyed(lens, before, failed, Err(DecodeFailed)) ==>
              Conveyed(lens, before + probing, failed, Err(InitFailed))
  {
    hide Pictures;
    assert probing == [] ==> before + probing == before;
  }

  /** A single feed: a picture is rendered as the decoder's scaler allows. */
  lemma ConveyedOnce(lens: Lens, call: Call, scaling: seq<Scaling>, r: Result<Size, Error>)
    requires call.Fed? && (scaling == [] || Pictures(scaling) == if r.Ok? then [r.value] else [])
    requires if call.outcome.Picture? then
               Rendered(lens, call.outcome.size, scaling) && |scaling| <= 2
               && (r.Ok? <==> scaling[|scaling| - 1].ok) && (r.Ok? ==> r.value == call.outcome.size)
             else scaling == [] && r.Err?
    ensures Conveyed(lens, [call], scaling, r)
  {
  }

  lemma ConveyedUnopened(lens: Lens, made: seq<Call>)
    requires |made| > 0 && made[|made| - 1].Opened?
    ensures Conveyed(lens, made, [], Err(DecodeFailed))
  {
  }

  /** One more feed, after others: a picture is rendered through a scaler of its own. */
  lemma ConveyedFresh(lens: Lens, before: seq<Call>, backend: Backend, outcome: Outcome, scaling: seq<Scaling>,
                      r: Result<Size, Error>)
    requires |before| > 0 && Pictures(scaling) == if r.Ok? then [r.value] else []
    requires if outcome.Picture? then
               RenderedAnew(outcome.size, scaling)
               && (r.Ok? <==> scaling[|scaling| - 1].ok) && (r.Ok? ==> r.value == outcome.size)
             else r.Err?
    ensures Conveyed(lens, before + [Fed(backend, outcome)], scaling, r)
  {
    hide Pictures;
  }

  lemma ConveyedNothing(lens: Lens, made: seq<Call>, scaling: seq<Scaling>)
    requires Conveyed(lens, made, scaling, Err(DecodeFailed))
    ensures Pictures(scaling) == []
  {
  }

  /** After more than one call the scaler that was there before plays no part. */
  lemma ConveyedAnyhow(lens: Lens, other: Lens, made: seq<Call>, scaling: seq<Scaling>, r: Result<Size, Error>)
    requires Conveyed(lens, made, scaling, r) && |made| > 1
    ensures Conveyed(other, made, scaling, r)
  {
  }

  lemma ServedAsks(s: State, made: seq<Call>, r: Result<Size, Error>, t: State)
    requires Served(s, made, r, t)
    ensures |made| > 0
  {
  }

  /** FFmpeg, and everything it was asked. */
  class Ffmpeg {
    var calls: seq<Call>
    var scalings: seq<Scaling>

    constructor ()
      ensures calls == [] && scalings == []
    {
      calls, scalings := [], [];
    }

    method NewScaler(size: Size) returns (ok: bool)
      modifies this`scalings
      ensures scalings == old(scalings) + [MakeScaler(size, ok)]
    {
      ok := *;
      scalings := scalings + [MakeScaler(size, ok)];
    }

    method Scale(scaler: Size, picture: Size) returns (ok: bool)
      modifies this`scalings
      ensures scalings == old(scalings) + [RunScaler(scaler, picture, ok)]
    {
      ok := *;
      scalings := scalings + [RunScaler(scaler, picture, ok)];
    }

    method Open(backend: Backend) returns (ok: bool)
      modifies this`calls
      ensures calls == old(calls) + [Opened(backend, ok)]
    {
      ok := *;
      calls := calls + [Opened(backend, ok)];
    }

    method Feed(backend: Backend) returns (outcome: Outcome)
      modifies this`calls
      ensures calls == old(calls) + [Fed(backend, outcome)]
    {
      outcome := *;
      calls := calls + [Fed(backend, outcome)];
    }
  }

  // ----- Choosing a backend -----

  /** `init_from_index`: the first backend that is eligible and opens. */
  method InitFromIndex(ffmpeg: Ffmpeg, start: nat, failed: seq<Backend>, filter: Filter)
    returns (found: Option<nat>, ghost made: seq<Call>)
    requires forall b :: b in failed ==> Rank(b) < start
    modifies ffmpeg`calls
    ensures ffmpeg.calls == old(ffmpeg.calls) + made
    ensures forall i :: 0 <= i < |made| ==> made[i].Opened?
    ensures Feeds(made) == 0 && InCodec(filter, made)
    ensures found.Some? ==>
              start <= found.value < |PRIORITY| && Matches(filter, PRIORITY[found.value])
              && PRIORITY[found.value] !in failed
              && AllRejected(filter, made, start, found.value)
              && |made| > 0 && made[|made| - 1] == Opened(PRIORITY[found.value], true)
    ensures found == None ==> AllRejected(filter, made, start, |PRIORITY|)
  {
    made := [];
    var k := start;
    while k < |PRIORITY|
      invariant start <= k && (k <= |PRIORITY| || k == start)
      invariant ffmpeg.calls == old(ffmpeg.calls) + made
      invariant forall i :: 0 <= i < |made| ==> made[i].Opened?
      invariant Feeds(made) == 0 && InCodec(filter, made)
      invariant AllRejected(filter, made, start, k)
    {
      var backend := PRIORITY[k];
      ListedOnce(k, backend);
      if backend !in failed && Matches(filter, backend) {
        var ok := ffmpeg.Open(backend);
        ghost var before := made;
        made := made + [Opened(backend, ok)];
        Probed(filter, before, start, k, ok);
        if ok {
          return Some(k), made;
        }
      } else {
        Skipped(filter, made, start, k);
      }
      k := k + 1;
    }
    found := None;
  }

  lemma Probed(filter: Filter, made: seq<Call>, start: nat, k: nat, ok: bool)
    requires k < |PRIORITY| && Matches(filter, PRIORITY[k]) && InCodec(filter, made)
    requires AllRejected(filter, made, start, k)
    ensures Feeds(made + [Opened(PRIORITY[k], ok)]) == Feeds(made)
    ensures InCodec(filter, made + [Opened(PRIORITY[k], ok)])
    ensures AllRejected(filter, made + [Opened(PRIORITY[k], ok)], start, if ok then k else k + 1)
  {
    var c := Opened(PRIORITY[k], ok);
    FeedsAppend(made, [c]);
    assert [c][..0] == [];
    forall b | start <= Rank(b) < (if ok then k else k + 1) && Matches(filter, b)
      ensures Rejected(made + [c], b)
    {
      ListedOnce(k, b);
      if Rank(b) < k {
        RejectedStays(made, [c], b);
      } else {
        assert Rejects((made + [c])[|made|], b);
      }
    }
  }

  lemma Skipped(filter: Filter, made: seq<Call>, start: nat, k: nat)
    requires k < |PRIORITY| && !Matches(filter, PRIORITY[k])
    requires AllRejected(filter, made, start, k)
    ensures AllRejected(filter, made, start, k + 1)
  {
    forall b | start <= Rank(b) < k + 1 && Matches(filter, b)
      ensures Rejected(made, b)
    {
      ListedOnce(k, b);
    }
  }

  lemma RejectedStays(a: seq<Call>, more: seq<Call>, b: Backend)
    requires Rejected(a, b) || Rejected(more, b)
    ensures Rejected(a + more, b)
  {
    if i :| 0 <= i < |a| && Rejects(a[i], b) {
      assert Rejects((a + more)[i], b);
    } else {
      var j :| 0 <= j < |more| && Rejects(more[j], b);
      assert Rejects((a + more)[|a| + j], b);
    }
  }

  /** A backend of the codec that works is never passed over, and the call does not fail for want of one. */
  lemma WorkingBackendIsReached(s: State, made: seq<Call>, r: Result<Size, Error>, t: State, b: Backend)
    requires Sound(s) && Served(s, made, r, t)
    requires Matches(s.filter, b) && s.index <= Rank(b)
    requires forall i :: 0 <= i < |made| ==> !Rejects(made[i], b)
    ensures t.index <= Rank(b) && r != Err(InitFailed)
  {
    ListedOnce(s.index, b);
  }

  /** A backend that has worked is left at its second failed reinitialisation in a row, and not before. */
  lemma LeftAtTheSecond(s: State, made: seq<Call>, r: Result<Size, Error>, t: State)
    requires Served(s, made, r, t) && s.confirmed
    ensures t.index > s.index ==> s.reinitFailures >= 1
    ensures t.index == s.index && r == Err(DecodeFailed) && |made| > 1 ==> s.reinitFailures == 0 && t.reinitFailures == 1
  {
  }

  // ----- How the pieces of a call add up -----

  /** A backend fed the packet and found wanting, before the next one is looked for. */
  ghost predicate Wanting(s: State, made: seq<Call>) {
    && Sound(s)
    && InCodec(s.filter, made)
    && Rejected(made, PRIORITY[s.index])
    && Feeds(made) <= 1 + (if s.confirmed then 1 else 0)
    && |made| > 0 && made[0].Fed? && made[0].backend == PRIORITY[s.index]
    && (s.confirmed ==> s.reinitFailures + 1 >= MAX_REINIT_FAILURES && Reopened(made, PRIORITY[s.index]))
  }

  lemma JoinRejected(filter: Filter, a: seq<Call>, b: seq<Call>, lo: nat, mid: nat, hi: nat)
    requires lo <= mid <= hi && AllRejected(filter, a, lo, mid) && AllRejected(filter, b, mid, hi)
    ensures AllRejected(filter, a + b, lo, hi)
  {
    forall c | lo <= Rank(c) < hi && Matches(filter, c)
      ensures Rejected(a + b, c)
    {
      RejectedStays(a, b, c);
    }
  }

  lemma OneRejected(s: State, made: seq<Call>)
    requires Wanting(s, made)
    ensures AllRejected(s.filter, made, s.index, s.index + 1)
  {
    forall b | s.index <= Rank(b) < s.index + 1
      ensures Rejected(made, b)
    {
      ListedOnce(s.index, b);
    }
  }

  /** The next backend served the packet: so did the call as a whole. */
  lemma ServedByNext(s: State, here: seq<Call>, probing: seq<Call>, n: State, later: seq<Call>,
                     r: Result<Size, Error>, t: State)
    requires Wanting(s, here)
    requires s.index < n.index < |PRIORITY| && n.filter == s.filter && !n.confirmed
    requires n.failed == s.failed + [PRIORITY[s.index]]
    requires InCodec(s.filter, probing) && Feeds(probing) == 0
    requires AllRejected(s.filter, probing, s.index + 1, n.index)
    requires Served(n, later, r, t)
    ensures Served(s, here + probing + later, r, t)
  {
    TriedByNext(s, here, probing, n, later, t);
    AnsweredByNext(s, here + probing, n, later, r, t);
    ExplainedByNext(s, here, probing, n, later, r, t);
  }

  lemma ExplainedByNext(s: State, here: seq<Call>, probing: seq<Call>, n: State, later: seq<Call>,
                        r: Result<Size, Error>, t: State)
    requires Wanting(s, here) && !n.confirmed && s.index < n.index <= t.index
    requires Explained(n, later, r, t)
    ensures Explained(s, here + probing + later, r, t)
  {
    var made := here + probing + later;
    assert made[|made| - 1] == later[|later| - 1] && made[0] == here[0];
    assert s.confirmed ==> made[1] == here[1];
  }

  lemma TriedByNext(s: State, here: seq<Call>, probing: seq<Call>, n: State, later: seq<Call>, t: State)
    requires Wanting(s, here)
    requires s.index < n.index && n.filter == s.filter && !n.confirmed
    requires InCodec(s.filter, probing) && Feeds(probing) == 0
    requires AllRejected(s.filter, probing, s.index + 1, n.index)
    requires Tried(n, later, t)
    ensures Tried(s, here + probing + later, t)
  {
    OneRejected(s, here);
    JoinRejected(s.filter, here, probing, s.index, s.index + 1, n.index);
    JoinRejected(s.filter, here + probing, later, s.index, n.index, t.index);
    JoinCodec(s.filter, here, probing, later);
    FeedsAppend(here, probing);
    FeedsAppend(here + probing, later);
  }

  lemma AnsweredByNext(s: State, before: seq<Call>, n: State, later: seq<Call>, r: Result<Size, Error>, t: State)
    requires s.index < n.index <= t.index && n.index < |PRIORITY| && n.filter == s.filter
    requires n.failed == s.failed + [PRIORITY[s.index]]
    requires Answered(n, later, r, t)
    ensures Answered(s, before + later, r, t)
  {
    if r == Err(InitFailed) {
      RejectedLater(s.filter, before, later, t.index, |PRIORITY|);
    } else {
      assert s.failed <= n.failed <= t.failed && PRIORITY[s.index] == n.failed[|s.failed|];
    }
  }

  lemma JoinCodec(filter: Filter, a: seq<Call>, b: seq<Call>, c: seq<Call>)
    requires InCodec(filter, a) && InCodec(filter, b) && InCodec(filter, c)
    ensures InCodec(filter, a + b + c)
  {
  }

  lemma RejectedLater(filter: Filter, a: seq<Call>, more: seq<Call>, lo: nat, hi: nat)
    requires AllRejected(filter, more, lo, hi)
    ensures AllRejected(filter, a + more, lo, hi)
  {
    forall b | lo <= Rank(b) < hi && Matches(filter, b)
      ensures Rejected(a + more, b)
    {
      RejectedStays(a, more, b);
    }
  }

  /** There is no next backend. */
  lemma ServedByNone(s: State, here: seq<Call>, probing: seq<Call>, t: State)
    requires Wanting(s, here)
    requires InCodec(s.filter, probing) && Feeds(probing) == 0
    requires AllRejected(s.filter, probing, s.index + 1, |PRIORITY|)
    requires t.index == s.index && t.filter == s.filter && t.failed == [] && t.confirmed == s.confirmed
    ensures Served(s, here + probing, Err(InitFailed), t)
  {
    assert (here + probing)[0] == here[0] && (s.confirmed ==> (here + probing)[1] == here[1]);
    OneRejected(s, here);
    JoinRejected(s.filter, here, probing, s.index, s.index + 1, |PRIORITY|);
    FeedsAppend(here, probing);
  }

  /** The current backend settled the call itself, with one or two feeds. */
  lemma ServedHere(s: State, made: seq<Call>, r: Result<Size, Error>, t: State)
    requires Sound(s) && t.index == s.index && t.filter == s.filter && t.failed == s.failed
    requires s.confirmed ==> t.confirmed
    requires InCodec(s.filter, made) && Feeds(made) <= 1 + (if s.confirmed then 1 else 0)
    requires r.Ok? ==> t.confirmed && t.reinitFailures == 0 && GavePicture(made, PRIORITY[t.index], r.value)
    requires r == Err(NoFrame) ==> t == s
    requires Explained(s, made, r, t)
    requires r != Err(InitFailed)
    ensures Served(s, made, r, t)
  {
  }

  /** One call more. */
  lemma OneCall(made: seq<Call>, c: Call)
    ensures Feeds(made + [c]) == Feeds(made) + if c.Fed? then 1 else 0
    ensures Rejects(c, c.backend) ==> Rejected(made + [c], c.backend)
    ensures forall b :: Rejected(made, b) ==> Rejected(made + [c], b)
    ensures forall filter :: InCodec(filter, made) && Matches(filter, c.backend) ==> InCodec(filter, made + [c])
  {
    FeedsAppend(made, [c]);
    assert [c][..0] == [];
    if Rejects(c, c.backend) {
      assert Rejects((made + [c])[|made|], c.backend);
    }
    forall b | Rejected(made, b)
      ensures Rejected(made + [c], b)
    {
      RejectedStays(made, [c], b);
    }
  }

  /** A refusal, a fresh context, and the packet once more. */
  lemma RetriedCalls(filter: Filter, here: seq<Call>, b: Backend, open: bool, again: Outcome)
    requires |here| == 1 && here[0].Fed? && Rejects(here[0], b) && Matches(filter, b)
    ensures var once := here + [Opened(b, open)];
            && InCodec(filter, once) && Feeds(once) == 1 && Reopened(once, b) && Rejected(once, b)
            && InCodec(filter, once + [Fed(b, again)]) && Feeds(once + [Fed(b, again)]) == 2
            && Reopened(once + [Fed(b, again)], b) && Rejected(once + [Fed(b, again)], b)
  {
    assert InCodec(filter, []) && Feeds([]) == 0;
    hide Feeds, InCodec, Rejected;
    OneCall([], here[0]);
    assert [] + [here[0]] == here;
    OneCall(here, Opened(b, open));
    OneCall(here + [Opened(b, open)], Fed(b, again));
  }

  lemma InAll<T>(a: seq<T>, b: seq<T>, c: seq<T>, d: seq<T>)
    ensures a + (b + c + d) == a + b + c + d
    ensures d == [] ==> a + (b + c) == a + b + c
  {
  }

  lemma FailedSoFar(s: State)
    requires Sound(s)
    ensures forall b :: b in s.failed + [PRIORITY[s.index]] ==> Rank(b) < s.index + 1
  {
    ListedOnce(s.index, PRIORITY[s.index]);
  }

  /** However a later backend serves a packet, the decoder has moved on. */
  lemma ServedMovesOn(s: State, n: State)
    requires s.index < n.index
    ensures forall made, r, t :: Served(n, made, r, t) ==> t.index > s.index
  {
  }

  // ----- The decoder -----

  class VideoDecoder {
    const ffmpeg: Ffmpeg
    var backendIndex: nat
    var failedBackends: seq<Backend>
    var confirmedWorking: bool
    var reinitFailures: nat
    var codecFilter: Filter
    var scaler: Option<Size>     // the picture size the scaler was made for
    var size: Size

    constructor (ffmpeg: Ffmpeg, index: nat, failed: seq<Backend>, filter: Filter)
      ensures this.ffmpeg == ffmpeg && Now() == State(index, failed, false, 0, filter)
      ensures scaler == None
    {
      this.ffmpeg := ffmpeg;
      backendIndex, failedBackends, confirmedWorking, reinitFailures, codecFilter := index, failed, false, 0, filter;
      scaler, size := None, Size(0, 0);
    }

    function Now(): State
      reads this
    {
      State(backendIndex, failedBackends, confirmedWorking, reinitFailures, codecFilter)
    }

    ghost predicate Valid()
      reads this
    {
      Sound(Now())
    }

    function Glass(): Lens
      reads this
    {
      Lens(scaler, size)
    }

    /** The scaler, when there is one, is for pictures of the size the decoder remembers. */
    predicate Fitted()
      reads this
    {
      scaler.Some? ==> scaler.value == size
    }

    /**
     Scaling of a decoded picture. The new size is remembered before its scaler
     exists, so a scaler that cannot be made leaves an older one in use for the
     wrong size: exactly then the two stop agreeing.
     */
    method Show(picture: Size) returns (r: Result<Size, Error>, ghost scaling: seq<Scaling>)
      modifies this`size, this`scaler, ffmpeg`scalings
      ensures ffmpeg.scalings == old(ffmpeg.scalings) + scaling
      ensures Rendered(old(Glass()), picture, scaling) && |scaling| <= 2
      // A frame exactly when the scaler was there, or was made, and ran.
      ensures r == if scaling[|scaling| - 1].ok then Ok(picture) else Err(DecodeFailed)
      ensures Pictures(scaling) == if r.Ok? then [picture] else []
      ensures size == picture && (scaling[|scaling| - 1].RunScaler? ==> scaler == Some(scaling[|scaling| - 1].scaler))
      ensures old(Fitted()) ==>
                (Fitted() <==> !(scaling == [MakeScaler(picture, false)] && old(scaler).Some? && old(size) != picture))
    {
      hide Pictures;
      scaling := [];
      OnePicture([], picture, picture, true);
      if size != picture || scaler == None {
        size := picture;
        var made := ffmpeg.NewScaler(picture);
        scaling := [MakeScaler(picture, made)];
        if !made {
          return Err(DecodeFailed), scaling;
        }
        scaler := Some(picture);
      }
      var scaled := ffmpeg.Scale(scaler.value, picture);
      ghost var before := scaling;
      scaling := before + [RunScaler(scaler.value, picture, scaled)];
      OnePicture(before, scaler.value, picture, scaled);
      r := if scaled then Ok(picture) else Err(DecodeFailed);
    }

    method Decode() returns (r: Result<Size, Error>, ghost made: seq<Call>, ghost scaling: seq<Scaling>)
      requires Valid()
      modifies this, ffmpeg
      ensures ffmpeg.calls == old(ffmpeg.calls) + made && ffmpeg.scalings == old(ffmpeg.scalings) + scaling
      ensures Served(old(Now()), made, r, Now()) && Conveyed(old(Glass()), made, scaling, r)
      decreases |PRIORITY| - backendIndex, 3
    {
      r, made, scaling := DecodePacket();
    }

    method DecodePacket() returns (r: Result<Size, Error>, ghost made: seq<Call>, ghost scaling: seq<Scaling>)
      requires Valid()
      modifies this, ffmpeg
      ensures ffmpeg.calls == old(ffmpeg.calls) + made && ffmpeg.scalings == old(ffmpeg.scalings) + scaling
      ensures Served(old(Now()), made, r, Now()) && Conveyed(old(Glass()), made, scaling, r)
      decreases |PRIORITY| - backendIndex, 2
    {
      ghost var base, baseScalings, glass := ffmpeg.calls, ffmpeg.scalings, Glass();
      var outcome := ffmpeg.Feed(PRIORITY[backendIndex]);
      var call := Fed(PRIORITY[backendIndex], outcome);
      OneCall([], call);
      assert [] + [call] == [call];
      made, scaling := [call], [];
      hide Conveyed, Pictures;
      if Breaks(outcome) {
        ConveyedOnce(glass, call, [], Err(DecodeFailed));
        if !confirmedWorking {
          r, made, scaling := FallbackAndRetry(base, made, baseScalings, []);
        } else {
          r, made, scaling := ReinitAndRetry(base, made, baseScalings);
        }
        return;
      }
      ghost var before := Now();
      match outcome
      case Picture(picture) =>
        reinitFailures, confirmedWorking := 0, true;
        r, scaling := Show(picture);
        ServedHere(before, made, r, Now());
        ConveyedOnce(glass, call, scaling, r);
      case _ =>
        r := Err(NoFrame);
        ServedHere(before, made, r, Now());
        ConveyedOnce(glass, call, [], r);
    }

    /** A confirmed backend that choked gets a fresh context, and is given up on only when that keeps failing. */
    method ReinitAndRetry(ghost base: seq<Call>, ghost here: seq<Call>, ghost baseScalings: seq<Scaling>)
      returns (r: Result<Size, Error>, ghost made: seq<Call>, ghost scaling: seq<Scaling>)
      requires Valid() && confirmedWorking && ffmpeg.calls == base + here && ffmpeg.scalings == baseScalings
      requires |here| == 1 && here[0].Fed? && Rejects(here[0], PRIORITY[backendIndex])
      modifies this, ffmpeg
      ensures ffmpeg.calls == base + made && ffmpeg.scalings == baseScalings + scaling
      ensures Served(old(Now()), made, r, Now()) && Conveyed(old(Glass()), made, scaling, r)
      decreases |PRIORITY| - backendIndex, 1
    {
      hide Conveyed;
      ghost var before, glass := Now(), Glass();
      r, made, scaling := TryReinit(base, here);
      ConveyedAnyhow(Glass(), glass, made, scaling, r);
      if r.Ok? {
        reinitFailures := 0;
        ServedHere(before, made, r, Now());
      } else if r.error == NoFrame {
        ServedHere(before, made, r, Now());
      } else {
        reinitFailures := reinitFailures + 1;
        if reinitFailures >= MAX_REINIT_FAILURES {
          ghost var worn := Now();
          r, made, scaling := FallbackAndRetry(base, made, baseScalings, scaling);
          assert before == worn.(reinitFailures := worn.reinitFailures - 1);
          assert Served(before, made, r, Now());
        } else {
          ServedHere(before, made, r, Now());
        }
      }
    }

    /** One fresh context, one feed. */
    method TryReinit(ghost base: seq<Call>, ghost here: seq<Call>)
      returns (r: Result<Size, Error>, ghost made: seq<Call>, ghost scaling: seq<Scaling>)
      requires Valid() && ffmpeg.calls == base + here
      requires |here| == 1 && here[0].Fed? && Rejects(here[0], PRIORITY[backendIndex])
      modifies this`scaler, this`size, ffmpeg
      ensures ffmpeg.calls == base + made && here <= made && |made| >= 2
      ensures ffmpeg.scalings == old(ffmpeg.scalings) + scaling && Conveyed(Glass(), made, scaling, r)
      ensures InCodec(codecFilter, made) && Feeds(made) <= 2 && Reopened(made, PRIORITY[backendIndex])
      ensures Rejected(made, PRIORITY[backendIndex])
      ensures r.Ok? ==> GavePicture(made, PRIORITY[backendIndex], r.value)
      ensures r == Err(NoFrame) ==>
                made[|made| - 1].Fed? && made[|made| - 1].backend == PRIORITY[backendIndex]
                && (made[|made| - 1].outcome.ReceiveAgain? || made[|made| - 1].outcome.SendAgain?)
      ensures r == Err(DecodeFailed) ==>
                EndsWithPicture(made, PRIORITY[backendIndex]) || Rejects(made[|made| - 1], PRIORITY[backendIndex])
      ensures r != Err(InitFailed)
      ensures old(Fitted()) ==> Fitted()
    {
      var backend := PRIORITY[backendIndex];
      assert Matches(codecFilter, backend);
      hide Feeds, InCodec, Rejected, Sound, Pictures, Conveyed;
      var open := ffmpeg.Open(backend);
      made := here + [Opened(backend, open)];
      InAll(base, here, [Opened(backend, open)], []);
      RetriedCalls(codecFilter, here, backend, open, SendError);
      if !open {
        ConveyedUnopened(Glass(), made);
        return Err(DecodeFailed), made, [];
      }
      ghost var outcome;
      r, outcome, scaling := FeedFresh(backend);
      RetriedCalls(codecFilter, here, backend, open, outcome);
      ghost var reopened := made;
      made := reopened + [Fed(backend, outcome)];
      InAll(base, reopened, [Fed(backend, outcome)], []);
      ConveyedFresh(Glass(), reopened, backend, outcome, scaling, r);
    }

    /** The packet into the context just opened, and its picture through a scaler of its own. */
    method FeedFresh(backend: Backend)
      returns (r: Result<Size, Error>, ghost outcome: Outcome, ghost scaling: seq<Scaling>)
      modifies this`scaler, this`size, ffmpeg
      ensures ffmpeg.calls == old(ffmpeg.calls) + [Fed(backend, outcome)]
      ensures ffmpeg.scalings == old(ffmpeg.scalings) + scaling
      ensures if outcome.Picture? then
                RenderedAnew(outcome.size, scaling)
                && r == if scaling[|scaling| - 1].ok then Ok(outcome.size) else Err(DecodeFailed)
              else scaling == [] && r.Err?
      ensures Pictures(scaling) == if r.Ok? then [r.value] else []
      ensures r.Ok? ==> outcome == Picture(r.value)
      ensures r == Err(NoFrame) <==> outcome.SendAgain? || outcome.ReceiveAgain?
      ensures r != Err(InitFailed)
      ensures Fitted()
    {
      scaler, size := None, Size(0, 0);
      var answer := ffmpeg.Feed(backend);
      outcome, scaling := answer, [];
      match answer
      case SendAgain | ReceiveAgain =>
        r := Err(NoFrame);
      case SendError | ReceiveError =>
        r := Err(DecodeFailed);
      case Picture(picture) =>
        var made := ffmpeg.NewScaler(picture);
        scaling := [MakeScaler(picture, made)];
        if !made {
          return Err(DecodeFailed), outcome, scaling;
        }
        scaler, size := Some(picture), picture;
        var scaled := ffmpeg.Scale(picture, picture);
        OnePicture([MakeScaler(picture, true)], picture, picture, scaled);
        scaling := [MakeScaler(picture, true)] + [RunScaler(picture, picture, scaled)];
        r := if scaled then Ok(picture) else Err(DecodeFailed);
    }

    /** On to the next backend of the list, with the packet in hand. */
    method FallbackAndRetry(ghost base: seq<Call>, ghost here: seq<Call>,
                            ghost baseScalings: seq<Scaling>, ghost failedScaling: seq<Scaling>)
      returns (r: Result<Size, Error>, ghost made: seq<Call>, ghost scaling: seq<Scaling>)
      requires Valid() && Wanting(Now(), here) && ffmpeg.calls == base + here
      requires ffmpeg.scalings == baseScalings + failedScaling
      requires |here| > 0 && Conveyed(Glass(), here, failedScaling, Err(DecodeFailed))
      modifies this, ffmpeg
      ensures ffmpeg.calls == base + made && ffmpeg.scalings == baseScalings + scaling
      ensures Served(old(Now()), made, r, Now())
      ensures forall lens :: Conveyed(lens, here, failedScaling, Err(DecodeFailed)) ==> Conveyed(lens, made, scaling, r)
      ensures backendIndex > old(backendIndex) || r == Err(InitFailed)
      decreases |PRIORITY| - backendIndex, 0
    {
      hide Served, Wanting, AllRejected, InCodec, Feeds, Conveyed, Pictures;
      ghost var before := Now();
      ConveyedNothing(Glass(), here, failedScaling);
      var failed := failedBackends + [PRIORITY[backendIndex]];
      failedBackends := [];
      FailedSoFar(before);
      var next;
      ghost var probing;
      next, probing := InitFromIndex(ffmpeg, backendIndex + 1, failed, codecFilter);
      if next == None {
        ServedByNone(before, here, probing, Now());
        assert base + (here + probing) == (base + here) + probing;
        ConveyedByNone(here, failedScaling, probing);
        return Err(InitFailed), here + probing, failedScaling;
      }
      backendIndex, failedBackends, confirmedWorking, reinitFailures := next.value, failed, false, 0;
      scaler, size := None, Size(0, 0);
      ghost var chosen := Now();
      ServedMovesOn(before, chosen);
      ghost var glass := Glass();
      ghost var later, laterScaling;
      r, later, laterScaling := Decode();
      ServedByNext(before, here, probing, chosen, later, r, Now());
      made, scaling := here + probing + later, failedScaling + laterScaling;
      InAll(base, here, probing, later);
      InAll(baseScalings, failedScaling, laterScaling, []);
      ServedAsks(chosen, later, r, Now());
      ConveyedByNext(here + probing, failedScaling, later, laterScaling, r, glass);
    }
  }

  /** `new` and `for_codec`: a decoder exactly when some eligible backend opens. */
  method Build(ffmpeg: Ffmpeg, filter: Filter) returns (decoder: Option<VideoDecoder>, ghost made: seq<Call>)
    modifies ffmpeg`calls
    ensures ffmpeg.calls == old(ffmpeg.calls) + made
    ensures Feeds(made) == 0 && InCodec(filter, made)
    ensures decoder == None ==> AllRejected(filter, made, 0, |PRIORITY|)
    ensures decoder.Some? ==>
              fresh(decoder.value) && decoder.value.ffmpeg == ffmpeg && decoder.value.Valid()
              && decoder.value.Now() == State(decoder.value.backendIndex, [], false, 0, filter)
              && AllRejected(filter, made, 0, decoder.value.backendIndex)
  {
    var found;
    found, made := InitFromIndex(ffmpeg, 0, [], filter);
    if found == None {
      return None, made;
    }
    var built := new VideoDecoder(ffmpeg, found.value, [], filter);
    decoder := Some(built);
  }

  // ----- The decode thread -----

  /** A packet off the wire, with the codec the server tagged it with. */
  type Job = Option<Codec>

  /** One job: the decoder found, the calls to rebuild it, the decoder used, the decoding calls, and what came of it. */
  datatype Work = Work(
    found: State, rebuilding: seq<Call>, used: State, decoding: seq<Call>, result: Result<Size, Error>, left: State,
    lens: Lens, scaling: seq<Scaling>)

  /** The decoder is rebuilt exactly for a packet of another codec, and then for that codec alone. */
  ghost predicate Rebuilt(job: Job, w: Work) {
    if job == None || w.found.index >= |PRIORITY| || job.value == CodecOf(PRIORITY[w.found.index]) then
      w.rebuilding == [] && w.used == w.found
    else
      && Feeds(w.rebuilding) == 0 && InCodec(job, w.rebuilding)
      && AllRejected(job, w.rebuilding, 0, w.used.index)
      && w.used == State(w.used.index, [], false, 0, job)
  }

  /** No backend opens for the packet's codec: the old decoder stays and the packet is dropped. */
  ghost predicate Refused(job: Job, w: Work) {
    && job.Some? && w.found.index < |PRIORITY| && job.value != CodecOf(PRIORITY[w.found.index])
    && Feeds(w.rebuilding) == 0 && AllRejected(job, w.rebuilding, 0, |PRIORITY|)
    && w.decoding == [] && w.result == Err(InitFailed) && w.left == w.found && w.scaling == []
  }

  ghost predicate Handled(job: Job, w: Work) {
    || Refused(job, w)
    || (Sound(w.used) && Rebuilt(job, w) && Served(w.used, w.decoding, w.result, w.left)
        && Conveyed(w.lens, w.decoding, w.scaling, w.result))
  }

  /** Each job was handled, starting from the decoder the one before it left. */
  ghost predicate Worked(jobs: seq<Job>, works: seq<Work>) {
    && |works| == |jobs|
    && (forall i :: 0 <= i < |works| ==> Handled(jobs[i], works[i]))
    && (forall i :: 0 < i < |works| ==> works[i].found == works[i - 1].left)
  }

  function AllCalls(works: seq<Work>): seq<Call> {
    if |works| == 0 then []
    else AllCalls(works[..|works| - 1]) + works[|works| - 1].rebuilding + works[|works| - 1].decoding
  }

  function AllScalings(works: seq<Work>): seq<Scaling> {
    if |works| == 0 then [] else AllScalings(works[..|works| - 1]) + works[|works| - 1].scaling
  }

  /** Every picture that was scaled is shown, in order, and nothing else. */
  lemma {:induction false} ScaledIsShown(jobs: seq<Job>, works: seq<Work>)
    requires Worked(jobs, works)
    ensures Shown(works) == Pictures(AllScalings(works))
  {
    if |works| > 0 {
      var before, w := works[..|works| - 1], works[|works| - 1];
      ScaledIsShown(jobs[..|jobs| - 1], before);
      PicturesAppend(AllScalings(before), w.scaling);
      OneShown(jobs[|works| - 1], w);
    }
  }

  lemma OneShown(job: Job, w: Work)
    requires Handled(job, w)
    ensures Pictures(w.scaling) == if w.result.Ok? then [w.result.value] else []
  {
  }

  /** The frames handed to the window: those of the jobs that gave one, in order. */
  function Shown(works: seq<Work>): seq<Size> {
    if |works| == 0 then []
    else
      var last := works[|works| - 1].result;
      Shown(works[..|works| - 1]) + if last.Ok? then [last.value] else []
  }

  /** How often the decoder was rebuilt. */
  function Rebuilds(works: seq<Work>): nat {
    if |works| == 0 then 0
    else Rebuilds(works[..|works| - 1]) + if works[|works| - 1].used != works[|works| - 1].found then 1 else 0
  }

  /** A tagged packet only meets backends of its codec, unless the decoder was built for any codec. */
  lemma StaysInCodec(job: Job, w: Work)
    requires Handled(job, w) && Sound(w.found) && job.Some? && w.found.filter.Some?
    ensures InCodec(job, w.decoding)
  {
    if !Refused(job, w) {
      assert w.used.filter == job || CodecOf(PRIORITY[w.found.index]) == w.found.filter.value;
    }
  }

  /**
   Each decoder moves down the list once: over a run of jobs a packet costs at
   most two feeds, plus one for every step down, and the list is no longer than
   18 for each decoder built.
   */
  lemma {:induction false} FeedsAreBounded(jobs: seq<Job>, works: seq<Work>)
    requires Worked(jobs, works) && (|works| > 0 ==> Sound(works[0].found))
    ensures |works| > 0 ==> Sound(works[|works| - 1].left)
    ensures Feeds(AllCalls(works)) <=
            2 * |works| + |PRIORITY| * Rebuilds(works) + (if |works| == 0 then 0 else works[|works| - 1].left.index)
  {
    if |works| > 0 {
      var before, w := works[..|works| - 1], works[|works| - 1];
      FeedsAreBounded(jobs[..|jobs| - 1], before);
      assert |before| > 0 ==> w.found == before[|before| - 1].left && before[0] == works[0];
      OneJobBounded(jobs[|works| - 1], w);
      FeedsAppend(AllCalls(before), w.rebuilding);
      FeedsAppend(AllCalls(before) + w.rebuilding, w.decoding);
      hide Handled, Sound;
      assert AllCalls(works) == AllCalls(before) + w.rebuilding + w.decoding;
    }
  }

  lemma OneJobBounded(job: Job, w: Work)
    requires Handled(job, w) && Sound(w.found)
    ensures Sound(w.left) && Feeds(w.rebuilding) == 0
    ensures Feeds(w.decoding) <=
            2 + (if w.used != w.found then |PRIORITY| else 0) + w.left.index - w.found.index
  {
    assert Feeds([]) == 0;
  }

  /** The thread over a run of jobs: what it asked FFmpeg and showed is what its jobs call for. */
  method DecodeThread(ffmpeg: Ffmpeg, negotiated: Filter, jobs: seq<Job>)
    returns (frames: seq<Size>, ghost building: seq<Call>, ghost works: seq<Work>)
    modifies ffmpeg
    ensures InCodec(negotiated, building) && Feeds(building) == 0
    ensures ffmpeg.calls == old(ffmpeg.calls) + building + AllCalls(works)
    ensures ffmpeg.scalings == old(ffmpeg.scalings) + AllScalings(works)
    ensures frames == Shown(works) == Pictures(AllScalings(works))
    ensures works == [] || Worked(jobs, works)
    ensures works == [] && jobs != [] ==> AllRejected(negotiated, building, 0, |PRIORITY|)
    ensures works != [] ==> Sound(works[0].found) && works[0].found.filter == negotiated
  {
    frames, works := [], [];
    NoWork();
    hide Handled, Worked, AllCalls, AllScalings, Shown, Pictures, AllRejected, InCodec, Sound;
    var first;
    first, building := Build(ffmpeg, negotiated);
    if first == None {
      return;
    }
    var decoder := first.value;
    ghost var base := ffmpeg.calls;
    for i := 0 to |jobs|
      invariant decoder.Valid() && fresh(decoder) && decoder.ffmpeg == ffmpeg
      invariant ffmpeg.calls == base + AllCalls(works) && frames == Shown(works)
      invariant ffmpeg.scalings == old(ffmpeg.scalings) + AllScalings(works)
      invariant |works| == i && Worked(jobs[..i], works)
      invariant if i == 0 then decoder.codecFilter == negotiated
                else works[0].found.filter == negotiated && Sound(works[0].found)
      invariant i > 0 ==> works[i - 1].left == decoder.Now()
    {
      ghost var w;
      var r;
      decoder, r, w := HandleJob(decoder, jobs[i]);
      WorkedOneMore(jobs, works, i, w);
      assert base + (AllCalls(works) + w.rebuilding + w.decoding)
          == (base + AllCalls(works)) + w.rebuilding + w.decoding;
      assert old(ffmpeg.scalings) + (AllScalings(works) + w.scaling)
          == (old(ffmpeg.scalings) + AllScalings(works)) + w.scaling;
      works := works + [w];
      if r.Ok? {
        frames := frames + [r.value];
      }
    }
    assert jobs[..|jobs|] == jobs;
    ScaledIsShown(jobs, works);
  }

  lemma NoWork()
    ensures Worked([], []) && AllCalls([]) == [] && Shown([]) == [] && AllScalings([]) == [] && Pictures([]) == []
  {
  }

  lemma WorkedOneMore(jobs: seq<Job>, works: seq<Work>, i: nat, w: Work)
    requires i < |jobs| && |works| == i && Worked(jobs[..i], works) && Handled(jobs[i], w)
    requires i > 0 ==> w.found == works[i - 1].left
    ensures Worked(jobs[..i + 1], works + [w])
    ensures AllCalls(works + [w]) == AllCalls(works) + w.rebuilding + w.decoding
    ensures AllScalings(works + [w]) == AllScalings(works) + w.scaling
    ensures Shown(works + [w]) == Shown(works) + if w.result.Ok? then [w.result.value] else []
  {
    hide Handled;
    var more := works + [w];
    assert more[..|works|] == works && jobs[..i + 1][..i] == jobs[..i];
    forall k | 0 <= k <= i
      ensures Handled(jobs[..i + 1][k], more[k])
    {
      assert k < i ==> jobs[..i][k] == jobs[k] && more[k] == works[k];
    }
  }

  lemma RefusedIsHandled(job: Job, w: Work)
    requires w.found.index < |PRIORITY| && job.Some? && job.value != CodecOf(PRIORITY[w.found.index])
    requires Feeds(w.rebuilding) == 0 && AllRejected(job, w.rebuilding, 0, |PRIORITY|)
    requires w == Work(w.found, w.rebuilding, w.found, [], Err(InitFailed), w.found, w.lens, [])
    ensures Handled(job, w)
  {
  }

  lemma SameDecoderHandled(job: Job, w: Work)
    requires w.found.index < |PRIORITY| && (job == None || job.value == CodecOf(PRIORITY[w.found.index]))
    requires w.rebuilding == [] && w.used == w.found && Sound(w.used)
    requires Served(w.used, w.decoding, w.result, w.left) && Conveyed(w.lens, w.decoding, w.scaling, w.result)
    ensures Handled(job, w) && Sound(w.left)
  {
  }

  lemma NewDecoderHandled(job: Job, w: Work)
    requires w.found.index < |PRIORITY| && job.Some? && job.value != CodecOf(PRIORITY[w.found.index])
    requires Feeds(w.rebuilding) == 0 && InCodec(job, w.rebuilding)
    requires AllRejected(job, w.rebuilding, 0, w.used.index) && w.used == State(w.used.index, [], false, 0, job)
    requires Sound(w.used) && Served(w.used, w.decoding, w.result, w.left)
    requires Conveyed(w.lens, w.decoding, w.scaling, w.result)
    ensures Handled(job, w) && Sound(w.left)
  {
  }

  /** The decoder a packet needs: the one there is, or one built for the packet's codec. */
  method DecoderFor(decoder: VideoDecoder, job: Job) returns (chosen: Option<VideoDecoder>, ghost rebuilding: seq<Call>)
    requires decoder.Valid()
    modifies decoder.ffmpeg`calls
    ensures decoder.ffmpeg.calls == old(decoder.ffmpeg.calls) + rebuilding
    ensures
      if job == None || job.value == CodecOf(PRIORITY[decoder.backendIndex]) then
        chosen == Some(decoder) && rebuilding == []
      else
        && Feeds(rebuilding) == 0 && InCodec(job, rebuilding)
        && (chosen == None ==> AllRejected(job, rebuilding, 0, |PRIORITY|))
        && (chosen.Some? ==>
              var now := chosen.value;
              && fresh(now) && now.ffmpeg == decoder.ffmpeg && now.Valid()
              && now.Now() == State(now.backendIndex, [], false, 0, job)
              && AllRejected(job, rebuilding, 0, now.backendIndex))
  {
    if job.Some? && job.value != CodecOf(PRIORITY[decoder.backendIndex]) {
      chosen, rebuilding := Build(decoder.ffmpeg, job);
    } else {
      chosen, rebuilding := Some(decoder), [];
    }
  }

  /** One turn of the thread: rebuild for another codec if needed, then decode. */
  method HandleJob(decoder: VideoDecoder, job: Job)
    returns (now: VideoDecoder, r: Result<Size, Error>, ghost w: Work)
    requires decoder.Valid()
    modifies decoder, decoder.ffmpeg
    ensures now == decoder || fresh(now)
    ensures now.Valid() && now.ffmpeg == decoder.ffmpeg
    ensures Handled(job, w) && w.found == old(decoder.Now()) && w.left == now.Now() && w.result == r
    ensures decoder.ffmpeg.calls == old(decoder.ffmpeg.calls) + w.rebuilding + w.decoding
    ensures decoder.ffmpeg.scalings == old(decoder.ffmpeg.scalings) + w.scaling
  {
    hide Served, AllRejected, InCodec, Feeds, Handled, CodecOf, Conveyed;
    ghost var found := decoder.Now();
    var chosen;
    ghost var rebuilding;
    chosen, rebuilding := DecoderFor(decoder, job);
    if chosen == None {
      w := Work(found, rebuilding, found, [], Err(InitFailed), found, decoder.Glass(), []);
      RefusedIsHandled(job, w);
      return decoder, Err(InitFailed), w;
    }
    now := chosen.value;
    ghost var used, lens := now.Now(), now.Glass();
    ghost var decoding, scaling;
    r, decoding, scaling := now.Decode();
    w := Work(found, rebuilding, used, decoding, r, now.Now(), lens, scaling);
    if now == decoder {
      SameDecoderHandled(job, w);
    } else {
      NewDecoderHandled(job, w);
    }
  }
}
