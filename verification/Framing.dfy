/**
 The control-stream codec (crates/termland-protocol/src/frame.rs): a 7-byte
 header (magic "TL", message id, little-endian payload length) and a payload.

 Payload encoding is a parameter. `Drain` is the decode-everything
 specification; a decoder fed the stream in arbitrary pieces agrees with it.
 */
module Framing {
  import opened Prelude
  import opened Bytes
  import opened Greedy

  const FRAME_MAGIC: seq<byte> := [0x54, 0x4C]
  const HEADER_SIZE: nat := 7
  const MAX_PAYLOAD_SIZE: nat := 16 * 1024 * 1024

  datatype CodecError =
    | InvalidMagic
    | PayloadTooLarge(len: nat)
    | EncodeFailed
    | DecodeFailed

  /** The payload codec: encoding may be refused, decoding may fail. */
  datatype Payloads<!M> = Payloads(
    id: M -> byte, encode: M -> Option<seq<byte>>, decode: seq<byte> -> Option<M>)

  /** Decoding undoes encoding. */
  ghost predicate Inverse<M(!new)>(p: Payloads<M>) {
    forall m: M :: p.encode(m).Some? ==> p.decode(p.encode(m).value) == Some(m)
  }

  /** What one call of the decoder does with the buffered bytes: its result, and what is left. */
  datatype Step<+M> = Step(result: Result<Option<M>, CodecError>, rest: seq<byte>)

  function PayloadLength(src: seq<byte>): nat
    requires |src| >= HEADER_SIZE
  {
    FromLe(src[3..7])
  }

  function DecodeOne<M>(p: Payloads<M>, src: seq<byte>): Step<M> {
    if |src| < HEADER_SIZE then Step(Ok(None), src)
    else if src[..2] != FRAME_MAGIC then Step(Err(InvalidMagic), src)
    else
      var n := PayloadLength(src);
      if n > MAX_PAYLOAD_SIZE then Step(Err(PayloadTooLarge(n)), src)
      else if |src| < HEADER_SIZE + n then Step(Ok(None), src)
      else
        var rest := src[HEADER_SIZE + n..];
        match p.decode(src[HEADER_SIZE..HEADER_SIZE + n])
        case Some(m) => Step(Ok(Some(m)), rest)
        case None => Step(Err(DecodeFailed), rest)
  }

  /** Everything a buffer decodes to: the messages, the error that stopped it if any, the bytes left. */
  datatype Decoded<+M> = Decoded(messages: seq<M>, error: Option<CodecError>, rest: seq<byte>)

  function Drain<M>(p: Payloads<M>, src: seq<byte>): Decoded<M>
    decreases |src|
  {
    var step := DecodeOne(p, src);
    match step.result
    case Err(e) => Decoded([], Some(e), step.rest)
    case Ok(None) => Decoded([], None, step.rest)
    case Ok(Some(m)) =>
      var d := Drain(p, step.rest);
      d.(messages := [m] + d.messages)
  }

  /** Feeding the next piece: nothing more is read once decoding has failed. */
  function Feed<M>(p: Payloads<M>, d: Decoded<M>, piece: seq<byte>): Decoded<M> {
    if d.error.Some? then d
    else
      var more := Drain(p, d.rest + piece);
      more.(messages := d.messages + more.messages)
  }

  function FeedAll<M>(p: Payloads<M>, pieces: seq<seq<byte>>): Decoded<M> {
    if |pieces| == 0 then Decoded([], None, [])
    else Feed(p, FeedAll(p, pieces[..|pieces| - 1]), pieces[|pieces| - 1])
  }

  /** The frame of one message. The length field is 32 bits wide, so a longer length wraps. */
  function EncodeOne<M>(p: Payloads<M>, m: M): Result<seq<byte>, CodecError> {
    match p.encode(m)
    case None => Err(EncodeFailed)
    case Some(payload) =>
      var n := |payload| % 0x1_0000_0000;
      if n > MAX_PAYLOAD_SIZE then Err(PayloadTooLarge(n))
      else Ok(FRAME_MAGIC + [p.id(m)] + ToLe(n, 4) + payload)
  }

  // ----- The decoder -----

  /** A byte buffer that the codec advances and splits in place. */
  class BytesMut {
    var bytes: seq<byte>

    constructor ()
      ensures bytes == []
    {
      bytes := [];
    }

    /** Append received bytes. */
    method Extend(more: seq<byte>)
      modifies this
      ensures bytes == old(bytes) + more
    {
      bytes := bytes + more;
    }

    /** Drop the first `n` bytes. */
    method Advance(n: nat)
      requires n <= |bytes|
      modifies this
      ensures bytes == old(bytes[n..])
    {
      bytes := bytes[n..];
    }

    /** Split off the first `n` bytes. */
    method SplitTo(n: nat) returns (head: seq<byte>)
      requires n <= |bytes|
      modifies this
      ensures head == old(bytes[..n]) && bytes == old(bytes[n..])
    {
      head := bytes[..n];
      bytes := bytes[n..];
    }
  }

  method Decode<M>(p: Payloads<M>, src: BytesMut) returns (r: Result<Option<M>, CodecError>)
    modifies src
    ensures Step(r, src.bytes) == DecodeOne(p, old(src.bytes))
  {
    if |src.bytes| < HEADER_SIZE {
      return Ok(None);
    }
    var magic := src.bytes[..2];
    if magic != FRAME_MAGIC {
      return Err(InvalidMagic);
    }
    var payloadLen := FromLe(src.bytes[3..7]);
    if payloadLen > MAX_PAYLOAD_SIZE {
      return Err(PayloadTooLarge(payloadLen));
    }
    var totalLen := HEADER_SIZE + payloadLen;
    if |src.bytes| < totalLen {
      return Ok(None);
    }
    src.Advance(HEADER_SIZE);
    var payload := src.SplitTo(payloadLen);
    assert payload == old(src.bytes)[HEADER_SIZE..totalLen];
    assert src.bytes == old(src.bytes)[totalLen..];
    var m := p.decode(payload);
    r := if m.Some? then Ok(Some(m.value)) else Err(DecodeFailed);
  }

  method Encode<M>(p: Payloads<M>, m: M, dst: BytesMut) returns (r: Result<(), CodecError>)
    modifies dst
    ensures match EncodeOne(p, m)
            case Ok(frame) => r == Ok(()) && dst.bytes == old(dst.bytes) + frame
            case Err(e) => r == Err(e) && dst.bytes == old(dst.bytes)
  {
    var payload := p.encode(m);
    if payload.None? {
      return Err(EncodeFailed);
    }
    var payloadLen := |payload.value| % 0x1_0000_0000;
    if payloadLen > MAX_PAYLOAD_SIZE {
      return Err(PayloadTooLarge(payloadLen));
    }
    dst.Extend(FRAME_MAGIC);
    dst.Extend([p.id(m)]);
    dst.Extend(ToLe(payloadLen, 4));
    dst.Extend(payload.value);
    return Ok(());
  }

  /** Reading a stream piece by piece: append, then decode until the buffer gives no more. */
  method ReadPieces<M>(p: Payloads<M>, pieces: seq<seq<byte>>)
    returns (messages: seq<M>, error: Option<CodecError>, buffered: seq<byte>)
    ensures Decoded(messages, error, buffered) == FeedAll(p, pieces)
  {
    var src := new BytesMut();
    messages, error := [], None;
    for i := 0 to |pieces|
      invariant Decoded(messages, error, src.bytes) == FeedAll(p, pieces[..i])
    {
      assert pieces[..i + 1][..i] == pieces[..i];
      if error.None? {
        src.Extend(pieces[i]);
        ghost var start, before := src.bytes, messages;
        var more := true;
        while more
          invariant more ==> error.None?
          invariant var d := Drain(p, src.bytes);
                    Decoded(before + Drain(p, start).messages, Drain(p, start).error, Drain(p, start).rest)
                    == if more then Decoded(messages + d.messages, d.error, d.rest)
                       else Decoded(messages, error, src.bytes)
          decreases more, |src.bytes|
        {
          var r := Decode(p, src);
          match r {
            case Err(e) => error, more := Some(e), false;
            case Ok(None) => more := false;
            case Ok(Some(m)) => messages := messages + [m];
          }
        }
      }
    }
    assert pieces[..|pieces|] == pieces;
    buffered := src.bytes;
  }

  // ----- Independence of cuts -----

  /** `None` consumes nothing and means less than one largest frame is buffered. */
  lemma NotYetAFrame<M>(p: Payloads<M>, src: seq<byte>)
    requires DecodeOne(p, src).result == Ok(None)
    ensures DecodeOne(p, src).rest == src && |src| < HEADER_SIZE + MAX_PAYLOAD_SIZE
  {
  }

  /** A decided step is not changed by bytes that arrive later, and consumes none of them. */
  lemma DecidedStep<M>(p: Payloads<M>, src: seq<byte>, more: seq<byte>)
    requires DecodeOne(p, src).result != Ok(None)
    ensures DecodeOne(p, src + more)
         == Step(DecodeOne(p, src).result, DecodeOne(p, src).rest + more)
  {
    var all := src + more;
    assert all[..2] == src[..2] && all[3..7] == src[3..7];
    var n := PayloadLength(src);
    if src[..2] == FRAME_MAGIC && n <= MAX_PAYLOAD_SIZE {
      assert all[HEADER_SIZE..HEADER_SIZE + n] == src[HEADER_SIZE..HEADER_SIZE + n];
      assert all[HEADER_SIZE + n..] == src[HEADER_SIZE + n..] + more;
    }
  }

  /** `all` is `d` followed by what `more` adds to it: nothing but unread bytes once `d` has failed. */
  ghost predicate InTwo<M>(d: Decoded<M>, all: Decoded<M>, p: Payloads<M>, more: seq<byte>) {
    if d.error.Some? then all == d.(rest := d.rest + more)
    else var e := Drain(p, d.rest + more); all == e.(messages := d.messages + e.messages)
  }

  /** Decoding a prefix first and the rest afterwards is decoding it all. */
  lemma {:induction false} DrainInTwo<M>(p: Payloads<M>, src: seq<byte>, more: seq<byte>)
    ensures InTwo(Drain(p, src), Drain(p, src + more), p, more)
    decreases |src|
  {
    var step := DecodeOne(p, src);
    if step.result == Ok(None) {
      var e := Drain(p, src + more);
      assert Drain(p, src) == Decoded([], None, src) && [] + e.messages == e.messages;
    } else {
      DecidedStep(p, src, more);
      if step.result.Ok? {
        DrainInTwo(p, step.rest, more);
        DrainOneMore(p, src, more, step.result.value.value);
      }
    }
  }

  /** One message decoded, and the claim holding for what follows it. */
  lemma DrainOneMore<M>(p: Payloads<M>, src: seq<byte>, more: seq<byte>, m: M)
    requires DecodeOne(p, src).result == Ok(Some(m))
    requires DecodeOne(p, src + more) == Step(Ok(Some(m)), DecodeOne(p, src).rest + more)
    requires InTwo(Drain(p, DecodeOne(p, src).rest), Drain(p, DecodeOne(p, src).rest + more), p, more)
    ensures InTwo(Drain(p, src), Drain(p, src + more), p, more)
  {
    var d, all := Drain(p, DecodeOne(p, src).rest), Drain(p, DecodeOne(p, src).rest + more);
    assert Drain(p, src) == d.(messages := [m] + d.messages);
    assert Drain(p, src + more) == all.(messages := [m] + all.messages);
    if d.error.None? {
      var e := Drain(p, d.rest + more);
      assert [m] + (d.messages + e.messages) == ([m] + d.messages) + e.messages;
    }
  }

  /** The bytes of the pieces that were never read because decoding had failed. */
  function Unread<M>(p: Payloads<M>, pieces: seq<seq<byte>>): seq<byte> {
    if |pieces| == 0 then []
    else
      var front := pieces[..|pieces| - 1];
      if FeedAll(p, front).error.Some? then Unread(p, front) + pieces[|pieces| - 1] else []
  }

  /** However the stream is cut: the same messages, the same first error, the same bytes left over. */
  lemma {:induction false} CutsDoNotMatter<M>(p: Payloads<M>, pieces: seq<seq<byte>>)
    ensures var fed, all := FeedAll(p, pieces), Drain(p, Flatten(pieces));
            fed.messages == all.messages && fed.error == all.error
            && fed.rest + Unread(p, pieces) == all.rest
    ensures FeedAll(p, pieces).error.None? ==> Unread(p, pieces) == []
  {
    if |pieces| == 0 {
      assert DecodeOne(p, []).result == Ok(None);
    } else {
      var front, last := pieces[..|pieces| - 1], pieces[|pieces| - 1];
      CutsDoNotMatter(p, front);
      assert pieces == front + [last];
      FlattenAppend(front, last);
      NextPiece(p, Flatten(front), FeedAll(p, front), Unread(p, front), last);
    }
  }

  /** One more piece keeps a decoder that agrees with `Drain` so far in agreement. */
  lemma NextPiece<M>(p: Payloads<M>, src: seq<byte>, fed: Decoded<M>, unread: seq<byte>, piece: seq<byte>)
    requires fed.(rest := fed.rest + unread) == Drain(p, src)
    requires fed.error.None? ==> unread == []
    ensures var fed', all := Feed(p, fed, piece), Drain(p, src + piece);
            && fed'.messages == all.messages && fed'.error == all.error
            && fed'.rest + (if fed.error.Some? then unread + piece else []) == all.rest
  {
    DrainInTwo(p, src, piece);
    hide Drain;
    assert (fed.rest + unread) + piece == fed.rest + (unread + piece);
    if fed.error.None? {
      assert fed.rest + unread == fed.rest;
    }
  }

  // ----- Round trip -----

  /** The stream of back-to-back frames. */
  function EncodeAll<M>(p: Payloads<M>, ms: seq<M>): Result<seq<byte>, CodecError> {
    if |ms| == 0 then Ok([])
    else
      match EncodeOne(p, ms[0])
      case Err(e) => Err(e)
      case Ok(frame) =>
        match EncodeAll(p, ms[1..])
        case Err(e) => Err(e)
        case Ok(frames) => Ok(frame + frames)
  }

  ghost predicate ShortPayload<M>(p: Payloads<M>, m: M) {
    p.encode(m).Some? ==> |p.encode(m).value| < 0x1_0000_0000
  }

  /** The decoder takes a frame apart by the length its header states, whatever follows. */
  lemma DecodeFrame<M>(p: Payloads<M>, m: M, more: seq<byte>)
    requires EncodeOne(p, m).Ok?
    ensures var payload := p.encode(m).value;
            var n := |payload| % 0x1_0000_0000;
            DecodeOne(p, EncodeOne(p, m).value + more)
            == Step(if p.decode(payload[..n]).Some? then Ok(Some(p.decode(payload[..n]).value)) else Err(DecodeFailed),
                    payload[n..] + more)
  {
    var payload := p.encode(m).value;
    var n := |payload| % 0x1_0000_0000;
    Ranges();
    LeRoundTrip(n, 4);
    hide ToLe, FromLe;
    FrameSlices(FRAME_MAGIC, p.id(m), ToLe(n, 4), payload, n, more);
  }

  lemma FrameSlices(magic: seq<byte>, id: byte, len: seq<byte>, payload: seq<byte>, n: nat, more: seq<byte>)
    requires |magic| == 2 && |len| == 4 && n <= |payload|
    ensures var src := magic + [id] + len + payload + more;
            && |src| >= 7 + n && src[..2] == magic && src[3..7] == len
            && src[7..7 + n] == payload[..n] && src[7 + n..] == payload[n..] + more
  {
    var head := magic + [id] + len;
    assert head + payload + more == head + (payload + more);
  }

  /** Back-to-back frames decode to exactly the messages, however the bytes arrive. */
  lemma {:induction false} DrainEncoded<M(!new)>(p: Payloads<M>, ms: seq<M>)
    requires Inverse(p) && EncodeAll(p, ms).Ok?
    requires forall m :: m in ms ==> ShortPayload(p, m)
    ensures Drain(p, EncodeAll(p, ms).value) == Decoded(ms, None, [])
  {
    if |ms| == 0 {
      assert DecodeOne(p, []).result == Ok(None);
    } else {
      var rest := EncodeAll(p, ms[1..]).value;
      WholeFrame(p, ms[0], rest);
      DrainEncoded(p, ms[1..]);
      DrainStep(p, EncodeOne(p, ms[0]).value + rest, ms[0], rest);
    }
  }

  lemma WholeFrame<M(!new)>(p: Payloads<M>, m: M, more: seq<byte>)
    requires Inverse(p) && EncodeOne(p, m).Ok? && ShortPayload(p, m)
    ensures DecodeOne(p, EncodeOne(p, m).value + more) == Step(Ok(Some(m)), more)
  {
    DecodeFrame(p, m, more);
    var payload := p.encode(m).value;
    assert payload[..|payload|] == payload && payload[|payload|..] + more == more;
  }

  lemma DrainStep<M>(p: Payloads<M>, src: seq<byte>, m: M, rest: seq<byte>)
    requires DecodeOne(p, src) == Step(Ok(Some(m)), rest)
    ensures Drain(p, src) == Drain(p, rest).(messages := [m] + Drain(p, rest).messages)
  {
  }

  lemma RoundTrip<M(!new)>(p: Payloads<M>, ms: seq<M>, pieces: seq<seq<byte>>)
    requires Inverse(p) && EncodeAll(p, ms).Ok?
    requires forall m :: m in ms ==> ShortPayload(p, m)
    requires Flatten(pieces) == EncodeAll(p, ms).value
    ensures FeedAll(p, pieces) == Decoded(ms, None, [])
  {
    DrainEncoded(p, ms);
    CutsDoNotMatter(p, pieces);
  }

  /** One accepted message comes back whole exactly when its payload is shorter than 2^32 bytes. */
  lemma ComesBackIff<M(!new)>(p: Payloads<M>, m: M)
    requires Inverse(p) && EncodeOne(p, m).Ok?
    ensures DecodeOne(p, EncodeOne(p, m).value) == Step(Ok(Some(m)), []) <==> ShortPayload(p, m)
  {
    var payload := p.encode(m).value;
    DecodeFrame(p, m, []);
    assert EncodeOne(p, m).value + [] == EncodeOne(p, m).value;
    var n := |payload| % 0x1_0000_0000;
    if |payload| < 0x1_0000_0000 {
      assert payload[..n] == payload;
    } else {
      assert |payload[n..] + []| > 0;
    }
  }

  // ----- The wire, octet by octet -----

  /** The length field of a header. */
  function LengthField(src: seq<byte>): nat
    requires |src| >= 7
  {
    src[3] as int + 0x100 * (src[4] as int) + 0x1_0000 * (src[5] as int) + 0x100_0000 * (src[6] as int)
  }

  lemma LengthFieldIs(src: seq<byte>)
    requires |src| >= 7
    ensures LengthField(src) == PayloadLength(src)
  {
    var f := src[3..7];
    assert f[1..][1..][1..][1..] == [];
    assert FromLe(f) == f[0] + 0x100 * FromLe(f[1..]);
    assert FromLe(f[1..]) == f[1] + 0x100 * FromLe(f[1..][1..]);
    assert FromLe(f[1..][1..]) == f[2] + 0x100 * FromLe(f[1..][1..][1..]);
    assert FromLe(f[1..][1..][1..]) == f[3];
  }

  /**
   Every payload of at most 16 MiB is framed: "TL", the id, the length in four
   octets from the lowest, the payload. One above it whose length 32 bits can
   hold is refused, with that length.
   */
  lemma FramedIff<M>(p: Payloads<M>, m: M)
    ensures p.encode(m) == None ==> EncodeOne(p, m) == Err(EncodeFailed)
    ensures p.encode(m).Some? && 16 * 1024 * 1024 < |p.encode(m).value| < 0x1_0000_0000 ==>
              EncodeOne(p, m) == Err(PayloadTooLarge(|p.encode(m).value|))
    ensures p.encode(m).Some? && |p.encode(m).value| <= 16 * 1024 * 1024 ==>
              var payload := p.encode(m).value;
              && EncodeOne(p, m).Ok?
              && var frame := EncodeOne(p, m).value;
                 && |frame| == 7 + |payload| && frame[0] == 0x54 && frame[1] == 0x4C
                 && frame[2] == p.id(m) && LengthField(frame) == |payload| && frame[7..] == payload
  {
    if p.encode(m).Some? && |p.encode(m).value| <= 16 * 1024 * 1024 {
      var payload := p.encode(m).value;
      var frame := EncodeOne(p, m).value;
      Ranges();
      LeRoundTrip(|payload|, 4);
      assert frame[3..7] == ToLe(|payload|, 4);
      LengthFieldIs(frame);
    }
  }

  /** What a buffer is taken for, from its octets alone; nothing is consumed but a whole frame. */
  lemma DecodedIff<M>(p: Payloads<M>, src: seq<byte>)
    ensures var step := DecodeOne(p, src);
            if |src| < 7 then step == Step(Ok(None), src)
            else if src[0] != 0x54 || src[1] != 0x4C then step == Step(Err(InvalidMagic), src)
            else
              var n := LengthField(src);
              if n > 16 * 1024 * 1024 then step == Step(Err(PayloadTooLarge(n)), src)
              else if |src| < 7 + n then step == Step(Ok(None), src)
              else
                step == Step(match p.decode(src[7..7 + n]) case Some(m) => Ok(Some(m)) case None => Err(DecodeFailed),
                             src[7 + n..])
  {
    if |src| >= 7 {
      LengthFieldIs(src);
      assert src[..2] == [src[0], src[1]];
    }
  }

  /** A 2^32-byte payload is framed as an empty one, and decodes to a different message. */
  lemma WrappedLength()
    ensures var big := seq(0x1_0000_0000, i => 0 as byte);
            var p := Payloads(m => 1, (m: bool) => Some(if m then big else []), bs => Some(bs != []));
            && Inverse(p) && EncodeOne(p, true).Ok?
            && DecodeOne(p, EncodeOne(p, true).value) == Step(Ok(Some(false)), big)
  {
    var big := seq(0x1_0000_0000, i => 0 as byte);
    var p := Payloads(m => 1, (m: bool) => Some(if m then big else []), bs => Some(bs != []));
    assert |big| % 0x1_0000_0000 == 0;
    DecodeFrame(p, true, []);
    assert EncodeOne(p, true).value + [] == EncodeOne(p, true).value;
    assert big[..0] == [] && big[0..] + [] == big;
  }
}
