/**
 The media plane: the 18-byte video header (crates/termland-protocol/src/q2.rs)
 and the browser's reader of header-plus-payload frames from a byte stream that
 arrives in arbitrary chunks (web/src/q2.ts).
 */
module Q2Stream {
  import opened Prelude
  import opened Bytes
  import opened Greedy

  const VIDEO_HEADER_LEN: nat := 18
  const MAX_VIDEO_FRAME_BYTES: nat := 16 * 1024 * 1024

  datatype VideoCodec = Av1 | Vp9 | Vp8 | H265 | H264

  datatype VideoHeader = VideoHeader(
    codec: VideoCodec, keyframe: bool, width: nat, height: nat, timestampUs: nat, dataLen: nat)
  {
    /** The fields fit their wire widths. */
    predicate Fits() {
      width < 0x1_0000 && height < 0x1_0000 && timestampUs < 0x1_0000_0000_0000_0000 && dataLen < 0x1_0000_0000
    }
  }

  function CodecTag(codec: VideoCodec): byte {
    match codec
    case Av1 => 0
    case Vp9 => 1
    case Vp8 => 2
    case H265 => 3
    case H264 => 4
  }

  function DecodeCodecTag(tag: byte): Option<VideoCodec> {
    if tag == 0 then Some(Av1)
    else if tag == 1 then Some(Vp9)
    else if tag == 2 then Some(Vp8)
    else if tag == 3 then Some(H265)
    else if tag == 4 then Some(H264)
    else None
  }

  /** The header, field after field. */
  function HeaderBytes(h: VideoHeader): (bs: seq<byte>)
    ensures |bs| == VIDEO_HEADER_LEN
  {
    [CodecTag(h.codec)] + [if h.keyframe then 1 else 0]
    + ToLe(h.width, 2) + ToLe(h.height, 2) + ToLe(h.timestampUs, 8) + ToLe(h.dataLen, 4)
  }

  function ParseHeader(bs: seq<byte>): Option<VideoHeader>
    requires |bs| == VIDEO_HEADER_LEN
  {
    match DecodeCodecTag(bs[0])
    case None => None
    case Some(codec) =>
      Some(VideoHeader(codec, bs[1] == 1, FromLe(bs[2..4]), FromLe(bs[4..6]), FromLe(bs[6..14]), FromLe(bs[14..18])))
  }

  /** `buf[at..at + |bs|].copy_from_slice(bs)` */
  method CopyInto(buf: array<byte>, at: nat, bs: seq<byte>)
    requires at + |bs| <= buf.Length
    modifies buf
    ensures buf[..] == old(buf[..at]) + bs + old(buf[at + |bs|..])
  {
    for i := 0 to |bs|
      invariant buf[..] == old(buf[..at]) + bs[..i] + old(buf[at + i..])
    {
      buf[at + i] := bs[i];
    }
  }

  /** The encoder fills an 18-byte buffer slice by slice. */
  method VideoHeaderBytes(h: VideoHeader) returns (buf: array<byte>)
    ensures fresh(buf) && buf[..] == HeaderBytes(h)
  {
    buf := new byte[VIDEO_HEADER_LEN](_ => 0);
    buf[0] := CodecTag(h.codec);
    buf[1] := if h.keyframe then 1 else 0;
    assert buf[..2] == [buf[0]] + [buf[1]];
    hide CodecTag;
    CopyInto(buf, 2, ToLe(h.width, 2));
    assert buf[..4] == buf[..2] + ToLe(h.width, 2);
    CopyInto(buf, 4, ToLe(h.height, 2));
    assert buf[..6] == buf[..4] + ToLe(h.height, 2);
    CopyInto(buf, 6, ToLe(h.timestampUs, 8));
    assert buf[..14] == buf[..6] + ToLe(h.timestampUs, 8);
    CopyInto(buf, 14, ToLe(h.dataLen, 4));
  }

  lemma HeaderFields(h: VideoHeader)
    ensures var bs := HeaderBytes(h);
            && bs[0] == CodecTag(h.codec) && bs[1] == (if h.keyframe then 1 else 0)
            && bs[2..4] == ToLe(h.width, 2) && bs[4..6] == ToLe(h.height, 2)
            && bs[6..14] == ToLe(h.timestampUs, 8) && bs[14..18] == ToLe(h.dataLen, 4)
  {
  }

  /** Parsing undoes encoding for every header whose fields fit. */
  lemma ParseAfterEncode(h: VideoHeader)
    requires h.Fits()
    ensures ParseHeader(HeaderBytes(h)) == Some(h)
  {
    HeaderFields(h);
    Ranges();
    LeRoundTrip(h.width, 2);
    LeRoundTrip(h.height, 2);
    LeRoundTrip(h.timestampUs, 8);
    LeRoundTrip(h.dataLen, 4);
  }

  lemma {:induction false} LeIsCanonical(bs: seq<byte>, width: nat)
    requires |bs| == width
    ensures ToLe(FromLe(bs), width) == bs
  {
    if width > 0 {
      LeIsCanonical(bs[1..], width - 1);
      LowOctet(bs[0], FromLe(bs[1..]));
      assert [bs[0]] + bs[1..] == bs;
    }
  }

  lemma LowOctet(b: byte, rest: nat)
    ensures (b + 256 * rest) % 256 == b && (b + 256 * rest) / 256 == rest
  {
  }

  lemma SameSlices(a: seq<byte>, b: seq<byte>)
    requires |a| == |b| == VIDEO_HEADER_LEN
    requires a[0] == b[0] && a[1] == b[1] && a[2..4] == b[2..4] && a[4..6] == b[4..6]
    requires a[6..14] == b[6..14] && a[14..18] == b[14..18]
    ensures a == b
  {
    assert a == [a[0]] + [a[1]] + a[2..4] + a[4..6] + a[6..14] + a[14..18];
    assert b == [b[0]] + [b[1]] + b[2..4] + b[4..6] + b[6..14] + b[14..18];
  }

  /** Encoding undoes parsing exactly when the frame-type byte is one of the two defined tags. */
  lemma EncodeAfterParse(bs: seq<byte>)
    requires |bs| == VIDEO_HEADER_LEN && ParseHeader(bs).Some?
    ensures HeaderBytes(ParseHeader(bs).value) == bs <==> bs[1] <= 1
  {
    var h := ParseHeader(bs).value;
    HeaderFields(h);
    if bs[1] <= 1 {
      LeIsCanonical(bs[2..4], 2);
      LeIsCanonical(bs[4..6], 2);
      LeIsCanonical(bs[6..14], 8);
      LeIsCanonical(bs[14..18], 4);
      SameSlices(HeaderBytes(h), bs);
    }
  }

  // ----- Frames in a stream -----

  datatype Q2Frame = Q2Frame(
    codec: VideoCodec, keyframe: bool, width: nat, height: nat, timestampUs: nat, data: seq<byte>)

  function HeaderOf(f: Q2Frame): VideoHeader {
    VideoHeader(f.codec, f.keyframe, f.width, f.height, f.timestampUs, |f.data|)
  }

  /** Frames the browser accepts: fields fit, and the payload is within the cap. */
  predicate Sendable(f: Q2Frame) {
    HeaderOf(f).Fits() && |f.data| <= MAX_VIDEO_FRAME_BYTES
  }

  function FrameBytes(f: Q2Frame): seq<byte> {
    HeaderBytes(HeaderOf(f)) + f.data
  }

  function StreamBytes(fs: seq<Q2Frame>): seq<byte> {
    if |fs| == 0 then [] else FrameBytes(fs[0]) + StreamBytes(fs[1..])
  }

  /** The browser's header parser: it refuses short input, unknown codecs and implausible sizes. */
  function AcceptHeader(bs: seq<byte>, number: nat -> nat): Option<VideoHeader> {
    if |bs| < VIDEO_HEADER_LEN then None
    else
      match ParseHeader(bs[..VIDEO_HEADER_LEN])
      case None => None
      case Some(h) =>
        if h.dataLen > MAX_VIDEO_FRAME_BYTES then None
        // `Number` turns the 64-bit timestamp into a double.
        else Some(h.(timestampUs := number(h.timestampUs)))
  }

  type HeaderParser = seq<byte> -> Option<VideoHeader>

  function BrowserParser(number: nat -> nat): HeaderParser {
    (bs: seq<byte>) => AcceptHeader(bs, number)
  }

  /** `threw` when a header was refused; otherwise the stream just ended, possibly inside a frame. */
  datatype Parsed = Parsed(frames: seq<Q2Frame>, threw: bool)

  /** Frame-by-frame parsing of the whole stream. */
  function ParseStream(bs: seq<byte>, parse: HeaderParser): Parsed
    decreases |bs|
  {
    if |bs| < VIDEO_HEADER_LEN then Parsed([], false)
    else
      match parse(bs[..VIDEO_HEADER_LEN])
      case None => Parsed([], true)
      case Some(h) =>
        var rest := bs[VIDEO_HEADER_LEN..];
        if |rest| < h.dataLen then Parsed([], false)
        else
          var later := ParseStream(rest[h.dataLen..], parse);
          later.(frames := [FrameOf(h, rest[..h.dataLen])] + later.frames)
  }

  function FrameOf(h: VideoHeader, data: seq<byte>): Q2Frame {
    Q2Frame(h.codec, h.keyframe, h.width, h.height, h.timestampUs, data)
  }

  /** Below 2^53 a double holds the timestamp exactly. */
  ghost predicate ExactBelow53(number: nat -> nat) {
    forall t: nat :: t < 0x20_0000_0000_0000 ==> number(t) == t
  }

  /** `parse` reads the header of `f` as the encoder wrote it. */
  ghost predicate Reads(parse: HeaderParser, f: Q2Frame) {
    parse(HeaderBytes(HeaderOf(f))) == Some(HeaderOf(f))
  }

  /** The browser's parser reads the header of every sendable frame stamped below 2^53. */
  lemma BrowserReads(f: Q2Frame, number: nat -> nat)
    requires Sendable(f) && f.timestampUs < 0x20_0000_0000_0000 && ExactBelow53(number)
    ensures Reads(BrowserParser(number), f)
  {
    ParseAfterEncode(HeaderOf(f));
    var bs := HeaderBytes(HeaderOf(f));
    assert bs[..VIDEO_HEADER_LEN] == bs;
  }

  lemma ParseFrame(f: Q2Frame, more: seq<byte>, parse: HeaderParser)
    requires Reads(parse, f)
    ensures ParseStream(FrameBytes(f) + more, parse)
         == ParseStream(more, parse).(frames := [f] + ParseStream(more, parse).frames)
  {
    var h := HeaderOf(f);
    FrameParts(HeaderBytes(h), f.data, more, parse, h);
  }

  lemma FrameParts(header: seq<byte>, data: seq<byte>, more: seq<byte>, parse: HeaderParser, h: VideoHeader)
    requires |header| == VIDEO_HEADER_LEN && parse(header) == Some(h) && |data| == h.dataLen
    ensures ParseStream(header + data + more, parse)
         == ParseStream(more, parse).(frames := [FrameOf(h, data)] + ParseStream(more, parse).frames)
  {
    var bs := header + data + more;
    assert bs[..VIDEO_HEADER_LEN] == header;
    var rest := bs[VIDEO_HEADER_LEN..];
    assert rest == data + more;
    assert rest[..h.dataLen] == data && rest[h.dataLen..] == more;
  }

  /** A frame cut short yields nothing and is not an error. */
  lemma ParseCutFrame(f: Q2Frame, k: nat, parse: HeaderParser)
    requires Reads(parse, f) && k < |FrameBytes(f)|
    ensures ParseStream(FrameBytes(f)[..k], parse) == Parsed([], false)
  {
    var bs := FrameBytes(f)[..k];
    if k >= VIDEO_HEADER_LEN {
      assert bs[..VIDEO_HEADER_LEN] == HeaderBytes(HeaderOf(f));
    }
  }

  /** Any list of frames followed by a cut-off frame parses to exactly that list. */
  lemma {:induction false} ParseSerialized(fs: seq<Q2Frame>, cut: Q2Frame, k: nat, parse: HeaderParser)
    requires forall f :: f in fs ==> Reads(parse, f)
    requires Reads(parse, cut) && k < |FrameBytes(cut)|
    ensures ParseStream(StreamBytes(fs) + FrameBytes(cut)[..k], parse) == Parsed(fs, false)
  {
    var tail := FrameBytes(cut)[..k];
    if |fs| == 0 {
      assert StreamBytes(fs) + tail == tail;
      ParseCutFrame(cut, k, parse);
    } else {
      StreamSplit(FrameBytes(fs[0]), StreamBytes(fs[1..]), tail);
      ParseFrame(fs[0], StreamBytes(fs[1..]) + tail, parse);
      ParseSerialized(fs[1..], cut, k, parse);
    }
  }

  lemma StreamSplit(a: seq<byte>, b: seq<byte>, c: seq<byte>)
    ensures (a + b) + c == a + (b + c)
  {
  }

  // ----- The reader -----

  /** Join the parts in one buffer of the given size. */
  method ConcatOnce(parts: seq<seq<byte>>, total: nat) returns (joined: seq<byte>)
    requires total == |Flatten(parts)|
    ensures joined == Flatten(parts)
  {
    if |parts| == 1 {
      assert parts[1..] == [];
      return parts[0];
    }
    var out := new byte[total](_ => 0);
    var offset := 0;
    for i := 0 to |parts|
      invariant offset == |Flatten(parts[..i])| && offset + |Flatten(parts[i..])| == total
      invariant out[..offset] == Flatten(parts[..i])
    {
      assert parts[..i + 1] == parts[..i] + [parts[i]];
      FlattenAppend(parts[..i], parts[i]);
      CopyInto(out, offset, parts[i]);
      offset := offset + |parts[i]|;
    }
    assert parts[..|parts|] == parts;
    assert out[..] == out[..offset];
    return out[..];
  }

  class ByteReader {
    var leftover: seq<byte>
    /** The chunks the stream has yet to deliver. */
    var incoming: seq<seq<byte>>

    constructor (chunks: seq<seq<byte>>)
      ensures leftover == [] && incoming == chunks
    {
      leftover, incoming := [], chunks;
    }

    /** Every byte still to be handed out. */
    function Pending(): seq<byte>
      reads this
    {
      leftover + Flatten(incoming)
    }

    /** Exactly the next `n` bytes, or None once the stream cannot supply them. */
    method ReadExact(n: nat) returns (r: Option<seq<byte>>)
      modifies this
      ensures |old(Pending())| < n ==> r == None
      ensures |old(Pending())| >= n ==> r == Some(old(Pending())[..n]) && Pending() == old(Pending())[n..]
    {
      var parts: seq<seq<byte>> := [];
      var have := |leftover|;
      if have > 0 {
        parts := [leftover];
        assert parts[1..] == [];
      }
      while have < n
        invariant have == |Flatten(parts)| && leftover == old(leftover)
        invariant Flatten(parts) + Flatten(incoming) == old(Pending())
        decreases |incoming|
      {
        if |incoming| == 0 {
          return None;
        }
        var value := incoming[0];
        incoming := incoming[1..];
        FlattenAppend(parts, value);
        parts := parts + [value];
        have := have + |value|;
      }
      var joined := ConcatOnce(parts, have);
      var out := joined[..n];
      leftover := if |joined| > n then joined[n..] else [];
      r := Some(out);
      assert joined + Flatten(incoming) == old(Pending());
      assert leftover == joined[n..] && out == old(Pending())[..n];
      assert old(Pending())[n..] == joined[n..] + Flatten(incoming);
    }
  }

  /** One turn of the generator: a frame, or the end, normal or by a refused header. */
  method NextFrame(reader: ByteReader, parse: HeaderParser) returns (frame: Option<Q2Frame>, threw: bool)
    modifies reader
    ensures match frame
            case None => ParseStream(old(reader.Pending()), parse) == Parsed([], threw)
            case Some(f) =>
              && !threw && |reader.Pending()| < |old(reader.Pending())|
              && var later := ParseStream(reader.Pending(), parse);
                 ParseStream(old(reader.Pending()), parse) == later.(frames := [f] + later.frames)
  {
    ghost var was := reader.Pending();
    var header := reader.ReadExact(VIDEO_HEADER_LEN);
    if header.None? {
      return None, false;
    }
    ghost var rest := was[VIDEO_HEADER_LEN..];
    var parsed := parse(header.value);
    if parsed.None? {
      return None, true;
    }
    var h := parsed.value;
    var data := reader.ReadExact(h.dataLen);
    if data.None? {
      return None, false;
    }
    assert reader.Pending() == rest[h.dataLen..];
    return Some(FrameOf(h, data.value)), false;
  }

  lemma OneMoreFrame(frames: seq<Q2Frame>, frame: Q2Frame, later: seq<Q2Frame>)
    ensures frames + ([frame] + later) == frames + [frame] + later
  {
  }

  /** The generator: its frames are those of frame-by-frame parsing, however the stream is chunked. */
  method ReadQ2Frames(chunks: seq<seq<byte>>, parse: HeaderParser) returns (frames: seq<Q2Frame>, threw: bool)
    ensures Parsed(frames, threw) == ParseStream(Flatten(chunks), parse)
  {
    var reader := new ByteReader(chunks);
    frames := [];
    assert reader.Pending() == Flatten(chunks);
    while true
      invariant var later := ParseStream(reader.Pending(), parse);
                ParseStream(Flatten(chunks), parse) == Parsed(frames + later.frames, later.threw)
      decreases |reader.Pending()|
    {
      hide ParseStream, Flatten;
      var frame;
      frame, threw := NextFrame(reader, parse);
      if frame.None? {
        return;
      }
      OneMoreFrame(frames, frame.value, ParseStream(reader.Pending(), parse).frames);
      frames := frames + [frame.value];
    }
  }

  /**
   End to end: however the bytes of sendable frames, and of a last frame cut
   off in transit, are chunked, the browser's reader returns exactly the frames.
   */
  lemma FramesComeBack(fs: seq<Q2Frame>, cut: Q2Frame, k: nat, chunks: seq<seq<byte>>, number: nat -> nat)
    requires forall f :: f in fs + [cut] ==> Sendable(f) && f.timestampUs < 0x20_0000_0000_0000
    requires ExactBelow53(number) && k < |FrameBytes(cut)|
    requires Flatten(chunks) == StreamBytes(fs) + FrameBytes(cut)[..k]
    ensures ParseStream(Flatten(chunks), BrowserParser(number)) == Parsed(fs, false)
  {
    assert cut in fs + [cut];
    forall f | f in fs + [cut] ensures Reads(BrowserParser(number), f) {
      BrowserReads(f, number);
    }
    ParseSerialized(fs, cut, k, BrowserParser(number));
  }

  // ----- The wire, octet by octet -----

  /** Where each field of the header stands: codec, keyframe flag, width, height, timestamp, length, lowest octet first. */
  lemma HeaderLayout(h: VideoHeader)
    requires h.Fits()
    ensures var bs := HeaderBytes(h);
            && |bs| == 18
            && bs[0] == (match h.codec case Av1 => 0 case Vp9 => 1 case Vp8 => 2 case H265 => 3 case H264 => 4)
            && bs[1] == (if h.keyframe then 1 else 0)
            && bs[2] as int + 0x100 * (bs[3] as int) == h.width
            && bs[4] as int + 0x100 * (bs[5] as int) == h.height
            && bs[14] as int + 0x100 * (bs[15] as int) + 0x1_0000 * (bs[16] as int) + 0x100_0000 * (bs[17] as int)
               == h.dataLen
            && bs[6] as int == h.timestampUs % 0x100 && bs[13] as int == h.timestampUs / 0x100_0000_0000_0000
  {
    hide HeaderBytes, CodecTag;
    HeaderFields(h);
    Ranges();
    LeTwo(h.width);
    LeTwo(h.height);
    LeFour(h.dataLen);
    LeEight(h.timestampUs);
    var bs := HeaderBytes(h);
    assert bs[2..4][0] == bs[2] && bs[2..4][1] == bs[3];
    assert bs[4..6][0] == bs[4] && bs[4..6][1] == bs[5];
    assert bs[6..14][0] == bs[6] && bs[6..14][7] == bs[13];
    var len := bs[14..18];
    assert len[0] == bs[14] && len[1] == bs[15] && len[2] == bs[16] && len[3] == bs[17];
    TagOf(h.codec);
  }

  lemma TagOf(codec: VideoCodec)
    ensures CodecTag(codec) == match codec case Av1 => 0 case Vp9 => 1 case Vp8 => 2 case H265 => 3 case H264 => 4
  {
  }

  lemma LeTwo(v: nat)
    requires v < 0x1_0000
    ensures var bs := ToLe(v, 2); bs[0] as int + 0x100 * (bs[1] as int) == v
  {
    assert ToLe(v, 2) == [v % 256] + ([v / 256 % 256] + ToLe(v / 256 / 256, 0));
  }

  lemma LeFour(v: nat)
    requires v < 0x1_0000_0000
    ensures var bs := ToLe(v, 4);
            bs[0] as int + 0x100 * (bs[1] as int) + 0x1_0000 * (bs[2] as int) + 0x100_0000 * (bs[3] as int) == v
  {
    LeTwo(v / 0x100 / 0x100);
    assert ToLe(v, 4) == [v % 256] + ([v / 256 % 256] + ToLe(v / 256 / 256, 2));
  }

  lemma LeEight(v: nat)
    requires v < 0x1_0000_0000_0000_0000
    ensures var bs := ToLe(v, 8); bs[0] as int == v % 0x100 && bs[7] as int == v / 0x100_0000_0000_0000
  {
    var tail := v / 0x100 / 0x100 / 0x100 / 0x100 / 0x100 / 0x100;
    var six := ToLe(tail, 2);
    assert ToLe(tail / 256, 1)[0] == tail / 256 % 256;
    assert six[1] == ToLe(tail / 256, 1)[0];
    var five := ToLe(v / 0x100 / 0x100 / 0x100 / 0x100 / 0x100, 3);
    assert five[2] == six[1];
    var four := ToLe(v / 0x100 / 0x100 / 0x100 / 0x100, 4);
    assert four[3] == five[2];
    var three := ToLe(v / 0x100 / 0x100 / 0x100, 5);
    assert three[4] == four[3];
    var two := ToLe(v / 0x100 / 0x100, 6);
    assert two[5] == three[4];
    var one := ToLe(v / 0x100, 7);
    assert one[6] == two[5];
    assert ToLe(v, 8)[7] == one[6];
  }

  /** The browser refuses a header exactly when it is short, names no known codec, or announces more than 16 MiB. */
  lemma RefusedIff(bs: seq<byte>, number: nat -> nat)
    ensures BrowserParser(number)(bs) == None <==>
            |bs| < 18 || bs[0] > 4 || FromLe(bs[14..18]) > 16 * 1024 * 1024
  {
    if |bs| >= 18 {
      assert bs[..18][14..18] == bs[14..18] && bs[..18][0] == bs[0];
    }
  }

  /** A refused header ends the stream with an error, after the frames before it. */
  lemma {:induction false} RefusedHeaderThrows(fs: seq<Q2Frame>, bad: seq<byte>, more: seq<byte>, parse: HeaderParser)
    requires |bad| == VIDEO_HEADER_LEN && parse(bad) == None && forall f :: f in fs ==> Reads(parse, f)
    ensures ParseStream(StreamBytes(fs) + bad + more, parse) == Parsed(fs, true)
    decreases |fs|
  {
    if |fs| == 0 {
      assert StreamBytes(fs) + bad + more == bad + more;
      RefusedFirst(bad, more, parse);
    } else {
      assert StreamBytes(fs) == FrameBytes(fs[0]) + StreamBytes(fs[1..]);
      hide ParseStream, StreamBytes, FrameBytes, Reads;
      assert fs[0] in fs && forall f :: f in fs[1..] ==> f in fs;
      RefusedHeaderThrows(fs[1..], bad, more, parse);
      FourParts(FrameBytes(fs[0]), StreamBytes(fs[1..]), bad, more);
      ParseFrame(fs[0], StreamBytes(fs[1..]) + bad + more, parse);
      assert [fs[0]] + fs[1..] == fs;
    }
  }

  lemma RefusedFirst(bad: seq<byte>, more: seq<byte>, parse: HeaderParser)
    requires |bad| == VIDEO_HEADER_LEN && parse(bad) == None
    ensures ParseStream(bad + more, parse) == Parsed([], true)
  {
    assert (bad + more)[..VIDEO_HEADER_LEN] == bad;
  }

  lemma FourParts(a: seq<byte>, b: seq<byte>, c: seq<byte>, d: seq<byte>)
    ensures a + b + c + d == a + (b + c + d)
  {
  }

  /** What is read off a header: each field from its octets, and a keyframe only for frame type 1. */
  lemma ParsedFields(bs: seq<byte>)
    requires |bs| == VIDEO_HEADER_LEN && bs[0] <= 4
    ensures ParseHeader(bs).Some?
    ensures var h := ParseHeader(bs).value;
            && CodecTag(h.codec) == bs[0] && (h.keyframe <==> bs[1] == 1)
            && h.width == FromLe([bs[2], bs[3]]) && h.height == FromLe([bs[4], bs[5]])
            && h.timestampUs == FromLe(bs[6..14]) && h.dataLen == FromLe([bs[14], bs[15], bs[16], bs[17]])
  {
    assert bs[2..4] == [bs[2], bs[3]] && bs[4..6] == [bs[4], bs[5]];
    assert bs[14..18] == [bs[14], bs[15], bs[16], bs[17]];
  }
}
