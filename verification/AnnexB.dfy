/**
 Annex B elementary streams and their ISO BMFF form (ios/Termland/AnnexB.swift).

 A server packet separates NAL units with start codes; VideoToolbox wants the
 parameter sets apart and every other unit prefixed with its length.
 */
module AnnexB {
  import opened Prelude
  import opened Bytes

  type Unit = seq<byte>

  // ----- Splitting -----

  /** A start code 00 00 01 begins at `i`. */
  predicate CodeAt(b: seq<byte>, i: nat) {
    i + 2 < |b| && b[i] == 0 && b[i + 1] == 0 && b[i + 2] == 1
  }

  /** The position of the first start code, or the length if there is none. */
  function FirstCode(b: seq<byte>): (e: nat)
    ensures e == |b| || CodeAt(b, e)
    ensures forall j :: 0 <= j < e ==> !CodeAt(b, j)
  {
    if |b| < 3 then |b|
    else if CodeAt(b, 0) then 0
    else
      var e := FirstCode(b[1..]);
      assert forall j :: 1 <= j < |b| ==> (CodeAt(b, j) <==> CodeAt(b[1..], j - 1));
      1 + e
  }

  /** `b` without its trailing zeros. */
  function Trim(b: seq<byte>): seq<byte> {
    if |b| > 0 && b[|b| - 1] == 0 then Trim(b[..|b| - 1]) else b
  }

  /** The trimmed stretches between start codes, in text that follows a start code. */
  function Stretches(b: seq<byte>): seq<Unit>
    decreases |b|
  {
    var e := FirstCode(b);
    if e < |b| then [Trim(b[..e])] + Stretches(b[e + 3..])
    else if |b| > 0 then [Trim(b)]
    else []
  }

  function NonEmpty(units: seq<Unit>): seq<Unit> {
    if |units| == 0 then []
    else (if units[0] == [] then [] else [units[0]]) + NonEmpty(units[1..])
  }

  /** The NAL units of a stream. Bytes before the first start code belong to none. */
  function Units(b: seq<byte>): seq<Unit> {
    var e := FirstCode(b);
    if e < |b| then NonEmpty(Stretches(b[e + 3..])) else []
  }

  method Trimmed(bytes: seq<byte>, from: nat, to: nat) returns (unit: Unit)
    requires from <= to <= |bytes|
    ensures unit == Trim(bytes[from..to])
  {
    var end := to;
    while end > from && bytes[end - 1] == 0
      invariant from <= end <= to
      invariant Trim(bytes[from..end]) == Trim(bytes[from..to])
    {
      assert bytes[from..end][..end - from - 1] == bytes[from..end - 1];
      end := end - 1;
    }
    unit := bytes[from..end];
  }

  lemma {:induction false} NonEmptyAppend(a: seq<Unit>, b: seq<Unit>)
    ensures NonEmpty(a + b) == NonEmpty(a) + NonEmpty(b)
  {
    if |a| == 0 {
      assert a + b == b;
    } else {
      assert (a + b)[1..] == a[1..] + b;
      NonEmptyAppend(a[1..], b);
    }
  }

  /** The scan has reached `i`: `units` are cut, and the one that began at `start` is still open. */
  ghost predicate Scanned(bytes: seq<byte>, units: seq<Unit>, start: Option<nat>, i: nat) {
    var s := if start.Some? then start.value else 0;
    && s <= i <= |bytes| && FirstCode(bytes[s..]) >= i - s
    && if start.None? then units == []
       else FirstCode(bytes) < |bytes| && Stretches(bytes[FirstCode(bytes) + 3..]) == units + Stretches(bytes[s..])
  }

  lemma CodeInSuffix(bytes: seq<byte>, s: nat, i: nat)
    requires s <= i < |bytes|
    ensures CodeAt(bytes[s..], i - s) <==> CodeAt(bytes, i)
  {
  }

  lemma ScanOn(bytes: seq<byte>, units: seq<Unit>, start: Option<nat>, i: nat)
    requires Scanned(bytes, units, start, i) && i < |bytes| && !CodeAt(bytes, i)
    ensures Scanned(bytes, units, start, i + 1)
  {
    hide Stretches;
    var s := if start.Some? then start.value else 0;
    CodeInSuffix(bytes, s, i);
    assert FirstCode(bytes[s..]) != i - s;
  }

  lemma CutStretch(rest: seq<byte>, units: seq<Unit>)
    requires FirstCode(rest) < |rest|
    ensures units + Stretches(rest)
         == units + [Trim(rest[..FirstCode(rest)])] + Stretches(rest[FirstCode(rest) + 3..])
  {
  }

  lemma FirstUnitOpens(bytes: seq<byte>, i: nat)
    requires Scanned(bytes, [], None, i) && CodeAt(bytes, i)
    ensures Scanned(bytes, [], Some(i + 3), i + 3)
  {
    assert bytes[0..] == bytes;
    assert FirstCode(bytes) == i;
    assert [] + Stretches(bytes[i + 3..]) == Stretches(bytes[i + 3..]);
  }

  lemma NextUnitOpens(bytes: seq<byte>, units: seq<Unit>, s: nat, i: nat)
    requires Scanned(bytes, units, Some(s), i) && CodeAt(bytes, i)
    ensures Scanned(bytes, units + [Trim(bytes[s..i])], Some(i + 3), i + 3)
  {
    hide Stretches;
    CodeInSuffix(bytes, s, i);
    var rest := bytes[s..];
    assert FirstCode(rest) == i - s;
    CutStretch(rest, units);
    assert rest[..i - s] == bytes[s..i] && rest[i - s + 3..] == bytes[i + 3..];
  }

  lemma UnitOpens(bytes: seq<byte>, units: seq<Unit>, start: Option<nat>, i: nat)
    requires Scanned(bytes, units, start, i) && CodeAt(bytes, i)
    ensures start.None? ==> Scanned(bytes, units, Some(i + 3), i + 3)
    ensures start.Some? ==>
              start.value <= i && Scanned(bytes, units + [Trim(bytes[start.value..i])], Some(i + 3), i + 3)
  {
    if start.None? {
      FirstUnitOpens(bytes, i);
    } else {
      NextUnitOpens(bytes, units, start.value, i);
    }
  }

  /** At the end of the bytes the open unit, if any, is the last. */
  lemma ScanEnd(bytes: seq<byte>, units: seq<Unit>, start: Option<nat>, i: nat)
    requires Scanned(bytes, units, start, i) && i + 2 >= |bytes|
    ensures Units(bytes) == NonEmpty(
              if start.Some? && start.value < |bytes| then units + [Trim(bytes[start.value..])] else units)
  {
    var s := if start.Some? then start.value else 0;
    var rest := bytes[s..];
    assert FirstCode(rest) == |rest|;
    if start.None? {
      assert rest == bytes;
    } else if s < |bytes| {
      assert Stretches(rest) == [Trim(rest)];
    } else {
      assert Stretches(rest) == [] && units + [] == units;
    }
  }

  /** The scan over the bytes finds the units. */
  method Split(bytes: seq<byte>) returns (result: seq<Unit>)
    ensures result == Units(bytes)
  {
    hide Stretches, NonEmpty;
    var units: seq<Unit> := [];
    var start: Option<nat> := None;
    var i := 0;
    while i + 2 < |bytes|
      invariant Scanned(bytes, units, start, i)
    {
      if bytes[i] == 0 && bytes[i + 1] == 0 && bytes[i + 2] == 1 {
        UnitOpens(bytes, units, start, i);
        if start.Some? {
          var unit := Trimmed(bytes, start.value, i);
          units := units + [unit];
        }
        i := i + 3;
        start := Some(i);
      } else {
        ScanOn(bytes, units, start, i);
        i := i + 1;
      }
    }
    ScanEnd(bytes, units, start, i);
    if start.Some? && start.value < |bytes| {
      var unit := Trimmed(bytes, start.value, |bytes|);
      assert bytes[start.value..|bytes|] == bytes[start.value..];
      units := units + [unit];
    }
    result := DropEmpty(units);
  }

  method DropEmpty(units: seq<Unit>) returns (kept: seq<Unit>)
    ensures kept == NonEmpty(units)
  {
    kept := [];
    for i := 0 to |units|
      invariant kept == NonEmpty(units[..i])
    {
      assert units[..i + 1] == units[..i] + [units[i]];
      NonEmptyAppend(units[..i], [units[i]]);
      if units[i] != [] {
        kept := kept + [units[i]];
      }
    }
    assert units[..|units|] == units;
  }

  // ----- What units are -----

  /** What a NAL unit may be: not empty, not ending in a zero, free of start codes. */
  ghost predicate Legal(u: Unit) {
    && u != [] && u[|u| - 1] != 0
    && forall i :: 0 <= i < |u| ==> !CodeAt(u, i)
  }

  lemma {:induction false} TrimIsPrefix(b: seq<byte>)
    ensures Trim(b) <= b
    ensures Trim(b) != [] ==> Trim(b)[|Trim(b)| - 1] != 0
  {
    if |b| > 0 && b[|b| - 1] == 0 {
      TrimIsPrefix(b[..|b| - 1]);
    }
  }

  lemma {:induction false} StretchesLegal(b: seq<byte>, u: Unit)
    requires u in Stretches(b) && u != []
    ensures Legal(u)
    decreases |b|
  {
    var e := FirstCode(b);
    var head := if e < |b| then b[..e] else b;
    TrimIsPrefix(head);
    if u == Trim(head) {
      forall i | 0 <= i < |u| ensures !CodeAt(u, i) {
        assert CodeAt(u, i) ==> CodeAt(b, i);
      }
    } else {
      StretchesLegal(b[e + 3..], u);
    }
  }

  lemma {:induction false} NonEmptyMembers(units: seq<Unit>, u: Unit)
    requires u in NonEmpty(units)
    ensures u in units && u != []
  {
    if units[0] == [] || u != units[0] {
      NonEmptyMembers(units[1..], u);
    }
  }

  /** Whatever the bytes, no unit is empty, ends in a zero or contains a start code. */
  lemma UnitsAreLegal(b: seq<byte>)
    ensures forall u :: u in Units(b) ==> Legal(u)
  {
    forall u | u in Units(b) ensures Legal(u) {
      var after := b[FirstCode(b) + 3..];
      NonEmptyMembers(Stretches(after), u);
      StretchesLegal(after, u);
    }
  }

  function Zeros(n: nat): seq<byte> {
    seq(n, i => 0)
  }

  /**
   A stream of units: before each a start code preceded by `pads[k]` more zeros
   (0 and 1 are the 3- and 4-byte start codes), and `tail` zeros at the end.
   */
  function Serialize(units: seq<Unit>, pads: seq<nat>, tail: nat): seq<byte>
    requires |units| == |pads|
  {
    if |units| == 0 then Zeros(tail)
    else Zeros(pads[0] + 2) + [1] + units[0] + Serialize(units[1..], pads[1..], tail)
  }

  lemma {:induction false} TrimZeros(u: Unit, n: nat)
    requires u == [] || u[|u| - 1] != 0
    ensures Trim(u + Zeros(n)) == u
  {
    if n == 0 {
      assert u + Zeros(0) == u;
    } else {
      assert (u + Zeros(n))[..|u| + n - 1] == u + Zeros(n - 1);
      TrimZeros(u, n - 1);
    }
  }

  /** After a unit the next start code is where its padding ends. */
  lemma CodeAfterUnit(u: Unit, n: nat, rest: seq<byte>)
    requires Legal(u) || u == []
    ensures FirstCode(u + Zeros(n + 2) + [1] + rest) == |u| + n
  {
    var b := u + Zeros(n + 2) + [1] + rest;
    var at := |u| + n;
    assert CodeAt(b, at);
    var e := FirstCode(b);
    forall j | 0 <= j < at ensures !CodeAt(b, j) {
      if j + 2 < |u| {
        assert !CodeAt(u, j);
      } else if j < |u| {
        assert b[|u| - 1] != 0;
      } else {
        assert b[j + 2] == 0;
      }
    }
  }

  lemma NoCodeInTail(u: Unit, n: nat)
    requires Legal(u)
    ensures FirstCode(u + Zeros(n)) == |u| + n
  {
    var b := u + Zeros(n);
    forall j | 0 <= j < |b| ensures !CodeAt(b, j) {
      if j + 2 < |u| {
        assert !CodeAt(u, j);
      } else if j < |u| {
        assert b[|u| - 1] != 0;
      } else if j + 2 < |b| {
        assert b[j + 2] == 0;
      }
    }
  }

  lemma {:induction false} StretchesOfSerialized(u: Unit, units: seq<Unit>, pads: seq<nat>, tail: nat)
    requires |units| == |pads| && Legal(u) && forall v :: v in units ==> Legal(v)
    ensures Stretches(u + Serialize(units, pads, tail)) == [u] + units
    decreases |units|
  {
    hide Stretches;
    if |units| == 0 {
      LastStretch(u, tail);
    } else {
      var later := units[0] + Serialize(units[1..], pads[1..], tail);
      assert u + Serialize(units, pads, tail) == u + Zeros(pads[0] + 2) + [1] + later;
      StretchesOfSerialized(units[0], units[1..], pads[1..], tail);
      NextStretch(u, pads[0], later);
      assert [units[0]] + units[1..] == units;
    }
  }

  lemma LastStretch(u: Unit, tail: nat)
    requires Legal(u)
    ensures Stretches(u + Zeros(tail)) == [u]
  {
    NoCodeInTail(u, tail);
    TrimZeros(u, tail);
  }

  lemma NextStretch(u: Unit, pad: nat, later: seq<byte>)
    requires Legal(u)
    ensures Stretches(u + Zeros(pad + 2) + [1] + later) == [u] + Stretches(later)
  {
    var b := u + Zeros(pad + 2) + [1] + later;
    CodeAfterUnit(u, pad, later);
    assert b[..|u| + pad] == u + Zeros(pad);
    assert b[|u| + pad + 3..] == later;
    TrimZeros(u, pad);
  }

  lemma {:induction false} NonEmptyAll(units: seq<Unit>)
    requires forall u :: u in units ==> u != []
    ensures NonEmpty(units) == units
  {
    if |units| > 0 {
      assert forall u :: u in units[1..] ==> u in units;
      assert units[0] in units && [units[0]] + units[1..] == units;
      NonEmptyAll(units[1..]);
    }
  }

  lemma NoCodeInZeros(n: nat)
    ensures FirstCode(Zeros(n)) == n
  {
  }

  /** Splitting inverts serialisation, whatever the start codes and the padding. */
  lemma SplitSerialized(units: seq<Unit>, pads: seq<nat>, tail: nat)
    requires |units| == |pads| && forall u :: u in units ==> Legal(u)
    ensures Units(Serialize(units, pads, tail)) == units
  {
    hide Stretches;
    if |units| == 0 {
      NoCodeInZeros(tail);
    } else {
      var later := units[0] + Serialize(units[1..], pads[1..], tail);
      var b := Serialize(units, pads, tail);
      assert b == [] + Zeros(pads[0] + 2) + [1] + later;
      CodeAfterUnit([], pads[0], later);
      assert b[pads[0] + 3..] == later;
      StretchesOfSerialized(units[0], units[1..], pads[1..], tail);
      assert [units[0]] + units[1..] == units;
      NonEmptyAll(units);
    }
  }

  /** Any packet means the same as its canonical rewriting with 4-byte start codes. */
  lemma SplitIsCanonical(b: seq<byte>)
    ensures Units(Serialize(Units(b), seq(|Units(b)|, i => 1), 0)) == Units(b)
  {
    UnitsAreLegal(b);
    SplitSerialized(Units(b), seq(|Units(b)|, i => 1), 0);
  }

  // ----- Conversion -----

  datatype NALCodec = H264 | Hevc

  datatype Kind = Vps | Sps | Pps | Delimiter | Other

  /** nal_unit_type: the low 5 bits for H.264, bits 1 to 6 for HEVC. */
  function NalType(header: byte, codec: NALCodec): nat {
    if codec == H264 then header % 0x20 else (header / 2) % 0x40
  }

  function KindOf(unit: Unit, codec: NALCodec): Kind {
    if unit == [] then Other
    else
      var t := NalType(unit[0], codec);
      match codec
      case H264 => if t == 7 then Sps else if t == 8 then Pps else if t == 9 then Delimiter else Other
      case Hevc =>
        if t == 32 then Vps else if t == 33 then Sps else if t == 34 then Pps else if t == 35 then Delimiter else Other
  }

  /** The type of a coded slice, None for any other unit. */
  function SliceType(unit: Unit, codec: NALCodec): Option<nat> {
    if unit == [] then None
    else
      var t := NalType(unit[0], codec);
      match codec
      case H264 => if 1 <= t <= 5 then Some(t) else None
      case Hevc => if t <= 31 then Some(t) else None
  }

  /** BLA and CRA pictures: decoding may start here, and RASL pictures may come next. */
  predicate IsCleanRandomAccess(pictureType: Option<nat>, codec: NALCodec) {
    codec == Hevc && pictureType.Some? && (16 <= pictureType.value <= 18 || pictureType.value == 21)
  }

  datatype AccessUnit = AccessUnit(parameterSets: seq<Unit>, sampleData: seq<byte>, pictureType: Option<nat>)
  {
    /** A RASL picture: not decodable when decoding started at the picture it leads. */
    predicate IsSkippableLeadingPicture() {
      pictureType == Some(8) || pictureType == Some(9)
    }
  }

  predicate HasKind(sets: seq<Unit>, codec: NALCodec, kind: Kind) {
    exists u :: u in sets && KindOf(u, codec) == kind
  }

  /** Every parameter set a format description needs is there. */
  predicate IsComplete(sets: seq<Unit>, codec: NALCodec) {
    && HasKind(sets, codec, Sps) && HasKind(sets, codec, Pps)
    && (codec == Hevc ==> HasKind(sets, codec, Vps))
  }

  /** The units of one kind, in order. */
  function OfKind(units: seq<Unit>, codec: NALCodec, kind: Kind): seq<Unit> {
    if |units| == 0 then []
    else
      var last := units[|units| - 1];
      OfKind(units[..|units| - 1], codec, kind) + if KindOf(last, codec) == kind then [last] else []
  }

  /** Units as length-prefixed sample data. */
  function Prefixed(units: seq<Unit>): seq<byte> {
    if |units| == 0 then []
    else
      var last := units[|units| - 1];
      Prefixed(units[..|units| - 1]) + ToBe(|last|, 4) + last
  }

  /** The slice type that comes first, if the packet holds a picture. */
  function FirstSlice(units: seq<Unit>, codec: NALCodec): Option<nat> {
    if |units| == 0 then None
    else
      var before := FirstSlice(units[..|units| - 1], codec);
      if before.Some? then before else SliceType(units[|units| - 1], codec)
  }

  /** One packet reshaped; None when it holds no units. */
  function Reshaped(data: seq<byte>, codec: NALCodec): Option<AccessUnit> {
    var units := Units(data);
    if units == [] then None
    else
      var sps, pps := OfKind(units, codec, Sps), OfKind(units, codec, Pps);
      Some(AccessUnit(
             if codec == Hevc then OfKind(units, codec, Vps) + sps + pps else sps + pps,
             Prefixed(OfKind(units, codec, Other)),
             FirstSlice(units, codec)))
  }

  /** What the conversion loop has gathered. */
  datatype Parts = Parts(vps: seq<Unit>, sps: seq<Unit>, pps: seq<Unit>, sample: seq<byte>, slice: Option<nat>)

  function Add(p: Parts, unit: Unit, kind: Kind, slice: Option<nat>): Parts {
    var q := p.(slice := if p.slice.Some? then p.slice else slice);
    match kind
    case Vps => q.(vps := p.vps + [unit])
    case Sps => q.(sps := p.sps + [unit])
    case Pps => q.(pps := p.pps + [unit])
    case Delimiter => q
    case Other => q.(sample := p.sample + ToBe(|unit|, 4) + unit)
  }

  function Gather(units: seq<Unit>, codec: NALCodec): Parts {
    if |units| == 0 then Parts([], [], [], [], None)
    else
      var last := units[|units| - 1];
      Add(Gather(units[..|units| - 1], codec), last, KindOf(last, codec), SliceType(last, codec))
  }

  lemma {:induction false} GatherSets(units: seq<Unit>, codec: NALCodec)
    ensures Gather(units, codec).vps == OfKind(units, codec, Vps)
    ensures Gather(units, codec).sps == OfKind(units, codec, Sps)
    ensures Gather(units, codec).pps == OfKind(units, codec, Pps)
  {
    if |units| > 0 {
      GatherSets(units[..|units| - 1], codec);
    }
  }

  lemma {:induction false} GatherSample(units: seq<Unit>, codec: NALCodec)
    ensures Gather(units, codec).sample == Prefixed(OfKind(units, codec, Other))
    ensures Gather(units, codec).slice == FirstSlice(units, codec)
  {
    if |units| > 0 {
      var front, last := units[..|units| - 1], units[|units| - 1];
      GatherSample(front, codec);
      if KindOf(last, codec) == Other {
        PrefixedMore(OfKind(front, codec, Other), last);
      } else {
        assert OfKind(units, codec, Other) == OfKind(front, codec, Other);
      }
    }
  }

  /** A single pass sorts the units into classes. Swift traps on a unit whose length does not fit 32 bits. */
  method Convert(data: seq<byte>, codec: NALCodec) returns (r: Option<AccessUnit>)
    requires forall u :: u in Units(data) && KindOf(u, codec) == Other ==> |u| < 0x1_0000_0000
    ensures r == Reshaped(data, codec)
  {
    var units := Split(data);
    if units == [] {
      return None;
    }
    var vps, sps, pps: seq<Unit> := [], [], [];
    var sample: seq<byte> := [];
    var pictureType: Option<nat> := None;
    for i := 0 to |units|
      invariant Parts(vps, sps, pps, sample, pictureType) == Gather(units[..i], codec)
    {
      var unit := units[i];
      assert units[..i + 1][..i] == units[..i];
      if pictureType == None {
        pictureType := SliceType(unit, codec);
      }
      match KindOf(unit, codec) {
        case Vps => vps := vps + [unit];
        case Sps => sps := sps + [unit];
        case Pps => pps := pps + [unit];
        case Delimiter => continue;
        case Other =>
          sample := sample + ToBe(|unit|, 4);
          sample := sample + unit;
      }
    }
    assert units[..|units|] == units;
    GatherSets(units, codec);
    GatherSample(units, codec);
    r := Some(AccessUnit(if codec == Hevc then vps + sps + pps else sps + pps, sample, pictureType));
  }

  lemma PrefixedMore(units: seq<Unit>, u: Unit)
    ensures Prefixed(units + [u]) == Prefixed(units) + ToBe(|u|, 4) + u
  {
    assert (units + [u])[..|units|] == units;
  }

  /** Reading sample data back: a 4-byte big-endian length, that many bytes, and so on. */
  function ParsePrefixed(data: seq<byte>): Option<seq<Unit>>
    decreases |data|
  {
    if |data| == 0 then Some([])
    else if |data| < 4 then None
    else
      var n := FromBe(data[..4]);
      if |data| < 4 + n then None
      else
        match ParsePrefixed(data[4 + n..])
        case None => None
        case Some(later) => Some([data[4..4 + n]] + later)
  }

  lemma {:induction false} ParseAfterPrefix(units: seq<Unit>, later: seq<byte>, rest: seq<Unit>)
    requires forall u :: u in units ==> |u| < 0x1_0000_0000
    requires ParsePrefixed(later) == Some(rest)
    ensures ParsePrefixed(Prefixed(units) + later) == Some(units + rest)
  {
    if |units| == 0 {
      assert Prefixed(units) + later == later && units + rest == rest;
    } else {
      var front, u := units[..|units| - 1], units[|units| - 1];
      assert units == front + [u] && u in units;
      ParseOne(u, later, rest);
      ParseAfterPrefix(front, ToBe(|u|, 4) + u + later, [u] + rest);
      PrefixedMore(front, u);
      Regroup(Prefixed(front), ToBe(|u|, 4), u, later);
      assert units + rest == front + ([u] + rest);
    }
  }

  lemma Regroup(a: seq<byte>, b: seq<byte>, c: seq<byte>, d: seq<byte>)
    ensures (a + b + c) + d == a + (b + c + d)
  {
  }

  lemma ParseOne(u: Unit, later: seq<byte>, rest: seq<Unit>)
    requires |u| < 0x1_0000_0000 && ParsePrefixed(later) == Some(rest)
    ensures ParsePrefixed(ToBe(|u|, 4) + u + later) == Some([u] + rest)
  {
    Ranges();
    BeRoundTrip(|u|, 4);
    ParsePrefixStep(ToBe(|u|, 4), u, later, rest);
  }

  lemma ParsePrefixStep(prefix: seq<byte>, u: Unit, later: seq<byte>, rest: seq<Unit>)
    requires |prefix| == 4 && FromBe(prefix) == |u| && ParsePrefixed(later) == Some(rest)
    ensures ParsePrefixed(prefix + u + later) == Some([u] + rest)
  {
    var data := prefix + u + later;
    assert data[..4] == prefix && data[4..4 + |u|] == u && data[4 + |u|..] == later;
  }

  lemma {:induction false} CountInClass(units: seq<Unit>, codec: NALCodec, kind: Kind, u: Unit)
    ensures multiset(OfKind(units, codec, kind))[u]
         == if KindOf(u, codec) == kind then multiset(units)[u] else 0
  {
    if |units| > 0 {
      var front, last := units[..|units| - 1], units[|units| - 1];
      CountInClass(front, codec, kind, u);
      assert units == front + [last];
      CountOneMore(front, last, OfKind(front, codec, kind), u, KindOf(u, codec) == kind, KindOf(last, codec) == kind);
    }
  }

  lemma CountOneMore(front: seq<Unit>, last: Unit, kept: seq<Unit>, u: Unit, counts: bool, keeps: bool)
    requires multiset(kept)[u] == (if counts then multiset(front)[u] else 0) && (u == last ==> counts == keeps)
    ensures multiset(kept + if keeps then [last] else [])[u] == if counts then multiset(front + [last])[u] else 0
  {
    var here: seq<Unit> := if keeps then [last] else [];
    assert multiset(kept + here) == multiset(kept) + multiset(here);
    assert multiset(front + [last]) == multiset(front) + multiset([last]);
  }

  /** Every unit is in exactly one class, as often as it occurs. */
  lemma EachInOneClass(units: seq<Unit>, codec: NALCodec)
    ensures multiset(units)
         == multiset(OfKind(units, codec, Vps)) + multiset(OfKind(units, codec, Sps))
            + multiset(OfKind(units, codec, Pps)) + multiset(OfKind(units, codec, Delimiter))
            + multiset(OfKind(units, codec, Other))
  {
    hide OfKind, KindOf;
    var all := multiset(OfKind(units, codec, Vps)) + multiset(OfKind(units, codec, Sps))
               + multiset(OfKind(units, codec, Pps)) + multiset(OfKind(units, codec, Delimiter))
               + multiset(OfKind(units, codec, Other));
    forall u ensures all[u] == multiset(units)[u] {
      CountInClass(units, codec, Vps, u);
      CountInClass(units, codec, Sps, u);
      CountInClass(units, codec, Pps, u);
      CountInClass(units, codec, Delimiter, u);
      CountInClass(units, codec, Other, u);
    }
  }

  lemma {:induction false} NoVpsInH264(units: seq<Unit>)
    ensures OfKind(units, H264, Vps) == []
  {
    if |units| > 0 {
      NoVpsInH264(units[..|units| - 1]);
    }
  }

  lemma {:induction false} OfKindMembers(units: seq<Unit>, codec: NALCodec, kind: Kind)
    ensures forall u :: u in OfKind(units, codec, kind) <==> u in units && KindOf(u, codec) == kind
  {
    if |units| > 0 {
      OfKindMembers(units[..|units| - 1], codec, kind);
      assert units == units[..|units| - 1] + [units[|units| - 1]];
    }
  }

  /**
   Conversion loses and invents nothing: the sample data parses back to the
   remaining units in order, the parameter sets are the others, and only
   delimiters are dropped.
   */
  lemma ConversionKeepsUnits(data: seq<byte>, codec: NALCodec)
    requires Reshaped(data, codec).Some?
    requires forall u :: u in Units(data) && KindOf(u, codec) == Other ==> |u| < 0x1_0000_0000
    ensures var unit := Reshaped(data, codec).value;
            && ParsePrefixed(unit.sampleData) == Some(OfKind(Units(data), codec, Other))
            && multiset(unit.parameterSets) + multiset(OfKind(Units(data), codec, Other))
               + multiset(OfKind(Units(data), codec, Delimiter)) == multiset(Units(data))
  {
    hide Units, OfKind, KindOf, Prefixed;
    var units := Units(data);
    var others := OfKind(units, codec, Other);
    OfKindMembers(units, codec, Other);
    ParseAfterPrefix(others, [], []);
    assert Prefixed(others) + [] == Prefixed(others) && others + [] == others;
    EachInOneClass(units, codec);
    NoVpsInH264(units);
  }

  /** A packet's sample data is empty exactly when it holds parameter sets and delimiters alone. */
  lemma SampleEmptyIff(data: seq<byte>, codec: NALCodec)
    requires Reshaped(data, codec).Some?
    ensures Reshaped(data, codec).value.sampleData == [] <==>
            forall u :: u in Units(data) ==> KindOf(u, codec) != Other
  {
    var units := Units(data);
    var others := OfKind(units, codec, Other);
    OfKindMembers(units, codec, Other);
    if others != [] {
      assert others[0] in others;
      assert |Prefixed(others)| >= 4;
    }
  }

  /** No slice stands before the one whose type is taken. */
  lemma {:induction false} FirstSliceIsFirst(units: seq<Unit>, codec: NALCodec)
    ensures match FirstSlice(units, codec)
            case None => forall u :: u in units ==> SliceType(u, codec) == None
            case Some(t) =>
              exists i :: 0 <= i < |units| && SliceType(units[i], codec) == Some(t)
                          && forall j :: 0 <= j < i ==> SliceType(units[j], codec) == None
  {
    if |units| > 0 {
      hide SliceType;
      var front, last := units[..|units| - 1], units[|units| - 1];
      FirstSliceIsFirst(front, codec);
      if FirstSlice(front, codec).Some? {
        var i :| 0 <= i < |front| && SliceType(front[i], codec) == FirstSlice(front, codec)
                 && forall j :: 0 <= j < i ==> SliceType(front[j], codec) == None;
        assert units[i] == front[i] && FirstSlice(units, codec) == FirstSlice(front, codec);
        hide FirstSlice;
        assert forall j :: 0 <= j < i ==> units[j] == front[j];
      } else {
        forall j | 0 <= j < |front| ensures SliceType(units[j], codec) == None {
          assert front[j] in front;
        }
        assert SliceType(units[|front|], codec) == FirstSlice(units, codec);
      }
    }
  }

  // ----- The order of parameter sets -----

  /** `at` names, in packet order, the places of all units of one kind. */
  ghost predicate Places(at: seq<nat>, units: seq<Unit>, codec: NALCodec, kind: Kind) {
    && (forall k :: 0 <= k < |at| ==> at[k] < |units| && KindOf(units[at[k]], codec) == kind)
    && (forall k, l :: 0 <= k < l < |at| ==> at[k] < at[l])
    && (forall i :: 0 <= i < |units| && KindOf(units[i], codec) == kind ==> i in at)
  }

  /** The units found at these places. */
  function Pick(units: seq<Unit>, at: seq<nat>): (picked: seq<Unit>)
    requires forall k :: 0 <= k < |at| ==> at[k] < |units|
    ensures |picked| == |at| && forall k :: 0 <= k < |at| ==> picked[k] == units[at[k]]
  {
    seq(|at|, k requires 0 <= k < |at| => units[at[k]])
  }

  lemma {:induction false} OfKindPlaces(units: seq<Unit>, codec: NALCodec, kind: Kind) returns (at: seq<nat>)
    ensures Places(at, units, codec, kind) && OfKind(units, codec, kind) == Pick(units, at)
  {
    at := [];
    if |units| > 0 {
      hide KindOf, Places, Pick;
      var front := units[..|units| - 1];
      var before := OfKindPlaces(front, codec, kind);
      at := before + if KindOf(units[|front|], codec) == kind then [|front|] else [];
      PlacesMore(before, units, codec, kind);
    }
  }

  lemma PlacesMore(at: seq<nat>, units: seq<Unit>, codec: NALCodec, kind: Kind)
    requires |units| > 0 && Places(at, units[..|units| - 1], codec, kind)
    ensures var last, n := units[|units| - 1], |units| - 1;
            var more := at + if KindOf(last, codec) == kind then [n] else [];
            && Places(more, units, codec, kind)
            && Pick(units, more) == Pick(units[..n], at) + if KindOf(last, codec) == kind then [last] else []
  {
    hide KindOf;
    var n := |units| - 1;
    PickFront(units, at);
    if KindOf(units[n], codec) == kind {
      OnePlaceMore(at, units, codec, kind);
    } else {
      assert at + [] == at;
      forall i | 0 <= i < |units| && KindOf(units[i], codec) == kind
        ensures i in at
      {
        assert units[..n][i] == units[i];
      }
    }
  }

  lemma OnePlaceMore(at: seq<nat>, units: seq<Unit>, codec: NALCodec, kind: Kind)
    requires |units| > 0 && Places(at, units[..|units| - 1], codec, kind) && KindOf(units[|units| - 1], codec) == kind
    ensures Places(at + [|units| - 1], units, codec, kind)
  {
    hide KindOf;
    var n, front := |units| - 1, units[..|units| - 1];
    var more := at + [n];
    forall k | 0 <= k < |more|
      ensures more[k] < |units| && KindOf(units[more[k]], codec) == kind
    {
      assert k < |at| ==> more[k] == at[k] && front[at[k]] == units[at[k]];
    }
    forall i | 0 <= i < |units| && KindOf(units[i], codec) == kind
      ensures i in more
    {
      if i < n {
        assert front[i] == units[i] && i in at;
      } else {
        assert more[|at|] == i;
      }
    }
  }

  lemma PickFront(units: seq<Unit>, at: seq<nat>)
    requires |units| > 0 && forall k :: 0 <= k < |at| ==> at[k] < |units| - 1
    ensures Pick(units, at) == Pick(units[..|units| - 1], at)
    ensures Pick(units, at + [|units| - 1]) == Pick(units[..|units| - 1], at) + [units[|units| - 1]]
  {
  }

  /**
   The parameter sets of a packet: all its VPS, then all its SPS, then all its
   PPS, each in packet order.
   */
  lemma ParameterSetOrder(data: seq<byte>, codec: NALCodec) returns (vps: seq<nat>, sps: seq<nat>, pps: seq<nat>)
    requires Reshaped(data, codec).Some?
    ensures var units := Units(data);
            && Places(vps, units, codec, Vps) && Places(sps, units, codec, Sps) && Places(pps, units, codec, Pps)
            && Reshaped(data, codec).value.parameterSets == Pick(units, vps) + Pick(units, sps) + Pick(units, pps)
  {
    var units := Units(data);
    vps := OfKindPlaces(units, codec, Vps);
    sps := OfKindPlaces(units, codec, Sps);
    pps := OfKindPlaces(units, codec, Pps);
    if codec == H264 {
      NoVpsInH264(units);
    }
  }

  /** A picture that begins with this slice is skipped behind a CRA. */
  predicate Skippable(slice: Unit) {
    AccessUnit([], [], SliceType(slice, Hevc)).IsSkippableLeadingPicture()
  }

  /** A format description can be made exactly when no needed kind of parameter set is missing. */
  lemma CompleteIff(sets: seq<Unit>, codec: NALCodec)
    ensures IsComplete(sets, codec) <==>
            && OfKind(sets, codec, Sps) != [] && OfKind(sets, codec, Pps) != []
            && (codec == Hevc ==> OfKind(sets, codec, Vps) != [])
  {
    KindPresent(sets, codec, Sps);
    KindPresent(sets, codec, Pps);
    KindPresent(sets, codec, Vps);
  }

  lemma KindPresent(sets: seq<Unit>, codec: NALCodec, kind: Kind)
    ensures HasKind(sets, codec, kind) <==> OfKind(sets, codec, kind) != []
  {
    hide OfKind, KindOf;
    OfKindMembers(sets, codec, kind);
    var found := OfKind(sets, codec, kind);
    if found != [] {
      assert found[0] in found;
    }
  }

  /**
   First octets as encoders write them (table 7-1 of H.264 and of H.265): what is
   taken for a parameter set or a delimiter, which slices begin a picture, and
   which pictures decoding may start at or must skip.
   */
  lemma StandardHeaders(rest: seq<byte>)
    ensures KindOf([0x67] + rest, H264) == Sps && KindOf([0x68] + rest, H264) == Pps
    ensures KindOf([0x09] + rest, H264) == Delimiter && KindOf([0x06] + rest, H264) == Other
    ensures KindOf([0x40] + rest, Hevc) == Vps && KindOf([0x42] + rest, Hevc) == Sps
    ensures KindOf([0x44] + rest, Hevc) == Pps && KindOf([0x46] + rest, Hevc) == Delimiter
    ensures KindOf([0x4E] + rest, Hevc) == Other
    ensures SliceType([0x65] + rest, H264) == Some(5) && SliceType([0x41] + rest, H264) == Some(1)
    ensures SliceType([0x06] + rest, H264) == None && SliceType([0x4E] + rest, Hevc) == None
    ensures IsCleanRandomAccess(SliceType([0x2A] + rest, Hevc), Hevc)     // CRA
    ensures IsCleanRandomAccess(SliceType([0x20] + rest, Hevc), Hevc)     // BLA
    ensures !IsCleanRandomAccess(SliceType([0x26] + rest, Hevc), Hevc)    // IDR
    ensures !IsCleanRandomAccess(SliceType([0x02] + rest, Hevc), Hevc)    // trailing
    ensures Skippable([0x10] + rest) && Skippable([0x12] + rest)        // RASL
    ensures !Skippable([0x0C] + rest) && !Skippable([0x0E] + rest)      // RADL
    ensures !Skippable([0x2A] + rest) && !Skippable([0x02] + rest)      // CRA, trailing
  {
  }
}
