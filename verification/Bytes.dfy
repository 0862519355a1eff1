/** Fixed-width integers as octets, in both byte orders. */
module Bytes {
  import opened Prelude

  /** 256 to the power `width`. */
  function Range(width: nat): nat
    ensures Range(width) > 0
  {
    if width == 0 then 1 else 256 * Range(width - 1)
  }

  /** `v` modulo 256^width, least significant octet first. */
  function ToLe(v: nat, width: nat): (bs: seq<byte>)
    ensures |bs| == width
  {
    if width == 0 then [] else [v % 256] + ToLe(v / 256, width - 1)
  }

  function FromLe(bs: seq<byte>): nat {
    if |bs| == 0 then 0 else bs[0] + 256 * FromLe(bs[1..])
  }

  function ToBe(v: nat, width: nat): (bs: seq<byte>)
    ensures |bs| == width
  {
    if width == 0 then [] else ToBe(v / 256, width - 1) + [v % 256]
  }

  function FromBe(bs: seq<byte>): nat {
    if |bs| == 0 then 0 else 256 * FromBe(bs[..|bs| - 1]) + bs[|bs| - 1]
  }

  lemma {:induction false} LeRoundTrip(v: nat, width: nat)
    requires v < Range(width)
    ensures FromLe(ToLe(v, width)) == v
  {
    if width > 0 {
      LeRoundTrip(v / 256, width - 1);
      assert ToLe(v, width)[1..] == ToLe(v / 256, width - 1);
    }
  }

  lemma {:induction false} BeRoundTrip(v: nat, width: nat)
    requires v < Range(width)
    ensures FromBe(ToBe(v, width)) == v
  {
    if width > 0 {
      BeRoundTrip(v / 256, width - 1);
      assert ToBe(v, width)[..width - 1] == ToBe(v / 256, width - 1);
    }
  }

  lemma Ranges()
    ensures Range(2) == 0x1_0000 && Range(4) == 0x1_0000_0000 && Range(8) == 0x1_0000_0000_0000_0000
  {
    assert Range(4) == 256 * (256 * Range(2));
    assert Range(8) == 256 * (256 * (256 * (256 * Range(4))));
  }
}
