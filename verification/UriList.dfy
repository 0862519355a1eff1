/**
 File paths as a `text/uri-list`
 (crates/termland-protocol/src/clipboard_files.rs): percent coding of a path's
 UTF-8 octets, and the list of `file://` lines built and read around it.

 Turning octets back into a string belongs to Rust's standard library and is a
 parameter, of which only this is asked: well-formed UTF-8 comes out as what it
 spells (`Faithful`).
 */
module UriList {
  import opened Prelude

  // ----- UTF-8 -----

  function Tail(bits: nat): (b: byte)
    ensures 0x80 <= b < 0xC0
  {
    0x80 + bits % 0x40
  }

  /** RFC 3629, section 3. */
  function Utf8Char(c: char): (bs: seq<byte>)
    ensures 1 <= |bs| <= 4
  {
    var cp := c as nat;
    if cp < 0x80 then [cp]
    else if cp < 0x800 then [0xC0 + cp / 0x40, Tail(cp)]
    else if cp < 0x1_0000 then [0xE0 + cp / 0x1000, Tail(cp / 0x40), Tail(cp)]
    else [0xF0 + cp / 0x4_0000, Tail(cp / 0x1000), Tail(cp / 0x40), Tail(cp)]
  }

  function Utf8(s: string): seq<byte> {
    if s == "" then [] else Utf8Char(s[0]) + Utf8(s[1..])
  }

  /** How many octets a character takes, told by the first. */
  function Width(first: byte): nat {
    if first < 0x80 then 1 else if first < 0xE0 then 2 else if first < 0xF0 then 3 else 4
  }

  /** The code point spelled by the first `width` octets. */
  function CodePoint(bs: seq<byte>, width: nat): int
    requires 1 <= width <= 4 && width <= |bs|
  {
    match width
    case 1 => bs[0]
    case 2 => (bs[0] as int - 0xC0) * 0x40 + Low(bs[1])
    case 3 => (bs[0] as int - 0xE0) * 0x1000 + Low(bs[1]) * 0x40 + Low(bs[2])
    case _ => (bs[0] as int - 0xF0) * 0x4_0000 + Low(bs[1]) * 0x1000 + Low(bs[2]) * 0x40 + Low(bs[3])
  }

  function Low(b: byte): int {
    b as int - 0x80
  }

  predicate IsScalar(cp: int) {
    0 <= cp < 0xD800 || 0xE000 <= cp < 0x11_0000
  }

  /** The string these octets spell, if they are well-formed: shortest forms of scalar values only. */
  function FromUtf8(bs: seq<byte>): Option<string> {
    if |bs| == 0 then Some("")
    else
      var width := Width(bs[0]);
      if width > |bs| || !IsScalar(CodePoint(bs, width)) then None
      else
        var c := CodePoint(bs, width) as char;
        if Utf8Char(c) != bs[..width] then None
        else
          var rest := FromUtf8(bs[width..]);
          if rest.Some? then Some([c] + rest.value) else None
  }

  lemma Base64Digits(cp: nat)
    ensures cp == cp / 0x40 * 0x40 + cp % 0x40
    ensures cp / 0x40 == cp / 0x1000 * 0x40 + cp / 0x40 % 0x40
    ensures cp / 0x1000 == cp / 0x4_0000 * 0x40 + cp / 0x1000 % 0x40
  {
  }

  lemma CodePointOf(c: char)
    ensures Width(Utf8Char(c)[0]) == |Utf8Char(c)|
    ensures CodePoint(Utf8Char(c), |Utf8Char(c)|) == c as int
  {
    var cp := c as nat;
    Base64Digits(cp);
    if cp < 0x80 {
    } else if cp < 0x800 {
      assert CodePoint(Utf8Char(c), 2) == cp / 0x40 * 0x40 + cp % 0x40;
    } else if cp < 0x1_0000 {
      assert CodePoint(Utf8Char(c), 3) == cp / 0x1000 * 0x1000 + cp / 0x40 % 0x40 * 0x40 + cp % 0x40;
    } else {
      assert CodePoint(Utf8Char(c), 4) ==
             cp / 0x4_0000 * 0x4_0000 + cp / 0x1000 % 0x40 * 0x1000 + cp / 0x40 % 0x40 * 0x40 + cp % 0x40;
    }
  }

  lemma {:induction false} Utf8RoundTrip(s: string)
    ensures FromUtf8(Utf8(s)) == Some(s)
  {
    if s != "" {
      var bs, first := Utf8(s), Utf8Char(s[0]);
      var width := |first|;
      Utf8RoundTrip(s[1..]);
      CodePointOf(s[0]);
      assert bs[..width] == first && bs[width..] == Utf8(s[1..]) && bs[0] == first[0];
      SameCodePoint(bs, first, width);
      assert [s[0]] + s[1..] == s;
    }
  }

  lemma SameCodePoint(bs: seq<byte>, first: seq<byte>, width: nat)
    requires 1 <= width <= 4 && width == |first| <= |bs| && bs[..width] == first
    ensures CodePoint(bs, width) == CodePoint(first, width)
  {
    assert forall k :: 0 <= k < width ==> bs[k] == bs[..width][k];
  }

  lemma {:induction false} Utf8Append(a: string, b: string)
    ensures Utf8(a + b) == Utf8(a) + Utf8(b)
  {
    if a == "" {
      assert a + b == b;
    } else {
      assert (a + b)[1..] == a[1..] + b;
      Utf8Append(a[1..], b);
    }
  }

  /** `String::from_utf8_lossy`: nothing is lost on well-formed input. */
  ghost predicate Faithful(lossy: seq<byte> -> string) {
    forall bs :: FromUtf8(bs).Some? ==> lossy(bs) == FromUtf8(bs).value
  }

  // ----- Percent coding -----

  function HexVal(b: byte): Option<nat> {
    if '0' as nat <= b <= '9' as nat then Some(b - '0' as nat)
    else if 'a' as nat <= b <= 'f' as nat then Some(b - 'a' as nat + 10)
    else if 'A' as nat <= b <= 'F' as nat then Some(b - 'A' as nat + 10)
    else None
  }

  function HexDigit(v: nat): char
    requires v < 16
  {
    if v < 10 then ('0' as nat + v) as char else ('A' as nat + v - 10) as char
  }

  /** Unreserved in RFC 3986, section 2.3, and the path separator. */
  predicate Literal(b: byte) {
    || 'A' as nat <= b <= 'Z' as nat || 'a' as nat <= b <= 'z' as nat || '0' as nat <= b <= '9' as nat
    || b == '-' as nat || b == '_' as nat || b == '.' as nat || b == '~' as nat || b == '/' as nat
  }

  function EncodedByte(b: byte): string {
    if Literal(b) then [b as char] else ['%', HexDigit(b / 16), HexDigit(b % 16)]
  }

  function Encoded(bs: seq<byte>): string {
    if |bs| == 0 then "" else EncodedByte(bs[0]) + Encoded(bs[1..])
  }

  predicate Escape(bs: seq<byte>) {
    |bs| > 2 && bs[0] == '%' as nat && HexVal(bs[1]).Some? && HexVal(bs[2]).Some?
  }

  /** Escapes replaced from the left; whatever is not one stands for itself. */
  function Decoded(bs: seq<byte>): seq<byte> {
    if |bs| == 0 then []
    else if Escape(bs) then [16 * HexVal(bs[1]).value + HexVal(bs[2]).value] + Decoded(bs[3..])
    else [bs[0]] + Decoded(bs[1..])
  }

  /** Text a URI may hold as it stands: unreserved characters, `/`, and escapes with upper-case digits. */
  predicate IsEncoded(text: string) {
    if text == "" then true
    else if text[0] == '%' then
      |text| > 2 && UpperHex(text[1]) && UpperHex(text[2]) && IsEncoded(text[3..])
    else text[0] as nat < 256 && Literal(text[0] as nat) && IsEncoded(text[1..])
  }

  predicate UpperHex(c: char) {
    '0' <= c <= '9' || 'A' <= c <= 'F'
  }

  lemma {:induction false} EncodedIsEncoded(bs: seq<byte>)
    ensures IsEncoded(Encoded(bs))
  {
    if |bs| > 0 {
      EncodedIsEncoded(bs[1..]);
      var text := Encoded(bs);
      assert text[|EncodedByte(bs[0])|..] == Encoded(bs[1..]);
    }
  }

  lemma HexBack(b: byte)
    ensures HexVal(HexDigit(b / 16) as nat) == Some(b / 16)
    ensures HexVal(HexDigit(b % 16) as nat) == Some(b % 16)
  {
  }

  lemma Utf8Three(a: char, b: char, c: char)
    requires a as nat < 0x80 && b as nat < 0x80 && c as nat < 0x80
    ensures Utf8([a, b, c]) == [a as nat, b as nat, c as nat]
  {
    assert [a, b, c][1..] == [b, c] && [b, c][1..] == [c] && [c][1..] == "";
    assert Utf8([c]) == [c as nat] + Utf8("");
    assert Utf8([b, c]) == [b as nat] + Utf8([c]);
  }

  lemma DecodeOne(b: byte, rest: seq<byte>)
    ensures Decoded(Utf8(EncodedByte(b)) + rest) == [b] + Decoded(rest)
  {
    var text := EncodedByte(b);
    if Literal(b) {
      assert Utf8(text) == [b] by {
        assert text[1..] == "";
      }
      assert ([b] + rest)[1..] == rest;
    } else {
      HexBack(b);
      var hi, lo := HexDigit(b / 16) as nat, HexDigit(b % 16) as nat;
      Utf8Three('%', HexDigit(b / 16), HexDigit(b % 16));
      var bs := ['%' as nat, hi, lo] + rest;
      assert bs[1] == hi && bs[2] == lo && bs[3..] == rest;
    }
  }

  /** Decoding undoes encoding, whatever the octets are. */
  lemma {:induction false} DecodeEncoded(bs: seq<byte>)
    ensures Decoded(Utf8(Encoded(bs))) == bs
  {
    if |bs| > 0 {
      DecodeEncoded(bs[1..]);
      Utf8Append(EncodedByte(bs[0]), Encoded(bs[1..]));
      DecodeOne(bs[0], Utf8(Encoded(bs[1..])));
    }
  }

  lemma EncodedStep(bs: seq<byte>)
    ensures Encoded(bs) == if |bs| == 0 then "" else EncodedByte(bs[0]) + Encoded(bs[1..])
  {
  }

  method PercentEncodePath(path: string) returns (out: string)
    ensures out == Encoded(Utf8(path))
  {
    hide Utf8, Encoded;
    out := "";
    var bytes := Utf8(path);
    assert bytes[0..] == bytes;
    for i := 0 to |bytes|
      invariant Encoded(bytes) == out + Encoded(bytes[i..])
    {
      EncodedStep(bytes[i..]);
      assert bytes[i..][1..] == bytes[i + 1..];
      var b := bytes[i];
      assert out + (EncodedByte(b) + Encoded(bytes[i + 1..])) == (out + EncodedByte(b)) + Encoded(bytes[i + 1..]);
      if Literal(b) {
        out := out + [b as char];
      } else {
        out := out + ['%', HexDigit(b / 16), HexDigit(b % 16)];
      }
    }
    EncodedStep(bytes[|bytes|..]);
  }

  /** How many octets the next decoded one takes. */
  function Taken(bs: seq<byte>): nat
    requires |bs| > 0
    ensures 1 <= Taken(bs) <= |bs|
  {
    if Escape(bs) then 3 else 1
  }

  function FirstDecoded(bs: seq<byte>): byte
    requires |bs| > 0
  {
    if Escape(bs) then 16 * HexVal(bs[1]).value + HexVal(bs[2]).value else bs[0]
  }

  lemma DecodedStep(bs: seq<byte>)
    ensures Decoded(bs) == if |bs| == 0 then [] else [FirstDecoded(bs)] + Decoded(bs[Taken(bs)..])
  {
  }

  method PercentDecode(text: string, lossy: seq<byte> -> string) returns (path: string)
    ensures path == lossy(Decoded(Utf8(text)))
  {
    hide Utf8, Decoded;
    var bytes := Utf8(text);
    var out: seq<byte> := [];
    var i := 0;
    assert bytes[0..] == bytes;
    while i < |bytes|
      invariant i <= |bytes|
      invariant Decoded(bytes) == out + Decoded(bytes[i..])
    {
      ghost var rest := bytes[i..];
      DecodedStep(rest);
      assert rest[Taken(rest)..] == bytes[i + Taken(rest)..];
      ghost var after := Decoded(bytes[i + Taken(rest)..]);
      assert out + ([FirstDecoded(rest)] + after) == (out + [FirstDecoded(rest)]) + after;
      if bytes[i] == '%' as nat && i + 2 < |bytes| {
        var hi, lo := HexVal(bytes[i + 1]), HexVal(bytes[i + 2]);
        if hi.Some? && lo.Some? {
          out := out + [16 * hi.value + lo.value];
          i := i + 3;
          continue;
        }
      }
      out := out + [bytes[i]];
      i := i + 1;
    }
    DecodedStep(bytes[i..]);
    assert out + [] == out;
    path := lossy(out);
  }

  // ----- The list -----

  const SCHEME: string := "file://"

  /** Where the first line of a text ends. */
  function LineEnd(text: string): (n: nat)
    ensures n <= |text|
    ensures n < |text| ==> text[n] == '\n'
    ensures forall k :: 0 <= k < n ==> text[k] != '\n'
  {
    if text == "" || text[0] == '\n' then 0 else 1 + LineEnd(text[1..])
  }

  function StripCr(line: string): string {
    if |line| > 0 && line[|line| - 1] == '\r' then line[..|line| - 1] else line
  }

  /** `str::lines`. */
  function Lines(text: string): seq<string>
    decreases |text|
  {
    if text == "" then []
    else
      var n := LineEnd(text);
      if n == |text| then [text] else [StripCr(text[..n])] + Lines(text[n + 1..])
  }

  /** Characters with Unicode's White_Space property. */
  predicate White(c: char) {
    var cp := c as nat;
    || 0x9 <= cp <= 0xD || cp == 0x20 || cp == 0x85 || cp == 0xA0 || cp == 0x1680 || 0x2000 <= cp <= 0x200A
    || cp == 0x2028 || cp == 0x2029 || cp == 0x202F || cp == 0x205F || cp == 0x3000
  }

  function TrimStart(s: string): string {
    if |s| > 0 && White(s[0]) then TrimStart(s[1..]) else s
  }

  function TrimEnd(s: string): string {
    if |s| > 0 && White(s[|s| - 1]) then TrimEnd(s[..|s| - 1]) else s
  }

  function Trim(s: string): string {
    TrimEnd(TrimStart(s))
  }

  /** The path a line names, if it names a local one. */
  function LinePath(line: string, lossy: seq<byte> -> string): seq<string> {
    var l := Trim(line);
    if l == "" || l[0] == '#' then []
    else if |SCHEME| <= |l| && l[..|SCHEME|] == SCHEME then [lossy(Decoded(Utf8(l[|SCHEME|..])))]
    else []
  }

  function LinesPaths(lines: seq<string>, lossy: seq<byte> -> string): seq<string> {
    if |lines| == 0 then [] else LinePath(lines[0], lossy) + LinesPaths(lines[1..], lossy)
  }

  function ParseUriList(text: string, lossy: seq<byte> -> string): seq<string> {
    LinesPaths(Lines(text), lossy)
  }

  function UriLine(path: string): string {
    SCHEME + Encoded(Utf8(path))
  }

  function UriText(paths: seq<string>): string {
    if |paths| == 0 then "" else UriText(paths[..|paths| - 1]) + UriLine(paths[|paths| - 1]) + "\r\n"
  }

  method BuildUriList(paths: seq<string>) returns (out: string)
    ensures out == UriText(paths)
    ensures forall lossy :: Faithful(lossy) ==> ParseUriList(out, lossy) == paths
  {
    out := "";
    for i := 0 to |paths|
      invariant out == UriText(paths[..i])
    {
      assert paths[..i + 1][..i] == paths[..i];
      var encoded := PercentEncodePath(paths[i]);
      out := out + SCHEME + encoded + "\r\n";
      assert UriText(paths[..i]) + (SCHEME + encoded) == UriText(paths[..i]) + SCHEME + encoded;
    }
    assert paths[..|paths|] == paths;
    forall lossy | Faithful(lossy)
      ensures ParseUriList(out, lossy) == paths
    {
      ListRoundTrip(paths, lossy);
    }
  }

  /** Cutting into lines respects a line break. */
  lemma {:induction false} LinesAppend(text: string, more: string)
    requires text == "" || text[|text| - 1] == '\n'
    ensures Lines(text + more) == Lines(text) + Lines(more)
    decreases |text|
  {
    if text == "" {
      assert text + more == more;
    } else {
      var n := LineEnd(text);
      LinesAppend(text[n + 1..], more);
      OneLineMore(text, n, more);
    }
  }

  lemma OneLineMore(text: string, n: nat, more: string)
    requires n < |text| && LineEnd(text) == n
    requires Lines(text[n + 1..] + more) == Lines(text[n + 1..]) + Lines(more)
    ensures Lines(text + more) == Lines(text) + Lines(more)
  {
    LinesCut(text, n);
    LinesCutAppended(text, n, more);
    Regroup(StripCr(text[..n]), Lines(text[n + 1..]), Lines(more));
  }

  lemma Regroup(head: string, tail: seq<string>, after: seq<string>)
    ensures [head] + (tail + after) == ([head] + tail) + after
  {
  }

  lemma LinesCutAppended(text: string, n: nat, more: string)
    requires n < |text| && LineEnd(text) == n
    ensures Lines(text + more) == [StripCr(text[..n])] + Lines(text[n + 1..] + more)
  {
    LineEndStays(text, more, n);
    assert (text + more)[..n] == text[..n] && (text + more)[n + 1..] == text[n + 1..] + more;
    LinesCut(text + more, n);
  }

  lemma LinesCut(text: string, n: nat)
    requires n < |text| && LineEnd(text) == n
    ensures Lines(text) == [StripCr(text[..n])] + Lines(text[n + 1..])
  {
  }

  lemma LineEndIs(text: string, n: nat)
    requires n < |text| && text[n] == '\n' && forall k :: 0 <= k < n ==> text[k] != '\n'
    ensures LineEnd(text) == n
  {
    assert LineEnd(text) < |text| ==> text[LineEnd(text)] == '\n';
  }

  lemma LineEndStays(text: string, more: string, n: nat)
    requires n < |text| && LineEnd(text) == n
    ensures LineEnd(text + more) == n
  {
    LineEndIs(text + more, n);
  }

  lemma {:induction false} LinesPathsAppend(a: seq<string>, b: seq<string>, lossy: seq<byte> -> string)
    ensures LinesPaths(a + b, lossy) == LinesPaths(a, lossy) + LinesPaths(b, lossy)
  {
    if |a| == 0 {
      assert a + b == b;
    } else {
      assert (a + b)[1..] == a[1..] + b;
      LinesPathsAppend(a[1..], b, lossy);
    }
  }

  /** Characters that can stand in a URI line. */
  predicate Visible(line: string) {
    forall k :: 0 <= k < |line| ==> !White(line[k])
  }

  lemma {:induction false} EncodedIsVisible(bs: seq<byte>)
    ensures Visible(Encoded(bs))
  {
    if |bs| > 0 {
      EncodedIsVisible(bs[1..]);
    }
  }

  lemma SchemeIsVisible()
    ensures Visible(SCHEME)
  {
  }

  /** One visible line, ended by CR LF. */
  lemma OneLine(line: string)
    requires Visible(line)
    ensures Lines(line + "\r\n") == [line]
  {
    var text := line + "\r\n";
    assert text[..|line| + 1] == line + "\r";
    LineEndIs(text, |line| + 1);
    assert StripCr(line + "\r") == line;
    assert text[|line| + 2..] == "";
  }

  lemma LineRoundTrip(path: string, lossy: seq<byte> -> string)
    requires Faithful(lossy)
    ensures Visible(UriLine(path)) && LinePath(UriLine(path), lossy) == [path]
  {
    var encoded := Encoded(Utf8(path));
    var line := SCHEME + encoded;
    SchemeIsVisible();
    EncodedIsVisible(Utf8(path));
    assert Visible(line);
    assert Trim(line) == line && line[0] == 'f';
    assert line[..|SCHEME|] == SCHEME && line[|SCHEME|..] == encoded;
    DecodeEncoded(Utf8(path));
    Utf8RoundTrip(path);
  }

  /** What is read after a line break does not depend on what came before it. */
  lemma ParseAppend(text: string, more: string, lossy: seq<byte> -> string)
    requires text == "" || text[|text| - 1] == '\n'
    ensures ParseUriList(text + more, lossy) == ParseUriList(text, lossy) + ParseUriList(more, lossy)
  {
    LinesAppend(text, more);
    LinesPathsAppend(Lines(text), Lines(more), lossy);
  }

  lemma OnePath(line: string, lossy: seq<byte> -> string)
    ensures LinesPaths([line], lossy) == LinePath(line, lossy)
  {
    assert [line][1..] == [];
    assert LinesPaths([line], lossy) == LinePath(line, lossy) + LinesPaths([line][1..], lossy);
  }

  /** Building and reading a list gives the paths back, whatever characters they hold. */
  lemma {:induction false} ListRoundTrip(paths: seq<string>, lossy: seq<byte> -> string)
    requires Faithful(lossy)
    ensures UriText(paths) == "" || UriText(paths)[|UriText(paths)| - 1] == '\n'
    ensures ParseUriList(UriText(paths), lossy) == paths
  {
    if |paths| > 0 {
      var before, last := paths[..|paths| - 1], paths[|paths| - 1];
      ListRoundTrip(before, lossy);
      LineRoundTrip(last, lossy);
      OneLine(UriLine(last));
      OnePath(UriLine(last), lossy);
      assert UriText(paths) == UriText(before) + (UriLine(last) + "\r\n");
      ParseAppend(UriText(before), UriLine(last) + "\r\n", lossy);
      assert before + [last] == paths;
    }
  }

  /** A line that is blank, a comment or not a local file changes nothing, wherever it stands. */
  lemma OtherLinesAreSkipped(text: string, line: string, more: string, lossy: seq<byte> -> string)
    requires text == "" || text[|text| - 1] == '\n'
    requires '\n' !in line && LinePath(StripCr(line), lossy) == []
    ensures ParseUriList(text + (line + "\n") + more, lossy) == ParseUriList(text + more, lossy)
  {
    var ended := line + "\n";
    LineEndIs(ended, |line|);
    LinesCut(ended, |line|);
    assert ended[..|line|] == line && ended[|line| + 1..] == "";
    assert [StripCr(line)] + [] == [StripCr(line)];
    OnePath(StripCr(line), lossy);
    ParseAppend(text, ended, lossy);
    ParseAppend(text + ended, more, lossy);
    ParseAppend(text, more, lossy);
  }

  // ----- The text itself -----

  /** ASCII letters, digits, `-`, `_`, `.`, `~` and `/`. */
  predicate Unreserved(c: char) {
    'A' <= c <= 'Z' || 'a' <= c <= 'z' || '0' <= c <= '9' || c in {'-', '_', '.', '~', '/'}
  }

  /** Unreserved characters and slashes stand for themselves; any other octet is an escape with two upper-case digits. */
  lemma {:induction false} UnreservedStay(path: string)
    requires forall c :: c in path ==> Unreserved(c)
    ensures Encoded(Utf8(path)) == path
  {
    if path != "" {
      assert path[0] in path && forall c :: c in path[1..] ==> c in path;
      UnreservedStay(path[1..]);
      assert Utf8(path) == [path[0] as nat] + Utf8(path[1..]);
      assert Utf8(path)[1..] == Utf8(path[1..]);
      assert [path[0]] + path[1..] == path;
    }
  }

  lemma OthersEscaped(b: byte)
    requires !(b < 0x80 && Unreserved(b as char))
    ensures |Encoded([b])| == 3 && Encoded([b])[0] == '%' && UpperHex(Encoded([b])[1]) && UpperHex(Encoded([b])[2])
    ensures HexVal(Encoded([b])[1] as nat) == Some(b / 16) && HexVal(Encoded([b])[2] as nat) == Some(b % 16)
  {
    HexBack(b);
    assert [b][1..] == [];
  }

  /** One line for every path, in order, with the scheme before it and CR LF behind it. */
  lemma UriTextLines(paths: seq<string>, last: string)
    ensures UriText([]) == ""
    ensures UriText(paths + [last]) == UriText(paths) + ("file://" + Encoded(Utf8(last)) + "\r\n")
  {
    assert (paths + [last])[..|paths|] == paths;
    assert UriText(paths) + UriLine(last) + "\r\n" == UriText(paths) + (UriLine(last) + "\r\n");
  }

  /** Escapes may use digits of either case; a percent sign that begins none is kept. */
  lemma EscapesRead(hi: byte, lo: byte, rest: seq<byte>)
    ensures var escape := ['%' as nat, hi, lo] + rest;
            Decoded(escape) ==
            if HexVal(hi).Some? && HexVal(lo).Some? then [16 * HexVal(hi).value + HexVal(lo).value] + Decoded(rest)
            else ['%' as nat] + Decoded([hi, lo] + rest)
    ensures HexVal(hi).Some? <==> '0' as nat <= hi <= '9' as nat || 'a' as nat <= hi <= 'f' as nat || 'A' as nat <= hi <= 'F' as nat
    ensures '0' as nat <= hi <= '9' as nat ==> HexVal(hi) == Some(hi - '0' as nat)
    ensures 'a' as nat <= hi <= 'f' as nat ==> HexVal(hi) == Some(hi - 'a' as nat + 10) == HexVal(hi - 32)
  {
    var escape := ['%' as nat, hi, lo] + rest;
    assert escape[3..] == rest && escape[1..] == [hi, lo] + rest;
  }

  /** Too near the end to be an escape, a percent sign is kept as well. */
  lemma ShortEscapesStay(bs: seq<byte>)
    requires |bs| < 3
    ensures Decoded(bs) == bs
  {
    if |bs| > 0 {
      ShortEscapesStay(bs[1..]);
      assert [bs[0]] + bs[1..] == bs;
    }
  }

  /** A line names a path exactly when it begins, white space apart, with the scheme; that is the rest, decoded. */
  lemma LineNames(before: string, line: string, after: string, lossy: seq<byte> -> string)
    requires (forall c :: c in before + after ==> White(c)) && Visible(line)
    ensures LinePath(before + line + after, lossy) ==
            if |line| >= 7 && line[..7] == "file://" then [lossy(Decoded(Utf8(line[7..])))] else []
  {
    TrimsOff(before, line, after);
    if |line| >= 7 && line[..7] == "file://" {
      assert line[0] == line[..7][0];
    }
  }

  lemma {:induction false} TrimsOff(before: string, line: string, after: string)
    requires (forall c :: c in before + after ==> White(c)) && Visible(line)
    ensures Trim(before + line + after) == line
  {
    assert forall c :: (c in before || c in after) ==> c in before + after;
    StartsOff(before, line + after);
    assert before + line + after == before + (line + after);
    if line == "" {
      StartsOff(after, "");
      assert line + after == after + "" && TrimStart("") == "";
    } else {
      assert TrimStart(line + after) == line + after;
      EndsOff(line, after);
    }
  }

  lemma {:induction false} StartsOff(before: string, rest: string)
    requires forall c :: c in before ==> White(c)
    ensures TrimStart(before + rest) == TrimStart(rest)
  {
    if before == "" {
      assert before + rest == rest;
    } else {
      assert before[0] in before && forall c :: c in before[1..] ==> c in before;
      assert (before + rest)[1..] == before[1..] + rest;
      StartsOff(before[1..], rest);
    }
  }

  lemma {:induction false} EndsOff(line: string, after: string)
    requires Visible(line) && forall c :: c in after ==> White(c)
    ensures TrimEnd(line + after) == line
  {
    if after == "" {
      assert line + after == line;
    } else {
      var front := after[..|after| - 1];
      assert after[|after| - 1] in after && forall c :: c in front ==> c in after;
      assert (line + after)[..|line + after| - 1] == line + front;
      EndsOff(line, front);
    }
  }
}
