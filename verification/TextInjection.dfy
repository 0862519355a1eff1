/**
 Keyboard injection into the compositor
 (crates/termland-compositor/src/input.rs).

 `InputInjector` turns key events and committed Unicode text into requests on
 a virtual keyboard. What those requests mean is given by `Play`: a keyboard
 that resolves every key press against the keymap installed last.
 */
module TextInjection {
  import opened Prelude
  import opened Greedy

  const FIRST_SYNTH_KEYCODE: nat := 9
  const MAX_KEYS_PER_KEYMAP: nat := 240

  // ----- Keysyms -----

  function HexDigit(d: nat): char
    requires d < 16
  {
    if d < 10 then '0' + d as char else 'A' + (d - 10) as char
  }

  /** Upper-case hexadecimal, zero-padded to at least `width` digits. */
  function Hex(n: nat, width: nat): string
    decreases n, width
  {
    var high := if n < 16 && width <= 1 then "" else Hex(n / 16, if width == 0 then 0 else width - 1);
    high + [HexDigit(n % 16)]
  }

  function HexValue(digits: string): Option<nat> {
    if |digits| == 0 then
      Some(0)
    else
      var high, d := HexValue(digits[..|digits| - 1]), digits[|digits| - 1];
      if high.None? then None
      else if '0' <= d <= '9' then Some(16 * high.value + (d - '0') as nat)
      else if 'A' <= d <= 'F' then Some(16 * high.value + (d - 'A') as nat + 10)
      else None
  }

  predicate IsControl(cp: nat) {
    cp < 0x20 || 0x7F <= cp < 0xA0
  }

  /** The name a synthesized keymap binds for `c`; None when it cannot be typed. */
  function KeysymName(c: char): Option<string> {
    if c == '\n' || c == '\r' then Some("Return")
    else if c == '\t' then Some("Tab")
    else if IsControl(c as nat) then None
    else Some("U" + Hex(c as nat, 4))
  }

  /** What xkbcommon makes of a keysym name; None is NoSymbol, which fails the whole keymap. */
  function ResolveName(name: string): Option<nat> {
    if name == "Return" then Some(0xFF0D)
    else if name == "Tab" then Some(0xFF09)
    else if |name| < 2 || name[0] != 'U' then None
    else
      var cp := HexValue(name[1..]);
      if cp.None? || IsControl(cp.value) then None
      else if cp.value < 0x100 then cp
      else Some(0x0100_0000 + cp.value)
  }

  /** The keysym a user expects for a character. */
  function KeysymOf(c: char): nat {
    if c == '\n' || c == '\r' then 0xFF0D
    else if c == '\t' then 0xFF09
    else if c as nat < 0x100 then c as nat
    else 0x0100_0000 + c as nat
  }

  lemma {:induction false} HexRoundTrip(n: nat, width: nat)
    ensures |Hex(n, width)| >= 1 && HexValue(Hex(n, width)) == Some(n)
    decreases n, width
  {
    var h := Hex(n, width);
    if n < 16 && width <= 1 {
      assert h[..|h| - 1] == "" && h[|h| - 1] == HexDigit(n);
    } else {
      var w := if width == 0 then 0 else width - 1;
      HexRoundTrip(n / 16, w);
      assert h[..|h| - 1] == Hex(n / 16, w) && h[|h| - 1] == HexDigit(n % 16);
    }
  }

  /** As wide as asked for, and wider only for larger numbers. */
  lemma {:induction false} HexWidth(n: nat, width: nat)
    ensures |Hex(n, width)| >= width
    ensures n < 16 ==> |Hex(n, width)| == if width == 0 then 1 else width
    ensures |Hex(n, width)| > width && n > 0 ==> Hex(n, width)[0] != '0'
    decreases n, width
  {
    var w := if width == 0 then 0 else width - 1;
    if !(n < 16 && width <= 1) {
      HexWidth(n / 16, w);
      assert Hex(n, width) == Hex(n / 16, w) + [HexDigit(n % 16)];
      assert n < 16 ==> n / 16 == 0;
      assert Hex(n / 16, w) != "";
    } else {
      assert Hex(n, width) == [HexDigit(n % 16)];
    }
  }

  /** Four digits or more, for a character that has no name of its own. */
  lemma UnicodeName(c: char)
    requires KeysymName(c).Some? && c !in {'\n', '\r', '\t'}
    ensures var name := KeysymName(c).value; |name| >= 5 && name[0] == 'U' && HexValue(name[1..]) == Some(c as nat)
  {
    HexWidth(c as nat, 4);
    HexRoundTrip(c as nat, 4);
    assert ("U" + Hex(c as nat, 4))[1..] == Hex(c as nat, 4);
  }

  /** A name is produced exactly for the typable characters, and it is never NoSymbol. */
  lemma NamesResolve(c: char)
    ensures KeysymName(c).None? <==> IsControl(c as nat) && c !in {'\n', '\r', '\t'}
    ensures KeysymName(c).Some? ==> ResolveName(KeysymName(c).value) == Some(KeysymOf(c))
  {
    if KeysymName(c).Some? && c !in {'\n', '\r', '\t'} {
      var digits := Hex(c as nat, 4);
      HexRoundTrip(c as nat, 4);
      var name := "U" + digits;
      assert name[0] == 'U' && name[1..] == digits;
      assert name[0] != "Return"[0] && name[0] != "Tab"[0];
    }
  }

  /** What has no keysym: the control characters but newline, carriage return and tab. */
  lemma UntypableIff(c: char)
    ensures KeysymName(c).None? <==>
              (c as nat <= 0x1F || 0x7F <= c as nat <= 0x9F) && c as nat != 0x0A && c as nat != 0x0D && c as nat != 0x09
  {
  }

  // ----- Virtual keyboard -----

  /** The modifiers that scancodes can hold down; in the mask they are 0x1, 0x4, 0x8 and 0x40. */
  datatype Modifier = Shift | Ctrl | Alt | Super

  /** A mods_depressed mask, as the set of its bits. */
  type Mask = set<Modifier>

  /** `Synthesized(names)` binds xkb keycode 9 + i to the keysym called `names[i]`. */
  datatype Keymap = StaticKeymap | Synthesized(names: seq<string>)

  datatype Request =
    | SetKeymap(keymap: Keymap)
    | Key(evdev: nat, pressed: bool)
    | SetModifiers(mask: Mask)

  datatype Symbol = Keysym(code: nat) | FromStatic(keycode: nat) | Unbound

  /** One key press as the focused client sees it. */
  datatype Stroke = Stroke(symbol: Symbol, mask: Mask)

  /** `throwaways` counts the synthesized keymaps installed so far. */
  datatype Keyboard = Keyboard(
    keymap: Keymap, mask: Mask, down: set<nat>, strokes: seq<Stroke>, throwaways: nat)

  const UNPLUGGED := Keyboard(StaticKeymap, {}, {}, [], 0)

  /** The largest xkb keycode an 8-bit protocol can carry. */
  const LAST_KEYCODE: nat := 255

  /** What a key means under a keymap; xkb keycodes are evdev codes plus 8. */
  function SymbolAt(keymap: Keymap, keycode: nat): Symbol {
    match keymap
    case StaticKeymap => FromStatic(keycode)
    case Synthesized(names) =>
      if FIRST_SYNTH_KEYCODE <= keycode <= LAST_KEYCODE && keycode - FIRST_SYNTH_KEYCODE < |names| then
        var code := ResolveName(names[keycode - FIRST_SYNTH_KEYCODE]);
        if code.Some? then Keysym(code.value) else Unbound
      else
        Unbound
  }

  function Apply(k: Keyboard, r: Request): Keyboard {
    match r
    case SetKeymap(keymap) =>
      k.(keymap := keymap, throwaways := k.throwaways + if keymap.Synthesized? then 1 else 0)
    case SetModifiers(mask) => k.(mask := mask)
    case Key(evdev, true) =>
      k.(down := k.down + {evdev},
         strokes := k.strokes + [Stroke(SymbolAt(k.keymap, evdev + 8), k.mask)])
    case Key(evdev, false) => k.(down := k.down - {evdev})
  }

  function Play(k: Keyboard, rs: seq<Request>): Keyboard {
    if |rs| == 0 then k else Apply(Play(k, rs[..|rs| - 1]), rs[|rs| - 1])
  }

  lemma PlayMore(k: Keyboard, rs: seq<Request>, r: Request)
    ensures Play(k, rs + [r]) == Apply(Play(k, rs), r)
  {
    assert (rs + [r])[..|rs|] == rs;
  }

  /** The strokes that type `text` under a mask. */
  function Typing(text: string, mask: Mask): seq<Stroke> {
    seq(|text|, i requires 0 <= i < |text| => Stroke(Keysym(KeysymOf(text[i])), mask))
  }

  // ----- Characters -----

  /** The characters of `text` that can be typed, in order. */
  function Typable(text: string): string {
    if |text| == 0 then ""
    else
      var last := text[|text| - 1];
      Typable(text[..|text| - 1]) + if KeysymName(last).Some? then [last] else ""
  }

  /** Of one character, itself, unless it is a control character with no key. */
  lemma TypableOne(c: char)
    ensures Typable([c]) ==
              if (c as nat <= 0x1F || 0x7F <= c as nat <= 0x9F) && c as nat !in {0x09, 0x0A, 0x0D} then "" else [c]
  {
    UntypableIff(c);
    assert [c][..0] == "";
  }

  /** `Typable` keeps each typable character in its place. */
  lemma {:induction false} TypableIn(a: string, b: string)
    ensures Typable(a + b) == Typable(a) + Typable(b)
  {
    if |b| == 0 {
      assert a + b == a;
    } else {
      var front := b[..|b| - 1];
      assert (a + b)[..|a + b| - 1] == a + front;
      TypableIn(a, front);
    }
  }

  predicate AllTypable(text: string) {
    forall c :: c in text ==> KeysymName(c).Some?
  }

  function Distinct(text: string): set<char> {
    set c | c in text
  }

  /** A stretch of text that one keymap can hold. */
  predicate FitsKeymap(text: string) {
    |Distinct(text)| <= MAX_KEYS_PER_KEYMAP
  }

  lemma FitsKeymapIsHereditary()
    ensures Hereditary(FitsKeymap)
  {
    forall s: string, i: int, j: int | 0 <= i <= j <= |s| && FitsKeymap(s)
      ensures FitsKeymap(s[i..j])
    {
      assert Distinct(s[i..j]) <= Distinct(s);
      SubsetCardinality(Distinct(s[i..j]), Distinct(s));
    }
  }

  lemma {:induction false} SubsetCardinality<T>(a: set<T>, b: set<T>)
    requires a <= b
    ensures |a| <= |b|
  {
    if a != {} {
      var x :| x in a;
      SubsetCardinality(a - {x}, b - {x});
    }
  }

  /** `keys` lists the distinct characters of `text`, each once. */
  ghost predicate Lists(keys: string, text: string) {
    && (forall i, j :: 0 <= i < j < |keys| ==> keys[i] != keys[j])
    && (forall c :: c in keys <==> c in text)
  }

  lemma {:induction false} ListedOnce(keys: string)
    requires forall i, j :: 0 <= i < j < |keys| ==> keys[i] != keys[j]
    ensures |Distinct(keys)| == |keys|
  {
    if |keys| > 0 {
      var front, last := keys[..|keys| - 1], keys[|keys| - 1];
      ListedOnce(front);
      assert Distinct(keys) == Distinct(front) + {last};
      assert last !in Distinct(front);
    }
  }

  lemma ListCounts(keys: string, text: string)
    requires Lists(keys, text)
    ensures |keys| == |Distinct(text)|
  {
    ListedOnce(keys);
    assert Distinct(keys) == Distinct(text);
  }

  /** The position of the first `c` in `keys`, if any. */
  method Position(keys: string, c: char) returns (p: Option<nat>)
    ensures p.Some? ==> p.value < |keys| && keys[p.value] == c
    ensures p.None? ==> c !in keys
  {
    for i := 0 to |keys|
      invariant c !in keys[..i]
    {
      if keys[i] == c {
        return Some(i);
      }
    }
    return None;
  }

  /** The chunking loop of `text`: drop what cannot be typed, start a new chunk when a keymap is full. */
  method ChunkText(text: string) returns (chunks: seq<string>)
    ensures Flatten(chunks) == Typable(text)
    ensures Filled(FitsKeymap, chunks)
  {
    hide Filled, KeysymName, Flatten;
    NoChunks();
    chunks := [];
    var chunk, distinct := "", "";
    for i := 0 to |text|
      invariant Flatten(chunks) + chunk == Typable(text[..i])
      invariant Lists(distinct, chunk)
      invariant if chunk == "" then chunks == [] else Filled(FitsKeymap, chunks + [chunk])
    {
      var c := text[i];
      assert text[..i + 1][..i] == text[..i];
      if KeysymName(c).None? {
        continue;
      }
      if c !in distinct {
        ListCounts(distinct, chunk);
        if |distinct| >= MAX_KEYS_PER_KEYMAP {
          FlattenAppend(chunks, chunk);
          NextChunk(chunks, chunk, c);
          chunks := chunks + [chunk];
          chunk, distinct := "", "";
          FirstOfChunk(chunks, c);
        } else {
          GrowChunk(chunks, chunk, c);
        }
        distinct := distinct + [c];
      } else {
        GrowChunk(chunks, chunk, c);
      }
      chunk := chunk + [c];
    }
    assert text[..|text|] == text;
    if chunk != "" {
      FlattenAppend(chunks, chunk);
      chunks := chunks + [chunk];
    }
  }

  lemma NoChunks()
    ensures Flatten<char>([]) == "" && Filled<char>(FitsKeymap, [])
  {
  }

  lemma FirstOfChunk(chunks: seq<string>, c: char)
    ensures chunks + ["" + [c]] == chunks + [[c]]
  {
    assert "" + [c] == [c];
  }

  lemma GrowChunk(chunks: seq<string>, chunk: string, c: char)
    requires if chunk == "" then chunks == [] else Filled(FitsKeymap, chunks + [chunk])
    requires c in chunk || |Distinct(chunk)| < MAX_KEYS_PER_KEYMAP
    ensures Filled(FitsKeymap, chunks + [chunk + [c]])
  {
    assert Distinct(chunk + [c]) == Distinct(chunk) + {c};
    var was, now := chunks + [chunk], chunks + [chunk + [c]];
    assert chunk != "" ==> FitsKeymap(chunk) by {
      if chunk != "" { assert was[|chunks|] == chunk; }
    }
    assert FitsKeymap(chunk + [c]);
    forall p | p in now ensures FitsKeymap(p) {
      if p in chunks { assert p in was; }
    }
    forall k | 0 <= k < |now| ensures now[k] != [] {
      if k < |chunks| { assert now[k] == was[k]; }
    }
    forall k | 0 <= k < |now| - 1 ensures !FitsKeymap(now[k] + [now[k + 1][0]]) {
      assert now[k] == was[k] && now[k + 1][0] == was[k + 1][0];
    }
  }

  lemma NextChunk(chunks: seq<string>, chunk: string, c: char)
    requires chunk != "" && Filled(FitsKeymap, chunks + [chunk])
    requires c !in chunk && |Distinct(chunk)| >= MAX_KEYS_PER_KEYMAP
    ensures Filled(FitsKeymap, chunks + [chunk] + [[c]])
  {
    assert Distinct(chunk + [c]) == Distinct(chunk) + {c};
    assert Distinct([c]) == {c};
    var was, now := chunks + [chunk], chunks + [chunk] + [[c]];
    assert now[|chunks|] == chunk;
    forall k | 0 <= k < |now| - 1 ensures !FitsKeymap(now[k] + [now[k + 1][0]]) {
      if k < |chunks| {
        assert now[k] == was[k] && now[k + 1] == was[k + 1];
      }
    }
  }

  // ----- Injector -----

  datatype InputError =
    | TooManyKeys
    | UntypableChar(c: char)
    | UploadFailed
    | FlushFailed

  /** The modifier a scancode holds down, none for ordinary keys. */
  function ModifierBit(scancode: nat): Mask {
    if scancode == 42 || scancode == 54 then {Shift}
    else if scancode == 29 || scancode == 97 then {Ctrl}
    else if scancode == 56 || scancode == 100 then {Alt}
    else if scancode == 125 || scancode == 126 then {Super}
    else {}
  }

  /** The modifier mask after one key event. */
  function MaskAfter(mask: Mask, scancode: nat, pressed: bool): Mask {
    if pressed then mask + ModifierBit(scancode) else mask - ModifierBit(scancode)
  }

  /** One press-and-release types one symbol and leaves nothing new held. */
  lemma TapTypes(k: Keyboard, evdev: nat)
    ensures var after := Apply(Apply(k, Key(evdev, true)), Key(evdev, false));
            && after == k.(strokes := k.strokes + [Stroke(SymbolAt(k.keymap, evdev + 8), k.mask)], down := after.down)
            && after.down <= k.down
  {
  }

  /** `sequence` gives, for every character, the evdev code its place in `distinct` is bound to. */
  ghost predicate Plans(distinct: string, sequence: seq<nat>, chars: string) {
    && |sequence| == |chars|
    && forall j :: 0 <= j < |chars| ==>
         && FIRST_SYNTH_KEYCODE <= sequence[j] + 8 < FIRST_SYNTH_KEYCODE + |distinct|
         && distinct[sequence[j] + 8 - FIRST_SYNTH_KEYCODE] == chars[j]
  }

  ghost predicate Names(names: seq<string>, distinct: string) {
    && |names| == |distinct|
    && forall j :: 0 <= j < |names| ==> KeysymName(distinct[j]) == Some(names[j])
  }

  /** The distinct characters of a chunk in order of first use, and the evdev code for each character. */
  method PlanChunk(chars: string) returns (distinct: string, sequence: seq<nat>)
    ensures Lists(distinct, chars) && Plans(distinct, sequence, chars)
  {
    distinct, sequence := "", [];
    for i := 0 to |chars|
      invariant Lists(distinct, chars[..i]) && Plans(distinct, sequence, chars[..i])
    {
      var idx := Position(distinct, chars[i]);
      var at;
      if idx.Some? {
        at := idx.value;
      } else {
        distinct := distinct + [chars[i]];
        at := |distinct| - 1;
      }
      sequence := sequence + [FIRST_SYNTH_KEYCODE + at - 8];
    }
    assert chars[..|chars|] == chars;
  }

  /** The keysym names to bind, or the first character that has none. */
  method NameKeys(distinct: string) returns (names: Result<seq<string>, InputError>)
    ensures names.Ok? ==> Names(names.value, distinct)
    ensures names.Err? ==>
              names.error.UntypableChar? && names.error.c in distinct && KeysymName(names.error.c).None?
  {
    var found: seq<string> := [];
    for i := 0 to |distinct|
      invariant Names(found, distinct[..i])
    {
      var name := KeysymName(distinct[i]);
      if name.None? {
        return Err(UntypableChar(distinct[i]));
      }
      found := found + [name.value];
    }
    assert distinct[..|distinct|] == distinct;
    return Ok(found);
  }

  /** Since `before` the keyboard has typed the first `n` characters of `text`; nothing new is held. */
  ghost predicate Typed(before: Keyboard, now: Keyboard, text: string, n: nat) {
    && n <= |text|
    && now.strokes == before.strokes + Typing(text[..n], before.mask)
    && now.mask == before.mask && now.down <= before.down
  }

  lemma TypedOneMore(before: Keyboard, was: Keyboard, now: Keyboard, text: string, n: nat)
    requires Typed(before, was, text, n) && n < |text|
    requires now.strokes == was.strokes + [Stroke(Keysym(KeysymOf(text[n])), was.mask)]
    requires now.mask == was.mask && now.down <= was.down
    ensures Typed(before, now, text, n + 1)
  {
    assert Typing(text[..n + 1], before.mask)
        == Typing(text[..n], before.mask) + [Stroke(Keysym(KeysymOf(text[n])), before.mask)];
  }

  /** Typing part of the next piece extends what has been typed of the whole. */
  lemma TypedJoin(before: Keyboard, was: Keyboard, now: Keyboard, text: string, n: nat, piece: string, m: nat)
    requires Typed(before, was, text, n) && Typed(was, now, piece, m)
    requires text[..n] + piece <= text
    ensures Typed(before, now, text, n + m)
  {
    assert text[..n + m] == text[..n] + piece[..m];
    assert Typing(text[..n + m], before.mask) == Typing(text[..n], before.mask) + Typing(piece[..m], before.mask);
  }

  /** The key planned for a character resolves to that character's keysym. */
  lemma PlannedSymbol(distinct: string, names: seq<string>, sequence: seq<nat>, chars: string, i: nat)
    requires Plans(distinct, sequence, chars) && Names(names, distinct) && i < |chars|
    requires |distinct| <= MAX_KEYS_PER_KEYMAP
    ensures SymbolAt(Synthesized(names), sequence[i] + 8) == Keysym(KeysymOf(chars[i]))
  {
    NamesResolve(chars[i]);
  }

  lemma {:induction false} FlattenSplit(chunks: seq<string>, i: nat)
    requires i < |chunks|
    ensures Flatten(chunks[..i + 1]) == Flatten(chunks[..i]) + chunks[i]
    ensures Flatten(chunks[..i]) + chunks[i] <= Flatten(chunks)
  {
    assert chunks[..i + 1] == chunks[..i] + [chunks[i]];
    FlattenAppend(chunks[..i], chunks[i]);
    FlattenPrefix(chunks, i + 1);
  }

  lemma {:induction false} FlattenPrefix(chunks: seq<string>, i: nat)
    requires i <= |chunks|
    ensures Flatten(chunks[..i]) <= Flatten(chunks)
  {
    if i > 0 {
      assert chunks[..i][1..] == chunks[1..][..i - 1];
      FlattenPrefix(chunks[1..], i - 1);
    }
  }

  lemma {:induction false} TypableIsTypable(text: string)
    ensures AllTypable(Typable(text))
  {
    if |text| > 0 {
      TypableIsTypable(text[..|text| - 1]);
    }
  }

  lemma TypablePart(text: string, n: nat, piece: string)
    requires AllTypable(text) && n <= |text| && text[..n] + piece <= text
    ensures AllTypable(piece)
  {
    forall k | 0 <= k < |piece| ensures piece[k] in text {
      assert piece[k] == text[n + k];
    }
  }

  /** However `text` is cut into keymap-sized pieces, it takes at least `count` of them. */
  ghost predicate AtLeast(count: int, text: string) {
    forall pieces: seq<string> ::
      Flatten(pieces) == text && AllFit(FitsKeymap, pieces) ==> count <= |pieces|
  }

  /** A filled cut, as `ChunkText` makes it, has the fewest pieces. */
  lemma FewestChunks(chunks: seq<string>, count: int)
    requires Filled(FitsKeymap, chunks) && count <= |chunks|
    ensures AtLeast(count, Flatten(chunks))
  {
    FitsKeymapIsHereditary();
    forall pieces: seq<string> | Flatten(pieces) == Flatten(chunks) && AllFit(FitsKeymap, pieces)
      ensures count <= |pieces|
    {
      FilledIsFewest(FitsKeymap, chunks, pieces);
    }
  }

  /** Up to 240 distinct characters, however many in all, one keymap is enough. */
  lemma OneKeymapEnough(count: int, text: string)
    requires AtLeast(count, text) && |Distinct(text)| <= 240
    ensures count <= 1
  {
    assert [text][1..] == [];
    assert Flatten([text]) == text + Flatten([]);
    assert AllFit(FitsKeymap, [text]);
  }

  datatype Global = Seat | PointerManager | KeyboardManager

  datatype ConnectError = Unreachable | MissingGlobal(global: Global) | KeymapNotSent

  /**
   The steps up to a working injector. Any call may fail, and the compositor may
   lack a global, of which the first missing one is named; only after the last
   step is there an injector at all.
   */
  method Connect(offered: set<Global>) returns (r: Result<InputInjector, ConnectError>)
    ensures r.Ok? ==>
              fresh(r.value) && r.value.InStep() && r.value.modsDepressed == {} && r.value.board == UNPLUGGED
              && {Seat, PointerManager, KeyboardManager} <= offered
    ensures r.Err? && r.error.MissingGlobal? ==>
              r.error.global !in offered
              && (r.error.global != Seat ==> Seat in offered)
              && (r.error.global == KeyboardManager ==> PointerManager in offered)
    ensures r == Err(KeymapNotSent) ==> {Seat, PointerManager, KeyboardManager} <= offered
  {
    var reached: bool := *;
    if !reached {
      return Err(Unreachable);
    }
    if Seat !in offered {
      return Err(MissingGlobal(Seat));
    }
    if PointerManager !in offered {
      return Err(MissingGlobal(PointerManager));
    }
    if KeyboardManager !in offered {
      return Err(MissingGlobal(KeyboardManager));
    }
    var uploaded: bool := *;
    if !uploaded {
      return Err(KeymapNotSent);
    }
    var settled: bool := *;
    if !settled {
      return Err(Unreachable);
    }
    var injector := new InputInjector();
    r := Ok(injector);
  }

  class InputInjector {
    /** Current modifier bitmask. */
    var modsDepressed: Mask
    /** The requests made on the virtual keyboard so far. */
    var sent: seq<Request>
    /** The keyboard those requests have produced. */
    ghost var board: Keyboard
    /** How many keymap uploads and roundtrips have failed. */
    ghost var failures: nat
    /** Whether the latest of those calls succeeded. */
    ghost var lastOk: bool

    ghost predicate Valid()
      reads this
    {
      board == Play(UNPLUGGED, sent)
    }

    /** Outside `Text`, the compositor's mask is the one this injector keeps. */
    ghost predicate InStep()
      reads this
    {
      Valid() && board.mask == modsDepressed
    }

    /** A connected injector: the static keymap has been sent. */
    constructor ()
      ensures InStep() && modsDepressed == {} && board == UNPLUGGED
    {
      modsDepressed := {};
      sent := [SetKeymap(StaticKeymap)];
      board := UNPLUGGED;
      new;
      PlayMore(UNPLUGGED, [], SetKeymap(StaticKeymap));
      assert [] + [SetKeymap(StaticKeymap)] == sent;
    }

    /** Put one request on the wire. */
    method Emit(r: Request)
      requires Valid()
      modifies this`sent, this`board
      ensures Valid() && sent == old(sent) + [r] && board == Apply(old(board), r)
    {
      PlayMore(UNPLUGGED, sent, r);
      sent, board := sent + [r], Apply(board, r);
    }

    /** Any call out of the process may fail. */
    method Attempt() returns (ok: bool)
      modifies this`failures, this`lastOk
      ensures lastOk == ok && failures == old(failures) + if ok then 0 else 1
    {
      ok := *;
      failures, lastOk := failures + if ok then 0 else 1, ok;
    }

    /** Wait until the compositor has handled everything sent so far. */
    method Flush() returns (ok: bool)
      modifies this`failures, this`lastOk
      ensures lastOk == ok && failures == old(failures) + if ok then 0 else 1
    {
      ok := Attempt();
    }

    method UploadKeymap(keymap: Keymap) returns (ok: bool)
      requires Valid()
      modifies this`sent, this`board, this`failures, this`lastOk
      ensures Valid() && lastOk == ok && failures == old(failures) + if ok then 0 else 1
      ensures board == if ok then Apply(old(board), SetKeymap(keymap)) else old(board)
    {
      ok := Attempt();
      if ok {
        Emit(SetKeymap(keymap));
      }
    }

    /** Inject a key event; the mask follows the modifier keys. */
    method KeyEvent(scancode: nat, pressed: bool)
      requires InStep()
      modifies this
      ensures InStep()
      ensures modsDepressed == MaskAfter(old(modsDepressed), scancode, pressed)
      ensures board.down == if pressed then old(board.down) + {scancode} else old(board.down) - {scancode}
      ensures board.keymap == old(board.keymap) && board.throwaways == old(board.throwaways)
      // A press is one stroke, under the mask held until then; a release is none.
      ensures board.strokes == old(board.strokes) +
                if pressed then [Stroke(SymbolAt(old(board.keymap), scancode + 8), old(modsDepressed))] else []
    {
      var bit := ModifierBit(scancode);
      Emit(Key(scancode, pressed));
      if bit != {} {
        modsDepressed := if pressed then modsDepressed + bit else modsDepressed - bit;
        Emit(SetModifiers(modsDepressed));
      }
      var _ := Flush();
    }

    /**
     One keymap and the strokes that need it. `n` counts the strokes made, and
     the refusals come before any request.
     */
    method TypeChunk(chars: string) returns (r: Result<(), InputError>, ghost n: nat)
      requires Valid()
      modifies this`sent, this`board, this`failures, this`lastOk
      ensures Valid() && board.throwaways <= old(board.throwaways) + 1
      // A prefix of the chunk has been typed, the whole of it on success.
      ensures Typed(old(board), board, chars, n) && (r.Ok? ==> n == |chars|)
      // The two refusals happen before anything is sent.
      ensures r == Err(TooManyKeys) <==> !FitsKeymap(chars)
      ensures r.Err? && r.error.UntypableChar? <==> FitsKeymap(chars) && !AllTypable(chars)
      ensures !FitsKeymap(chars) || !AllTypable(chars) ==> sent == old(sent) && failures == old(failures)
      // Otherwise it stops at the first failing call and fails only for one.
      ensures FitsKeymap(chars) && AllTypable(chars) ==>
                failures == old(failures) + if r.Ok? then 0 else 1
    {
      n := 0;
      var distinct, sequence := PlanChunk(chars);
      ListCounts(distinct, chars);
      if |distinct| > MAX_KEYS_PER_KEYMAP {
        return Err(TooManyKeys), 0;
      }
      var names := NameKeys(distinct);
      if names.Err? {
        assert names.error.c in chars;
        return Err(names.error), 0;
      }
      assert AllTypable(chars) by {
        forall c | c in chars ensures KeysymName(c).Some? {
          assert c in distinct;
        }
      }
      var ok := UploadKeymap(Synthesized(names.value));
      if !ok {
        return Err(UploadFailed), 0;
      }
      ok := Flush();
      if !ok {
        return Err(FlushFailed), 0;
      }
      r, n := TypeSequence(chars, distinct, names.value, sequence);
    }

    /** Press and release one key, and wait for the compositor. */
    method Strike(evdev: nat) returns (ok: bool)
      requires Valid()
      modifies this`sent, this`board, this`failures, this`lastOk
      ensures Valid()
      ensures board.strokes == old(board.strokes) + [Stroke(SymbolAt(old(board.keymap), evdev + 8), old(board.mask))]
      ensures board == old(board).(strokes := board.strokes, down := board.down)
      ensures board.down <= old(board.down)
      ensures failures == old(failures) + if ok then 0 else 1
    {
      TapTypes(board, evdev);
      Emit(Key(evdev, true));
      Emit(Key(evdev, false));
      ok := Flush();
    }

    /** Press and release each planned key under the keymap just installed. */
    method TypeSequence(chars: string, ghost distinct: string, ghost names: seq<string>, sequence: seq<nat>)
      returns (r: Result<(), InputError>, ghost n: nat)
      requires Valid() && board.keymap == Synthesized(names)
      requires Plans(distinct, sequence, chars) && Names(names, distinct)
      requires |distinct| <= MAX_KEYS_PER_KEYMAP
      modifies this`sent, this`board, this`failures, this`lastOk
      ensures Valid() && board.throwaways == old(board.throwaways)
      ensures Typed(old(board), board, chars, n) && (r.Ok? ==> n == |chars|)
      ensures r == Ok(()) || r == Err(FlushFailed)
      ensures failures == old(failures) + if r.Ok? then 0 else 1
    {
      assert |sequence| == |chars|;
      hide Play, KeysymName, Plans, Names;
      n := 0;
      for i := 0 to |sequence|
        invariant Valid() && board.keymap == Synthesized(names)
        invariant board.throwaways == old(board.throwaways)
        invariant n == i && Typed(old(board), board, chars, n)
        invariant failures == old(failures)
      {
        ghost var was := board;
        PlannedSymbol(distinct, names, sequence, chars, i);
        var ok := Strike(sequence[i]);
        TypedOneMore(old(board), was, board, chars, n);
        n := n + 1;
        if !ok {
          return Err(FlushFailed), n;
        }
      }
      return Ok(()), n;
    }

    /** Type the chunks in order, stopping at the first that fails. */
    method TypeChunks(chunks: seq<string>) returns (r: Result<(), InputError>, ghost n: nat)
      requires Valid() && AllFit(FitsKeymap, chunks) && AllTypable(Flatten(chunks))
      modifies this`sent, this`board, this`failures, this`lastOk
      ensures Valid() && board.throwaways <= old(board.throwaways) + |chunks|
      ensures Typed(old(board), board, Flatten(chunks), n) && (r.Ok? ==> n == |Flatten(chunks)|)
      ensures failures == old(failures) + if r.Ok? then 0 else 1
      ensures r.Err? ==> r.error == UploadFailed || r.error == FlushFailed
    {
      n := 0;
      for i := 0 to |chunks|
        invariant Valid() && board.throwaways <= old(board.throwaways) + i
        invariant Typed(old(board), board, Flatten(chunks), n) && n == |Flatten(chunks[..i])|
        invariant failures == old(failures)
      {
        ghost var was := board;
        FlattenSplit(chunks, i);
        TypablePart(Flatten(chunks), n, chunks[i]);
        ghost var m;
        r, m := TypeChunk(chunks[i]);
        TypedJoin(old(board), was, board, Flatten(chunks), n, chunks[i], m);
        n := n + m;
        if r.Err? {
          return r, n;
        }
      }
      assert chunks[..|chunks|] == chunks;
      return Ok(()), n;
    }

    /**
     Inject already composed text: lift the held modifiers, type the text chunk
     by chunk, and put the static keymap and the modifiers back on every path.
     */
    method Text(text: string) returns (r: Result<(), InputError>, ghost n: nat)
      requires InStep()
      modifies this`sent, this`board, this`failures, this`lastOk
      // Exactly the typable characters come out, in order and with no modifier; on failure a prefix of them.
      ensures Typed(old(board).(mask := {}), board.(mask := {}), Typable(text), n)
      ensures r.Ok? ==> n == |Typable(text)|
      ensures InStep()
      // It fails exactly when a call fails, and never for the two refusals of TypeChunk.
      ensures r.Ok? <==> failures == old(failures)
      ensures r.Err? ==> r.error == UploadFailed || r.error == FlushFailed
      // The static keymap is back unless its own upload, the last call made, failed.
      ensures old(board.keymap) == StaticKeymap || Typable(text) != "" ==>
                board.keymap == StaticKeymap || (r.Err? && !lastOk)
      // No way of cutting the text into keymap-sized pieces needs fewer throwaway keymaps.
      ensures AtLeast(board.throwaways - old(board.throwaways), Typable(text))
    {
      var chunks := ChunkText(text);
      TypableIsTypable(text);
      r, n := Ok(()), 0;
      if |chunks| == 0 {
        FewestChunks(chunks, 0);
        return;
      }
      var heldMods := modsDepressed;
      if heldMods != {} {
        Emit(SetModifiers({}));
      }
      r, n := TypeChunks(chunks);
      r := Restore(heldMods, r);
      FewestChunks(chunks, board.throwaways - old(board.throwaways));
    }

    /** The tail of `Text`: reinstall the static keymap, re-assert the mask, report the first error. */
    method Restore(heldMods: Mask, soFar: Result<(), InputError>) returns (r: Result<(), InputError>)
      requires Valid() && board.mask == {} && heldMods == modsDepressed
      modifies this`sent, this`board, this`failures, this`lastOk
      ensures InStep() && board == old(board).(mask := heldMods, keymap := board.keymap)
      ensures failures >= old(failures) && (r.Ok? <==> soFar.Ok? && failures == old(failures))
      ensures r.Err? ==> r == soFar || r.error == UploadFailed || r.error == FlushFailed
      ensures board.keymap == StaticKeymap || (r.Err? && !lastOk)
    {
      hide Play, SymbolAt;
      var restored := UploadKeymap(StaticKeymap);
      if heldMods != {} {
        Emit(SetModifiers(heldMods));
      }
      var flushed := restored;
      if restored {
        flushed := Flush();
      }
      r := soFar;
      if soFar.Ok? && !flushed {
        r := Err(if restored then FlushFailed else UploadFailed);
      }
    }
  }
}
