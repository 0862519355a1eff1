/**
 Keyboard and button state on the way from the iOS client
 (ios/Termland/InputRouter.swift) to the compositor
 (crates/termland-compositor/src/input.rs).

 The router's methods are given by functions on its state, which includes what
 the events sent so far have left held down remotely. `Sound` is kept by every
 operation, and `ReleaseAll` then leaves nothing held, in the router, among
 the remote keys, or in the injector's modifier mask.
 */
module InputRouting {
  import TextInjection

  type Mask = TextInjection.Mask

  const KEY_TAB: nat := 15
  const KEY_ENTER: nat := 28
  const KEY_LEFT_CTRL: nat := 29
  const KEY_LEFT_SHIFT: nat := 42
  const KEY_LEFT_ALT: nat := 56
  const KEY_RIGHT_CTRL: nat := 97
  const KEY_LEFT_META: nat := 125

  /** The scancodes `ReleaseStickyModifiers` knows, in the order it tries them. */
  const LATCHABLE: seq<nat> := [KEY_LEFT_CTRL, KEY_LEFT_ALT, KEY_LEFT_SHIFT, KEY_LEFT_META]

  function Bit(scancode: nat): Mask {
    TextInjection.ModifierBit(scancode)
  }

  datatype ClientEvent =
    | SendKey(scancode: nat, pressed: bool, modifiers: Mask)
    | SendText(text: string)
    | SendButton(button: nat, pressed: bool)

  /** What the events handled so far amount to on the server. */
  datatype Remote = Remote(keys: set<nat>, buttons: set<nat>, mask: Mask, typed: string)

  const IDLE := Remote({}, {}, {}, "")

  /** Newline and tab arrive as keys, everything else as text. */
  function KeyText(scancode: nat, pressed: bool): string {
    if pressed && scancode == KEY_ENTER then "\n" else if pressed && scancode == KEY_TAB then "\t" else ""
  }

  /** The server handles events in order. */
  function Handle(remote: Remote, e: ClientEvent): Remote {
    match e
    case SendKey(scancode, pressed, _) =>
      remote.(
        keys := if pressed then remote.keys + {scancode} else remote.keys - {scancode},
        mask := TextInjection.MaskAfter(remote.mask, scancode, pressed),
        typed := remote.typed + KeyText(scancode, pressed))
    case SendText(text) => remote.(typed := remote.typed + text)
    case SendButton(button, pressed) =>
      remote.(buttons := if pressed then remote.buttons + {button} else remote.buttons - {button})
  }

  function HandleAll(remote: Remote, es: seq<ClientEvent>): Remote {
    if |es| == 0 then remote else Handle(HandleAll(remote, es[..|es| - 1]), es[|es| - 1])
  }

  lemma HandleMore(remote: Remote, es: seq<ClientEvent>, e: ClientEvent)
    ensures HandleAll(remote, es + [e]) == Handle(HandleAll(remote, es), e)
  {
    assert (es + [e])[..|es|] == es;
  }

  // ----- Router state -----

  datatype Router = Router(
    heldModifiers: Mask, stickyModifiers: Mask, heldKeys: set<nat>, heldButtons: set<nat>, remote: Remote)

  const FRESH := Router({}, {}, {}, {}, IDLE)

  /** The left-hand keys that stand for the latched modifiers. */
  function Latched(sticky: Mask): set<nat> {
    set k | k in LATCHABLE && Bit(k) <= sticky
  }

  function Send(r: Router, scancode: nat, pressed: bool): Router {
    r.(remote := Handle(r.remote, SendKey(scancode, pressed, {})))
  }

  function SetSticky(r: Router, scancode: nat, latched: bool): Router {
    var bit := Bit(scancode);
    if bit == {} then r
    else if latched then Send(r.(stickyModifiers := r.stickyModifiers + bit), scancode, true)
    else Send(r.(stickyModifiers := r.stickyModifiers - bit), scancode, false)
  }

  function ReleaseSticky(r: Router, from: nat): Router
    requires from <= |LATCHABLE|
    decreases |LATCHABLE| - from
  {
    if from == |LATCHABLE| then r
    else
      var k := LATCHABLE[from];
      ReleaseSticky(if Bit(k) <= r.stickyModifiers then SetSticky(r, k, false) else r, from + 1)
  }

  function Key(r: Router, scancode: nat, pressed: bool): Router {
    var bit := Bit(scancode);
    if pressed then
      Send(r.(heldModifiers := r.heldModifiers + bit, heldKeys := r.heldKeys + {scancode}), scancode, true)
    else if scancode !in r.heldKeys then
      r
    else
      var sent := Send(r.(heldKeys := r.heldKeys - {scancode}), scancode, false);
      if bit == {} then ReleaseSticky(sent, 0) else sent.(heldModifiers := sent.heldModifiers - bit)
  }

  function Tap(r: Router, scancode: nat): Router {
    Key(Key(r, scancode, true), scancode, false)
  }

  /** A Swift `Character`: one user-perceived character, possibly several code points. */
  type Character = s: string | |s| > 0 witness "a"

  /** What a committed character should read as; only a lone CR or LF is a newline key. */
  function Spelling(c: Character): string {
    if c == "\n" || c == "\r" then "\n" else c
  }

  function SpellAll(text: seq<Character>): string {
    if |text| == 0 then "" else SpellAll(text[..|text| - 1]) + Spelling(text[|text| - 1])
  }

  /** Committed characters, handled one at a time. */
  function Commit(r: Router, text: seq<Character>): Router {
    if |text| == 0 then r
    else
      var so, c := Commit(r, text[..|text| - 1]), text[|text| - 1];
      if c == "\n" || c == "\r" then Tap(so, KEY_ENTER)
      else if c == "\t" then Tap(so, KEY_TAB)
      else Say(so, c)
  }

  function Say(r: Router, text: string): Router {
    r.(remote := Handle(r.remote, SendText(text)))
  }

  function Text(r: Router, text: seq<Character>): Router {
    ReleaseSticky(Commit(r, text), 0)
  }

  function Button(r: Router, button: nat, pressed: bool): Router {
    r.(heldButtons := if pressed then r.heldButtons + {button} else r.heldButtons - {button},
       remote := Handle(r.remote, SendButton(button, pressed)))
  }

  // ----- Invariant -----

  /** Some key in `keys` holds modifier `m`. */
  ghost predicate HeldBy(m: TextInjection.Modifier, keys: set<nat>) {
    exists k :: k in keys && m in Bit(k)
  }

  ghost predicate Sound(r: Router) {
    && r.remote.keys <= r.heldKeys + Latched(r.stickyModifiers)
    && r.remote.buttons <= r.heldButtons
    && (forall m :: m in r.heldModifiers ==> HeldBy(m, r.heldKeys))
    && (forall m :: m in r.remote.mask ==> HeldBy(m, r.remote.keys))
  }

  /** The modifiers some key in `keys` holds. */
  function BitsOf(keys: set<nat>): Mask {
    set k, m | k in keys && m in Bit(k) :: m
  }

  /** Everything the router knows to be held is let go. */
  function ReleaseAll(r: Router): Router {
    var s := ReleaseSticky(r, 0);
    Router({}, s.stickyModifiers, {}, {},
           Remote(s.remote.keys - s.heldKeys, s.remote.buttons - s.heldButtons,
                  s.remote.mask - BitsOf(s.heldKeys), s.remote.typed))
  }

  datatype Op =
    | KeyOp(scancode: nat, pressed: bool)
    | TapOp(scancode: nat)
    | StickyOp(scancode: nat, latched: bool)
    | TextOp(text: seq<Character>)
    | ButtonOp(button: nat, pressed: bool)
    | ReleaseAllOp

  function Do(r: Router, op: Op): Router {
    match op
    case KeyOp(scancode, pressed) => Key(r, scancode, pressed)
    case TapOp(scancode) => Tap(r, scancode)
    case StickyOp(scancode, latched) => SetSticky(r, scancode, latched)
    case TextOp(text) => Text(r, text)
    case ButtonOp(button, pressed) => Button(r, button, pressed)
    case ReleaseAllOp => ReleaseAll(r)
  }

  function DoAll(r: Router, ops: seq<Op>): Router {
    if |ops| == 0 then r else Do(DoAll(r, ops[..|ops| - 1]), ops[|ops| - 1])
  }

  /** A modifier key that `ReleaseStickyModifiers` does not know. */
  predicate RightHand(scancode: nat) {
    Bit(scancode) != {} && scancode !in LATCHABLE
  }

  // ----- Step by step -----

  lemma ExtraKey(r: Router, s: Router, k: nat)
    requires Sound(r)
    requires s == Send(r.(heldKeys := s.heldKeys, heldModifiers := s.heldModifiers,
                          stickyModifiers := s.stickyModifiers), k, true)
    requires r.heldKeys <= s.heldKeys && r.stickyModifiers <= s.stickyModifiers
    requires k in s.heldKeys + Latched(s.stickyModifiers)
    requires forall m :: m in s.heldModifiers ==> m in r.heldModifiers || (m in Bit(k) && k in s.heldKeys)
    ensures Sound(s)
  {
    forall m | m in s.heldModifiers ensures HeldBy(m, s.heldKeys) {
      if m in r.heldModifiers {
        var w :| w in r.heldKeys && m in Bit(w);
        assert w in s.heldKeys;
      }
    }
    forall m | m in s.remote.mask ensures HeldBy(m, s.remote.keys) {
      if m in r.remote.mask {
        var w :| w in r.remote.keys && m in Bit(w);
        assert w in s.remote.keys;
      } else {
        assert k in s.remote.keys;
      }
    }
  }

  /** Releasing a key remotely keeps every remaining mask bit held by a remaining key. */
  lemma ReleaseKeepsMask(remote: Remote, k: nat)
    requires forall m :: m in remote.mask ==> HeldBy(m, remote.keys)
    ensures var after := Handle(remote, SendKey(k, false, {}));
            forall m :: m in after.mask ==> HeldBy(m, after.keys)
  {
    var after := Handle(remote, SendKey(k, false, {}));
    forall m | m in after.mask ensures HeldBy(m, after.keys) {
      var w :| w in remote.keys && m in Bit(w);
      assert w in after.keys;
    }
  }

  lemma UnlatchSound(r: Router, k: nat)
    requires Sound(r) && k in LATCHABLE
    ensures Sound(SetSticky(r, k, false))
    ensures var s := SetSticky(r, k, false);
            && s.stickyModifiers == r.stickyModifiers - Bit(k)
            && s.remote == Handle(r.remote, SendKey(k, false, {}))
            && s == r.(stickyModifiers := s.stickyModifiers, remote := s.remote)
  {
    ReleaseKeepsMask(r.remote, k);
    var s := SetSticky(r, k, false);
    forall j | j in s.remote.keys ensures j in s.heldKeys + Latched(s.stickyModifiers) {
      if j in Latched(r.stickyModifiers) {
        LatchablesDiffer(j, k);
      }
    }
  }

  lemma LatchablesDiffer(j: nat, k: nat)
    requires j in LATCHABLE && k in LATCHABLE && j != k
    ensures Bit(j) != {} && Bit(j) !! Bit(k)
  {
  }

  lemma {:induction false} ReleaseStickyEffect(r: Router, from: nat)
    requires Sound(r) && from <= |LATCHABLE|
    ensures var s := ReleaseSticky(r, from);
            && Sound(s)
            && s == r.(stickyModifiers := s.stickyModifiers, remote := s.remote)
            && s.remote.buttons == r.remote.buttons && s.remote.typed == r.remote.typed
            && s.stickyModifiers == r.stickyModifiers - BitsFrom(from)
            && s.remote.keys <= r.remote.keys && s.remote.mask <= r.remote.mask
    decreases |LATCHABLE| - from
  {
    if from < |LATCHABLE| {
      var k := LATCHABLE[from];
      var next := if Bit(k) <= r.stickyModifiers then SetSticky(r, k, false) else r;
      if Bit(k) <= r.stickyModifiers {
        UnlatchSound(r, k);
      }
      ReleaseStickyEffect(next, from + 1);
      assert BitsFrom(from) == Bit(k) + BitsFrom(from + 1);
    }
  }

  /** The modifiers of the latchable keys from a position on. */
  function BitsFrom(from: nat): Mask
    requires from <= |LATCHABLE|
    decreases |LATCHABLE| - from
  {
    if from == |LATCHABLE| then {} else Bit(LATCHABLE[from]) + BitsFrom(from + 1)
  }

  lemma AllBits()
    ensures forall m :: m in BitsFrom(0)
  {
    assert BitsFrom(0) ==
           Bit(LATCHABLE[0]) + (Bit(LATCHABLE[1]) + (Bit(LATCHABLE[2]) + (Bit(LATCHABLE[3]) + BitsFrom(4))));
    forall m ensures m in BitsFrom(0) {
      match m {
        case Shift =>
        case Ctrl =>
        case Alt =>
        case Super =>
      }
    }
  }

  lemma KeySound(r: Router, scancode: nat, pressed: bool)
    requires Sound(r)
    ensures Sound(Key(r, scancode, pressed))
  {
    if pressed {
      ExtraKey(r, Key(r, scancode, true), scancode);
    } else if scancode in r.heldKeys {
      ReleaseKeepsMask(r.remote, scancode);
      var sent := Send(r.(heldKeys := r.heldKeys - {scancode}), scancode, false);
      var after := sent.(heldModifiers := sent.heldModifiers - Bit(scancode));
      forall m | m in after.heldModifiers ensures HeldBy(m, after.heldKeys) {
        var w :| w in r.heldKeys && m in Bit(w);
        assert w in after.heldKeys;
      }
      assert Sound(after);
      if Bit(scancode) == {} {
        assert after == sent;
        ReleaseStickyEffect(sent, 0);
      }
    }
  }

  lemma StickySound(r: Router, scancode: nat, latched: bool)
    requires Sound(r) && !RightHand(scancode)
    ensures Sound(SetSticky(r, scancode, latched))
  {
    if Bit(scancode) != {} {
      if latched {
        ExtraKey(r, SetSticky(r, scancode, true), scancode);
      } else {
        UnlatchSound(r, scancode);
      }
    }
  }

  lemma TapSound(r: Router, scancode: nat)
    requires Sound(r)
    ensures Sound(Tap(r, scancode))
  {
    KeySound(r, scancode, true);
    KeySound(Key(r, scancode, true), scancode, false);
  }

  lemma {:induction false} CommitSound(r: Router, text: seq<Character>)
    requires Sound(r)
    ensures Sound(Commit(r, text))
  {
    if |text| > 0 {
      var front := text[..|text| - 1];
      CommitSound(r, front);
      TapSound(Commit(r, front), KEY_ENTER);
      TapSound(Commit(r, front), KEY_TAB);
    }
  }

  /** `ReleaseAll` lets go of everything the router knows about, and of nothing else. */
  lemma ReleaseAllEffect(r: Router)
    requires Sound(r)
    ensures ReleaseAll(r) == Router({}, {}, {}, {}, Remote({}, {}, {}, r.remote.typed))
  {
    ReleaseStickyEffect(r, 0);
    AllBits();
    var s, after := ReleaseSticky(r, 0), ReleaseAll(r);
    assert s.stickyModifiers == {};
    forall k | k in LATCHABLE ensures !(Bit(k) <= {}) {
    }
    assert after.remote.keys == {};
    forall m | m in s.remote.mask ensures m in BitsOf(s.heldKeys) {
      var w :| w in s.remote.keys && m in Bit(w);
      assert w in s.heldKeys;
    }
    assert after.remote.mask == {};
  }

  lemma OpSound(r: Router, op: Op)
    requires Sound(r) && (op.StickyOp? ==> !RightHand(op.scancode))
    ensures Sound(Do(r, op))
  {
    match op {
      case KeyOp(scancode, pressed) => KeySound(r, scancode, pressed);
      case TapOp(scancode) => TapSound(r, scancode);
      case StickyOp(scancode, latched) => StickySound(r, scancode, latched);
      case TextOp(text) =>
        CommitSound(r, text);
        ReleaseStickyEffect(Commit(r, text), 0);
      case ButtonOp(button, pressed) =>
      case ReleaseAllOp => ReleaseAllEffect(r);
    }
  }

  /**
   No stuck input: over any run whose sticky keys are left-hand ones, what is
   down remotely is held or latched here, and releasing everything leaves no
   key, no button and no modifier bit set on the server.
   */
  lemma {:induction false} NothingStuck(ops: seq<Op>)
    requires forall op :: op in ops && op.StickyOp? ==> !RightHand(op.scancode)
    ensures Sound(DoAll(FRESH, ops))
    ensures var after := ReleaseAll(DoAll(FRESH, ops));
            after.remote.keys == {} && after.remote.buttons == {} && after.remote.mask == {}
  {
    if |ops| > 0 {
      NothingStuck(ops[..|ops| - 1]);
      OpSound(DoAll(FRESH, ops[..|ops| - 1]), ops[|ops| - 1]);
    }
    ReleaseAllEffect(DoAll(FRESH, ops));
  }

  /** The left-hand key of the same family. */
  function LeftOf(scancode: nat): nat
    requires Bit(scancode) != {}
    ensures LeftOf(scancode) in LATCHABLE && Bit(LeftOf(scancode)) == Bit(scancode)
  {
    if scancode == 54 || scancode == KEY_LEFT_SHIFT then KEY_LEFT_SHIFT
    else if scancode == KEY_RIGHT_CTRL || scancode == KEY_LEFT_CTRL then KEY_LEFT_CTRL
    else if scancode == 100 || scancode == KEY_LEFT_ALT then KEY_LEFT_ALT
    else KEY_LEFT_META
  }

  /**
   With a right-hand key `SetSticky` keeps the invariant exactly when, latching,
   that key is also physically held, or, unlatching, the left-hand key is not
   down on the latch's account alone.
   */
  lemma RightHandSticky(r: Router, scancode: nat, latched: bool)
    requires Sound(r) && RightHand(scancode)
    ensures Sound(SetSticky(r, scancode, latched)) <==>
            if latched then scancode in r.heldKeys
            else LeftOf(scancode) in r.remote.keys ==> LeftOf(scancode) in r.heldKeys
  {
    var s, left := SetSticky(r, scancode, latched), LeftOf(scancode);
    if latched {
      assert scancode in s.remote.keys && scancode !in Latched(s.stickyModifiers);
      if scancode in r.heldKeys {
        ExtraKey(r, s, scancode);
      }
    } else {
      ReleaseKeepsMask(r.remote, scancode);
      assert s.remote.keys == r.remote.keys - {scancode} && left != scancode;
      assert left !in Latched(s.stickyModifiers);
      if left in r.remote.keys ==> left in r.heldKeys {
        forall j | j in s.remote.keys ensures j in s.heldKeys + Latched(s.stickyModifiers) {
          if j != left && j in Latched(r.stickyModifiers) {
            LatchablesDiffer(j, left);
          }
        }
        assert Sound(s);
      } else {
        assert left in s.remote.keys;
      }
    }
  }

  /** The latched keys tried from a position on. */
  function LatchedFrom(sticky: Mask, from: nat): set<nat>
    requires from <= |LATCHABLE|
  {
    set k | k in LATCHABLE[from..] && Bit(k) <= sticky
  }

  /** Releasing the latches lets go exactly the latched keys, in any state. */
  lemma {:induction false} LatchesLetGo(r: Router, from: nat)
    requires from <= |LATCHABLE|
    ensures ReleaseSticky(r, from).remote.keys == r.remote.keys - LatchedFrom(r.stickyModifiers, from)
    ensures ReleaseSticky(r, from).heldKeys == r.heldKeys
    decreases |LATCHABLE| - from
  {
    if from < |LATCHABLE| {
      var k := LATCHABLE[from];
      var next := if Bit(k) <= r.stickyModifiers then SetSticky(r, k, false) else r;
      LatchesLetGo(next, from + 1);
      OneLatchLess(r.stickyModifiers, from);
      assert Bit(k) != {};
    }
  }

  lemma OneLatchLess(sticky: Mask, from: nat)
    requires from < |LATCHABLE|
    ensures var k := LATCHABLE[from];
            && LatchedFrom(sticky - Bit(k), from + 1) == LatchedFrom(sticky, from + 1)
            && LatchedFrom(sticky, from) ==
               LatchedFrom(sticky, from + 1) + if Bit(k) <= sticky then {k} else {}
  {
    var k := LATCHABLE[from];
    assert LATCHABLE[from..] == [k] + LATCHABLE[from + 1..];
    forall j | j in LATCHABLE[from + 1..]
      ensures Bit(j) <= sticky - Bit(k) <==> Bit(j) <= sticky
    {
      assert j != k;
      LatchablesDiffer(j, k);
    }
  }

  /** In any state, releasing everything leaves no key down exactly when each was held or latched. */
  lemma ReleaseEmptiesKeysIff(r: Router)
    ensures ReleaseAll(r).remote.keys == {} <==> r.remote.keys <= r.heldKeys + Latched(r.stickyModifiers)
  {
    LatchesLetGo(r, 0);
    assert LATCHABLE[0..] == LATCHABLE;
    assert LatchedFrom(r.stickyModifiers, 0) == Latched(r.stickyModifiers);
    assert ReleaseAll(r).remote.keys == r.remote.keys - Latched(r.stickyModifiers) - r.heldKeys;
    var known := r.heldKeys + Latched(r.stickyModifiers);
    assert r.remote.keys - Latched(r.stickyModifiers) - r.heldKeys == r.remote.keys - known;
    assert r.remote.keys - known == {} <==> forall k :: k in r.remote.keys ==> k !in r.remote.keys - known;
  }

  /** Latching right Ctrl leaves that key down after `ReleaseAll`, which releases left Ctrl instead. */
  lemma RightCtrlStaysDown()
    ensures var after := DoAll(FRESH, [StickyOp(KEY_RIGHT_CTRL, true), ReleaseAllOp]);
            after.remote.keys == {KEY_RIGHT_CTRL} && after.remote.mask == {}
  {
    var op := StickyOp(KEY_RIGHT_CTRL, true);
    var latched := SetSticky(FRESH, KEY_RIGHT_CTRL, true);
    assert [op, ReleaseAllOp][..1] == [op] && [op][..0] == [];
    assert DoAll(FRESH, [op]) == Do(DoAll(FRESH, []), op) == latched;
    assert DoAll(FRESH, [op, ReleaseAllOp]) == Do(DoAll(FRESH, [op]), ReleaseAllOp);
    var s1 := SetSticky(latched, KEY_LEFT_CTRL, false);
    assert latched.remote.keys == {KEY_RIGHT_CTRL};
    assert s1.stickyModifiers == {} && s1.remote.keys == {KEY_RIGHT_CTRL} && s1.remote.mask == {};
  }

  /** Committed text reads the same remotely, newlines and tabs arriving as keys. */
  lemma {:induction false} TextIsTyped(r: Router, text: seq<Character>)
    requires Sound(r)
    ensures Text(r, text).remote.typed == r.remote.typed + SpellAll(text)
  {
    CommitTypes(r, text);
    CommitSound(r, text);
    ReleaseStickyEffect(Commit(r, text), 0);
  }

  lemma {:induction false} CommitTypes(r: Router, text: seq<Character>)
    requires Sound(r)
    ensures Commit(r, text).remote.typed == r.remote.typed + SpellAll(text)
  {
    hide Sound, Tap;
    if |text| > 0 {
      var front, c := text[..|text| - 1], text[|text| - 1];
      var so := Commit(r, front);
      CommitTypes(r, front);
      CommitSound(r, front);
      if c == "\n" || c == "\r" {
        TapTypes(so, KEY_ENTER);
      } else if c == "\t" {
        TapTypes(so, KEY_TAB);
      }
    }
  }

  lemma TapTypes(r: Router, scancode: nat)
    requires Sound(r) && Bit(scancode) == {}
    ensures Tap(r, scancode).remote.typed == r.remote.typed + KeyText(scancode, true)
  {
    var down := Key(r, scancode, true);
    KeySound(r, scancode, true);
    var sent := Send(down.(heldKeys := down.heldKeys - {scancode}), scancode, false);
    ReleaseKeepsMask(down.remote, scancode);
    assert Sound(sent) by {
      forall m | m in sent.heldModifiers ensures HeldBy(m, sent.heldKeys) {
        var w :| w in down.heldKeys && m in Bit(w);
        assert w in sent.heldKeys;
      }
    }
    ReleaseStickyEffect(sent, 0);
  }

  lemma CommitNothing(r: Router)
    ensures Commit(r, []) == r && Say(r, "") == r
  {
    assert r.remote.typed + "" == r.remote.typed;
  }

  lemma CommitNext(r: Router, text: seq<Character>, i: nat)
    requires i < |text|
    ensures Commit(r, text[..0]) == r
    ensures var so, c := Commit(r, text[..i]), text[i];
            Commit(r, text[..i + 1]) ==
            if c == "\n" || c == "\r" then Tap(so, KEY_ENTER) else if c == "\t" then Tap(so, KEY_TAB) else Say(so, c)
  {
    assert text[..i + 1][..i] == text[..i] && text[..0] == [];
  }

  lemma SayTwice(r: Router, a: string, b: string)
    ensures Say(Say(r, a), b) == Say(r, a + b)
  {
    assert (r.remote.typed + a) + b == r.remote.typed + (a + b);
  }

  // ----- The router -----

  class InputRouter {
    var heldModifiers: Mask
    var stickyModifiers: Mask
    var heldKeys: set<nat>
    var heldButtons: set<nat>
    /** The calls made on the client core, in order. */
    var sent: seq<ClientEvent>
    ghost var remote: Remote

    ghost predicate Valid()
      reads this
    {
      remote == HandleAll(IDLE, sent)
    }

    ghost function View(): Router
      reads this
    {
      Router(heldModifiers, stickyModifiers, heldKeys, heldButtons, remote)
    }

    constructor ()
      ensures Valid() && View() == FRESH && sent == []
    {
      heldModifiers, stickyModifiers, heldKeys, heldButtons := {}, {}, {}, {};
      sent, remote := [], IDLE;
    }

    function Modifiers(): Mask
      reads this
    {
      heldModifiers + stickyModifiers
    }

    method Emit(e: ClientEvent)
      requires Valid()
      modifies this`sent, this`remote
      ensures Valid() && sent == old(sent) + [e] && remote == Handle(old(remote), e)
    {
      HandleMore(IDLE, sent, e);
      sent, remote := sent + [e], Handle(remote, e);
    }

    /**
     A key's own event, then the release of latched modifiers by an ordinary
     key. The mask sent with a modifier's press and with its release both
     include that modifier: it is cleared only after the release is sent.
     */
    method KeyEvent(scancode: nat, pressed: bool)
      requires Valid()
      modifies this
      ensures Valid() && View() == Key(old(View()), scancode, pressed)
      ensures !pressed && scancode !in old(heldKeys) ==> sent == old(sent)
      ensures pressed || scancode in old(heldKeys) ==>
                old(sent) + [SendKey(scancode, pressed,
                                     old(Modifiers()) + if pressed then Bit(scancode) else {})] <= sent
    {
      if !pressed && scancode !in heldKeys {
        return;
      }
      var bit := Bit(scancode);
      if bit != {} && pressed {
        heldModifiers := heldModifiers + bit;
      }
      if pressed {
        heldKeys := heldKeys + {scancode};
      } else {
        heldKeys := heldKeys - {scancode};
      }
      assert Modifiers() == old(Modifiers()) + if pressed then bit else {};
      Emit(SendKey(scancode, pressed, Modifiers()));
      if bit != {} && !pressed {
        heldModifiers := heldModifiers - bit;
      }
      if bit == {} && !pressed {
        ReleaseStickyModifiers();
      }
    }

    method TapKey(scancode: nat)
      requires Valid()
      modifies this
      ensures Valid() && View() == Tap(old(View()), scancode)
    {
      KeyEvent(scancode, true);
      KeyEvent(scancode, false);
    }

    method SetStickyKey(scancode: nat, latched: bool)
      requires Valid()
      modifies this`stickyModifiers, this`sent, this`remote
      ensures Valid() && View() == SetSticky(old(View()), scancode, latched)
      // The event carries the mask with the latch already set or cleared.
      ensures sent == old(sent) +
                if Bit(scancode) == {} then []
                else [SendKey(scancode, latched,
                              if latched then old(Modifiers()) + Bit(scancode)
                              else heldModifiers + (old(stickyModifiers) - Bit(scancode)))]
    {
      var bit := Bit(scancode);
      if bit == {} {
        return;
      }
      if latched {
        stickyModifiers := stickyModifiers + bit;
        assert Modifiers() == old(Modifiers()) + bit;
      } else {
        stickyModifiers := stickyModifiers - bit;
      }
      Emit(SendKey(scancode, latched, Modifiers()));
    }

    method ReleaseStickyModifiers()
      requires Valid()
      modifies this`stickyModifiers, this`sent, this`remote
      ensures Valid() && View() == ReleaseSticky(old(View()), 0)
      ensures old(sent) <= sent
    {
      if stickyModifiers == {} {
        NothingLatched(View(), 0);
        return;
      }
      for i := 0 to |LATCHABLE|
        invariant Valid() && old(sent) <= sent
        invariant ReleaseSticky(View(), i) == ReleaseSticky(old(View()), 0)
      {
        if Bit(LATCHABLE[i]) <= stickyModifiers {
          SetStickyKey(LATCHABLE[i], false);
        }
      }
    }

    /** Characters between two keys travel together; a line break or tab becomes a key tap. */
    method TextInput(text: seq<Character>)
      requires Valid()
      modifies this
      ensures Valid() && View() == Text(old(View()), text)
    {
      var buffer := "";
      ghost var r := View();
      CommitNothing(r);
      hide Commit, Tap, ReleaseSticky, HandleAll;
      for i := 0 to |text|
        invariant Valid()
        invariant Say(View(), buffer) == Commit(r, text[..i])
      {
        ghost var start, done := View(), buffer;
        var c := text[i];
        CommitNext(r, text, i);
        if c == "\n" || c == "\r" || c == "\t" {
          if buffer != "" {
            Emit(SendText(buffer));
            buffer := "";
          }
          assert View() == Say(start, done);
          TapKey(if c == "\t" then KEY_TAB else KEY_ENTER);
          assert Say(View(), "") == View();
        } else {
          buffer := buffer + c;
          SayTwice(start, done, c);
        }
      }
      assert text[..|text|] == text;
      if buffer != "" {
        Emit(SendText(buffer));
      } else {
        assert Say(View(), "") == View();
      }
      assert View() == Commit(r, text);
      ReleaseStickyModifiers();
    }

    method ButtonEvent(button: nat, pressed: bool)
      requires Valid()
      modifies this
      ensures Valid() && View() == Button(old(View()), button, pressed)
    {
      if pressed {
        heldButtons := heldButtons + {button};
      } else {
        heldButtons := heldButtons - {button};
      }
      Emit(SendButton(button, pressed));
    }

    /** Release everything still held; sets are walked in any order. */
    method ReleaseEverything()
      requires Valid()
      modifies this
      ensures Valid() && View() == ReleaseAll(old(View()))
    {
      hide ReleaseSticky, HandleAll, BitsOf;
      ReleaseStickyModifiers();
      ghost var s := View();
      var buttons := heldButtons;
      while buttons != {}
        invariant Valid() && buttons <= heldButtons
        invariant View() == s.(remote := s.remote.(buttons := s.remote.buttons - (heldButtons - buttons)))
      {
        var b :| b in buttons;
        Emit(SendButton(b, false));
        buttons := buttons - {b};
      }
      heldButtons := {};
      var keys := heldKeys;
      BitsOfMore({}, 0);
      assert s.heldKeys - keys == {};
      while keys != {}
        invariant Valid() && keys <= heldKeys && heldKeys == s.heldKeys
        invariant View() == s.(heldButtons := {}, remote := Remote(
                    s.remote.keys - (s.heldKeys - keys), s.remote.buttons - s.heldButtons,
                    s.remote.mask - BitsOf(s.heldKeys - keys), s.remote.typed))
      {
        var k :| k in keys;
        Emit(SendKey(k, false, {}));
        BitsOfMore(s.heldKeys - keys, k);
        assert s.heldKeys - (keys - {k}) == (s.heldKeys - keys) + {k};
        keys := keys - {k};
      }
      heldKeys := {};
      heldModifiers := {};
      assert s.heldKeys - {} == s.heldKeys;
    }
  }

  lemma BitsOfMore(keys: set<nat>, k: nat)
    ensures BitsOf(keys + {k}) == BitsOf(keys) + Bit(k) && BitsOf({}) == {}
  {
  }

  lemma {:induction false} NothingLatched(r: Router, from: nat)
    requires r.stickyModifiers == {} && from <= |LATCHABLE|
    ensures ReleaseSticky(r, from) == r
    decreases |LATCHABLE| - from
  {
    if from < |LATCHABLE| {
      assert Bit(LATCHABLE[from]) != {};
      NothingLatched(r, from + 1);
    }
  }

  // ----- End to end -----

  /** The server's injector, fed the client's events in order, follows `HandleAll`. */
  method Serve(injector: TextInjection.InputInjector, events: seq<ClientEvent>)
    requires injector.InStep() && injector.modsDepressed == {} && injector.board.down == {}
    modifies injector
    ensures injector.InStep()
    ensures injector.modsDepressed == HandleAll(IDLE, events).mask
    ensures injector.board.down <= HandleAll(IDLE, events).keys
  {
    for i := 0 to |events|
      invariant injector.InStep()
      invariant injector.modsDepressed == HandleAll(IDLE, events[..i]).mask
      invariant injector.board.down <= HandleAll(IDLE, events[..i]).keys
    {
      assert events[..i + 1] == events[..i] + [events[i]];
      HandleMore(IDLE, events[..i], events[i]);
      match events[i] {
        case SendKey(scancode, pressed, _) =>
          injector.KeyEvent(scancode, pressed);
        case SendText(text) =>
          var _, _ := injector.Text(text);
        case SendButton(_, _) =>
      }
    }
    assert events[..|events|] == events;
  }

  /** The whole path: whatever was done, after `ReleaseEverything` the server holds no key and no modifier. */
  method Detach(router: InputRouter, ghost ops: seq<Op>, injector: TextInjection.InputInjector)
    requires router.Valid() && router.View() == DoAll(FRESH, ops)
    requires forall op :: op in ops && op.StickyOp? ==> !RightHand(op.scancode)
    requires injector.InStep() && injector.modsDepressed == {} && injector.board.down == {}
    modifies router, injector
    ensures injector.modsDepressed == {} && injector.board.mask == {} && injector.board.down == {}
  {
    router.ReleaseEverything();
    NothingStuck(ops);
    Serve(injector, router.sent);
  }
}
