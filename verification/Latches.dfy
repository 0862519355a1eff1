/**
 What each operation of the iOS input router does to the server
 (ios/Termland/InputRouter.swift), from any state: which keys, buttons and
 modifier bits are down there afterwards, and what is left of the latched
 on-screen modifiers. Latches last until an ordinary key is released or text has
 been committed, and a modifier's own release leaves them alone.
 */
module Latches {
  import opened InputRouting
  import TextInjection

  /** The modifier keys of either hand, and no others. */
  lemma ModifierKeys(scancode: nat)
    ensures TextInjection.Shift in Bit(scancode) <==> scancode == KEY_LEFT_SHIFT || scancode == 54
    ensures TextInjection.Ctrl in Bit(scancode) <==> scancode == KEY_LEFT_CTRL || scancode == KEY_RIGHT_CTRL
    ensures TextInjection.Alt in Bit(scancode) <==> scancode == KEY_LEFT_ALT || scancode == 100
    ensures TextInjection.Super in Bit(scancode) <==> scancode == KEY_LEFT_META || scancode == 126
  {
  }

  // ----- Latches let go -----

  /** The bits of the latched keys tried from a position on. */
  function LatchedBits(sticky: Mask, from: nat): Mask
    requires from <= |LATCHABLE|
  {
    BitsOf(LatchedFrom(sticky, from))
  }

  lemma BitsApart(a: set<nat>, b: set<nat>)
    ensures BitsOf(a + b) == BitsOf(a) + BitsOf(b)
  {
  }

  /** Releasing the latches takes their keys and bits away, and nothing else, in any state. */
  lemma {:induction false} LatchesClear(r: Router, from: nat)
    requires from <= |LATCHABLE|
    ensures var s, bits := ReleaseSticky(r, from), LatchedBits(r.stickyModifiers, from);
            && s == r.(stickyModifiers := r.stickyModifiers - bits, remote := s.remote)
            && s.remote.buttons == r.remote.buttons
            && s.remote.keys == r.remote.keys - LatchedFrom(r.stickyModifiers, from)
            && s.remote.mask == r.remote.mask - bits
    decreases |LATCHABLE| - from
  {
    LatchesLetGo(r, from);
    if from == |LATCHABLE| {
      assert LatchedFrom(r.stickyModifiers, from) == {};
    } else {
      var k := LATCHABLE[from];
      var next := if Bit(k) <= r.stickyModifiers then SetSticky(r, k, false) else r;
      LatchesClear(next, from + 1);
      OneLatchLess(r.stickyModifiers, from);
      assert Bit(k) != {};
      BitsApart(LatchedFrom(r.stickyModifiers, from + 1), if Bit(k) <= r.stickyModifiers then {k} else {});
      assert BitsOf({k}) == Bit(k) && BitsOf({}) == {};
    }
  }

  lemma AllLatched(sticky: Mask)
    ensures LatchedFrom(sticky, 0) == Latched(sticky) && LatchedBits(sticky, 0) == sticky
  {
    assert LATCHABLE[0..] == LATCHABLE;
    forall m | m in sticky ensures m in LatchedBits(sticky, 0) {
      var k := match m
               case Shift => KEY_LEFT_SHIFT
               case Ctrl => KEY_LEFT_CTRL
               case Alt => KEY_LEFT_ALT
               case Super => KEY_LEFT_META;
      assert Bit(k) == {m};
      assert k == LATCHABLE[match m case Ctrl => 0 case Alt => 1 case Shift => 2 case Super => 3];
      assert k in LatchedFrom(sticky, 0);
    }
  }

  /** After the latches are released none is left, and just their keys and bits are gone from the server. */
  lemma LatchesReleased(r: Router)
    ensures var s := ReleaseSticky(r, 0);
            && s.stickyModifiers == {} && s.heldModifiers == r.heldModifiers
            && s.heldKeys == r.heldKeys && s.heldButtons == r.heldButtons
            && s.remote.keys == r.remote.keys - Latched(r.stickyModifiers)
            && s.remote.mask == r.remote.mask - r.stickyModifiers && s.remote.buttons == r.remote.buttons
  {
    LatchesClear(r, 0);
    AllLatched(r.stickyModifiers);
  }

  // ----- Keys -----

  /** A press is down remotely, with its bit, and changes no latch. */
  lemma KeyPressed(r: Router, scancode: nat)
    ensures var after := Key(r, scancode, true);
            && after.stickyModifiers == r.stickyModifiers && after.heldButtons == r.heldButtons
            && after.heldKeys == r.heldKeys + {scancode} && after.heldModifiers == r.heldModifiers + Bit(scancode)
            && after.remote.keys == r.remote.keys + {scancode}
            && after.remote.mask == r.remote.mask + Bit(scancode) && after.remote.buttons == r.remote.buttons
  {
  }

  /** The release of a key that is not held is dropped. */
  lemma UnheldRelease(r: Router, scancode: nat)
    requires scancode !in r.heldKeys
    ensures Key(r, scancode, false) == r
  {
  }

  /** The release of a held ordinary key uses the latches up: it and their keys are up, held modifiers stay. */
  lemma OrdinaryKeyReleased(r: Router, scancode: nat)
    requires scancode in r.heldKeys && Bit(scancode) == {}
    ensures var after := Key(r, scancode, false);
            && after.stickyModifiers == {} && after.heldModifiers == r.heldModifiers
            && after.heldKeys == r.heldKeys - {scancode} && after.heldButtons == r.heldButtons
            && after.remote.keys == r.remote.keys - {scancode} - Latched(r.stickyModifiers)
            && after.remote.mask == r.remote.mask - r.stickyModifiers && after.remote.buttons == r.remote.buttons
  {
    LatchesReleased(Send(r.(heldKeys := r.heldKeys - {scancode}), scancode, false));
  }

  /** A modifier's own release leaves every latch as it was. */
  lemma ModifierReleased(r: Router, scancode: nat)
    requires scancode in r.heldKeys && Bit(scancode) != {}
    ensures var after := Key(r, scancode, false);
            && after.stickyModifiers == r.stickyModifiers && after.heldModifiers == r.heldModifiers - Bit(scancode)
            && after.heldKeys == r.heldKeys - {scancode} && after.heldButtons == r.heldButtons
            && after.remote.keys == r.remote.keys - {scancode}
            && after.remote.mask == r.remote.mask - Bit(scancode) && after.remote.buttons == r.remote.buttons
  {
  }

  /** From a sound state: what is down after an ordinary key's release is physically held. */
  lemma NothingOnLatchesAlone(r: Router, scancode: nat)
    requires Sound(r) && scancode in r.heldKeys && Bit(scancode) == {}
    ensures Key(r, scancode, false).remote.keys <= r.heldKeys - {scancode}
  {
    OrdinaryKeyReleased(r, scancode);
  }

  /** Latching presses the key, unlatching releases it; ordinary keys cannot be latched. */
  lemma LatchHolds(r: Router, scancode: nat, latched: bool)
    ensures var after := SetSticky(r, scancode, latched);
            if Bit(scancode) == {} then after == r
            else
              && after.heldModifiers == r.heldModifiers && after.heldKeys == r.heldKeys
              && after.heldButtons == r.heldButtons && after.remote.buttons == r.remote.buttons
              && (if latched then
                    after.stickyModifiers == r.stickyModifiers + Bit(scancode)
                    && after.remote.keys == r.remote.keys + {scancode}
                    && after.remote.mask == r.remote.mask + Bit(scancode)
                  else
                    after.stickyModifiers == r.stickyModifiers - Bit(scancode)
                    && after.remote.keys == r.remote.keys - {scancode}
                    && after.remote.mask == r.remote.mask - Bit(scancode))
  {
  }

  /** A shortcut typed with an on-screen modifier: it is down with the key, and up after it. */
  lemma LatchedShortcut(r: Router, modifier: nat, key: nat)
    requires modifier in LATCHABLE && Bit(key) == {}
    ensures var down := Key(SetSticky(r, modifier, true), key, true);
            var up := Key(down, key, false);
            && {modifier, key} <= down.remote.keys && Bit(modifier) <= down.remote.mask
            && modifier !in up.remote.keys && key !in up.remote.keys && up.remote.mask !! Bit(modifier)
            && up.stickyModifiers == {}
  {
    var latched := SetSticky(r, modifier, true);
    LatchHolds(r, modifier, true);
    assert Bit(modifier) != {};
    KeyPressed(latched, key);
    OrdinaryKeyReleased(Key(latched, key, true), key);
  }

  // ----- Text -----

  /** The keys that committed text taps. */
  function Taps(text: seq<Character>): set<nat> {
    if |text| == 0 then {}
    else
      var c := text[|text| - 1];
      Taps(text[..|text| - 1])
      + if c == "\n" || c == "\r" then {KEY_ENTER} else if c == "\t" then {KEY_TAB} else {}
  }

  lemma Tapped(r: Router, scancode: nat)
    requires Bit(scancode) == {}
    ensures var after := Tap(r, scancode);
            && after.stickyModifiers == {} && after.heldModifiers == r.heldModifiers
            && after.heldKeys == r.heldKeys - {scancode} && after.heldButtons == r.heldButtons
            && after.remote.keys == r.remote.keys - {scancode} - Latched(r.stickyModifiers)
            && after.remote.mask == r.remote.mask - r.stickyModifiers && after.remote.buttons == r.remote.buttons
  {
    KeyPressed(r, scancode);
    OrdinaryKeyReleased(Key(r, scancode, true), scancode);
  }

  /** As long as nothing was tapped only text has gone out; the first tap uses the latches up. */
  lemma {:induction false} Committed(r: Router, text: seq<Character>)
    ensures var after, taps := Commit(r, text), Taps(text);
            && after.heldModifiers == r.heldModifiers && after.heldButtons == r.heldButtons
            && after.remote.buttons == r.remote.buttons
            && (if taps == {} then after == r.(remote := r.remote.(typed := after.remote.typed))
                else
                  && after.stickyModifiers == {} && after.heldKeys == r.heldKeys - taps
                  && after.remote.keys == r.remote.keys - taps - Latched(r.stickyModifiers)
                  && after.remote.mask == r.remote.mask - r.stickyModifiers)
  {
    hide Tap, Latched;
    if |text| > 0 {
      var front, c := text[..|text| - 1], text[|text| - 1];
      var so := Commit(r, front);
      Committed(r, front);
      NoLatches();
      if c == "\n" || c == "\r" {
        Tapped(so, KEY_ENTER);
      } else if c == "\t" {
        Tapped(so, KEY_TAB);
      }
    }
  }

  lemma NoLatches()
    ensures Latched({}) == {}
  {
    forall k | k in LATCHABLE ensures Bit(k) != {} {
    }
  }

  /**
   Committed text uses the latches up, whether or not it taps a key: their keys
   and bits are gone from the server, the keys tapped are up, and everything else
   that was held stays.
   */
  lemma TextReleasesLatches(r: Router, text: seq<Character>)
    ensures var after := Text(r, text);
            && after.stickyModifiers == {} && after.heldModifiers == r.heldModifiers
            && after.heldKeys == r.heldKeys - Taps(text) && after.heldButtons == r.heldButtons
            && after.remote.keys == r.remote.keys - Taps(text) - Latched(r.stickyModifiers)
            && after.remote.mask == r.remote.mask - r.stickyModifiers && after.remote.buttons == r.remote.buttons
  {
    Committed(r, text);
    LatchesReleased(Commit(r, text));
    NoLatches();
  }

  // ----- Buttons -----

  /** A press is down here and remotely until its release, and touches nothing else. */
  lemma ButtonPressed(r: Router, button: nat, pressed: bool)
    ensures var after := Button(r, button, pressed);
            && (button in after.remote.buttons <==> pressed) && (button in after.heldButtons <==> pressed)
            && (forall b :: b != button ==>
                  (b in after.remote.buttons <==> b in r.remote.buttons)
                  && (b in after.heldButtons <==> b in r.heldButtons))
            && after.remote.keys == r.remote.keys && after.remote.mask == r.remote.mask
            && after.stickyModifiers == r.stickyModifiers && after.heldKeys == r.heldKeys
  {
  }
}
