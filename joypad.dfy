// The P1/JOYP register and the eight Game Boy buttons (core/src/joypad.rs).
// Host key codes are abstracted to the button each key is mapped to.
module Joypad {
  import opened Bits

  datatype Button = Right | Left | Up | Down | ButtonA | ButtonB | Select | Start

  /** `JoypadState`: true while a button is held. */
  datatype JoypadState = JoypadState(
    right: bool, left: bool, up: bool, down: bool,
    a: bool, b: bool, select: bool, start: bool)

  function NoneHeld(): JoypadState
  {
    JoypadState(false, false, false, false, false, false, false, false)
  }

  function Held(s: JoypadState, btn: Button): bool
  {
    match btn
    case Right => s.right
    case Left => s.left
    case Up => s.up
    case Down => s.down
    case ButtonA => s.a
    case ButtonB => s.b
    case Select => s.select
    case Start => s.start
  }

  /** The direction group is selected by P1 bit 4, the action group by bit 5. */
  predicate IsDirection(btn: Button)
  {
    btn.Right? || btn.Left? || btn.Up? || btn.Down?
  }

  /** The P1 input line a button pulls low: A and Right bit 0, B and Left
      bit 1, Select and Up bit 2, Start and Down bit 3. */
  function Line(btn: Button): (k: nat)
    ensures k < 4
  {
    match btn
    case Right => 0
    case ButtonA => 0
    case Left => 1
    case ButtonB => 1
    case Up => 2
    case Select => 2
    case Down => 3
    case Start => 3
  }

  function ActionOn(k: nat): (btn: Button)
    requires k < 4
    ensures !IsDirection(btn) && Line(btn) == k
  {
    if k == 0 then ButtonA else if k == 1 then ButtonB else if k == 2 then Select else Start
  }

  function DirectionOn(k: nat): (btn: Button)
    requires k < 4
    ensures IsDirection(btn) && Line(btn) == k
  {
    if k == 0 then Right else if k == 1 then Left else if k == 2 then Up else Down
  }

  /** The group of `btn` is selected: its select bit of P1 is low. */
  predicate GroupSelected(selection: bv8, btn: Button)
  {
    if IsDirection(btn) then selection & 0x10 == 0 else selection & 0x20 == 0
  }

  /** Input line `k` reads low: a held button on it belongs to a selected group. */
  predicate LineLow(s: JoypadState, selection: bv8, k: nat)
    requires k < 4
  {
    (GroupSelected(selection, ActionOn(k)) && Held(s, ActionOn(k)))
    || (GroupSelected(selection, DirectionOn(k)) && Held(s, DirectionOn(k)))
  }

  /** A line is low exactly when some held button of a selected group sits on it. */
  lemma LineLowIffHeldSelected(s: JoypadState, selection: bv8, btn: Button)
    ensures LineLow(s, selection, Line(btn)) <==>
      exists other: Button :: Line(other) == Line(btn) && Held(s, other) && GroupSelected(selection, other)
    ensures Held(s, btn) && GroupSelected(selection, btn) ==> LineLow(s, selection, Line(btn))
  {
    var k := Line(btn);
    if LineLow(s, selection, k) {
      if GroupSelected(selection, ActionOn(k)) && Held(s, ActionOn(k)) {
        assert Line(ActionOn(k)) == k;
      } else {
        assert Line(DirectionOn(k)) == k;
      }
    }
    assert IsDirection(btn) ==> btn == DirectionOn(k);
    assert !IsDirection(btn) ==> btn == ActionOn(k);
  }

  /** A group's four lines as a nibble: bit k is 0 when the button on line k is held. */
  function GroupNibble(b0: bool, b1: bool, b2: bool, b3: bool): bv8
  {
    (if b0 then 0 else 1) | (if b1 then 0 else 2) | (if b2 then 0 else 4) | (if b3 then 0 else 8)
  }

  /** The action lines: all high unless P1 bit 5 is low. */
  function ActionLines(s: JoypadState, selection: bv8): bv8
  {
    if selection & 0x20 == 0 then GroupNibble(s.a, s.b, s.select, s.start) else 0x0F
  }

  /** The direction lines: all high unless P1 bit 4 is low. */
  function DirectionLines(s: JoypadState, selection: bv8): bv8
  {
    if selection & 0x10 == 0 then GroupNibble(s.right, s.left, s.up, s.down) else 0x0F
  }

  /** The value `read_p1` returns: the input lines of both groups wired
      together (a low line in either reads low) in bits 0-3, the selection
      in bits 4-5, and bits 6-7 reading 1. */
  function P1(s: JoypadState, selection: bv8): (r: bv8)
    ensures r & 0xC0 == 0xC0
    ensures r & 0x30 == selection & 0x30
    ensures selection & 0x30 == 0x30 ==> r & 0x0F == 0x0F
  {
    (ActionLines(s, selection) & DirectionLines(s, selection)) | selection | 0xC0
  }

  /** Each input bit of P1 is 0 exactly when its line is pulled low by a
      held button of a selected group. */
  lemma P1Lines(s: JoypadState, selection: bv8, k: nat)
    requires selection & 0x0F == 0 && k < 4
    ensures BitSet(P1(s, selection), k) <==> !LineLow(s, selection, k)
  {
    ActionLineBit(s, selection, k);
    DirectionLineBit(s, selection, k);
    WiredLines(ActionLines(s, selection), DirectionLines(s, selection), selection, k);
  }

  /** Bit k of the action lines is clear exactly when the action button on
      line k is held and the action group is selected. */
  lemma ActionLineBit(s: JoypadState, selection: bv8, k: nat)
    requires k < 4
    ensures ActionLines(s, selection) & 0xF0 == 0
    ensures BitSet(ActionLines(s, selection), k) <==>
      !(GroupSelected(selection, ActionOn(k)) && Held(s, ActionOn(k)))
  {
    GroupLine(s.a, s.b, s.select, s.start, k);
  }

  /** Bit k of the direction lines is clear exactly when the direction
      button on line k is held and the direction group is selected. */
  lemma DirectionLineBit(s: JoypadState, selection: bv8, k: nat)
    requires k < 4
    ensures DirectionLines(s, selection) & 0xF0 == 0
    ensures BitSet(DirectionLines(s, selection), k) <==>
      !(GroupSelected(selection, DirectionOn(k)) && Held(s, DirectionOn(k)))
  {
    GroupLine(s.right, s.left, s.up, s.down, k);
  }

  /** Bit k of a group nibble is clear exactly when line k's button is held. */
  lemma GroupLine(b0: bool, b1: bool, b2: bool, b3: bool, k: nat)
    requires k < 4
    ensures BitSet(GroupNibble(b0, b1, b2, b3), k) <==> !(if k == 0 then b0 else if k == 1 then b1 else if k == 2 then b2 else b3)
    ensures GroupNibble(b0, b1, b2, b3) & 0xF0 == 0
  {
  }

  /** Two groups of lines wired together: a P1 input bit is set only when
      it is set in both groups; the selection and the top bits do not reach
      bits 0-3. */
  lemma WiredLines(act: bv8, dir: bv8, selection: bv8, k: nat)
    requires act & 0xF0 == 0 && dir & 0xF0 == 0 && selection & 0x0F == 0 && k < 4
    ensures BitSet((act & dir) | selection | 0xC0, k) <==> BitSet(act, k) && BitSet(dir, k)
  {
  }

  /** `key_down` on the button state: `btn` becomes held, the rest stay. */
  function Press(s: JoypadState, btn: Button): JoypadState
  {
    match btn
    case Right => s.(right := true)
    case Left => s.(left := true)
    case Up => s.(up := true)
    case Down => s.(down := true)
    case ButtonA => s.(a := true)
    case ButtonB => s.(b := true)
    case Select => s.(select := true)
    case Start => s.(start := true)
  }

  /** `key_up` on the button state: `btn` is released, the rest stay. */
  function Release(s: JoypadState, btn: Button): JoypadState
  {
    match btn
    case Right => s.(right := false)
    case Left => s.(left := false)
    case Up => s.(up := false)
    case Down => s.(down := false)
    case ButtonA => s.(a := false)
    case ButtonB => s.(b := false)
    case Select => s.(select := false)
    case Start => s.(start := false)
  }

  /** `key_down` holds exactly `btn` in addition to what was held. */
  lemma PressHolds(s: JoypadState, btn: Button, other: Button)
    ensures Held(Press(s, btn), other) == (other == btn || Held(s, other))
  {
    match btn {
      case Right =>
      case Left =>
      case Up =>
      case Down =>
      case ButtonA =>
      case ButtonB =>
      case Select =>
      case Start =>
    }
  }

  /** `key_up` releases exactly `btn` and leaves the other buttons as they were. */
  lemma ReleaseReleases(s: JoypadState, btn: Button, other: Button)
    ensures Held(Release(s, btn), other) == (other != btn && Held(s, other))
  {
    match btn {
      case Right =>
      case Left =>
      case Up =>
      case Down =>
      case ButtonA =>
      case ButtonB =>
      case Select =>
      case Start =>
    }
  }

  /** Whether `key_down` asks for the joypad interrupt: the button was up and
      its group is selected. */
  predicate RequestsInterrupt(s: JoypadState, selection: bv8, btn: Button)
  {
    !Held(s, btn) && GroupSelected(selection, btn)
  }

  /** Pressing a button and releasing it again restores the state it had
      when the button was up. */
  lemma PressThenRelease(s: JoypadState, btn: Button)
    requires !Held(s, btn)
    ensures Release(Press(s, btn), btn) == s
  {
    match btn {
      case Right =>
      case Left =>
      case Up =>
      case Down =>
      case ButtonA =>
      case ButtonB =>
      case Select =>
      case Start =>
    }
  }

  /** One `if self.state.x { joypad_value &= mask }` block of `read_p1`:
      each held button of the group clears its line bit. */
  method ClearHeldLines(v: bv8, b0: bool, b1: bool, b2: bool, b3: bool) returns (w: bv8)
    requires v & 0xF0 == 0
    ensures w == v & GroupNibble(b0, b1, b2, b3)
  {
    w := v;
    if b0 { w := w & 0x0E; }
    if b1 { w := w & 0x0D; }
    if b2 { w := w & 0x0B; }
    if b3 { w := w & 0x07; }
  }

  /** `Joypad`: the button state and the P1 selection bits the game wrote. */
  class Joypad {
    var state: JoypadState
    var selection: bv8

    /** Only bits 4 and 5 of the selection are ever stored. */
    predicate Valid()
      reads this
    {
      selection & 0xCF == 0
    }

    constructor ()
      ensures Valid() && state == NoneHeld() && selection == 0x30
    {
      state := NoneHeld();
      selection := 0x30;
    }

    method ReadP1() returns (v: bv8)
      ensures v == P1(state, selection)
    {
      v := 0x0F;
      if selection & 0x20 == 0 {
        v := ClearHeldLines(v, state.a, state.b, state.select, state.start);
      }
      if selection & 0x10 == 0 {
        v := ClearHeldLines(v, state.right, state.left, state.up, state.down);
      }
      v := v | selection | 0xC0;
    }

    method WriteP1(value: bv8)
      modifies this
      ensures Valid() && selection == value & 0x30 && state == old(state)
    {
      selection := value & 0x30;
    }

    method KeyDown(btn: Button) returns (interrupt: bool)
      modifies this
      ensures state == Press(old(state), btn) && selection == old(selection)
      ensures interrupt == RequestsInterrupt(old(state), selection, btn)
    {
      var newlyPressed := Hold(btn);
      var selectionActive := false;
      if IsDirection(btn) {
        if selection & 0x10 == 0 { selectionActive := true; }
      } else {
        if selection & 0x20 == 0 { selectionActive := true; }
      }
      interrupt := newlyPressed && selectionActive;
    }

    /** The per-button arms of `key_down`: mark the button held and report
        whether it was up before. */
    method Hold(btn: Button) returns (newlyPressed: bool)
      modifies this
      ensures state == Press(old(state), btn) && selection == old(selection)
      ensures newlyPressed == !Held(old(state), btn)
    {
      newlyPressed := false;
      match btn {
        case Right => if !state.right { newlyPressed := true; state := state.(right := true); }
        case Left => if !state.left { newlyPressed := true; state := state.(left := true); }
        case Up => if !state.up { newlyPressed := true; state := state.(up := true); }
        case Down => if !state.down { newlyPressed := true; state := state.(down := true); }
        case ButtonA => if !state.a { newlyPressed := true; state := state.(a := true); }
        case ButtonB => if !state.b { newlyPressed := true; state := state.(b := true); }
        case Select => if !state.select { newlyPressed := true; state := state.(select := true); }
        case Start => if !state.start { newlyPressed := true; state := state.(start := true); }
      }
    }

    method KeyUp(btn: Button)
      modifies this
      ensures state == Release(old(state), btn) && selection == old(selection)
    {
      match btn {
        case Right => state := state.(right := false);
        case Left => state := state.(left := false);
        case Up => state := state.(up := false);
        case Down => state := state.(down := false);
        case ButtonA => state := state.(a := false);
        case ButtonB => state := state.(b := false);
        case Select => state := state.(select := false);
        case Start => state := state.(start := false);
      }
    }
  }
}
