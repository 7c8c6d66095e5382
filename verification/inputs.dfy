/** The input devices of zendriver_flare_bypasser/core/inputs.py: `Keyboard`,
    `Mouse` and `Touchscreen`. Each sends protocol commands through its tab;
    here a `Tab` keeps the log of the events it was asked to send. */
module Inputs {
  import opened Wrappers
  import opened KeyDefinitions

  // ---------------------------------------------------------------------------
  // Modifier bits

  /** The keyboard's modifier mask `_modifiers`. Python holds it in an int that
      only ever has the four bits of `ModifierBit` set (`ModifiersStayInRange`),
      so eight bits represent it exactly, and `|`, `& ~` and `&` are the
      bit-vector operations. */
  type Modifiers = bv8

  predicate IsBit(b: Modifiers) {
    b == 0 || b == 1 || b == 2 || b == 4 || b == 8
  }

  /** `m & 8`: Shift is held. */
  predicate ShiftHeld(m: Modifiers) {
    m & 8 != 0
  }

  /** `m & ~8 != 0`: a modifier other than Shift is held. */
  predicate OtherThanShift(m: Modifiers) {
    m & !8 != 0
  }

  /** `Keyboard._modifier_bit(key)`. */
  function ModifierBit(key: string): (r: Modifiers)
    ensures IsBit(r)
    ensures r == 0 <==> !IsModifierKey(key)
    ensures key == "Alt" <==> r == 1
    ensures key == "Control" <==> r == 2
    ensures key == "Meta" <==> r == 4
    ensures key == "Shift" <==> r == 8
  {
    if key == "Alt" then 1
    else if key == "Control" then 2
    else if key == "Meta" then 4
    else if key == "Shift" then 8
    else 0
  }

  /** Setting or clearing a modifier bit keeps the mask within 0..15: only the
      bits for Alt, Control, Meta and Shift are ever set. */
  lemma ModifiersStayInRange(m: Modifiers, b: Modifiers)
    requires m < 16 && IsBit(b)
    ensures m | b < 16 && m & !b < 16
  {
  }

  /** The four modifier keys own four different bits: holding one and
      releasing another leaves the first held. */
  lemma ModifierBitsDistinct(m: Modifiers, held: string, released: string)
    requires IsModifierKey(held) && IsModifierKey(released) && held != released
    ensures ModifierBit(held) & ModifierBit(released) == 0
    ensures ((m | ModifierBit(held)) & !ModifierBit(released)) & ModifierBit(held) == ModifierBit(held)
  {
  }

  /** Setting and clearing a modifier bit set or clear exactly that bit, and
      clearing undoes a set of a bit that was clear: a modifier key's `up`
      restores the mask its `down` changed. */
  lemma ModifierBitUpdates(m: Modifiers, b: Modifiers)
    requires IsBit(b)
    ensures b != 0 ==> (m | b) & b == b && (m & !b) & b == 0
    ensures m & b == 0 ==> (m | b) & !b == m
    ensures b != 8 ==> (ShiftHeld(m | b) <==> ShiftHeld(m)) && (ShiftHeld(m & !b) <==> ShiftHeld(m))
  {
  }

  // ---------------------------------------------------------------------------
  // Key descriptions

  /** The dictionary `_key_description_for_string` returns. */
  datatype Description = Description(key: string, keyCode: int, code: string, text: string, location: int)

  /** `Exception(f'Unknown key: {keyString}')`. */
  datatype InputError = UnknownKey(key: string)

  /** A set option whose value is truthy. */
  predicate NonEmptyText(s: Option<string>) {
    s.Some? && s.value != ""
  }

  /** `Keyboard._key_description_for_string(keyString)` under the modifier
      mask `modifiers`. */
  function KeyDescriptionForString(modifiers: Modifiers, keyString: string): (r: Result<Description, InputError>)
    ensures r.Failure? <==> KeyDefinition(keyString).None? || KeyDefinition(keyString).value == KeyDef()
    ensures r.Failure? ==> r.error == UnknownKey(keyString)
  {
    var definition := KeyDefinition(keyString);
    if definition.None? || definition.value == KeyDef() then
      Failure(UnknownKey(keyString))
    else
      var d := definition.value;
      var shift := ShiftHeld(modifiers);
      var key := if shift && NonEmptyText(d.shiftKey) then d.shiftKey.value else d.key.GetOr("");
      var keyCode :=
        if shift && d.shiftKeyCode.Some? && d.shiftKeyCode.value != 0 then d.shiftKeyCode.value
        else d.keyCode.GetOr(0);
      var singleCharText := if |key| == 1 then key else "";
      var definedText := if d.text.Some? then d.text.value else singleCharText;
      var shiftedText := if shift && NonEmptyText(d.shiftText) then d.shiftText.GetOr("") else definedText;
      var text := if OtherThanShift(modifiers) then "" else shiftedText;
      Success(Description(key, keyCode, d.code.GetOr(""), text, d.location.GetOr(0)))
  }

  /** The code and location come from the table whatever the modifiers;
      Shift selects the Shift variant of the key and of the key code when the
      table has a non-empty one, and otherwise they are the table's; Alt,
      Control or Meta held suppress the text; otherwise a non-empty Shift text
      wins under Shift, then the table's text, then the key itself when it is
      one character. */
  lemma KeyDescriptionFacts(modifiers: Modifiers, keyString: string)
    requires KeyDescriptionForString(modifiers, keyString).Success?
    ensures var d := KeyDefinition(keyString).value;
      var r := KeyDescriptionForString(modifiers, keyString).value;
      r.code == d.code.GetOr("") &&
      r.location == d.location.GetOr(0) &&
      (ShiftHeld(modifiers) && NonEmptyText(d.shiftKey) ==> r.key == d.shiftKey.value) &&
      (!(ShiftHeld(modifiers) && NonEmptyText(d.shiftKey)) ==> r.key == d.key.GetOr("")) &&
      (ShiftHeld(modifiers) && d.shiftKeyCode.Some? && d.shiftKeyCode.value != 0 ==> r.keyCode == d.shiftKeyCode.value) &&
      (!(ShiftHeld(modifiers) && d.shiftKeyCode.Some? && d.shiftKeyCode.value != 0) ==> r.keyCode == d.keyCode.GetOr(0)) &&
      (OtherThanShift(modifiers) ==> r.text == "") &&
      (!OtherThanShift(modifiers) && ShiftHeld(modifiers) && NonEmptyText(d.shiftText) ==> r.text == d.shiftText.GetOr("")) &&
      (!OtherThanShift(modifiers) && !(ShiftHeld(modifiers) && NonEmptyText(d.shiftText)) ==>
        r.text == (if d.text.Some? then d.text.value else if |r.key| == 1 then r.key else ""))
  {
  }

  /** The code of a key does not depend on the modifiers. */
  lemma CodeIgnoresModifiers(m1: Modifiers, m2: Modifiers, keyString: string)
    requires KeyDescriptionForString(m1, keyString).Success?
    ensures KeyDescriptionForString(m2, keyString).Success?
    ensures KeyDescriptionForString(m2, keyString).value.code == KeyDescriptionForString(m1, keyString).value.code
  {
  }

  // ---------------------------------------------------------------------------
  // Events

  datatype MouseButton = NoButton | Left | Middle | Right | Back | Forward

  datatype TouchPoint = TouchPoint(x: int, y: int)

  /** The protocol commands the devices send, reduced to their parameters. */
  datatype Event =
    | KeyDown(keyEventType: string, modifiers: Modifiers, windowsVirtualKeyCode: int, code: string, key: string,
              text: string, unmodifiedText: string, autoRepeat: bool, location: int, isKeypad: bool)
    | KeyUp(modifiers: Modifiers, key: string, windowsVirtualKeyCode: int, code: string, location: int)
    | InsertText(text: string)
    | MouseMoved(x: real, y: real, modifiers: Modifiers, button: MouseButton)
    | MousePressed(button: MouseButton, x: real, y: real, modifiers: Modifiers, clickCount: int)
    | MouseReleased(button: MouseButton, x: real, y: real, modifiers: Modifiers, clickCount: int)
    | TouchStart(touchPoints: seq<TouchPoint>, modifiers: Modifiers)
    | TouchEnd(touchPoints: seq<TouchPoint>, modifiers: Modifiers)

  /** The tab the devices send through; `send` appends to its log. */
  class Tab {
    var log: seq<Event>

    constructor ()
      ensures log == []
    {
      log := [];
    }

    method Send(e: Event)
      modifies this
      ensures log == old(log) + [e]
    {
      log := log + [e];
    }
  }

  // ---------------------------------------------------------------------------
  // Keyboard specification

  /** The keyboard's fields `_modifiers` and `_pressed_keys`. */
  datatype KeyboardState = KeyboardState(modifiers: Modifiers, pressedKeys: set<string>)

  /** The key event `down` sends: a "keyDown" when there is text, a
      "rawKeyDown" otherwise, the text doubling as the unmodified text, and
      keypad keys being those at location 3. */
  function KeyDownEvent(modifiers: Modifiers, d: Description, text: string, autoRepeat: bool): Event {
    KeyDown(if text != "" then "keyDown" else "rawKeyDown", modifiers, d.keyCode, d.code, d.key,
            text, text, autoRepeat, d.location, d.location == 3)
  }

  /** The key event `up` sends. */
  function KeyUpEvent(modifiers: Modifiers, d: Description): Event {
    KeyUp(modifiers, d.key, d.keyCode, d.code, d.location)
  }

  /** What `down(key, {'text': text})` does from state `s`: the new state and
      the event sent, or the error raised before anything changes. */
  function DownStep(s: KeyboardState, key: string, text: Option<string>): Result<(KeyboardState, Event), InputError> {
    var description :- KeyDescriptionForString(s.modifiers, key);
    var autoRepeat := description.code in s.pressedKeys;
    var modifiers := s.modifiers | ModifierBit(description.key);
    var t := if text.None? then description.text else text.value;
    Success((KeyboardState(modifiers, s.pressedKeys + {description.code}),
             KeyDownEvent(modifiers, description, t, autoRepeat)))
  }

  /** What `up(key)` does from state `s`. */
  function UpStep(s: KeyboardState, key: string): Result<(KeyboardState, Event), InputError> {
    var description :- KeyDescriptionForString(s.modifiers, key);
    var modifiers := s.modifiers & !ModifierBit(description.key);
    Success((KeyboardState(modifiers, s.pressedKeys - {description.code}),
             KeyUpEvent(modifiers, description)))
  }

  /** What `press(key, {'text': text})` does: `down`, then `up`. */
  function PressStep(s: KeyboardState, key: string, text: Option<string>): Result<(KeyboardState, seq<Event>), InputError> {
    var (afterDown, down) :- DownStep(s, key, text);
    var (afterUp, up) :- UpStep(afterDown, key);
    Success((afterUp, [down, up]))
  }

  /** One character of `type`: a press when the character is a key of the
      table, otherwise an `insert_text` of the character. */
  function CharStep(s: KeyboardState, c: char): Result<(KeyboardState, seq<Event>), InputError> {
    if KeyDefinition([c]).Some? then PressStep(s, [c], None)
    else Success((s, [InsertText([c])]))
  }

  /** What `type(text)` does: its characters one after the other. */
  function TypeSteps(s: KeyboardState, text: string): Result<(KeyboardState, seq<Event>), InputError>
    decreases |text|
  {
    if text == [] then Success((s, []))
    else
      var (before, earlier) :- TypeSteps(s, text[..|text| - 1]);
      var (after, last) :- CharStep(before, text[|text| - 1]);
      Success((after, earlier + last))
  }

  // ---------------------------------------------------------------------------
  // Keyboard properties

  /** An unknown key raises in `down` and in `up`, whatever the state. */
  lemma UnknownKeyRaises(s: KeyboardState, key: string, text: Option<string>)
    requires KeyDefinition(key).None?
    ensures DownStep(s, key, text) == Failure(UnknownKey(key))
    ensures UpStep(s, key) == Failure(UnknownKey(key))
    ensures PressStep(s, key, text) == Failure(UnknownKey(key))
  {
  }

  /** `down` adds the key's code to the pressed keys and ORs in its modifier
      bit; `autoRepeat` holds exactly when the code was already pressed; the
      event type is "keyDown" exactly when the text is non-empty; `isKeypad`
      holds exactly at location 3; an explicit text replaces the
      description's. */
  lemma DownStepEffect(s: KeyboardState, key: string, text: Option<string>)
    requires DownStep(s, key, text).Success?
    ensures var d := KeyDescriptionForString(s.modifiers, key).value;
      var (s', e) := DownStep(s, key, text).value;
      s'.pressedKeys == s.pressedKeys + {d.code} &&
      s'.modifiers == s.modifiers | ModifierBit(d.key) &&
      e.KeyDown? && e.modifiers == s'.modifiers && e.code == d.code && e.key == d.key &&
      (e.autoRepeat <==> d.code in s.pressedKeys) &&
      (e.keyEventType == "keyDown" <==> e.text != "") &&
      (e.keyEventType == "rawKeyDown" <==> e.text == "") &&
      (e.isKeypad <==> e.location == 3) &&
      e.text == (if text.Some? then text.value else d.text) && e.unmodifiedText == e.text
  {
  }

  /** `up` clears the key's modifier bit, removes its code if present and
      sends exactly one key-up event. */
  lemma UpStepEffect(s: KeyboardState, key: string)
    requires UpStep(s, key).Success?
    ensures var d := KeyDescriptionForString(s.modifiers, key).value;
      var (s', e) := UpStep(s, key).value;
      s'.pressedKeys == s.pressedKeys - {d.code} && d.code !in s'.pressedKeys &&
      s'.modifiers == s.modifiers & !ModifierBit(d.key) &&
      e == KeyUp(s'.modifiers, d.key, d.keyCode, d.code, d.location)
  {
  }

  /** Holding a key down twice without releasing it: the second key-down is
      an auto-repeat. */
  lemma {:induction false} SecondDownRepeats(s: KeyboardState, key: string, text1: Option<string>, text2: Option<string>)
    requires DownStep(s, key, text1).Success?
    ensures var s1 := DownStep(s, key, text1).value.0;
      DownStep(s1, key, text2).Success? && DownStep(s1, key, text2).value.1.autoRepeat
  {
    var s1 := DownStep(s, key, text1).value.0;
    CodeIgnoresModifiers(s.modifiers, s1.modifiers, key);
  }

  /** A key that `down` accepts, `up` accepts too, whatever the modifiers:
      `press` never fails half-way. */
  lemma DownThenUpSucceeds(s: KeyboardState, key: string, text: Option<string>)
    requires DownStep(s, key, text).Success?
    ensures UpStep(DownStep(s, key, text).value.0, key).Success?
    ensures PressStep(s, key, text).Success?
  {
  }

  /** Pressing a key that is not a modifier leaves the modifiers as they were
      and releases the key's code; this holds under Shift too, because no
      Shift variant in the table is a modifier. */
  lemma {:induction false} PressRestoresModifiers(s: KeyboardState, key: string, text: Option<string>)
    requires PressStep(s, key, text).Success?
    requires !IsModifierKey(KeyDefinition(key).value.key.GetOr(""))
    ensures PressStep(s, key, text).value.0.modifiers == s.modifiers
    ensures KeyDefinition(key).value.code.GetOr("") !in PressStep(s, key, text).value.0.pressedKeys
    ensures |PressStep(s, key, text).value.1| == 2
  {
    if KeyDefinition(key).value.shiftKey.Some? {
      ShiftKeysAreNotModifiers(key);
    }
    var d := KeyDescriptionForString(s.modifiers, key).value;
    assert ModifierBit(d.key) == 0;
    var s1 := DownStep(s, key, text).value.0;
    assert s1.modifiers == s.modifiers;
    var d1 := KeyDescriptionForString(s1.modifiers, key).value;
    assert ModifierBit(d1.key) == 0;
  }

  /** Shift held, and no other modifier: a key with a Shift variant reports
      that variant as its key and, when it is one character, as its text. */
  lemma ShiftSelectsShiftVariant(m: Modifiers, keyString: string)
    requires ShiftHeld(m) && !OtherThanShift(m)
    requires KeyDefinition(keyString).Some? && NonEmptyText(KeyDefinition(keyString).value.shiftKey)
    requires KeyDefinition(keyString).value.text.None? && KeyDefinition(keyString).value.shiftText.None?
    ensures var k := KeyDefinition(keyString).value.shiftKey.value;
      KeyDescriptionForString(m, keyString).Success? &&
      KeyDescriptionForString(m, keyString).value.key == k &&
      KeyDescriptionForString(m, keyString).value.text == (if |k| == 1 then k else "")
  {
  }

  /** With Shift held, "KeyA" types "A"; with Control held it types nothing. */
  lemma KeyADescriptions()
    ensures KeyDescriptionForString(8, "KeyA") == Success(Description("A", 65, "KeyA", "A", 0))
    ensures KeyDescriptionForString(0, "KeyA") == Success(Description("a", 65, "KeyA", "a", 0))
    ensures KeyDescriptionForString(2, "KeyA") == Success(Description("a", 65, "KeyA", "", 0))
  {
  }

  /** A character of `type` never raises: every single-character entry of
      the table is non-empty. */
  lemma CharStepSucceeds(s: KeyboardState, c: char)
    ensures CharStep(s, c).Success?
  {
    if KeyDefinition([c]).Some? {
      CharDefinitionsHaveNoShiftVariant(c);
      assert [c][0] == c;
      assert KeyDefinition([c]).value != KeyDef();
      DownThenUpSucceeds(s, [c], None);
    }
  }

  /** `type(text)` never raises. */
  lemma {:induction false} TypingNeverRaises(s: KeyboardState, text: string)
    ensures TypeSteps(s, text).Success?
    decreases |text|
  {
    if text != [] {
      TypingNeverRaises(s, text[..|text| - 1]);
      CharStepSucceeds(TypeSteps(s, text[..|text| - 1]).value.0, text[|text| - 1]);
    }
  }

  /** Typing one more character continues from where the shorter text left off. */
  lemma TypeOneMore(s: KeyboardState, text: string, c: char)
    requires TypeSteps(s, text).Success?
    ensures var (mid, first) := TypeSteps(s, text).value;
      CharStep(mid, c).Success? &&
      TypeSteps(s, text + [c]) == Success((CharStep(mid, c).value.0, first + CharStep(mid, c).value.1))
  {
    CharStepSucceeds(TypeSteps(s, text).value.0, c);
    assert (text + [c])[..|text|] == text;
  }

  /** The number of events `type(text)` sends: two per character that is a key
      of the table, one per other character. */
  function TypedEventCount(text: string): nat {
    if text == [] then 0
    else TypedEventCount(text[..|text| - 1]) + (if KeyDefinition([text[|text| - 1]]).Some? then 2 else 1)
  }

  /** `type` handles the characters in order, each with a press (two events)
      or an `insert_text` (one event), and leaves the modifiers unchanged. */
  lemma {:induction false} TypingEvents(s: KeyboardState, text: string)
    requires TypeSteps(s, text).Success?
    ensures |TypeSteps(s, text).value.1| == TypedEventCount(text)
    ensures TypeSteps(s, text).value.0.modifiers == s.modifiers
    decreases |text|
  {
    if text != [] {
      TypingEvents(s, text[..|text| - 1]);
      var before := TypeSteps(s, text[..|text| - 1]).value.0;
      var c := text[|text| - 1];
      if KeyDefinition([c]).Some? {
        assert [c][0] == c;
        CharDefinitionsHaveNoShiftVariant(c);
        CharDefinitionsAreNotModifiers(c);
        PressRestoresModifiers(before, [c], None);
      }
    }
  }

  // ---------------------------------------------------------------------------
  // Keyboard

  class Keyboard {
    const tab: Tab
    var modifiers: Modifiers
    var pressedKeys: set<string>

    /** Only the four modifier bits are ever set. */
    ghost predicate Valid()
      reads this
    {
      modifiers < 16
    }

    function State(): KeyboardState
      reads this
    {
      KeyboardState(modifiers, pressedKeys)
    }

    constructor (tab: Tab)
      ensures this.tab == tab && State() == KeyboardState(0, {}) && Valid()
    {
      this.tab := tab;
      modifiers := 0;
      pressedKeys := {};
    }

    /** `down(key, {'text': text})`. */
    method Down(key: string, text: Option<string>) returns (r: Result<(), InputError>)
      requires Valid()
      modifies this, tab
      ensures Valid()
      ensures match DownStep(old(State()), key, text)
        case Failure(e) => r == Failure(e) && State() == old(State()) && tab.log == old(tab.log)
        case Success((s, e)) => r.Success? && State() == s && tab.log == old(tab.log) + [e]
    {
      var description :- KeyDescriptionForString(modifiers, key);
      var autoRepeat := description.code in pressedKeys;
      pressedKeys := pressedKeys + {description.code};
      ModifiersStayInRange(modifiers, ModifierBit(description.key));
      modifiers := modifiers | ModifierBit(description.key);
      var t := text.GetOr(description.text);
      tab.Send(KeyDownEvent(modifiers, description, t, autoRepeat));
      r := Success(());
    }

    /** `up(key)`. */
    method Up(key: string) returns (r: Result<(), InputError>)
      requires Valid()
      modifies this, tab
      ensures Valid()
      ensures match UpStep(old(State()), key)
        case Failure(e) => r == Failure(e) && State() == old(State()) && tab.log == old(tab.log)
        case Success((s, e)) => r.Success? && State() == s && tab.log == old(tab.log) + [e]
    {
      var description :- KeyDescriptionForString(modifiers, key);
      ModifiersStayInRange(modifiers, ModifierBit(description.key));
      modifiers := modifiers & !ModifierBit(description.key);
      // the source removes the code only when present; set difference is
      // that same no-op for a code that is not pressed
      pressedKeys := pressedKeys - {description.code};
      tab.Send(KeyUpEvent(modifiers, description));
      r := Success(());
    }

    /** `press(key, {'text': text})`. */
    method Press(key: string, text: Option<string>) returns (r: Result<(), InputError>)
      requires Valid()
      modifies this, tab
      ensures Valid()
      ensures match PressStep(old(State()), key, text)
        case Failure(e) => r == Failure(e) && State() == old(State()) && tab.log == old(tab.log)
        case Success((s, es)) => r.Success? && State() == s && tab.log == old(tab.log) + es
    {
      r := Down(key, text);
      if r.Failure? {
        return;
      }
      DownThenUpSucceeds(old(State()), key, text);
      r := Up(key);
    }

    /** `send_character(char)`. */
    method SendCharacter(character: string)
      modifies tab
      ensures tab.log == old(tab.log) + [InsertText(character)]
    {
      tab.Send(InsertText(character));
    }

    /** `type(text)`; it never raises (see `TypingNeverRaises`). */
    method Type(text: string)
      requires Valid()
      modifies this, tab
      ensures Valid()
      ensures TypeSteps(old(State()), text).Success?
      ensures State() == TypeSteps(old(State()), text).value.0
      ensures tab.log == old(tab.log) + TypeSteps(old(State()), text).value.1
    {
      ghost var start := State();
      for i := 0 to |text|
        invariant Valid()
        invariant TypeSteps(start, text[..i]).Success?
        invariant State() == TypeSteps(start, text[..i]).value.0
        invariant tab.log == old(tab.log) + TypeSteps(start, text[..i]).value.1
      {
        var c := text[i];
        assert text[..i + 1] == text[..i] + [c];
        TypeOneMore(start, text[..i], c);
        if KeyDefinition([c]).Some? {
          var _ := Press([c], None);
        } else {
          SendCharacter([c]);
        }
      }
      assert text[..|text|] == text;
    }
  }

  // ---------------------------------------------------------------------------
  // Mouse

  /** Python's `round` on a number: to the nearest integer, halves to even. */
  function Round(r: real): (n: int)
    ensures -0.5 <= n as real - r <= 0.5
    ensures r == r.Floor as real ==> n == r.Floor
  {
    var f := r.Floor;
    var frac := r - f as real;
    if frac < 0.5 then f
    else if frac > 0.5 then f + 1
    else if f % 2 == 0 then f
    else f + 1
  }

  /** The `i`-th of the `steps` intermediate positions between `from` and `to`. */
  function Interpolate(from: real, to: real, i: int, steps: int): real
    requires steps > 0
  {
    Round(from + (to - from) * (i as real / steps as real)) as real
  }

  /** The first `k` mouseMoved events of a `steps`-step move. */
  function MovesUpTo(fromX: real, fromY: real, toX: real, toY: real, k: nat, steps: int, modifiers: Modifiers,
                     button: MouseButton): (r: seq<Event>)
    requires 0 < steps && k <= steps
    ensures |r| == k
    ensures forall e :: e in r ==> e.MouseMoved? && e.modifiers == modifiers && e.button == button
  {
    if k == 0 then []
    else
      MovesUpTo(fromX, fromY, toX, toY, k - 1, steps, modifiers, button) +
      [MouseMoved(Interpolate(fromX, toX, k, steps), Interpolate(fromY, toY, k, steps), modifiers, button)]
  }

  /** The mouseMoved events of `move` from (fromX, fromY) to (toX, toY): one
      per step, none when `steps` is not positive. */
  function MoveEvents(fromX: real, fromY: real, toX: real, toY: real, steps: int, modifiers: Modifiers,
                      button: MouseButton): (r: seq<Event>)
    ensures |r| == if steps > 0 then steps else 0
    ensures forall e :: e in r ==> e.MouseMoved? && e.modifiers == modifiers && e.button == button
  {
    if steps <= 0 then [] else MovesUpTo(fromX, fromY, toX, toY, steps, steps, modifiers, button)
  }

  /** The last mouseMoved event lands on the target, rounded. */
  lemma MoveEndsAtTarget(fromX: real, fromY: real, toX: real, toY: real, steps: int, modifiers: Modifiers, button: MouseButton)
    requires steps > 0
    ensures var r := MoveEvents(fromX, fromY, toX, toY, steps, modifiers, button);
      r[steps - 1] == MouseMoved(Round(toX) as real, Round(toY) as real, modifiers, button)
  {
    InterpolateAtLastStep(fromX, toX, steps);
    InterpolateAtLastStep(fromY, toY, steps);
  }

  lemma InterpolateAtLastStep(from: real, to: real, steps: int)
    requires steps > 0
    ensures Interpolate(from, to, steps, steps) == Round(to) as real
  {
    var d := steps as real;
    assert d > 0.0;
    var ratio := d / d;
    assert ratio * d == d;
    assert (ratio - 1.0) * d == 0.0;
    assert ratio == 1.0;
    assert from + (to - from) * ratio == to;
  }

  /** `clickCount = options.get('clickCount') or 1`. */
  function ClickCount(clickCount: Option<int>): (r: int)
    ensures r != 0
    ensures clickCount.None? || clickCount.value == 0 ==> r == 1
    ensures clickCount.Some? && clickCount.value != 0 ==> r == clickCount.value
  {
    if clickCount.None? || clickCount.value == 0 then 1 else clickCount.value
  }

  class Mouse {
    const tab: Tab
    /** The keyboard of the same tab, whose modifiers every event carries. */
    const keyboard: Keyboard
    var x: real
    var y: real
    var button: MouseButton

    constructor (tab: Tab, keyboard: Keyboard)
      ensures this.tab == tab && this.keyboard == keyboard
      ensures x == 0.0 && y == 0.0 && button == NoButton
    {
      this.tab := tab;
      this.keyboard := keyboard;
      x := 0.0;
      y := 0.0;
      button := NoButton;
    }

    /** `move(toX, toY, {'steps': steps})`; `steps` defaults to 1. */
    method Move(toX: real, toY: real, steps: Option<int>)
      modifies this, tab
      ensures x == toX && y == toY && button == old(button)
      ensures tab.log == old(tab.log) + MoveEvents(old(x), old(y), toX, toY, steps.GetOr(1), keyboard.modifiers, button)
    {
      var fromX := x;
      var fromY := y;
      x := toX;
      y := toY;
      var n := steps.GetOr(1);
      if n > 0 {
        var i := 0;
        while i < n
          invariant 0 <= i <= n
          invariant x == toX && y == toY && button == old(button)
          invariant tab.log == old(tab.log) + MovesUpTo(fromX, fromY, toX, toY, i, n, keyboard.modifiers, button)
        {
          tab.Send(MouseMoved(Interpolate(fromX, x, i + 1, n), Interpolate(fromY, y, i + 1, n), keyboard.modifiers, button));
          i := i + 1;
        }
      }
    }

    /** `down({'button': button, 'clickCount': clickCount})`. */
    method Down(pressed: Option<MouseButton>, clickCount: Option<int>)
      modifies this, tab
      ensures x == old(x) && y == old(y) && button == pressed.GetOr(Left)
      ensures tab.log == old(tab.log) + [MousePressed(button, x, y, keyboard.modifiers, ClickCount(clickCount))]
    {
      button := pressed.GetOr(Left);
      tab.Send(MousePressed(button, x, y, keyboard.modifiers, ClickCount(clickCount)));
    }

    /** `up({'button': released, 'clickCount': clickCount})`: the event names
        the button from the options, the stored button becomes 'none'. */
    method Up(released: Option<MouseButton>, clickCount: Option<int>)
      modifies this, tab
      ensures x == old(x) && y == old(y) && button == NoButton
      ensures tab.log == old(tab.log) + [MouseReleased(released.GetOr(Left), x, y, keyboard.modifiers, ClickCount(clickCount))]
    {
      button := NoButton;
      tab.Send(MouseReleased(released.GetOr(Left), x, y, keyboard.modifiers, ClickCount(clickCount)));
    }

    /** `click(toX, toY, {'button': b, 'clickCount': clickCount})`: a one-step
        move, a press and a release. */
    method Click(toX: real, toY: real, b: Option<MouseButton>, clickCount: Option<int>)
      modifies this, tab
      ensures x == toX && y == toY && button == NoButton
      ensures tab.log == old(tab.log) + [
        MouseMoved(Round(toX) as real, Round(toY) as real, keyboard.modifiers, old(button)),
        MousePressed(b.GetOr(Left), toX, toY, keyboard.modifiers, ClickCount(clickCount)),
        MouseReleased(b.GetOr(Left), toX, toY, keyboard.modifiers, ClickCount(clickCount))]
    {
      Move(toX, toY, None);
      MoveEndsAtTarget(old(x), old(y), toX, toY, 1, keyboard.modifiers, old(button));
      Down(b, clickCount);
      Up(b, clickCount);
    }
  }

  // ---------------------------------------------------------------------------
  // Touchscreen

  class Touchscreen {
    const tab: Tab
    const keyboard: Keyboard

    constructor (tab: Tab, keyboard: Keyboard)
      ensures this.tab == tab && this.keyboard == keyboard
    {
      this.tab := tab;
      this.keyboard := keyboard;
    }

    /** `tap(x, y)`: a touch start at the rounded point, then a touch end with
        no points. */
    method Tap(x: real, y: real)
      modifies tab
      ensures tab.log == old(tab.log) + [
        TouchStart([TouchPoint(Round(x), Round(y))], keyboard.modifiers),
        TouchEnd([], keyboard.modifiers)]
    {
      var touchPoints := [TouchPoint(Round(x), Round(y))];
      tab.Send(TouchStart(touchPoints, keyboard.modifiers));
      tab.Send(TouchEnd([], keyboard.modifiers));
    }
  }
}
