/** The `key_definitions` table of zendriver_flare_bypasser/core/util.py
    (lines 323-572): for every key name or typed character, the fields of the
    key event that produces it. */
module KeyDefinitions {
  import opened Wrappers

  /** One entry of the table; an absent field is `None`. No entry defines
      `shiftText`, which the key-description code still consults. */
  datatype KeyDef = KeyDef(
    keyCode: Option<int> := None,
    key: Option<string> := None,
    code: Option<string> := None,
    location: Option<int> := None,
    text: Option<string> := None,
    shiftKey: Option<string> := None,
    shiftKeyCode: Option<int> := None,
    shiftText: Option<string> := None)

  /** `key_definitions.get(key)`: `None` for a name the table lacks. No
      entry sets `shiftText`, so the key-description branch that reads it
      never applies to a table key. */
  function KeyDefinition(key: string): (r: Option<KeyDef>)
    ensures r.Some? ==> r.value.shiftText.None?
  {
    if |key| == 1 then CharKeyDefinition(key[0]) else NamedKeyDefinition(key)
  }

  /** The entries whose name is a single character (what `type` looks up). */
  function CharKeyDefinition(c: char): (r: Option<KeyDef>)
    ensures r.Some? ==> r.value.shiftText.None?
  {
    match c
    case '0' => Some(KeyDef(keyCode := Some(48), key := Some("0"), code := Some("Digit0")))
    case '1' => Some(KeyDef(keyCode := Some(49), key := Some("1"), code := Some("Digit1")))
    case '2' => Some(KeyDef(keyCode := Some(50), key := Some("2"), code := Some("Digit2")))
    case '3' => Some(KeyDef(keyCode := Some(51), key := Some("3"), code := Some("Digit3")))
    case '4' => Some(KeyDef(keyCode := Some(52), key := Some("4"), code := Some("Digit4")))
    case '5' => Some(KeyDef(keyCode := Some(53), key := Some("5"), code := Some("Digit5")))
    case '6' => Some(KeyDef(keyCode := Some(54), key := Some("6"), code := Some("Digit6")))
    case '7' => Some(KeyDef(keyCode := Some(55), key := Some("7"), code := Some("Digit7")))
    case '8' => Some(KeyDef(keyCode := Some(56), key := Some("8"), code := Some("Digit8")))
    case '9' => Some(KeyDef(keyCode := Some(57), key := Some("9"), code := Some("Digit9")))
    case '\r' => Some(KeyDef(keyCode := Some(13), key := Some("Enter"), code := Some("Enter"), text := Some("\r")))
    case '\n' => Some(KeyDef(keyCode := Some(13), key := Some("Enter"), code := Some("Enter"), text := Some("\r")))
    case ' ' => Some(KeyDef(keyCode := Some(32), key := Some(" "), code := Some("Space")))
    case '\0' => Some(KeyDef(keyCode := Some(46), key := Some("\0"), code := Some("NumpadDecimal"), location := Some(3)))
    case 'a' => Some(KeyDef(keyCode := Some(65), key := Some("a"), code := Some("KeyA")))
    case 'b' => Some(KeyDef(keyCode := Some(66), key := Some("b"), code := Some("KeyB")))
    case 'c' => Some(KeyDef(keyCode := Some(67), key := Some("c"), code := Some("KeyC")))
    case 'd' => Some(KeyDef(keyCode := Some(68), key := Some("d"), code := Some("KeyD")))
    case 'e' => Some(KeyDef(keyCode := Some(69), key := Some("e"), code := Some("KeyE")))
    case 'f' => Some(KeyDef(keyCode := Some(70), key := Some("f"), code := Some("KeyF")))
    case 'g' => Some(KeyDef(keyCode := Some(71), key := Some("g"), code := Some("KeyG")))
    case 'h' => Some(KeyDef(keyCode := Some(72), key := Some("h"), code := Some("KeyH")))
    case 'i' => Some(KeyDef(keyCode := Some(73), key := Some("i"), code := Some("KeyI")))
    case 'j' => Some(KeyDef(keyCode := Some(74), key := Some("j"), code := Some("KeyJ")))
    case 'k' => Some(KeyDef(keyCode := Some(75), key := Some("k"), code := Some("KeyK")))
    case 'l' => Some(KeyDef(keyCode := Some(76), key := Some("l"), code := Some("KeyL")))
    case 'm' => Some(KeyDef(keyCode := Some(77), key := Some("m"), code := Some("KeyM")))
    case 'n' => Some(KeyDef(keyCode := Some(78), key := Some("n"), code := Some("KeyN")))
    case 'o' => Some(KeyDef(keyCode := Some(79), key := Some("o"), code := Some("KeyO")))
    case 'p' => Some(KeyDef(keyCode := Some(80), key := Some("p"), code := Some("KeyP")))
    case 'q' => Some(KeyDef(keyCode := Some(81), key := Some("q"), code := Some("KeyQ")))
    case 'r' => Some(KeyDef(keyCode := Some(82), key := Some("r"), code := Some("KeyR")))
    case 's' => Some(KeyDef(keyCode := Some(83), key := Some("s"), code := Some("KeyS")))
    case 't' => Some(KeyDef(keyCode := Some(84), key := Some("t"), code := Some("KeyT")))
    case 'u' => Some(KeyDef(keyCode := Some(85), key := Some("u"), code := Some("KeyU")))
    case 'v' => Some(KeyDef(keyCode := Some(86), key := Some("v"), code := Some("KeyV")))
    case 'w' => Some(KeyDef(keyCode := Some(87), key := Some("w"), code := Some("KeyW")))
    case 'x' => Some(KeyDef(keyCode := Some(88), key := Some("x"), code := Some("KeyX")))
    case 'y' => Some(KeyDef(keyCode := Some(89), key := Some("y"), code := Some("KeyY")))
    case 'z' => Some(KeyDef(keyCode := Some(90), key := Some("z"), code := Some("KeyZ")))
    case '*' => Some(KeyDef(keyCode := Some(106), key := Some("*"), code := Some("NumpadMultiply"), location := Some(3)))
    case '+' => Some(KeyDef(keyCode := Some(107), key := Some("+"), code := Some("NumpadAdd"), location := Some(3)))
    case '-' => Some(KeyDef(keyCode := Some(109), key := Some("-"), code := Some("NumpadSubtract"), location := Some(3)))
    case '/' => Some(KeyDef(keyCode := Some(111), key := Some("/"), code := Some("NumpadDivide"), location := Some(3)))
    case ';' => Some(KeyDef(keyCode := Some(186), key := Some(";"), code := Some("Semicolon")))
    case '=' => Some(KeyDef(keyCode := Some(187), key := Some("="), code := Some("Equal")))
    case ',' => Some(KeyDef(keyCode := Some(188), key := Some(","), code := Some("Comma")))
    case '.' => Some(KeyDef(keyCode := Some(190), key := Some("."), code := Some("Period")))
    case '`' => Some(KeyDef(keyCode := Some(192), key := Some("`"), code := Some("Backquote")))
    case '[' => Some(KeyDef(keyCode := Some(219), key := Some("["), code := Some("BracketLeft")))
    case '\\' => Some(KeyDef(keyCode := Some(220), key := Some("\\"), code := Some("Backslash")))
    case ']' => Some(KeyDef(keyCode := Some(221), key := Some("]"), code := Some("BracketRight")))
    case '\'' => Some(KeyDef(keyCode := Some(222), key := Some("\'"), code := Some("Quote")))
    case ')' => Some(KeyDef(keyCode := Some(48), key := Some(")"), code := Some("Digit0")))
    case '!' => Some(KeyDef(keyCode := Some(49), key := Some("!"), code := Some("Digit1")))
    case '@' => Some(KeyDef(keyCode := Some(50), key := Some("@"), code := Some("Digit2")))
    case '#' => Some(KeyDef(keyCode := Some(51), key := Some("#"), code := Some("Digit3")))
    case '$' => Some(KeyDef(keyCode := Some(52), key := Some("$"), code := Some("Digit4")))
    case '%' => Some(KeyDef(keyCode := Some(53), key := Some("%"), code := Some("Digit5")))
    case '^' => Some(KeyDef(keyCode := Some(54), key := Some("^"), code := Some("Digit6")))
    case '&' => Some(KeyDef(keyCode := Some(55), key := Some("&"), code := Some("Digit7")))
    case '(' => Some(KeyDef(keyCode := Some(57), key := Some("("), code := Some("Digit9")))
    case 'A' => Some(KeyDef(keyCode := Some(65), key := Some("A"), code := Some("KeyA")))
    case 'B' => Some(KeyDef(keyCode := Some(66), key := Some("B"), code := Some("KeyB")))
    case 'C' => Some(KeyDef(keyCode := Some(67), key := Some("C"), code := Some("KeyC")))
    case 'D' => Some(KeyDef(keyCode := Some(68), key := Some("D"), code := Some("KeyD")))
    case 'E' => Some(KeyDef(keyCode := Some(69), key := Some("E"), code := Some("KeyE")))
    case 'F' => Some(KeyDef(keyCode := Some(70), key := Some("F"), code := Some("KeyF")))
    case 'G' => Some(KeyDef(keyCode := Some(71), key := Some("G"), code := Some("KeyG")))
    case 'H' => Some(KeyDef(keyCode := Some(72), key := Some("H"), code := Some("KeyH")))
    case 'I' => Some(KeyDef(keyCode := Some(73), key := Some("I"), code := Some("KeyI")))
    case 'J' => Some(KeyDef(keyCode := Some(74), key := Some("J"), code := Some("KeyJ")))
    case 'K' => Some(KeyDef(keyCode := Some(75), key := Some("K"), code := Some("KeyK")))
    case 'L' => Some(KeyDef(keyCode := Some(76), key := Some("L"), code := Some("KeyL")))
    case 'M' => Some(KeyDef(keyCode := Some(77), key := Some("M"), code := Some("KeyM")))
    case 'N' => Some(KeyDef(keyCode := Some(78), key := Some("N"), code := Some("KeyN")))
    case 'O' => Some(KeyDef(keyCode := Some(79), key := Some("O"), code := Some("KeyO")))
    case 'P' => Some(KeyDef(keyCode := Some(80), key := Some("P"), code := Some("KeyP")))
    case 'Q' => Some(KeyDef(keyCode := Some(81), key := Some("Q"), code := Some("KeyQ")))
    case 'R' => Some(KeyDef(keyCode := Some(82), key := Some("R"), code := Some("KeyR")))
    case 'S' => Some(KeyDef(keyCode := Some(83), key := Some("S"), code := Some("KeyS")))
    case 'T' => Some(KeyDef(keyCode := Some(84), key := Some("T"), code := Some("KeyT")))
    case 'U' => Some(KeyDef(keyCode := Some(85), key := Some("U"), code := Some("KeyU")))
    case 'V' => Some(KeyDef(keyCode := Some(86), key := Some("V"), code := Some("KeyV")))
    case 'W' => Some(KeyDef(keyCode := Some(87), key := Some("W"), code := Some("KeyW")))
    case 'X' => Some(KeyDef(keyCode := Some(88), key := Some("X"), code := Some("KeyX")))
    case 'Y' => Some(KeyDef(keyCode := Some(89), key := Some("Y"), code := Some("KeyY")))
    case 'Z' => Some(KeyDef(keyCode := Some(90), key := Some("Z"), code := Some("KeyZ")))
    case ':' => Some(KeyDef(keyCode := Some(186), key := Some(":"), code := Some("Semicolon")))
    case '<' => Some(KeyDef(keyCode := Some(188), key := Some("<"), code := Some("Comma")))
    case '_' => Some(KeyDef(keyCode := Some(189), key := Some("_"), code := Some("Minus")))
    case '>' => Some(KeyDef(keyCode := Some(190), key := Some(">"), code := Some("Period")))
    case '?' => Some(KeyDef(keyCode := Some(191), key := Some("?"), code := Some("Slash")))
    case '~' => Some(KeyDef(keyCode := Some(192), key := Some("~"), code := Some("Backquote")))
    case '{' => Some(KeyDef(keyCode := Some(219), key := Some("{"), code := Some("BracketLeft")))
    case '|' => Some(KeyDef(keyCode := Some(220), key := Some("|"), code := Some("Backslash")))
    case '}' => Some(KeyDef(keyCode := Some(221), key := Some("}"), code := Some("BracketRight")))
    case '\"' => Some(KeyDef(keyCode := Some(222), key := Some("\""), code := Some("Quote")))
    case _ => None
  }

  /** The entries whose name is longer than one character. */
  function NamedKeyDefinition(key: string): (r: Option<KeyDef>)
    ensures r.Some? ==> r.value.shiftText.None?
  {
    match NamedKeysFirst(key)
    case Some(d) => Some(d)
    case None =>
      match NamedKeysSecond(key)
      case Some(d) => Some(d)
      case None => NamedKeysThird(key)
  }

  /** The named entries from "Power" to "Digit5", in the order of the table. */
  function NamedKeysFirst(key: string): (r: Option<KeyDef>)
    ensures r.Some? ==> r.value.shiftText.None?
  {
    match key
    case "Power" => Some(KeyDef(key := Some("Power"), code := Some("Power")))
    case "Eject" => Some(KeyDef(key := Some("Eject"), code := Some("Eject")))
    case "Abort" => Some(KeyDef(keyCode := Some(3), key := Some("Cancel"), code := Some("Abort")))
    case "Help" => Some(KeyDef(keyCode := Some(6), key := Some("Help"), code := Some("Help")))
    case "Backspace" => Some(KeyDef(keyCode := Some(8), key := Some("Backspace"), code := Some("Backspace")))
    case "Tab" => Some(KeyDef(keyCode := Some(9), key := Some("Tab"), code := Some("Tab")))
    case "Numpad5" => Some(KeyDef(keyCode := Some(12), key := Some("Clear"), code := Some("Numpad5"), location := Some(3), shiftKey := Some("5"), shiftKeyCode := Some(101)))
    case "NumpadEnter" => Some(KeyDef(keyCode := Some(13), key := Some("Enter"), code := Some("NumpadEnter"), location := Some(3), text := Some("\r")))
    case "Enter" => Some(KeyDef(keyCode := Some(13), key := Some("Enter"), code := Some("Enter"), text := Some("\r")))
    case "ShiftLeft" => Some(KeyDef(keyCode := Some(16), key := Some("Shift"), code := Some("ShiftLeft"), location := Some(1)))
    case "ShiftRight" => Some(KeyDef(keyCode := Some(16), key := Some("Shift"), code := Some("ShiftRight"), location := Some(2)))
    case "ControlLeft" => Some(KeyDef(keyCode := Some(17), key := Some("Control"), code := Some("ControlLeft"), location := Some(1)))
    case "ControlRight" => Some(KeyDef(keyCode := Some(17), key := Some("Control"), code := Some("ControlRight"), location := Some(2)))
    case "AltLeft" => Some(KeyDef(keyCode := Some(18), key := Some("Alt"), code := Some("AltLeft"), location := Some(1)))
    case "AltRight" => Some(KeyDef(keyCode := Some(18), key := Some("Alt"), code := Some("AltRight"), location := Some(2)))
    case "Pause" => Some(KeyDef(keyCode := Some(19), key := Some("Pause"), code := Some("Pause")))
    case "CapsLock" => Some(KeyDef(keyCode := Some(20), key := Some("CapsLock"), code := Some("CapsLock")))
    case "Escape" => Some(KeyDef(keyCode := Some(27), key := Some("Escape"), code := Some("Escape")))
    case "Convert" => Some(KeyDef(keyCode := Some(28), key := Some("Convert"), code := Some("Convert")))
    case "NonConvert" => Some(KeyDef(keyCode := Some(29), key := Some("NonConvert"), code := Some("NonConvert")))
    case "Space" => Some(KeyDef(keyCode := Some(32), key := Some(" "), code := Some("Space")))
    case "Numpad9" => Some(KeyDef(keyCode := Some(33), key := Some("PageUp"), code := Some("Numpad9"), location := Some(3), shiftKey := Some("9"), shiftKeyCode := Some(105)))
    case "PageUp" => Some(KeyDef(keyCode := Some(33), key := Some("PageUp"), code := Some("PageUp")))
    case "Numpad3" => Some(KeyDef(keyCode := Some(34), key := Some("PageDown"), code := Some("Numpad3"), location := Some(3), shiftKey := Some("3"), shiftKeyCode := Some(99)))
    case "PageDown" => Some(KeyDef(keyCode := Some(34), key := Some("PageDown"), code := Some("PageDown")))
    case "End" => Some(KeyDef(keyCode := Some(35), key := Some("End"), code := Some("End")))
    case "Numpad1" => Some(KeyDef(keyCode := Some(35), key := Some("End"), code := Some("Numpad1"), location := Some(3), shiftKey := Some("1"), shiftKeyCode := Some(97)))
    case "Home" => Some(KeyDef(keyCode := Some(36), key := Some("Home"), code := Some("Home")))
    case "Numpad7" => Some(KeyDef(keyCode := Some(36), key := Some("Home"), code := Some("Numpad7"), location := Some(3), shiftKey := Some("7"), shiftKeyCode := Some(103)))
    case "ArrowLeft" => Some(KeyDef(keyCode := Some(37), key := Some("ArrowLeft"), code := Some("ArrowLeft")))
    case "Numpad4" => Some(KeyDef(keyCode := Some(37), key := Some("ArrowLeft"), code := Some("Numpad4"), location := Some(3), shiftKey := Some("4"), shiftKeyCode := Some(100)))
    case "Numpad8" => Some(KeyDef(keyCode := Some(38), key := Some("ArrowUp"), code := Some("Numpad8"), location := Some(3), shiftKey := Some("8"), shiftKeyCode := Some(104)))
    case "ArrowUp" => Some(KeyDef(keyCode := Some(38), key := Some("ArrowUp"), code := Some("ArrowUp")))
    case "ArrowRight" => Some(KeyDef(keyCode := Some(39), key := Some("ArrowRight"), code := Some("ArrowRight")))
    case "Numpad6" => Some(KeyDef(keyCode := Some(39), key := Some("ArrowRight"), code := Some("Numpad6"), location := Some(3), shiftKey := Some("6"), shiftKeyCode := Some(102)))
    case "Numpad2" => Some(KeyDef(keyCode := Some(40), key := Some("ArrowDown"), code := Some("Numpad2"), location := Some(3), shiftKey := Some("2"), shiftKeyCode := Some(98)))
    case "ArrowDown" => Some(KeyDef(keyCode := Some(40), key := Some("ArrowDown"), code := Some("ArrowDown")))
    case "Select" => Some(KeyDef(keyCode := Some(41), key := Some("Select"), code := Some("Select")))
    case "Open" => Some(KeyDef(keyCode := Some(43), key := Some("Execute"), code := Some("Open")))
    case "PrintScreen" => Some(KeyDef(keyCode := Some(44), key := Some("PrintScreen"), code := Some("PrintScreen")))
    case "Insert" => Some(KeyDef(keyCode := Some(45), key := Some("Insert"), code := Some("Insert")))
    case "Numpad0" => Some(KeyDef(keyCode := Some(45), key := Some("Insert"), code := Some("Numpad0"), location := Some(3), shiftKey := Some("0"), shiftKeyCode := Some(96)))
    case "Delete" => Some(KeyDef(keyCode := Some(46), key := Some("Delete"), code := Some("Delete")))
    case "NumpadDecimal" => Some(KeyDef(keyCode := Some(46), key := Some("\0"), code := Some("NumpadDecimal"), location := Some(3), shiftKey := Some("."), shiftKeyCode := Some(110)))
    case "Digit0" => Some(KeyDef(keyCode := Some(48), key := Some("0"), code := Some("Digit0"), shiftKey := Some(")")))
    case "Digit1" => Some(KeyDef(keyCode := Some(49), key := Some("1"), code := Some("Digit1"), shiftKey := Some("!")))
    case "Digit2" => Some(KeyDef(keyCode := Some(50), key := Some("2"), code := Some("Digit2"), shiftKey := Some("@")))
    case "Digit3" => Some(KeyDef(keyCode := Some(51), key := Some("3"), code := Some("Digit3"), shiftKey := Some("#")))
    case "Digit4" => Some(KeyDef(keyCode := Some(52), key := Some("4"), code := Some("Digit4"), shiftKey := Some("$")))
    case "Digit5" => Some(KeyDef(keyCode := Some(53), key := Some("5"), code := Some("Digit5"), shiftKey := Some("%")))
    case _ => None
  }

  /** The named entries from "Digit6" to "F13", in the order of the table. */
  function NamedKeysSecond(key: string): (r: Option<KeyDef>)
    ensures r.Some? ==> r.value.shiftText.None?
  {
    match key
    case "Digit6" => Some(KeyDef(keyCode := Some(54), key := Some("6"), code := Some("Digit6"), shiftKey := Some("^")))
    case "Digit7" => Some(KeyDef(keyCode := Some(55), key := Some("7"), code := Some("Digit7"), shiftKey := Some("&")))
    case "Digit8" => Some(KeyDef(keyCode := Some(56), key := Some("8"), code := Some("Digit8"), shiftKey := Some("*")))
    case "Digit9" => Some(KeyDef(keyCode := Some(57), key := Some("9"), code := Some("Digit9"), shiftKey := Some("(")))
    case "KeyA" => Some(KeyDef(keyCode := Some(65), key := Some("a"), code := Some("KeyA"), shiftKey := Some("A")))
    case "KeyB" => Some(KeyDef(keyCode := Some(66), key := Some("b"), code := Some("KeyB"), shiftKey := Some("B")))
    case "KeyC" => Some(KeyDef(keyCode := Some(67), key := Some("c"), code := Some("KeyC"), shiftKey := Some("C")))
    case "KeyD" => Some(KeyDef(keyCode := Some(68), key := Some("d"), code := Some("KeyD"), shiftKey := Some("D")))
    case "KeyE" => Some(KeyDef(keyCode := Some(69), key := Some("e"), code := Some("KeyE"), shiftKey := Some("E")))
    case "KeyF" => Some(KeyDef(keyCode := Some(70), key := Some("f"), code := Some("KeyF"), shiftKey := Some("F")))
    case "KeyG" => Some(KeyDef(keyCode := Some(71), key := Some("g"), code := Some("KeyG"), shiftKey := Some("G")))
    case "KeyH" => Some(KeyDef(keyCode := Some(72), key := Some("h"), code := Some("KeyH"), shiftKey := Some("H")))
    case "KeyI" => Some(KeyDef(keyCode := Some(73), key := Some("i"), code := Some("KeyI"), shiftKey := Some("I")))
    case "KeyJ" => Some(KeyDef(keyCode := Some(74), key := Some("j"), code := Some("KeyJ"), shiftKey := Some("J")))
    case "KeyK" => Some(KeyDef(keyCode := Some(75), key := Some("k"), code := Some("KeyK"), shiftKey := Some("K")))
    case "KeyL" => Some(KeyDef(keyCode := Some(76), key := Some("l"), code := Some("KeyL"), shiftKey := Some("L")))
    case "KeyM" => Some(KeyDef(keyCode := Some(77), key := Some("m"), code := Some("KeyM"), shiftKey := Some("M")))
    case "KeyN" => Some(KeyDef(keyCode := Some(78), key := Some("n"), code := Some("KeyN"), shiftKey := Some("N")))
    case "KeyO" => Some(KeyDef(keyCode := Some(79), key := Some("o"), code := Some("KeyO"), shiftKey := Some("O")))
    case "KeyP" => Some(KeyDef(keyCode := Some(80), key := Some("p"), code := Some("KeyP"), shiftKey := Some("P")))
    case "KeyQ" => Some(KeyDef(keyCode := Some(81), key := Some("q"), code := Some("KeyQ"), shiftKey := Some("Q")))
    case "KeyR" => Some(KeyDef(keyCode := Some(82), key := Some("r"), code := Some("KeyR"), shiftKey := Some("R")))
    case "KeyS" => Some(KeyDef(keyCode := Some(83), key := Some("s"), code := Some("KeyS"), shiftKey := Some("S")))
    case "KeyT" => Some(KeyDef(keyCode := Some(84), key := Some("t"), code := Some("KeyT"), shiftKey := Some("T")))
    case "KeyU" => Some(KeyDef(keyCode := Some(85), key := Some("u"), code := Some("KeyU"), shiftKey := Some("U")))
    case "KeyV" => Some(KeyDef(keyCode := Some(86), key := Some("v"), code := Some("KeyV"), shiftKey := Some("V")))
    case "KeyW" => Some(KeyDef(keyCode := Some(87), key := Some("w"), code := Some("KeyW"), shiftKey := Some("W")))
    case "KeyX" => Some(KeyDef(keyCode := Some(88), key := Some("x"), code := Some("KeyX"), shiftKey := Some("X")))
    case "KeyY" => Some(KeyDef(keyCode := Some(89), key := Some("y"), code := Some("KeyY"), shiftKey := Some("Y")))
    case "KeyZ" => Some(KeyDef(keyCode := Some(90), key := Some("z"), code := Some("KeyZ"), shiftKey := Some("Z")))
    case "MetaLeft" => Some(KeyDef(keyCode := Some(91), key := Some("Meta"), code := Some("MetaLeft")))
    case "MetaRight" => Some(KeyDef(keyCode := Some(92), key := Some("Meta"), code := Some("MetaRight")))
    case "ContextMenu" => Some(KeyDef(keyCode := Some(93), key := Some("ContextMenu"), code := Some("ContextMenu")))
    case "NumpadMultiply" => Some(KeyDef(keyCode := Some(106), key := Some("*"), code := Some("NumpadMultiply"), location := Some(3)))
    case "NumpadAdd" => Some(KeyDef(keyCode := Some(107), key := Some("+"), code := Some("NumpadAdd"), location := Some(3)))
    case "NumpadSubtract" => Some(KeyDef(keyCode := Some(109), key := Some("-"), code := Some("NumpadSubtract"), location := Some(3)))
    case "NumpadDivide" => Some(KeyDef(keyCode := Some(111), key := Some("/"), code := Some("NumpadDivide"), location := Some(3)))
    case "F1" => Some(KeyDef(keyCode := Some(112), key := Some("F1"), code := Some("F1")))
    case "F2" => Some(KeyDef(keyCode := Some(113), key := Some("F2"), code := Some("F2")))
    case "F3" => Some(KeyDef(keyCode := Some(114), key := Some("F3"), code := Some("F3")))
    case "F4" => Some(KeyDef(keyCode := Some(115), key := Some("F4"), code := Some("F4")))
    case "F5" => Some(KeyDef(keyCode := Some(116), key := Some("F5"), code := Some("F5")))
    case "F6" => Some(KeyDef(keyCode := Some(117), key := Some("F6"), code := Some("F6")))
    case "F7" => Some(KeyDef(keyCode := Some(118), key := Some("F7"), code := Some("F7")))
    case "F8" => Some(KeyDef(keyCode := Some(119), key := Some("F8"), code := Some("F8")))
    case "F9" => Some(KeyDef(keyCode := Some(120), key := Some("F9"), code := Some("F9")))
    case "F10" => Some(KeyDef(keyCode := Some(121), key := Some("F10"), code := Some("F10")))
    case "F11" => Some(KeyDef(keyCode := Some(122), key := Some("F11"), code := Some("F11")))
    case "F12" => Some(KeyDef(keyCode := Some(123), key := Some("F12"), code := Some("F12")))
    case "F13" => Some(KeyDef(keyCode := Some(124), key := Some("F13"), code := Some("F13")))
    case _ => None
  }

  /** The named entries from "F14" to "ZoomOut", in the order of the table. */
  function NamedKeysThird(key: string): (r: Option<KeyDef>)
    ensures r.Some? ==> r.value.shiftText.None?
  {
    match key
    case "F14" => Some(KeyDef(keyCode := Some(125), key := Some("F14"), code := Some("F14")))
    case "F15" => Some(KeyDef(keyCode := Some(126), key := Some("F15"), code := Some("F15")))
    case "F16" => Some(KeyDef(keyCode := Some(127), key := Some("F16"), code := Some("F16")))
    case "F17" => Some(KeyDef(keyCode := Some(128), key := Some("F17"), code := Some("F17")))
    case "F18" => Some(KeyDef(keyCode := Some(129), key := Some("F18"), code := Some("F18")))
    case "F19" => Some(KeyDef(keyCode := Some(130), key := Some("F19"), code := Some("F19")))
    case "F20" => Some(KeyDef(keyCode := Some(131), key := Some("F20"), code := Some("F20")))
    case "F21" => Some(KeyDef(keyCode := Some(132), key := Some("F21"), code := Some("F21")))
    case "F22" => Some(KeyDef(keyCode := Some(133), key := Some("F22"), code := Some("F22")))
    case "F23" => Some(KeyDef(keyCode := Some(134), key := Some("F23"), code := Some("F23")))
    case "F24" => Some(KeyDef(keyCode := Some(135), key := Some("F24"), code := Some("F24")))
    case "NumLock" => Some(KeyDef(keyCode := Some(144), key := Some("NumLock"), code := Some("NumLock")))
    case "ScrollLock" => Some(KeyDef(keyCode := Some(145), key := Some("ScrollLock"), code := Some("ScrollLock")))
    case "AudioVolumeMute" => Some(KeyDef(keyCode := Some(173), key := Some("AudioVolumeMute"), code := Some("AudioVolumeMute")))
    case "AudioVolumeDown" => Some(KeyDef(keyCode := Some(174), key := Some("AudioVolumeDown"), code := Some("AudioVolumeDown")))
    case "AudioVolumeUp" => Some(KeyDef(keyCode := Some(175), key := Some("AudioVolumeUp"), code := Some("AudioVolumeUp")))
    case "MediaTrackNext" => Some(KeyDef(keyCode := Some(176), key := Some("MediaTrackNext"), code := Some("MediaTrackNext")))
    case "MediaTrackPrevious" => Some(KeyDef(keyCode := Some(177), key := Some("MediaTrackPrevious"), code := Some("MediaTrackPrevious")))
    case "MediaStop" => Some(KeyDef(keyCode := Some(178), key := Some("MediaStop"), code := Some("MediaStop")))
    case "MediaPlayPause" => Some(KeyDef(keyCode := Some(179), key := Some("MediaPlayPause"), code := Some("MediaPlayPause")))
    case "Semicolon" => Some(KeyDef(keyCode := Some(186), key := Some(";"), code := Some("Semicolon"), shiftKey := Some(":")))
    case "Equal" => Some(KeyDef(keyCode := Some(187), key := Some("="), code := Some("Equal"), shiftKey := Some("+")))
    case "NumpadEqual" => Some(KeyDef(keyCode := Some(187), key := Some("="), code := Some("NumpadEqual"), location := Some(3)))
    case "Comma" => Some(KeyDef(keyCode := Some(188), key := Some(","), code := Some("Comma"), shiftKey := Some("<")))
    case "Minus" => Some(KeyDef(keyCode := Some(189), key := Some("-"), code := Some("Minus"), shiftKey := Some("_")))
    case "Period" => Some(KeyDef(keyCode := Some(190), key := Some("."), code := Some("Period"), shiftKey := Some(">")))
    case "Slash" => Some(KeyDef(keyCode := Some(191), key := Some("/"), code := Some("Slash"), shiftKey := Some("?")))
    case "Backquote" => Some(KeyDef(keyCode := Some(192), key := Some("`"), code := Some("Backquote"), shiftKey := Some("~")))
    case "BracketLeft" => Some(KeyDef(keyCode := Some(219), key := Some("["), code := Some("BracketLeft"), shiftKey := Some("{")))
    case "Backslash" => Some(KeyDef(keyCode := Some(220), key := Some("\\"), code := Some("Backslash"), shiftKey := Some("|")))
    case "BracketRight" => Some(KeyDef(keyCode := Some(221), key := Some("]"), code := Some("BracketRight"), shiftKey := Some("}")))
    case "Quote" => Some(KeyDef(keyCode := Some(222), key := Some("\'"), code := Some("Quote"), shiftKey := Some("\"")))
    case "AltGraph" => Some(KeyDef(keyCode := Some(225), key := Some("AltGraph"), code := Some("AltGraph")))
    case "Props" => Some(KeyDef(keyCode := Some(247), key := Some("CrSel"), code := Some("Props")))
    case "Cancel" => Some(KeyDef(keyCode := Some(3), key := Some("Cancel"), code := Some("Abort")))
    case "Clear" => Some(KeyDef(keyCode := Some(12), key := Some("Clear"), code := Some("Numpad5"), location := Some(3)))
    case "Shift" => Some(KeyDef(keyCode := Some(16), key := Some("Shift"), code := Some("ShiftLeft")))
    case "Control" => Some(KeyDef(keyCode := Some(17), key := Some("Control"), code := Some("ControlLeft")))
    case "Alt" => Some(KeyDef(keyCode := Some(18), key := Some("Alt"), code := Some("AltLeft")))
    case "Accept" => Some(KeyDef(keyCode := Some(30), key := Some("Accept")))
    case "ModeChange" => Some(KeyDef(keyCode := Some(31), key := Some("ModeChange")))
    case "Print" => Some(KeyDef(keyCode := Some(42), key := Some("Print")))
    case "Execute" => Some(KeyDef(keyCode := Some(43), key := Some("Execute"), code := Some("Open")))
    case "Meta" => Some(KeyDef(keyCode := Some(91), key := Some("Meta"), code := Some("MetaLeft")))
    case "Attn" => Some(KeyDef(keyCode := Some(246), key := Some("Attn")))
    case "CrSel" => Some(KeyDef(keyCode := Some(247), key := Some("CrSel"), code := Some("Props")))
    case "ExSel" => Some(KeyDef(keyCode := Some(248), key := Some("ExSel")))
    case "EraseEof" => Some(KeyDef(keyCode := Some(249), key := Some("EraseEof")))
    case "Play" => Some(KeyDef(keyCode := Some(250), key := Some("Play")))
    case "ZoomOut" => Some(KeyDef(keyCode := Some(251), key := Some("ZoomOut")))
    case _ => None
  }

  /** The names `_modifier_bit` gives a bit to. */
  predicate IsModifierKey(key: string) {
    key == "Alt" || key == "Control" || key == "Meta" || key == "Shift"
  }

  /** Every single-character entry defines its key and code and has no Shift
      variant. */
  lemma CharDefinitionsHaveNoShiftVariant(c: char)
    requires CharKeyDefinition(c).Some?
    ensures var d := CharKeyDefinition(c).value;
      d.key.Some? && d.code.Some? && d.shiftKey.None? && d.shiftKeyCode.None? && d.shiftText.None?
  {
  }

  /** No single-character entry names a modifier key. */
  lemma CharDefinitionsAreNotModifiers(c: char)
    requires CharKeyDefinition(c).Some? && CharKeyDefinition(c).value.key.Some?
    ensures !IsModifierKey(CharKeyDefinition(c).value.key.value)
  {
  }

  /** No Shift variant in the table is a modifier key, so holding Shift never
      turns a key into one. */
  lemma ShiftKeysAreNotModifiers(key: string)
    requires KeyDefinition(key).Some? && KeyDefinition(key).value.shiftKey.Some?
    ensures !IsModifierKey(KeyDefinition(key).value.shiftKey.value)
  {
    if |key| == 1 {
      CharDefinitionsHaveNoShiftVariant(key[0]);
    } else if NamedKeysFirst(key).Some? {
      FirstShiftKeys(key);
    } else if NamedKeysSecond(key).Some? {
      SecondShiftKeys(key);
    } else {
      ThirdShiftKeys(key);
    }
  }

  // The named entries, checked one part of the table at a time.

  lemma FirstShiftKeys(key: string)
    requires NamedKeysFirst(key).Some? && NamedKeysFirst(key).value.shiftKey.Some?
    ensures !IsModifierKey(NamedKeysFirst(key).value.shiftKey.value)
  {
  }

  lemma SecondShiftKeys(key: string)
    requires NamedKeysSecond(key).Some? && NamedKeysSecond(key).value.shiftKey.Some?
    ensures !IsModifierKey(NamedKeysSecond(key).value.shiftKey.value)
  {
  }

  lemma ThirdShiftKeys(key: string)
    requires NamedKeysThird(key).Some? && NamedKeysThird(key).value.shiftKey.Some?
    ensures !IsModifierKey(NamedKeysThird(key).value.shiftKey.value)
  {
  }
}
