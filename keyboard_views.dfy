/** What the three keyboards send. The kana keyboard turns a reported string
    into a fixed control or punctuation byte or into its romaji spelling, and
    offers a dakuten/handakuten/small row that replaces the last character; the
    English keyboard applies one-shot Shift and Ctrl; the symbol keyboard sends
    a key's first scalar value when it fits in a byte. Every send goes through
    the shared `BLEManager`, whose write log records it. */
module KeyboardViews {
  import opened Wrappers
  import opened Ascii
  import opened BLE
  import opened FlickInputSupport
  import KT = KeyboardTypes

  /** What one key tap asks the manager to do. */
  datatype KeyAction = SendByte(b: Byte) | SendText(s: string) | NoSend

  /** The writes an action issues: `sendASCII` for a byte, `sendString` for text. */
  function ActionWrites(link: Link, a: KeyAction): seq<Write> {
    match a
    case SendByte(b) => ASCIIWrites(link, b)
    case SendText(s) => StringWrites(link, s)
    case NoSend => []
  }

  /** The kana keyboard's dispatch of a reported string. */
  function KanaKeyAction(c: string): KeyAction {
    match c
    case "Space" => SendByte(32)
    case "Del" => SendByte(8)
    case "Enter" => SendByte(13)
    case "123" => NoSend
    case "Aあ" => SendByte(255)
    case "、" => SendByte(44)
    case "。" => SendByte(46)
    case "ー" => SendByte(45)
    case "？" => SendByte(63)
    case _ =>
      var romaji := ConvertToRomaji(c);
      if romaji != "" then SendText(romaji) else NoSend
  }

  /** The modifier row is left showing exactly after a default-branch string that
      was sent and that has a modifier. */
  predicate ShowsModifierRow(c: string) {
    KanaKeyAction(c).SendText? && CanShowModifierKeys(c)
  }

  /** The punctuation keys bypass the romaji table, but send the very byte its
      entry spells. */
  lemma KanaPunctuationBytesAgree(c: string)
    requires c in ["、", "。", "ー", "？"]
    ensures KanaKeyAction(c).SendByte?
    ensures [KanaKeyAction(c).b] == AsciiBytes(ConvertToRomaji(c))
  {
    assert |c| == 1 && ConvertToRomaji(c) == RomajiOf(c[0]).value;
    var romaji := ConvertToRomaji(c);
    assert |romaji| == 1 && AsciiBytes(romaji) == [AsciiValue(romaji[0]).value];
  }

  /** Space, Del and Enter send their `SpecialKey` ASCII codes. */
  lemma KanaControlBytesAgree(k: KT.SpecialKey)
    requires k in {KT.Space, KT.Delete, KT.Enter}
    ensures KanaKeyAction(KT.RawValue(k)) == SendByte(KT.AsciiCode(k).value)
  {
    match k
    case Space =>
    case Delete =>
    case Enter =>
  }

  /** The kana keys with a fixed byte, and that byte. */
  const KanaFixedKeys: seq<(string, Byte)> := [
    ("Space", 32), ("Del", 8), ("Enter", 13), ("、", 44), ("。", 46), ("ー", 45), ("？", 63), ("Aあ", 255)
  ]

  /** Wherever the link can take a write, each fixed key sends exactly its one
      byte, and "123" sends nothing. */
  lemma KanaFixedKeysSendOneByte(link: Link, i: nat)
    requires CanWrite(link) && i < |KanaFixedKeys|
    ensures WrittenBytes(ActionWrites(link, KanaKeyAction(KanaFixedKeys[i].0))) == [KanaFixedKeys[i].1]
    ensures ActionWrites(link, KanaKeyAction("123")) == []
  {
  }

  /** Everything a key of the kana layout can report, by a tap or a flick, is
      sent: as a byte, or as a non-empty ASCII romaji spelling. Only "123",
      which is not on the layout, sends nothing. */
  lemma EveryKanaKeyReportSends(row: nat, col: nat, c: string)
    requires row < |KanaRows| && col < |KanaRows[row]|
    requires c in GetFlickCharacters(KanaRows[row][col])
    ensures KanaKeyAction(c) != NoSend
    ensures KanaKeyAction(c).SendText? ==>
      HiraganaToRomajiMap(c).Some? && KanaKeyAction(c).s == HiraganaToRomajiMap(c).value
      && KanaKeyAction(c).s != "" && IsAsciiString(KanaKeyAction(c).s)
  {
    var key := KanaRows[row][col];
    if FlickCharacterMap(key).Some? {
      FlickCharactersHaveRomaji(key, c);
      RomajiValuesAscii(c);
      ConvertToRomajiFallback(c);
    } else {
      assert c == key && key in ["Del", "Space", "Enter", "Aあ"];
    }
  }

  /** On a finished connection, a kana that reaches the default branch is typed
      on the host as exactly its romaji spelling. */
  lemma KanaTapTypesRomaji(link: Link, c: string)
    requires Ready(link)
    requires KanaKeyAction(c).SendText? && HiraganaToRomajiMap(c).Some?
    ensures CharsOf(WrittenBytes(ActionWrites(link, KanaKeyAction(c)))) == HiraganaToRomajiMap(c).value
  {
    var romaji := HiraganaToRomajiMap(c).value;
    RomajiValuesAscii(c);
    StringWritesSpec(link, romaji);
    AsciiRoundTrip(romaji);
  }

  /** The writes of `handleModifierKeyTap` for a character whose romaji is
      `romaji`: a backspace, then the romaji when there is one. */
  function ModifierTapWrites(link: Link, romaji: string): seq<Write> {
    ASCIIWrites(link, 8) + (if romaji != "" then StringWrites(link, romaji) else [])
  }

  /** On a finished connection, a backspace followed by an ASCII spelling
      reaches the host as exactly those characters. */
  lemma BackspaceThenText(link: Link, romaji: string)
    requires Ready(link) && IsAsciiString(romaji)
    ensures WrittenBytes(ModifierTapWrites(link, romaji)) == [8] + AsciiBytes(romaji)
    ensures CharsOf(WrittenBytes(ModifierTapWrites(link, romaji))) == [8 as char] + romaji
  {
    StringWritesSpec(link, romaji);
    AsciiRoundTrip(romaji);
    WrittenBytesAppend(ASCIIWrites(link, 8), if romaji != "" then StringWrites(link, romaji) else []);
    var bytes := WrittenBytes(ModifierTapWrites(link, romaji));
    assert bytes == [8] + AsciiBytes(romaji);
    assert CharsOf(bytes) == CharsOf([8]) + CharsOf(AsciiBytes(romaji));
  }

  /** On a finished connection, choosing a modifier erases the character just
      typed and types the modified one: backspace, then its romaji. */
  lemma ModifierTapReplacesLastCharacter(link: Link, c: string, m: ModifierType)
    requires Ready(link)
    requires GetModifiedCharacter(c, m).Some?
    ensures var x := GetModifiedCharacter(c, m).value;
      HiraganaToRomajiMap(x).Some?
      && CharsOf(WrittenBytes(ModifierTapWrites(link, ConvertToRomaji(x)))) == [8 as char] + HiraganaToRomajiMap(x).value
  {
    var x := GetModifiedCharacter(c, m).value;
    ModifiedCharactersHaveRomaji(c, m);
    RomajiValuesAscii(x);
    BackspaceThenText(link, HiraganaToRomajiMap(x).value);
  }

  class KanaKeyboardView {
    const bleManager: BLEManager
    var showModifierKeys: bool
    var lastInputChar: string

    /** The row is shown only for a character that has a modifier, so it is
        never empty; when hidden, no character is remembered. */
    ghost predicate Valid()
      reads this
    {
      if showModifierKeys then CanShowModifierKeys(lastInputChar) else lastInputChar == ""
    }

    constructor (bleManager: BLEManager)
      ensures Valid() && this.bleManager == bleManager
      ensures !showModifierKeys && lastInputChar == ""
    {
      this.bleManager := bleManager;
      showModifierKeys := false;
      lastInputChar := "";
    }

    /** Hides the row first, sends what the string calls for, and shows the row
        again for a sent kana that has a modifier. */
    method HandleKeyTap(ch: string)
      requires Valid()
      modifies this, bleManager
      ensures Valid()
      ensures bleManager.State() == old(bleManager.State())
      ensures bleManager.writes
        == old(bleManager.writes) + ActionWrites(old(bleManager.CurrentLink()), KanaKeyAction(ch))
      ensures showModifierKeys == ShowsModifierRow(ch)
      ensures lastInputChar == if ShowsModifierRow(ch) then ch else ""
    {
      HideModifierKeys();
      match ch
      case "Space" => bleManager.SendASCII(32);
      case "Del" => bleManager.SendASCII(8);
      case "Enter" => bleManager.SendASCII(13);
      case "123" =>
      case "Aあ" => bleManager.SendASCII(255);
      case "、" => bleManager.SendASCII(44);
      case "。" => bleManager.SendASCII(46);
      case "ー" => bleManager.SendASCII(45);
      case "？" => bleManager.SendASCII(63);
      case _ =>
        var romaji := ConvertToRomaji(ch);
        if romaji != "" {
          bleManager.SendString(romaji);
          if CanShowModifierKeys(ch) {
            ShowModifierKeysFor(ch);
          }
        }
    }

    /** Backspace, then the modified character's romaji; the row is hidden. */
    method HandleModifierKeyTap(ch: string)
      modifies this, bleManager
      ensures Valid()
      ensures bleManager.State() == old(bleManager.State())
      ensures bleManager.writes == old(bleManager.writes) + ModifierTapWrites(old(bleManager.CurrentLink()), ConvertToRomaji(ch))
      ensures !showModifierKeys && lastInputChar == ""
    {
      ghost var link := bleManager.CurrentLink();
      bleManager.SendASCII(8);
      var romaji := ConvertToRomaji(ch);
      if romaji != "" {
        bleManager.SendString(romaji);
        assert bleManager.writes == old(bleManager.writes) + (ASCIIWrites(link, 8) + StringWrites(link, romaji));
      }
      HideModifierKeys();
    }

    /** A button of the modifier row: it offers each available modifier of the
        last character and reports the modified character. */
    method TapModifierButton(m: ModifierType)
      requires Valid() && showModifierKeys
      requires m in GetAvailableModifiers(lastInputChar)
      modifies this, bleManager
      ensures Valid()
      ensures bleManager.State() == old(bleManager.State())
      ensures GetModifiedCharacter(old(lastInputChar), m).Some?
      ensures bleManager.writes == old(bleManager.writes)
        + ModifierTapWrites(old(bleManager.CurrentLink()), ConvertToRomaji(GetModifiedCharacter(old(lastInputChar), m).value))
      ensures !showModifierKeys && lastInputChar == ""
    {
      AvailableModifiersSpec(lastInputChar, m);
      var modifiedChar := GetModifiedCharacter(lastInputChar, m);
      HandleModifierKeyTap(modifiedChar.value);
    }

    method ShowModifierKeysFor(ch: string)
      requires CanShowModifierKeys(ch)
      modifies this
      ensures Valid()
      ensures lastInputChar == ch && showModifierKeys
    {
      lastInputChar := ch;
      showModifierKeys := true;
    }

    method HideModifierKeys()
      modifies this
      ensures Valid()
      ensures !showModifierKeys && lastInputChar == ""
    {
      showModifierKeys := false;
      lastInputChar := "";
    }
  }

  /** The English keyboard's character keys. */
  const NumberRow: seq<string> := ["1", "2", "3", "4", "5", "6", "7", "8", "9", "0"]
  const AlphabetRows: seq<seq<string>> := [
    ["q", "w", "e", "r", "t", "y", "u", "i", "o", "p"],
    ["a", "s", "d", "f", "g", "h", "j", "k", "l"],
    ["z", "x", "c", "v", "b", "n", "m"]
  ]

  /** The English keyboard's function row: each label with the byte it sends. */
  const EnglishFunctionKeys: seq<(string, Byte)> := [("ESC", 27), ("Tab", 9), ("Space", 32), ("Del", 8), ("Enter", 13)]

  /** The function row sends, for each label, the ASCII code of the special key
      of that raw value. */
  lemma EnglishFunctionKeysAgree(i: nat)
    requires i < |EnglishFunctionKeys|
    ensures KT.FromRawValue(EnglishFunctionKeys[i].0).Some?
    ensures KT.AsciiCode(KT.FromRawValue(EnglishFunctionKeys[i].0).value) == Some(EnglishFunctionKeys[i].1)
  {
  }

  /** `key.first?.asciiValue`. */
  function FirstAscii(key: string): Option<Byte> {
    if key == [] then None else AsciiValue(key[0])
  }

  /** A digit or lower-case letter: the bytes of the English character keys. */
  predicate IsEnglishKeyByte(a: Byte) {
    '0' as Byte <= a <= '9' as Byte || 'a' as Byte <= a <= 'z' as Byte
  }

  /** Every character key of the English keyboard has an ASCII first character
      that is a digit or a lower-case letter. */
  lemma EnglishKeysAreAscii(row: nat, col: nat)
    ensures col < |NumberRow| ==> FirstAscii(NumberRow[col]).Some? && IsEnglishKeyByte(FirstAscii(NumberRow[col]).value)
    ensures row < |AlphabetRows| && col < |AlphabetRows[row]| ==>
      FirstAscii(AlphabetRows[row][col]).Some? && IsEnglishKeyByte(FirstAscii(AlphabetRows[row][col]).value)
  {
  }

  /** The shifted digits of a US keyboard, '1' to '9'. */
  const ShiftedNumbers: seq<Byte> := [33, 64, 35, 36, 37, 94, 38, 42, 40]

  /** Shift: letters to upper case, digits to the symbols above them, anything
      else unchanged. The table index `ascii - 49` is within the nine entries. */
  function GetShiftedASCII(ascii: Byte): Byte {
    if 97 <= ascii <= 122 then ascii - 32
    else if 49 <= ascii <= 57 then ShiftedNumbers[ascii - 49]
    else if ascii == 48 then 41
    else ascii
  }

  /** Shift upper-cases a-z, maps 1..9 and 0 to the characters `!@#$%^&*(` and
      `)`, and leaves every other byte alone. */
  lemma GetShiftedASCIISpec(ascii: Byte)
    ensures 'a' as Byte <= ascii <= 'z' as Byte ==>
      'A' as Byte <= GetShiftedASCII(ascii) <= 'Z' as Byte && GetShiftedASCII(ascii) + 32 == ascii
    ensures '1' as Byte <= ascii <= '9' as Byte ==>
      GetShiftedASCII(ascii) as int as char == "!@#$%^&*("[ascii - '1' as Byte]
    ensures ascii == '0' as Byte ==> GetShiftedASCII(ascii) as int as char == ')'
    ensures !IsEnglishKeyByte(ascii) ==> GetShiftedASCII(ascii) == ascii
  {
  }

  /** No two character keys of the English keyboard give the same shifted byte. */
  lemma ShiftedKeysDistinct(a: Byte, b: Byte)
    requires IsEnglishKeyByte(a) && IsEnglishKeyByte(b)
    ensures GetShiftedASCII(a) == GetShiftedASCII(b) ==> a == b
  {
  }

  /** The writes of `sendModifiedKey` for a key with ASCII code `a`: Shift wins
      over Ctrl; Alt plays no part. */
  function ModifiedKeyWrites(link: Link, shift: bool, ctrl: bool, a: Byte): seq<Write> {
    if shift then ASCIIWrites(link, GetShiftedASCII(a))
    else if ctrl then ControlWrites(link, true, a)
    else ASCIIWrites(link, a)
  }

  /** On a finished connection a modified key sends exactly one byte: the
      shifted byte under Shift, else the control code under Ctrl, else the key. */
  lemma ModifiedKeySendsOneByte(link: Link, shift: bool, ctrl: bool, a: Byte)
    requires Ready(link)
    ensures WrittenBytes(ModifiedKeyWrites(link, shift, ctrl, a))
      == [if shift then GetShiftedASCII(a) else if ctrl then CtrlKey(true, a) else a]
  {
  }

  class EnglishKeyboardView {
    const bleManager: BLEManager
    var isShiftPressed: bool
    var isCtrlPressed: bool
    var isAltPressed: bool

    constructor (bleManager: BLEManager)
      ensures this.bleManager == bleManager
      ensures !isShiftPressed && !isCtrlPressed && !isAltPressed
    {
      this.bleManager := bleManager;
      isShiftPressed, isCtrlPressed, isAltPressed := false, false, false;
    }

    /** The Shift button toggles its flag. */
    method ToggleShift()
      modifies this
      ensures isShiftPressed == !old(isShiftPressed)
      ensures isCtrlPressed == old(isCtrlPressed) && isAltPressed == old(isAltPressed)
    {
      isShiftPressed := !isShiftPressed;
    }

    method ToggleCtrl()
      modifies this
      ensures isCtrlPressed == !old(isCtrlPressed)
      ensures isShiftPressed == old(isShiftPressed) && isAltPressed == old(isAltPressed)
    {
      isCtrlPressed := !isCtrlPressed;
    }

    method ToggleAlt()
      modifies this
      ensures isAltPressed == !old(isAltPressed)
      ensures isShiftPressed == old(isShiftPressed) && isCtrlPressed == old(isCtrlPressed)
    {
      isAltPressed := !isAltPressed;
    }

    /** Sends the key under the pressed modifiers, then releases all three; a key
        without an ASCII first character changes nothing. */
    method SendModifiedKey(key: string)
      modifies this, bleManager
      ensures bleManager.State() == old(bleManager.State())
      ensures FirstAscii(key).None? ==>
        bleManager.writes == old(bleManager.writes) && isShiftPressed == old(isShiftPressed)
        && isCtrlPressed == old(isCtrlPressed) && isAltPressed == old(isAltPressed)
      ensures FirstAscii(key).Some? ==>
        bleManager.writes == old(bleManager.writes)
          + ModifiedKeyWrites(old(bleManager.CurrentLink()), old(isShiftPressed), old(isCtrlPressed), FirstAscii(key).value)
        && !isShiftPressed && !isCtrlPressed && !isAltPressed
    {
      var ascii := FirstAscii(key);
      if ascii.None? {
        return;
      }
      if isShiftPressed {
        bleManager.SendASCII(GetShiftedASCII(ascii.value));
      } else if isCtrlPressed {
        bleManager.SendControlSequence(true, ascii.value);
      } else {
        bleManager.SendASCII(ascii.value);
      }
      ResetModifierKeys();
    }

    method ResetModifierKeys()
      modifies this
      ensures !isShiftPressed && !isCtrlPressed && !isAltPressed
    {
      if isShiftPressed { isShiftPressed := false; }
      if isCtrlPressed { isCtrlPressed := false; }
      if isAltPressed { isAltPressed := false; }
    }
  }

  /** The symbol keyboard's keys. */
  const SymbolRows: seq<seq<string>> := [
    ["!", "@", "#", "$", "%", "^", "&", "*", "(", ")"],
    ["_", "+", "-", "=", "[", "]", "\\", "{", "}", "|"],
    [";", "'", ":", "\"", ",", ".", "/", "<", ">", "?"]
  ]

  /** The byte `sendSymbol` sends: the first scalar value, if there is one and
      it fits in a byte. */
  function SymbolByte(symbol: string): Option<Byte> {
    if symbol == [] || symbol[0] as int > 255 then None else Some(symbol[0] as int as Byte)
  }

  /** A symbol is sent exactly when its first scalar value is at most 255, as
      that value; every key of the symbol keyboard passes and is a one-character
      ASCII string that its byte spells back. */
  lemma SymbolByteSpec(symbol: string, row: nat, col: nat)
    ensures SymbolByte(symbol).Some? <==> symbol != [] && symbol[0] as int <= 255
    ensures SymbolByte(symbol).Some? ==> SymbolByte(symbol).value as int == symbol[0] as int
    ensures row < |SymbolRows| && col < |SymbolRows[row]| ==>
      SymbolByte(SymbolRows[row][col]).Some? && SymbolByte(SymbolRows[row][col]).value < 128
      && CharsOf([SymbolByte(SymbolRows[row][col]).value]) == SymbolRows[row][col]
  {
  }

  class SymbolKeyboardView {
    const bleManager: BLEManager

    constructor (bleManager: BLEManager)
      ensures this.bleManager == bleManager
    {
      this.bleManager := bleManager;
    }

    method SendSymbol(symbol: string)
      modifies bleManager
      ensures bleManager.State() == old(bleManager.State())
      ensures SymbolByte(symbol).None? ==> bleManager.writes == old(bleManager.writes)
      ensures SymbolByte(symbol).Some? ==>
        bleManager.writes == old(bleManager.writes) + ASCIIWrites(old(bleManager.CurrentLink()), SymbolByte(symbol).value)
    {
      if symbol == [] || symbol[0] as int > 255 {
        return;
      }
      bleManager.SendASCII(symbol[0] as int as Byte);
    }
  }
}
