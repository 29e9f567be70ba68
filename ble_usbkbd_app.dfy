/** The earlier, single-file version of the app. It has its own BLE manager
    (`startScanning` schedules no timeout, the Arduino test is inline, and a
    test byte 'A' is sent as soon as a characteristic is adopted), its own
    romaji table and flick map, a flick classifier with a threshold of 20 that
    wants the other axis to stay under the threshold, a flick key that reacts
    only to a touch moved at least 10 points, and a kana keyboard whose "Aあ"
    key sends Ctrl (17) then Space. Its send path is the same as the current
    one, so the write functions of `BLE` describe it. */
module BLEUSBKBDApp {
  import opened Wrappers
  import opened Ascii
  import opened BLE
  import KeyboardTypes
  import FlickInputSupport
  import KC = KeyboardComponents
  import KV = KeyboardViews

  /** The old `romajiMap`. */
  function OldRomajiMap(h: string): Option<string> {
    if |h| == 1 then OldRomajiOf(h[0]) else None
  }

  /** The entries of the old `romajiMap`, keyed by their one character. */
  function OldRomajiOf(ch: char): Option<string> {
    match ch
    case 'あ' => Some("a") case 'い' => Some("i") case 'う' => Some("u") case 'え' => Some("e") case 'お' => Some("o")
    case 'か' => Some("ka") case 'き' => Some("ki") case 'く' => Some("ku") case 'け' => Some("ke") case 'こ' => Some("ko")
    case 'さ' => Some("sa") case 'し' => Some("shi") case 'す' => Some("su") case 'せ' => Some("se") case 'そ' => Some("so")
    case 'た' => Some("ta") case 'ち' => Some("chi") case 'つ' => Some("tsu") case 'て' => Some("te") case 'と' => Some("to")
    case 'な' => Some("na") case 'に' => Some("ni") case 'ぬ' => Some("nu") case 'ね' => Some("ne") case 'の' => Some("no")
    case 'は' => Some("ha") case 'ひ' => Some("hi") case 'ふ' => Some("fu") case 'へ' => Some("he") case 'ほ' => Some("ho")
    case 'ま' => Some("ma") case 'み' => Some("mi") case 'む' => Some("mu") case 'め' => Some("me") case 'も' => Some("mo")
    case 'や' => Some("ya") case 'ゆ' => Some("yu") case 'よ' => Some("yo")
    case 'ら' => Some("ra") case 'り' => Some("ri") case 'る' => Some("ru") case 'れ' => Some("re") case 'ろ' => Some("ro")
    case 'わ' => Some("wa") case 'ん' => Some("nn") case 'を' => Some("wo")
    case '、' => Some(",") case '。' => Some(".") case 'ー' => Some("-") case '？' => Some("?")
    case _ => None
  }

  function OldConvertToRomaji(h: string): string {
    OldRomajiMap(h).GetOr(h)
  }

  /** The old conversion returns the table entry, and the input itself exactly
      when the input is not a key; every entry is non-empty ASCII. */
  lemma OldConvertToRomajiSpec(h: string)
    ensures OldRomajiMap(h).Some? ==>
      OldConvertToRomaji(h) == OldRomajiMap(h).value
      && OldConvertToRomaji(h) != "" && IsAsciiString(OldConvertToRomaji(h))
    ensures OldRomajiMap(h).None? ==> OldConvertToRomaji(h) == h
  {
  }

  /** The current table extends the old one: wherever the old table has an
      entry, the current table has the same entry. */
  lemma OldRomajiAgreesWithCurrent(h: string)
    ensures OldRomajiMap(h).Some? ==> FlickInputSupport.HiraganaToRomajiMap(h) == OldRomajiMap(h)
    ensures OldRomajiMap(h).Some? ==> FlickInputSupport.ConvertToRomaji(h) == OldConvertToRomaji(h)
  {
    if |h| == 1 {
      OldRomajiOfAgrees(h[0]);
    }
  }

  lemma OldRomajiOfAgrees(ch: char)
    ensures OldRomajiOf(ch).Some? ==> FlickInputSupport.RomajiOf(ch) == OldRomajiOf(ch)
  {
    if 'あ' <= ch < 'は' {
      assert OldRomajiOf(ch).Some? ==> FlickInputSupport.BasicRomajiOf(ch) == OldRomajiOf(ch);
    } else if 'は' <= ch <= 'ん' {
      assert OldRomajiOf(ch).Some? ==> FlickInputSupport.BasicRomajiOf(ch) == OldRomajiOf(ch);
    }
  }

  /** The old `kanaRows`. */
  const OldKanaRows: seq<seq<string>> := [
    ["あ", "か", "さ", "た", "な"],
    ["は", "ま", "や", "ら", "わ"],
    ["を", "ん", "、", "。", "ー"],
    ["？", "Aあ", "Space", "Del", "Enter"]
  ]

  /** The old `flickMap`. */
  function OldFlickMap(key: string): Option<seq<string>> {
    if |key| == 1 then OldFlickCharactersOf(key[0]) else None
  }

  /** The entries of the old `flickMap`, keyed by their one character. */
  function OldFlickCharactersOf(ch: char): Option<seq<string>> {
    match ch
    case 'あ' => Some(["あ", "い", "う", "え", "お"])
    case 'か' => Some(["か", "き", "く", "け", "こ"])
    case 'さ' => Some(["さ", "し", "す", "せ", "そ"])
    case 'た' => Some(["た", "ち", "つ", "て", "と"])
    case 'な' => Some(["な", "に", "ぬ", "ね", "の"])
    case 'は' => Some(["は", "ひ", "ふ", "へ", "ほ"])
    case 'ま' => Some(["ま", "み", "む", "め", "も"])
    case 'や' => Some(["や", "ゆ", "よ"])
    case 'ら' => Some(["ら", "り", "る", "れ", "ろ"])
    case 'わ' => Some(["わ", "ん"])
    case _ => None
  }

  /** The candidates a key of the old layout is given: `flickMap[key] ?? [key]`. */
  function OldFlickChars(key: string): seq<string> {
    OldFlickMap(key).GetOr([key])
  }

  const OldThreshold: int := 20

  /** The old `getFlickChar`. A direction is taken only when the movement along
      its axis exceeds 20 and the movement along the other axis stays under 20;
      the right branch always finds a second candidate, so its fallback is gone. */
  function OldGetFlickChar(key: string, flickChars: seq<string>, dx: int, dy: int): (r: string)
    ensures |flickChars| <= 1 ==> r == key
    ensures |flickChars| > 1 ==> r in flickChars
  {
    if |flickChars| <= 1 then key
    else if KC.Abs(dx) < OldThreshold && KC.Abs(dy) < OldThreshold then flickChars[0]
    else if dy < -OldThreshold && KC.Abs(dx) < OldThreshold then
      (if |flickChars| > 2 then flickChars[2] else flickChars[0])
    else if dx > OldThreshold && KC.Abs(dy) < OldThreshold then flickChars[1]
    else if dy > OldThreshold && KC.Abs(dx) < OldThreshold then
      (if |flickChars| > 4 then flickChars[4] else flickChars[0])
    else if dx < -OldThreshold && KC.Abs(dy) < OldThreshold then
      (if |flickChars| > 3 then flickChars[3] else flickChars[0])
    else flickChars[0]
  }

  /** The direction the old classifier recognises, if any. */
  function OldFlickDirection(dx: int, dy: int): Option<KeyboardTypes.FlickDirection> {
    if KC.Abs(dx) < OldThreshold && KC.Abs(dy) < OldThreshold then Some(KeyboardTypes.Center)
    else if dy < -OldThreshold && KC.Abs(dx) < OldThreshold then Some(KeyboardTypes.Up)
    else if dx > OldThreshold && KC.Abs(dy) < OldThreshold then Some(KeyboardTypes.Right)
    else if dy > OldThreshold && KC.Abs(dx) < OldThreshold then Some(KeyboardTypes.Down)
    else if dx < -OldThreshold && KC.Abs(dy) < OldThreshold then Some(KeyboardTypes.Left)
    else None
  }

  /** The old classifier picks the candidate at the raw value of the direction
      it recognises, and the first candidate when it recognises none. No
      direction is recognised exactly when a movement is at 20 or both
      movements exceed 20: diagonals and the boundary give the first candidate.
      Every direction it does recognise away from the centre is the one the
      current classifier finds for the same movement. */
  lemma OldFlickClassifier(key: string, flickChars: seq<string>, dx: int, dy: int)
    requires |flickChars| > 1
    ensures OldGetFlickChar(key, flickChars, dx, dy)
      == KC.CandidateAt(flickChars, KeyboardTypes.DirectionRawValue(OldFlickDirection(dx, dy).GetOr(KeyboardTypes.Center)))
    ensures OldFlickDirection(dx, dy).None? <==>
      KC.Abs(dx) == OldThreshold || KC.Abs(dy) == OldThreshold
      || (KC.Abs(dx) > OldThreshold && KC.Abs(dy) > OldThreshold)
    ensures OldFlickDirection(dx, dy).Some? && OldFlickDirection(dx, dy).value != KeyboardTypes.Center ==>
      KC.FlickDirectionOf(dx, dy) == OldFlickDirection(dx, dy).value
  {
  }

  /** The old key's `DragGesture()` keeps SwiftUI's default minimum distance of
      10 points: neither handler runs until the touch has moved that far. */
  const MinimumDragDistance: int := 10

  /** The old flick key. Only a touch that moves far enough to be recognised as
      a drag reports a string through `onTap`, recorded in `taps`; a tap that
      stays in place reports nothing. */
  class FlickKeyButton {
    const key: string
    const flickChars: seq<string>
    var dragOffset: (int, int)
    var selectedChar: string
    /** Whether the current touch has been recognised as a drag. */
    var recognized: bool
    /** Every string passed to `onTap`, in order. */
    var taps: seq<string>

    /** Only the key or one of its candidates is ever selected or reported, and
        before recognition nothing is selected or offset. */
    ghost predicate Valid()
      reads this
    {
      (selectedChar == "" || selectedChar == key || selectedChar in flickChars)
      && (!recognized ==> selectedChar == "" && dragOffset == (0, 0))
      && forall i :: 0 <= i < |taps| ==> taps[i] == key || taps[i] in flickChars
    }

    constructor (key: string, flickChars: seq<string>)
      ensures Valid()
      ensures this.key == key && this.flickChars == flickChars
      ensures dragOffset == (0, 0) && selectedChar == "" && !recognized && taps == []
    {
      this.key := key;
      this.flickChars := flickChars;
      dragOffset := (0, 0);
      selectedChar := "";
      recognized := false;
      taps := [];
    }

    /** A movement of the touch to translation `(dx, dy)`. Once the drag is
        recognised, `onChanged` runs: the selection follows the drag. */
    method OnChanged(dx: int, dy: int)
      requires Valid()
      modifies this
      ensures Valid()
      ensures recognized == (old(recognized)
        || dx * dx + dy * dy >= MinimumDragDistance * MinimumDragDistance)
      ensures recognized ==>
        dragOffset == (dx, dy) && selectedChar == OldGetFlickChar(key, flickChars, dx, dy)
      ensures !recognized ==> dragOffset == old(dragOffset) && selectedChar == old(selectedChar)
      ensures taps == old(taps)
    {
      if !recognized && dx * dx + dy * dy < MinimumDragDistance * MinimumDragDistance {
        return;
      }
      recognized := true;
      dragOffset := (dx, dy);
      selectedChar := OldGetFlickChar(key, flickChars, dragOffset.0, dragOffset.1);
    }

    /** The touch lifts. For a recognised drag `onEnded` runs: it reports the
        selection, or the key when nothing is selected, and clears the selection
        and the offset. An unrecognised touch reports nothing. */
    method OnEnded()
      requires Valid()
      modifies this
      ensures Valid()
      ensures old(recognized) ==>
        taps == old(taps) + [if old(selectedChar) == "" then key else old(selectedChar)]
      ensures !old(recognized) ==> taps == old(taps)
      ensures selectedChar == "" && dragOffset == (0, 0) && !recognized
    {
      if recognized {
        var finalChar := if selectedChar == "" then key else selectedChar;
        taps := taps + [finalChar];
        selectedChar := "";
        dragOffset := (0, 0);
      }
      recognized := false;
    }
  }

  /** With a non-empty key and non-empty candidates the old classifier never
      selects "", so a drag reports what the classifier picked at its last
      offset rather than falling back to the key. */
  lemma ClassifiedCandidateNonEmpty(key: string, flickChars: seq<string>, dx: int, dy: int)
    requires key != "" && forall i :: 0 <= i < |flickChars| ==> flickChars[i] != ""
    ensures OldGetFlickChar(key, flickChars, dx, dy) != ""
  {
  }

  /** The writes of the old `handleKeyTap`: "Aあ" sends Ctrl then Space, and
      every other string that is not a control key goes to `sendString` as its
      romaji. */
  function OldKanaKeyWrites(link: Link, c: string): seq<Write> {
    match c
    case "Space" => ASCIIWrites(link, 32)
    case "Del" => ASCIIWrites(link, 8)
    case "Enter" => ASCIIWrites(link, 13)
    case "Aあ" => ASCIIWrites(link, 17) + ASCIIWrites(link, 32)
    case _ => StringWrites(link, OldConvertToRomaji(c))
  }

  /** The language-switch key changed: the old keyboard sends Ctrl (17) then
      Space (32), the current one the single byte 255. */
  lemma LanguageSwitchChanged(link: Link)
    requires CanWrite(link)
    ensures WrittenBytes(OldKanaKeyWrites(link, "Aあ")) == [17, 32]
    ensures WrittenBytes(KV.ActionWrites(link, KV.KanaKeyAction("Aあ"))) == [255]
  {
    WrittenBytesAppend(ASCIIWrites(link, 17), ASCIIWrites(link, 32));
  }

  /** The control keys of the old kana layout. */
  const OldControlKeys: seq<string> := ["Aあ", "Space", "Del", "Enter"]

  /** Everything a key of the old layout can report is either a control key or
      a key of the old romaji table. */
  lemma OldLayoutReportsClassified(row: nat, col: nat, c: string)
    requires row < |OldKanaRows| && col < |OldKanaRows[row]|
    requires c in OldFlickChars(OldKanaRows[row][col])
    ensures OldRomajiMap(c).Some? || c in OldControlKeys
  {
    var key := OldKanaRows[row][col];
    if OldFlickMap(key).Some? {
      OldFlickCandidatesInTable(key[0]);
      var i :| 0 <= i < |OldFlickMap(key).value| && OldFlickMap(key).value[i] == c;
    } else {
      assert c == key;
    }
  }

  lemma OldFlickCandidatesInTable(ch: char)
    ensures OldFlickCharactersOf(ch).Some? ==> var cands := OldFlickCharactersOf(ch).value;
      forall i :: 0 <= i < |cands| ==> OldRomajiMap(cands[i]).Some?
  {
  }

  /** On a finished connection, a control key sends its bytes and a key of the
      old table is typed on the host as its romaji: something is always sent. */
  lemma OldKanaReportsAreTyped(link: Link, c: string)
    requires Ready(link)
    requires OldRomajiMap(c).Some? || c in OldControlKeys
    ensures OldRomajiMap(c).Some? ==> CharsOf(WrittenBytes(OldKanaKeyWrites(link, c))) == OldRomajiMap(c).value
    ensures WrittenBytes(OldKanaKeyWrites(link, c)) != []
  {
    if OldRomajiMap(c).Some? {
      var romaji := OldRomajiMap(c).value;
      OldConvertToRomajiSpec(c);
      assert OldKanaKeyWrites(link, c) == StringWrites(link, romaji);
      StringWritesSpec(link, romaji);
      AsciiRoundTrip(romaji);
    } else if c == "Aあ" {
      WrittenBytesAppend(ASCIIWrites(link, 17), ASCIIWrites(link, 32));
    }
  }

  /** The old BLE manager. */
  class BLEManager {
    var poweredOn: bool
    var isScanning: bool
    var isConnected: bool
    var discoveredDevices: seq<string>
    var peripheral: Option<Peripheral>
    var characteristic: Option<Characteristic>
    /** Every `writeValue` issued, in order. */
    var writes: seq<Write>

    ghost predicate Valid()
      reads this
    {
      NoDuplicates(discoveredDevices)
    }

    function CurrentLink(): Link
      reads this
    {
      Link(isConnected, peripheral, characteristic)
    }

    function State(): ManagerState
      reads this
    {
      ManagerState(poweredOn, isScanning, isConnected, discoveredDevices, peripheral, characteristic)
    }

    constructor ()
      ensures Valid() && writes == []
      ensures State() == ManagerState(false, false, false, [], None, None)
    {
      poweredOn, isScanning, isConnected := false, false, false;
      discoveredDevices := [];
      peripheral, characteristic := None, None;
      writes := [];
    }

    method CentralManagerDidUpdateState(poweredOn: bool)
      requires Valid()
      modifies this
      ensures Valid() && writes == old(writes)
      ensures poweredOn ==> State() == old(State()).(poweredOn := true, isScanning := true, discoveredDevices := [])
      ensures !poweredOn ==> State() == old(State()).(poweredOn := false)
    {
      this.poweredOn := poweredOn;
      if poweredOn {
        StartScanning();
      }
    }

    /** Starts a scan with an empty device list; does nothing unless powered on. */
    method StartScanning()
      requires Valid()
      modifies this
      ensures Valid() && writes == old(writes)
      ensures !old(poweredOn) ==> State() == old(State())
      ensures old(poweredOn) ==> State() == old(State()).(isScanning := true, discoveredDevices := [])
    {
      if !poweredOn {
        return;
      }
      discoveredDevices := [];
      isScanning := true;
    }

    method StopScanning()
      modifies this
      ensures writes == old(writes)
      ensures State() == old(State()).(isScanning := false)
    {
      isScanning := false;
    }

    /** The block each discovery schedules 30 s later, run as a step of its own. */
    method ScanTimeoutElapsed()
      modifies this
      ensures writes == old(writes)
      ensures State() == old(State()).(isScanning := false)
    {
      if isScanning {
        StopScanning();
      }
    }

    /** Lists "<name> (<rssi>dBm)" once; a name mentioning arduino, esp32 or
        nano, in any case, is adopted and ends the scan. */
    method DidDiscover(p: Peripheral, rssi: int)
      requires Valid()
      modifies this
      ensures Valid() && writes == old(writes)
      ensures var info := CreateDeviceInfo(p.name.GetOr(UnnamedDevice), rssi);
        discoveredDevices == if info in old(discoveredDevices) then old(discoveredDevices)
                             else old(discoveredDevices) + [info]
      ensures IsArduinoDevice(p.name.GetOr(UnnamedDevice)) ==> peripheral == Some(p) && !isScanning
      ensures !IsArduinoDevice(p.name.GetOr(UnnamedDevice)) ==>
        peripheral == old(peripheral) && isScanning == old(isScanning)
      ensures poweredOn == old(poweredOn) && isConnected == old(isConnected)
      ensures characteristic == old(characteristic)
    {
      var deviceName := p.name.GetOr(UnnamedDevice);
      var deviceInfo := deviceName + " (" + DecimalString(rssi) + "dBm)";
      if deviceInfo !in discoveredDevices {
        discoveredDevices := discoveredDevices + [deviceInfo];
      }
      var lowercaseName := Lowercased(deviceName);
      if Contains(lowercaseName, "arduino") || Contains(lowercaseName, "esp32") || Contains(lowercaseName, "nano") {
        peripheral := Some(p);
        isScanning := false;
      }
    }

    /** Adopts the first writable characteristic, marks the link connected and
        sends the test byte 'A'; an error, a missing list or a list with no
        writable entry changes nothing. */
    method DidDiscoverCharacteristics(error: bool, characteristics: Option<seq<Characteristic>>)
      modifies this
      ensures error || characteristics.None? || FirstWritable(characteristics.value).None? ==>
        State() == old(State()) && writes == old(writes)
      ensures !error && characteristics.Some? && FirstWritable(characteristics.value).Some? ==>
        State() == old(State()).(characteristic := FirstWritable(characteristics.value), isConnected := true)
        && writes == old(writes) + ASCIIWrites(
             old(CurrentLink()).(characteristic := FirstWritable(characteristics.value), isConnected := true), 65)
    {
      if error {
        return;
      }
      if characteristics.None? {
        return;
      }
      var cs := characteristics.value;
      var i := 0;
      while i < |cs|
        invariant 0 <= i <= |cs|
        invariant FirstWritable(cs[i..]) == FirstWritable(cs)
        invariant State() == old(State()) && writes == old(writes)
      {
        assert cs[i..][1..] == cs[i + 1..];
        if cs[i].properties.write || cs[i].properties.writeWithoutResponse {
          characteristic := Some(cs[i]);
          isConnected := true;
          SendTestMessage();
          return;
        }
        i := i + 1;
      }
    }

    method SendTestMessage()
      modifies this
      ensures State() == old(State())
      ensures writes == old(writes) + ASCIIWrites(old(CurrentLink()), 65)
    {
      SendASCII(65);
    }

    /** Only the connected flag drops; a rescan follows 2 s later. */
    method DidDisconnect()
      modifies this
      ensures writes == old(writes)
      ensures State() == old(State()).(isConnected := false)
    {
      isConnected := false;
    }

    /** One write when a peripheral and a characteristic are present: without
        response if allowed, else with response, else none. */
    method SendASCII(ascii: Byte)
      modifies this
      ensures State() == old(State())
      ensures writes == old(writes) + ASCIIWrites(old(CurrentLink()), ascii)
    {
      if characteristic.None? || peripheral.None? {
        return;
      }
      var c := characteristic.value;
      if c.properties.writeWithoutResponse {
        writes := writes + [Write(ascii, WithoutResponse)];
      } else if c.properties.write {
        writes := writes + [Write(ascii, WithResponse)];
      }
    }

    /** Nothing while disconnected; otherwise each ASCII character in order. */
    method SendString(s: string)
      modifies this
      ensures State() == old(State())
      ensures writes == old(writes) + StringWrites(old(CurrentLink()), s)
    {
      if !isConnected {
        return;
      }
      var link := CurrentLink();
      var i := 0;
      while i < |s|
        invariant 0 <= i <= |s|
        invariant State() == old(State()) && CurrentLink() == link
        invariant writes == old(writes) + CharsWrites(link, s[..i])
      {
        if s[i] as int < 128 {
          SendASCII(s[i] as int as Byte);
        }
        CharsWritesSnoc(link, s, i);
        i := i + 1;
      }
      assert s[..|s|] == s;
    }
  }

  /** Adopting a characteristic on a known peripheral sends exactly the byte
      'A'. */
  lemma DiscoverySendsTestByte(link: Link, cs: seq<Characteristic>, p: Peripheral)
    requires FirstWritable(cs).Some?
    ensures WrittenBytes(ASCIIWrites(link.(peripheral := Some(p), characteristic := FirstWritable(cs), isConnected := true), 65)) == [65]
  {
    AdoptedCharacteristicIsWritable(cs, p, 65);
  }

  /** The old kana keyboard. */
  class KanaKeyboardView {
    const bleManager: BLEManager

    constructor (bleManager: BLEManager)
      ensures this.bleManager == bleManager
    {
      this.bleManager := bleManager;
    }

    method HandleKeyTap(ch: string)
      modifies bleManager
      ensures bleManager.State() == old(bleManager.State())
      ensures bleManager.writes == old(bleManager.writes) + OldKanaKeyWrites(old(bleManager.CurrentLink()), ch)
    {
      match ch
      case "Space" => bleManager.SendASCII(32);
      case "Del" => bleManager.SendASCII(8);
      case "Enter" => bleManager.SendASCII(13);
      case "Aあ" =>
        bleManager.SendASCII(17);
        bleManager.SendASCII(32);
      case _ =>
        var romaji := OldConvertToRomaji(ch);
        bleManager.SendString(romaji);
    }
  }

  /** A character key of the old English and symbol keyboards sends the first
      scalar value of its label, which must fit in a byte. */
  method SendCharacterKey(bleManager: BLEManager, key: string)
    requires key != [] && key[0] as int < 0x100
    modifies bleManager
    ensures bleManager.State() == old(bleManager.State())
    ensures bleManager.writes == old(bleManager.writes) + ASCIIWrites(old(bleManager.CurrentLink()), key[0] as int as Byte)
  {
    bleManager.SendASCII(key[0] as int as Byte);
  }

  /** The old English keyboard's `alphabetRows`. */
  const OldAlphabetRows: seq<seq<string>> := [
    ["q", "w", "e", "r", "t", "y", "u", "i", "o", "p"],
    ["a", "s", "d", "f", "g", "h", "j", "k", "l"],
    ["z", "x", "c", "v", "b", "n", "m"]
  ]

  /** The old English keyboard's `numberRow`. */
  const OldNumberRow: seq<string> := ["1", "2", "3", "4", "5", "6", "7", "8", "9", "0"]

  /** The old symbol keyboard's `symbolRows`. */
  const OldSymbolRows: seq<seq<string>> := [
    ["!", "@", "#", "$", "%", "^", "&", "*", "(", ")"],
    ["_", "+", "-", "=", "[", "]", "\\", "{", "}", "|"],
    [";", "'", ":", "\"", ",", ".", "/", "<", ">", "?"]
  ]

  /** Every character key of the old English and symbol layouts meets that
      demand, with an ASCII value. */
  lemma CharacterKeysFitInAByte(row: nat, col: nat)
    ensures col < |OldNumberRow| ==> OldNumberRow[col] != [] && OldNumberRow[col][0] as int < 128
    ensures row < |OldAlphabetRows| && col < |OldAlphabetRows[row]| ==>
      OldAlphabetRows[row][col] != [] && OldAlphabetRows[row][col][0] as int < 128
    ensures row < |OldSymbolRows| && col < |OldSymbolRows[row]| ==>
      OldSymbolRows[row][col] != [] && OldSymbolRows[row][col][0] as int < 128
  {
  }
}
