# BLEUSBKBD in Dafny

BLEUSBKBD is an iOS keyboard app. It turns the phone into a keyboard for a
computer: each key press becomes one ASCII byte, written over Bluetooth LE to
an Arduino/ESP32 bridge that types it on the host over USB. There are three
keyboards:

- **Kana:** a flick keyboard. Kana are sent as their romaji spelling, and a
  dakuten/handakuten/small-kana row can replace the character just typed.
- **English:** one-shot Shift, Ctrl and Alt.
- **Symbol.**

This project models the app's core and proves what it promises. It has one
Dafny module per Swift source file, plus two helper modules:

| module | Swift file | form |
|---|---|---|
| `KeyboardTypes` | KeyboardTypes.swift | pure: `SpecialKey` raw values, display texts and ASCII codes; `FlickDirection` |
| `FlickInputSupport` | FlickInputSupport.swift | pure: the flick, dakuten, handakuten, small-kana and romaji tables, the modifier queries and the kana layout |
| `KeyboardComponents` | KeyboardComponents.swift | the direction classifier, and the flick key button as a class with its drag handlers |
| `BLE` | BLEManager.swift | the manager as a class whose writes are appended to a log; the pure functions that describe those writes |
| `KeyboardViews` | KeyboardViews.swift | the kana, English and symbol keyboards as classes holding the shared manager |
| `BLEUSBKBDApp` | BLEUSBKBDApp.swift | the earlier single-file version: its manager, romaji table, flick map, threshold-20 classifier, flick key and kana dispatch |
| `Wrappers`, `Ascii` | — | `Option`; Swift's `asciiValue`, ASCII `lowercased`, `contains` and the decimal form of an integer |

CoreBluetooth is replaced by plain inputs:

- A callback becomes a method that takes the data it carries, such as a
  peripheral with its name, a signal strength, or a characteristic list.
- Every `writeValue` appends a `Write` to the manager's `writes` log. A `Write`
  holds the byte and the write type.
- The pure `Link` snapshot holds `isConnected`, the peripheral and the
  characteristic. Functions over it describe the writes each send operation
  issues, such as `ASCIIWrites` and `StringWrites`.
- Each send method ensures `writes == old(writes) + F(old(CurrentLink()), …)`.
  The properties are proved as lemmas about `F`.

Deferred blocks run as explicit later calls:

- `ScanTimeoutElapsed` is the 30 s scan stop.
- `ResetState` is the 0.1 s reset after a key release.
- The 2 s reconnect is a later `StartScanning`.

Every key of the Swift dictionaries is one Unicode scalar. So each dictionary
becomes a length check followed by a `match` on that character. The romaji
table's match is split into the dictionary's own five groups: plain kana,
dakuten, handakuten, small kana and punctuation.

Drag offsets are integers. "Distance > 15" is decided on squared distances,
which order offsets the same way `sqrt` does.

## Model

| member | source | states |
|---|---|---|
| Ascii.AsciiBytesAppend | BLEUSBKBD/BLEUSBKBD/BLEManager.swift:107-112 | the ASCII codes of a concatenation are the codes of the parts, concatenated |
| Ascii.AsciiBytesBounds | BLEUSBKBD/BLEUSBKBD/BLEManager.swift:107-112 | a string yields at most one code per character, each below 128 |
| Ascii.AsciiRoundTrip | BLEUSBKBD/BLEUSBKBD/BLEManager.swift:107-112 | for an ASCII string the codes sent spell the string back |
| Ascii.AsciiBytesOfNonAscii | BLEUSBKBD/BLEUSBKBD/BLEManager.swift:107-112 | a string with no ASCII character yields no codes |
| Ascii.Lowercased | BLEUSBKBD/BLEUSBKBD/BLEManager.swift:187 | lower-casing keeps the length, moves each of A-Z up 32 code points to a-z, and leaves every other character as it is |
| Ascii.LowercasedIsLower | BLEUSBKBD/BLEUSBKBD/BLEManager.swift:187-190 | no upper-case letter is left after lower-casing, so lower-casing twice is the same as once; the name test can therefore match against lower-case words only |
| Ascii.ContainsIff | BLEUSBKBD/BLEUSBKBD/BLEManager.swift:188-190 | `contains` holds exactly when the word occurs at some position |
| Ascii.NatDigitsRoundTrip | BLEUSBKBD/BLEUSBKBD/BLEManager.swift:194-196 | the decimal digits of a natural number are a non-empty string of digits that reads back as that number |
| Ascii.DecimalStringSign | BLEUSBKBD/BLEUSBKBD/BLEManager.swift:194-196 | the decimal form is non-empty and starts with '-' exactly for negative numbers |
| Ascii.DecimalStringInjective | BLEUSBKBD/BLEUSBKBD/BLEManager.swift:194-196 | different numbers have different decimal forms |
| KeyboardTypes.RawValueRoundTrip | BLEUSBKBD/BLEUSBKBD/KeyboardTypes.swift:25-35 | `SpecialKey(rawValue:)` inverts `rawValue`: it finds a case exactly for that case's raw string |
| KeyboardTypes.RawValueInjective | BLEUSBKBD/BLEUSBKBD/KeyboardTypes.swift:25-35 | the raw values are pairwise distinct |
| KeyboardTypes.AsciiCodeTable | BLEUSBKBD/BLEUSBKBD/KeyboardTypes.swift:54-63 | space, delete, enter, escape and tab have codes 32, 8, 13, 27 and 9, each code belongs to one key only, and the other five keys have none |
| KeyboardTypes.DirectionRawValueBijective | BLEUSBKBD/BLEUSBKBD/KeyboardTypes.swift:67-72 | the direction raw values are exactly 0..4, one per direction, and `init(rawValue:)` inverts them |
| FlickInputSupport.RomajiValuesAscii | BLEUSBKBD/BLEUSBKBD/FlickInputSupport.swift:52-81 | every romaji entry is a non-empty ASCII string |
| FlickInputSupport.ConvertToRomajiFallback | BLEUSBKBD/BLEUSBKBD/FlickInputSupport.swift:86-88 | conversion gives the table entry for a key, and returns its input unchanged exactly when the input is not a key |
| FlickInputSupport.GetFlickCharacters | BLEUSBKBD/BLEUSBKBD/FlickInputSupport.swift:106-108 | the candidates of any key are 1 to 5 strings, the first being the key |
| FlickInputSupport.FlickCharactersHaveRomaji | BLEUSBKBD/BLEUSBKBD/FlickInputSupport.swift:17-29 | every candidate in the flick table has a romaji entry |
| FlickInputSupport.CanShowIffModifiersAvailable | BLEUSBKBD/BLEUSBKBD/FlickInputSupport.swift:111-134 | the modifier row can be shown exactly when some modifier is available |
| FlickInputSupport.AvailableModifiersSpec | BLEUSBKBD/BLEUSBKBD/FlickInputSupport.swift:118-146 | a modifier is listed exactly when it yields a character, and the list is in the order dakuten, handakuten, small, without repeats |
| FlickInputSupport.HandakutenImpliesDakuten | BLEUSBKBD/BLEUSBKBD/FlickInputSupport.swift:32-43 | every key of the handakuten table is a key of the dakuten table |
| FlickInputSupport.ModifiedCharactersHaveRomaji | BLEUSBKBD/BLEUSBKBD/FlickInputSupport.swift:32-81 | every modified character has a romaji entry and cannot itself be modified again |
| FlickInputSupport.KanaRowsClassified | BLEUSBKBD/BLEUSBKBD/FlickInputSupport.swift:171-187 | every entry of the layout is exactly one of a kana key and a special key |
| KeyboardComponents.GetFlickChar | BLEUSBKBD/BLEUSBKBD/KeyboardComponents.swift:404-434 | with at most one candidate the result is the key; otherwise it is one of the candidates |
| KeyboardComponents.FlickDirectionOf | BLEUSBKBD/BLEUSBKBD/KeyboardComponents.swift:407-433 | centre exactly inside the 15 dead zone; otherwise the axis with the strictly larger movement decides, a tie goes to the horizontal axis, and the sign picks the direction |
| KeyboardComponents.GetFlickCharFollowsDirection | BLEUSBKBD/BLEUSBKBD/KeyboardComponents.swift:414-433 | the selected candidate is the one at the raw value of the drag's direction, or the first if that index is missing |
| KeyboardComponents.ReleasedChar | BLEUSBKBD/BLEUSBKBD/KeyboardComponents.swift:354-365 | a release within distance 15 reports the key; beyond that it reports the selection, or the key if nothing is selected |
| KeyboardComponents.IOSFlickKeyButton.constructor | BLEUSBKBD/BLEUSBKBD/KeyboardComponents.swift:218-227 | a fresh button is idle with nothing selected and nothing reported |
| KeyboardComponents.IOSFlickKeyButton.HandleDragChanged | BLEUSBKBD/BLEUSBKBD/KeyboardComponents.swift:316-345 | ignored after the gesture fired; otherwise the key is pressed and the offset recorded, and beyond 15 with several candidates it is dragging with the classified candidate selected, else the first candidate is selected |
| KeyboardComponents.IOSFlickKeyButton.HandleDragEnded | BLEUSBKBD/BLEUSBKBD/KeyboardComponents.swift:348-369 | reports exactly one string per gesture (nothing once fired), then is fired and released; reported strings are always the key or a candidate |
| KeyboardComponents.IOSFlickKeyButton.ResetState | BLEUSBKBD/BLEUSBKBD/KeyboardComponents.swift:372-379 | clears the selection, the offset and the dragging and fired flags |
| KeyboardComponents.DisplayTextAgrees | BLEUSBKBD/BLEUSBKBD/KeyboardComponents.swift:382-391 | the button's label for a special key's raw string is that key's `displayText`, and any other key is shown as itself |
| KeyboardComponents.FontSizeMarksSpecialKeys | BLEUSBKBD/BLEUSBKBD/KeyboardComponents.swift:394-401 | the font size is 16 exactly for the layout's special keys and 22 otherwise |
| KeyboardComponents.SpecialKeyButtonAgreesWithLayout | BLEUSBKBD/BLEUSBKBD/KeyboardComponents.swift:230-232 | on the kana layout, the button's own special-key test agrees with the layout's |
| BLE.WrittenBytesAppend | BLEUSBKBD/BLEUSBKBD/BLEManager.swift:86-96 | the bytes of consecutive writes are the bytes of each, concatenated |
| BLE.WriteTypeFor | BLEUSBKBD/BLEUSBKBD/BLEManager.swift:173-183 | without response exactly when allowed; with response exactly when only that is allowed; no write exactly when neither is |
| BLE.ASCIIWrites | BLEUSBKBD/BLEUSBKBD/BLEManager.swift:86-96 | at most one write; one exactly when a peripheral and a writable characteristic are present, carrying the byte with the chosen write type |
| BLE.CharsWritesAppend | BLEUSBKBD/BLEUSBKBD/BLEManager.swift:107-112 | sending a concatenation issues the writes of the parts in order |
| BLE.CharsWritesSnoc | BLEUSBKBD/BLEUSBKBD/BLEManager.swift:107-112 | sending one more character of a string adds exactly that character's writes, which is the step the send loop takes |
| BLE.CharsWritesBytes | BLEUSBKBD/BLEUSBKBD/BLEManager.swift:107-112 | with a writable target the bytes written are the ASCII codes of the string; without one nothing is written |
| BLE.StringWritesSpec | BLEUSBKBD/BLEUSBKBD/BLEManager.swift:100-113 | when connected and writable a string goes out as its ASCII codes in order, skipping non-ASCII characters; otherwise nothing is written |
| BLE.CtrlKeyLetters | BLEUSBKBD/BLEUSBKBD/BLEManager.swift:122-129 | with Ctrl the letters a-z become 1..26 and bytes 96..127 become control codes; without Ctrl, or below 96, the key is unchanged |
| BLE.IsArduinoDeviceIff | BLEUSBKBD/BLEUSBKBD/BLEManager.swift:186-191 | a name is adopted exactly when "arduino", "esp32" or "nano" occurs in its lower-cased form, ignoring the case of letters |
| BLE.CreateDeviceInfoSpec | BLEUSBKBD/BLEUSBKBD/BLEManager.swift:194-196 | the entry starts with the name, and one name with different signal strengths gives different entries |
| BLE.FirstWritableSpec | BLEUSBKBD/BLEUSBKBD/BLEManager.swift:316-325 | nothing is adopted exactly when no characteristic is writable; otherwise the adopted one is writable and every one before it is not |
| BLE.AdoptedCharacteristicIsWritable | BLEUSBKBD/BLEUSBKBD/BLEManager.swift:343-349 | after adoption every `sendASCII` issues exactly one write |
| BLE.BLEManager.constructor | BLEUSBKBD/BLEUSBKBD/BLEManager.swift:21-46 | a new manager is not powered on, not scanning, not connected, with no devices, peripheral, characteristic or writes |
| BLE.BLEManager.CentralManagerDidUpdateState | BLEUSBKBD/BLEUSBKBD/BLEManager.swift:209-229 | records the power state; power-on starts a scan with an empty device list |
| BLE.BLEManager.StartScanning | BLEUSBKBD/BLEUSBKBD/BLEManager.swift:52-69 | nothing unless powered on; otherwise scanning with an empty device list, and nothing else changes |
| BLE.BLEManager.StopScanning | BLEUSBKBD/BLEUSBKBD/BLEManager.swift:72-76 | only the scanning flag drops |
| BLE.BLEManager.ScanTimeoutElapsed | BLEUSBKBD/BLEUSBKBD/BLEManager.swift:164-170 | the timeout leaves the manager not scanning and changes nothing else |
| BLE.BLEManager.SendASCII | BLEUSBKBD/BLEUSBKBD/BLEManager.swift:86-97 | appends exactly the writes of `ASCIIWrites` for the current link and changes no state |
| BLE.BLEManager.SendData | BLEUSBKBD/BLEUSBKBD/BLEManager.swift:173-183 | appends one write with the chosen write type, or none |
| BLE.BLEManager.SendString | BLEUSBKBD/BLEUSBKBD/BLEManager.swift:100-113 | appends exactly the writes of `StringWrites`: the loop keeps the writes equal to those of the characters sent so far |
| BLE.BLEManager.SendControlSequence | BLEUSBKBD/BLEUSBKBD/BLEManager.swift:116-130 | nothing while disconnected; otherwise the Ctrl-adjusted byte |
| BLE.BLEManager.SendTestMessage | BLEUSBKBD/BLEUSBKBD/BLEManager.swift:133-136 | sends 'A' (65) |
| BLE.BLEManager.DidDiscover | BLEUSBKBD/BLEUSBKBD/BLEManager.swift:231-250 | appends "<name> (<rssi>dBm)" only if absent, so the list never holds duplicates; an Arduino-like name is adopted and ends the scan |
| BLE.BLEManager.AttemptConnection | BLEUSBKBD/BLEUSBKBD/BLEManager.swift:271-279 | records the peripheral and stops scanning |
| BLE.BLEManager.DidDisconnect | BLEUSBKBD/BLEUSBKBD/BLEManager.swift:260-268 | only `isConnected` drops; the peripheral and characteristic stay |
| BLE.BLEManager.DidDiscoverCharacteristics | BLEUSBKBD/BLEUSBKBD/BLEManager.swift:304-332 | an error, a missing list or no writable entry changes nothing; otherwise the first writable characteristic is adopted and the link marked connected |
| BLE.BLEManager.HandleWritableCharacteristic | BLEUSBKBD/BLEUSBKBD/BLEManager.swift:343-349 | records the characteristic and sets `isConnected` |
| KeyboardViews.KanaPunctuationBytesAgree | BLEUSBKBD/BLEUSBKBD/KeyboardViews.swift:86-104 | the punctuation keys bypass the romaji table but send exactly the one byte their romaji entry spells |
| KeyboardViews.KanaControlBytesAgree | BLEUSBKBD/BLEUSBKBD/KeyboardViews.swift:86-104 | Space, Del and Enter send the ASCII codes their `SpecialKey` cases carry |
| KeyboardViews.KanaFixedKeysSendOneByte | BLEUSBKBD/BLEUSBKBD/KeyboardViews.swift:85-104 | each of the eight fixed keys sends exactly its one byte (32, 8, 13, 44, 46, 45, 63, 255), and "123" sends nothing |
| KeyboardViews.EveryKanaKeyReportSends | BLEUSBKBD/BLEUSBKBD/KeyboardViews.swift:85-115 | everything a key of the layout can report is sent, as a byte or as its non-empty ASCII romaji |
| KeyboardViews.KanaTapTypesRomaji | BLEUSBKBD/BLEUSBKBD/KeyboardViews.swift:105-110 | on a finished connection a kana is typed on the host as exactly its romaji |
| KeyboardViews.BackspaceThenText | BLEUSBKBD/BLEUSBKBD/KeyboardViews.swift:120-131 | a backspace followed by an ASCII spelling reaches the host as those characters |
| KeyboardViews.ModifierTapReplacesLastCharacter | BLEUSBKBD/BLEUSBKBD/KeyboardViews.swift:120-131 | choosing a modifier sends backspace, then the modified character's romaji |
| KeyboardViews.KanaKeyboardView.constructor | BLEUSBKBD/BLEUSBKBD/KeyboardViews.swift:11-15 | the modifier row starts hidden with no remembered character |
| KeyboardViews.KanaKeyboardView.HandleKeyTap | BLEUSBKBD/BLEUSBKBD/KeyboardViews.swift:79-117 | hides the row, sends what the string calls for, and shows the row again with `lastInputChar` set exactly for a sent kana that has a modifier |
| KeyboardViews.KanaKeyboardView.HandleModifierKeyTap | BLEUSBKBD/BLEUSBKBD/KeyboardViews.swift:120-135 | backspace, then the romaji of the modified character; the row is hidden and `lastInputChar` cleared |
| KeyboardViews.KanaKeyboardView.TapModifierButton | BLEUSBKBD/BLEUSBKBD/KeyboardViews.swift:53-65 | every button the row offers has a modified character, and tapping it replaces the last character |
| KeyboardViews.KanaKeyboardView.ShowModifierKeysFor | BLEUSBKBD/BLEUSBKBD/KeyboardViews.swift:138-149 | remembers the character and shows the row |
| KeyboardViews.KanaKeyboardView.HideModifierKeys | BLEUSBKBD/BLEUSBKBD/KeyboardViews.swift:152-158 | hides the row and forgets the character |
| KeyboardViews.EnglishFunctionKeysAgree | BLEUSBKBD/BLEUSBKBD/KeyboardViews.swift:233-251 | the ESC, Tab, Space, Del and Enter buttons send their `SpecialKey` ASCII codes |
| KeyboardViews.EnglishKeysAreAscii | BLEUSBKBD/BLEUSBKBD/KeyboardViews.swift:168-174 | every character key has an ASCII first character, a digit or a lower-case letter |
| KeyboardViews.GetShiftedASCIISpec | BLEUSBKBD/BLEUSBKBD/KeyboardViews.swift:284-296 | a-z become A-Z (minus 32), 1-9 become `!@#$%^&*(`, 0 becomes `)`, and every other byte is unchanged; the table index stays in range |
| KeyboardViews.ShiftedKeysDistinct | BLEUSBKBD/BLEUSBKBD/KeyboardViews.swift:284-296 | no two character keys give the same shifted byte |
| KeyboardViews.ModifiedKeySendsOneByte | BLEUSBKBD/BLEUSBKBD/KeyboardViews.swift:264-270 | on a finished connection one byte goes out: shifted under Shift, else the control code under Ctrl, else the key |
| KeyboardViews.EnglishKeyboardView.constructor | BLEUSBKBD/BLEUSBKBD/KeyboardViews.swift:162-166 | all three modifiers start released |
| KeyboardViews.EnglishKeyboardView.ToggleShift | BLEUSBKBD/BLEUSBKBD/KeyboardComponents.swift:51-53 | the Shift button flips only its own flag |
| KeyboardViews.EnglishKeyboardView.ToggleCtrl | BLEUSBKBD/BLEUSBKBD/KeyboardComponents.swift:51-53 | the Ctrl button flips only its own flag |
| KeyboardViews.EnglishKeyboardView.ToggleAlt | BLEUSBKBD/BLEUSBKBD/KeyboardComponents.swift:51-53 | the Alt button flips only its own flag |
| KeyboardViews.EnglishKeyboardView.SendModifiedKey | BLEUSBKBD/BLEUSBKBD/KeyboardViews.swift:258-274 | no ASCII first character: nothing changes; otherwise the byte chosen by Shift, then Ctrl, with Alt ignored, and all three flags released |
| KeyboardViews.EnglishKeyboardView.ResetModifierKeys | BLEUSBKBD/BLEUSBKBD/KeyboardViews.swift:277-281 | all three flags released |
| KeyboardViews.SymbolByteSpec | BLEUSBKBD/BLEUSBKBD/KeyboardViews.swift:303-355 | a symbol is sent exactly when its first scalar value is at most 255, as that value; every symbol key is sent and spells itself back |
| KeyboardViews.SymbolKeyboardView.constructor | BLEUSBKBD/BLEUSBKBD/KeyboardViews.swift:300-301 | holds the shared manager |
| KeyboardViews.SymbolKeyboardView.SendSymbol | BLEUSBKBD/BLEUSBKBD/KeyboardViews.swift:351-355 | sends the symbol's byte, or nothing |
| BLEUSBKBDApp.OldConvertToRomajiSpec | BLEUSBKBD/BLEUSBKBD/BLEUSBKBDApp.swift:410-425 | the old conversion gives the non-empty ASCII entry for a key, and the input unchanged otherwise |
| BLEUSBKBDApp.OldRomajiAgreesWithCurrent | BLEUSBKBD/BLEUSBKBD/BLEUSBKBDApp.swift:411-423 | every entry of the old table is also an entry of the current table |
| BLEUSBKBDApp.OldGetFlickChar | BLEUSBKBD/BLEUSBKBD/BLEUSBKBDApp.swift:477-495 | the key with at most one candidate; otherwise always one of the candidates |
| BLEUSBKBDApp.OldFlickClassifier | BLEUSBKBD/BLEUSBKBD/BLEUSBKBDApp.swift:480-494 | picks the candidate at the recognised direction's index, or the first; no direction exactly when a movement is at 20 or both exceed 20; a recognised non-centre direction agrees with the current classifier |
| BLEUSBKBDApp.FlickKeyButton.constructor | BLEUSBKBD/BLEUSBKBD/BLEUSBKBDApp.swift:429-435 | a fresh key has no offset, no selection, no recognised drag and no reports |
| BLEUSBKBDApp.FlickKeyButton.OnChanged | BLEUSBKBD/BLEUSBKBD/BLEUSBKBDApp.swift:463-467 | the drag is recognised once the touch has moved at least 10 points and stays recognised; while it is, the offset is recorded and the classified candidate selected, and before that nothing changes |
| BLEUSBKBDApp.FlickKeyButton.OnEnded | BLEUSBKBD/BLEUSBKBD/BLEUSBKBDApp.swift:463-473 | a recognised drag reports the selection, or the key if none, then clears the selection and offset; a touch never recognised reports nothing; reports are always the key or a candidate |
| BLEUSBKBDApp.ClassifiedCandidateNonEmpty | BLEUSBKBD/BLEUSBKBD/BLEUSBKBDApp.swift:466-470 | the classifier never selects "", so a drag reports the classified candidate |
| BLEUSBKBDApp.LanguageSwitchChanged | BLEUSBKBD/BLEUSBKBD/BLEUSBKBDApp.swift:399-402 | the old "Aあ" sends 17 then 32, the current one 255 |
| BLEUSBKBDApp.OldLayoutReportsClassified | BLEUSBKBD/BLEUSBKBD/BLEUSBKBDApp.swift:351-370 | everything a key of the old layout reports is a control key or a key of the old romaji table |
| BLEUSBKBDApp.OldKanaReportsAreTyped | BLEUSBKBD/BLEUSBKBD/BLEUSBKBDApp.swift:391-407 | on a finished connection every such report sends something, and a kana is typed as its old romaji |
| BLEUSBKBDApp.BLEManager.constructor | BLEUSBKBD/BLEUSBKBD/BLEUSBKBDApp.swift:22-42 | a new manager holds nothing and has written nothing |
| BLEUSBKBDApp.BLEManager.CentralManagerDidUpdateState | BLEUSBKBD/BLEUSBKBD/BLEUSBKBDApp.swift:44-64 | records the power state; power-on starts a scan with an empty device list |
| BLEUSBKBDApp.BLEManager.StartScanning | BLEUSBKBD/BLEUSBKBD/BLEUSBKBDApp.swift:66-88 | nothing unless powered on; otherwise scanning with an empty device list |
| BLEUSBKBDApp.BLEManager.StopScanning | BLEUSBKBD/BLEUSBKBD/BLEUSBKBDApp.swift:90-96 | only the scanning flag drops |
| BLEUSBKBDApp.BLEManager.ScanTimeoutElapsed | BLEUSBKBD/BLEUSBKBD/BLEUSBKBDApp.swift:134-139 | the timeout leaves the manager not scanning |
| BLEUSBKBDApp.BLEManager.DidDiscover | BLEUSBKBD/BLEUSBKBD/BLEUSBKBDApp.swift:103-132 | appends the device string only if absent, keeping the list free of duplicates; an Arduino-like name is adopted and ends the scan |
| BLEUSBKBDApp.BLEManager.DidDiscoverCharacteristics | BLEUSBKBD/BLEUSBKBD/BLEUSBKBDApp.swift:171-210 | adopts the first writable characteristic, marks the link connected and sends 'A' on it; otherwise nothing changes |
| BLEUSBKBDApp.BLEManager.SendTestMessage | BLEUSBKBD/BLEUSBKBD/BLEUSBKBDApp.swift:212-215 | sends 'A' (65) |
| BLEUSBKBDApp.BLEManager.DidDisconnect | BLEUSBKBD/BLEUSBKBD/BLEUSBKBDApp.swift:217-226 | only `isConnected` drops |
| BLEUSBKBDApp.BLEManager.SendASCII | BLEUSBKBD/BLEUSBKBD/BLEUSBKBDApp.swift:228-248 | the same writes as the current `sendASCII`: one write with the preferred type when a peripheral and a writable characteristic are present |
| BLEUSBKBDApp.BLEManager.SendString | BLEUSBKBD/BLEUSBKBD/BLEUSBKBDApp.swift:250-264 | nothing while disconnected; otherwise the ASCII codes in order, skipping non-ASCII characters |
| BLEUSBKBDApp.DiscoverySendsTestByte | BLEUSBKBD/BLEUSBKBD/BLEUSBKBDApp.swift:187-199 | adopting a characteristic on a known peripheral writes exactly the byte 65 |
| BLEUSBKBDApp.KanaKeyboardView.constructor | BLEUSBKBD/BLEUSBKBD/BLEUSBKBDApp.swift:348-349 | holds the shared manager |
| BLEUSBKBDApp.KanaKeyboardView.HandleKeyTap | BLEUSBKBD/BLEUSBKBD/BLEUSBKBDApp.swift:391-408 | Space, Del and Enter send 32, 8 and 13, "Aあ" sends 17 then 32, anything else is sent as its old romaji |
| BLEUSBKBDApp.SendCharacterKey | BLEUSBKBD/BLEUSBKBD/BLEUSBKBDApp.swift:514-528 | a character key of the old English or symbol keyboard sends its first scalar value, which must fit in a byte |
| BLEUSBKBDApp.CharacterKeysFitInAByte | BLEUSBKBD/BLEUSBKBD/BLEUSBKBDApp.swift:502-563 | every character key of the old English and symbol layouts meets that demand with an ASCII value |

## Left out

- SwiftUI presentation is not modelled. This covers every `body`, the key backgrounds and texts, the candidate overlay, the button styles, key widths and animations. The one piece of SwiftUI behaviour that decides what is sent, the old key's drag recognition, is modelled in `BLEUSBKBDApp.FlickKeyButton`.
- Haptic feedback is not modelled; it is a side effect outside the app.
- `connectionStatus` and its strings are not modelled, including the status set by `centralManagerDidUpdateState` for states other than powered-on. They are display text only.
- `didConnect` and `didDiscoverServices` are not modelled. They only issue CoreBluetooth requests and set status text, and the library is not visible.
- `didWriteValueFor` is not modelled; it only logs.
- Timing is not modelled: the 3 s auto-hide timer of the modifier row, the `usleep` pacing between bytes and `DispatchQueue` hand-offs. Deferred blocks are explicit later calls, and `async` updates on the main queue take effect at once.
- `print` logging is left out. So are the empty `connectToDevice` stubs and the unimplemented `BLEConnectionDelegate` and `KeyboardInputProtocol` protocols.
- The old file's `KeyboardType`, `ContentView` and `KeyButton` are not modelled; they are view plumbing. Its English and symbol keyboards are covered only through `BLEUSBKBDApp.SendCharacterKey`.
- `getDakutenCharacter`, `getHandakutenCharacter` and `getSmallCharacter` are plain lookups. They are the functions `DakutenMap`, `HandakutenMap` and `SmallCharacterMap` themselves.
- Ascii.AsciiBytes: a Swift `String` is iterated by grapheme clusters, while a Dafny `string` is a sequence of Unicode scalars. The model treats each scalar as one character, which differs only for multi-scalar clusters. The same choice shapes Ascii.Contains and BLE.IsArduinoDevice ("nano" followed by a combining U+0301 matches per scalar but not per Swift `Character`) and KeyboardViews.FirstAscii (`first?.asciiValue` of "\r\n" is 10 in Swift, 13 here). No key of the layouts is such a cluster.
- Ascii.Lowercased: only ASCII letters are lower-cased. Swift's `lowercased()` also folds other scripts, which cannot change whether the ASCII words "arduino", "esp32" or "nano" occur.
- KeyboardComponents.GetFlickChar: the right-flick fallback `flickChars[0]` is dropped, because that branch is only reached with more than one candidate. The same holds for `BLEUSBKBDApp.OldGetFlickChar`.
- KeyboardComponents.FlickDirectionOf: offsets are integers rather than `CGFloat`, and `sqrt(dx² + dy²) > 15` is decided as `dx² + dy² > 225`.
- BLE.CreateDeviceInfo: the signal strength is an integer. The `NSNumber` it comes from prints as its decimal form.
- Dictionary lookups compare Unicode scalars. Swift compares `String` keys by canonical equivalence, so a decomposed kana (base letter plus a combining dakuten) would find the entry of its precomposed form; the model does not find it.
- BLEUSBKBDApp.FlickKeyButton.OnChanged: the 10-point minimum distance is the default of SwiftUI's `DragGesture()`, which the source relies on without stating it. The model recognises a drag once its squared translation reaches 100; whether SwiftUI compares the distance with `>=` or `>` at exactly 10 points is not visible here.
