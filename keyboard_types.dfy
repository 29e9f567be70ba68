/** The keyboard enums: which keyboard is shown, the special keys (their raw
    strings, labels and ASCII codes) and the five flick directions, whose raw
    values are the indices into a key's candidate list. */
module KeyboardTypes {
  import opened Wrappers
  import opened Ascii

  datatype KeyboardType = Kana | English | Symbol

  datatype SpecialKey =
    | Space | Delete | Enter | Shift | Ctrl | Alt | Escape | Tab | SwitchToEnglish | Numbers

  /** The `String` raw value of each case. */
  function RawValue(k: SpecialKey): string {
    match k
    case Space => "Space"
    case Delete => "Del"
    case Enter => "Enter"
    case Shift => "Shift"
    case Ctrl => "Ctrl"
    case Alt => "Alt"
    case Escape => "ESC"
    case Tab => "Tab"
    case SwitchToEnglish => "Aあ"
    case Numbers => "123"
  }

  /** `SpecialKey(rawValue:)`: the case whose raw value is `s`, or nil. */
  function FromRawValue(s: string): Option<SpecialKey> {
    match s
    case "Space" => Some(Space)
    case "Del" => Some(Delete)
    case "Enter" => Some(Enter)
    case "Shift" => Some(Shift)
    case "Ctrl" => Some(Ctrl)
    case "Alt" => Some(Alt)
    case "ESC" => Some(Escape)
    case "Tab" => Some(Tab)
    case "Aあ" => Some(SwitchToEnglish)
    case "123" => Some(Numbers)
    case _ => None
  }

  /** Raw values and `init(rawValue:)` are inverse: every case is recovered from
      its raw value, and a string is recognised only if it is some case's raw value. */
  lemma RawValueRoundTrip(k: SpecialKey, s: string)
    ensures FromRawValue(RawValue(k)) == Some(k)
    ensures FromRawValue(s) == Some(k) <==> RawValue(k) == s
  {
    match s
    case "Space" =>
    case "Del" =>
    case "Enter" =>
    case "Shift" =>
    case "Ctrl" =>
    case "Alt" =>
    case "ESC" =>
    case "Tab" =>
    case "Aあ" =>
    case "123" =>
    case _ =>
  }

  /** The raw values are pairwise distinct. */
  lemma RawValueInjective(a: SpecialKey, b: SpecialKey)
    ensures RawValue(a) == RawValue(b) ==> a == b
  {
    RawValueRoundTrip(a, RawValue(b));
  }

  function DisplayText(k: SpecialKey): string {
    match k
    case Space => "空白"
    case Delete => "削除"
    case Enter => "改行"
    case Shift => "⇧ Shift"
    case Ctrl => "^ Ctrl"
    case Alt => "⌥ ALT"
    case Escape => "ESC"
    case Tab => "Tab"
    case SwitchToEnglish => "英/あ"
    case Numbers => "123"
  }

  function AsciiCode(k: SpecialKey): Option<Byte> {
    match k
    case Space => Some(32)
    case Delete => Some(8)
    case Enter => Some(13)
    case Escape => Some(27)
    case Tab => Some(9)
    case _ => None
  }

  /** The keys with a code send the US-ASCII (RFC 20) characters they are named
      after; modifiers and keyboard switches have no code of their own. */
  lemma AsciiCodeTable(k: SpecialKey)
    ensures AsciiCode(k).None? <==> k in {Shift, Ctrl, Alt, SwitchToEnglish, Numbers}
    ensures AsciiCode(k) == Some(32) <==> k == Space
    ensures AsciiCode(k) == Some(8) <==> k == Delete
    ensures AsciiCode(k) == Some(13) <==> k == Enter
    ensures AsciiCode(k) == Some(27) <==> k == Escape
    ensures AsciiCode(k) == Some(9) <==> k == Tab
  {
  }

  datatype FlickDirection = Center | Right | Up | Left | Down

  /** The `Int` raw value of each direction. */
  function DirectionRawValue(d: FlickDirection): nat {
    match d
    case Center => 0
    case Right => 1
    case Up => 2
    case Left => 3
    case Down => 4
  }

  /** `FlickDirection(rawValue:)`. */
  function DirectionFromRawValue(i: int): Option<FlickDirection> {
    if i == 0 then Some(Center)
    else if i == 1 then Some(Right)
    else if i == 2 then Some(Up)
    else if i == 3 then Some(Left)
    else if i == 4 then Some(Down)
    else None
  }

  /** The raw values are exactly 0..4 and identify the direction. */
  lemma DirectionRawValueBijective(d: FlickDirection, i: int)
    ensures DirectionRawValue(d) < 5
    ensures DirectionFromRawValue(i).Some? <==> 0 <= i < 5
    ensures DirectionFromRawValue(i) == Some(d) <==> DirectionRawValue(d) == i
  {
  }

  function DirectionDescription(d: FlickDirection): string {
    match d
    case Center => "中央"
    case Right => "右"
    case Up => "上"
    case Left => "左"
    case Down => "下"
  }
}
