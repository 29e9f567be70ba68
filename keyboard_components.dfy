/** The flick key button: which candidate a drag selects, and the press, drag
    and release state machine that reports one string per gesture through
    `onTap`. Drag offsets are integers; "distance > 15" is decided on squared
    distances, which orders them exactly as `sqrt` does. */
module KeyboardComponents {
  import opened KeyboardTypes
  import FlickInputSupport

  /** Both the dead zone of the direction classifier and the tap radius. */
  const Threshold: int := 15

  function Abs(x: int): nat {
    if x < 0 then -x else x
  }

  /** `sqrt(dx * dx + dy * dy) > 15`. */
  predicate BeyondThreshold(dx: int, dy: int) {
    dx * dx + dy * dy > Threshold * Threshold
  }

  /** Inside the dead zone: both movements below the threshold. */
  predicate InDeadZone(dx: int, dy: int) {
    Abs(dx) < Threshold && Abs(dy) < Threshold
  }

  /** `isSpecialKey` of the button: every key but the kana and punctuation keys. */
  predicate IsSpecialKeyButton(key: string) {
    key !in ["あ", "か", "さ", "た", "な", "は", "ま", "や", "ら", "わ", "ん", "、", "。"]
  }

  function GetDisplayText(key: string): string {
    match key
    case "Space" => "空白"
    case "Del" => "削除"
    case "Enter" => "改行"
    case "Aあ" => "英/あ"
    case "123" => "123"
    case _ => key
  }

  function GetFontSize(key: string): nat {
    match key
    case "Space" => 16
    case "Del" => 16
    case "Enter" => 16
    case "Aあ" => 16
    case "123" => 16
    case _ => 22
  }

  /** The candidate a drag by (dx, dy) selects: the key itself when it has no
      alternatives, the first candidate inside the dead zone, otherwise the
      candidate of the dominant axis (ties go to the horizontal axis), falling
      back to the first candidate when that direction has none. */
  function GetFlickChar(key: string, flickChars: seq<string>, dx: int, dy: int): (r: string)
    ensures |flickChars| <= 1 ==> r == key
    ensures |flickChars| > 1 ==> r in flickChars
  {
    if |flickChars| <= 1 then key
    else if Abs(dx) < Threshold && Abs(dy) < Threshold then flickChars[0]
    else if Abs(dy) > Abs(dx) then
      if dy < 0 then (if |flickChars| > 2 then flickChars[2] else flickChars[0])
      else (if |flickChars| > 4 then flickChars[4] else flickChars[0])
    else
      // the source's `count > 1` fallback for the right flick is dead after the guard above
      if dx > 0 then flickChars[1]
      else (if |flickChars| > 3 then flickChars[3] else flickChars[0])
  }

  /** The direction of a drag, as a region of the plane: the dead square, then
      the dominant axis with ties to the horizontal one. */
  function FlickDirectionOf(dx: int, dy: int): (d: FlickDirection)
    ensures d == Center <==> InDeadZone(dx, dy)
    ensures d == Up <==> !InDeadZone(dx, dy) && dy < 0 && -dy > Abs(dx)
    ensures d == Down <==> !InDeadZone(dx, dy) && dy > 0 && dy > Abs(dx)
    ensures d == Right <==> !InDeadZone(dx, dy) && dx > 0 && dx >= Abs(dy)
    ensures d == Left <==> !InDeadZone(dx, dy) && dx < 0 && -dx >= Abs(dy)
  {
    if InDeadZone(dx, dy) then Center
    else if Abs(dy) > Abs(dx) then (if dy < 0 then Up else Down)
    else if dx > 0 then Right
    else Left
  }

  /** The candidate at a direction's index, or the first one if there is none. */
  function CandidateAt(flickChars: seq<string>, i: nat): string
    requires |flickChars| > 0
  {
    if i < |flickChars| then flickChars[i] else flickChars[0]
  }

  /** `getFlickChar` indexes the candidates by the raw value of the drag's
      direction, so the table order center, right, up, left, down and the
      `FlickDirection` raw values 0..4 agree. */
  lemma GetFlickCharFollowsDirection(key: string, flickChars: seq<string>, dx: int, dy: int)
    requires |flickChars| > 1
    ensures GetFlickChar(key, flickChars, dx, dy)
      == CandidateAt(flickChars, DirectionRawValue(FlickDirectionOf(dx, dy)))
  {
  }

  /** What `handleDragEnded` passes to `onTap`: the key for a tap, otherwise the
      selected candidate, or the key when nothing was selected. */
  function ReleasedChar(key: string, selectedChar: string, dx: int, dy: int): (r: string)
    ensures !BeyondThreshold(dx, dy) ==> r == key
    ensures BeyondThreshold(dx, dy) && selectedChar != "" ==> r == selectedChar
    ensures BeyondThreshold(dx, dy) && selectedChar == "" ==> r == key
  {
    if !BeyondThreshold(dx, dy) then key
    else if selectedChar == "" then key
    else selectedChar
  }

  class IOSFlickKeyButton {
    const key: string
    const flickChars: seq<string>
    var dragOffset: (int, int)
    var selectedChar: string
    var isDragging: bool
    var hasTriggered: bool
    var isPressed: bool
    /** The strings passed to `onTap`, in order. */
    var taps: seq<string>

    /** The selection is empty or a candidate, and every reported string is the
        key or one of its candidates. */
    ghost predicate Valid()
      reads this
    {
      |flickChars| > 0
      && (selectedChar == "" || selectedChar in flickChars)
      && forall t :: t in taps ==> t == key || t in flickChars
    }

    constructor (key: string, flickChars: seq<string>)
      requires |flickChars| > 0
      ensures Valid()
      ensures this.key == key && this.flickChars == flickChars
      ensures dragOffset == (0, 0) && selectedChar == ""
      ensures !isDragging && !hasTriggered && !isPressed && taps == []
    {
      this.key := key;
      this.flickChars := flickChars;
      dragOffset := (0, 0);
      selectedChar := "";
      isDragging := false;
      hasTriggered := false;
      isPressed := false;
      taps := [];
    }

    /** A drag update: ignored once the gesture has reported; otherwise presses
        the key, records the offset and selects either the dragged-to candidate
        (a flick) or the first one. */
    method HandleDragChanged(dx: int, dy: int)
      requires Valid()
      modifies this
      ensures Valid()
      ensures taps == old(taps) && hasTriggered == old(hasTriggered)
      ensures old(hasTriggered) ==>
        dragOffset == old(dragOffset) && selectedChar == old(selectedChar)
        && isDragging == old(isDragging) && isPressed == old(isPressed)
      ensures !old(hasTriggered) ==> isPressed && dragOffset == (dx, dy)
      ensures !old(hasTriggered) && BeyondThreshold(dx, dy) && |flickChars| > 1 ==>
        isDragging && selectedChar == GetFlickChar(key, flickChars, dx, dy)
      ensures !old(hasTriggered) && !(BeyondThreshold(dx, dy) && |flickChars| > 1) ==>
        isDragging == old(isDragging) && selectedChar == flickChars[0]
    {
      if hasTriggered {
        return;
      }
      if !isPressed {
        isPressed := true;
      }
      dragOffset := (dx, dy);
      if BeyondThreshold(dx, dy) && |flickChars| > 1 {
        isDragging := true;
        var newSelectedChar := GetFlickChar(key, flickChars, dragOffset.0, dragOffset.1);
        if selectedChar != newSelectedChar {
          selectedChar := newSelectedChar;
        }
      } else {
        if selectedChar != flickChars[0] {
          selectedChar := flickChars[0];
        }
      }
    }

    /** The release: reports exactly one string unless the gesture has already
        reported, and blocks further reports until `ResetState` runs. */
    method HandleDragEnded(dx: int, dy: int)
      requires Valid()
      modifies this
      ensures Valid()
      ensures old(hasTriggered) ==>
        taps == old(taps) && hasTriggered && isPressed == old(isPressed)
      ensures !old(hasTriggered) ==>
        hasTriggered && !isPressed
        && taps == old(taps) + [ReleasedChar(key, old(selectedChar), dx, dy)]
      ensures selectedChar == old(selectedChar) && dragOffset == old(dragOffset)
      ensures isDragging == old(isDragging)
    {
      if hasTriggered {
        return;
      }
      hasTriggered := true;
      isPressed := false;
      if !BeyondThreshold(dx, dy) {
        taps := taps + [key];
      } else {
        var finalChar := if selectedChar == "" then key else selectedChar;
        taps := taps + [finalChar];
      }
    }

    /** The block `resetState` schedules 0.1 s after a release, run as a step of
        its own: clears the selection and offset and re-arms the button. */
    method ResetState()
      requires Valid()
      modifies this
      ensures Valid()
      ensures selectedChar == "" && dragOffset == (0, 0) && !isDragging && !hasTriggered
      ensures isPressed == old(isPressed) && taps == old(taps)
    {
      selectedChar := "";
      dragOffset := (0, 0);
      isDragging := false;
      hasTriggered := false;
    }
  }

  /** The button's labels for the special keys are the `SpecialKey` display
      texts of the same raw strings; any other key shows itself. */
  lemma DisplayTextAgrees(k: SpecialKey, key: string)
    ensures k in {Space, Delete, Enter, SwitchToEnglish, Numbers} ==>
      GetDisplayText(RawValue(k)) == DisplayText(k)
    ensures !FlickInputSupport.IsSpecialKey(key) ==> GetDisplayText(key) == key
  {
  }

  /** The small font marks exactly the layout's special keys. */
  lemma FontSizeMarksSpecialKeys(key: string)
    ensures GetFontSize(key) == 16 <==> FlickInputSupport.IsSpecialKey(key)
    ensures GetFontSize(key) == 22 <==> !FlickInputSupport.IsSpecialKey(key)
  {
  }

  /** On every key of the kana layout the button's own special-key test agrees
      with the layout's. */
  lemma SpecialKeyButtonAgreesWithLayout(row: nat, col: nat)
    requires row < |FlickInputSupport.KanaRows| && col < |FlickInputSupport.KanaRows[row]|
    ensures IsSpecialKeyButton(FlickInputSupport.KanaRows[row][col])
      == FlickInputSupport.IsSpecialKey(FlickInputSupport.KanaRows[row][col])
  {
  }
}
