/** The kana tables behind the flick keyboard: the candidates each key offers
    (in the order center, right, up, left, down), the dakuten, handakuten and
    small-kana variants, the hiragana-to-romaji table, and the layout of the
    kana keyboard. Each Swift dictionary is a function returning the optional
    value its subscript returns. */
module FlickInputSupport {
  import opened Wrappers
  import opened Ascii

  /** `flickCharacterMap[key]`. */
  function FlickCharacterMap(key: string): Option<seq<string>> {
    if |key| == 1 then FlickCharactersOf(key[0]) else None
  }

  /** The entries of `flickCharacterMap`; every key is one character. */
  function FlickCharactersOf(ch: char): Option<seq<string>> {
    match ch
    case 'あ' => Some(["あ", "い", "う", "え", "お"])
    case 'か' => Some(["か", "き", "く", "け", "こ"])
    case 'さ' => Some(["さ", "し", "す", "せ", "そ"])
    case 'た' => Some(["た", "ち", "つ", "て", "と"])
    case 'な' => Some(["な", "に", "ぬ", "ね", "の"])
    case 'は' => Some(["は", "ひ", "ふ", "へ", "ほ"])
    case 'ま' => Some(["ま", "み", "む", "め", "も"])
    case 'や' => Some(["や", "ゆ", "よ"])
    case 'ら' => Some(["ら", "り", "る", "れ", "ろ"])
    case 'わ' => Some(["わ", "ん"])
    case '、' => Some(["、", "。", "ー", "？"])
    case _ => None
  }

  /** `dakutenMap[c]`, also `getDakutenCharacter(for:)`. */
  function DakutenMap(c: string): Option<string> {
    if |c| == 1 then DakutenOf(c[0]) else None
  }

  /** The entries of `dakutenMap`, keyed by their one character. */
  function DakutenOf(ch: char): Option<string> {
    match ch
    case 'か' => Some("が") case 'き' => Some("ぎ") case 'く' => Some("ぐ") case 'け' => Some("げ") case 'こ' => Some("ご")
    case 'さ' => Some("ざ") case 'し' => Some("じ") case 'す' => Some("ず") case 'せ' => Some("ぜ") case 'そ' => Some("ぞ")
    case 'た' => Some("だ") case 'ち' => Some("ぢ") case 'つ' => Some("づ") case 'て' => Some("で") case 'と' => Some("ど")
    case 'は' => Some("ば") case 'ひ' => Some("び") case 'ふ' => Some("ぶ") case 'へ' => Some("べ") case 'ほ' => Some("ぼ")
    case _ => None
  }

  /** `handakutenMap[c]`, also `getHandakutenCharacter(for:)`: the は row only. */
  function HandakutenMap(c: string): Option<string> {
    if |c| == 1 then HandakutenOf(c[0]) else None
  }

  /** The entries of `handakutenMap`, keyed by their one character. */
  function HandakutenOf(ch: char): Option<string> {
    match ch
    case 'は' => Some("ぱ") case 'ひ' => Some("ぴ") case 'ふ' => Some("ぷ") case 'へ' => Some("ぺ") case 'ほ' => Some("ぽ")
    case _ => None
  }

  /** `smallCharacterMap[c]`, also `getSmallCharacter(for:)`. */
  function SmallCharacterMap(c: string): Option<string> {
    if |c| == 1 then SmallOf(c[0]) else None
  }

  /** The entries of `smallCharacterMap`, keyed by their one character. */
  function SmallOf(ch: char): Option<string> {
    match ch
    case 'あ' => Some("ぁ") case 'い' => Some("ぃ") case 'う' => Some("ぅ") case 'え' => Some("ぇ") case 'お' => Some("ぉ")
    case 'や' => Some("ゃ") case 'ゆ' => Some("ゅ") case 'よ' => Some("ょ")
    case 'つ' => Some("っ") case 'わ' => Some("ゎ")
    case _ => None
  }

  /** `hiraganaToRomajiMap[h]`. */
  function HiraganaToRomajiMap(h: string): Option<string> {
    if |h| == 1 then RomajiOf(h[0]) else None
  }

  /** The entries of `hiraganaToRomajiMap`, keyed by their one character, in
      the dictionary's own five groups (no character is in two of them). */
  function RomajiOf(ch: char): Option<string> {
    var basic := BasicRomajiOf(ch);
    if basic.Some? then basic else
    var dakuon := DakuonRomajiOf(ch);
    if dakuon.Some? then dakuon else
    var handakuon := HandakuonRomajiOf(ch);
    if handakuon.Some? then handakuon else
    var small := SmallRomajiOf(ch);
    if small.Some? then small else
    PunctuationRomajiOf(ch)
  }

  /** The plain kana. */
  function BasicRomajiOf(ch: char): Option<string> {
    match ch
    case 'あ' => Some("a") case 'い' => Some("i") case 'う' => Some("u") case 'え' => Some("e") case 'お' => Some("o")
    case 'か' => Some("ka") case 'き' => Some("ki") case 'く' => Some("ku") case 'け' => Some("ke") case 'こ' => Some("ko")
    case 'さ' => Some("sa") case 'し' => Some("shi") case 'す' => Some("su") case 'せ' => Some("se") case 'そ' => Some("so")
    case 'た' => Some("ta") case 'ち' => Some("chi") case 'つ' => Some("tsu") case 'て' => Some("te") case 'と' => Some("to")
    case 'な' => Some("na") case 'に' => Some("ni") case 'ぬ' => Some("nu") case 'ね' => Some("ne") case 'の' => Some("no")
    case 'は' => Some("ha") case 'ひ' => Some("hi") case 'ふ' => Some("fu") case 'へ' => Some("he") case 'ほ' => Some("ho")
    case 'ま' => Some("ma") case 'み' => Some("mi") case 'む' => Some("mu") case 'め' => Some("me") case 'も' => Some("mo")
    case 'や' => Some("ya") case 'ゆ' => Some("yu") case 'よ' => Some("yo")
    case 'ら' => Some("ra") case 'り' => Some("ri") case 'る' => Some("ru") case 'れ' => Some("re") case 'ろ' => Some("ro")
    case 'わ' => Some("wa") case 'ん' => Some("nn") case 'を' => Some("wo")
    case _ => None
  }

  /** The kana with dakuten. */
  function DakuonRomajiOf(ch: char): Option<string> {
    match ch
    case 'が' => Some("ga") case 'ぎ' => Some("gi") case 'ぐ' => Some("gu") case 'げ' => Some("ge") case 'ご' => Some("go")
    case 'ざ' => Some("za") case 'じ' => Some("ji") case 'ず' => Some("zu") case 'ぜ' => Some("ze") case 'ぞ' => Some("zo")
    case 'だ' => Some("da") case 'ぢ' => Some("di") case 'づ' => Some("du") case 'で' => Some("de") case 'ど' => Some("do")
    case 'ば' => Some("ba") case 'び' => Some("bi") case 'ぶ' => Some("bu") case 'べ' => Some("be") case 'ぼ' => Some("bo")
    case _ => None
  }

  /** The kana with handakuten. */
  function HandakuonRomajiOf(ch: char): Option<string> {
    match ch
    case 'ぱ' => Some("pa") case 'ぴ' => Some("pi") case 'ぷ' => Some("pu") case 'ぺ' => Some("pe") case 'ぽ' => Some("po")
    case _ => None
  }

  /** The small kana. */
  function SmallRomajiOf(ch: char): Option<string> {
    match ch
    case 'ぁ' => Some("xa") case 'ぃ' => Some("xi") case 'ぅ' => Some("xu") case 'ぇ' => Some("xe") case 'ぉ' => Some("xo")
    case 'ゃ' => Some("xya") case 'ゅ' => Some("xyu") case 'ょ' => Some("xyo")
    case 'っ' => Some("xtu") case 'ゎ' => Some("xwa")
    case _ => None
  }

  /** The punctuation marks. */
  function PunctuationRomajiOf(ch: char): Option<string> {
    match ch
    case '、' => Some(",") case '。' => Some(".") case 'ー' => Some("-") case '？' => Some("?")
    case _ => None
  }

  /** A romaji spelling is a non-empty string of ASCII characters. */
  predicate IsRomajiSpelling(r: Option<string>) {
    r.Some? ==> |r.value| > 0 && IsAsciiString(r.value)
  }

  lemma BasicRomajiAscii(ch: char)
    ensures IsRomajiSpelling(BasicRomajiOf(ch))
  {
  }

  lemma DakuonRomajiAscii(ch: char)
    ensures IsRomajiSpelling(DakuonRomajiOf(ch))
  {
  }

  lemma SmallRomajiAscii(ch: char)
    ensures IsRomajiSpelling(SmallRomajiOf(ch))
  {
  }

  /** Every romaji spelling is a non-empty string of ASCII characters, so it can
      be typed one byte per character. */
  lemma RomajiValuesAscii(h: string)
    ensures HiraganaToRomajiMap(h).Some? ==>
      |HiraganaToRomajiMap(h).value| > 0 && IsAsciiString(HiraganaToRomajiMap(h).value)
  {
    if |h| == 1 {
      BasicRomajiAscii(h[0]);
      DakuonRomajiAscii(h[0]);
      SmallRomajiAscii(h[0]);
      assert IsRomajiSpelling(RomajiOf(h[0]));
    }
  }

  /** The table entry, or the input itself when it has none. */
  function ConvertToRomaji(h: string): string {
    HiraganaToRomajiMap(h).GetOr(h)
  }

  /** Conversion returns the table entry for a key, and returns its input
      unchanged exactly when the input is not a key (no key spells itself). */
  lemma ConvertToRomajiFallback(h: string)
    ensures HiraganaToRomajiMap(h).Some? ==> ConvertToRomaji(h) == HiraganaToRomajiMap(h).value
    ensures ConvertToRomaji(h) == h <==> HiraganaToRomajiMap(h).None?
  {
    RomajiValuesAscii(h);
    if HiraganaToRomajiMap(h).Some? {
      assert h[0] as int >= 128;
      assert ConvertToRomaji(h)[0] as int < 128;
    }
  }

  /** `getFlickCharacters(for:)`: the key's candidates, or just the key itself. */
  function GetFlickCharacters(key: string): (r: seq<string>)
    ensures 1 <= |r| <= 5
    ensures r[0] == key
  {
    FlickCharacterMap(key).GetOr([key])
  }

  /** Every candidate a flick can produce has a romaji spelling, so converting it
      never falls back to the kana itself. */
  lemma FlickCharactersHaveRomaji(key: string, c: string)
    requires FlickCharacterMap(key).Some? && c in FlickCharacterMap(key).value
    ensures HiraganaToRomajiMap(c).Some?
  {
    FlickCandidatesHaveRomaji(key[0]);
    var i :| 0 <= i < |FlickCharacterMap(key).value| && FlickCharacterMap(key).value[i] == c;
  }

  lemma FlickCandidatesHaveRomaji(ch: char)
    ensures FlickCharactersOf(ch).Some? ==> var cands := FlickCharactersOf(ch).value;
      forall i :: 0 <= i < |cands| ==> HiraganaToRomajiMap(cands[i]).Some?
  {
  }

  datatype ModifierType = Dakuten | Handakuten | Small

  function DisplayLabel(m: ModifierType): string {
    match m
    case Dakuten => "゛"
    case Handakuten => "゜"
    case Small => "小"
  }

  function CanShowModifierKeys(c: string): bool {
    DakutenMap(c).Some? || HandakutenMap(c).Some? || SmallCharacterMap(c).Some?
  }

  /** The modifiers on offer, always in the order dakuten, handakuten, small. */
  function GetAvailableModifiers(c: string): seq<ModifierType> {
    (if DakutenMap(c).Some? then [Dakuten] else [])
    + (if HandakutenMap(c).Some? then [Handakuten] else [])
    + (if SmallCharacterMap(c).Some? then [Small] else [])
  }

  function GetModifiedCharacter(c: string, m: ModifierType): Option<string> {
    match m
    case Dakuten => DakutenMap(c)
    case Handakuten => HandakutenMap(c)
    case Small => SmallCharacterMap(c)
  }

  /** Position of a modifier in the row. */
  function ModifierRank(m: ModifierType): nat {
    match m
    case Dakuten => 0
    case Handakuten => 1
    case Small => 2
  }

  /** The row is offered exactly when some modifier is available. */
  lemma CanShowIffModifiersAvailable(c: string)
    ensures CanShowModifierKeys(c) <==> |GetAvailableModifiers(c)| > 0
  {
  }

  /** The row lists a modifier exactly when it yields a character, in strictly
      increasing rank (so without duplicates). */
  lemma AvailableModifiersSpec(c: string, m: ModifierType)
    ensures m in GetAvailableModifiers(c) <==> GetModifiedCharacter(c, m).Some?
    ensures forall i, j :: 0 <= i < j < |GetAvailableModifiers(c)| ==>
      ModifierRank(GetAvailableModifiers(c)[i]) < ModifierRank(GetAvailableModifiers(c)[j])
  {
  }

  /** Only the は row takes handakuten, and it takes dakuten too. */
  lemma HandakutenImpliesDakuten(c: string)
    ensures HandakutenMap(c).Some? ==> DakutenMap(c).Some?
  {
  }

  /** A modified character always has a romaji spelling, and cannot be modified
      again. */
  lemma ModifiedCharactersHaveRomaji(c: string, m: ModifierType)
    requires GetModifiedCharacter(c, m).Some?
    ensures HiraganaToRomajiMap(GetModifiedCharacter(c, m).value).Some?
    ensures !CanShowModifierKeys(GetModifiedCharacter(c, m).value)
  {
    match m
    case Dakuten => DakutenVariantsAreFinal(c[0]);
    case Handakuten => HandakutenVariantsAreFinal(c[0]);
    case Small => SmallVariantsAreFinal(c[0]);
  }

  /** No modifier applies to a character with dakuten, which is spelled by the
      dakuon group of the romaji table. */
  predicate IsFinalDakuon(v: string) {
    |v| == 1 && DakuonRomajiOf(v[0]).Some?
    && DakutenOf(v[0]).None? && HandakutenOf(v[0]).None? && SmallOf(v[0]).None?
  }

  lemma DakutenVariantsAreFinal(ch: char)
    ensures DakutenOf(ch).Some? ==> IsFinalDakuon(DakutenOf(ch).value)
  {
  }

  lemma HandakutenVariantsAreFinal(ch: char)
    ensures HandakutenOf(ch).Some? ==> var v := HandakutenOf(ch).value;
      |v| == 1 && HandakuonRomajiOf(v[0]).Some?
      && DakutenOf(v[0]).None? && HandakutenOf(v[0]).None? && SmallOf(v[0]).None?
  {
  }

  lemma SmallVariantsAreFinal(ch: char)
    ensures SmallOf(ch).Some? ==> var v := SmallOf(ch).value;
      |v| == 1 && SmallRomajiOf(v[0]).Some?
      && DakutenOf(v[0]).None? && HandakutenOf(v[0]).None? && SmallOf(v[0]).None?
  {
  }

  /** The kana keyboard's rows, top to bottom. */
  const KanaRows: seq<seq<string>> := [
    ["あ", "か", "さ", "Del"],
    ["た", "な", "は", "Space"],
    ["ま", "や", "ら", "Enter"],
    ["わ", "、", "Aあ", "Enter"]
  ]

  predicate IsKanaKey(key: string) {
    FlickCharacterMap(key).Some?
  }

  predicate IsSpecialKey(key: string) {
    key in ["Del", "Space", "Enter", "Aあ", "123"]
  }

  /** Every key of the layout is either a kana key or a special key, never both. */
  lemma KanaRowsClassified(row: nat, col: nat)
    requires row < |KanaRows| && col < |KanaRows[row]|
    ensures IsKanaKey(KanaRows[row][col]) != IsSpecialKey(KanaRows[row][col])
  {
  }
}
