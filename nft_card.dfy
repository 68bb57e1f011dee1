/** The trading-card component: the colour scheme chosen by the card's type,
    the rarity and achievement shown for the overall score (on a 0-10 scale),
    the defaults used before scores exist, the displayed name and the name of
    the downloaded image. */
module NftCard {
  import opened Wrappers
  import opened Tiers

  /** The four scores the card displays. */
  datatype CardScores = CardScores(creativity: real, promptAdherence: real, artisticQuality: real, overall: real)

  /** The keys of the colour table. */
  datatype ColorKey = Digital | Abstract | Landscape | Portrait | Surreal | Minimal

  /** One colour-table entry (CSS class names, kept as opaque strings). */
  datatype TypeColor = TypeColor(bg: string, text: string, border: string, gradient: string)

  function KeyName(k: ColorKey): string {
    match k
    case Digital => "Digital"
    case Abstract => "Abstract"
    case Landscape => "Landscape"
    case Portrait => "Portrait"
    case Surreal => "Surreal"
    case Minimal => "Minimal"
  }

  function ColorEntry(k: ColorKey): TypeColor {
    match k
    case Digital => TypeColor("bg-[#2E3192]", "text-blue-300", "border-blue-500", "from-blue-500 via-purple-500 to-pink-500")
    case Abstract => TypeColor("bg-[#6B1D9C]", "text-purple-300", "border-purple-500", "from-purple-500 via-pink-500 to-red-500")
    case Landscape => TypeColor("bg-[#1E8449]", "text-green-300", "border-green-500", "from-green-500 via-teal-500 to-blue-500")
    case Portrait => TypeColor("bg-[#C2185B]", "text-pink-300", "border-pink-500", "from-pink-500 via-red-500 to-yellow-500")
    case Surreal => TypeColor("bg-[#D4AC0D]", "text-yellow-300", "border-yellow-500", "from-yellow-500 via-orange-500 to-red-500")
    case Minimal => TypeColor("bg-[#17202A]", "text-gray-300", "border-gray-500", "from-gray-500 via-slate-500 to-zinc-500")
  }

  /** `typeColors[type]`: the key spelled by `type`, if any. */
  function LookupKey(cardType: string): (k: Option<ColorKey>)
    ensures k.Some? ==> KeyName(k.value) == cardType
    ensures k.None? ==> forall c :: KeyName(c) != cardType
  {
    if cardType == "Digital" then Some(Digital)
    else if cardType == "Abstract" then Some(Abstract)
    else if cardType == "Landscape" then Some(Landscape)
    else if cardType == "Portrait" then Some(Portrait)
    else if cardType == "Surreal" then Some(Surreal)
    else if cardType == "Minimal" then Some(Minimal)
    else None
  }

  /** `getTypeColor`: the entry of the listed type, the `Digital` entry for
      every string that names none. */
  function GetTypeColor(cardType: string): (c: TypeColor)
    ensures forall k :: KeyName(k) == cardType ==> c == ColorEntry(k)
    ensures (forall k :: KeyName(k) != cardType) ==> c == ColorEntry(Digital)
  {
    match LookupKey(cardType)
    case Some(k) => ColorEntry(k)
    case None => ColorEntry(Digital)
  }

  /** No tier name is a key of the colour table, so every card typed by a tier
      is drawn in the `Digital` colours; so is the preview's "Digital Art". */
  lemma TierTypesUseDefaultColor(t: Tier)
    ensures GetTypeColor(Name(t)) == ColorEntry(Digital)
    ensures GetTypeColor("Digital Art") == ColorEntry(Digital)
  {
    assert LookupKey(Name(t)).None?;
  }

  /** The rarity badge: its name, text colour and background. */
  datatype Rarity = Rarity(name: string, color: string, bg: string)

  function RarityEntry(t: Tier): (r: Rarity)
    ensures r.name == Name(t)
  {
    match t
    case Legendary => Rarity("Legendary", "text-purple-500", "bg-purple-100")
    case Epic => Rarity("Epic", "text-red-500", "bg-red-100")
    case Rare => Rarity("Rare", "text-blue-500", "bg-blue-100")
    case Uncommon => Rarity("Uncommon", "text-green-500", "bg-green-100")
    case Common => Rarity("Common", "text-gray-500", "bg-gray-100")
  }

  /** `getRarityLevel`: the entry of the score's tier on the 0-10 ladder. */
  function RarityLevel(score: real): (r: Rarity)
    ensures forall t :: IsTierFor(score, 1.0, t) ==> r == RarityEntry(t)
  {
    if score >= 9.0 then RarityEntry(Legendary)
    else if score >= 8.0 then RarityEntry(Epic)
    else if score >= 7.0 then RarityEntry(Rare)
    else if score >= 6.0 then RarityEntry(Uncommon)
    else RarityEntry(Common)
  }

  function AchievementText(t: Tier): string {
    match t
    case Legendary => "🎨 Master Artist"
    case Epic => "🌟 Creative Genius"
    case Rare => "✨ Artistic Prodigy"
    case Uncommon => "🎭 Creative Mind"
    case Common => "🖌️ Budding Artist"
  }

  /** `getAchievement`: the text of the score's tier on the 0-10 ladder. */
  function Achievement(score: real): (a: string)
    ensures forall t :: IsTierFor(score, 1.0, t) ==> a == AchievementText(t)
  {
    if score >= 9.0 then "🎨 Master Artist"
    else if score >= 8.0 then "🌟 Creative Genius"
    else if score >= 7.0 then "✨ Artistic Prodigy"
    else if score >= 6.0 then "🎭 Creative Mind"
    else "🖌️ Budding Artist"
  }

  /** The rarity and the achievement always come from the same tier. */
  lemma RarityMatchesAchievement(score: real)
    ensures exists t :: RarityLevel(score) == RarityEntry(t) && Achievement(score) == AchievementText(t)
  {
    var t := TierExists(score, 1.0);
    assert RarityLevel(score) == RarityEntry(t) && Achievement(score) == AchievementText(t);
  }

  /** The rarity shown on the card: from the overall score, Common without scores. */
  function CardRarity(scores: Option<CardScores>): (r: Rarity)
    ensures scores.None? ==> r == RarityEntry(Common)
    ensures scores.Some? ==> r == RarityLevel(scores.value.overall)
  {
    if scores.Some? then RarityLevel(scores.value.overall)
    else Rarity("Common", "text-gray-500", "bg-gray-100")
  }

  /** The achievement shown on the card: from the overall score, the Common text
      without scores. */
  function CardAchievement(scores: Option<CardScores>): (a: string)
    ensures scores.None? ==> a == AchievementText(Common)
    ensures scores.Some? ==> a == Achievement(scores.value.overall)
  {
    if scores.Some? then Achievement(scores.value.overall) else "🖌️ Budding Artist"
  }

  /** `prompt || cardData.name`: the prompt when it is a non-empty string, the
      card's own name otherwise. */
  function DisplayName(prompt: Option<string>, cardName: string): (n: string)
    ensures prompt.Some? && prompt.value != "" ==> n == prompt.value
    ensures prompt.None? || prompt.value == "" ==> n == cardName
  {
    if prompt.Some? && prompt.value != "" then prompt.value else cardName
  }

  /** The download's file name: the card type followed by `-card.png`. */
  function DownloadFileName(cardType: string): (f: string)
    ensures |f| == |cardType| + 9
    ensures f[..|cardType|] == cardType && f[|cardType|..] == "-card.png"
  {
    cardType + "-card.png"
  }

  /** Different card types download under different names. */
  lemma DownloadFileNameInjective(a: string, b: string)
    requires DownloadFileName(a) == DownloadFileName(b)
    ensures a == b
  {
    assert a == DownloadFileName(a)[..|a|];
  }
}
