/** The home page: it turns the scores of a submitted drawing into the card the
    page shows, and keeps the submission state. Scores are reals on the 0-1
    scale; `Math.floor` is `.Floor`. */
module HomePage {
  import opened Wrappers
  import opened Strings
  import opened Tiers
  import opened NftMetadata
  import NftCard

  /** The scores the drawing canvas reports, with the assessor's feedback. */
  datatype Scores = Scores(creativity: real, promptAdherence: real, artisticQuality: real, overall: real, feedback: string)

  /** The card record the page builds. */
  datatype Card = Card(name: string, cardType: string, hp: int, moves: seq<Move>, description: string)

  /** `getTypeFromScore`: the tier of `score` on the 0-1 ladder (thresholds
      0.6, 0.7, 0.8 and 0.9, lower bounds inclusive). */
  function TypeFromScore(score: real): (t: Tier)
    ensures IsTierFor(score, 0.1, t)
  {
    if score >= 0.9 then Legendary
    else if score >= 0.8 then Epic
    else if score >= 0.7 then Rare
    else if score >= 0.6 then Uncommon
    else Common
  }

  /** `Math.floor(overall * 100)`: the largest integer not above a hundred
      times the score. */
  function HitPoints(overall: real): (hp: int)
    ensures hp as real <= overall * 100.0 < hp as real + 1.0
  {
    (overall * 100.0).Floor
  }

  /** `Math.floor(subScore * 50)`: the largest integer not above fifty times
      the sub-score. */
  function Damage(subScore: real): (d: int)
    ensures d as real <= subScore * 50.0 < d as real + 1.0
  {
    (subScore * 50.0).Floor
  }

  /** All four scores lie in [0,1]. */
  predicate InUnitRange(s: Scores) {
    && 0.0 <= s.creativity <= 1.0 && 0.0 <= s.promptAdherence <= 1.0
    && 0.0 <= s.artisticQuality <= 1.0 && 0.0 <= s.overall <= 1.0
  }

  /** The three moves, one per sub-score. */
  function Moves(s: Scores): seq<Move> {
    [ Move("Creative Strike", Damage(s.creativity)),
      Move("Prompt Blast", Damage(s.promptAdherence)),
      Move("Artistic Wave", Damage(s.artisticQuality)) ]
  }

  /** The card `handleScoreUpdate` builds; `drawingNumber` stands for
      `Math.floor(Math.random() * 1000)`. */
  function BuildCard(s: Scores, drawingNumber: nat): Card {
    Card("Drawing #" + NatToDecimal(drawingNumber),
         Name(TypeFromScore(s.overall)),
         HitPoints(s.overall),
         Moves(s),
         s.feedback)
  }

  /** A higher overall score never gives a lower type. */
  lemma TypeMonotone(x: real, y: real)
    requires x <= y
    ensures Rank(TypeFromScore(x)) <= Rank(TypeFromScore(y))
  {
    TierMonotone(x, y, 0.1, TypeFromScore(x), TypeFromScore(y));
  }

  /** Hit points are non-decreasing in the overall score, and the largest whole
      number not above a hundred times it. */
  lemma HitPointsMonotone(x: real, y: real)
    requires x <= y
    ensures HitPoints(x) <= HitPoints(y)
    ensures HitPoints(x) as real <= x * 100.0 < HitPoints(x) as real + 1.0
  {
  }

  /** An overall score in [0,1] gives hit points in [0,100]. */
  lemma HitPointsInRange(overall: real)
    requires 0.0 <= overall <= 1.0
    ensures 0 <= HitPoints(overall) <= 100
  {
  }

  /** A sub-score in [0,1] gives damage in [0,50]. */
  lemma DamageInRange(subScore: real)
    requires 0.0 <= subScore <= 1.0
    ensures 0 <= Damage(subScore) <= 50
  {
  }

  /** Every card has three moves, in the fixed order, each damaging by the
      floor of fifty times its own sub-score; for scores in [0,1] every
      number on the card is in range. */
  lemma CardMoves(s: Scores, drawingNumber: nat)
    ensures var c := BuildCard(s, drawingNumber);
      && |c.moves| == 3
      && c.moves[0] == Move("Creative Strike", Damage(s.creativity))
      && c.moves[1] == Move("Prompt Blast", Damage(s.promptAdherence))
      && c.moves[2] == Move("Artistic Wave", Damage(s.artisticQuality))
    ensures InUnitRange(s) ==>
      var c := BuildCard(s, drawingNumber);
      && 0 <= c.hp <= 100
      && forall i :: 0 <= i < |c.moves| ==> 0 <= c.moves[i].damage <= 50
  {
    if InUnitRange(s) {
      HitPointsInRange(s.overall);
      DamageInRange(s.creativity);
      DamageInRange(s.promptAdherence);
      DamageInRange(s.artisticQuality);
    }
  }

  /** The type and hit points depend on the overall score alone, the moves on
      the sub-scores alone, and the description is the feedback unchanged. */
  lemma CardDependencies(s1: Scores, s2: Scores, n1: nat, n2: nat)
    ensures s1.overall == s2.overall ==>
      BuildCard(s1, n1).cardType == BuildCard(s2, n2).cardType && BuildCard(s1, n1).hp == BuildCard(s2, n2).hp
    ensures (s1.creativity, s1.promptAdherence, s1.artisticQuality) == (s2.creativity, s2.promptAdherence, s2.artisticQuality) ==>
      BuildCard(s1, n1).moves == BuildCard(s2, n2).moves
    ensures BuildCard(s1, n1).description == s1.feedback
    ensures BuildCard(s1, n1).cardType == Name(TypeFromScore(s1.overall))
  {
  }

  /** Two cards carry the same type string exactly when the page put their
      overall scores in the same tier. */
  lemma CardTypeDecidesTier(s1: Scores, s2: Scores, n1: nat, n2: nat)
    ensures BuildCard(s1, n1).cardType == BuildCard(s2, n2).cardType
      <==> TypeFromScore(s1.overall) == TypeFromScore(s2.overall)
  {
    NameInjective(TypeFromScore(s1.overall), TypeFromScore(s2.overall));
  }

  /** Scores 0.85 / 0.7 / 0.9 with overall 0.84 give an Epic card with 84 hit
      points and damages 42, 35 and 45. */
  lemma WorkedExample(feedback: string, drawingNumber: nat)
    ensures var c := BuildCard(Scores(0.85, 0.7, 0.9, 0.84, feedback), drawingNumber);
      && c.cardType == "Epic" && c.hp == 84
      && [c.moves[0].damage, c.moves[1].damage, c.moves[2].damage] == [42, 35, 45]
  {
  }

  /** The page passes its 0-1 scores to the card component, whose ladder is on
      the 0-10 scale: the rarity of a score is the page's type of a tenth of it. */
  lemma RarityIsTypeOfTenth(score: real)
    ensures NftCard.RarityLevel(score) == NftCard.RarityEntry(TypeFromScore(score / 10.0))
    ensures NftCard.Achievement(score) == NftCard.AchievementText(TypeFromScore(score / 10.0))
  {
    TierRescale(score, TypeFromScore(score / 10.0));
  }

  /** So for every overall score the page produces, in [0,1], the card shows
      rarity Common and the Budding Artist achievement, whatever type the page
      gave the card. */
  lemma ScaleMismatch(overall: real)
    requires 0.0 <= overall <= 1.0
    ensures NftCard.RarityLevel(overall) == NftCard.RarityEntry(Common)
    ensures NftCard.Achievement(overall) == "🖌️ Budding Artist"
  {
    RarityIsTypeOfTenth(overall);
  }

  /** A concrete instance: overall 0.95 makes a Legendary card shown as Common. */
  lemma ScaleMismatchExample()
    ensures TypeFromScore(0.95) == Legendary
    ensures NftCard.RarityLevel(0.95).name == "Common"
  {
    ScaleMismatch(0.95);
  }

  /** The scores handed on to the card component. */
  function CardScoresOf(s: Scores): NftCard.CardScores {
    NftCard.CardScores(s.creativity, s.promptAdherence, s.artisticQuality, s.overall)
  }

  /** The card component, handed the page's scores, shows rarity Common and
      "Budding Artist" for every card the page builds from scores in [0,1],
      next to the type the page gave it. */
  lemma ShownRarity(s: Scores, drawingNumber: nat)
    requires InUnitRange(s)
    ensures NftCard.CardRarity(Some(CardScoresOf(s))) == NftCard.RarityEntry(Common)
    ensures NftCard.CardAchievement(Some(CardScoresOf(s))) == "🖌️ Budding Artist"
    ensures BuildCard(s, drawingNumber).cardType == Name(TypeFromScore(s.overall))
  {
    ScaleMismatch(s.overall);
  }

  /** The page's state slots. */
  class Home {
    var hasSubmitted: bool
    var currentPrompt: string
    var scores: Option<Scores>
    var nftCard: Option<Card>
    var imageData: Option<string>

    /** A submission stores scores and card together, and the card is the one
        derived from the stored scores. */
    ghost predicate Valid()
      reads this
    {
      && hasSubmitted == scores.Some?
      && nftCard.Some? == scores.Some?
      && (nftCard.Some? ==>
            && nftCard.value.cardType == Name(TypeFromScore(scores.value.overall))
            && nftCard.value.hp == HitPoints(scores.value.overall)
            && nftCard.value.moves == Moves(scores.value)
            && nftCard.value.description == scores.value.feedback)
    }

    constructor ()
      ensures Valid()
      ensures !hasSubmitted && currentPrompt == "Loading creative prompt..."
      ensures scores == None && nftCard == None && imageData == None
    {
      hasSubmitted := false;
      currentPrompt := "Loading creative prompt...";
      scores := None;
      nftCard := None;
      imageData := None;
    }

    /** Whether the results, card and mint panels are shown. */
    predicate ShowsResults()
      reads this
    {
      hasSubmitted && scores.Some?
    }

    /** When the results are shown the card exists, so `nftCard!` never fails,
        and it is typed from the stored overall score. */
    lemma ShownCardExists()
      requires Valid() && ShowsResults()
      ensures nftCard.Some?
      ensures nftCard.value.cardType == Name(TypeFromScore(scores.value.overall))
    {
    }

    method HandlePromptUpdate(prompt: string)
      requires Valid()
      modifies this
      ensures Valid()
      ensures currentPrompt == prompt
      ensures hasSubmitted == old(hasSubmitted) && scores == old(scores)
      ensures nftCard == old(nftCard) && imageData == old(imageData)
    {
      currentPrompt := prompt;
    }

    /** `handleScoreUpdate`: stores the scores, marks the drawing submitted,
        builds the card, and keeps the canvas image when a canvas was found
        (`canvasDataUrl` is what `toDataURL` returned, `None` without a canvas). */
    method HandleScoreUpdate(newScores: Scores, drawingNumber: nat, canvasDataUrl: Option<string>)
      requires Valid()
      modifies this
      ensures Valid()
      ensures scores == Some(newScores) && hasSubmitted
      ensures nftCard == Some(BuildCard(newScores, drawingNumber))
      ensures imageData == if canvasDataUrl.Some? then canvasDataUrl else old(imageData)
      ensures currentPrompt == old(currentPrompt)
    {
      scores := Some(newScores);
      hasSubmitted := true;
      var cardData := BuildCard(newScores, drawingNumber);
      nftCard := Some(cardData);
      if canvasDataUrl.Some? {
        imageData := canvasDataUrl;
      }
    }

    /** The image passed to the card component: `imageData || ""`. */
    function CardImage(): (img: string)
      reads this
      ensures imageData.Some? ==> img == imageData.value
      ensures imageData.None? ==> img == ""
    {
      if imageData.Some? then imageData.value else ""
    }
  }
}
