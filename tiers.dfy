/** The five-step quality ladder behind the home page's card type and the card
    component's rarity and achievement. */
module Tiers {

  datatype Tier = Common | Uncommon | Rare | Epic | Legendary

  /** Position on the ladder, Common lowest. */
  function Rank(t: Tier): (r: nat)
    ensures r <= 4
  {
    match t
    case Common => 0
    case Uncommon => 1
    case Rare => 2
    case Epic => 3
    case Legendary => 4
  }

  /** The label the components display for a tier. */
  function Name(t: Tier): string {
    match t
    case Common => "Common"
    case Uncommon => "Uncommon"
    case Rare => "Rare"
    case Epic => "Epic"
    case Legendary => "Legendary"
  }

  /** `t` is the tier of `score` on a ladder whose thresholds are 6, 7, 8 and 9
      times `unit`: the tier is at least the k-th step above Common exactly when
      the score reaches the k-th threshold, every lower bound inclusive. */
  predicate IsTierFor(score: real, unit: real, t: Tier) {
    && (Rank(t) >= 1 <==> score >= 6.0 * unit)
    && (Rank(t) >= 2 <==> score >= 7.0 * unit)
    && (Rank(t) >= 3 <==> score >= 8.0 * unit)
    && (Rank(t) >= 4 <==> score >= 9.0 * unit)
  }

  lemma RankInjective(t1: Tier, t2: Tier)
    ensures Rank(t1) == Rank(t2) <==> t1 == t2
  {
  }

  lemma NameInjective(t1: Tier, t2: Tier)
    ensures Name(t1) == Name(t2) <==> t1 == t2
  {
    if t1 != t2 {
      assert Name(t1)[0] != Name(t2)[0] || |Name(t1)| != |Name(t2)|;
    }
  }

  /** At most one tier fits a score. */
  lemma TierUnique(score: real, unit: real, t1: Tier, t2: Tier)
    requires IsTierFor(score, unit, t1) && IsTierFor(score, unit, t2)
    ensures t1 == t2
  {
    RankInjective(t1, t2);
  }

  /** On a ladder with a non-negative unit every score has a tier. */
  lemma TierExists(score: real, unit: real) returns (t: Tier)
    requires unit >= 0.0
    ensures IsTierFor(score, unit, t)
  {
    t := if score >= 9.0 * unit then Legendary
      else if score >= 8.0 * unit then Epic
      else if score >= 7.0 * unit then Rare
      else if score >= 6.0 * unit then Uncommon
      else Common;
  }

  /** A higher score never has a lower tier. */
  lemma TierMonotone(x: real, y: real, unit: real, tx: Tier, ty: Tier)
    requires x <= y
    requires IsTierFor(x, unit, tx) && IsTierFor(y, unit, ty)
    ensures Rank(tx) <= Rank(ty)
  {
  }

  /** The ladder on a 0-10 scale is the ladder on a 0-1 scale applied to a tenth
      of the score. */
  lemma TierRescale(score: real, t: Tier)
    ensures IsTierFor(score, 1.0, t) <==> IsTierFor(score / 10.0, 0.1, t)
  {
  }
}
