/** Static catalog and value types of the RevMiner idle game.

    All money is held in integer cents (the game shows dollars with two
    decimals), all times in milliseconds, and referral chances on a fixed
    scale of CHANCE_SCALE parts. */
module MinerCatalog {
  import opened Wrappers

  /** One purchasable AdShare tier: price and per-second yield, in cents. */
  datatype TierData = TierData(tier: int, cost: int, earnings: int)

  /** The player's holding of one tier, as the game state stores it. */
  datatype AdShare = AdShare(tier: int, count: nat, cost: int, earnings: int)

  /** A referral gained by paying advertisers; `id` is its creation time. */
  datatype Referral = Referral(id: int, tier: int, earnings: int)

  /** One row of the referral draw table; tier 0 means "no referral". */
  datatype Chance = Chance(chance: int, tier: int, earnings: int)

  /** The persisted aggregate: balance, holdings, referrals and save time. */
  datatype GameState = GameState(
    balance: int,
    adShares: seq<AdShare>,
    referrals: seq<Referral>,
    lastSaved: int)

  /** One activity-feed entry: the values its message is formatted from. */
  datatype FeedEntry =
    | WelcomeBack(credit: int, elapsedMs: int)
    | FiveMinuteSummary(total: int, fromAdShares: int, fromReferrals: int)
    | AchievementUnlocked(name: string)
    | BoughtAdShare(tier: int, earnings: int)
    | ReferralGained(tier: int, earnings: int)
    | NoReferral

  const STARTING_BALANCE: int := 5000
  const REFERRAL_FEE: int := 1000
  const CENTURION_BALANCE: int := 10000
  const CHANCE_SCALE: int := 10000
  const FEED_INTERVAL_MS: int := 300000
  const FEED_SUMMARY_SECONDS: int := 300
  const FEED_CAP: int := 20

  const ADSHARE_TIERS: seq<TierData> := [
    TierData(1, 1000, 1),
    TierData(2, 5000, 10),
    TierData(3, 25000, 50)
  ]

  const REFERRAL_CHANCES: seq<Chance> := [
    Chance(5000, 0, 0),
    Chance(4000, 1, 1),
    Chance(900, 2, 10),
    Chance(100, 3, 50)
  ]

  /** The holdings of a fresh game: every catalog tier, none owned. */
  function InitialShares(): (shares: seq<AdShare>)
    ensures SharesShaped(shares)
    ensures forall i :: 0 <= i < |shares| ==> shares[i].count == 0
  {
    [
      AdShare(1, 0, 1000, 1),
      AdShare(2, 0, 5000, 10),
      AdShare(3, 0, 25000, 50)
    ]
  }

  /** Holdings line up with the catalog: one entry per tier, in tier order. */
  predicate SharesShaped(shares: seq<AdShare>)
  {
    && |shares| == |ADSHARE_TIERS|
    && forall i :: 0 <= i < |shares| ==>
         && shares[i].tier == ADSHARE_TIERS[i].tier
         && shares[i].cost == ADSHARE_TIERS[i].cost
         && shares[i].earnings == ADSHARE_TIERS[i].earnings
  }

  /** A referral the draw can create: a tier 1..3 row of the draw table. */
  predicate ReferralShaped(r: Referral)
  {
    0 < r.tier < |REFERRAL_CHANCES| && r.earnings == REFERRAL_CHANCES[r.tier].earnings
  }

  /** The shape of every state the game produces and saves. */
  predicate WellShaped(s: GameState)
  {
    && SharesShaped(s.adShares)
    && forall j :: 0 <= j < |s.referrals| ==> ReferralShaped(s.referrals[j])
  }

  /** `ADSHARE_TIERS.find(t => t.tier === tier)`. */
  function FindTier(tiers: seq<TierData>, tier: int): Option<TierData>
  {
    FindFirst(tiers, (t: TierData) => t.tier == tier)
  }

  /** Looking a tier up in the catalog succeeds exactly for tiers 1, 2 and 3,
      and yields that tier's row. */
  lemma FindCatalogTier(tier: int)
    ensures FindTier(ADSHARE_TIERS, tier).Some? <==> 1 <= tier <= |ADSHARE_TIERS|
    ensures 1 <= tier <= |ADSHARE_TIERS| ==> FindTier(ADSHARE_TIERS, tier) == Some(ADSHARE_TIERS[tier - 1])
  {
    var r := FindTier(ADSHARE_TIERS, tier);
    if 1 <= tier <= 3 {
      assert ADSHARE_TIERS[tier - 1].tier == tier;
      assert r.Some?;
    } else {
      assert forall k :: 0 <= k < |ADSHARE_TIERS| ==> ADSHARE_TIERS[k].tier == k + 1;
    }
  }
}
