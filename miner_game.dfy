/** The RevMiner engine as one object: the game state, the activity feed,
    the unlocked achievements and the time of the last feed summary, with
    the player's actions, the one-second tick, the save and the load as
    methods. The clock and the random source are parameters; the timers
    that drive Tick and Save are the caller's. */
module MinerGame {
  import opened Wrappers
  import opened MinerCatalog
  import opened MinerYield
  import opened MinerDraw
  import opened MinerAchievements

  /** What the save slot holds when the game loads. */
  datatype SaveSlot = Absent | Corrupt | Stored(saved: GameState)

  function Min(a: int, b: int): int { if a <= b then a else b }

  /** `adShares.map(...)`: bump the count of every holding of the given tier. */
  function IncrementTier(shares: seq<AdShare>, tier: int): (bumped: seq<AdShare>)
    ensures |bumped| == |shares|
    ensures forall i :: 0 <= i < |shares| ==>
              && bumped[i].(count := shares[i].count) == shares[i]
              && bumped[i].count == shares[i].count + (if shares[i].tier == tier then 1 else 0)
  {
    seq(|shares|, i requires 0 <= i < |shares| =>
      if shares[i].tier == tier then shares[i].(count := shares[i].count + 1) else shares[i])
  }

  /** On holdings in catalog shape, the map bumps exactly the holding at
      index tier - 1 and leaves every other holding as it was. */
  lemma IncrementShapedTier(shares: seq<AdShare>, tier: int)
    requires SharesShaped(shares)
    requires 1 <= tier <= |ADSHARE_TIERS|
    ensures IncrementTier(shares, tier) == shares[tier - 1 := shares[tier - 1].(count := shares[tier - 1].count + 1)]
    ensures SharesShaped(IncrementTier(shares, tier))
  {
    assert forall i :: 0 <= i < |shares| ==> (shares[i].tier == tier <==> i == tier - 1);
  }

  /** JavaScript-style integer quotient: rounds toward zero. */
  function DivTowardZero(a: int, b: int): int
    requires b > 0
  {
    if a >= 0 then a / b else -((-a) / b)
  }

  /** The offline credit for `elapsedMs` milliseconds at `rate` cents per
      second: the exact amount (elapsedMs × rate thousandths of a cent)
      rounded toward zero to whole cents. */
  function OfflineCredit(elapsedMs: int, rate: int): (credit: int)
    ensures elapsedMs * rate >= 0 ==> 0 <= 1000 * credit <= elapsedMs * rate < 1000 * credit + 1000
    ensures elapsedMs * rate < 0 ==> 1000 * credit - 1000 < elapsedMs * rate <= 1000 * credit <= 0
  {
    var exact := elapsedMs * rate;
    assert exact < 0 ==> 1000 * ((-exact) / 1000) <= -exact < 1000 * ((-exact) / 1000) + 1000;
    DivTowardZero(exact, 1000)
  }

  /** Whole seconds away earn exactly seconds × rate; with a zero rate
      nothing is credited however long the player was away. */
  lemma OfflineCreditWholeSeconds(seconds: int, rate: int)
    ensures OfflineCredit(1000 * seconds, rate) == seconds * rate
    ensures OfflineCredit(1000 * seconds, 0) == 0
  {
    var a := 1000 * seconds * rate;
    assert a == 1000 * (seconds * rate);
    if a < 0 {
      assert -a == 1000 * -(seconds * rate);
    }
  }

  /** The save snapshot: the live state with only the save time replaced. */
  function Snapshot(s: GameState, nowMs: int): (snap: GameState)
    ensures snap.lastSaved == nowMs
    ensures snap.(lastSaved := s.lastSaved) == s
    ensures WellShaped(s) ==> WellShaped(snap)
  {
    s.(lastSaved := nowMs)
  }

  /** The state a stored save loads into: the saved state, credited with the
      offline earnings and re-stamped with the load time. */
  function LoadedState(saved: GameState, nowMs: int, rate: int): (s: GameState)
    ensures s.balance == saved.balance + OfflineCredit(nowMs - saved.lastSaved, rate)
    ensures s.lastSaved == nowMs
    ensures s.adShares == saved.adShares && s.referrals == saved.referrals
  {
    saved.(balance := saved.balance + OfflineCredit(nowMs - saved.lastSaved, rate), lastSaved := nowMs)
  }

  /** Save then load: every field comes back, the balance gains exactly the
      credit for the time in between, and the save time becomes the load time. */
  lemma {:induction false} SaveLoadRoundTrip(s: GameState, savedAt: int, nowMs: int, rate: int)
    ensures LoadedState(Snapshot(s, savedAt), nowMs, rate)
         == s.(balance := s.balance + OfflineCredit(nowMs - savedAt, rate), lastSaved := nowMs)
    ensures rate == 0 ==> LoadedState(Snapshot(s, savedAt), nowMs, rate) == s.(lastSaved := nowMs)
    ensures WellShaped(s) ==> WellShaped(LoadedState(Snapshot(s, savedAt), nowMs, rate))
  {
    if rate == 0 {
      assert (nowMs - savedAt) * rate == 0;
    }
  }

  /** Two minutes away at 61 cents per second credits exactly $73.20. */
  lemma OfflineTwoMinutes(s: GameState, nowMs: int)
    ensures LoadedState(Snapshot(s, nowMs - 120000), nowMs, 61).balance == s.balance + 7320
  {
    OfflineCreditWholeSeconds(120, 61);
    assert nowMs - (nowMs - 120000) == 1000 * 120;
  }

  class Game {
    var state: GameState
    var feed: seq<FeedEntry>
    var unlocked: set<AchievementId>
    var lastFeedUpdate: int

    /** Holdings in catalog shape and referrals from the draw table. */
    ghost predicate Valid()
      reads this
    {
      WellShaped(state)
    }

    /** A fresh game: $50, no holdings, no referrals, empty feed and no
        achievements, with both clocks at the mount time. */
    constructor (nowMs: int)
      ensures Valid()
      ensures state == GameState(STARTING_BALANCE, InitialShares(), [], nowMs)
      ensures feed == [] && unlocked == {} && lastFeedUpdate == nowMs
    {
      state := GameState(STARTING_BALANCE, InitialShares(), [], nowMs);
      feed := [];
      unlocked := {};
      lastFeedUpdate := nowMs;
    }

    /** Buy one AdShare of a tier: an unknown tier or a balance below its
        cost changes nothing; otherwise the cost is debited, that tier's
        count rises by one, the yield rises by that tier's earnings and one
        entry is prepended to the feed. */
    method BuyAdShare(tier: int)
      requires Valid()
      modifies this
      ensures Valid()
      ensures unlocked == old(unlocked) && lastFeedUpdate == old(lastFeedUpdate)
      ensures !(1 <= tier <= |ADSHARE_TIERS|) || old(state).balance < ADSHARE_TIERS[tier - 1].cost ==>
                state == old(state) && feed == old(feed)
      ensures 1 <= tier <= |ADSHARE_TIERS| && old(state).balance >= ADSHARE_TIERS[tier - 1].cost ==>
                var row := ADSHARE_TIERS[tier - 1];
                var held := old(state).adShares[tier - 1];
                && state == old(state).(balance := old(state).balance - row.cost,
                                        adShares := old(state).adShares[tier - 1 := held.(count := held.count + 1)])
                && feed == [BoughtAdShare(tier, row.earnings)] + old(feed)
                && EarningsPerSecond(state).total == EarningsPerSecond(old(state)).total + row.earnings
    {
      FindCatalogTier(tier);
      var tierData := FindTier(ADSHARE_TIERS, tier);
      if tierData.None? || state.balance < tierData.value.cost {
        return;
      }
      IncrementShapedTier(state.adShares, tier);
      AdShareSumIncrement(state.adShares, tier - 1);
      state := state.(balance := state.balance - tierData.value.cost,
                      adShares := IncrementTier(state.adShares, tier));
      feed := [BoughtAdShare(tier, tierData.value.earnings)] + feed;
    }

    /** Pay advertisers with a draw on the CHANCE_SCALE: a balance below the
        fee changes nothing; otherwise the fee is debited whatever the draw,
        a referral carrying the drawn tier and earnings is appended exactly
        when the draw selects a row of tier above 0, and one entry is
        prepended to the feed. */
    method PayAdvertisers(draw: int, nowMs: int)
      requires Valid()
      modifies this
      ensures Valid()
      ensures unlocked == old(unlocked) && lastFeedUpdate == old(lastFeedUpdate)
      ensures old(state).balance < REFERRAL_FEE ==> state == old(state) && feed == old(feed)
      ensures old(state).balance >= REFERRAL_FEE ==>
                var r := SelectChance(draw);
                var gained := r.Some? && r.value.tier > 0;
                && state.balance == old(state).balance - REFERRAL_FEE
                && state.adShares == old(state).adShares
                && state.lastSaved == old(state).lastSaved
                && state.referrals == (if gained then old(state).referrals + [Referral(nowMs, r.value.tier, r.value.earnings)]
                                       else old(state).referrals)
                && feed == [if gained then ReferralGained(r.value.tier, r.value.earnings) else NoReferral] + old(feed)
                && EarningsPerSecond(state).total == EarningsPerSecond(old(state)).total + (if gained then r.value.earnings else 0)
    {
      if state.balance < REFERRAL_FEE {
        return;
      }
      var result := DrawReferral(draw);
      if result.Some? && result.value.tier > 0 {
        var gainedReferral := Referral(nowMs, result.value.tier, result.value.earnings);
        ReferralSumConcat(state.referrals, [gainedReferral]);
        assert [gainedReferral][..0] == [];
        state := state.(balance := state.balance - REFERRAL_FEE,
                        referrals := state.referrals + [gainedReferral]);
        feed := [ReferralGained(result.value.tier, result.value.earnings)] + feed;
      } else {
        state := state.(balance := state.balance - REFERRAL_FEE);
        feed := [NoReferral] + feed;
      }
    }

    /** One second of play: with a positive yield the balance rises by one
        second of it, and if five minutes have passed since the last summary
        a summary of five minutes' yield is prepended to the feed, which is
        cut to its newest FEED_CAP entries, and the summary time moves to
        now. With no yield nothing changes. Holdings and referrals are never
        touched. */
    method Tick(nowMs: int)
      requires Valid()
      modifies this
      ensures Valid()
      ensures unlocked == old(unlocked)
      ensures var e := EarningsPerSecond(old(state));
              e.total <= 0 ==> state == old(state) && feed == old(feed) && lastFeedUpdate == old(lastFeedUpdate)
      ensures var e := EarningsPerSecond(old(state));
              e.total > 0 ==> state == old(state).(balance := old(state).balance + e.total)
      ensures var e := EarningsPerSecond(old(state));
              e.total > 0 && nowMs - old(lastFeedUpdate) >= FEED_INTERVAL_MS ==>
                && feed == [FiveMinuteSummary(e.total * FEED_SUMMARY_SECONDS,
                                              e.adShareEarnings * FEED_SUMMARY_SECONDS,
                                              e.referralEarnings * FEED_SUMMARY_SECONDS)]
                           + old(feed)[..Min(FEED_CAP - 1, |old(feed)|)]
                && |feed| <= FEED_CAP
                && lastFeedUpdate == nowMs
      ensures var e := EarningsPerSecond(old(state));
              e.total > 0 && nowMs - old(lastFeedUpdate) < FEED_INTERVAL_MS ==>
                feed == old(feed) && lastFeedUpdate == old(lastFeedUpdate)
    {
      var earnings := EarningsPerSecond(state);
      if earnings.total > 0 {
        state := state.(balance := state.balance + earnings.total);
        if nowMs - lastFeedUpdate >= FEED_INTERVAL_MS {
          var summary := FiveMinuteSummary(earnings.total * FEED_SUMMARY_SECONDS,
                                           earnings.adShareEarnings * FEED_SUMMARY_SECONDS,
                                           earnings.referralEarnings * FEED_SUMMARY_SECONDS);
          feed := [summary] + feed[..Min(FEED_CAP - 1, |feed|)];
          lastFeedUpdate := nowMs;
        }
      }
    }

    /** The snapshot the autosave writes: the live state stamped with now. */
    method Save(nowMs: int) returns (snapshot: GameState)
      requires Valid()
      ensures snapshot == Snapshot(state, nowMs)
      ensures WellShaped(snapshot)
    {
      snapshot := state.(lastSaved := nowMs);
    }

    /** Load at mount: an absent or unreadable save changes nothing; a
        stored save replaces the state by the saved one credited with the
        offline earnings at `rate` cents per second and stamped with now,
        and a welcome-back entry is prepended exactly when the exact offline
        amount is positive, even when it rounds to no whole cent. */
    method Load(slot: SaveSlot, nowMs: int, rate: int)
      requires Valid()
      requires slot.Stored? ==> WellShaped(slot.saved)
      modifies this
      ensures Valid()
      ensures unlocked == old(unlocked) && lastFeedUpdate == old(lastFeedUpdate)
      ensures !slot.Stored? ==> state == old(state) && feed == old(feed)
      ensures slot.Stored? ==>
                var credit := OfflineCredit(nowMs - slot.saved.lastSaved, rate);
                && state == LoadedState(slot.saved, nowMs, rate)
                && state.balance == slot.saved.balance + credit
                && feed == (if (nowMs - slot.saved.lastSaved) * rate > 0
                            then [WelcomeBack(credit, nowMs - slot.saved.lastSaved)] + old(feed)
                            else old(feed))
    {
      match slot {
        case Absent =>
        case Corrupt =>
        case Stored(saved) =>
          var elapsedMs := nowMs - saved.lastSaved;
          var credit := OfflineCredit(elapsedMs, rate);
          if elapsedMs * rate > 0 {
            feed := [WelcomeBack(credit, elapsedMs)] + feed;
          }
          state := saved.(balance := saved.balance + credit, lastSaved := nowMs);
      }
    }

    /** The achievement sweep over the current state: every check whose
        condition holds and whose id was not yet unlocked is unlocked, with
        one feed entry prepended per unlock in visiting order. The state
        itself is not touched and no id is ever removed. */
    method CheckAchievements()
      requires Valid()
      modifies this
      ensures Valid()
      ensures state == old(state) && lastFeedUpdate == old(lastFeedUpdate)
      ensures old(unlocked) <= unlocked
      ensures unlocked == old(unlocked) + IdsOf(Newly(ACHIEVEMENTS, Checks(old(state)), old(unlocked)))
      ensures feed == Prepended(Newly(ACHIEVEMENTS, Checks(old(state)), old(unlocked)), old(feed))
      ensures forall k :: 0 <= k < |Checks(state)| ==>
                (Checks(state)[k].id in unlocked <==> Checks(state)[k].id in old(unlocked) || Checks(state)[k].condition)
      ensures |feed| == |old(feed)| + |unlocked - old(unlocked)|
      ensures feed[|feed| - |old(feed)|..] == old(feed)
    {
      var checks := Checks(state);
      ghost var newly := Newly(ACHIEVEMENTS, checks, unlocked);
      ChecksDistinct(state);
      CatalogCoversChecks(state);
      SweepUnlocksExactly(ACHIEVEMENTS, checks, unlocked);
      NewlySound(ACHIEVEMENTS, checks, unlocked);
      NewlyDistinct(ACHIEVEMENTS, checks, unlocked);
      PrependedShape(newly, feed);
      assert (unlocked + IdsOf(newly)) - unlocked == IdsOf(newly);
      Sweep(ACHIEVEMENTS, checks);
    }

    /** The `forEach` of the sweep over evaluated checks, against a catalog:
        membership is checked against the set as it was when the sweep began. */
    method Sweep(catalog: seq<Achievement>, checks: seq<Check>)
      modifies this
      ensures state == old(state) && lastFeedUpdate == old(lastFeedUpdate)
      ensures unlocked == old(unlocked) + IdsOf(Newly(catalog, checks, old(unlocked)))
      ensures feed == Prepended(Newly(catalog, checks, old(unlocked)), old(feed))
    {
      var before := unlocked;
      for i := 0 to |checks|
        invariant state == old(state) && lastFeedUpdate == old(lastFeedUpdate)
        invariant unlocked == before + IdsOf(Newly(catalog, checks[..i], before))
        invariant feed == Prepended(Newly(catalog, checks[..i], before), old(feed))
      {
        assert checks[..i + 1][..i] == checks[..i];
        var check := checks[i];
        var seen := Newly(catalog, checks[..i], before);
        var newly := Newly(catalog, checks[..i + 1], before);
        var achievement := FindAchievement(catalog, check.id);
        if check.condition && check.id !in before && achievement.Some? {
          assert newly == seen + [achievement.value];
          assert newly[..|newly| - 1] == seen;
          unlocked := unlocked + {check.id};
          feed := [AchievementUnlocked(achievement.value.name)] + feed;
        } else {
          assert newly == seen;
        }
      }
      assert checks[..|checks|] == checks;
    }
  }

  /** A fresh game, one tier-1 AdShare bought, then ten seconds of play:
      $50 − $10 + 10 × $0.01 = $40.10. */
  method BuyThenTenSeconds(nowMs: int) returns (balance: int, tier1Count: int)
    ensures balance == 4010 && tier1Count == 1
  {
    var game := new Game(nowMs);
    game.BuyAdShare(1);
    assert game.state.adShares == [AdShare(1, 1, 1000, 1), AdShare(2, 0, 5000, 10), AdShare(3, 0, 25000, 50)];
    AdShareSumShaped(game.state.adShares);
    assert EarningsPerSecond(game.state).total == 1;
    var i := 0;
    while i < 10
      invariant 0 <= i <= 10
      invariant game.Valid()
      invariant game.state.balance == 4000 + i
      invariant game.state.adShares == [AdShare(1, 1, 1000, 1), AdShare(2, 0, 5000, 10), AdShare(3, 0, 25000, 50)]
      invariant game.state.referrals == []
    {
      game.Tick(nowMs + 1000 * (i + 1));
      i := i + 1;
    }
    balance, tier1Count := game.state.balance, game.state.adShares[0].count;
  }
}
