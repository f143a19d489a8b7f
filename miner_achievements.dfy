/** Achievement catalog, the five unlock conditions and the specification of
    one sweep over them: which achievements a sweep unlocks and which feed
    entries it prepends. */
module MinerAchievements {
  import opened Wrappers
  import opened MinerCatalog

  /** The achievement ids "first-adshare", "10-adshares", "first-referral",
      "tier-3-adshare" and "100-balance". */
  datatype AchievementId = FirstAdShare | TenAdShares | FirstReferral | Tier3AdShare | HundredBalance

  datatype Achievement = Achievement(id: AchievementId, name: string, description: string)

  /** One condition of the sweep, already evaluated against the state. */
  datatype Check = Check(id: AchievementId, condition: bool)

  const ACHIEVEMENTS: seq<Achievement> := [
    Achievement(FirstAdShare, "First AdShare", "Bought your first AdShare"),
    Achievement(TenAdShares, "Empire Builder", "Own 10 total AdShares"),
    Achievement(FirstReferral, "Networking Begins", "Earned your first referral"),
    Achievement(Tier3AdShare, "Premium Investor", "Bought a Tier 3 AdShare"),
    Achievement(HundredBalance, "Centurion", "Reached $100 balance")
  ]

  /** Σ count over the holdings (a left fold, as the source's `reduce`);
      positive exactly when some holding has a positive count. */
  function TotalAdShares(shares: seq<AdShare>): (total: int)
    ensures total >= 0
  {
    if shares == [] then 0
    else TotalAdShares(shares[..|shares| - 1]) + shares[|shares| - 1].count
  }

  /** The five conditions, in the order the sweep visits them: one per
      catalog achievement, in catalog order. */
  function Checks(s: GameState): (checks: seq<Check>)
    requires |s.adShares| > 2
  {
    var total := TotalAdShares(s.adShares);
    [
      Check(FirstAdShare, total > 0),
      Check(TenAdShares, total >= 10),
      Check(FirstReferral, |s.referrals| > 0),
      Check(Tier3AdShare, s.adShares[2].count > 0),
      Check(HundredBalance, s.balance >= CENTURION_BALANCE)
    ]
  }

  /** The total is positive exactly when some holding has a positive count. */
  lemma {:induction false} TotalAdSharesPositive(shares: seq<AdShare>)
    ensures TotalAdShares(shares) > 0 <==> exists i :: 0 <= i < |shares| && shares[i].count > 0
    decreases |shares|
  {
    if shares != [] {
      var init := shares[..|shares| - 1];
      TotalAdSharesPositive(init);
      if exists i :: 0 <= i < |init| && init[i].count > 0 {
        var i :| 0 <= i < |init| && init[i].count > 0;
        assert shares[i] == init[i];
      }
      if exists i :: 0 <= i < |shares| && shares[i].count > 0 {
        var i :| 0 <= i < |shares| && shares[i].count > 0;
        if i < |init| {
          assert init[i] == shares[i];
        }
      }
    }
  }

  /** What each of the five checks tests, in catalog order: any AdShare at
      all, ten AdShares in total, any referral, a Tier 3 AdShare, and a
      balance of at least $100. */
  lemma ChecksMeaning(s: GameState)
    requires |s.adShares| > 2
    ensures |Checks(s)| == |ACHIEVEMENTS|
    ensures forall k :: 0 <= k < |Checks(s)| ==> Checks(s)[k].id == ACHIEVEMENTS[k].id
    ensures Checks(s)[0].condition <==> exists i :: 0 <= i < |s.adShares| && s.adShares[i].count > 0
    ensures Checks(s)[1].condition <==> TotalAdShares(s.adShares) >= 10
    ensures Checks(s)[2].condition <==> s.referrals != []
    ensures Checks(s)[3].condition <==> s.adShares[2].count > 0
    ensures Checks(s)[4].condition <==> s.balance >= CENTURION_BALANCE
  {
    TotalAdSharesPositive(s.adShares);
  }

  /** `ACHIEVEMENTS.find(a => a.id === id)`. */
  function FindAchievement(catalog: seq<Achievement>, id: AchievementId): Option<Achievement>
  {
    FindFirst(catalog, (a: Achievement) => a.id == id)
  }

  /** The sweep unlocks a check when its condition holds, it was not unlocked
      when the sweep began, and the catalog knows its id. */
  predicate Unlocks(catalog: seq<Achievement>, c: Check, before: set<AchievementId>)
  {
    c.condition && c.id !in before && FindAchievement(catalog, c.id).Some?
  }

  /** The achievements a sweep over `checks` unlocks, in visiting order. */
  function Newly(catalog: seq<Achievement>, checks: seq<Check>, before: set<AchievementId>): seq<Achievement>
  {
    if checks == [] then []
    else
      var last := checks[|checks| - 1];
      Newly(catalog, checks[..|checks| - 1], before) +
        (if Unlocks(catalog, last, before) then [FindAchievement(catalog, last.id).value] else [])
  }

  /** The ids of a list of achievements. */
  function IdsOf(achievements: seq<Achievement>): set<AchievementId>
  {
    if achievements == [] then {}
    else IdsOf(achievements[..|achievements| - 1]) + {achievements[|achievements| - 1].id}
  }

  /** The feed after prepending one entry per unlocked achievement, in
      visiting order, so the last unlocked ends up first. */
  function Prepended(achievements: seq<Achievement>, feed: seq<FeedEntry>): seq<FeedEntry>
  {
    if achievements == [] then feed
    else [AchievementUnlocked(achievements[|achievements| - 1].name)] +
           Prepended(achievements[..|achievements| - 1], feed)
  }

  /** Every id in the five checks is in the catalog. */
  lemma CatalogCoversChecks(s: GameState)
    requires |s.adShares| > 2
    ensures forall k :: 0 <= k < |Checks(s)| ==> FindAchievement(ACHIEVEMENTS, Checks(s)[k].id).Some?
  {
    var cs := Checks(s);
    forall k | 0 <= k < |cs|
      ensures FindAchievement(ACHIEVEMENTS, cs[k].id).Some?
    {
      assert ACHIEVEMENTS[k].id == cs[k].id;
    }
  }

  /** Soundness: everything a sweep unlocks was locked and has a check with
      that id whose condition held. */
  lemma {:induction false} NewlySound(catalog: seq<Achievement>, checks: seq<Check>, before: set<AchievementId>)
    ensures forall id :: id in IdsOf(Newly(catalog, checks, before)) ==>
              id !in before && exists k :: 0 <= k < |checks| && checks[k].id == id && checks[k].condition
  {
    if checks != [] {
      var init := checks[..|checks| - 1];
      var last := checks[|checks| - 1];
      NewlySound(catalog, init, before);
      var tail := if Unlocks(catalog, last, before) then [FindAchievement(catalog, last.id).value] else [];
      IdsOfConcat(Newly(catalog, init, before), tail);
      forall id | id in IdsOf(Newly(catalog, checks, before))
        ensures id !in before && exists k :: 0 <= k < |checks| && checks[k].id == id && checks[k].condition
      {
        if id in IdsOf(Newly(catalog, init, before)) {
          var k :| 0 <= k < |init| && init[k].id == id && init[k].condition;
          assert checks[k] == init[k];
        } else {
          assert IdsOf(tail) == (if Unlocks(catalog, last, before) then {last.id} else {}) by {
            if Unlocks(catalog, last, before) { assert tail[..0] == []; }
          }
          assert checks[|checks| - 1] == last;
        }
      }
    }
  }

  /** Completeness: every check whose condition holds, whose id was locked and
      which the catalog knows is unlocked by the sweep. */
  lemma {:induction false} NewlyComplete(catalog: seq<Achievement>, checks: seq<Check>, before: set<AchievementId>)
    ensures forall k :: 0 <= k < |checks| && Unlocks(catalog, checks[k], before) ==>
              checks[k].id in IdsOf(Newly(catalog, checks, before))
  {
    if checks != [] {
      var init := checks[..|checks| - 1];
      var last := checks[|checks| - 1];
      NewlyComplete(catalog, init, before);
      var tail := if Unlocks(catalog, last, before) then [FindAchievement(catalog, last.id).value] else [];
      IdsOfConcat(Newly(catalog, init, before), tail);
      if Unlocks(catalog, last, before) {
        assert tail[..0] == [];
        assert last.id in IdsOf(tail);
      }
      forall k | 0 <= k < |checks| && Unlocks(catalog, checks[k], before)
        ensures checks[k].id in IdsOf(Newly(catalog, checks, before))
      {
        if k < |init| {
          assert init[k] == checks[k];
        }
      }
    }
  }

  lemma {:induction false} IdsOfConcat(a: seq<Achievement>, b: seq<Achievement>)
    ensures IdsOf(a + b) == IdsOf(a) + IdsOf(b)
    decreases |b|
  {
    if b == [] {
      assert a + b == a;
    } else {
      assert (a + b)[..|a + b| - 1] == a + b[..|b| - 1];
      IdsOfConcat(a, b[..|b| - 1]);
    }
  }

  /** The five checks name five different achievements. */
  predicate DistinctIds(checks: seq<Check>)
  {
    forall j, k :: 0 <= j < k < |checks| ==> checks[j].id != checks[k].id
  }

  lemma ChecksDistinct(s: GameState)
    requires |s.adShares| > 2
    ensures DistinctIds(Checks(s))
  {
    var cs := Checks(s);
    var ids := seq(|cs|, k requires 0 <= k < |cs| => cs[k].id);
    assert ids == [FirstAdShare, TenAdShares, FirstReferral, Tier3AdShare, HundredBalance];
    assert forall j, k :: 0 <= j < k < |cs| ==> ids[j] != ids[k];
  }

  /** After a sweep over checks with distinct ids that the catalog all knows,
      each check's id is unlocked exactly when it already was or its condition
      holds now. */
  lemma SweepUnlocksExactly(catalog: seq<Achievement>, checks: seq<Check>, before: set<AchievementId>)
    requires DistinctIds(checks)
    requires forall k :: 0 <= k < |checks| ==> FindAchievement(catalog, checks[k].id).Some?
    ensures forall k :: 0 <= k < |checks| ==>
              (checks[k].id in before + IdsOf(Newly(catalog, checks, before)) <==>
                 checks[k].id in before || checks[k].condition)
  {
    NewlySound(catalog, checks, before);
    NewlyComplete(catalog, checks, before);
    forall k | 0 <= k < |checks|
      ensures checks[k].id in before + IdsOf(Newly(catalog, checks, before)) <==>
                checks[k].id in before || checks[k].condition
    {
      if checks[k].id in IdsOf(Newly(catalog, checks, before)) {
        var j :| 0 <= j < |checks| && checks[j].id == checks[k].id && checks[j].condition;
        assert j == k;
      }
    }
  }

  /** One feed entry per unlock, in front of the untouched old feed. */
  lemma {:induction false} PrependedShape(achievements: seq<Achievement>, feed: seq<FeedEntry>)
    ensures |Prepended(achievements, feed)| == |achievements| + |feed|
    ensures Prepended(achievements, feed)[|achievements|..] == feed
    decreases |achievements|
  {
    if achievements != [] {
      PrependedShape(achievements[..|achievements| - 1], feed);
    }
  }

  /** Entry i of the prepended feed announces unlock |achievements|-1-i: the
      newest unlock comes first. */
  lemma {:induction false} PrependedEntries(achievements: seq<Achievement>, feed: seq<FeedEntry>)
    ensures |Prepended(achievements, feed)| == |achievements| + |feed|
    ensures forall i :: 0 <= i < |achievements| ==>
              Prepended(achievements, feed)[i] == AchievementUnlocked(achievements[|achievements| - 1 - i].name)
    decreases |achievements|
  {
    if achievements != [] {
      var init := achievements[..|achievements| - 1];
      PrependedEntries(init, feed);
      forall i | 0 < i < |achievements|
        ensures Prepended(achievements, feed)[i] == AchievementUnlocked(achievements[|achievements| - 1 - i].name)
      {
        assert Prepended(achievements, feed)[i] == Prepended(init, feed)[i - 1];
        assert init[|init| - 1 - (i - 1)] == achievements[|achievements| - 1 - i];
      }
    }
  }

  /** Over checks with distinct ids a sweep unlocks each id at most once, so
      it adds as many ids as it prepends feed entries. */
  lemma {:induction false} NewlyDistinct(catalog: seq<Achievement>, checks: seq<Check>, before: set<AchievementId>)
    requires DistinctIds(checks)
    ensures |IdsOf(Newly(catalog, checks, before))| == |Newly(catalog, checks, before)|
    decreases |checks|
  {
    if checks != [] {
      var init := checks[..|checks| - 1];
      var last := checks[|checks| - 1];
      NewlyDistinct(catalog, init, before);
      NewlySound(catalog, init, before);
      var tail := if Unlocks(catalog, last, before) then [FindAchievement(catalog, last.id).value] else [];
      IdsOfConcat(Newly(catalog, init, before), tail);
      if Unlocks(catalog, last, before) {
        assert tail[..0] == [];
        assert IdsOf(tail) == {last.id};
        forall k | 0 <= k < |init|
          ensures init[k].id != last.id
        {
          assert init[k] == checks[k];
        }
      }
    }
  }
}
