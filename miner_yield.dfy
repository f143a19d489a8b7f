/** The earnings calculator: per-second yield derived from the game state.
    Both sums are left folds, as the source's two `reduce` calls are. */
module MinerYield {
  import opened MinerCatalog

  /** Yield per second in cents, split by where it comes from. */
  datatype Earnings = Earnings(adShareEarnings: int, referralEarnings: int, total: int)

  /** Σ count·earnings over the holdings. */
  function AdShareSum(shares: seq<AdShare>): int
  {
    if shares == [] then 0
    else AdShareSum(shares[..|shares| - 1]) + shares[|shares| - 1].count * shares[|shares| - 1].earnings
  }

  /** Σ earnings over the referrals. */
  function ReferralSum(refs: seq<Referral>): int
  {
    if refs == [] then 0
    else ReferralSum(refs[..|refs| - 1]) + refs[|refs| - 1].earnings
  }

  /** The yield breakdown the game shows and adds every second. */
  function EarningsPerSecond(s: GameState): (e: Earnings)
    ensures e.total == e.adShareEarnings + e.referralEarnings
  {
    var a := AdShareSum(s.adShares);
    var r := ReferralSum(s.referrals);
    Earnings(a, r, a + r)
  }

  /** The fold distributes over concatenation, so the sum does not depend on
      how the holdings are grouped. */
  lemma {:induction false} AdShareSumConcat(a: seq<AdShare>, b: seq<AdShare>)
    ensures AdShareSum(a + b) == AdShareSum(a) + AdShareSum(b)
    decreases |b|
  {
    if b == [] {
      assert a + b == a;
    } else {
      var b' := b[..|b| - 1];
      assert (a + b)[..|a + b| - 1] == a + b';
      AdShareSumConcat(a, b');
    }
  }

  /** Same for the referral sum. */
  lemma {:induction false} ReferralSumConcat(a: seq<Referral>, b: seq<Referral>)
    ensures ReferralSum(a + b) == ReferralSum(a) + ReferralSum(b)
    decreases |b|
  {
    if b == [] {
      assert a + b == a;
    } else {
      var b' := b[..|b| - 1];
      assert (a + b)[..|a + b| - 1] == a + b';
      ReferralSumConcat(a, b');
    }
  }

  /** Raising one holding's count by one raises the AdShare yield by exactly
      that holding's per-unit earnings. */
  lemma {:induction false} AdShareSumIncrement(shares: seq<AdShare>, i: nat)
    requires i < |shares|
    ensures AdShareSum(shares[i := shares[i].(count := shares[i].count + 1)])
         == AdShareSum(shares) + shares[i].earnings
  {
    var bumped := shares[i].(count := shares[i].count + 1);
    var pre, post := shares[..i], shares[i + 1..];
    assert shares == pre + [shares[i]] + post;
    assert shares[i := bumped] == pre + [bumped] + post;
    AdShareSumConcat(pre + [shares[i]], post);
    AdShareSumConcat(pre + [bumped], post);
    AdShareSumConcat(pre, [shares[i]]);
    AdShareSumConcat(pre, [bumped]);
    assert [shares[i]][..0] == [] && [bumped][..0] == [];
  }

  /** For holdings in catalog shape the AdShare yield is the closed form
      1·count₁ + 10·count₂ + 50·count₃ cents per second. */
  lemma {:induction false} AdShareSumShaped(shares: seq<AdShare>)
    requires SharesShaped(shares)
    ensures AdShareSum(shares) == shares[0].count + 10 * shares[1].count + 50 * shares[2].count
  {
    var one, two := shares[..1], shares[..2];
    assert shares[..|shares| - 1] == two;
    assert two[..|two| - 1] == one;
    assert one[..|one| - 1] == [];
    assert AdShareSum(one) == shares[0].count;
    assert AdShareSum(two) == shares[0].count + 10 * shares[1].count;
  }

  /** Holdings whose unit yields are all non-negative never sum to a
      negative yield. */
  lemma {:induction false} AdShareSumNonNegative(shares: seq<AdShare>)
    requires forall i :: 0 <= i < |shares| ==> shares[i].earnings >= 0
    ensures AdShareSum(shares) >= 0
    decreases |shares|
  {
    if shares != [] {
      AdShareSumNonNegative(shares[..|shares| - 1]);
      assert shares[|shares| - 1].earnings >= 0;
    }
  }

  /** Referrals created by the draw never carry a negative yield. */
  lemma {:induction false} ReferralSumNonNegative(refs: seq<Referral>)
    requires forall j :: 0 <= j < |refs| ==> ReferralShaped(refs[j])
    ensures ReferralSum(refs) >= 0
    decreases |refs|
  {
    if refs != [] {
      ReferralSumNonNegative(refs[..|refs| - 1]);
      assert ReferralShaped(refs[|refs| - 1]);
    }
  }

  /** A well-shaped state never earns a negative amount per second. */
  lemma YieldNonNegative(s: GameState)
    requires WellShaped(s)
    ensures EarningsPerSecond(s).adShareEarnings >= 0
    ensures EarningsPerSecond(s).referralEarnings >= 0
    ensures EarningsPerSecond(s).total >= 0
  {
    AdShareSumShaped(s.adShares);
    ReferralSumNonNegative(s.referrals);
  }

  /** A fresh game earns nothing: no holdings and no referrals. */
  lemma InitialYieldIsZero(lastSaved: int)
    ensures EarningsPerSecond(GameState(STARTING_BALANCE, InitialShares(), [], lastSaved)).total == 0
  {
    AdShareSumShaped(InitialShares());
  }
}
