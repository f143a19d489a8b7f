/** The "pay advertisers" draw: walk the referral table accumulating chances
    and take the first row whose running total reaches the draw. */
module MinerDraw {
  import opened Wrappers
  import opened MinerCatalog

  /** Sum of the chances of the first k rows of the table. */
  function Cumulative(table: seq<Chance>, k: nat): int
    requires k <= |table|
  {
    if k == 0 then 0 else Cumulative(table, k - 1) + table[k - 1].chance
  }

  /** The row the walk settles on when it has reached row i without a match:
      the loop of the source, read as a recursive definition. */
  function SelectFrom(table: seq<Chance>, draw: int, i: nat): (r: Option<Chance>)
    requires i <= |table|
    ensures r.Some? ==> exists k :: i <= k < |table| && r.value == table[k] && draw <= Cumulative(table, k + 1)
    decreases |table| - i
  {
    if i == |table| then None
    else if draw <= Cumulative(table, i + 1) then Some(table[i])
    else SelectFrom(table, draw, i + 1)
  }

  /** The outcome of a draw against the game's referral table. */
  function SelectChance(draw: int): (r: Option<Chance>)
    ensures r.Some? ==> r.value in REFERRAL_CHANCES
    ensures draw <= REFERRAL_CHANCES[0].chance ==> r == Some(REFERRAL_CHANCES[0])
  {
    SelectFrom(REFERRAL_CHANCES, draw, 0)
  }

  /** Row k "covers" the draw when the running total after it reaches the draw. */
  predicate Covers(table: seq<Chance>, draw: int, k: nat)
    requires k < |table|
  {
    draw <= Cumulative(table, k + 1)
  }

  /** The walk returns the FIRST covering row at or after i, and nothing when
      no row covers the draw. */
  lemma {:induction false} SelectFromIsFirstCovering(table: seq<Chance>, draw: int, i: nat)
    requires i <= |table|
    ensures SelectFrom(table, draw, i).None? <==>
              forall k :: i <= k < |table| ==> !Covers(table, draw, k)
    ensures forall k :: i <= k < |table| && Covers(table, draw, k) &&
                        (forall j :: i <= j < k ==> !Covers(table, draw, j)) ==>
              SelectFrom(table, draw, i) == Some(table[k])
    decreases |table| - i
  {
    if i < |table| && !Covers(table, draw, i) {
      SelectFromIsFirstCovering(table, draw, i + 1);
    }
  }

  /** Whatever the walk returns is a row of the table. */
  lemma {:induction false} SelectFromInTable(table: seq<Chance>, draw: int, i: nat)
    requires i <= |table|
    ensures SelectFrom(table, draw, i).Some? ==> SelectFrom(table, draw, i).value in table
    decreases |table| - i
  {
    if i < |table| && !Covers(table, draw, i) {
      SelectFromInTable(table, draw, i + 1);
    }
  }

  /** The game's chances add up to the whole scale (50% + 40% + 9% + 1%). */
  lemma ChancesSumToScale()
    ensures Cumulative(REFERRAL_CHANCES, |REFERRAL_CHANCES|) == CHANCE_SCALE
  {
  }

  /** Draw bands of the game's table: a draw of at most 50% (in particular a
      draw of 0) gives tier 0, the next 40% tier 1, the next 9% tier 2, the
      last 1% tier 3, and a draw past the whole scale gives no row at all. */
  lemma DrawBands(draw: int)
    ensures draw <= 5000 ==> SelectChance(draw) == Some(REFERRAL_CHANCES[0])
    ensures 5000 < draw <= 9000 ==> SelectChance(draw) == Some(REFERRAL_CHANCES[1])
    ensures 9000 < draw <= 9900 ==> SelectChance(draw) == Some(REFERRAL_CHANCES[2])
    ensures 9900 < draw <= CHANCE_SCALE ==> SelectChance(draw) == Some(REFERRAL_CHANCES[3])
    ensures CHANCE_SCALE < draw <==> SelectChance(draw).None?
  {
    var t := REFERRAL_CHANCES;
    assert Cumulative(t, 1) == 5000 && Cumulative(t, 2) == 9000;
    assert Cumulative(t, 3) == 9900 && Cumulative(t, 4) == 10000;
    SelectFromIsFirstCovering(t, draw, 0);
  }

  /** The loop of `payAdvertisers`: accumulate chances row by row and stop at
      the first row whose running total is at least the draw. */
  method DrawReferral(draw: int) returns (result: Option<Chance>)
    ensures result == SelectChance(draw)
    ensures result.Some? ==> result.value in REFERRAL_CHANCES
  {
    var table := REFERRAL_CHANCES;
    var cumulative := 0;
    result := None;
    for i := 0 to |table|
      invariant cumulative == Cumulative(table, i)
      invariant result == None
      invariant SelectChance(draw) == SelectFrom(table, draw, i)
    {
      cumulative := cumulative + table[i].chance;
      if draw <= cumulative {
        result := Some(table[i]);
        break;
      }
    }
    SelectFromInTable(table, draw, 0);
  }
}
