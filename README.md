# RevMiner engine, poll board and proposal form — a Dafny model

This project models the logic of the RevGovern DAO site's interactive widgets:

- **RevMiner**, the idle game in `src/components/gaming/RevMinerGame.tsx`. The player holds a balance and buys AdShares in three tiers. Each AdShare yields a fixed amount per second. The player can also pay advertisers for a random chance of a referral that yields too. A one-second tick adds the yield, with a feed summary every five minutes. On load the game credits offline earnings. A save snapshot is written periodically, and five achievements unlock once their conditions are met.
- **The knowledge-poll board** in `src/components/dao/PollsTab.tsx`. It holds fixed mock polls. A visitor may vote once per poll and is told whether the answer was correct. Each option shows a rounded percentage.
- **The proposal form** in `src/components/dao/SubmitProposalTab.tsx`. It rejects an empty title or description and clears both fields on success.

Units: money is in integer cents. A fresh game starts at 5000. Tier costs are 1000/5000/25000 and yields are 1/10/50 cents per second. The referral fee is 1000 and the "Centurion" threshold is 10000. Times are in milliseconds. Referral chances are parts of 10000: 5000/4000/900/100. The random draw is `Math.random()` on that same scale, passed in as the integer `draw = ⌈random·10000⌉`. Under this mapping `random <= c/10000` holds exactly when `draw <= c` for every integer `c`, so, up to float rounding at the band edges, the cumulative bands select the same row as the source's comparisons (the one exception is the double `0.5 + 0.4`, which lies just above 0.9: an engine returning that exact value would get tier 1 from the source and tier 2 from the model).

Layout, one module per file:

- `wrappers.dfy`: `Option` and `FindFirst`, the model of `Array.prototype.find`.
- `miner_catalog.dfy` (`MinerCatalog`): the value types, constants, catalog tables, feed-entry datatype and the state's shape invariant.
- `miner_yield.dfy` (`MinerYield`): the earnings calculator.
- `miner_draw.dfy` (`MinerDraw`): the referral draw, with a loop proved against a recursive specification.
- `miner_achievements.dfy` (`MinerAchievements`): the catalog, the five conditions and the specification of one sweep.
- `miner_game.dfy` (`MinerGame`): class `Game`, which holds the four pieces of component state the source keeps (`gameState`, `activityFeed`, `unlockedAchievements`, `lastFeedUpdate`). It has one method per operation, plus the save/load functions.
- `polls.dfy` (`Polls`): the poll board, with class `PollBoard`.
- `proposals.dfy` (`Proposals`): the proposal form, with class `ProposalForm`.

The clock (`Date.now()`) and the random source (`Math.random()`) are method parameters. The 1-second and 5-second timers become calls to `Game.Tick(nowMs)` and `Game.Save(nowMs)`. The achievement effect, which React re-runs after every state change, becomes `Game.CheckAchievements()`, which a caller runs after each mutation.

In these details the model follows the code as written:

- The feed is cut to 20 entries only on the five-minute summary path. Purchases, draws, unlocks and the welcome-back entry prepend without a cap.
- Offline elapsed time is not clamped at zero.
- The offline rate is not taken from the loaded state. `Load` takes it as a parameter, and the source passes the rate of the default state, which is zero.
- The loaded state is taken as saved. Missing fields are not checked.
- A referral's id is its creation time, as the code assigns it. Two referrals created in the same millisecond would share an id.

## Model

| member | source | states |
|---|---|---|
| MinerCatalog.InitialShares | src/components/gaming/RevMinerGame.tsx:52-61 | A fresh game holds every catalog tier in catalog order, each with count 0 |
| Wrappers.FindFirst | src/components/gaming/RevMinerGame.tsx:175 | `find` returns the first element satisfying the test, and returns nothing exactly when no element does; used for the tier, achievement and poll lookups |
| Wrappers.FindFirstAt | src/components/dao/PollsTab.tsx:85 | `find` returns the element at a position when it matches and no earlier element does |
| MinerCatalog.FindCatalogTier | src/components/gaming/RevMinerGame.tsx:30-34 | The tier lookup succeeds exactly for tiers 1..3 and returns that tier's cost and yield row |
| MinerYield.AdShareSumNonNegative | src/components/gaming/RevMinerGame.tsx:70-72 | The Σ count·earnings fold is never negative when no holding has a negative unit yield |
| MinerYield.EarningsPerSecond | src/components/gaming/RevMinerGame.tsx:69-77 | Total yield is the AdShare part plus the referral part |
| MinerYield.AdShareSumConcat | src/components/gaming/RevMinerGame.tsx:70-72 | The Σ count·earnings fold is additive over concatenation, so grouping does not matter |
| MinerYield.ReferralSumConcat | src/components/gaming/RevMinerGame.tsx:73-75 | The Σ earnings fold over referrals is additive over concatenation; appending a referral adds exactly its earnings |
| MinerYield.AdShareSumIncrement | src/components/gaming/RevMinerGame.tsx:70-72 | Raising one holding's count by one raises the AdShare yield by exactly that holding's unit earnings |
| MinerYield.AdShareSumShaped | src/components/gaming/RevMinerGame.tsx:30-34 | For catalog-shaped holdings the AdShare yield is count₁ + 10·count₂ + 50·count₃ cents per second |
| MinerYield.ReferralSumNonNegative | src/components/gaming/RevMinerGame.tsx:36-41 | Referrals drawn from the table never make the referral yield negative |
| MinerYield.YieldNonNegative | src/components/gaming/RevMinerGame.tsx:69-77 | Every part of the yield of a well-shaped state is non-negative |
| MinerYield.InitialYieldIsZero | src/components/gaming/RevMinerGame.tsx:52-61 | The default state earns nothing per second |
| MinerDraw.SelectFrom | src/components/gaming/RevMinerGame.tsx:198-208 | The scan from row i returns, if anything, a row at or after i whose running cumulative chance reaches the draw |
| MinerDraw.SelectChance | src/components/gaming/RevMinerGame.tsx:196-208 | The drawn row, if any, is a row of the referral table; a draw within the first row's 50% selects that first row |
| MinerDraw.SelectFromIsFirstCovering | src/components/gaming/RevMinerGame.tsx:198-208 | The draw selects the first row whose running cumulative chance is at least the draw, and selects nothing (`result` stays null) exactly when no row reaches it |
| MinerDraw.SelectFromInTable | src/components/gaming/RevMinerGame.tsx:202-206 | A selected result is a row of the table |
| MinerDraw.ChancesSumToScale | src/components/gaming/RevMinerGame.tsx:36-41 | The four chances add up to the whole scale |
| MinerDraw.DrawBands | src/components/gaming/RevMinerGame.tsx:36-41 | A draw up to 50% (a draw of 0 included) gives tier 0, then 40% gives tier 1, 9% tier 2 and 1% tier 3; a draw past the scale gives no row |
| MinerDraw.DrawReferral | src/components/gaming/RevMinerGame.tsx:198-208 | The accumulate-and-break loop returns exactly the first-covering selection, which is a row of the table |
| MinerAchievements.TotalAdSharesPositive | src/components/gaming/RevMinerGame.tsx:147 | The `reduce` total of AdShares is positive exactly when some holding has a positive count |
| MinerAchievements.ChecksMeaning | src/components/gaming/RevMinerGame.tsx:147-157 | The five checks follow the catalog order of ids; they test any AdShare held, ten AdShares in total, any referral, a Tier 3 AdShare and a balance of at least 10000 cents |
| MinerAchievements.CatalogCoversChecks | src/components/gaming/RevMinerGame.tsx:43-49 | Every one of the five checked ids is found in the achievement catalog, so the `if (achievement)` guard always passes |
| MinerAchievements.ChecksDistinct | src/components/gaming/RevMinerGame.tsx:151-157 | The five checks have pairwise distinct ids |
| MinerAchievements.NewlySound | src/components/gaming/RevMinerGame.tsx:159-160 | A sweep unlocks an id only when it was locked when the sweep began and a check with that id had a true condition |
| MinerAchievements.NewlyComplete | src/components/gaming/RevMinerGame.tsx:159-163 | A sweep unlocks every check whose condition holds, whose id was locked and which the catalog knows |
| MinerAchievements.SweepUnlocksExactly | src/components/gaming/RevMinerGame.tsx:159-171 | After a sweep, each checked id is unlocked iff it already was or its condition holds now |
| MinerAchievements.PrependedShape | src/components/gaming/RevMinerGame.tsx:164 | Unlock entries go in front of the untouched old feed, one per unlock |
| MinerAchievements.PrependedEntries | src/components/gaming/RevMinerGame.tsx:164 | Entry 0 of the new feed announces the newest unlock, entry 1 the one before it, and so on down to the oldest unlock |
| MinerAchievements.NewlyDistinct | src/components/gaming/RevMinerGame.tsx:163-164 | Over distinct ids, a sweep adds exactly as many ids as feed entries |
| MinerGame.IncrementTier | src/components/gaming/RevMinerGame.tsx:181-185 | The `map` keeps the length and every field but `count`; a holding's count rises by one exactly when its tier is the bought tier, and stays otherwise |
| MinerGame.IncrementShapedTier | src/components/gaming/RevMinerGame.tsx:181-185 | On catalog-shaped holdings the `map` bumps only the holding of the bought tier, by one, and keeps the shape |
| MinerGame.OfflineCreditWholeSeconds | src/components/gaming/RevMinerGame.tsx:94-96 | Whole seconds away earn exactly seconds × rate; at rate 0 nothing is earned |
| MinerGame.OfflineCredit | src/components/gaming/RevMinerGame.tsx:94-96 | The credit is elapsed ms × rate ÷ 1000 rounded toward zero to whole cents: it has the sign of the exact amount and lies within one cent of it |
| MinerGame.Snapshot | src/components/gaming/RevMinerGame.tsx:80-84 | The save snapshot differs from the state only in `lastSaved`, which becomes now, and it keeps the state's shape |
| MinerGame.LoadedState | src/components/gaming/RevMinerGame.tsx:102-106 | A loaded state has the saved balance plus the offline credit, the saved holdings and referrals, and `lastSaved` = now |
| MinerGame.SaveLoadRoundTrip | src/components/gaming/RevMinerGame.tsx:80-106 | Loading a snapshot restores the state with the balance credited for the time in between and `lastSaved` = load time; at the source's rate 0 it restores the state exactly apart from `lastSaved` |
| MinerGame.OfflineTwoMinutes | src/components/gaming/RevMinerGame.tsx:94-104 | 120 s away at 61 cents per second credit exactly 7320 cents |
| MinerGame.Game.constructor | src/components/gaming/RevMinerGame.tsx:52-65 | The initial state has balance 5000, zero holdings, no referrals, an empty feed, no achievements and both clocks at now |
| MinerGame.Game.BuyAdShare | src/components/gaming/RevMinerGame.tsx:174-192 | An unknown tier or too low a balance changes nothing. Otherwise the balance drops by exactly the cost, only that tier's count rises by exactly 1, referrals are unchanged, the yield rises by that tier's earnings and exactly one entry is prepended |
| MinerGame.Game.PayAdvertisers | src/components/gaming/RevMinerGame.tsx:194-232 | A balance below the fee is a no-op. Otherwise the fee is debited whatever the draw. Referrals grow by exactly the drawn referral iff the drawn row's tier > 0 (a null result counts as none). Exactly one entry is prepended and holdings are untouched |
| MinerGame.Game.Tick | src/components/gaming/RevMinerGame.tsx:121-139 | With positive yield the balance rises by exactly one second of yield. With zero yield nothing changes. Holdings and referrals are never touched. When 300000 ms have passed, one summary of 300 s of yield goes in front of at most 19 old entries (≤ 20 in all) and `lastFeedUpdate` becomes now |
| MinerGame.Game.Save | src/components/gaming/RevMinerGame.tsx:80-85 | Save returns the live state stamped with now, in well-formed shape |
| MinerGame.Game.Load | src/components/gaming/RevMinerGame.tsx:89-111 | An absent or unparsable save changes nothing. A stored one sets balance = saved + credit and `lastSaved` = now, and prepends a welcome-back entry exactly when the exact offline amount, elapsed × rate, is > 0, even when it is below one cent |
| MinerGame.Game.CheckAchievements | src/components/gaming/RevMinerGame.tsx:146-172 | The unlocked set only grows. Each id ends unlocked iff it was already unlocked or its condition holds. One entry is prepended per new id, with the old feed kept behind. The game state is unchanged |
| MinerGame.Game.Sweep | src/components/gaming/RevMinerGame.tsx:159-171 | The `forEach` loop unlocks and prepends exactly what the sweep specification says, testing against the set as it was before the sweep |
| MinerGame.BuyThenTenSeconds | src/components/gaming/RevMinerGame.tsx:121-128 | From a fresh game, buying one tier-1 share and ticking ten times leaves 4010 cents and one tier-1 share |
| Polls.Percentage | src/components/dao/PollsTab.tsx:128 | 0 when there are no votes. Otherwise it is the nearest integer to 100·votes/total, with halves rounded up. It lies in 0..100 whenever votes ≤ total |
| Polls.MockPollsConsistent | src/components/dao/PollsTab.tsx:8-74 | Every mock poll's total equals the sum of its options' votes, and each has exactly one correct option |
| Polls.MockFirstOptionCorrect | src/components/dao/PollsTab.tsx:8-74 | In each mock poll the correct option is exactly the first one |
| Polls.MockAnswerKey | src/components/dao/PollsTab.tsx:85-88 | A vote on mock poll 1..5 is correct iff it picks option 0; a vote on an unknown poll is never correct |
| Polls.IsCorrectVote | src/components/dao/PollsTab.tsx:85-88 | A vote is correct iff the first poll with that id exists, the option index is in range and that option is flagged correct |
| Polls.PollBoard.constructor | src/components/dao/PollsTab.tsx:77 | No poll is marked as voted at first |
| Polls.PollBoard.HandleVote | src/components/dao/PollsTab.tsx:80-100 | A repeat vote changes nothing. A first vote adds exactly that poll id, even for an unknown poll or out-of-range option. The outcome is Correct iff the selected option exists and is flagged correct. No vote removes an id |
| Proposals.ProposalForm.constructor | src/components/dao/SubmitProposalTab.tsx:10-11 | Both fields start empty |
| Proposals.ProposalForm.SetTitle | src/components/dao/SubmitProposalTab.tsx:49 | Editing the title sets it and leaves the description alone |
| Proposals.ProposalForm.SetDescription | src/components/dao/SubmitProposalTab.tsx:60 | Editing the description sets it and leaves the title alone |
| Proposals.ProposalForm.HandleSubmit | src/components/dao/SubmitProposalTab.tsx:14-32 | Success iff both fields are non-empty; the guard does not trim, so text made only of whitespace passes. On error both fields are unchanged; on success both are empty afterwards |

## Left out

- Rendering: all JSX, the `toFixed` formatting of feed messages, progress bars and badges. Feed entries are a datatype holding the numbers the message would show.
- Timers: `setInterval`/`clearInterval` scheduling and teardown. `Tick` and `Save` are explicit calls.
- Storage: `localStorage`, `JSON.stringify`/`JSON.parse` and console logging. The save is a record copy, and a missing or unparsable save is the `Absent`/`Corrupt` slot.
- Toast notifications for achievements, votes and proposal submission. Only the outcome each one reports is modelled.
- Floating point: money is exact integer cents and chances are parts of 10000. In the source the float running sums of the chances are exactly 0.5, 0.9, 0.99 and 1.0, and `Math.random()` is below 1, so its `result` is never null. The model's `None` is a draw above `CHANCE_SCALE`, which no `Math.random()` value produces.
- MinerDraw.DrawReferral: the draw is the integer `⌈random·10000⌉`. The bands select the same row as the source up to float rounding at the band edges (the double `0.5 + 0.4` lies just above 0.9), and two `Math.random()` values between the same grid points are not distinguished.
- MinerGame.OfflineCredit: rounds the offline credit toward zero to whole cents, where the source keeps a fractional float balance. The welcome-back decision still uses the exact amount, so an amount below one cent prepends an entry announcing a credit of 0 cents.
- Polls.Percentage: uses exact rational rounding. The source rounds the float `votes / total * 100`, which can differ right at a .5 boundary.
- MinerGame.Game.Load: requires a stored save to have catalog-shaped holdings and table-drawn referrals, which is what `Save` writes. Saves that parse but have a different shape are not modelled.
- React closure timing: the tick reads the yield of the state it is called on. Stale-closure effects of React re-renders are not modelled.
- The admin back office, the proposals and leaderboard boards, and the page sections and navigation. These are storage plumbing or static mock rendering.
- Persistence of unlocked achievements and voted polls: the source keeps them only for the session, and so does this model.
