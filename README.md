# GreenChain energy rewards: a Dafny model of its core

GreenChain lets the owner of a solar installation log each kWh reading
with a small FastAPI backend, which keeps the reading in an SQLite table
and mints reward tokens for it on chain. A React frontend then shows the
readings, keeps a day streak with badges, ranks producers on a
leaderboard, and sells products for tokens in a marketplace with a cart.

This project models and proves the core of that system:

- **The streak evaluator** (`streak.dfy`, module `Streak`). It covers the
  daily qualification (at least 3 kWh and the app opened) and the
  continue, keep, restart or break transition of the counters. It also
  covers the badge catalog and the badge check, the next-badge choice
  and the progress towards it.
  - The context's state is a class, `StreakTracker`. Its methods are
    proved against the pure function `Evaluate`.
  - Lemmas prove that an evaluation keeps `longest >= current`, unique
    badge ids and one record per date, and that repeating it changes
    nothing. They also prove that evaluating consecutive days from a
    fresh state counts runs of qualifying days.
- **The marketplace** (`marketplace.dfy`, module `Marketplace`). It
  covers the product catalog and the categories, and the cart operations
  (add, remove, set quantity, total). It also covers redemption, with
  its two errors checked in the source's order, the product filter and
  the reset on disconnect.
  - The state is the class `Ledger`, proved against the pure cart
    functions and `Redeem`.
- **The product card and the cart panel** (`product_card.dfy`,
  `shopping_cart.dfy`). These model each control's guard and the handler
  behind it. For example, the card's add button is enabled exactly when
  a click changes the cart, and an offered checkout always succeeds.
- **The generation page** (`energy_generated.dfy`, module
  `EnergyGenerated`).
  - It computes the summary metrics, the efficiency grade and the device
    label.
  - It loads logs in pages of 50. The "Load more" guard and the effect
    run on a wallet change are part of the model. On success a load
    hands the logs to the streak tracker.
- **The leaderboard page** (`leaderboard.dfy`, module `Leaderboard`). It
  covers the display names, the ranked rows with points, the medals, the
  connected user's rank, the summary statistics and the loading states.
- **The backend's pure parts** (`backend.dfy`, module `Backend`).
  - Configuration: the CORS origin list and the mint rate.
  - The event check and the minted token amount.
  - The stored row, which has the shape of the `energy_logs` table.
  - The log query: wallet lower-casing, filter, newest-first order,
    offset and limit. The query's behaviour for `count` is modelled too.
  - The conversion of raw token amounts to whole tokens.
- **The page and the query together** (`paging.dfy`, module `Paging`).
  This is where the first finding below is shown, along with its
  correction.

Shared helpers live in `common.dfy` (`Common`): `Option`/`Result`,
JavaScript truthiness, strip, lower-case, split and join, and a generic
filter with its lemmas. The log record that both frontend contexts use
lives in `log_records.dfy` (`LogRecords`).

Conventions:

- **Days.** Days are integer day numbers, counted from 1970-01-01 (UTC).
  Both the streak context and the generation page take 2025-08-30 as
  today (`LogRecords.TODAY`), and yesterday is `today - 1`. A log's day is
  the date of its device timestamp, or `None` when it has none.
- **Inputs from outside.** A request's result and the clock reach each
  method as parameters: `outcome`, `now` and `orderId`.
- **Order stamps.** An order's date, time and delivery date are the fixed
  strings the source writes.

## Model

| member | source | states |
|---|---|---|
| Common.Strip | backend/main.py:18 | the result is the input with only a whitespace prefix and a whitespace suffix cut off, and has no whitespace at either end |
| Common.StripEmptyIffBlank | frontend/src/context/MarketplaceContext.js:430 | a search query counts as empty exactly when it consists of whitespace only |
| Common.LowerCases | backend/main.py:162 | lower-casing yields lower case, and leaves exactly the strings already in lower case unchanged |
| Common.SplitJoin | backend/main.py:18 | splitting the comma-join of comma-free pieces gives back exactly those pieces |
| Common.JoinSplit | backend/main.py:18 | joining the pieces of a split with the separator restores the original string |
| Common.Filter | frontend/src/context/MarketplaceContext.js:424-437 | keeps exactly the elements passing the test, and never more than the input |
| LogRecords.TotalUnitsAppend | frontend/src/pages/EnergyGenerated/EnergyGenerated.jsx:76-79 | the units sum of two concatenated lists is the sum of their sums |
| LogRecords.TotalUnitsNonNegative | frontend/src/pages/EnergyGenerated/EnergyGenerated.jsx:76-79 | non-negative units give a non-negative total |
| LogRecords.TodayLogs | frontend/src/context/StreakContext.js:202-208 | keeps exactly the logs whose timestamp falls on today; logs without one are dropped |
| LogRecords.TodayUnitsBounded | frontend/src/context/StreakContext.js:198-213 | today's generation lies between 0 and the total of all logs, and equals the total when every log is from today |
| LogRecords.TodayUnitsAppend | frontend/src/pages/EnergyGenerated/EnergyGenerated.jsx:83-93 | today's logs and today's sum of a concatenation are those of the parts, joined |
| Streak.CatalogWellFormed | frontend/src/context/StreakContext.js:15-104 | badge days strictly increase along the catalog, badge ids are distinct, and every badge needs at least 5 days |
| Streak.CatalogAscending | frontend/src/context/StreakContext.js:15-104 | badge days strictly increase along the catalog |
| Streak.CatalogDistinctIds | frontend/src/context/StreakContext.js:15-104 | the eleven badge ids are pairwise distinct |
| Streak.StepKeepsLongest | frontend/src/context/StreakContext.js:249-282 | one evaluation never lowers the longest streak, keeps it at or above the current one, and after a qualifying day the longest is at least the current |
| Streak.StepIdempotent | frontend/src/context/StreakContext.js:249-282 | evaluating the same day twice with the same verdict equals evaluating it once |
| Streak.ReplayCountsRuns | frontend/src/context/StreakContext.js:246-282 | evaluating consecutive days once each from the fresh state gives as current streak the run of qualifying days at the end, as longest the longest such run, and as last active date the last qualifying day |
| Streak.NewBadges | frontend/src/context/StreakContext.js:308-329 | each new badge is a catalog badge the streak has reached, not earned before, stamped with today and the streak length |
| Streak.NewBadgesComplete | frontend/src/context/StreakContext.js:311-332 | after the check every catalog badge the streak has reached is among the earned badges |
| Streak.NewBadgesOrdered | frontend/src/context/StreakContext.js:311-329 | the new badges come out in strictly increasing number of days |
| Streak.EarnedStaysDistinct | frontend/src/context/StreakContext.js:311-333 | appending the new badges keeps the earned badge ids distinct |
| Streak.NewBadgesNoneLeft | frontend/src/context/StreakContext.js:312-316 | when every reached badge is already earned the check adds nothing |
| Streak.FirstUnearned | frontend/src/context/StreakContext.js:360-366 | the result is an unearned catalog badge, and there is none exactly when every badge is earned |
| Streak.FirstUnearnedIsLowest | frontend/src/context/StreakContext.js:360-366 | the chosen badge has the fewest days among the unearned ones, as sorting by days and taking the head does |
| Streak.PercentReachesFull | frontend/src/context/StreakContext.js:373 | the percentage reaches 100 exactly when the current streak reaches the badge's days |
| Streak.ProgressTowards | frontend/src/context/StreakContext.js:368-377 | progress lies in 0..100 and remaining is non-negative; with no badge left they are 100 and 0; otherwise remaining is 0 and progress 100 exactly when the badge is reached, and below the badge remaining is days minus current and progress is current / days · 100 |
| Streak.EvaluatePreserves | frontend/src/context/StreakContext.js:224-305 | an evaluation keeps longest >= current, unique badge ids and one record per date; badges and records only grow; a new record is today's, on a qualifying day only; the longest streak never drops |
| Streak.EvaluateIdempotent | frontend/src/context/StreakContext.js:224-305 | re-running the evaluation of the same day with the same logs changes nothing |
| Streak.StreakTracker.constructor | frontend/src/context/StreakContext.js:107-113 | a tracker starts with zero counters, no history and the invariant holding |
| Streak.StreakTracker.MarkAppOpened | frontend/src/context/StreakContext.js:183-195 | sets the opened flag and reports whether it was unset before |
| Streak.StreakTracker.CalculateTodayGeneration | frontend/src/context/StreakContext.js:198-221 | returns today's generation; keeps it as the state's value except for an empty list, which leaves the state alone |
| Streak.StreakTracker.CheckForNewBadges | frontend/src/context/StreakContext.js:308-339 | the loop returns exactly the new badges of the specification and appends them to the earned list |
| Streak.StreakTracker.UpdateStreak | frontend/src/context/StreakContext.js:224-305 | without an account nothing changes; otherwise the new state is `Evaluate` of the old state and the badges returned are the newly earned ones |
| Streak.StreakTracker.NextBadge | frontend/src/context/StreakContext.js:360-366 | the unearned badge with the fewest days, or none exactly when all are earned |
| Streak.StreakTracker.StreakProgress | frontend/src/context/StreakContext.js:369-377 | progress towards the lowest unearned badge: bounded, full with no badge left, remaining 0 and progress 100 exactly when the badge is reached, and below it remaining is days minus the current streak and progress is current / days · 100 |
| Streak.StreakTracker.ResetStreakData | frontend/src/context/StreakContext.js:380-388 | every field returns to the fresh state |
| Marketplace.CatalogDistinctIds | frontend/src/context/MarketplaceContext.js:16-146 | the eight product ids are pairwise distinct |
| Marketplace.CatalogCategoriesListed | frontend/src/context/MarketplaceContext.js:16-155 | every product's category is one of the listed categories other than "all" |
| Marketplace.CategoriesInhabited | frontend/src/context/MarketplaceContext.js:148-155 | every listed category other than "all" has a product |
| Marketplace.AddExisting | frontend/src/context/MarketplaceContext.js:314-323 | adding a product already in the cart raises that line's quantity and changes nothing else |
| Marketplace.AddNew | frontend/src/context/MarketplaceContext.js:324-327 | adding a new product appends one line with the quantity, after which the product is in the cart |
| Marketplace.AddKeepsWellFormed | frontend/src/context/MarketplaceContext.js:314-327 | adding a positive quantity keeps line ids unique and quantities positive |
| Marketplace.CartTotalAppend | frontend/src/context/MarketplaceContext.js:356-361 | the total of two concatenated carts is the sum of their totals |
| Marketplace.CartTotalUpdate | frontend/src/context/MarketplaceContext.js:356-361 | replacing one line changes the total by its price times the change in quantity |
| Marketplace.CartTotalNonNegative | frontend/src/context/MarketplaceContext.js:356-361 | a well-formed cart has a non-negative total, and the total is 0 exactly when every price is 0 |
| Marketplace.AddTotalExisting | frontend/src/context/MarketplaceContext.js:314-323 | adding to an existing line raises the total by its price times the added quantity |
| Marketplace.AddTotalNew | frontend/src/context/MarketplaceContext.js:324-327 | adding a new product raises the total by its price times the quantity |
| Marketplace.RemoveDeletesLine | frontend/src/context/MarketplaceContext.js:335-339 | removal deletes exactly the line with that id, keeping the others in order; an absent id changes nothing |
| Marketplace.RemoveLeavesNone | frontend/src/context/MarketplaceContext.js:336 | no line with the removed id is left, whatever the cart |
| Marketplace.RemoveKeepsWellFormed | frontend/src/context/MarketplaceContext.js:335-339 | removal keeps line ids unique and quantities positive |
| Marketplace.UpdateQuantitySetsLine | frontend/src/context/MarketplaceContext.js:342-353 | a non-positive quantity deletes the line; a positive one replaces that line's quantity and keeps every other line |
| Marketplace.UpdateKeepsWellFormed | frontend/src/context/MarketplaceContext.js:342-353 | setting a quantity keeps line ids unique and quantities positive |
| Marketplace.Redeem | frontend/src/context/MarketplaceContext.js:364-409 | "Insufficient token balance" exactly when the total exceeds the balance; "Cart is empty" exactly when it does not and the cart is empty; errors change nothing; success returns a confirmed order of the cart's lines and total, debits the balance (never below 0), empties the cart and puts the order first |
| Marketplace.RedeemConserves | frontend/src/context/MarketplaceContext.js:393-395 | balance plus tokens spent on all orders is the same before and after a redemption |
| Marketplace.ByCategoryIsFilter | frontend/src/context/MarketplaceContext.js:423-427 | the category stage keeps exactly the products of the selected category, or all for "all" |
| Marketplace.ByQueryIsFilter | frontend/src/context/MarketplaceContext.js:430-438 | the search stage keeps exactly the products whose lower-cased name, description or category contains the lower-cased query, or all for a blank query |
| Marketplace.FilteredProductsSelects | frontend/src/context/MarketplaceContext.js:419-441 | the filtered list is the catalog subsequence of products selected by both category and query: every kept product is selected and every selected product kept |
| Marketplace.NoFilterShowsCatalog | frontend/src/context/MarketplaceContext.js:419-441 | category "all" with a blank query shows the whole catalog |
| Marketplace.Ledger.constructor | frontend/src/context/MarketplaceContext.js:158-161 | balance, NFT count, cart and orders start empty |
| Marketplace.Ledger.GetCartTotal | frontend/src/context/MarketplaceContext.js:356-361 | an empty cart totals 0 and a well-formed cart never totals below 0 |
| Marketplace.Ledger.AddToCart | frontend/src/context/MarketplaceContext.js:314-332 | the cart becomes the added cart, and stays well formed for a positive quantity |
| Marketplace.Ledger.RemoveFromCart | frontend/src/context/MarketplaceContext.js:335-339 | the cart becomes the filtered cart, holds no line with the id and stays well formed |
| Marketplace.Ledger.UpdateCartQuantity | frontend/src/context/MarketplaceContext.js:342-353 | the cart becomes the updated cart and stays well formed |
| Marketplace.Ledger.RedeemCart | frontend/src/context/MarketplaceContext.js:364-416 | result and new state are those of `Redeem` on the old state |
| Marketplace.Ledger.Disconnect | frontend/src/context/MarketplaceContext.js:448-454 | balance, NFT count, cart and orders are reset |
| ProductCard.CardView | frontend/src/components/Marketplace/ProductCard.jsx:62-75 | the indicator shows exactly when the product is in the cart; otherwise the button is disabled exactly when the balance is below the price, captioned to match |
| ProductCard.CardClickEffect | frontend/src/components/Marketplace/ProductCard.jsx:26-30 | a click leaves the cart alone or appends one line of quantity 1, the latter exactly when affordable and not yet in the cart |
| ProductCard.EnabledButtonIsGuard | frontend/src/components/Marketplace/ProductCard.jsx:23-75 | the add button is shown enabled exactly when a click would change the cart |
| ProductCard.CardClickIdempotent | frontend/src/components/Marketplace/ProductCard.jsx:26-30 | a second click on the same card changes nothing |
| ProductCard.CardClickKeepsCart | frontend/src/components/Marketplace/ProductCard.jsx:26-30 | a click keeps the cart well formed and raises the total by the price exactly when it adds the product |
| ProductCard.HandleAddToCart | frontend/src/components/Marketplace/ProductCard.jsx:26-30 | the ledger's cart becomes the clicked cart; balance, orders and NFT count are untouched |
| ShoppingCart.CheckoutGuardMatchesRedeem | frontend/src/components/Marketplace/ShoppingCart.jsx:45-46 | an offered checkout always succeeds, and for a well-formed cart of priced products checkout is offered exactly when redemption succeeds |
| ShoppingCart.CheckoutButtonGuards | frontend/src/components/Marketplace/ShoppingCart.jsx:135-138 | the checkout button is disabled while an order is processing, and clicking an enabled button always redeems successfully |
| ShoppingCart.MinusKeepsLine | frontend/src/components/Marketplace/ShoppingCart.jsx:103-106 | an enabled minus lowers that line by one, keeps the line and keeps the cart well formed |
| ShoppingCart.MinusLowersTotal | frontend/src/components/Marketplace/ShoppingCart.jsx:103-106 | an enabled minus lowers the total by the line's price |
| ShoppingCart.PlusRaisesLine | frontend/src/components/Marketplace/ShoppingCart.jsx:112-113 | plus raises that line by one and the total by its price |
| ShoppingCart.MinusThenPlus | frontend/src/components/Marketplace/ShoppingCart.jsx:103-113 | plus after an enabled minus on the same line restores the cart |
| ShoppingCart.RemoveDeletesOnlyThatLine | frontend/src/components/Marketplace/ShoppingCart.jsx:120 | the trash button deletes that line and only that line |
| ShoppingCart.CartPanel.constructor | frontend/src/components/Marketplace/ShoppingCart.jsx:43 | the panel starts not processing |
| ShoppingCart.CartPanel.HandleCheckout | frontend/src/components/Marketplace/ShoppingCart.jsx:48-66 | the ledger changes as `Redeem` says, the panel closes only on success and the processing flag ends cleared |
| EnergyGenerated.Peak | frontend/src/pages/EnergyGenerated/EnergyGenerated.jsx:98-100 | the peak is at least every log's units and equals one of them |
| EnergyGenerated.DeviceSet | frontend/src/pages/EnergyGenerated/EnergyGenerated.jsx:97 | holds exactly the device ids occurring in the logs (a missing id counts once), between 1 and one per log |
| EnergyGenerated.CalculateMetrics | frontend/src/pages/EnergyGenerated/EnergyGenerated.jsx:64-111 | zeros for no logs; otherwise the total, today's sum, a mean that added once per log gives the total, the number of distinct devices, the largest log, and 0.6 kg CO2 per kWh |
| EnergyGenerated.TotalAtMostCountTimesPeak | frontend/src/pages/EnergyGenerated/EnergyGenerated.jsx:76-100 | the total is at most one peak per log |
| EnergyGenerated.MeanAtMostPeak | frontend/src/pages/EnergyGenerated/EnergyGenerated.jsx:96-100 | the average never exceeds the peak |
| EnergyGenerated.MetricsBounds | frontend/src/pages/EnergyGenerated/EnergyGenerated.jsx:64-111 | for non-negative logs today's sum lies within the total, 0 <= mean <= peak <= total, 1 <= devices <= logs and the CO2 figure is non-negative |
| EnergyGenerated.EfficiencyMonotone | frontend/src/pages/EnergyGenerated/EnergyGenerated.jsx:131-137 | the grade counts the thresholds 1, 3 and 5 kWh reached, so more units never give a lower grade |
| EnergyGenerated.Last | frontend/src/pages/EnergyGenerated/EnergyGenerated.jsx:116 | the last n characters, or the whole of a shorter string |
| EnergyGenerated.FormatDeviceIdShape | frontend/src/pages/EnergyGenerated/EnergyGenerated.jsx:114-117 | "Unknown Device" exactly for a missing or empty id; otherwise the panel prefix followed by the id's last four characters |
| EnergyGenerated.FetchKeepsSkip | frontend/src/pages/EnergyGenerated/EnergyGenerated.jsx:140-189 | the offset stays equal to the number of loaded logs; failures keep the list and count; a fresh load shows exactly the page and a load-more appends it |
| EnergyGenerated.CountOfPageClosesLoadMore | frontend/src/pages/EnergyGenerated/EnergyGenerated.jsx:173-196 | a response whose count is at most the page it sent leaves "Load more" closed |
| EnergyGenerated.EnergyPage.constructor | frontend/src/pages/EnergyGenerated/EnergyGenerated.jsx:52-58 | the page starts empty with the offset and count at 0 |
| EnergyGenerated.EnergyPage.FetchEnergyLogs | frontend/src/pages/EnergyGenerated/EnergyGenerated.jsx:140-189 | the new page state is `AfterFetch` of the old; on success the streak tracker evaluates today over all loaded logs, otherwise it is untouched |
| EnergyGenerated.EnergyPage.ApplyFetch | frontend/src/pages/EnergyGenerated/EnergyGenerated.jsx:140-187 | the page part of a fetch: the new page state is `AfterFetch` of the old (connect-wallet error without an account; logs replaced or appended, count, time and offset on a valid response; the invalid-response or request error otherwise; both loading flags cleared) |
| EnergyGenerated.EnergyPage.LoadMoreLogs | frontend/src/pages/EnergyGenerated/EnergyGenerated.jsx:192-196 | fetches exactly when "Load more" is allowed, from the current offset, and then the streak tracker evaluates today over all loaded logs when the fetch succeeds; otherwise neither the page nor the tracker changes |
| EnergyGenerated.EnergyPage.OnWalletChange | frontend/src/pages/EnergyGenerated/EnergyGenerated.jsx:199-209 | a connected wallet marks the app opened (`markAppOpened`) and loads the first page from offset 0, so on success the tracker evaluates today with the app counted as opened, and on failure only the opened flag is set; otherwise list, error and count are cleared and the tracker is untouched |
| Leaderboard.Slice | frontend/src/pages/Leaderboard/Leaderboard.jsx:57 | `slice` with clamped bounds: the characters between them that exist |
| Leaderboard.UsernameCases | frontend/src/pages/Leaderboard/Leaderboard.jsx:48-59 | the current-user name exactly for the connected wallet (case included), "Unknown User" exactly for an empty wallet, else the "solar_" prefix with at most six characters |
| Leaderboard.UsernameCollision | frontend/src/pages/Leaderboard/Leaderboard.jsx:57-58 | two other wallets agreeing on characters 2 to 7 get the same name |
| Leaderboard.ProcessLeaderboard | frontend/src/pages/Leaderboard/Leaderboard.jsx:109-114 | one row per entry, in server order, with the entry's wallet and units and rank i + 1 |
| Leaderboard.PointsFollowRanks | frontend/src/pages/Leaderboard/Leaderboard.jsx:113 | points are the floor of ten times the units, and on a decreasing list a better rank never has fewer points |
| Leaderboard.MedalsForTopThree | frontend/src/pages/Leaderboard/Leaderboard.jsx:248-254 | exactly the first three rows get medals, all different |
| Leaderboard.FindWallet | frontend/src/pages/Leaderboard/Leaderboard.jsx:148 | the first row whose wallet is the account, or -1 exactly when there is no account or no such row |
| Leaderboard.CurrentUserRankIsRowRank | frontend/src/pages/Leaderboard/Leaderboard.jsx:147-148 | the rank is 0 exactly when the account is absent from the list, and otherwise the rank stored in the account's first row |
| Leaderboard.CalculateStatsFromData | frontend/src/pages/Leaderboard/Leaderboard.jsx:62-87 | zeros for no rows; otherwise the row count, the units sum, a mean that added once per row gives the sum, and the first row's units |
| Leaderboard.SumAtMostTop | frontend/src/pages/Leaderboard/Leaderboard.jsx:73-79 | with every row at most the top, the sum is at most one top per row |
| Leaderboard.StatsTopIsMaximum | frontend/src/pages/Leaderboard/Leaderboard.jsx:78-79 | on the server's decreasing list the top figure is the maximum and the average never exceeds it |
| Leaderboard.LeaderboardView.constructor | frontend/src/pages/Leaderboard/Leaderboard.jsx:40-43 | the view starts empty and loading |
| Leaderboard.LeaderboardView.FetchLeaderboard | frontend/src/pages/Leaderboard/Leaderboard.jsx:90-130 | a received list replaces the rows and stamps the time; a missing list shows "Invalid response format from server"; a failure shows its message or "Failed to load leaderboard data"; loading ends cleared |
| Backend.CorsOrigins | backend/main.py:18 | every origin is non-empty, without a comma and without whitespace at either end |
| Backend.CorsOriginsRoundTrip | backend/main.py:18 | a setting written as the comma-join of clean origins reads back as exactly those origins |
| Backend.CorsOriginsUnset | backend/main.py:18 | an unset setting, read as "", gives no origins |
| Backend.ValidateEvent | backend/main.py:51-55 | an event is accepted exactly when its units are positive, and rejected with status 422 otherwise |
| Backend.TokenUnits | backend/main.py:129 | the minted amount is the floor of units times rate when that is at least 1, and 1 otherwise |
| Backend.TokenUnitsAtDefaultRate | backend/main.py:127-129 | at rate 1 the amount is the whole part of the units, 1 below one unit, and monotone in the units |
| Backend.NextIdAbove | backend/db.py:14 | the next id exceeds every stored id |
| Backend.LogEnergy | backend/main.py:116-125 | exactly one row is appended with the next id, the wallet exactly as sent, the event's fields and empty chain fields; ids stay ascending |
| Backend.LogEnergyResponseFor | backend/main.py:132-154 | both answers carry the new row's id; "ok" exactly when the chain call succeeded, carrying its transaction hash, the event's wallet and units, the receive time and the tokens minted (at least one); otherwise "partial" with the fixed message and the error |
| Backend.Window | backend/main.py:163 | a contiguous run of the input starting at the clamped offset, at most the limit when it is non-negative, everything from the offset when it is negative |
| Backend.MatchingRowsProperties | backend/main.py:163 | the matching rows are exactly the table's rows with that wallet, newest id first |
| Backend.WindowProperties | backend/main.py:163 | a window of the matching rows holds only rows of that wallet, newest first |
| Backend.GetEnergyLogsProperties | backend/main.py:157-176 | the query answers with the lower-cased wallet, count equal to the logs returned, at most the limit, newest first, each log a stored row of that wallet |
| Backend.MixedCaseNeverMatched | backend/main.py:162-163 | a row stored with an upper-case letter is never among the matching rows, and every log returned comes from a row with another wallet |
| Backend.GetEnergyLogsWindow | backend/main.py:163-175 | the logs returned are the window of all the wallet's logs |
| Backend.GetEnergyLogsWithTotal | backend/main.py:166 | the same logs, with count the number of all the wallet's logs |
| Backend.LoggedMixedCaseNeverListed | backend/main.py:116-163 | an event whose wallet holds an upper-case letter is stored, yet no query ever returns its row |
| Backend.LogEnergyNormalized | backend/main.py:116-125 | storing with the wallet lower-cased gives a lower-case stored wallet |
| Backend.NormalizedLogListedFirst | backend/main.py:116-163 | with the wallet stored lower-cased, the next query for it in any letter case lists the new row first |
| Backend.WeiToTokens | backend/main.py:210 | whole tokens t with t * 10^18 <= raw < (t + 1) * 10^18, non-negative for a non-negative amount |
| Backend.WeiToTokensRoundTrip | backend/main.py:210 | converting whole tokens back is exact, and the conversion is monotone |
| Backend.AmountResponse | backend/main.py:206-218 | the balance and supply answers carry the raw amount and the whole tokens t with t * 10^18 <= raw < (t + 1) * 10^18 |
| Paging.AsWrittenCountHidesLogs | backend/main.py:163-166 | with count equal to the logs returned, every successful fetch leaves "Load more" closed, and a wallet with more than 50 logs shows only 50 of them |
| Paging.FiftyOneLogsShowFifty | backend/main.py:166 | a wallet with 51 stored logs shows 50 and offers no way to reach the last |
| Paging.CorrectedCountOffersRemainingLogs | frontend/src/pages/EnergyGenerated/EnergyGenerated.jsx:165-196 | with the total count, each fetch leaves a longer prefix of the wallet's logs loaded (one more page, or all that remain) and "Load more" open exactly while logs remain |

## Left out

- Browser storage is not modelled: loading and saving the streak and marketplace data, the cached balance and the removal on reset. It is I/O, and the state it would restore reaches the model only as the classes' fields.
- The token balance fetch (`fetchTokenBalance`, `refreshTokenBalance`) and its 30-second refresh are not modelled, because they are network calls and timers. The balance is a field of `Ledger`.
- The 60-second leaderboard refresh, the 2-second redemption delay, alerts, badge notifications and console output are not modelled: they are timers and user-interface side effects.
- The wallet connection itself is not modelled. The connected account and the `isConnected` flag are parameters.
- React state updates are applied in order, as plain assignments. Stale closures and batching between renders are not modelled, nor the window in which loading flags are visible during a request.
- The order id built from the clock is the parameter `orderId`. The response time is the parameter `now`, and the server's receive time is the integer `receivedAt`.
- Dates are day numbers. The ISO parsing of device timestamps, including the error an unparseable timestamp raises, is left to the caller, which passes each log's day. In `Paging` this is the `toEntry` parameter.
- Number formatting (`toFixed`, `toLocaleString`) is not modelled. The metrics and statistics are the unrounded values.
- `parseFloat` and its `|| 0` fallbacks are not modelled: units arrive as numbers.
- Floating point is modelled as exact reals. This applies to the units, `units * MINT_PER_UNIT`, the averages and the CO2 factor 0.6.
- Lower-casing and whitespace are ASCII only. JavaScript and Python use Unicode rules; even on ASCII text Python's `strip()` also removes the separators \x1c-\x1f, which `Common.Strip` keeps.
- Reading `MINT_PER_UNIT` (main.py:19) is not modelled, including the startup error for non-numeric text: the parsed value is a parameter of `Backend.TokenUnits`, and `DEFAULT_MINT_PER_UNIT` is its default of 1.
- The balance answer also echoes the queried account, and both answers render the numbers as decimal strings; `Backend.AmountResponse` keeps the numbers.
- On-chain calls are not modelled: sending the mint transaction, checksum conversion of the wallet, balance and supply reads, and the mint, transfer and burn endpoints. They are foreign calls into web3. `Backend.LogEnergyResponseFor` takes the chain call's outcome as a parameter.
- The database session is not modelled. The table is a sequence of rows in insertion order, with ids ascending as the integer primary key gives them.
- The startup checks of the chain settings and the CORS middleware's use of the origin list are not modelled: they are configuration I/O.
- `Marketplace.Ledger.GetCartTotal` states bounds only. Its value is `CartTotal`, whose properties are the cart lemmas.

## Findings

| source | as written | input that shows it | evidently intended | confidence | as-written member | corrected member |
|---|---|---|---|---|---|---|
| backend/main.py:166 | `count` is the number of logs in the returned page (at most the limit of 50), and the generation page treats it as the wallet's total (EnergyGenerated.jsx:173, 193, 396) | one wallet with 51 stored logs: the first load shows 50 logs, count is 50, and "Load more" never appears | `count` is the number of all the wallet's logs, so that "Load more" stays open while logs remain | high, not executed | Paging.AsWrittenCountHidesLogs | Paging.CorrectedCountOffersRemainingLogs |
| backend/main.py:116-125 | the log endpoint stores the wallet exactly as sent, while the query lower-cases its wallet and compares exactly (main.py:162-163) | an event sent with wallet "0xAB" is stored, and no query, in any letter case, returns it | store the wallet lower-cased, so that the query finds every logged event | medium, not executed | Backend.LoggedMixedCaseNeverListed | Backend.NormalizedLogListedFirst |
