# buybox-bot-lite: the buy-box diff engine in Dafny

This project models the core of buybox-bot-lite, a bot that watches who holds
the Amazon buy box for a user's ASINs. On each pass it fetches the current
holder from the Rainforest API. It compares the holder with the state stored
for that (user, ASIN), stores the new state, and posts Discord alerts when
the holder changes. When the holder's stock falls, it logs an estimated sale
and posts a sales alert.

The model has six modules:

- `Js` (`js.dfy`): the JavaScript value conventions the code relies on. A
  missing value (null or undefined) is `None`. `Truthy`/`NumTruthy` model
  `if (x)`, and `OrElse` models `x || fallback`. Numbers are `real`.
- `FetchBuyBox` (`fetch_buybox.dfy`): `fetchBuyBoxInfo`, `fetchStockLevel`
  and `fetchSellerAsins` as pure maps from the provider's reply to a record.
  The HTTP reply is an input (`Reply`). The API key is an `Option`. The
  5-second rate-limit pause and the number of requests are reported as
  numbers.
- `SendWebhook` (`send_webhook.dfy`): the three embed builders and the
  delivery rule of `sendDiscordWebhook`, with Discord's answer as an input.
- `Store` (`store.dfy`): the database as `processAsin` and the ASIN
  bookkeeping use it. It is a class `Database` with one map per table, an
  append-only sales log, and a set `faults` of calls the backend rejects.
  The set is fixed for a run: a call is rejected every time it is made or
  never, so a repeated call always gets the same answer as the first.
- `AsinFetcher` (`asin_fetcher.dfy`): `getAsinStats`, `fetchAndStoreAsins`,
  `fetchAllUserAsins` and `refreshSellerAsins` as methods with loops. Each
  is proved against a specification function, and lemmas state what those
  functions promise.
- `BuyBoxTracker` (`buybox_tracker.dfy`): `processAsin` and
  `processUserAsins` as methods against the store, each proved equal to a
  specification function: `ProcessAsinSpec` for one item, and
  `ProcessUserSpec`, which runs the item loop `CycleSpec` after the user and
  ASIN reads. Also the
  scheduler's `isTracking` flag and interval handle as a class `Scheduler`.

In several places the code does other than its own names and comments
suggest. The model follows the code:

- The state row's column is called `stock_level`, but the update passes the
  buy-box price into it (`backend/services/buyboxTracker.js:42-47`). A later
  pass compares the fetched stock with that price (`RepeatObservation`).
- The comment at `backend/services/buyboxTracker.js:71` says the stock is
  monitored when the current holder is a tracked seller. The check at line 74
  asks only whether any of the user's sellers has ASINs, whoever holds the
  buy box (`IsTrackedSeller`).
- `isGain` looks the holder's display name up among the seller labels
  (`backend/services/buyboxTracker.js:55`), not the holder's seller id.
- The comment at `backend/services/buyboxTracker.js:53` speaks of gains and
  losses for tracked sellers, but an ownership alert is sent on every holder
  change when a webhook URL is set, including a change between two third
  parties.
- The state is written before the change is classified. A store error after
  the write therefore leaves the new state with no alert.

## Model

| member | source | states |
|---|---|---|
| Store.UpsertAsin | backend/db/supabaseClient.js:100-114 | the upserted row is present; rows with other ASINs stay; distinct ASINs stay distinct, and every row is then the new one or an old one with another ASIN |
| Store.WithoutAsin | backend/db/supabaseClient.js:129-137 | a row survives exactly when its ASIN differs from the deleted one; distinct ASINs stay distinct |
| Store.Database.GetUser | backend/db/supabaseClient.js:36-45 | succeeds exactly when the call is not rejected and the user exists (`.single()`), returning the stored user |
| Store.Database.GetSellers | backend/db/supabaseClient.js:77-85 | succeeds exactly when not rejected, returning the user's seller profiles |
| Store.Database.GetAsins | backend/db/supabaseClient.js:116-127 | succeeds exactly when not rejected, returning the user's ASIN rows |
| Store.Database.AddAsin | backend/db/supabaseClient.js:100-114 | on success returns the row and upserts it by ASIN; on error the table is unchanged; rows stay distinct by ASIN |
| Store.Database.DeleteAsin | backend/db/supabaseClient.js:129-137 | on success removes the user's rows with that ASIN, otherwise changes nothing |
| Store.Database.GetBuyBoxState | backend/db/supabaseClient.js:159-169 | "no rows" is an absent state, not an error; other rejections are errors |
| Store.Database.UpdateBuyBoxState | backend/db/supabaseClient.js:142-157 | on success the (user, ASIN) row becomes the given seller and stock level, otherwise nothing changes |
| Store.Database.LogSale | backend/db/supabaseClient.js:174-191 | on success appends exactly one sale row, otherwise nothing changes |
| FetchBuyBox.FetchBuyBoxInfo | backend/utils/fetchBuyBox.js:16-82 | no API key: no request and an error record; a winner gives holder = name or "Unknown", id or null, price or null (0 becomes null), currency or "GBP", no error; no winner gives "No BuyBox winner found"; a failure gives its message and one 5000 ms wait exactly on HTTP 429; every error record has a null holder |
| FetchBuyBox.FirstMatch | backend/utils/fetchBuyBox.js:113-116 | the index of the first offer whose merchant id or name equals the seller id; none when no offer matches |
| FetchBuyBox.FetchStockLevel | backend/utils/fetchBuyBox.js:91-156 | the first matching offer gives its stock level (0 or missing becomes null) and availability or "unknown"; no match gives null, "not_found" and "Seller offer not found"; no offers array or a failure gives null, "error" and the message, waiting 5000 ms once on 429 |
| FetchBuyBox.FetchSellerAsins | backend/utils/fetchBuyBox.js:165-208 | one listing per search result, in order, tagged with the seller id, currency defaulting to "GBP"; any failure gives the empty list |
| SendWebhook.CreateBuyBoxAlert | backend/utils/sendWebhook.js:46-81 | one embed; gain gives "✅ BuyBox GAINED" and 0x00ff00, loss gives "❌ BuyBox LOST" and 0xff0000; fields Previous Holder and New Holder (or "None"), plus Price (currency or "GBP", then price) exactly when the price is truthy; all inline |
| SendWebhook.CreateSalesAlert | backend/utils/sendWebhook.js:93-125 | one embed in colour 0xffa500 with exactly the Seller, Stock Change and Estimated Units Sold fields; the product line is added exactly when the title is truthy |
| SendWebhook.CreateSystemAlert | backend/utils/sendWebhook.js:134-159 | one embed; emoji and colour come from the type table, type defaulting to "info"; an unknown type renders "undefined" and no colour |
| SendWebhook.SendDiscordWebhook | backend/utils/sendWebhook.js:9-34 | no URL: no request and false; otherwise the payload is posted, and the result is true exactly on status 204 |
| SendWebhook.SendBuyBoxAlert | backend/utils/sendWebhook.js:167-171 | posts the buy-box embed for the change data exactly when a URL is set |
| SendWebhook.SendSalesAlert | backend/utils/sendWebhook.js:179-183 | posts the sales embed for the sale data exactly when a URL is set |
| SendWebhook.SendSystemAlert | backend/utils/sendWebhook.js:193-196 | posts the system embed exactly when a URL is set |
| AsinFetcher.SellerRows | backend/services/asinFetcher.js:122 | keeps exactly the rows of the given seller |
| AsinFetcher.OtherRows | backend/services/asinFetcher.js:121-126 | keeps exactly the rows of every other seller |
| AsinFetcher.PerSellerKeys | backend/services/asinFetcher.js:164-167 | the keys of `asinsPerSeller` are exactly the sellers' labels |
| AsinFetcher.PerSellerLastWins | backend/services/asinFetcher.js:164-167 | a label's count is the ASIN count of the last seller carrying that label |
| AsinFetcher.PerSellerEntry | backend/services/asinFetcher.js:164-167 | every entry of `asinsPerSeller` holds the ASIN count of the last seller carrying that label |
| AsinFetcher.GetAsinStats | backend/services/asinFetcher.js:152-175 | fails exactly when a read is rejected; totals are the numbers of rows and sellers; keys are the labels; each label maps to its last seller's ASIN count |
| AsinFetcher.Accepted | backend/services/asinFetcher.js:28-39 | the reference for the rows the loop pushes: at most one per listing, each the seller's and accepted by the store, and every accepted listing's row present |
| AsinFetcher.StoredRowsAreAccepted | backend/services/asinFetcher.js:27-40 | the returned rows are exactly `Accepted`: one row per listing the store accepted, in fetch order, skipping rejected listings without stopping; hence never more than the listings, each the seller's and accepted, and each accepted listing present |
| AsinFetcher.StoredRowsLand | backend/services/asinFetcher.js:27-40 | every stored ASIN is then held under the seller; rows with other ASINs and other users' rows are untouched |
| AsinFetcher.StoredRowsOrigin | backend/services/asinFetcher.js:27-40 | upserting keeps ASINs distinct, and every row held afterwards was held before or stored |
| AsinFetcher.FetchAndStoreAsins | backend/services/asinFetcher.js:12-49 | the table and the returned rows are those of the storing loop over the fetched listings; a rejected ASIN is skipped |
| AsinFetcher.FetchEach | backend/services/asinFetcher.js:68-88 | one result per seller, in seller order, each with its id, label and `asinCount` equal to the rows stored |
| AsinFetcher.FetchAllUserAsins | backend/services/asinFetcher.js:56-102 | a rejected seller read gives a zeroed summary with the error; no sellers gives {0, 0, []}; otherwise the per-seller results and `totalAsins` as their sum |
| AsinFetcher.FetchSellers | backend/services/asinFetcher.js:71-87 | the seller loop leaves the ASIN table and the result list exactly as storing each seller's listings in order would, with `totalAsins` the sum of the per-seller counts |
| AsinFetcher.FindSeller | backend/services/asinFetcher.js:114 | the first profile whose seller id matches; none when no profile matches |
| AsinFetcher.DeleteEachFails | backend/services/asinFetcher.js:124-126 | the delete loop stops early exactly when one of its deletes is rejected |
| AsinFetcher.DeleteTargets | backend/services/asinFetcher.js:124-126 | the delete loop leaves the table and the failure flag exactly as `DeleteEach`: the targets deleted one by one in order, stopping at the first rejected delete |
| AsinFetcher.DeleteSellerRows | backend/services/asinFetcher.js:121-126 | deleting the seller's ASINs one by one removes exactly that seller's rows and no other user's |
| AsinFetcher.SellerSplit | backend/services/asinFetcher.js:122 | a user's rows split into one seller's rows and everyone else's |
| AsinFetcher.RefreshOutcome | backend/services/asinFetcher.js:110-145 | completes exactly when the seller is the user's and no read or delete is rejected; an unknown seller throws "Seller … not found for user …" and deletes nothing |
| AsinFetcher.RefreshReplacesSeller | backend/services/asinFetcher.js:121-139 | afterwards the seller's rows are exactly the re-stored ones and the other sellers' rows stay, unless a re-stored ASIN replaced them; other users are untouched; `deletedCount` is the number of the seller's old rows and `newCount` the number re-stored |
| AsinFetcher.RefreshSellerAsins | backend/services/asinFetcher.js:110-145 | the table and the result or error are those of `RefreshSpec` |
| BuyBoxTracker.SaleOf | backend/services/buyboxTracker.js:72-101 | a sale exists exactly when it is due, attributed to the holder's seller id, with the previous stored level before, the fetched level after and units = before − after > 0 |
| BuyBoxTracker.IsGain | backend/services/buyboxTracker.js:55 | `asinsPerSeller[currentSeller]` as a condition: true exactly when the looked-up property is present and not 0 |
| BuyBoxTracker.GainIffLabelHasAsins | backend/services/buyboxTracker.js:54-55 | on what getAsinStats reports, a holder is a gain exactly when the last seller whose label equals the holder's name has ASIN rows |
| BuyBoxTracker.IsTrackedSeller | backend/services/buyboxTracker.js:74 | `Object.values(asinsPerSeller).some(count => count > 0)`: true exactly when some count is positive |
| BuyBoxTracker.TrackedIffSomeSellerHasAsins | backend/services/buyboxTracker.js:73-74 | on what getAsinStats reports, the stock is watched exactly when some seller (the last with its label) has ASIN rows; the holder plays no part |
| BuyBoxTracker.ProcessAsinSpec | backend/services/buyboxTracker.js:26-122 | a fetch error abandons the item; otherwise the row is overwritten with the holder and the price; an ownership alert is sent exactly when a stored holder differs, the stats read succeeds and a URL is set; a sale is appended exactly when due; a sales alert is sent exactly when a sale was logged and a URL is set, carrying the logged values |
| BuyBoxTracker.FirstObservationSeeds | backend/services/buyboxTracker.js:50-85 | the first observation of an item sends no alert and logs no sale |
| BuyBoxTracker.ReportChange | backend/services/buyboxTracker.js:50-69 | the statistics are read only on a holder change; a failed read ends the item; the alert built carries `isGain` |
| BuyBoxTracker.WatchStock | backend/services/buyboxTracker.js:71-117 | the sales log grows by the due sale, if any, and the sales alert repeats it |
| BuyBoxTracker.ProcessAsin | backend/services/buyboxTracker.js:26-122 | the new state, sales log and alerts are those of `ProcessAsinSpec` |
| BuyBoxTracker.CycleSpec | backend/services/buyboxTracker.js:148-155 | the item loop sends at most two alerts per item (an ownership alert and a sales alert), and none without a webhook URL |
| BuyBoxTracker.ProcessUserSpec | backend/services/buyboxTracker.js:128-162 | a missing user, a rejected read or no ASINs processes nothing; otherwise every item is visited, with one pause fewer than items |
| BuyBoxTracker.ProcessUserAsins | backend/services/buyboxTracker.js:128-162 | the store, alerts, item count and pauses are those of `ProcessUserSpec` |
| BuyBoxTracker.ProcessItems | backend/services/buyboxTracker.js:148-155 | the item loop leaves the states, the sales log and the alerts exactly as `CycleSpec`, and pauses once between each two items |
| BuyBoxTracker.TriggerUserTracking | backend/services/buyboxTracker.js:239-248 | runs `processUserAsins` for the user; it rethrows nothing because that function catches everything |
| BuyBoxTracker.CycleSalesAppendOnly | backend/services/buyboxTracker.js:148-155 | a cycle only appends to the sales log, at most one sale per item; each new sale is this user's, for one of the items, with positive units equal to before − after |
| BuyBoxTracker.CycleStatesFrame | backend/services/buyboxTracker.js:148-155 | a cycle changes only the state rows of its own (user, ASIN) pairs and removes none |
| BuyBoxTracker.CycleRecordsEachItem | backend/services/buyboxTracker.js:39-47 | with distinct ASINs, each item whose state could be written ends up holding its own fetched holder and price |
| BuyBoxTracker.RepeatObservation | backend/services/buyboxTracker.js:42-85 | a second pass with the same reply sends no ownership alert, and the "previous stock" it compares with is the stored price |
| BuyBoxTracker.HolderChangeAlerts | backend/services/buyboxTracker.js:50-68 | a holder change between two passes alerts on the second, naming the first holder as previous |
| BuyBoxTracker.ProcessAllUsers | backend/services/buyboxTracker.js:167-185 | the placeholder cycle leaves the store unchanged |
| BuyBoxTracker.Scheduler.constructor | backend/services/buyboxTracker.js:17-18 | the module starts with `isTracking` false, no interval handle and no job |
| BuyBoxTracker.Scheduler.InitializeTracking | backend/services/buyboxTracker.js:190-211 | a no-op exactly while `isTracking` is set; otherwise schedules one more job and sets the handle |
| BuyBoxTracker.Scheduler.BeginTick | backend/services/buyboxTracker.js:199-201 | a tick runs a cycle only when none is running, and sets the flag |
| BuyBoxTracker.Scheduler.EndTick | backend/services/buyboxTracker.js:203 | the flag is cleared when the cycle ends |
| BuyBoxTracker.Scheduler.Tick | backend/services/buyboxTracker.js:199-204 | an overlapping tick is skipped, not queued; the flag ends where it started |
| BuyBoxTracker.Scheduler.StopTracking | backend/services/buyboxTracker.js:216-223 | changes nothing without a handle; otherwise stops that job, clears the handle and the flag |
| BuyBoxTracker.Scheduler.GetTrackingStatus | backend/services/buyboxTracker.js:228-233 | `isRunning` is the flag and `hasInterval` whether a handle is set |
| BuyBoxTracker.DoubleStartLeavesOrphanJob | backend/services/buyboxTracker.js:190-223 | start, start, stop leaves one job running while the status reports no interval |
| BuyBoxTracker.Scheduler.InitializeTrackingOnce | backend/services/buyboxTracker.js:190-211 | guarded by the handle: at most one job, always reachable through the handle |
| BuyBoxTracker.DoubleStartOnceStopsAll | backend/services/buyboxTracker.js:190-223 | with that guard, start, start, stop leaves no job |

## Left out

- Timestamps (`new Date()`), `console` logging and the cron expression are not modelled. The cron timer is modelled as calls to `Tick`.
- `setTimeout` pauses are counted, not waited for: `pauses` in `ProcessUserAsins` and `waitedMs` in the fetchers.
- HTTP transport is not modelled. The Rainforest reply and Discord's answer are inputs, and the request parameters (domain, `include_offers`, search term, sort order) are not.
- The `limit` argument of `fetchSellerAsins` is not modelled: the reply is an input, so the limit has no effect in the model.
- JavaScript numbers are `real`, so NaN, the infinities and float rounding are not modelled. Embed texts that print numbers (`${currency} ${price}`, `${stockBefore} → ${stockAfter}`, `toString()`) are kept as structured field values.
- `Store.Database.AddAsin` assumes the `asins` upsert replaces the row with the same (user, ASIN). The conflict key lives in a database schema that is not part of this model.
- `Store.Database.GetAsins` does not model the inner join with `seller_profiles`, which would drop rows whose seller has no profile.
- The store's other operations (createUser, updateWebhook, addSeller, deleteSeller, getSalesLogs, getSalesCount) are not used by the core and are not modelled. The Express routes, the Firebase configuration and the server entry point are not part of this model.
- The message of a rejected store call is one constant (`StoreError`), not Supabase's text.
- `isLoss` (`backend/services/buyboxTracker.js:56`) is computed and never used, so it is not modelled.
- `processAllUsers` is a placeholder that processes no user, and it is modelled as such.
- Interleaving: `stopTracking` can run while a tick's cycle is awaiting. Ticks are modelled as a `BeginTick`/`EndTick` pair of sequential steps, so interleavings are reachable only as sequences of those calls.
- `BuyBoxTracker.ProcessAsinSpec` takes one statistics result for both reads of `getAsinStats` (`backend/services/buyboxTracker.js:54` and `:73`). A failure on one read and not on the other is not modelled: for instance, the ownership alert sent and the stock check then abandoned because the second read failed.
- `BuyBoxTracker.ProcessAsin` makes both reads, as the code does, but the store answers a repeated call the same way, because its set of rejected calls is fixed for the run. A call that fails once and succeeds when repeated, or the reverse, is not modelled. The same holds for the `getAsins` inside `getAsinStats` (`backend/services/asinFetcher.js:154`), which in the model cannot fail after the cycle's own `getAsins` (`backend/services/buyboxTracker.js:138`) succeeded.
- A search result's `asin`, `rating`, `ratings_total` and `image` are passed through without validation.

## Findings

| source | as written | input that shows it | evidently intended | confidence | as-written member | corrected member |
|---|---|---|---|---|---|---|
| backend/services/buyboxTracker.js:190-223 | `initializeTracking` is guarded by `isTracking`, which is only set while a tick's cycle runs. A second call while idle schedules a second cron job and overwrites the only handle to the first. | `initializeTracking(); initializeTracking(); stopTracking()`: one job keeps running, and `getTrackingStatus()` reports `hasInterval: false` | "already running" means a job is scheduled: guard on the interval handle, so at most one job exists and `stopTracking` stops it | medium, not executed | BuyBoxTracker.DoubleStartLeavesOrphanJob | BuyBoxTracker.Scheduler.InitializeTrackingOnce |
