/** The buy-box diff engine and its scheduler (backend/services/buyboxTracker.js).
    One item is processed by a read-modify-write on its (user, ASIN) state,
    which may raise an ownership-change alert and may log an estimated sale
    with an alert of its own. Alerts are returned as the requests sent; what
    Discord answers is a parameter, and processing ignores it. */
module BuyBoxTracker {
  import opened Js
  import opened Store
  import opened FetchBuyBox
  import opened SendWebhook
  import opened AsinFetcher

  type StateTable = map<(string, string), BuyBoxState>

  /** `asinsPerSeller[currentSeller]` used as a condition: the holder's name
      is a label with a non-zero ASIN count (a null holder looks up "null"). */
  function IsGain(stats: AsinStats, holder: Option<string>): (r: bool)
    // an absent property reads as undefined, a count of 0 is falsy
    ensures r <==> NumTruthy(if PropertyName(holder) in stats.asinsPerSeller
                             then Some(stats.asinsPerSeller[PropertyName(holder)] as real) else None)
  {
    PropertyName(holder) in stats.asinsPerSeller && stats.asinsPerSeller[PropertyName(holder)] != 0
  }

  /** `Object.values(asinsPerSeller).some(count => count > 0)`: some seller
      has ASINs, whoever holds the buy box. */
  function IsTrackedSeller(stats: AsinStats): (r: bool)
    ensures r <==> exists c :: c in stats.asinsPerSeller.Values && c > 0
  {
    assert forall name :: name in stats.asinsPerSeller ==> stats.asinsPerSeller[name] in stats.asinsPerSeller.Values;
    exists name :: name in stats.asinsPerSeller && stats.asinsPerSeller[name] > 0
  }

  /** On what getAsinStats reports, the holder's name is a gain exactly when
      the last seller carrying it as a label has ASIN rows. */
  lemma GainIffLabelHasAsins(profiles: seq<SellerProfile>, rows: seq<AsinRow>, totalAsins: nat, totalSellers: nat,
                             holder: Option<string>)
    ensures IsGain(AsinStats(totalAsins, totalSellers, PerSeller(profiles, rows)), holder) <==>
            exists i :: LastOfLabel(profiles, i) && profiles[i].sellerLabel == PropertyName(holder) &&
                        |SellerRows(rows, profiles[i].sellerId)| > 0
  {
    var m, name := PerSeller(profiles, rows), PropertyName(holder);
    if name in m {
      PerSellerEntry(profiles, rows, name);
    }
    forall i | LastOfLabel(profiles, i) && profiles[i].sellerLabel == name
      ensures name in m && m[name] == |SellerRows(rows, profiles[i].sellerId)|
    {
      PerSellerLastWins(profiles, rows, i);
    }
  }

  /** On what getAsinStats reports, the stock is watched exactly when some
      seller (the last with its label) has ASIN rows, whoever holds the buy box. */
  lemma TrackedIffSomeSellerHasAsins(profiles: seq<SellerProfile>, rows: seq<AsinRow>, totalAsins: nat,
                                     totalSellers: nat)
    ensures IsTrackedSeller(AsinStats(totalAsins, totalSellers, PerSeller(profiles, rows))) <==>
            exists i :: LastOfLabel(profiles, i) && |SellerRows(rows, profiles[i].sellerId)| > 0
  {
    var m := PerSeller(profiles, rows);
    if exists name :: name in m && m[name] > 0 {
      var name :| name in m && m[name] > 0;
      PerSellerEntry(profiles, rows, name);
    }
    forall i | LastOfLabel(profiles, i)
      ensures profiles[i].sellerLabel in m && m[profiles[i].sellerLabel] == |SellerRows(rows, profiles[i].sellerId)|
    {
      PerSellerLastWins(profiles, rows, i);
    }
  }

  /** The stock fell from a known previous level to a known level that is not negative. */
  predicate SaleDue(stock: Option<Num>, previous: Option<Num>)
  {
    stock.Some? && previous.Some? && stock.value < previous.value && stock.value >= 0.0
  }

  /** The buy-box record fetched for an ASIN. */
  function InfoOf(p: Provider, asin: string): BuyBoxInfo
  {
    FetchBuyBoxInfo(asin, p.apiKey, p.buyBoxReply(asin)).result
  }

  /** The stock level fetched for a seller's offer on an ASIN. */
  function StockOf(p: Provider, asin: string, sellerId: string): Option<Num>
  {
    FetchStockLevel(asin, sellerId, p.apiKey, p.stockReply(asin)).result.stockLevel
  }

  /** getBuyBoxState when the read succeeds. */
  function PrevOf(states: StateTable, userId: string, asin: string): Option<BuyBoxState>
  {
    if (userId, asin) in states then Some(states[(userId, asin)]) else None
  }

  /** The previous stock level: the stored `stock_level`, if there is a stored row. */
  function PrevStock(prev: Option<BuyBoxState>): Option<Num>
  {
    if prev.Some? then prev.value.stockLevel else None
  }

  /** What processing one item leaves in the state table and the sales log,
      and the alerts it sent. */
  datatype ItemOutcome = ItemOutcome(states: StateTable, sales: seq<SaleLog>,
                                     changeAlert: Option<Post>, saleAlert: Option<Post>)

  /** The store reads and writes up to and including the state upsert go through. */
  predicate Recorded(faults: set<Call>, p: Provider, userId: string, asin: string)
  {
    !Truthy(InfoOf(p, asin).error) && GetStateCall(userId, asin) !in faults && UpdateStateCall(userId, asin) !in faults
  }

  /** There is a stored holder and it differs from the fetched one. */
  predicate Changed(prev: Option<BuyBoxState>, info: BuyBoxInfo)
  {
    prev.Some? && prev.value.currentSeller != info.currentSeller
  }

  /** The conditions under which processAsin logs a sale, read off the stored
      state, the ASIN statistics and the two fetches. */
  predicate SaleLogged(prev: Option<BuyBoxState>, stats: Result<AsinStats>, faults: set<Call>, p: Provider,
                       userId: string, asin: string)
  {
    var info := InfoOf(p, asin);
    Recorded(faults, p, userId, asin) && stats.Ok? &&
    Truthy(info.currentSeller) && Truthy(info.sellerId) && IsTrackedSeller(stats.value) &&
    SaleDue(StockOf(p, asin, info.sellerId.value), PrevStock(prev)) &&
    LogSaleCall(userId, asin) !in faults
  }

  /** The sale processAsin logs, if it logs one. */
  function SaleOf(prev: Option<BuyBoxState>, stats: Result<AsinStats>, faults: set<Call>, p: Provider,
                  userId: string, asin: string): (s: Option<SaleLog>)
    ensures s.Some? <==> SaleLogged(prev, stats, faults, p, userId, asin)
    ensures s.Some? ==>
              s.value.userId == userId && s.value.asin == asin &&
              Some(s.value.sellerId) == InfoOf(p, asin).sellerId &&
              Some(s.value.stockBefore) == PrevStock(prev) &&
              Some(s.value.stockAfter) == StockOf(p, asin, s.value.sellerId) &&
              s.value.unitsSold == s.value.stockBefore - s.value.stockAfter &&
              s.value.unitsSold > 0.0 && s.value.stockAfter >= 0.0
  {
    if SaleLogged(prev, stats, faults, p, userId, asin) then
      var info := InfoOf(p, asin);
      var before := PrevStock(prev).value;
      var after := StockOf(p, asin, info.sellerId.value).value;
      Some(SaleLog(userId, asin, info.sellerId.value, before, after, before - after))
    else None
  }

  /** The ownership-change alert for a stored holder that differs from the fetched one. */
  function ChangeAlertOf(prev: BuyBoxState, info: BuyBoxInfo, stats: AsinStats, asin: string, url: Option<string>,
                         answer: PostOutcome): Option<Post>
  {
    SendBuyBoxAlert(url, BuyBoxChange(asin, prev.currentSeller, info.currentSeller, info.price, Some(info.currency),
                                      IsGain(stats, info.currentSeller)), answer).request
  }

  /** The sales alert for a logged sale. */
  function SaleAlertOf(sale: SaleLog, sellerLabel: string, item: AsinRow, url: Option<string>,
                       answer: PostOutcome): Option<Post>
  {
    SendSalesAlert(url, SaleNotice(item.asin, sellerLabel, sale.stockBefore, sale.stockAfter, sale.unitsSold,
                                   item.title), answer).request
  }

  /** processAsin. Any thrown store error ends the item where it happened;
      effects already made are kept. The ASIN statistics are read once here:
      processing an item does not change the tables they are computed from. */
  function ProcessAsinSpec(states: StateTable, sales: seq<SaleLog>, stats: Result<AsinStats>, faults: set<Call>,
                           p: Provider, item: AsinRow, userId: string, url: Option<string>,
                           answer: PostOutcome): (o: ItemOutcome)
    // an error from the buy-box fetch (including "no winner") abandons the item
    ensures Truthy(InfoOf(p, item.asin).error) ==> o == ItemOutcome(states, sales, None, None)
    // the row is overwritten with the holder and the PRICE, or left alone
    ensures Recorded(faults, p, userId, item.asin) ==>
              o.states == states[(userId, item.asin) :=
                                 BuyBoxState(InfoOf(p, item.asin).currentSeller, InfoOf(p, item.asin).price)]
    ensures !Recorded(faults, p, userId, item.asin) ==> o.states == states
    // an ownership alert exactly when a stored holder differs and a URL is set
    ensures o.changeAlert.Some? <==>
              Recorded(faults, p, userId, item.asin) && Changed(PrevOf(states, userId, item.asin), InfoOf(p, item.asin)) &&
              stats.Ok? && Truthy(url)
    ensures o.changeAlert.Some? ==>
              var info := InfoOf(p, item.asin);
              o.changeAlert.value ==
              Post(url.value, CreateBuyBoxAlert(item.asin, PrevOf(states, userId, item.asin).value.currentSeller,
                                                info.currentSeller, info.price, Some(info.currency),
                                                IsGain(stats.value, info.currentSeller)))
    // a sale is appended exactly when due
    ensures SaleLogged(PrevOf(states, userId, item.asin), stats, faults, p, userId, item.asin) ==>
              o.sales == sales + [SaleOf(PrevOf(states, userId, item.asin), stats, faults, p, userId, item.asin).value]
    ensures !SaleLogged(PrevOf(states, userId, item.asin), stats, faults, p, userId, item.asin) ==> o.sales == sales
    // the sales alert repeats the logged values
    ensures o.saleAlert.Some? <==> SaleLogged(PrevOf(states, userId, item.asin), stats, faults, p, userId, item.asin) && Truthy(url)
    ensures o.saleAlert.Some? ==>
              var s := SaleOf(PrevOf(states, userId, item.asin), stats, faults, p, userId, item.asin).value;
              o.saleAlert.value ==
              Post(url.value, CreateSalesAlert(item.asin, InfoOf(p, item.asin).currentSeller.value,
                                               s.stockBefore, s.stockAfter, s.unitsSold, item.title))
  {
    var asin := item.asin;
    if !Recorded(faults, p, userId, asin) then ItemOutcome(states, sales, None, None)
    else
      var info := InfoOf(p, asin);
      var prev := PrevOf(states, userId, asin);
      var written := states[(userId, asin) := BuyBoxState(info.currentSeller, info.price)];
      var changed := Changed(prev, info);
      if changed && stats.Err? then ItemOutcome(written, sales, None, None)
      else
        var changeAlert := if changed then ChangeAlertOf(prev.value, info, stats.value, asin, url, answer) else None;
        match SaleOf(prev, stats, faults, p, userId, asin)
        case None => ItemOutcome(written, sales, changeAlert, None)
        case Some(sale) =>
          ItemOutcome(written, sales + [sale], changeAlert,
                      SaleAlertOf(sale, info.currentSeller.value, item, url, answer))
  }

  /** The first observation of an item only seeds its state: no alert and no sale. */
  lemma FirstObservationSeeds(states: StateTable, sales: seq<SaleLog>, stats: Result<AsinStats>, faults: set<Call>,
                              p: Provider, item: AsinRow, userId: string, url: Option<string>, answer: PostOutcome)
    requires (userId, item.asin) !in states
    ensures var o := ProcessAsinSpec(states, sales, stats, faults, p, item, userId, url, answer);
            o.changeAlert.None? && o.saleAlert.None? && o.sales == sales
  {
    assert PrevStock(PrevOf(states, userId, item.asin)).None?;
  }

  /** The ownership check of processAsin: the ASIN statistics are read only
      when the holder changed, and a failed read ends the item. */
  method ReportChange(db: Database, prev: Option<BuyBoxState>, info: BuyBoxInfo, asin: string, userId: string,
                      url: Option<string>, answer: PostOutcome)
    returns (failed: bool, changeAlert: Option<Post>)
    ensures var stats := StatsOf(db.asins, db.sellers, db.faults, userId);
            (failed <==> Changed(prev, info) && stats.Err?) &&
            changeAlert == (if Changed(prev, info) && stats.Ok?
                            then ChangeAlertOf(prev.value, info, stats.value, asin, url, answer) else None)
  {
    failed, changeAlert := false, None;
    if prev.Some? && prev.value.currentSeller != info.currentSeller {
      var stats := GetAsinStats(db, userId);
      if stats.Err? {
        return true, None;
      }
      var isGain := IsGain(stats.value, info.currentSeller);
      var change := BuyBoxChange(asin, prev.value.currentSeller, info.currentSeller, info.price,
                                 Some(info.currency), isGain);
      changeAlert := SendBuyBoxAlert(url, change, answer).request;
    }
  }

  /** The stock check of processAsin: for a holder with a name and an id,
      and some seller with ASINs, a fall in stock is logged and announced. */
  method WatchStock(db: Database, p: Provider, prev: Option<BuyBoxState>, item: AsinRow, userId: string,
                    url: Option<string>, answer: PostOutcome)
    returns (saleAlert: Option<Post>)
    requires Recorded(db.faults, p, userId, item.asin)
    modifies db`sales
    ensures var sale := SaleOf(prev, StatsOf(db.asins, db.sellers, db.faults, userId), db.faults, p, userId, item.asin);
            db.sales == old(db.sales) + (if sale.Some? then [sale.value] else []) &&
            saleAlert == (if sale.Some? then SaleAlertOf(sale.value, InfoOf(p, item.asin).currentSeller.value, item,
                                                         url, answer)
                          else None)
  {
    var asin := item.asin;
    var info := InfoOf(p, asin);
    ghost var sale := SaleOf(prev, StatsOf(db.asins, db.sellers, db.faults, userId), db.faults, p, userId, asin);
    saleAlert := None;
    if Truthy(info.currentSeller) && Truthy(info.sellerId) {
      var stats := GetAsinStats(db, userId);
      if stats.Err? {
        return;
      }
      if IsTrackedSeller(stats.value) {
        var stock := StockOf(p, asin, info.sellerId.value);
        var previous := if prev.Some? then prev.value.stockLevel else None;
        if stock.Some? && previous.Some? && stock.value < previous.value && stock.value >= 0.0 {
          var units := previous.value - stock.value;
          var logged := db.LogSale(userId, asin, info.sellerId.value, previous.value, stock.value, units);
          if !logged {
            return;
          }
          assert sale == Some(SaleLog(userId, asin, info.sellerId.value, previous.value, stock.value, units));
          var notice := SaleNotice(asin, info.currentSeller.value, previous.value, stock.value, units, item.title);
          saleAlert := SendSalesAlert(url, notice, answer).request;
        }
      }
    }
  }

  /** processAsin against the store. */
  method ProcessAsin(db: Database, p: Provider, item: AsinRow, userId: string, url: Option<string>,
                     answer: PostOutcome)
    returns (changeAlert: Option<Post>, saleAlert: Option<Post>)
    modifies db`states, db`sales
    ensures ItemOutcome(db.states, db.sales, changeAlert, saleAlert) ==
            ProcessAsinSpec(old(db.states), old(db.sales), StatsOf(db.asins, db.sellers, db.faults, userId),
                            db.faults, p, item, userId, url, answer)
  {
    var asin := item.asin;
    var info := FetchBuyBoxInfo(asin, p.apiKey, p.buyBoxReply(asin)).result;
    if Truthy(info.error) {
      return None, None;
    }
    var prevReply := db.GetBuyBoxState(userId, asin);
    if prevReply.Err? {
      return None, None;
    }
    var prev := prevReply.value;
    var written := db.UpdateBuyBoxState(userId, asin, info.currentSeller, info.price);
    if !written {
      return None, None;
    }
    var failed;
    failed, changeAlert := ReportChange(db, prev, info, asin, userId, url, answer);
    if failed {
      return changeAlert, None;
    }
    saleAlert := WatchStock(db, p, prev, item, userId, url, answer);
  }

  /** The alerts of one item, ownership change first. */
  function AlertsOf(o: ItemOutcome): seq<Post>
  {
    (if o.changeAlert.Some? then [o.changeAlert.value] else []) +
    (if o.saleAlert.Some? then [o.saleAlert.value] else [])
  }

  datatype Cycle = Cycle(states: StateTable, sales: seq<SaleLog>, alerts: seq<Post>)

  /** The item loop of processUserAsins once it has seen `items`. Each item
      sends at most two alerts (an ownership alert and a sales alert), and
      without a webhook URL none is sent. */
  function CycleSpec(states: StateTable, sales: seq<SaleLog>, stats: Result<AsinStats>, faults: set<Call>,
                     p: Provider, items: seq<AsinRow>, userId: string, url: Option<string>,
                     answer: PostOutcome): (r: Cycle)
    ensures |r.alerts| <= 2 * |items|
    ensures !Truthy(url) ==> r.alerts == []
  {
    if items == [] then Cycle(states, sales, [])
    else
      var before := CycleSpec(states, sales, stats, faults, p, items[..|items| - 1], userId, url, answer);
      var o := ProcessAsinSpec(before.states, before.sales, stats, faults, p, items[|items| - 1], userId, url, answer);
      Cycle(o.states, o.sales, before.alerts + AlertsOf(o))
  }

  /** What one run of processUserAsins does: the cycle, and the pauses it takes. */
  datatype UserRun = UserRun(cycle: Cycle, items: nat, pauses: nat)

  function ProcessUserSpec(users: map<string, User>, asins: AsinTable, sellers: map<string, seq<SellerProfile>>,
                           states: StateTable, sales: seq<SaleLog>, faults: set<Call>, p: Provider,
                           userId: string, answer: PostOutcome): (r: UserRun)
    // a missing user, a failed read or no ASINs: nothing is processed
    ensures GetUserCall(userId) in faults || userId !in users || GetAsinsCall(userId) in faults ||
            RowsOf(asins, userId) == [] ==>
              r == UserRun(Cycle(states, sales, []), 0, 0)
    // otherwise every item is visited once, with a pause between two items
    ensures !(GetUserCall(userId) in faults || userId !in users || GetAsinsCall(userId) in faults) ==>
              r.items == |RowsOf(asins, userId)| && r.pauses == (if r.items == 0 then 0 else r.items - 1)
  {
    if GetUserCall(userId) in faults || userId !in users || GetAsinsCall(userId) in faults then
      UserRun(Cycle(states, sales, []), 0, 0)
    else
      var rows := RowsOf(asins, userId);
      if rows == [] then UserRun(Cycle(states, sales, []), 0, 0)
      else
        var c := CycleSpec(states, sales, StatsOf(asins, sellers, faults, userId), faults, p, rows, userId,
                           users[userId].webhookUrl, answer);
        UserRun(c, |rows|, |rows| - 1)
  }

  /** processUserAsins */
  method ProcessUserAsins(db: Database, p: Provider, userId: string, answer: PostOutcome)
    returns (alerts: seq<Post>, items: nat, pauses: nat)
    modifies db`states, db`sales
    ensures UserRun(Cycle(db.states, db.sales, alerts), items, pauses) ==
            ProcessUserSpec(db.users, db.asins, db.sellers, old(db.states), old(db.sales), db.faults, p, userId,
                            answer)
  {
    var user := db.GetUser(userId);
    if user.Err? {
      return [], 0, 0;
    }
    var rowsReply := db.GetAsins(userId);
    if rowsReply.Err? {
      return [], 0, 0;
    }
    var rows := rowsReply.value;
    if |rows| == 0 {
      return [], 0, 0;
    }
    alerts, pauses := ProcessItems(db, p, rows, userId, user.value.webhookUrl, answer);
    items := |rows|;
  }

  /** The item loop of processUserAsins, with its pause between two items. */
  method ProcessItems(db: Database, p: Provider, rows: seq<AsinRow>, userId: string, url: Option<string>,
                      answer: PostOutcome) returns (alerts: seq<Post>, pauses: nat)
    modifies db`states, db`sales
    ensures Cycle(db.states, db.sales, alerts) ==
            CycleSpec(old(db.states), old(db.sales), StatsOf(db.asins, db.sellers, db.faults, userId), db.faults, p,
                      rows, userId, url, answer)
    ensures pauses == if rows == [] then 0 else |rows| - 1
  {
    ghost var stats := StatsOf(db.asins, db.sellers, db.faults, userId);
    alerts, pauses := [], 0;
    var i := 0;
    while i < |rows|
      invariant 0 <= i <= |rows|
      invariant pauses == (if i == 0 then 0 else if i < |rows| then i else i - 1)
      invariant stats == StatsOf(db.asins, db.sellers, db.faults, userId)
      invariant Cycle(db.states, db.sales, alerts) ==
                CycleSpec(old(db.states), old(db.sales), stats, db.faults, p, rows[..i], userId, url, answer)
    {
      var changeAlert, saleAlert := ProcessAsin(db, p, rows[i], userId, url, answer);
      alerts := alerts + AlertsOf(ItemOutcome(db.states, db.sales, changeAlert, saleAlert));
      if i < |rows| - 1 {
        pauses := pauses + 1;
      }
      CyclePrefix(old(db.states), old(db.sales), stats, db.faults, p, rows, userId, url, answer, i);
      i := i + 1;
    }
    assert rows[..i] == rows;
  }

  lemma CyclePrefix(states: StateTable, sales: seq<SaleLog>, stats: Result<AsinStats>, faults: set<Call>,
                    p: Provider, items: seq<AsinRow>, userId: string, url: Option<string>, answer: PostOutcome, i: nat)
    requires i < |items|
    ensures var before := CycleSpec(states, sales, stats, faults, p, items[..i], userId, url, answer);
            var o := ProcessAsinSpec(before.states, before.sales, stats, faults, p, items[i], userId, url, answer);
            CycleSpec(states, sales, stats, faults, p, items[..i + 1], userId, url, answer) ==
            Cycle(o.states, o.sales, before.alerts + AlertsOf(o))
  {
    assert items[..i + 1][..i] == items[..i];
  }

  /** triggerUserTracking: processUserAsins catches its own errors, so nothing is rethrown. */
  method TriggerUserTracking(db: Database, p: Provider, userId: string, answer: PostOutcome)
    returns (alerts: seq<Post>)
    modifies db`states, db`sales
    ensures Cycle(db.states, db.sales, alerts) ==
            ProcessUserSpec(db.users, db.asins, db.sellers, old(db.states), old(db.sales), db.faults, p, userId,
                            answer).cycle
  {
    var items, pauses;
    alerts, items, pauses := ProcessUserAsins(db, p, userId, answer);
  }

  // ---------------------------------------------------------------------
  // Properties of a cycle

  /** A sale a cycle over `items` may add: this user's, for one of the
      items' ASINs, and a real decrease to a stock that is not negative. */
  predicate NewSale(s: SaleLog, userId: string, items: seq<AsinRow>)
  {
    s.userId == userId && s.unitsSold > 0.0 && s.unitsSold == s.stockBefore - s.stockAfter &&
    s.stockAfter >= 0.0 && exists x :: x in items && x.asin == s.asin
  }

  /** The sales log only grows, by at most one sale per item, and each sale
      added is a NewSale. */
  lemma {:induction false} CycleSalesAppendOnly(states: StateTable, sales: seq<SaleLog>, stats: Result<AsinStats>,
                                                faults: set<Call>, p: Provider, items: seq<AsinRow>,
                                                userId: string, url: Option<string>, answer: PostOutcome)
    ensures var c := CycleSpec(states, sales, stats, faults, p, items, userId, url, answer);
            |sales| <= |c.sales| <= |sales| + |items| &&
            c.sales[..|sales|] == sales &&
            forall k :: |sales| <= k < |c.sales| ==> NewSale(c.sales[k], userId, items)
  {
    if items != [] {
      var init := items[..|items| - 1];
      var last := items[|items| - 1];
      CycleSalesAppendOnly(states, sales, stats, faults, p, init, userId, url, answer);
      var before := CycleSpec(states, sales, stats, faults, p, init, userId, url, answer);
      var o := ProcessAsinSpec(before.states, before.sales, stats, faults, p, last, userId, url, answer);
      var sale := SaleOf(PrevOf(before.states, userId, last.asin), stats, faults, p, userId, last.asin);
      assert o.sales == before.sales + (if sale.Some? then [sale.value] else []);
      forall k | |sales| <= k < |o.sales|
        ensures NewSale(o.sales[k], userId, items)
      {
        if k < |before.sales| {
          assert o.sales[k] == before.sales[k];
          assert NewSale(before.sales[k], userId, init);
          assert forall x :: x in init ==> x in items;
        } else {
          assert o.sales[k] == sale.value;
          assert last in items;
        }
      }
      assert o.sales[..|before.sales|] == before.sales;
      assert o.sales[..|sales|] == before.sales[..|sales|];
    }
  }

  /** Only the (user, ASIN) rows of the cycle's items can change. */
  lemma {:induction false} CycleStatesFrame(states: StateTable, sales: seq<SaleLog>, stats: Result<AsinStats>,
                                            faults: set<Call>, p: Provider, items: seq<AsinRow>,
                                            userId: string, url: Option<string>, answer: PostOutcome)
    ensures var c := CycleSpec(states, sales, stats, faults, p, items, userId, url, answer);
            states.Keys <= c.states.Keys &&
            forall k :: k in c.states && (k.0 != userId || forall x :: x in items ==> x.asin != k.1) ==>
              k in states && c.states[k] == states[k]
  {
    if items != [] {
      var init := items[..|items| - 1];
      CycleStatesFrame(states, sales, stats, faults, p, init, userId, url, answer);
      assert forall x :: x in init ==> x in items;
    }
  }

  /** With distinct ASINs and the state row of an ASIN readable and writable,
      that row ends up holding exactly what its own fetch reported. */
  lemma {:induction false} CycleRecordsEachItem(states: StateTable, sales: seq<SaleLog>, stats: Result<AsinStats>,
                                                faults: set<Call>, p: Provider, items: seq<AsinRow>,
                                                userId: string, url: Option<string>, answer: PostOutcome, j: nat)
    requires DistinctAsins(items)
    requires j < |items|
    requires Recorded(faults, p, userId, items[j].asin)
    ensures var c := CycleSpec(states, sales, stats, faults, p, items, userId, url, answer);
            var info := InfoOf(p, items[j].asin);
            (userId, items[j].asin) in c.states &&
            c.states[(userId, items[j].asin)] == BuyBoxState(info.currentSeller, info.price)
  {
    var init := items[..|items| - 1];
    var last := items[|items| - 1];
    if j < |items| - 1 {
      assert DistinctAsins(init);
      assert init[j] == items[j];
      CycleRecordsEachItem(states, sales, stats, faults, p, init, userId, url, answer, j);
      assert last.asin != items[j].asin;
    }
  }

  // ---------------------------------------------------------------------
  // Two observations of one item

  /** Seen twice with the same reply, an item raises no second ownership
      alert; and the stock the second pass compares against is the price the
      first pass stored. */
  lemma RepeatObservation(states: StateTable, sales: seq<SaleLog>, stats: Result<AsinStats>, faults: set<Call>,
                          p: Provider, item: AsinRow, userId: string, url: Option<string>, answer: PostOutcome)
    requires Recorded(faults, p, userId, item.asin)
    ensures var first := ProcessAsinSpec(states, sales, stats, faults, p, item, userId, url, answer);
            var second := ProcessAsinSpec(first.states, first.sales, stats, faults, p, item, userId, url, answer);
            second.changeAlert.None? &&
            second.states == first.states &&
            PrevStock(PrevOf(first.states, userId, item.asin)) == InfoOf(p, item.asin).price
  {
    var first := ProcessAsinSpec(states, sales, stats, faults, p, item, userId, url, answer);
    assert PrevOf(first.states, userId, item.asin) ==
           Some(BuyBoxState(InfoOf(p, item.asin).currentSeller, InfoOf(p, item.asin).price));
  }

  /** A holder change between two observations alerts on the second one
      whenever a URL is set and the ASIN statistics can be read. */
  lemma HolderChangeAlerts(states: StateTable, sales: seq<SaleLog>, stats: Result<AsinStats>, faults: set<Call>,
                           p: Provider, q: Provider, item: AsinRow, userId: string, url: Option<string>,
                           answer: PostOutcome)
    requires Recorded(faults, p, userId, item.asin) && Recorded(faults, q, userId, item.asin)
    requires InfoOf(p, item.asin).currentSeller != InfoOf(q, item.asin).currentSeller
    requires stats.Ok? && Truthy(url)
    ensures var first := ProcessAsinSpec(states, sales, stats, faults, p, item, userId, url, answer);
            var second := ProcessAsinSpec(first.states, first.sales, stats, faults, q, item, userId, url, answer);
            second.changeAlert.Some? &&
            second.changeAlert.value.payload.embeds[0].fields[0].value ==
              Text(OrElse(InfoOf(p, item.asin).currentSeller, NoHolder))
  {
    var first := ProcessAsinSpec(states, sales, stats, faults, p, item, userId, url, answer);
    assert PrevOf(first.states, userId, item.asin) ==
           Some(BuyBoxState(InfoOf(p, item.asin).currentSeller, InfoOf(p, item.asin).price));
  }

  // ---------------------------------------------------------------------
  // The scheduler

  datatype TrackingStatus = TrackingStatus(isRunning: bool, hasInterval: bool)

  /** processAllUsers: a placeholder that processes no user; the cycle it
      runs leaves the store as it was. */
  method ProcessAllUsers(db: Database)
    ensures db.states == old(db.states) && db.sales == old(db.sales)
  {
  }

  /** The module-level `isTracking` flag and `trackingInterval` handle.
      `jobs` counts the cron jobs started and not stopped; only the last
      one started is reachable through `trackingInterval`. */
  class Scheduler {
    var isTracking: bool
    var hasInterval: bool
    var jobs: nat

    /** The handle, when set, refers to a running job. */
    ghost predicate Valid()
      reads this
    {
      hasInterval ==> jobs >= 1
    }

    constructor ()
      ensures Valid()
      ensures !isTracking && !hasInterval && jobs == 0
    {
      isTracking, hasInterval, jobs := false, false, 0;
    }

    /** initializeTracking, as written: guarded by `isTracking` only, so a
        second call while idle schedules a second job over the handle. */
    method InitializeTracking()
      requires Valid()
      modifies this
      ensures Valid()
      ensures old(isTracking) ==> isTracking && hasInterval == old(hasInterval) && jobs == old(jobs)
      ensures !old(isTracking) ==> !isTracking && hasInterval && jobs == old(jobs) + 1
    {
      if isTracking {
        return;
      }
      jobs := jobs + 1;
      hasInterval := true;
    }

    /** initializeTracking guarded by the handle: a second call is a no-op,
        so at most one job runs and it is always reachable. */
    method InitializeTrackingOnce()
      requires Valid() && jobs == (if hasInterval then 1 else 0)
      modifies this
      ensures Valid() && jobs == (if hasInterval then 1 else 0)
      ensures hasInterval && isTracking == old(isTracking)
    {
      if hasInterval {
        return;
      }
      jobs := 1;
      hasInterval := true;
    }

    /** The first half of a tick: it runs a cycle only when none is running. */
    method BeginTick() returns (runs: bool)
      requires jobs >= 1
      modifies this`isTracking
      ensures runs == !old(isTracking)
      ensures isTracking
    {
      runs := !isTracking;
      if runs {
        isTracking := true;
      }
    }

    /** The second half of a tick that ran: the flag is cleared. */
    method EndTick()
      modifies this`isTracking
      ensures !isTracking
    {
      isTracking := false;
    }

    /** One whole tick with no stop in between: a tick that overlaps a
        running cycle is skipped, not queued, and the flag is back where it was. */
    method Tick(db: Database) returns (ran: bool)
      requires jobs >= 1
      modifies this`isTracking
      ensures ran == !old(isTracking)
      ensures isTracking == old(isTracking)
      ensures db.states == old(db.states) && db.sales == old(db.sales)
    {
      ran := BeginTick();
      if ran {
        ProcessAllUsers(db);
        EndTick();
      }
    }

    /** stopTracking: stops the job behind the handle, if any. */
    method StopTracking()
      requires Valid()
      modifies this
      ensures Valid()
      ensures old(hasInterval) ==> !hasInterval && !isTracking && jobs == old(jobs) - 1
      ensures !old(hasInterval) ==> isTracking == old(isTracking) && !hasInterval && jobs == old(jobs)
    {
      if hasInterval {
        jobs := jobs - 1;
        hasInterval := false;
        isTracking := false;
      }
    }

    /** getTrackingStatus */
    function GetTrackingStatus(): (s: TrackingStatus)
      reads this
      ensures s.isRunning <==> isTracking
      ensures s.hasInterval <==> hasInterval
    {
      TrackingStatus(isTracking, hasInterval)
    }
  }

  /** Starting twice and stopping once, as written, leaves one job running
      that no handle reaches, while the status reports no interval. */
  method DoubleStartLeavesOrphanJob() returns (orphans: nat, status: TrackingStatus)
    ensures orphans == 1 && !status.hasInterval && !status.isRunning
  {
    var s := new Scheduler();
    s.InitializeTracking();
    s.InitializeTracking();
    s.StopTracking();
    orphans, status := s.jobs, s.GetTrackingStatus();
  }

  /** With the handle as the guard, the same sequence leaves no job running. */
  method DoubleStartOnceStopsAll() returns (orphans: nat, status: TrackingStatus)
    ensures orphans == 0 && !status.hasInterval && !status.isRunning
  {
    var s := new Scheduler();
    s.InitializeTrackingOnce();
    s.InitializeTrackingOnce();
    s.StopTracking();
    orphans, status := s.jobs, s.GetTrackingStatus();
  }
}
