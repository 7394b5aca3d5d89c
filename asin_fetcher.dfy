/** Per-user ASIN bookkeeping (backend/services/asinFetcher.js): counting a
    user's ASINs per tracked seller, fetching a seller's listings into the
    store, and refreshing one seller's listings. */
module AsinFetcher {
  import opened Js
  import opened Store
  import opened FetchBuyBox

  datatype AsinStats = AsinStats(totalAsins: nat, totalSellers: nat, asinsPerSeller: map<string, nat>)

  /** `rows.filter(a => a.seller_id === sellerId)` */
  function SellerRows(rows: seq<AsinRow>, sellerId: string): (r: seq<AsinRow>)
    ensures forall x :: x in r <==> x in rows && x.sellerId == sellerId
  {
    if rows == [] then []
    else (if rows[0].sellerId == sellerId then [rows[0]] else []) + SellerRows(rows[1..], sellerId)
  }

  /** The rows of every other seller, in order. */
  function OtherRows(rows: seq<AsinRow>, sellerId: string): (r: seq<AsinRow>)
    ensures forall x :: x in r <==> x in rows && x.sellerId != sellerId
  {
    if rows == [] then []
    else (if rows[0].sellerId != sellerId then [rows[0]] else []) + OtherRows(rows[1..], sellerId)
  }

  function Labels(sellers: seq<SellerProfile>): set<string>
  {
    set s | s in sellers :: s.sellerLabel
  }

  /** The asinsPerSeller dictionary once the loop has seen `sellers`: each
      seller's label is set to its ASIN count, a later label overwriting. */
  function PerSeller(sellers: seq<SellerProfile>, rows: seq<AsinRow>): map<string, nat>
  {
    if sellers == [] then map[]
    else
      var last := sellers[|sellers| - 1];
      PerSeller(sellers[..|sellers| - 1], rows)[last.sellerLabel := |SellerRows(rows, last.sellerId)|]
  }

  /** The dictionary's keys are exactly the sellers' labels. */
  lemma {:induction false} PerSellerKeys(sellers: seq<SellerProfile>, rows: seq<AsinRow>)
    ensures PerSeller(sellers, rows).Keys == Labels(sellers)
  {
    if sellers != [] {
      var init, last := sellers[..|sellers| - 1], sellers[|sellers| - 1];
      PerSellerKeys(init, rows);
      assert sellers == init + [last];
      assert Labels(sellers) == Labels(init) + {last.sellerLabel};
    }
  }

  /** A label's count is the number of ASINs of the last seller carrying it. */
  lemma {:induction false} PerSellerLastWins(sellers: seq<SellerProfile>, rows: seq<AsinRow>, i: nat)
    requires i < |sellers|
    requires forall j :: i < j < |sellers| ==> sellers[j].sellerLabel != sellers[i].sellerLabel
    ensures sellers[i].sellerLabel in PerSeller(sellers, rows)
    ensures PerSeller(sellers, rows)[sellers[i].sellerLabel] == |SellerRows(rows, sellers[i].sellerId)|
  {
    if i < |sellers| - 1 {
      var init := sellers[..|sellers| - 1];
      PerSellerLastWins(init, rows, i);
    }
  }

  /** No later seller carries the same label as seller i. */
  predicate LastOfLabel(sellers: seq<SellerProfile>, i: int)
  {
    0 <= i < |sellers| && forall j :: i < j < |sellers| ==> sellers[j].sellerLabel != sellers[i].sellerLabel
  }

  /** Every entry of the dictionary was set by the last seller carrying its label. */
  lemma {:induction false} PerSellerEntry(sellers: seq<SellerProfile>, rows: seq<AsinRow>, name: string)
    requires name in PerSeller(sellers, rows)
    ensures exists i :: LastOfLabel(sellers, i) && sellers[i].sellerLabel == name &&
                        PerSeller(sellers, rows)[name] == |SellerRows(rows, sellers[i].sellerId)|
  {
    var init, last := sellers[..|sellers| - 1], sellers[|sellers| - 1];
    if last.sellerLabel == name {
      assert LastOfLabel(sellers, |sellers| - 1);
    } else {
      PerSellerEntry(init, rows, name);
      var i :| LastOfLabel(init, i) && init[i].sellerLabel == name &&
               PerSeller(init, rows)[name] == |SellerRows(rows, init[i].sellerId)|;
      assert sellers[i] == init[i];
      assert LastOfLabel(sellers, i);
    }
  }

  /** What getAsinStats reports, or the error it rethrows. */
  function StatsOf(asins: AsinTable, sellers: map<string, seq<SellerProfile>>, faults: set<Call>,
                   userId: string): Result<AsinStats>
  {
    if GetAsinsCall(userId) in faults || GetSellersCall(userId) in faults then Err(StoreError)
    else
      var rows, profiles := RowsOf(asins, userId), SellersOf(sellers, userId);
      Ok(AsinStats(|rows|, |profiles|, PerSeller(profiles, rows)))
  }

  /** getAsinStats */
  method GetAsinStats(db: Database, userId: string) returns (r: Result<AsinStats>)
    ensures r == StatsOf(db.asins, db.sellers, db.faults, userId)
    ensures r.Ok? <==> GetAsinsCall(userId) !in db.faults && GetSellersCall(userId) !in db.faults
    ensures r.Ok? ==>
              var rows, profiles := RowsOf(db.asins, userId), SellersOf(db.sellers, userId);
              r.value.totalAsins == |rows| && r.value.totalSellers == |profiles| &&
              r.value.asinsPerSeller.Keys == Labels(profiles) &&
              forall i :: 0 <= i < |profiles| &&
                          (forall j :: i < j < |profiles| ==> profiles[j].sellerLabel != profiles[i].sellerLabel) ==>
                r.value.asinsPerSeller[profiles[i].sellerLabel] == |SellerRows(rows, profiles[i].sellerId)|
  {
    var asinsReply := db.GetAsins(userId);
    if asinsReply.Err? {
      return Err(StoreError);
    }
    var sellersReply := db.GetSellers(userId);
    if sellersReply.Err? {
      return Err(StoreError);
    }
    var rows, profiles := asinsReply.value, sellersReply.value;
    var perSeller: map<string, nat> := map[];
    var i := 0;
    while i < |profiles|
      invariant 0 <= i <= |profiles|
      invariant perSeller == PerSeller(profiles[..i], rows)
    {
      perSeller := perSeller[profiles[i].sellerLabel := |SellerRows(rows, profiles[i].sellerId)|];
      assert profiles[..i + 1][..i] == profiles[..i];
      i := i + 1;
    }
    assert profiles[..i] == profiles;
    PerSellerKeys(profiles, rows);
    forall k | 0 <= k < |profiles| && (forall j :: k < j < |profiles| ==> profiles[j].sellerLabel != profiles[k].sellerLabel)
      ensures perSeller[profiles[k].sellerLabel] == |SellerRows(rows, profiles[k].sellerId)|
    {
      PerSellerLastWins(profiles, rows, k);
    }
    r := Ok(AsinStats(|rows|, |profiles|, perSeller));
  }

  /** The listings the seller search yields for one seller. */
  function Listings(p: Provider, sellerId: string): seq<SellerAsin>
  {
    FetchSellerAsins(sellerId, p.apiKey, p.searchReply(sellerId)).result
  }

  datatype Stored = Stored(asins: AsinTable, rows: seq<AsinRow>)

  /** One turn of the storing loop: upsert the listing and keep its row,
      unless the store rejects it. */
  function StoreStep(before: Stored, faults: set<Call>, userId: string, sellerId: string, l: SellerAsin): Stored
  {
    if AddAsinCall(userId, l.asin) in faults then before
    else
      var row := AsinRow(sellerId, l.asin, l.title);
      Stored(AddAsinTo(before.asins, userId, row), before.rows + [row])
  }

  /** The storing loop of fetchAndStoreAsins once it has seen `listings`. */
  function StoreEach(asins: AsinTable, faults: set<Call>, userId: string, sellerId: string,
                     listings: seq<SellerAsin>): Stored
  {
    if listings == [] then Stored(asins, [])
    else
      StoreStep(StoreEach(asins, faults, userId, sellerId, listings[..|listings| - 1]), faults, userId, sellerId,
                listings[|listings| - 1])
  }

  lemma StoreEachPrefix(asins: AsinTable, faults: set<Call>, userId: string, sellerId: string,
                        listings: seq<SellerAsin>, i: nat)
    requires i < |listings|
    ensures StoreEach(asins, faults, userId, sellerId, listings[..i + 1]) ==
            StoreStep(StoreEach(asins, faults, userId, sellerId, listings[..i]), faults, userId, sellerId, listings[i])
  {
    assert listings[..i + 1][..i] == listings[..i];
  }

  /** The row of each listing the store accepts, in listing order: a filter
      followed by a map, independent of the table. */
  function Accepted(faults: set<Call>, userId: string, sellerId: string, listings: seq<SellerAsin>): (r: seq<AsinRow>)
    ensures |r| <= |listings|
    ensures forall x :: x in r ==> x.sellerId == sellerId && AddAsinCall(userId, x.asin) !in faults
    ensures forall l :: l in listings && AddAsinCall(userId, l.asin) !in faults ==> AsinRow(sellerId, l.asin, l.title) in r
  {
    if listings == [] then []
    else
      var l := listings[0];
      (if AddAsinCall(userId, l.asin) in faults then [] else [AsinRow(sellerId, l.asin, l.title)]) +
      Accepted(faults, userId, sellerId, listings[1..])
  }

  /** Accepting one more listing appends its row, if any, at the end. */
  lemma {:induction false} AcceptedAppend(faults: set<Call>, userId: string, sellerId: string,
                                          listings: seq<SellerAsin>, l: SellerAsin)
    ensures Accepted(faults, userId, sellerId, listings + [l]) ==
            Accepted(faults, userId, sellerId, listings) +
            (if AddAsinCall(userId, l.asin) in faults then [] else [AsinRow(sellerId, l.asin, l.title)])
  {
    if listings == [] {
      assert listings + [l] == [l];
      assert [l][1..] == [];
    } else {
      assert (listings + [l])[0] == listings[0];
      assert (listings + [l])[1..] == listings[1..] + [l];
      AcceptedAppend(faults, userId, sellerId, listings[1..], l);
    }
  }

  /** The rows the loop returns: exactly one per listing the store accepted, in fetch order. */
  lemma {:induction false} StoredRowsAreAccepted(asins: AsinTable, faults: set<Call>, userId: string, sellerId: string,
                                                 listings: seq<SellerAsin>)
    ensures var s := StoreEach(asins, faults, userId, sellerId, listings);
            s.rows == Accepted(faults, userId, sellerId, listings) &&
            |s.rows| <= |listings| &&
            (forall x :: x in s.rows ==> x.sellerId == sellerId && AddAsinCall(userId, x.asin) !in faults) &&
            (forall l :: l in listings && AddAsinCall(userId, l.asin) !in faults ==>
               AsinRow(sellerId, l.asin, l.title) in s.rows)
  {
    if listings != [] {
      var init := listings[..|listings| - 1];
      StoredRowsAreAccepted(asins, faults, userId, sellerId, init);
      assert listings == init + [listings[|listings| - 1]];
      AcceptedAppend(faults, userId, sellerId, init, listings[|listings| - 1]);
    }
  }

  function SellerAsins(rows: seq<AsinRow>, sellerId: string): set<string>
  {
    set x | x in rows && x.sellerId == sellerId :: x.asin
  }

  /** After the loop, every stored ASIN is in the user's rows under this
      seller; rows with other ASINs and other users' rows are untouched. */
  lemma {:induction false} StoredRowsLand(asins: AsinTable, faults: set<Call>, userId: string, sellerId: string,
                                          listings: seq<SellerAsin>)
    ensures var s := StoreEach(asins, faults, userId, sellerId, listings);
            (forall x :: x in s.rows ==> x.asin in SellerAsins(RowsOf(s.asins, userId), sellerId)) &&
            (forall x :: x in RowsOf(asins, userId) && (forall y :: y in s.rows ==> y.asin != x.asin) ==>
               x in RowsOf(s.asins, userId)) &&
            (forall v :: v != userId ==> RowsOf(s.asins, v) == RowsOf(asins, v))
  {
    if listings != [] {
      var init := listings[..|listings| - 1];
      StoredRowsLand(asins, faults, userId, sellerId, init);
      var before := StoreEach(asins, faults, userId, sellerId, init);
      var l := listings[|listings| - 1];
      if AddAsinCall(userId, l.asin) !in faults {
        var row := AsinRow(sellerId, l.asin, l.title);
        var after := UpsertAsin(RowsOf(before.asins, userId), row);
        assert RowsOf(AddAsinTo(before.asins, userId, row), userId) == after;
        forall x | x in before.rows + [row]
          ensures x.asin in SellerAsins(after, sellerId)
        {
          if x == row {
            assert row in after;
          } else {
            var k :| k in RowsOf(before.asins, userId) && k.sellerId == sellerId && k.asin == x.asin;
            if k.asin != row.asin {
              assert k in after;
            } else {
              assert row in after;
            }
          }
        }
      }
    }
  }

  /** fetchAndStoreAsins: the rows it stored, in fetch order. */
  method FetchAndStoreAsins(db: Database, p: Provider, userId: string, sellerId: string, sellerLabel: string)
    returns (stored: seq<AsinRow>)
    requires db.Valid()
    modifies db`asins
    ensures db.Valid()
    ensures Stored(db.asins, stored) == StoreEach(old(db.asins), db.faults, userId, sellerId, Listings(p, sellerId))
  {
    var listings := FetchSellerAsins(sellerId, p.apiKey, p.searchReply(sellerId)).result;
    if |listings| == 0 {
      return [];
    }
    stored := [];
    var i := 0;
    while i < |listings|
      invariant 0 <= i <= |listings|
      invariant db.Valid()
      invariant Stored(db.asins, stored) == StoreEach(old(db.asins), db.faults, userId, sellerId, listings[..i])
    {
      var added := db.AddAsin(userId, sellerId, listings[i].asin, listings[i].title);
      if added.Ok? {
        stored := stored + [added.value];
      }
      StoreEachPrefix(old(db.asins), db.faults, userId, sellerId, listings, i);
      i := i + 1;
    }
    assert listings[..i] == listings;
  }

  datatype SellerResult = SellerResult(sellerId: string, sellerLabel: string, asinCount: nat, asins: seq<AsinRow>)
  datatype FetchSummary = FetchSummary(totalSellers: nat, totalAsins: nat, sellers: seq<SellerResult>,
                                       error: Option<string>)

  datatype SellerRun = SellerRun(asins: AsinTable, results: seq<SellerResult>)

  /** The seller loop of fetchAllUserAsins once it has seen `sellers`. */
  function FetchEach(asins: AsinTable, faults: set<Call>, p: Provider, userId: string,
                     sellers: seq<SellerProfile>): (r: SellerRun)
    ensures |r.results| == |sellers|
    ensures forall i :: 0 <= i < |sellers| ==>
              r.results[i].sellerId == sellers[i].sellerId && r.results[i].sellerLabel == sellers[i].sellerLabel &&
              r.results[i].asinCount == |r.results[i].asins|
  {
    if sellers == [] then SellerRun(asins, [])
    else
      var before := FetchEach(asins, faults, p, userId, sellers[..|sellers| - 1]);
      var s := sellers[|sellers| - 1];
      var stored := StoreEach(before.asins, faults, userId, s.sellerId, Listings(p, s.sellerId));
      SellerRun(stored.asins, before.results + [SellerResult(s.sellerId, s.sellerLabel, |stored.rows|, stored.rows)])
  }

  lemma FetchEachPrefix(asins: AsinTable, faults: set<Call>, p: Provider, userId: string,
                        sellers: seq<SellerProfile>, i: nat)
    requires i < |sellers|
    ensures var before := FetchEach(asins, faults, p, userId, sellers[..i]);
            var stored := StoreEach(before.asins, faults, userId, sellers[i].sellerId, Listings(p, sellers[i].sellerId));
            FetchEach(asins, faults, p, userId, sellers[..i + 1]) ==
            SellerRun(stored.asins, before.results + [SellerResult(sellers[i].sellerId, sellers[i].sellerLabel,
                                                                    |stored.rows|, stored.rows)])
  {
    assert sellers[..i + 1][..i] == sellers[..i];
  }

  /** The running `totalAsins` counter. */
  function TotalAsins(results: seq<SellerResult>): nat
  {
    if results == [] then 0 else TotalAsins(results[..|results| - 1]) + results[|results| - 1].asinCount
  }

  /** fetchAllUserAsins */
  method FetchAllUserAsins(db: Database, p: Provider, userId: string) returns (summary: FetchSummary)
    requires db.Valid()
    modifies db`asins
    ensures db.Valid()
    ensures GetSellersCall(userId) in db.faults ==>
              summary == FetchSummary(0, 0, [], Some(StoreError)) && db.asins == old(db.asins)
    ensures GetSellersCall(userId) !in db.faults && SellersOf(db.sellers, userId) == [] ==>
              summary == FetchSummary(0, 0, [], None) && db.asins == old(db.asins)
    ensures GetSellersCall(userId) !in db.faults ==>
              var sellers := SellersOf(db.sellers, userId);
              var all := FetchEach(old(db.asins), db.faults, p, userId, sellers);
              db.asins == all.asins &&
              summary == FetchSummary(|sellers|, TotalAsins(all.results), all.results, None)
  {
    var sellersReply := db.GetSellers(userId);
    if sellersReply.Err? {
      return FetchSummary(0, 0, [], Some(StoreError));
    }
    var sellers := sellersReply.value;
    if |sellers| == 0 {
      return FetchSummary(0, 0, [], None);
    }
    var results, totalAsins := FetchSellers(db, p, userId, sellers);
    summary := FetchSummary(|sellers|, totalAsins, results, None);
  }

  /** The `for (const seller of sellers)` loop of fetchAllUserAsins. */
  method FetchSellers(db: Database, p: Provider, userId: string, sellers: seq<SellerProfile>)
    returns (results: seq<SellerResult>, totalAsins: nat)
    requires db.Valid()
    modifies db`asins
    ensures db.Valid()
    ensures SellerRun(db.asins, results) == FetchEach(old(db.asins), db.faults, p, userId, sellers)
    ensures totalAsins == TotalAsins(results)
  {
    results, totalAsins := [], 0;
    var i := 0;
    while i < |sellers|
      invariant 0 <= i <= |sellers|
      invariant db.Valid()
      invariant SellerRun(db.asins, results) == FetchEach(old(db.asins), db.faults, p, userId, sellers[..i])
      invariant totalAsins == TotalAsins(results)
    {
      var seller := sellers[i];
      ghost var before := results;
      var stored := FetchAndStoreAsins(db, p, userId, seller.sellerId, seller.sellerLabel);
      results := results + [SellerResult(seller.sellerId, seller.sellerLabel, |stored|, stored)];
      totalAsins := totalAsins + |stored|;
      FetchEachPrefix(old(db.asins), db.faults, p, userId, sellers, i);
      assert results[..|results| - 1] == before;
      i := i + 1;
    }
    assert sellers[..i] == sellers;
  }

  /** `sellers.find(s => s.seller_id === sellerId)`, as an index. */
  function FindSeller(sellers: seq<SellerProfile>, sellerId: string): (r: Option<nat>)
    ensures r.Some? ==> r.value < |sellers| && sellers[r.value].sellerId == sellerId
    ensures r.Some? ==> forall j :: 0 <= j < r.value ==> sellers[j].sellerId != sellerId
    ensures r.None? ==> forall j :: 0 <= j < |sellers| ==> sellers[j].sellerId != sellerId
  {
    if sellers == [] then None
    else if sellers[0].sellerId == sellerId then Some(0)
    else
      match FindSeller(sellers[1..], sellerId)
      case Some(i) => Some(i + 1)
      case None => None
  }

  /** The delete loop of refreshSellerAsins over the rows still to delete;
      the flag says that a delete was rejected, which ends the loop. */
  function DeleteEach(asins: AsinTable, faults: set<Call>, userId: string, targets: seq<AsinRow>): (AsinTable, bool)
    decreases |targets|
  {
    if targets == [] then (asins, false)
    else if DeleteAsinCall(userId, targets[0].asin) in faults then (asins, true)
    else DeleteEach(DeleteAsinFrom(asins, userId, targets[0].asin), faults, userId, targets[1..])
  }

  /** `rows.filter(a => !S.has(a.asin))` */
  function KeepUnless(rows: seq<AsinRow>, asins: set<string>): seq<AsinRow>
  {
    if rows == [] then []
    else (if rows[0].asin !in asins then [rows[0]] else []) + KeepUnless(rows[1..], asins)
  }

  lemma {:induction false} WithoutAsinKeeps(rows: seq<AsinRow>, asins: set<string>, asin: string)
    ensures WithoutAsin(KeepUnless(rows, asins), asin) == KeepUnless(rows, asins + {asin})
  {
    if rows != [] {
      WithoutAsinKeeps(rows[1..], asins, asin);
      var rest := KeepUnless(rows[1..], asins);
      if rows[0].asin in asins {
        assert KeepUnless(rows, asins) == rest;
      } else {
        assert KeepUnless(rows, asins) == [rows[0]] + rest;
        assert ([rows[0]] + rest)[1..] == rest;
        assert ([rows[0]] + rest)[0] == rows[0];
      }
    }
  }

  function AsinsOfRows(rows: seq<AsinRow>): set<string>
  {
    set x | x in rows :: x.asin
  }

  /** Deleting ASIN by ASIN, when no delete is rejected, keeps exactly the
      rows whose ASIN is not a target, and touches no other user. */
  lemma {:induction false} DeleteEachFilters(asins: AsinTable, faults: set<Call>, userId: string,
                                             targets: seq<AsinRow>, gone: set<string>)
    requires forall t :: t in targets ==> DeleteAsinCall(userId, t.asin) !in faults
    requires RowsOf(asins, userId) == KeepUnless(RowsOf(asins, userId), gone)
    ensures !DeleteEach(asins, faults, userId, targets).1
    ensures RowsOf(DeleteEach(asins, faults, userId, targets).0, userId) ==
            KeepUnless(RowsOf(asins, userId), gone + AsinsOfRows(targets))
    ensures forall v :: v != userId ==> RowsOf(DeleteEach(asins, faults, userId, targets).0, v) == RowsOf(asins, v)
    decreases |targets|
  {
    var rows := RowsOf(asins, userId);
    if targets == [] {
      assert gone + AsinsOfRows(targets) == gone;
    } else {
      var a := targets[0].asin;
      var next := DeleteAsinFrom(asins, userId, a);
      WithoutAsinKeeps(rows, gone, a);
      KeepUnlessTwice(rows, gone, gone + {a});
      assert RowsOf(next, userId) == KeepUnless(rows, gone + {a});
      KeepUnlessTwice(rows, gone + {a}, gone + {a});
      DeleteEachFilters(next, faults, userId, targets[1..], gone + {a});
      assert AsinsOfRows(targets) == {a} + AsinsOfRows(targets[1..]) by {
        assert targets == [targets[0]] + targets[1..];
      }
      KeepUnlessTwice(rows, gone + {a}, gone + {a} + AsinsOfRows(targets[1..]));
      assert gone + {a} + AsinsOfRows(targets[1..]) == gone + AsinsOfRows(targets);
    }
  }

  /** Filtering twice by growing sets is filtering once by the larger. */
  lemma {:induction false} KeepUnlessTwice(rows: seq<AsinRow>, small: set<string>, large: set<string>)
    requires small <= large
    ensures KeepUnless(KeepUnless(rows, small), large) == KeepUnless(rows, large)
  {
    if rows != [] {
      KeepUnlessTwice(rows[1..], small, large);
      var rest := KeepUnless(rows[1..], small);
      if rows[0].asin in small {
        assert KeepUnless(rows, small) == rest;
      } else {
        assert KeepUnless(rows, small) == [rows[0]] + rest;
        assert ([rows[0]] + rest)[1..] == rest;
        assert ([rows[0]] + rest)[0] == rows[0];
      }
    }
  }

  /** When the targeted ASINs are exactly the seller's, filtering by ASIN is filtering by seller. */
  lemma {:induction false} KeepUnlessIsOtherRows(rows: seq<AsinRow>, asins: set<string>, sellerId: string)
    requires forall x :: x in rows ==> (x.asin in asins <==> x.sellerId == sellerId)
    ensures KeepUnless(rows, asins) == OtherRows(rows, sellerId)
  {
    if rows != [] {
      assert forall x :: x in rows[1..] ==> x in rows;
      KeepUnlessIsOtherRows(rows[1..], asins, sellerId);
    }
  }

  /** Within distinct-ASIN rows, a row's ASIN belongs to the seller's ASINs exactly when the row is the seller's. */
  lemma SellerAsinsOfDistinct(rows: seq<AsinRow>, sellerId: string)
    requires DistinctAsins(rows)
    ensures forall x :: x in rows ==> (x.asin in AsinsOfRows(SellerRows(rows, sellerId)) <==> x.sellerId == sellerId)
  {
    forall x | x in rows && x.asin in AsinsOfRows(SellerRows(rows, sellerId))
      ensures x.sellerId == sellerId
    {
      var y :| y in SellerRows(rows, sellerId) && y.asin == x.asin;
      var i :| 0 <= i < |rows| && rows[i] == x;
      var j :| 0 <= j < |rows| && rows[j] == y;
      assert i == j;
    }
  }

  /** Deleting the seller's ASINs one by one, on distinct-ASIN rows and with
      no delete rejected, removes exactly the seller's rows. */
  lemma DeleteSellerRows(asins: AsinTable, faults: set<Call>, userId: string, sellerId: string)
    requires DistinctAsins(RowsOf(asins, userId))
    requires forall t :: t in SellerRows(RowsOf(asins, userId), sellerId) ==> DeleteAsinCall(userId, t.asin) !in faults
    ensures var (after, failed) := DeleteEach(asins, faults, userId, SellerRows(RowsOf(asins, userId), sellerId));
            !failed &&
            RowsOf(after, userId) == OtherRows(RowsOf(asins, userId), sellerId) &&
            forall v :: v != userId ==> RowsOf(after, v) == RowsOf(asins, v)
  {
    var rows := RowsOf(asins, userId);
    var targets := SellerRows(rows, sellerId);
    KeepUnlessNone(rows);
    DeleteEachFilters(asins, faults, userId, targets, {});
    assert {} + AsinsOfRows(targets) == AsinsOfRows(targets);
    SellerAsinsOfDistinct(rows, sellerId);
    KeepUnlessIsOtherRows(rows, AsinsOfRows(targets), sellerId);
  }

  /** Filtering keeps rows distinct by ASIN. */
  lemma {:induction false} KeepUnlessDistinct(rows: seq<AsinRow>, asins: set<string>)
    requires DistinctAsins(rows)
    ensures DistinctAsins(KeepUnless(rows, asins))
    ensures forall x :: x in KeepUnless(rows, asins) ==> x in rows
  {
    if rows != [] {
      KeepUnlessDistinct(rows[1..], asins);
      var rest := KeepUnless(rows[1..], asins);
      assert forall x :: x in rows[1..] ==> x.asin != rows[0].asin;
      if rows[0].asin !in asins {
        assert KeepUnless(rows, asins) == [rows[0]] + rest;
      }
    }
  }

  lemma {:induction false} KeepUnlessNone(rows: seq<AsinRow>)
    ensures KeepUnless(rows, {}) == rows
  {
    if rows != [] {
      KeepUnlessNone(rows[1..]);
    }
  }

  /** A user's rows split into one seller's and everyone else's. */
  lemma {:induction false} SellerSplit(rows: seq<AsinRow>, sellerId: string)
    ensures |SellerRows(rows, sellerId)| + |OtherRows(rows, sellerId)| == |rows|
  {
    if rows != [] {
      SellerSplit(rows[1..], sellerId);
    }
  }

  datatype RefreshResult = RefreshResult(sellerId: string, sellerLabel: string, deletedCount: nat, newCount: nat,
                                         asins: seq<AsinRow>)

  function NotFoundMessage(userId: string, sellerId: string): string
  {
    "Seller " + sellerId + " not found for user " + userId
  }

  /** What refreshSellerAsins leaves in the ASIN table and what it returns or throws. */
  function RefreshSpec(asins: AsinTable, sellers: map<string, seq<SellerProfile>>, faults: set<Call>, p: Provider,
                       userId: string, sellerId: string): (AsinTable, Result<RefreshResult>)
  {
    if GetSellersCall(userId) in faults then (asins, Err(StoreError))
    else
      var profiles := SellersOf(sellers, userId);
      match FindSeller(profiles, sellerId)
      case None => (asins, Err(NotFoundMessage(userId, sellerId)))
      case Some(k) =>
        if GetAsinsCall(userId) in faults then (asins, Err(StoreError))
        else
          var targets := SellerRows(RowsOf(asins, userId), sellerId);
          var deleted := DeleteEach(asins, faults, userId, targets);
          if deleted.1 then (deleted.0, Err(StoreError))
          else
            var s := StoreEach(deleted.0, faults, userId, sellerId, Listings(p, sellerId));
            (s.asins, Ok(RefreshResult(sellerId, profiles[k].sellerLabel, |targets|, |s.rows|, s.rows)))
  }

  /** RefreshSpec on the path where every delete went through. */
  lemma RefreshSpecStored(asins: AsinTable, sellers: map<string, seq<SellerProfile>>, faults: set<Call>, p: Provider,
                          userId: string, sellerId: string, k: nat)
    requires GetSellersCall(userId) !in faults && GetAsinsCall(userId) !in faults
    requires FindSeller(SellersOf(sellers, userId), sellerId) == Some(k)
    requires !DeleteEach(asins, faults, userId, SellerRows(RowsOf(asins, userId), sellerId)).1
    ensures var deleted := DeleteEach(asins, faults, userId, SellerRows(RowsOf(asins, userId), sellerId));
            var s := StoreEach(deleted.0, faults, userId, sellerId, Listings(p, sellerId));
            RefreshSpec(asins, sellers, faults, p, userId, sellerId) ==
            (s.asins, Ok(RefreshResult(sellerId, SellersOf(sellers, userId)[k].sellerLabel,
                                       |SellerRows(RowsOf(asins, userId), sellerId)|, |s.rows|, s.rows)))
  {
  }

  /** The delete loop stops early exactly when one of its deletes is rejected. */
  lemma {:induction false} DeleteEachFails(asins: AsinTable, faults: set<Call>, userId: string, targets: seq<AsinRow>)
    ensures DeleteEach(asins, faults, userId, targets).1 <==>
            exists t :: t in targets && DeleteAsinCall(userId, t.asin) in faults
    decreases |targets|
  {
    if targets != [] && DeleteAsinCall(userId, targets[0].asin) !in faults {
      DeleteEachFails(DeleteAsinFrom(asins, userId, targets[0].asin), faults, userId, targets[1..]);
      assert forall t :: t in targets <==> t == targets[0] || t in targets[1..];
    }
  }

  /** Upserting keeps a user's rows distinct by ASIN, and every row then
      held was either held before or stored by the loop. */
  lemma {:induction false} StoredRowsOrigin(asins: AsinTable, faults: set<Call>, userId: string, sellerId: string,
                                            listings: seq<SellerAsin>)
    requires DistinctAsins(RowsOf(asins, userId))
    ensures var s := StoreEach(asins, faults, userId, sellerId, listings);
            DistinctAsins(RowsOf(s.asins, userId)) &&
            forall x :: x in RowsOf(s.asins, userId) ==> x in RowsOf(asins, userId) || x in s.rows
  {
    if listings != [] {
      var init := listings[..|listings| - 1];
      StoredRowsOrigin(asins, faults, userId, sellerId, init);
      var before := StoreEach(asins, faults, userId, sellerId, init);
      var l := listings[|listings| - 1];
      if AddAsinCall(userId, l.asin) !in faults {
        var row := AsinRow(sellerId, l.asin, l.title);
        assert RowsOf(AddAsinTo(before.asins, userId, row), userId) == UpsertAsin(RowsOf(before.asins, userId), row);
      }
    }
  }

  /** refreshSellerAsins completes exactly when the seller is the user's and
      no read or delete is rejected; when it fails, the stores that ran are kept. */
  lemma RefreshOutcome(asins: AsinTable, sellers: map<string, seq<SellerProfile>>, faults: set<Call>, p: Provider,
                       userId: string, sellerId: string)
    ensures var r := RefreshSpec(asins, sellers, faults, p, userId, sellerId);
            var targets := SellerRows(RowsOf(asins, userId), sellerId);
            r.1.Ok? <==>
              GetSellersCall(userId) !in faults && GetAsinsCall(userId) !in faults &&
              (exists s :: s in SellersOf(sellers, userId) && s.sellerId == sellerId) &&
              forall t :: t in targets ==> DeleteAsinCall(userId, t.asin) !in faults
    ensures var r := RefreshSpec(asins, sellers, faults, p, userId, sellerId);
            GetSellersCall(userId) !in faults &&
            (forall s :: s in SellersOf(sellers, userId) ==> s.sellerId != sellerId) ==>
              r == (asins, Err(NotFoundMessage(userId, sellerId)))
  {
    var profiles := SellersOf(sellers, userId);
    var found := FindSeller(profiles, sellerId);
    if found.Some? {
      assert profiles[found.value] in profiles;
    }
    DeleteEachFails(asins, faults, userId, SellerRows(RowsOf(asins, userId), sellerId));
  }

  /** After a successful refresh, the seller's rows are exactly the ones
      re-stored, every re-stored ASIN is held under the seller, other
      sellers' rows stay unless a re-stored ASIN took their place, other
      users are untouched, and the counts are the rows deleted and stored. */
  lemma RefreshReplacesSeller(asins: AsinTable, sellers: map<string, seq<SellerProfile>>, faults: set<Call>,
                              p: Provider, userId: string, sellerId: string)
    requires DistinctAsins(RowsOf(asins, userId))
    requires RefreshSpec(asins, sellers, faults, p, userId, sellerId).1.Ok?
    ensures var (after, r) := RefreshSpec(asins, sellers, faults, p, userId, sellerId);
            var rows := RowsOf(after, userId);
            r.value.sellerId == sellerId &&
            r.value.deletedCount == |SellerRows(RowsOf(asins, userId), sellerId)| &&
            r.value.newCount == |r.value.asins| <= |Listings(p, sellerId)| &&
            (forall x :: x in rows && x.sellerId == sellerId ==> x in r.value.asins) &&
            (forall x :: x in r.value.asins ==> x.asin in SellerAsins(rows, sellerId)) &&
            (forall x ::
               x in RowsOf(asins, userId) && x.sellerId != sellerId && x.asin !in AsinsOfRows(r.value.asins) ==>
               x in rows) &&
            (forall v :: v != userId ==> RowsOf(after, v) == RowsOf(asins, v))
  {
    var targets := SellerRows(RowsOf(asins, userId), sellerId);
    RefreshOutcome(asins, sellers, faults, p, userId, sellerId);
    DeleteSellerRows(asins, faults, userId, sellerId);
    var deleted := DeleteEach(asins, faults, userId, targets);
    var others := OtherRows(RowsOf(asins, userId), sellerId);
    assert RowsOf(deleted.0, userId) == others;
    assert DistinctAsins(others) by {
      KeepUnlessNone(RowsOf(asins, userId));
      DeleteEachFilters(asins, faults, userId, targets, {});
      KeepUnlessDistinct(RowsOf(asins, userId), {} + AsinsOfRows(targets));
    }
    var listings := Listings(p, sellerId);
    StoredRowsAreAccepted(deleted.0, faults, userId, sellerId, listings);
    StoredRowsLand(deleted.0, faults, userId, sellerId, listings);
    StoredRowsOrigin(deleted.0, faults, userId, sellerId, listings);
  }

  /** The delete loop of refreshSellerAsins: one delete per target row, stopping at the first rejected one. */
  method DeleteTargets(db: Database, userId: string, targets: seq<AsinRow>) returns (failed: bool)
    requires db.Valid()
    modifies db`asins
    ensures db.Valid()
    ensures (db.asins, failed) == DeleteEach(old(db.asins), db.faults, userId, targets)
  {
    var i := 0;
    while i < |targets|
      invariant 0 <= i <= |targets|
      invariant db.Valid()
      invariant DeleteEach(old(db.asins), db.faults, userId, targets) ==
                DeleteEach(db.asins, db.faults, userId, targets[i..])
    {
      var ok := db.DeleteAsin(userId, targets[i].asin);
      if !ok {
        return true;
      }
      assert targets[i..][1..] == targets[i + 1..];
      i := i + 1;
    }
    return false;
  }

  /** refreshSellerAsins */
  method RefreshSellerAsins(db: Database, p: Provider, userId: string, sellerId: string)
    returns (r: Result<RefreshResult>)
    requires db.Valid()
    modifies db`asins
    ensures db.Valid()
    ensures (db.asins, r) == RefreshSpec(old(db.asins), db.sellers, db.faults, p, userId, sellerId)
  {
    var sellersReply := db.GetSellers(userId);
    if sellersReply.Err? {
      return Err(StoreError);
    }
    var found := FindSeller(sellersReply.value, sellerId);
    if found.None? {
      return Err(NotFoundMessage(userId, sellerId));
    }
    var seller := sellersReply.value[found.value];
    var existing := db.GetAsins(userId);
    if existing.Err? {
      return Err(StoreError);
    }
    var targets := SellerRows(existing.value, sellerId);
    var failed := DeleteTargets(db, userId, targets);
    if failed {
      return Err(StoreError);
    }
    RefreshSpecStored(old(db.asins), db.sellers, db.faults, p, userId, sellerId, found.value);
    var stored := FetchAndStoreAsins(db, p, userId, sellerId, seller.sellerLabel);
    r := Ok(RefreshResult(sellerId, seller.sellerLabel, |targets|, |stored|, stored));
  }
}
