/** The database as the core uses it (backend/db/supabaseClient.js): each
    table held as a map in one object, the sales log as an append-only
    sequence, and a fixed set of calls that the backend rejects, so that the
    callers' error paths are part of the model. */
module Store {
  import opened Js

  const StoreError := "database request failed"

  datatype User = User(webhookUrl: Option<string>)
  datatype SellerProfile = SellerProfile(sellerId: string, sellerLabel: string)
  datatype AsinRow = AsinRow(sellerId: string, asin: string, title: Option<string>)
  /** A buybox_states row: `stock_level` holds whatever number the caller wrote. */
  datatype BuyBoxState = BuyBoxState(currentSeller: Option<string>, stockLevel: Option<Num>)
  datatype SaleLog = SaleLog(userId: string, asin: string, sellerId: string,
                             stockBefore: Num, stockAfter: Num, unitsSold: Num)

  /** One database request, named by its operation and key. */
  datatype Call =
    | GetUserCall(userId: string)
    | GetSellersCall(userId: string)
    | GetAsinsCall(userId: string)
    | AddAsinCall(userId: string, asin: string)
    | DeleteAsinCall(userId: string, asin: string)
    | GetStateCall(userId: string, asin: string)
    | UpdateStateCall(userId: string, asin: string)
    | LogSaleCall(userId: string, asin: string)

  type AsinTable = map<string, seq<AsinRow>>

  /** The rows a per-user query returns. */
  function RowsOf(asins: AsinTable, userId: string): seq<AsinRow>
  {
    if userId in asins then asins[userId] else []
  }

  function SellersOf(sellers: map<string, seq<SellerProfile>>, userId: string): seq<SellerProfile>
  {
    if userId in sellers then sellers[userId] else []
  }

  /** At most one row per ASIN within one user's rows. */
  predicate DistinctAsins(rows: seq<AsinRow>)
  {
    forall i, j :: 0 <= i < j < |rows| ==> rows[i].asin != rows[j].asin
  }

  /** Upsert keyed by ASIN: replace the row with the same ASIN, else append. */
  function UpsertAsin(rows: seq<AsinRow>, row: AsinRow): (r: seq<AsinRow>)
    ensures row in r
    ensures forall x :: x in rows && x.asin != row.asin ==> x in r
    ensures DistinctAsins(rows) ==> DistinctAsins(r)
    ensures DistinctAsins(rows) ==> forall x :: x in r ==> x == row || (x in rows && x.asin != row.asin)
  {
    if rows == [] then [row]
    else if rows[0].asin == row.asin then [row] + rows[1..]
    else
      var rest := UpsertAsin(rows[1..], row);
      assert forall x :: x in rows[1..] ==> x in rows;
      [rows[0]] + rest
  }

  /** Delete by ASIN: every row with that ASIN goes, the rest keep their order. */
  function WithoutAsin(rows: seq<AsinRow>, asin: string): (r: seq<AsinRow>)
    ensures forall x :: x in r <==> x in rows && x.asin != asin
    ensures |r| <= |rows|
    ensures DistinctAsins(rows) ==> DistinctAsins(r)
  {
    if rows == [] then []
    else if rows[0].asin == asin then WithoutAsin(rows[1..], asin)
    else [rows[0]] + WithoutAsin(rows[1..], asin)
  }

  function AddAsinTo(asins: AsinTable, userId: string, row: AsinRow): AsinTable
  {
    asins[userId := UpsertAsin(RowsOf(asins, userId), row)]
  }

  function DeleteAsinFrom(asins: AsinTable, userId: string, asin: string): AsinTable
  {
    asins[userId := WithoutAsin(RowsOf(asins, userId), asin)]
  }

  class Database {
    var users: map<string, User>
    var sellers: map<string, seq<SellerProfile>>
    var asins: AsinTable
    var states: map<(string, string), BuyBoxState>
    var sales: seq<SaleLog>
    /** The calls the backend answers with an error. */
    const faults: set<Call>

    /** Each user holds at most one row per ASIN. */
    ghost predicate Valid()
      reads this
    {
      forall u :: u in asins ==> DistinctAsins(asins[u])
    }

    constructor (users: map<string, User>, sellers: map<string, seq<SellerProfile>>, asins: AsinTable,
                 faults: set<Call>)
      requires forall u :: u in asins ==> DistinctAsins(asins[u])
      ensures Valid()
      ensures this.users == users && this.sellers == sellers && this.asins == asins
      ensures states == map[] && sales == [] && this.faults == faults
    {
      this.users, this.sellers, this.asins := users, sellers, asins;
      states, sales := map[], [];
      this.faults := faults;
    }

    /** getUser: `.single()` turns a missing user into an error. */
    method GetUser(userId: string) returns (r: Result<User>)
      ensures r.Ok? <==> GetUserCall(userId) !in faults && userId in users
      ensures r.Ok? ==> r.value == users[userId]
    {
      if GetUserCall(userId) in faults || userId !in users {
        r := Err(StoreError);
      } else {
        r := Ok(users[userId]);
      }
    }

    method GetSellers(userId: string) returns (r: Result<seq<SellerProfile>>)
      ensures r.Ok? <==> GetSellersCall(userId) !in faults
      ensures r.Ok? ==> r.value == SellersOf(sellers, userId)
    {
      if GetSellersCall(userId) in faults {
        r := Err(StoreError);
      } else {
        r := Ok(SellersOf(sellers, userId));
      }
    }

    method GetAsins(userId: string) returns (r: Result<seq<AsinRow>>)
      ensures r.Ok? <==> GetAsinsCall(userId) !in faults
      ensures r.Ok? ==> r.value == RowsOf(asins, userId)
    {
      if GetAsinsCall(userId) in faults {
        r := Err(StoreError);
      } else {
        r := Ok(RowsOf(asins, userId));
      }
    }

    /** addAsin: upsert of the user's row for that ASIN; returns the row. */
    method AddAsin(userId: string, sellerId: string, asin: string, title: Option<string>) returns (r: Result<AsinRow>)
      requires Valid()
      modifies this`asins
      ensures Valid()
      ensures r.Ok? <==> AddAsinCall(userId, asin) !in faults
      ensures r.Ok? ==> r.value == AsinRow(sellerId, asin, title) && asins == AddAsinTo(old(asins), userId, r.value)
      ensures r.Err? ==> asins == old(asins)
    {
      if AddAsinCall(userId, asin) in faults {
        r := Err(StoreError);
      } else {
        var row := AsinRow(sellerId, asin, title);
        asins := AddAsinTo(asins, userId, row);
        r := Ok(row);
      }
    }

    /** deleteAsin: removes the user's rows with that ASIN. */
    method DeleteAsin(userId: string, asin: string) returns (ok: bool)
      requires Valid()
      modifies this`asins
      ensures Valid()
      ensures ok <==> DeleteAsinCall(userId, asin) !in faults
      ensures asins == if ok then DeleteAsinFrom(old(asins), userId, asin) else old(asins)
    {
      ok := DeleteAsinCall(userId, asin) !in faults;
      if ok {
        asins := DeleteAsinFrom(asins, userId, asin);
      }
    }

    /** getBuyBoxState: "no rows" (PGRST116) is an absent state, not an error. */
    method GetBuyBoxState(userId: string, asin: string) returns (r: Result<Option<BuyBoxState>>)
      ensures r.Ok? <==> GetStateCall(userId, asin) !in faults
      ensures r.Ok? ==> r.value == (if (userId, asin) in states then Some(states[(userId, asin)]) else None)
    {
      if GetStateCall(userId, asin) in faults {
        r := Err(StoreError);
      } else if (userId, asin) in states {
        r := Ok(Some(states[(userId, asin)]));
      } else {
        r := Ok(None);
      }
    }

    /** updateBuyBoxState: upsert of the (user, ASIN) row. */
    method UpdateBuyBoxState(userId: string, asin: string, currentSeller: Option<string>, stockLevel: Option<Num>)
      returns (ok: bool)
      modifies this`states
      ensures ok <==> UpdateStateCall(userId, asin) !in faults
      ensures states == if ok then old(states)[(userId, asin) := BuyBoxState(currentSeller, stockLevel)]
                        else old(states)
    {
      ok := UpdateStateCall(userId, asin) !in faults;
      if ok {
        states := states[(userId, asin) := BuyBoxState(currentSeller, stockLevel)];
      }
    }

    /** logSale: appends one row to the sales log. */
    method LogSale(userId: string, asin: string, sellerId: string, stockBefore: Num, stockAfter: Num,
                   unitsSold: Num) returns (ok: bool)
      modifies this`sales
      ensures ok <==> LogSaleCall(userId, asin) !in faults
      ensures sales == if ok then old(sales) + [SaleLog(userId, asin, sellerId, stockBefore, stockAfter, unitsSold)]
                       else old(sales)
    {
      ok := LogSaleCall(userId, asin) !in faults;
      if ok {
        sales := sales + [SaleLog(userId, asin, sellerId, stockBefore, stockAfter, unitsSold)];
      }
    }
  }
}
