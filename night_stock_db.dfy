/** The `night_stock` table: the snapshot of the night-event shop. */
module NightStockDB {
  import opened Wrappers
  import opened StockDB

  /** The table's rows grouped by `type`, in table order; rows of other types are dropped. */
  method LoadNightStock(db: Database) returns (s: Stock)
    ensures s == Partition(db.nightStock.rows)
  {
    var rows := db.nightStock.SelectAll();
    s := Partition(rows);
  }

  /**
    Replaces the night table by the snapshot, or leaves it as it was when a
    category is missing. No other table changes.
  */
  method SaveNightStock(db: Database, stock: StockArg) returns (o: Outcome<string>)
    requires db.Valid()
    modifies db.nightStock
    ensures o.Pass? <==> stock.seedsStock.Some? && stock.gearStock.Some? && stock.eggStock.Some?
    ensures o.Pass? ==> db.nightStock.rows == Layout(Stock(stock.seedsStock.value, stock.gearStock.value, stock.eggStock.value))
    ensures o.Fail? ==> db.nightStock.rows == old(db.nightStock.rows) && o.error == ForEachOfUndefined
    ensures db.currentStock.rows == old(db.currentStock.rows) && db.bloodStock.rows == old(db.bloodStock.rows)
  {
    o := db.nightStock.SaveSnapshot(stock);
  }

  /** Saving a snapshot whose rows carry their categories and loading it back gives the snapshot. */
  method SaveThenLoad(db: Database, s: Stock) returns (loaded: Stock)
    requires db.Valid() && WellTagged(s)
    modifies db.nightStock
    ensures loaded == s
    ensures db.nightStock.rows == Layout(s)
  {
    var o := SaveNightStock(db, Present(s));
    loaded := LoadNightStock(db);
    PartitionLayout(s);
  }
}
