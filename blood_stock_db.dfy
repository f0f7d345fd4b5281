/** The `blood_stock` table: the snapshot of the blood-moon event shop. */
module BloodStockDB {
  import opened Wrappers
  import opened StockDB

  /** The table's rows grouped by `type`, in table order; rows of other types are dropped. */
  method LoadBloodStock(db: Database) returns (s: Stock)
    ensures s == Partition(db.bloodStock.rows)
  {
    var rows := db.bloodStock.SelectAll();
    s := Partition(rows);
  }

  /**
    Replaces the blood table by the snapshot, or leaves it as it was when a
    category is missing. No other table changes.
  */
  method SaveBloodStock(db: Database, stock: StockArg) returns (o: Outcome<string>)
    requires db.Valid()
    modifies db.bloodStock
    ensures o.Pass? <==> stock.seedsStock.Some? && stock.gearStock.Some? && stock.eggStock.Some?
    ensures o.Pass? ==> db.bloodStock.rows == Layout(Stock(stock.seedsStock.value, stock.gearStock.value, stock.eggStock.value))
    ensures o.Fail? ==> db.bloodStock.rows == old(db.bloodStock.rows) && o.error == ForEachOfUndefined
    ensures db.currentStock.rows == old(db.currentStock.rows) && db.nightStock.rows == old(db.nightStock.rows)
  {
    o := db.bloodStock.SaveSnapshot(stock);
  }

  /** Saving a snapshot whose rows carry their categories and loading it back gives the snapshot. */
  method SaveThenLoad(db: Database, s: Stock) returns (loaded: Stock)
    requires db.Valid() && WellTagged(s)
    modifies db.bloodStock
    ensures loaded == s
    ensures db.bloodStock.rows == Layout(s)
  {
    var o := SaveBloodStock(db, Present(s));
    loaded := LoadBloodStock(db);
    PartitionLayout(s);
  }
}
