/**
  The SQLite database shared by the stock modules, reduced to what the
  statements use: three tables (`current_stock`, `night_stock`,
  `blood_stock`) of rows with the columns `type`, `item_id`, `name` and
  `value`. A snapshot of the shop is three lists of rows, one per category.
*/
module StockDB {
  import opened Wrappers

  const SeedType := "seed"
  const GearType := "gear"
  const EggType := "egg"

  /** One row of a stock table (and one item of a normalised snapshot). */
  datatype Row = Row(kind: string, itemId: string, name: string, value: int)

  /** A shop snapshot: `{ seedsStock, gearStock, eggStock }`. */
  datatype Stock = Stock(seedsStock: seq<Row>, gearStock: seq<Row>, eggStock: seq<Row>)

  /** A snapshot argument whose categories may be missing (`undefined`). */
  datatype StockArg = StockArg(seedsStock: Option<seq<Row>>, gearStock: Option<seq<Row>>, eggStock: Option<seq<Row>>)

  /** The argument with every category present. */
  function Present(s: Stock): (a: StockArg)
    ensures a.seedsStock.Some? && a.gearStock.Some? && a.eggStock.Some?
    ensures a.seedsStock.value == s.seedsStock && a.gearStock.value == s.gearStock && a.eggStock.value == s.eggStock
  {
    StockArg(Some(s.seedsStock), Some(s.gearStock), Some(s.eggStock))
  }

  /** `rows.filter(r => r.type === kind)`. */
  function OfKind(rows: seq<Row>, kind: string): (r: seq<Row>)
    ensures |r| <= |rows|
    ensures forall x :: x in r ==> x in rows && x.kind == kind
    ensures forall x :: x in rows && x.kind == kind ==> x in r
    decreases |rows|
  {
    if rows == [] then []
    else if rows[0].kind == kind then [rows[0]] + OfKind(rows[1..], kind)
    else OfKind(rows[1..], kind)
  }

  /** Filtering distributes over concatenation, so it keeps the table's order. */
  lemma {:induction false} OfKindAppend(a: seq<Row>, b: seq<Row>, kind: string)
    ensures OfKind(a + b, kind) == OfKind(a, kind) + OfKind(b, kind)
    decreases |a|
  {
    if a == [] {
      assert a + b == b;
    } else {
      assert (a + b)[0] == a[0];
      assert (a + b)[1..] == a[1..] + b;
      OfKindAppend(a[1..], b, kind);
    }
  }

  /** Filters for three different kinds pick disjoint rows, so together they keep at most every row once. */
  lemma {:induction false} OfKindsDisjoint(rows: seq<Row>, ka: string, kb: string, kc: string)
    requires ka != kb && kb != kc && ka != kc
    ensures |OfKind(rows, ka)| + |OfKind(rows, kb)| + |OfKind(rows, kc)| <= |rows|
    decreases |rows|
  {
    if rows != [] {
      OfKindsDisjoint(rows[1..], ka, kb, kc);
    }
  }

  /** Every row carries the category `kind`. */
  predicate AllOfKind(rows: seq<Row>, kind: string) {
    forall i :: 0 <= i < |rows| ==> rows[i].kind == kind
  }

  /** A list whose every row has the kind is kept whole; one with no such row is dropped. */
  lemma {:induction false} OfKindUniform(rows: seq<Row>, kind: string, other: string)
    requires AllOfKind(rows, kind) && other != kind
    ensures OfKind(rows, kind) == rows
    ensures OfKind(rows, other) == []
    decreases |rows|
  {
    if rows != [] {
      OfKindUniform(rows[1..], kind, other);
    }
  }

  /** `rows.map(s => ({ ...s, type: kind }))`. */
  function Retag(rows: seq<Row>, kind: string): (r: seq<Row>)
    ensures |r| == |rows|
    ensures forall i :: 0 <= i < |r| ==> r[i] == rows[i].(kind := kind)
    ensures AllOfKind(r, kind)
  {
    seq(|rows|, i requires 0 <= i < |rows| => rows[i].(kind := kind))
  }

  /** Rows already tagged with their category are unchanged by the spread. */
  lemma RetagTagged(rows: seq<Row>, kind: string)
    requires AllOfKind(rows, kind)
    ensures Retag(rows, kind) == rows
  {
    assert forall i :: 0 <= i < |rows| ==> rows[i].(kind := kind) == rows[i];
  }

  /** Every category's rows carry that category's `type`. */
  predicate WellTagged(s: Stock) {
    AllOfKind(s.seedsStock, SeedType) && AllOfKind(s.gearStock, GearType) && AllOfKind(s.eggStock, EggType)
  }

  /** The table after the snapshot is written: seeds, then gear, then eggs, each tagged. */
  function Layout(s: Stock): (rows: seq<Row>)
    ensures |rows| == |s.seedsStock| + |s.gearStock| + |s.eggStock|
  {
    Retag(s.seedsStock, SeedType) + Retag(s.gearStock, GearType) + Retag(s.eggStock, EggType)
  }

  /** The written table is made of the three tagged blocks, in category order. */
  lemma LayoutBlocks(s: Stock)
    ensures var rows, n, m := Layout(s), |s.seedsStock|, |s.gearStock|;
      && rows[..n] == Retag(s.seedsStock, SeedType)
      && rows[n..n + m] == Retag(s.gearStock, GearType)
      && rows[n + m..] == Retag(s.eggStock, EggType)
  {
    var a := Retag(s.seedsStock, SeedType);
    var b := Retag(s.gearStock, GearType);
    var c := Retag(s.eggStock, EggType);
    assert Layout(s) == a + b + c;
    assert (a + b + c)[..|a|] == a;
    assert (a + b + c)[|a|..|a| + |b|] == b;
    assert (a + b + c)[|a| + |b|..] == c;
  }

  /** The loader's view of a table: its rows grouped by `type`, order kept, other types dropped. */
  function Partition(rows: seq<Row>): (s: Stock)
    ensures WellTagged(s)
    ensures |s.seedsStock| + |s.gearStock| + |s.eggStock| <= |rows|
  {
    assert SeedType[0] != GearType[0] && GearType[0] != EggType[0] && SeedType[0] != EggType[0];
    OfKindsDisjoint(rows, SeedType, GearType, EggType);
    var s := Stock(OfKind(rows, SeedType), OfKind(rows, GearType), OfKind(rows, EggType));
    assert forall i :: 0 <= i < |s.seedsStock| ==> s.seedsStock[i] in s.seedsStock;
    assert forall i :: 0 <= i < |s.gearStock| ==> s.gearStock[i] in s.gearStock;
    assert forall i :: 0 <= i < |s.eggStock| ==> s.eggStock[i] in s.eggStock;
    s
  }

  /** Filtering the three tagged blocks of a written table for one of their kinds. */
  lemma OfKindBlocks(a: seq<Row>, b: seq<Row>, c: seq<Row>, ka: string, kb: string, kc: string)
    requires AllOfKind(a, ka) && AllOfKind(b, kb) && AllOfKind(c, kc)
    requires ka != kb && kb != kc && ka != kc
    ensures OfKind(a + b + c, ka) == a && OfKind(a + b + c, kb) == b && OfKind(a + b + c, kc) == c
  {
    OfKindAppend(a + b, c, ka);
    OfKindAppend(a, b, ka);
    OfKindAppend(a + b, c, kb);
    OfKindAppend(a, b, kb);
    OfKindAppend(a + b, c, kc);
    OfKindAppend(a, b, kc);
    OfKindUniform(a, ka, kb);
    OfKindUniform(a, ka, kc);
    OfKindUniform(b, kb, ka);
    OfKindUniform(b, kb, kc);
    OfKindUniform(c, kc, ka);
    OfKindUniform(c, kc, kb);
  }

  /**
    Reading back what was written gives each category with its rows tagged;
    for a snapshot whose rows already carry their category it is the snapshot.
  */
  lemma PartitionLayout(s: Stock)
    ensures Partition(Layout(s)) == Stock(Retag(s.seedsStock, SeedType), Retag(s.gearStock, GearType), Retag(s.eggStock, EggType))
    ensures WellTagged(s) ==> Partition(Layout(s)) == s
  {
    var a := Retag(s.seedsStock, SeedType);
    var b := Retag(s.gearStock, GearType);
    var c := Retag(s.eggStock, EggType);
    assert Layout(s) == a + b + c;
    assert SeedType[0] != GearType[0];
    OfKindBlocks(a, b, c, SeedType, GearType, EggType);
    if WellTagged(s) {
      RetagTagged(s.seedsStock, SeedType);
      RetagTagged(s.gearStock, GearType);
      RetagTagged(s.eggStock, EggType);
    }
  }

  /** The `TypeError` thrown by calling `forEach` on a missing category. */
  const ForEachOfUndefined := "Cannot read properties of undefined (reading 'forEach')"

  /** One table of the database. */
  class Table {
    const name: string
    var rows: seq<Row>

    constructor (name: string)
      ensures this.name == name && rows == []
    {
      this.name := name;
      rows := [];
    }

    /** `DELETE FROM <table>`. */
    method DeleteAll()
      modifies this
      ensures rows == []
    {
      rows := [];
    }

    /** `INSERT INTO <table> (type, item_id, name, value) VALUES (...)`. */
    method Insert(r: Row)
      modifies this
      ensures rows == old(rows) + [r]
    {
      rows := rows + [r];
    }

    /** Inserts each item in order with its `type` overridden by `kind`. */
    method InsertTagged(items: seq<Row>, kind: string)
      modifies this
      ensures rows == old(rows) + Retag(items, kind)
    {
      var i := 0;
      while i < |items|
        invariant 0 <= i <= |items|
        invariant rows == old(rows) + Retag(items[..i], kind)
      {
        Insert(items[i].(kind := kind));
        assert Retag(items[..i + 1], kind) == Retag(items[..i], kind) + [items[i].(kind := kind)];
        i := i + 1;
      }
      assert items[..i] == items;
    }

    /**
      The transactional save of the night and blood tables: delete every
      row, then insert seeds, gear and eggs with `forEach`. A missing
      category makes `forEach` throw, which rolls the transaction back: the
      table keeps its old rows and the error is reported.
    */
    method SaveSnapshot(stock: StockArg) returns (o: Outcome<string>)
      modifies this
      ensures o.Pass? <==> stock.seedsStock.Some? && stock.gearStock.Some? && stock.eggStock.Some?
      ensures o.Pass? ==> rows == Layout(Stock(stock.seedsStock.value, stock.gearStock.value, stock.eggStock.value))
      ensures o.Fail? ==> rows == old(rows) && o.error == ForEachOfUndefined
    {
      var before := rows;
      DeleteAll();
      if stock.seedsStock.None? {
        Restore(before);
        return Fail(ForEachOfUndefined);
      }
      InsertTagged(stock.seedsStock.value, SeedType);
      if stock.gearStock.None? {
        Restore(before);
        return Fail(ForEachOfUndefined);
      }
      InsertTagged(stock.gearStock.value, GearType);
      if stock.eggStock.None? {
        Restore(before);
        return Fail(ForEachOfUndefined);
      }
      InsertTagged(stock.eggStock.value, EggType);
      o := Pass;
    }

    /** `SELECT * FROM <table>`. */
    method SelectAll() returns (r: seq<Row>)
      ensures r == rows
    {
      r := rows;
    }

    /** The rollback of a failed transaction: the rows as they were when it began. */
    method Restore(snapshot: seq<Row>)
      modifies this
      ensures rows == snapshot
    {
      rows := snapshot;
    }
  }

  /** The stock database file with its three tables. */
  class Database {
    const currentStock: Table
    const nightStock: Table
    const bloodStock: Table

    /** The three tables are different objects with their own names. */
    predicate Valid() {
      && currentStock != nightStock && currentStock != bloodStock && nightStock != bloodStock
      && currentStock.name == "current_stock" && nightStock.name == "night_stock" && bloodStock.name == "blood_stock"
    }

    constructor ()
      ensures Valid()
      ensures currentStock.rows == [] && nightStock.rows == [] && bloodStock.rows == []
      ensures fresh(currentStock) && fresh(nightStock) && fresh(bloodStock)
    {
      currentStock := new Table("current_stock");
      nightStock := new Table("night_stock");
      bloodStock := new Table("blood_stock");
    }
  }
}
