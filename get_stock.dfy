/**
  The `/api/stock/GetStock` endpoint: it reshapes the upstream feed
  (`data[0].result.data.json`) into the bot's categories and maps fetch and
  formatting failures to error responses.
*/
module GetStock {
  import opened Wrappers

  /** A parsed JSON value (numbers are integers here). */
  datatype Json = Null | Bool(b: bool) | Num(n: int) | Str(s: string) | Arr(elems: seq<Json>) | Obj(props: map<string, Json>)

  /** JavaScript truthiness of a value that may be `undefined` (`None`). */
  predicate Truthy(v: Option<Json>) {
    match v
    case None => false
    case Some(Null) => false
    case Some(Bool(b)) => b
    case Some(Num(n)) => n != 0
    case Some(Str(s)) => s != ""
    case Some(Arr(_)) => true
    case Some(Obj(_)) => true
  }

  /** Reading a named property of a value that is neither `null` nor `undefined`. */
  function Prop(v: Json, key: string): (r: Option<Json>)
    ensures v.Obj? && key in v.props ==> r == Some(v.props[key])
    ensures !v.Obj? || key !in v.props ==> r.None?
  {
    if v.Obj? && key in v.props then Some(v.props[key]) else None
  }

  /** `x?.key`: `undefined` when `x` is `null` or `undefined`. */
  function OptProp(v: Option<Json>, key: string): (r: Option<Json>)
    ensures v.None? || v == Some(Null) ==> r.None?
    ensures v.Some? && v.value.Obj? && key in v.value.props ==> r == Some(v.value.props[key])
  {
    if v.None? || v.value.Null? then None else Prop(v.value, key)
  }

  /** `data[0]`: `null` has no properties, so reading one throws. */
  function First(data: Json): (r: Result<Option<Json>, string>)
    ensures r.Failure? <==> data.Null?
    ensures data.Arr? ==> r == Success(if data.elems == [] then None else Some(data.elems[0]))
  {
    match data
    case Null => Failure("Cannot read properties of null (reading '0')")
    case Arr(e) => Success(if e == [] then None else Some(e[0]))
    case Str(s) => Success(if s == "" then None else Some(Str([s[0]])))
    case Obj(p) => Success(if "0" in p then Some(p["0"]) else None)
    case _ => Success(None)
  }

  /** An item of a category, reduced to the four properties the endpoint keeps. */
  datatype StockItem = StockItem(name: Option<Json>, value: Option<Json>, image: Option<Json>, emoji: Option<Json>)

  /** The item at one position of the list; `null` has no `name` to read. */
  function FormatItem(item: Json): (r: Result<StockItem, string>)
    ensures r.Failure? <==> item.Null?
    ensures r.Success? ==> r.value == StockItem(Prop(item, "name"), Prop(item, "value"), Prop(item, "image"), Prop(item, "emoji"))
  {
    if item.Null? then Failure("Cannot read properties of null (reading 'name')")
    else Success(StockItem(Prop(item, "name"), Prop(item, "value"), Prop(item, "image"), Prop(item, "emoji")))
  }

  /** `items.map(...)` over the positions from `i` on; the first `null` element stops it. */
  function FormatFrom(items: seq<Json>, i: nat): (r: Result<seq<StockItem>, string>)
    requires i <= |items|
    ensures r.Failure? <==> exists j :: i <= j < |items| && items[j].Null?
    ensures r.Success? ==> |r.value| == |items| - i
    ensures r.Success? ==> forall j :: i <= j < |items| ==> FormatItem(items[j]) == Success(r.value[j - i])
    decreases |items| - i
  {
    if i == |items| then Success([])
    else
      match FormatItem(items[i])
      case Failure(e) => Failure(e)
      case Success(x) =>
        match FormatFrom(items, i + 1)
        case Failure(e) => Failure(e)
        case Success(rest) => Success([x] + rest)
  }

  /** `formatStockItems`: `[]` for anything but an array, otherwise one item per element, in order. */
  function FormatStockItems(items: Json): (r: Result<seq<StockItem>, string>)
    ensures !items.Arr? ==> r == Success([])
    ensures items.Arr? ==> (r.Failure? <==> exists j :: 0 <= j < |items.elems| && items.elems[j].Null?)
    ensures items.Arr? && r.Success? ==>
      && |r.value| == |items.elems|
      && forall j :: 0 <= j < |items.elems| ==> r.value[j] == StockItem(Prop(items.elems[j], "name"), Prop(items.elems[j], "value"), Prop(items.elems[j], "image"), Prop(items.elems[j], "emoji"))
  {
    if items.Arr? then FormatFrom(items.elems, 0) else Success([])
  }

  /** `stocks[key] || []`. */
  function CategoryOf(stocks: Json, key: string): (c: Json)
    ensures !Truthy(Prop(stocks, key)) ==> c == Arr([])
    ensures Truthy(Prop(stocks, key)) ==> c == stocks.props[key]
  {
    var v := Prop(stocks, key);
    if Truthy(v) then v.value else Arr([])
  }

  /** The categories of the reshaped feed (the `lastSeen` part is not modelled). */
  datatype Stocks = Stocks(
    gearStock: seq<StockItem>, eggStock: seq<StockItem>, seedsStock: seq<StockItem>,
    nightStock: seq<StockItem>, bloodStock: seq<StockItem>, cosmeticsStock: seq<StockItem>)

  const MalformedMessage := "Malformed data structure from upstream API"

  /** `data[0]?.result?.data?.json`, or the error of reading it. */
  function Payload(data: Json): (r: Result<Option<Json>, string>)
    ensures r.Failure? <==> data.Null?
  {
    match First(data)
    case Failure(e) => Failure(e)
    case Success(d0) => Success(OptProp(OptProp(OptProp(d0, "result"), "data"), "json"))
  }

  /** Formats the six categories in the order the result object lists them; the first failure wins. */
  function FormatCategories(stocks: Json): (r: Result<Stocks, string>)
    ensures r.Success? <==>
      && FormatStockItems(CategoryOf(stocks, "gearStock")).Success?
      && FormatStockItems(CategoryOf(stocks, "eggStock")).Success?
      && FormatStockItems(CategoryOf(stocks, "seedsStock")).Success?
      && FormatStockItems(CategoryOf(stocks, "nightStock")).Success?
      && FormatStockItems(CategoryOf(stocks, "bloodStock")).Success?
      && FormatStockItems(CategoryOf(stocks, "cosmeticsStock")).Success?
    ensures r.Success? ==>
      && Success(r.value.gearStock) == FormatStockItems(CategoryOf(stocks, "gearStock"))
      && Success(r.value.eggStock) == FormatStockItems(CategoryOf(stocks, "eggStock"))
      && Success(r.value.seedsStock) == FormatStockItems(CategoryOf(stocks, "seedsStock"))
      && Success(r.value.nightStock) == FormatStockItems(CategoryOf(stocks, "nightStock"))
      && Success(r.value.bloodStock) == FormatStockItems(CategoryOf(stocks, "bloodStock"))
      && Success(r.value.cosmeticsStock) == FormatStockItems(CategoryOf(stocks, "cosmeticsStock"))
  {
    var g := FormatStockItems(CategoryOf(stocks, "gearStock"));
    var e := FormatStockItems(CategoryOf(stocks, "eggStock"));
    var s := FormatStockItems(CategoryOf(stocks, "seedsStock"));
    var n := FormatStockItems(CategoryOf(stocks, "nightStock"));
    var b := FormatStockItems(CategoryOf(stocks, "bloodStock"));
    var c := FormatStockItems(CategoryOf(stocks, "cosmeticsStock"));
    if g.Failure? then Failure(g.error)
    else if e.Failure? then Failure(e.error)
    else if s.Failure? then Failure(s.error)
    else if n.Failure? then Failure(n.error)
    else if b.Failure? then Failure(b.error)
    else if c.Failure? then Failure(c.error)
    else Success(Stocks(g.value, e.value, s.value, n.value, b.value, c.value))
  }

  /** `formatStocks`: a falsy payload is malformed; otherwise every category is formatted. */
  function FormatStocks(data: Json): (r: Result<Stocks, string>)
    ensures Payload(data).Success? && !Truthy(Payload(data).value) ==> r == Failure(MalformedMessage)
    ensures Payload(data).Success? && Truthy(Payload(data).value) ==> r == FormatCategories(Payload(data).value.value)
    ensures data.Null? ==> r.Failure?
  {
    match Payload(data)
    case Failure(e) => Failure(e)
    case Success(stocks) =>
      if !Truthy(stocks) then Failure(MalformedMessage) else FormatCategories(stocks.value)
  }

  /** A category absent from the payload (or falsy there) comes out as the empty list. */
  lemma AbsentCategoryEmpty(stocks: Json, key: string)
    requires !Truthy(Prop(stocks, key))
    ensures FormatStockItems(CategoryOf(stocks, key)) == Success([])
  {
  }

  /** The failure reported by `fetchStocks`: an HTTP status (when set) and a message. */
  datatype FetchError = FetchError(status: Option<int>, message: string)

  datatype Body = Formatted(stocks: Stocks) | ErrorBody(code: int, message: string)

  datatype Response = Response(status: int, body: Body)

  /** `error.status || 500`: a missing or zero status becomes 500. */
  function StatusOr500(status: Option<int>): (code: int)
    ensures status.Some? && status.value != 0 ==> code == status.value
    ensures status.None? || status.value == 0 ==> code == 500
  {
    if status.Some? && status.value != 0 then status.value else 500
  }

  /** The route handler's answer to the outcome of the upstream fetch. */
  function Respond(fetched: Result<Json, FetchError>): (resp: Response)
    ensures fetched.Failure? ==>
      resp == Response(StatusOr500(fetched.error.status), ErrorBody(StatusOr500(fetched.error.status), fetched.error.message))
    ensures fetched.Success? && FormatStocks(fetched.value).Success? ==>
      resp == Response(200, Formatted(FormatStocks(fetched.value).value))
    ensures fetched.Success? && FormatStocks(fetched.value).Failure? ==>
      resp == Response(500, ErrorBody(500, "Error processing stock data: " + FormatStocks(fetched.value).error))
    ensures resp.body.Formatted? ==> resp.status == 200
    ensures fetched.Success? ==> (resp.status == 200 <==> resp.body.Formatted?)
  {
    match fetched
    case Failure(err) =>
      var code := StatusOr500(err.status);
      Response(code, ErrorBody(code, err.message))
    case Success(data) =>
      match FormatStocks(data)
      case Success(f) => Response(200, Formatted(f))
      case Failure(m) => Response(500, ErrorBody(500, "Error processing stock data: " + m))
  }
}
