/**
  The main stock notifier: normalising the shop feed into tagged rows,
  comparing it with the last saved snapshot, saving it to the
  `current_stock` table and posting the role-ping line with the embed.
*/
module CheckStock {
  import opened Wrappers
  import opened Text
  import opened EmojiMap
  import opened StockDB

  // ---------------------------------------------------------------------
  // normalizeName: `name.toLowerCase().replace(/\s+/g, "_")`
  // ---------------------------------------------------------------------

  predicate IsUpper(c: char) {
    'A' <= c <= 'Z'
  }

  /** The characters matched by the regular-expression class `\s`. */
  predicate IsSpace(c: char) {
    || c == ' ' || c == '\t' || c == '\n' || c == '\r' || c == '\U{B}' || c == '\U{C}'
    || c == '\U{A0}' || c == '\U{1680}' || ('\U{2000}' <= c <= '\U{200A}')
    || c == '\U{2028}' || c == '\U{2029}' || c == '\U{202F}' || c == '\U{205F}'
    || c == '\U{3000}' || c == '\U{FEFF}'
  }

  predicate NoSpace(s: string) {
    forall i :: 0 <= i < |s| ==> !IsSpace(s[i])
  }

  predicate NoUpper(s: string) {
    forall i :: 0 <= i < |s| ==> !IsUpper(s[i])
  }

  function LowerChar(c: char): (d: char)
    ensures !IsUpper(d)
    ensures IsUpper(c) ==> d as int == c as int + 32
    ensures !IsUpper(c) ==> d == c
  {
    if IsUpper(c) then (c as int + 32) as char else c
  }

  /** `toLowerCase` on the ASCII letters. */
  function Lower(s: string): (r: string)
    ensures |r| == |s| && NoUpper(r)
    ensures forall i :: 0 <= i < |s| ==> r[i] == LowerChar(s[i])
  {
    seq(|s|, i requires 0 <= i < |s| => LowerChar(s[i]))
  }

  lemma LowerAppend(a: string, b: string)
    ensures Lower(a + b) == Lower(a) + Lower(b)
  {
    assert forall i :: 0 <= i < |a + b| ==> Lower(a + b)[i] == (Lower(a) + Lower(b))[i];
  }

  /** A string with no upper-case letter (for instance, only spaces) is its own lower case. */
  lemma LowerNoUpper(s: string)
    requires NoUpper(s)
    ensures Lower(s) == s
  {
    assert forall i :: 0 <= i < |s| ==> Lower(s)[i] == s[i];
  }

  /**
    `replace(/\s+/g, "_")` read left to right: a whitespace character
    writes '_' unless the character before it was whitespace too (`inRun`),
    so each maximal run of whitespace becomes one '_'.
  */
  function Replace(s: string, inRun: bool): (r: string)
    ensures |r| <= |s|
    decreases |s|
  {
    if s == [] then []
    else if IsSpace(s[0]) then (if inRun then Replace(s[1..], true) else "_" + Replace(s[1..], true))
    else [s[0]] + Replace(s[1..], false)
  }

  function Underscore(s: string): (r: string)
    ensures |r| <= |s|
  {
    Replace(s, false)
  }

  /** The replacement leaves no whitespace. */
  lemma {:induction false} ReplaceSpaceFree(s: string, inRun: bool)
    ensures NoSpace(Replace(s, inRun))
    decreases |s|
  {
    if s != [] {
      ReplaceSpaceFree(s[1..], IsSpace(s[0]));
      assert !IsSpace('_');
    }
  }

  /** The replacement brings in no upper-case letter. */
  lemma {:induction false} ReplaceNoUpper(s: string, inRun: bool)
    requires NoUpper(s)
    ensures NoUpper(Replace(s, inRun))
    decreases |s|
  {
    if s != [] {
      ReplaceNoUpper(s[1..], IsSpace(s[0]));
    }
  }

  function NormalizeName(name: string): (r: string)
    ensures NoUpper(r) && NoSpace(r)
    ensures |r| <= |name|
  {
    ReplaceNoUpper(Lower(name), false);
    ReplaceSpaceFree(Lower(name), false);
    Underscore(Lower(name))
  }

  /** A string without whitespace is not touched by the replacement. */
  lemma {:induction false} ReplaceNoSpace(s: string, inRun: bool)
    requires NoSpace(s)
    ensures Replace(s, inRun) == s
    decreases |s|
  {
    if s != [] {
      ReplaceNoSpace(s[1..], false);
    }
  }

  /** Whether the text read so far ends inside a whitespace run. */
  predicate EndsInRun(a: string, inRun: bool) {
    if a == [] then inRun else IsSpace(a[|a| - 1])
  }

  /** The replacement works piecewise: the second part starts in the state the first ends in. */
  lemma {:induction false} ReplaceAppend(a: string, x: string, inRun: bool)
    ensures Replace(a + x, inRun) == Replace(a, inRun) + Replace(x, EndsInRun(a, inRun))
    decreases |a|
  {
    if a == [] {
      assert a + x == x;
    } else {
      var f := IsSpace(a[0]);
      var h := Written(a[0], inRun);
      assert (a + x)[0] == a[0];
      assert (a + x)[1..] == a[1..] + x;
      ReplaceStep(a + x, inRun);
      ReplaceStep(a, inRun);
      ReplaceAppend(a[1..], x, f);
      assert EndsInRun(a[1..], f) == EndsInRun(a, inRun);
      assert h + (Replace(a[1..], f) + Replace(x, EndsInRun(a, inRun)))
          == (h + Replace(a[1..], f)) + Replace(x, EndsInRun(a, inRun));
    }
  }

  /** What one character writes, given whether it continues a whitespace run. */
  function Written(c: char, inRun: bool): (w: string)
    ensures IsSpace(c) && inRun ==> w == []
    ensures IsSpace(c) && !inRun ==> w == "_"
    ensures !IsSpace(c) ==> w == [c]
  {
    if IsSpace(c) then (if inRun then [] else "_") else [c]
  }

  /** One step of the scan. */
  lemma ReplaceStep(s: string, inRun: bool)
    requires s != []
    ensures Replace(s, inRun) == Written(s[0], inRun) + Replace(s[1..], IsSpace(s[0]))
  {
  }

  /** A cut that is not inside a whitespace run splits the replacement. */
  lemma UnderscoreAppend(a: string, x: string)
    requires a == [] || !IsSpace(a[|a| - 1])
    ensures Underscore(a + x) == Underscore(a) + Underscore(x)
  {
    ReplaceAppend(a, x, false);
  }

  /** A whitespace run writes one '_', or nothing when it continues a run. */
  lemma {:induction false} ReplaceRun(w: string, inRun: bool)
    requires w != [] && forall i :: 0 <= i < |w| ==> IsSpace(w[i])
    ensures Replace(w, inRun) == if inRun then [] else "_"
    decreases |w|
  {
    assert IsSpace(w[0]);
    if |w| > 1 {
      ReplaceRun(w[1..], true);
    }
  }

  /** A whitespace run followed by text that does not start with whitespace becomes one '_'. */
  lemma UnderscoreRun(w: string, b: string)
    requires w != [] && forall i :: 0 <= i < |w| ==> IsSpace(w[i])
    requires b == [] || !IsSpace(b[0])
    ensures Underscore(w + b) == "_" + Underscore(b)
  {
    ReplaceAppend(w, b, false);
    ReplaceRun(w, false);
    assert IsSpace(w[|w| - 1]);
    assert Replace(b, true) == Replace(b, false);
  }

  /**
    Each maximal whitespace run of the name becomes exactly one '_':
    text, a run of whitespace, and text that neither ends nor starts with
    whitespace at the cut normalise piecewise around a single '_'.
  */
  lemma NormalizeNameRun(a: string, w: string, b: string)
    requires a == [] || !IsSpace(a[|a| - 1])
    requires w != [] && forall i :: 0 <= i < |w| ==> IsSpace(w[i])
    requires b == [] || !IsSpace(b[0])
    ensures NormalizeName(a + w + b) == NormalizeName(a) + "_" + NormalizeName(b)
  {
    var la, lb := Lower(a), Lower(b);
    LowerAroundRun(a, w, b);
    UnderscoreAppend(la, w + lb);
    UnderscoreRun(w, lb);
    assert Underscore(la + (w + lb)) == Underscore(la) + ("_" + Underscore(lb));
  }

  /** Lower-casing leaves a whitespace run alone and keeps whitespace off the edges at the cut. */
  lemma LowerAroundRun(a: string, w: string, b: string)
    requires a == [] || !IsSpace(a[|a| - 1])
    requires forall i :: 0 <= i < |w| ==> IsSpace(w[i])
    requires b == [] || !IsSpace(b[0])
    ensures Lower(a + w + b) == Lower(a) + (w + Lower(b))
    ensures Lower(a) == [] || !IsSpace(Lower(a)[|a| - 1])
    ensures Lower(b) == [] || !IsSpace(Lower(b)[0])
  {
    assert NoUpper(w);
    LowerNoUpper(w);
    LowerAppend(a + w, b);
    LowerAppend(a, w);
  }

  /** Normalising twice is normalising once. */
  lemma NormalizeNameIdempotent(name: string)
    ensures NormalizeName(NormalizeName(name)) == NormalizeName(name)
  {
    var r := NormalizeName(name);
    LowerNoUpper(r);
    ReplaceNoSpace(r, false);
  }

  /** Every key of the icon table is already a normalised item id. */
  lemma IconKeysNormalised()
    ensures forall i :: 0 <= i < |Icons| ==> NormalizeName(Icons[i].key) == Icons[i].key
  {
    IconsWellFormed();
    forall i | 0 <= i < |Icons| ensures NormalizeName(Icons[i].key) == Icons[i].key {
      var k := Icons[i].key;
      assert NoUpper(k) && NoSpace(k);
      LowerNoUpper(k);
      ReplaceNoSpace(k, false);
    }
  }

  // ---------------------------------------------------------------------
  // getEmoji
  // ---------------------------------------------------------------------

  /** The fallback icon, a package. */
  const DefaultEmoji := "\U{1F4E6}"

  /** The text a template literal gives the `Object` function, inherited by every plain object as `constructor`. */
  const ObjectFunctionText := "function Object() { [native code] }"

  /** The text a template literal gives `Object.prototype`, inherited by every plain object as `__proto__`. */
  const ObjectPrototypeText := "[object Object]"

  /**
    A bracket lookup on a plain object that misses its own properties falls
    through to `Object.prototype`. Of its members only `constructor` and
    `__proto__` are spelled without capitals, so only they can be named by a
    normalised id; both values are truthy. The result is the value as a
    template literal renders it.
  */
  function Inherited(key: string): (r: Option<string>)
    ensures r.Some? <==> key == "constructor" || key == "__proto__"
    ensures r.Some? ==> r.value != "" && r.value != DefaultEmoji
  {
    if key == "constructor" then Some(ObjectFunctionText)
    else if key == "__proto__" then Some(ObjectPrototypeText)
    else None
  }

  /**
    `emojiMap[itemId] || "📦"`: the table's own icon, else an inherited
    member, else the package. Every stored icon is a non-empty markup, so
    `||` only catches a miss.
  */
  function GetEmoji(itemId: string): (r: string)
    ensures (forall i :: 0 <= i < |Icons| ==> Icons[i].key != itemId) && Inherited(itemId).None? ==> r == DefaultEmoji
    ensures (forall i :: 0 <= i < |Icons| ==> Icons[i].key != itemId) && Inherited(itemId).Some? ==> r == Inherited(itemId).value
    ensures forall i :: 0 <= i < |Icons| && Icons[i].key == itemId ==> r == Icon(Icons[i])
    ensures r != ""
  {
    KeysDistinct();
    assert forall i :: 0 <= i < |Icons| && Icons[i].key == itemId ==> Lookup(Icons, itemId) == Some(Icon(Icons[i])) by {
      forall i | 0 <= i < |Icons| && Icons[i].key == itemId ensures Lookup(Icons, itemId) == Some(Icon(Icons[i])) {
        LookupAt(Icons, i);
      }
    }
    match Lookup(Icons, itemId)
    case Some(v) => v
    case None =>
      match Inherited(itemId)
      case Some(t) => t
      case None => DefaultEmoji
  }

  /** An item named "Constructor" gets the rendered `Object` function as its icon, not the package. */
  lemma ConstructorIcon()
    ensures NormalizeName("Constructor") == "constructor"
    ensures GetEmoji(NormalizeName("Constructor")) == ObjectFunctionText
  {
    assert Lower("Constructor") == "constructor";
    ReplaceNoSpace("constructor", false);
    NoInheritedKeys();
  }

  /** The example of the table's first entry: "Carrot" normalises to "carrot", which has its own icon. */
  lemma CarrotIcon()
    ensures NormalizeName("Carrot") == "carrot"
    ensures GetEmoji(NormalizeName("Carrot")) == Markup("carrot", "1377452529360568320")
  {
    assert Lower("Carrot") == "carrot";
    ReplaceNoSpace("carrot", false);
    CarrotEntry();
  }

  // ---------------------------------------------------------------------
  // normalizeIncomingStock
  // ---------------------------------------------------------------------

  /** An item of the live feed: only its `name` and `value` are read. */
  datatype RawItem = RawItem(name: string, value: int)

  /** The live feed's snapshot; a category may be missing. */
  datatype RawStock = RawStock(seedsStock: Option<seq<RawItem>>, gearStock: Option<seq<RawItem>>, eggStock: Option<seq<RawItem>>)

  /** `x || []` for a category list. */
  function OrEmpty<T>(items: Option<seq<T>>): (r: seq<T>)
    ensures items.None? ==> r == []
    ensures items.Some? ==> r == items.value
  {
    match items
    case Some(v) => v
    case None => []
  }

  /** One feed category as rows tagged `kind` whose `item_id` is the normalised name. */
  function NormalizeItems(items: Option<seq<RawItem>>, kind: string): (r: seq<Row>)
    ensures |r| == |OrEmpty(items)|
    ensures forall i :: 0 <= i < |r| ==>
      r[i] == Row(kind, NormalizeName(OrEmpty(items)[i].name), OrEmpty(items)[i].name, OrEmpty(items)[i].value)
  {
    var v := OrEmpty(items);
    seq(|v|, i requires 0 <= i < |v| => Row(kind, NormalizeName(v[i].name), v[i].name, v[i].value))
  }

  function NormalizeIncomingStock(raw: RawStock): (s: Stock)
    ensures |s.seedsStock| == |OrEmpty(raw.seedsStock)|
    ensures |s.gearStock| == |OrEmpty(raw.gearStock)|
    ensures |s.eggStock| == |OrEmpty(raw.eggStock)|
  {
    Stock(NormalizeItems(raw.seedsStock, SeedType), NormalizeItems(raw.gearStock, GearType), NormalizeItems(raw.eggStock, EggType))
  }

  /** Every row's `item_id` is a normalised name: normalising it again changes nothing. */
  predicate IdsNormalised(rows: seq<Row>) {
    forall i :: 0 <= i < |rows| ==> NormalizeName(rows[i].itemId) == rows[i].itemId
  }

  /**
    The normalised snapshot keeps each category's names and values in order,
    tags each row with its category and gives it a normalised `item_id`.
  */
  lemma NormalizedStockShape(raw: RawStock)
    ensures WellTagged(NormalizeIncomingStock(raw))
    ensures var s := NormalizeIncomingStock(raw);
      IdsNormalised(s.seedsStock) && IdsNormalised(s.gearStock) && IdsNormalised(s.eggStock)
    ensures var s := NormalizeIncomingStock(raw);
      && (forall i :: 0 <= i < |s.seedsStock| ==> s.seedsStock[i].name == OrEmpty(raw.seedsStock)[i].name && s.seedsStock[i].value == OrEmpty(raw.seedsStock)[i].value)
      && (forall i :: 0 <= i < |s.gearStock| ==> s.gearStock[i].name == OrEmpty(raw.gearStock)[i].name && s.gearStock[i].value == OrEmpty(raw.gearStock)[i].value)
      && (forall i :: 0 <= i < |s.eggStock| ==> s.eggStock[i].name == OrEmpty(raw.eggStock)[i].name && s.eggStock[i].value == OrEmpty(raw.eggStock)[i].value)
  {
    forall n: string ensures NormalizeName(NormalizeName(n)) == NormalizeName(n) {
      NormalizeNameIdempotent(n);
    }
  }

  // ---------------------------------------------------------------------
  // hasStockChanged, getCurrentStockFromDB, updateStockInDB
  // ---------------------------------------------------------------------

  /** `JSON.stringify(newStock) !== JSON.stringify(oldStock)`, as structural inequality. */
  predicate HasStockChanged(newStock: Stock, oldStock: Stock) {
    newStock != oldStock
  }

  /** The argument's categories, each filled with `[]` when missing. */
  function Defaulted(a: StockArg): (s: Stock)
    ensures s.seedsStock == OrEmpty(a.seedsStock) && s.gearStock == OrEmpty(a.gearStock) && s.eggStock == OrEmpty(a.eggStock)
  {
    Stock(OrEmpty(a.seedsStock), OrEmpty(a.gearStock), OrEmpty(a.eggStock))
  }

  method GetCurrentStockFromDB(db: Database) returns (s: Stock)
    ensures s == Partition(db.currentStock.rows)
  {
    var rows := db.currentStock.SelectAll();
    s := Partition(rows);
  }

  /**
    Replaces the whole `current_stock` table by the snapshot: seeds tagged
    "seed", then gear tagged "gear", then eggs tagged "egg"; a missing
    category contributes nothing. No old row survives.
  */
  method UpdateStockInDB(db: Database, newStock: StockArg)
    modifies db.currentStock
    ensures db.currentStock.rows == Layout(Defaulted(newStock))
  {
    var t := db.currentStock;
    var s := Defaulted(newStock);
    t.DeleteAll();
    t.InsertTagged(s.seedsStock, SeedType);
    t.InsertTagged(s.gearStock, GearType);
    t.InsertTagged(s.eggStock, EggType);
  }

  /** What the loader reads back after a normalised snapshot was saved is that snapshot: nothing changed. */
  lemma SavedSnapshotUnchanged(raw: RawStock)
    ensures var s := NormalizeIncomingStock(raw);
      Partition(Layout(Defaulted(Present(s)))) == s && !HasStockChanged(s, Partition(Layout(Defaulted(Present(s)))))
  {
    var s := NormalizeIncomingStock(raw);
    NormalizedStockShape(raw);
    assert Defaulted(Present(s)) == s;
    PartitionLayout(s);
  }

  // ---------------------------------------------------------------------
  // generatePingLine
  // ---------------------------------------------------------------------

  /** The two lookup tables the notifier reads: role ids by item id, and the items never pinged. */
  datatype Config = Config(roleMap: map<string, string>, commonItems: seq<string>)

  /**
    `roleMap[id]` when truthy: the map's own non-empty entry, or, for an id
    the map lacks, an inherited member of the parsed object.
  */
  function RoleOf(cfg: Config, id: string): (r: Option<string>)
    ensures id in cfg.roleMap ==> (r.Some? <==> cfg.roleMap[id] != "") && (r.Some? ==> r.value == cfg.roleMap[id])
    ensures id !in cfg.roleMap ==> r == Inherited(id)
    ensures r.Some? ==> r.value != ""
  {
    if id in cfg.roleMap then
      if cfg.roleMap[id] != "" then Some(cfg.roleMap[id]) else None
    else Inherited(id)
  }

  /** An item is pinged when it is not common and `roleMap` gives it a truthy role. */
  predicate Pinged(cfg: Config, r: Row) {
    r.itemId !in cfg.commonItems && RoleOf(cfg, r.itemId).Some?
  }

  /** The Discord role mention `<@&id>`. */
  function RoleMention(roleId: string): (m: string)
    ensures |m| == |roleId| + 4 && m[..3] == "<@&" && m[3..|m| - 1] == roleId && m[|m| - 1] == '>'
  {
    "<@&" + roleId + ">"
  }

  /** The mentions of the pinged items, in the order of the items; repeated items repeat. */
  function Mentions(cfg: Config, items: seq<Row>): (r: seq<string>)
    ensures |r| <= |items|
    ensures forall m :: m in r ==> exists i :: 0 <= i < |items| && Pinged(cfg, items[i]) && m == RoleMention(RoleOf(cfg, items[i].itemId).value)
    ensures forall i :: 0 <= i < |items| && Pinged(cfg, items[i]) ==> RoleMention(RoleOf(cfg, items[i].itemId).value) in r
    ensures forall m :: m in r ==> m != ""
    decreases |items|
  {
    if items == [] then []
    else
      var rest := Mentions(cfg, items[1..]);
      assert forall i :: 1 <= i < |items| ==> items[i] == items[1..][i - 1];
      if Pinged(cfg, items[0]) then [RoleMention(RoleOf(cfg, items[0].itemId).value)] + rest else rest
  }

  lemma {:induction false} MentionsAppend(cfg: Config, a: seq<Row>, b: seq<Row>)
    ensures Mentions(cfg, a + b) == Mentions(cfg, a) + Mentions(cfg, b)
    decreases |a|
  {
    if a == [] {
      assert a + b == b;
    } else {
      assert (a + b)[0] == a[0];
      assert (a + b)[1..] == a[1..] + b;
      MentionsAppend(cfg, a[1..], b);
    }
  }

  /** An item with id "constructor" is pinged even by an empty role map: the lookup finds the inherited `Object` function. */
  lemma ConstructorPinged(r: Row)
    requires r.itemId == "constructor"
    ensures Mentions(Config(map[], []), [r]) == ["<@&" + ObjectFunctionText + ">"]
  {
    assert [r][1..] == [];
  }

  /** The items of a snapshot in ping order: seeds, then gear, then eggs. */
  function AllItems(s: StockArg): (items: seq<Row>)
    ensures |items| == |OrEmpty(s.seedsStock)| + |OrEmpty(s.gearStock)| + |OrEmpty(s.eggStock)|
  {
    OrEmpty(s.seedsStock) + OrEmpty(s.gearStock) + OrEmpty(s.eggStock)
  }

  /** The ping line: the mentions joined by single spaces. */
  function PingLine(cfg: Config, s: StockArg): (line: string)
    ensures line == "" <==> forall i :: 0 <= i < |AllItems(s)| ==> !Pinged(cfg, AllItems(s)[i])
  {
    var ms := Mentions(cfg, AllItems(s));
    assert forall i :: 0 <= i < |ms| ==> ms[i] in ms;
    JoinOfNonEmpty(ms, " ");
    assert ms != [] ==> ms[0] in ms;
    Join(ms, " ")
  }

  /** The line lists the seed mentions, then the gear mentions, then the egg mentions. */
  lemma PingLineOrder(cfg: Config, s: StockArg)
    ensures PingLine(cfg, s) == Join(Mentions(cfg, OrEmpty(s.seedsStock)) + Mentions(cfg, OrEmpty(s.gearStock)) + Mentions(cfg, OrEmpty(s.eggStock)), " ")
  {
    MentionsAppend(cfg, OrEmpty(s.seedsStock) + OrEmpty(s.gearStock), OrEmpty(s.eggStock));
    MentionsAppend(cfg, OrEmpty(s.seedsStock), OrEmpty(s.gearStock));
  }

  // ---------------------------------------------------------------------
  // buildStockEmbed
  // ---------------------------------------------------------------------

  datatype Field = Field(name: string, value: string, inline: bool)

  datatype Embed = Embed(color: nat, author: string, fields: seq<Field>)

  /** One item of a field: `${emoji} **${name}** x${value}`. */
  function ItemLine(r: Row): (line: string)
    ensures line == GetEmoji(r.itemId) + " **" + r.name + "** x" + IntToString(r.value)
    ensures |line| > |"None"|
  {
    GetEmoji(r.itemId) + " **" + r.name + "** x" + IntToString(r.value)
  }

  function ItemLines(items: seq<Row>): (lines: seq<string>)
    ensures |lines| == |items| && forall i :: 0 <= i < |items| ==> lines[i] == ItemLine(items[i])
  {
    seq(|items|, i requires 0 <= i < |items| => ItemLine(items[i]))
  }

  /** A field's text: the item lines joined by newlines, or "None" for an empty category. */
  function FieldText(items: Option<seq<Row>>): (text: string)
    ensures OrEmpty(items) == [] ==> text == "None"
    ensures OrEmpty(items) != [] ==> text == Join(ItemLines(OrEmpty(items)), "\n")
    ensures text == "None" <==> OrEmpty(items) == []
  {
    var lines := ItemLines(OrEmpty(items));
    var text := Join(lines, "\n");
    JoinOfNonEmpty(lines, "\n");
    assert lines != [] ==> lines[0] in lines && |text| >= |lines[0]|;
    if text == "" then "None" else text
  }

  const SeedsFieldName := "\U{1F331} SEEDS STOCK"
  const GearFieldName := "\U{1F6E0}\U{FE0F} GEAR STOCK"
  const EggFieldName := "\U{1F423} EGG STOCK"

  /** The embed: green, the bot's author line, then the three inline category fields. */
  function BuildStockEmbed(s: StockArg): (e: Embed)
    ensures e.color == 0x2ecc71
    ensures |e.fields| == 3
    ensures e.fields[0] == Field(SeedsFieldName, FieldText(s.seedsStock), true)
    ensures e.fields[1] == Field(GearFieldName, FieldText(s.gearStock), true)
    ensures e.fields[2] == Field(EggFieldName, FieldText(s.eggStock), true)
  {
    Embed(0x2ecc71, "\U{1F326}\U{FE0F} GardenBot \U{2022} Grow a Garden Stocks",
      [ Field(SeedsFieldName, FieldText(s.seedsStock), true),
        Field(GearFieldName, FieldText(s.gearStock), true),
        Field(EggFieldName, FieldText(s.eggStock), true) ])
  }

  // ---------------------------------------------------------------------
  // checkStockAndNotify
  // ---------------------------------------------------------------------

  /** A message as `channel.send` receives it. */
  datatype Message = Message(content: string, embeds: seq<Embed>)

  /** A Discord channel, seen through what has been sent to it. */
  class Channel {
    var sent: seq<Message>

    constructor ()
      ensures sent == []
    {
      sent := [];
    }

    /**
      `channel.send(m)`. The delivery outcome is the parameter `failure`:
      `None` when Discord accepts the message, `Some(e)` when the call
      rejects with the message `e`, in which case nothing is posted.
    */
    method Send(m: Message, failure: Option<string>) returns (o: Outcome<string>)
      modifies this
      ensures failure.None? ==> o.Pass? && sent == old(sent) + [m]
      ensures failure.Some? ==> o == Fail(failure.value) && sent == old(sent)
    {
      if failure.Some? {
        return Fail(failure.value);
      }
      sent := sent + [m];
      o := Pass;
    }
  }

  /** The message posted for a changed snapshot. */
  function Notification(cfg: Config, s: Stock): (m: Message)
    ensures m.content == PingLine(cfg, Present(s)) && m.embeds == [BuildStockEmbed(Present(s))]
  {
    Message(PingLine(cfg, Present(s)), [BuildStockEmbed(Present(s))])
  }

  /**
    One notification step. `channel` is `Some` when fetching the channel
    succeeds and `None` when it fails with the error `fetchError`;
    `sendFailure` is the outcome of `channel.send` (see `Channel.Send`).
    Unchanged stock: nothing is saved or sent. Changed stock: the table is
    saved first, so it stays saved when the channel cannot be fetched or
    the send rejects; then the message goes out, and a rejected send is
    the step's error.
  */
  method CheckStockAndNotify(db: Database, cfg: Config, channel: Option<Channel>, fetchError: string,
                             sendFailure: Option<string>, rawNewStock: RawStock)
      returns (o: Outcome<string>)
    modifies db.currentStock, if channel.Some? then {channel.value} else {}
    ensures var n := NormalizeIncomingStock(rawNewStock);
      if !HasStockChanged(n, Partition(old(db.currentStock.rows))) then
        && o.Pass?
        && db.currentStock.rows == old(db.currentStock.rows)
        && (channel.Some? ==> channel.value.sent == old(channel.value.sent))
      else
        && db.currentStock.rows == Layout(n)
        && (channel.None? ==> o == Fail(fetchError))
        && (channel.Some? && sendFailure.None? ==> o.Pass? && channel.value.sent == old(channel.value.sent) + [Notification(cfg, n)])
        && (channel.Some? && sendFailure.Some? ==> o == Fail(sendFailure.value) && channel.value.sent == old(channel.value.sent))
  {
    var newStock := NormalizeIncomingStock(rawNewStock);
    var lastStock := GetCurrentStockFromDB(db);
    if !HasStockChanged(newStock, lastStock) {
      return Pass;
    }
    NormalizedStockShape(rawNewStock);
    UpdateStockInDB(db, Present(newStock));
    RetagTagged(newStock.seedsStock, SeedType);
    RetagTagged(newStock.gearStock, GearType);
    RetagTagged(newStock.eggStock, EggType);
    assert Defaulted(Present(newStock)) == newStock;
    if channel.None? {
      return Fail(fetchError);
    }
    var embed := BuildStockEmbed(Present(newStock));
    var pingLine := PingLine(cfg, Present(newStock));
    o := channel.value.Send(Message(pingLine, [embed]), sendFailure);
  }

  /** After a step with some raw stock, a second step with the same raw stock finds nothing changed. */
  lemma SecondCallNoOp(raw: RawStock)
    ensures !HasStockChanged(NormalizeIncomingStock(raw), Partition(Layout(NormalizeIncomingStock(raw))))
  {
    var s := NormalizeIncomingStock(raw);
    SavedSnapshotUnchanged(raw);
    assert Defaulted(Present(s)) == s;
  }
}
