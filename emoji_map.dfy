/**
  The item-id to custom-icon table, in the order of its source file. Each
  entry pairs an item id with the numeric id of its custom emoji; the value
  the table hands out is the custom-emoji markup `<:name:id>` whose name is
  the entry's own key, as in every entry of the source table.
*/
module EmojiMap {
  import opened Text
  import opened Wrappers

  /** The custom-emoji markup `<:name:id>`. */
  function Markup(name: string, id: string): string {
    "<:" + name + ":" + id + ">"
  }

  datatype Entry = Entry(key: string, emojiId: nat)

  /** The value stored under the entry's key. */
  function Icon(e: Entry): string {
    Markup(e.key, NatToString(e.emojiId))
  }

  const Icons: seq<Entry> := [
    // Seeds / Crops
    Entry("carrot", 1377452529360568320),
    Entry("strawberry", 1377452530711134338),
    Entry("blueberry", 1377452654242037760),
    Entry("orange_tulip", 1377452533097824408),
    Entry("tomato", 1377452534578417714),
    Entry("corn", 1377452536017059943),
    Entry("daffodil", 1377452504635281419),
    Entry("watermelon", 1377452537170497606),
    Entry("pumpkin", 1377452538307022909),
    Entry("apple", 1377452638735700038),
    Entry("bamboo", 1377452640257970268),
    Entry("coconut", 1377452647321309275),
    Entry("cactus", 1377452648940441750),
    Entry("dragon_fruit", 1377452506900074566),
    Entry("mango", 1377452508066087093),
    Entry("grape", 1377452492220272742),
    Entry("mushroom", 1377452494023688263),
    Entry("pepper", 1377452502420557855),
    Entry("cacao", 1377452576206880868),
    Entry("beanstalk", 1377452503666524391),
    // Tools
    Entry("watering_can", 1377452412171845732),
    Entry("trowel", 1377452455746474145),
    Entry("recall_wrench", 1377452416349245562),
    Entry("favorite_tool", 1377452409156141158),
    Entry("harvest_tool", 1377452408120021172),
    // Sprinklers
    Entry("basic_sprinkler", 1377452407021375638),
    Entry("advanced_sprinkler", 1377452405326876683),
    Entry("master_sprinkler", 1377452404403863705),
    Entry("godly_sprinkler", 1377452410896650390),
    // Extras
    Entry("lightning_rod", 1377452413388329081),
    // Eggs
    Entry("common_egg", 1377667239280382072),
    Entry("uncommon_egg", 1377667241557885139),
    Entry("rare_egg", 1377667237099470990),
    Entry("legendary_egg", 1377667235170095124),
    Entry("mythical_egg", 1377667243458166784),
    Entry("bug_egg", 1377667232469094411)
  ]

  /** Property lookup on the table object: the icon stored under `key`, if any. */
  function Lookup(table: seq<Entry>, key: string): (r: Option<string>)
    ensures r.Some? <==> exists i :: 0 <= i < |table| && table[i].key == key
    ensures r.Some? ==> exists i :: 0 <= i < |table| && table[i].key == key && Icon(table[i]) == r.value
  {
    if table == [] then None
    else if table[0].key == key then Some(Icon(table[0]))
    else
      var r := Lookup(table[1..], key);
      assert forall j :: 0 <= j < |table| - 1 ==> table[1..][j] == table[j + 1];
      r
  }

  /** Characters of an item id in this table: lower-case letters and '_'. */
  predicate IdChars(k: string) {
    forall i :: 0 <= i < |k| ==> 'a' <= k[i] <= 'z' || k[i] == '_'
  }

  /** `v` is the custom-icon markup `<:k:digits>` for the key `k`. */
  predicate IconFor(k: string, v: string) {
    && |v| >= |k| + 5
    && v[..2] == "<:" && v[2..|k| + 2] == k && v[|k| + 2] == ':'
    && AllDigits(v[|k| + 3..|v| - 1]) && v[|v| - 1] == '>'
  }

  /** The key is an item id of lower-case letters and '_'. */
  predicate WellFormed(e: Entry) {
    IdChars(e.key)
  }

  /** An entry's icon is the markup `<:key:digits>` naming its own key. */
  lemma IconNamesKey(e: Entry)
    ensures IconFor(e.key, Icon(e))
  {
    var v := Icon(e);
    assert v[..2] == "<:";
    assert v[2..|e.key| + 2] == e.key;
    assert v[|e.key| + 3..|v| - 1] == NatToString(e.emojiId);
  }

  lemma KeysAreIds0to6()
    ensures IdChars("carrot")
    ensures IdChars("strawberry")
    ensures IdChars("blueberry")
    ensures IdChars("orange_tulip")
    ensures IdChars("tomato")
    ensures IdChars("corn")
  {
    // Each key is a literal; its characters are checked one by one.
  }

  lemma KeysAreIds6to12()
    ensures IdChars("daffodil")
    ensures IdChars("watermelon")
    ensures IdChars("pumpkin")
    ensures IdChars("apple")
    ensures IdChars("bamboo")
    ensures IdChars("coconut")
  {
    // Each key is a literal; its characters are checked one by one.
  }

  lemma KeysAreIds12to18()
    ensures IdChars("cactus")
    ensures IdChars("dragon_fruit")
    ensures IdChars("mango")
    ensures IdChars("grape")
    ensures IdChars("mushroom")
    ensures IdChars("pepper")
  {
    // Each key is a literal; its characters are checked one by one.
  }

  lemma KeysAreIds18to24()
    ensures IdChars("cacao")
    ensures IdChars("beanstalk")
    ensures IdChars("watering_can")
    ensures IdChars("trowel")
    ensures IdChars("recall_wrench")
    ensures IdChars("favorite_tool")
  {
    // Each key is a literal; its characters are checked one by one.
  }

  lemma KeysAreIds24to30()
    ensures IdChars("harvest_tool")
    ensures IdChars("basic_sprinkler")
    ensures IdChars("advanced_sprinkler")
    ensures IdChars("master_sprinkler")
    ensures IdChars("godly_sprinkler")
    ensures IdChars("lightning_rod")
  {
    // Each key is a literal; its characters are checked one by one.
  }

  lemma KeysAreIds30to36()
    ensures IdChars("common_egg")
    ensures IdChars("uncommon_egg")
    ensures IdChars("rare_egg")
    ensures IdChars("legendary_egg")
    ensures IdChars("mythical_egg")
    ensures IdChars("bug_egg")
  {
    // Each key is a literal; its characters are checked one by one.
  }

  lemma KeysDistinct0to1()
    ensures forall i, j :: 0 <= i < 1 && i < j < |Icons| ==> Icons[i].key != Icons[j].key
  {
    assert "carrot"[0] != "tomato"[0];
    assert "carrot"[0] != "bamboo"[0];
    assert "carrot"[2] != "cactus"[2];
    assert "carrot"[0] != "pepper"[0];
    assert "carrot"[0] != "trowel"[0];
  }

  lemma KeysDistinct1to2()
    ensures forall i, j :: 1 <= i < 2 && i < j < |Icons| ==> Icons[i].key != Icons[j].key
  {
    assert "strawberry"[0] != "watermelon"[0];
    assert "strawberry"[0] != "common_egg"[0];
  }

  lemma KeysDistinct2to3()
    ensures forall i, j :: 2 <= i < 3 && i < j < |Icons| ==> Icons[i].key != Icons[j].key
  {
    assert "blueberry"[1] != "beanstalk"[1];
  }

  lemma KeysDistinct3to5()
    ensures forall i, j :: 3 <= i < 5 && i < j < |Icons| ==> Icons[i].key != Icons[j].key
  {
    assert "orange_tulip"[0] != "dragon_fruit"[0];
    assert "orange_tulip"[0] != "watering_can"[0];
    assert "orange_tulip"[0] != "harvest_tool"[0];
    assert "orange_tulip"[0] != "uncommon_egg"[0];
    assert "orange_tulip"[0] != "mythical_egg"[0];
    assert "tomato"[0] != "bamboo"[0];
    assert "tomato"[0] != "cactus"[0];
    assert "tomato"[0] != "pepper"[0];
    assert "tomato"[1] != "trowel"[1];
  }

  lemma KeysDistinct5to7()
    ensures forall i, j :: 5 <= i < 7 && i < j < |Icons| ==> Icons[i].key != Icons[j].key
  {
    assert "daffodil"[0] != "mushroom"[0];
    assert "daffodil"[0] != "rare_egg"[0];
  }

  lemma KeysDistinct7to9()
    ensures forall i, j :: 7 <= i < 9 && i < j < |Icons| ==> Icons[i].key != Icons[j].key
  {
    assert "watermelon"[0] != "common_egg"[0];
    assert "pumpkin"[0] != "coconut"[0];
    assert "pumpkin"[0] != "bug_egg"[0];
  }

  lemma KeysDistinct9to12()
    ensures forall i, j :: 9 <= i < 12 && i < j < |Icons| ==> Icons[i].key != Icons[j].key
  {
    assert "apple"[0] != "mango"[0];
    assert "apple"[0] != "grape"[0];
    assert "apple"[0] != "cacao"[0];
    assert "bamboo"[0] != "cactus"[0];
    assert "bamboo"[0] != "pepper"[0];
    assert "bamboo"[0] != "trowel"[0];
    assert "coconut"[0] != "bug_egg"[0];
  }

  lemma KeysDistinct12to16()
    ensures forall i, j :: 12 <= i < 16 && i < j < |Icons| ==> Icons[i].key != Icons[j].key
  {
    assert "cactus"[0] != "pepper"[0];
    assert "cactus"[0] != "trowel"[0];
    assert "dragon_fruit"[0] != "watering_can"[0];
    assert "dragon_fruit"[0] != "harvest_tool"[0];
    assert "dragon_fruit"[0] != "uncommon_egg"[0];
    assert "dragon_fruit"[0] != "mythical_egg"[0];
    assert "mango"[0] != "grape"[0];
    assert "mango"[0] != "cacao"[0];
    assert "grape"[0] != "cacao"[0];
  }

  lemma KeysDistinct16to21()
    ensures forall i, j :: 16 <= i < 21 && i < j < |Icons| ==> Icons[i].key != Icons[j].key
  {
    assert "mushroom"[0] != "rare_egg"[0];
    assert "pepper"[0] != "trowel"[0];
    assert "watering_can"[0] != "harvest_tool"[0];
    assert "watering_can"[0] != "uncommon_egg"[0];
    assert "watering_can"[0] != "mythical_egg"[0];
  }

  lemma KeysDistinct21to36()
    ensures forall i, j :: 21 <= i < 36 && i < j < |Icons| ==> Icons[i].key != Icons[j].key
  {
    assert "recall_wrench"[0] != "favorite_tool"[0];
    assert "recall_wrench"[0] != "lightning_rod"[0];
    assert "recall_wrench"[0] != "legendary_egg"[0];
    assert "favorite_tool"[0] != "lightning_rod"[0];
    assert "favorite_tool"[0] != "legendary_egg"[0];
    assert "harvest_tool"[0] != "uncommon_egg"[0];
    assert "harvest_tool"[0] != "mythical_egg"[0];
    assert "basic_sprinkler"[0] != "godly_sprinkler"[0];
    assert "lightning_rod"[1] != "legendary_egg"[1];
    assert "uncommon_egg"[0] != "mythical_egg"[0];
  }

  /** The leading digits of the first entry's emoji id. */
  lemma CarrotIdPrefix()
    ensures NatToString(1377452) == "1377452"
    ensures NatToString(1377452529360) == "1377452529360"
  {
    assert NatToString(13) == "13";
    assert NatToString(137) == "137";
    assert NatToString(1377) == "1377";
    assert NatToString(13774) == "13774";
    assert NatToString(137745) == "137745";
    assert NatToString(1377452) == "1377452";
    assert NatToString(13774525) == "13774525";
    assert NatToString(137745252) == "137745252";
    assert NatToString(1377452529) == "1377452529";
    assert NatToString(13774525293) == "13774525293";
    assert NatToString(137745252936) == "137745252936";
  }

  lemma CarrotIdLongerPrefix()
    ensures NatToString(1377452529360568) == "1377452529360568"
  {
    CarrotIdPrefix();
    assert NatToString(13774525293605) == "13774525293605";
    assert NatToString(137745252936056) == "137745252936056";
  }

  /** The decimal rendering of the first entry's emoji id. */
  lemma CarrotId()
    ensures NatToString(1377452529360568320) == "1377452529360568320"
  {
    CarrotIdLongerPrefix();
    assert NatToString(13774525293605683) == "13774525293605683";
    assert NatToString(137745252936056832) == "137745252936056832";
  }

  /** The first entry of the table as it is written: `carrot: "<:carrot:1377452529360568320>"`. */
  lemma CarrotEntry()
    ensures Icons[0].key == "carrot" && Icon(Icons[0]) == Markup("carrot", "1377452529360568320")
  {
    assert Icons[0] == Entry("carrot", 1377452529360568320);
    CarrotId();
  }

  /** Every entry of the table is well formed. */
  lemma IconsWellFormed()
    ensures |Icons| == 36
    ensures forall i :: 0 <= i < |Icons| ==> WellFormed(Icons[i])
  {
    KeysAreIds0to6();
    KeysAreIds6to12();
    KeysAreIds12to18();
    KeysAreIds18to24();
    KeysAreIds24to30();
    KeysAreIds30to36();
  }

  /** No two entries share a key. */
  predicate DistinctKeys(table: seq<Entry>) {
    forall a, b :: 0 <= a < b < |table| ==> table[a].key != table[b].key
  }

  /** No key occurs twice, so the table has 36 distinct keys. */
  lemma KeysDistinct()
    ensures |Icons| == 36 && DistinctKeys(Icons)
  {
    KeysDistinct0to1();
    KeysDistinct1to2();
    KeysDistinct2to3();
    KeysDistinct3to5();
    KeysDistinct5to7();
    KeysDistinct7to9();
    KeysDistinct9to12();
    KeysDistinct12to16();
    KeysDistinct16to21();
    KeysDistinct21to36();
  }

  /** With distinct keys, looking up the key at position `i` finds that entry's icon. */
  lemma {:induction false} LookupAt(table: seq<Entry>, i: nat)
    requires i < |table| && DistinctKeys(table)
    ensures Lookup(table, table[i].key) == Some(Icon(table[i]))
  {
    if i > 0 {
      assert table[0].key != table[i].key;
      assert table[1..][i - 1] == table[i];
      LookupAt(table[1..], i - 1);
    }
  }

  /**
    Every key of the table is an item id, looking it up yields its own entry's
    icon, and that icon is the markup `<:key:digits>` naming the key.
  */
  lemma IconsNameTheirKeys()
    ensures forall i :: 0 <= i < |Icons| ==>
      && IdChars(Icons[i].key)
      && Lookup(Icons, Icons[i].key) == Some(Icon(Icons[i]))
      && IconFor(Icons[i].key, Icon(Icons[i]))
  {
    IconsWellFormed();
    KeysDistinct();
    forall i | 0 <= i < |Icons|
      ensures Lookup(Icons, Icons[i].key) == Some(Icon(Icons[i])) && IconFor(Icons[i].key, Icon(Icons[i]))
    {
      LookupAt(Icons, i);
      IconNamesKey(Icons[i]);
    }
  }

  lemma NoInheritedKeys0to6()
    ensures forall i :: 0 <= i < 6 ==> Icons[i].key != "constructor" && Icons[i].key != "__proto__"
  {
    assert "blueberry"[0] != "__proto__"[0];
  }

  lemma NoInheritedKeys6to12()
    ensures forall i :: 6 <= i < 12 ==> Icons[i].key != "constructor" && Icons[i].key != "__proto__"
  {
    // No key here has the length of either name.
  }

  lemma NoInheritedKeys12to18()
    ensures forall i :: 12 <= i < 18 ==> Icons[i].key != "constructor" && Icons[i].key != "__proto__"
  {
    // No key here has the length of either name.
  }

  lemma NoInheritedKeys18to24()
    ensures forall i :: 18 <= i < 24 ==> Icons[i].key != "constructor" && Icons[i].key != "__proto__"
  {
    assert "beanstalk"[0] != "__proto__"[0];
  }

  lemma NoInheritedKeys24to30()
    ensures forall i :: 24 <= i < 30 ==> Icons[i].key != "constructor" && Icons[i].key != "__proto__"
  {
    // No key here has the length of either name.
  }

  lemma NoInheritedKeys30to36()
    ensures forall i :: 30 <= i < 36 ==> Icons[i].key != "constructor" && Icons[i].key != "__proto__"
  {
    // No key here has the length of either name.
  }

  /** No key of the table is one of the two inherited member names `constructor` and `__proto__`. */
  lemma NoInheritedKeys()
    ensures forall i :: 0 <= i < |Icons| ==> Icons[i].key != "constructor" && Icons[i].key != "__proto__"
  {
    NoInheritedKeys0to6();
    NoInheritedKeys6to12();
    NoInheritedKeys12to18();
    NoInheritedKeys18to24();
    NoInheritedKeys24to30();
    NoInheritedKeys30to36();
  }
}
