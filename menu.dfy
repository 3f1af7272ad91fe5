/** The menu records of `models/menu.js`: a menu item, its JSON form and the seed catalog. */
module Menu {
  import opened Wrappers
  import opened Json
  import Seqs

  /** A dish on the menu; `price` is per gram. */
  datatype MenuItem = MenuItem(
    id: string,
    name: string,
    category: string,
    price: real,
    description: string,
    icon: string)

  const MenuKeys: seq<string> := ["id", "name", "category", "price", "description", "icon"]

  /** `MenuItem.toJSON`. */
  function ToJson(m: MenuItem): Json.Value
  {
    Json.Obj([
      ("id", Json.Str(m.id)),
      ("name", Json.Str(m.name)),
      ("category", Json.Str(m.category)),
      ("price", Json.Num(m.price)),
      ("description", Json.Str(m.description)),
      ("icon", Json.Str(m.icon))])
  }

  /** The encoded item is an object with exactly the six properties id, name, category, price,
      description and icon, in that order. */
  lemma ToJsonKeys(m: MenuItem)
    ensures ToJson(m).Obj? && Json.Keys(ToJson(m).fields) == MenuKeys
    ensures Seqs.NoDuplicates(MenuKeys)
  {
    assert Json.Keys(ToJson(m).fields) == MenuKeys;
  }

  /** `MenuItem.fromJSON`; `None` where a property is missing or of the wrong kind. */
  function FromJson(j: Json.Value): Option<MenuItem>
  {
    match (Json.GetStr(j, "id"), Json.GetStr(j, "name"), Json.GetStr(j, "category"),
           Json.GetNum(j, "price"), Json.GetStr(j, "description"), Json.GetStr(j, "icon"))
    case (Some(id), Some(name), Some(cat), Some(price), Some(desc), Some(icon)) =>
      Some(MenuItem(id, name, cat, price, desc, icon))
    case _ => None
  }

  /** Decoding an encoded item gives back all six fields. */
  lemma RoundTrip(m: MenuItem)
    ensures FromJson(ToJson(m)) == Some(m)
  {
    ToJsonKeys(m);
    var fs := ToJson(m).fields;
    Json.LookupDistinct(fs, 0);
    Json.LookupDistinct(fs, 1);
    Json.LookupDistinct(fs, 2);
    Json.LookupDistinct(fs, 3);
    Json.LookupDistinct(fs, 4);
    Json.LookupDistinct(fs, 5);
  }

  /** The categories the seed catalog uses. */
  const SeedCategories: seq<string> := ["Main Dish", "Beverages", "Desserts", "Snacks"]

  /** The in-memory catalog at start-up. The icons are the exact characters written in the
      seed list, escaped. */
  const SeedMenu: seq<MenuItem> := [
    MenuItem("m1", "Undhiyu", "Main Dish", 150.0, "Traditional Gujarati undhiyu", "\U{011F}\U{0178}\U{00A5}\U{02DC}"),
    MenuItem("m2", "Fafda Jalebi", "Main Dish", 80.0, "Crispy fafda with sweet jalebi", "\U{011F}\U{0178}\U{0178}"),
    MenuItem("m3", "Dhokla", "Main Dish", 60.0, "Steamed spongy dhokla", "\U{011F}\U{0178}\U{00B0}"),
    MenuItem("m4", "Khandvi", "Main Dish", 70.0, "Rolled gram flour snack", "\U{011F}\U{0178}\U{00A5}\U{2019}"),
    MenuItem("b1", "Masala Chai", "Beverages", 20.0, "Hot spiced tea", "\U{00E2}\U{02DC}\U{2022}"),
    MenuItem("b2", "Lassi", "Beverages", 40.0, "Yogurt-based drink", "\U{011F}\U{0178}\U{00A5}\U{203A}"),
    MenuItem("b3", "Fresh Juice", "Beverages", 50.0, "Seasonal fresh juice", "\U{011F}\U{0178}\U{00A7}\U{0192}"),
    MenuItem("b4", "Soft Drink", "Beverages", 30.0, "Cold beverage", "\U{011F}\U{0178}\U{00A5}\U{00A4}"),
    MenuItem("d1", "Kheer", "Desserts", 90.0, "Rice pudding with nuts", "\U{011F}\U{0178}\U{0161}"),
    MenuItem("d2", "Gulab Jamun", "Desserts", 85.0, "Sweet dumplings in syrup", "\U{011F}\U{0178}\U{00AE}"),
    MenuItem("d3", "Ras Malai", "Desserts", 100.0, "Sweet creamy dessert", "\U{011F}\U{0178}\U{203A}"),
    MenuItem("s1", "Samosa", "Snacks", 25.0, "Crispy triangular pastry", "\U{011F}\U{0178}\U{00A5}\U{0178}"),
    MenuItem("s2", "Pakora", "Snacks", 35.0, "Fried vegetable fritters", "\U{011F}\U{0178}\U{2014}"),
    MenuItem("s3", "Moumos", "Snacks", 45.0, "Steamed dumplings", "\U{011F}\U{0178}\U{00A5}\U{0178}")
  ]

  /** The ids of a list of items, in order. */
  function Ids(items: seq<MenuItem>): (ids: seq<string>)
    ensures |ids| == |items|
    ensures forall i :: 0 <= i < |items| ==> ids[i] == items[i].id
  {
    seq(|items|, i requires 0 <= i < |items| => items[i].id)
  }

  /** The two characters of a two-character id, as one number: distinct codes mean distinct
      ids. */
  function IdCode(id: string): int {
    if |id| == 2 then (id[0] as int) * 0x1_0000 + (id[1] as int) else -1
  }

  /** The code of the `i`-th seed id: the category letter, then the position within the
      category counted from '1'. */
  function SeedIdCode(i: int): int {
    if i < 4 then 0x6D_0031 + i
    else if i < 8 then 0x62_0031 + (i - 4)
    else if i < 11 then 0x64_0031 + (i - 8)
    else 0x73_0031 + (i - 11)
  }

  /** The seed ids are pairwise different. */
  lemma SeedIdsDistinct()
    ensures Seqs.NoDuplicates(Ids(SeedMenu))
  {
    var ids := Ids(SeedMenu);
    forall i | 0 <= i < |ids| ensures IdCode(ids[i]) == SeedIdCode(i) {
    }
    forall i, j | 0 <= i < j < |ids| ensures ids[i] != ids[j] {
      assert SeedIdCode(i) != SeedIdCode(j);
    }
  }

  /** The seed catalog holds fourteen items with pairwise different ids, each in one of the four
      seed categories and with a positive price. */
  lemma SeedMenuWellFormed()
    ensures |SeedMenu| == 14
    ensures Seqs.NoDuplicates(Ids(SeedMenu))
    ensures forall m :: m in SeedMenu ==> m.category in SeedCategories && m.price > 0.0
  {
    SeedIdsDistinct();
    forall m | m in SeedMenu ensures m.category in SeedCategories && m.price > 0.0 {
      var i :| 0 <= i < |SeedMenu| && SeedMenu[i] == m;
      assert SeedMenu[i].category in SeedCategories;
    }
  }
}
