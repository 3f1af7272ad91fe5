/** The bill records of `models/bill.js`: a bill line, a bill, their JSON forms and the
    in-memory history the non-persistent service appends to. */
module Bill {
  import opened Wrappers
  import opened Json
  import Seqs

  /** One priced line of a bill. */
  datatype BillItem = BillItem(
    itemName: string,
    icon: string,
    quantityInGrams: real,
    pricePerGram: real,
    totalPrice: real)

  /** A bill; `timestamp` is in milliseconds since the epoch. The constructor's `notes`
      parameter defaults to the empty string, as the source's does. */
  datatype BillRecord = BillRecord(
    id: string,
    timestamp: int,
    items: seq<BillItem>,
    subtotal: real,
    discount: real,
    totalAmount: real,
    paymentMethod: string,
    notes: string := "")

  /** The properties a caller supplies to update a bill; `None` is an absent property. */
  datatype BillUpdate = BillUpdate(
    id: Option<string>,
    timestamp: Option<int>,
    items: Option<seq<BillItem>>,
    subtotal: Option<real>,
    discount: Option<real>,
    totalAmount: Option<real>,
    paymentMethod: Option<string>,
    notes: Option<string>,
    status: Option<string>)

  /** The history of bills the in-memory service keeps, empty at start-up. */
  const InitialHistory: seq<BillRecord> := []

  /** A bill built without notes carries empty notes, and the history starts empty. */
  lemma Defaults(id: string, timestamp: int, items: seq<BillItem>, subtotal: real, discount: real,
                 totalAmount: real, paymentMethod: string)
    ensures BillRecord(id, timestamp, items, subtotal, discount, totalAmount, paymentMethod).notes == ""
    ensures |InitialHistory| == 0
  {
  }

  /** The `quantityInKg` getter: the quantity converted from grams to kilograms. */
  function QuantityInKg(item: BillItem): (kg: real)
    ensures kg * 1000.0 == item.quantityInGrams
    ensures item.quantityInGrams >= 0.0 ==> kg <= item.quantityInGrams
  {
    item.quantityInGrams / 1000.0
  }

  const ItemKeys: seq<string> := ["itemName", "icon", "quantityInGrams", "pricePerGram", "totalPrice"]

  /** `BillItem.toJSON`: an object with exactly the five fields of the line. */
  function ItemToJson(item: BillItem): (j: Json.Value)
    ensures j.Obj? && Json.Keys(j.fields) == ItemKeys
  {
    var fields := [
      ("itemName", Json.Str(item.itemName)),
      ("icon", Json.Str(item.icon)),
      ("quantityInGrams", Json.Num(item.quantityInGrams)),
      ("pricePerGram", Json.Num(item.pricePerGram)),
      ("totalPrice", Json.Num(item.totalPrice))];
    assert Json.Keys(fields) == ItemKeys;
    Json.Obj(fields)
  }

  /** `BillItem.fromJSON`; `None` where a field is missing or of the wrong kind. */
  function ItemFromJson(j: Json.Value): Option<BillItem>
  {
    match (Json.GetStr(j, "itemName"), Json.GetStr(j, "icon"), Json.GetNum(j, "quantityInGrams"),
           Json.GetNum(j, "pricePerGram"), Json.GetNum(j, "totalPrice"))
    case (Some(name), Some(icon), Some(q), Some(p), Some(t)) => Some(BillItem(name, icon, q, p, t))
    case _ => None
  }

  /** Decoding an encoded line gives back all five fields. */
  lemma ItemRoundTrip(item: BillItem)
    ensures ItemFromJson(ItemToJson(item)) == Some(item)
  {
    var fs := ItemToJson(item).fields;
    assert Seqs.NoDuplicates(ItemKeys);
    Json.LookupDistinct(fs, 0);
    Json.LookupDistinct(fs, 1);
    Json.LookupDistinct(fs, 2);
    Json.LookupDistinct(fs, 3);
    Json.LookupDistinct(fs, 4);
  }

  /** `items.map(item => item.toJSON())`. */
  function ItemsToJson(items: seq<BillItem>): (js: seq<Json.Value>)
    ensures |js| == |items|
    ensures forall i :: 0 <= i < |items| ==> js[i] == ItemToJson(items[i])
  {
    seq(|items|, i requires 0 <= i < |items| => ItemToJson(items[i]))
  }

  /** `data.items.map(item => BillItem.fromJSON(item))`. */
  function ItemsFromJson(js: seq<Json.Value>): (r: Option<seq<BillItem>>)
    ensures r.Some? ==> |r.value| == |js|
  {
    if js == [] then Some([])
    else
      match (ItemFromJson(js[0]), ItemsFromJson(js[1..]))
      case (Some(item), Some(rest)) => Some([item] + rest)
      case _ => None
  }

  lemma ItemsToJsonTail(items: seq<BillItem>)
    requires items != []
    ensures ItemsToJson(items)[1..] == ItemsToJson(items[1..])
  {
    var l, r := ItemsToJson(items)[1..], ItemsToJson(items[1..]);
    forall i | 0 <= i < |l| ensures l[i] == r[i] {
      assert items[1..][i] == items[i + 1];
    }
  }

  /** Decoding the encoded lines gives back every line, in order. */
  lemma {:induction false} ItemsRoundTrip(items: seq<BillItem>)
    ensures ItemsFromJson(ItemsToJson(items)) == Some(items)
  {
    if items != [] {
      ItemsToJsonTail(items);
      ItemRoundTrip(items[0]);
      ItemsRoundTrip(items[1..]);
      assert items == [items[0]] + items[1..];
    }
  }

  const RecordKeys: seq<string> :=
    ["id", "timestamp", "items", "subtotal", "discount", "totalAmount", "paymentMethod", "notes"]

  /** `BillRecord.toJSON`; `toIso` is `Date.prototype.toISOString`, which is not part of this
      model. The lines are encoded one by one, in order. */
  function RecordToJson(b: BillRecord, toIso: int -> string): (j: Json.Value)
    ensures j.Obj? && Json.Keys(j.fields) == RecordKeys
    ensures Json.Get(j, "items") == Some(Json.Arr(ItemsToJson(b.items)))
  {
    var fields := [
      ("id", Json.Str(b.id)),
      ("timestamp", Json.Str(toIso(b.timestamp))),
      ("items", Json.Arr(ItemsToJson(b.items))),
      ("subtotal", Json.Num(b.subtotal)),
      ("discount", Json.Num(b.discount)),
      ("totalAmount", Json.Num(b.totalAmount)),
      ("paymentMethod", Json.Str(b.paymentMethod)),
      ("notes", Json.Str(b.notes))];
    assert Json.Keys(fields) == RecordKeys;
    Json.LookupAt(fields, 2);
    Json.Obj(fields)
  }

  /** `BillRecord.fromJSON`; `parseDate` is `new Date(string)`, which is not part of this model.
      Absent `notes` take the constructor's default; other missing or ill-typed fields give `None`. */
  function RecordFromJson(j: Json.Value, parseDate: string -> Option<int>): Option<BillRecord>
  {
    var notes := match Json.Get(j, "notes")
                 case None => Some("")
                 case Some(Str(n)) => Some(n)
                 case Some(_) => None;
    var items := match Json.Get(j, "items")
                 case Some(Arr(js)) => ItemsFromJson(js)
                 case _ => None;
    var timestamp := match Json.GetStr(j, "timestamp")
                     case Some(iso) => parseDate(iso)
                     case None => None;
    match (Json.GetStr(j, "id"), timestamp, items, Json.GetNum(j, "subtotal"), Json.GetNum(j, "discount"),
           Json.GetNum(j, "totalAmount"), Json.GetStr(j, "paymentMethod"), notes)
    case (Some(id), Some(ts), Some(lines), Some(sub), Some(disc), Some(total), Some(pm), Some(ns)) =>
      Some(BillRecord(id, ts, lines, sub, disc, total, pm, ns))
    case _ => None
  }

  lemma RecordKeysDistinct()
    ensures Seqs.NoDuplicates(RecordKeys)
  {
  }

  /** The `k`-th property of an encoded bill is found under its own name. */
  lemma RecordLookup(b: BillRecord, toIso: int -> string, k: nat)
    requires k < |RecordKeys|
    ensures Json.Lookup(RecordToJson(b, toIso).fields, RecordKeys[k]) == Some(RecordToJson(b, toIso).fields[k].1)
  {
    RecordKeysDistinct();
    Json.LookupDistinct(RecordToJson(b, toIso).fields, k);
  }

  /** The id of an encoded bill reads back as the bill's id. */
  lemma RecordIdReadBack(b: BillRecord, toIso: int -> string)
    ensures Json.GetStr(RecordToJson(b, toIso), "id") == Some(b.id)
  {
    RecordLookup(b, toIso, 0);
  }

  /** The timestamp of an encoded bill reads back as the string `toIso` wrote. */
  lemma RecordTimestampReadBack(b: BillRecord, toIso: int -> string)
    ensures Json.GetStr(RecordToJson(b, toIso), "timestamp") == Some(toIso(b.timestamp))
  {
    RecordLookup(b, toIso, 1);
  }

  /** The payment method and notes of an encoded bill read back as the fields they came from. */
  lemma RecordTextsReadBack(b: BillRecord, toIso: int -> string)
    ensures var j := RecordToJson(b, toIso);
      && Json.GetStr(j, "paymentMethod") == Some(b.paymentMethod)
      && Json.Get(j, "notes") == Some(Str(b.notes))
  {
    RecordLookup(b, toIso, 6);
    RecordLookup(b, toIso, 7);
  }

  /** The numeric properties of an encoded bill read back as the fields they came from. */
  lemma RecordNumbersReadBack(b: BillRecord, toIso: int -> string)
    ensures var j := RecordToJson(b, toIso);
      && Json.GetNum(j, "subtotal") == Some(b.subtotal)
      && Json.GetNum(j, "discount") == Some(b.discount)
      && Json.GetNum(j, "totalAmount") == Some(b.totalAmount)
  {
    RecordLookup(b, toIso, 3);
    RecordLookup(b, toIso, 4);
    RecordLookup(b, toIso, 5);
  }

  /** Decoding an encoded bill restores every field, provided the date parser reads back what
      `toIso` wrote for this bill's timestamp. */
  lemma RecordRoundTrip(b: BillRecord, toIso: int -> string, parseDate: string -> Option<int>)
    requires parseDate(toIso(b.timestamp)) == Some(b.timestamp)
    ensures RecordFromJson(RecordToJson(b, toIso), parseDate) == Some(b)
  {
    RecordIdReadBack(b, toIso);
    RecordTimestampReadBack(b, toIso);
    RecordTextsReadBack(b, toIso);
    RecordNumbersReadBack(b, toIso);
    ItemsRoundTrip(b.items);
  }
}
