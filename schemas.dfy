/** The document schemas of `models/schemas.js`: the enumerations, bounds, length limits,
    defaults and `trim` setters the document store applies when it builds and saves a menu
    item or a bill, stated as validity predicates and default-filling functions. */
module Schemas {
  import opened Wrappers
  import opened Bill
  import Seqs

  const MenuCategories: seq<string> := ["Main Dish", "Beverages", "Desserts", "Snacks", "Other"]
  const PaymentMethods: seq<string> := ["cash", "upi", "card", "check", "other"]
  const BillStatuses: seq<string> := ["pending", "completed", "cancelled"]

  const DefaultPaymentMethod: string := "cash"
  const DefaultStatus: string := "completed"
  /** The plate-with-cutlery emoji followed by variation selector 16. */
  const DefaultIcon: string := "\U{1F37D}\U{FE0F}"

  const NameMaxLength: nat := 100
  const DescriptionMaxLength: nat := 500
  const NotesMaxLength: nat := 500
  const PriceMax: real := 99999.0
  const MinQuantityInGrams: real := 1.0

  // ---------------------------------------------------------------------------
  // The `trim` setter

  /** The characters `String.prototype.trim` removes: white space and line terminators. */
  predicate IsJsWhitespace(c: char) {
    || c == ' ' || c == '\t' || c == '\n' || c == '\r'
    || c == '\U{000B}' || c == '\U{000C}' || c == '\U{00A0}' || c == '\U{1680}'
    || ('\U{2000}' <= c <= '\U{200A}')
    || c == '\U{2028}' || c == '\U{2029}' || c == '\U{202F}' || c == '\U{205F}'
    || c == '\U{3000}' || c == '\U{FEFF}'
  }

  /** Drops leading white space. */
  function TrimStart(s: string): (r: string)
    ensures |r| <= |s| && r == s[|s| - |r|..]
    ensures forall i :: 0 <= i < |s| - |r| ==> IsJsWhitespace(s[i])
    ensures r == "" || !IsJsWhitespace(r[0])
  {
    if s != "" && IsJsWhitespace(s[0]) then TrimStart(s[1..]) else s
  }

  /** Drops trailing white space. */
  function TrimEnd(s: string): (r: string)
    ensures |r| <= |s| && r == s[..|r|]
    ensures forall i :: |r| <= i < |s| ==> IsJsWhitespace(s[i])
    ensures r == "" || !IsJsWhitespace(r[|r| - 1])
  {
    if s != "" && IsJsWhitespace(s[|s| - 1]) then TrimEnd(s[..|s| - 1]) else s
  }

  /** How many leading characters `trim` removes. */
  function TrimOffset(s: string): (k: nat)
    ensures k <= |s|
  {
    |s| - |TrimStart(s)|
  }

  /** `String.prototype.trim`: the infix of `s` left after removing white space at both ends;
      it neither starts nor ends with white space, and everything removed is white space. */
  function Trim(s: string): (r: string)
    ensures |r| <= |s| - TrimOffset(s)
    ensures r == s[TrimOffset(s)..TrimOffset(s) + |r|]
    ensures r == "" || (!IsJsWhitespace(r[0]) && !IsJsWhitespace(r[|r| - 1]))
    ensures forall i :: 0 <= i < TrimOffset(s) ==> IsJsWhitespace(s[i])
    ensures forall i :: TrimOffset(s) + |r| <= i < |s| ==> IsJsWhitespace(s[i])
  {
    var t := TrimStart(s);
    var r := TrimEnd(t);
    var k := |s| - |t|;
    assert r == s[k..k + |r|];
    forall i | k + |r| <= i < |s| ensures IsJsWhitespace(s[i]) {
      assert s[i] == t[i - k];
    }
    r
  }

  /** Trimming twice is trimming once. */
  lemma TrimIdempotent(s: string)
    ensures Trim(Trim(s)) == Trim(s)
  {
    var r := Trim(s);
    if r != "" {
      assert TrimStart(r) == r;
      assert TrimEnd(r) == r;
    }
  }

  // ---------------------------------------------------------------------------
  // Menu items

  /** A stored menu item. Stock is not a declared field of the schema and is not part of it. */
  datatype MenuDoc = MenuDoc(
    id: string,
    name: string,
    category: string,
    price: real,
    description: string,
    icon: string,
    available: bool)

  /** The constraints every saved menu item satisfies. */
  predicate ValidMenuDoc(d: MenuDoc) {
    && d.id != ""
    && d.name != "" && |d.name| <= NameMaxLength
    && d.category in MenuCategories
    && 0.0 <= d.price <= PriceMax
    && |d.description| <= DescriptionMaxLength
  }

  /** The properties supplied when a menu item document is created; `None` is an absent property. */
  datatype MenuInput = MenuInput(
    id: Option<string>,
    name: Option<string>,
    category: Option<string>,
    price: Option<real>,
    description: Option<string>,
    icon: Option<string>,
    available: Option<bool>)

  /** The document a menu input becomes before validation: `freshId` is the generated default
      id; an absent description defaults to the empty string, an absent icon to the plate emoji
      and an absent `available` to true; name and description are trimmed. An absent required
      property is carried as an empty string or 0 here; `MenuViolations` reports it. */
  function FillMenuDefaults(inp: MenuInput, freshId: string): MenuDoc
  {
    MenuDoc(
      match inp.id case Some(x) => x case None => freshId,
      match inp.name case Some(x) => Trim(x) case None => "",
      match inp.category case Some(x) => x case None => "",
      match inp.price case Some(x) => x case None => 0.0,
      match inp.description case Some(x) => Trim(x) case None => "",
      match inp.icon case Some(x) => x case None => DefaultIcon,
      match inp.available case Some(x) => x case None => true)
  }

  /** The paths whose validator rejects the input. */
  function MenuViolations(inp: MenuInput, freshId: string): set<string>
  {
    var d := FillMenuDefaults(inp, freshId);
    (if d.id == "" then {"id"} else {})
    + (if d.name == "" || |d.name| > NameMaxLength then {"name"} else {})
    + (if d.category !in MenuCategories then {"category"} else {})
    + (if inp.price.None? || !(0.0 <= d.price <= PriceMax) then {"price"} else {})
    + (if |d.description| > DescriptionMaxLength then {"description"} else {})
  }

  /** Builds and validates a menu item document, as `new MenuItem({...})` followed by `save()`. */
  function NewMenuDoc(inp: MenuInput, freshId: string): (r: Result<MenuDoc, set<string>>)
    ensures r.Failure? ==> r.error != {}
    ensures r.Success? ==> ValidMenuDoc(r.value) && r.value == FillMenuDefaults(inp, freshId)
  {
    var v := MenuViolations(inp, freshId);
    if v != {} then Failure(v) else Success(FillMenuDefaults(inp, freshId))
  }

  /** Creation succeeds exactly when the required price is present and the filled-in document
      satisfies `ValidMenuDoc` (an absent name or category fails `ValidMenuDoc` by itself). */
  lemma NewMenuDocAcceptsValid(inp: MenuInput, freshId: string)
    ensures NewMenuDoc(inp, freshId).Success? <==>
      inp.price.Some? && ValidMenuDoc(FillMenuDefaults(inp, freshId))
  {
  }

  /** An omitted description is the empty string, an omitted icon the plate emoji, and an item is
      available unless created with `available` false. */
  lemma MenuDefaults(inp: MenuInput, freshId: string)
    requires inp.description.None? && inp.icon.None? && inp.available.None?
    ensures var d := FillMenuDefaults(inp, freshId);
      d.description == "" && d.icon == DefaultIcon && d.available
  {
  }

  // ---------------------------------------------------------------------------
  // Bills

  /** A stored bill: the record, its status and the time of its last update. */
  datatype BillDoc = BillDoc(bill: BillRecord, status: string, updatedAt: int)

  /** The constraints every saved bill line satisfies. */
  predicate ValidBillItem(item: BillItem) {
    && item.itemName != ""
    && item.quantityInGrams >= MinQuantityInGrams
    && item.pricePerGram >= 0.0
    && item.totalPrice >= 0.0
  }

  /** The constraints every saved bill satisfies. */
  predicate ValidBillDoc(d: BillDoc) {
    && d.bill.id != ""
    && (forall item :: item in d.bill.items ==> ValidBillItem(item))
    && d.bill.subtotal >= 0.0
    && d.bill.discount >= 0.0
    && d.bill.totalAmount >= 0.0
    && d.bill.paymentMethod in PaymentMethods
    && |d.bill.notes| <= NotesMaxLength
    && d.status in BillStatuses
  }

  /** The properties supplied when a bill document is created; `None` is an absent property. */
  datatype BillInput = BillInput(
    items: seq<BillItem>,
    subtotal: Option<real>,
    discount: Option<real>,
    totalAmount: Option<real>,
    paymentMethod: Option<string>,
    notes: Option<string>,
    status: Option<string>)

  /** The document a bill input becomes before validation: defaults (`freshId`, the current time
      `now`, discount 0, payment method cash, empty notes, status completed) and `trim`. An
      absent required amount is carried as 0 here; `BillViolations` reports it. */
  function FillBillDefaults(inp: BillInput, freshId: string, now: int): BillDoc
  {
    BillDoc(
      BillRecord(
        freshId, now, inp.items,
        match inp.subtotal case Some(x) => x case None => 0.0,
        match inp.discount case Some(x) => x case None => 0.0,
        match inp.totalAmount case Some(x) => x case None => 0.0,
        match inp.paymentMethod case Some(x) => x case None => DefaultPaymentMethod,
        match inp.notes case Some(x) => Trim(x) case None => ""),
      match inp.status case Some(x) => x case None => DefaultStatus,
      now)
  }

  /** The paths whose validator rejects the input. */
  function BillViolations(inp: BillInput, freshId: string, now: int): set<string>
  {
    var d := FillBillDefaults(inp, freshId, now);
    (if d.bill.id == "" then {"id"} else {})
    + (if exists item :: item in inp.items && !ValidBillItem(item) then {"items"} else {})
    + (if inp.subtotal.None? || d.bill.subtotal < 0.0 then {"subtotal"} else {})
    + (if d.bill.discount < 0.0 then {"discount"} else {})
    + (if inp.totalAmount.None? || d.bill.totalAmount < 0.0 then {"totalAmount"} else {})
    + (if d.bill.paymentMethod !in PaymentMethods then {"paymentMethod"} else {})
    + (if |d.bill.notes| > NotesMaxLength then {"notes"} else {})
    + (if d.status !in BillStatuses then {"status"} else {})
  }

  /** Builds and validates a bill document, as `new BillRecord({...})` followed by `save()`. */
  function NewBillDoc(inp: BillInput, freshId: string, now: int): (r: Result<BillDoc, set<string>>)
    ensures r.Failure? ==> r.error != {}
    ensures r.Success? ==> ValidBillDoc(r.value) && r.value == FillBillDefaults(inp, freshId, now)
  {
    var v := BillViolations(inp, freshId, now);
    if v != {} then Failure(v) else Success(FillBillDefaults(inp, freshId, now))
  }

  /** Creation succeeds exactly when both required amounts are present and the filled-in
      document satisfies `ValidBillDoc`. */
  lemma NewBillDocAcceptsValid(inp: BillInput, freshId: string, now: int)
    ensures NewBillDoc(inp, freshId, now).Success? <==>
      inp.subtotal.Some? && inp.totalAmount.Some? && ValidBillDoc(FillBillDefaults(inp, freshId, now))
  {
  }

  /** Omitted discount, payment method, notes and status take their defaults: 0, cash, the empty
      string and completed; the creation time stamps both `timestamp` and `updatedAt`. */
  lemma BillDefaults(items: seq<BillItem>, subtotal: real, totalAmount: real, freshId: string, now: int)
    ensures var d := FillBillDefaults(BillInput(items, Some(subtotal), None, Some(totalAmount), None, None, None), freshId, now);
      && d.bill.discount == 0.0 && d.bill.paymentMethod == "cash" && d.bill.notes == ""
      && d.status == "completed" && d.bill.timestamp == now && d.updatedAt == now
  {
  }

  /** The update validators (`runValidators`): only the supplied paths are checked. */
  function UpdateViolations(u: BillUpdate): set<string>
  {
    (if u.id == Some("") then {"id"} else {})
    + (if u.items.Some? && exists item :: item in u.items.value && !ValidBillItem(item) then {"items"} else {})
    + (if u.subtotal.Some? && u.subtotal.value < 0.0 then {"subtotal"} else {})
    + (if u.discount.Some? && u.discount.value < 0.0 then {"discount"} else {})
    + (if u.totalAmount.Some? && u.totalAmount.value < 0.0 then {"totalAmount"} else {})
    + (if u.paymentMethod.Some? && u.paymentMethod.value !in PaymentMethods then {"paymentMethod"} else {})
    + (if u.notes.Some? && |Trim(u.notes.value)| > NotesMaxLength then {"notes"} else {})
    + (if u.status.Some? && u.status.value !in BillStatuses then {"status"} else {})
  }
}
