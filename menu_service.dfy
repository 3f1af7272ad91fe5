/** The in-memory catalog of services/menuService.js: filters and lookups over the module-level
    `menuItems` array of models/menu.js, and the push, index assignment and splice that change
    it. */
module MenuService {
  import opened Wrappers
  import opened Menu
  import Seqs

  function CategoryIs(category: string): MenuItem -> bool {
    (m: MenuItem) => m.category == category
  }

  function ItemIdIs(id: string): MenuItem -> bool {
    (m: MenuItem) => m.id == id
  }

  /** The categories of the items, in item order, with repetitions. */
  function Categories(items: seq<MenuItem>): (cs: seq<string>)
    ensures |cs| == |items|
    ensures forall i :: 0 <= i < |items| ==> cs[i] == items[i].category
  {
    seq(|items|, i requires 0 <= i < |items| => items[i].category)
  }

  /** The properties `updateMenuItem` may be given; `None` is an absent property. */
  datatype MenuUpdate = MenuUpdate(
    name: Option<string>,
    category: Option<string>,
    price: Option<real>,
    description: Option<string>,
    icon: Option<string>)

  /** The item `updateMenuItem` builds with `||` fallbacks: a supplied value replaces the stored
      one only when it is truthy (not "" and not 0); the id never changes. */
  function MergeMenuTruthy(item: MenuItem, id: string, u: MenuUpdate): MenuItem
  {
    MenuItem(
      id,
      if u.name.Some? && u.name.value != "" then u.name.value else item.name,
      if u.category.Some? && u.category.value != "" then u.category.value else item.category,
      if u.price.Some? && u.price.value != 0.0 then u.price.value else item.price,
      if u.description.Some? && u.description.value != "" then u.description.value else item.description,
      if u.icon.Some? && u.icon.value != "" then u.icon.value else item.icon)
  }

  /** A price of 0 cannot be set: the stored price stays. */
  lemma PriceZeroCannotBeSet(item: MenuItem, u: MenuUpdate)
    requires u.price == Some(0.0)
    ensures MergeMenuTruthy(item, item.id, u).price == item.price
  {
  }

  /** A truthy supplied value is stored; an absent or falsy one leaves the field as it was. */
  lemma MergeMenuFields(item: MenuItem, id: string, u: MenuUpdate)
    ensures var r := MergeMenuTruthy(item, id, u);
      && r.id == id
      && (r.name == if u.name.Some? && u.name.value != "" then u.name.value else item.name)
      && (r.price == if u.price.Some? && u.price.value != 0.0 then u.price.value else item.price)
      && (u == MenuUpdate(None, None, None, None, None) ==> r == item.(id := id))
  {
  }

  /** Applying the same update twice is applying it once. */
  lemma MergeMenuIdempotent(item: MenuItem, id: string, u: MenuUpdate)
    ensures MergeMenuTruthy(MergeMenuTruthy(item, id, u), id, u) == MergeMenuTruthy(item, id, u)
  {
  }

  /** The catalog service object over `menuItems`. */
  class MenuService {
    var menuItems: seq<MenuItem>

    /** At start-up the catalog holds the seed list. */
    constructor()
      ensures menuItems == SeedMenu
    {
      menuItems := SeedMenu;
    }

    /** `getItemsByCategory`: the items of exactly that category, in catalog order. */
    function GetItemsByCategory(category: string): (r: seq<MenuItem>)
      reads this
      ensures forall m :: m in r <==> m in menuItems && m.category == category
      ensures forall m :: multiset(r)[m] == if m.category == category then multiset(menuItems)[m] else 0
    {
      Seqs.Filter(menuItems, CategoryIs(category))
    }

    /** `getCategories`: the loop adds each item's category to an insertion-ordered set. */
    method GetCategories() returns (categories: seq<string>)
      ensures categories == Seqs.Distinct(Categories(menuItems))
      ensures Seqs.NoDuplicates(categories)
      ensures forall c :: c in categories <==> exists m :: m in menuItems && m.category == c
      ensures forall i, j :: 0 <= i < j < |categories| ==>
        Seqs.IndexOf(Categories(menuItems), categories[i]) < Seqs.IndexOf(Categories(menuItems), categories[j])
    {
      categories := [];
      var i := 0;
      while i < |menuItems|
        invariant 0 <= i <= |menuItems|
        invariant categories == Seqs.Distinct(Categories(menuItems[..i]))
      {
        var c := menuItems[i].category;
        if c !in categories {
          categories := categories + [c];
        }
        assert Categories(menuItems[..i + 1]) == Categories(menuItems[..i]) + [c];
        Seqs.DistinctSnoc(Categories(menuItems[..i]), c);
        i := i + 1;
      }
      assert menuItems[..i] == menuItems;
      forall c | c in categories ensures exists m :: m in menuItems && m.category == c {
        var k :| 0 <= k < |menuItems| && Categories(menuItems)[k] == c;
        assert menuItems[k] in menuItems;
      }
      forall c | exists m :: m in menuItems && m.category == c ensures c in categories {
        var m :| m in menuItems && m.category == c;
        var k :| 0 <= k < |menuItems| && menuItems[k] == m;
        assert Categories(menuItems)[k] == c;
      }
      forall i, j | 0 <= i < j < |categories|
        ensures Seqs.IndexOf(Categories(menuItems), categories[i]) < Seqs.IndexOf(Categories(menuItems), categories[j])
      {
        Seqs.DistinctFirstOccurrenceOrder(Categories(menuItems), i, j);
      }
    }

    /** `getMenuItemById`: the first item with that id, or null. */
    function GetMenuItemById(id: string): (r: Option<MenuItem>)
      reads this
      ensures r.None? <==> forall m :: m in menuItems ==> m.id != id
      ensures r.Some? ==> r.value.id == id && exists k :: (0 <= k < |menuItems| && menuItems[k] == r.value
                                                       && forall j :: 0 <= j < k ==> menuItems[j].id != id)
    {
      var k := Seqs.FirstIndex(menuItems, ItemIdIs(id));
      if k < 0 then None else Some(menuItems[k])
    }

    /** `addMenuItem`: a new item with the given fields under `newId` (standing for
        `item_${Date.now()}`), appended to the catalog. */
    method AddMenuItem(name: string, category: string, price: real, description: string, icon: string,
                       newId: string)
      returns (newItem: MenuItem)
      modifies this
      ensures newItem == MenuItem(newId, name, category, price, description, icon)
      ensures menuItems == old(menuItems) + [newItem]
      ensures old(GetMenuItemById(newId)).None? ==> GetMenuItemById(newId) == Some(newItem)
    {
      newItem := MenuItem(newId, name, category, price, description, icon);
      menuItems := menuItems + [newItem];
    }

    /** `updateMenuItem`: null and no change for an unknown id; otherwise the first item with
        that id is replaced, in its place, by its truthy merge with the update. */
    method UpdateMenuItem(id: string, updates: MenuUpdate) returns (r: Option<MenuItem>)
      modifies this
      ensures (forall m :: m in old(menuItems) ==> m.id != id) ==> r.None? && menuItems == old(menuItems)
      ensures old(GetMenuItemById(id)).Some? ==>
        var k := Seqs.FirstIndex(old(menuItems), ItemIdIs(id));
        && 0 <= k
        && r == Some(MergeMenuTruthy(old(menuItems)[k], id, updates))
        && menuItems == old(menuItems)[k := r.value]
    {
      var itemIndex := Seqs.FirstIndex(menuItems, ItemIdIs(id));
      if itemIndex == -1 {
        return None;
      }
      var item := menuItems[itemIndex];
      var updatedItem := MergeMenuTruthy(item, id, updates);
      menuItems := menuItems[itemIndex := updatedItem];
      r := Some(updatedItem);
    }

    /** `deleteMenuItem`: false and no change for an unknown id; otherwise the first item with
        that id is spliced out and the others keep their order. */
    method DeleteMenuItem(id: string) returns (deleted: bool)
      modifies this
      ensures deleted <==> exists m :: m in old(menuItems) && m.id == id
      ensures !deleted ==> menuItems == old(menuItems)
      ensures deleted ==>
        var k := Seqs.FirstIndex(old(menuItems), ItemIdIs(id));
        && 0 <= k
        && old(menuItems)[k].id == id
        && menuItems == old(menuItems)[..k] + old(menuItems)[k + 1..]
        && |menuItems| == |old(menuItems)| - 1
    {
      var index := Seqs.FirstIndex(menuItems, ItemIdIs(id));
      if index == -1 {
        return false;
      }
      menuItems := Seqs.RemoveAt(menuItems, index);
      return true;
    }
  }
}
