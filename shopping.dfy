/**
 * The shopping list: its entries, the four updates the list screen offers
 * (add, toggle, delete, change quantity), the amount formatter and the text
 * exported to a notes application. Entry ids and the current date are
 * supplied by the caller.
 */
module Shopping {
  import opened Inventory

  /** One shopping-list entry (`ShoppingItem`). */
  datatype ShoppingItem = ShoppingItem(
    id: string,
    name: string,
    quantity: real,
    unit: string,
    isChecked: bool,
    addedDate: string)

  /** `INITIAL_SHOPPING_LIST`. */
  const InitialShoppingList: seq<ShoppingItem> := [
    ShoppingItem("s1", "醤油", 1.0, "本", false, "2023-10-25"),
    ShoppingItem("s2", "マヨネーズ", 1.0, "本", false, "2023-10-26")
  ]

  /** `prev.some(item => item.name === itemName)`. */
  predicate HasName(list: seq<ShoppingItem>, name: string)
  {
    exists i :: 0 <= i < |list| && list[i].name == name
  }

  /** No two entries share a name. */
  predicate DistinctNames(list: seq<ShoppingItem>)
  {
    forall i, j :: 0 <= i < j < |list| ==> list[i].name != list[j].name
  }

  /**
   * The `addToShoppingList` updater: a name already on the list leaves the
   * list as it is; otherwise one unchecked entry is appended.
   */
  function WithAdded(list: seq<ShoppingItem>, id: string, name: string, quantity: real, unit: string, today: string)
    : (r: seq<ShoppingItem>)
    ensures HasName(list, name) ==> r == list
    ensures |r| == if HasName(list, name) then |list| else |list| + 1
  {
    if HasName(list, name) then list
    else list + [ShoppingItem(id, name, quantity, unit, false, today)]
  }

  /** One entry under `toggleShoppingItem`: the matching id has its check mark flipped. */
  function ToggleOne(item: ShoppingItem, id: string): ShoppingItem
  {
    if item.id == id then item.(isChecked := !item.isChecked) else item
  }

  /** The `toggleShoppingItem` updater, entry by entry. */
  function Toggled(list: seq<ShoppingItem>, id: string): (r: seq<ShoppingItem>)
    ensures |r| == |list|
  {
    if list == [] then []
    else Toggled(list[..|list| - 1], id) + [ToggleOne(list[|list| - 1], id)]
  }

  /** `Math.max(1, quantity)`. */
  function AtLeastOne(quantity: real): real
  {
    if quantity < 1.0 then 1.0 else quantity
  }

  /** One entry under `updateShoppingItemQuantity`: the matching id gets `max(1, quantity + delta)`. */
  function ShiftOne(item: ShoppingItem, id: string, delta: real): ShoppingItem
  {
    if item.id == id then item.(quantity := AtLeastOne(item.quantity + delta)) else item
  }

  /** The `updateShoppingItemQuantity` updater, entry by entry. */
  function QuantityShifted(list: seq<ShoppingItem>, id: string, delta: real): (r: seq<ShoppingItem>)
    ensures |r| == |list|
  {
    if list == [] then []
    else QuantityShifted(list[..|list| - 1], id, delta) + [ShiftOne(list[|list| - 1], id, delta)]
  }

  /** The `deleteShoppingItem` updater: the entries whose id differs, in list order. */
  function Deleted(list: seq<ShoppingItem>, id: string): (r: seq<ShoppingItem>)
    ensures |r| <= |list|
  {
    if list == [] then []
    else
      var last := list[|list| - 1];
      Deleted(list[..|list| - 1], id) + (if last.id != id then [last] else [])
  }

  /**
   * The list held by the shopping screen. Every update keeps the entries'
   * names distinct, since adding rejects a name that is already listed and
   * the other updates never rename an entry.
   */
  class ShoppingList {
    var items: seq<ShoppingItem>

    predicate Valid()
      reads this
    {
      DistinctNames(items)
    }

    /** The list starts as `INITIAL_SHOPPING_LIST`. */
    constructor ()
      ensures items == InitialShoppingList && Valid()
    {
      items := InitialShoppingList;
    }

    /** `addToShoppingList`; `added` is false when the name was already listed (the duplicate toast). */
    method Add(id: string, name: string, quantity: real, unit: string, today: string) returns (added: bool)
      requires Valid()
      modifies this
      ensures items == WithAdded(old(items), id, name, quantity, unit, today)
      ensures added <==> !HasName(old(items), name)
      ensures HasName(items, name) && Valid()
    {
      AddedNameIsListed(items, id, name, quantity, unit, today);
      AddKeepsNamesDistinct(items, id, name, quantity, unit, today);
      added := !HasName(items, name);
      items := WithAdded(items, id, name, quantity, unit, today);
    }

    /** `toggleShoppingItem`. */
    method Toggle(id: string)
      requires Valid()
      modifies this
      ensures items == Toggled(old(items), id) && Valid()
    {
      forall i | 0 <= i < |items| {
        ToggledAt(items, id, i);
      }
      items := Toggled(items, id);
    }

    /** `deleteShoppingItem`. */
    method Delete(id: string)
      requires Valid()
      modifies this
      ensures items == Deleted(old(items), id) && Valid()
    {
      DeleteKeepsNamesDistinct(items, id);
      items := Deleted(items, id);
    }

    /** `updateShoppingItemQuantity`. */
    method UpdateQuantity(id: string, delta: real)
      requires Valid()
      modifies this
      ensures items == QuantityShifted(old(items), id, delta) && Valid()
    {
      forall i | 0 <= i < |items| {
        QuantityShiftedAt(items, id, delta, i);
      }
      items := QuantityShifted(items, id, delta);
    }
  }

  /** After an add the name is on the list, whether it was appended or already there. */
  lemma AddedNameIsListed(list: seq<ShoppingItem>, id: string, name: string, quantity: real, unit: string, today: string)
    ensures HasName(WithAdded(list, id, name, quantity, unit, today), name)
  {
    if !HasName(list, name) {
      assert WithAdded(list, id, name, quantity, unit, today)[|list|].name == name;
    }
  }

  /**
   * A new name is appended as exactly one unchecked entry carrying the given
   * id, quantity, unit and date, after the unchanged old entries.
   */
  lemma AddAppendsOneUncheckedEntry(list: seq<ShoppingItem>, id: string, name: string, quantity: real, unit: string, today: string)
    requires !HasName(list, name)
    ensures var r := WithAdded(list, id, name, quantity, unit, today);
      && r[..|list|] == list
      && r[|list|].id == id && r[|list|].name == name && !r[|list|].isChecked
      && r[|list|].quantity == quantity && r[|list|].unit == unit && r[|list|].addedDate == today
  {
    assert (list + [ShoppingItem(id, name, quantity, unit, false, today)])[..|list|] == list;
  }

  /** Adding a name twice has the effect of adding it once: the second add is rejected. */
  lemma AddIsIdempotent(list: seq<ShoppingItem>, id: string, name: string, quantity: real, unit: string, today: string,
                        id2: string, quantity2: real, unit2: string, today2: string)
    ensures var once := WithAdded(list, id, name, quantity, unit, today);
      WithAdded(once, id2, name, quantity2, unit2, today2) == once
  {
    AddedNameIsListed(list, id, name, quantity, unit, today);
  }

  /** Adding keeps the names distinct. */
  lemma AddKeepsNamesDistinct(list: seq<ShoppingItem>, id: string, name: string, quantity: real, unit: string, today: string)
    requires DistinctNames(list)
    ensures DistinctNames(WithAdded(list, id, name, quantity, unit, today))
  {
    if !HasName(list, name) {
      var r := WithAdded(list, id, name, quantity, unit, today);
      forall i, j | 0 <= i < j < |r| ensures r[i].name != r[j].name {
        if j == |list| {
          assert r[i] == list[i];
        } else {
          assert r[i] == list[i] && r[j] == list[j];
        }
      }
    }
  }

  /** Toggling flips the check mark of the entries with the given id and leaves every other entry and field alone. */
  lemma {:induction false} ToggledAt(list: seq<ShoppingItem>, id: string, i: int)
    requires 0 <= i < |list|
    ensures var r := Toggled(list, id)[i];
      && (list[i].id == id ==> r == list[i].(isChecked := !list[i].isChecked))
      && (list[i].id != id ==> r == list[i])
  {
    if i < |list| - 1 {
      ToggledAt(list[..|list| - 1], id, i);
    }
  }

  /** Toggling the same id twice restores the list. */
  lemma ToggleTwiceRestores(list: seq<ShoppingItem>, id: string)
    ensures Toggled(Toggled(list, id), id) == list
  {
    var once := Toggled(list, id);
    forall i | 0 <= i < |list| ensures Toggled(once, id)[i] == list[i] {
      ToggledAt(list, id, i);
      ToggledAt(once, id, i);
    }
  }

  /** Changing the quantity touches only the entries with the given id, and gives them `max(1, quantity + delta)`. */
  lemma {:induction false} QuantityShiftedAt(list: seq<ShoppingItem>, id: string, delta: real, i: int)
    requires 0 <= i < |list|
    ensures var r := QuantityShifted(list, id, delta)[i];
      && (list[i].id == id ==>
            r == list[i].(quantity := r.quantity)
            && r.quantity >= 1.0 && r.quantity >= list[i].quantity + delta
            && (r.quantity == 1.0 || r.quantity == list[i].quantity + delta))
      && (list[i].id != id ==> r == list[i])
  {
    if i < |list| - 1 {
      QuantityShiftedAt(list[..|list| - 1], id, delta, i);
    }
  }

  /** Deleting keeps exactly the entries whose id differs. */
  lemma {:induction false} DeletedMembers(list: seq<ShoppingItem>, id: string, x: ShoppingItem)
    ensures x in Deleted(list, id) <==> x in list && x.id != id
  {
    if list != [] {
      var front := list[..|list| - 1];
      DeletedMembers(front, id, x);
      assert list == front + [list[|list| - 1]];
    }
  }

  /** Deleting keeps the surviving entries in list order. */
  lemma {:induction false} DeletedInOrder(list: seq<ShoppingItem>, id: string)
    ensures IsSubsequence(Deleted(list, id), list)
  {
    if list != [] {
      var front := list[..|list| - 1];
      var last := list[|list| - 1];
      DeletedInOrder(front, id);
      assert list == front + [last];
      assert Deleted(list, id) == if last.id != id then Deleted(front, id) + [last] else Deleted(front, id);
      SubsequenceExtend(Deleted(front, id), front, last, last.id != id);
    }
  }

  /** Deleting keeps the names distinct. */
  lemma {:induction false} DeleteKeepsNamesDistinct(list: seq<ShoppingItem>, id: string)
    requires DistinctNames(list)
    ensures DistinctNames(Deleted(list, id))
  {
    if list != [] {
      var front := list[..|list| - 1];
      var last := list[|list| - 1];
      assert DistinctNames(front) by {
        forall i, j | 0 <= i < j < |front| ensures front[i].name != front[j].name {
          assert front[i] == list[i] && front[j] == list[j];
        }
      }
      DeleteKeepsNamesDistinct(front, id);
      var r := Deleted(front, id);
      if last.id != id {
        forall i | 0 <= i < |r| ensures r[i].name != last.name {
          DeletedMembers(front, id, r[i]);
          var j :| 0 <= j < |front| && front[j] == r[i];
          assert list[j] == front[j];
        }
      }
    }
  }

  /** The units `formatAmountStr` prints without an amount. */
  const NonNumericUnits: seq<string> := ["少々", "適量", "お好みで", "ひとつまみ", "適宜"]

  /**
   * `formatAmountStr`: a qualitative unit alone, otherwise the amount
   * followed by the unit. `show` is JavaScript's number-to-string conversion.
   */
  function FormatAmount(amount: real, unit: string, show: real -> string): (r: string)
    ensures |unit| <= |r| && r[|r| - |unit|..] == unit
  {
    if unit in NonNumericUnits then unit else show(amount) + unit
  }

  /** A qualitative unit prints the same whatever the amount; any other unit shows the amount first. */
  lemma FormatAmountCases(amount: real, other: real, unit: string, show: real -> string)
    ensures unit in NonNumericUnits ==> FormatAmount(amount, unit, show) == FormatAmount(other, unit, show) == unit
    ensures unit !in NonNumericUnits ==> FormatAmount(amount, unit, show)[..|show(amount)|] == show(amount)
  {
  }

  /** One exported line: a bullet, the name, a space and the formatted amount. */
  function ExportLine(item: ShoppingItem, show: real -> string): (line: string)
    ensures |line| > 0 && line[0] == '・'
  {
    "・" + item.name + " " + FormatAmount(item.quantity, item.unit, show)
  }

  /** The unchecked entries, in list order. */
  function Unchecked(list: seq<ShoppingItem>): seq<ShoppingItem>
  {
    if list == [] then []
    else
      var last := list[|list| - 1];
      Unchecked(list[..|list| - 1]) + (if !last.isChecked then [last] else [])
  }

  /** `filter(i => !i.isChecked).map(...)`: one line per unchecked entry. */
  function ExportLines(list: seq<ShoppingItem>, show: real -> string): seq<string>
  {
    if list == [] then []
    else
      var last := list[|list| - 1];
      ExportLines(list[..|list| - 1], show) + (if !last.isChecked then [ExportLine(last, show)] else [])
  }

  /** JavaScript's `Array.prototype.join`. */
  function Join(lines: seq<string>, sep: string): string
  {
    if lines == [] then ""
    else if |lines| == 1 then lines[0]
    else Join(lines[..|lines| - 1], sep) + sep + lines[|lines| - 1]
  }

  /** `exportToKeep`'s text. */
  function ExportText(list: seq<ShoppingItem>, show: real -> string): string
  {
    Join(ExportLines(list, show), "\n")
  }

  /** The exported lines are the unchecked entries' lines, one each, in list order. */
  lemma {:induction false} ExportLinesFollowUnchecked(list: seq<ShoppingItem>, show: real -> string)
    ensures |ExportLines(list, show)| == |Unchecked(list)|
    ensures forall i :: 0 <= i < |Unchecked(list)| ==> ExportLines(list, show)[i] == ExportLine(Unchecked(list)[i], show)
  {
    if list != [] {
      ExportLinesFollowUnchecked(list[..|list| - 1], show);
    }
  }

  /** An entry is exported exactly when it is on the list and unchecked. */
  lemma {:induction false} UncheckedMembers(list: seq<ShoppingItem>, x: ShoppingItem)
    ensures x in Unchecked(list) <==> x in list && !x.isChecked
  {
    if list != [] {
      var front := list[..|list| - 1];
      UncheckedMembers(front, x);
      assert list == front + [list[|list| - 1]];
    }
  }

  /** The joined text is at least as long as its last line. */
  lemma JoinEndsWithLastLine(lines: seq<string>, sep: string)
    requires lines != []
    ensures |Join(lines, sep)| >= |lines[|lines| - 1]|
  {
  }

  /** The exported text is empty exactly when every entry is checked. */
  lemma {:induction false} ExportEmptyIff(list: seq<ShoppingItem>, show: real -> string)
    ensures ExportText(list, show) == "" <==> forall i :: 0 <= i < |list| ==> list[i].isChecked
  {
    ExportLinesFollowUnchecked(list, show);
    var lines := ExportLines(list, show);
    if forall i :: 0 <= i < |list| ==> list[i].isChecked {
      assert Unchecked(list) == [] by {
        if Unchecked(list) != [] {
          var x := Unchecked(list)[0];
          UncheckedMembers(list, x);
        }
      }
    } else {
      var i :| 0 <= i < |list| && !list[i].isChecked;
      UncheckedMembers(list, list[i]);
      JoinEndsWithLastLine(lines, "\n");
    }
  }
}
