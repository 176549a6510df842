/**
 * The inventory list view's derived data: the display list with shortage
 * placeholders (`displayItems`), the mode filter (`filteredItems`), the card
 * colour (`getStatusColor`) and whether a card offers the delete action.
 */
module Display {
  import opened Inventory
  import opened Text
  import Emoji
  import Stock
  import Status

  /** `FilterMode`: 'all' | 'expired' | 'near' | 'lowStock'. */
  datatype FilterMode = All | Expired | Near | LowStock

  /** The low-stock keys that no record uses, in low-stock order. */
  function MissingNames(items: seq<FoodItem>, lowStock: seq<string>): seq<string>
  {
    if lowStock == [] then []
    else
      var name := lowStock[|lowStock| - 1];
      MissingNames(items, lowStock[..|lowStock| - 1]) + (if KeyUsed(items, name) then [] else [name])
  }

  /** The display-only record that stands for a fully depleted low-stock key. */
  function Placeholder(name: string, table: Emoji.KeywordTable): (p: FoodItem)
    ensures Key(p) == name && p.quantity == 0.0 && p.expiryDate == "" && p.location == ""
    ensures p.category == Other && p.id == "temp-" + name
  {
    FoodItem("temp-" + name, name, Ambient, Other, name, "", "", 0.0, "個", "", Emoji.KeywordGlyph(name, table))
  }

  /** One placeholder per name, in order. */
  function Placeholders(names: seq<string>, table: Emoji.KeywordTable): (ps: seq<FoodItem>)
    ensures |ps| == |names| && forall j :: 0 <= j < |names| ==> ps[j] == Placeholder(names[j], table)
  {
    if names == [] then []
    else Placeholders(names[..|names| - 1], table) + [Placeholder(names[|names| - 1], table)]
  }

  /**
   * `displayItems`: in low-stock mode the records are followed by one
   * placeholder per low-stock key that no record uses; in any other mode the
   * list is the records themselves.
   */
  function DisplayItems(items: seq<FoodItem>, mode: FilterMode, lowStock: seq<string>,
                        table: Emoji.KeywordTable): (r: seq<FoodItem>)
    ensures mode != LowStock ==> r == items
    ensures mode == LowStock ==> |r| == |items| + |MissingNames(items, lowStock)| && r[..|items|] == items
  {
    if mode == LowStock then items + Placeholders(MissingNames(items, lowStock), table)
    else items
  }

  /** The card's delete button: hidden for an id that is 'temp' or starts with 'temp'. */
  predicate ShowsDeleteAction(item: FoodItem)
  {
    item.id != "temp" && !("temp" <= item.id)
  }

  /** The `filteredItems` predicate; `storageFilter` is `None` for the 'all' storage tab. */
  predicate Visible(item: FoodItem, mode: FilterMode, storageFilter: Option<Storage>,
                    lowStock: seq<string>, today: string, threeDaysLater: string)
  {
    match mode
    case LowStock => Key(item) in lowStock
    case Expired => Less(item.expiryDate, today) && item.quantity > 0.0
    case Near => AtMost(today, item.expiryDate) && AtMost(item.expiryDate, threeDaysLater) && item.quantity > 0.0
    case All => storageFilter.None? || item.storage == storageFilter.value
  }

  /** `filteredItems`: the visible records of the display list, in order. */
  function FilteredItems(display: seq<FoodItem>, mode: FilterMode, storageFilter: Option<Storage>,
                         lowStock: seq<string>, today: string, threeDaysLater: string): seq<FoodItem>
  {
    if display == [] then []
    else
      var last := display[|display| - 1];
      FilteredItems(display[..|display| - 1], mode, storageFilter, lowStock, today, threeDaysLater)
      + (if Visible(last, mode, storageFilter, lowStock, today, threeDaysLater) then [last] else [])
  }

  /** Card colours: grey (out of stock), red, yellow, blue (low stock), white. */
  datatype CardColor = Gray | Red | Yellow | Blue | White

  /** `getStatusColor`: zero quantity, then expired, then near, then low stock. */
  function StatusColor(expiryDate: string, lowStock: bool, quantity: real,
                       today: string, threeDaysLater: string): CardColor
  {
    if quantity == 0.0 then Gray
    else if Less(expiryDate, today) then Red
    else if AtMost(expiryDate, threeDaysLater) then Yellow
    else if lowStock then Blue
    else White
  }

  /** The colour of a record's card; the card is told `lowStockItems.includes(key)`. */
  function CardColorOf(item: FoodItem, lowStock: seq<string>, today: string, threeDaysLater: string): CardColor
  {
    StatusColor(item.expiryDate, Key(item) in lowStock, item.quantity, today, threeDaysLater)
  }

  /** A key needs a placeholder exactly when it is low on stock and no record uses it. */
  lemma {:induction false} MissingNamesMembers(items: seq<FoodItem>, lowStock: seq<string>, k: string)
    ensures k in MissingNames(items, lowStock) <==> k in lowStock && !KeyUsed(items, k)
  {
    if lowStock != [] {
      var front := lowStock[..|lowStock| - 1];
      MissingNamesMembers(items, front, k);
      assert lowStock == front + [lowStock[|lowStock| - 1]];
    }
  }

  /** The names that need placeholders keep low-stock order. */
  lemma {:induction false} MissingNamesInOrder(items: seq<FoodItem>, lowStock: seq<string>)
    ensures IsSubsequence(MissingNames(items, lowStock), lowStock)
  {
    if lowStock != [] {
      var front := lowStock[..|lowStock| - 1];
      var name := lowStock[|lowStock| - 1];
      MissingNamesInOrder(items, front);
      assert lowStock == front + [name];
      var m := MissingNames(items, front);
      assert MissingNames(items, lowStock) == if !KeyUsed(items, name) then m + [name] else m;
      SubsequenceExtend(m, front, name, !KeyUsed(items, name));
    }
  }

  /** Distinct low-stock keys give distinct placeholder names. */
  lemma {:induction false} MissingNamesDistinct(items: seq<FoodItem>, lowStock: seq<string>)
    requires NoDuplicates(lowStock)
    ensures NoDuplicates(MissingNames(items, lowStock))
  {
    if lowStock != [] {
      var front := lowStock[..|lowStock| - 1];
      var name := lowStock[|lowStock| - 1];
      assert NoDuplicates(front) by {
        forall i, j | 0 <= i < j < |front| ensures front[i] != front[j] {
          assert front[i] == lowStock[i] && front[j] == lowStock[j];
        }
      }
      MissingNamesDistinct(items, front);
      forall i | 0 <= i < |front| ensures front[i] != name {
        assert front[i] == lowStock[i];
      }
      MissingNamesMembers(items, front, name);
    }
  }

  /**
   * In low-stock mode, every entry after the records is a placeholder for a
   * low-stock key that no record uses: quantity 0, no expiry, no location,
   * category 'other', id 'temp-' + key, and no delete action.
   */
  lemma PlaceholderEntry(items: seq<FoodItem>, lowStock: seq<string>, table: Emoji.KeywordTable, j: int)
    requires |items| <= j < |DisplayItems(items, LowStock, lowStock, table)|
    ensures var p := DisplayItems(items, LowStock, lowStock, table)[j];
      && p.quantity == 0.0 && p.expiryDate == "" && p.location == ""
      && p.category == Other && p.id == "temp-" + Key(p)
      && Key(p) in lowStock && !KeyUsed(items, Key(p))
      && !ShowsDeleteAction(p)
  {
    var names := MissingNames(items, lowStock);
    var p := Placeholder(names[j - |items|], table);
    assert DisplayItems(items, LowStock, lowStock, table)[j] == p;
    assert names[j - |items|] in names;
    MissingNamesMembers(items, lowStock, names[j - |items|]);
    assert p.id[..4] == "temp";
  }

  /** Every low-stock key that no record uses gets a placeholder. */
  lemma EveryAbsentKeyGetsPlaceholder(items: seq<FoodItem>, lowStock: seq<string>, table: Emoji.KeywordTable, k: string)
    requires k in lowStock && !KeyUsed(items, k)
    ensures var r := DisplayItems(items, LowStock, lowStock, table);
      exists j :: |items| <= j < |r| && Key(r[j]) == k
  {
    var names := MissingNames(items, lowStock);
    MissingNamesMembers(items, lowStock, k);
    var i :| 0 <= i < |names| && names[i] == k;
    assert Key(DisplayItems(items, LowStock, lowStock, table)[|items| + i]) == k;
  }

  /** With distinct low-stock keys, no key gets two placeholders. */
  lemma PlaceholderKeysDistinct(items: seq<FoodItem>, lowStock: seq<string>, table: Emoji.KeywordTable)
    requires NoDuplicates(lowStock)
    ensures var r := DisplayItems(items, LowStock, lowStock, table);
      forall i, j :: |items| <= i < j < |r| ==> Key(r[i]) != Key(r[j])
  {
    var names := MissingNames(items, lowStock);
    MissingNamesDistinct(items, lowStock);
    var r := DisplayItems(items, LowStock, lowStock, table);
    forall i, j | |items| <= i < j < |r| ensures Key(r[i]) != Key(r[j]) {
      assert Key(r[i]) == names[i - |items|] && Key(r[j]) == names[j - |items|];
    }
  }

  /** Low-stock mode shows every placeholder it synthesizes. */
  lemma PlaceholdersAreVisible(items: seq<FoodItem>, lowStock: seq<string>, table: Emoji.KeywordTable,
                               storageFilter: Option<Storage>, today: string, threeDaysLater: string)
    ensures var r := DisplayItems(items, LowStock, lowStock, table);
      forall j :: |items| <= j < |r| ==> Visible(r[j], LowStock, storageFilter, lowStock, today, threeDaysLater)
  {
    var r := DisplayItems(items, LowStock, lowStock, table);
    forall j | |items| <= j < |r|
      ensures Visible(r[j], LowStock, storageFilter, lowStock, today, threeDaysLater)
    {
      PlaceholderEntry(items, lowStock, table, j);
    }
  }

  /** Placeholders hold no stock. */
  lemma {:induction false} PlaceholdersHoldNoStock(names: seq<string>, table: Emoji.KeywordTable, k: string)
    ensures Stock.StockOf(Placeholders(names, table), k) == 0.0
  {
    if names != [] {
      var ps := Placeholders(names, table);
      assert ps[..|ps| - 1] == Placeholders(names[..|names| - 1], table);
      PlaceholdersHoldNoStock(names[..|names| - 1], table, k);
    }
  }

  /** Adding placeholders leaves every key's summed stock unchanged. */
  lemma DisplayKeepsStock(items: seq<FoodItem>, mode: FilterMode, lowStock: seq<string>,
                          table: Emoji.KeywordTable, k: string)
    ensures Stock.StockOf(DisplayItems(items, mode, lowStock, table), k) == Stock.StockOf(items, k)
  {
    if mode == LowStock {
      var names := MissingNames(items, lowStock);
      Stock.StockOfAppend(items, Placeholders(names, table), k);
      PlaceholdersHoldNoStock(names, table, k);
    }
  }

  /**
   * The card colour follows the status classification: an empty stock is
   * grey; otherwise an expired date is red, a date within three days is
   * yellow, and blue appears only for a fresh date on a low-stock key.
   */
  lemma CardColorFollowsClassification(expiryDate: string, lowStock: bool, quantity: real,
                                       today: string, threeDaysLater: string)
    ensures var c := StatusColor(expiryDate, lowStock, quantity, today, threeDaysLater);
      var u := Status.Classify(expiryDate, today, threeDaysLater);
      && (c == Gray <==> quantity == 0.0)
      && (quantity != 0.0 ==> (c == Red <==> u == Status.Expired) && (c == Yellow <==> u == Status.Warning))
      && (c == Blue <==> quantity != 0.0 && u == Status.Fresh && lowStock)
      && (c == White <==> quantity != 0.0 && u == Status.Fresh && !lowStock)
  {
  }

  /** A placeholder's card is grey. */
  lemma PlaceholderCardIsGray(name: string, table: Emoji.KeywordTable, lowStock: seq<string>,
                              today: string, threeDaysLater: string)
    ensures CardColorOf(Placeholder(name, table), lowStock, today, threeDaysLater) == Gray
  {
  }

  /** The 'expired' tab lists only red cards, and the 'near' tab only yellow ones. */
  lemma FilterTabsMatchCardColors(item: FoodItem, storageFilter: Option<Storage>, lowStock: seq<string>,
                                  today: string, threeDaysLater: string)
    ensures Visible(item, Expired, storageFilter, lowStock, today, threeDaysLater) ==>
      CardColorOf(item, lowStock, today, threeDaysLater) == Red
    ensures Visible(item, Near, storageFilter, lowStock, today, threeDaysLater) ==>
      CardColorOf(item, lowStock, today, threeDaysLater) == Yellow
  {
  }

  /**
   * The 'expired' tab never lists more records than the dashboard counts as
   * expired: it also drops records whose quantity is 0.
   */
  lemma {:induction false} ExpiredTabWithinCount(items: seq<FoodItem>, storageFilter: Option<Storage>,
                                                 lowStock: seq<string>, today: string, threeDaysLater: string)
    ensures |FilteredItems(items, Expired, storageFilter, lowStock, today, threeDaysLater)|
            <= Status.CountOf(items, Status.Expired, today, threeDaysLater)
  {
    if items != [] {
      ExpiredTabWithinCount(items[..|items| - 1], storageFilter, lowStock, today, threeDaysLater);
    }
  }

  /** The listed records keep display order. */
  lemma {:induction false} FilteredItemsInOrder(display: seq<FoodItem>, mode: FilterMode, storageFilter: Option<Storage>,
                                                lowStock: seq<string>, today: string, threeDaysLater: string)
    ensures IsSubsequence(FilteredItems(display, mode, storageFilter, lowStock, today, threeDaysLater), display)
  {
    if display != [] {
      var front := display[..|display| - 1];
      var last := display[|display| - 1];
      FilteredItemsInOrder(front, mode, storageFilter, lowStock, today, threeDaysLater);
      assert display == front + [last];
      var f := FilteredItems(front, mode, storageFilter, lowStock, today, threeDaysLater);
      var keep := Visible(last, mode, storageFilter, lowStock, today, threeDaysLater);
      assert FilteredItems(display, mode, storageFilter, lowStock, today, threeDaysLater) == if keep then f + [last] else f;
      SubsequenceExtend(f, front, last, keep);
    }
  }

  /** A record is listed exactly when it is in the display list and passes the mode's test. */
  lemma {:induction false} FilteredItemsMembers(display: seq<FoodItem>, mode: FilterMode, storageFilter: Option<Storage>,
                                                lowStock: seq<string>, today: string, threeDaysLater: string, x: FoodItem)
    ensures x in FilteredItems(display, mode, storageFilter, lowStock, today, threeDaysLater) <==>
      x in display && Visible(x, mode, storageFilter, lowStock, today, threeDaysLater)
  {
    if display != [] {
      var front := display[..|display| - 1];
      FilteredItemsMembers(front, mode, storageFilter, lowStock, today, threeDaysLater, x);
      assert display == front + [display[|display| - 1]];
    }
  }
}
