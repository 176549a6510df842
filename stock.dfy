/**
 * Low-stock detection (`lowStockItems`): quantities are grouped by canonical
 * key, and a configured key is flagged when its threshold is positive and
 * the grouped quantity is below it. Keys without a threshold are never
 * flagged, whatever their stock.
 */
module Stock {
  import opened Inventory

  /** The threshold table in `Object.keys` order: (canonical key, threshold). */
  type Thresholds = seq<(string, real)>

  /** The keys of a threshold table, in table order. */
  function ThresholdKeys(t: Thresholds): (keys: seq<string>)
    ensures |keys| == |t| && forall j :: 0 <= j < |t| ==> keys[j] == t[j].0
  {
    seq(|t|, j requires 0 <= j < |t| => t[j].0)
  }

  /** A JavaScript object never holds the same key twice. */
  predicate UniqueKeys(t: Thresholds)
  {
    forall i, j :: 0 <= i < j < |t| ==> t[i].0 != t[j].0
  }

  /** Summed quantity of the records whose canonical key is `k`; 0 when there are none. */
  function StockOf(items: seq<FoodItem>, k: string): real
  {
    if items == [] then 0.0
    else
      var last := items[|items| - 1];
      StockOf(items[..|items| - 1], k) + (if Key(last) == k then last.quantity else 0.0)
  }

  /** `groupedStock[key] || 0`: a key that was never grouped reads as 0. */
  function Lookup(m: map<string, real>, k: string): real
  {
    if k in m then m[k] else 0.0
  }

  /** A threshold entry flags its key: the threshold is positive and the stock is below it. */
  predicate IsLow(entry: (string, real), items: seq<FoodItem>)
  {
    entry.1 > 0.0 && StockOf(items, entry.0) < entry.1
  }

  /** The flagged keys, in threshold-table order. */
  function LowStockKeys(t: Thresholds, items: seq<FoodItem>): seq<string>
  {
    if t == [] then []
    else LowStockKeys(t[..|t| - 1], items) + (if IsLow(t[|t| - 1], items) then [t[|t| - 1].0] else [])
  }

  /**
   * `lowStockItems`: one pass fills the `groupedStock` dictionary, a second
   * walks the threshold keys and pushes each flagged one.
   */
  method LowStockItems(items: seq<FoodItem>, thresholds: Thresholds) returns (lowStockList: seq<string>)
    ensures lowStockList == LowStockKeys(thresholds, items)
  {
    var groupedStock: map<string, real> := map[];
    var i := 0;
    while i < |items|
      invariant 0 <= i <= |items|
      invariant forall k :: Lookup(groupedStock, k) == StockOf(items[..i], k)
    {
      var key := Key(items[i]);
      groupedStock := groupedStock[key := Lookup(groupedStock, key) + items[i].quantity];
      assert items[..i + 1][..i] == items[..i];
      i := i + 1;
    }
    assert items[..|items|] == items;

    lowStockList := [];
    var j := 0;
    while j < |thresholds|
      invariant 0 <= j <= |thresholds|
      invariant lowStockList == LowStockKeys(thresholds[..j], items)
    {
      var (key, threshold) := thresholds[j];
      if threshold > 0.0 {
        var currentStock := Lookup(groupedStock, key);
        if currentStock < threshold {
          lowStockList := lowStockList + [key];
        }
      }
      assert thresholds[..j + 1][..j] == thresholds[..j];
      j := j + 1;
    }
    assert thresholds[..|thresholds|] == thresholds;
  }

  /**
   * A key is flagged exactly when the table configures it with a positive
   * threshold that its summed stock is below; an unconfigured key never is.
   */
  lemma {:induction false} LowStockMembership(t: Thresholds, items: seq<FoodItem>, k: string)
    ensures k in LowStockKeys(t, items) <==>
      exists j :: 0 <= j < |t| && t[j].0 == k && t[j].1 > 0.0 && StockOf(items, k) < t[j].1
  {
    if t != [] {
      var front := t[..|t| - 1];
      LowStockMembership(front, items, k);
      if exists j :: 0 <= j < |front| && front[j].0 == k && front[j].1 > 0.0 && StockOf(items, k) < front[j].1 {
        var j :| 0 <= j < |front| && front[j].0 == k && front[j].1 > 0.0 && StockOf(items, k) < front[j].1;
        assert t[j] == front[j];
      }
      if exists j :: 0 <= j < |t| && t[j].0 == k && t[j].1 > 0.0 && StockOf(items, k) < t[j].1 {
        var j :| 0 <= j < |t| && t[j].0 == k && t[j].1 > 0.0 && StockOf(items, k) < t[j].1;
        if j < |front| {
          assert front[j] == t[j];
        }
      }
    }
  }

  /** Every flagged key is a configured key. */
  lemma {:induction false} LowStockKeysConfigured(t: Thresholds, items: seq<FoodItem>, k: string)
    requires k in LowStockKeys(t, items)
    ensures k in ThresholdKeys(t)
  {
    LowStockInTableOrder(t, items);
    SubsequenceMembers(LowStockKeys(t, items), ThresholdKeys(t), k);
  }

  /** The flagged keys keep the threshold table's order. */
  lemma {:induction false} LowStockInTableOrder(t: Thresholds, items: seq<FoodItem>)
    ensures IsSubsequence(LowStockKeys(t, items), ThresholdKeys(t))
  {
    if t != [] {
      var front := t[..|t| - 1];
      LowStockInTableOrder(front, items);
      var r := LowStockKeys(front, items);
      assert ThresholdKeys(t) == ThresholdKeys(front) + [t[|t| - 1].0];
      assert LowStockKeys(t, items) == if IsLow(t[|t| - 1], items) then r + [t[|t| - 1].0] else r;
      SubsequenceExtend(r, ThresholdKeys(front), t[|t| - 1].0, IsLow(t[|t| - 1], items));
    }
  }

  /** With the distinct keys of a JavaScript object, no key is flagged twice. */
  lemma {:induction false} LowStockNoDuplicates(t: Thresholds, items: seq<FoodItem>)
    requires UniqueKeys(t)
    ensures NoDuplicates(LowStockKeys(t, items))
  {
    if t != [] {
      var front := t[..|t| - 1];
      var last := t[|t| - 1];
      LowStockNoDuplicates(front, items);
      if IsLow(last, items) {
        forall j | 0 <= j < |front| ensures front[j].0 != last.0 {
          assert front[j] == t[j];
        }
        LowStockMembership(front, items, last.0);
      }
    }
  }

  /** Stock totals add up over a concatenation of inventories. */
  lemma {:induction false} StockOfAppend(a: seq<FoodItem>, b: seq<FoodItem>, k: string)
    ensures StockOf(a + b, k) == StockOf(a, k) + StockOf(b, k)
    decreases |b|
  {
    if b == [] {
      assert a + b == a;
    } else {
      assert (a + b)[..|a + b| - 1] == a + b[..|b| - 1];
      StockOfAppend(a, b[..|b| - 1], k);
    }
  }

  /** A key that no record uses has stock 0. */
  lemma {:induction false} StockOfUnusedKey(items: seq<FoodItem>, k: string)
    requires !KeyUsed(items, k)
    ensures StockOf(items, k) == 0.0
  {
    if items != [] {
      var front := items[..|items| - 1];
      assert !KeyUsed(front, k) by {
        forall i | 0 <= i < |front| ensures Key(front[i]) != k {
          assert front[i] == items[i];
        }
      }
      StockOfUnusedKey(front, k);
    }
  }

  /** An egg record (canonical key '卵') holding `count` eggs. */
  function Eggs(id: string, count: real): FoodItem
  {
    FoodItem(id, "卵", Refrigerator, Egg, "卵", "上段", "", count, "個", "", "🥚")
  }

  /**
   * With the default egg threshold of 3, two records of one egg each are
   * flagged (1 + 1 < 3) and two of two eggs each are not (2 + 2 >= 3):
   * records sharing a key are summed before the comparison.
   */
  lemma EggsAreSummedAcrossRecords()
    ensures LowStockKeys([("卵", 3.0)], [Eggs("a", 1.0), Eggs("b", 1.0)]) == ["卵"]
    ensures LowStockKeys([("卵", 3.0)], [Eggs("a", 2.0), Eggs("b", 2.0)]) == []
  {
    var few := [Eggs("a", 1.0), Eggs("b", 1.0)];
    var many := [Eggs("a", 2.0), Eggs("b", 2.0)];
    assert few[..1] == [Eggs("a", 1.0)] && many[..1] == [Eggs("a", 2.0)];
    assert StockOf(few, "卵") == 2.0;
    assert StockOf(many, "卵") == 4.0;
  }
}
