/**
 * Expiry status counts (`statusCounts`) and the inventory tab's badge. The
 * dates "today" and "three days later" are ISO strings passed in by the
 * caller; every comparison is JavaScript's lexicographic string order.
 */
module Status {
  import opened Inventory
  import opened Text
  import Stock

  /** The bucket an expiry date falls into on a given day. */
  datatype Urgency = Expired | Warning | Fresh

  /** `if (expiryDate < today) expired++; else if (expiryDate <= threeDaysLater) warning++;` */
  function Classify(expiryDate: string, today: string, threeDaysLater: string): Urgency
  {
    if Less(expiryDate, today) then Expired
    else if AtMost(expiryDate, threeDaysLater) then Warning
    else Fresh
  }

  /** How many records fall into bucket `u`. */
  function CountOf(items: seq<FoodItem>, u: Urgency, today: string, threeDaysLater: string): nat
  {
    if items == [] then 0
    else
      CountOf(items[..|items| - 1], u, today, threeDaysLater)
      + (if Classify(items[|items| - 1].expiryDate, today, threeDaysLater) == u then 1 else 0)
  }

  /** The record handed to the dashboard and the navigation. */
  datatype Counts = Counts(expired: nat, warning: nat, total: nat, lowStock: nat)

  /**
   * `statusCounts`: one pass over the records increments the `expired` and
   * `warning` counters; `total` and `lowStock` are list lengths.
   */
  method StatusCounts(items: seq<FoodItem>, today: string, threeDaysLater: string, lowStockItems: seq<string>)
    returns (counts: Counts)
    ensures counts.expired == CountOf(items, Expired, today, threeDaysLater)
    ensures counts.warning == CountOf(items, Warning, today, threeDaysLater)
    ensures counts.total == |items| && counts.lowStock == |lowStockItems|
    ensures counts.expired + counts.warning <= counts.total
  {
    var expired, warning := 0, 0;
    var i := 0;
    while i < |items|
      invariant 0 <= i <= |items|
      invariant expired == CountOf(items[..i], Expired, today, threeDaysLater)
      invariant warning == CountOf(items[..i], Warning, today, threeDaysLater)
    {
      var item := items[i];
      if Less(item.expiryDate, today) {
        expired := expired + 1;
      } else if AtMost(item.expiryDate, threeDaysLater) {
        warning := warning + 1;
      }
      assert items[..i + 1][..i] == items[..i];
      i := i + 1;
    }
    assert items[..|items|] == items;
    CountsPartition(items, today, threeDaysLater);
    counts := Counts(expired, warning, |items|, |lowStockItems|);
  }

  /** Every record lands in exactly one bucket, so the three counts add up to the total. */
  lemma {:induction false} CountsPartition(items: seq<FoodItem>, today: string, threeDaysLater: string)
    ensures CountOf(items, Expired, today, threeDaysLater) + CountOf(items, Warning, today, threeDaysLater)
            + CountOf(items, Fresh, today, threeDaysLater) == |items|
  {
    if items != [] {
      CountsPartition(items[..|items| - 1], today, threeDaysLater);
    }
  }

  /** No record is counted as expired exactly when no expiry date is before today. */
  lemma {:induction false} NoneExpiredIff(items: seq<FoodItem>, today: string, threeDaysLater: string)
    ensures CountOf(items, Expired, today, threeDaysLater) == 0 <==>
      forall i :: 0 <= i < |items| ==> !Less(items[i].expiryDate, today)
  {
    if items != [] {
      var front := items[..|items| - 1];
      NoneExpiredIff(front, today, threeDaysLater);
      assert forall i :: 0 <= i < |front| ==> front[i] == items[i];
    }
  }

  /**
   * The source has no "no expiry" case: an empty expiry date sorts before
   * every date, so a record without one is counted as expired.
   */
  lemma EmptyExpiryCountsExpired(today: string, threeDaysLater: string)
    requires today != ""
    ensures Classify("", today, threeDaysLater) == Expired
  {
    EmptyIsLeast(today);
  }

  /** A record counted as a warning expires between today and three days later, both included. */
  lemma WarningWindow(expiryDate: string, today: string, threeDaysLater: string)
    requires Classify(expiryDate, today, threeDaysLater) == Warning
    ensures AtMost(today, expiryDate) && AtMost(expiryDate, threeDaysLater)
    ensures today == expiryDate || Less(today, expiryDate)
  {
    AtMostIffLessOrEqual(today, expiryDate);
  }

  /** Red dot on the inventory tab: some record has expired. */
  predicate RedDot(c: Counts)
  {
    c.expired > 0
  }

  /** Blue dot on the inventory tab: nothing has expired and some key is low on stock. */
  predicate BlueDot(c: Counts)
  {
    c.expired == 0 && c.lowStock > 0
  }

  /**
   * Read against the inventory, the blue badge shows exactly when no expiry
   * date is before today and at least one configured key is low on stock;
   * it never shows together with the red one.
   */
  lemma BlueDotMeaning(items: seq<FoodItem>, today: string, threeDaysLater: string, thresholds: Stock.Thresholds)
    ensures var c := Counts(CountOf(items, Expired, today, threeDaysLater),
                            CountOf(items, Warning, today, threeDaysLater),
                            |items|, |Stock.LowStockKeys(thresholds, items)|);
      && (BlueDot(c) <==>
            (forall i :: 0 <= i < |items| ==> !Less(items[i].expiryDate, today))
            && exists k :: k in Stock.LowStockKeys(thresholds, items))
      && !(BlueDot(c) && RedDot(c))
  {
    NoneExpiredIff(items, today, threeDaysLater);
    var low := Stock.LowStockKeys(thresholds, items);
    if |low| > 0 {
      assert low[0] in low;
    }
  }
}
