/**
 * The inventory record of the fridge application and the canonical key used
 * to group records, look up stock thresholds and match recipe materials.
 */
module Inventory {

  datatype Option<T> = None | Some(value: T)

  /** Where an item is kept (`StorageType`). */
  datatype Storage = Refrigerator | FreezerMain | FreezerSub | VegetableDrawer | Ambient

  /** The coarse food category (`ItemCategory`). */
  datatype Category = Dairy | Egg | Vegetable | Fruit | Meat | Fish | Other

  /**
   * One inventory record (`FoodItem`). Quantities are JavaScript numbers that
   * the logic only adds and compares; they are modelled as reals.
   */
  datatype FoodItem = FoodItem(
    id: string,
    name: string,
    storage: Storage,
    category: Category,
    categorySmall: string,
    location: string,
    expiryDate: string,
    quantity: real,
    unit: string,
    addedDate: string,
    emoji: string)

  /** The canonical key `item.categorySmall || item.name`: an empty short name falls back to the display name. */
  function Key(item: FoodItem): string
  {
    if item.categorySmall != "" then item.categorySmall else item.name
  }

  /** Some record of `items` has canonical key `k`. */
  predicate KeyUsed(items: seq<FoodItem>, k: string)
  {
    exists i :: 0 <= i < |items| && Key(items[i]) == k
  }

  /** The elements of `s` are pairwise distinct. */
  predicate NoDuplicates<T(==)>(s: seq<T>)
  {
    forall i, j :: 0 <= i < j < |s| ==> s[i] != s[j]
  }

  /** `a` is `b` with some elements dropped and the rest kept in order. */
  ghost predicate IsSubsequence<T>(a: seq<T>, b: seq<T>)
    decreases |b|
  {
    if a == [] then true
    else if b == [] then false
    else
      || (a[|a| - 1] == b[|b| - 1] && IsSubsequence(a[..|a| - 1], b[..|b| - 1]))
      || IsSubsequence(a, b[..|b| - 1])
  }

  /** A subsequence only holds elements of the sequence it was drawn from. */
  lemma {:induction false} SubsequenceMembers<T>(a: seq<T>, b: seq<T>, x: T)
    requires IsSubsequence(a, b) && x in a
    ensures x in b
    decreases |b|
  {
    if IsSubsequence(a, b[..|b| - 1]) {
      SubsequenceMembers(a, b[..|b| - 1], x);
    } else if x != a[|a| - 1] {
      assert a == a[..|a| - 1] + [a[|a| - 1]];
      SubsequenceMembers(a[..|a| - 1], b[..|b| - 1], x);
    }
    assert b == b[..|b| - 1] + [b[|b| - 1]];
  }

  /** Appending one element to the source keeps a subsequence, whether or not the element is kept too. */
  lemma SubsequenceExtend<T>(a: seq<T>, b: seq<T>, x: T, keep: bool)
    requires IsSubsequence(a, b)
    ensures IsSubsequence(if keep then a + [x] else a, b + [x])
  {
    assert (b + [x])[..|b|] == b;
    if keep {
      assert (a + [x])[..|a|] == a;
    }
  }
}
