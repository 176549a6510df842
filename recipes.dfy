/**
 * The ingredient resolver (`checkIngredients`): each material of a recipe is
 * matched against the inventory by canonical key (substring either way, then
 * the synonyms listed under the material's name), and is present when the
 * same-unit matches add up to the required amount, or when matches exist but
 * none shares the unit.
 */
module Recipes {
  import opened Inventory
  import opened Text

  /** A recipe material (`RecipeMaterial`). */
  datatype Material = Material(name: string, amount: real, unit: string)

  /** A synonym table: material name to alternative names; looked up by the material's name only. */
  type Synonyms = map<string, seq<string>>

  /** `INGREDIENT_SYNONYMS`. */
  const DefaultSynonyms: Synonyms := map[
    "米" := ["ご飯", "白米", "ライス"],
    "ご飯" := ["米", "白米", "ライス"],
    "豚肉" := ["豚バラ", "豚こま", "豚ひき肉", "豚ミンチ"],
    "鶏肉" := ["鶏もも肉", "鶏むね肉", "鶏ささみ", "鶏ひき肉", "鶏ミンチ"],
    "ひき肉" := ["豚ひき肉", "牛ひき肉", "合い挽き肉", "鶏ひき肉", "ミンチ"],
    "ミンチ" := ["豚ひき肉", "牛ひき肉", "合い挽き肉", "鶏ひき肉", "ひき肉"],
    "ネギ" := ["長ネギ", "万能ネギ", "白ネギ", "青ネギ"],
    "麺" := ["中華麺", "うどん", "そば", "パスタ", "スパゲッティ"],
    "中華麺" := ["ラーメン", "焼きそば麺"],
    "卵" := ["玉子", "たまご"],
    "じゃがいも" := ["ジャガイモ", "ポテト"],
    "人参" := ["にんじん", "ニンジン"],
    "玉ねぎ" := ["タマネギ", "たまねぎ"]
  ]

  /** Two names match when either contains the other. */
  predicate NameMatches(itemName: string, name: string)
  {
    Includes(itemName, name) || Includes(name, itemName)
  }

  /**
   * The `matchedItems` test: the item's key matches the material's name, or,
   * failing that, one of the synonyms listed under the material's name.
   */
  predicate Matches(item: FoodItem, mat: Material, synonyms: Synonyms)
  {
    var itemName := Key(item);
    || NameMatches(itemName, mat.name)
    || (mat.name in synonyms && exists syn :: syn in synonyms[mat.name] && NameMatches(itemName, syn))
  }

  /** `matchedItems`: the matching records, in inventory order. */
  function MatchedItems(inventory: seq<FoodItem>, mat: Material, synonyms: Synonyms): seq<FoodItem>
  {
    if inventory == [] then []
    else
      var last := inventory[|inventory| - 1];
      MatchedItems(inventory[..|inventory| - 1], mat, synonyms) + (if Matches(last, mat, synonyms) then [last] else [])
  }

  /** `sameUnitItems`: the records whose unit is exactly `unit`. */
  function SameUnitItems(items: seq<FoodItem>, unit: string): seq<FoodItem>
  {
    if items == [] then []
    else
      var last := items[|items| - 1];
      SameUnitItems(items[..|items| - 1], unit) + (if last.unit == unit then [last] else [])
  }

  /** `reduce((sum, item) => sum + item.quantity, 0)`. */
  function TotalQuantity(items: seq<FoodItem>): real
  {
    if items == [] then 0.0 else TotalQuantity(items[..|items| - 1]) + items[|items| - 1].quantity
  }

  /** The decision for one material: no match is missing; same-unit matches must reach the amount; other units count as present. */
  predicate InStock(mat: Material, inventory: seq<FoodItem>, synonyms: Synonyms)
  {
    var matched := MatchedItems(inventory, mat, synonyms);
    if matched == [] then false
    else
      var sameUnit := SameUnitItems(matched, mat.unit);
      if sameUnit != [] then TotalQuantity(sameUnit) >= mat.amount
      else true
  }

  /** The materials the inventory covers, in recipe order. */
  function Present(materials: seq<Material>, inventory: seq<FoodItem>, synonyms: Synonyms): seq<Material>
  {
    if materials == [] then []
    else
      var last := materials[|materials| - 1];
      Present(materials[..|materials| - 1], inventory, synonyms) + (if InStock(last, inventory, synonyms) then [last] else [])
  }

  /** The materials the inventory does not cover, in recipe order. */
  function Missing(materials: seq<Material>, inventory: seq<FoodItem>, synonyms: Synonyms): seq<Material>
  {
    if materials == [] then []
    else
      var last := materials[|materials| - 1];
      Missing(materials[..|materials| - 1], inventory, synonyms) + (if InStock(last, inventory, synonyms) then [] else [last])
  }

  /**
   * `checkIngredients`: one pass over the materials pushes each onto
   * `present` or `missing`. Together the two lists hold every material once.
   */
  method CheckIngredients(materials: seq<Material>, inventory: seq<FoodItem>, synonyms: Synonyms)
    returns (present: seq<Material>, missing: seq<Material>)
    ensures present == Present(materials, inventory, synonyms)
    ensures missing == Missing(materials, inventory, synonyms)
    ensures |present| + |missing| == |materials|
  {
    present, missing := [], [];
    var i := 0;
    while i < |materials|
      invariant 0 <= i <= |materials|
      invariant present == Present(materials[..i], inventory, synonyms)
      invariant missing == Missing(materials[..i], inventory, synonyms)
    {
      var mat := materials[i];
      ghost var inStock := InStock(mat, inventory, synonyms);
      var matchedItems := MatchedItems(inventory, mat, synonyms);
      if matchedItems == [] {
        missing := missing + [mat];
      } else {
        var sameUnitItems := SameUnitItems(matchedItems, mat.unit);
        if sameUnitItems != [] {
          var totalAmount := TotalQuantity(sameUnitItems);
          if totalAmount >= mat.amount {
            present := present + [mat];
          } else {
            missing := missing + [mat];
          }
        } else {
          present := present + [mat];
        }
      }
      assert materials[..i + 1][..i] == materials[..i];
      assert Present(materials[..i + 1], inventory, synonyms)
             == Present(materials[..i], inventory, synonyms) + (if inStock then [mat] else []);
      assert Missing(materials[..i + 1], inventory, synonyms)
             == Missing(materials[..i], inventory, synonyms) + (if inStock then [] else [mat]);
      i := i + 1;
    }
    assert materials[..|materials|] == materials;
    PartitionSizes(materials, inventory, synonyms);
  }

  /** The two lists split the recipe: their sizes add up, and together they hold each material as often as the recipe does. */
  lemma PartitionSizes(materials: seq<Material>, inventory: seq<FoodItem>, synonyms: Synonyms)
    ensures |Present(materials, inventory, synonyms)| + |Missing(materials, inventory, synonyms)| == |materials|
    ensures multiset(Present(materials, inventory, synonyms)) + multiset(Missing(materials, inventory, synonyms))
            == multiset(materials)
  {
    PartitionMultiset(materials, inventory, synonyms);
    var p, m := Present(materials, inventory, synonyms), Missing(materials, inventory, synonyms);
    assert |multiset(p + m)| == |multiset(materials)|;
    assert p + m == p + m && |p + m| == |p| + |m|;
  }

  /** The multiset half of the split, by induction on the recipe. */
  lemma {:induction false} PartitionMultiset(materials: seq<Material>, inventory: seq<FoodItem>, synonyms: Synonyms)
    ensures multiset(Present(materials, inventory, synonyms)) + multiset(Missing(materials, inventory, synonyms))
            == multiset(materials)
  {
    if materials != [] {
      var front := materials[..|materials| - 1];
      var last := materials[|materials| - 1];
      PartitionMultiset(front, inventory, synonyms);
      PartitionStep(materials, inventory, synonyms);
      assert materials == front + [last];
      SplitStep(Present(front, inventory, synonyms), Missing(front, inventory, synonyms), front, last,
                InStock(last, inventory, synonyms));
    }
  }

  /** The last material of the recipe goes to the end of exactly one list. */
  lemma PartitionStep(materials: seq<Material>, inventory: seq<FoodItem>, synonyms: Synonyms)
    requires materials != []
    ensures var front, last := materials[..|materials| - 1], materials[|materials| - 1];
      var ok := InStock(last, inventory, synonyms);
      && Present(materials, inventory, synonyms) == Present(front, inventory, synonyms) + (if ok then [last] else [])
      && Missing(materials, inventory, synonyms) == Missing(front, inventory, synonyms) + (if ok then [] else [last])
  {
  }

  /** One more material goes to exactly one of the two lists. */
  lemma SplitStep(p: seq<Material>, m: seq<Material>, front: seq<Material>, last: Material, ok: bool)
    requires multiset(p) + multiset(m) == multiset(front)
    ensures multiset(p + (if ok then [last] else [])) + multiset(m + (if ok then [] else [last]))
            == multiset(front + [last])
  {
    assert multiset(front + [last]) == multiset(front) + multiset{last};
  }

  /** A material is listed as present exactly when it is in stock, and as missing exactly when it is not; never both. */
  lemma {:induction false} PartitionMembers(materials: seq<Material>, inventory: seq<FoodItem>, synonyms: Synonyms, m: Material)
    ensures m in Present(materials, inventory, synonyms) <==> m in materials && InStock(m, inventory, synonyms)
    ensures m in Missing(materials, inventory, synonyms) <==> m in materials && !InStock(m, inventory, synonyms)
  {
    if materials != [] {
      var front := materials[..|materials| - 1];
      PartitionMembers(front, inventory, synonyms, m);
      assert materials == front + [materials[|materials| - 1]];
    }
  }

  /** Both lists keep recipe order. */
  lemma {:induction false} PartitionInOrder(materials: seq<Material>, inventory: seq<FoodItem>, synonyms: Synonyms)
    ensures IsSubsequence(Present(materials, inventory, synonyms), materials)
    ensures IsSubsequence(Missing(materials, inventory, synonyms), materials)
  {
    if materials != [] {
      var front := materials[..|materials| - 1];
      var last := materials[|materials| - 1];
      PartitionInOrder(front, inventory, synonyms);
      assert materials == front + [last];
      var p := Present(front, inventory, synonyms);
      var q := Missing(front, inventory, synonyms);
      var ok := InStock(last, inventory, synonyms);
      assert Present(materials, inventory, synonyms) == if ok then p + [last] else p;
      assert Missing(materials, inventory, synonyms) == if ok then q else q + [last];
      SubsequenceExtend(p, front, last, ok);
      SubsequenceExtend(q, front, last, !ok);
    }
  }

  /** A record is among the matches exactly when it is in the inventory and matches. */
  lemma {:induction false} MatchedItemsMembers(inventory: seq<FoodItem>, mat: Material, synonyms: Synonyms, x: FoodItem)
    ensures x in MatchedItems(inventory, mat, synonyms) <==> x in inventory && Matches(x, mat, synonyms)
  {
    if inventory != [] {
      var front := inventory[..|inventory| - 1];
      MatchedItemsMembers(front, mat, synonyms, x);
      assert inventory == front + [inventory[|inventory| - 1]];
    }
  }

  /** A record is among the same-unit records exactly when it is in the list and has the unit. */
  lemma {:induction false} SameUnitItemsMembers(items: seq<FoodItem>, unit: string, x: FoodItem)
    ensures x in SameUnitItems(items, unit) <==> x in items && x.unit == unit
  {
    if items != [] {
      var front := items[..|items| - 1];
      SameUnitItemsMembers(front, unit, x);
      assert items == front + [items[|items| - 1]];
    }
  }

  /** Both filters keep inventory order and multiplicity: each result is a subsequence of its input. */
  lemma {:induction false} MatchFiltersInOrder(inventory: seq<FoodItem>, mat: Material, synonyms: Synonyms, unit: string)
    ensures IsSubsequence(MatchedItems(inventory, mat, synonyms), inventory)
    ensures IsSubsequence(SameUnitItems(inventory, unit), inventory)
  {
    if inventory != [] {
      var front := inventory[..|inventory| - 1];
      var last := inventory[|inventory| - 1];
      MatchFiltersInOrder(front, mat, synonyms, unit);
      assert inventory == front + [last];
      assert MatchedItems(inventory, mat, synonyms)
             == if Matches(last, mat, synonyms) then MatchedItems(front, mat, synonyms) + [last] else MatchedItems(front, mat, synonyms);
      assert SameUnitItems(inventory, unit)
             == if last.unit == unit then SameUnitItems(front, unit) + [last] else SameUnitItems(front, unit);
      SubsequenceExtend(MatchedItems(front, mat, synonyms), front, last, Matches(last, mat, synonyms));
      SubsequenceExtend(SameUnitItems(front, unit), front, last, last.unit == unit);
    }
  }

  /** Summed quantity of the records that match the material and carry `unit`, read straight off the inventory. */
  function MatchedStock(inventory: seq<FoodItem>, mat: Material, synonyms: Synonyms, unit: string): real
  {
    if inventory == [] then 0.0
    else
      var last := inventory[|inventory| - 1];
      MatchedStock(inventory[..|inventory| - 1], mat, synonyms, unit)
      + (if Matches(last, mat, synonyms) && last.unit == unit then last.quantity else 0.0)
  }

  /**
   * `totalAmount` counts every matching record of the unit once per
   * occurrence: it is the direct sum over the inventory.
   */
  lemma {:induction false} TotalIsDirectSum(inventory: seq<FoodItem>, mat: Material, synonyms: Synonyms, unit: string)
    ensures TotalQuantity(SameUnitItems(MatchedItems(inventory, mat, synonyms), unit)) == MatchedStock(inventory, mat, synonyms, unit)
  {
    if inventory != [] {
      var front := inventory[..|inventory| - 1];
      var last := inventory[|inventory| - 1];
      TotalIsDirectSum(front, mat, synonyms, unit);
      var m := MatchedItems(front, mat, synonyms);
      if Matches(last, mat, synonyms) {
        assert MatchedItems(inventory, mat, synonyms) == m + [last];
        assert (m + [last])[..|m|] == m;
        var su := SameUnitItems(m, unit);
        assert SameUnitItems(m + [last], unit) == if last.unit == unit then su + [last] else su;
        if last.unit == unit {
          assert (su + [last])[..|su|] == su;
          assert TotalQuantity(su + [last]) == TotalQuantity(su) + last.quantity;
        }
      } else {
        assert MatchedItems(inventory, mat, synonyms) == m;
      }
    }
  }

  /** A material that no record matches, by name or by synonym, is missing. */
  lemma NoMatchMeansMissing(mat: Material, inventory: seq<FoodItem>, synonyms: Synonyms)
    requires forall i :: 0 <= i < |inventory| ==> !Matches(inventory[i], mat, synonyms)
    ensures !InStock(mat, inventory, synonyms)
  {
    var matched := MatchedItems(inventory, mat, synonyms);
    if matched != [] {
      MatchedItemsMembers(inventory, mat, synonyms, matched[0]);
    }
  }

  /**
   * The unit rule, first half: when some matching record has the material's
   * unit, the material is present exactly when the matching records of that
   * unit add up to the amount.
   */
  lemma SameUnitDecides(mat: Material, inventory: seq<FoodItem>, synonyms: Synonyms, i: int)
    requires 0 <= i < |inventory| && Matches(inventory[i], mat, synonyms) && inventory[i].unit == mat.unit
    ensures InStock(mat, inventory, synonyms) <==>
      TotalQuantity(SameUnitItems(MatchedItems(inventory, mat, synonyms), mat.unit)) >= mat.amount
  {
    var matched := MatchedItems(inventory, mat, synonyms);
    MatchedItemsMembers(inventory, mat, synonyms, inventory[i]);
    SameUnitItemsMembers(matched, mat.unit, inventory[i]);
  }

  /**
   * The unit rule, second half: when records match but none has the
   * material's unit, the material is present whatever the quantities.
   */
  lemma OtherUnitsCountAsPresent(mat: Material, inventory: seq<FoodItem>, synonyms: Synonyms, i: int)
    requires 0 <= i < |inventory| && Matches(inventory[i], mat, synonyms)
    requires forall j :: 0 <= j < |inventory| && Matches(inventory[j], mat, synonyms) ==> inventory[j].unit != mat.unit
    ensures InStock(mat, inventory, synonyms)
  {
    var matched := MatchedItems(inventory, mat, synonyms);
    MatchedItemsMembers(inventory, mat, synonyms, inventory[i]);
    var sameUnit := SameUnitItems(matched, mat.unit);
    if sameUnit != [] {
      SameUnitItemsMembers(matched, mat.unit, sameUnit[0]);
      MatchedItemsMembers(inventory, mat, synonyms, sameUnit[0]);
    }
  }

  /** Only the synonyms listed under the material's own name take part; the rest of the table is ignored. */
  lemma {:induction false} SynonymsKeyedOnMaterialName(mat: Material, inventory: seq<FoodItem>, synonyms: Synonyms, other: Synonyms)
    requires mat.name in synonyms <==> mat.name in other
    requires mat.name in synonyms ==> synonyms[mat.name] == other[mat.name]
    ensures MatchedItems(inventory, mat, synonyms) == MatchedItems(inventory, mat, other)
    ensures InStock(mat, inventory, synonyms) == InStock(mat, inventory, other)
  {
    if inventory != [] {
      SynonymsKeyedOnMaterialName(mat, inventory[..|inventory| - 1], synonyms, other);
      assert Matches(inventory[|inventory| - 1], mat, synonyms) == Matches(inventory[|inventory| - 1], mat, other);
    }
  }

  /** A pork record keyed '豚肉' with the given quantity in grams. */
  function Pork(id: string, grams: real): FoodItem
  {
    FoodItem(id, "豚バラ肉", FreezerMain, Meat, "豚肉", "", "", grams, "g", "", "🥩")
  }

  /** Same-unit quantities are summed: 100 g + 150 g cover 200 g of pork, 50 g + 50 g do not. */
  lemma PorkQuantitiesAddUp()
    ensures InStock(Material("豚肉", 200.0, "g"), [Pork("a", 100.0), Pork("b", 150.0)], map[])
    ensures !InStock(Material("豚肉", 200.0, "g"), [Pork("a", 50.0), Pork("b", 50.0)], map[])
  {
    var mat := Material("豚肉", 200.0, "g");
    assert Includes("豚肉", "豚肉") by { assert "豚肉" <= "豚肉"; }
    var inv1 := [Pork("a", 100.0), Pork("b", 150.0)];
    assert inv1[..1] == [Pork("a", 100.0)];
    var inv2 := [Pork("a", 50.0), Pork("b", 50.0)];
    assert inv2[..1] == [Pork("a", 50.0)];
    assert MatchedItems(inv2, mat, map[]) == inv2;
    assert SameUnitItems(inv2, "g") == inv2;
    assert TotalQuantity(inv2) == 100.0;
  }

  /**
   * The synonym lookup runs one way: a recipe asking for '豚肉' finds a
   * record keyed '豚バラ' through the synonyms of '豚肉', but a recipe asking
   * for '豚バラ' does not find a record keyed '豚肉', since '豚バラ' has no entry.
   */
  lemma SynonymLookupIsOneWay()
    ensures Matches(Pork("a", 100.0).(categorySmall := "豚バラ"), Material("豚肉", 1.0, "g"), DefaultSynonyms)
    ensures !Matches(Pork("a", 100.0), Material("豚バラ", 1.0, "g"), DefaultSynonyms)
  {
    assert "豚バラ" in DefaultSynonyms["豚肉"];
    assert Includes("豚バラ", "豚バラ") by { assert "豚バラ" <= "豚バラ"; }
    NoLongerSubstring("豚肉", "豚バラ");
    assert !Includes("豚バラ", "豚肉") by {
      assert "豚肉"[1] != "豚バラ"[1];
      assert !("豚肉" <= "豚バラ");
      assert "豚バラ"[1..] == "バラ" && "バラ"[1..] == "ラ";
      assert "豚肉"[0] != "バラ"[0];
      assert !("豚肉" <= "バラ");
      NoLongerSubstring("ラ", "豚肉");
      assert !Includes("バラ", "豚肉");
    }
  }

  /**
   * Qualitative units get no special case: a material asking for 1 '少々'
   * of miso is missing when the only miso record holds 0.5 '少々'.
   */
  lemma QualitativeUnitsCompareNumerically()
    ensures !InStock(Material("味噌", 1.0, "少々"),
                     [FoodItem("m", "味噌", Refrigerator, Other, "味噌", "", "", 0.5, "少々", "", "📦")], map[])
  {
    assert Includes("味噌", "味噌") by { assert "味噌" <= "味噌"; }
  }
}
