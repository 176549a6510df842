# Smart Fridge: verified model of the inventory logic

The Smart Fridge application keeps a household's food inventory. It covers
where each item is stored, its expiry date and quantity, and a per-item
emoji. On top of the inventory it derives several things:

- expiry counts and the navigation badge;
- low-stock alerts, driven by a table of per-item thresholds;
- an inventory view that adds placeholder cards for items that have run out;
- a recipe check that splits a recipe's materials into those in stock and
  those missing;
- a shopping list that can be exported as text.

All of this logic lives in `src/App.tsx`, written as closures inside React
components. This project takes each closure out into a standalone Dafny
definition. The ambient state becomes explicit parameters:

- the threshold table;
- the synonym table;
- the emoji keyword table;
- the emoji history;
- the "today" and "three days later" date strings.

Modules, one per concern:

- `Text` (text.dfy): JavaScript's `String.prototype.includes` (a substring
  test) and its string `<` / `<=` (lexicographic comparison on characters).
- `Inventory` (inventory.dfy): the `FoodItem` record. The canonical key
  `categorySmall || name`. Distinctness and the subsequence relation.
- `Stock` (stock.dfy): `lowStockItems`, as a two-loop method proved against
  the specification function `LowStockKeys`.
- `Status` (status.dfy): `statusCounts`, as a counting loop proved against
  `CountOf`, plus the inventory tab's red and blue badges.
- `Display` (display.dfy): `displayItems` with its shortage placeholders,
  the `filteredItems` predicate, `getStatusColor`, and when the delete
  button shows.
- `Emoji` (emoji.dfy):
  - `EMOJI_KEYWORDS` as an ordered sequence of 186 pairs;
  - the keyword scan loop with `break`;
  - the add form's automatic emoji effect;
  - `updateEmojiHistory`.
- `Recipes` (recipes.dfy): `checkIngredients`, as a loop that pushes onto
  `present`/`missing`, proved against `Present`/`Missing`; plus
  `INGREDIENT_SYNONYMS`.
- `Shopping` (shopping.dfy):
  - the `ShoppingList` class, whose `seq` field is reassigned by add,
    toggle, delete and quantity update;
  - `formatAmountStr`;
  - the export text.
- `Options` (options.dfy): the add-if-absent updaters for the unit, category
  and location option lists.

Code and natural-language description differ in a few places. The model
follows the code:

- `statusCounts` counts every record: records with quantity 0 are
  included, and so are records with an empty expiry date. An empty date
  sorts before every date, so such a record counts as expired
  (`Status.EmptyExpiryCountsExpired`).
- The synonym lookup runs one way only. Synonyms are looked up under the
  recipe material's name, never under the inventory item's name
  (`Recipes.SynonymLookupIsOneWay`).
- `checkIngredients` has no special case for qualitative units such as
  '少々'. They are compared numerically like any other unit
  (`Recipes.QualitativeUnitsCompareNumerically`).
- The low-stock card and the settings screen describe the threshold as
  "at or below" (以下), but `lowStockItems` flags only stock strictly below
  it (`currentStock < threshold`); `Stock.LowStockMembership` states the
  strict comparison.
- Placeholders are recognised by an id that starts with 'temp'. Their
  emoji comes from the keyword table only, never from the emoji history.

## Model

| member | source | states |
|---|---|---|
| Text.IncludesIffOccurs | src/App.tsx:1685-1689 | `includes` holds exactly when the needle occurs at some offset of the haystack |
| Text.NoLongerSubstring | src/App.tsx:1685 | a string never includes a longer one |
| Text.IncludesSelfAndEmpty | src/App.tsx:1685 | every string includes itself and the empty string, so equal names always match |
| Text.LessIrreflexive | src/App.tsx:340 | no date string is before itself |
| Text.LessTransitive | src/App.tsx:340-341 | string order is transitive |
| Text.LessTrichotomy | src/App.tsx:340-341 | any two strings are equal or ordered one way, never both ways |
| Text.AtMostIffLessOrEqual | src/App.tsx:341 | JavaScript `a <= b` holds exactly when `a < b` or `a == b` |
| Text.EmptyIsLeast | src/App.tsx:340 | the empty string is before every non-empty string and at most every string |
| Stock.ThresholdKeys | src/App.tsx:319 | `Object.keys` of the threshold table: one key per entry, in table order |
| Stock.LowStockItems | src/App.tsx:311-330 | the grouping loop and the threshold loop return exactly the flagged keys in table order (`LowStockKeys`) |
| Stock.LowStockMembership | src/App.tsx:319-327 | a key is flagged iff the table gives it a positive threshold above the summed stock of its records (0 when none); unconfigured keys never are |
| Stock.LowStockKeysConfigured | src/App.tsx:319-326 | every flagged key is a threshold key |
| Stock.LowStockInTableOrder | src/App.tsx:318-328 | the flagged keys are a subsequence of the threshold keys |
| Stock.LowStockNoDuplicates | src/App.tsx:318-328 | with distinct object keys, no key is flagged twice |
| Stock.StockOfAppend | src/App.tsx:313-316 | grouped stock adds up over concatenated inventories |
| Stock.StockOfUnusedKey | src/App.tsx:322 | `groupedStock[key] \|\| 0`: a key no record uses has stock 0 |
| Stock.EggsAreSummedAcrossRecords | src/App.tsx:188-194 | with the default egg threshold 3, eggs 1+1 are flagged and 2+2 are not: quantities are summed per key before comparing |
| Status.StatusCounts | src/App.tsx:332-345 | the counting loop returns the expired and warning counts, `total == items.length`, `lowStock == lowStockItems.length`, and `expired + warning <= total` |
| Status.CountsPartition | src/App.tsx:339-342 | every record lands in exactly one of expired, warning or neither |
| Status.NoneExpiredIff | src/App.tsx:340 | the expired count is 0 iff no expiry date is before today |
| Status.EmptyExpiryCountsExpired | src/App.tsx:340 | a record with an empty expiry date is counted as expired |
| Status.WarningWindow | src/App.tsx:340-341 | a warning record expires between today and three days later, both included |
| Status.BlueDotMeaning | src/App.tsx:497-503 | the blue badge shows iff nothing has expired and some key is low on stock, and never together with the red badge |
| Display.Placeholder | src/App.tsx:828-853 | a placeholder is keyed by its name, with id 'temp-'+name, quantity 0, empty expiry and location, and category 'other' |
| Display.Placeholders | src/App.tsx:828 | one placeholder per missing name, in order |
| Display.DisplayItems | src/App.tsx:815-859 | outside low-stock mode the display list is the records; in low-stock mode the records come first, followed by one extra card per missing name |
| Display.MissingNamesMembers | src/App.tsx:822-825 | a key gets a placeholder iff it is low on stock and no record uses it |
| Display.MissingNamesInOrder | src/App.tsx:825 | placeholders follow low-stock order |
| Display.MissingNamesDistinct | src/App.tsx:825 | distinct low-stock keys give distinct placeholders |
| Display.PlaceholderEntry | src/App.tsx:815-859 | each appended card is a zero-stock 'temp-' record for an absent low-stock key, and it offers no delete action |
| Display.EveryAbsentKeyGetsPlaceholder | src/App.tsx:822-855 | every low-stock key that no record uses gets a card |
| Display.PlaceholderKeysDistinct | src/App.tsx:822-855 | no two placeholders share a key |
| Display.PlaceholdersAreVisible | src/App.tsx:865-868 | every placeholder passes the low-stock filter |
| Display.PlaceholdersHoldNoStock | src/App.tsx:850 | placeholders add no stock to any key |
| Display.DisplayKeepsStock | src/App.tsx:815-859 | the display list holds the same stock per key as the inventory |
| Display.CardColorFollowsClassification | src/App.tsx:717-732 | grey iff quantity 0; otherwise red iff expired, yellow iff warning, blue iff fresh and low, white iff fresh and not low |
| Display.PlaceholderCardIsGray | src/App.tsx:717-724 | a placeholder card is always grey |
| Display.FilterTabsMatchCardColors | src/App.tsx:870-879 | a card under the expired tab is red, and one under the near tab is yellow |
| Display.ExpiredTabWithinCount | src/App.tsx:870-873 | the expired tab never lists more records than the expired count |
| Display.FilteredItemsInOrder | src/App.tsx:863-883 | the filtered list keeps display order |
| Display.FilteredItemsMembers | src/App.tsx:863-883 | a card is listed iff it is on the display list and passes the mode's test |
| Emoji.FirstKeywordHitMeaning | src/App.tsx:1255-1261 | no hit iff no keyword occurs in the name; a hit is the glyph of the earliest keyword that occurs |
| Emoji.FirstHitWins | src/App.tsx:1255-1261 | when entry i is the earliest keyword the name contains, its glyph is the result |
| Emoji.KeywordScan | src/App.tsx:833-838 | the loop with `break` reports whether a keyword occurs, and returns the first hit's glyph or the fallback |
| Emoji.AutoEmoji | src/App.tsx:1245-1278 | the effect yields `InferredEmoji` of the custom or chosen short name |
| Emoji.HistoryWins | src/App.tsx:1249-1252 | a non-empty history entry for the name wins |
| Emoji.KeywordOrderDecides | src/App.tsx:1254-1262 | without history, the earliest keyword the name contains decides |
| Emoji.CategoryDefaultOnlyForEmptyName | src/App.tsx:1266-1276 | a non-empty name takes the history glyph, a keyword glyph, or keeps the current glyph when no keyword occurs; it never takes the category default |
| Emoji.EmptyNameTakesCategoryDefault | src/App.tsx:1266-1276 | an empty name with a category takes that category's default |
| Emoji.MilkTakesBeefGlyph | src/App.tsx:102-103 | '牛乳' hits '牛' before its own entry, so it gets '🥩' |
| Emoji.UpdateEmojiHistory | src/App.tsx:264-266 | the name now maps to the chosen glyph; every other entry is unchanged |
| Emoji.ChosenGlyphIsRemembered | src/App.tsx:264-266 | after the history update, the form proposes the chosen glyph for that name |
| Recipes.CheckIngredients | src/App.tsx:1675-1718 | the loop returns `Present`/`Missing` in recipe order; their sizes add up to the recipe's |
| Recipes.PartitionSizes | src/App.tsx:1679-1716 | present and missing together hold each material exactly as often as the recipe does |
| Recipes.PartitionMembers | src/App.tsx:1695-1715 | a material is present iff in stock and missing iff not |
| Recipes.PartitionInOrder | src/App.tsx:1679-1716 | both lists keep recipe order |
| Recipes.MatchedItemsMembers | src/App.tsx:1681-1692 | `matchedItems` holds exactly the records that match by name or by a synonym |
| Recipes.SameUnitItemsMembers | src/App.tsx:1701 | `sameUnitItems` holds exactly the matches whose unit equals the material's |
| Recipes.MatchFiltersInOrder | src/App.tsx:1681-1701 | `matchedItems` and `sameUnitItems` are subsequences of their input: order and multiplicity are kept |
| Recipes.TotalIsDirectSum | src/App.tsx:1701-1704 | `totalAmount` equals the sum, over the inventory, of the quantities of the records that match the material and have its unit |
| Recipes.NoMatchMeansMissing | src/App.tsx:1694-1696 | with no matching record, the material is missing |
| Recipes.SameUnitDecides | src/App.tsx:1701-1710 | when some match has the material's unit, the material is present iff the same-unit quantities sum to at least the amount |
| Recipes.OtherUnitsCountAsPresent | src/App.tsx:1711-1714 | when matches exist but none has the unit, the material is present whatever the quantities |
| Recipes.SynonymsKeyedOnMaterialName | src/App.tsx:1688-1689 | only the synonym entry under the material's own name affects the result |
| Recipes.PorkQuantitiesAddUp | src/App.tsx:1703-1709 | 100g + 150g of pork cover 200g; 50g + 50g do not |
| Recipes.SynonymLookupIsOneWay | src/App.tsx:1688-1689 | a recipe asking for '豚肉' finds '豚バラ', but not the other way round |
| Recipes.QualitativeUnitsCompareNumerically | src/App.tsx:1701-1709 | 0.5 '少々' does not cover 1 '少々' |
| Shopping.WithAdded | src/App.tsx:272-287 | a name already listed leaves the list unchanged; otherwise the list grows by one |
| Shopping.Toggled | src/App.tsx:290-294 | toggling keeps the length |
| Shopping.QuantityShifted | src/App.tsx:300-308 | the quantity update keeps the length |
| Shopping.Deleted | src/App.tsx:296-298 | deleting never lengthens the list |
| Shopping.ShoppingList.constructor | src/App.tsx:82-85 | the list starts as the two initial entries, with distinct names |
| Shopping.ShoppingList.Add | src/App.tsx:272-288 | the new list is `WithAdded` of the old one; `added` is true iff the name was absent; the name is listed afterwards; names stay distinct |
| Shopping.ShoppingList.Toggle | src/App.tsx:290-294 | the new list is `Toggled` of the old one; names stay distinct |
| Shopping.ShoppingList.Delete | src/App.tsx:296-298 | the new list is `Deleted` of the old one; names stay distinct |
| Shopping.ShoppingList.UpdateQuantity | src/App.tsx:300-308 | the new list is `QuantityShifted` of the old one; names stay distinct |
| Shopping.AddedNameIsListed | src/App.tsx:274-287 | after an add the name is on the list |
| Shopping.AddAppendsOneUncheckedEntry | src/App.tsx:278-286 | a new name is appended once, unchecked, with the given id, quantity, unit and date, after the unchanged entries |
| Shopping.AddIsIdempotent | src/App.tsx:274-277 | adding the same name again leaves the list unchanged |
| Shopping.AddKeepsNamesDistinct | src/App.tsx:274-287 | adding keeps names distinct |
| Shopping.ToggledAt | src/App.tsx:290-294 | matching ids have only the check mark flipped; every other entry is unchanged |
| Shopping.ToggleTwiceRestores | src/App.tsx:290-294 | toggling the same id twice restores the list |
| Shopping.QuantityShiftedAt | src/App.tsx:300-308 | matching ids get `max(1, q + delta)` and no other field changes; other entries are unchanged |
| Shopping.DeletedMembers | src/App.tsx:296-298 | an entry survives iff it was listed and its id differs |
| Shopping.DeletedInOrder | src/App.tsx:296-298 | survivors keep list order |
| Shopping.DeleteKeepsNamesDistinct | src/App.tsx:296-298 | deleting keeps names distinct |
| Shopping.FormatAmount | src/App.tsx:64-70 | the text always ends with the unit |
| Shopping.FormatAmountCases | src/App.tsx:65-69 | a qualitative unit prints alone, whatever the amount; any other unit prints the amount first |
| Shopping.ExportLine | src/App.tsx:354 | each exported line starts with the bullet '・' |
| Shopping.ExportLinesFollowUnchecked | src/App.tsx:353-355 | one line per unchecked entry, in list order |
| Shopping.UncheckedMembers | src/App.tsx:353 | an entry is exported iff it is listed and unchecked |
| Shopping.JoinEndsWithLastLine | src/App.tsx:355 | the joined text is at least as long as its last line |
| Shopping.ExportEmptyIff | src/App.tsx:352-355 | the exported text is empty iff every entry is checked |
| Options.WithOption | src/App.tsx:255-262 | after the add the option is listed |
| Options.WithOptionExtends | src/App.tsx:255-262 | the old list is a prefix; only the option is added, and only when it was absent |
| Options.WithOptionIdempotent | src/App.tsx:255-262 | adding the same option twice equals adding it once |
| Options.WithOptionNoDuplicates | src/App.tsx:255-262 | a list without repeats stays without repeats |
| Options.WithKeyedOption | src/App.tsx:229-253 | after the add the option is listed under its key |
| Options.WithKeyedOptionEffect | src/App.tsx:229-253 | only the key's list changes, as in the unkeyed add; every other key keeps its list |
| Options.WithKeyedOptionIdempotent | src/App.tsx:229-253 | a second add of the same option leaves the table unchanged |

## Left out

- The following are not modelled:
  - React rendering, state wiring (`useState`, `useEffect`, `useMemo`), toasts and timers.
  - The toasts of `addToShoppingList`. The duplicate toast is raised inside the updater, exactly when `added` is false; the confirmation toast is raised after the updater on every call, so a rejected duplicate shows both.
  - The `console.log` of the export text.
- Clock reads and date arithmetic are not modelled. "today" and "three days later" are ISO date strings passed in by the caller.
- Random and time-based ids are not modelled. The caller supplies the id and the date of a new shopping entry.
- The following are not modelled:
  - `getSortedItems`: its comparator is inconsistent when both dates are empty, and its name order uses locale collation.
  - The settings search: Unicode case mapping.
  - The emoji picker, scanner modal, add-form wizard and dashboard calendar.
  - `deleteItem` and `addRecipeToHistory`: plain list filter and prepend outside the listed logic.
- Quantities are modelled as exact reals. IEEE-754 rounding, `NaN`, and `quantity === 0` on non-numbers are not reproduced.
- Shopping.FormatAmount: JavaScript's number-to-string conversion is the parameter `show` and is left abstract.
- Key order:
  - The threshold table and `EMOJI_KEYWORDS` are ordered sequences in the order the source lists them.
  - JavaScript moves integer-like keys to the front of an object. No key in these tables is integer-like, but a user-entered threshold key could be.
  - `UniqueKeys` is stated, not enforced.
- Prototype-inherited keys are not modelled. The synonym table and the emoji history are maps, so a name like 'constructor' reads as absent.
- Character order:
  - Strings are compared by Unicode code point.
  - JavaScript compares UTF-16 code units, which differs only between astral characters and U+E000–U+FFFF. ISO dates are ASCII.
- The `typeof threshold === 'number'` guard of `lowStockItems` always holds, because the table's values are reals.
- The grouping of the filtered cards by category (`item.category || 'other'`) in the list view is presentation only and is not modelled.
