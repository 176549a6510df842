/**
 * The user-extensible option lists of the add form: units, and the short
 * names and locations offered per category and per storage place. Each adder
 * appends an option only when the list does not already hold it.
 */
module Options {
  import opened Inventory

  /** The `addUnitOption` updater. */
  function WithOption(options: seq<string>, option: string): (r: seq<string>)
    ensures option in r
  {
    if option !in options then options + [option] else options
  }

  /** `prev[key] || []`: a key without a list reads as the empty list. */
  function OptionsFor<K>(table: map<K, seq<string>>, key: K): seq<string>
  {
    if key in table then table[key] else []
  }

  /** The `addCategoryOption` and `addLocationOption` updaters, for any key type. */
  function WithKeyedOption<K>(table: map<K, seq<string>>, key: K, option: string): (r: map<K, seq<string>>)
    ensures option in OptionsFor(r, key)
  {
    var current := OptionsFor(table, key);
    if option !in current then table[key := current + [option]] else table
  }

  /**
   * Adding an option keeps the old list as a prefix, adds nothing but the
   * option, and appends it only when it was absent.
   */
  lemma WithOptionExtends(options: seq<string>, option: string, x: string)
    ensures var r := WithOption(options, option);
      && |options| <= |r| <= |options| + 1
      && r[..|options|] == options
      && (x in r <==> x in options || x == option)
      && (option in options <==> r == options)
  {
    if option !in options {
      assert (options + [option])[..|options|] == options;
      assert |options + [option]| != |options|;
    }
  }

  /** Adding the same option again changes nothing. */
  lemma WithOptionIdempotent(options: seq<string>, option: string)
    ensures WithOption(WithOption(options, option), option) == WithOption(options, option)
  {
  }

  /** Adding an option to a list without repeats leaves it without repeats. */
  lemma WithOptionNoDuplicates(options: seq<string>, option: string)
    requires NoDuplicates(options)
    ensures NoDuplicates(WithOption(options, option))
  {
    var r := WithOption(options, option);
    if option !in options {
      forall i, j | 0 <= i < j < |r| ensures r[i] != r[j] {
        if j == |options| {
          assert r[i] == options[i];
        } else {
          assert r[i] == options[i] && r[j] == options[j];
        }
      }
    }
  }

  /**
   * A keyed add changes only the list under its key, which gains the option
   * at its end exactly when it was absent; every other key keeps its list.
   */
  lemma WithKeyedOptionEffect<K>(table: map<K, seq<string>>, key: K, option: string, other: K)
    requires other != key
    ensures var r := WithKeyedOption(table, key, option);
      && OptionsFor(r, key) == WithOption(OptionsFor(table, key), option)
      && (other in r <==> other in table)
      && OptionsFor(r, other) == OptionsFor(table, other)
  {
  }

  /** A keyed add of an option that is already listed under the key leaves the table as it is. */
  lemma WithKeyedOptionIdempotent<K>(table: map<K, seq<string>>, key: K, option: string)
    ensures var once := WithKeyedOption(table, key, option);
      WithKeyedOption(once, key, option) == once
  {
  }
}
