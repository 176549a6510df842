/**
 * Emoji inference: the keyword scan over `EMOJI_KEYWORDS` (first hit in
 * table order wins), the add form's automatic glyph choice (history, then
 * keyword, then a category default for an empty name), and the update of the
 * emoji history after the user picks a glyph.
 */
module Emoji {
  import opened Inventory
  import opened Text

  /** (keyword, glyph) pairs in the order the source object lists them. */
  type KeywordTable = seq<(string, string)>

  /** `EMOJI_KEYWORDS`, in source order (one constant per source line). */
  const EmojiKeywords: KeywordTable :=
    KeywordsMeat + KeywordsFish + KeywordsShellfish + KeywordsMilk + KeywordsDairy + KeywordsEgg + KeywordsLeafyGreens +
    KeywordsFruitingVegetables + KeywordsCorn + KeywordsOtherVegetables + KeywordsTubers + KeywordsRootVegetables + KeywordsAlliums + KeywordsMushrooms +
    KeywordsApples + KeywordsCitrus + KeywordsBerries + KeywordsOrchard + KeywordsRiceAndBread + KeywordsSandwiches + KeywordsNoodles +
    KeywordsDishes + KeywordsSweets + KeywordsConfectionery + KeywordsAlcohol + KeywordsDrinks + KeywordsSeasonings + KeywordsProcessed

  const KeywordsMeat: KeywordTable := [("牛", "🥩"), ("豚", "🥩"), ("鶏", "🍗"), ("肉", "🥩"), ("ハム", "🥩"), ("ソーセージ", "🌭"), ("ベーコン", "🥓"), ("ミンチ", "🥩"), ("ステーキ", "🥩"), ("焼肉", "🥩")]
  const KeywordsFish: KeywordTable := [("魚", "🐟"), ("鮭", "🐟"), ("鯖", "🐟"), ("鯵", "🐟"), ("鰯", "🐟"), ("鮪", "🐟"), ("刺身", "🐟"), ("切り身", "🐟")]
  const KeywordsShellfish: KeywordTable := [("エビ", "🦐"), ("海老", "🦐"), ("カニ", "🦀"), ("蟹", "🦀"), ("イカ", "🦑"), ("タコ", "🐙"), ("貝", "🦪"), ("あさり", "🦪"), ("しじみ", "🦪")]
  const KeywordsMilk: KeywordTable := [("牛乳", "🥛"), ("ミルク", "🥛"), ("豆乳", "🧃"), ("乳飲料", "🧃")]
  const KeywordsDairy: KeywordTable := [("ヨーグルト", "🥣"), ("のむヨーグルト", "🧃"), ("カップヨーグルト", "🥣"), ("チーズ", "🧀"), ("バター", "🧈"), ("マーガリン", "🧈"), ("クリーム", "🧁")]
  const KeywordsEgg: KeywordTable := [("卵", "🥚"), ("たまご", "🥚"), ("玉子", "🥚"), ("うずら", "🥚")]
  const KeywordsLeafyGreens: KeywordTable := [("キャベツ", "🥬"), ("レタス", "🥬"), ("白菜", "🥬"), ("ほうれん草", "🥬"), ("小松菜", "🥬"), ("青梗菜", "🥬"), ("ニラ", "🥬"), ("春菊", "🥬")]
  const KeywordsFruitingVegetables: KeywordTable := [("トマト", "🍅"), ("ミニトマト", "🍅"), ("なす", "🍆"), ("ナス", "🍆"), ("ピーマン", "🫑"), ("パプリカ", "🫑")]
  const KeywordsCorn: KeywordTable := [("とうもろこし", "🌽"), ("コーン", "🌽")]
  const KeywordsOtherVegetables: KeywordTable := [("きゅうり", "🥒"), ("ブロッコリー", "🥦"), ("カリフラワー", "🥦"), ("アボカド", "🥑"), ("アスパラ", "🎍")]
  const KeywordsTubers: KeywordTable := [("芋", "🥔"), ("ポテト", "🥔"), ("じゃがいも", "🥔"), ("さつまいも", "🍠"), ("里芋", "🥔"), ("長芋", "🥔")]
  const KeywordsRootVegetables: KeywordTable := [("人参", "🥕"), ("にんじん", "🥕"), ("大根", "🥢"), ("ごぼう", "🥢"), ("レンコン", "🥢")]
  const KeywordsAlliums: KeywordTable := [("玉ねぎ", "🧅"), ("タマネギ", "🧅"), ("ネギ", "🧅"), ("ねぎ", "🧅"), ("ニンニク", "🧄"), ("しょうが", "🫚")]
  const KeywordsMushrooms: KeywordTable := [("きのこ", "🍄"), ("マッシュルーム", "🍄"), ("しめじ", "🍄"), ("舞茸", "🍄"), ("エリンギ", "🍄"), ("椎茸", "🍄"), ("えのき", "🍄")]
  const KeywordsApples: KeywordTable := [("りんご", "🍎"), ("リンゴ", "🍎"), ("青りんご", "🍏")]
  const KeywordsCitrus: KeywordTable := [("みかん", "🍊"), ("オレンジ", "🍊"), ("グレープフルーツ", "🍊"), ("レモン", "🍋"), ("ゆず", "🍋")]
  const KeywordsBerries: KeywordTable := [("バナナ", "🍌"), ("ぶどう", "🍇"), ("マスカット", "🍇"), ("いちご", "🍓"), ("メロン", "🍈"), ("スイカ", "🍉")]
  const KeywordsOrchard: KeywordTable := [("桃", "🍑"), ("さくらんぼ", "🍒"), ("梨", "🍐"), ("パイナップル", "🍍"), ("マンゴー", "🥭"), ("キウイ", "🥝")]
  const KeywordsRiceAndBread: KeywordTable := [("ご飯", "🍚"), ("米", "🍚"), ("おにぎり", "🍙"), ("パン", "🍞"), ("食パン", "🍞"), ("ロールパン", "🥐"), ("クロワッサン", "🥐"), ("バゲット", "🥖"), ("フランスパン", "🥖")]
  const KeywordsSandwiches: KeywordTable := [("サンドイッチ", "🥪"), ("ハンバーガー", "🍔"), ("ピザ", "🍕"), ("中華まん", "🥟"), ("肉まん", "🥟")]
  const KeywordsNoodles: KeywordTable := [("うどん", "🍜"), ("そば", "🍜"), ("ラーメン", "🍜"), ("パスタ", "🍝"), ("スパゲッティ", "🍝"), ("麺", "🍜"), ("焼きそば", "🥡")]
  const KeywordsDishes: KeywordTable := [("カレー", "🍛"), ("シチュー", "🍲"), ("鍋", "🍲"), ("スープ", "🥣"), ("味噌汁", "🥣"), ("弁当", "🍱"), ("寿司", "🍣")]
  const KeywordsSweets: KeywordTable := [("アイス", "🍨"), ("ソフトクリーム", "🍦"), ("チョコ", "🍫"), ("クッキー", "🍪"), ("ケーキ", "🍰"), ("プリン", "🍮"), ("ゼリー", "🍮")]
  const KeywordsConfectionery: KeywordTable := [("団子", "🍡"), ("大福", "🍡"), ("和菓子", "🍵"), ("ドーナツ", "🍩"), ("キャンディ", "🍬"), ("スナック", "🍿"), ("ポテチ", "🥔")]
  const KeywordsAlcohol: KeywordTable := [("酒", "🍶"), ("ビール", "🍺"), ("発泡酒", "🍺"), ("ワイン", "🍷"), ("シャンパン", "🍾"), ("チューハイ", "🍹"), ("サワー", "🍹"), ("ハイボール", "🥃"), ("ウイスキー", "🥃"), ("焼酎", "🍶"), ("日本酒", "🍶")]
  const KeywordsDrinks: KeywordTable := [("ジュース", "🧃"), ("コーラ", "🥤"), ("サイダー", "🥤"), ("コーヒー", "☕"), ("珈琲", "☕"), ("お茶", "🍵"), ("紅茶", "🫖"), ("水", "💧"), ("ミネラルウォーター", "💧"), ("炭酸水", "💧")]
  const KeywordsSeasonings: KeywordTable := [("塩", "🧂"), ("砂糖", "🫙"), ("醤油", "🫙"), ("ソース", "🫙"), ("マヨネーズ", "🫙"), ("ケチャップ", "🫙"), ("ドレッシング", "🫙"), ("油", "🫗"), ("だし", "🍲")]
  const KeywordsProcessed: KeywordTable := [("豆腐", "🧊"), ("納豆", "🥢"), ("こんにゃく", "🧊"), ("ちくわ", "🥢"), ("かまぼこ", "🍥"), ("缶詰", "🥫"), ("ジャム", "🫙")]

  /** The glyph of the first entry, in table order, whose keyword occurs in `name`. */
  function FirstKeywordHit(name: string, table: KeywordTable): Option<string>
    decreases |table|
  {
    if table == [] then None
    else if Includes(name, table[0].0) then Some(table[0].1)
    else FirstKeywordHit(name, table[1..])
  }

  /** Entry `i` is the first entry whose keyword occurs in `name`. */
  predicate FirstHitAt(name: string, table: KeywordTable, i: int)
  {
    && 0 <= i < |table|
    && Includes(name, table[i].0)
    && forall j :: 0 <= j < i ==> !Includes(name, table[j].0)
  }

  /**
   * The scan finds nothing exactly when no keyword occurs in the name, and
   * otherwise yields the glyph of the earliest entry whose keyword occurs.
   */
  lemma {:induction false} FirstKeywordHitMeaning(name: string, table: KeywordTable)
    ensures FirstKeywordHit(name, table).None? <==> forall j :: 0 <= j < |table| ==> !Includes(name, table[j].0)
    ensures FirstKeywordHit(name, table).Some? ==>
      exists i :: FirstHitAt(name, table, i) && FirstKeywordHit(name, table).value == table[i].1
    decreases |table|
  {
    if table != [] {
      FirstKeywordHitMeaning(name, table[1..]);
      assert forall j :: 0 < j < |table| ==> table[j] == table[1..][j - 1];
      if Includes(name, table[0].0) {
        assert FirstHitAt(name, table, 0);
      } else if FirstKeywordHit(name, table[1..]).Some? {
        var i :| FirstHitAt(name, table[1..], i) && FirstKeywordHit(name, table[1..]).value == table[1..][i].1;
        assert FirstHitAt(name, table, i + 1);
      }
    }
  }

  /** The first hit decides: whatever later entries say, entry `i` wins. */
  lemma FirstHitWins(name: string, table: KeywordTable, i: int)
    requires FirstHitAt(name, table, i)
    ensures FirstKeywordHit(name, table) == Some(table[i].1)
  {
    FirstKeywordHitMeaning(name, table);
    var k :| FirstHitAt(name, table, k) && FirstKeywordHit(name, table).value == table[k].1;
    assert k == i;
  }

  /**
   * The scan loop (`for (const [key, emoji] of Object.entries(EMOJI_KEYWORDS))`
   * with `break` on the first hit): `found` tells whether a keyword occurred,
   * and `emoji` is its glyph, or `fallback` when nothing did.
   */
  method KeywordScan(name: string, table: KeywordTable, fallback: string) returns (found: bool, emoji: string)
    ensures found <==> FirstKeywordHit(name, table).Some?
    ensures emoji == if found then FirstKeywordHit(name, table).value else fallback
  {
    found, emoji := false, fallback;
    var i := 0;
    while i < |table|
      invariant 0 <= i <= |table|
      invariant FirstKeywordHit(name, table) == FirstKeywordHit(name, table[i..])
    {
      var (key, glyph) := table[i];
      if Includes(name, key) {
        emoji := glyph;
        found := true;
        break;
      }
      assert table[i..][1..] == table[i + 1..];
      i := i + 1;
    }
  }

  /** The glyph the shortage placeholder gets: the first keyword hit, or the box glyph. */
  function KeywordGlyph(name: string, table: KeywordTable): string
  {
    match FirstKeywordHit(name, table)
    case Some(glyph) => glyph
    case None => "📦"
  }

  /** The add form's per-category default glyph. */
  function CategoryDefault(c: Category): string
  {
    match c
    case Dairy => "🥛"
    case Egg => "🥚"
    case Meat => "🥩"
    case Fish => "🐟"
    case Vegetable => "🥦"
    case Fruit => "🍎"
    case Other => "📦"
  }

  /** An emoji-history entry is used when it is present and non-empty (a truthy value). */
  predicate HasHistory(history: map<string, string>, name: string)
  {
    name in history && history[name] != ""
  }

  /**
   * The glyph the add form shows after its automatic choice. `category` is
   * `None` while the category is still unset (`''`); `current` is the glyph
   * shown before the choice and stays when no rule applies.
   */
  function InferredEmoji(name: string, category: Option<Category>, history: map<string, string>,
                         table: KeywordTable, current: string): string
  {
    if name != "" && HasHistory(history, name) then history[name]
    else if name != "" && FirstKeywordHit(name, table).Some? then FirstKeywordHit(name, table).value
    else if name == "" && category.Some? then CategoryDefault(category.value)
    else current
  }

  /**
   * The add form's effect: the name is the custom category name when one is
   * being typed, else the chosen short name; then history, keyword scan and
   * category default are tried in that order.
   */
  method AutoEmoji(isCustomCategory: bool, customCategoryName: string, categorySmall: string,
                   category: Option<Category>, history: map<string, string>, table: KeywordTable,
                   current: string) returns (emoji: string)
    ensures emoji == InferredEmoji(if isCustomCategory then customCategoryName else categorySmall,
                                   category, history, table, current)
  {
    var currentName := if isCustomCategory then customCategoryName else categorySmall;
    emoji := current;
    if currentName != "" {
      if HasHistory(history, currentName) {
        emoji := history[currentName];
        return;
      }
      var found, glyph := KeywordScan(currentName, table, current);
      if found {
        emoji := glyph;
        return;
      }
    }
    if category.Some? {
      var defaultEmoji := CategoryDefault(category.value);
      if currentName == "" {
        emoji := defaultEmoji;
      }
    }
  }

  /** A history entry for the name wins over every keyword, and over the category. */
  lemma HistoryWins(name: string, category: Option<Category>, history: map<string, string>,
                    table: KeywordTable, current: string)
    requires name != "" && HasHistory(history, name)
    ensures InferredEmoji(name, category, history, table, current) == history[name]
  {
  }

  /** Without a history entry, the first keyword in table order that the name contains decides. */
  lemma KeywordOrderDecides(name: string, category: Option<Category>, history: map<string, string>,
                            table: KeywordTable, current: string, i: int)
    requires name != "" && !HasHistory(history, name) && FirstHitAt(name, table, i)
    ensures InferredEmoji(name, category, history, table, current) == table[i].1
  {
    FirstHitWins(name, table, i);
  }

  /**
   * A non-empty name never gets the category default: the glyph comes from
   * the history, from a keyword the name contains, or stays as it was.
   */
  lemma CategoryDefaultOnlyForEmptyName(name: string, category: Option<Category>, history: map<string, string>,
                                        table: KeywordTable, current: string)
    requires name != ""
    ensures var r := InferredEmoji(name, category, history, table, current);
      || (HasHistory(history, name) && r == history[name])
      || (exists i :: FirstHitAt(name, table, i) && r == table[i].1)
      || (r == current && forall j :: 0 <= j < |table| ==> !Includes(name, table[j].0))
  {
    FirstKeywordHitMeaning(name, table);
  }

  /** An empty name with a chosen category gets that category's default glyph. */
  lemma EmptyNameTakesCategoryDefault(category: Category, history: map<string, string>,
                                      table: KeywordTable, current: string)
    ensures InferredEmoji("", Some(category), history, table, current) == CategoryDefault(category)
  {
  }

  /** '牛乳' (milk) meets '牛' (beef) before its own entry, so it is shown with the meat glyph. */
  lemma MilkTakesBeefGlyph()
    ensures FirstKeywordHit("牛乳", EmojiKeywords) == Some("🥩")
    ensures InferredEmoji("牛乳", None, map[], EmojiKeywords, "📦") == "🥩"
    ensures KeywordGlyph("牛乳", EmojiKeywords) == "🥩"
  {
    var table := EmojiKeywords;
    assert table != [] && table[0] == ("牛", "🥩");
    assert Includes("牛乳", "牛") by {
      assert "牛" <= "牛乳";
    }
    assert FirstKeywordHit("牛乳", table) == Some("🥩");
  }

  /** `updateEmojiHistory`: the name now maps to the chosen glyph; every other entry is kept. */
  function UpdateEmojiHistory(history: map<string, string>, name: string, emoji: string): (r: map<string, string>)
    ensures name in r && r[name] == emoji
    ensures forall k :: k != name ==> (k in r <==> k in history) && (k in history ==> r[k] == history[k])
  {
    history[name := emoji]
  }

  /** After the user picks a non-empty glyph for a name, the form proposes that glyph for it. */
  lemma ChosenGlyphIsRemembered(name: string, emoji: string, category: Option<Category>,
                                history: map<string, string>, table: KeywordTable, current: string)
    requires name != "" && emoji != ""
    ensures InferredEmoji(name, category, UpdateEmojiHistory(history, name, emoji), table, current) == emoji
  {
  }
}
