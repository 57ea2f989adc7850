/**
 * The decision logic of the store screen, codename_clefairy/StoreScene.swift,
 * on values: item ids of the form "<category>_<rawValue>" and how they are
 * parsed back, the prefixes of the button node names, the list of cards a
 * tab shows and its filter, the labels of a card, and what buying an item
 * does to the ledger.
 */
module StoreItems {
  import opened Wrappers
  import opened Catalog
  import opened Ledger

  // ---------------------------------------------------------------- splitting and joining

  const Underscore: char := '_'

  /** The length of the piece of `s` before its first `sep` (all of `s` when there is none). */
  function PieceLength(s: string, sep: char): (n: nat)
    ensures n <= |s|
    ensures forall k :: 0 <= k < n ==> s[k] != sep
    ensures n < |s| ==> s[n] == sep
    ensures s != [] && s[0] != sep ==> n > 0
  {
    if s == [] || s[0] == sep then 0 else 1 + PieceLength(s[1..], sep)
  }

  /**
   * Swift's `split(separator:)`, which omits empty pieces: the maximal runs
   * of `s` free of `sep`, in order.
   */
  function Split(s: string, sep: char): (parts: seq<string>)
    ensures forall i :: 0 <= i < |parts| ==> parts[i] != [] && sep !in parts[i]
    decreases |s|
  {
    if s == [] then []
    else if s[0] == sep then Split(s[1..], sep)
    else
      var n := PieceLength(s, sep);
      [s[..n]] + Split(s[n..], sep)
  }

  /** Swift's `joined(separator:)`. */
  function Join(parts: seq<string>, sep: char): (s: string)
    ensures |parts| > 0 ==> parts[0] <= s
  {
    if parts == [] then []
    else if |parts| == 1 then parts[0]
    else parts[0] + [sep] + Join(parts[1..], sep)
  }

  /** Parts that `Split` can produce: non-empty and free of the separator. */
  predicate Pieces(parts: seq<string>, sep: char) {
    forall i :: 0 <= i < |parts| ==> parts[i] != [] && sep !in parts[i]
  }

  /** A separator-free non-empty piece in front is split off as the first part. */
  lemma SplitFirstPiece(a: string, sep: char, b: string)
    requires a != [] && sep !in a
    ensures Split(a + [sep] + b, sep) == [a] + Split(b, sep)
    ensures Split(a, sep) == [a]
  {
    var s := a + [sep] + b;
    var n := PieceLength(s, sep);
    assert s[|a|] == sep;
    forall k | 0 <= k < |a| ensures s[k] != sep {
      assert s[k] == a[k] && a[k] in a;
    }
    assert n == |a|;
    assert s[..n] == a;
    assert s[n..][1..] == b;
    var m := PieceLength(a, sep);
    forall k | 0 <= k < |a| ensures a[k] != sep {
      assert a[k] in a;
    }
    assert a[..m] == a && a[m..] == [];
  }

  /** Splitting what was joined gives the pieces back. */
  lemma {:induction false} SplitJoin(parts: seq<string>, sep: char)
    requires Pieces(parts, sep)
    ensures Split(Join(parts, sep), sep) == parts
  {
    if |parts| == 1 {
      SplitFirstPiece(parts[0], sep, []);
    } else if |parts| > 1 {
      SplitFirstPiece(parts[0], sep, Join(parts[1..], sep));
      SplitJoin(parts[1..], sep);
    }
  }

  // ---------------------------------------------------------------- item ids

  /** The id of a store item: its category tag, an underscore, its raw value. */
  function ItemId(tag: string, raw: string): (id: string)
    ensures |id| == |tag| + 1 + |raw|
    ensures id[..|tag|] == tag && id[|tag|] == Underscore && id[|tag| + 1..] == raw
  {
    tag + [Underscore] + raw
  }

  /**
   * How `showPreview`, `handlePurchase` and the action button read an id:
   * split on "_", at least two parts, the first is the category tag and the
   * rest joined again with "_" is the item name.
   */
  function ParseItemId(id: string): (r: Option<(string, string)>)
    ensures r.Some? ==> r.value.0 != [] && Underscore !in r.value.0 && r.value.1 != []
  {
    var parts := Split(id, Underscore);
    if |parts| < 2 then None else Some((parts[0], Join(parts[1..], Underscore)))
  }

  /** An id round-trips when its tag is one piece and its name is one or more pieces. */
  lemma ItemIdRoundTrip(tag: string, pieces: seq<string>)
    requires tag != [] && Underscore !in tag
    requires |pieces| >= 1 && Pieces(pieces, Underscore)
    ensures ParseItemId(ItemId(tag, Join(pieces, Underscore))) == Some((tag, Join(pieces, Underscore)))
  {
    var name := Join(pieces, Underscore);
    SplitFirstPiece(tag, Underscore, name);
    SplitJoin(pieces, Underscore);
    assert Split(ItemId(tag, name), Underscore) == [tag] + pieces;
  }

  /** In particular `"<tag>_<name>"` parses back to (tag, name) for any non-empty name without "_". */
  lemma SimpleItemIdRoundTrip(tag: string, name: string)
    requires tag != [] && Underscore !in tag
    requires name != [] && Underscore !in name
    ensures ParseItemId(ItemId(tag, name)) == Some((tag, name))
  {
    ItemIdRoundTrip(tag, [name]);
  }

  /** An id without any "_" is not an item id: it has fewer than two parts. */
  lemma {:induction false} NoUnderscoreNoItem(id: string)
    requires Underscore !in id
    ensures ParseItemId(id) == None
  {
    if id != [] {
      SplitFirstPiece(id, Underscore, []);
    }
  }

  /** The category tag of the ids of a tab's items. */
  function Tag(c: StoreCategory): string {
    match c
    case Skins => "skin"
    case Themes => "theme"
    case EmojiPacks => "emoji"
    case Effects => "effect"
    case PowerUps => "powerup"
  }

  // ---------------------------------------------------------------- node names

  const TabPrefix: string := "tab_"
  const FilterPrefix: string := "filter_"
  const TryPrefix: string := "try_"
  const ActionPrefix: string := "action_"
  const ConfirmPrefix: string := "confirm_buy_"
  const CancelName: string := "cancel_buy"
  const BackName: string := "back_btn"

  /** Swift's `starts(with:)`. */
  predicate StartsWith(s: string, prefix: string) {
    |prefix| <= |s| && s[..|prefix|] == prefix
  }

  /** Swift's `dropFirst(n)`: everything after the first n characters, empty when there are fewer. */
  function DropFirst(s: string, n: nat): (r: string)
    ensures |r| == if n <= |s| then |s| - n else 0
    ensures n <= |s| ==> s == s[..n] + r
  {
    if n <= |s| then s[n..] else []
  }

  /** Prefixing a node name and stripping that many characters again gives the suffix back. */
  lemma DropPrefix(prefix: string, x: string)
    ensures StartsWith(prefix + x, prefix)
    ensures DropFirst(prefix + x, |prefix|) == x
  {
    assert (prefix + x)[..|prefix|] == prefix;
    assert (prefix + x)[|prefix|..] == x;
  }

  /** The counts `touchesBegan` drops are exactly the lengths of the prefixes it tests. */
  lemma PrefixLengths()
    ensures |ConfirmPrefix| == 12 && |ActionPrefix| == 7 && |FilterPrefix| == 7
    ensures |TryPrefix| == 4 && |TabPrefix| == 4
  {
  }

  /**
   * `dropFirst(12)` of "confirm_buy_"+id, `dropFirst(7)` of "action_"/"filter_"+x
   * and `dropFirst(4)` of "try_"/"tab_"+x give back the suffix.
   */
  lemma StrippedNodeNames(x: string)
    ensures DropFirst(ConfirmPrefix + x, 12) == x && StartsWith(ConfirmPrefix + x, ConfirmPrefix)
    ensures DropFirst(ActionPrefix + x, 7) == x && StartsWith(ActionPrefix + x, ActionPrefix)
    ensures DropFirst(FilterPrefix + x, 7) == x && StartsWith(FilterPrefix + x, FilterPrefix)
    ensures DropFirst(TryPrefix + x, 4) == x && StartsWith(TryPrefix + x, TryPrefix)
    ensures DropFirst(TabPrefix + x, 4) == x && StartsWith(TabPrefix + x, TabPrefix)
  {
    DropPrefix(ConfirmPrefix, x);
    DropPrefix(ActionPrefix, x);
    DropPrefix(FilterPrefix, x);
    DropPrefix(TryPrefix, x);
    DropPrefix(TabPrefix, x);
  }

  // ---------------------------------------------------------------- the cards of a tab

  /** One card of the store: the tuple `loadCategoryItems` builds, without its presentation fields. */
  datatype StoreItem = StoreItem(name: string, cost: int, isOwned: bool, isSelected: bool, id: string)

  /** The number of cases a tab lists. */
  function CaseCount(c: StoreCategory): nat {
    match c
    case Skins => |AllSkins|
    case Themes => |AllThemes|
    case EmojiPacks => |AllPacks|
    case Effects => |AllEffects|
    case PowerUps => |AllPowerUps|
  }

  /** The card of the i-th case of tab `c`, for the ledger `h`; power-ups are never owned or selected. */
  function ItemAt(h: Holdings, c: StoreCategory, i: nat): StoreItem
    requires i < CaseCount(c)
  {
    match c
    case Skins =>
      var s := AllSkins[i];
      StoreItem(SkinRaw(s), SkinCost(s), s in h.skins, h.skin == s, ItemId(Tag(c), SkinRaw(s)))
    case Themes =>
      var t := AllThemes[i];
      StoreItem(ThemeRaw(t), ThemeCost(t), t in h.themes, h.theme == t, ItemId(Tag(c), ThemeRaw(t)))
    case EmojiPacks =>
      var p := AllPacks[i];
      StoreItem(PackRaw(p), PackCost(p), p in h.packs, h.pack == p, ItemId(Tag(c), PackRaw(p)))
    case Effects =>
      var e := AllEffects[i];
      StoreItem(EffectRaw(e), EffectCost(e), e in h.effects, h.effect == e, ItemId(Tag(c), EffectRaw(e)))
    case PowerUps =>
      var u := AllPowerUps[i];
      StoreItem(PowerUpRaw(u), PowerUpCost(u), false, false, ItemId(Tag(c), PowerUpRaw(u)))
  }

  /** Every card of tab `c`, in the order of the enumeration's `allCases`. */
  function CategoryItems(h: Holdings, c: StoreCategory): (items: seq<StoreItem>)
    ensures |items| == CaseCount(c)
  {
    seq(CaseCount(c), i requires 0 <= i < CaseCount(c) => ItemAt(h, c, i))
  }

  /** The i-th case of tab `c` is owned in `h` (power-ups never are). */
  predicate Holds(h: Holdings, c: StoreCategory, i: nat)
    requires i < CaseCount(c)
  {
    match c
    case Skins => AllSkins[i] in h.skins
    case Themes => AllThemes[i] in h.themes
    case EmojiPacks => AllPacks[i] in h.packs
    case Effects => AllEffects[i] in h.effects
    case PowerUps => false
  }

  /** The i-th case of tab `c` is the selected one in `h` (power-ups never are). */
  predicate Wears(h: Holdings, c: StoreCategory, i: nat)
    requires i < CaseCount(c)
  {
    match c
    case Skins => AllSkins[i] == h.skin
    case Themes => AllThemes[i] == h.theme
    case EmojiPacks => AllPacks[i] == h.pack
    case Effects => AllEffects[i] == h.effect
    case PowerUps => false
  }

  /** The raw value of the i-th case of tab `c`. */
  function RawAt(c: StoreCategory, i: nat): string
    requires i < CaseCount(c)
  {
    match c
    case Skins => SkinRaw(AllSkins[i])
    case Themes => ThemeRaw(AllThemes[i])
    case EmojiPacks => PackRaw(AllPacks[i])
    case Effects => EffectRaw(AllEffects[i])
    case PowerUps => PowerUpRaw(AllPowerUps[i])
  }

  /** `s` is non-empty and has no "_". */
  predicate OnePiece(s: string) {
    s != [] && forall k :: 0 <= k < |s| ==> s[k] != Underscore
  }

  lemma SkinRawOnePiece(s: ButtonSkin) ensures OnePiece(SkinRaw(s)) {
    match s
    case Classic => case Wood => case Metal => case Jelly => case Galaxy => case Candy =>
  }

  lemma ThemeRawOnePiece(t: BackgroundTheme) ensures OnePiece(ThemeRaw(t)) {
    match t
    case Daylight => case Sunset => case Night => case Space =>
    case Ocean => case Forest => case Volcano => case Arctic =>
  }

  lemma PackRawOnePiece(p: EmojiPack) ensures OnePiece(PackRaw(p)) {
    match p
    case Standard => case Animals => case Food => case Sports =>
    case Travel => case Fantasy => case SpacePack => case Music =>
  }

  lemma EffectRawOnePiece(e: SpecialEffectPack) ensures OnePiece(EffectRaw(e)) {
    match e
    case NoEffect => case Confetti => case Fireworks => case Hearts =>
    case Stars => case Bubbles => case Lightning =>
  }

  lemma PowerUpRawOnePiece(u: PowerUp) ensures OnePiece(PowerUpRaw(u)) {
    match u
    case ExtraLife => case TimeFreeze => case Hint => case Shield => case DoubleCoins =>
  }

  /** Every raw value in the catalog is one piece: non-empty and without "_". */
  lemma RawIsOnePiece(c: StoreCategory, i: nat)
    requires i < CaseCount(c)
    ensures RawAt(c, i) != [] && Underscore !in RawAt(c, i)
  {
    match c
    case Skins => SkinRawOnePiece(AllSkins[i]);
    case Themes => ThemeRawOnePiece(AllThemes[i]);
    case EmojiPacks => PackRawOnePiece(AllPacks[i]);
    case Effects => EffectRawOnePiece(AllEffects[i]);
    case PowerUps => PowerUpRawOnePiece(AllPowerUps[i]);
  }

  /** Different cases of a tab have different raw values. */
  lemma RawsDistinct(c: StoreCategory, i: nat, j: nat)
    requires i < j < CaseCount(c)
    ensures RawAt(c, i) != RawAt(c, j)
  {
    match c
    case Skins => SkinRawsDistinct();
    case Themes => ThemeRawsDistinct();
    case EmojiPacks => PackRawsDistinct();
    case Effects => EffectRawsDistinct();
    case PowerUps => PowerUpRawsDistinct();
  }

  lemma SkinRawsDistinct() ensures DistinctRaw(AllSkins, SkinRaw) { }
  lemma ThemeRawsDistinct() ensures DistinctRaw(AllThemes, ThemeRaw) { }
  lemma PackRawsDistinct() ensures DistinctRaw(AllPacks, PackRaw) { }
  lemma EffectRawsDistinct() ensures DistinctRaw(AllEffects, EffectRaw) { }
  lemma PowerUpRawsDistinct() ensures DistinctRaw(AllPowerUps, PowerUpRaw) { }

  /**
   * A card names its case by raw value, carries its cost, says whether the
   * case is owned and selected, and its id parses back to the tab's tag and
   * that raw value.
   */
  lemma ListedItem(h: Holdings, c: StoreCategory, i: nat)
    requires i < CaseCount(c)
    ensures var x := CategoryItems(h, c)[i];
            x.name == RawAt(c, i) && x.id == ItemId(Tag(c), x.name) &&
            (x.isOwned <==> Holds(h, c, i)) && (x.isSelected <==> Wears(h, c, i)) &&
            ParseItemId(x.id) == Some((Tag(c), x.name))
  {
    RawIsOnePiece(c, i);
    SimpleItemIdRoundTrip(Tag(c), RawAt(c, i));
  }

  /** No two cards of a tab share an id. */
  lemma {:induction false} ItemIdsDistinct(h: Holdings, c: StoreCategory, i: nat, j: nat)
    requires i < j < CaseCount(c)
    ensures CategoryItems(h, c)[i].id != CategoryItems(h, c)[j].id
  {
    ListedItem(h, c, i);
    ListedItem(h, c, j);
    RawsDistinct(c, i, j);
    assert CategoryItems(h, c)[i].id[|Tag(c)| + 1..] == RawAt(c, i);
    assert CategoryItems(h, c)[j].id[|Tag(c)| + 1..] == RawAt(c, j);
  }

  // ---------------------------------------------------------------- the filter

  /** The closure passed to `items.filter` in `loadCategoryItems`. */
  predicate Keep(f: StoreFilter, c: StoreCategory, coins: int, x: StoreItem) {
    match f
    case All => true
    case Owned => x.isOwned || c == PowerUps
    case Affordable => coins >= x.cost
    case NotOwned => !x.isOwned && c != PowerUps
  }

  /**
   * The filter rule by tab: "Owned" and "Not Owned" are complementary on the
   * cosmetic tabs, and on the power-up tab they keep everything and nothing.
   */
  lemma KeepByTab(c: StoreCategory, coins: int, x: StoreItem)
    ensures Keep(All, c, coins, x)
    ensures Keep(Affordable, c, coins, x) <==> x.cost <= coins
    ensures c == PowerUps ==> Keep(Owned, c, coins, x) && !Keep(NotOwned, c, coins, x)
    ensures c != PowerUps ==> (Keep(Owned, c, coins, x) <==> x.isOwned) && (Keep(NotOwned, c, coins, x) <==> !x.isOwned)
  {
  }

  /** `items.filter(Keep)`: the kept cards, in their original order. */
  function FilterItems(items: seq<StoreItem>, f: StoreFilter, c: StoreCategory, coins: int): (r: seq<StoreItem>)
    ensures |r| <= |items|
  {
    if items == [] then []
    else (if Keep(f, c, coins, items[0]) then [items[0]] else []) + FilterItems(items[1..], f, c, coins)
  }

  /** The filter keeps exactly the cards its rule accepts. */
  lemma {:induction false} FilterKeepsExactly(items: seq<StoreItem>, f: StoreFilter, c: StoreCategory, coins: int)
    ensures forall x :: x in FilterItems(items, f, c, coins) <==> x in items && Keep(f, c, coins, x)
  {
    if items != [] {
      FilterKeepsExactly(items[1..], f, c, coins);
      assert items == [items[0]] + items[1..];
    }
  }

  /** What the screen lists for ledger `h`, tab `c` and filter `f`. */
  function Listing(h: Holdings, c: StoreCategory, f: StoreFilter): seq<StoreItem> {
    FilterItems(CategoryItems(h, c), f, c, h.coins)
  }

  /** Filtering distributes over concatenation, so it keeps the relative order of the cards. */
  lemma {:induction false} FilterAppend(a: seq<StoreItem>, b: seq<StoreItem>, f: StoreFilter, c: StoreCategory, coins: int)
    ensures FilterItems(a + b, f, c, coins) == FilterItems(a, f, c, coins) + FilterItems(b, f, c, coins)
  {
    if a == [] {
      assert a + b == b;
    } else {
      var head := if Keep(f, c, coins, a[0]) then [a[0]] else [];
      assert (a + b)[0] == a[0] && (a + b)[1..] == a[1..] + b;
      calc {
        FilterItems(a + b, f, c, coins);
        head + FilterItems(a[1..] + b, f, c, coins);
        { FilterAppend(a[1..], b, f, c, coins); }
        head + (FilterItems(a[1..], f, c, coins) + FilterItems(b, f, c, coins));
        { AppendAssociates(head, FilterItems(a[1..], f, c, coins), FilterItems(b, f, c, coins)); }
        (head + FilterItems(a[1..], f, c, coins)) + FilterItems(b, f, c, coins);
        FilterItems(a, f, c, coins) + FilterItems(b, f, c, coins);
      }
    }
  }

  /** Concatenation associates. */
  lemma AppendAssociates<T>(x: seq<T>, y: seq<T>, z: seq<T>)
    ensures x + (y + z) == (x + y) + z
  {
  }

  /** A card survives the filter exactly when the filter's rule accepts it. */
  lemma {:induction false} FilterOfOne(x: StoreItem, f: StoreFilter, c: StoreCategory, coins: int)
    ensures FilterItems([x], f, c, coins) == if Keep(f, c, coins, x) then [x] else []
  {
    assert [x][1..] == [];
  }

  /** "All" keeps every card. */
  lemma {:induction false} FilterAllKeepsEverything(items: seq<StoreItem>, c: StoreCategory, coins: int)
    ensures FilterItems(items, All, c, coins) == items
  {
    if items != [] {
      FilterAllKeepsEverything(items[1..], c, coins);
      assert items == [items[0]] + items[1..];
    }
  }

  /** On the power-up tab "Owned" keeps every card and "Not Owned" none. */
  lemma {:induction false} PowerUpsTabFilters(items: seq<StoreItem>, coins: int)
    ensures FilterItems(items, Owned, PowerUps, coins) == items
    ensures FilterItems(items, NotOwned, PowerUps, coins) == []
  {
    if items != [] {
      PowerUpsTabFilters(items[1..], coins);
      assert items == [items[0]] + items[1..];
    }
  }

  /** On every other tab "Owned" and "Not Owned" split the cards between them. */
  lemma {:induction false} OwnedNotOwnedPartition(items: seq<StoreItem>, c: StoreCategory, coins: int)
    requires c != PowerUps
    ensures multiset(FilterItems(items, Owned, c, coins)) + multiset(FilterItems(items, NotOwned, c, coins)) == multiset(items)
    ensures |FilterItems(items, Owned, c, coins)| + |FilterItems(items, NotOwned, c, coins)| == |items|
  {
    if items != [] {
      OwnedNotOwnedPartition(items[1..], c, coins);
      assert items == [items[0]] + items[1..];
    }
  }

  // ---------------------------------------------------------------- card labels

  /** The price line of a card: a power-up's stock, "OWNED", or the price. */
  datatype PriceTag = InStock(count: int) | OwnedTag | Price(cost: int)

  /** The price line `createItemCard` chooses; an unknown power-up name counts as the hint. */
  function PriceTagOf(c: StoreCategory, x: StoreItem, inventory: map<PowerUp, int>): (t: PriceTag)
    ensures t.InStock? <==> c == PowerUps
    ensures t.OwnedTag? <==> c != PowerUps && x.isOwned
    ensures t.Price? ==> t.cost == x.cost && !x.isOwned
    ensures t.InStock? && PowerUpFromRaw(x.name).Some? ==> t.count == Count(inventory, PowerUpFromRaw(x.name).value)
  {
    if c == PowerUps then InStock(Count(inventory, PowerUpFromRaw(x.name).GetOr(Hint)))
    else if x.isOwned then OwnedTag
    else Price(x.cost)
  }

  /** The text of the action button `createItemCard` chooses. */
  function ActionLabel(c: StoreCategory, x: StoreItem): (text: string)
    ensures text == "BUY" || text == "EQUIPPED" || text == "EQUIP"
    ensures text == "EQUIPPED" <==> c != PowerUps && x.isSelected
    ensures text == "EQUIP" <==> c != PowerUps && !x.isSelected && x.isOwned
  {
    if c == PowerUps then "BUY"
    else if x.isSelected then "EQUIPPED"
    else if x.isOwned then "EQUIP"
    else "BUY"
  }

  /** Every selection is among the unlocks, as the store keeps it. */
  predicate Consistent(h: Holdings) {
    h.skin in h.skins && h.theme in h.themes && h.pack in h.packs && h.effect in h.effects
  }

  /**
   * On a consistent ledger the two labels of a card agree: a card offers to
   * buy exactly when it shows a price, and a power-up card shows that
   * power-up's own stock.
   */
  lemma ListedLabels(h: Holdings, c: StoreCategory, i: nat)
    requires i < CaseCount(c) && Consistent(h)
    ensures var x := CategoryItems(h, c)[i];
            (c == PowerUps ==> ActionLabel(c, x) == "BUY" &&
                               PriceTagOf(c, x, h.inventory) == InStock(Count(h.inventory, AllPowerUps[i]))) &&
            (c != PowerUps ==> (ActionLabel(c, x) == "BUY" <==> PriceTagOf(c, x, h.inventory).Price?) &&
                               (ActionLabel(c, x) == "EQUIPPED" <==> Wears(h, c, i)) &&
                               (ActionLabel(c, x) == "EQUIP" <==> Holds(h, c, i) && !Wears(h, c, i)))
  {
    if c == PowerUps {
      PowerUpRawRoundTrip(AllPowerUps[i]);
    }
  }

  /** The position of the selected case of tab `c` among its cases. */
  function SelectedIndex(h: Holdings, c: StoreCategory): (k: nat)
    requires c != PowerUps
    ensures k < CaseCount(c) && Wears(h, c, k)
  {
    match c
    case Skins =>
      (match h.skin
       case Classic => 0 case Wood => 1 case Metal => 2 case Jelly => 3 case Galaxy => 4 case Candy => 5)
    case Themes =>
      (match h.theme
       case Daylight => 0 case Sunset => 1 case Night => 2 case Space => 3
       case Ocean => 4 case Forest => 5 case Volcano => 6 case Arctic => 7)
    case EmojiPacks =>
      (match h.pack
       case Standard => 0 case Animals => 1 case Food => 2 case Sports => 3
       case Travel => 4 case Fantasy => 5 case SpacePack => 6 case Music => 7)
    case Effects =>
      (match h.effect
       case NoEffect => 0 case Confetti => 1 case Fireworks => 2 case Hearts => 3
       case Stars => 4 case Bubbles => 5 case Lightning => 6)
  }

  /** Only one case of a tab is the selected one. */
  lemma SelectedIsUnique(h: Holdings, c: StoreCategory, i: nat)
    requires c != PowerUps && i < CaseCount(c)
    ensures Wears(h, c, i) <==> i == SelectedIndex(h, c)
  {
    var k := SelectedIndex(h, c);
    if i < k {
      RawsDistinct(c, i, k);
    } else if k < i {
      RawsDistinct(c, k, i);
    }
  }

  /** On a tab other than power-ups exactly one card says "EQUIPPED": the selected one. */
  lemma OneCardEquipped(h: Holdings, c: StoreCategory)
    requires c != PowerUps
    ensures exists i :: 0 <= i < CaseCount(c) && ActionLabel(c, CategoryItems(h, c)[i]) == "EQUIPPED"
    ensures forall i, j ::
              (0 <= i < CaseCount(c) && 0 <= j < CaseCount(c) &&
               ActionLabel(c, CategoryItems(h, c)[i]) == "EQUIPPED" &&
               ActionLabel(c, CategoryItems(h, c)[j]) == "EQUIPPED") ==> i == j
  {
    var k := SelectedIndex(h, c);
    assert ActionLabel(c, CategoryItems(h, c)[k]) == "EQUIPPED";
    forall i | 0 <= i < CaseCount(c)
      ensures ActionLabel(c, CategoryItems(h, c)[i]) == "EQUIPPED" <==> i == k
    {
      SelectedIsUnique(h, c, i);
    }
  }

  // ---------------------------------------------------------------- buying

  /** How `handlePurchase` ends: ignored (malformed id), success, or the "NOT ENOUGH COINS!" alert. */
  datatype Outcome = Ignored | Succeeded | Failed

  /** The cosmetic branch of `handlePurchase` on one unlock list. */
  datatype Equip<T> = Equip(outcome: Outcome, coins: int, owned: seq<T>, select: bool)

  /** Equip an owned item; otherwise unlock it and equip it only if the unlock succeeded. */
  function EquipOrUnlock<T(==,!new)>(coins: int, owned: seq<T>, item: T, cost: int): (e: Equip<T>)
    ensures e.outcome != Ignored && (e.select <==> e.outcome == Succeeded)
    ensures e.outcome == Succeeded <==> item in owned || coins >= cost
    ensures e.outcome == Failed ==> e.coins == coins && e.owned == owned
    ensures e.outcome == Succeeded ==> item in e.owned
  {
    if item in owned then Equip(Succeeded, coins, owned, true)
    else
      var d := Unlock(coins, owned, item, cost);
      Equip(if d.ok then Succeeded else Failed, d.coins, d.owned, d.ok)
  }

  /**
   * An owned item is selected at no charge; an unowned one is bought and
   * selected exactly when the balance covers it, and otherwise nothing changes.
   */
  lemma EquipOrUnlockSpec<T(!new)>(coins: int, owned: seq<T>, item: T, cost: int)
    ensures var e := EquipOrUnlock(coins, owned, item, cost);
            (e.select <==> e.outcome == Succeeded) && e.outcome != Ignored &&
            (item in owned ==> e.outcome == Succeeded && e.coins == coins && e.owned == owned) &&
            (item !in owned ==> (e.outcome == Succeeded <==> coins >= cost)) &&
            (item !in owned && coins >= cost ==> e.coins == coins - cost && e.owned == owned + [item]) &&
            (e.outcome == Failed ==> e.coins == coins && e.owned == owned)
  {
  }

  /** The skin branch: on success the skin is owned and selected; only the coins and the skin fields can change. */
  function BuySkin(h: Holdings, s: ButtonSkin): (r: (Outcome, Holdings))
    ensures r.0 != Ignored && (r.0 == Succeeded <==> s in h.skins || h.coins >= SkinCost(s))
    ensures r.0 == Succeeded ==> r.1.skin == s && s in r.1.skins
    ensures r.1 == h.(coins := r.1.coins, skins := r.1.skins, skin := r.1.skin)
  {
    var e := EquipOrUnlock(h.coins, h.skins, s, SkinCost(s));
    (e.outcome, h.(coins := e.coins, skins := e.owned, skin := if e.select then s else h.skin))
  }

  /** The theme branch, as `BuySkin` for themes. */
  function BuyTheme(h: Holdings, t: BackgroundTheme): (r: (Outcome, Holdings))
    ensures r.0 != Ignored && (r.0 == Succeeded <==> t in h.themes || h.coins >= ThemeCost(t))
    ensures r.0 == Succeeded ==> r.1.theme == t && t in r.1.themes
    ensures r.1 == h.(coins := r.1.coins, themes := r.1.themes, theme := r.1.theme)
  {
    var e := EquipOrUnlock(h.coins, h.themes, t, ThemeCost(t));
    (e.outcome, h.(coins := e.coins, themes := e.owned, theme := if e.select then t else h.theme))
  }

  /** The emoji branch, as `BuySkin` for emoji packs. */
  function BuyPack(h: Holdings, p: EmojiPack): (r: (Outcome, Holdings))
    ensures r.0 != Ignored && (r.0 == Succeeded <==> p in h.packs || h.coins >= PackCost(p))
    ensures r.0 == Succeeded ==> r.1.pack == p && p in r.1.packs
    ensures r.1 == h.(coins := r.1.coins, packs := r.1.packs, pack := r.1.pack)
  {
    var e := EquipOrUnlock(h.coins, h.packs, p, PackCost(p));
    (e.outcome, h.(coins := e.coins, packs := e.owned, pack := if e.select then p else h.pack))
  }

  /** The effect branch, as `BuySkin` for effect packs. */
  function BuyEffect(h: Holdings, x: SpecialEffectPack): (r: (Outcome, Holdings))
    ensures r.0 != Ignored && (r.0 == Succeeded <==> x in h.effects || h.coins >= EffectCost(x))
    ensures r.0 == Succeeded ==> r.1.effect == x && x in r.1.effects
    ensures r.1 == h.(coins := r.1.coins, effects := r.1.effects, effect := r.1.effect)
  {
    var e := EquipOrUnlock(h.coins, h.effects, x, EffectCost(x));
    (e.outcome, h.(coins := e.coins, effects := e.owned, effect := if e.select then x else h.effect))
  }

  /** The power-up branch: one unit through `purchasePowerUp`. */
  function BuyPowerUp(h: Holdings, u: PowerUp): (r: (Outcome, Holdings))
    ensures r.0 != Ignored && (r.0 == Succeeded <==> h.coins >= PowerUpCost(u))
    ensures r.0 == Succeeded ==>
              r.1.coins == h.coins - PowerUpCost(u) && Count(r.1.inventory, u) == Count(h.inventory, u) + 1
    ensures r.1 == h.(coins := r.1.coins, inventory := r.1.inventory)
  {
    var r := PurchasePowerUps(h.coins, h.inventory, u, 1);
    (if r.ok then Succeeded else Failed, h.(coins := r.coins, inventory := r.inventory))
  }

  /** The switch of `handlePurchase` on the category tag; an unknown tag or name fails. */
  function Dispatch(h: Holdings, tag: string, name: string): (r: (Outcome, Holdings))
    ensures r.0 != Ignored
    ensures r.0 != Succeeded ==> r.1 == h
    ensures tag !in ["skin", "theme", "emoji", "effect", "powerup"] ==> r == (Failed, h)
  {
    if tag == "skin" then
      (match SkinFromRaw(name) case Some(s) => BuySkin(h, s) case None => (Failed, h))
    else if tag == "theme" then
      (match ThemeFromRaw(name) case Some(t) => BuyTheme(h, t) case None => (Failed, h))
    else if tag == "emoji" then
      (match PackFromRaw(name) case Some(p) => BuyPack(h, p) case None => (Failed, h))
    else if tag == "effect" then
      (match EffectFromRaw(name) case Some(e) => BuyEffect(h, e) case None => (Failed, h))
    else if tag == "powerup" then
      (match PowerUpFromRaw(name) case Some(u) => BuyPowerUp(h, u) case None => (Failed, h))
    else (Failed, h)
  }

  /** `handlePurchase(itemId:)` on values: the outcome and the ledger afterwards. */
  function Purchase(h: Holdings, id: string): (r: (Outcome, Holdings))
    ensures r.0 == Ignored <==> ParseItemId(id).None?
    ensures r.0 != Succeeded ==> r.1 == h
  {
    match ParseItemId(id)
    case None => (Ignored, h)
    case Some((tag, name)) => Dispatch(h, tag, name)
  }

  /** Buying the item of a card goes to the branch of its own case. */
  lemma PurchaseOfListedItem(h: Holdings, c: StoreCategory, i: nat)
    requires i < CaseCount(c)
    ensures Purchase(h, CategoryItems(h, c)[i].id) ==
            match c
            case Skins => BuySkin(h, AllSkins[i])
            case Themes => BuyTheme(h, AllThemes[i])
            case EmojiPacks => BuyPack(h, AllPacks[i])
            case Effects => BuyEffect(h, AllEffects[i])
            case PowerUps => BuyPowerUp(h, AllPowerUps[i])
  {
    ListedItem(h, c, i);
    match c
    case Skins => SkinRawRoundTrip(AllSkins[i]);
    case Themes => ThemeRawRoundTrip(AllThemes[i]);
    case EmojiPacks => PackRawRoundTrip(AllPacks[i]);
    case Effects => EffectRawRoundTrip(AllEffects[i]);
    case PowerUps => PowerUpRawRoundTrip(AllPowerUps[i]);
  }

  /** An id with an unknown category tag fails and changes nothing; one without "_" is ignored. */
  lemma UnknownOrMalformedIds(h: Holdings, tag: string, name: string, id: string)
    requires tag != [] && Underscore !in tag && name != [] && Underscore !in name
    requires tag !in ["skin", "theme", "emoji", "effect", "powerup"]
    requires Underscore !in id
    ensures Purchase(h, ItemId(tag, name)) == (Failed, h)
    ensures Purchase(h, id) == (Ignored, h)
  {
    SimpleItemIdRoundTrip(tag, name);
    NoUnderscoreNoItem(id);
  }

  /**
   * A purchase either succeeds or leaves the ledger as it was, never takes
   * the balance below zero, never loses an unlock, and keeps every selection
   * among the unlocks.
   */
  predicate Guarded(h: Holdings, r: (Outcome, Holdings)) {
    var (outcome, h') := r;
    (outcome != Succeeded ==> h' == h) &&
    (h.coins >= 0 ==> h'.coins >= 0) &&
    (forall s :: s in h.skins ==> s in h'.skins) &&
    (forall t :: t in h.themes ==> t in h'.themes) &&
    (forall p :: p in h.packs ==> p in h'.packs) &&
    (forall e :: e in h.effects ==> e in h'.effects) &&
    (Consistent(h) ==> Consistent(h'))
  }

  lemma PurchaseGuarantees(h: Holdings, id: string)
    ensures Guarded(h, Purchase(h, id))
  {
    match ParseItemId(id)
    case None =>
    case Some((tag, name)) =>
      if tag == "skin" {
        match SkinFromRaw(name)
        case Some(s) => BuySkinGuarded(h, s);
        case None =>
      } else if tag == "theme" {
        match ThemeFromRaw(name)
        case Some(t) => BuyThemeGuarded(h, t);
        case None =>
      } else if tag == "emoji" {
        match PackFromRaw(name)
        case Some(p) => BuyPackGuarded(h, p);
        case None =>
      } else if tag == "effect" {
        match EffectFromRaw(name)
        case Some(e) => BuyEffectGuarded(h, e);
        case None =>
      } else if tag == "powerup" {
        match PowerUpFromRaw(name)
        case Some(u) => BuyPowerUpGuarded(h, u);
        case None =>
      }
  }

  lemma BuySkinGuarded(h: Holdings, s: ButtonSkin) ensures Guarded(h, BuySkin(h, s)) {
    EquipOrUnlockSpec(h.coins, h.skins, s, SkinCost(s));
  }

  lemma BuyThemeGuarded(h: Holdings, t: BackgroundTheme) ensures Guarded(h, BuyTheme(h, t)) {
    EquipOrUnlockSpec(h.coins, h.themes, t, ThemeCost(t));
  }

  lemma BuyPackGuarded(h: Holdings, p: EmojiPack) ensures Guarded(h, BuyPack(h, p)) {
    EquipOrUnlockSpec(h.coins, h.packs, p, PackCost(p));
  }

  lemma BuyEffectGuarded(h: Holdings, e: SpecialEffectPack) ensures Guarded(h, BuyEffect(h, e)) {
    EquipOrUnlockSpec(h.coins, h.effects, e, EffectCost(e));
  }

  lemma BuyPowerUpGuarded(h: Holdings, u: PowerUp) ensures Guarded(h, BuyPowerUp(h, u)) {
  }

  // ---------------------------------------------------------------- the action button

  /** The cost and ownership the action button looks up for (tag, name); 0 and not owned when unknown. */
  function ActionInfo(h: Holdings, tag: string, name: string): (info: (int, bool))
    ensures info.1 ==> Dispatch(h, tag, name).0 == Succeeded && Dispatch(h, tag, name).1.coins == h.coins
    ensures info.0 == 0 ==> Dispatch(h, tag, name).1.coins == h.coins
  {
    if tag == "skin" then
      (match SkinFromRaw(name) case Some(s) => (SkinCost(s), s in h.skins) case None => (0, false))
    else if tag == "theme" then
      (match ThemeFromRaw(name) case Some(t) => (ThemeCost(t), t in h.themes) case None => (0, false))
    else if tag == "emoji" then
      (match PackFromRaw(name) case Some(p) => (PackCost(p), p in h.packs) case None => (0, false))
    else if tag == "effect" then
      (match EffectFromRaw(name) case Some(e) => (EffectCost(e), e in h.effects) case None => (0, false))
    else if tag == "powerup" then
      (match PowerUpFromRaw(name) case Some(u) => (PowerUpCost(u), false) case None => (0, false))
    else (0, false)
  }

  /** The action button buys at once, without the confirmation dialog. */
  function DirectPurchase(h: Holdings, tag: string, name: string): (direct: bool)
    ensures direct ==> Dispatch(h, tag, name).1.coins == h.coins
  {
    var (cost, isOwned) := ActionInfo(h, tag, name);
    isOwned || (tag == "powerup" && cost == 0)
  }

  /** For a listed card the action skips the confirmation exactly when the item is owned. */
  lemma ListedActionIsDirectIffOwned(h: Holdings, c: StoreCategory, i: nat)
    requires i < CaseCount(c)
    ensures var x := CategoryItems(h, c)[i];
            DirectPurchase(h, Tag(c), x.name) <==> x.isOwned
  {
    var r := RawAt(c, i);
    assert CategoryItems(h, c)[i].name == r;
    match c
    case Skins =>
      SkinRawRoundTrip(AllSkins[i]);
      assert ActionInfo(h, "skin", r) == (SkinCost(AllSkins[i]), AllSkins[i] in h.skins);
    case Themes =>
      ThemeRawRoundTrip(AllThemes[i]);
      assert ActionInfo(h, "theme", r) == (ThemeCost(AllThemes[i]), AllThemes[i] in h.themes);
    case EmojiPacks =>
      PackRawRoundTrip(AllPacks[i]);
      assert ActionInfo(h, "emoji", r) == (PackCost(AllPacks[i]), AllPacks[i] in h.packs);
    case Effects =>
      EffectRawRoundTrip(AllEffects[i]);
      assert ActionInfo(h, "effect", r) == (EffectCost(AllEffects[i]), AllEffects[i] in h.effects);
    case PowerUps =>
      var u := AllPowerUps[i];
      PowerUpRawRoundTrip(u);
      CostsNonNegative(DefaultSkin, DefaultTheme, DefaultPack, DefaultEffect, u);
      assert ActionInfo(h, "powerup", r) == (PowerUpCost(u), false);
  }

  /**
   * Every power-up costs something, so the zero-cost power-up shortcut is
   * taken only for a name that is no power-up, and buying that fails.
   */
  lemma ZeroCostPowerUpIsUnknown(h: Holdings, name: string)
    requires DirectPurchase(h, "powerup", name)
    ensures PowerUpFromRaw(name) == None
    ensures Dispatch(h, "powerup", name) == (Failed, h)
  {
  }
}
