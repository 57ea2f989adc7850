/**
 * The store catalog of the game: the cosmetic and consumable enumerations
 * of codename_clefairy/GameManager.swift with their raw values, costs,
 * emoji pack contents and the defaults the ledger falls back to.
 * Colours, descriptions and preview emojis are presentation and not modelled.
 */
module Catalog {
  import opened Wrappers

  // ---------------------------------------------------------------- raw values

  /** All columns of `cases` have pairwise different raw values. */
  predicate DistinctRaw<T(==)>(cases: seq<T>, raw: T -> string) {
    forall i, j :: 0 <= i < j < |cases| ==> raw(cases[i]) != raw(cases[j])
  }

  /**
   * Swift's synthesised `init?(rawValue:)`: the first case whose raw value is
   * `r`, or none.
   */
  function FindByRaw<T>(cases: seq<T>, raw: T -> string, r: string): (o: Option<T>)
    ensures o.Some? ==> o.value in cases && raw(o.value) == r
    ensures o.None? ==> forall k :: 0 <= k < |cases| ==> raw(cases[k]) != r
  {
    if cases == [] then None
    else if raw(cases[0]) == r then Some(cases[0])
    else FindByRaw(cases[1..], raw, r)
  }

  /** With distinct raw values, decoding a case's raw value gives that case back. */
  lemma {:induction false} FindByRawOfRaw<T>(cases: seq<T>, raw: T -> string, k: nat)
    requires k < |cases| && DistinctRaw(cases, raw)
    ensures FindByRaw(cases, raw, raw(cases[k])) == Some(cases[k])
  {
    if k > 0 && raw(cases[0]) != raw(cases[k]) {
      assert DistinctRaw(cases[1..], raw) by {
        forall i, j | 0 <= i < j < |cases| - 1
          ensures raw(cases[1..][i]) != raw(cases[1..][j])
        {
          assert raw(cases[i + 1]) != raw(cases[j + 1]);
        }
      }
      FindByRawOfRaw(cases[1..], raw, k - 1);
    }
  }

  /** With distinct raw values, decoding the raw value of any listed case gives that case back. */
  lemma FindByRawOfMember<T>(cases: seq<T>, raw: T -> string, x: T)
    requires x in cases && DistinctRaw(cases, raw)
    ensures FindByRaw(cases, raw, raw(x)) == Some(x)
  {
    var k :| 0 <= k < |cases| && cases[k] == x;
    FindByRawOfRaw(cases, raw, k);
  }

  // ---------------------------------------------------------------- skins

  datatype ButtonSkin = Classic | Wood | Metal | Jelly | Galaxy | Candy

  const AllSkins: seq<ButtonSkin> := [Classic, Wood, Metal, Jelly, Galaxy, Candy]

  function SkinRaw(s: ButtonSkin): string {
    match s
    case Classic => "Classic"
    case Wood => "Jungle"
    case Metal => "Cyber"
    case Jelly => "Gummy"
    case Galaxy => "Galaxy"
    case Candy => "Candy"
  }

  function SkinFromRaw(r: string): Option<ButtonSkin> {
    FindByRaw(AllSkins, SkinRaw, r)
  }

  function SkinCost(s: ButtonSkin): int {
    match s
    case Classic => 0
    case Wood => 200
    case Metal => 500
    case Jelly => 1000
    case Galaxy => 1500
    case Candy => 800
  }

  // ---------------------------------------------------------------- themes

  datatype BackgroundTheme = Daylight | Sunset | Night | Space | Ocean | Forest | Volcano | Arctic

  const AllThemes: seq<BackgroundTheme> := [Daylight, Sunset, Night, Space, Ocean, Forest, Volcano, Arctic]

  function ThemeRaw(t: BackgroundTheme): string {
    match t
    case Daylight => "Daylight"
    case Sunset => "Sunset"
    case Night => "Night Sky"
    case Space => "Deep Space"
    case Ocean => "Ocean"
    case Forest => "Forest"
    case Volcano => "Volcano"
    case Arctic => "Arctic"
  }

  function ThemeFromRaw(r: string): Option<BackgroundTheme> {
    FindByRaw(AllThemes, ThemeRaw, r)
  }

  function ThemeCost(t: BackgroundTheme): int {
    match t
    case Daylight => 0
    case Sunset => 150
    case Night => 200
    case Space => 400
    case Ocean => 350
    case Forest => 300
    case Volcano => 500
    case Arctic => 450
  }

  // ---------------------------------------------------------------- emoji packs

  datatype EmojiPack = Standard | Animals | Food | Sports | Travel | Fantasy | SpacePack | Music

  const AllPacks: seq<EmojiPack> := [Standard, Animals, Food, Sports, Travel, Fantasy, SpacePack, Music]

  function PackRaw(p: EmojiPack): string {
    match p
    case Standard => "Standard"
    case Animals => "Zoo Friends"
    case Food => "Yummy Food"
    case Sports => "Sports Fan"
    case Travel => "Traveler"
    case Fantasy => "Fantasy"
    case SpacePack => "Space Explorer"
    case Music => "Music Lover"
  }

  function PackFromRaw(r: string): Option<EmojiPack> {
    FindByRaw(AllPacks, PackRaw, r)
  }

  function PackCost(p: EmojiPack): int {
    match p
    case Standard => 0
    case Animals => 250
    case Food => 250
    case Sports => 300
    case Travel => 350
    case Fantasy => 400
    case SpacePack => 450
    case Music => 300
  }

  /** The symbols a pack puts into the game's master pool. */
  function Emojis(p: EmojiPack): seq<string> {
    match p
    case Standard => StandardEmojis
    case Animals => AnimalEmojis
    case Food => FoodEmojis
    case Sports => SportsEmojis
    case Travel => TravelEmojis
    case Fantasy => FantasyEmojis
    case SpacePack => SpaceEmojis
    case Music => MusicEmojis
  }

  // Each pack is the lines of its Swift array literal, ten symbols a line, joined.
  const StandardEmojis: seq<string> := StandardLine1 + StandardLine2 + StandardLine3
  const StandardLine1: seq<string> := ["🐶", "🐱", "🐭", "🐹", "🐰", "🦊", "🐻", "🐼", "🐨", "🐯"]
  const StandardLine2: seq<string> := ["😂", "😍", "😎", "🤔", "😴", "🥳", "😱", "👻", "🤖", "👽"]
  const StandardLine3: seq<string> := ["🍎", "🍌", "🍇", "🍓", "🥝", "🍑", "🍍", "🍉", "🍒", "🥭"]

  const AnimalEmojis: seq<string> := AnimalLine1 + AnimalLine2
  const AnimalLine1: seq<string> := ["🦁", "🐘", "🦒", "🦓", "🦘", "🦔", "🦦", "🦥", "🐿️", "🦩"]
  const AnimalLine2: seq<string> := ["🦜", "🐢", "🦋", "🐝", "🦀", "🐙", "🦈", "🐬", "🐳", "🦭"]

  const FoodEmojis: seq<string> := FoodLine1 + FoodLine2
  const FoodLine1: seq<string> := ["🍕", "🍔", "🌮", "🍣", "🍜", "🍩", "🧁", "🍪", "🍫", "🍿"]
  const FoodLine2: seq<string> := ["🥐", "🥨", "🧀", "🥚", "🥓", "🌭", "🍟", "🥗", "🍝", "🍰"]

  const SportsEmojis: seq<string> := SportsLine1 + SportsLine2
  const SportsLine1: seq<string> := ["⚽️", "🏀", "🏈", "⚾️", "🎾", "🏐", "🏉", "🎱", "🏓", "🏸"]
  const SportsLine2: seq<string> := ["🥊", "🏊", "🚴", "🏄", "⛷️", "🏂", "🎿", "🏋️", "🤸", "🏆"]

  const TravelEmojis: seq<string> := TravelLine1 + TravelLine2
  const TravelLine1: seq<string> := ["✈️", "🚀", "🚂", "🚢", "🚗", "🏰", "🗼", "🗽", "🎡", "⛩️"]
  const TravelLine2: seq<string> := ["🏝️", "🏔️", "🌋", "🏕️", "🎪", "🗿", "⛺️", "🌉", "🎢", "🛸"]

  const FantasyEmojis: seq<string> := FantasyLine1 + FantasyLine2
  const FantasyLine1: seq<string> := ["🧙", "🧚", "🧜", "🧝", "🦄", "🐉", "🔮", "⚔️", "🛡️", "👑"]
  const FantasyLine2: seq<string> := ["💎", "🏹", "🪄", "🧞", "👹", "👺", "🎭", "🦇", "🕷️", "🌟"]

  const SpaceEmojis: seq<string> := SpaceLine1 + SpaceLine2
  const SpaceLine1: seq<string> := ["🚀", "🛸", "🌍", "🌙", "⭐️", "🌟", "💫", "☄️", "🪐", "🌌"]
  const SpaceLine2: seq<string> := ["👨‍🚀", "👽", "🛰️", "🔭", "🌑", "🌕", "☀️", "🌈", "💥", "🌠"]

  const MusicEmojis: seq<string> := MusicLine1 + MusicLine2
  const MusicLine1: seq<string> := ["🎵", "🎶", "🎸", "🎹", "🥁", "🎺", "🎷", "🎻", "🪕", "🎤"]
  const MusicLine2: seq<string> := ["🎧", "📻", "🎼", "🪗", "🪘", "🎚️", "🎛️", "🎙️", "📯", "🔔"]

  /** No symbol occurs twice in `s`. */
  predicate NoDuplicates<T(==)>(s: seq<T>) {
    forall i, j :: 0 <= i < j < |s| ==> s[i] != s[j]
  }

  // ---------------------------------------------------------------- effects

  datatype SpecialEffectPack = NoEffect | Confetti | Fireworks | Hearts | Stars | Bubbles | Lightning

  const AllEffects: seq<SpecialEffectPack> := [NoEffect, Confetti, Fireworks, Hearts, Stars, Bubbles, Lightning]

  function EffectRaw(e: SpecialEffectPack): string {
    match e
    case NoEffect => "None"
    case Confetti => "Confetti"
    case Fireworks => "Fireworks"
    case Hearts => "Hearts"
    case Stars => "Stardust"
    case Bubbles => "Bubbles"
    case Lightning => "Lightning"
  }

  function EffectFromRaw(r: string): Option<SpecialEffectPack> {
    FindByRaw(AllEffects, EffectRaw, r)
  }

  function EffectCost(e: SpecialEffectPack): int {
    match e
    case NoEffect => 0
    case Confetti => 200
    case Fireworks => 350
    case Hearts => 250
    case Stars => 300
    case Bubbles => 200
    case Lightning => 400
  }

  // ---------------------------------------------------------------- power-ups

  datatype PowerUp = ExtraLife | TimeFreeze | Hint | Shield | DoubleCoins

  const AllPowerUps: seq<PowerUp> := [ExtraLife, TimeFreeze, Hint, Shield, DoubleCoins]

  function PowerUpRaw(p: PowerUp): string {
    match p
    case ExtraLife => "Extra Life"
    case TimeFreeze => "Time Freeze"
    case Hint => "Hint"
    case Shield => "Shield"
    case DoubleCoins => "Double Coins"
  }

  function PowerUpFromRaw(r: string): Option<PowerUp> {
    FindByRaw(AllPowerUps, PowerUpRaw, r)
  }

  function PowerUpCost(p: PowerUp): int {
    match p
    case ExtraLife => 50
    case TimeFreeze => 75
    case Hint => 30
    case Shield => 100
    case DoubleCoins => 150
  }

  // ---------------------------------------------------------------- store tabs and filters

  datatype StoreCategory = Skins | Themes | EmojiPacks | Effects | PowerUps

  const AllCategories: seq<StoreCategory> := [Skins, Themes, EmojiPacks, Effects, PowerUps]

  function CategoryRaw(c: StoreCategory): string {
    match c
    case Skins => "Skins"
    case Themes => "Themes"
    case EmojiPacks => "Emojis"
    case Effects => "Effects"
    case PowerUps => "Power-Ups"
  }

  function CategoryFromRaw(r: string): Option<StoreCategory> {
    FindByRaw(AllCategories, CategoryRaw, r)
  }

  datatype StoreFilter = All | Owned | Affordable | NotOwned

  const AllFilters: seq<StoreFilter> := [All, Owned, Affordable, NotOwned]

  function FilterRaw(f: StoreFilter): string {
    match f
    case All => "All"
    case Owned => "Owned"
    case Affordable => "Affordable"
    case NotOwned => "Not Owned"
  }

  function FilterFromRaw(r: string): Option<StoreFilter> {
    FindByRaw(AllFilters, FilterRaw, r)
  }

  // ---------------------------------------------------------------- defaults

  /** What the ledger reports when nothing (or nothing decodable) is stored. */
  const DefaultSkins: seq<ButtonSkin> := [Classic]
  const DefaultThemes: seq<BackgroundTheme> := [Daylight]
  const DefaultPacks: seq<EmojiPack> := [Standard]
  const DefaultEffects: seq<SpecialEffectPack> := [NoEffect]
  const DefaultSkin: ButtonSkin := Classic
  const DefaultTheme: BackgroundTheme := Daylight
  const DefaultPack: EmojiPack := Standard
  const DefaultEffect: SpecialEffectPack := NoEffect

  // ---------------------------------------------------------------- catalog facts

  // Every enumeration decodes its own raw values: `init?(rawValue: x.rawValue)`
  // is `x` for every case `x`.

  lemma SkinRawRoundTrip(s: ButtonSkin)
    ensures SkinFromRaw(SkinRaw(s)) == Some(s)
  {
    FindByRawOfMember(AllSkins, SkinRaw, s);
  }

  lemma ThemeRawRoundTrip(t: BackgroundTheme)
    ensures ThemeFromRaw(ThemeRaw(t)) == Some(t)
  {
    FindByRawOfMember(AllThemes, ThemeRaw, t);
  }

  lemma PackRawRoundTrip(p: EmojiPack)
    ensures PackFromRaw(PackRaw(p)) == Some(p)
  {
    FindByRawOfMember(AllPacks, PackRaw, p);
  }

  lemma EffectRawRoundTrip(e: SpecialEffectPack)
    ensures EffectFromRaw(EffectRaw(e)) == Some(e)
  {
    FindByRawOfMember(AllEffects, EffectRaw, e);
  }

  lemma PowerUpRawRoundTrip(u: PowerUp)
    ensures PowerUpFromRaw(PowerUpRaw(u)) == Some(u)
  {
    FindByRawOfMember(AllPowerUps, PowerUpRaw, u);
  }

  lemma CategoryRawRoundTrip(c: StoreCategory)
    ensures CategoryFromRaw(CategoryRaw(c)) == Some(c)
  {
    FindByRawOfMember(AllCategories, CategoryRaw, c);
  }

  lemma FilterRawRoundTrip(f: StoreFilter)
    ensures FilterFromRaw(FilterRaw(f)) == Some(f)
  {
    FindByRawOfMember(AllFilters, FilterRaw, f);
  }

  /** Only a power-up's own raw value decodes to it, so raw values identify power-ups. */
  lemma PowerUpRawInjective(u: PowerUp, v: PowerUp, r: string)
    ensures PowerUpFromRaw(r) == Some(u) <==> r == PowerUpRaw(u)
    ensures PowerUpRaw(u) == PowerUpRaw(v) ==> u == v
  {
    PowerUpRawRoundTrip(u);
  }

  /** The free items are exactly the ones unlocked and selected by default. */
  lemma ZeroCostItemsAreDefaults(s: ButtonSkin, t: BackgroundTheme, p: EmojiPack, e: SpecialEffectPack)
    ensures SkinCost(s) == 0 <==> s in DefaultSkins && s == DefaultSkin
    ensures ThemeCost(t) == 0 <==> t in DefaultThemes && t == DefaultTheme
    ensures PackCost(p) == 0 <==> p in DefaultPacks && p == DefaultPack
    ensures EffectCost(e) == 0 <==> e in DefaultEffects && e == DefaultEffect
  {
  }

  /** Every cost is non-negative, and every power-up costs something. */
  lemma CostsNonNegative(s: ButtonSkin, t: BackgroundTheme, p: EmojiPack, e: SpecialEffectPack, u: PowerUp)
    ensures SkinCost(s) >= 0 && ThemeCost(t) >= 0 && PackCost(p) >= 0 && EffectCost(e) >= 0
    ensures PowerUpCost(u) > 0
  {
  }

  /** The strings of `s` are non-empty and start with pairwise different characters. */
  predicate DistinctFirstChars(s: seq<string>) {
    (forall i :: 0 <= i < |s| ==> |s[i]| > 0) &&
    forall i, j :: 0 <= i < j < |s| ==> s[i][0] != s[j][0]
  }

  /** No string of `a` starts with the character a string of `b` starts with. */
  predicate FirstCharsApart(a: seq<string>, b: seq<string>) {
    forall i, j :: 0 <= i < |a| && 0 <= j < |b| && |a[i]| > 0 && |b[j]| > 0 ==> a[i][0] != b[j][0]
  }

  /** Strings that start with pairwise different characters are pairwise different. */
  lemma DistinctHeads(s: seq<string>)
    requires DistinctFirstChars(s)
    ensures NoDuplicates(s)
  {
  }

  /** Two lists that each start with pairwise different characters, and share none, join into one that does. */
  lemma {:induction false} JoinFirstChars(a: seq<string>, b: seq<string>)
    requires DistinctFirstChars(a) && DistinctFirstChars(b) && FirstCharsApart(a, b)
    ensures DistinctFirstChars(a + b)
  {
    var ab := a + b;
    forall i, j | 0 <= i < j < |ab| ensures ab[i][0] != ab[j][0] {
      if j < |a| {
        assert ab[i] == a[i] && ab[j] == a[j];
      } else if i >= |a| {
        assert ab[i] == b[i - |a|] && ab[j] == b[j - |a|];
      } else {
        assert ab[i] == a[i] && ab[j] == b[j - |a|];
      }
    }
  }

  /** Two lists that share no first character with `c` join into one that shares none either. */
  lemma {:induction false} JoinApart(a: seq<string>, b: seq<string>, c: seq<string>)
    requires FirstCharsApart(a, c) && FirstCharsApart(b, c)
    ensures FirstCharsApart(a + b, c)
  {
    var ab := a + b;
    forall i, j | 0 <= i < |ab| && 0 <= j < |c| && |ab[i]| > 0 && |c[j]| > 0 ensures ab[i][0] != c[j][0] {
      if i < |a| {
        assert ab[i] == a[i];
      } else {
        assert ab[i] == b[i - |a|];
      }
    }
  }

  /**
   * Every pack holds at least 20 distinct symbols (the standard pack 30), so it
   * covers the largest pool a level asks for.
   */
  lemma PacksAreLargeEnough(p: EmojiPack)
    ensures |Emojis(p)| >= 20 && |Emojis(Standard)| == 30
    ensures NoDuplicates(Emojis(p))
  {
    match p
    case Standard => StandardEmojisDistinct();
    case Animals => AnimalEmojisDistinct();
    case Food => FoodEmojisDistinct();
    case Sports => SportsEmojisDistinct();
    case Travel => TravelEmojisDistinct();
    case Fantasy => FantasyEmojisDistinct();
    case SpacePack => SpaceEmojisDistinct();
    case Music => MusicEmojisDistinct();
  }

  lemma StandardEmojisDistinct() ensures NoDuplicates(StandardEmojis) {
    StandardLine1Distinct();
    StandardLine2Distinct();
    StandardLine3Distinct();
    StandardLines12Apart();
    StandardLines13Apart();
    StandardLines23Apart();
    JoinFirstChars(StandardLine1, StandardLine2);
    JoinApart(StandardLine1, StandardLine2, StandardLine3);
    JoinFirstChars(StandardLine1 + StandardLine2, StandardLine3);
    DistinctHeads(StandardEmojis);
  }

  lemma StandardLine1Distinct() ensures DistinctFirstChars(StandardLine1) { }

  lemma StandardLine2Distinct() ensures DistinctFirstChars(StandardLine2) { }

  lemma StandardLine3Distinct() ensures DistinctFirstChars(StandardLine3) { }

  lemma StandardLines12Apart() ensures FirstCharsApart(StandardLine1, StandardLine2) { }

  lemma StandardLines13Apart() ensures FirstCharsApart(StandardLine1, StandardLine3) { }

  lemma StandardLines23Apart() ensures FirstCharsApart(StandardLine2, StandardLine3) { }

  lemma AnimalEmojisDistinct() ensures NoDuplicates(AnimalEmojis) {
    AnimalLine1Distinct();
    AnimalLine2Distinct();
    AnimalLinesApart();
    JoinFirstChars(AnimalLine1, AnimalLine2);
    DistinctHeads(AnimalEmojis);
  }

  lemma AnimalLine1Distinct() ensures DistinctFirstChars(AnimalLine1) { }

  lemma AnimalLine2Distinct() ensures DistinctFirstChars(AnimalLine2) { }

  lemma AnimalLinesApart() ensures FirstCharsApart(AnimalLine1, AnimalLine2) { }

  lemma FoodEmojisDistinct() ensures NoDuplicates(FoodEmojis) {
    FoodLine1Distinct();
    FoodLine2Distinct();
    FoodLinesApart();
    JoinFirstChars(FoodLine1, FoodLine2);
    DistinctHeads(FoodEmojis);
  }

  lemma FoodLine1Distinct() ensures DistinctFirstChars(FoodLine1) { }

  lemma FoodLine2Distinct() ensures DistinctFirstChars(FoodLine2) { }

  lemma FoodLinesApart() ensures FirstCharsApart(FoodLine1, FoodLine2) { }

  lemma SportsEmojisDistinct() ensures NoDuplicates(SportsEmojis) {
    SportsLine1Distinct();
    SportsLine2Distinct();
    SportsLinesApart();
    JoinFirstChars(SportsLine1, SportsLine2);
    DistinctHeads(SportsEmojis);
  }

  lemma SportsLine1Distinct() ensures DistinctFirstChars(SportsLine1) { }

  lemma SportsLine2Distinct() ensures DistinctFirstChars(SportsLine2) { }

  lemma SportsLinesApart() ensures FirstCharsApart(SportsLine1, SportsLine2) { }

  lemma TravelEmojisDistinct() ensures NoDuplicates(TravelEmojis) {
    TravelLine1Distinct();
    TravelLine2Distinct();
    TravelLinesApart();
    JoinFirstChars(TravelLine1, TravelLine2);
    DistinctHeads(TravelEmojis);
  }

  lemma TravelLine1Distinct() ensures DistinctFirstChars(TravelLine1) { }

  lemma TravelLine2Distinct() ensures DistinctFirstChars(TravelLine2) { }

  lemma TravelLinesApart() ensures FirstCharsApart(TravelLine1, TravelLine2) { }

  lemma FantasyEmojisDistinct() ensures NoDuplicates(FantasyEmojis) {
    FantasyLine1Distinct();
    FantasyLine2Distinct();
    FantasyLinesApart();
    JoinFirstChars(FantasyLine1, FantasyLine2);
    DistinctHeads(FantasyEmojis);
  }

  lemma FantasyLine1Distinct() ensures DistinctFirstChars(FantasyLine1) { }

  lemma FantasyLine2Distinct() ensures DistinctFirstChars(FantasyLine2) { }

  lemma FantasyLinesApart() ensures FirstCharsApart(FantasyLine1, FantasyLine2) { }

  lemma SpaceEmojisDistinct() ensures NoDuplicates(SpaceEmojis) {
    SpaceLine1Distinct();
    SpaceLine2Distinct();
    SpaceLinesApart();
    JoinFirstChars(SpaceLine1, SpaceLine2);
    DistinctHeads(SpaceEmojis);
  }

  lemma SpaceLine1Distinct() ensures DistinctFirstChars(SpaceLine1) { }

  lemma SpaceLine2Distinct() ensures DistinctFirstChars(SpaceLine2) { }

  lemma SpaceLinesApart() ensures FirstCharsApart(SpaceLine1, SpaceLine2) { }

  lemma MusicEmojisDistinct() ensures NoDuplicates(MusicEmojis) {
    MusicLine1Distinct();
    MusicLine2Distinct();
    MusicLinesApart();
    JoinFirstChars(MusicLine1, MusicLine2);
    DistinctHeads(MusicEmojis);
  }

  lemma MusicLine1Distinct() ensures DistinctFirstChars(MusicLine1) { }

  lemma MusicLine2Distinct() ensures DistinctFirstChars(MusicLine2) { }

  lemma MusicLinesApart() ensures FirstCharsApart(MusicLine1, MusicLine2) { }
}
