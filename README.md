# codename_clefairy — a verified model of the round engine, the ledger and the store

codename_clefairy is a SpriteKit memory game. A short sequence of emoji flashes on the
board, and the player repeats it by tapping the symbols in order before a timer runs
out. Each cleared round adds `level*10 + comboCount*5` to the score and as many coins.
Every fifth level is a boss made of three phases. A mistake or a timeout costs one of three
lives. The coins buy button skins, background themes, emoji packs, victory effects and
power-ups in a store screen.

This project models three parts of the app in Dafny and proves properties of them:

- **The round and level engine** (`GameScene.swift`):
  - `levels.dfy` holds the difficulty table, how a round's pool and sequence are drawn, how the taps are judged, scored and chained into combos, and the hearts display.
  - `game_scene.dfy` holds the scene itself as a class whose fields are the Swift fields.
    - A ghost `stage` field names the continuation that a timer or an animation will run next.
    - The scene's timers and animation completions become event methods that require that stage.
    - `Valid()` is the invariant every event keeps.
- **The ledger** (`GameManager.swift`):
  - `catalog.dfy` holds the catalog enumerations with their raw values, costs and emoji packs.
  - `ledger.dfy` holds the `GameManager` class: coins, unlocks, selections, the power-up inventory and the high score.
  - The guarded debits are pure functions, and the methods' contracts tie the new state to those functions.
- **The store** (`StoreScene.swift`):
  - `store_items.dfy` holds, on values:
    - the item ids `"<tag>_<rawValue>"` and how the Swift `split`/`joined` reads them back;
    - the button node names;
    - the cards of a tab and the tab's filter;
    - the card labels;
    - what `handlePurchase` does to the ledger.
  - `store_scene.dfy` holds the screen state as a value and `AfterTouch`, the touch handler as a function on it. It also holds the `StoreScene` class, whose `Touch` method is proved to follow `AfterTouch` and to keep the cards on show equal to the listing for the current ledger.

`wrappers.dfy` supplies the `Option` type.

## Modelling choices

- **Randomness is an input.**
  - `masterEmojiPool.shuffled()` is a parameter `shuffled` with the same multiset of symbols as the pack.
  - The k-th `randomElement()` draw from a pool is `pool[pick(k) % |pool|]`, for a caller-supplied `pick`.
  - The random movement and effect hints of levels 16 and up are chosen by two natural numbers.
- **Time is an input.** It is integer milliseconds. A tap continues a combo when it comes less than 500 ms after the previous one.
- **Storage is in memory.** `UserDefaults` becomes `Option` fields. `None` means "nothing stored" or "nothing that decodes", and the getters then report the catalog defaults. The JSON form of the inventory is a `map<string, int>` keyed by the raw values.
- **Touches.**
  - A touch on the store screen is the name of the node it hit.
  - A tap on the game board is the symbol it hit, plus its time.
- **Swift string operations are written out.**
  - `split(separator:)` omits empty pieces. This matters for ids such as `"skin__x"`.
  - `joined(separator:)`, `starts(with:)` and `dropFirst(n)` are written out too.
  - `init?(rawValue:)` is a search over `allCases`.
- **Integer division is written out.** `(level - 11) / 2` truncates toward zero, as Swift's `/` does (`Levels.SwiftHalf`).
- **The onboarding text promises more than the scene does.** The onboarding screen (OnboardingScene.swift:11) promises a heat meter and a FRENZY MODE worth double points. GameScene.swift has neither, so the model has neither.
- **Scoring and boss phases follow GameScene.swift.**
  - A round is worth `level*10 + comboCount*5`, and the combo window is 0.5 s.
  - Losing a life on a boss level restarts the boss at phase 0, because `startNewRound` calls `startBossRound`, which sets `bossRound = 0`.

## Model

| member | source | states |
|---|---|---|
| Levels.SwiftHalf | codename_clefairy/GameScene.swift:45 | the quotient of Swift's `/ 2`: the remainder is 0 or 1 for non-negative operands and 0 or -1 for negative ones (truncation toward zero) |
| Levels.GetLevelConfig | codename_clefairy/GameScene.swift:34-51 | pool sizes are only 8, 10, 15 or 20; on every level >= 1 the sequence has between 1 and `level` symbols; levels >= 16 draw their movement from {moderate, fast, wander} and their effect from {ghost, spin, pulse}; levels 1-8 have no effect |
| Levels.PoolSize | codename_clefairy/GameScene.swift:34-51 | a level's pool size is one of 8, 10, 15, 20 |
| Levels.SequenceCount | codename_clefairy/GameScene.swift:53-56 | boss levels play 4 symbols; every level >= 1 plays at least one |
| Levels.ConfigIgnoresPicks | codename_clefairy/GameScene.swift:43-48 | the random movement and effect hints never change the pool size or the sequence length |
| Levels.EarlyLevels | codename_clefairy/GameScene.swift:36-37 | levels 1-4 ask for a sequence as long as the level, from a pool of 8 (levels 1-2) or 10 (levels 3-4), with no movement or effect |
| Levels.MiddleLevels | codename_clefairy/GameScene.swift:38-42 | levels 5 to 15 get exactly the fixed rows of the table |
| Levels.HighLevels | codename_clefairy/GameScene.swift:43-48 | from level 16 on, the sequence is `7 + (level-11)/2` long and even levels use the pool of 15, odd ones the pool of 20 |
| Levels.SequenceLengthNeverShrinks | codename_clefairy/GameScene.swift:34-56 | the ordinary table length never shrinks from level 5 on (boss levels, every fifth one, play 4 instead) |
| Levels.PoolFitsEveryPack | codename_clefairy/GameScene.swift:340 | every level's pool and the boss pool of 12 fit in every emoji pack, so `prefix` yields the full configured size |
| Levels.RoundPool | codename_clefairy/GameScene.swift:340 | `prefix(size)` of the shuffle: a prefix of it, of length `min(size, count)` |
| Levels.Draw | codename_clefairy/GameScene.swift:341 | the drawn sequence has `count` symbols when the pool is non-empty, none otherwise, and every symbol is from the pool |
| Levels.DrawSequence | codename_clefairy/GameScene.swift:341 | the append loop produces exactly the draws `Draw` specifies |
| Levels.RoundFromShuffle | codename_clefairy/GameScene.swift:340-341 | a round dealt from any shuffle of the pack has a pool of `min(size, pack size)` symbols, all from the pack and pairwise distinct when the pack is, and a sequence of the requested length drawn from that pool |
| Levels.AllPositionsMatch | codename_clefairy/GameScene.swift:874-876 | the `allCorrect` loop answers true exactly when the taps start with the whole target sequence |
| Levels.SamePositionsIsEquality | codename_clefairy/GameScene.swift:874-876 | once the taps are complete, matching every position is the same as the tap sequence being the target sequence |
| Levels.WrongOrderLoses | codename_clefairy/GameScene.swift:874-876 | taps that are exactly the target's symbols (the same multiset) but not in the target's order fail the position-by-position check |
| Levels.RoundScore | codename_clefairy/GameScene.swift:899 | a round's points are a multiple of 5 and at least `10*level` (and 10) for level >= 1 and a non-negative combo |
| Levels.NextCombo | codename_clefairy/GameScene.swift:834-842 | a tap either resets the combo to 0 or adds one, and it adds one exactly when it comes less than 500 ms after the previous tap |
| Levels.FastRun | codename_clefairy/GameScene.swift:834-842 | the run of quick taps that ends at the latest tap is no longer than the taps |
| Levels.ComboCountsFastRun | codename_clefairy/GameScene.swift:834-843 | after any series of taps, the combo counter is the length of the final run of quick taps, or the starting count plus the number of taps if every tap was quick |
| Levels.Hearts | codename_clefairy/GameScene.swift:648-651 | the alive rule `index < lives` applied to hearts 0-2, the three hearts shown in the first game |
| Levels.HeartsShowLives | codename_clefairy/GameScene.swift:648-651 | the alive rule `index < lives` makes exactly the first `lives` of hearts 0-2 alive (the hearts shown in the first game), for 0 to 3 lives |
| Levels.ShownHearts | codename_clefairy/GameScene.swift:648-651 | the alive rule applied to the last three of `heartNodes`, the ones on screen, since `restartGame` (1143) never empties the array that `setupBaseUI` appends to (620) |
| Levels.FirstGameShowsHearts | codename_clefairy/GameScene.swift:648-651 | with the three containers of the first game, the hearts on screen are hearts 0-2 under the alive rule |
| Levels.RestartedHeartsGoDark | codename_clefairy/GameScene.swift:1143 | once `heartNodes` holds six containers or more, no heart on screen is alive at 3 lives or fewer |
| Levels.RestartHeartsCounterexample | codename_clefairy/GameScene.swift:985 | after one restart, the first lost life (2 lives) leaves all three hearts on screen dark, where hearts 0-2 would show two alive |
| Game.GameScene.constructor | codename_clefairy/GameScene.swift:59-60 | a new scene has 3 lives, level 1, no score, no combo, no sequences, and its first round due; its master pool is the selected pack's symbols; `heartNodes` holds the three hearts of `setupBaseUI` |
| Game.GameScene.Deal | codename_clefairy/GameScene.swift:340-341 | a dealt pool has exactly the requested size and the sequence the requested length, every symbol from the pool |
| Game.GameScene.StartNewRound | codename_clefairy/GameScene.swift:319-343 | on a multiple of 5 a boss starts at phase 0 with an empty sequence; otherwise the pool is the level's size prefix of the shuffle and the sequence the level's length of draws from it; taps cleared, input closed, timer stopped |
| Game.GameScene.StartBossRound | codename_clefairy/GameScene.swift:345-347 | a boss level starts at phase 0 and waits for its first phase |
| Game.GameScene.DealLevelRound | codename_clefairy/GameScene.swift:333-342 | an ordinary round's pool and sequence have the level's configured sizes and are drawn from the shuffle |
| Game.GameScene.StartNextBossPhase | codename_clefairy/GameScene.swift:460-472 | after three cleared phases the level goes up and nothing else is drawn; before that, 12 symbols of the shuffle and 4 draws from them, at the same level |
| Game.GameScene.OpenInput | codename_clefairy/GameScene.swift:673-676 | opening the input gives 10 seconds on boss levels and `7*level` seconds otherwise (never less than 7) and starts the timer |
| Game.GameScene.Tick | codename_clefairy/GameScene.swift:678-683 | each second takes one from the remaining time; while time is left nothing else changes, and at zero the timer stops, input closes and a life is lost with "TOO SLOW!" |
| Game.GameScene.TimeUp | codename_clefairy/GameScene.swift:1007 | a timeout stops the timer, closes input and costs exactly one life with "TOO SLOW!" |
| Game.GameScene.Tap | codename_clefairy/GameScene.swift:813-830 | a tap while input is closed or on a symbol outside the pool changes nothing; otherwise it is appended, the combo follows `NextCombo`, and input stays open exactly while the sequence is incomplete |
| Game.GameScene.HandleInput | codename_clefairy/GameScene.swift:832-871 | the tap is appended, the combo and tap time updated, and input and timer close exactly when the taps are as many as the sequence |
| Game.GameScene.Verify | codename_clefairy/GameScene.swift:874-903 | a round is won exactly when the taps equal the sequence; a win adds the round's points to score and coins, keeps lives and the banner text, and moves to the next boss phase or level; a loss keeps score, coins, level and phase and costs one life with "WHOOPS!"; after a loss, an ordinary win or the third boss phase the taps, sequence and pool are unchanged, and an ordinary win leaves the boss phase alone |
| Game.GameScene.RoundWon | codename_clefairy/GameScene.swift:899-901 | score and coins both grow by the round's points; the boss phase advances, and the third cleared phase (or any ordinary round) raises the level by one; an ordinary round keeps the boss phase, and neither it nor the third phase touches the taps, sequence or pool |
| Game.GameScene.LevelUp | codename_clefairy/GameScene.swift:906-909 | one level more, and the next round is due |
| Game.GameScene.LoseLife | codename_clefairy/GameScene.swift:984-988 | exactly one life less, and the banner shows the given reason. From 1 to 3 lives, the alive rule on hearts 0-2 marks exactly the remaining lives, with the lost heart dark, and in the first game (three containers) the screen shows exactly the remaining lives. After a restart (six containers or more), at 3 lives or fewer, no heart on screen is alive |
| Game.GameScene.AfterLoseLife | codename_clefairy/GameScene.swift:988 | with no lives left the game is over, the high score becomes the larger of itself and the score, and taps, sequence, pool, boss flag, boss phase and timer are unchanged; otherwise a fresh round starts at the same level, an ordinary level keeping the boss phase, a boss level restarting at phase 0 with the pool unchanged |
| Game.GameScene.GameOver | codename_clefairy/GameScene.swift:990-992 | the high score never decreases, is at least the final score, and is either unchanged or the final score |
| Game.GameScene.Restart | codename_clefairy/GameScene.swift:1143 | a restart gives 3 lives, level 1, no score and no combo, deals the first round, keeps the boss phase and the last tap time, and adds three heart containers to `heartNodes` without removing the old ones |
| Catalog.SkinRaw | codename_clefairy/GameManager.swift:14-19 | the raw values of the six skins, as the enumeration lists them |
| Catalog.SkinCost | codename_clefairy/GameManager.swift:96-105 | the price of each skin |
| Catalog.ThemeRaw | codename_clefairy/GameManager.swift:132-139 | the raw values of the eight themes |
| Catalog.ThemeCost | codename_clefairy/GameManager.swift:180-191 | the price of each theme |
| Catalog.PackRaw | codename_clefairy/GameManager.swift:209-216 | the raw values of the eight emoji packs |
| Catalog.Emojis | codename_clefairy/GameManager.swift:218-246 | the symbols of each emoji pack, in order |
| Catalog.PackCost | codename_clefairy/GameManager.swift:261-272 | the price of each emoji pack |
| Catalog.EffectRaw | codename_clefairy/GameManager.swift:290-296 | the raw values of the seven effect packs |
| Catalog.EffectCost | codename_clefairy/GameManager.swift:310-321 | the price of each effect pack |
| Catalog.PowerUpRaw | codename_clefairy/GameManager.swift:337-341 | the raw values of the five power-ups |
| Catalog.PowerUpCost | codename_clefairy/GameManager.swift:353-361 | the price of one unit of each power-up |
| Catalog.CategoryRaw | codename_clefairy/GameManager.swift:376-380 | the raw values of the five store tabs |
| Catalog.FilterRaw | codename_clefairy/GameManager.swift:395-398 | the raw values of the four store filters |
| Catalog.FindByRaw | codename_clefairy/GameManager.swift:13-19 | `init?(rawValue:)`: the case found has that raw value and is listed; none is found only when no listed case has it |
| Catalog.SkinFromRaw | codename_clefairy/GameManager.swift:13-19 | `ButtonSkin(rawValue:)`, used by the selected-skin getter (457) and the store (StoreScene.swift:1055, 1233): `FindByRaw` over the six skins; `FindByRaw` and `SkinRawRoundTrip` state what it finds |
| Catalog.ThemeFromRaw | codename_clefairy/GameManager.swift:131-139 | `BackgroundTheme(rawValue:)` (486; StoreScene.swift:1065, 1239): `FindByRaw` over the eight themes; see `ThemeRawRoundTrip` |
| Catalog.PackFromRaw | codename_clefairy/GameManager.swift:208-216 | `EmojiPack(rawValue:)` (515; StoreScene.swift:1075, 1245): `FindByRaw` over the eight packs; see `PackRawRoundTrip` |
| Catalog.EffectFromRaw | codename_clefairy/GameManager.swift:289-296 | `SpecialEffectPack(rawValue:)` (544; StoreScene.swift:1085, 1251): `FindByRaw` over the seven effects; see `EffectRawRoundTrip` |
| Catalog.PowerUpFromRaw | codename_clefairy/GameManager.swift:336-341 | `PowerUp(rawValue:)` (561; StoreScene.swift:520, 1095, 1257): `FindByRaw` over the five power-ups; see `PowerUpRawRoundTrip` and `PowerUpRawInjective` |
| Catalog.CategoryFromRaw | codename_clefairy/GameManager.swift:375-380 | `StoreCategory(rawValue:)` (StoreScene.swift:1187): `FindByRaw` over the five tabs; see `CategoryRawRoundTrip` |
| Catalog.FilterFromRaw | codename_clefairy/GameManager.swift:394-398 | `StoreFilter(rawValue:)` (StoreScene.swift:1199): `FindByRaw` over the four filters; see `FilterRawRoundTrip` |
| Catalog.SkinRawRoundTrip | codename_clefairy/GameManager.swift:13-19 | every skin decodes from its own raw value |
| Catalog.ThemeRawRoundTrip | codename_clefairy/GameManager.swift:131-139 | every theme decodes from its own raw value |
| Catalog.PackRawRoundTrip | codename_clefairy/GameManager.swift:208-216 | every emoji pack decodes from its own raw value |
| Catalog.EffectRawRoundTrip | codename_clefairy/GameManager.swift:289-296 | every effect pack decodes from its own raw value |
| Catalog.PowerUpRawRoundTrip | codename_clefairy/GameManager.swift:336-341 | every power-up decodes from its own raw value |
| Catalog.CategoryRawRoundTrip | codename_clefairy/GameManager.swift:375-380 | every store category decodes from its own raw value |
| Catalog.FilterRawRoundTrip | codename_clefairy/GameManager.swift:394-398 | every store filter decodes from its own raw value |
| Catalog.PowerUpRawInjective | codename_clefairy/GameManager.swift:336-341 | a string decodes to a power-up exactly when it is that power-up's raw value, so raw values identify power-ups |
| Catalog.ZeroCostItemsAreDefaults | codename_clefairy/GameManager.swift:96-320 | the free skin, theme, pack and effect are exactly the ones unlocked and selected by default |
| Catalog.CostsNonNegative | codename_clefairy/GameManager.swift:353-361 | no item costs a negative amount and every power-up costs something |
| Catalog.PacksAreLargeEnough | codename_clefairy/GameManager.swift:218-246 | every emoji pack holds at least 20 pairwise different symbols, the standard pack 30 |
| Ledger.AddUnique | codename_clefairy/GameManager.swift:588-592 | the item is in the list afterwards, nothing else is added, the old list is kept as a prefix, and no duplicate is introduced |
| Ledger.TotalCost | codename_clefairy/GameManager.swift:638 | `powerUp.cost * quantity`, the price of a purchase; `PurchaseChangesOneEntry` states that exactly this is charged |
| Ledger.Unlock | codename_clefairy/GameManager.swift:585-596 | an unlock succeeds exactly when the balance covers the cost; the old list stays a prefix of the new one, and the item is the only entry that can appear, only on success |
| Ledger.Count | codename_clefairy/GameManager.swift:580-582 | a power-up without an entry counts 0, one with an entry counts its stored value |
| Ledger.PurchasePowerUps | codename_clefairy/GameManager.swift:637-647 | a purchase succeeds exactly when the balance covers cost times quantity; an entry appears only for the bought power-up and only on success |
| Ledger.UsePowerUpIn | codename_clefairy/GameManager.swift:649-657 | a use succeeds exactly when the count is positive, and it never adds or removes an inventory entry |
| Ledger.EncodeInventory | codename_clefairy/GameManager.swift:567-576 | the JSON form has exactly one key per stored power-up, its raw value, holding its count |
| Ledger.DecodeInventory | codename_clefairy/GameManager.swift:556-566 | a power-up is in the decoded inventory exactly when its raw value is a stored key, with that key's count |
| Ledger.UnlockSucceedsIffAffordable | codename_clefairy/GameManager.swift:585-596 | an unlock succeeds exactly when the balance covers the cost; it then debits exactly the cost, keeps every unlock and adds the item; otherwise nothing changes |
| Ledger.UnlockOwnedStillCharges | codename_clefairy/GameManager.swift:585-596 | unlocking an item already owned adds no duplicate but still charges its cost |
| Ledger.DebitsKeepBalanceNonNegative | codename_clefairy/GameManager.swift:585-647 | a guarded unlock or power-up purchase never takes a non-negative balance below zero |
| Ledger.PurchaseChangesOneEntry | codename_clefairy/GameManager.swift:637-647 | a purchase succeeds exactly when the balance covers cost times quantity, then charges exactly that and adds the quantity to that power-up only; a refused purchase changes nothing |
| Ledger.UseTakesOne | codename_clefairy/GameManager.swift:649-657 | using a power-up succeeds exactly when its count is positive, then takes exactly one of it and leaves the others alone |
| Ledger.DecodeEncode | codename_clefairy/GameManager.swift:555-578 | writing the inventory and reading it back gives the same inventory |
| Ledger.EncodeDecode | codename_clefairy/GameManager.swift:555-578 | reading the stored inventory and writing it back keeps exactly the entries whose keys are power-up raw values |
| Ledger.GameManager.constructor | codename_clefairy/GameManager.swift:439-465 | with nothing stored, every getter reports its default: no coins, the classic skin, the daylight theme, the standard pack, no effect, no power-ups |
| Ledger.GameManager.UnlockedSkins | codename_clefairy/GameManager.swift:439-446 | the stored skin list, or `[.classic]` when nothing decodes; the constructor and `UnlockSkin` state what it reports |
| Ledger.GameManager.SelectedSkin | codename_clefairy/GameManager.swift:454-461 | the stored raw value decoded by `SkinFromRaw`, or `.classic` when absent or unknown; `SelectSkin` states the round trip |
| Ledger.GameManager.UnlockedThemes | codename_clefairy/GameManager.swift:468-475 | the stored theme list, or `[.daylight]`; see the constructor and `UnlockTheme` |
| Ledger.GameManager.SelectedTheme | codename_clefairy/GameManager.swift:483-490 | the stored raw value decoded by `ThemeFromRaw`, or `.daylight`; see `SelectTheme` |
| Ledger.GameManager.UnlockedPacks | codename_clefairy/GameManager.swift:497-504 | the stored pack list, or `[.standard]`; see the constructor and `UnlockEmojiPack` |
| Ledger.GameManager.SelectedPack | codename_clefairy/GameManager.swift:512-519 | the stored raw value decoded by `PackFromRaw`, or `.standard`; see `SelectPack` |
| Ledger.GameManager.UnlockedEffects | codename_clefairy/GameManager.swift:526-533 | the stored effect list, or `[.none]`; see the constructor and `UnlockEffect` |
| Ledger.GameManager.SelectedEffect | codename_clefairy/GameManager.swift:541-548 | the stored raw value decoded by `EffectFromRaw`, or `.none`; see `SelectEffect` |
| Ledger.GameManager.PowerUpInventory | codename_clefairy/GameManager.swift:555-567 | the stored raw-value dictionary mapped back to power-ups by `DecodeInventory`, or empty; `StoreInventory` and `DecodeEncode` state that a written inventory reads back, `EncodeDecode` that unknown keys are dropped |
| Ledger.GameManager.GetPowerUpCount | codename_clefairy/GameManager.swift:580-582 | a power-up never bought has count 0 |
| Ledger.GameManager.SelectSkin | codename_clefairy/GameManager.swift:454-465 | storing a skin's raw value makes it the selected skin |
| Ledger.GameManager.SelectTheme | codename_clefairy/GameManager.swift:468-494 | storing a theme's raw value makes it the selected theme |
| Ledger.GameManager.SelectPack | codename_clefairy/GameManager.swift:497-523 | storing a pack's raw value makes it the selected pack |
| Ledger.GameManager.SelectEffect | codename_clefairy/GameManager.swift:526-552 | storing an effect's raw value makes it the selected effect |
| Ledger.GameManager.UnlockSkin | codename_clefairy/GameManager.swift:585-596 | the result, balance and unlocked skins are those of `Unlock` on the old state; the stored list is rewritten only when a new skin was added |
| Ledger.GameManager.UnlockTheme | codename_clefairy/GameManager.swift:598-609 | as `UnlockSkin`, for themes |
| Ledger.GameManager.UnlockEmojiPack | codename_clefairy/GameManager.swift:611-622 | as `UnlockSkin`, for emoji packs |
| Ledger.GameManager.UnlockEffect | codename_clefairy/GameManager.swift:624-635 | as `UnlockSkin`, for effect packs |
| Ledger.GameManager.StoreInventory | codename_clefairy/GameManager.swift:569-577 | after writing an inventory, the getter reports exactly that inventory |
| Ledger.GameManager.PurchasePowerUp | codename_clefairy/GameManager.swift:637-647 | result, balance and inventory are those of `PurchasePowerUps` on the old state; a refused purchase leaves the store untouched |
| Ledger.GameManager.UsePowerUp | codename_clefairy/GameManager.swift:649-657 | result and inventory are those of `UsePowerUpIn` on the old inventory; a refused use leaves the store untouched |
| StoreItems.PieceLength | codename_clefairy/StoreScene.swift:1046 | the first piece of a string, which contains no separator and is followed by one or by the end |
| StoreItems.Split | codename_clefairy/StoreScene.swift:1046 | the parts of `split(separator:)` are non-empty and contain no separator |
| StoreItems.Join | codename_clefairy/StoreScene.swift:1049 | `joined(separator:)`: the first part begins the result; `SplitJoin` states that `Split` reads the parts back |
| StoreItems.SplitFirstPiece | codename_clefairy/StoreScene.swift:1046 | a separator-free piece in front of a separator is split off as the first part |
| StoreItems.SplitJoin | codename_clefairy/StoreScene.swift:1046-1049 | splitting what `joined(separator:)` built from non-empty, separator-free pieces gives the pieces back |
| StoreItems.ItemId | codename_clefairy/StoreScene.swift:368-398 | an id is the tag, then "_", then the raw value, and each part can be read back by position |
| StoreItems.ParseItemId | codename_clefairy/StoreScene.swift:1046-1049 | a parsed id yields a non-empty tag without "_" and a non-empty name |
| StoreItems.ItemIdRoundTrip | codename_clefairy/StoreScene.swift:1045-1049 | an id "tag_name" parses back to (tag, name) whenever the tag is one piece and the name is one or more pieces joined by "_" |
| StoreItems.SimpleItemIdRoundTrip | codename_clefairy/StoreScene.swift:1045-1049 | "tag_name" parses back to (tag, name) for any non-empty tag and name without "_" |
| StoreItems.NoUnderscoreNoItem | codename_clefairy/StoreScene.swift:1046-1047 | an id without "_" has fewer than two parts and is not read as an item |
| StoreItems.StartsWith | codename_clefairy/StoreScene.swift:1153-1217 | `starts(with:)`: the name begins with the prefix; `DropPrefix` states that a prefixed name starts with its prefix and `DropFirst` of its length gives the rest back |
| StoreItems.DropFirst | codename_clefairy/StoreScene.swift:1154 | `dropFirst(n)` keeps the characters after the first n, or none when there are fewer |
| StoreItems.DropPrefix | codename_clefairy/StoreScene.swift:1154 | a prefixed name starts with its prefix, and dropping as many characters gives the suffix back |
| StoreItems.PrefixLengths | codename_clefairy/StoreScene.swift:1150-1218 | the counts dropped (12, 7, 7, 4, 4) are exactly the lengths of "confirm_buy_", "action_", "filter_", "try_", "tab_" |
| StoreItems.StrippedNodeNames | codename_clefairy/StoreScene.swift:1150-1218 | every button name built from a prefix and a suffix starts with that prefix and yields the suffix back |
| StoreItems.CategoryItems | codename_clefairy/StoreScene.swift:368-398 | a tab lists one card per case of its enumeration |
| StoreItems.Tag | codename_clefairy/StoreScene.swift:375-398 | the id tags "skin", "theme", "emoji", "effect", "powerup" of the five tabs; `ListedItem` and `PurchaseOfListedItem` state that each reaches its own branch of `handlePurchase` |
| StoreItems.ItemAt | codename_clefairy/StoreScene.swift:368-398 | the card tuple of a tab's i-th case: raw value, cost, owned, selected and id, with power-ups never owned or selected; `ListedItem` states its fields |
| StoreItems.RawIsOnePiece | codename_clefairy/GameManager.swift:13-398 | no raw value in the catalog is empty or contains "_" |
| StoreItems.RawsDistinct | codename_clefairy/GameManager.swift:13-341 | different cases of one enumeration have different raw values |
| StoreItems.ListedItem | codename_clefairy/StoreScene.swift:368-398 | a card is named by its case's raw value, its id is the tab's tag, "_" and that name, it is owned and selected exactly when the ledger says so, and its id parses back to (tag, name) |
| StoreItems.ItemIdsDistinct | codename_clefairy/StoreScene.swift:368-398 | no two cards of a tab share an id |
| StoreItems.KeepByTab | codename_clefairy/StoreScene.swift:403-410 | "All" keeps every card and "Affordable" exactly those the balance covers; on the power-up tab "Owned" keeps every card and "Not Owned" none; on the other tabs "Owned" and "Not Owned" keep exactly the owned and the unowned cards |
| StoreItems.Keep | codename_clefairy/StoreScene.swift:403-410 | the filter closure on one card; `KeepByTab` states its table |
| StoreItems.FilterItems | codename_clefairy/StoreScene.swift:402-410 | the filter never yields more cards than there were |
| StoreItems.FilterKeepsExactly | codename_clefairy/StoreScene.swift:402-410 | the filter keeps exactly the cards its rule accepts |
| StoreItems.FilterAppend | codename_clefairy/StoreScene.swift:402-410 | filtering distributes over concatenation, so the kept cards stay in their order |
| StoreItems.FilterOfOne | codename_clefairy/StoreScene.swift:402-410 | a single card survives exactly when the filter's rule accepts it |
| StoreItems.FilterAllKeepsEverything | codename_clefairy/StoreScene.swift:404 | "All" keeps every card in order |
| StoreItems.PowerUpsTabFilters | codename_clefairy/StoreScene.swift:405-407 | on the power-up tab, "Owned" keeps every card and "Not Owned" none |
| StoreItems.OwnedNotOwnedPartition | codename_clefairy/StoreScene.swift:405-407 | on every other tab, "Owned" and "Not Owned" split the cards between them, each card exactly once |
| StoreItems.PriceTagOf | codename_clefairy/StoreScene.swift:517-529 | the power-up tab, and only it, shows a stock count, that of the power-up the card names; other tabs show "OWNED" exactly for owned cards and otherwise the card's own price |
| StoreItems.ActionLabel | codename_clefairy/StoreScene.swift:547-558 | the button says "BUY", "EQUIPPED" or "EQUIP"; "EQUIPPED" exactly for the selected card of a cosmetic tab, "EQUIP" exactly for an owned card of such a tab that is not selected |
| StoreItems.ListedLabels | codename_clefairy/StoreScene.swift:516-558 | when every selection is unlocked: a card offers "BUY" exactly when it shows a price, says "EQUIPPED" exactly when it is the selection and "EQUIP" exactly when it is owned but not selected; a power-up card says "BUY" and shows that power-up's own stock |
| StoreItems.SelectedIndex | codename_clefairy/StoreScene.swift:372-393 | every tab but power-ups has a case that is the current selection |
| StoreItems.SelectedIsUnique | codename_clefairy/StoreScene.swift:372-393 | a case is the selection exactly when it is at the selected position |
| StoreItems.OneCardEquipped | codename_clefairy/StoreScene.swift:551-553 | on every tab but power-ups exactly one card says "EQUIPPED" |
| StoreItems.EquipOrUnlock | codename_clefairy/StoreScene.swift:1056-1062 | the outcome is never "ignored"; the item is selected exactly on success, which happens exactly when it is owned or affordable; it is then owned; a failure changes nothing |
| StoreItems.BuySkin | codename_clefairy/StoreScene.swift:1054-1063 | the skin branch succeeds exactly when the skin is owned or affordable, then the skin is owned and selected; only the balance and the skin fields can change |
| StoreItems.BuyTheme | codename_clefairy/StoreScene.swift:1064-1073 | as `BuySkin`, for themes |
| StoreItems.BuyPack | codename_clefairy/StoreScene.swift:1074-1083 | as `BuySkin`, for emoji packs |
| StoreItems.BuyEffect | codename_clefairy/StoreScene.swift:1084-1093 | as `BuySkin`, for effect packs |
| StoreItems.BuyPowerUp | codename_clefairy/StoreScene.swift:1094-1097 | one unit is bought exactly when the balance covers its price; then exactly that price is charged and its count grows by one; only the balance and the inventory can change |
| StoreItems.Dispatch | codename_clefairy/StoreScene.swift:1053-1100 | the switch never ignores; a non-success changes nothing; a tag that is none of the five categories fails without change |
| StoreItems.Purchase | codename_clefairy/StoreScene.swift:1045-1111 | a purchase is ignored exactly when the id does not parse; anything but a success leaves the ledger unchanged |
| StoreItems.EquipOrUnlockSpec | codename_clefairy/StoreScene.swift:1054-1093 | an owned item is equipped at no charge; an unowned one is bought and equipped exactly when the balance covers it; a failure changes nothing |
| StoreItems.PurchaseOfListedItem | codename_clefairy/StoreScene.swift:1045-1100 | buying a card's id goes to the branch of that card's own case |
| StoreItems.UnknownOrMalformedIds | codename_clefairy/StoreScene.swift:1045-1111 | an id with an unknown category fails and changes nothing; an id without "_" is ignored and changes nothing |
| StoreItems.PurchaseGuarantees | codename_clefairy/StoreScene.swift:1045-1111 | every purchase either succeeds or leaves the ledger as it was, never takes the balance below zero, never loses an unlock, and keeps every selection among the unlocks |
| StoreItems.BuySkinGuarded | codename_clefairy/StoreScene.swift:1054-1063 | the skin branch keeps those guarantees |
| StoreItems.BuyThemeGuarded | codename_clefairy/StoreScene.swift:1064-1073 | the theme branch keeps those guarantees |
| StoreItems.BuyPackGuarded | codename_clefairy/StoreScene.swift:1074-1083 | the emoji branch keeps those guarantees |
| StoreItems.BuyEffectGuarded | codename_clefairy/StoreScene.swift:1084-1093 | the effect branch keeps those guarantees |
| StoreItems.BuyPowerUpGuarded | codename_clefairy/StoreScene.swift:1094-1097 | the power-up branch keeps those guarantees |
| StoreItems.ActionInfo | codename_clefairy/StoreScene.swift:1222-1262 | an item reported owned is equipped by the purchase at no charge, and an item reported free costs nothing to buy |
| StoreItems.DirectPurchase | codename_clefairy/StoreScene.swift:1265-1270 | a purchase the action button runs without confirmation never charges the balance |
| StoreItems.ListedActionIsDirectIffOwned | codename_clefairy/StoreScene.swift:1216-1272 | for a listed card the action button skips the confirmation exactly when the item is owned |
| StoreItems.ZeroCostPowerUpIsUnknown | codename_clefairy/StoreScene.swift:1264-1266 | the zero-cost power-up shortcut is taken only for a name that is no power-up, and buying that fails without change |
| StoreScreen.AfterTouch | codename_clefairy/StoreScene.swift:1137-1274 | a touch while an overlay is open keeps the tab, filter and back flag and closes the overlay on top (the preview first); only the back button sets the back flag; the ledger changes only through "BUY NOW" in the confirmation or the action button of the idle screen |
| StoreScreen.ActionTouch | codename_clefairy/StoreScene.swift:1216-1274 | the action button leaves the screen alone, opens the confirmation for this id, or runs this id's purchase, and never charges coins itself; a malformed id does nothing |
| StoreScreen.TabAndFilterButtons | codename_clefairy/StoreScene.swift:1184-1205 | a tab or filter button switches to its own tab or filter and changes nothing else |
| StoreScreen.PreviewSwallowsTouch | codename_clefairy/StoreScene.swift:1140-1146 | "try it" opens the preview, and the next touch, wherever it lands, only closes it |
| StoreScreen.BuyingNeedsConfirmation | codename_clefairy/StoreScene.swift:1149-1168 | buying a card not yet owned takes two touches: the action button opens the confirmation for that card, "BUY NOW" then runs exactly that purchase, and "CANCEL" leaves everything as it was |
| StoreScreen.OwnedCardEquipsAtOnce | codename_clefairy/StoreScene.swift:1264-1266 | the action button of an owned card equips it at once, at no charge and without touching any unlock or the inventory |
| StoreScreen.ActionTouchReadsId | codename_clefairy/StoreScene.swift:1216-1272 | a card's action button reaches the purchase or the confirmation with that card's own id |
| StoreScreen.ActionNameReachesAction | codename_clefairy/StoreScene.swift:1176-1218 | a name starting with "action_" passes the back, tab, filter and try tests and reaches the action branch with its id |
| StoreScreen.StoreScene.constructor | codename_clefairy/StoreScene.swift:29-36 | the screen opens on the skins tab with no filter and no overlay, showing that tab's cards |
| StoreScreen.StoreScene.LoadCategoryItems | codename_clefairy/StoreScene.swift:353-410 | the cards on show become the filtered listing of the current tab for the current ledger |
| StoreScreen.StoreScene.BuySkinItem | codename_clefairy/StoreScene.swift:1054-1063 | the new ledger and the result are those of `BuySkin` on the old ledger |
| StoreScreen.StoreScene.BuyThemeItem | codename_clefairy/StoreScene.swift:1064-1073 | the new ledger and the result are those of `BuyTheme` on the old ledger |
| StoreScreen.StoreScene.BuyPackItem | codename_clefairy/StoreScene.swift:1074-1083 | the new ledger and the result are those of `BuyPack` on the old ledger |
| StoreScreen.StoreScene.BuyEffectItem | codename_clefairy/StoreScene.swift:1084-1093 | the new ledger and the result are those of `BuyEffect` on the old ledger |
| StoreScreen.StoreScene.BuyPowerUpItem | codename_clefairy/StoreScene.swift:1094-1097 | the new ledger and the result are those of `BuyPowerUp` on the old ledger |
| StoreScreen.StoreScene.HandlePurchase | codename_clefairy/StoreScene.swift:1045-1111 | outcome and ledger are those of `Purchase` on the old ledger; a success reloads the cards, anything else leaves them |
| StoreScreen.StoreScene.Touch | codename_clefairy/StoreScene.swift:1137-1274 | the screen after a touch is `AfterTouch` of the screen before, and the cards on show stay the listing for the current tab, filter and ledger |
| StoreScreen.StoreScene.Buy | codename_clefairy/StoreScene.swift:1153-1157 | the purchase of "BUY NOW" (and of the direct action at 1265-1267): the ledger afterwards is that of `Purchase`, and the cards on show stay current even when the purchase fails |

## Findings

| source | as written | input that shows it | evidently intended | confidence | as-written member | corrected member |
|---|---|---|---|---|---|---|
| codename_clefairy/GameScene.swift:1143 | `restartGame` removes the scene's children but never empties `heartNodes`. `setupBaseUI` appends three more hearts (620), and `updateLivesUI` (648-651) marks heart `index` alive iff `index < lives` over the whole array, so the hearts on screen are `heartNodes[3...5]` | one game over, TRY AGAIN, then one lost life: at 2 lives all three hearts on screen go dark | the three hearts on screen show the remaining lives, as in the first game | not executed | Levels.RestartHeartsCounterexample | Levels.HeartsShowLives |

The scene tracks the as-written behaviour: `heartNodes` counts the containers, `Restart` adds three, and `GameScene.LoseLife` states what is on screen in both cases. The intended display, `Hearts` with `HeartsShowLives`, is what the first game shows.

## Left out

- Rendering, animation, sound, haptics, the ad service and scene transitions are left out. They change no state the model keeps. The menu button of the game and the store's back button become, respectively, nothing and a `leaving` flag.
- Timers and animation completions are event methods. Their ordering is captured only by the ghost `stage` that each event requires. Real time and cancellation of pending SpriteKit actions are not modelled.
- The countdown and the sequence display (`runCountdown`, `showSequence`) are the single `Presenting` stage. Only their effect on the state is modelled: none until `setupInputButtons` runs.
- The boss entrance animation and the boss node are left out. `StartBossRound` leaves the first phase due.
- Movement and the special effects of the buttons (`applyMovement`, ghost/spin/pulse actions) only change how the buttons look. The level's `movement` and `effect` are computed but not used.
- `masterEmojiPool` is read once, when the scene is created. The scene never changes the selected pack.
- `Date().timeIntervalSince1970` becomes integer milliseconds supplied with each tap.
- Tapping on the game board: the hit node is given as its symbol. The `btn_body` parent lookup is part of hit-testing.
- Touches on the store screen are one node name. The Swift loop over every node under the touch with `node.name ?? node.parent?.name` is hit-testing. So is the scrolling that starts when no button is hit.
- Swift `Int` overflow, which traps, is not modelled. Integers are unbounded.
- `dropFirst(n)` counts grapheme clusters in Swift and elements here. The prefixes it strips are ASCII, so the two agree on every name the screen builds.
- The text formatting of the labels ("Owned: n", "💰 cost") and their colours are represented by the `PriceTag` datatype and the label strings.
- The descriptions, preview pictures and emoji of the items are left out, as is the content of the preview overlay.
- The "NOT ENOUGH COINS!" alert is the `Failed` outcome.
- `updateCoinDisplay`, `updateTabSelection` and `updateFilterSelection` only redraw.
- `restartGame` is modelled as reachable only from the game-over board. The `restart_trigger_node` it answers to is created only by `gameOver`.
- `usePowerUp` is modelled in the ledger. No scene in the modelled core calls it.
- `highScore` is a plain field: it is a plain `UserDefaults` integer in the source and needs no decoding.
- Levels.NextCombo: the if-and-only-if "the combo grows exactly when the tap is quick" is stated only for a non-negative counter, because a negative counter can be reset to 0 and still grow. The scene keeps the counter non-negative (`Valid`).
- StoreItems.ListedLabels: the label agreement is stated for a consistent ledger, one in which every selection is unlocked. The store keeps the ledger consistent (`PurchaseGuarantees`), but a ledger written elsewhere might not be.
- StoreScreen.StoreScene.LoadCategoryItems: the five per-category loops of `loadCategoryItems` are one loop over `ItemAt`, which matches on the category.
