/**
 * The coin and unlock ledger of codename_clefairy/GameManager.swift.
 *
 * The app keeps these values in `UserDefaults`, the unlock lists and the
 * power-up inventory JSON-encoded. Here the store is a set of in-memory
 * fields of `Option` type: `None` stands for "nothing stored, or nothing that
 * decodes", and each getter then reports the catalog default, as the
 * Swift getters do.
 *
 * The guarded debits are specified twice: as pure functions over values
 * (`Unlock`, `PurchasePowerUps`, `UsePowerUpIn`), about which the lemmas
 * below state what the ledger promises, and as the methods of the
 * `GameManager` class, whose contracts tie the new state to those functions.
 */
module Ledger {
  import opened Wrappers
  import opened Catalog

  // ---------------------------------------------------------------- values

  /** `list` with `x` appended, unless `x` is already in it. */
  function AddUnique<T(==,!new)>(list: seq<T>, x: T): (r: seq<T>)
    ensures x in r
    ensures forall y :: y in r <==> y in list || y == x
    ensures |list| <= |r| <= |list| + 1 && r[..|list|] == list
    ensures NoDuplicates(list) ==> NoDuplicates(r)
  {
    if x in list then list else list + [x]
  }

  /** The outcome of a guarded debit on one unlock list. */
  datatype Debit<T> = Debit(ok: bool, coins: int, owned: seq<T>)

  /** `unlockSkin`, `unlockTheme`, `unlockEmojiPack` and `unlockEffect` on values. */
  function Unlock<T(==,!new)>(coins: int, owned: seq<T>, item: T, cost: int): (d: Debit<T>)
    ensures d.ok <==> coins >= cost
    ensures |d.owned| >= |owned| && d.owned[..|owned|] == owned
    ensures forall y :: y in d.owned <==> y in owned || (d.ok && y == item)
  {
    if coins >= cost then Debit(true, coins - cost, AddUnique(owned, item))
    else Debit(false, coins, owned)
  }

  /** `inventory[p] ?? 0`. */
  function Count(inventory: map<PowerUp, int>, p: PowerUp): (n: int)
    ensures p !in inventory ==> n == 0
    ensures p in inventory ==> n == inventory[p]
  {
    if p in inventory then inventory[p] else 0
  }

  /** The outcome of a power-up purchase or use. */
  datatype Stock = Stock(ok: bool, coins: int, inventory: map<PowerUp, int>)

  /** The price of `quantity` units of `p`. */
  function TotalCost(p: PowerUp, quantity: int): int {
    PowerUpCost(p) * quantity
  }

  /** `purchasePowerUp(p, quantity:)` on values. */
  function PurchasePowerUps(coins: int, inventory: map<PowerUp, int>, p: PowerUp, quantity: int): (r: Stock)
    ensures r.ok <==> coins >= TotalCost(p, quantity)
    ensures forall q :: q in r.inventory <==> q in inventory || (r.ok && q == p)
  {
    var total := TotalCost(p, quantity);
    if coins >= total then Stock(true, coins - total, inventory[p := Count(inventory, p) + quantity])
    else Stock(false, coins, inventory)
  }

  /** `usePowerUp(p)` on values (coins are not involved). */
  function UsePowerUpIn(inventory: map<PowerUp, int>, p: PowerUp): (r: Stock)
    ensures r.ok <==> Count(inventory, p) > 0
    ensures r.inventory.Keys == inventory.Keys
  {
    if p in inventory && inventory[p] > 0 then Stock(true, 0, inventory[p := inventory[p] - 1])
    else Stock(false, 0, inventory)
  }

  /** The JSON form of the inventory: keyed by each power-up's raw value. */
  function EncodeInventory(inventory: map<PowerUp, int>): (m: map<string, int>)
    ensures forall p :: p in inventory <==> PowerUpRaw(p) in m
    ensures forall p :: p in inventory ==> m[PowerUpRaw(p)] == inventory[p]
  {
    forall p, q | PowerUpRaw(p) == PowerUpRaw(q) ensures p == q {
      PowerUpRawInjective(p, q, PowerUpRaw(p));
    }
    map p | p in inventory :: PowerUpRaw(p) := inventory[p]
  }

  /** Reading the JSON form back: keys that are no power-up's raw value are dropped. */
  function DecodeInventory(stored: map<string, int>): (inventory: map<PowerUp, int>)
    ensures forall p :: p in inventory <==> PowerUpRaw(p) in stored
    ensures forall p :: p in inventory ==> inventory[p] == stored[PowerUpRaw(p)]
  {
    map p | p in AllPowerUps && PowerUpRaw(p) in stored :: stored[PowerUpRaw(p)]
  }

  // ---------------------------------------------------------------- properties

  /** An unlock succeeds iff the balance covers the cost; it then debits exactly the cost and the item is owned. */
  lemma UnlockSucceedsIffAffordable<T(!new)>(coins: int, owned: seq<T>, item: T, cost: int)
    ensures Unlock(coins, owned, item, cost).ok <==> coins >= cost
    ensures var r := Unlock(coins, owned, item, cost);
            r.ok ==> r.coins == coins - cost && item in r.owned && (forall y :: y in owned ==> y in r.owned)
    ensures var r := Unlock(coins, owned, item, cost);
            !r.ok ==> r.coins == coins && r.owned == owned
  {
  }

  /** An unlock never duplicates an entry, but charges again for an item already owned. */
  lemma UnlockOwnedStillCharges<T(!new)>(coins: int, owned: seq<T>, item: T, cost: int)
    requires item in owned && coins >= cost
    ensures var r := Unlock(coins, owned, item, cost);
            r.ok && r.owned == owned && r.coins == coins - cost
  {
  }

  /** Guarded debits keep a non-negative balance non-negative, whatever the cost or quantity. */
  lemma DebitsKeepBalanceNonNegative<T(!new)>(coins: int, owned: seq<T>, item: T, cost: int,
                                       inventory: map<PowerUp, int>, p: PowerUp, quantity: int)
    requires coins >= 0
    ensures Unlock(coins, owned, item, cost).coins >= 0
    ensures PurchasePowerUps(coins, inventory, p, quantity).coins >= 0
  {
  }

  /** A purchase charges cost times quantity, adds quantity to that power-up only, and changes nothing when refused. */
  lemma PurchaseChangesOneEntry(coins: int, inventory: map<PowerUp, int>, p: PowerUp, quantity: int)
    ensures var r := PurchasePowerUps(coins, inventory, p, quantity);
            (r.ok <==> coins >= PowerUpCost(p) * quantity) &&
            (r.ok ==> r.coins == coins - PowerUpCost(p) * quantity &&
                      Count(r.inventory, p) == Count(inventory, p) + quantity) &&
            (!r.ok ==> r.coins == coins && r.inventory == inventory) &&
            (forall q :: q != p ==> Count(r.inventory, q) == Count(inventory, q))
  {
  }

  /** Using a power-up succeeds iff its count is positive, and then takes exactly one of it and nothing else. */
  lemma UseTakesOne(inventory: map<PowerUp, int>, p: PowerUp)
    ensures var r := UsePowerUpIn(inventory, p);
            (r.ok <==> Count(inventory, p) > 0) &&
            (r.ok ==> Count(r.inventory, p) == Count(inventory, p) - 1) &&
            (!r.ok ==> r.inventory == inventory) &&
            (forall q :: q != p ==> Count(r.inventory, q) == Count(inventory, q))
  {
  }

  /** Writing the inventory and reading it back gives the same inventory, because raw values are distinct. */
  lemma {:induction false} DecodeEncode(inventory: map<PowerUp, int>)
    ensures DecodeInventory(EncodeInventory(inventory)) == inventory
  {
    var e := EncodeInventory(inventory);
    var d := DecodeInventory(e);
    assert forall p :: p in d <==> p in inventory;
    assert forall p :: p in d ==> d[p] == inventory[p];
  }

  /** Reading and writing back keeps exactly the stored entries whose keys are power-up raw values. */
  lemma {:induction false} EncodeDecode(stored: map<string, int>)
    ensures EncodeInventory(DecodeInventory(stored)) == map k | k in stored && PowerUpFromRaw(k).Some? :: stored[k]
  {
    var r := EncodeInventory(DecodeInventory(stored));
    var m := map k | k in stored && PowerUpFromRaw(k).Some? :: stored[k];
    forall k | k in m ensures k in r && r[k] == m[k] {
      var p := PowerUpFromRaw(k).value;
      PowerUpRawInjective(p, p, k);
    }
    forall k | k in r ensures k in m {
      var p :| p in DecodeInventory(stored) && PowerUpRaw(p) == k;
      PowerUpRawInjective(p, p, k);
    }
  }

  // ---------------------------------------------------------------- the ledger

  /** What the ledger reports, as one value. */
  datatype Holdings = Holdings(
    coins: int,
    skins: seq<ButtonSkin>, skin: ButtonSkin,
    themes: seq<BackgroundTheme>, theme: BackgroundTheme,
    packs: seq<EmojiPack>, pack: EmojiPack,
    effects: seq<SpecialEffectPack>, effect: SpecialEffectPack,
    inventory: map<PowerUp, int>)

  /** The shared `GameManager`: high score, coin balance, unlocks, selections and power-ups. */
  class GameManager {
    var highScore: int
    var totalCoins: int
    var storedSkins: Option<seq<ButtonSkin>>
    var storedSkin: Option<string>
    var storedThemes: Option<seq<BackgroundTheme>>
    var storedTheme: Option<string>
    var storedPacks: Option<seq<EmojiPack>>
    var storedPack: Option<string>
    var storedEffects: Option<seq<SpecialEffectPack>>
    var storedEffect: Option<string>
    var storedPowerUps: Option<map<string, int>>

    /** A ledger with nothing stored: every getter reports its default. */
    constructor ()
      ensures highScore == 0 && totalCoins == 0
      ensures UnlockedSkins() == DefaultSkins && SelectedSkin() == DefaultSkin
      ensures UnlockedThemes() == DefaultThemes && SelectedTheme() == DefaultTheme
      ensures UnlockedPacks() == DefaultPacks && SelectedPack() == DefaultPack
      ensures UnlockedEffects() == DefaultEffects && SelectedEffect() == DefaultEffect
      ensures PowerUpInventory() == map[]
    {
      highScore, totalCoins := 0, 0;
      storedSkins, storedSkin := None, None;
      storedThemes, storedTheme := None, None;
      storedPacks, storedPack := None, None;
      storedEffects, storedEffect := None, None;
      storedPowerUps := None;
    }

    // -------- getters

    function UnlockedSkins(): seq<ButtonSkin> reads this`storedSkins {
      storedSkins.GetOr(DefaultSkins)
    }

    function SelectedSkin(): ButtonSkin reads this`storedSkin {
      match storedSkin
      case Some(raw) => SkinFromRaw(raw).GetOr(DefaultSkin)
      case None => DefaultSkin
    }

    function UnlockedThemes(): seq<BackgroundTheme> reads this`storedThemes {
      storedThemes.GetOr(DefaultThemes)
    }

    function SelectedTheme(): BackgroundTheme reads this`storedTheme {
      match storedTheme
      case Some(raw) => ThemeFromRaw(raw).GetOr(DefaultTheme)
      case None => DefaultTheme
    }

    function UnlockedPacks(): seq<EmojiPack> reads this`storedPacks {
      storedPacks.GetOr(DefaultPacks)
    }

    function SelectedPack(): EmojiPack reads this`storedPack {
      match storedPack
      case Some(raw) => PackFromRaw(raw).GetOr(DefaultPack)
      case None => DefaultPack
    }

    function UnlockedEffects(): seq<SpecialEffectPack> reads this`storedEffects {
      storedEffects.GetOr(DefaultEffects)
    }

    function SelectedEffect(): SpecialEffectPack reads this`storedEffect {
      match storedEffect
      case Some(raw) => EffectFromRaw(raw).GetOr(DefaultEffect)
      case None => DefaultEffect
    }

    function PowerUpInventory(): map<PowerUp, int> reads this`storedPowerUps {
      match storedPowerUps
      case Some(stored) => DecodeInventory(stored)
      case None => map[]
    }

    /** `getPowerUpCount`: the stored count, 0 for a power-up never bought. */
    function GetPowerUpCount(p: PowerUp): (n: int)
      reads this`storedPowerUps
      ensures p !in PowerUpInventory() ==> n == 0
    {
      Count(PowerUpInventory(), p)
    }

    function View(): Holdings reads this {
      Holdings(totalCoins, UnlockedSkins(), SelectedSkin(), UnlockedThemes(), SelectedTheme(),
               UnlockedPacks(), SelectedPack(), UnlockedEffects(), SelectedEffect(), PowerUpInventory())
    }

    // -------- setters of the selections

    method SelectSkin(s: ButtonSkin)
      modifies this`storedSkin
      ensures storedSkin == Some(SkinRaw(s)) && SelectedSkin() == s
    {
      storedSkin := Some(SkinRaw(s));
      SkinRawRoundTrip(s);
    }

    method SelectTheme(t: BackgroundTheme)
      modifies this`storedTheme
      ensures storedTheme == Some(ThemeRaw(t)) && SelectedTheme() == t
    {
      storedTheme := Some(ThemeRaw(t));
      ThemeRawRoundTrip(t);
    }

    method SelectPack(p: EmojiPack)
      modifies this`storedPack
      ensures storedPack == Some(PackRaw(p)) && SelectedPack() == p
    {
      storedPack := Some(PackRaw(p));
      PackRawRoundTrip(p);
    }

    method SelectEffect(e: SpecialEffectPack)
      modifies this`storedEffect
      ensures storedEffect == Some(EffectRaw(e)) && SelectedEffect() == e
    {
      storedEffect := Some(EffectRaw(e));
      EffectRawRoundTrip(e);
    }

    // -------- purchases

    method UnlockSkin(skin: ButtonSkin) returns (ok: bool)
      modifies this`totalCoins, this`storedSkins
      ensures Debit(ok, totalCoins, UnlockedSkins()) == Unlock(old(totalCoins), old(UnlockedSkins()), skin, SkinCost(skin))
      ensures storedSkins == if ok && skin !in old(UnlockedSkins()) then Some(old(UnlockedSkins()) + [skin]) else old(storedSkins)
    {
      if totalCoins >= SkinCost(skin) {
        totalCoins := totalCoins - SkinCost(skin);
        var skins := UnlockedSkins();
        if skin !in skins {
          skins := skins + [skin];
          storedSkins := Some(skins);
        }
        return true;
      }
      return false;
    }

    method UnlockTheme(theme: BackgroundTheme) returns (ok: bool)
      modifies this`totalCoins, this`storedThemes
      ensures Debit(ok, totalCoins, UnlockedThemes()) == Unlock(old(totalCoins), old(UnlockedThemes()), theme, ThemeCost(theme))
      ensures storedThemes == if ok && theme !in old(UnlockedThemes()) then Some(old(UnlockedThemes()) + [theme]) else old(storedThemes)
    {
      if totalCoins >= ThemeCost(theme) {
        totalCoins := totalCoins - ThemeCost(theme);
        var themes := UnlockedThemes();
        if theme !in themes {
          themes := themes + [theme];
          storedThemes := Some(themes);
        }
        return true;
      }
      return false;
    }

    method UnlockEmojiPack(pack: EmojiPack) returns (ok: bool)
      modifies this`totalCoins, this`storedPacks
      ensures Debit(ok, totalCoins, UnlockedPacks()) == Unlock(old(totalCoins), old(UnlockedPacks()), pack, PackCost(pack))
      ensures storedPacks == if ok && pack !in old(UnlockedPacks()) then Some(old(UnlockedPacks()) + [pack]) else old(storedPacks)
    {
      if totalCoins >= PackCost(pack) {
        totalCoins := totalCoins - PackCost(pack);
        var packs := UnlockedPacks();
        if pack !in packs {
          packs := packs + [pack];
          storedPacks := Some(packs);
        }
        return true;
      }
      return false;
    }

    method UnlockEffect(effect: SpecialEffectPack) returns (ok: bool)
      modifies this`totalCoins, this`storedEffects
      ensures Debit(ok, totalCoins, UnlockedEffects()) == Unlock(old(totalCoins), old(UnlockedEffects()), effect, EffectCost(effect))
      ensures storedEffects == if ok && effect !in old(UnlockedEffects()) then Some(old(UnlockedEffects()) + [effect]) else old(storedEffects)
    {
      if totalCoins >= EffectCost(effect) {
        totalCoins := totalCoins - EffectCost(effect);
        var effects := UnlockedEffects();
        if effect !in effects {
          effects := effects + [effect];
          storedEffects := Some(effects);
        }
        return true;
      }
      return false;
    }

    /** Writes `inventory` back in its JSON form. */
    method StoreInventory(inventory: map<PowerUp, int>)
      modifies this`storedPowerUps
      ensures storedPowerUps == Some(EncodeInventory(inventory))
      ensures PowerUpInventory() == inventory
    {
      DecodeEncode(inventory);
      storedPowerUps := Some(EncodeInventory(inventory));
    }

    method PurchasePowerUp(p: PowerUp, quantity: int) returns (ok: bool)
      modifies this`totalCoins, this`storedPowerUps
      ensures Stock(ok, totalCoins, PowerUpInventory()) == PurchasePowerUps(old(totalCoins), old(PowerUpInventory()), p, quantity)
      ensures !ok ==> storedPowerUps == old(storedPowerUps)
    {
      ghost var expected := PurchasePowerUps(totalCoins, PowerUpInventory(), p, quantity);
      var totalCost := TotalCost(p, quantity);
      if totalCoins >= totalCost {
        var inventory := PowerUpInventory();
        var updated := inventory[p := Count(inventory, p) + quantity];
        assert expected == Stock(true, totalCoins - totalCost, updated);
        StoreInventory(updated);
        totalCoins := totalCoins - totalCost;
        ok := true;
      } else {
        assert expected == Stock(false, totalCoins, PowerUpInventory());
        ok := false;
      }
    }

    method UsePowerUp(p: PowerUp) returns (ok: bool)
      modifies this`storedPowerUps
      ensures ok == UsePowerUpIn(old(PowerUpInventory()), p).ok
      ensures PowerUpInventory() == UsePowerUpIn(old(PowerUpInventory()), p).inventory
      ensures !ok ==> storedPowerUps == old(storedPowerUps)
    {
      var inventory := PowerUpInventory();
      if p in inventory && inventory[p] > 0 {
        StoreInventory(inventory[p := inventory[p] - 1]);
        return true;
      }
      return false;
    }
  }
}
