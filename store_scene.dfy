/**
 * The store screen of codename_clefairy/StoreScene.swift as a class: the
 * selected tab and filter, the cards on show, the preview and confirmation
 * overlays, and the touch handler that buys and equips through the shared
 * `GameManager`.
 *
 * A touch is given by the name of the node it hit; hit-testing, drawing,
 * sounds, haptics and scrolling are not modelled.
 */
module StoreScreen {
  import opened Wrappers
  import opened Catalog
  import opened Ledger
  import opened StoreItems

  /** What the screen is in, apart from the cards, which follow from it. */
  datatype Screen = Screen(
    holdings: Holdings,
    category: StoreCategory,
    filter: StoreFilter,
    previewOpen: bool,
    confirming: Option<string>,  // the item id the purchase confirmation offers
    leaving: bool)               // the back button was pressed

  /** No overlay is open, so touches reach the buttons of the screen. */
  predicate Idle(v: Screen) {
    !v.previewOpen && v.confirming.None?
  }

  /** `touchesBegan` on values, for a touch on the node named `name`. */
  function AfterTouch(v: Screen, name: string): (r: Screen)
    ensures !Idle(v) ==> r.category == v.category && r.filter == v.filter && r.leaving == v.leaving
    ensures v.previewOpen ==> !r.previewOpen && r.confirming == v.confirming
    ensures !v.previewOpen && v.confirming.Some? ==> Idle(r)
    ensures r.leaving <==> v.leaving || (Idle(v) && name == BackName)
    ensures r.holdings != v.holdings ==>
              (v.confirming.Some? && StartsWith(name, ConfirmPrefix)) || (Idle(v) && StartsWith(name, ActionPrefix))
  {
    if v.previewOpen then v.(previewOpen := false)
    else if v.confirming.Some? then
      if StartsWith(name, ConfirmPrefix) then
        v.(confirming := None, holdings := Purchase(v.holdings, DropFirst(name, 12)).1)
      else v.(confirming := None)
    else if name == BackName then v.(leaving := true)
    else if StartsWith(name, TabPrefix) then
      (match CategoryFromRaw(DropFirst(name, 4)) case Some(c) => v.(category := c) case None => v)
    else if StartsWith(name, FilterPrefix) then
      (match FilterFromRaw(DropFirst(name, 7)) case Some(f) => v.(filter := f) case None => v)
    else if StartsWith(name, TryPrefix) then v.(previewOpen := true)
    else if StartsWith(name, ActionPrefix) then ActionTouch(v, DropFirst(name, 7))
    else v
  }

  /** The action button of the card with id `id`: buy at once, or ask first. */
  function ActionTouch(v: Screen, id: string): (r: Screen)
    ensures r == v || r == v.(confirming := Some(id)) || r == v.(holdings := Purchase(v.holdings, id).1)
    ensures ParseItemId(id).None? ==> r == v
    ensures r.holdings.coins == v.holdings.coins
  {
    match ParseItemId(id)
    case None => v
    case Some((tag, item)) =>
      if DirectPurchase(v.holdings, tag, item) then v.(holdings := Purchase(v.holdings, id).1)
      else v.(confirming := Some(id))
  }

  // ---------------------------------------------------------------- what a touch does

  /** The tab and filter buttons switch to their own tab and filter and change nothing else. */
  lemma TabAndFilterButtons(v: Screen, c: StoreCategory, f: StoreFilter)
    requires Idle(v)
    ensures AfterTouch(v, TabPrefix + CategoryRaw(c)) == v.(category := c)
    ensures AfterTouch(v, FilterPrefix + FilterRaw(f)) == v.(filter := f)
  {
    StrippedNodeNames(CategoryRaw(c));
    StrippedNodeNames(FilterRaw(f));
    CategoryRawRoundTrip(c);
    FilterRawRoundTrip(f);
    assert (FilterPrefix + FilterRaw(f))[1] != TabPrefix[1];
  }

  /** While the preview is open any touch only closes it. */
  lemma PreviewSwallowsTouch(v: Screen, id: string, name: string)
    requires Idle(v)
    ensures AfterTouch(v, TryPrefix + id) == v.(previewOpen := true)
    ensures AfterTouch(AfterTouch(v, TryPrefix + id), name) == v
  {
    StrippedNodeNames(id);
    assert (TryPrefix + id)[0] != BackName[0];
    assert (TryPrefix + id)[1] != TabPrefix[1];
  }

  /**
   * Buying a card not yet owned takes two touches: the action button opens
   * the confirmation for that card, and "BUY NOW" then runs the purchase,
   * while "CANCEL" leaves everything as it was.
   */
  lemma BuyingNeedsConfirmation(v: Screen, i: nat)
    requires Idle(v) && i < CaseCount(v.category)
    requires !CategoryItems(v.holdings, v.category)[i].isOwned
    ensures var id := CategoryItems(v.holdings, v.category)[i].id;
            var asked := AfterTouch(v, ActionPrefix + id);
            asked == v.(confirming := Some(id)) &&
            AfterTouch(asked, ConfirmPrefix + id) == v.(holdings := Purchase(v.holdings, id).1) &&
            AfterTouch(asked, CancelName) == v
  {
    var id := CategoryItems(v.holdings, v.category)[i].id;
    ActionTouchReadsId(v, i);
    ListedActionIsDirectIffOwned(v.holdings, v.category, i);
    StrippedNodeNames(id);
  }

  /** The action button of an owned card equips it at once: no charge, and it becomes the selection. */
  lemma OwnedCardEquipsAtOnce(v: Screen, i: nat)
    requires Idle(v) && i < CaseCount(v.category)
    requires CategoryItems(v.holdings, v.category)[i].isOwned
    ensures var x := CategoryItems(v.holdings, v.category)[i];
            var h := v.holdings;
            var h' := AfterTouch(v, ActionPrefix + x.id).holdings;
            AfterTouch(v, ActionPrefix + x.id) == v.(holdings := h') &&
            Purchase(h, x.id).0 == Succeeded && h'.coins == h.coins &&
            h'.skins == h.skins && h'.themes == h.themes && h'.packs == h.packs && h'.effects == h.effects &&
            h'.inventory == h.inventory &&
            Wears(h', v.category, i)
  {
    var x := CategoryItems(v.holdings, v.category)[i];
    ActionTouchReadsId(v, i);
    ListedActionIsDirectIffOwned(v.holdings, v.category, i);
    PurchaseOfListedItem(v.holdings, v.category, i);
    var h := v.holdings;
    match v.category
    case Skins => EquipOrUnlockSpec(h.coins, h.skins, AllSkins[i], SkinCost(AllSkins[i]));
    case Themes => EquipOrUnlockSpec(h.coins, h.themes, AllThemes[i], ThemeCost(AllThemes[i]));
    case EmojiPacks => EquipOrUnlockSpec(h.coins, h.packs, AllPacks[i], PackCost(AllPacks[i]));
    case Effects => EquipOrUnlockSpec(h.coins, h.effects, AllEffects[i], EffectCost(AllEffects[i]));
  }

  /** The action button of a card reaches the action branch with the card's own id. */
  lemma ActionTouchReadsId(v: Screen, i: nat)
    requires Idle(v) && i < CaseCount(v.category)
    ensures var x := CategoryItems(v.holdings, v.category)[i];
            AfterTouch(v, ActionPrefix + x.id) ==
              if DirectPurchase(v.holdings, Tag(v.category), x.name) then v.(holdings := Purchase(v.holdings, x.id).1)
              else v.(confirming := Some(x.id))
  {
    var x := CategoryItems(v.holdings, v.category)[i];
    ActionNameReachesAction(v, x.id);
    ListedItem(v.holdings, v.category, i);
  }

  /** A touch on "action_"+id reaches the action branch with `id`. */
  lemma ActionNameReachesAction(v: Screen, id: string)
    requires Idle(v)
    ensures AfterTouch(v, ActionPrefix + id) == ActionTouch(v, id)
  {
    StrippedNodeNames(id);
    var name := ActionPrefix + id;
    assert name[0] != BackName[0] && name[0] != TabPrefix[0] && name[0] != FilterPrefix[0] && name[0] != TryPrefix[0];
    assert !StartsWith(name, TabPrefix) && !StartsWith(name, FilterPrefix) && !StartsWith(name, TryPrefix);
  }

  // ---------------------------------------------------------------- the scene

  class StoreScene {
    const manager: GameManager
    var currentCategory: StoreCategory
    var currentFilter: StoreFilter
    var items: seq<StoreItem>
    var previewOpen: bool
    var confirming: Option<string>
    var leaving: bool

    function State(): Screen reads this, manager {
      Screen(manager.View(), currentCategory, currentFilter, previewOpen, confirming, leaving)
    }

    /** The cards on show are those of the current tab and filter for the ledger as it is. */
    ghost predicate Shown() reads this, manager {
      items == Listing(manager.View(), currentCategory, currentFilter)
    }

    /** `didMove(to:)`: the skins tab, no filter, no overlay, and its cards loaded. */
    constructor (manager: GameManager)
      ensures this.manager == manager
      ensures State() == Screen(manager.View(), Skins, All, false, None, false)
      ensures Shown()
    {
      this.manager := manager;
      currentCategory, currentFilter := Skins, All;
      items := [];
      previewOpen, confirming, leaving := false, None, false;
      new;
      LoadCategoryItems();
    }

    /** `loadCategoryItems`: one card per case of the tab, then the filter. */
    method LoadCategoryItems()
      modifies this`items
      ensures Shown()
    {
      var h := manager.View();
      var all: seq<StoreItem> := [];
      var i := 0;
      while i < CaseCount(currentCategory)
        invariant i <= CaseCount(currentCategory)
        invariant all == CategoryItems(h, currentCategory)[..i]
      {
        all := all + [ItemAt(h, currentCategory, i)];
        i := i + 1;
      }
      assert all == CategoryItems(h, currentCategory);
      items := FilterItems(all, currentFilter, currentCategory, h.coins);
    }

    // -------- the branches of handlePurchase

    method BuySkinItem(s: ButtonSkin) returns (ok: bool)
      modifies manager`totalCoins, manager`storedSkins, manager`storedSkin
      ensures (if ok then Succeeded else Failed, manager.View()) == BuySkin(old(manager.View()), s)
    {
      if s in manager.UnlockedSkins() {
        manager.SelectSkin(s);
        ok := true;
      } else {
        ok := manager.UnlockSkin(s);
        if ok {
          manager.SelectSkin(s);
        }
      }
    }

    method BuyThemeItem(t: BackgroundTheme) returns (ok: bool)
      modifies manager`totalCoins, manager`storedThemes, manager`storedTheme
      ensures (if ok then Succeeded else Failed, manager.View()) == BuyTheme(old(manager.View()), t)
    {
      if t in manager.UnlockedThemes() {
        manager.SelectTheme(t);
        ok := true;
      } else {
        ok := manager.UnlockTheme(t);
        if ok {
          manager.SelectTheme(t);
        }
      }
    }

    method BuyPackItem(p: EmojiPack) returns (ok: bool)
      modifies manager`totalCoins, manager`storedPacks, manager`storedPack
      ensures (if ok then Succeeded else Failed, manager.View()) == BuyPack(old(manager.View()), p)
    {
      if p in manager.UnlockedPacks() {
        manager.SelectPack(p);
        ok := true;
      } else {
        ok := manager.UnlockEmojiPack(p);
        if ok {
          manager.SelectPack(p);
        }
      }
    }

    method BuyEffectItem(e: SpecialEffectPack) returns (ok: bool)
      modifies manager`totalCoins, manager`storedEffects, manager`storedEffect
      ensures (if ok then Succeeded else Failed, manager.View()) == BuyEffect(old(manager.View()), e)
    {
      if e in manager.UnlockedEffects() {
        manager.SelectEffect(e);
        ok := true;
      } else {
        ok := manager.UnlockEffect(e);
        if ok {
          manager.SelectEffect(e);
        }
      }
    }

    method BuyPowerUpItem(u: PowerUp) returns (ok: bool)
      modifies manager`totalCoins, manager`storedPowerUps
      ensures (if ok then Succeeded else Failed, manager.View()) == BuyPowerUp(old(manager.View()), u)
    {
      ok := manager.PurchasePowerUp(u, 1);
    }

    /** `handlePurchase(itemId:)`: buy or equip, and reload the cards when it worked. */
    method HandlePurchase(id: string) returns (outcome: Outcome)
      modifies manager`totalCoins, manager`storedSkins, manager`storedSkin, manager`storedThemes,
               manager`storedTheme, manager`storedPacks, manager`storedPack, manager`storedEffects,
               manager`storedEffect, manager`storedPowerUps, this`items
      ensures (outcome, manager.View()) == Purchase(old(manager.View()), id)
      ensures outcome == Succeeded ==> Shown()
      ensures outcome != Succeeded ==> items == old(items)
    {
      var parts := Split(id, Underscore);
      if |parts| < 2 {
        return Ignored;
      }
      var tag := parts[0];
      var name := Join(parts[1..], Underscore);
      var ok := false;
      if tag == "skin" {
        match SkinFromRaw(name) {
          case Some(s) => ok := BuySkinItem(s);
          case None =>
        }
      } else if tag == "theme" {
        match ThemeFromRaw(name) {
          case Some(t) => ok := BuyThemeItem(t);
          case None =>
        }
      } else if tag == "emoji" {
        match PackFromRaw(name) {
          case Some(p) => ok := BuyPackItem(p);
          case None =>
        }
      } else if tag == "effect" {
        match EffectFromRaw(name) {
          case Some(e) => ok := BuyEffectItem(e);
          case None =>
        }
      } else if tag == "powerup" {
        match PowerUpFromRaw(name) {
          case Some(u) => ok := BuyPowerUpItem(u);
          case None =>
        }
      }
      if ok {
        LoadCategoryItems();
        outcome := Succeeded;
      } else {
        outcome := Failed;
      }
    }

    /** `touchesBegan` for a touch on the node named `name`. */
    method Touch(name: string)
      requires Shown()
      modifies manager`totalCoins, manager`storedSkins, manager`storedSkin, manager`storedThemes,
               manager`storedTheme, manager`storedPacks, manager`storedPack, manager`storedEffects,
               manager`storedEffect, manager`storedPowerUps, this`items, this`currentCategory,
               this`currentFilter, this`previewOpen, this`confirming, this`leaving
      ensures State() == AfterTouch(old(State()), name)
      ensures Shown()
    {
      if previewOpen {
        previewOpen := false;
        return;
      }
      if confirming.Some? {
        confirming := None;
        if StartsWith(name, ConfirmPrefix) {
          Buy(DropFirst(name, 12));
        }
        return;
      }
      if name == BackName {
        leaving := true;
        return;
      }
      if StartsWith(name, TabPrefix) {
        match CategoryFromRaw(DropFirst(name, 4)) {
          case Some(c) =>
            currentCategory := c;
            LoadCategoryItems();
          case None =>
        }
        return;
      }
      if StartsWith(name, FilterPrefix) {
        match FilterFromRaw(DropFirst(name, 7)) {
          case Some(f) =>
            currentFilter := f;
            LoadCategoryItems();
          case None =>
        }
        return;
      }
      if StartsWith(name, TryPrefix) {
        previewOpen := true;
        return;
      }
      if StartsWith(name, ActionPrefix) {
        var id := DropFirst(name, 7);
        var parts := Split(id, Underscore);
        if |parts| >= 2 {
          var tag := parts[0];
          var item := Join(parts[1..], Underscore);
          var (cost, isOwned) := ActionInfo(manager.View(), tag, item);
          if isOwned || (tag == "powerup" && cost == 0) {
            Buy(id);
          } else {
            confirming := Some(id);
          }
        }
      }
    }

    /** A purchase from a touch, whose failure alert leaves the cards and the ledger as they were. */
    method Buy(id: string)
      requires Shown()
      modifies manager`totalCoins, manager`storedSkins, manager`storedSkin, manager`storedThemes,
               manager`storedTheme, manager`storedPacks, manager`storedPack, manager`storedEffects,
               manager`storedEffect, manager`storedPowerUps, this`items
      ensures manager.View() == Purchase(old(manager.View()), id).1
      ensures Shown()
    {
      ghost var before := manager.View();
      PurchaseGuarantees(before, id);
      var outcome := HandlePurchase(id);
    }
  }
}
