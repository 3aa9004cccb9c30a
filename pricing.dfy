/**
 * The menu of the customer bot: the button labels a customer may pick, the
 * price of a selection, the size word stored on an order, and the button sets
 * of the size and add-on pages.
 *
 * A selection is the chat's map from selection keys ("coffeeType", "size",
 * "milkType", "syrupType", "coffeeShopId") to the labels chosen.
 */
module Pricing {
  import opened Wrappers
  import opened Text

  // Selection keys
  const CoffeeShopIdKey := "coffeeShopId"
  const CoffeeTypeKey := "coffeeType"
  const SizeKey := "size"
  const MilkTypeKey := "milkType"
  const SyrupTypeKey := "syrupType"

  // Drink labels
  const AmericanoLabel := "Американо"
  const LatteLabel := "Латте"
  const CappuccinoLabel := "Капучино"
  const RafLabel := "Раф"
  const FlatWhiteLabel := "Флэт Уайт"

  // Size labels
  const SmallLabel := "Маленький 250 мл"
  const MediumLabel := "Средний 350 мл"
  const LargeLabel := "Большой 450 мл"

  // Add-on page buttons
  const MilkButton := "Молоко (растительное)"
  const SyrupButton := "Сироп (ванильный, ореховый, карамельный)"
  const RemoveMilkButton := "Убрать молоко"
  const RemoveSyrupButton := "Убрать сироп"
  const DoneButton := "Готово"
  const NoAddonsButton := "Без добавок"

  const MilkLabels := ["Кокосовое", "Миндальное", "Фундучное", "Овсяное"]
  const SyrupLabels := ["Ванильный", "Ореховый", "Карамельный"]

  /** The flat syrup surcharge, in tenge. */
  const SyrupSurcharge := 160

  /** `getUserSelection` on one chat's map: the value under `key`, or null. */
  function Lookup(sel: map<string, string>, key: string): (r: Option<string>)
    ensures r.Some? <==> key in sel
    ensures r.Some? ==> r.value == sel[key]
  {
    if key in sel then Some(sel[key]) else None
  }

  predicate IsValidCoffeeType(t: string) {
    t in [AmericanoLabel, LatteLabel, CappuccinoLabel, RafLabel, FlatWhiteLabel]
  }

  /** Any of the three sizes is accepted, whatever the drink. */
  predicate IsValidSize(t: string) {
    t in [SmallLabel, MediumLabel, LargeLabel]
  }

  predicate IsValidMilkType(t: string) {
    t in MilkLabels
  }

  predicate IsValidSyrupType(t: string) {
    t in SyrupLabels
  }

  /** The cup size `calculateTotalPrice` reads off the size label: the first of 250, 350, 450 it contains, else 0. */
  function SizeInMl(size: Option<string>): (ml: int)
    ensures ml == 0 || ml == 250 || ml == 350 || ml == 450
  {
    match size
    case None => 0
    case Some(s) =>
      if Contains(s, "250") then 250
      else if Contains(s, "350") then 350
      else if Contains(s, "450") then 450
      else 0
  }

  /** The drink part of the price; an unknown drink, or a size the drink has no price for, adds nothing. */
  function BasePrice(coffeeType: Option<string>, ml: int): (r: int)
    ensures 0 <= r <= 1590
    ensures coffeeType == Some(FlatWhiteLabel) ==> r == 1090
    ensures r != 0 <==>
      || coffeeType == Some(FlatWhiteLabel)
      || ((coffeeType == Some(AmericanoLabel) || coffeeType == Some(LatteLabel)
           || coffeeType == Some(CappuccinoLabel) || coffeeType == Some(RafLabel))
          && (ml == 250 || ml == 350 || ml == 450))
  {
    if coffeeType == Some(AmericanoLabel) then
      if ml == 250 then 990 else if ml == 350 then 1090 else if ml == 450 then 1190 else 0
    else if coffeeType == Some(FlatWhiteLabel) then 1090
    else if coffeeType == Some(LatteLabel) || coffeeType == Some(CappuccinoLabel) then
      if ml == 250 then 1090 else if ml == 350 then 1190 else if ml == 450 then 1290 else 0
    else if coffeeType == Some(RafLabel) then
      if ml == 250 then 1290 else if ml == 350 then 1490 else if ml == 450 then 1590 else 0
    else 0
  }

  /** The plant-milk surcharge by cup size. */
  function MilkSurcharge(ml: int): (r: int)
    ensures ml == 250 || ml == 350 || ml == 450 ==> r == ml + 100
    ensures r != 0 <==> ml == 250 || ml == 350 || ml == 450
  {
    if ml == 250 then 350 else if ml == 350 then 450 else if ml == 450 then 550 else 0
  }

  /** `calculateTotalPrice`: drink price, plus milk by size when milk is chosen, plus syrup when syrup is chosen. */
  function CalculateTotalPrice(sel: map<string, string>): (p: int)
    ensures 0 <= p <= 1590 + 550 + SyrupSurcharge
    ensures SyrupTypeKey !in sel && MilkTypeKey !in sel ==> p == BasePrice(Lookup(sel, CoffeeTypeKey), SizeInMl(Lookup(sel, SizeKey)))
  {
    var ml := SizeInMl(Lookup(sel, SizeKey));
    var total := BasePrice(Lookup(sel, CoffeeTypeKey), ml);
    var withMilk := if Lookup(sel, MilkTypeKey).Some? then total + MilkSurcharge(ml) else total;
    if Lookup(sel, SyrupTypeKey).Some? then withMilk + SyrupSurcharge else withMilk
  }

  /** `getSizeLabel`: the size word of a size label; null gives the empty text, anything else is kept. */
  function GetSizeLabel(size: Option<string>): (r: string)
    ensures size.None? ==> r == ""
    ensures size.Some? ==> r == "Маленький" || r == "Средний" || r == "Большой" || r == size.value
  {
    match size
    case None => ""
    case Some(s) =>
      if Contains(s, "Маленький") then "Маленький"
      else if Contains(s, "Средний") then "Средний"
      else if Contains(s, "Большой") then "Большой"
      else s
  }

  /** The size buttons offered after the drink: one for Flat White, all three otherwise. */
  function SizeButtons(coffeeType: Option<string>): (r: seq<string>)
    ensures forall i :: 0 <= i < |r| ==> IsValidSize(r[i])
  {
    if coffeeType == Some(FlatWhiteLabel) then [SmallLabel] else [SmallLabel, MediumLabel, LargeLabel]
  }

  /**
   * The add-on page buttons: milk and syrup always, then a remove button for
   * each chosen add-on, "Готово" when at least one is chosen, and "Без добавок" last.
   */
  function AddonsButtons(sel: map<string, string>): (r: seq<string>)
    ensures 3 <= |r| <= 6
    ensures |r| == 3 <==> MilkTypeKey !in sel && SyrupTypeKey !in sel
  {
    var milk := MilkTypeKey in sel;
    var syrup := SyrupTypeKey in sel;
    [MilkButton, SyrupButton]
      + (if milk then [RemoveMilkButton] else [])
      + (if syrup then [RemoveSyrupButton] else [])
      + (if milk || syrup then [DoneButton] else [])
      + [NoAddonsButton]
  }

  // An independent statement of the menu, by drink and size.

  datatype Drink = Americano | Latte | Cappuccino | Raf | FlatWhite
  datatype Size = Small | Medium | Large

  function DrinkLabel(d: Drink): string {
    match d
    case Americano => AmericanoLabel
    case Latte => LatteLabel
    case Cappuccino => CappuccinoLabel
    case Raf => RafLabel
    case FlatWhite => FlatWhiteLabel
  }

  function SizeLabel(s: Size): string {
    match s
    case Small => SmallLabel
    case Medium => MediumLabel
    case Large => LargeLabel
  }

  function SizeWord(s: Size): string {
    match s
    case Small => "Маленький"
    case Medium => "Средний"
    case Large => "Большой"
  }

  /** The price list of the drinks, by size. */
  function MenuDrinkPrice(d: Drink, s: Size): int {
    match (d, s)
    case (Americano, Small) => 990
    case (Americano, Medium) => 1090
    case (Americano, Large) => 1190
    case (FlatWhite, _) => 1090
    case (Latte, Small) => 1090
    case (Latte, Medium) => 1190
    case (Latte, Large) => 1290
    case (Cappuccino, Small) => 1090
    case (Cappuccino, Medium) => 1190
    case (Cappuccino, Large) => 1290
    case (Raf, Small) => 1290
    case (Raf, Medium) => 1490
    case (Raf, Large) => 1590
  }

  /** The price list of plant milk, by size. */
  function MenuMilkPrice(s: Size): int {
    match s
    case Small => 350
    case Medium => 450
    case Large => 550
  }

  /** The price list: drink by size, plant milk by size, syrup flat. */
  function MenuPrice(d: Drink, s: Size, milk: bool, syrup: bool): int {
    MenuDrinkPrice(d, s) + (if milk then MenuMilkPrice(s) else 0) + (if syrup then 160 else 0)
  }

  /** The drink buttons are exactly the drinks of the menu. */
  lemma ValidCoffeeTypeIsDrink(t: string)
    ensures IsValidCoffeeType(t) <==> exists d :: DrinkLabel(d) == t
  {
    if IsValidCoffeeType(t) {
      if t == AmericanoLabel { assert DrinkLabel(Americano) == t; }
      else if t == LatteLabel { assert DrinkLabel(Latte) == t; }
      else if t == CappuccinoLabel { assert DrinkLabel(Cappuccino) == t; }
      else if t == RafLabel { assert DrinkLabel(Raf) == t; }
      else { assert DrinkLabel(FlatWhite) == t; }
    }
  }

  /** The size buttons are exactly the sizes of the menu. */
  lemma ValidSizeIsSize(t: string)
    ensures IsValidSize(t) <==> exists s :: SizeLabel(s) == t
  {
    if IsValidSize(t) {
      if t == SmallLabel { assert SizeLabel(Small) == t; }
      else if t == MediumLabel { assert SizeLabel(Medium) == t; }
      else { assert SizeLabel(Large) == t; }
    }
  }

  // What `contains` finds in the three size labels, one fact per lemma.

  lemma SmallHas250() ensures Contains(SmallLabel, "250") { ContainsAt(SmallLabel, "250", 10); }
  lemma MediumLacks250() ensures !Contains(MediumLabel, "250") {
    assert '2' !in MediumLabel;
    LacksHead(MediumLabel, "250");
  }
  lemma MediumHas350() ensures Contains(MediumLabel, "350") { ContainsAt(MediumLabel, "350", 8); }
  lemma LargeLacks250() ensures !Contains(LargeLabel, "250") {
    assert '2' !in LargeLabel;
    LacksHead(LargeLabel, "250");
  }
  lemma LargeLacks350() ensures !Contains(LargeLabel, "350") {
    assert '3' !in LargeLabel;
    LacksHead(LargeLabel, "350");
  }
  lemma LargeHas450() ensures Contains(LargeLabel, "450") { ContainsAt(LargeLabel, "450", 8); }

  lemma SmallHasWord() ensures Contains(SmallLabel, "Маленький") { ContainsAt(SmallLabel, "Маленький", 0); }
  lemma MediumLacksSmallWord() ensures !Contains(MediumLabel, "Маленький") {
    assert 'М' !in MediumLabel;
    LacksHead(MediumLabel, "Маленький");
  }
  lemma MediumHasWord() ensures Contains(MediumLabel, "Средний") { ContainsAt(MediumLabel, "Средний", 0); }
  lemma LargeLacksSmallWord() ensures !Contains(LargeLabel, "Маленький") {
    assert 'М' !in LargeLabel;
    LacksHead(LargeLabel, "Маленький");
  }
  lemma LargeLacksMediumWord() ensures !Contains(LargeLabel, "Средний") {
    assert 'С' !in LargeLabel;
    LacksHead(LargeLabel, "Средний");
  }
  lemma LargeHasWord() ensures Contains(LargeLabel, "Большой") { ContainsAt(LargeLabel, "Большой", 0); }

  function Ml(s: Size): int {
    match s
    case Small => 250
    case Medium => 350
    case Large => 450
  }

  /** Each size label is read as its own cup size. */
  lemma SizeLabelMl(s: Size)
    ensures SizeInMl(Some(SizeLabel(s))) == Ml(s)
  {
    match s
    case Small => SmallHas250();
    case Medium => MediumLacks250(); MediumHas350();
    case Large => LargeLacks250(); LargeLacks350(); LargeHas450();
  }

  /** `getSizeLabel` turns each size button into its size word. */
  lemma SizeLabelWord(s: Size)
    ensures GetSizeLabel(Some(SizeLabel(s))) == SizeWord(s)
  {
    match s
    case Small => SmallHasWord();
    case Medium => MediumLacksSmallWord(); MediumHasWord();
    case Large => LargeLacksSmallWord(); LargeLacksMediumWord(); LargeHasWord();
  }

  /**
   * For any drink and size chosen from the buttons, the computed price is the
   * menu price; milk and syrup count exactly when chosen, whatever their label.
   */
  lemma PriceIsMenuPrice(sel: map<string, string>, d: Drink, s: Size)
    requires CoffeeTypeKey in sel && sel[CoffeeTypeKey] == DrinkLabel(d)
    requires SizeKey in sel && sel[SizeKey] == SizeLabel(s)
    ensures CalculateTotalPrice(sel) == MenuPrice(d, s, MilkTypeKey in sel, SyrupTypeKey in sel)
  {
    assert Lookup(sel, CoffeeTypeKey) == Some(DrinkLabel(d));
    assert Lookup(sel, SizeKey) == Some(SizeLabel(s));
    SizeLabelMl(s);
    DrinkPrice(d, s);
    assert MilkSurcharge(Ml(s)) == MenuMilkPrice(s);
  }

  /** The drink part of the computed price agrees with the menu, drink by drink. */
  lemma DrinkPrice(d: Drink, s: Size)
    ensures BasePrice(Some(DrinkLabel(d)), Ml(s)) == MenuDrinkPrice(d, s)
  {
    match d
    case Americano =>
    case Latte =>
    case Cappuccino =>
    case Raf =>
    case FlatWhite =>
  }

  /** Flat White without add-ons costs 1090 whatever is stored as its size, or when none is. */
  lemma FlatWhiteFixedPrice(sel: map<string, string>)
    requires CoffeeTypeKey in sel && sel[CoffeeTypeKey] == FlatWhiteLabel
    requires MilkTypeKey !in sel && SyrupTypeKey !in sel
    ensures CalculateTotalPrice(sel) == 1090
  {
  }

  /** Americano 250 ml without add-ons costs 990. */
  lemma AmericanoSmallPlain()
    ensures CalculateTotalPrice(map[CoffeeTypeKey := AmericanoLabel, SizeKey := SmallLabel]) == 990
  {
    var sel := map[CoffeeTypeKey := AmericanoLabel, SizeKey := SmallLabel];
    assert |CoffeeTypeKey| != |SizeKey| && |MilkTypeKey| != |SizeKey| && |SyrupTypeKey| != |SizeKey|;
    assert |MilkTypeKey| != |CoffeeTypeKey| && |SyrupTypeKey| != |CoffeeTypeKey|;
    assert MilkTypeKey !in sel && SyrupTypeKey !in sel;
    PriceIsMenuPrice(sel, Americano, Small);
  }

  /** Latte 350 ml with plant milk costs 1640. */
  lemma LatteMediumWithMilk()
    ensures CalculateTotalPrice(map[CoffeeTypeKey := LatteLabel, SizeKey := MediumLabel, MilkTypeKey := "Овсяное"]) == 1640
  {
    var sel := map[CoffeeTypeKey := LatteLabel, SizeKey := MediumLabel, MilkTypeKey := "Овсяное"];
    assert |CoffeeTypeKey| != |SizeKey| && |MilkTypeKey| != |SizeKey| && |SyrupTypeKey| != |SizeKey|;
    assert |MilkTypeKey| != |CoffeeTypeKey| && |SyrupTypeKey| != |CoffeeTypeKey| && |SyrupTypeKey| != |MilkTypeKey|;
    assert MilkTypeKey in sel && SyrupTypeKey !in sel;
    PriceIsMenuPrice(sel, Latte, Medium);
  }

  /** Flat White is offered only the small size; every other drink (or none) gets all three sizes. */
  lemma SizeButtonsByDrink(coffeeType: Option<string>)
    ensures coffeeType == Some(FlatWhiteLabel) ==> SizeButtons(coffeeType) == [SizeLabel(Small)]
    ensures coffeeType != Some(FlatWhiteLabel) ==>
      SizeButtons(coffeeType) == [SizeLabel(Small), SizeLabel(Medium), SizeLabel(Large)]
  {
  }

  /** The remove buttons appear exactly for the chosen add-ons, and the page always ends with "Без добавок". */
  lemma AddonsButtonsShape(sel: map<string, string>)
    ensures RemoveMilkButton in AddonsButtons(sel) <==> MilkTypeKey in sel
    ensures RemoveSyrupButton in AddonsButtons(sel) <==> SyrupTypeKey in sel
    ensures DoneButton in AddonsButtons(sel) <==> MilkTypeKey in sel || SyrupTypeKey in sel
    ensures AddonsButtons(sel)[..2] == [MilkButton, SyrupButton]
    ensures AddonsButtons(sel)[|AddonsButtons(sel)| - 1] == NoAddonsButton
  {
  }
}
