/** The chair configurator page (pages/page.tsx): a flat base price and
    material surcharge plus a colour surcharge scaled by size, the viewer
    bindings, the dropdown texts, the share summary and the page's state. */
module ChairConfigurator {
  import opened JsBuiltins
  import opened Viewer

  datatype Material = Wood | Metal | Fabric
  datatype Color = Natural | Walnut | White | Black

  /** The size slider runs from 0.8 to 1.5 in steps of 0.1; a size is held
      here as its number of tenths. */
  const MinSize: int := 8
  const MaxSize: int := 15
  type Size = k: int | MinSize <= k <= MaxSize witness 10

  // ---------------------------------------------------------------------
  // Price

  const BasePrice: int := 249

  /** `materialPrices`: no material is a discount. */
  function MaterialPrice(m: Material): (r: int)
    ensures r >= 0
    ensures r == 0 <==> m == Wood
  {
    match m
    case Wood => 0
    case Metal => 50
    case Fabric => 30
  }

  /** `colorPrices`: no colour is a discount, so a larger size never
      lowers the price. */
  function ColorPrice(c: Color): (r: int)
    ensures r >= 0
    ensures r == 0 <==> c == Natural
  {
    match c
    case Natural => 0
    case Walnut => 20
    case White => 15
    case Black => 25
  }

  /** Math.round(basePrice + materialPrices[m] + colorPrices[c] * size),
      the exact sum being held in tenths. The result is the whole number
      nearest to that sum, a half going up. */
  function Price(m: Material, c: Color, size: Size): (r: int)
    ensures 10 * r - 5 <= 10 * (BasePrice + MaterialPrice(m)) + ColorPrice(c) * size < 10 * r + 5
  {
    RoundTenths(10 * (BasePrice + MaterialPrice(m)) + ColorPrice(c) * size)
  }

  /** The flat part of the price leaves the rounding untouched: only the
      size-scaled colour surcharge is rounded. */
  lemma PriceSplits(m: Material, c: Color, size: Size)
    ensures Price(m, c, size) == BasePrice + MaterialPrice(m) + RoundTenths(ColorPrice(c) * size)
  {
  }

  lemma PriceExamples()
    ensures Price(Wood, Natural, 10) == 249
    ensures Price(Metal, Black, 10) == 324
    ensures Price(Wood, Walnut, 15) == 279
    ensures Price(Wood, White, 9) == 263
  {
  }

  /** Changing only the material moves the price by the difference of the
      two material surcharges, whatever the size. */
  lemma MaterialChangeDelta(m1: Material, m2: Material, c: Color, size: Size)
    ensures Price(m2, c, size) - Price(m1, c, size) == MaterialPrice(m2) - MaterialPrice(m1)
  {
  }

  /** No colour surcharge is negative, so a larger size never costs less. */
  lemma PriceMonotoneInSize(m: Material, c: Color, s1: Size, s2: Size)
    requires s1 <= s2
    ensures Price(m, c, s1) <= Price(m, c, s2)
  {
  }

  /** With the natural colour the size has no effect on the price. */
  lemma NaturalIgnoresSize(m: Material, size: Size)
    ensures Price(m, Natural, size) == BasePrice + MaterialPrice(m)
  {
  }

  /** Over the slider's range the price lies between 249 and 337, both
      reached (337 is metal in black at 1.5, Math.round(336.5)). */
  lemma PriceBounds(m: Material, c: Color, size: Size)
    ensures 249 <= Price(m, c, size) <= 337
    ensures Price(Wood, Natural, MinSize) == 249
    ensures Price(Metal, Black, MaxSize) == 337
  {
  }

  // ---------------------------------------------------------------------
  // Viewer bindings

  /** The colour passed to the mesh material; the last branch covers black. */
  function MeshColor(c: Color): (hex: string)
    ensures IsHexColor(hex)
  {
    if c == Natural then "#d2b48c"
    else if c == Walnut then "#3a2a1a"
    else if c == White then "#ffffff"
    else "#222222"
  }

  lemma ColorLookup()
    ensures MeshColor(Natural) == "#d2b48c"
    ensures MeshColor(Walnut) == "#3a2a1a"
    ensures MeshColor(White) == "#ffffff"
    ensures MeshColor(Black) == "#222222"
  {
  }

  /** Every colour choice shows as a different colour. */
  lemma MeshColorInjective(c1: Color, c2: Color)
    requires MeshColor(c1) == MeshColor(c2)
    ensures c1 == c2
  {
  }

  /** Metalness in tenths: 0.8 for metal, 0.1 for anything else. */
  function Metalness(m: Material): (t: nat)
    ensures t == 8 <==> m == Metal
    ensures t == 1 <==> m != Metal
  {
    if m == Metal then 8 else 1
  }

  /** Roughness in tenths: 0.7 for fabric, 0.4 for anything else. */
  function Roughness(m: Material): (t: nat)
    ensures t == 7 <==> m == Fabric
    ensures t == 4 <==> m != Fabric
  {
    if m == Fabric then 7 else 4
  }

  /** What the mesh receives: a #rrggbb fill chosen by the colour alone,
      metalness 0.8 for metal and 0.1 otherwise, roughness 0.7 for fabric and
      0.4 otherwise, and the size as its uniform scale. */
  function ViewerBinding(m: Material, c: Color, size: Size): (b: Binding)
    ensures IsHexColor(b.fill) && b.fill == MeshColor(c)
    ensures (b.metalness == 8 <==> m == Metal) && (b.metalness == 1 <==> m != Metal)
    ensures (b.roughness == 7 <==> m == Fabric) && (b.roughness == 4 <==> m != Fabric)
    ensures b.scale == size
  {
    Binding(MeshColor(c), Metalness(m), Roughness(m), size)
  }

  /** The preview tells every selection apart: metalness and roughness
      together identify the material, the fill the colour, and the scale
      the size. */
  lemma ViewerBindingInjective(m1: Material, c1: Color, s1: Size, m2: Material, c2: Color, s2: Size)
    requires ViewerBinding(m1, c1, s1) == ViewerBinding(m2, c2, s2)
    ensures m1 == m2 && c1 == c2 && s1 == s2
  {
    MeshColorInjective(c1, c2);
  }

  // ---------------------------------------------------------------------
  // Dropdown texts

  /** The option texts of the material dropdown, as the page spells them.
      The amounts typed into them are exactly the material price table. */
  function MaterialOptionText(m: Material): (text: string)
    ensures text == OptionText(MaterialCaption(m), MaterialPrice(m))
  {
    match m
    case Wood =>
      assert IntToString(0) == "0";
      "Wood (+$0)"
    case Metal =>
      assert NatToString(5) == "5";
      assert IntToString(50) == "50";
      "Metal (+$50)"
    case Fabric =>
      assert NatToString(3) == "3";
      assert IntToString(30) == "30";
      "Fabric (+$30)"
  }

  /** The option texts of the colour dropdown, as the page spells them.
      The amounts typed into them are exactly the colour price table. */
  function ColorOptionText(c: Color): (text: string)
    ensures text == OptionText(ColorCaption(c), ColorPrice(c))
  {
    match c
    case Natural =>
      assert IntToString(0) == "0";
      "Natural (+$0)"
    case Walnut =>
      assert NatToString(2) == "2";
      assert IntToString(20) == "20";
      "Walnut (+$20)"
    case White =>
      assert NatToString(1) == "1";
      assert IntToString(15) == "15";
      "White (+$15)"
    case Black =>
      assert NatToString(2) == "2";
      assert IntToString(25) == "25";
      "Black (+$25)"
  }

  function MaterialCaption(m: Material): string {
    match m
    case Wood => "Wood"
    case Metal => "Metal"
    case Fabric => "Fabric"
  }

  function ColorCaption(c: Color): string {
    match c
    case Natural => "Natural"
    case Walnut => "Walnut"
    case White => "White"
    case Black => "Black"
  }

  /** An option text of the form "Caption (+$cost)". */
  function OptionText(caption: string, cost: int): string {
    caption + " (+$" + IntToString(cost) + ")"
  }

  // ---------------------------------------------------------------------
  // Share summary

  predicate IsLowerWord(s: string) {
    |s| > 0 && forall i :: 0 <= i < |s| ==> 'a' <= s[i] <= 'z'
  }

  /** The values of the `material` and `color` state, as the strings the
      page holds them as: single lower-case words, none a prefix of
      another, so the share summary can be read back. */
  function MaterialName(m: Material): (name: string)
    ensures IsLowerWord(name)
  {
    match m
    case Wood => "wood"
    case Metal => "metal"
    case Fabric => "fabric"
  }

  function ColorName(c: Color): (name: string)
    ensures IsLowerWord(name)
  {
    match c
    case Natural => "natural"
    case Walnut => "walnut"
    case White => "white"
    case Black => "black"
  }

  /** The text written to the clipboard by the share button. Its partners
      are ShareTextRoundTrip and ParseShareTextSound below. */
  function ShareText(m: Material, c: Color, price: int): string {
    "Custom " + (MaterialName(m) + (" chair in " + (ColorName(c) + (" - $" + IntToString(price)))))
  }

  lemma ShareTextExample()
    ensures ShareText(Metal, Black, Price(Metal, Black, 10)) == "Custom metal chair in black - $324"
  {
  }

  datatype Summary = Summary(material: Material, color: Color, price: int)

  function ParseMaterialName(s: string): Option<(Material, string)> {
    match StripPrefix("wood", s)
    case Some(rest) => Some((Wood, rest))
    case None =>
      match StripPrefix("metal", s)
      case Some(rest) => Some((Metal, rest))
      case None =>
        match StripPrefix("fabric", s)
        case Some(rest) => Some((Fabric, rest))
        case None => None
  }

  function ParseColorName(s: string): Option<(Color, string)> {
    match StripPrefix("natural", s)
    case Some(rest) => Some((Natural, rest))
    case None =>
      match StripPrefix("walnut", s)
      case Some(rest) => Some((Walnut, rest))
      case None =>
        match StripPrefix("white", s)
        case Some(rest) => Some((White, rest))
        case None =>
          match StripPrefix("black", s)
          case Some(rest) => Some((Black, rest))
          case None => None
  }

  /** Reading a share summary back into the configuration it describes,
      one part of the text at a time. */
  function ParseShareText(s: string): Option<Summary> {
    match StripPrefix("Custom ", s)
    case None => None
    case Some(rest) => ParseMaterialPart(rest)
  }

  function ParseMaterialPart(s: string): Option<Summary> {
    match ParseMaterialName(s)
    case None => None
    case Some((m, afterName)) =>
      match StripPrefix(" chair in ", afterName)
      case None => None
      case Some(rest) => ParseColorPart(m, rest)
  }

  function ParseColorPart(m: Material, s: string): Option<Summary> {
    match ParseColorName(s)
    case None => None
    case Some((c, afterName)) =>
      match StripPrefix(" - $", afterName)
      case None => None
      case Some(digits) =>
        match ParseInt(digits)
        case None => None
        case Some(p) => Some(Summary(m, c, p))
  }

  lemma {:induction false} ParseMaterialNameConcat(m: Material, rest: string)
    ensures ParseMaterialName(MaterialName(m) + rest) == Some((m, rest))
  {
    var s := MaterialName(m) + rest;
    StripPrefixConcat(MaterialName(m), rest);
    match m
    case Wood =>
    case Metal =>
      assert s[0] == 'm';
    case Fabric =>
      assert s[0] == 'f';
  }

  lemma {:induction false} ParseColorNameConcat(c: Color, rest: string)
    ensures ParseColorName(ColorName(c) + rest) == Some((c, rest))
  {
    var s := ColorName(c) + rest;
    StripPrefixConcat(ColorName(c), rest);
    match c
    case Natural =>
    case Walnut =>
      assert s[0] == 'w';
    case White =>
      assert s[0] == 'w' && s[1] == 'h';
    case Black =>
      assert s[0] == 'b';
  }

  lemma {:induction false} ColorPartRoundTrip(m: Material, c: Color, price: int)
    ensures ParseColorPart(m, ColorName(c) + (" - $" + IntToString(price))) == Some(Summary(m, c, price))
  {
    ParseColorNameConcat(c, " - $" + IntToString(price));
    StripPrefixConcat(" - $", IntToString(price));
    IntToStringRoundTrip(price);
  }

  lemma {:induction false} MaterialPartRoundTrip(m: Material, c: Color, price: int)
    ensures ParseMaterialPart(MaterialName(m) + (" chair in " + (ColorName(c) + (" - $" + IntToString(price)))))
         == Some(Summary(m, c, price))
  {
    var tail := ColorName(c) + (" - $" + IntToString(price));
    ParseMaterialNameConcat(m, " chair in " + tail);
    StripPrefixConcat(" chair in ", tail);
    ColorPartRoundTrip(m, c, price);
  }

  /** The share summary determines the material, the colour and the price. */
  lemma {:induction false} ShareTextRoundTrip(m: Material, c: Color, price: int)
    ensures ParseShareText(ShareText(m, c, price)) == Some(Summary(m, c, price))
  {
    var rest := MaterialName(m) + (" chair in " + (ColorName(c) + (" - $" + IntToString(price))));
    StripPrefixConcat("Custom ", rest);
    MaterialPartRoundTrip(m, c, price);
  }

  lemma ParseMaterialNameSound(s: string, m: Material, rest: string)
    requires ParseMaterialName(s) == Some((m, rest))
    ensures s == MaterialName(m) + rest
  {
  }

  lemma ParseColorNameSound(s: string, c: Color, rest: string)
    requires ParseColorName(s) == Some((c, rest))
    ensures s == ColorName(c) + rest
  {
  }

  lemma {:induction false} ParseColorPartSound(m: Material, s: string, x: Summary)
    requires ParseColorPart(m, s) == Some(x)
    ensures x.material == m
    ensures s == ColorName(x.color) + (" - $" + IntToString(x.price))
  {
    var (c, afterName) := ParseColorName(s).value;
    ParseColorNameSound(s, c, afterName);
    var digits := StripPrefix(" - $", afterName).value;
    ParseIntSound(digits, x.price);
  }

  lemma {:induction false} ParseMaterialPartSound(s: string, x: Summary)
    requires ParseMaterialPart(s) == Some(x)
    ensures s == MaterialName(x.material) + (" chair in " + (ColorName(x.color) + (" - $" + IntToString(x.price))))
  {
    var (m, afterName) := ParseMaterialName(s).value;
    ParseMaterialNameSound(s, m, afterName);
    var rest := StripPrefix(" chair in ", afterName).value;
    ParseColorPartSound(m, rest, x);
  }

  /** Whatever the parser accepts is the summary of what it returns. */
  lemma {:induction false} ParseShareTextSound(s: string, x: Summary)
    requires ParseShareText(s) == Some(x)
    ensures ShareText(x.material, x.color, x.price) == s
  {
    var rest := StripPrefix("Custom ", s).value;
    ParseMaterialPartSound(rest, x);
  }

  // ---------------------------------------------------------------------
  // Page state

  /** The page's `useState` fields. `pendingResets` counts the `setTimeout`
      callbacks that a successful share has scheduled and that have not run
      yet; none of them is ever cancelled. */
  class Configurator {
    var material: Material
    var color: Color
    var size: Size
    var isCopied: bool
    var pendingResets: nat

    /** The "copied" confirmation is only ever shown while a reset that will
        hide it is still scheduled. */
    ghost predicate Valid()
      reads this
    {
      isCopied ==> pendingResets > 0
    }

    constructor ()
      ensures Valid()
      ensures material == Wood && color == Natural && size == 10
      ensures !isCopied && pendingResets == 0
    {
      material, color, size := Wood, Natural, 10;
      isCopied, pendingResets := false, 0;
    }

    /** The memoised price of the current selection. */
    function CurrentPrice(): (r: int)
      reads this
      ensures r == Price(material, color, size)
      ensures 249 <= r <= 337
    {
      PriceBounds(material, color, size);
      Price(material, color, size)
    }

    /** The props of the mesh for the current selection. */
    function CurrentBinding(): (b: Binding)
      reads this
      ensures b == ViewerBinding(material, color, size)
    {
      ViewerBinding(material, color, size)
    }

    method SetMaterial(m: Material)
      requires Valid()
      modifies this
      ensures Valid()
      ensures material == m
      ensures CurrentBinding() == old(CurrentBinding()).(metalness := Metalness(m), roughness := Roughness(m))
      ensures CurrentPrice() == old(CurrentPrice()) - MaterialPrice(old(material)) + MaterialPrice(m)
      ensures color == old(color) && size == old(size)
      ensures isCopied == old(isCopied) && pendingResets == old(pendingResets)
    {
      material := m;
    }

    method SetColor(c: Color)
      requires Valid()
      modifies this
      ensures Valid()
      ensures color == c
      ensures CurrentBinding() == old(CurrentBinding()).(fill := MeshColor(c))
      ensures material == old(material) && size == old(size)
      ensures isCopied == old(isCopied) && pendingResets == old(pendingResets)
    {
      color := c;
    }

    method SetSize(s: Size)
      requires Valid()
      modifies this
      ensures Valid()
      ensures size == s
      ensures CurrentBinding() == old(CurrentBinding()).(scale := s)
      ensures material == old(material) && color == old(color)
      ensures isCopied == old(isCopied) && pendingResets == old(pendingResets)
    {
      size := s;
    }

    /** The share button: the summary of the current configuration is
        written to the clipboard; `writeSucceeded` is the outcome of that
        write. On success the flag is set and one more reset is scheduled;
        on failure nothing changes. */
    method HandleShare(writeSucceeded: bool) returns (written: string)
      requires Valid()
      modifies this
      ensures Valid()
      ensures written == ShareText(material, color, CurrentPrice())
      ensures ParseShareText(written) == Some(Summary(material, color, CurrentPrice()))
      ensures writeSucceeded ==> isCopied && pendingResets == old(pendingResets) + 1
      ensures !writeSucceeded ==> isCopied == old(isCopied) && pendingResets == old(pendingResets)
      ensures material == old(material) && color == old(color) && size == old(size)
      ensures CurrentBinding() == old(CurrentBinding()) && CurrentPrice() == old(CurrentPrice())
    {
      var price := CurrentPrice();
      written := ShareText(material, color, price);
      ShareTextRoundTrip(material, color, price);
      if writeSucceeded {
        isCopied := true;
        pendingResets := pendingResets + 1;
      }
    }

    /** One of the scheduled resets runs: the flag is cleared, whichever
        share scheduled it. */
    method ResetFires()
      requires Valid() && pendingResets > 0
      modifies this
      ensures Valid()
      ensures !isCopied && pendingResets == old(pendingResets) - 1
      ensures material == old(material) && color == old(color) && size == old(size)
      ensures CurrentBinding() == old(CurrentBinding()) && CurrentPrice() == old(CurrentPrice())
    {
      isCopied := false;
      pendingResets := pendingResets - 1;
    }
  }
}
