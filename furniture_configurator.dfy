/** The furniture configurator component (Components/FurnitureConfigurator.tsx):
    a price table with a base price scaled by size, the bindings handed to the
    3D viewer, the surcharge labels, and the component's four pieces of state. */
module FurnitureConfigurator {
  import opened JsBuiltins
  import opened Viewer

  datatype Material = Wood | Metal | Plastic
  datatype Color = Brown | Black | White

  /** The size slider runs from 0.5 to 2 in steps of 0.1; a size is held
      here as its number of tenths. */
  const MinSize: int := 5
  const MaxSize: int := 20
  type Size = k: int | MinSize <= k <= MaxSize witness 10

  // ---------------------------------------------------------------------
  // PRICE_CONFIG

  const Base: int := 100

  /** `PRICE_CONFIG.materials`: plastic is the one discount. */
  function MaterialSurcharge(m: Material): (r: int)
    ensures r < 0 <==> m == Plastic
    ensures r == 0 <==> m == Wood
  {
    match m
    case Wood => 0
    case Metal => 50
    case Plastic => -30
  }

  /** `PRICE_CONFIG.colors`: no colour is a discount. */
  function ColorSurcharge(c: Color): (r: int)
    ensures r >= 0
    ensures r == 0 <==> c == Brown
  {
    match c
    case Brown => 0
    case Black => 20
    case White => 15
  }

  /** Math.round(base * size + materials[m] + colors[c]), the exact sum being
      held in tenths. Every addend is whole, so the rounding is exact. */
  function Price(m: Material, c: Color, size: Size): (r: int)
    ensures r == 10 * size + MaterialSurcharge(m) + ColorSurcharge(c)
  {
    RoundTenths(Base * size + 10 * (MaterialSurcharge(m) + ColorSurcharge(c)))
  }

  lemma PriceExamples()
    ensures Price(Wood, Brown, 10) == 100
    ensures Price(Metal, Black, 10) == 170
    ensures Price(Wood, Brown, 20) == 200
  {
  }

  /** Changing only the material moves the price by the difference of the
      two material surcharges. */
  lemma MaterialChangeDelta(m1: Material, m2: Material, c: Color, size: Size)
    ensures Price(m2, c, size) - Price(m1, c, size) == MaterialSurcharge(m2) - MaterialSurcharge(m1)
  {
  }

  /** Changing only the colour moves the price by the difference of the
      two colour surcharges. */
  lemma ColorChangeDelta(m: Material, c1: Color, c2: Color, size: Size)
    ensures Price(m, c2, size) - Price(m, c1, size) == ColorSurcharge(c2) - ColorSurcharge(c1)
  {
  }

  /** A larger size never costs less; each tenth adds exactly ten. */
  lemma PriceMonotoneInSize(m: Material, c: Color, s1: Size, s2: Size)
    requires s1 <= s2
    ensures Price(m, c, s1) <= Price(m, c, s2)
    ensures Price(m, c, s2) - Price(m, c, s1) == 10 * (s2 - s1)
  {
  }

  /** Over the slider's range the price lies between 20 and 270, both
      reached, so it is always positive. */
  lemma PriceBounds(m: Material, c: Color, size: Size)
    ensures 20 <= Price(m, c, size) <= 270
    ensures Price(Plastic, Brown, MinSize) == 20
    ensures Price(Metal, Black, MaxSize) == 270
  {
  }

  // ---------------------------------------------------------------------
  // Viewer bindings

  /** The colour passed to the mesh material. */
  function MeshColor(c: Color): (hex: string)
    ensures IsHexColor(hex)
  {
    if c == Brown then "#59332e" else if c == Black then "#222222" else "#ffffff"
  }

  /** The background of a colour swatch, a second copy of the same ternary. */
  function SwatchColor(c: Color): (hex: string)
    ensures hex == MeshColor(c)
  {
    if c == Brown then "#59332e" else if c == Black then "#222222" else "#ffffff"
  }

  lemma ColorLookup()
    ensures MeshColor(Brown) == "#59332e"
    ensures MeshColor(Black) == "#222222"
    ensures MeshColor(White) == "#ffffff"
  {
  }

  /** Every colour choice shows as a different colour. */
  lemma MeshColorInjective(c1: Color, c2: Color)
    requires MeshColor(c1) == MeshColor(c2)
    ensures c1 == c2
  {
  }

  /** Metalness in tenths: 0.8 for metal, 0.1 for anything else. */
  function Metalness(m: Material): (t: nat)
    ensures t == 8 <==> m == Metal
    ensures t == 1 <==> m != Metal
  {
    if m == Metal then 8 else 1
  }

  /** Roughness in tenths: 0.7 for wood, 0.4 for anything else. */
  function Roughness(m: Material): (t: nat)
    ensures t == 7 <==> m == Wood
    ensures t == 4 <==> m != Wood
  {
    if m == Wood then 7 else 4
  }

  /** What the mesh receives: a #rrggbb fill chosen by the colour alone,
      metalness 0.8 for metal and 0.1 otherwise, roughness 0.7 for wood and
      0.4 otherwise, and the size as its uniform scale. */
  function ViewerBinding(m: Material, c: Color, size: Size): (b: Binding)
    ensures IsHexColor(b.fill) && b.fill == MeshColor(c)
    ensures (b.metalness == 8 <==> m == Metal) && (b.metalness == 1 <==> m != Metal)
    ensures (b.roughness == 7 <==> m == Wood) && (b.roughness == 4 <==> m != Wood)
    ensures b.scale == size
  {
    Binding(MeshColor(c), Metalness(m), Roughness(m), size)
  }

  /** The preview tells every selection apart: metalness and roughness
      together identify the material, the fill the colour, and the scale
      the size. */
  lemma ViewerBindingInjective(m1: Material, c1: Color, s1: Size, m2: Material, c2: Color, s2: Size)
    requires ViewerBinding(m1, c1, s1) == ViewerBinding(m2, c2, s2)
    ensures m1 == m2 && c1 == c2 && s1 == s2
  {
    MeshColorInjective(c1, c2);
  }

  // ---------------------------------------------------------------------
  // Surcharge text

  /** The label under a material or colour button: an explicit plus sign
      before a non-negative cost, none before a negative one, whose own
      minus sign then follows the dollar sign. */
  function OptionLabel(cost: int): (text: string)
    ensures |text| >= 2
    ensures text[0] == '+' <==> cost >= 0
    ensures cost < 0 ==> text[..2] == "$-"
  {
    (if cost >= 0 then "+" else "") + "$" + IntToString(cost)
  }

  /** Reading the cost back from a button label. */
  function ParseOptionLabel(s: string): Option<int> {
    match StripPrefix("+$", s)
    case Some(digits) =>
      (match ParseInt(digits)
       case Some(v) => if v >= 0 then Some(v) else None
       case None => None)
    case None =>
      match StripPrefix("$", s)
      case Some(digits) =>
        (match ParseInt(digits)
         case Some(v) => if v < 0 then Some(v) else None
         case None => None)
      case None => None
  }

  lemma OptionLabelRoundTrip(cost: int)
    ensures ParseOptionLabel(OptionLabel(cost)) == Some(cost)
  {
    IntToStringRoundTrip(cost);
    var digits := IntToString(cost);
    if cost >= 0 {
      assert OptionLabel(cost) == "+$" + digits;
      StripPrefixConcat("+$", digits);
    } else {
      assert OptionLabel(cost) == "$" + digits;
      StripPrefixConcat("$", digits);
      assert StripPrefix("+$", OptionLabel(cost)).None?;
    }
  }

  /** A label the parser accepts is exactly the label of the cost it reads. */
  lemma ParseOptionLabelSound(s: string, cost: int)
    requires ParseOptionLabel(s) == Some(cost)
    ensures OptionLabel(cost) == s
  {
    match StripPrefix("+$", s)
    case Some(digits) =>
      ParseIntSound(digits, cost);
    case None =>
      var digits := StripPrefix("$", s).value;
      ParseIntSound(digits, cost);
  }

  lemma OptionLabelExamples()
    ensures OptionLabel(MaterialSurcharge(Metal)) == "+$50"
    ensures OptionLabel(MaterialSurcharge(Plastic)) == "$-30"
    ensures OptionLabel(MaterialSurcharge(Wood)) == "+$0"
    ensures OptionLabel(ColorSurcharge(Black)) == "+$20"
  {
  }

  /** A line of the price breakdown as written: the "+" is unconditional,
      so a negative surcharge reads "+$-30". */
  function BreakdownLine(caption: string, cost: int): (line: string)
    ensures |line| > |caption| + 4 && line[..|caption| + 4] == caption + ": +$"
    ensures ParseInt(line[|caption| + 4..]) == Some(cost)
  {
    var line := caption + ": +$" + IntToString(cost);
    assert line[|caption| + 4..] == IntToString(cost);
    IntToStringRoundTrip(cost);
    line
  }

  /** The material line of the breakdown shows the same amount as the
      material's button label except for plastic, the one discount. */
  function MaterialLine(m: Material): (line: string)
    ensures line == "Material: " + OptionLabel(MaterialSurcharge(m)) <==> m != Plastic
  {
    BreakdownAgreesWithLabelIff("Material", MaterialSurcharge(m));
    BreakdownLine("Material", MaterialSurcharge(m))
  }

  /** Every colour surcharge is non-negative, so the colour line of the
      breakdown always shows what the colour's button label shows. */
  function ColorLine(c: Color): (line: string)
    ensures line == "Color: " + OptionLabel(ColorSurcharge(c))
  {
    BreakdownAgreesWithLabelIff("Color", ColorSurcharge(c));
    BreakdownLine("Color", ColorSurcharge(c))
  }

  lemma PlasticBreakdownShowsPlusMinus()
    ensures MaterialLine(Plastic) == "Material: +$-30"
  {
  }

  /** The breakdown agrees with the button label exactly when the cost is
      not negative. */
  lemma BreakdownAgreesWithLabelIff(caption: string, cost: int)
    ensures BreakdownLine(caption, cost) == caption + ": " + OptionLabel(cost) <==> cost >= 0
  {
  }

  /** The breakdown line with the sign the button labels use. */
  function SignedBreakdownLine(caption: string, cost: int): string {
    caption + ": " + OptionLabel(cost)
  }

  /** The corrected line shows a plus sign exactly for a non-negative cost,
      and the cost can be read back from it. */
  lemma SignedBreakdownLineShowsSign(caption: string, cost: int)
    ensures var line := SignedBreakdownLine(caption, cost);
      |line| > |caption| + 2 &&
      (line[|caption| + 2] == '+' <==> cost >= 0) &&
      StripPrefix(caption + ": ", line) == Some(OptionLabel(cost)) &&
      ParseOptionLabel(line[|caption| + 2..]) == Some(cost)
  {
    var line := SignedBreakdownLine(caption, cost);
    StripPrefixConcat(caption + ": ", OptionLabel(cost));
    assert line[|caption| + 2..] == OptionLabel(cost);
    OptionLabelRoundTrip(cost);
  }

  lemma SignedBreakdownExamples()
    ensures SignedBreakdownLine("Material", MaterialSurcharge(Plastic)) == "Material: $-30"
    ensures SignedBreakdownLine("Material", MaterialSurcharge(Metal)) == "Material: +$50"
  {
  }

  // ---------------------------------------------------------------------
  // Component state

  /** The component's `useState` fields. `pendingResets` counts the
      `setTimeout` callbacks that a successful share has scheduled and that
      have not run yet; none of them is ever cancelled. */
  class Configurator {
    var material: Material
    var color: Color
    var size: Size
    var isCopied: bool
    var pendingResets: nat

    /** The "copied" confirmation is only ever shown while a reset that will
        hide it is still scheduled. */
    ghost predicate Valid()
      reads this
    {
      isCopied ==> pendingResets > 0
    }

    constructor ()
      ensures Valid()
      ensures material == Wood && color == Brown && size == 10
      ensures !isCopied && pendingResets == 0
    {
      material, color, size := Wood, Brown, 10;
      isCopied, pendingResets := false, 0;
    }

    /** The memoised price of the current selection. */
    function CurrentPrice(): (r: int)
      reads this
      ensures r == Price(material, color, size)
      ensures 20 <= r <= 270
    {
      PriceBounds(material, color, size);
      Price(material, color, size)
    }

    /** The props of the mesh for the current selection. */
    function CurrentBinding(): (b: Binding)
      reads this
      ensures b == ViewerBinding(material, color, size)
    {
      ViewerBinding(material, color, size)
    }

    method SetMaterial(m: Material)
      requires Valid()
      modifies this
      ensures Valid()
      ensures material == m
      ensures CurrentBinding() == old(CurrentBinding()).(metalness := Metalness(m), roughness := Roughness(m))
      ensures CurrentPrice() == old(CurrentPrice()) - MaterialSurcharge(old(material)) + MaterialSurcharge(m)
      ensures color == old(color) && size == old(size)
      ensures isCopied == old(isCopied) && pendingResets == old(pendingResets)
    {
      material := m;
    }

    method SetColor(c: Color)
      requires Valid()
      modifies this
      ensures Valid()
      ensures color == c
      ensures CurrentBinding() == old(CurrentBinding()).(fill := MeshColor(c))
      ensures CurrentPrice() == old(CurrentPrice()) - ColorSurcharge(old(color)) + ColorSurcharge(c)
      ensures material == old(material) && size == old(size)
      ensures isCopied == old(isCopied) && pendingResets == old(pendingResets)
    {
      color := c;
    }

    method SetSize(s: Size)
      requires Valid()
      modifies this
      ensures Valid()
      ensures size == s
      ensures CurrentBinding() == old(CurrentBinding()).(scale := s)
      ensures CurrentPrice() == old(CurrentPrice()) + 10 * (s - old(size))
      ensures material == old(material) && color == old(color)
      ensures isCopied == old(isCopied) && pendingResets == old(pendingResets)
    {
      size := s;
    }

    /** The share button: the page address is written to the clipboard;
        `writeSucceeded` is the outcome of that write. On success the flag
        is set and one more reset is scheduled; on failure nothing changes. */
    method HandleShare(pageAddress: string, writeSucceeded: bool) returns (written: string)
      requires Valid()
      modifies this
      ensures Valid()
      ensures written == pageAddress
      ensures writeSucceeded ==> isCopied && pendingResets == old(pendingResets) + 1
      ensures !writeSucceeded ==> isCopied == old(isCopied) && pendingResets == old(pendingResets)
      ensures material == old(material) && color == old(color) && size == old(size)
      ensures CurrentBinding() == old(CurrentBinding()) && CurrentPrice() == old(CurrentPrice())
    {
      written := pageAddress;
      if writeSucceeded {
        isCopied := true;
        pendingResets := pendingResets + 1;
      }
    }

    /** One of the scheduled resets runs: the flag is cleared, whichever
        share scheduled it. */
    method ResetFires()
      requires Valid() && pendingResets > 0
      modifies this
      ensures Valid()
      ensures !isCopied && pendingResets == old(pendingResets) - 1
      ensures material == old(material) && color == old(color) && size == old(size)
      ensures CurrentBinding() == old(CurrentBinding()) && CurrentPrice() == old(CurrentPrice())
    {
      isCopied := false;
      pendingResets := pendingResets - 1;
    }
  }

  /** Two successful shares in a row, then the first reset runs: the flag
      is already cleared although the second share's reset is still to come,
      because earlier timers are not cancelled. */
  method DoubleShareClearsEarly() returns (copiedAfterFirstReset: bool, stillPending: nat)
    ensures !copiedAfterFirstReset && stillPending == 1
  {
    var widget := new Configurator();
    var _ := widget.HandleShare("page", true);
    var _ := widget.HandleShare("page", true);
    widget.ResetFires();
    copiedAfterFirstReset, stillPending := widget.isCopied, widget.pendingResets;
  }
}
