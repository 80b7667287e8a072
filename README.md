# Furniture configurator — a Dafny model

The repository holds two near-duplicate versions of one widget. In each, a
user picks a material, a colour and a size for a piece of furniture, sees a
3D preview and a price, and can copy a share text to the clipboard.

- **FurnitureConfigurator** (`furniture_configurator.dfy`) models
  `Components/FurnitureConfigurator.tsx`. It has materials wood / metal / plastic and
  colours brown / black / white. Its price is `round(100 * size + material + colour)`.
  Its price breakdown shows the surcharges, and its share button copies the page address.
- **ChairConfigurator** (`chair_configurator.dfy`) models `pages/page.tsx`.
  It has materials wood / metal / fabric and colours natural / walnut / white / black.
  Its price is `round(249 + material + colour * size)`. It has dropdowns that show the
  surcharges, and its share button copies the text
  `Custom <material> chair in <color> - $<price>`.
- **JsBuiltins** (`js_builtins.dfy`) holds the JavaScript behaviour both components
  rely on:
  - `Math.round` on a value held in tenths, with halves rounding up;
  - the decimal text a template literal gives an integral number, for
    magnitudes up to 2^53 (every amount the components print lies in -30..337);
  - the partners these are proved against: a parser that inverts that text,
    and prefix stripping, used by the text parsers.
- **Viewer** (`viewer.dfy`) holds what both components hand to the mesh material:
  a `#rrggbb` colour, metalness, roughness and scale.

Sizes come from a slider with step 0.1, so a size is held as an integer number
of tenths: 5..20 for the furniture configurator, 8..15 for the chair page.
Metalness and roughness are likewise held in tenths (0.8 is 8). With these
choices every price is exact integer arithmetic. The furniture price is
exactly `10*k + m + c`. The chair price is the integer nearest to
`249 + m + c*k/10`, with halves rounding up.

Each component's state is a class with the four `useState` fields `material`,
`color`, `size` and `isCopied`. The setters change only their own field. A
share takes the clipboard write's outcome as a parameter. On success it sets
`isCopied` and schedules one reset; on failure it changes nothing. The
source never cancels a `setTimeout` it has scheduled. The class therefore
also counts the scheduled resets (`pendingResets`), and a reset event clears
the flag whichever share scheduled it. The invariant `Valid()` states that
the flag is only ever set while a reset is pending. `CurrentPrice` and
`CurrentBinding` are the memoised price and the mesh props of the current
selection. Each setter's contract states how it changes them, so a colour
change, for instance, re-renders only the fill.
`FurnitureConfigurator.DoubleShareClearsEarly` shows the consequence: after
two shares, the first reset clears the flag while the second reset is still
pending. A design that restarts the timer on every share would behave
differently; the model follows the code.

## Model

| member | source | states |
|---|---|---|
| `JsBuiltins.RoundTenths` | pages/page.tsx:30 | `Math.round` of n/10: the result r satisfies 10r-5 <= n < 10r+5, so it is the nearest integer with halves rounding up |
| `JsBuiltins.RoundTenthsUnique` | pages/page.tsx:30 | that characterisation admits exactly one integer |
| `JsBuiltins.RoundTenthsMonotone` | pages/page.tsx:30 | rounding is monotone |
| `JsBuiltins.RoundTenthsShift` | pages/page.tsx:30 | a whole amount added before rounding is added unchanged after it |
| `JsBuiltins.NatToString` | Components/FurnitureConfigurator.tsx:114 | the text of a non-negative number is a non-empty digit string with no leading zero |
| `JsBuiltins.IntToString` | Components/FurnitureConfigurator.tsx:114 | the text of an integer starts with '-' exactly when it is negative |
| `JsBuiltins.NatToStringRoundTrip` | Components/FurnitureConfigurator.tsx:114 | the digits of a number's text evaluate back to the number |
| `JsBuiltins.CanonicalRoundTrip` | Components/FurnitureConfigurator.tsx:114 | every canonical digit string is the text of its value |
| `JsBuiltins.IntToStringRoundTrip` | Components/FurnitureConfigurator.tsx:114 | parsing an integer's text gives the integer |
| `JsBuiltins.ParseIntSound` | Components/FurnitureConfigurator.tsx:114 | any text the parser accepts is the text of the integer it returns |
| `JsBuiltins.IntToStringInjective` | Components/FurnitureConfigurator.tsx:114 | distinct integers have distinct texts |
| `FurnitureConfigurator.MaterialSurcharge` | Components/FurnitureConfigurator.tsx:20-24 | the material table; plastic is exactly the material with a negative surcharge, and wood exactly the one with none |
| `FurnitureConfigurator.ColorSurcharge` | Components/FurnitureConfigurator.tsx:25-29 | the colour table; no colour surcharge is negative, and brown is exactly the one with none |
| `FurnitureConfigurator.Price` | Components/FurnitureConfigurator.tsx:39-45 | rounding is exact: the price is 10*k + material surcharge + colour surcharge for size k tenths |
| `FurnitureConfigurator.PriceExamples` | Components/FurnitureConfigurator.tsx:18-45 | wood/brown/1.0 is 100, metal/black/1.0 is 170, wood/brown/2.0 is 200 |
| `FurnitureConfigurator.MaterialChangeDelta` | Components/FurnitureConfigurator.tsx:40-44 | changing only the material changes the price by the difference of the material surcharges |
| `FurnitureConfigurator.ColorChangeDelta` | Components/FurnitureConfigurator.tsx:40-44 | changing only the colour changes the price by the difference of the colour surcharges |
| `FurnitureConfigurator.PriceMonotoneInSize` | Components/FurnitureConfigurator.tsx:41 | a larger size never lowers the price; each tenth adds exactly 10 |
| `FurnitureConfigurator.PriceBounds` | Components/FurnitureConfigurator.tsx:18-45 | over sizes 0.5..2.0 the price lies in 20..270, both ends reached (plastic/brown/0.5, metal/black/2.0) |
| `FurnitureConfigurator.MeshColor` | Components/FurnitureConfigurator.tsx:73-79 | the mesh colour is a lower-case #rrggbb colour |
| `FurnitureConfigurator.SwatchColor` | Components/FurnitureConfigurator.tsx:138 | the swatch colour equals the mesh colour for every choice |
| `FurnitureConfigurator.ColorLookup` | Components/FurnitureConfigurator.tsx:73-79 | brown is #59332e, black is #222222, white is #ffffff |
| `FurnitureConfigurator.MeshColorInjective` | Components/FurnitureConfigurator.tsx:73-79 | different colour choices give different mesh colours |
| `FurnitureConfigurator.Metalness` | Components/FurnitureConfigurator.tsx:80 | metalness is 0.8 exactly for metal, otherwise 0.1 |
| `FurnitureConfigurator.Roughness` | Components/FurnitureConfigurator.tsx:81 | roughness is 0.7 exactly for wood, otherwise 0.4 |
| `FurnitureConfigurator.ViewerBinding` | Components/FurnitureConfigurator.tsx:70-82 | the mesh gets a #rrggbb fill chosen by the colour, metalness 0.8 exactly for metal and 0.1 otherwise, roughness 0.7 exactly for wood and 0.4 otherwise, and a scale equal to the size |
| `FurnitureConfigurator.ViewerBindingInjective` | Components/FurnitureConfigurator.tsx:70-82 | the preview tells every selection apart: equal bindings mean equal material, colour and size |
| `FurnitureConfigurator.OptionLabel` | Components/FurnitureConfigurator.tsx:114 | a button label starts with '+' exactly when the cost is non-negative; a negative cost reads "$-..." |
| `FurnitureConfigurator.OptionLabelRoundTrip` | Components/FurnitureConfigurator.tsx:114 | the cost can be read back from its button label |
| `FurnitureConfigurator.ParseOptionLabelSound` | Components/FurnitureConfigurator.tsx:141 | any text read as a label is exactly the label of that cost, so labels and costs correspond one to one |
| `FurnitureConfigurator.OptionLabelExamples` | Components/FurnitureConfigurator.tsx:114 | metal shows "+$50", plastic "$-30", wood "+$0", black "+$20" |
| `FurnitureConfigurator.BreakdownLine` | Components/FurnitureConfigurator.tsx:164-165 | a breakdown line is the caption, then ": +$" whatever the sign, then the amount's text, which parses back to the amount |
| `FurnitureConfigurator.MaterialLine` | Components/FurnitureConfigurator.tsx:164 | the material line shows the button label's amount exactly when the material is not plastic |
| `FurnitureConfigurator.ColorLine` | Components/FurnitureConfigurator.tsx:165 | the colour line always shows the button label's amount, since no colour surcharge is negative |
| `FurnitureConfigurator.PlasticBreakdownShowsPlusMinus` | Components/FurnitureConfigurator.tsx:164 | the breakdown line for plastic reads "Material: +$-30" |
| `FurnitureConfigurator.BreakdownAgreesWithLabelIff` | Components/FurnitureConfigurator.tsx:164-165 | a breakdown line shows the same signed amount as the button label if and only if the cost is non-negative |
| `FurnitureConfigurator.SignedBreakdownLineShowsSign` | Components/FurnitureConfigurator.tsx:164-165 | corrected breakdown line: '+' appears exactly for a non-negative cost, and the cost reads back from the line |
| `FurnitureConfigurator.SignedBreakdownExamples` | Components/FurnitureConfigurator.tsx:164-165 | corrected lines: plastic reads "Material: $-30", metal "Material: +$50" |
| `FurnitureConfigurator.Configurator.constructor` | Components/FurnitureConfigurator.tsx:33-36 | the initial state is wood, brown, size 1, not copied, no reset pending |
| `FurnitureConfigurator.Configurator.CurrentPrice` | Components/FurnitureConfigurator.tsx:39-45 | the displayed price is the price of the current selection and lies in 20..270 |
| `FurnitureConfigurator.Configurator.SetMaterial` | Components/FurnitureConfigurator.tsx:103 | sets the material and nothing else; the preview changes only in metalness and roughness, and the price moves by the difference of the material surcharges |
| `FurnitureConfigurator.Configurator.SetColor` | Components/FurnitureConfigurator.tsx:126 | sets the colour and nothing else; the preview changes only in its fill, and the price moves by the difference of the colour surcharges |
| `FurnitureConfigurator.Configurator.SetSize` | Components/FurnitureConfigurator.tsx:155 | sets the size and nothing else; the preview changes only in its scale, and the price moves by 10 per tenth |
| `FurnitureConfigurator.Configurator.HandleShare` | Components/FurnitureConfigurator.tsx:47-55 | writes the page address; success sets isCopied and schedules one reset; failure changes nothing; the selection, the preview and the price never change |
| `FurnitureConfigurator.Configurator.ResetFires` | Components/FurnitureConfigurator.tsx:51 | a scheduled reset clears isCopied and leaves the selection, the preview and the price alone |
| `FurnitureConfigurator.DoubleShareClearsEarly` | Components/FurnitureConfigurator.tsx:47-55 | after two successful shares, the first reset already clears the flag while one reset is still pending |
| `ChairConfigurator.MaterialPrice` | pages/page.tsx:19-23 | the material table; no surcharge is negative, and wood is exactly the one with none |
| `ChairConfigurator.ColorPrice` | pages/page.tsx:24-29 | the colour table; no surcharge is negative, and natural is exactly the one with none |
| `ChairConfigurator.Price` | pages/page.tsx:17-31 | the price is the integer nearest to 249 + material + colour*size, halves rounding up |
| `ChairConfigurator.PriceSplits` | pages/page.tsx:30 | only the size-scaled colour surcharge is rounded; base and material surcharge pass through unchanged |
| `ChairConfigurator.PriceExamples` | pages/page.tsx:17-31 | wood/natural/1.0 is 249, metal/black/1.0 is 324, wood/walnut/1.5 is 279, wood/white/0.9 is 263 (262.5 rounds up) |
| `ChairConfigurator.MaterialChangeDelta` | pages/page.tsx:19-30 | changing only the material changes the price by the difference of the material surcharges, at every size |
| `ChairConfigurator.PriceMonotoneInSize` | pages/page.tsx:24-30 | colour surcharges are non-negative, so a larger size never lowers the price |
| `ChairConfigurator.NaturalIgnoresSize` | pages/page.tsx:24-30 | with the natural colour the price is 249 + material surcharge at every size |
| `ChairConfigurator.PriceBounds` | pages/page.tsx:17-31 | over sizes 0.8..1.5 the price lies in 249..337, both ends reached (337 is metal/black/1.5) |
| `ChairConfigurator.MeshColor` | pages/page.tsx:61-65 | the mesh colour is a lower-case #rrggbb colour |
| `ChairConfigurator.ColorLookup` | pages/page.tsx:61-65 | natural is #d2b48c, walnut #3a2a1a, white #ffffff, black #222222 |
| `ChairConfigurator.MeshColorInjective` | pages/page.tsx:61-65 | different colour choices give different mesh colours |
| `ChairConfigurator.Metalness` | pages/page.tsx:66 | metalness is 0.8 exactly for metal, otherwise 0.1 |
| `ChairConfigurator.Roughness` | pages/page.tsx:67 | roughness is 0.7 exactly for fabric, otherwise 0.4 |
| `ChairConfigurator.ViewerBinding` | pages/page.tsx:58-69 | the mesh gets a #rrggbb fill chosen by the colour, metalness 0.8 exactly for metal and 0.1 otherwise, roughness 0.7 exactly for fabric and 0.4 otherwise, and a scale equal to the size |
| `ChairConfigurator.ViewerBindingInjective` | pages/page.tsx:58-69 | the preview tells every selection apart: equal bindings mean equal material, colour and size |
| `ChairConfigurator.MaterialOptionText` | pages/page.tsx:92-94 | each material option text as written equals its caption followed by "(+$x)", where x is its table surcharge |
| `ChairConfigurator.ColorOptionText` | pages/page.tsx:105-108 | each colour option text as written equals its caption followed by "(+$x)", where x is its table surcharge |
| `ChairConfigurator.MaterialName` | pages/page.tsx:7 | a material's state value is a single lower-case word |
| `ChairConfigurator.ColorName` | pages/page.tsx:8 | a colour's state value is a single lower-case word |
| `ChairConfigurator.ParseMaterialNameConcat` | pages/page.tsx:7 | a material's state value is read back off the front of any text, since no value is a prefix of another |
| `ChairConfigurator.ParseColorNameConcat` | pages/page.tsx:8 | a colour's state value is read back off the front of any text, since no value is a prefix of another |
| `ChairConfigurator.ShareText` | pages/page.tsx:36 | the summary template; its partner ParseShareText inverts it in both directions (ShareTextRoundTrip, ParseShareTextSound) |
| `ChairConfigurator.ShareTextExample` | pages/page.tsx:35-37 | metal/black/1.0 shares "Custom metal chair in black - $324" |
| `ChairConfigurator.ShareTextRoundTrip` | pages/page.tsx:35-37 | material, colour and price can all be read back from the share text |
| `ChairConfigurator.ParseShareTextSound` | pages/page.tsx:35-37 | any text read as a summary is exactly the share text of what was read, so summaries and configurations correspond one to one |
| `ChairConfigurator.Configurator.constructor` | pages/page.tsx:11-14 | the initial state is wood, natural, size 1, not copied, no reset pending |
| `ChairConfigurator.Configurator.CurrentPrice` | pages/page.tsx:17-31 | the displayed price is the price of the current selection and lies in 249..337 |
| `ChairConfigurator.Configurator.SetMaterial` | pages/page.tsx:89 | sets the material and nothing else; the preview changes only in metalness and roughness, and the price moves by the difference of the material surcharges |
| `ChairConfigurator.Configurator.SetColor` | pages/page.tsx:102 | sets the colour and nothing else; the preview changes only in its fill |
| `ChairConfigurator.Configurator.SetSize` | pages/page.tsx:122 | sets the size and nothing else; the preview changes only in its scale |
| `ChairConfigurator.Configurator.HandleShare` | pages/page.tsx:33-43 | writes the summary of the current selection and price, which parses back to that selection; success sets isCopied and schedules one reset; failure changes nothing; the preview and the price never change |
| `ChairConfigurator.Configurator.ResetFires` | pages/page.tsx:39 | a scheduled reset clears isCopied and leaves the selection, the preview and the price alone |

## Left out

- Rendering: the canvas, box geometry, lights, environment, orbit controls and camera belong to the 3D library. Only the values passed to the mesh are modelled.
- Animation, icons, styling and layout have no logic. This includes the order in which the buttons are laid out from the price table's entries.
- Clipboard: the asynchronous `navigator.clipboard.writeText` is a host call. Its outcome is the `writeSucceeded` parameter. The page address that the furniture configurator copies is the `pageAddress` parameter.
- The `console.error` on a failed write is I/O, so it is not modelled.
- Timer: the 2-second `setTimeout` is host timing. A reset is an event the caller fires (`ResetFires`), and only the number of pending resets is tracked, not when they fire.
- Clearing pending displays when the widget is torn down is not done by the source, so it is not modelled.
- Floating point: `parseFloat` and the float `size` are replaced by integer tenths, and all price arithmetic is exact. With sizes on the slider's 0.1 grid and these tables, double rounding does not change any rounded price. That claim is argued, not proved.
- Number text: JavaScript holds integers exactly only up to 2^53 in magnitude. Beyond that it writes the shortest digits that identify the double (`${2**60}` is "1152921504606847000"), and from 10^21 on it uses exponent form. `JsBuiltins.IntToString` writes the exact digits of every integer, so it agrees with JavaScript only up to 2^53. The components print only amounts between -30 and 337, as the price bounds and surcharge tables show.
- `size.toFixed(1)` in the size label and the breakdown is display only.
- `next.config.ts` is build configuration with no logic.

## Findings

| source | as written | input that shows it | evidently intended | confidence | as-written member | corrected member |
|---|---|---|---|---|---|---|
| Components/FurnitureConfigurator.tsx:164-165 | the breakdown always writes `+$` before the surcharge | material plastic (surcharge -30) shows "Material: +$-30" | a signed amount as the button labels show it, "Material: $-30" | not executed; medium (display only) | `FurnitureConfigurator.PlasticBreakdownShowsPlusMinus` | `FurnitureConfigurator.SignedBreakdownLineShowsSign` |
