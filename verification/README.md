# Drapes and Fitout quotation generator — verified model of its core

The application (`GUIQuote.py`) is a desktop form for pricing window
treatments and printing a quotation. This Dafny project models the parts of
it that compute or keep state:

- **Pricing rule of "Add Item"** (`pricing.dfy`, `line_items.dfy`). The form's
  values arrive as an `EntryForm`. Product type `"blind"` selects the blind
  fields. Any other type, including none chosen, selects the curtain fields.
  - A blind costs area × price per m² + 100 installation.
  - A curtain needs `width × fullness / fabricWidth` fabric widths, each
    `height + 0.3` m long. Fabric and stitching are charged on that amount,
    the track on the window width, plus 100 installation.
  - Motorization adds motor + remote + 100 to either product.
  - A zero fabric width makes Python raise ZeroDivisionError, which the
    action reports. Here that is `Failure(ZeroFabricWidth)`.
  - The item gets quantity 1, and both its unit and total price are the
    total rounded to two decimals (`Money.Round2`, ties to even, on exact
    rationals).
- **Session state** (`session.dfy`, class `QuotationApp`). It holds the item
  list, the on-screen table rows that show it (same order, one row per
  item, each row with the table's own handle) and the four client fields.
  - "Add Item" appends one item and one row, or changes nothing on an error.
  - "Delete Selected" goes through the selected handles. For each one it
    looks up the row's current position, removes that row, and removes the
    item at the same position.
  - "Clear All" empties everything once confirmed.
  - "Generate Quotation" refuses an empty list, then an incomplete client
    block. Otherwise it composes the document.
- **Quotation totals** (`quote_pdf.dfy`). The subtotal is the sum of the
  item totals. VAT is 5% of it, and the grand total is subtotal + VAT. The
  ten fixed terms are also modelled.

Money is Dafny `real`: exact rational arithmetic, in dirhams.

The code has no validation beyond the room-name check and the division by
the fabric width. Non-positive sizes and negative prices are accepted and
priced, and the model does the same. The worked curtain example
(3.0 m × 2.0 m at the default rates) comes to 4990/7 ≈ 712.857, stored as
712.86 (`LineItems.ManualCurtainExample`). The 100 installation fee is
counted once.

## Model

| member | source | states |
|---|---|---|
| `Money.Round2` | GUIQuote.py:366-367 | the result is a whole number of hundredths, within half a hundredth of the input, and an exact half goes to the even hundredth |
| `Money.RoundKeepsCents` | GUIQuote.py:366-367 | rounding an amount already in hundredths returns it unchanged |
| `Money.CentsAdd` | GUIQuote.py:445 | two amounts in whole hundredths add up to an amount in whole hundredths |
| `Money.RoundMonotone` | GUIQuote.py:366-367 | rounding preserves the order of two amounts |
| `Pricing.InitialForm` | GUIQuote.py:228-269 | a fresh form has no product type and no room name, is not motorized, has width, height and blind rate 0, and the defaults fullness 2.0, fabric width 2.8, stitching 40, fabric 60, track 40, motor 300 and remote 150 |
| `Pricing.SpecOf` | GUIQuote.py:330-359 | the blind variant is chosen exactly when the type is "blind", every other type is a curtain; sizes, the blind rate, the curtain's fullness, fabric width, stitching, fabric and track rates, and the motor prices (only when motorized) come from the matching form fields |
| `Pricing.MotorSurcharge` | GUIQuote.py:340-343 | a manual item adds nothing; a motorized one adds motor + remote + 100 installation, at least 100 when both prices are non-negative |
| `Pricing.Price` | GUIQuote.py:333-359 | pricing fails exactly for a curtain with zero fabric width; the description records the variant and whether it is motorized |
| `Pricing.ManualBlindPrice` | GUIQuote.py:333-338 | a manual blind costs width × height × rate + 100 and is described by its width and height |
| `Pricing.ManualCurtainPrice` | GUIQuote.py:345-356 | a manual curtain's total × fabricWidth equals width × fullness × (height + 0.3) × (fabric + stitching rate) + (width × track rate + 100) × fabricWidth; the description holds height + 0.3 and width × fullness / fabricWidth |
| `Pricing.MotorizationSurcharge` | GUIQuote.py:340-359 | for both variants, motorizing succeeds or fails together with the manual price and adds exactly motor + remote + 100 |
| `Pricing.BlindPriceMonotone` | GUIQuote.py:333-343 | with non-negative inputs a blind's price never falls as width, height or rate grow |
| `Pricing.CurtainPriceMonotoneInRates` | GUIQuote.py:345-354 | with non-negative sizes and positive fabric width a curtain's price never falls as the fabric or stitching rate grows |
| `LineItems.PriceItem` | GUIQuote.py:323-368 | an empty room name is refused first; otherwise it fails exactly when pricing fails; a built item has that room, quantity 1, unit price = total price, and total price = `round(total, 2)` of the computed total (whole hundredths, within half a hundredth, ties to even) |
| `LineItems.WellPriced` | GUIQuote.py:362-368 | an item as "Add Item" stores it has unit price = total price and a total that rounding leaves unchanged |
| `LineItems.Subtotal` | GUIQuote.py:445 | the subtotal of no items is 0 and of non-negative prices is non-negative; its sum behaviour is fixed by `SubtotalAppend` and `SubtotalConcat` |
| `LineItems.PriceItemFailsOnlyOnZeroFabricWidth` | GUIQuote.py:333-384 | with a room name, adding fails iff the type is not "blind" and the fabric width is zero, and the failure is the division error |
| `LineItems.SubtotalAppend` | GUIQuote.py:445 | appending an item raises the subtotal by its total price |
| `LineItems.SubtotalConcat` | GUIQuote.py:445 | the subtotal of two lists put together is the sum of their subtotals |
| `LineItems.SubtotalInCents` | GUIQuote.py:445 | items priced in whole hundredths have a subtotal in whole hundredths |
| `LineItems.ManualBlindExample` | GUIQuote.py:333-336 | blind 2.0 × 1.5 m at 50/m², manual, is stored at 250.00 |
| `LineItems.MotorizedBlindExample` | GUIQuote.py:333-343 | the same blind with a 300 motor and a 150 remote is stored at 800.00 |
| `LineItems.ManualCurtainExample` | GUIQuote.py:345-367 | curtain 3.0 × 2.0 m at the default rates, manual, is stored at 712.86 |
| `LineItems.UntouchedFormExample` | GUIQuote.py:345-354 | with only a room name entered in a fresh form, the item is a manual curtain at 100.00 |
| `QuotePdf.TermsListed` | GUIQuote.py:28-39 | ten terms are printed; the first is the 30-day validity, the eighth the 80% / 20% payment split |
| `QuotePdf.Complete` | GUIQuote.py:415-421 | the client block is complete iff none of the four fields, read in order, is empty; the cleared block is not complete |
| `QuotePdf.AddTotal` | GUIQuote.py:82-96 | the printed grand total is the subtotal × 1.05 and equals subtotal + VAT |
| `QuotePdf.Compose` | GUIQuote.py:409-452 | refuses with no items iff the list is empty, with incomplete client details iff the list is non-empty and a client field is empty; otherwise lists the items in order with the fixed terms, subtotal = sum of totals, VAT = subtotal × 5/100, grand total = subtotal × 1.05, the whole totals block being the one printed for that subtotal |
| `QuotePdf.ComposeAfterAppend` | GUIQuote.py:445-451 | one more item of price p raises the subtotal by p and the grand total by 1.05 × p |
| `QuotePdf.GrandTotalAdditive` | GUIQuote.py:82-86 | the grand total of two lists put together is the sum of their grand totals |
| `Session.RowOf` | GUIQuote.py:371-376 | the row shown for an item carries its handle and the item's room name, description, quantity and total price |
| `Session.IndexOf` | GUIQuote.py:392 | the position found holds the row with that handle and no earlier row has it |
| `Session.Unselected` | GUIQuote.py:391-393 | filtering the table never makes it longer |
| `Session.Survivors` | GUIQuote.py:391-394 | the surviving items are exactly as many as the surviving rows |
| `Session.UnselectedIds` | GUIQuote.py:391-393 | after deletion the table's handles are the old ones minus the selected ones |
| `Session.UnselectedNone` | GUIQuote.py:388-389 | deselecting handles not in the table changes neither list |
| `Session.UnselectedAt` | GUIQuote.py:392-394 | with distinct handles, removing the handle at position i is removing position i from both lists |
| `Session.UnselectedTwice` | GUIQuote.py:391-394 | removing one set of handles and then another is removing their union |
| `Session.SurvivorsKeepOrder` | GUIQuote.py:391-394 | the surviving items and rows are the old ones, unchanged and in their old relative order |
| `Session.AlignedRemoveAt` | GUIQuote.py:393-394 | removing the same position from the table and the list keeps row i showing item i |
| `Session.AlignedAppend` | GUIQuote.py:370-376 | appending an item and its row under a fresh handle keeps row i showing item i |
| `Session.DeleteStep` | GUIQuote.py:391-394 | after a set of rows is gone, removing the current position of one more handle is removing that handle too, and keeps the lists aligned |
| `Session.DeleteRound` | GUIQuote.py:391-394 | one pass of the deletion loop turns "first k selected removed" into "first k + 1 selected removed" |
| `Session.RemoveSelectedRows` | GUIQuote.py:391-394 | the table loses exactly the selected rows and the list exactly their items, the two stay aligned, and k selected handles remove k items |
| `Session.QuotationApp.constructor` | GUIQuote.py:158-160 | a new session has no items, no rows and empty client fields |
| `Session.QuotationApp.AddItem` | GUIQuote.py:323-384 | on success exactly one item goes to the end of the list and its row to the end of the table, earlier items unchanged, subtotal up by its price; on failure nothing changes and the error is reported |
| `Session.QuotationApp.DeleteSelected` | GUIQuote.py:386-394 | the list and table lose exactly the selected entries, stay aligned, keep the survivors in order, and the client fields are untouched |
| `Session.QuotationApp.ClearAll` | GUIQuote.py:396-404 | confirmed: items, table and client fields are empty; not confirmed: nothing changes |
| `Session.QuotationApp.GenerateQuotation` | GUIQuote.py:409-458 | no items, then incomplete client details, refuse; an empty save path cancels; otherwise the document is saved or the save fails, and a saved document is exactly the composed one: the items, the client, the fixed terms, subtotal = sum of totals, VAT = 5% of it and grand total = subtotal × 1.05 |

## Left out

- The tkinter window: styles, scrolling, field creation, show/hide toggling and message boxes (GUIQuote.py:115-321). The form's values are the `EntryForm` parameter, and the message shown is the returned error.
- The entry-field resets: after a successful add (room, width and height, GUIQuote.py:379-381), and the resets of room, size, motorized and product type in "Clear All" (GUIQuote.py:401-407). These are form state, which the model takes as a parameter.
- Exceptions from reading a field that does not hold a number (Tk's `.get()`), which GUIQuote.py:383 also catches. Every form value here is a number.
- FPDF rendering: the header band, logo, client block, cell geometry, the table header, line wrapping and automatic page breaks (GUIQuote.py:43-109, GUIQuote.py:434-443). These happen inside the FPDF library, which is not part of this model. The document is modelled by its content only.
- The company name, address, phone and VAT number printed in the header.
- The quote number and date, which are derived from the clock (GUIQuote.py:26-27).
- `resource_path`, the logo file check, the save dialog and `pdf.output`. The dialog's answer and whether writing succeeded are parameters of `GenerateQuotation`.
- Binary floating point: every amount is an exact rational. In the source the pricing products and quotients (GUIQuote.py:333-359), `round(x, 2)` (GUIQuote.py:366-367), the `sum` of the totals (GUIQuote.py:445) and the VAT product (GUIQuote.py:85) are binary floats. So `round` can differ on inputs such as 2.675. `LineItems.SubtotalInCents`, `QuotePdf.AddTotal`'s grand total = subtotal × 1.05 and `QuotePdf.GrandTotalAdditive` hold only for exact amounts; in floats, 0.1 + 0.2 != 0.3.
- The text of the descriptions and the `,.2f` amount formatting. `Description` holds the values the text is written from, and `Row.price` stands for the formatted price.
- The first `create_buttons_section` (GUIQuote.py:173-191), which the second definition replaces.
- `Session.QuotationApp.DeleteSelected`: the loop runs in `RemoveSelectedRows` on the two lists as values and stores them back once. The source deletes from the table and from `self.items` in place on each pass. Nothing else runs between passes, so the result is the same.
- `Session.QuotationApp.DeleteSelected`: requires the selection to be table handles, each listed once. Tk's selection always has this form.
