/**
 * What a generated quotation document holds: the client block, the items in
 * order, the subtotal / VAT / grand-total block and the fixed terms. Page
 * layout and text rendering are not modelled.
 */
module QuotePdf {
  import opened Wrappers
  import opened LineItems

  /** VAT percentage applied to the subtotal. */
  const VatRate: int := 5

  /** The terms and conditions printed, in this order, on every quotation. */
  const Terms: seq<string> := [
    "1. This quotation is valid for 30 days from the date of issue.",
    "2. Entry permits should be arranged by the client.",
    "3. Orders once confirmed cannot be cancelled.",
    "4. Rectifying ceiling issues does not fall under our scope of work.",
    "5. Ceiling issues will be flagged at time of measurement.",
    "6. Space must be ready before installation.",
    "7. Deep cleaning must be done before installation.",
    "8. Payment terms: 80% advance, 20% upon installation.",
    "9. Cheques payable to: DRAPES AND FITOUTS TRADING FZE",
    "10. Bank Details:\n   - Bank: RAK Bank\n   - Account: 0353425596001\n   - IBAN: AE31 0400 0003 5342 5596 001"
  ]

  /**
   * Ten terms are printed; the first fixes the 30-day validity and the eighth
   * the 80% / 20% payment split.
   */
  lemma TermsListed()
    ensures |Terms| == 10
    ensures Terms[0] == "1. This quotation is valid for 30 days from the date of issue."
    ensures Terms[7] == "8. Payment terms: 80% advance, 20% upon installation."
  {
  }

  datatype ClientInfo = ClientInfo(name: string, phone: string, address: string, project: string)

  /** The client block as it is after "Clear All". */
  const NoClient: ClientInfo := ClientInfo("", "", "", "")

  /** The four client fields in the order the window reads them. */
  function Fields(c: ClientInfo): (fields: seq<string>)
    ensures |fields| == 4
  {
    [c.name, c.phone, c.address, c.project]
  }

  /** Every one of the four client fields has been filled in. */
  predicate Complete(c: ClientInfo): (ok: bool)
    ensures ok <==> forall i :: 0 <= i < |Fields(c)| ==> Fields(c)[i] != ""
    ensures c == NoClient ==> !ok
  {
    var fields := Fields(c);
    assert fields[0] == c.name && fields[1] == c.phone && fields[2] == c.address && fields[3] == c.project;
    c.name != "" && c.phone != "" && c.address != "" && c.project != ""
  }

  /** The three amounts printed under the item table. */
  datatype TotalsBlock = TotalsBlock(subtotal: real, vatAmount: real, grandTotal: real)

  /** The totals block printed for a given subtotal. */
  function AddTotal(total: real): (t: TotalsBlock)
    ensures t.subtotal == total
    ensures t.grandTotal == total * 1.05
    ensures t.grandTotal == t.subtotal + t.vatAmount
  {
    var vatAmount := total * (VatRate as real / 100.0);
    TotalsBlock(total, vatAmount, total + vatAmount)
  }

  datatype Document = Document(
    client: ClientInfo,
    items: seq<LineItem>,
    totals: TotalsBlock,
    terms: seq<string>)

  datatype GenerateError = NoItems | IncompleteClient

  /**
   * The checks "Generate Quotation" makes before asking where to save, and
   * the document it then composes: no items is refused first, then any empty
   * client field; otherwise the items are listed in order and totalled.
   */
  function Compose(items: seq<LineItem>, client: ClientInfo): (r: Result<Document, GenerateError>)
    ensures r == Failure(NoItems) <==> items == []
    ensures r == Failure(IncompleteClient) <==> items != [] && !Complete(client)
    ensures r.Success? ==>
              && r.value.client == client
              && r.value.items == items
              && r.value.terms == Terms
              && r.value.totals.subtotal == Subtotal(items)
              && r.value.totals.grandTotal == Subtotal(items) * 1.05
              && r.value.totals.vatAmount == Subtotal(items) * (VatRate as real / 100.0)
              && r.value.totals == AddTotal(Subtotal(items))
  {
    if items == [] then Failure(NoItems)
    else if !Complete(client) then Failure(IncompleteClient)
    else Success(Document(client, items, AddTotal(Subtotal(items)), Terms))
  }

  /**
   * A further item of price p raises the quotation's subtotal by p and its
   * grand total by p plus 5% VAT on it.
   */
  lemma ComposeAfterAppend(items: seq<LineItem>, item: LineItem, client: ClientInfo)
    requires Complete(client)
    ensures var after := Compose(items + [item], client);
            && after.Success?
            && after.value.totals.subtotal == Subtotal(items) + item.totalPrice
            && after.value.totals.grandTotal == Subtotal(items) * 1.05 + item.totalPrice * 1.05
  {
  }

  /**
   * A quotation made of two lists of items totals to the sum of the two
   * lists' grand totals, so splitting a job into two quotations changes
   * nothing in what is charged.
   */
  lemma GrandTotalAdditive(a: seq<LineItem>, b: seq<LineItem>, client: ClientInfo)
    requires Complete(client) && a != [] && b != []
    ensures Compose(a + b, client).value.totals.grandTotal
         == Compose(a, client).value.totals.grandTotal + Compose(b, client).value.totals.grandTotal
  {
    SubtotalConcat(a, b);
  }
}
