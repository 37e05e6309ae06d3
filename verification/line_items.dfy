/**
 * Line items of a quotation: how "Add Item" turns a filled-in form into one
 * priced item, and the subtotal of a list of items.
 */
module LineItems {
  import opened Wrappers
  import opened Money
  import opened Pricing

  /** One row of the quotation: a room and the priced treatment for it. */
  datatype LineItem = LineItem(
    roomName: string,
    description: Description,
    quantity: int,
    unitPrice: real,
    totalPrice: real)

  /** What every item "Add Item" produces satisfies: one unit, priced in whole hundredths. */
  predicate WellPriced(item: LineItem): (ok: bool)
    ensures ok ==> item.unitPrice == item.totalPrice && Round2(item.totalPrice) == item.totalPrice
  {
    && item.roomName != ""
    && item.quantity == 1
    && item.totalPrice == item.unitPrice * item.quantity as real
    && IsCents(item.totalPrice)
  }

  /** Why "Add Item" refused: no room name, or the pricing raised an exception. */
  datatype AddError = MissingRoomName | InvalidInput(cause: PricingError)

  /**
   * The item "Add Item" builds from the form: the room name is checked first,
   * then the product is priced, and both prices are the total rounded to two
   * decimals with quantity 1.
   */
  function PriceItem(f: EntryForm): (r: Result<LineItem, AddError>)
    ensures r == Failure(MissingRoomName) <==> f.roomName == ""
    ensures r.Failure? <==> f.roomName == "" || Price(SpecOf(f)).Failure?
    ensures r.Success? ==> WellPriced(r.value) && r.value.roomName == f.roomName
    ensures r.Success? ==> r.value.unitPrice == r.value.totalPrice
    ensures r.Success? ==>
              && r.value.description == Price(SpecOf(f)).value.description
              && -0.005 <= r.value.totalPrice - Price(SpecOf(f)).value.total <= 0.005
              && r.value.totalPrice == Round2(Price(SpecOf(f)).value.total)
  {
    if f.roomName == "" then Failure(MissingRoomName)
    else
      match Price(SpecOf(f))
      case Failure(e) => Failure(InvalidInput(e))
      case Success(p) =>
        var rounded := Round2(p.total);
        Success(LineItem(f.roomName, p.description, 1, rounded, rounded))
  }

  /** The only pricing failure is a curtain (any type but "blind") whose fabric width is zero. */
  lemma PriceItemFailsOnlyOnZeroFabricWidth(f: EntryForm)
    requires f.roomName != ""
    ensures PriceItem(f).Failure?
        <==> f.productType != "blind" && f.fabricWidth == 0.0
    ensures PriceItem(f).Failure? ==> PriceItem(f).error == InvalidInput(ZeroFabricWidth)
  {
  }

  /** Sum of the items' total prices, added up from the first item to the last. */
  function Subtotal(items: seq<LineItem>): (s: real)
    ensures items == [] ==> s == 0.0
    ensures (forall i :: 0 <= i < |items| ==> items[i].totalPrice >= 0.0) ==> s >= 0.0
    decreases |items|
  {
    if items == [] then 0.0
    else Subtotal(items[..|items| - 1]) + items[|items| - 1].totalPrice
  }

  /** Adding an item raises the subtotal by exactly its total price. */
  lemma SubtotalAppend(items: seq<LineItem>, item: LineItem)
    ensures Subtotal(items + [item]) == Subtotal(items) + item.totalPrice
  {
  }

  /** The subtotal of two lists put together is the sum of their subtotals. */
  lemma {:induction false} SubtotalConcat(a: seq<LineItem>, b: seq<LineItem>)
    ensures Subtotal(a + b) == Subtotal(a) + Subtotal(b)
    decreases |b|
  {
    if b == [] {
      assert a + b == a;
    } else {
      var front := b[..|b| - 1];
      assert a + b == (a + front) + [b[|b| - 1]];
      SubtotalAppend(a + front, b[|b| - 1]);
      SubtotalConcat(a, front);
    }
  }

  /** Items priced in whole hundredths add up to a subtotal in whole hundredths. */
  lemma {:induction false} SubtotalInCents(items: seq<LineItem>)
    requires forall i :: 0 <= i < |items| ==> IsCents(items[i].totalPrice)
    ensures IsCents(Subtotal(items))
    decreases |items|
  {
    if items != [] {
      var front := items[..|items| - 1];
      assert forall i :: 0 <= i < |front| ==> front[i] == items[i];
      SubtotalInCents(front);
      CentsAdd(Subtotal(front), items[|items| - 1].totalPrice);
    }
  }

  /** Blind 2.0 m x 1.5 m at 50 per square metre, manual: 250.00. */
  lemma ManualBlindExample()
    ensures var item := PriceItem(EntryForm("blind", "Bedroom", 2.0, 1.5, false, 50.0,
                                            2.0, 2.8, 40.0, 60.0, 40.0, 300.0, 150.0));
            item.Success? && item.value.totalPrice == 250.0
  {
  }

  /** The same blind motorized with a 300 motor and a 150 remote: 800.00. */
  lemma MotorizedBlindExample()
    ensures var item := PriceItem(EntryForm("blind", "Bedroom", 2.0, 1.5, true, 50.0,
                                            2.0, 2.8, 40.0, 60.0, 40.0, 300.0, 150.0));
            item.Success? && item.value.totalPrice == 800.0
  {
  }

  /**
   * Curtain 3.0 m x 2.0 m at the default rates (fullness 2.0, fabric width
   * 2.8, fabric 60, stitching 40, track 40), manual: 4990/7 = 712.857...,
   * stored as 712.86.
   */
  lemma ManualCurtainExample()
    ensures var item := PriceItem(EntryForm("curtain", "Living", 3.0, 2.0, false, 0.0,
                                            2.0, 2.8, 40.0, 60.0, 40.0, 300.0, 150.0));
            item.Success? && item.value.totalPrice == 712.86
  {
  }

  /**
   * Pressing "Add Item" in a fresh window with only a room name typed prices
   * the item as a manual curtain of zero width: just the 100 installation.
   */
  lemma UntouchedFormExample()
    ensures var item := PriceItem(InitialForm().(roomName := "Hall"));
            && item.Success?
            && item.value.description.CurtainDescription?
            && item.value.totalPrice == 100.0
  {
  }
}
