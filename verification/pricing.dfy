/**
 * The pricing rule of the "Add Item" action: a blind is priced by area, a
 * curtain by the fabric it needs plus its track, and motorization adds a
 * surcharge to either.
 */
module Pricing {
  import opened Wrappers

  /** Installation charged on every item. */
  const BaseInstallFee: real := 100.0
  /** Installation of the motor, charged on motorized items. */
  const MotorInstallFee: real := 100.0
  /** Extra curtain length (metres) added to the window height for hems. */
  const SeamAllowance: real := 0.3

  /**
   * The values of the product-entry form at the moment "Add Item" is pressed.
   * `productType` is the radio-button value: "blind", "curtain", or "" while
   * neither has been chosen.
   */
  datatype EntryForm = EntryForm(
    productType: string,
    roomName: string,
    width: real,
    height: real,
    motorized: bool,
    blindPrice: real,
    fullnessFactor: real,
    fabricWidth: real,
    stitchingCost: real,
    fabricPrice: real,
    trackPrice: real,
    motorPrice: real,
    remotePrice: real)

  /**
   * The form as the window opens: nothing chosen, sizes and blind rate zero,
   * the curtain and motor rates at their defaults.
   */
  function InitialForm(): (f: EntryForm)
    ensures f.productType == "" && f.roomName == "" && !f.motorized
    ensures f.width == 0.0 && f.height == 0.0 && f.blindPrice == 0.0
    ensures f.fullnessFactor == 2.0 && f.fabricWidth == 2.8
    ensures f.stitchingCost == 40.0 && f.fabricPrice == 60.0 && f.trackPrice == 40.0
    ensures f.motorPrice == 300.0 && f.remotePrice == 150.0
  {
    EntryForm("", "", 0.0, 0.0, false, 0.0, 2.0, 2.8, 40.0, 60.0, 40.0, 300.0, 150.0)
  }

  datatype Motor = Manual | Motorized(motorPrice: real, remotePrice: real)

  /** One window treatment to be priced: the two product variants with their own rates. */
  datatype ProductSpec =
    | Blind(width: real, height: real, pricePerSqm: real, motor: Motor)
    | Curtain(width: real, height: real, fullness: real, fabricWidth: real,
              stitchingCost: real, fabricPrice: real, trackPrice: real, motor: Motor)

  /** The facts the item description is written from (its text formatting is not modelled). */
  datatype Description =
    | BlindDescription(motorized: bool, width: real, height: real)
    | CurtainDescription(motorized: bool, lengthRequired: real, fabricWidths: real)

  datatype Priced = Priced(total: real, description: Description)

  /** Curtain pricing divides by the fabric width; a zero width raises ZeroDivisionError. */
  datatype PricingError = ZeroFabricWidth

  /**
   * Reads the form the way "Add Item" does: "blind" selects the blind fields,
   * any other product type (including none) selects the curtain fields; the
   * motor prices are read only when the item is motorized.
   */
  function SpecOf(f: EntryForm): (s: ProductSpec)
    ensures s.Blind? <==> f.productType == "blind"
    ensures s.width == f.width && s.height == f.height
    ensures s.motor == if f.motorized then Motorized(f.motorPrice, f.remotePrice) else Manual
    ensures s.Blind? ==> s.pricePerSqm == f.blindPrice
    ensures s.Curtain? ==>
              && s.fabricWidth == f.fabricWidth && s.fullness == f.fullnessFactor
              && s.stitchingCost == f.stitchingCost && s.fabricPrice == f.fabricPrice
              && s.trackPrice == f.trackPrice
  {
    var motor := if f.motorized then Motorized(f.motorPrice, f.remotePrice) else Manual;
    if f.productType == "blind" then
      Blind(f.width, f.height, f.blindPrice, motor)
    else
      Curtain(f.width, f.height, f.fullnessFactor, f.fabricWidth,
              f.stitchingCost, f.fabricPrice, f.trackPrice, motor)
  }

  /**
   * What motorization adds on top of the manual price: nothing for a manual
   * item, otherwise the motor, the remote and the motor installation fee.
   */
  function MotorSurcharge(m: Motor): (extra: real)
    ensures m.Manual? ==> extra == 0.0
    ensures m.Motorized? ==> extra == m.motorPrice + m.remotePrice + 100.0
    ensures m.Motorized? && m.motorPrice >= 0.0 && m.remotePrice >= 0.0 ==> extra >= 100.0
  {
    match m
    case Manual => 0.0
    case Motorized(motorPrice, remotePrice) => motorPrice + remotePrice + MotorInstallFee
  }

  /** The unrounded price of one item, or the division-by-zero failure. */
  function Price(s: ProductSpec): (r: Result<Priced, PricingError>)
    ensures r.Failure? <==> s.Curtain? && s.fabricWidth == 0.0
    ensures r.Success? ==> r.value.description.motorized == s.motor.Motorized?
    ensures r.Success? ==> (r.value.description.BlindDescription? <==> s.Blind?)
  {
    match s
    case Blind(width, height, pricePerSqm, motor) =>
      var area := width * height;
      var total := area * pricePerSqm + BaseInstallFee;
      Success(Priced(total + MotorSurcharge(motor),
                     BlindDescription(motor.Motorized?, width, height)))
    case Curtain(width, height, fullness, fabricWidth, stitchingCost, fabricPrice, trackPrice, motor) =>
      if fabricWidth == 0.0 then Failure(ZeroFabricWidth)
      else
        var fabricReq := (width * fullness) / fabricWidth;
        var lengthReq := height + SeamAllowance;
        var fabricCost := fabricReq * lengthReq * fabricPrice;
        var stitching := fabricReq * lengthReq * stitchingCost;
        var trackCost := width * trackPrice;
        var total := fabricCost + stitching + trackCost + BaseInstallFee;
        Success(Priced(total + MotorSurcharge(motor),
                       CurtainDescription(motor.Motorized?, lengthReq, fabricReq)))
  }

  /** A manual blind costs its area times the rate per square metre, plus 100 installation. */
  lemma ManualBlindPrice(width: real, height: real, pricePerSqm: real)
    ensures var p := Price(Blind(width, height, pricePerSqm, Manual));
            && p.Success?
            && p.value.total == width * height * pricePerSqm + 100.0
            && p.value.description == BlindDescription(false, width, height)
  {
  }

  /**
   * A manual curtain needs width * fullness / fabricWidth fabric widths, each
   * height + 0.3 long; fabric and stitching are charged per metre of that
   * fabric, the track per metre of window width, plus 100 installation.
   */
  lemma ManualCurtainPrice(width: real, height: real, fullness: real, fabricWidth: real,
                           stitchingCost: real, fabricPrice: real, trackPrice: real)
    requires fabricWidth != 0.0
    ensures var p := Price(Curtain(width, height, fullness, fabricWidth,
                                   stitchingCost, fabricPrice, trackPrice, Manual));
            && p.Success?
            && p.value.description == CurtainDescription(false, height + 0.3, width * fullness / fabricWidth)
            && p.value.total * fabricWidth
               == width * fullness * (height + 0.3) * (fabricPrice + stitchingCost)
                  + (width * trackPrice + 100.0) * fabricWidth
  {
  }

  /** Motorizing an item adds exactly motor + remote + 100 to its manual price, for both variants. */
  lemma MotorizationSurcharge(s: ProductSpec, motorPrice: real, remotePrice: real)
    ensures var manual := Price(s.(motor := Manual));
            var motorized := Price(s.(motor := Motorized(motorPrice, remotePrice)));
            && manual.Success? == motorized.Success?
            && (manual.Success? ==>
                  motorized.value.total == manual.value.total + motorPrice + remotePrice + 100.0)
  {
    var manual, motorized := s.(motor := Manual), s.(motor := Motorized(motorPrice, remotePrice));
    assert MotorSurcharge(motorized.motor) == MotorSurcharge(manual.motor) + motorPrice + remotePrice + 100.0;
    if s.Curtain? && s.fabricWidth != 0.0 {
      var fabricReq := (s.width * s.fullness) / s.fabricWidth;
      var lengthReq := s.height + SeamAllowance;
      var base := fabricReq * lengthReq * s.fabricPrice + fabricReq * lengthReq * s.stitchingCost
                  + s.width * s.trackPrice + BaseInstallFee;
      assert Price(manual).value.total == base + MotorSurcharge(manual.motor);
      assert Price(motorized).value.total == base + MotorSurcharge(motorized.motor);
    }
  }

  /** With non-negative inputs, a blind never gets cheaper as its width, height or rate grows. */
  lemma BlindPriceMonotone(width: real, height: real, pricePerSqm: real,
                           width': real, height': real, pricePerSqm': real, motor: Motor)
    requires 0.0 <= width <= width' && 0.0 <= height <= height' && 0.0 <= pricePerSqm <= pricePerSqm'
    ensures Price(Blind(width, height, pricePerSqm, motor)).value.total
         <= Price(Blind(width', height', pricePerSqm', motor)).value.total
  {
  }

  /** With non-negative sizes and a positive fabric width, a curtain never gets cheaper as its fabric or stitching rate grows. */
  lemma CurtainPriceMonotoneInRates(s: ProductSpec, fabricPrice': real, stitchingCost': real)
    requires s.Curtain? && s.fabricWidth > 0.0
    requires 0.0 <= s.width && 0.0 <= s.fullness && 0.0 <= s.height
    requires s.fabricPrice <= fabricPrice' && s.stitchingCost <= stitchingCost'
    ensures Price(s).value.total
         <= Price(s.(fabricPrice := fabricPrice', stitchingCost := stitchingCost')).value.total
  {
  }
}
