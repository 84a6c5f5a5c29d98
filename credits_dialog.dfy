/** The credits purchase dialog (components/CreditsPurchaseDialog.tsx):
    the custom amount, its step buttons and inputs, and the guards before a
    checkout session is requested. Prices are exact decimals here. */
module CreditsDialog {
  import opened Wrappers
  import opened Numbers

  const PricePerCredit: real := 0.048
  const MinCredits: int := 30
  const MinPrice: real := 1.44
  const MaxPrice: real := 999999.99
  /** `Math.floor(MAX_PRICE / 0.048)`. */
  const MaxCredits: int := 20833333

  /** The maximum is the floor of the largest price over the unit price. */
  lemma {:induction false} MaxCreditsIsFloor()
    ensures MaxCredits as real * PricePerCredit <= MaxPrice < (MaxCredits + 1) as real * PricePerCredit
    ensures MinCredits as real * PricePerCredit == MinPrice
  {
  }

  function Price(credits: int): real
  {
    credits as real * PricePerCredit
  }

  /** For a whole number of credits the price guard and the credits guard
      agree: the price is below the minimum exactly when the credits are. */
  lemma {:induction false} MinimumGuardsAgree(credits: int)
    ensures Price(credits) < MinPrice <==> credits < MinCredits
    ensures Price(credits) > MaxPrice <==> credits > MaxCredits
  {
    MaxCreditsIsFloor();
    if credits < MinCredits {
      assert credits as real <= (MinCredits - 1) as real;
    }
    if credits > MaxCredits {
      assert credits as real >= (MaxCredits + 1) as real;
    }
  }

  predicate InRange(credits: int)
  {
    MinCredits <= credits <= MaxCredits
  }

  /** `Math.round(x)`: halves round up. */
  function Round(x: real): (r: int)
    ensures x - 0.5 < r as real <= x + 0.5
  {
    (x + 0.5).Floor
  }

  /** `parseInt(text) || d`, with no radix: NaN and 0 both give `d`. */
  function IntOr(text: string, d: int): (r: int)
    ensures ParseIntAuto(text).Some? && ParseIntAuto(text).value != 0 ==> r == ParseIntAuto(text).value
    ensures ParseIntAuto(text).None? || ParseIntAuto(text) == Some(0) ==> r == d
  {
    match ParseIntAuto(text)
    case Some(v) => if v != 0 then v else d
    case None => d
  }

  /** `parseFloat(text) || d`, with `parseFloat` as a parameter (`None` for
      NaN). */
  function RealOr(parseFloat: string -> Option<real>, text: string, d: real): (r: real)
    ensures parseFloat(text).Some? && parseFloat(text).value != 0.0 ==> r == parseFloat(text).value
    ensures parseFloat(text).None? || parseFloat(text) == Some(0.0) ==> r == d
  {
    match parseFloat(text)
    case Some(v) => if v != 0.0 then v else d
    case None => d
  }

  datatype Purchase =
    | RedirectToLogin
    | BelowMinimumPrice
    | BelowMinimumCredits
    | AboveMaximumPrice
    | NoSession
    | Checkout(credits: int, price: real)

  /** `handleCustomPurchase` up to the checkout request: a signed-out user
      is sent to the login page, then the price minimum, the credits
      minimum and the price maximum are checked, then the session. */
  function PurchaseOf(signedIn: bool, credits: int, hasSession: bool): (r: Purchase)
    ensures !signedIn <==> r == RedirectToLogin
    ensures r.Checkout? <==> signedIn && hasSession && InRange(credits)
    ensures r.Checkout? ==> r.credits == credits && r.price == Price(credits)
  {
    MinimumGuardsAgree(credits);
    if !signedIn then RedirectToLogin
    else if Price(credits) < MinPrice then BelowMinimumPrice
    else if credits < MinCredits then BelowMinimumCredits
    else if Price(credits) > MaxPrice then AboveMaximumPrice
    else if !hasSession then NoSession
    else Checkout(credits, Price(credits))
  }

  /** The second guard never fires: any amount below the credits minimum is
      already below the price minimum. */
  lemma {:induction false} CreditsGuardUnreachable(credits: int)
    ensures PurchaseOf(true, credits, true) != BelowMinimumCredits
  {
    MinimumGuardsAgree(credits);
  }

  /** The dialog's state. */
  class Dialog {
    var signedIn: bool
    var customCredits: int

    predicate Valid()
      reads this
    {
      InRange(customCredits)
    }

    constructor(signedIn: bool)
      ensures this.signedIn == signedIn && customCredits == 50 && Valid()
    {
      this.signedIn := signedIn;
      customCredits := 50;
    }

    /** `adjustCustomCredits(delta)`: the step is taken only when it stays
        within [MinCredits, MaxCredits]. */
    method AdjustCredits(delta: int)
      requires Valid()
      modifies this
      ensures customCredits == (if InRange(old(customCredits) + delta) then old(customCredits) + delta else old(customCredits))
      ensures signedIn == old(signedIn) && Valid()
    {
      var newAmount := customCredits + delta;
      if newAmount >= MinCredits && newAmount <= MaxCredits {
        customCredits := newAmount;
      }
    }

    /** `adjustCustomPrice(delta)`: a new price within the price bounds is
        turned back into a rounded number of credits, which is kept only
        within the credit bounds. */
    method AdjustPrice(delta: real)
      requires Valid()
      modifies this
      ensures var p := Price(old(customCredits)) + delta;
        customCredits ==
          (if MinPrice <= p <= MaxPrice && InRange(Round(p / PricePerCredit)) then Round(p / PricePerCredit)
           else old(customCredits))
      ensures signedIn == old(signedIn) && Valid()
    {
      var currentPrice := Price(customCredits);
      var newPrice := currentPrice + delta;
      if newPrice >= MinPrice && newPrice <= MaxPrice {
        var newCredits := Round(newPrice / PricePerCredit);
        if newCredits >= MinCredits && newCredits <= MaxCredits {
          customCredits := newCredits;
        }
      }
    }

    /** Typing in the credits box: `parseInt(text) || MIN_CREDITS`, kept
        when in range. */
    method TypeCredits(text: string)
      requires Valid()
      modifies this
      ensures customCredits == (if InRange(IntOr(text, MinCredits)) then IntOr(text, MinCredits) else old(customCredits))
      ensures signedIn == old(signedIn) && Valid()
    {
      var value := IntOr(text, MinCredits);
      if value >= MinCredits && value <= MaxCredits {
        customCredits := value;
      }
    }

    /** Typing in the price box: `parseFloat(text) || MIN_PRICE`, kept when
        in range and turned into rounded credits, which are kept when in
        range. */
    method TypePrice(parseFloat: string -> Option<real>, text: string)
      requires Valid()
      modifies this
      ensures var v := RealOr(parseFloat, text, MinPrice);
        customCredits ==
          (if MinPrice <= v <= MaxPrice && InRange(Round(v / PricePerCredit)) then Round(v / PricePerCredit)
           else old(customCredits))
      ensures signedIn == old(signedIn) && Valid()
    {
      var value := RealOr(parseFloat, text, MinPrice);
      if value >= MinPrice && value <= MaxPrice {
        var newCredits := Round(value / PricePerCredit);
        if newCredits >= MinCredits && newCredits <= MaxCredits {
          customCredits := newCredits;
        }
      }
    }

    /** The purchase the button starts. */
    function Buy(hasSession: bool): (r: Purchase)
      reads this
      requires Valid()
      ensures signedIn && hasSession ==> r == Checkout(customCredits, Price(customCredits))
    {
      PurchaseOf(signedIn, customCredits, hasSession)
    }
  }

  /** Clearing the credits box (or typing something that is not a number)
      sets the minimum. */
  lemma {:induction false} ClearedBoxGivesMinimum()
    ensures IntOr("", MinCredits) == MinCredits && InRange(MinCredits)
  {
  }

  /** A price step of one dollar from a price inside the bounds moves the
      credits by 21 (one dollar over the unit price, 20.83, rounded). */
  lemma {:induction false} PriceStepRoundsToCredits(credits: int)
    requires InRange(credits)
    ensures Round((Price(credits) + 1.0) / PricePerCredit) == credits + 21
  {
    var x := (Price(credits) + 1.0) / PricePerCredit;
    assert x == credits as real + 1.0 / 0.048;
    assert 20.5 < 1.0 / 0.048 < 21.0;
  }
  /** A price within the price bounds always rounds to credits within the
      credit bounds, so the inner guard of the price controls never
      refuses. */
  lemma {:induction false} PriceBoundsGiveCreditBounds(p: real)
    requires MinPrice <= p <= MaxPrice
    ensures InRange(Round(p / PricePerCredit))
  {
    var x := p / PricePerCredit;
    assert 30.0 <= x;
    assert x <= 20833333.125;
  }
}
