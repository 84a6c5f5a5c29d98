/** The credits page (app/credits/page.tsx): the custom amount with its
    step buttons and input, kept within [10, 10000], and the guards of the
    custom purchase. */
module CreditsPage {
  import opened Wrappers
  import opened Numbers
  import CreditsDialog

  const MinCredits: int := 10
  const MaxCredits: int := 10000

  predicate InRange(credits: int)
  {
    MinCredits <= credits <= MaxCredits
  }

  datatype Purchase =
    | RedirectToLogin
    | BelowMinimum
    | AboveMaximum
    | NoSession
    | Checkout(credits: int, price: real)

  /** `handleCustomPurchase` up to the checkout request: a signed-out user
      is sent to the login page before any amount check, then the bounds,
      then the session. */
  function PurchaseOf(signedIn: bool, credits: int, hasSession: bool): (r: Purchase)
    ensures !signedIn <==> r == RedirectToLogin
    ensures r == BelowMinimum <==> signedIn && credits < MinCredits
    ensures r == AboveMaximum <==> signedIn && credits > MaxCredits
    ensures r.Checkout? <==> signedIn && hasSession && InRange(credits)
    ensures r.Checkout? ==> r.credits == credits && r.price == CreditsDialog.Price(credits)
  {
    if !signedIn then RedirectToLogin
    else if credits < MinCredits then BelowMinimum
    else if credits > MaxCredits then AboveMaximum
    else if !hasSession then NoSession
    else Checkout(credits, CreditsDialog.Price(credits))
  }

  /** The page's state. */
  class CreditsPage {
    var signedIn: bool
    var customCredits: int

    predicate Valid()
      reads this
    {
      InRange(customCredits)
    }

    constructor(signedIn: bool)
      ensures this.signedIn == signedIn && customCredits == 50 && Valid()
    {
      this.signedIn := signedIn;
      customCredits := 50;
    }

    /** `adjustCustomCredits(delta)`: only a step that stays within the
        bounds is taken. */
    method AdjustCredits(delta: int)
      requires Valid()
      modifies this
      ensures customCredits == (if InRange(old(customCredits) + delta) then old(customCredits) + delta else old(customCredits))
      ensures signedIn == old(signedIn) && Valid()
    {
      var newAmount := customCredits + delta;
      if newAmount >= MinCredits && newAmount <= MaxCredits {
        customCredits := newAmount;
      }
    }

    /** Typing in the credits box: `parseInt(text) || 10`, kept when in
        range. */
    method TypeCredits(text: string)
      requires Valid()
      modifies this
      ensures customCredits == (if InRange(CreditsDialog.IntOr(text, MinCredits)) then CreditsDialog.IntOr(text, MinCredits) else old(customCredits))
      ensures signedIn == old(signedIn) && Valid()
    {
      var value := CreditsDialog.IntOr(text, MinCredits);
      if value >= MinCredits && value <= MaxCredits {
        customCredits := value;
      }
    }

    /** The purchase the button starts: with a session, a signed-in user
        always reaches the checkout, since the amount is always in range. */
    function Buy(hasSession: bool): (r: Purchase)
      reads this
      requires Valid()
      ensures signedIn && hasSession ==> r == Checkout(customCredits, CreditsDialog.Price(customCredits))
      ensures r != BelowMinimum && r != AboveMaximum
    {
      PurchaseOf(signedIn, customCredits, hasSession)
    }
  }
}
