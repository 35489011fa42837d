/** The simulated payment form: three inputs that silently drop characters they do not
    accept, a Pagar button enabled only when every field is filled in, and a processing
    phase during which the purchase cannot be cancelled. */
module Payment {
  import opened Strings
  import opened Index
  import opened Credits

  /** `[\d ]`: what the card number keeps. */
  predicate CardNumberChar(c: char) {
    IsDigit(c) || c == ' '
  }

  /** `[\d/]`: what the expiry keeps. */
  predicate ExpiryChar(c: char) {
    IsDigit(c) || c == '/'
  }

  /** `value.replace(/[^\d ]/g, "")`. */
  function SanitizeCardNumber(s: string): (r: string)
    ensures |r| <= |s| && forall i :: 0 <= i < |r| ==> CardNumberChar(r[i])
  {
    Keep(s, CardNumberChar)
  }

  /** `value.replace(/[^\d/]/g, "")`. */
  function SanitizeExpiry(s: string): (r: string)
    ensures |r| <= |s| && forall i :: 0 <= i < |r| ==> ExpiryChar(r[i])
  {
    Keep(s, ExpiryChar)
  }

  /** `value.replace(/[^\d]/g, "")`. */
  function SanitizeCvc(s: string): (r: string)
    ensures |r| <= |s| && AllDigits(r)
  {
    Keep(s, IsDigit)
  }

  /** Each sanitiser keeps the accepted characters in their order and with their
      multiplicity, drops every other one, and is settled after one pass. */
  lemma SanitizersKeepOrderAndSettle(s: string, c: char)
    ensures IsSubsequence(SanitizeCardNumber(s), s)
    ensures IsSubsequence(SanitizeExpiry(s), s)
    ensures IsSubsequence(SanitizeCvc(s), s)
    ensures SanitizeCardNumber(SanitizeCardNumber(s)) == SanitizeCardNumber(s)
    ensures SanitizeExpiry(SanitizeExpiry(s)) == SanitizeExpiry(s)
    ensures SanitizeCvc(SanitizeCvc(s)) == SanitizeCvc(s)
    ensures multiset(SanitizeCardNumber(s))[c] == if CardNumberChar(c) then multiset(s)[c] else 0
    ensures multiset(SanitizeExpiry(s))[c] == if ExpiryChar(c) then multiset(s)[c] else 0
    ensures multiset(SanitizeCvc(s))[c] == if IsDigit(c) then multiset(s)[c] else 0
  {
    KeepIsSubsequence(s, CardNumberChar);
    KeepIsSubsequence(s, ExpiryChar);
    KeepIsSubsequence(s, IsDigit);
    KeepIdempotent(s, CardNumberChar);
    KeepIdempotent(s, ExpiryChar);
    KeepIdempotent(s, IsDigit);
    KeepCounts(s, CardNumberChar, c);
    KeepCounts(s, ExpiryChar, c);
    KeepCounts(s, IsDigit, c);
  }

  /** Well-formed entries pass through unchanged. */
  lemma SanitizersKeepCleanInput(card: string, expiry: string, cvc: string)
    requires forall i :: 0 <= i < |card| ==> CardNumberChar(card[i])
    requires forall i :: 0 <= i < |expiry| ==> ExpiryChar(expiry[i])
    requires AllDigits(cvc)
    ensures SanitizeCardNumber(card) == card
    ensures SanitizeExpiry(expiry) == expiry
    ensures SanitizeCvc(cvc) == cvc
  {
    KeepFixesAccepted(card, CardNumberChar);
    KeepFixesAccepted(expiry, ExpiryChar);
    KeepFixesAccepted(cvc, IsDigit);
  }

  /** `maxLength` of the three capped inputs. */
  const CardNumberMax: nat := 19
  const ExpiryMax: nat := 5
  const CvcMax: nat := 4

  /** The Pagar button is enabled (and the required fields let the form submit) only
      outside processing and with all four fields non-empty. */
  predicate PayEnabled(processing: bool, cardNumber: string, cardName: string, expiry: string, cvc: string) {
    !processing && cardNumber != [] && cardName != [] && expiry != [] && cvc != []
  }

  /** The payment modal's local state, with the purchase it was opened for. */
  class PaymentGateway {
    const amount: int
    const price: int
    var cardNumber: string
    var cardName: string
    var expiry: string
    var cvc: string
    var processing: bool

    /** The three capped fields stay within their caps. */
    ghost predicate Valid()
      reads this
    {
      |cardNumber| <= CardNumberMax && |expiry| <= ExpiryMax && |cvc| <= CvcMax
    }

    /** The modal as it opens for `amount` credits at `price`. */
    constructor (amount: int, price: int)
      ensures this.amount == amount && this.price == price
      ensures cardNumber == [] && cardName == [] && expiry == [] && cvc == [] && !processing
      ensures Valid()
    {
      this.amount := amount;
      this.price := price;
      cardNumber := [];
      cardName := [];
      expiry := [];
      cvc := [];
      processing := false;
    }

    /** Typing in the card number field; the input holds at most 19 characters. */
    method EnterCardNumber(typed: string)
      requires Valid() && |typed| <= CardNumberMax
      modifies this`cardNumber
      ensures Valid() && cardNumber == SanitizeCardNumber(typed)
    {
      cardNumber := SanitizeCardNumber(typed);
    }

    /** Typing the name on the card, which is kept as typed. */
    method EnterCardName(typed: string)
      modifies this`cardName
      ensures cardName == typed
    {
      cardName := typed;
    }

    /** Typing in the expiry field; the input holds at most 5 characters. */
    method EnterExpiry(typed: string)
      requires Valid() && |typed| <= ExpiryMax
      modifies this`expiry
      ensures Valid() && expiry == SanitizeExpiry(typed)
    {
      expiry := SanitizeExpiry(typed);
    }

    /** Typing in the CVC field; the input holds at most 4 characters. */
    method EnterCvc(typed: string)
      requires Valid() && |typed| <= CvcMax
      modifies this`cvc
      ensures Valid() && cvc == SanitizeCvc(typed)
    {
      cvc := SanitizeCvc(typed);
    }

    /** `handlePay` up to the timer: the form submitted, processing starts. */
    method BeginPay()
      requires PayEnabled(processing, cardNumber, cardName, expiry, cvc)
      modifies this`processing
      ensures processing
    {
      processing := true;
    }

    /** The timer of `handlePay`: processing ends and `onConfirm` runs once, so the
        balance grows by the pending amount, at least ten credits, and the gateway
        closes. The form is mounted only while the screen shows the gateway. */
    method CompletePay(manager: CreditsManager, studio: Studio)
      requires processing && manager.Valid() && manager.showGateway
      modifies this`processing, manager, studio
      ensures !processing && manager.Valid()
      ensures manager.State() == Confirmed(old(manager.State()))
      ensures studio.State() == WithCredits(old(studio.State()), old(studio.credits) + old(manager.pendingAmount))
      ensures studio.credits >= old(studio.credits) + MinimumCustom
    {
      processing := false;
      manager.ConfirmPayment(studio);
    }

    /** Cancelar, disabled while processing: the gateway closes and nothing is paid. */
    method Cancel(manager: CreditsManager)
      requires !processing && manager.Valid()
      modifies manager
      ensures manager.Valid() && manager.State() == Cancelled(old(manager.State()))
    {
      manager.CancelGateway();
    }
  }
}
