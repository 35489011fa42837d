/** The credits screen: a fixed catalog of packages, a custom amount of at least ten
    credits at ten cents each, and a pending purchase that the payment form confirms or
    cancels. Prices are kept in integer cents. */
module Credits {
  import opened Wrappers
  import opened Strings
  import opened Index

  /** One entry of `creditPackages`; the price is in whole dollars. */
  datatype Package = Package(amount: nat, price: nat, popular: bool)

  const Packages: seq<Package> := [
    Package(50, 5, false),
    Package(150, 12, true),
    Package(300, 20, false),
    Package(500, 30, false)
  ]

  /** The smallest custom amount the Recargar button accepts. */
  const MinimumCustom: nat := 10

  /** A package's price in cents. */
  function PackageCents(p: Package): nat {
    p.price * 100
  }

  /** `amount * 0.1` dollars, in cents. */
  function CustomCents(amount: nat): nat {
    amount * 10
  }

  /** Every package buys at least the custom minimum and costs something, and only the
      150-credit package is marked popular. */
  lemma PackagesAreSound(i: nat)
    requires i < |Packages|
    ensures Packages[i].amount >= MinimumCustom && PackageCents(Packages[i]) > 0
    ensures Packages[i].popular <==> i == 1
  {
  }

  /** Further down the catalog, a package buys more credits at a lower price per
      credit. */
  lemma PackagesCheaperInBulk(i: nat, j: nat)
    requires i < j < |Packages|
    ensures Packages[i].amount < Packages[j].amount
    ensures PackageCents(Packages[j]) * Packages[i].amount < PackageCents(Packages[i]) * Packages[j].amount
  {
  }

  /** The Recargar handler's test on `parseInt(rechargeAmount)`: a number that is
      truthy (not `NaN`, not zero) and at least ten. */
  function CustomAmount(input: string): (r: Option<nat>)
    ensures r.Some? ==> r.value >= MinimumCustom && ParseInt(input) == Some(r.value as int)
  {
    match ParseInt(input)
    case None => None
    case Some(n) => if n != 0 && n >= MinimumCustom then Some(n as nat) else None
  }

  /** A custom amount is accepted exactly when its text parses to a number of at least
      ten, and then the amount is that number. */
  lemma CustomAmountIff(input: string, n: int)
    ensures CustomAmount(input) == Some(n) <==> ParseInt(input) == Some(n) && n >= MinimumCustom
  {
  }

  /** Typing any amount of at least ten in decimal is accepted as that amount. */
  lemma DecimalAmountsAccepted(n: nat)
    requires n >= MinimumCustom
    ensures CustomAmount(Decimal(n)) == Some(n)
  {
    ParseDecimal(n);
  }

  /** "7" parses, but to less than ten. */
  lemma SevenRefused()
    ensures ParseInt("7") == Some(7) && CustomAmount("7") == None
  {
    assert TrimStart("7") == "7";
    assert DigitPrefix("7") == "7";
  }

  /** "0" parses to zero, which is falsy. */
  lemma ZeroRefused()
    ensures ParseInt("0") == Some(0) && CustomAmount("0") == None
  {
    assert TrimStart("0") == "0";
    assert DigitPrefix("0") == "0";
  }

  /** An empty field parses to `NaN`. */
  lemma EmptyRefused()
    ensures ParseInt("") == None && CustomAmount("") == None
  {
  }

  /** Text that starts with anything but white space, a sign or a digit parses to
      `NaN`, "abc" for one. */
  lemma NotANumberRefused(s: string)
    requires s != [] && !IsWhitespace(s[0]) && !IsDigit(s[0]) && s[0] != '+' && s[0] != '-'
    ensures ParseInt(s) == None && CustomAmount(s) == None
    ensures ParseInt("abc") == None
  {
    assert TrimStart(s) == s;
    assert SkipSign(s) == s;
    var abc := "abc";
    assert !IsWhitespace(abc[0]) && !IsDigit(abc[0]);
    assert TrimStart(abc) == abc;
  }

  /** "20" opens the gateway for 20 credits at 200 cents. */
  lemma TwentyAccepted()
    ensures CustomAmount("20") == Some(20) && CustomCents(20) == 200
  {
    assert Decimal(20) == "20";
    DecimalAmountsAccepted(20);
  }

  /** The unused `customRecharge` handler's test: any truthy, positive number. */
  function LegacyAmount(input: string): (r: Option<nat>)
    ensures r.Some? ==> r.value > 0 && ParseInt(input) == Some(r.value as int)
    ensures ParseInt(input).Some? && ParseInt(input).value > 0 ==> r == Some(ParseInt(input).value as nat)
  {
    match ParseInt(input)
    case None => None
    case Some(n) => if n != 0 && n > 0 then Some(n as nat) else None
  }

  /** The legacy handler takes amounts the Recargar button refuses. */
  lemma LegacyIsLooser(input: string)
    ensures CustomAmount(input).Some? ==> LegacyAmount(input) == CustomAmount(input)
    ensures LegacyAmount("7") == Some(7) && CustomAmount("7") == None
  {
    SevenRefused();
  }

  /** `disabled={isRecharging || !rechargeAmount}` on the Recargar button. */
  predicate RechargeDisabled(isRecharging: bool, rechargeAmount: string) {
    isRecharging || rechargeAmount == []
  }

  /** A snapshot of the screen's five pieces of state. */
  datatype Manager = Manager(
    rechargeAmount: string,
    isRecharging: bool,
    showGateway: bool,
    pendingAmount: int,
    pendingPrice: int)

  const InitialManager := Manager([], false, false, 0, 0)

  /** Every gateway that can be on screen is for at least ten credits. */
  predicate PendingValid(m: Manager) {
    m.showGateway ==> m.pendingAmount >= MinimumCustom
  }

  /** `openGateway(amount, price)`. */
  function Opened(m: Manager, amount: int, price: int): (r: Manager)
    ensures r.showGateway && r.pendingAmount == amount && r.pendingPrice == price
    ensures r.rechargeAmount == m.rechargeAmount && r.isRecharging == m.isRecharging
  {
    m.(pendingAmount := amount, pendingPrice := price, showGateway := true)
  }

  /** The screen after the Recargar click: the gateway opened for a valid amount, no
      change otherwise. */
  function AfterCustom(m: Manager): (r: Manager)
    ensures CustomAmount(m.rechargeAmount).None? ==> r == m
    ensures CustomAmount(m.rechargeAmount).Some? ==>
              r == Opened(m, CustomAmount(m.rechargeAmount).value,
                          CustomCents(CustomAmount(m.rechargeAmount).value))
  {
    match CustomAmount(m.rechargeAmount)
    case None => m
    case Some(n) => Opened(m, n, CustomCents(n))
  }

  /** The screen after `handleConfirmPayment`; the balance change is on the page. */
  function Confirmed(m: Manager): (r: Manager)
    ensures !r.showGateway && !r.isRecharging && r.rechargeAmount == []
    ensures r.pendingAmount == m.pendingAmount && r.pendingPrice == m.pendingPrice
  {
    m.(showGateway := false, isRecharging := false, rechargeAmount := [])
  }

  /** The screen after the gateway's Cancel: only the gateway is hidden. */
  function Cancelled(m: Manager): (r: Manager)
    ensures !r.showGateway
    ensures r.pendingAmount == m.pendingAmount && r.pendingPrice == m.pendingPrice
    ensures r.rechargeAmount == m.rechargeAmount && r.isRecharging == m.isRecharging
  {
    m.(showGateway := false)
  }

  /** Every way of opening the gateway, and every way of closing it, keeps the pending
      amount at ten credits or more while the gateway is shown. */
  lemma PendingValidPreserved(m: Manager, i: nat)
    requires PendingValid(m) && i < |Packages|
    ensures PendingValid(Opened(m, Packages[i].amount, PackageCents(Packages[i])))
    ensures PendingValid(AfterCustom(m))
    ensures PendingValid(Confirmed(m)) && PendingValid(Cancelled(m))
  {
    PackagesAreSound(i);
  }

  /** The credits screen's local state. */
  class CreditsManager {
    var rechargeAmount: string
    var isRecharging: bool
    var showGateway: bool
    var pendingAmount: int
    var pendingPrice: int

    function State(): Manager
      reads this
    {
      Manager(rechargeAmount, isRecharging, showGateway, pendingAmount, pendingPrice)
    }

    /** A gateway on screen is always for ten credits or more. */
    ghost predicate Valid()
      reads this
    {
      PendingValid(State())
    }

    constructor ()
      ensures State() == InitialManager && Valid()
    {
      rechargeAmount := [];
      isRecharging := false;
      showGateway := false;
      pendingAmount := 0;
      pendingPrice := 0;
    }

    /** The custom amount field's `onChange`. */
    method SetRechargeAmount(text: string)
      requires Valid()
      modifies this
      ensures Valid() && State() == old(State()).(rechargeAmount := text)
    {
      rechargeAmount := text;
    }

    /** `openGateway`, which both of its callers reach only with ten credits or
        more. */
    method OpenGateway(amount: int, price: int)
      requires Valid() && amount >= MinimumCustom
      modifies this
      ensures Valid() && State() == Opened(old(State()), amount, price)
    {
      pendingAmount := amount;
      pendingPrice := price;
      showGateway := true;
    }

    /** A package's Comprar button, enabled while no legacy recharge runs. */
    method BuyPackage(i: nat)
      requires Valid() && i < |Packages| && !isRecharging
      modifies this
      ensures Valid() && State() == Opened(old(State()), Packages[i].amount, PackageCents(Packages[i]))
    {
      PackagesAreSound(i);
      OpenGateway(Packages[i].amount, PackageCents(Packages[i]));
    }

    /** The Recargar button: `accepted` says whether the gateway opened. */
    method RechargeCustom() returns (accepted: bool)
      requires Valid()
      modifies this
      ensures accepted <==> CustomAmount(old(rechargeAmount)).Some?
      ensures Valid() && State() == AfterCustom(old(State()))
    {
      var amount := ParseInt(rechargeAmount);
      if amount.Some? && amount.value != 0 && amount.value >= MinimumCustom {
        OpenGateway(amount.value, CustomCents(amount.value as nat));
        accepted := true;
      } else {
        accepted := false;
      }
    }

    /** `handleConfirmPayment`, reachable only from the gateway on screen: the balance
        raised by the pending amount, so by ten or more, the gateway closed and the
        custom field cleared. */
    method ConfirmPayment(studio: Studio)
      requires Valid() && showGateway
      modifies this, studio
      ensures Valid() && State() == Confirmed(old(State()))
      ensures studio.State() == WithCredits(old(studio.State()), old(studio.credits) + pendingAmount)
      ensures studio.credits >= old(studio.credits) + MinimumCustom
    {
      showGateway := false;
      studio.HandleCreditsChange(studio.credits + pendingAmount);
      isRecharging := false;
      rechargeAmount := [];
    }

    /** The gateway's `onCancel`. */
    method CancelGateway()
      requires Valid()
      modifies this
      ensures Valid() && State() == Cancelled(old(State()))
    {
      showGateway := false;
    }

    /** The unused `rechargeCredits`, with its timer run to completion. */
    method RechargeCredits(studio: Studio, amount: int)
      requires Valid()
      modifies this, studio
      ensures Valid() && State() == old(State()).(isRecharging := false, rechargeAmount := [])
      ensures studio.State() == WithCredits(old(studio.State()), old(studio.credits) + amount)
    {
      isRecharging := true;
      studio.HandleCreditsChange(studio.credits + amount);
      isRecharging := false;
      rechargeAmount := [];
    }

    /** The unused `customRecharge`: any positive parsed amount is added at once. */
    method CustomRecharge(studio: Studio) returns (accepted: bool)
      requires Valid()
      modifies this, studio
      ensures Valid()
      ensures accepted <==> LegacyAmount(old(rechargeAmount)).Some?
      ensures !accepted ==> State() == old(State()) && studio.State() == old(studio.State())
      ensures accepted ==> studio.State() == WithCredits(old(studio.State()),
                                                          old(studio.credits) + LegacyAmount(old(rechargeAmount)).value)
    {
      var amount := ParseInt(rechargeAmount);
      if amount.Some? && amount.value != 0 && amount.value > 0 {
        RechargeCredits(studio, amount.value);
        accepted := true;
      } else {
        accepted := false;
      }
    }
  }
}
