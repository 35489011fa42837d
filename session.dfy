/** A whole session on the page: any sequence of tab switches, generation requests and
    confirmed purchases, applied to the shared state. The ledger starts at 100, is only
    debited by a request that checked the balance first, and only credited by a payment
    of at least ten credits, so it never goes negative, and every credit spent is
    accounted for by an item in the store. */
module Session {
  import opened Content
  import opened Responses
  import opened Index
  import opened Requests
  import opened Images
  import opened Videos
  import opened Texts
  import opened Credits
  import opened Payment

  /** One thing the user can do that reaches the shared state. A purchase is the payment
      form confirmed for a package or for a typed custom amount; a cancelled payment
      reaches nothing and needs no event. */
  datatype Event =
    | SwitchTab(tab: string)
    | RequestImage(prompt: string, webhook: string, imageFetch: Fetch, imageId: nat, imageAt: string)
    | RequestVideo(videoPrompt: string, videoWebhook: string, videoFetch: Fetch, videoId: nat, videoAt: string)
    | RequestText(topic: string, contentType: string, tone: string, textId: nat, textAt: string)
    | BuyPackage(index: nat)
    | BuyCustom(input: string)

  /** The credits a confirmed purchase adds: the package's amount, or the custom amount
      the Recargar button accepted; zero when no gateway could have opened. */
  function Deposit(e: Event): (n: nat)
    ensures n != 0 ==> n >= MinimumCustom
  {
    match e
    case BuyPackage(i) =>
      if i < |Packages| then PackagesAreSound(i); Packages[i].amount else 0
    case BuyCustom(input) =>
      (match CustomAmount(input) case Some(n) => n case None => 0)
    case _ => 0
  }

  /** The events that ask a generation screen for an item. */
  predicate IsRequest(e: Event) {
    e.RequestImage? || e.RequestVideo? || e.RequestText?
  }

  /** What a request costs. */
  function Cost(e: Event): nat {
    match e
    case RequestImage(_, _, _, _, _) => ImageCost
    case RequestVideo(_, _, _, _, _) => VideoCost
    case RequestText(_, _, _, _, _) => TextCost
    case _ => 0
  }

  /** How a request ends, given the balance it starts from. */
  function RequestOutcome(s: AppState, e: Event): Outcome
    requires IsRequest(e)
  {
    match e
    case RequestImage(prompt, webhook, fetch, id, at) => ImageOutcome(prompt, webhook, s.credits, fetch, id, at)
    case RequestVideo(prompt, webhook, fetch, id, at) => VideoOutcome(prompt, webhook, s.credits, fetch, id, at)
    case RequestText(topic, contentType, tone, id, at) => TextOutcome(topic, contentType, tone, s.credits, id, at)
  }

  /** A request produces an item only when the balance covers it, and the item is of
      the requested kind. */
  lemma RequestCovered(s: AppState, e: Event)
    requires IsRequest(e)
    ensures RequestOutcome(s, e).Succeeded? ==>
              s.credits >= Cost(e) && ItemCost(RequestOutcome(s, e).item) == Cost(e)
  {
    match e
    case RequestImage(prompt, webhook, fetch, id, at) =>
      ImageCovered(ImageOutcome(prompt, webhook, s.credits, fetch, id, at));
    case RequestVideo(prompt, webhook, fetch, id, at) =>
      VideoCovered(VideoOutcome(prompt, webhook, s.credits, fetch, id, at));
    case RequestText(topic, contentType, tone, id, at) =>
      TextCovered(TextOutcome(topic, contentType, tone, s.credits, id, at));
  }

  lemma ImageCovered(o: Outcome)
    requires o.Succeeded? ==> o.item.Image?
    ensures o.Succeeded? ==> ItemCost(o.item) == ImageCost
  {
  }

  lemma VideoCovered(o: Outcome)
    requires o.Succeeded? ==> o.item.Video?
    ensures o.Succeeded? ==> ItemCost(o.item) == VideoCost
  {
  }

  lemma TextCovered(o: Outcome)
    requires o.Succeeded? ==> o.item.Text?
    ensures o.Succeeded? ==> ItemCost(o.item) == TextCost
  {
  }

  /** The effect of one event on the page. */
  function Step(s: AppState, e: Event): AppState {
    if IsRequest(e) then Settle(s, Cost(e), RequestOutcome(s, e))
    else if e.SwitchTab? then WithTab(s, e.tab)
    else if Deposit(e) == 0 then s
    else WithCredits(s, s.credits + Deposit(e))
  }

  /** The state after a sequence of events, oldest first. */
  function Replay(s: AppState, events: seq<Event>): AppState
    decreases |events|
  {
    if events == [] then s else Replay(Step(s, events[0]), events[1..])
  }

  /** What generating an item of this kind costs. */
  function ItemCost(item: ContentItem): nat {
    match item
    case Image(_, _, _, _) => ImageCost
    case Video(_, _, _, _) => VideoCost
    case Text(_, _, _, _, _, _) => TextCost
  }

  /** The credits the stored items cost. */
  function Spent(content: seq<ContentItem>): nat {
    if content == [] then 0 else ItemCost(content[0]) + Spent(content[1..])
  }

  /** Every deposit in a sequence of events. */
  function Deposits(events: seq<Event>): nat {
    if events == [] then 0 else Deposit(events[0]) + Deposits(events[1..])
  }

  lemma SpentPrepend(item: ContentItem, content: seq<ContentItem>)
    ensures Spent([item] + content) == ItemCost(item) + Spent(content)
  {
    assert ([item] + content)[1..] == content;
  }

  /** A request debits exactly when it stores one item, by that item's cost, and only
      from a balance that covers the cost. */
  lemma SettledRequest(s: AppState, cost: nat, o: Outcome)
    requires o.Succeeded? ==> s.credits >= cost && ItemCost(o.item) == cost
    ensures Settle(s, cost, o).credits + Spent(Settle(s, cost, o).content) == s.credits + Spent(s.content)
    ensures Settle(s, cost, o).credits >= 0 || s.credits < 0
  {
    if o.Succeeded? {
      SpentPrepend(o.item, s.content);
    }
  }

  /** One event keeps the ledger balanced: the balance plus what the stored items cost
      grows by the event's deposit and by nothing else; a non-negative balance stays
      non-negative; the balance falls exactly when one item is added; and it rises only
      by a deposit of at least ten. */
  lemma StepKeepsLedger(s: AppState, e: Event)
    ensures Step(s, e).credits + Spent(Step(s, e).content) == s.credits + Spent(s.content) + Deposit(e)
    ensures s.credits >= 0 ==> Step(s, e).credits >= 0
    ensures Step(s, e).credits < s.credits <==> |Step(s, e).content| == |s.content| + 1
    ensures Step(s, e).credits > s.credits ==> Step(s, e).credits >= s.credits + MinimumCustom
    ensures |Step(s, e).content| <= |s.content| + 1
  {
    if IsRequest(e) {
      RequestCovered(s, e);
      SettledRequest(s, Cost(e), RequestOutcome(s, e));
    }
  }

  /** Over a whole session the balance plus the cost of everything stored equals the
      starting balance plus every deposit, and a non-negative balance never goes
      negative. */
  lemma {:induction false} ReplayKeepsLedger(s: AppState, events: seq<Event>)
    ensures Replay(s, events).credits + Spent(Replay(s, events).content) == s.credits + Spent(s.content) + Deposits(events)
    ensures s.credits >= 0 ==> Replay(s, events).credits >= 0
    decreases |events|
  {
    if events != [] {
      StepKeepsLedger(s, events[0]);
      ReplayKeepsLedger(Step(s, events[0]), events[1..]);
    }
  }

  /** From the first render, the balance is never negative and is always 100 plus the
      deposits minus the cost of what was generated. */
  lemma SessionLedger(events: seq<Event>)
    ensures Replay(InitialState, events).credits >= 0
    ensures Replay(InitialState, events).credits == 100 + Deposits(events) - Spent(Replay(InitialState, events).content)
  {
    ReplayKeepsLedger(InitialState, events);
  }

  /** The card details a buyer types into the payment form, as entered: Pagar is
      enabled once each sanitised field is non-empty. */
  predicate CardFilled(card: string, name: string, expiry: string, cvc: string) {
    && |card| <= CardNumberMax && |expiry| <= ExpiryMax && |cvc| <= CvcMax
    && SanitizeCardNumber(card) != [] && name != [] && SanitizeExpiry(expiry) != [] && SanitizeCvc(cvc) != []
  }

  /** The payment form mounted for the pending purchase, filled in, paid and
      completed: the page gains exactly the pending amount. */
  method PayPending(manager: CreditsManager, studio: Studio,
                    card: string, name: string, expiry: string, cvc: string)
    requires manager.Valid() && manager.showGateway && CardFilled(card, name, expiry, cvc)
    modifies manager, studio
    ensures manager.Valid() && manager.State() == Confirmed(old(manager.State()))
    ensures studio.State() == WithCredits(old(studio.State()), old(studio.credits) + old(manager.pendingAmount))
  {
    var gateway := new PaymentGateway(manager.pendingAmount, manager.pendingPrice);
    gateway.EnterCardNumber(card);
    gateway.EnterCardName(name);
    gateway.EnterExpiry(expiry);
    gateway.EnterCvc(cvc);
    gateway.BeginPay();
    gateway.CompletePay(manager, studio);
  }

  /** Typing a custom amount, pressing Recargar and paying: the page changes exactly
      as the `BuyCustom` event says, and the gateway opens only for an accepted
      amount. */
  method PurchaseCustom(manager: CreditsManager, studio: Studio, input: string,
                        card: string, name: string, expiry: string, cvc: string) returns (accepted: bool)
    requires manager.Valid() && CardFilled(card, name, expiry, cvc)
    modifies manager, studio
    ensures manager.Valid()
    ensures accepted <==> CustomAmount(input).Some?
    ensures studio.State() == Step(old(studio.State()), BuyCustom(input))
  {
    accepted := RechargeAndPay(manager, studio, input, card, name, expiry, cvc);
    PurchaseStep(old(studio.State()), BuyCustom(input));
  }

  /** The Recargar click and, for an accepted amount, the payment. */
  method RechargeAndPay(manager: CreditsManager, studio: Studio, input: string,
                        card: string, name: string, expiry: string, cvc: string) returns (accepted: bool)
    requires manager.Valid() && CardFilled(card, name, expiry, cvc)
    modifies manager, studio
    ensures manager.Valid()
    ensures accepted <==> CustomAmount(input).Some?
    ensures studio.State() == if accepted then WithCredits(old(studio.State()), old(studio.credits) + CustomAmount(input).value)
                              else old(studio.State())
  {
    manager.SetRechargeAmount(input);
    ghost var amount := CustomAmount(input);
    accepted := manager.RechargeCustom();
    if accepted {
      assert manager.State() == Opened(old(manager.State()).(rechargeAmount := input), amount.value, CustomCents(amount.value));
      PayPending(manager, studio, card, name, expiry, cvc);
    }
  }

  /** Pressing a package's Comprar button and paying: the page changes exactly as the
      `BuyPackage` event says. */
  method PurchasePackage(manager: CreditsManager, studio: Studio, i: nat,
                         card: string, name: string, expiry: string, cvc: string)
    requires manager.Valid() && i < |Packages| && !manager.isRecharging
    requires CardFilled(card, name, expiry, cvc)
    modifies manager, studio
    ensures manager.Valid()
    ensures studio.State() == Step(old(studio.State()), BuyPackage(i))
  {
    manager.BuyPackage(i);
    PayPending(manager, studio, card, name, expiry, cvc);
    PurchaseStep(old(studio.State()), BuyPackage(i));
  }

  /** A purchase event adds its deposit to the balance and changes nothing else. */
  lemma PurchaseStep(s: AppState, e: Event)
    requires e.BuyPackage? || e.BuyCustom?
    ensures Step(s, e) == WithCredits(s, s.credits + Deposit(e))
  {
  }
}
