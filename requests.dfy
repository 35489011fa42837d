/** What the three generation screens have in common: why a request is refused before
    anything is sent, how a finished request ends, and what it does to the ledger and
    the store. */
module Requests {
  import opened Content
  import opened Responses
  import opened Index

  /** The refusals, in the order the screens check them. */
  datatype Rejection = EmptyInput | MissingEndpoint | InsufficientCredits

  /** A request either never starts, starts and fails, or produces one item. */
  datatype Outcome = Rejected(reason: Rejection) | Failed(notice: Notice) | Succeeded(item: ContentItem)

  /** The effect of a finished request on the page: on success the balance is debited
      by `cost` first and then the item is added; otherwise nothing changes. */
  function Settle(s: AppState, cost: nat, o: Outcome): (r: AppState)
    ensures r.activeTab == s.activeTab
    ensures !o.Succeeded? ==> r == s
    ensures o.Succeeded? ==> r.credits == s.credits - cost && r.content == [o.item] + s.content
  {
    if o.Succeeded? then WithItem(WithCredits(s, s.credits - cost), o.item) else s
  }
}
