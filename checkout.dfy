/** The one rule of the checkout UI extension: block the buyer's progress when
    the platform allows blocking and the hook reports errors. */
module CheckoutExtension {
  import opened Carts
  import CarbHook

  const BlockReason: string := "Shipping restrictions"

  datatype Intercept = Block(reason: string) | Allow

  function BuyerJourneyIntercept(canBlockProgress: bool, hasErrors: bool): (r: Intercept)
    ensures r.Block? <==> canBlockProgress && hasErrors
    ensures r.Block? ==> r.reason == BlockReason
  {
    if canBlockProgress && hasErrors then Block(BlockReason) else Allow
  }

  /** Once the errors of a failed tag query on a non-empty cart are stored,
      progress is blocked wherever blocking is possible: the check fails
      closed, not open. */
  lemma FailedFetchBlocks(cartLines: seq<CarbHook.CartLineInput>, shipping: Option<CarbHook.ShippingAddress>)
    requires cartLines != []
    ensures BuyerJourneyIntercept(true, CarbHook.HasErrors(
      CarbHook.ValidateCart(Some(cartLines), shipping, CarbHook.FetchFailed))).Block?
  {
  }
}
