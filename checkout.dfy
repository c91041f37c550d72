/**
 * The checkout form: the plan name and price it displays (getPlanDetails) and
 * what handleCheckout does with the URL the subscription context returns.
 */
module Checkout {
  import opened Wrappers
  import opened Catalog
  import opened Subscriptions

  datatype PlanDetails = PlanDetails(name: string, price: nat)

  const UnknownPlan: PlanDetails := PlanDetails("Desconhecido", 0)

  const RedirectFailedMessage: string := "Erro ao iniciar o pagamento. Tente novamente."

  /**
   * getPlanDetails over the plan's string form: the three known plans get their
   * name and a positive price, anything else falls to the unknown-plan default.
   */
  function GetPlanDetails(planType: string): (details: PlanDetails)
    ensures planType == "solo" ==> details == PlanDetails("Solo", 97)
    ensures planType == "discovery" ==> details == PlanDetails("Discovery", 297)
    ensures planType == "escala" ==> details == PlanDetails("Escala", 997)
    ensures details.price > 0 <==> planType in {"solo", "discovery", "escala"}
    ensures planType !in {"solo", "discovery", "escala"} ==> details == UnknownPlan
  {
    match planType
    case "solo" => PlanDetails("Solo", 97)
    case "discovery" => PlanDetails("Discovery", 297)
    case "escala" => PlanDetails("Escala", 997)
    case _ => UnknownPlan
  }

  /**
   * For every well-typed plan the default is never taken, and the price shown
   * is the amount the checkout request charges for that plan.
   */
  lemma DisplayedPriceIsCharged(plan: PlanType, user: UserId)
    ensures GetPlanDetails(PlanKey(plan)) != UnknownPlan
    ensures GetPlanDetails(PlanKey(plan)).price == CheckoutRequestFor(plan, user).amount
  {
  }

  /** The form's own state: its spinner, the browser location and the toasts shown. */
  class CheckoutForm {
    const planType: PlanType
    var loading: bool
    var location: Option<string>
    var toasts: seq<string>

    constructor (planType: PlanType)
      ensures this.planType == planType && !loading && location == None && toasts == []
    {
      this.planType := planType;
      loading := false;
      location := None;
      toasts := [];
    }

    /**
     * handleCheckout: asks the context for a checkout URL; a non-empty URL
     * becomes the browser location, an absent or empty one shows an error
     * toast instead. The spinner is off afterwards.
     */
    method HandleCheckout(ctx: SubscriptionContext, response: CheckoutResponse)
      modifies this`loading, this`location, this`toasts, ctx`loading, ctx`error, ctx`checkoutRequests
      ensures !loading
      ensures old(ctx.user).None? ==>
        ctx.loading == old(ctx.loading) && ctx.error == old(ctx.error) && ctx.checkoutRequests == old(ctx.checkoutRequests)
      ensures old(ctx.user).Some? ==>
        && !ctx.loading
        && ctx.checkoutRequests == old(ctx.checkoutRequests) + [CheckoutRequestFor(planType, old(ctx.user).value)]
        && ctx.error == (match response
                         case Responded(ok, _) => if ok then old(ctx.error) else Some(CheckoutFailedMessage)
                         case NetworkFailure(e) => Some(ErrorMessage(e)))
      ensures var url := if old(ctx.user).Some? && response.Responded? && response.ok then response.checkoutUrl else None;
        && (url.Some? && url.value != "" ==> location == url && toasts == old(toasts))
        && (!(url.Some? && url.value != "") ==> location == old(location) && toasts == old(toasts) + [RedirectFailedMessage])
    {
      loading := true;
      var checkoutUrl := ctx.InitiateCheckout(planType, response);
      if checkoutUrl.Some? && checkoutUrl.value != "" {
        location := checkoutUrl;
      } else {
        toasts := toasts + [RedirectFailedMessage];
      }
      loading := false;
    }
  }
}
