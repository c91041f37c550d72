/**
 * The subscription context: the per-session cache of the user's subscription,
 * plan limits and usage counters, the entitlement check that gates every tool,
 * the metered increment, the refresh from storage and the sign-out reset.
 *
 * Every remote call (the two table queries, the `increment_usage` procedure and
 * the checkout endpoint) is replaced by its outcome, passed in as a parameter;
 * the wall clock is the parameter `now`. Each method runs to completion.
 */
module Subscriptions {
  import opened Wrappers
  import opened Catalog

  type UserId = string

  datatype Status = Active | Inactive | Canceled | Expired

  /** The cached subscription; timestamps are integers (milliseconds since the epoch). */
  datatype Subscription = Subscription(
    id: string,
    userId: UserId,
    planType: PlanType,
    status: Status,
    currentPeriodEnd: int,
    createdAt: int)

  /** A row of the `user_subscriptions` table. */
  datatype SubscriptionRow = SubscriptionRow(
    id: string,
    userId: UserId,
    planType: PlanType,
    status: Status,
    currentPeriodEnd: int,
    createdAt: int)

  /**
   * A row of the `user_usage` table: column name to stored count. A column that
   * is missing, null or 0 (every falsy value) is absent from the map.
   */
  type UsageRow = map<string, nat>

  /** An error returned by the storage client or thrown by `fetch`. */
  datatype RemoteError = RemoteError(code: string, message: string, isErrorInstance: bool)

  /** `{ data, error }` as the storage client returns it. */
  datatype QueryResult<T> = QueryResult(data: Option<T>, error: Option<RemoteError>)

  /** The outcome of `fetch("/api/create-checkout")`. */
  datatype CheckoutResponse =
    | Responded(ok: bool, checkoutUrl: Option<string>)
    | NetworkFailure(failure: RemoteError)

  /** The arguments of the `increment_usage` remote procedure. */
  datatype IncrementRequest = IncrementRequest(userIdParam: UserId, resourceColumn: string)

  /** The JSON body posted to the checkout endpoint. */
  datatype CheckoutRequest = CheckoutRequest(planType: string, amount: nat, userId: UserId)

  /** The error code the storage client uses for "no rows returned". */
  const NoRowsCode: string := "PGRST116"

  const CheckoutFailedMessage: string := "Failed to create checkout session"

  /** What lands in the `error` slot: `err instanceof Error ? err.message : "Unknown error"`. */
  function ErrorMessage(e: RemoteError): string
  {
    if e.isErrorInstance then e.message else "Unknown error"
  }

  /** The cached copy of a subscription row. */
  function ToSubscription(row: SubscriptionRow): Subscription
  {
    Subscription(row.id, row.userId, row.planType, row.status, row.currentPeriodEnd, row.createdAt)
  }

  /** The stored count of a column, `row.column || 0`. */
  function StoredCount(row: UsageRow, column: string): nat
  {
    if column in row then row[column] else 0
  }

  /**
   * The usage record built from a `user_usage` row. The refresh spells the
   * column names out itself; the contract checks that they are the columns
   * `dbColumnMap` gives the increment.
   */
  function RowToUsage(row: UsageRow): (u: PerResource<nat>)
    ensures forall r :: u.Get(r) == StoredCount(row, UsageColumn(r))
  {
    PerResource(
      StoredCount(row, "mercado_publico_alvo"),
      StoredCount(row, "funil_de_busca"),
      StoredCount(row, "palavras_chave"),
      StoredCount(row, "texto_seo_lp"),
      StoredCount(row, "texto_seo_produto"),
      StoredCount(row, "texto_seo_blog"),
      StoredCount(row, "pautas_blog"),
      StoredCount(row, "meta_dados"))
  }

  /**
   * What the client takes `increment_usage` to do to the stored row: add one to
   * the named column, a missing value counting as 0. The procedure's own body is
   * not part of this model.
   */
  function ServerIncrement(row: UsageRow, column: string): (row': UsageRow)
    ensures StoredCount(row', column) == StoredCount(row, column) + 1
    ensures forall c :: c != column ==> StoredCount(row', c) == StoredCount(row, c)
  {
    row[column := StoredCount(row, column) + 1]
  }

  /**
   * The optimistic local increment agrees with the server: incrementing the
   * column `dbColumnMap` names for `r` and reading the row back gives the old
   * counters with exactly `r` one higher.
   */
  lemma IncrementThenRefresh(row: UsageRow, r: Resource)
    ensures RowToUsage(ServerIncrement(row, UsageColumn(r)))
         == RowToUsage(row).With(r, RowToUsage(row).Get(r) + 1)
  {
  }

  /** The checkout request body for a plan: the plan's key and its price. */
  function CheckoutRequestFor(plan: PlanType, user: UserId): CheckoutRequest
  {
    CheckoutRequest(PlanKey(plan), PlanPrice(plan), user)
  }

  /** The state the subscription provider keeps for the signed-in session. */
  class SubscriptionContext {
    var user: Option<UserId>
    var subscription: Option<Subscription>
    var loading: bool
    var error: Option<string>
    var usage: PerResource<nat>
    var planLimits: PerResource<Limit>
    /** Every `increment_usage` call issued, in order. */
    var incrementRequests: seq<IncrementRequest>
    /** Every checkout request posted, in order. */
    var checkoutRequests: seq<CheckoutRequest>

    /** The provider's initial state, before the user effect first runs. */
    constructor (user: Option<UserId>)
      ensures this.user == user && subscription == None
      ensures loading && error == None
      ensures usage == ZeroUsage() && planLimits == PlanLimits(Solo)
      ensures incrementRequests == [] && checkoutRequests == []
    {
      this.user := user;
      subscription := None;
      loading := true;
      error := None;
      usage := ZeroUsage();
      planLimits := PlanLimits(Solo);
      incrementRequests := [];
      checkoutRequests := [];
    }

    /**
     * checkUsageAvailability: denied without an active subscription or once the
     * period has ended (strictly after its end); otherwise allowed exactly while
     * the cached count is below the cached limit.
     */
    function CheckUsageAvailability(resource: Resource, now: int): (ok: bool)
      reads this
      ensures subscription.None? ==> !ok
      ensures subscription.Some? && subscription.value.status != Active ==> !ok
      ensures subscription.Some? && now > subscription.value.currentPeriodEnd ==> !ok
      ensures subscription.Some? && subscription.value.status == Active && now <= subscription.value.currentPeriodEnd ==>
                (ok <==> planLimits.Get(resource).Admits(usage.Get(resource)))
      ensures ok && planLimits.Get(resource).Finite? ==> usage.Get(resource) + 1 <= planLimits.Get(resource).n
    {
      if subscription.None? || subscription.value.status != Active then false
      else if now > subscription.value.currentPeriodEnd then false
      else planLimits.Get(resource).Admits(usage.Get(resource))
    }

    /**
     * incrementUsage: refused (false, counters untouched, no remote call) without
     * a user or subscription, or when the check denies; otherwise the remote
     * increment runs, and on its success exactly the counter of `resource` goes up
     * by one; on its failure the error is recorded and nothing else changes.
     */
    method IncrementUsage(resource: Resource, now: int, rpcError: Option<RemoteError>) returns (ok: bool)
      modifies this`usage, this`error, this`incrementRequests
      ensures var gate := old(user).Some? && old(subscription).Some? && old(CheckUsageAvailability(resource, now));
        && (!gate ==> !ok && usage == old(usage) && error == old(error) && incrementRequests == old(incrementRequests))
        && (gate ==> incrementRequests == old(incrementRequests) + [IncrementRequest(user.value, UsageColumn(resource))])
        && (gate && rpcError.Some? ==> !ok && usage == old(usage) && error == Some(ErrorMessage(rpcError.value)))
        && (gate && rpcError.None? ==> ok && error == old(error))
      ensures ok <==> old(user).Some? && old(CheckUsageAvailability(resource, now)) && rpcError.None?
      ensures ok ==> usage.Get(resource) == old(usage.Get(resource)) + 1
      ensures forall q :: q != resource ==> usage.Get(q) == old(usage.Get(q))
      ensures !ok ==> usage == old(usage)
      ensures ok && planLimits.Get(resource).Finite? ==> usage.Get(resource) <= planLimits.Get(resource).n
    {
      if user.None? || subscription.None? {
        return false;
      }
      if !CheckUsageAvailability(resource, now) {
        return false;
      }
      incrementRequests := incrementRequests + [IncrementRequest(user.value, UsageColumn(resource))];
      if rpcError.Some? {
        error := Some(ErrorMessage(rpcError.value));
        return false;
      }
      usage := usage.With(resource, usage.Get(resource) + 1);
      return true;
    }

    /**
     * fetchSubscriptionStatus: a no-op without a user. Otherwise any error from
     * the subscription query (including "no rows") aborts before usage is read;
     * a returned row replaces the subscription and selects its plan's limits,
     * no row clears the subscription; a usage error other than "no rows" aborts
     * after that; a usage row replaces every counter, no usage row keeps them.
     * Every error is recorded; `loading` ends false.
     */
    method FetchSubscriptionStatus(subQuery: QueryResult<SubscriptionRow>, usageQuery: QueryResult<UsageRow>)
      modifies this`subscription, this`planLimits, this`usage, this`error, this`loading
      ensures old(user).None? ==>
        subscription == old(subscription) && planLimits == old(planLimits) && usage == old(usage)
        && error == old(error) && loading == old(loading)
      ensures old(user).Some? ==> !loading
      ensures old(user).Some? && subQuery.error.Some? ==>
        subscription == old(subscription) && planLimits == old(planLimits) && usage == old(usage)
        && error == Some(ErrorMessage(subQuery.error.value))
      ensures old(user).Some? && subQuery.error.None? ==>
        && subscription == (if subQuery.data.Some? then Some(ToSubscription(subQuery.data.value)) else None)
        && planLimits == (if subQuery.data.Some? then PlanLimits(subQuery.data.value.planType) else old(planLimits))
      ensures old(user).Some? && subQuery.error.None? && usageQuery.error.Some? && usageQuery.error.value.code != NoRowsCode ==>
        usage == old(usage) && error == Some(ErrorMessage(usageQuery.error.value))
      ensures old(user).Some? && subQuery.error.None? && (usageQuery.error.None? || usageQuery.error.value.code == NoRowsCode) ==>
        && usage == (if usageQuery.data.Some? then RowToUsage(usageQuery.data.value) else old(usage))
        && error == old(error)
    {
      if user.None? {
        return;
      }
      loading := true;
      if subQuery.error.Some? {
        error := Some(ErrorMessage(subQuery.error.value));
        loading := false;
        return;
      }
      if subQuery.data.Some? {
        subscription := Some(ToSubscription(subQuery.data.value));
        planLimits := PlanLimits(subQuery.data.value.planType);
      } else {
        subscription := None;
      }
      if usageQuery.error.Some? && usageQuery.error.value.code != NoRowsCode {
        error := Some(ErrorMessage(usageQuery.error.value));
        loading := false;
        return;
      }
      if usageQuery.data.Some? {
        usage := RowToUsage(usageQuery.data.value);
      }
      loading := false;
    }

    /**
     * The effect on `user`: a signed-in user triggers a refresh; signing out
     * clears the subscription and zeroes every counter, leaving the limits,
     * the error slot and `loading` as they were.
     */
    method OnUserChange(newUser: Option<UserId>, subQuery: QueryResult<SubscriptionRow>, usageQuery: QueryResult<UsageRow>)
      modifies this`user, this`subscription, this`planLimits, this`usage, this`error, this`loading
      ensures user == newUser
      ensures newUser.None? ==>
        && subscription == None && usage == ZeroUsage()
        && planLimits == old(planLimits) && error == old(error) && loading == old(loading)
      ensures newUser.Some? ==> !loading
      ensures newUser.Some? && subQuery.error.Some? ==>
        subscription == old(subscription) && planLimits == old(planLimits) && usage == old(usage)
        && error == Some(ErrorMessage(subQuery.error.value))
      ensures newUser.Some? && subQuery.error.None? ==>
        && subscription == (if subQuery.data.Some? then Some(ToSubscription(subQuery.data.value)) else None)
        && planLimits == (if subQuery.data.Some? then PlanLimits(subQuery.data.value.planType) else old(planLimits))
      ensures newUser.Some? && subQuery.error.None? && usageQuery.error.Some? && usageQuery.error.value.code != NoRowsCode ==>
        usage == old(usage) && error == Some(ErrorMessage(usageQuery.error.value))
      ensures newUser.Some? && subQuery.error.None? && (usageQuery.error.None? || usageQuery.error.value.code == NoRowsCode) ==>
        && usage == (if usageQuery.data.Some? then RowToUsage(usageQuery.data.value) else old(usage))
        && error == old(error)
    {
      user := newUser;
      if newUser.Some? {
        FetchSubscriptionStatus(subQuery, usageQuery);
      } else {
        subscription := None;
        usage := ZeroUsage();
      }
    }

    /**
     * initiateMercadoPagoCheckout: without a user, no request and no URL.
     * Otherwise posts the plan with its price from planPrices; returns the URL
     * of a successful response, records the error of a failed one, and ends
     * with `loading` false.
     */
    method InitiateCheckout(plan: PlanType, response: CheckoutResponse) returns (url: Option<string>)
      modifies this`loading, this`error, this`checkoutRequests
      ensures old(user).None? ==>
        url == None && loading == old(loading) && error == old(error) && checkoutRequests == old(checkoutRequests)
      ensures old(user).Some? ==>
        && !loading
        && checkoutRequests == old(checkoutRequests) + [CheckoutRequestFor(plan, old(user).value)]
      ensures old(user).Some? && response.Responded? && response.ok ==>
        url == response.checkoutUrl && error == old(error)
      ensures old(user).Some? && response.Responded? && !response.ok ==>
        url == None && error == Some(CheckoutFailedMessage)
      ensures old(user).Some? && response.NetworkFailure? ==>
        url == None && error == Some(ErrorMessage(response.failure))
    {
      if user.None? {
        return None;
      }
      loading := true;
      checkoutRequests := checkoutRequests + [CheckoutRequestFor(plan, user.value)];
      match response {
        case NetworkFailure(e) =>
          error := Some(ErrorMessage(e));
          url := None;
        case Responded(responseOk, checkoutUrl) =>
          if !responseOk {
            error := Some(CheckoutFailedMessage);
            url := None;
          } else {
            url := checkoutUrl;
          }
      }
      loading := false;
    }
  }

  /**
   * An example on the solo plan and the keywords tool: quota 20, 19 used; the check allows one
   * more call, the successful increment reaches 20, and the check then denies.
   */
  method SoloKeywordsScenario(now: int)
  {
    var ctx := new SubscriptionContext(Some("u1"));
    var row := SubscriptionRow("s1", "u1", Solo, Active, now + 1000, now - 1000);
    var usageRow: UsageRow := map[UsageColumn(PalavrasChave) := 19];
    ctx.FetchSubscriptionStatus(QueryResult(Some(row), None), QueryResult(Some(usageRow), None));
    assert ctx.usage.Get(PalavrasChave) == 19;
    assert ctx.planLimits.Get(PalavrasChave) == Finite(20);
    assert ctx.CheckUsageAvailability(PalavrasChave, now);
    var ok := ctx.IncrementUsage(PalavrasChave, now, None);
    assert ok && ctx.usage.Get(PalavrasChave) == 20;
    assert !ctx.CheckUsageAvailability(PalavrasChave, now);
  }
}
