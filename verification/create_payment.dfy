/**
 * The `createPayment` HTTPS function: validate the body and the shop
 * credentials, ask the payment provider for a session, and record the
 * session as `pending` only after the provider has answered with one.
 */
module CreatePayment {
  import opened Wrappers
  import opened JsText
  import opened Firestore
  import opened ServerPlans
  import opened AmountFormat

  datatype PaymentBody = PaymentBody(userId: Option<string>, plan: Option<string>)

  /** The shop id and secret key read from the environment. */
  datatype Credentials = Credentials(shopId: Option<string>, secretKey: Option<string>)

  /** The session-creation request sent to the provider. */
  datatype ProviderRequest = ProviderRequest(
    amountValue: string,
    currency: string,
    capture: bool,
    returnUrl: string,
    description: string,
    metadataUserId: string,
    metadataPlan: string,
    idempotenceKey: string)

  /** The provider's answer: a failure (network or HTTP error) or a new session. */
  datatype ProviderReply = ProviderFails | ProviderCreated(id: string, confirmationUrl: string)

  datatype PaymentReply =
    | Preflight
    | MethodNotAllowed
    | InvalidPayload
    | NotConfigured
    | PaymentFailed
    | PaymentCreated(confirmationUrl: string, paymentId: string)

  datatype PaymentResult = PaymentResult(store: Store, request: Option<ProviderRequest>, reply: PaymentReply)

  function StatusCode(r: PaymentReply): nat {
    match r
    case Preflight => 204
    case MethodNotAllowed => 405
    case InvalidPayload => 400
    case NotConfigured => 500
    case PaymentFailed => 500
    case PaymentCreated(_, _) => 200
  }

  const ReturnUrl := "https://socialynx.app/payments/success"

  /** `userId` and `plan` are truthy and the plan is one of the table's own keys. */
  predicate PayloadAccepted(b: PaymentBody) {
    IsTruthy(b.userId) && IsTruthy(b.plan) && IsKnownPlan(b.plan.value)
  }

  /** The guard as the handler writes it: `PLAN_PRICES[plan]` merely truthy. */
  predicate PayloadAcceptedAsWritten(b: PaymentBody) {
    IsTruthy(b.userId) && IsTruthy(b.plan) && PriceLookupTruthyAsWritten(b.plan.value)
  }

  predicate Configured(c: Credentials) {
    IsTruthy(c.shopId) && IsTruthy(c.secretKey)
  }

  /** The pending record written for a new provider session. */
  function PendingSession(userId: string, plan: string, now: int): (d: Session)
    ensures d.status == Some("pending") && d.userId == Some(userId) && d.plan == Some(plan)
    ensures d.createdAt == Some(now) && d.updatedAt.None?
  {
    Session(Some(userId), Some(plan), Some("pending"), Some(now), None)
  }

  /**
   * One request. `idempotenceKey` stands for the fresh UUID, `provider`
   * for the provider's answer and `sessionWriteOk` for whether the
   * Firestore write succeeds; `now` is the server timestamp.
   */
  function Handle(s: Store, httpMethod: string, body: PaymentBody, creds: Credentials,
                  idempotenceKey: string, provider: ProviderReply, sessionWriteOk: bool, now: int): (r: PaymentResult)
    // the provider is asked exactly when method, payload and credentials are all good
    ensures r.request.Some? <==> httpMethod == "POST" && PayloadAccepted(body) && Configured(creds)
    ensures httpMethod == "OPTIONS" ==> r.reply == Preflight
    ensures httpMethod != "OPTIONS" && httpMethod != "POST" ==> r.reply == MethodNotAllowed
    ensures httpMethod == "POST" && !PayloadAccepted(body) ==> r.reply == InvalidPayload
    ensures httpMethod == "POST" && PayloadAccepted(body) && !Configured(creds) ==> r.reply == NotConfigured
    // what is sent
    ensures r.request.Some? ==>
      var q := r.request.value;
      && q.amountValue == FormatAmount(PlanPrices[body.plan.value].amount)
      && q.currency == "RUB" && q.capture && q.returnUrl == ReturnUrl
      && q.description == PlanPrices[body.plan.value].description
      && q.metadataUserId == body.userId.value && q.metadataPlan == body.plan.value
      && q.idempotenceKey == idempotenceKey
    // success, and the one write it makes
    ensures r.reply.PaymentCreated? <==>
      r.request.Some? && provider.ProviderCreated? && IsDocId(Some(provider.id)) && sessionWriteOk
    ensures r.reply.PaymentCreated? ==>
      && r.reply == PaymentCreated(provider.confirmationUrl, provider.id)
      && r.store == s.(sessions := s.sessions[provider.id := PendingSession(body.userId.value, body.plan.value, now)])
    ensures !r.reply.PaymentCreated? ==> r.store == s
    ensures r.request.Some? && !r.reply.PaymentCreated? ==> r.reply == PaymentFailed
    ensures r.store.subscriptions == s.subscriptions
  {
    if httpMethod == "OPTIONS" then PaymentResult(s, None, Preflight)
    else if httpMethod != "POST" then PaymentResult(s, None, MethodNotAllowed)
    else if !PayloadAccepted(body) then PaymentResult(s, None, InvalidPayload)
    else if !Configured(creds) then PaymentResult(s, None, NotConfigured)
    else
      var userId := body.userId.value;
      var plan := body.plan.value;
      var price := PlanPrices[plan];
      var request := ProviderRequest(FormatAmount(price.amount), "RUB", true, ReturnUrl,
                                     price.description, userId, plan, idempotenceKey);
      match provider
      case ProviderFails => PaymentResult(s, Some(request), PaymentFailed)
      case ProviderCreated(id, url) =>
        if !IsDocId(Some(id)) || !sessionWriteOk then PaymentResult(s, Some(request), PaymentFailed)
        else
          var s' := s.(sessions := s.sessions[id := PendingSession(userId, plan, now)]);
          PaymentResult(s', Some(request), PaymentCreated(url, id))
  }

  /** Rejections (400 for the payload, 500 for missing credentials) write nothing and call no one. */
  lemma RejectionsHaveNoEffect(s: Store, httpMethod: string, body: PaymentBody, creds: Credentials,
                               key: string, provider: ProviderReply, ok: bool, now: int)
    requires httpMethod == "POST"
    requires !PayloadAccepted(body) || !Configured(creds)
    ensures var r := Handle(s, httpMethod, body, creds, key, provider, ok, now);
      && r.store == s && r.request.None?
      && StatusCode(r.reply) == (if !PayloadAccepted(body) then 400 else 500)
  {
  }

  /** Only the session with the provider's id changes; every other session is untouched. */
  lemma OtherSessionsUnchanged(s: Store, httpMethod: string, body: PaymentBody, creds: Credentials,
                               key: string, provider: ProviderReply, ok: bool, now: int, other: string)
    requires provider.ProviderCreated? ==> other != provider.id
    ensures var r := Handle(s, httpMethod, body, creds, key, provider, ok, now);
      (other in r.store.sessions <==> other in s.sessions)
      && (other in s.sessions ==> r.store.sessions[other] == s.sessions[other])
  {
  }

  /** The amount strings of the three server plans. */
  lemma PlanAmountStrings()
    ensures FormatAmount(PlanPrices["plan_monthly"].amount) == "199.00"
    ensures FormatAmount(PlanPrices["plan_quarterly"].amount) == "499.00"
    ensures FormatAmount(PlanPrices["plan_yearly"].amount) == "1499.00"
  {
    assert PlanPrices["plan_monthly"].amount == 19900;
    assert PlanPrices["plan_quarterly"].amount == 49900;
    assert PlanPrices["plan_yearly"].amount == 149900;
    DecimalSteps();
  }

  lemma DecimalSteps()
    ensures FormatAmount(19900) == "199.00"
    ensures FormatAmount(49900) == "499.00"
    ensures FormatAmount(149900) == "1499.00"
  {
    assert DigitChar(0) == '0' && DigitChar(4) == '4' && DigitChar(9) == '9';
    assert Decimal(1) == "1" && Decimal(4) == "4";
    assert Decimal(14) == "14" && Decimal(19) == "19" && Decimal(49) == "49";
    assert Decimal(149) == "149";
    assert Decimal(199) == "199";
    assert Decimal(499) == "499";
    assert Decimal(1499) == "1499";
  }

  /** The as-written guard accepts a payload the own-key guard refuses. */
  lemma InheritedPlanNameAcceptedAsWritten()
    ensures PayloadAcceptedAsWritten(PaymentBody(Some("u1"), Some("toString")))
    ensures !PayloadAccepted(PaymentBody(Some("u1"), Some("toString")))
    ensures forall b :: PayloadAccepted(b) ==> PayloadAcceptedAsWritten(b)
  {
  }
}
