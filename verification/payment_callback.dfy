/**
 * The `paymentCallback` HTTPS function, the payment provider's webhook.
 * It merge-writes the notified status onto the payment session and, for a
 * `succeeded` payment whose metadata names a user and a known plan,
 * merge-writes a `pro` subscription expiring a fixed number of days after
 * `now`. Store failures are oracle flags; `now` is the server clock.
 */
module PaymentCallback {
  import opened Wrappers
  import opened JsText
  import opened Firestore
  import opened ServerPlans

  datatype Metadata = Metadata(userId: Option<string>, plan: Option<string>)

  datatype PaymentObject = PaymentObject(id: Option<string>, status: Option<string>, metadata: Option<Metadata>)

  /** The JSON body; `event` and `object` (here `payment`) may be missing. */
  datatype WebhookBody = WebhookBody(event: Option<string>, payment: Option<PaymentObject>)

  /** 400 `Invalid payload`, 500 `Webhook error`, or 200 `{received: true}`. */
  datatype WebhookReply = InvalidPayload | WebhookError | Received

  function StatusCode(r: WebhookReply): nat {
    match r
    case InvalidPayload => 400
    case WebhookError => 500
    case Received => 200
  }

  predicate WellFormed(b: WebhookBody) {
    IsTruthy(b.event) && b.payment.Some?
  }

  /** The session write can be issued: the id names a document and the status is defined. */
  predicate SessionWritable(p: PaymentObject) {
    IsDocId(p.id) && p.status.Some?
  }

  /** The patch the grant merges: `pro`, the plan, `updatedAt = now`, `expiresAt = now + days`. */
  function GrantPatch(plan: string, now: int): (patch: SubscriptionPatch)
    ensures patch.status == Pro && patch.planId == Some(plan) && patch.updatedAt == now
    ensures patch.expiresAt == Some(now + GrantDays(plan) * MsPerDay)
    ensures patch.expiresAt.value > patch.updatedAt
  {
    SubscriptionPatch(Pro, Some(plan), now, Some(now + GrantDays(plan) * MsPerDay))
  }

  /**
   * The user and patch of the entitlement grant a `succeeded` payment with
   * this metadata earns, if any: the user id must be truthy and the plan
   * one of `PLAN_PRICES`' own keys.
   */
  function Grant(metadata: Option<Metadata>, now: int): (g: Option<(string, SubscriptionPatch)>)
    ensures g.Some? <==>
      metadata.Some? && IsTruthy(metadata.value.userId) && IsTruthy(metadata.value.plan)
      && IsKnownPlan(metadata.value.plan.value)
    ensures g.Some? ==>
      g.value.0 == metadata.value.userId.value && g.value.1 == GrantPatch(metadata.value.plan.value, now)
  {
    var m := metadata.GetOr(Metadata(None, None));
    if IsTruthy(m.userId) && IsTruthy(m.plan) && IsKnownPlan(m.plan.value) then
      Some((m.userId.value, GrantPatch(m.plan.value, now)))
    else None
  }

  /** The grant as written: `PLAN_PRICES[plan]` is only checked for truthiness. */
  function GrantAsWritten(metadata: Option<Metadata>, now: int): (g: Option<(string, SubscriptionPatch)>)
    ensures g.Some? <==>
      metadata.Some? && IsTruthy(metadata.value.userId) && IsTruthy(metadata.value.plan)
      && PriceLookupTruthyAsWritten(metadata.value.plan.value)
    ensures Grant(metadata, now).Some? ==> g == Grant(metadata, now)
  {
    var m := metadata.GetOr(Metadata(None, None));
    if IsTruthy(m.userId) && IsTruthy(m.plan) && PriceLookupTruthyAsWritten(m.plan.value) then
      Some((m.userId.value, GrantPatch(m.plan.value, now)))
    else None
  }

  /** A `succeeded` payment whose plan is `"toString"` earns a year of `pro` as written, nothing once corrected. */
  lemma InheritedPlanNameGrantsAsWritten(now: int)
    ensures var m := Some(Metadata(Some("u1"), Some("toString")));
      && GrantAsWritten(m, now).Some?
      && GrantAsWritten(m, now).value.1.expiresAt == Some(now + 365 * MsPerDay)
      && Grant(m, now).None?
  {
  }

  /** The store after one delivery, with the reply. */
  datatype Delivered = Delivered(store: Store, reply: WebhookReply)

  function Handle(s: Store, body: WebhookBody, now: int, sessionWriteOk: bool, subscriptionWriteOk: bool): (d: Delivered)
    ensures !WellFormed(body) ==> d == Delivered(s, InvalidPayload)
    ensures d.reply == InvalidPayload <==> !WellFormed(body)
    ensures WellFormed(body) && !(SessionWritable(body.payment.value) && sessionWriteOk) ==>
      d == Delivered(s, WebhookError)
    ensures WellFormed(body) && SessionWritable(body.payment.value) && sessionWriteOk ==>
      var id := body.payment.value.id.value;
      d.store.sessions == s.sessions[id := MergeSessionStatus(Lookup(s.sessions, id), body.payment.value.status.value, now)]
    // once the session is written: 500 only when a due grant's write throws, otherwise 200
    ensures WellFormed(body) && SessionWritable(body.payment.value) && sessionWriteOk ==>
      (d.reply == WebhookError <==> DeliveryGrant(body, now).Some? && !subscriptionWriteOk)
      && (d.reply == Received <==> DeliveryGrant(body, now).None? || subscriptionWriteOk)
  {
    if !WellFormed(body) then Delivered(s, InvalidPayload)
    else
      var p := body.payment.value;
      if !SessionWritable(p) || !sessionWriteOk then Delivered(s, WebhookError)
      else
        var id := p.id.value;
        var s1 := s.(sessions := s.sessions[id := MergeSessionStatus(Lookup(s.sessions, id), p.status.value, now)]);
        if p.status != Some("succeeded") then Delivered(s1, Received)
        else
          match Grant(p.metadata, now)
          case None => Delivered(s1, Received)
          case Some((userId, patch)) =>
            if !subscriptionWriteOk then Delivered(s1, WebhookError)
            else
              var sub := MergeSubscription(Lookup(s1.subscriptions, userId), patch);
              Delivered(s1.(subscriptions := s1.subscriptions[userId := sub]), Received)
  }

  /** The grant a delivery makes, if the body is well formed, the payment succeeded and the metadata qualifies. */
  function DeliveryGrant(body: WebhookBody, now: int): (g: Option<(string, SubscriptionPatch)>) {
    if WellFormed(body) && body.payment.value.status == Some("succeeded") then Grant(body.payment.value.metadata, now)
    else None
  }

  /**
   * The subscriptions change only through a grant: they change exactly when
   * the session write succeeded, the payment succeeded, the metadata
   * qualifies and the subscription write succeeded; the reply is 200 in
   * every other case once the session write has gone through.
   */
  lemma SubscriptionWrittenOnlyOnGrant(s: Store, body: WebhookBody, now: int, ok1: bool, ok2: bool)
    ensures var d := Handle(s, body, now, ok1, ok2);
      var written := WellFormed(body) && SessionWritable(body.payment.value) && ok1
                     && DeliveryGrant(body, now).Some? && ok2;
      && (written ==>
            var g := DeliveryGrant(body, now).value;
            d.store.subscriptions == s.subscriptions[g.0 := Subscription(Pro, g.1.planId, now, g.1.expiresAt)])
      && (!written ==> d.store.subscriptions == s.subscriptions)
      && (WellFormed(body) && SessionWritable(body.payment.value) && ok1 && DeliveryGrant(body, now).None? ==>
            d.reply == Received)
  {
  }

  /** A malformed body (no `event` or no `object`) is answered 400 and writes nothing. */
  lemma MalformedWritesNothing(s: Store, body: WebhookBody, now: int, ok1: bool, ok2: bool)
    requires !WellFormed(body)
    ensures Handle(s, body, now, ok1, ok2).store == s
    ensures StatusCode(Handle(s, body, now, ok1, ok2).reply) == 400
  {
  }

  /**
   * A processed delivery touches only its own session, and only its
   * `status` and `updatedAt`: `userId`, `plan` and `createdAt` survive.
   */
  lemma SessionMergeFrame(s: Store, body: WebhookBody, now: int, ok1: bool, ok2: bool, other: string)
    requires WellFormed(body) && SessionWritable(body.payment.value) && ok1
    ensures var d := Handle(s, body, now, ok1, ok2);
      var id := body.payment.value.id.value;
      && id in d.store.sessions
      && d.store.sessions[id].status == body.payment.value.status
      && d.store.sessions[id].updatedAt == Some(now)
      && (id in s.sessions ==>
            && d.store.sessions[id].userId == s.sessions[id].userId
            && d.store.sessions[id].plan == s.sessions[id].plan
            && d.store.sessions[id].createdAt == s.sessions[id].createdAt)
      && (other != id ==> Lookup(d.store.sessions, other) == Lookup(s.sessions, other))
  {
  }

  /** Redelivering the same notification at the same `now` changes nothing more. */
  lemma RedeliveryIdempotent(s: Store, body: WebhookBody, now: int, ok1: bool, ok2: bool)
    ensures var d1 := Handle(s, body, now, ok1, ok2);
      Handle(d1.store, body, now, ok1, ok2) == d1
  {
  }

  /**
   * A later redelivery resets the expiry to the later `now` plus the
   * plan's days; it does not add to the expiry already stored.
   */
  lemma RedeliveryLaterResets(s: Store, body: WebhookBody, now1: int, now2: int)
    requires WellFormed(body) && SessionWritable(body.payment.value)
    requires DeliveryGrant(body, now1).Some?
    ensures var d1 := Handle(s, body, now1, true, true);
      var d2 := Handle(d1.store, body, now2, true, true);
      var u := DeliveryGrant(body, now1).value.0;
      var plan := body.payment.value.metadata.value.plan.value;
      && d1.store.subscriptions[u].expiresAt == Some(now1 + GrantDays(plan) * MsPerDay)
      && d2.store.subscriptions[u].expiresAt == Some(now2 + GrantDays(plan) * MsPerDay)
      && d2.store.subscriptions[u].updatedAt == now2
  {
  }

  /**
   * The subscription a grant leaves depends only on `now` and the plan,
   * whatever the user's stored subscription was.
   */
  lemma GrantIgnoresPriorSubscription(s1: Store, s2: Store, body: WebhookBody, now: int)
    requires WellFormed(body) && SessionWritable(body.payment.value)
    requires DeliveryGrant(body, now).Some?
    ensures var u := DeliveryGrant(body, now).value.0;
      Handle(s1, body, now, true, true).store.subscriptions[u]
        == Handle(s2, body, now, true, true).store.subscriptions[u]
  {
  }

  /** Two deliveries for one payment: the session ends with the status of the last one. */
  lemma LastStatusWins(s: Store, b1: WebhookBody, b2: WebhookBody, now1: int, now2: int)
    requires WellFormed(b1) && SessionWritable(b1.payment.value)
    requires WellFormed(b2) && SessionWritable(b2.payment.value)
    requires b1.payment.value.id == b2.payment.value.id
    ensures var d1 := Handle(s, b1, now1, true, true);
      var d2 := Handle(d1.store, b2, now2, true, true);
      var id := b2.payment.value.id.value;
      && d2.store.sessions[id].status == b2.payment.value.status
      && d2.store.sessions[id].updatedAt == Some(now2)
  {
  }

  /**
   * Reset semantics can shorten an entitlement: a monthly payment notified
   * right after a yearly one leaves the user with thirty days.
   */
  lemma LaterMonthlyShortensYearly(s: Store, now: int)
    ensures var yearly := WebhookBody(Some("payment.succeeded"),
              Some(PaymentObject(Some("pay_y"), Some("succeeded"), Some(Metadata(Some("u1"), Some("plan_yearly"))))));
      var monthly := WebhookBody(Some("payment.succeeded"),
              Some(PaymentObject(Some("pay_m"), Some("succeeded"), Some(Metadata(Some("u1"), Some("plan_monthly"))))));
      var d1 := Handle(s, yearly, now, true, true);
      var d2 := Handle(d1.store, monthly, now + 1, true, true);
      && d1.store.subscriptions["u1"].expiresAt == Some(now + 365 * MsPerDay)
      && d2.store.subscriptions["u1"].expiresAt == Some(now + 1 + 30 * MsPerDay)
      && d2.store.subscriptions["u1"].expiresAt.value < d1.store.subscriptions["u1"].expiresAt.value
  {
  }
}
