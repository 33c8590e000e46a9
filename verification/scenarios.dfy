/**
 * End-to-end runs across the server handlers and the client resolver:
 * purchase, confirmation, entitlement until expiry, and a cancellation.
 */
module Scenarios {
  import opened Wrappers
  import opened Firestore
  import opened ServerPlans
  import CreatePayment
  import PaymentCallback
  import SubscriptionService
  import MainScreen
  import DailyLimit
  import JsText

  const Creds := CreatePayment.Credentials(Some("shop"), Some("secret"))

  function SucceededBody(id: string, userId: string, plan: string): PaymentCallback.WebhookBody {
    PaymentCallback.WebhookBody(Some("payment.succeeded"),
      Some(PaymentCallback.PaymentObject(Some(id), Some("succeeded"),
        Some(PaymentCallback.Metadata(Some(userId), Some(plan))))))
  }

  /**
   * A monthly purchase by `u1`: the provider's session `pay_1` is recorded
   * as pending; its `succeeded` notification marks it succeeded (keeping
   * user, plan and creation time) and grants `pro` for thirty days, which
   * the client sees until the expiry instant and not a millisecond after.
   */
  lemma PurchaseThenConfirm(s: Store, key: string, created: int, paid: int, t: int)
    ensures
      var a := CreatePayment.Handle(s, "POST", CreatePayment.PaymentBody(Some("u1"), Some("plan_monthly")), Creds,
                                    key, CreatePayment.ProviderCreated("pay_1", "https://pay/confirm"), true, created);
      var b := PaymentCallback.Handle(a.store, SucceededBody("pay_1", "u1", "plan_monthly"), paid, true, true);
      var expiry := paid + 30 * MsPerDay;
      && a.reply == CreatePayment.PaymentCreated("https://pay/confirm", "pay_1")
      && a.store.sessions["pay_1"] == Session(Some("u1"), Some("plan_monthly"), Some("pending"), Some(created), None)
      && b.reply == PaymentCallback.Received
      && b.store.sessions["pay_1"] == Session(Some("u1"), Some("plan_monthly"), Some("succeeded"), Some(created), Some(paid))
      && b.store.subscriptions["u1"] == Subscription(Pro, Some("plan_monthly"), paid, Some(expiry))
      && (paid <= t <= expiry ==>
            SubscriptionService.GetSubscriptionStatus(b.store.subscriptions, "u1", t).Status() == Pro)
      && (t > expiry ==>
            SubscriptionService.GetSubscriptionStatus(b.store.subscriptions, "u1", t).Status() == Free)
  {
  }

  /** A cancellation without metadata updates the session and grants nothing. */
  lemma CancellationGrantsNothing(s: Store, now: int)
    ensures
      var body := PaymentCallback.WebhookBody(Some("payment.canceled"),
                    Some(PaymentCallback.PaymentObject(Some("pay_2"), Some("canceled"), None)));
      var d := PaymentCallback.Handle(s, body, now, true, true);
      && d.reply == PaymentCallback.Received
      && d.store.sessions["pay_2"].status == Some("canceled")
      && d.store.subscriptions == s.subscriptions
  {
  }

  /**
   * After a confirmed purchase, the buyer's presses ignore the daily quota
   * until the entitlement lapses: even with nothing left, a non-empty
   * prompt is sent and storage is not touched.
   */
  lemma EntitledUserBypassesQuota(s: Store, id: string, userId: string, plan: string, paid: int, t: int,
                                  prompt: string, sel: MainScreen.Selection, outcome: MainScreen.HandleGenerate,
                                  stored: DailyLimit.Stored, today: string)
    requires id != "" && userId != "" && IsKnownPlan(plan)
    requires paid <= t <= paid + GrantDays(plan) * MsPerDay
    requires JsText.Trim(prompt) != ""
    ensures
      var b := PaymentCallback.Handle(s, SucceededBody(id, userId, plan), paid, true, true);
      var isPro := SubscriptionService.GetSubscriptionStatus(b.store.subscriptions, userId, t).Status() == Pro;
      var r := MainScreen.OnGeneratePress(prompt, isPro, DailyLimit.Count(0), sel, outcome, stored, today);
      && isPro
      && r.request.Some?
      && r.stored == stored
  {
  }
}
