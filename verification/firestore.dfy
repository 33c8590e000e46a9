/**
 * The two document collections the payment flow writes, as immutable maps.
 * `paymentSessions` is keyed by the provider's payment id and
 * `subscriptions` by user id. Timestamps are milliseconds since the epoch.
 */
module Firestore {
  import opened Wrappers

  /** A `paymentSessions` document; each field is absent until some write sets it. */
  datatype Session = Session(
    userId: Option<string>,
    plan: Option<string>,
    status: Option<string>,
    createdAt: Option<int>,
    updatedAt: Option<int>)

  datatype Tier = Free | Pro

  /** A `subscriptions` document (`SubscriptionData` in the client). */
  datatype Subscription = Subscription(
    status: Tier,
    planId: Option<string>,
    updatedAt: int,
    expiresAt: Option<int>)

  /**
   * The fields of one `set(..., { merge: true })` on a subscription.
   * `status` and `updatedAt` are always written; an absent optional
   * field is a key missing from the written object.
   */
  datatype SubscriptionPatch = SubscriptionPatch(
    status: Tier,
    planId: Option<string>,
    updatedAt: int,
    expiresAt: Option<int>)

  datatype Store = Store(
    sessions: map<string, Session>,
    subscriptions: map<string, Subscription>)

  /**
   * Whether `doc(id)` names a document: the admin SDK rejects an absent or
   * empty document path by throwing.
   */
  predicate IsDocId(id: Option<string>) {
    id.Some? && id.value != ""
  }

  /**
   * The session after merge-writing `status` and `updatedAt` onto the
   * stored document (or onto nothing, which creates it).
   */
  function MergeSessionStatus(prior: Option<Session>, status: string, now: int): (d: Session)
    ensures d.status == Some(status) && d.updatedAt == Some(now)
    ensures prior.Some? ==>
      d.userId == prior.value.userId && d.plan == prior.value.plan && d.createdAt == prior.value.createdAt
    ensures prior.None? ==> d.userId.None? && d.plan.None? && d.createdAt.None?
  {
    match prior
    case None => Session(None, None, Some(status), None, Some(now))
    case Some(p) => p.(status := Some(status), updatedAt := Some(now))
  }

  /** The subscription after a merge write: fields missing from the patch keep their stored value. */
  function MergeSubscription(prior: Option<Subscription>, patch: SubscriptionPatch): (d: Subscription)
    ensures d.status == patch.status && d.updatedAt == patch.updatedAt
    ensures patch.planId.Some? ==> d.planId == patch.planId
    ensures patch.expiresAt.Some? ==> d.expiresAt == patch.expiresAt
    ensures patch.planId.None? ==> d.planId == (if prior.Some? then prior.value.planId else None)
    ensures patch.expiresAt.None? ==> d.expiresAt == (if prior.Some? then prior.value.expiresAt else None)
  {
    var planId := if patch.planId.Some? then patch.planId else if prior.Some? then prior.value.planId else None;
    var expiresAt := if patch.expiresAt.Some? then patch.expiresAt else if prior.Some? then prior.value.expiresAt else None;
    Subscription(patch.status, planId, patch.updatedAt, expiresAt)
  }

  /** A patch that names every field overwrites the document whatever was stored. */
  lemma FullPatchIgnoresPrior(p1: Option<Subscription>, p2: Option<Subscription>, patch: SubscriptionPatch)
    requires patch.planId.Some? && patch.expiresAt.Some?
    ensures MergeSubscription(p1, patch) == MergeSubscription(p2, patch)
  {
  }

  /** Merging the same patch twice is the same as merging it once. */
  lemma MergeSubscriptionIdempotent(prior: Option<Subscription>, patch: SubscriptionPatch)
    ensures MergeSubscription(Some(MergeSubscription(prior, patch)), patch) == MergeSubscription(prior, patch)
  {
  }
}
