/**
 * The client's entitlement resolver and writer over the `subscriptions`
 * collection. Expiry is applied when the record is read: a `pro` record
 * whose `expiresAt` lies strictly before the client clock reads as `free`,
 * and the stored record is left as it is.
 */
module SubscriptionService {
  import opened Wrappers
  import opened Firestore

  /** What `getSubscriptionStatus` returns: the bare `{status: 'free'}`, or the stored record itself. */
  datatype StatusView = BareFree | AsStored(doc: Subscription) {
    function Status(): Tier {
      match this
      case BareFree => Free
      case AsStored(d) => d.status
    }
  }

  /** A stored record has lapsed: `pro` with an `expiresAt` strictly before `now`. */
  predicate Lapsed(d: Subscription, now: int) {
    d.status == Pro && d.expiresAt.Some? && d.expiresAt.value < now
  }

  function GetSubscriptionStatus(subscriptions: map<string, Subscription>, userId: string, now: int): (v: StatusView)
    ensures userId !in subscriptions ==> v == BareFree
    ensures userId in subscriptions && Lapsed(subscriptions[userId], now) ==> v == BareFree
    ensures userId in subscriptions && !Lapsed(subscriptions[userId], now) ==> v == AsStored(subscriptions[userId])
  {
    if userId !in subscriptions then BareFree
    else
      var d := subscriptions[userId];
      if d.status == Pro && d.expiresAt.Some? && d.expiresAt.value < now then BareFree
      else AsStored(d)
  }

  /**
   * The effective tier is `pro` exactly when a `pro` record exists whose
   * expiry is absent or not before `now`.
   */
  lemma EffectivelyProIff(subscriptions: map<string, Subscription>, userId: string, now: int)
    ensures GetSubscriptionStatus(subscriptions, userId, now).Status() == Pro <==>
      && userId in subscriptions
      && subscriptions[userId].status == Pro
      && (subscriptions[userId].expiresAt.None? || subscriptions[userId].expiresAt.value >= now)
  {
  }

  /** Expiry is strict: a record expiring at `now` still reads as `pro`, one millisecond later it reads as `free`. */
  lemma ExpiryIsStrict(subscriptions: map<string, Subscription>, userId: string, t: int)
    requires userId in subscriptions && subscriptions[userId].status == Pro
    requires subscriptions[userId].expiresAt == Some(t)
    ensures GetSubscriptionStatus(subscriptions, userId, t).Status() == Pro
    ensures GetSubscriptionStatus(subscriptions, userId, t + 1).Status() == Free
    ensures GetSubscriptionStatus(subscriptions, userId, t + 1) == BareFree
  {
  }

  /** A `free` record is returned verbatim whatever its `expiresAt`. */
  lemma FreeRecordVerbatim(subscriptions: map<string, Subscription>, userId: string, now: int)
    requires userId in subscriptions && subscriptions[userId].status == Free
    ensures GetSubscriptionStatus(subscriptions, userId, now) == AsStored(subscriptions[userId])
  {
  }

  /** Once a record reads as `free` it stays `free` as the clock advances. */
  lemma ExpiryIsMonotone(subscriptions: map<string, Subscription>, userId: string, t1: int, t2: int)
    requires t1 <= t2
    requires GetSubscriptionStatus(subscriptions, userId, t1).Status() == Free
    ensures GetSubscriptionStatus(subscriptions, userId, t2).Status() == Free
  {
  }

  /** `updateSubscriptionStatus`: a merge write of the given fields onto the user's record. */
  function UpdateSubscriptionStatus(subscriptions: map<string, Subscription>, userId: string,
                                    patch: SubscriptionPatch): (r: map<string, Subscription>)
    ensures r.Keys == subscriptions.Keys + {userId}
    ensures forall u :: u in subscriptions && u != userId ==> r[u] == subscriptions[u]
    ensures r[userId].status == patch.status && r[userId].updatedAt == patch.updatedAt
    ensures patch.planId.None? && userId in subscriptions ==> r[userId].planId == subscriptions[userId].planId
    ensures patch.expiresAt.None? && userId in subscriptions ==> r[userId].expiresAt == subscriptions[userId].expiresAt
    ensures patch.planId.Some? ==> r[userId].planId == patch.planId
    ensures patch.expiresAt.Some? ==> r[userId].expiresAt == patch.expiresAt
  {
    subscriptions[userId := MergeSubscription(Lookup(subscriptions, userId), patch)]
  }

  /**
   * Writing `pro` without touching `expiresAt` leaves a past expiry in
   * place, so the record still reads as `free`.
   */
  lemma ProUpdateKeepsStoredExpiry(subscriptions: map<string, Subscription>, userId: string,
                                   patch: SubscriptionPatch, now: int)
    requires userId in subscriptions && subscriptions[userId].expiresAt.Some?
    requires subscriptions[userId].expiresAt.value < now
    requires patch.status == Pro && patch.expiresAt.None?
    ensures GetSubscriptionStatus(UpdateSubscriptionStatus(subscriptions, userId, patch), userId, now) == BareFree
  {
  }
}
