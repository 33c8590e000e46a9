/**
 * The client's plan catalog (`fetchPaymentPlans`): the remote
 * `paymentPlans` query in ascending `order`, falling back to three
 * built-in plans when the read throws or comes back empty. The query's
 * result is an oracle passed in by the caller.
 */
module PlansService {
  import opened Wrappers
  import ServerPlans

  datatype PaymentPlan = PaymentPlan(
    id: string,
    title: string,
    price: int,
    periodLabel: string,
    description: string,
    durationDays: int,
    isPopular: Option<bool>,
    order: Option<int>)

  /** A document's fields; `id` is a field the document itself may carry. */
  datatype PlanData = PlanData(
    id: Option<string>,
    title: string,
    price: int,
    periodLabel: string,
    description: string,
    durationDays: int,
    isPopular: Option<bool>,
    order: Option<int>)

  datatype CatalogDoc = CatalogDoc(docId: string, data: PlanData)

  /** The query: it throws, or returns its documents in query order. */
  datatype CatalogRead = ReadThrows | Snapshot(docs: seq<CatalogDoc>)

  /** `getDefaultPlans()`. */
  function DefaultPlans(): (plans: seq<PaymentPlan>) {
    [ PaymentPlan("plan_monthly", "399 ₽ / мес", 39900, "В месяц", "SociaLynx PRO — месяц", 30, Some(false), Some(1)),
      PaymentPlan("plan_quarterly", "799 ₽ / 3 мес", 79900, "Каждые 3 месяца", "SociaLynx PRO — 3 месяца", 90, Some(true), Some(2)),
      PaymentPlan("plan_yearly", "1999 ₽ / год", 199900, "В год", "SociaLynx PRO — год", 365, Some(false), Some(3)) ]
  }

  /**
   * `{ id: doc.id, ...doc.data() }`: the spread comes after `id`, so an
   * `id` field inside the document replaces the document id.
   */
  function PlanFromDoc(d: CatalogDoc): (p: PaymentPlan)
    ensures d.data.id.None? ==> p.id == d.docId
    ensures d.data.id.Some? ==> p.id == d.data.id.value
    ensures p.price == d.data.price && p.durationDays == d.data.durationDays && p.order == d.data.order
    ensures p.title == d.data.title && p.description == d.data.description
    ensures p.periodLabel == d.data.periodLabel && p.isPopular == d.data.isPopular
  {
    var f := d.data;
    PaymentPlan(f.id.GetOr(d.docId), f.title, f.price, f.periodLabel, f.description,
                f.durationDays, f.isPopular, f.order)
  }

  /** The data a plan is stored as, without an `id` field of its own. */
  function DataOf(p: PaymentPlan): (f: PlanData)
    ensures f.id.None?
  {
    PlanData(None, p.title, p.price, p.periodLabel, p.description, p.durationDays, p.isPopular, p.order)
  }

  /**
   * A plan stored under its id, without an `id` field in its data, reads
   * back as the same plan; with an `id` field, that field wins.
   */
  lemma StoredPlanReadsBack(p: PaymentPlan, otherId: string)
    ensures PlanFromDoc(CatalogDoc(p.id, DataOf(p))) == p
    ensures PlanFromDoc(CatalogDoc(otherId, DataOf(p).(id := Some(p.id)))) == p
  {
  }

  function FetchPaymentPlans(read: CatalogRead): (plans: seq<PaymentPlan>)
    ensures read.ReadThrows? ==> plans == DefaultPlans()
    ensures read.Snapshot? && |read.docs| == 0 ==> plans == DefaultPlans()
    ensures read.Snapshot? && |read.docs| > 0 ==>
      |plans| == |read.docs| && forall i :: 0 <= i < |plans| ==> plans[i] == PlanFromDoc(read.docs[i])
    ensures |plans| > 0
  {
    match read
    case ReadThrows => DefaultPlans()
    case Snapshot(docs) =>
      if |docs| == 0 then DefaultPlans()
      else seq(|docs|, i requires 0 <= i < |docs| => PlanFromDoc(docs[i]))
  }

  /** Plans listed by non-decreasing `order`, every plan carrying one. */
  predicate SortedByOrder(plans: seq<PaymentPlan>) {
    && (forall i :: 0 <= i < |plans| ==> plans[i].order.Some?)
    && (forall i, j :: 0 <= i < j < |plans| ==> plans[i].order.value <= plans[j].order.value)
  }

  /** The fallback: three plans, monthly, quarterly and yearly, sorted, with positive price and duration. */
  lemma DefaultPlansShape()
    ensures var d := DefaultPlans();
      && |d| == 3
      && d[0].id == "plan_monthly" && d[1].id == "plan_quarterly" && d[2].id == "plan_yearly"
      && d[0].durationDays == 30 && d[1].durationDays == 90 && d[2].durationDays == 365
      && d[0].price == 39900 && d[1].price == 79900 && d[2].price == 199900
      && (forall i :: 0 <= i < 3 ==> d[i].price > 0 && d[i].durationDays > 0 && d[i].order == Some(i + 1))
      && SortedByOrder(d)
  {
  }

  /** The documents as the query returns them: all carry `order`, in ascending `order`. */
  predicate DocsSortedByOrder(docs: seq<CatalogDoc>) {
    && (forall i :: 0 <= i < |docs| ==> docs[i].data.order.Some?)
    && (forall i, j :: 0 <= i < j < |docs| ==> docs[i].data.order.value <= docs[j].data.order.value)
  }

  /**
   * Whatever the read does, the list shown is sorted by `order`: the
   * fallback is, and a remote result keeps the query's order.
   */
  lemma FetchSortedByOrder(read: CatalogRead)
    requires read.Snapshot? ==> DocsSortedByOrder(read.docs)
    ensures SortedByOrder(FetchPaymentPlans(read))
  {
  }

  /**
   * The fallback durations are the ones the webhook grants, but the
   * fallback prices are not the prices the server charges.
   */
  lemma DefaultsAgainstServerTable()
    ensures forall i :: 0 <= i < |DefaultPlans()| ==>
      var p := DefaultPlans()[i];
      && ServerPlans.IsKnownPlan(p.id)
      && ServerPlans.GrantDays(p.id) == p.durationDays
      && ServerPlans.PlanPrices[p.id].amount != p.price
  {
  }
}
