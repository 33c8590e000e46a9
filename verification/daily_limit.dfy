/**
 * The client's daily free quota (`useDailyLimit`). One usage record
 * `{date, count}` lives in device storage; it counts for the day whose key
 * equals its date, and is implicitly reset on any other day. `pro` users
 * bypass the quota and never touch storage. Today's key is a parameter.
 */
module DailyLimit {

  /** `FREE_DAILY_LIMIT`. */
  const FreeDailyLimit: int := 3

  /** `new Date().toISOString().slice(0, 10)`: the `YYYY-MM-DD` prefix of the timestamp. */
  function TodayKey(iso: string): (k: string)
    ensures |k| == if |iso| < 10 then |iso| else 10
    ensures k == iso[..|k|]
  {
    if |iso| < 10 then iso else iso[..10]
  }

  /** Timestamps that share their first ten characters fall on the same day key. */
  lemma SameDatePrefixSameKey(iso1: string, iso2: string)
    requires |iso1| >= 10 && |iso2| >= 10 && iso1[..10] == iso2[..10]
    ensures TodayKey(iso1) == TodayKey(iso2)
  {
  }

  /**
   * What reading the storage key yields: nothing (or the empty string),
   * a failing read, text that is not JSON, a JSON primitive (`null`,
   * a number, a boolean or a string), or a usage record.
   */
  datatype Stored = Absent | ReadFails | Unparseable | NonObject | Usage(date: string, count: int)

  /** The `remaining` state: `Number.POSITIVE_INFINITY` or a count. */
  datatype Remaining = Unlimited | Count(n: int)

  function Max0(x: int): int {
    if x < 0 then 0 else x
  }

  /** The record counts for today. */
  predicate CountsToday(stored: Stored, today: string) {
    stored.Usage? && stored.date == today
  }

  /** `hydrate`: the remaining generations for today. */
  function Hydrate(isPro: bool, stored: Stored, today: string): (r: Remaining)
    ensures isPro <==> r == Unlimited
    ensures !isPro ==> r.n >= 0
    ensures !isPro && !CountsToday(stored, today) ==> r == Count(FreeDailyLimit)
    ensures !isPro && CountsToday(stored, today) ==>
      (r.n == 0 <==> stored.count >= FreeDailyLimit)
      && (stored.count <= FreeDailyLimit ==> r.n + stored.count == FreeDailyLimit)
    ensures !isPro && CountsToday(stored, today) && stored.count >= 0 ==> r.n <= FreeDailyLimit
  {
    if isPro then Unlimited
    else if CountsToday(stored, today) then Count(Max0(FreeDailyLimit - stored.count))
    else Count(FreeDailyLimit)
  }

  /**
   * What `consume` does: nothing for `pro`; rejects with a TypeError when
   * the stored JSON is a primitive (property access on `null`, property
   * assignment on a primitive in module code); otherwise writes the
   * updated record and sets `remaining`.
   */
  datatype ConsumeOutcome = Skipped | Throws | Wrote(usage: Stored, remaining: int)

  function Consume(isPro: bool, stored: Stored, today: string): (o: ConsumeOutcome)
    ensures o == Skipped <==> isPro
    ensures o == Throws <==> !isPro && stored.NonObject?
    ensures o.Wrote? ==> o.usage.Usage? && o.usage.date == today
    ensures o.Wrote? && CountsToday(stored, today) ==> o.usage.count == stored.count + 1
    ensures o.Wrote? && !CountsToday(stored, today) ==> o.usage.count == 1
    // the counter shown after `consume` is what a fresh `hydrate` reads back
    ensures o.Wrote? ==> Count(o.remaining) == Hydrate(false, o.usage, today)
  {
    if isPro then Skipped
    else
      match stored
      case NonObject => Throws
      case Usage(date, count) =>
        var next := if date != today then Usage(today, 1) else Usage(today, count + 1);
        Wrote(next, Max0(FreeDailyLimit - next.count))
      case _ =>
        // absent, unreadable and unparseable records all start from `{date: today, count: 0}`
        Wrote(Usage(today, 1), Max0(FreeDailyLimit - 1))
  }

  /** Storage after a `consume`. */
  function StoredAfter(stored: Stored, o: ConsumeOutcome): (r: Stored) {
    if o.Wrote? then o.usage else stored
  }

  /** `pro` users: unbounded remaining, and `consume` leaves storage as it was. */
  lemma ProBypass(stored: Stored, today: string)
    ensures Hydrate(true, stored, today) == Unlimited
    ensures StoredAfter(stored, Consume(true, stored, today)) == stored
  {
  }

  /** Storage after `n` free-user consumes on the same day. */
  function ConsumeN(stored: Stored, today: string, n: nat): (r: Stored)
    decreases n
  {
    if n == 0 then stored
    else ConsumeN(StoredAfter(stored, Consume(false, stored, today)), today, n - 1)
  }

  /** Within a day, `n` consumes on a readable record add exactly `n` to its count. */
  lemma {:induction false} ConsumeNSameDay(today: string, count: int, n: nat)
    decreases n
    ensures ConsumeN(Usage(today, count), today, n) == Usage(today, count + n)
  {
    if n > 0 {
      ConsumeNSameDay(today, count + 1, n - 1);
    }
  }

  /**
   * Starting from a record that does not count for today (and is not a
   * JSON primitive), `n` consumes leave `remaining = max(3 - n, 0)`.
   */
  lemma {:induction false} ConsumeNFromFreshDay(stored: Stored, today: string, n: nat)
    requires !CountsToday(stored, today) && !stored.NonObject?
    ensures n >= 1 ==> ConsumeN(stored, today, n) == Usage(today, n)
    ensures Hydrate(false, ConsumeN(stored, today, n), today) == Count(Max0(FreeDailyLimit - n))
  {
    if n >= 1 {
      assert StoredAfter(stored, Consume(false, stored, today)) == Usage(today, 1);
      ConsumeNSameDay(today, 1, n - 1);
    }
  }

  /** Yesterday's record with any count reads as a full quota today. */
  lemma StaleRecordResets(yesterday: string, today: string, count: int)
    requires yesterday != today
    ensures Hydrate(false, Usage(yesterday, count), today) == Count(FreeDailyLimit)
    ensures Consume(false, Usage(yesterday, count), today).usage == Usage(today, 1)
  {
  }
}
