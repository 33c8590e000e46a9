/**
 * The gating logic of the main screen: the generate button's checks and
 * their order (empty prompt, exhausted free quota, generate, then consume),
 * and the `pro`-only locks on tone and length options. The generation
 * hook's result is an oracle: it resolves, or it rejects (when the gateway
 * call or saving the history entry throws).
 */
module MainScreen {
  import opened Wrappers
  import opened JsText
  import opened DailyLimit
  import GenerateContent

  datatype ContentType = Post | Description | Hashtags | Headline
  datatype Tone = Friendly | Expert | Sales
  datatype Length = Short | Medium | Long

  function TypeKey(t: ContentType): string {
    match t
    case Post => "post"
    case Description => "description"
    case Hashtags => "hashtags"
    case Headline => "headline"
  }

  function ToneKey(t: Tone): string {
    match t
    case Friendly => "friendly"
    case Expert => "expert"
    case Sales => "sales"
  }

  function LengthKey(l: Length): string {
    match l
    case Short => "short"
    case Medium => "medium"
    case Long => "long"
  }

  /** A free user may pick only the friendly tone. */
  predicate ToneLocked(isPro: bool, t: Tone) {
    !isPro && t != Friendly
  }

  /** A free user may not pick the long length. */
  predicate LengthLocked(isPro: bool, l: Length) {
    !isPro && l == Long
  }

  /** The outcome of tapping an option chip: the selection afterwards, and whether the paywall opened. */
  datatype Tap<T> = Tap(selected: T, openedPaywall: bool)

  function TapTone(isPro: bool, current: Tone, pressed: Tone): (r: Tap<Tone>)
    ensures r.openedPaywall ==> r.selected == current
    ensures !r.openedPaywall ==> r.selected == pressed
    ensures !ToneLocked(isPro, r.selected) || r.selected == current
  {
    if ToneLocked(isPro, pressed) then Tap(current, true) else Tap(pressed, false)
  }

  function TapLength(isPro: bool, current: Length, pressed: Length): (r: Tap<Length>)
    ensures r.openedPaywall ==> r.selected == current
    ensures !r.openedPaywall ==> r.selected == pressed
    ensures !LengthLocked(isPro, r.selected) || r.selected == current
  {
    if LengthLocked(isPro, pressed) then Tap(current, true) else Tap(pressed, false)
  }

  /** Exactly the locked options open the paywall, in both directions. */
  lemma LocksOpenPaywall(isPro: bool, tone: Tone, curTone: Tone, length: Length, curLength: Length)
    ensures TapTone(isPro, curTone, tone).openedPaywall <==> !isPro && tone != Friendly
    ensures TapLength(isPro, curLength, length).openedPaywall <==> !isPro && length == Long
    ensures isPro ==> TapTone(isPro, curTone, tone).selected == tone && TapLength(isPro, curLength, length).selected == length
  {
  }

  datatype Selection = Selection(contentType: ContentType, tone: Tone, length: Length)

  /** The screen's initial state: post, the first tone (friendly), medium. */
  const InitialSelection := Selection(Post, Friendly, Medium)

  predicate Unlocked(isPro: bool, sel: Selection) {
    !ToneLocked(isPro, sel.tone) && !LengthLocked(isPro, sel.length)
  }

  /**
   * A free user who starts from an unlocked selection stays on one,
   * whatever chips they tap.
   */
  lemma {:induction false} FreeTapsStayUnlocked(sel: Selection, tones: seq<Tone>, lengths: seq<Length>)
    requires Unlocked(false, sel)
    ensures Unlocked(false, sel.(tone := TapTonesFrom(sel.tone, tones), length := TapLengthsFrom(sel.length, lengths)))
    decreases |tones| + |lengths|
  {
    if |tones| > 0 {
      var next := sel.(tone := TapTone(false, sel.tone, tones[0]).selected);
      FreeTapsStayUnlocked(next, tones[1..], lengths);
    } else if |lengths| > 0 {
      var next := sel.(length := TapLength(false, sel.length, lengths[0]).selected);
      FreeTapsStayUnlocked(next, tones, lengths[1..]);
    }
  }

  /** The tone selected after a free user's taps, in order. */
  function TapTonesFrom(current: Tone, taps: seq<Tone>): Tone
    decreases |taps|
  {
    if |taps| == 0 then current else TapTonesFrom(TapTone(false, current, taps[0]).selected, taps[1..])
  }

  /** The length selected after a free user's taps, in order. */
  function TapLengthsFrom(current: Length, taps: seq<Length>): Length
    decreases |taps|
  {
    if |taps| == 0 then current else TapLengthsFrom(TapLength(false, current, taps[0]).selected, taps[1..])
  }

  datatype GenerationRequest = GenerationRequest(prompt: string, contentType: ContentType, tone: Tone, length: Length)

  datatype HandleGenerate = GenerateResolves | GenerateRejects

  datatype Notice = EmptyPromptAlert | LimitAlert | NoAlert

  /** After one press: the alert shown, the request sent (if any), storage and the `remaining` state. */
  datatype PressResult = PressResult(notice: Notice, request: Option<GenerationRequest>, stored: Stored, remaining: Remaining)

  /** `!isPro && remaining <= 0`; an unlimited remaining is never `<= 0`. */
  predicate QuotaBlocks(isPro: bool, remaining: Remaining) {
    !isPro && remaining.Count? && remaining.n <= 0
  }

  /** `onGeneratePress`. */
  function OnGeneratePress(prompt: string, isPro: bool, remaining: Remaining, sel: Selection,
                           outcome: HandleGenerate, stored: Stored, today: string): (r: PressResult)
    ensures r.request.Some? <==> Trim(prompt) != "" && !QuotaBlocks(isPro, remaining)
    ensures Trim(prompt) == "" ==> r == PressResult(EmptyPromptAlert, None, stored, remaining)
    ensures Trim(prompt) != "" && QuotaBlocks(isPro, remaining) ==> r == PressResult(LimitAlert, None, stored, remaining)
    ensures r.request.Some? ==> r.request.value == GenerationRequest(prompt, sel.contentType, sel.tone, sel.length)
    // consume runs once, and only after the generation resolved
    ensures r.request.None? || outcome == GenerateRejects ==> r.stored == stored && r.remaining == remaining
    ensures r.request.Some? && outcome == GenerateResolves ==>
      r.stored == StoredAfter(stored, Consume(isPro, stored, today))
    ensures r.stored != stored ==> !isPro && r.request.Some? && outcome == GenerateResolves
  {
    if Trim(prompt) == "" then PressResult(EmptyPromptAlert, None, stored, remaining)
    else if QuotaBlocks(isPro, remaining) then PressResult(LimitAlert, None, stored, remaining)
    else
      var request := GenerationRequest(prompt, sel.contentType, sel.tone, sel.length);
      match outcome
      case GenerateRejects => PressResult(NoAlert, Some(request), stored, remaining)
      case GenerateResolves =>
        match Consume(isPro, stored, today)
        case Wrote(usage, left) => PressResult(NoAlert, Some(request), usage, Count(left))
        case _ => PressResult(NoAlert, Some(request), stored, remaining)
  }

  /** A `pro` user's press does not depend on the remaining quota. */
  lemma ProBypassesQuota(prompt: string, r1: Remaining, r2: Remaining, sel: Selection,
                         outcome: HandleGenerate, stored: Stored, today: string)
    ensures var p1 := OnGeneratePress(prompt, true, r1, sel, outcome, stored, today);
      var p2 := OnGeneratePress(prompt, true, r2, sel, outcome, stored, today);
      && p1.request == p2.request && p1.notice == p2.notice && p1.stored == p2.stored == stored
      && (Trim(prompt) != "" ==> p1.request.Some?)
  {
  }

  /** The request the screen sends, as the gateway receives it. */
  function RequestBody(q: GenerationRequest): GenerateContent.GenerateBody {
    GenerateContent.GenerateBody(Some(q.prompt), Some(TypeKey(q.contentType)), Some(ToneKey(q.tone)), Some(LengthKey(q.length)))
  }

  /** Every request the screen sends passes the gateway's checks and gets a size from its table. */
  lemma ScreenRequestsAreValid(prompt: string, isPro: bool, remaining: Remaining, sel: Selection,
                               outcome: HandleGenerate, stored: Stored, today: string)
    requires OnGeneratePress(prompt, isPro, remaining, sel, outcome, stored, today).request.Some?
    ensures var q := OnGeneratePress(prompt, isPro, remaining, sel, outcome, stored, today).request.value;
      && GenerateContent.FieldsPresent(RequestBody(q))
      && GenerateContent.MaxTokens(LengthKey(q.length)).Some?
  {
    assert Trim(prompt) != "";
  }

  /** Generations counted against today's quota by the stored record. */
  function UsedToday(stored: Stored, today: string): int {
    if CountsToday(stored, today) then stored.count else 0
  }

  /**
   * The counter the screen shows agrees with storage, and today's record
   * never exceeds the daily limit.
   */
  predicate QuotaInvariant(stored: Stored, remaining: Remaining, today: string) {
    && remaining == Hydrate(false, stored, today)
    && 0 <= UsedToday(stored, today) <= FreeDailyLimit
  }

  /** One generation counted for a free user: a request sent and resolved. */
  function Generated(r: PressResult, outcome: HandleGenerate): nat {
    if r.request.Some? && outcome == GenerateResolves then 1 else 0
  }

  /**
   * A free user's press keeps the quota invariant and adds exactly its
   * successful generation to today's count (a readable record assumed).
   */
  lemma PressKeepsQuota(prompt: string, remaining: Remaining, sel: Selection,
                        outcome: HandleGenerate, stored: Stored, today: string)
    requires QuotaInvariant(stored, remaining, today) && !stored.NonObject?
    ensures var r := OnGeneratePress(prompt, false, remaining, sel, outcome, stored, today);
      && QuotaInvariant(r.stored, r.remaining, today)
      && !r.stored.NonObject?
      && UsedToday(r.stored, today) == UsedToday(stored, today) + Generated(r, outcome)
  {
  }

  /** The result of a run of presses by a free user on one day. */
  datatype Tally = Tally(stored: Stored, remaining: Remaining, generated: nat)

  function FreePresses(prompts: seq<string>, sel: Selection, outcomes: seq<HandleGenerate>,
                       stored: Stored, remaining: Remaining, today: string): Tally
    requires |prompts| == |outcomes|
    decreases |outcomes|
  {
    if |outcomes| == 0 then Tally(stored, remaining, 0)
    else
      var r := OnGeneratePress(prompts[0], false, remaining, sel, outcomes[0], stored, today);
      var rest := FreePresses(prompts[1..], sel, outcomes[1..], r.stored, r.remaining, today);
      rest.(generated := rest.generated + Generated(r, outcomes[0]))
  }

  /**
   * However many times a free user presses on one day, and whatever the
   * generation outcomes, today's count grows by exactly the successful
   * generations and the successful generations never exceed the quota
   * left at the start.
   */
  lemma {:induction false} FreeUserWithinDailyLimit(prompts: seq<string>, sel: Selection, outcomes: seq<HandleGenerate>,
                                                    stored: Stored, remaining: Remaining, today: string)
    requires |prompts| == |outcomes|
    requires QuotaInvariant(stored, remaining, today) && !stored.NonObject?
    ensures var t := FreePresses(prompts, sel, outcomes, stored, remaining, today);
      && QuotaInvariant(t.stored, t.remaining, today)
      && UsedToday(t.stored, today) == UsedToday(stored, today) + t.generated
      && t.generated <= FreeDailyLimit - UsedToday(stored, today)
    decreases |outcomes|
  {
    if |outcomes| > 0 {
      var r := OnGeneratePress(prompts[0], false, remaining, sel, outcomes[0], stored, today);
      PressKeepsQuota(prompts[0], remaining, sel, outcomes[0], stored, today);
      FreeUserWithinDailyLimit(prompts[1..], sel, outcomes[1..], r.stored, r.remaining, today);
    }
  }

  /**
   * A stored JSON primitive makes every `consume` reject, so the quota
   * never runs down: the counter stays at three after a resolved generation.
   */
  lemma PrimitiveRecordNeverRunsDown(prompt: string, sel: Selection, today: string)
    requires Trim(prompt) != ""
    ensures var r := OnGeneratePress(prompt, false, Hydrate(false, NonObject, today), sel, GenerateResolves, NonObject, today);
      r.request.Some? && r.stored == NonObject && r.remaining == Count(FreeDailyLimit)
  {
  }
}
