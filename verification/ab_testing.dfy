/**
 * The A/B variant store of js/ab-testing.js: the configured title
 * variations, the sticky assignment kept in local storage, the append-only
 * event log, per-variation counts and the winner rule.
 *
 * Local storage is a map from key to stored value. The event log is stored
 * as a value of its own kind (`Log`), which stands for its JSON text; any
 * other text under the analytics key stands for text that JSON.parse
 * rejects or that holds no `events` array. Math.random, the clock, the page
 * URL and the user agent are parameters.
 */
module ABTesting {
  import opened Common

  datatype Variation = Variation(id: string, title: string, weight: real)

  /** `${testName}_variation` and `${testName}_analytics` for testName 'title-variations'. */
  const VariationKey: string := "title-variations_variation"
  const AnalyticsKey: string := "title-variations_analytics"

  const Configured: seq<Variation> := [
    Variation("original", "Your automation assistant for less than a junior.", 1.0),
    Variation("cost-effective", "AI automation that costs less than hiring a junior.", 1.0),
    Variation("affordable", "Affordable AI automation for your business.", 1.0),
    Variation("budget-friendly", "Budget-friendly automation that actually works.", 1.0),
    Variation("smart-investment", "Smart automation investment for growing businesses.", 1.0),
    Variation("value-focused", "Maximum automation value, minimum cost.", 1.0),
    Variation("efficient", "Efficient automation without the junior price tag.", 1.0),
    Variation("practical", "Practical automation solutions for real businesses.", 1.0)
  ]

  /** What the static configuration satisfies: some variation, positive weights, distinct non-empty ids. */
  predicate ValidConfig(vs: seq<Variation>)
  {
    && |vs| > 0
    && (forall i :: 0 <= i < |vs| ==> vs[i].weight > 0.0 && vs[i].id != "")
    && (forall i, j :: 0 <= i < j < |vs| ==> vs[i].id != vs[j].id)
  }

  lemma ConfiguredIsValid()
    ensures ValidConfig(Configured)
  {
  }

  /** The first configured variation with the given id (Array.prototype.find). */
  function FindVariation(vs: seq<Variation>, id: string): (r: Option<Variation>)
    ensures r.Some? ==> r.value in vs && r.value.id == id
    ensures r.None? <==> forall i :: 0 <= i < |vs| ==> vs[i].id != id
  {
    if |vs| == 0 then None
    else if vs[0].id == id then Some(vs[0])
    else FindVariation(vs[1..], id)
  }

  // ---------------------------------------------------------------------------
  // Weighted draw
  // ---------------------------------------------------------------------------

  /** The running weight sum, left to right (the reduce at line 77). */
  function SumWeights(vs: seq<Variation>): real
  {
    if |vs| == 0 then 0.0 else SumWeights(vs[..|vs| - 1]) + vs[|vs| - 1].weight
  }

  /** The threshold `Math.random() * totalWeight` for a draw u of Math.random(). */
  function Threshold(vs: seq<Variation>, u: real): real
  {
    u * SumWeights(vs)
  }

  /** Variation k's running sum reaches the threshold r. */
  ghost predicate Covers(vs: seq<Variation>, r: real, k: int)
  {
    0 <= k < |vs| && r <= SumWeights(vs[..k + 1])
  }

  ghost predicate FirstCover(vs: seq<Variation>, r: real, k: int)
  {
    Covers(vs, r, k) && forall j :: 0 <= j < k ==> !Covers(vs, r, j)
  }

  /**
   * The draw for threshold r: the first variation whose running sum is at
   * least r, or the first variation when none is.
   */
  ghost predicate IsDraw(vs: seq<Variation>, r: real, id: string)
  {
    || (exists k :: FirstCover(vs, r, k) && id == vs[k].id)
    || (|vs| > 0 && (forall k :: 0 <= k < |vs| ==> !Covers(vs, r, k)) && id == vs[0].id)
  }

  /** A draw always names a configured variation. */
  lemma DrawIsConfigured(vs: seq<Variation>, r: real, id: string)
    requires IsDraw(vs, r, id)
    ensures exists k :: 0 <= k < |vs| && vs[k].id == id
  {
    if k :| FirstCover(vs, r, k) && id == vs[k].id {
      assert 0 <= k < |vs| && vs[k].id == id;
    } else {
      assert 0 < |vs| && vs[0].id == id;
    }
  }

  lemma {:induction false} SumWeightsGrows(vs: seq<Variation>, i: nat, j: nat)
    requires ValidConfig(vs)
    requires i < j <= |vs|
    ensures SumWeights(vs[..i]) < SumWeights(vs[..j])
    decreases j - i
  {
    assert vs[..j][..j - 1] == vs[..j - 1];
    if i < j - 1 {
      SumWeightsGrows(vs, i, j - 1);
    }
  }

  lemma {:induction false} SumWeightsNonNegative(vs: seq<Variation>, i: nat)
    requires ValidConfig(vs)
    requires i <= |vs|
    ensures SumWeights(vs[..i]) >= 0.0
  {
    if i > 0 {
      SumWeightsGrows(vs, 0, i);
      assert vs[..0] == [];
    }
  }

  /**
   * For a threshold inside (0, total], variation k is drawn exactly when the
   * threshold falls in its slice (sum before k, sum through k], a slice as
   * long as k's weight; a uniform threshold therefore picks k with
   * probability weight / total.
   */
  lemma DrawSlice(vs: seq<Variation>, r: real, k: nat)
    requires ValidConfig(vs)
    requires k < |vs| && r > 0.0
    ensures FirstCover(vs, r, k) <==> SumWeights(vs[..k]) < r <= SumWeights(vs[..k + 1])
    ensures SumWeights(vs[..k + 1]) - SumWeights(vs[..k]) == vs[k].weight
  {
    assert vs[..k + 1][..k] == vs[..k];
    if SumWeights(vs[..k]) < r <= SumWeights(vs[..k + 1]) {
      forall j | 0 <= j < k ensures !Covers(vs, r, j) {
        if j + 1 < k {
          SumWeightsGrows(vs, j + 1, k);
        }
      }
    }
    if FirstCover(vs, r, k) && k > 0 {
      assert !Covers(vs, r, k - 1);
    }
    if k == 0 {
      assert vs[..0] == [];
    }
  }

  /** Some variation covers the threshold, so a first one does. */
  lemma {:induction false} FirstCoverExists(vs: seq<Variation>, r: real, k: int)
    requires Covers(vs, r, k)
    ensures exists k' :: FirstCover(vs, r, k')
    decreases k
  {
    if j :| 0 <= j < k && Covers(vs, r, j) {
      FirstCoverExists(vs, r, j);
    } else {
      assert FirstCover(vs, r, k);
    }
  }

  /** The threshold never exceeds the total weight. */
  lemma ThresholdBelowTotal(vs: seq<Variation>, u: real)
    requires ValidConfig(vs)
    requires 0.0 <= u < 1.0
    ensures Threshold(vs, u) <= SumWeights(vs)
  {
    var t := SumWeights(vs);
    assert t >= 0.0 by {
      assert vs[..|vs|] == vs;
      SumWeightsNonNegative(vs, |vs|);
    }
    var p := Threshold(vs, u);
    assert p == u * t;
    ScaleAtMost(u, t);
    assert u * t <= t;
    assert p <= t;
  }

  lemma ScaleAtMost(u: real, t: real)
    requires 0.0 <= u < 1.0 && t >= 0.0
    ensures u * t <= t
  {
    var d := 1.0 - u;
    assert t - u * t == d * t;
    if t > 0.0 {
      assert d * t > 0.0;
    }
  }

  /** With Math.random() in [0, 1) the fallback to the first variation is never taken. */
  lemma DrawNeverFallsBack(vs: seq<Variation>, u: real)
    requires ValidConfig(vs)
    requires 0.0 <= u < 1.0
    ensures exists k :: FirstCover(vs, Threshold(vs, u), k)
  {
    var n := |vs|;
    var r := Threshold(vs, u);
    ThresholdBelowTotal(vs, u);
    assert vs[..(n - 1) + 1] == vs;
    assert Covers(vs, r, n - 1);
    FirstCoverExists(vs, r, n - 1);
  }

  /** One more step of the running sum. */
  lemma SumStep(vs: seq<Variation>, i: nat)
    requires i < |vs|
    ensures SumWeights(vs[..i + 1]) == SumWeights(vs[..i]) + vs[i].weight
  {
    assert vs[..i + 1][..i] == vs[..i];
  }

  // ---------------------------------------------------------------------------
  // Events and storage
  // ---------------------------------------------------------------------------

  /** An event object: its properties as a map, so that a spread overrides. */
  type Event = map<string, string>

  datatype StoredValue = Text(text: string) | Log(events: seq<Event>)

  /** What the page supplies to every event: the clock, location.href, navigator.userAgent. */
  datatype PageContext = PageContext(now: string, href: string, userAgent: string)

  /** The object literal of trackEvent, with `...additionalData` spread last. */
  function NewEvent(ctx: PageContext, variation: string, eventType: string, extra: map<string, string>): Event
  {
    map["timestamp" := ctx.now, "variation" := variation, "eventType" := eventType,
        "url" := ctx.href, "userAgent" := ctx.userAgent] + extra
  }

  /**
   * An event is attributed to the variation it was recorded under unless the
   * extra data names another; the extras the store passes never do.
   */
  lemma NewEventAttribution(ctx: PageContext, variation: string, eventType: string, extra: map<string, string>)
    requires "variation" !in extra || extra["variation"] == variation
    requires "eventType" !in extra
    ensures "variation" in NewEvent(ctx, variation, eventType, extra)
    ensures NewEvent(ctx, variation, eventType, extra)["variation"] == variation
    ensures NewEvent(ctx, variation, eventType, extra)["eventType"] == eventType
    ensures forall k :: k in extra ==> NewEvent(ctx, variation, eventType, extra)[k] == extra[k]
  {
  }

  /** loadAnalytics: the stored log, or an empty one when nothing usable is stored. */
  function LoadAnalytics(storage: map<string, StoredValue>): seq<Event>
  {
    if AnalyticsKey in storage && storage[AnalyticsKey].Log? then storage[AnalyticsKey].events else []
  }

  /** The stored assignment when it is a non-empty (truthy) string. */
  function StoredVariation(storage: map<string, StoredValue>): Option<string>
  {
    if VariationKey in storage && storage[VariationKey].Text? && storage[VariationKey].text != ""
    then Some(storage[VariationKey].text)
    else None
  }

  // ---------------------------------------------------------------------------
  // Results and winner
  // ---------------------------------------------------------------------------

  datatype VariantStats = VariantStats(id: string, title: string, pageViews: nat, formSubmissions: nat, events: nat)

  /** e.variation === id, and e.eventType === kind when a kind is given. */
  predicate Matches(e: Event, id: string, kind: Option<string>)
  {
    && "variation" in e && e["variation"] == id
    && (kind.Some? ==> "eventType" in e && e["eventType"] == kind.value)
  }

  function CountFor(evs: seq<Event>, id: string, kind: Option<string>): nat
  {
    if |evs| == 0 then 0
    else CountFor(evs[..|evs| - 1], id, kind) + (if Matches(evs[|evs| - 1], id, kind) then 1 else 0)
  }

  /** Appending one event raises each count by one exactly when the event matches it. */
  lemma CountAppend(evs: seq<Event>, e: Event, id: string, kind: Option<string>)
    ensures CountFor(evs + [e], id, kind) == CountFor(evs, id, kind) + (if Matches(e, id, kind) then 1 else 0)
  {
    assert (evs + [e])[..|evs|] == evs;
  }

  /**
   * An event logged through trackEvent counts once more for its variation,
   * both among all its events and among those of its type.
   */
  lemma LoggedEventCounted(evs: seq<Event>, ctx: PageContext, variation: string, eventType: string,
                           extra: map<string, string>)
    requires "variation" !in extra || extra["variation"] == variation
    requires "eventType" !in extra
    ensures var e := NewEvent(ctx, variation, eventType, extra);
      && CountFor(evs + [e], variation, Some(eventType)) == CountFor(evs, variation, Some(eventType)) + 1
      && CountFor(evs + [e], variation, None) == CountFor(evs, variation, None) + 1
  {
    var e := NewEvent(ctx, variation, eventType, extra);
    NewEventAttribution(ctx, variation, eventType, extra);
    CountAppend(evs, e, variation, Some(eventType));
    CountAppend(evs, e, variation, None);
  }

  /** Page views and form submissions are disjoint parts of a variation's events. */
  lemma {:induction false} ViewsAndSubmissionsWithinEvents(evs: seq<Event>, id: string)
    ensures CountFor(evs, id, Some("page_view")) + CountFor(evs, id, Some("form_submission")) <= CountFor(evs, id, None)
  {
    if |evs| > 0 {
      ViewsAndSubmissionsWithinEvents(evs[..|evs| - 1], id);
    }
  }

  function StatsFor(v: Variation, evs: seq<Event>): VariantStats
  {
    VariantStats(v.id, v.title, CountFor(evs, v.id, Some("page_view")),
                 CountFor(evs, v.id, Some("form_submission")), CountFor(evs, v.id, None))
  }

  /** getResults: one entry per configured variation, in configuration order. */
  function Results(vs: seq<Variation>, evs: seq<Event>): seq<VariantStats>
  {
    seq(|vs|, i requires 0 <= i < |vs| => StatsFor(vs[i], evs))
  }

  /** conversionRate = formSubmissions / Math.max(pageViews, 1). */
  function Rate(s: VariantStats): (r: real)
    ensures r >= 0.0
    ensures s.pageViews >= 1 ==> r * s.pageViews as real == s.formSubmissions as real
    ensures s.pageViews == 0 ==> r == s.formSubmissions as real
  {
    s.formSubmissions as real / (if s.pageViews >= 1 then s.pageViews else 1) as real
  }

  /**
   * Every configured variation has an entry, with zero counts when it has no
   * events, and its views plus submissions never exceed its events.
   */
  lemma ResultsCoverConfig(vs: seq<Variation>, evs: seq<Event>)
    ensures |Results(vs, evs)| == |vs|
    ensures forall i :: 0 <= i < |vs| ==>
      var s := Results(vs, evs)[i];
      && s.id == vs[i].id && s.title == vs[i].title
      && s.pageViews + s.formSubmissions <= s.events
      && s.events == CountFor(evs, vs[i].id, None)
      && (s.events == 0 ==> s.pageViews == 0 && s.formSubmissions == 0)
  {
    forall i | 0 <= i < |vs| {
      ViewsAndSubmissionsWithinEvents(evs, vs[i].id);
    }
  }

  /** A variation is eligible to win once it has at least ten page views. */
  predicate Qualifies(s: VariantStats)
  {
    s.pageViews >= 10
  }

  /**
   * Entry k wins: it qualifies, converts at a positive rate, no qualifying
   * entry converts better, and every earlier qualifying entry converts worse.
   */
  ghost predicate IsBest(rs: seq<VariantStats>, k: int)
  {
    && 0 <= k < |rs| && Qualifies(rs[k]) && Rate(rs[k]) > 0.0
    && (forall j :: 0 <= j < |rs| && Qualifies(rs[j]) ==> Rate(rs[j]) <= Rate(rs[k]))
    && (forall j :: 0 <= j < k && Qualifies(rs[j]) ==> Rate(rs[j]) < Rate(rs[k]))
  }

  ghost predicate WinnerSpec(rs: seq<VariantStats>, winner: Option<string>)
  {
    && (winner.None? <==> forall j :: 0 <= j < |rs| && Qualifies(rs[j]) ==> Rate(rs[j]) <= 0.0)
    && (winner.Some? ==> exists k :: IsBest(rs, k) && rs[k].id == winner.value)
  }

  /** At most one entry is best, so the winner is determined by the results. */
  lemma BestIsUnique(rs: seq<VariantStats>, k1: int, k2: int)
    requires IsBest(rs, k1) && IsBest(rs, k2)
    ensures k1 == k2
  {
  }

  /** The loop of getWinner over the results, keeping the strictly better entry. */
  method SelectWinner(rs: seq<VariantStats>) returns (winner: Option<string>)
    ensures WinnerSpec(rs, winner)
  {
    winner := None;
    var bestConversionRate := 0.0;
    ghost var w := -1;
    for i := 0 to |rs|
      invariant -1 <= w < i
      invariant w == -1 <==> winner.None?
      invariant w == -1 ==> bestConversionRate == 0.0
      invariant w == -1 ==> forall j :: 0 <= j < i && Qualifies(rs[j]) ==> Rate(rs[j]) <= 0.0
      invariant w >= 0 ==> winner == Some(rs[w].id) && bestConversionRate == Rate(rs[w])
      invariant w >= 0 ==> Qualifies(rs[w]) && bestConversionRate > 0.0
      invariant forall j :: 0 <= j < i && Qualifies(rs[j]) ==> Rate(rs[j]) <= bestConversionRate
      invariant forall j :: 0 <= j < w && Qualifies(rs[j]) ==> Rate(rs[j]) < bestConversionRate
    {
      if Rate(rs[i]) > bestConversionRate && rs[i].pageViews >= 10 {
        bestConversionRate := Rate(rs[i]);
        winner := Some(rs[i].id);
        w := i;
      }
    }
    if w >= 0 {
      assert IsBest(rs, w);
    }
  }

  // ---------------------------------------------------------------------------
  // The store
  // ---------------------------------------------------------------------------

  /** The message of the TypeError raised by `variation.title` when no variation matches. */
  const UndefinedTitleError: string := "TypeError: Cannot read properties of undefined (reading 'title')"

  class ABTestingSystem {
    const variations: seq<Variation>
    var currentVariation: string
    var events: seq<Event>
    var storage: map<string, StoredValue>

    /** The assignment and the event log in memory are the ones persisted. */
    ghost predicate Valid()
      reads this
    {
      && ValidConfig(variations)
      && currentVariation != ""
      && VariationKey in storage && storage[VariationKey] == Text(currentVariation)
      && AnalyticsKey in storage && storage[AnalyticsKey] == Log(events)
    }

    /** loadAnalytics, then init. */
    constructor (stored: map<string, StoredValue>, u: real, ctx: PageContext)
      ensures Valid()
      ensures variations == Configured
      ensures StoredVariation(stored).Some? ==> currentVariation == StoredVariation(stored).value
      ensures StoredVariation(stored).None? ==> IsDraw(variations, Threshold(variations, u), currentVariation)
      ensures events == LoadAnalytics(stored) + [NewEvent(ctx, currentVariation, "page_view", map[])]
      ensures storage == stored[VariationKey := Text(currentVariation)][AnalyticsKey := Log(events)]
    {
      variations := Configured;
      currentVariation := "";
      events := LoadAnalytics(stored);
      storage := stored;
      new;
      ConfiguredIsValid();
      Init(u, ctx);
    }

    /** Reuses a stored assignment verbatim, or draws and persists one; then logs a page view. */
    method Init(u: real, ctx: PageContext)
      requires ValidConfig(variations)
      modifies this
      ensures Valid()
      ensures StoredVariation(old(storage)).Some? ==> currentVariation == StoredVariation(old(storage)).value
      ensures StoredVariation(old(storage)).None? ==> IsDraw(variations, Threshold(variations, u), currentVariation)
      ensures events == old(events) + [NewEvent(ctx, currentVariation, "page_view", map[])]
      ensures storage == old(storage)[VariationKey := Text(currentVariation)][AnalyticsKey := Log(events)]
    {
      var stored := StoredVariation(storage);
      if stored.Some? {
        currentVariation := stored.value;
        assert storage[VariationKey := Text(currentVariation)] == storage;
      } else {
        currentVariation := AssignVariation(u);
        DrawIsConfigured(variations, Threshold(variations, u), currentVariation);
        storage := storage[VariationKey := Text(currentVariation)];
      }
      TrackEvent("page_view", map[], ctx);
    }

    /** The cumulative-weight draw for u = Math.random(). */
    method AssignVariation(u: real) returns (id: string)
      requires |variations| > 0
      ensures IsDraw(variations, Threshold(variations, u), id)
    {
      var totalWeight := 0.0;
      for i := 0 to |variations|
        invariant totalWeight == SumWeights(variations[..i])
      {
        SumStep(variations, i);
        totalWeight := totalWeight + variations[i].weight;
      }
      assert variations[..|variations|] == variations;
      var random := u * totalWeight;
      ghost var r := random;
      assert r == Threshold(variations, u);
      for i := 0 to |variations|
        invariant random == r - SumWeights(variations[..i])
        invariant forall j :: 0 <= j < i ==> !Covers(variations, r, j)
      {
        SumStep(variations, i);
        random := random - variations[i].weight;
        if random <= 0.0 {
          assert FirstCover(variations, r, i);
          return variations[i].id;
        }
      }
      return variations[0].id;
    }

    /** Appends one event for the current variation and persists the whole log. */
    method TrackEvent(eventType: string, extra: map<string, string>, ctx: PageContext)
      modifies this
      ensures events == old(events) + [NewEvent(ctx, currentVariation, eventType, extra)]
      ensures storage == old(storage)[AnalyticsKey := Log(events)]
      ensures currentVariation == old(currentVariation)
      ensures old(Valid()) ==> Valid()
    {
      var event := NewEvent(ctx, currentVariation, eventType, extra);
      events := events + [event];
      SaveAnalytics();
    }

    method SaveAnalytics()
      modifies this`storage
      ensures storage == old(storage)[AnalyticsKey := Log(events)]
    {
      storage := storage[AnalyticsKey := Log(events)];
    }

    /**
     * Appends ab_test_variation and ab_test_title to the submitted entries
     * and logs a form_submission event; a stored id that no variation has
     * makes `variation.title` throw before anything is logged.
     */
    method TrackFormSubmission(formData: seq<(string, string)>, ctx: PageContext)
      returns (res: Result<seq<(string, string)>>)
      requires Valid()
      modifies this
      ensures Valid()
      ensures currentVariation == old(currentVariation)
      ensures FindVariation(variations, currentVariation).None? ==>
        res == Err(UndefinedTitleError) && events == old(events) && storage == old(storage)
      ensures FindVariation(variations, currentVariation).Some? ==>
        var title := FindVariation(variations, currentVariation).value.title;
        && res == Ok(formData + [("ab_test_variation", currentVariation), ("ab_test_title", title)])
        && events == old(events) + [NewEvent(ctx, currentVariation, "form_submission",
                                             map["variation" := currentVariation, "title" := title])]
        && storage == old(storage)[AnalyticsKey := Log(events)]
    {
      var variation := FindVariation(variations, currentVariation);
      if variation.None? {
        return Err(UndefinedTitleError);
      }
      var enhanced := formData + [("ab_test_variation", currentVariation), ("ab_test_title", variation.value.title)];
      TrackEvent("form_submission", map["variation" := currentVariation, "title" := variation.value.title], ctx);
      return Ok(enhanced);
    }

    function GetResults(): seq<VariantStats>
      reads this
    {
      Results(variations, events)
    }

    method GetWinner() returns (winner: Option<string>)
      ensures WinnerSpec(GetResults(), winner)
    {
      winner := SelectWinner(GetResults());
    }

    /** A configured id becomes the persisted assignment and is logged; any other id changes nothing. */
    method SetVariation(variationId: string, ctx: PageContext)
      requires Valid()
      modifies this
      ensures Valid()
      ensures FindVariation(variations, variationId).None? ==>
        currentVariation == old(currentVariation) && events == old(events) && storage == old(storage)
      ensures FindVariation(variations, variationId).Some? ==>
        && currentVariation == variationId
        && events == old(events) + [NewEvent(ctx, variationId, "manual_variation_change",
                                             map["newVariation" := variationId])]
        && storage == old(storage)[VariationKey := Text(variationId)][AnalyticsKey := Log(events)]
    {
      if FindVariation(variations, variationId).Some? {
        currentVariation := variationId;
        storage := storage[VariationKey := Text(variationId)];
        TrackEvent("manual_variation_change", map["newVariation" := variationId], ctx);
      }
    }

    /** Clears the assignment and the log, then runs init again. */
    method ResetTest(u: real, ctx: PageContext)
      requires Valid()
      modifies this
      ensures Valid()
      ensures IsDraw(variations, Threshold(variations, u), currentVariation)
      ensures events == [NewEvent(ctx, currentVariation, "page_view", map[])]
      ensures storage == (old(storage) - {VariationKey, AnalyticsKey})
                           [VariationKey := Text(currentVariation)][AnalyticsKey := Log(events)]
    {
      storage := storage - {VariationKey};
      storage := storage - {AnalyticsKey};
      events := [];
      currentVariation := "";
      Init(u, ctx);
    }
  }

  /**
   * What a store keeps in memory is what the next page load reads back: the
   * assignment is sticky and the log carries over.
   */
  lemma ReloadResumes(ab: ABTestingSystem)
    requires ab.Valid()
    ensures StoredVariation(ab.storage) == Some(ab.currentVariation)
    ensures LoadAnalytics(ab.storage) == ab.events
  {
  }
}
