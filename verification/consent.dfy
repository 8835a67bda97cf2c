/**
 * Cookie consent and consent-gated tracking of main.js: the three banner
 * buttons, `setConsent`, `applyStoredConsent`, `trackConsentSelection`,
 * and the consent check shared by `trackEvent` and `trackPageView`.
 *
 * The browser's storage entry `cookie_consent_status` is the `stored`
 * field of a `Site`; the console lines the functions write become the
 * `enabled` groups, the `records` kept for compliance and the `tracked`
 * analytics events. The clock and the user agent are parameters.
 */
module Consent {
  import opened Base

  /** The consent object passed to `setConsent`. */
  datatype Consent = Consent(essential: bool, analytics: bool, marketing: bool)

  /** The three buttons of the banner. */
  datatype Choice = AcceptAll | RejectAll | Customize

  /** A cookie group `applyStoredConsent` switches on. */
  datatype Group = Essential | Analytics | Marketing

  /** The object `trackConsentSelection` records. */
  datatype ConsentRecord = ConsentRecord(
    timestamp: string, essential: bool, analytics: bool, marketing: bool, userAgent: string)

  /** What the tracking functions log when consent allows it. */
  datatype Tracked =
    | Event(category: string, action: string, tag: string)
    | PageView(pageName: string, pagePath: string)

  /** The page: stored consent, banner visibility, the groups switched on,
      the compliance records and the tracked events, oldest first. */
  datatype Site = Site(
    stored: Option<Consent>,
    bannerShown: bool,
    enabled: set<Group>,
    records: seq<ConsentRecord>,
    tracked: seq<Tracked>)

  /** The object each button passes to `setConsent`: everything for
      accept-all; only the essential group for reject-all and for
      customize, which in this version rejects after its notice. */
  function ChoiceConsent(c: Choice): (o: Consent)
    ensures o.essential
    ensures o.analytics <==> c == AcceptAll
    ensures o.marketing <==> c == AcceptAll
  {
    match c
    case AcceptAll => Consent(true, true, true)
    case RejectAll => Consent(true, false, false)
    case Customize => Consent(true, false, false)
  }

  /** `applyStoredConsent`: the essential group always, analytics and
      marketing when their flags are set. */
  function EnabledGroups(o: Consent): (g: set<Group>)
    ensures Essential in g
    ensures Analytics in g <==> o.analytics
    ensures Marketing in g <==> o.marketing
  {
    {Essential} + (if o.analytics then {Analytics} else {}) + (if o.marketing then {Marketing} else {})
  }

  /** The consent check of `trackEvent` and `trackPageView`: a stored
      record whose `analytics` flag is set. */
  function AnalyticsAllowed(stored: Option<Consent>): (b: bool)
    ensures stored.None? ==> !b
    ensures b ==> stored.value.analytics
  {
    stored.Some? && stored.value.analytics
  }

  /** `setConsent(o)`: store `o`, apply it, hide the banner, record it. */
  function SetConsent(s: Site, o: Consent, now: string, agent: string): (r: Site)
    ensures r.stored == Some(o)
    ensures !r.bannerShown
    ensures r.enabled == EnabledGroups(o)
    ensures |r.records| == |s.records| + 1 && r.records[..|s.records|] == s.records
    ensures r.records[|s.records|] == ConsentRecord(now, o.essential, o.analytics, o.marketing, agent)
    ensures r.tracked == s.tracked
  {
    s.(stored := Some(o), bannerShown := false, enabled := EnabledGroups(o),
       records := s.records + [ConsentRecord(now, o.essential, o.analytics, o.marketing, agent)])
  }

  /** A click on one of the banner buttons. */
  function Click(s: Site, c: Choice, now: string, agent: string): (r: Site)
    ensures r.stored.Some? && r.stored.value.essential
    ensures AnalyticsAllowed(r.stored) <==> c == AcceptAll
  {
    SetConsent(s, ChoiceConsent(c), now, agent)
  }

  /** Appends `t` when analytics consent is stored, and otherwise leaves
      the site as it was. */
  function Gate(s: Site, t: Tracked): (r: Site)
    ensures AnalyticsAllowed(s.stored) ==> r.tracked == s.tracked + [t]
    ensures !AnalyticsAllowed(s.stored) ==> r == s
    ensures r.stored == s.stored && r.enabled == s.enabled && r.records == s.records
    ensures r.bannerShown == s.bannerShown
  {
    if AnalyticsAllowed(s.stored) then s.(tracked := s.tracked + [t]) else s
  }

  /** `trackEvent(category, action, tag)`. */
  function TrackEvent(s: Site, category: string, action: string, tag: string): (r: Site)
    ensures r.tracked != s.tracked <==> AnalyticsAllowed(s.stored)
    ensures r.tracked != s.tracked ==> r.tracked == s.tracked + [Event(category, action, tag)]
  {
    Gate(s, Event(category, action, tag))
  }

  /** `trackPageView(pageName)`, with the page's path as a parameter. */
  function TrackPageView(s: Site, pageName: string, path: string): (r: Site)
    ensures r.tracked != s.tracked <==> AnalyticsAllowed(s.stored)
    ensures r.tracked != s.tracked ==> r.tracked == s.tracked + [PageView(pageName, path)]
  {
    Gate(s, PageView(pageName, path))
  }

  /** Page load: `initCookieConsent` reads the stored entry (hiding the
      banner and applying it when present), then `trackPageView('home')`.
      `bannerPresent` says whether the page has a banner at all; without
      one the consent setup returns early. */
  function Load(stored: Option<Consent>, bannerPresent: bool, path: string): (r: Site)
    ensures r.stored == stored
    ensures r.bannerShown <==> bannerPresent && stored.None?
    ensures r.records == []
    ensures r.tracked == (if AnalyticsAllowed(stored) then [PageView("home", path)] else [])
  {
    var applied := if bannerPresent && stored.Some? then EnabledGroups(stored.value) else {};
    var s := Site(stored, bannerPresent && stored.None?, applied, [], []);
    TrackPageView(s, "home", path)
  }

  // ---------------------------------------------------------------------
  // Properties

  /** No stored record, no tracking: a first visit emits nothing until a
      button is clicked. */
  lemma NoRecordNoEmit(s: Site, category: string, action: string, tag: string, name: string, path: string)
    requires s.stored.None?
    ensures TrackEvent(s, category, action, tag) == s
    ensures TrackPageView(s, name, path) == s
  {
  }

  /** After `setConsent(o)` a tracking call emits exactly when
      `o.analytics` holds, whatever was stored before. */
  lemma SetThenTrack(s: Site, o: Consent, now: string, agent: string,
                     category: string, action: string, tag: string)
    ensures var r := SetConsent(s, o, now, agent);
            (TrackEvent(r, category, action, tag).tracked != r.tracked <==> o.analytics)
  {
  }

  /** The three buttons: accept-all stores all flags set; reject-all and
      customize store the same essential-only record. */
  lemma ButtonRecords(s: Site, now: string, agent: string)
    ensures Click(s, AcceptAll, now, agent).stored == Some(Consent(true, true, true))
    ensures Click(s, RejectAll, now, agent) == Click(s, Customize, now, agent)
    ensures Click(s, RejectAll, now, agent).stored == Some(Consent(true, false, false))
  {
  }

  /** The sequence of tracked events only grows: tracking never rewrites
      history. */
  lemma TrackingAppendsOnly(s: Site, t: Tracked)
    ensures |Gate(s, t).tracked| >= |s.tracked|
    ensures Gate(s, t).tracked[..|s.tracked|] == s.tracked
  {
  }

  /** The last click decides: clicking twice leaves the consent, groups
      and banner of the second click, with both clicks recorded. */
  lemma LastClickDecides(s: Site, c1: Choice, c2: Choice, t1: string, t2: string, agent: string)
    ensures var r := Click(Click(s, c1, t1, agent), c2, t2, agent);
            && r.stored == Some(ChoiceConsent(c2))
            && r.enabled == EnabledGroups(ChoiceConsent(c2))
            && |r.records| == |s.records| + 2
            && r.records[|s.records|].timestamp == t1
            && r.records[|s.records| + 1].timestamp == t2
  {
  }

  /** Events tracked over a run of calls with consent fixed: every call
      contributes exactly one entry when analytics is allowed, none when it
      is not. */
  function TrackAll(s: Site, events: seq<Tracked>): (r: Site)
    ensures r.stored == s.stored
    ensures AnalyticsAllowed(s.stored) ==> r.tracked == s.tracked + events
    ensures !AnalyticsAllowed(s.stored) ==> r == s
    decreases |events|
  {
    if events == [] then s
    else
      var r := TrackAll(Gate(s, events[0]), events[1..]);
      assert AnalyticsAllowed(s.stored) ==> r.tracked == s.tracked + [events[0]] + events[1..];
      assert [events[0]] + events[1..] == events;
      r
  }
}
