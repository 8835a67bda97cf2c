# Magic carpet widget: a Dafny model

This project models the logic of the "magic carpet" marketing microsite. It has four parts:

- **Placeholder image resolver** (`images.js.js`). A failing image's `src` is reduced to a `dir/file` lookup key. That key is dispatched through an ordered chain of case-sensitive substring and equality tests to one of the procedural SVG generators. A key no test accepts gets the default document.
- **Carpet customisation state machine** (`carpet-experience.js`). It covers:
  - the `currentState` record and the five option catalogs with their premium flags;
  - the premium gate shared by the selection handlers;
  - the journey advance and the streak and gem counters;
  - the upsell overlay;
  - the values the page derives from the state: pattern, colour, thread, learning-style and league layers, decoration counts and classes, and journey-node classes.
- **Consent-gated tracking and the offer countdown** (`main.js`).
- **Pattern and colour customizer** (`js-carpet-customizer.js`). It has its own premium gate, current and desired choices, and the carpet image path with its `1` defaults.

Everything is written as immutable datatypes and pure functions. Event handlers are steps from one page value to the next, and runs of events are folds over those steps. Browser state that the code reads becomes a field or a parameter:

- the stored consent entry is `Option<Consent>`;
- the countdown takes the millisecond difference between end date and now;
- random draws are values in `[0, 1)`;
- whether a DOM element exists is a boolean.

Modules, one per file:

| module | file | models |
|---|---|---|
| `Base` | base.dfy | `Option`, prefix/suffix/substring predicates, `split`/`join` on a separator |
| `Graphics` | graphics.dfy | the `generate*SVG` family and the shared `<svg …>` envelope |
| `Resolver` | resolver.dfy | the rule table of `createPlaceholderImage`, first match, key extraction of `generateSVG` |
| `ResolverFacts` | resolver_facts.dfy | totality, first-match-wins, shadowed rules |
| `ResolverRouting` | resolver_routing.dfy | the routing of the gold thread and gold glow paths |
| `Catalog` | catalog.dfy | the option catalogs and premium feature panels |
| `Experience` | experience.dfy | `currentState`, the handlers, the overlay, the never-premium invariant |
| `Views` | views.dfy | the derived layers, decorations and node classes |
| `Consent` | consent.dfy | consent buttons, `setConsent`, gated `trackEvent`/`trackPageView` |
| `Countdown` | countdown.dfy | `updateCountdown`'s days/hours arithmetic |
| `Customizer` | customizer.dfy | the customizer's clicks, `updateCarpetVisual`, the call to action |

Generator results are not transcribed as markup. A `Graphic` records three things: the generator, the `switch` branch taken, and the colour strings the branch interpolates. Two calls that agree on all three produce the same document text. The envelope that every switch-based generator shares is modelled as text, with a round trip.

Some behaviour of the code is worth stating up front:

- **Broad rules shadow specific ones.** In the code, the learning-style icon rules (`auditory-learner`, `Auditory`, …) come before the carpet-example rules, which contain those words. As a result:
  - the auditory and kinesthetic carpet-example rules never decide;
  - the visual one decides only through its alt-text alternative;
  - the Amelia/Auditory and Daniel/Kinesthetic persona conditions never decide.

  `ResolverFacts` proves each of these.
- **Learning-style effects are not exclusive.** Choosing the visual style leaves the previous style's overlay in place, and the ` saturate(…)` filters accumulate until a colour change resets the filter (`Views.VisualKeepsOverlay`, `Views.SaturationAccumulates`).
- **Consent and countdown are modelled.** Consent and the countdown are modelled because tracking depends on the stored consent.

The badge branches of the premium-overlay listener (`carpet-experience.js:701-714`) cannot be reached. A badge whose parent is an option is inside that option, so it never gets the listener. Every free-standing premium element therefore opens the pattern panel (`Experience.OverlayAlwaysPattern`).

## Model

| member | source | states |
|---|---|---|
| Graphics.PatternSvg | images.js.js:204-369 | the pattern generator takes the branch named by the variant (or `default`); the result is a pattern drawing |
| Graphics.ThreadSvg | images.js.js:378-544 | the thread generator takes the branch named by the variant (or `default`) |
| Graphics.EffectSvg | images.js.js:548-672 | the effect generator takes the branch named by the variant (or `default`) |
| Graphics.IconSvg | images.js.js:676-760 | the icon generator takes the branch named by the variant (or `default`) |
| Graphics.PersonaSvg | images.js.js:792-841 | the persona generator takes the branch named by the variant (or `default`) |
| Graphics.CarpetExampleSvg | images.js.js:845-939 | the carpet-example generator takes the branch named by the variant (or `default`) |
| Graphics.CarpetCompareSvg | images.js.js:943-1016 | the comparison carpets use no colour argument |
| Graphics.PremiumFeatureSvg | images.js.js:1020-1174 | the premium-feature pictures use no colour argument |
| Graphics.AchievementSvg | images.js.js:1178-1271 | the achievement pictures use no colour argument |
| Graphics.PatternThumbnail | images.js.js:373-375 | a thumbnail is drawn by the pattern generator, on the branch the variant names |
| Graphics.PersonaColourUse | images.js.js:792-841 | every persona, `default` included, depends on the colour: two calls agree iff their effective colours agree |
| Graphics.CarpetExampleColourUse | images.js.js:845-939 | every carpet example, `default` included, fills with the colour: two calls agree iff their effective colours agree |
| Graphics.ThumbnailIsPattern | images.js.js:373-375 | a thumbnail is the full pattern document; omitted colours default to `#1CB0F6` and `#0F8BC0` either way |
| Graphics.PatternColourUse | images.js.js:204-369 | known patterns depend on both colours in order; `default` depends only on the first |
| Graphics.ThreadColourUse | images.js.js:378-544 | silver, gold and magical threads ignore the colour; standard and `default` agree iff their effective colours agree |
| Graphics.EffectColourUse | images.js.js:548-672 | personalized, diamond-sparkle and gold-glow ignore the colour; the other effects use it |
| Graphics.IconColourUse | images.js.js:676-760 | streak, gems and league icons ignore the colour; the other icons use it |
| Graphics.Wrap | images.js.js:369 | every document starts with the `<svg … viewBox="0 0 100 100">` tag and ends with `</svg>` |
| Graphics.EnvelopeRoundTrip | images.js.js:369 | unwrapping a wrapped body gives the body back; every unwrappable document is the wrapping of its body |
| Resolver.AnyHoldsIff | images.js.js:68-69 | a rule's `\|\|`-chain fires iff one of its alternatives holds |
| Resolver.NamedRules | images.js.js:66-200 | the chain has 54 rules; the rules the properties use sit at their source positions with their source tests and calls |
| Resolver.Run | images.js.js:66-200 | no generator call of the chain returns the default document |
| Resolver.FirstFrom | images.js.js:66-200 | the rule found fires, no earlier rule fires, and none is found iff no rule fires |
| Resolver.FirstMatch | images.js.js:66-200 | the rule found fires and no earlier one does; none is found iff no rule of the chain fires |
| Resolver.Resolve | images.js.js:66-200 | the default document comes out iff no rule of the chain fires |
| Resolver.LookupKey | images.js.js:39-48 | no key iff `src` is empty; the key is a suffix of `src` with at most one `/`, never starting with `/`; a `src` without `/` is its own key; a key with `/` is all of `src` or follows a `/` in it; a key without `/` is all of `src`, or follows a single leading `/`, or follows `//` |
| Resolver.KeyPlacement | images.js.js:43-48 | for the key of a split `src`: with a `/` it is all of `src` or follows a `/`; without one it is all of `src`, follows a single leading `/`, or follows `//`; it never starts with `/` |
| Resolver.PlaceholderFor | images.js.js:39-57 | a placeholder is produced iff `src` is non-empty |
| ResolverFacts.DefaultIffNoRule | images.js.js:66-200 | resolution is total, and yields the default document exactly when no rule fires |
| ResolverFacts.FirstMatchWins | images.js.js:66-200 | when rule `i` fires and no earlier rule does, rule `i`'s call decides, whatever later rules say |
| ResolverFacts.EarlierRulePreempts | images.js.js:66-200 | a later rule never decides when an earlier one fires |
| ResolverFacts.FiresEither | images.js.js:114-127 | a rule with two `includes` alternatives fires iff the key holds either needle |
| ResolverFacts.ClassicKeyFiresBoth | images.js.js:68-185 | a key naming `patterns/classic` fires both the classic rule and the generic `pattern` rule |
| ResolverFacts.ClassicBeatsGenericPattern | images.js.js:68-185 | such a key still resolves to the classic pattern with the caller's colours |
| ResolverFacts.AuditoryNeedles | images.js.js:116-145 | the auditory carpet-example needles contain the auditory icon needles |
| ResolverFacts.AuditoryCarpetImpliesIcon | images.js.js:116-145 | every key the auditory carpet-example rule accepts, the auditory icon rule accepts |
| ResolverFacts.AuditoryCarpetShadowed | images.js.js:116-145 | the auditory carpet-example rule never decides |
| ResolverFacts.KinestheticNeedles | images.js.js:118-147 | the kinesthetic carpet-example needles contain the kinesthetic icon needles |
| ResolverFacts.KinestheticCarpetImpliesIcon | images.js.js:118-147 | every key the kinesthetic carpet-example rule accepts, the kinesthetic icon rule accepts |
| ResolverFacts.KinestheticCarpetShadowed | images.js.js:118-147 | the kinesthetic carpet-example rule never decides |
| ResolverFacts.VisualNeedle | images.js.js:114-143 | `carpet-visual-learner` contains `visual-learner` |
| ResolverFacts.VisualCarpetPathImpliesIcon | images.js.js:114-143 | the path alternative of the visual carpet-example rule fires the visual icon rule |
| ResolverFacts.VisualCarpetOnlyByAltText | images.js.js:114-143 | the visual carpet-example rule decides only for keys with its alt text and without its path name |
| ResolverFacts.PersonaAltTextShadowed | images.js.js:116-139 | the Amelia and Daniel persona rules decide only through their `persona-*` path names |
| ResolverFacts.LookupKeyIdempotent | images.js.js:43-48 | extracting the key of a non-empty key gives the same key back |
| ResolverRouting.PatternGroupSilent | images.js.js:68-77 | a key without `p` that is none of the five bare pattern file names fires no pattern rule |
| ResolverRouting.ThumbnailGroupSilent | images.js.js:80-89 | a key without `m` fires no thumbnail rule |
| ResolverRouting.ThreadGroupSilent | images.js.js:92-99 | a key without `h` that is none of the four bare thread file names fires no thread rule |
| ResolverRouting.GoldThreadRoute | images.js.js:92-97 | a key that starts with `threads/gold` or equals `gold.svg`, has no `p` and no `m`, does not hold both `t` and `n` or both `t` and `i`, and is none of the earlier bare file names, is decided by the gold thread rule and draws the gold thread with the first colour |
| ResolverRouting.GoldThreadByPath | images.js.js:96-97 | `threads/gold.svg` is decided by the gold thread rule and draws the gold thread |
| ResolverRouting.GoldThreadByFileName | images.js.js:96-97 | the bare `gold.svg` is decided by the gold thread rule, by equality |
| ResolverRouting.GoldGlowRoute | images.js.js:102-111 | a key with `effects/gold-glow` that avoids the earlier rules' needles resolves to the gold-glow effect |
| ResolverRouting.GoldGlowNotThread | images.js.js:96-111 | `effects/gold-glow.svg` does not reach the gold thread; it is decided by the gold-glow rule |
| Catalog.PremiumFlag | carpet-experience.js:56-175 | a flag exists iff the key is in that dimension's catalog |
| Catalog.CatalogSplit | carpet-experience.js:56-175 | each catalog's premium keys and free keys are exactly the ones listed |
| Catalog.FeatureFor | carpet-experience.js:732 | a known feature type gets its panel; any other gets the pattern panel |
| Catalog.FeaturePanels | carpet-experience.js:177-198 | every dimension has a panel, and `journey` falls back to the pattern panel |
| Experience.SelectOutcome | carpet-experience.js:475-612 | unknown key: fault. Premium option without a premium account: upsell for that dimension and nothing else. Otherwise exactly that dimension's key changes |
| Experience.JourneyOutcome | carpet-experience.js:615-646 | premium node without premium: `journey` upsell whatever the id; any id but the next: nothing; the next id: it becomes current and gems rise by 25 |
| Experience.OverlayFeature | carpet-experience.js:697-714 | the feature type is always a known panel; a non-badge, or a badge without an option parent, opens `pattern` |
| Experience.Listens | carpet-experience.js:688-695 | an element that gets the listener always opens `pattern`, badge or not |
| Experience.JourneyParentSilent | carpet-experience.js:688-695 | a premium element whose parent is a journey node gets no listener, so its click changes nothing |
| Experience.Perform | carpet-experience.js:475-646 | only an applied outcome changes the state, to exactly its new state; an upsell shows the overlay with its panel; no change and a fault leave the page as it was |
| Experience.ShowOverlay | carpet-experience.js:730-744 | the overlay becomes visible with the panel of the feature type; the state is untouched |
| Experience.Step | carpet-experience.js:475-685 | no event changes `isPremium`; streak, gems and the current node never decrease |
| Experience.Run | carpet-experience.js:475-685 | no run of events changes `isPremium` |
| Experience.InitialGood | carpet-experience.js:43-53 | the initial state has no premium account, only free options, and the starting counters |
| Experience.StepGood | carpet-experience.js:475-685 | every event keeps the page free of premium options and the account non-premium |
| Experience.RunGood | carpet-experience.js:475-685 | the invariant holds after any run of events |
| Experience.NeverPremium | carpet-experience.js:43-175 | in every reachable state: not premium, and none of arabesque, royal, gold, orange, gold or magical thread, personalized, diamond is applied |
| Experience.FreeAt | carpet-experience.js:56-175 | a state with only free options holds one of its catalog's free keys in every dimension |
| Experience.RunMonotone | carpet-experience.js:649-685 | counters never decrease along any run |
| Experience.CounterSteps | carpet-experience.js:626-675 | a streak click adds 1, a gem click adds 10, an advance adds 25 gems |
| Experience.OverlayAlwaysPattern | carpet-experience.js:688-719 | a premium-element click either does nothing or shows the pattern panel |
| Views.PatternLayer | carpet-experience.js:216-227 | a known pattern sets its image and the classes `carpet-pattern` and `pattern-<key>`; an unknown one changes nothing |
| Views.ColorLayer | carpet-experience.js:230-245 | a known colour sets the base colour and resets the filter to a drop shadow of its secondary colour |
| Views.StyleSurface | carpet-experience.js:306-322 | visual appends `saturate(1.3)`; auditory and kinesthetic set their overlay; personalized does both; nothing is reset |
| Views.StyleLayer | carpet-experience.js:290-324 | a known style sets `carpet-visual` plus its effect class and writes the surface |
| Views.VisualKeepsOverlay | carpet-experience.js:307-312 | choosing visual keeps the overlay an earlier style set |
| Views.SaturationAccumulates | carpet-experience.js:235-308 | saturations pile up across visual choices; a colour change resets the filter |
| Views.ThreadCount | carpet-experience.js:266 | 30 decorations from a streak of 30 on, the streak itself below that, none for a negative streak |
| Views.Tier | carpet-experience.js:279-283 | golden iff the thread is gold or magical; silver iff silver |
| Views.ThreadLayer | carpet-experience.js:248-287 | a known thread sets its image and animation, the decoration count and the tier |
| Views.ThreadCountSteps | carpet-experience.js:649-657 | each streak click adds one decoration until there are 30 |
| Views.NeverGolden | carpet-experience.js:279-283 | in any reachable state the golden thread class never shows |
| Views.GemCount | carpet-experience.js:398 | at most 20 decorations; 20 from 200 gems on; below that, the number of whole tens |
| Views.GemColours | carpet-experience.js:409-411 | one colour per decoration, each from blue, green, purple, gold; a draw below 0.25 gives blue |
| Views.GemCountMonotone | carpet-experience.js:398 | more gems never show fewer decorations |
| Views.ShadowOpacity | carpet-experience.js:338 | opacity at least 0.1, exactly 0.1 from height 40 on, `0.5 - h/100` below |
| Views.LeagueLayer | carpet-experience.js:327-351 | a look iff the league is known; the league's height and flight animation, shadow opacity `max(0.1, 0.5 - h/100)`, shadow scale `1 + h/100`; sparkle iff diamond, glow iff gold |
| Views.LeagueLooks | carpet-experience.js:327-351 | the four leagues' heights, shadows (0.4, 0.2, 0.1, 0.1), scales and effects |
| Views.Status | carpet-experience.js:423-434 | completed iff id < current, active iff id = current, next iff id = current + 1; a `NaN` id gets none |
| Views.AdvanceShiftsStatus | carpet-experience.js:626-631 | after an advance, the old active node is completed, the new node active, the one after next |
| Views.Locked | carpet-experience.js:437-441 | only a premium node is locked, and never for a premium visitor |
| Views.PremiumNodesStayLocked | carpet-experience.js:437-441 | in every reachable state a premium node is locked |
| Consent.ChoiceConsent | main.js:108-141 | every button passes `essential`; analytics and marketing are set iff accept-all |
| Consent.EnabledGroups | main.js:168-183 | essential always; analytics and marketing iff their flags |
| Consent.AnalyticsAllowed | main.js:207-208 | nothing stored means no tracking; tracking needs a stored `analytics` flag |
| Consent.SetConsent | main.js:148-163 | stores the record, applies it, hides the banner, appends exactly one compliance record, tracks nothing |
| Consent.Click | main.js:108-141 | after any button essential is stored, and analytics is allowed iff accept-all |
| Consent.Gate | main.js:205-221 | appends the event iff analytics consent is stored, otherwise changes nothing |
| Consent.TrackEvent | main.js:205-221 | the log changes iff analytics consent is stored, and then only by the one event |
| Consent.TrackPageView | main.js:226-241 | the log changes iff analytics consent is stored, and then only by the one page view |
| Consent.Load | main.js:91-100 | the banner shows iff it exists and nothing is stored; the home page view is tracked iff stored consent allows |
| Consent.NoRecordNoEmit | main.js:207-213 | with nothing stored, neither tracking call changes anything |
| Consent.SetThenTrack | main.js:148-150 | after `setConsent(o)` an event is tracked iff `o.analytics` |
| Consent.ButtonRecords | main.js:108-141 | accept-all stores all flags set; reject-all and customize store the same essential-only record |
| Consent.TrackingAppendsOnly | main.js:205-221 | tracking only appends to the log |
| Consent.LastClickDecides | main.js:148-163 | after two clicks, the second decides consent and groups, and both are recorded in order |
| Consent.TrackAll | main.js:205-221 | with fixed consent, a run of calls logs exactly those events when allowed and nothing otherwise |
| Countdown.Show | main.js:68-78 | expired iff the difference is at most 0; otherwise hours < 24 and days·24 + hours is the whole hours left |
| Countdown.ShowUnique | main.js:75-76 | the shown days and hours are the unique such split of the time left |
| Countdown.FreshOffer | main.js:60-78 | a difference of exactly 14 days shows 14 days and 0 hours |
| Countdown.FirstDisplay | main.js:60-82 | the first display: exactly 14 days shows 14 days and 0 hours; up to one hour less shows 13 days and 23 hours |
| Countdown.ShowMonotone | main.js:64-78 | as time passes the shown total never rises, and expiry is final |
| Customizer.Text | js-carpet-customizer.js:24 | a present attribute is its own text; a missing one becomes `undefined` |
| Customizer.OrOne | js-carpet-customizer.js:87-88 | never empty; a missing or empty value reads as `1`, any other as itself |
| Customizer.Redraw | js-carpet-customizer.js:86-102 | the image shows the current pair (defaults `1`); one `update_visual` event goes through the consent gate; nothing else changes |
| Customizer.ImageOf | js-carpet-customizer.js:91-92 | the image path starts with `images/carpets/pattern-` and ends with the colour and `.jpg` |
| Customizer.PremiumPick | js-carpet-customizer.js:31-38 | a premium pick keeps the image and the current pair |
| Customizer.FreePick | js-carpet-customizer.js:39-49 | a free pick sets exactly the current id of its row and redraws from it |
| Customizer.Click | js-carpet-customizer.js:22-83 | the clicked option becomes the only active one in its row; nothing happens before setup is wired |
| Customizer.Cta | js-carpet-customizer.js:105-110 | the call to action tracks `premium_cta_click`, when it exists |
| Customizer.Step | js-carpet-customizer.js:22-110 | no click changes the option rows or the wiring |
| Customizer.Run | js-carpet-customizer.js:22-110 | no run of clicks changes the option rows or the wiring |
| Customizer.ClickConsistent | js-carpet-customizer.js:22-83 | a click keeps the current pair free and the image showing it |
| Customizer.RunConsistent | js-carpet-customizer.js:22-83 | over any run of clicks, only free ids become current, and the image always shows the current pair |
| Customizer.PremiumClick | js-carpet-customizer.js:31-38 | a premium click shows the overlay and records the desired id; the current pair and the image stay; with consent exactly one `premium_*_click` event is tracked, without it nothing |
| Customizer.FreePatternClick | js-carpet-customizer.js:39-48 | a free pattern click shows that pattern in the current colour, hides the overlay, keeps the desired pair |
| Customizer.FreeClickEvents | js-carpet-customizer.js:39-101 | with consent a free click tracks `update_visual` and then `free_*_click`; without consent, nothing |
| Customizer.NoOverlayPremium | js-carpet-customizer.js:28-33 | without an overlay element a premium click stores and tracks nothing |
| Customizer.MissingIdImage | js-carpet-customizer.js:24-91 | a missing id shows pattern `undefined`; an empty id falls back to `1` |

## Left out

- DOM wiring is not modelled beyond the state it reads and writes:
  - element lookup, listeners, and `classList` and `style` writes;
  - the `.active` classes of the five selection rows in carpet-experience.js;
  - tab switching and the mobile menus;
  - the cookie banner of carpet-experience.js (868-895), which keeps its own flag.
- Timer-driven transient effects are not modelled: level-up, magical transition, counter pulses, the welcome animation, the `processImage` reload trick, and the hourly countdown refresh.
- `Math.random` layout is not modelled: decoration positions, sizes, rotations and delays, particles, bursts and the mouse tilt. Only counts, classes and gem colour draws are kept; the draws are parameters.
- Browser and library calls become parameters or fields: `btoa` and the data URI, `localStorage`, `JSON`, `console`, `Date`, `navigator` and `alert`.
- The countdown takes the millisecond difference directly. The time between the two clock readings at page load is a parameter too: `Countdown.FirstDisplay` covers any gap of at most an hour. `setDate` and daylight-saving shifts are not modelled. The minutes it computes are not modelled, because they are never shown. The number-to-text formatting of the display is not modelled.
- Floating-point values are modelled as exact reals: the shadow opacity and scale of the league layer, and the random draws. JavaScript's doubles can differ in the last digits (at height 39 the opacity is 0.10999999999999999 rather than 0.11).
- The SVG markup inside each generator branch, and the panel description texts, are not transcribed.
- Keys inherited through the JavaScript prototype chain (`constructor` and the like) are not modelled. With such a key, a catalog lookup returns a function rather than `undefined`. The model treats every key outside the listed entries as missing.
- images.js is not part of this model. It is a static URL table with preloading and no logic.
- Resolver.PlaceholderFor: its contract states only when a placeholder is produced. Which placeholder comes out is stated by the resolver lemmas about `Resolve`.
- ResolverRouting: concrete routes are proved for the gold thread and gold glow paths only, not for every image path of the pages.
- Experience.Step: its own contract covers only the account and the counters. The selection, journey and overlay behaviour is stated by the outcome functions it applies and by the invariant lemmas.
