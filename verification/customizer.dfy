/**
 * The pattern-and-colour customizer of js-carpet-customizer.js: two rows
 * of option buttons, a preview container whose data attributes hold the
 * current and the desired pattern and colour, the carpet image built from
 * the current pair, the premium overlay, and the events sent through the
 * consent-gated `trackEvent` of main.js.
 */
module Customizer {
  import opened Base
  import Consent

  /** An option button: its `data-pattern-id` or `data-color-id` (`None`
      when the attribute is missing) and whether it has the `premium`
      class. */
  datatype Button = Button(id: Option<string>, premium: bool)

  /** Which row a button is in. */
  datatype Row = PatternRow | ColorRow

  /** The preview container's data attributes; `None` is an attribute
      never set. */
  datatype Preview = Preview(
    currentPattern: Option<string>, currentColor: Option<string>,
    desiredPattern: Option<string>, desiredColor: Option<string>)

  /** The carpet image's `src` and `alt`. */
  datatype Image = Image(src: string, alt: string)

  /** The customizer's page. `wired` is whether setup got past its early
      return (both rows non-empty, a preview container and an image);
      `overlayPresent` whether there is a premium overlay, and
      `overlayShown` whether it is displayed; `image` is `None` until the
      first redraw; `site` holds consent and the tracked events. */
  datatype Widget = Widget(
    patterns: seq<Button>, colors: seq<Button>,
    activePatterns: set<nat>, activeColors: set<nat>,
    wired: bool, ctaPresent: bool, overlayPresent: bool, overlayShown: bool,
    preview: Preview, image: Option<Image>, site: Consent.Site)
  {
    function Buttons(row: Row): seq<Button> {
      match row
      case PatternRow => patterns
      case ColorRow => colors
    }
  }

  /** The events: a click on the `i`-th button of a row, or on the
      overlay's call to action. */
  datatype Event = OptionClick(row: Row, i: nat) | CtaClick

  /** The text a possibly missing attribute turns into when it is written
      into another attribute or a template string. */
  function Text(v: Option<string>): (t: string)
    ensures v.Some? ==> t == v.value
    ensures v.None? ==> t == "undefined"
  {
    match v
    case None => "undefined"
    case Some(s) => s
  }

  /** `value || '1'`: a missing or empty attribute reads as `1`. */
  function OrOne(v: Option<string>): (t: string)
    ensures t != ""
    ensures v.Some? && v.value != "" ==> t == v.value
    ensures v.None? || v.value == "" ==> t == "1"
  {
    if v.None? || v.value == "" then "1" else v.value
  }

  /** The image of a pattern and a colour. */
  function ImageOf(p: string, c: string): (r: Image)
    ensures IsPrefix("images/carpets/pattern-", r.src) && IsSuffix(".jpg", r.src)
    ensures IsSuffix(c + ".jpg", r.src)
  {
    Image("images/carpets/pattern-" + p + "-color-" + c + ".jpg",
          "Magic carpet with pattern " + p + " and color " + c)
  }

  /** `updateCarpetVisual`: redraw from the current pair (each defaulting
      to `1`) and track the redraw. */
  function Redraw(w: Widget): (r: Widget)
    ensures r.image == Some(ImageOf(OrOne(w.preview.currentPattern), OrOne(w.preview.currentColor)))
    ensures r.site == Consent.TrackEvent(w.site, "carpet_customizer", "update_visual",
                                         "Pattern " + OrOne(w.preview.currentPattern)
                                         + ", Color " + OrOne(w.preview.currentColor))
    ensures r.(image := w.image, site := w.site) == w
  {
    var p := OrOne(w.preview.currentPattern);
    var c := OrOne(w.preview.currentColor);
    w.(image := Some(ImageOf(p, c)),
       site := Consent.TrackEvent(w.site, "carpet_customizer", "update_visual", "Pattern " + p + ", Color " + c))
  }

  /** The row's words in the tracked actions and labels. */
  function Noun(row: Row): (string, string) {
    match row
    case PatternRow => ("pattern", "Pattern ")
    case ColorRow => ("color", "Color ")
  }

  /** A premium pick: open the overlay, store the id as desired, track
      the click. Without an overlay element the handler throws before any
      of this. */
  function PremiumPick(w: Widget, row: Row, id: string): (r: Widget)
    ensures r.image == w.image && r.site.stored == w.site.stored
    ensures r.preview.currentPattern == w.preview.currentPattern
    ensures r.preview.currentColor == w.preview.currentColor
    ensures r.patterns == w.patterns && r.colors == w.colors && r.wired == w.wired
    ensures r.activePatterns == w.activePatterns && r.activeColors == w.activeColors
    ensures !w.overlayPresent ==> r == w
  {
    if !w.overlayPresent then w
    else
      var pv := if row == PatternRow then w.preview.(desiredPattern := Some(id))
                else w.preview.(desiredColor := Some(id));
      w.(overlayShown := true, preview := pv,
         site := Consent.TrackEvent(w.site, "carpet_customizer", "premium_" + Noun(row).0 + "_click", Noun(row).1 + id))
  }

  /** A free pick: store the id as current, redraw, then hide the overlay
      and track the click. Without an overlay element the handler throws
      after the redraw. */
  function FreePick(w: Widget, row: Row, id: string): (r: Widget)
    ensures row == PatternRow ==> r.preview == w.preview.(currentPattern := Some(id))
    ensures row == ColorRow ==> r.preview == w.preview.(currentColor := Some(id))
    ensures r.image == Some(ImageOf(OrOne(r.preview.currentPattern), OrOne(r.preview.currentColor)))
    ensures r.patterns == w.patterns && r.colors == w.colors && r.wired == w.wired
    ensures r.activePatterns == w.activePatterns && r.activeColors == w.activeColors
  {
    var pv := if row == PatternRow then w.preview.(currentPattern := Some(id))
              else w.preview.(currentColor := Some(id));
    var w2 := Redraw(w.(preview := pv));
    if !w2.overlayPresent then w2
    else
      w2.(overlayShown := false,
          site := Consent.TrackEvent(w2.site, "carpet_customizer", "free_" + Noun(row).0 + "_click", Noun(row).1 + id))
  }

  /** A click on the `i`-th button of a row. The clicked button becomes the
      only active one in its row; then a premium button is a premium pick
      and a free one a free pick. Before setup is wired nothing listens. */
  function Click(w: Widget, row: Row, i: nat): (r: Widget)
    requires i < |w.Buttons(row)|
    ensures !w.wired ==> r == w
    ensures w.wired && row == PatternRow ==> r.activePatterns == {i} && r.activeColors == w.activeColors
    ensures w.wired && row == ColorRow ==> r.activeColors == {i} && r.activePatterns == w.activePatterns
    ensures r.patterns == w.patterns && r.colors == w.colors && r.wired == w.wired
  {
    if !w.wired then w
    else
      var b := w.Buttons(row)[i];
      var w1 := if row == PatternRow then w.(activePatterns := {i}) else w.(activeColors := {i});
      if b.premium then PremiumPick(w1, row, Text(b.id)) else FreePick(w1, row, Text(b.id))
  }

  /** The call to action tracks one event, when it exists. */
  function Cta(w: Widget): (r: Widget)
    ensures r.(site := w.site) == w
    ensures r.patterns == w.patterns && r.colors == w.colors && r.wired == w.wired
    ensures w.wired && w.ctaPresent ==>
              r.site == Consent.TrackEvent(w.site, "carpet_customizer", "premium_cta_click", "Unlock Premium")
    ensures !(w.wired && w.ctaPresent) ==> r == w
  {
    if w.wired && w.ctaPresent then
      w.(site := Consent.TrackEvent(w.site, "carpet_customizer", "premium_cta_click", "Unlock Premium"))
    else w
  }

  /** Events refer to buttons that exist. */
  predicate ValidEvent(w: Widget, e: Event) {
    e.OptionClick? ==> e.i < |w.Buttons(e.row)|
  }

  function Step(w: Widget, e: Event): (r: Widget)
    requires ValidEvent(w, e)
    ensures r.patterns == w.patterns && r.colors == w.colors && r.wired == w.wired
  {
    match e
    case OptionClick(row, i) => Click(w, row, i)
    case CtaClick => Cta(w)
  }

  predicate AllValid(w: Widget, events: seq<Event>) {
    forall k :: 0 <= k < |events| ==> ValidEvent(w, events[k])
  }

  function Run(w: Widget, events: seq<Event>): (r: Widget)
    requires AllValid(w, events)
    ensures r.patterns == w.patterns && r.colors == w.colors && r.wired == w.wired
    decreases |events|
  {
    if events == [] then w
    else
      var w1 := Step(w, events[0]);
      assert AllValid(w1, events[1..]) by {
        forall k | 0 <= k < |events[1..]|
          ensures ValidEvent(w1, events[1..][k])
        {
          assert ValidEvent(w, events[k + 1]);
        }
      }
      Run(w1, events[1..])
  }

  // ---------------------------------------------------------------------
  // Properties

  /** The ids of the free buttons of a row, as written into the preview. */
  function FreeIds(bs: seq<Button>): set<string> {
    set i | 0 <= i < |bs| && !bs[i].premium :: Text(bs[i].id)
  }

  /** The invariant of the preview: the current pattern and colour are
      free ids (premium ids only ever become desired), and the image, once
      drawn, shows the current pair. */
  ghost predicate Consistent(w: Widget) {
    && (w.preview.currentPattern.Some? ==> w.preview.currentPattern.value in FreeIds(w.patterns))
    && (w.preview.currentColor.Some? ==> w.preview.currentColor.value in FreeIds(w.colors))
    && (w.image.Some? ==> w.image.value == ImageOf(OrOne(w.preview.currentPattern), OrOne(w.preview.currentColor)))
  }

  /** A page before any click, whatever its buttons and consent. */
  lemma FreshConsistent(w: Widget)
    requires w.preview == Preview(None, None, None, None) && w.image == None
    ensures Consistent(w)
  {
  }

  lemma {:induction false} ClickConsistent(w: Widget, row: Row, i: nat)
    requires i < |w.Buttons(row)| && Consistent(w)
    ensures Consistent(Click(w, row, i))
  {
    if w.wired {
      var b := w.Buttons(row)[i];
      var w1 := if row == PatternRow then w.(activePatterns := {i}) else w.(activeColors := {i});
      SameConsistency(w, w1);
      if b.premium {
        PremiumPickConsistent(w1, row, Text(b.id));
      } else {
        FreeIdIn(w.Buttons(row), i);
        FreePickConsistent(w1, row, Text(b.id));
      }
    }
  }

  lemma SameConsistency(w: Widget, w1: Widget)
    requires Consistent(w)
    requires w1.preview == w.preview && w1.image == w.image
    requires w1.patterns == w.patterns && w1.colors == w.colors
    ensures Consistent(w1)
  {
  }

  lemma PremiumPickConsistent(w: Widget, row: Row, id: string)
    requires Consistent(w)
    ensures Consistent(PremiumPick(w, row, id))
  {
  }

  lemma FreePickConsistent(w: Widget, row: Row, id: string)
    requires Consistent(w)
    requires id in FreeIds(w.Buttons(row))
    ensures Consistent(FreePick(w, row, id))
  {
  }

  lemma FreeIdIn(bs: seq<Button>, i: nat)
    requires i < |bs| && !bs[i].premium
    ensures Text(bs[i].id) in FreeIds(bs)
  {
  }

  /** Over any run of clicks, only free ids become current and the image
      always shows the current pair: a premium click never reaches the
      carpet image. */
  lemma {:induction false} RunConsistent(w: Widget, events: seq<Event>)
    requires AllValid(w, events) && Consistent(w)
    ensures Consistent(Run(w, events))
    decreases |events|
  {
    if events != [] {
      var w1 := Step(w, events[0]);
      if events[0].OptionClick? {
        ClickConsistent(w, events[0].row, events[0].i);
      }
      assert AllValid(w1, events[1..]) by {
        forall k | 0 <= k < |events[1..]|
          ensures ValidEvent(w1, events[1..][k])
        {
          assert ValidEvent(w, events[k + 1]);
        }
      }
      RunConsistent(w1, events[1..]);
    }
  }

  /** A premium click changes neither the current pair nor the image; it
      records the desired id, shows the overlay, and tracks one
      `premium_*_click` event when consent allows. */
  lemma PremiumClick(w: Widget, row: Row, i: nat)
    requires i < |w.Buttons(row)| && w.wired && w.overlayPresent && w.Buttons(row)[i].premium
    ensures var r := Click(w, row, i);
            && r.image == w.image && r.overlayShown
            && r.preview.currentPattern == w.preview.currentPattern
            && r.preview.currentColor == w.preview.currentColor
            && (row == PatternRow ==> r.preview.desiredPattern == Some(Text(w.patterns[i].id)))
            && (row == ColorRow ==> r.preview.desiredColor == Some(Text(w.colors[i].id)))
            && (Consent.AnalyticsAllowed(w.site.stored) ==>
                  r.site.tracked == w.site.tracked + [
                    Consent.Event("carpet_customizer", "premium_" + Noun(row).0 + "_click",
                                  Noun(row).1 + Text(w.Buttons(row)[i].id))])
            && (!Consent.AnalyticsAllowed(w.site.stored) ==> r.site == w.site)
  {
  }

  /** A free pattern click with a non-empty id shows that pattern in the
      current colour, hides the overlay and keeps the desired pair. */
  lemma FreePatternClick(w: Widget, i: nat, p: string)
    requires i < |w.patterns| && w.wired && w.overlayPresent
    requires w.patterns[i] == Button(Some(p), false) && p != ""
    ensures var r := Click(w, PatternRow, i);
            && r.image == Some(ImageOf(p, OrOne(w.preview.currentColor)))
            && !r.overlayShown
            && r.preview.desiredPattern == w.preview.desiredPattern
            && r.preview.desiredColor == w.preview.desiredColor
  {
  }

  /** A free click with consent to analytics tracks the redraw and then
      the click, in that order; without consent it tracks nothing. */
  lemma FreeClickEvents(w: Widget, row: Row, i: nat)
    requires i < |w.Buttons(row)| && w.wired && w.overlayPresent && !w.Buttons(row)[i].premium
    ensures var r := Click(w, row, i);
            var id := Text(w.Buttons(row)[i].id);
            var pv := if row == PatternRow then w.preview.(currentPattern := Some(id))
                      else w.preview.(currentColor := Some(id));
            && (Consent.AnalyticsAllowed(w.site.stored) ==>
                  r.site.tracked == w.site.tracked + [
                    Consent.Event("carpet_customizer", "update_visual",
                                  "Pattern " + OrOne(pv.currentPattern) + ", Color " + OrOne(pv.currentColor)),
                    Consent.Event("carpet_customizer", "free_" + Noun(row).0 + "_click", Noun(row).1 + id)])
            && (!Consent.AnalyticsAllowed(w.site.stored) ==> r.site == w.site)
  {
  }

  /** Without an overlay element a premium click stops after moving the
      active class: nothing is stored or tracked. */
  lemma NoOverlayPremium(w: Widget, row: Row, i: nat)
    requires i < |w.Buttons(row)| && w.wired && !w.overlayPresent && w.Buttons(row)[i].premium
    ensures var r := Click(w, row, i);
            r.preview == w.preview && r.site == w.site && r.image == w.image
  {
  }

  /** A missing id is written as the text `undefined`, so the image then
      names pattern `undefined` rather than the default `1`; an empty id
      falls back to `1`. */
  lemma MissingIdImage(w: Widget, i: nat)
    requires i < |w.patterns| && w.wired && !w.patterns[i].premium
    ensures w.patterns[i].id == None ==>
              Click(w, PatternRow, i).image == Some(ImageOf("undefined", OrOne(w.preview.currentColor)))
    ensures w.patterns[i].id == Some("") ==>
              Click(w, PatternRow, i).image == Some(ImageOf("1", OrOne(w.preview.currentColor)))
  {
  }
}
