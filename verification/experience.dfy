/**
 * The carpet customisation state machine of carpet-experience.js: the
 * `currentState` record, the five premium-gated selection handlers, the
 * journey-node click, the two demo counters, and the upsell overlay they
 * open. Handlers are pure steps from one page to the next.
 */
module Experience {
  import opened Base
  import opened Catalog

  /** `currentState`. */
  datatype State = State(
    pattern: string,
    color: string,
    thread: string,
    learningStyle: string,
    league: string,
    streak: int,
    gems: int,
    currentJourneyNode: int,
    isPremium: bool)
  {
    /** The selected key of one dimension. */
    function Selected(d: Dimension): string {
      match d
      case Pattern => pattern
      case Color => color
      case Thread => thread
      case LearningStyle => learningStyle
      case League => league
    }

    /** This state with the key of one dimension replaced. */
    function With(d: Dimension, key: string): (s: State)
      ensures s.Selected(d) == key
      ensures forall e: Dimension :: e != d ==> s.Selected(e) == Selected(e)
      ensures s.streak == streak && s.gems == gems
      ensures s.currentJourneyNode == currentJourneyNode && s.isPremium == isPremium
    {
      match d
      case Pattern => this.(pattern := key)
      case Color => this.(color := key)
      case Thread => this.(thread := key)
      case LearningStyle => this.(learningStyle := key)
      case League => this.(league := key)
    }
  }

  /** The state the page starts in. */
  const Initial := State("geometric", "blue", "standard", "visual", "bronze", 7, 145, 2, false)

  /** The page: the state plus the upsell overlay (visible or not, and the
      panel image last shown in it). */
  datatype Page = Page(state: State, overlayVisible: bool, panel: Option<Feature>)

  const Start := Page(Initial, false, None)

  /** What a handler does. `Fault` is the `TypeError` a selection handler
      throws on a key its catalog lacks, before touching anything. */
  datatype Outcome = Apply(next: State) | Upsell(featureType: string) | Unchanged | Fault

  /** The parent of a premium element, by the option or journey-node
      class it carries; `OtherParent` carries none of them. */
  datatype ParentKind =
    | PatternParent | ThreadParent | StyleParent | LeagueParent | ColorParent | JourneyParent
    | OtherParent

  /** The events a visitor can cause. A journey node carries its parsed
      `data-node` (`None` for `NaN`) and whether it is premium. A premium
      element carries whether it is a `premium-badge`, its parent, and
      whether the element itself or an ancestor above its parent is an
      option or a journey node (`closest` also looks at the element). */
  datatype Event =
    | Select(dim: Dimension, key: string)
    | JourneyClick(nodeId: Option<int>, premiumNode: bool)
    | StreakClick
    | GemClick
    | PremiumElementClick(isBadge: bool, parent: ParentKind, nestedDeeper: bool)
    | CloseOverlay

  /** The gate shared by the five selection handlers: a premium option
      without a premium account opens the overlay for that dimension and
      changes nothing; a free option (or any option for a premium account)
      replaces exactly that dimension's key. */
  function SelectOutcome(s: State, d: Dimension, key: string): (o: Outcome)
    ensures o.Fault? <==> key !in Keys(d)
    ensures o.Upsell? <==> PremiumFlag(d, key) == Some(true) && !s.isPremium
    ensures o.Upsell? ==> o.featureType == d.Name()
    ensures o.Apply? ==> o.next == s.With(d, key)
    ensures !o.Unchanged?
  {
    match PremiumFlag(d, key)
    case None => Fault
    case Some(premium) =>
      if premium && !s.isPremium then Upsell(d.Name()) else Apply(s.With(d, key))
  }

  /** The journey-node click, its three checks in source order: a premium
      node without a premium account opens the overlay whatever its id;
      any id but the next one is ignored; the next node becomes current and
      earns 25 gems. */
  function JourneyOutcome(s: State, nodeId: Option<int>, premiumNode: bool): (o: Outcome)
    ensures o.Upsell? <==> premiumNode && !s.isPremium
    ensures o.Upsell? ==> o.featureType == "journey"
    ensures o.Unchanged? <==> !(premiumNode && !s.isPremium) && nodeId != Some(s.currentJourneyNode + 1)
    ensures o.Apply? ==> o.next == s.(currentJourneyNode := s.currentJourneyNode + 1, gems := s.gems + 25)
    ensures !o.Fault?
  {
    if premiumNode && !s.isPremium then Upsell("journey")
    else if nodeId != Some(s.currentJourneyNode + 1) then Unchanged
    else Apply(s.(currentJourneyNode := nodeId.value, gems := s.gems + 25))
  }

  /** The feature type a free-standing premium element opens. The badge
      branch looks at the parent's class, but an element whose parent is
      an option is inside that option and never gets the listener. */
  function OverlayFeature(isBadge: bool, parent: ParentKind): (r: string)
    ensures r in PremiumFeatures
    ensures !isBadge ==> r == "pattern"
    ensures parent == OtherParent ==> r == "pattern"
  {
    if !isBadge then "pattern"
    else
      match parent
      case PatternParent => "pattern"
      case ThreadParent => "thread"
      case StyleParent => "learningStyle"
      case LeagueParent => "league"
      case ColorParent => "color"
      case JourneyParent => "pattern"
      case OtherParent => "pattern"
  }

  /** The overlay setup gives a premium element a click listener only
      when neither the element, nor its parent, nor any ancestor above is
      an option or a journey node. */
  function Listens(parent: ParentKind, nestedDeeper: bool): (b: bool)
    ensures b ==> forall badge :: OverlayFeature(badge, parent) == "pattern"
  {
    parent == OtherParent && !nestedDeeper
  }

  /** `showPremiumOverlay(featureType)`. */
  function ShowOverlay(p: Page, featureType: string): (r: Page)
    ensures r.overlayVisible && r.panel == Some(FeatureFor(featureType))
    ensures r.state == p.state
  {
    p.(overlayVisible := true, panel := Some(FeatureFor(featureType)))
  }

  /** The effect of an outcome on the page. */
  function Perform(p: Page, o: Outcome): (r: Page)
    ensures o.Apply? ==> r.state == o.next && r.overlayVisible == p.overlayVisible
    ensures !o.Apply? ==> r.state == p.state
    ensures o.Upsell? ==> r.overlayVisible && r.panel == Some(FeatureFor(o.featureType))
    ensures o.Unchanged? || o.Fault? ==> r == p
  {
    match o
    case Apply(next) => p.(state := next)
    case Upsell(f) => ShowOverlay(p, f)
    case Unchanged => p
    case Fault => p
  }

  /** One event. */
  function Step(p: Page, e: Event): (r: Page)
    ensures r.state.isPremium == p.state.isPremium
    ensures r.state.streak >= p.state.streak && r.state.gems >= p.state.gems
    ensures r.state.currentJourneyNode >= p.state.currentJourneyNode
  {
    match e
    case Select(d, key) => Perform(p, SelectOutcome(p.state, d, key))
    case JourneyClick(id, premium) => Perform(p, JourneyOutcome(p.state, id, premium))
    case StreakClick => p.(state := p.state.(streak := p.state.streak + 1))
    case GemClick => p.(state := p.state.(gems := p.state.gems + 10))
    case PremiumElementClick(badge, parent, deeper) =>
      if Listens(parent, deeper) then ShowOverlay(p, OverlayFeature(badge, parent)) else p
    case CloseOverlay => p.(overlayVisible := false)
  }

  /** A run of events from a page, in order. */
  function Run(p: Page, events: seq<Event>): (r: Page)
    ensures r.state.isPremium == p.state.isPremium
    decreases |events|
  {
    if events == [] then p else Run(Step(p, events[0]), events[1..])
  }

  // ---------------------------------------------------------------------
  // Invariants

  /** Every selected key is a free option of its catalog. */
  ghost predicate AllFree(s: State) {
    forall d: Dimension :: PremiumFlag(d, s.Selected(d)) == Some(false)
  }

  /** The invariant of a page whose visitor is not premium: no premium
      account, only free options applied, counters at least their starting
      values. */
  ghost predicate Good(p: Page) {
    && !p.state.isPremium
    && AllFree(p.state)
    && p.state.streak >= Initial.streak
    && p.state.gems >= Initial.gems
    && p.state.currentJourneyNode >= Initial.currentJourneyNode
  }

  lemma InitialGood()
    ensures Good(Start)
  {
    assert forall d: Dimension :: PremiumFlag(d, Start.state.Selected(d)) == Some(false) by {
      forall d: Dimension
        ensures PremiumFlag(d, Start.state.Selected(d)) == Some(false)
      {
        CatalogSplit(d, Start.state.Selected(d));
      }
    }
  }

  /** One event keeps a good page good: selection goes through the gate,
      and nothing else touches the keys or the account. */
  lemma {:induction false} StepGood(p: Page, e: Event)
    requires Good(p)
    ensures Good(Step(p, e))
  {
    var r := Step(p, e);
    if e.Select? {
      var o := SelectOutcome(p.state, e.dim, e.key);
      if o.Apply? {
        forall d: Dimension
          ensures PremiumFlag(d, r.state.Selected(d)) == Some(false)
        {
          if d != e.dim {
            assert r.state.Selected(d) == p.state.Selected(d);
          }
        }
      }
    } else {
      assert forall d: Dimension :: r.state.Selected(d) == p.state.Selected(d);
    }
  }

  /** Invariant over any run from the start: the account never becomes
      premium, and pattern, colour, thread, learning style and league are
      always free options (never arabesque or royal, gold or orange, gold
      or magical thread, personalized, diamond). */
  lemma {:induction false} RunGood(p: Page, events: seq<Event>)
    requires Good(p)
    ensures Good(Run(p, events))
    decreases |events|
  {
    if events != [] {
      StepGood(p, events[0]);
      RunGood(Step(p, events[0]), events[1..]);
    }
  }

  /** The invariant spelled out on the catalog keys. */
  lemma NeverPremium(events: seq<Event>)
    ensures var s := Run(Start, events).state;
            && !s.isPremium
            && s.pattern !in {"arabesque", "royal"}
            && s.color !in {"gold", "orange"}
            && s.thread !in {"gold", "magical"}
            && s.learningStyle != "personalized"
            && s.league != "diamond"
  {
    InitialGood();
    RunGood(Start, events);
    var s := Run(Start, events).state;
    FreeAt(s, Pattern);
    FreeAt(s, Color);
    FreeAt(s, Thread);
    FreeAt(s, LearningStyle);
    FreeAt(s, League);
  }

  /** In a state with only free options, each dimension's key is one of
      the free keys of its catalog. */
  lemma FreeAt(s: State, d: Dimension)
    requires AllFree(s)
    ensures s.Selected(d) in FreeKeys(d) && s.Selected(d) !in PremiumKeys(d)
  {
    CatalogSplit(d, s.Selected(d));
  }

  /** Counters never decrease along a run. */
  lemma {:induction false} RunMonotone(p: Page, events: seq<Event>)
    ensures var r := Run(p, events).state;
            && r.streak >= p.state.streak && r.gems >= p.state.gems
            && r.currentJourneyNode >= p.state.currentJourneyNode
    decreases |events|
  {
    if events != [] {
      RunMonotone(Step(p, events[0]), events[1..]);
    }
  }

  /** Gems rise by exactly 10 per gem click and 25 per journey advance;
      the streak by exactly one per streak click. */
  lemma CounterSteps(p: Page)
    ensures Step(p, StreakClick).state.streak == p.state.streak + 1
    ensures Step(p, GemClick).state.gems == p.state.gems + 10
    ensures var n := p.state.currentJourneyNode + 1;
            !p.state.isPremium ==>
              Step(p, JourneyClick(Some(n), false)).state.gems == p.state.gems + 25
  {
  }

  /** A premium element inside a journey node gets no listener: its
      click changes nothing, badge or not. */
  lemma JourneyParentSilent(p: Page, isBadge: bool, deeper: bool)
    ensures !Listens(JourneyParent, deeper)
    ensures Step(p, PremiumElementClick(isBadge, JourneyParent, deeper)) == p
  {
  }

  /** A free-standing premium element always opens the pattern panel:
      the branches that read the parent's class cannot be reached, since
      such a parent makes the element part of an option, which gets no
      listener. */
  lemma OverlayAlwaysPattern(p: Page, isBadge: bool, parent: ParentKind, deeper: bool)
    ensures var r := Step(p, PremiumElementClick(isBadge, parent, deeper));
            r == p || (r.overlayVisible && r.panel == Some(FeatureFor("pattern")))
  {
  }
}
