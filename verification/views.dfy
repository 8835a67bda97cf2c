/**
 * What carpet-experience.js draws from its state: the pattern, colour,
 * thread, learning-style and league layers, the streak and gem
 * decorations, and the journey-node classes. Random placement, sizes and
 * animation delays are not modelled; counts, classes and the values
 * written into styles are.
 */
module Views {
  import opened Base
  import opened Catalog
  import opened Experience

  // ---------------------------------------------------------------------
  // Pattern and colour layers

  /** `updateCarpetPattern`: the pattern layer's image and classes, or
      nothing when the key is not in the catalog (the layer is left as
      it was). */
  function PatternLayer(s: State): (r: Option<(string, seq<string>)>)
    ensures r.Some? <==> s.pattern in Patterns
    ensures r.Some? ==> r.value.0 == Patterns[s.pattern].url
    ensures r.Some? ==> r.value.1 == ["carpet-pattern", "pattern-" + s.pattern]
  {
    if s.pattern in Patterns then Some((Patterns[s.pattern].url, ["carpet-pattern", "pattern-" + s.pattern]))
    else None
  }

  /** The two style properties that several layers write: the pattern
      layer's CSS `filter`, and the overlay layer's image and animation. */
  datatype Surface = Surface(filter: string, overlayImage: string, overlayAnimation: string)

  /** The filter `updateCarpetColor` sets: a drop shadow in the secondary
      colour. */
  function DropShadow(secondary: string): string {
    "drop-shadow(0 0 3px " + secondary + ")"
  }

  /** `updateCarpetColor`: the base colour, and the filter reset to the
      drop shadow of the secondary colour; nothing for an unknown key. */
  function ColorLayer(s: State, surf: Surface): (r: Option<(string, Surface)>)
    ensures r.Some? <==> s.color in Colors
    ensures r.Some? ==> r.value.0 == Colors[s.color].primary
    ensures r.Some? ==> r.value.1 == surf.(filter := DropShadow(Colors[s.color].secondary))
  {
    if s.color in Colors then
      var c := Colors[s.color];
      Some((c.primary, surf.(filter := DropShadow(c.secondary))))
    else None
  }

  /** `updateLearningStyleEffect`'s writes to the shared surface: visual
      appends a saturation to the filter; auditory and kinesthetic set the
      overlay; personalized does both. Nothing is reset first. */
  function StyleSurface(style: string, surf: Surface): (r: Surface)
    ensures style == "visual" ==> r == surf.(filter := surf.filter + " saturate(1.3)")
    ensures style == "auditory" ==>
              r == surf.(overlayImage := "url(\"images/effects/sound-waves.svg\")",
                         overlayAnimation := "soundWave 3s infinite")
    ensures style == "kinesthetic" ==>
              r == surf.(overlayImage := "url(\"images/effects/interactive-particles.svg\")",
                         overlayAnimation := "particleFlow 5s infinite")
    ensures style == "personalized" ==>
              r == Surface(surf.filter + " saturate(1.2)", "url(\"images/effects/personalized-blend.svg\")",
                           "personalizedEffect 8s infinite")
    ensures style !in {"visual", "auditory", "kinesthetic", "personalized"} ==> r == surf
  {
    if style == "visual" then surf.(filter := surf.filter + " saturate(1.3)")
    else if style == "auditory" then
      surf.(overlayImage := "url(\"images/effects/sound-waves.svg\")", overlayAnimation := "soundWave 3s infinite")
    else if style == "kinesthetic" then
      surf.(overlayImage := "url(\"images/effects/interactive-particles.svg\")",
            overlayAnimation := "particleFlow 5s infinite")
    else if style == "personalized" then
      Surface(surf.filter + " saturate(1.2)", "url(\"images/effects/personalized-blend.svg\")",
              "personalizedEffect 8s infinite")
    else surf
  }

  /** `updateLearningStyleEffect`: the visual's classes and the surface,
      or nothing for a key outside the catalog. */
  function StyleLayer(s: State, surf: Surface): (r: Option<(seq<string>, Surface)>)
    ensures r.Some? <==> s.learningStyle in LearningStyles
    ensures r.Some? ==> r.value.0 == ["carpet-visual", LearningStyles[s.learningStyle].carpetEffect]
    ensures r.Some? ==> r.value.1 == StyleSurface(s.learningStyle, surf)
  {
    if s.learningStyle in LearningStyles then
      Some((["carpet-visual", LearningStyles[s.learningStyle].carpetEffect], StyleSurface(s.learningStyle, surf)))
    else None
  }

  /** Choosing the visual style leaves whatever overlay an earlier style
      put in place. */
  lemma VisualKeepsOverlay(surf: Surface)
    ensures StyleSurface("visual", surf).overlayImage == surf.overlayImage
    ensures StyleSurface("visual", surf).overlayAnimation == surf.overlayAnimation
    ensures StyleSurface("visual", StyleSurface("auditory", surf)).overlayImage
            == "url(\"images/effects/sound-waves.svg\")"
  {
  }

  /** The saturations accumulate: choosing the visual style twice appends
      two of them, until a colour change resets the filter. */
  lemma SaturationAccumulates(s: State, surf: Surface)
    requires s.color in Colors
    ensures StyleSurface("visual", StyleSurface("visual", surf)).filter
            == surf.filter + " saturate(1.3)" + " saturate(1.3)"
    ensures ColorLayer(s, StyleSurface("visual", surf)).value.1.filter
            == DropShadow(Colors[s.color].secondary)
  {
  }

  // ---------------------------------------------------------------------
  // Streak threads

  /** The class each streak thread gets. */
  datatype ThreadTier = Golden | Silvered | Plain

  /** `Math.min(streak, 30)` decorations, none for a negative streak. */
  function ThreadCount(streak: int): (n: nat)
    ensures n <= 30
    ensures streak >= 30 ==> n == 30
    ensures 0 <= streak <= 30 ==> n == streak
    ensures streak < 0 ==> n == 0
  {
    if streak <= 0 then 0 else if streak < 30 then streak else 30
  }

  /** Golden for the gold and magical threads, silver for silver, no
      extra class otherwise. */
  function Tier(thread: string): (t: ThreadTier)
    ensures t == Golden <==> thread in {"gold", "magical"}
    ensures t == Silvered <==> thread == "silver"
  {
    if thread == "gold" || thread == "magical" then Golden
    else if thread == "silver" then Silvered
    else Plain
  }

  /** `updateCarpetThreads` with `generateThreadPattern`: image, animation,
      decoration count and class; nothing for an unknown thread. */
  function ThreadLayer(s: State): (r: Option<(ThreadEntry, nat, ThreadTier)>)
    ensures r.Some? <==> s.thread in Threads
    ensures r.Some? ==> r.value.0 == Threads[s.thread]
    ensures r.Some? ==> r.value.1 == ThreadCount(s.streak) && r.value.2 == Tier(s.thread)
  {
    if s.thread in Threads then Some((Threads[s.thread], ThreadCount(s.streak), Tier(s.thread))) else None
  }

  /** Each streak click adds one decoration until there are thirty, and
      none after. */
  lemma ThreadCountSteps(streak: int)
    ensures 0 <= streak < 30 ==> ThreadCount(streak + 1) == ThreadCount(streak) + 1
    ensures streak >= 30 ==> ThreadCount(streak + 1) == 30
  {
  }

  /** For a visitor who is not premium the golden thread class never shows:
      gold and magical threads are premium and are never applied. */
  lemma NeverGolden(events: seq<Event>)
    ensures Tier(Run(Start, events).state.thread) != Golden
  {
    NeverPremium(events);
  }

  // ---------------------------------------------------------------------
  // Gems

  /** The colour classes a gem can get. */
  const GemColors: seq<string> := ["blue", "green", "purple", "gold"]

  /** `Math.min(Math.floor(gems / 10), 20)` decorations, none for
      negative gems. */
  function GemCount(gems: int): (n: nat)
    ensures n <= 20
    ensures gems >= 200 ==> n == 20
    ensures 0 <= gems < 200 ==> n * 10 <= gems < n * 10 + 10
    ensures gems < 10 ==> n == 0
  {
    if gems < 10 then 0 else if gems / 10 < 20 then gems / 10 else 20
  }

  /** The gem colours, one per decoration, from the random draws
      (`Math.random()` values in [0, 1)) that pick them. */
  function GemColours(n: nat, draws: seq<real>): (r: seq<string>)
    requires |draws| >= n
    requires forall i :: 0 <= i < |draws| ==> 0.0 <= draws[i] < 1.0
    ensures |r| == n
    ensures forall i :: 0 <= i < n ==> r[i] in GemColors
    ensures forall i :: 0 <= i < n && draws[i] < 0.25 ==> r[i] == "blue"
  {
    if n == 0 then []
    else
      var k := (draws[0] * 4.0).Floor;
      assert 0 <= k < 4;
      [GemColors[k]] + GemColours(n - 1, draws[1..])
  }

  /** More gems never mean fewer decorations. */
  lemma GemCountMonotone(a: int, b: int)
    requires a <= b
    ensures GemCount(a) <= GemCount(b)
  {
  }

  // ---------------------------------------------------------------------
  // League

  /** The league-effects layer. */
  datatype LeagueEffect = Sparkle | Glow | NoEffect {
    function Image(): string {
      match this
      case Sparkle => "url(\"images/effects/diamond-sparkle.svg\")"
      case Glow => "url(\"images/effects/gold-glow.svg\")"
      case NoEffect => "none"
    }
    function Animation(): string {
      match this
      case Sparkle => "diamondSparkle 3s infinite"
      case Glow => "goldGlow 4s infinite"
      case NoEffect => "none"
    }
  }

  /** What `updateLeagueHeight` writes. */
  datatype LeagueLook = LeagueLook(
    bottom: nat, flyAnimation: string, shadowOpacity: real, shadowScale: real, effect: LeagueEffect)

  /** `Math.max(0.1, 0.5 - h / 100)`. */
  function ShadowOpacity(h: nat): (o: real)
    ensures o >= 0.1
    ensures o == 0.1 <==> h >= 40
    ensures h < 40 ==> o + (h as real) / 100.0 == 0.5
  {
    var v := 0.5 - (h as real) / 100.0;
    if v > 0.1 then v else 0.1
  }

  /** `updateLeagueHeight`: height, flight, shadow and effect; nothing for
      an unknown league. */
  function LeagueLayer(s: State): (r: Option<LeagueLook>)
    ensures r.Some? <==> s.league in Leagues
    ensures r.Some? ==> r.value.bottom == Leagues[s.league].height
    ensures r.Some? ==> r.value.flyAnimation == Leagues[s.league].flyAnimation
    ensures r.Some? ==> r.value.shadowOpacity == ShadowOpacity(Leagues[s.league].height)
    ensures r.Some? ==> r.value.shadowOpacity >= 0.1
    ensures r.Some? ==> r.value.shadowScale == 1.0 + (Leagues[s.league].height as real) / 100.0
    ensures r.Some? ==> (r.value.effect == Sparkle <==> s.league == "diamond")
    ensures r.Some? ==> (r.value.effect == Glow <==> s.league == "gold")
  {
    if s.league in Leagues then
      var l := Leagues[s.league];
      var effect := if s.league == "diamond" then Sparkle else if s.league == "gold" then Glow else NoEffect;
      Some(LeagueLook(l.height, l.flyAnimation, ShadowOpacity(l.height),
                      1.0 + (l.height as real) / 100.0, effect))
    else None
  }

  /** The four leagues: shadows of 0.4, 0.2, 0.1 and 0.1; sparkle only for
      diamond, glow only for gold. */
  lemma LeagueLooks(s: State)
    ensures s.league == "bronze" ==> LeagueLayer(s) == Some(LeagueLook(10, "hoverLow 4s infinite ease-in-out", 0.4, 1.1, NoEffect))
    ensures s.league == "silver" ==> LeagueLayer(s) == Some(LeagueLook(30, "hoverMedium 4s infinite ease-in-out", 0.2, 1.3, NoEffect))
    ensures s.league == "gold" ==> LeagueLayer(s) == Some(LeagueLook(50, "hoverHigh 4s infinite ease-in-out", 0.1, 1.5, Glow))
    ensures s.league == "diamond" ==> LeagueLayer(s) == Some(LeagueLook(80, "soarHigh 4s infinite ease-in-out", 0.1, 1.8, Sparkle))
  {
  }

  // ---------------------------------------------------------------------
  // Journey nodes

  datatype NodeStatus = Completed | Active | Next

  /** `updateJourneyNodes` for one node: at most one status class (none
      for a node beyond the next, or whose id is not a number). */
  function Status(nodeId: Option<int>, current: int): (r: Option<NodeStatus>)
    ensures r == Some(Completed) <==> nodeId.Some? && nodeId.value < current
    ensures r == Some(Active) <==> nodeId == Some(current)
    ensures r == Some(Next) <==> nodeId == Some(current + 1)
  {
    match nodeId
    case None => None
    case Some(id) =>
      if id < current then Some(Completed)
      else if id == current then Some(Active)
      else if id == current + 1 then Some(Next)
      else None
  }

  /** The `locked` class: a premium node for a visitor who is not
      premium. */
  function Locked(premiumNode: bool, s: State): (b: bool)
    ensures b ==> premiumNode
    ensures s.isPremium ==> !b
  {
    premiumNode && !s.isPremium
  }

  /** Advancing along the journey moves each status one step on: the
      active node becomes completed and the next node becomes active. */
  lemma AdvanceShiftsStatus(p: Page, id: int)
    requires id == p.state.currentJourneyNode + 1
    ensures var q := Step(p, JourneyClick(Some(id), false));
            && Status(Some(id - 1), q.state.currentJourneyNode) == Some(Completed)
            && Status(Some(id), q.state.currentJourneyNode) == Some(Active)
            && Status(Some(id + 1), q.state.currentJourneyNode) == Some(Next)
  {
  }

  /** A premium node is locked in every state reachable from the start. */
  lemma PremiumNodesStayLocked(events: seq<Event>)
    ensures Locked(true, Run(Start, events).state)
  {
    NeverPremium(events);
  }
}
