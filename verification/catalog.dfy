/**
 * The five option catalogs of carpet-experience.js and the premium
 * feature table the upsell overlay reads. Each catalog maps an option key
 * (the `data-*` attribute of its button) to its assets and a premium
 * flag.
 */
module Catalog {
  import opened Base

  /** The five customisation dimensions; `Name` is the feature type the
      upsell overlay is opened with. */
  datatype Dimension = Pattern | Color | Thread | LearningStyle | League {
    function Name(): string {
      match this
      case Pattern => "pattern"
      case Color => "color"
      case Thread => "thread"
      case LearningStyle => "learningStyle"
      case League => "league"
    }
  }

  datatype PatternEntry = PatternEntry(url: string, premium: bool)
  datatype ColorEntry = ColorEntry(primary: string, secondary: string, premium: bool)
  datatype ThreadEntry = ThreadEntry(url: string, premium: bool, animation: string)
  datatype StyleEntry = StyleEntry(carpetEffect: string, premium: bool)

  /** A league; `height` is the pixel count of its CSS height (`"10px"`
      and so on), which is what `parseInt` reads back from it. */
  datatype LeagueEntry = LeagueEntry(height: nat, flyAnimation: string, premium: bool)

  /** An upsell panel: its image (the description text is not modelled). */
  datatype Feature = Feature(image: string)

  const Patterns: map<string, PatternEntry> := map[
    "classic" := PatternEntry("url(\"images/patterns/classic.svg\")", false),
    "geometric" := PatternEntry("url(\"images/patterns/geometric.svg\")", false),
    "floral" := PatternEntry("url(\"images/patterns/floral.svg\")", false),
    "arabesque" := PatternEntry("url(\"images/patterns/arabesque.svg\")", true),
    "royal" := PatternEntry("url(\"images/patterns/royal.svg\")", true)
  ]

  const Colors: map<string, ColorEntry> := map[
    "purple" := ColorEntry("#A560F8", "#8A4AD0", false),
    "blue" := ColorEntry("#1CB0F6", "#0F8BC0", false),
    "green" := ColorEntry("#58CC02", "#46A302", false),
    "gold" := ColorEntry("#FFD900", "#E6C200", true),
    "orange" := ColorEntry("#FF9600", "#E67E00", true)
  ]

  const Threads: map<string, ThreadEntry> := map[
    "standard" := ThreadEntry("url(\"images/threads/standard.svg\")", false, "none"),
    "silver" := ThreadEntry("url(\"images/threads/silver.svg\")", false, "threadGlimmer 3s infinite"),
    "gold" := ThreadEntry("url(\"images/threads/gold.svg\")", true, "threadGlimmer 2s infinite"),
    "magical" := ThreadEntry("url(\"images/threads/magical.svg\")", true, "threadMagic 4s infinite")
  ]

  const LearningStyles: map<string, StyleEntry> := map[
    "visual" := StyleEntry("visualLearnerEffect", false),
    "auditory" := StyleEntry("auditoryLearnerEffect", false),
    "kinesthetic" := StyleEntry("kinestheticLearnerEffect", false),
    "personalized" := StyleEntry("personalizedLearnerEffect", true)
  ]

  const Leagues: map<string, LeagueEntry> := map[
    "bronze" := LeagueEntry(10, "hoverLow 4s infinite ease-in-out", false),
    "silver" := LeagueEntry(30, "hoverMedium 4s infinite ease-in-out", false),
    "gold" := LeagueEntry(50, "hoverHigh 4s infinite ease-in-out", false),
    "diamond" := LeagueEntry(80, "soarHigh 4s infinite ease-in-out", true)
  ]

  const PremiumFeatures: map<string, Feature> := map[
    "pattern" := Feature("images/premium/premium-patterns.svg"),
    "color" := Feature("images/premium/premium-colors.svg"),
    "thread" := Feature("images/premium/premium-threads.svg"),
    "learningStyle" := Feature("images/premium/premium-learning.svg"),
    "league" := Feature("images/premium/premium-league.svg")
  ]

  /** The premium flag of `key` in the catalog of `d`; `None` when the
      catalog has no such key (the handler's `catalog[key].premium` then
      throws). */
  function PremiumFlag(d: Dimension, key: string): (f: Option<bool>)
    ensures f.None? <==> key !in Keys(d)
  {
    match d
    case Pattern => if key in Patterns then Some(Patterns[key].premium) else None
    case Color => if key in Colors then Some(Colors[key].premium) else None
    case Thread => if key in Threads then Some(Threads[key].premium) else None
    case LearningStyle => if key in LearningStyles then Some(LearningStyles[key].premium) else None
    case League => if key in Leagues then Some(Leagues[key].premium) else None
  }

  /** The keys of one catalog. */
  function Keys(d: Dimension): set<string> {
    match d
    case Pattern => Patterns.Keys
    case Color => Colors.Keys
    case Thread => Threads.Keys
    case LearningStyle => LearningStyles.Keys
    case League => Leagues.Keys
  }

  /** The premium keys of each catalog, written out. */
  function PremiumKeys(d: Dimension): set<string> {
    match d
    case Pattern => {"arabesque", "royal"}
    case Color => {"gold", "orange"}
    case Thread => {"gold", "magical"}
    case LearningStyle => {"personalized"}
    case League => {"diamond"}
  }

  /** The free keys of each catalog, written out. */
  function FreeKeys(d: Dimension): set<string> {
    match d
    case Pattern => {"classic", "geometric", "floral"}
    case Color => {"purple", "blue", "green"}
    case Thread => {"standard", "silver"}
    case LearningStyle => {"visual", "auditory", "kinesthetic"}
    case League => {"bronze", "silver", "gold"}
  }

  /** Each catalog splits into exactly the free and the premium keys
      written out above. */
  lemma CatalogSplit(d: Dimension, key: string)
    ensures PremiumFlag(d, key) == Some(true) <==> key in PremiumKeys(d)
    ensures PremiumFlag(d, key) == Some(false) <==> key in FreeKeys(d)
  {
  }

  /** `premiumFeatures[featureType] || premiumFeatures.pattern`. */
  function FeatureFor(featureType: string): (f: Feature)
    ensures featureType in PremiumFeatures ==> f == PremiumFeatures[featureType]
    ensures featureType !in PremiumFeatures ==> f == PremiumFeatures["pattern"]
  {
    if featureType in PremiumFeatures then PremiumFeatures[featureType] else PremiumFeatures["pattern"]
  }

  /** Every dimension has its own panel, and an unknown feature type such
      as `journey` falls back to the pattern panel. */
  lemma FeaturePanels(d: Dimension)
    ensures d.Name() in PremiumFeatures
    ensures FeatureFor("journey") == FeatureFor("pattern")
  {
  }
}
