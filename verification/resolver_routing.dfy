/**
 * Concrete routing through the placeholder chain: the thread and effect
 * paths the pages use reach the rule their names suggest. A rule is shown
 * silent on a key by a character of its needle that the key lacks
 * (`MissingChar`) and, for file-name tests, by inequality.
 */
module ResolverRouting {
  import opened Base
  import opened Graphics
  import opened Resolver
  import opened ResolverFacts

  /** Where the first four groups sit in the chain. */
  lemma FrontLayout()
    ensures |PatternRules| == 5 && |ThumbnailRules| == 5 && |ThreadRules| == 4 && |EffectRules| == 5
    ensures |Rules| == 54
    ensures forall j :: 0 <= j < 5 ==> Rules[j] == PatternRules[j]
    ensures forall j :: 5 <= j < 10 ==> Rules[j] == ThumbnailRules[j - 5]
    ensures forall j :: 10 <= j < 14 ==> Rules[j] == ThreadRules[j - 10]
    ensures forall j :: 14 <= j < 19 ==> Rules[j] == EffectRules[j - 14]
  {
  }

  /** A path-or-file rule stays silent when the key lacks the path needle
      and is not the file name. */
  lemma PathOrFileSilent(key: string, path: string, file: string, a: Action)
    requires !Contains(key, path) && key != file
    ensures !Fires(Rule([Has(path), Is(file)], a), key)
  {
    AnyHoldsPair(Has(path), Is(file), key);
  }

  /** A one-needle rule stays silent when the key lacks the needle. */
  lemma PathOnlySilent(key: string, path: string, a: Action)
    requires !Contains(key, path)
    ensures !Fires(Rule([Has(path)], a), key)
  {
    assert [Has(path)][1..] == [];
    assert !AnyHolds([], key);
  }

  /** A key without a `p` that is no pattern file name passes every
      pattern rule. */
  lemma PatternGroupSilent(key: string)
    requires 'p' !in key
    requires key != "classic.svg" && key != "geometric.svg" && key != "floral.svg"
    requires key != "arabesque.svg" && key != "royal.svg"
    ensures |PatternRules| == 5
    ensures !Fires(PatternRules[0], key) && !Fires(PatternRules[1], key) && !Fires(PatternRules[2], key)
    ensures !Fires(PatternRules[3], key) && !Fires(PatternRules[4], key)
  {
    MissingChar(key, "patterns/classic", 'p');
    PathOrFileSilent(key, "patterns/classic", "classic.svg", DrawPattern("classic"));
    MissingChar(key, "patterns/geometric", 'p');
    PathOrFileSilent(key, "patterns/geometric", "geometric.svg", DrawPattern("geometric"));
    MissingChar(key, "patterns/floral", 'p');
    PathOrFileSilent(key, "patterns/floral", "floral.svg", DrawPattern("floral"));
    MissingChar(key, "patterns/arabesque", 'p');
    PathOrFileSilent(key, "patterns/arabesque", "arabesque.svg", DrawPattern("arabesque"));
    MissingChar(key, "patterns/royal", 'p');
    PathOrFileSilent(key, "patterns/royal", "royal.svg", DrawPattern("royal"));
  }

  /** A key without an `m` passes every thumbnail rule. */
  lemma ThumbnailGroupSilent(key: string)
    requires 'm' !in key
    ensures |ThumbnailRules| == 5
    ensures !Fires(ThumbnailRules[0], key) && !Fires(ThumbnailRules[1], key) && !Fires(ThumbnailRules[2], key)
    ensures !Fires(ThumbnailRules[3], key) && !Fires(ThumbnailRules[4], key)
  {
    MissingChar(key, "classic-thumb", 'm');
    PathOnlySilent(key, "classic-thumb", DrawThumbnail("classic"));
    MissingChar(key, "geometric-thumb", 'm');
    PathOnlySilent(key, "geometric-thumb", DrawThumbnail("geometric"));
    MissingChar(key, "floral-thumb", 'm');
    PathOnlySilent(key, "floral-thumb", DrawThumbnail("floral"));
    MissingChar(key, "arabesque-thumb", 'm');
    PathOnlySilent(key, "arabesque-thumb", DrawThumbnail("arabesque"));
    MissingChar(key, "royal-thumb", 'm');
    PathOnlySilent(key, "royal-thumb", DrawThumbnail("royal"));
  }

  /** The first ten rules (patterns and thumbnails) pass such a key. */
  lemma SilentThroughThumbnails(key: string)
    requires 'p' !in key && 'm' !in key
    requires key != "classic.svg" && key != "geometric.svg" && key != "floral.svg"
    requires key != "arabesque.svg" && key != "royal.svg"
    ensures forall j :: 0 <= j < 10 ==> !Fires(Rules[j], key)
  {
    PatternGroupSilent(key);
    ThumbnailGroupSilent(key);
    FrontLayout();
  }

  /** The standard and silver thread rules pass a key lacking both paths. */
  lemma ThreadPrefixSilent(key: string)
    requires !Contains(key, "threads/standard") && key != "standard.svg"
    requires !Contains(key, "threads/silver") && key != "silver.svg"
    ensures !Fires(ThreadRules[0], key) && !Fires(ThreadRules[1], key)
  {
    PathOrFileSilent(key, "threads/standard", "standard.svg", DrawThread("standard"));
    PathOrFileSilent(key, "threads/silver", "silver.svg", DrawThread("silver"));
  }

  /** The gold thread rule: the `threads/gold` path or exactly `gold.svg`. */
  lemma GoldThreadFires(key: string)
    requires Contains(key, "threads/gold") || key == "gold.svg"
    ensures Fires(ThreadRules[2], key)
  {
    AnyHoldsPair(Has("threads/gold"), Is("gold.svg"), key);
  }

  /** Assembling the silent prefix: the gold thread rule decides. */
  lemma GoldThreadDecides(key: string, c1: Option<string>, c2: Option<string>)
    requires 'p' !in key && 'm' !in key
    requires key != "classic.svg" && key != "geometric.svg" && key != "floral.svg"
    requires key != "arabesque.svg" && key != "royal.svg"
    requires !Fires(ThreadRules[0], key) && !Fires(ThreadRules[1], key) && Fires(ThreadRules[2], key)
    ensures FirstMatch(key) == Some(GoldThreadRule)
    ensures Resolve(key, c1, c2) == ThreadSvg("gold", c1)
  {
    SilentThroughThumbnails(key);
    FrontLayout();
    FirstMatchWins(key, GoldThreadRule, c1, c2);
  }

  /** A gold-thread key by its characters: no `p`, `m`; no `n` or no `t`
      (so no `threads/standard`); no `i` or no `t` (so no
      `threads/silver`); starting with `threads/gold` or exactly `gold.svg`. */
  lemma GoldThreadRoute(key: string, c1: Option<string>, c2: Option<string>)
    requires 'p' !in key && 'm' !in key
    requires key != "classic.svg" && key != "geometric.svg" && key != "floral.svg"
    requires key != "arabesque.svg" && key != "royal.svg"
    requires 'n' !in key || 't' !in key
    requires 'i' !in key || 't' !in key
    requires key != "standard.svg" && key != "silver.svg"
    requires IsPrefix("threads/gold", key) || key == "gold.svg"
    ensures FirstMatch(key) == Some(GoldThreadRule)
    ensures Resolve(key, c1, c2) == ThreadSvg("gold", c1)
  {
    if 'n' !in key {
      MissingChar(key, "threads/standard", 'n');
    } else {
      MissingChar(key, "threads/standard", 't');
    }
    if 'i' !in key {
      MissingChar(key, "threads/silver", 'i');
    } else {
      MissingChar(key, "threads/silver", 't');
    }
    if IsPrefix("threads/gold", key) {
      ContainsAt(key, "threads/gold", 0);
    }
    ThreadPrefixSilent(key);
    GoldThreadFires(key);
    GoldThreadDecides(key, c1, c2);
  }

  /** `threads/gold.svg` has the shape `GoldThreadRoute` asks for: the characters it lacks. */
  lemma GoldPathShapeChars(key: string)
    requires key == "threads/gold.svg"
    ensures 'p' !in key && 'm' !in key
    ensures 'n' !in key || 't' !in key
    ensures 'i' !in key || 't' !in key
  {
  }

  /** `threads/gold.svg` has the shape `GoldThreadRoute` asks for: the file names it is not, and how it starts. */
  lemma GoldPathShapeNames(key: string)
    requires key == "threads/gold.svg"
    ensures key != "classic.svg" && key != "geometric.svg" && key != "floral.svg"
    ensures key != "arabesque.svg" && key != "royal.svg"
    ensures key != "standard.svg" && key != "silver.svg"
    ensures IsPrefix("threads/gold", key) || key == "gold.svg"
  {
  }

  /** `gold.svg` has the shape `GoldThreadRoute` asks for: the characters it lacks. */
  lemma GoldFileShapeChars(key: string)
    requires key == "gold.svg"
    ensures 'p' !in key && 'm' !in key
    ensures 'n' !in key || 't' !in key
    ensures 'i' !in key || 't' !in key
  {
  }

  /** `gold.svg` has the shape `GoldThreadRoute` asks for: the file names it is not, and how it starts. */
  lemma GoldFileShapeNames(key: string)
    requires key == "gold.svg"
    ensures key != "classic.svg" && key != "geometric.svg" && key != "floral.svg"
    ensures key != "arabesque.svg" && key != "royal.svg"
    ensures key != "standard.svg" && key != "silver.svg"
    ensures IsPrefix("threads/gold", key) || key == "gold.svg"
  {
  }

  /** `threads/gold.svg` gets the gold thread. */
  lemma GoldThreadByPath(c1: Option<string>, c2: Option<string>)
    ensures FirstMatch("threads/gold.svg") == Some(GoldThreadRule)
    ensures Resolve("threads/gold.svg", c1, c2) == ThreadSvg("gold", c1)
  {
    GoldPathShapeChars("threads/gold.svg");
    GoldPathShapeNames("threads/gold.svg");
    GoldThreadRoute("threads/gold.svg", c1, c2);
  }

  /** The bare `gold.svg`, by exact equality, gets the gold thread too. */
  lemma GoldThreadByFileName(c1: Option<string>, c2: Option<string>)
    ensures FirstMatch("gold.svg") == Some(GoldThreadRule)
    ensures Resolve("gold.svg", c1, c2) == ThreadSvg("gold", c1)
  {
    GoldFileShapeChars("gold.svg");
    GoldFileShapeNames("gold.svg");
    GoldThreadRoute("gold.svg", c1, c2);
  }

  /** A key without an `h` that is no thread file name passes every thread
      rule. */
  lemma ThreadGroupSilent(key: string)
    requires 'h' !in key
    requires key != "standard.svg" && key != "silver.svg" && key != "gold.svg" && key != "magical.svg"
    ensures !Fires(ThreadRules[0], key) && !Fires(ThreadRules[1], key)
    ensures !Fires(ThreadRules[2], key) && !Fires(ThreadRules[3], key)
  {
    MissingChar(key, "threads/standard", 'h');
    PathOrFileSilent(key, "threads/standard", "standard.svg", DrawThread("standard"));
    MissingChar(key, "threads/silver", 'h');
    PathOrFileSilent(key, "threads/silver", "silver.svg", DrawThread("silver"));
    MissingChar(key, "threads/gold", 'h');
    PathOrFileSilent(key, "threads/gold", "gold.svg", DrawThread("gold"));
    MissingChar(key, "threads/magical", 'h');
    PathOrFileSilent(key, "threads/magical", "magical.svg", DrawThread("magical"));
  }

  /** The four effect rules before gold-glow pass a key with no `u`, `i` or
      `p` that is none of their file names. */
  lemma EffectPrefixSilent(key: string)
    requires 'u' !in key && 'i' !in key && 'p' !in key
    requires key != "sound-waves.svg" && key != "interactive-particles.svg"
    requires key != "personalized-blend.svg" && key != "diamond-sparkle.svg"
    ensures !Fires(EffectRules[0], key) && !Fires(EffectRules[1], key)
    ensures !Fires(EffectRules[2], key) && !Fires(EffectRules[3], key)
  {
    MissingChar(key, "effects/sound-waves", 'u');
    PathOrFileSilent(key, "effects/sound-waves", "sound-waves.svg", DrawEffect("sound-waves"));
    MissingChar(key, "effects/interactive-particles", 'i');
    PathOrFileSilent(key, "effects/interactive-particles", "interactive-particles.svg", DrawEffect("particles"));
    MissingChar(key, "effects/personalized-blend", 'p');
    PathOrFileSilent(key, "effects/personalized-blend", "personalized-blend.svg", DrawEffect("personalized"));
    MissingChar(key, "effects/diamond-sparkle", 'i');
    PathOrFileSilent(key, "effects/diamond-sparkle", "diamond-sparkle.svg", DrawEffect("diamond-sparkle"));
  }

  /** The gold-glow rule: the `effects/gold-glow` path or exactly
      `gold-glow.svg`. */
  lemma GoldGlowFires(key: string)
    requires Contains(key, "effects/gold-glow") || key == "gold-glow.svg"
    ensures Fires(EffectRules[4], key)
  {
    AnyHoldsPair(Has("effects/gold-glow"), Is("gold-glow.svg"), key);
  }

  /** Assembling the silent prefix: the gold-glow rule decides. */
  lemma GoldGlowDecides(key: string, c1: Option<string>, c2: Option<string>)
    requires forall j :: 0 <= j < 10 ==> !Fires(Rules[j], key)
    requires !Fires(ThreadRules[0], key) && !Fires(ThreadRules[1], key)
    requires !Fires(ThreadRules[2], key) && !Fires(ThreadRules[3], key)
    requires !Fires(EffectRules[0], key) && !Fires(EffectRules[1], key)
    requires !Fires(EffectRules[2], key) && !Fires(EffectRules[3], key)
    requires Fires(EffectRules[4], key)
    ensures FirstMatch(key) == Some(GoldGlowRule)
    ensures Resolve(key, c1, c2) == EffectSvg("gold-glow", c1)
  {
    FrontLayout();
    FirstMatchWins(key, GoldGlowRule, c1, c2);
  }

  /** A gold-glow key by its characters: no `p`, `m`, `h`, `u` or `i`,
      no earlier file name, and starting with `effects/gold-glow`. */
  lemma GoldGlowRoute(key: string, c1: Option<string>, c2: Option<string>)
    requires 'p' !in key && 'm' !in key && 'h' !in key && 'u' !in key && 'i' !in key
    requires key != "classic.svg" && key != "geometric.svg" && key != "floral.svg"
    requires key != "arabesque.svg" && key != "royal.svg"
    requires key != "standard.svg" && key != "silver.svg" && key != "gold.svg" && key != "magical.svg"
    requires key != "sound-waves.svg" && key != "interactive-particles.svg"
    requires key != "personalized-blend.svg" && key != "diamond-sparkle.svg"
    requires IsPrefix("effects/gold-glow", key)
    ensures FirstMatch(key) == Some(GoldGlowRule)
    ensures Resolve(key, c1, c2) == EffectSvg("gold-glow", c1)
  {
    SilentThroughThumbnails(key);
    ThreadGroupSilent(key);
    EffectPrefixSilent(key);
    ContainsAt(key, "effects/gold-glow", 0);
    GoldGlowFires(key);
    GoldGlowDecides(key, c1, c2);
  }

  /** `effects/gold-glow.svg` has the shape `GoldGlowRoute` asks for: the characters it lacks. */
  lemma GoldGlowShapeChars(key: string)
    requires key == "effects/gold-glow.svg"
    ensures 'p' !in key && 'm' !in key && 'h' !in key && 'u' !in key && 'i' !in key
  {
  }

  /** `effects/gold-glow.svg` has the shape `GoldGlowRoute` asks for: the file names it is not, and how it starts. */
  lemma GoldGlowShapeNames(key: string)
    requires key == "effects/gold-glow.svg"
    ensures key != "classic.svg" && key != "geometric.svg" && key != "floral.svg"
    ensures key != "arabesque.svg" && key != "royal.svg"
    ensures key != "standard.svg" && key != "silver.svg" && key != "gold.svg" && key != "magical.svg"
    ensures key != "sound-waves.svg" && key != "interactive-particles.svg"
    ensures key != "personalized-blend.svg" && key != "diamond-sparkle.svg"
    ensures IsPrefix("effects/gold-glow", key)
  {
  }

  /** `effects/gold-glow.svg` mentions `gold` but is not a gold thread: the
      bare `gold.svg` test is an equality, so the key reaches the
      gold-glow effect. */
  lemma GoldGlowNotThread(c1: Option<string>, c2: Option<string>)
    ensures FirstMatch("effects/gold-glow.svg") == Some(GoldGlowRule)
    ensures Resolve("effects/gold-glow.svg", c1, c2) == EffectSvg("gold-glow", c1)
  {
    GoldGlowShapeChars("effects/gold-glow.svg");
    GoldGlowShapeNames("effects/gold-glow.svg");
    GoldGlowRoute("effects/gold-glow.svg", c1, c2);
  }
}
