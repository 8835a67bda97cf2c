/**
 * The procedural placeholder generators of images.js.js (`generate*SVG`).
 *
 * Every switch-based generator picks one branch of its `switch(type)` (the
 * matching `case`, or `default`), fills that branch's markup with the colour
 * arguments the branch interpolates, and wraps the result in one shared
 * `<svg … viewBox="0 0 100 100">…</svg>` envelope. The model keeps exactly
 * that information: which generator, which branch, which colour strings end
 * up in the markup. Two calls that agree on these three produce the same
 * document text; the markup of each branch itself is not transcribed.
 */
module Graphics {
  import opened Base

  datatype Generator =
    | PatternGen | ThreadGen | EffectGen | IconGen | PersonaGen
    | CarpetExampleGen | CarpetCompareGen | PremiumFeatureGen | AchievementGen

  /** The branch a `switch(type)` takes: a `case` label or `default`. */
  datatype Branch = Case(name: string) | Fallback

  datatype Graphic =
    /** A switch-based generator's output inside the shared envelope. */
    | Drawn(gen: Generator, branch: Branch, colours: seq<string>)
    /** `generateDuoSVG()`: a fixed, stand-alone document. */
    | DuoOwl
    /** `generateDefaultSVG()`: the ultimate fallback document. */
    | DefaultPlaceholder

  /** Default parameter values of the generators. */
  const Blue := "#1CB0F6"
  const DarkBlue := "#0F8BC0"
  const Green := "#4CAF50"

  /** The `case` labels of each generator's switch, in source order. */
  const PatternCases: seq<string> := ["classic", "geometric", "floral", "arabesque", "royal"]
  const ThreadCases: seq<string> := ["standard", "silver", "gold", "magical"]
  const EffectCases: seq<string> := ["sound-waves", "particles", "personalized", "diamond-sparkle", "gold-glow"]
  const IconCases: seq<string> := ["visual", "auditory", "kinesthetic", "personalized", "streak", "gems", "league"]
  const PersonaCases: seq<string> := ["boy", "girl", "boy2"]
  const CarpetExampleCases: seq<string> := ["visual", "auditory", "kinesthetic"]
  const CarpetCompareCases: seq<string> := ["free", "premium"]
  const PremiumFeatureCases: seq<string> := ["patterns", "colors", "threads", "learning", "league"]
  const AchievementCases: seq<string> := ["streak", "gems", "league"]

  /** Branches whose markup uses fixed colours and ignores the colour argument. */
  const FixedColourThreads: seq<string> := ["silver", "gold", "magical"]
  const FixedColourEffects: seq<string> := ["personalized", "diamond-sparkle", "gold-glow"]
  const FixedColourIcons: seq<string> := ["streak", "gems", "league"]

  /** A JavaScript default parameter: it applies exactly when the argument
      is `undefined`. */
  function Arg(c: Option<string>, default: string): string {
    c.GetOr(default)
  }

  /** The branch `switch(variant)` selects among `cases` (strict equality). */
  function Pick(cases: seq<string>, variant: string): (b: Branch)
    ensures b.Case? <==> variant in cases
    ensures b.Case? ==> b.name == variant
  {
    if variant in cases then Case(variant) else Fallback
  }

  /** `generatePatternSVG(type, color1 = '#1CB0F6', color2 = '#0F8BC0')`:
      the five patterns draw with both colours, `default` only with the first. */
  function PatternSvg(variant: string, c1: Option<string>, c2: Option<string>): (g: Graphic)
    ensures g.Drawn? && g.gen == PatternGen
    ensures g.branch == Pick(PatternCases, variant)
  {
    var b := Pick(PatternCases, variant);
    Drawn(PatternGen, b, if b.Case? then [Arg(c1, Blue), Arg(c2, DarkBlue)] else [Arg(c1, Blue)])
  }

  /** `generatePatternThumbnail`: resolves its own defaults, then delegates. */
  function PatternThumbnail(variant: string, c1: Option<string>, c2: Option<string>): (g: Graphic)
    ensures g.Drawn? && g.gen == PatternGen && g.branch == Pick(PatternCases, variant)
  {
    PatternSvg(variant, Some(Arg(c1, Blue)), Some(Arg(c2, DarkBlue)))
  }

  /** `generateThreadSVG(type, color = '#1CB0F6')`. */
  function ThreadSvg(variant: string, c: Option<string>): (g: Graphic)
    ensures g.Drawn? && g.gen == ThreadGen
    ensures g.branch == Pick(ThreadCases, variant)
  {
    Drawn(ThreadGen, Pick(ThreadCases, variant),
          if variant in FixedColourThreads then [] else [Arg(c, Blue)])
  }

  /** `generateEffectSVG(type, color = '#1CB0F6')`. */
  function EffectSvg(variant: string, c: Option<string>): (g: Graphic)
    ensures g.Drawn? && g.gen == EffectGen
    ensures g.branch == Pick(EffectCases, variant)
  {
    Drawn(EffectGen, Pick(EffectCases, variant),
          if variant in FixedColourEffects then [] else [Arg(c, Blue)])
  }

  /** `generateIconSVG(type, color = '#1CB0F6')`. */
  function IconSvg(variant: string, c: Option<string>): (g: Graphic)
    ensures g.Drawn? && g.gen == IconGen
    ensures g.branch == Pick(IconCases, variant)
  {
    Drawn(IconGen, Pick(IconCases, variant),
          if variant in FixedColourIcons then [] else [Arg(c, Blue)])
  }

  /** `generatePersonaSVG(type, color = '#4CAF50')`: every branch tints its
      background circle with the colour. */
  function PersonaSvg(variant: string, c: Option<string>): (g: Graphic)
    ensures g.Drawn? && g.gen == PersonaGen
    ensures g.branch == Pick(PersonaCases, variant)
  {
    Drawn(PersonaGen, Pick(PersonaCases, variant), [Arg(c, Green)])
  }

  /** `generateCarpetExampleSVG(type, color = '#4CAF50')`: every branch
      fills the carpet with the colour. */
  function CarpetExampleSvg(variant: string, c: Option<string>): (g: Graphic)
    ensures g.Drawn? && g.gen == CarpetExampleGen
    ensures g.branch == Pick(CarpetExampleCases, variant)
  {
    Drawn(CarpetExampleGen, Pick(CarpetExampleCases, variant), [Arg(c, Green)])
  }

  /** `generateCarpetCompareSVG(type)`: fixed colours only. */
  function CarpetCompareSvg(variant: string): (g: Graphic)
    ensures g.Drawn? && g.gen == CarpetCompareGen && g.colours == []
    ensures g.branch == Pick(CarpetCompareCases, variant)
  {
    Drawn(CarpetCompareGen, Pick(CarpetCompareCases, variant), [])
  }

  /** `generatePremiumFeatureSVG(type)`: fixed colours only. */
  function PremiumFeatureSvg(variant: string): (g: Graphic)
    ensures g.Drawn? && g.gen == PremiumFeatureGen && g.colours == []
    ensures g.branch == Pick(PremiumFeatureCases, variant)
  {
    Drawn(PremiumFeatureGen, Pick(PremiumFeatureCases, variant), [])
  }

  /** `generateAchievementSVG(type)`: fixed colours only. */
  function AchievementSvg(variant: string): (g: Graphic)
    ensures g.Drawn? && g.gen == AchievementGen && g.colours == []
    ensures g.branch == Pick(AchievementCases, variant)
  {
    Drawn(AchievementGen, Pick(AchievementCases, variant), [])
  }

  // ---------------------------------------------------------------------
  // Properties of the generator family

  /** A thumbnail is the full pattern document, and omitted colours fall
      back to the same two defaults either way. */
  lemma ThumbnailIsPattern(variant: string, c1: Option<string>, c2: Option<string>)
    ensures PatternThumbnail(variant, c1, c2) == PatternSvg(variant, c1, c2)
    ensures PatternSvg(variant, None, None) == PatternSvg(variant, Some(Blue), Some(DarkBlue))
  {
  }

  /** Silver, gold and magical threads ignore the colour argument; the
      standard and `default` branches draw with exactly that colour, so two
      calls agree iff their effective colours agree. */
  lemma ThreadColourUse(variant: string, a: Option<string>, b: Option<string>)
    ensures variant in FixedColourThreads ==> ThreadSvg(variant, a) == ThreadSvg(variant, b)
    ensures variant !in FixedColourThreads ==>
              (ThreadSvg(variant, a) == ThreadSvg(variant, b) <==> Arg(a, Blue) == Arg(b, Blue))
  {
    if variant !in FixedColourThreads && ThreadSvg(variant, a) == ThreadSvg(variant, b) {
      assert ThreadSvg(variant, a).colours[0] == Arg(a, Blue);
    }
  }

  /** Effects: sound-waves, particles and `default` use the colour; the
      personalized, diamond-sparkle and gold-glow branches do not. */
  lemma EffectColourUse(variant: string, a: Option<string>, b: Option<string>)
    ensures variant in FixedColourEffects ==> EffectSvg(variant, a) == EffectSvg(variant, b)
    ensures variant !in FixedColourEffects ==>
              (EffectSvg(variant, a) == EffectSvg(variant, b) <==> Arg(a, Blue) == Arg(b, Blue))
  {
    if variant !in FixedColourEffects && EffectSvg(variant, a) == EffectSvg(variant, b) {
      assert EffectSvg(variant, a).colours[0] == Arg(a, Blue);
    }
  }

  /** Icons: the streak, gems and league icons have fixed colours. */
  lemma IconColourUse(variant: string, a: Option<string>, b: Option<string>)
    ensures variant in FixedColourIcons ==> IconSvg(variant, a) == IconSvg(variant, b)
    ensures variant !in FixedColourIcons ==>
              (IconSvg(variant, a) == IconSvg(variant, b) <==> Arg(a, Blue) == Arg(b, Blue))
  {
    if variant !in FixedColourIcons && IconSvg(variant, a) == IconSvg(variant, b) {
      assert IconSvg(variant, a).colours[0] == Arg(a, Blue);
    }
  }

  /** Every persona drawing, fallback included, depends on the colour
      argument and on nothing else of it. */
  lemma PersonaColourUse(variant: string, a: Option<string>, b: Option<string>)
    ensures PersonaSvg(variant, a) == PersonaSvg(variant, b) <==> Arg(a, Green) == Arg(b, Green)
  {
    if PersonaSvg(variant, a) == PersonaSvg(variant, b) {
      assert PersonaSvg(variant, a).colours[0] == Arg(a, Green);
    }
  }

  /** Every carpet example, fallback included, fills with the colour
      argument. */
  lemma CarpetExampleColourUse(variant: string, a: Option<string>, b: Option<string>)
    ensures CarpetExampleSvg(variant, a) == CarpetExampleSvg(variant, b) <==> Arg(a, Green) == Arg(b, Green)
  {
    if CarpetExampleSvg(variant, a) == CarpetExampleSvg(variant, b) {
      assert CarpetExampleSvg(variant, a).colours[0] == Arg(a, Green);
    }
  }

  /** Every known pattern draws with both colours, in argument order. */
  lemma PatternColourUse(variant: string, a1: Option<string>, a2: Option<string>,
                         b1: Option<string>, b2: Option<string>)
    ensures variant in PatternCases ==>
              (PatternSvg(variant, a1, a2) == PatternSvg(variant, b1, b2) <==>
                 Arg(a1, Blue) == Arg(b1, Blue) && Arg(a2, DarkBlue) == Arg(b2, DarkBlue))
    ensures variant !in PatternCases ==>
              (PatternSvg(variant, a1, a2) == PatternSvg(variant, b1, b2) <==> Arg(a1, Blue) == Arg(b1, Blue))
  {
    if PatternSvg(variant, a1, a2) == PatternSvg(variant, b1, b2) {
      assert PatternSvg(variant, a1, a2).colours[0] == Arg(a1, Blue);
      if variant in PatternCases {
        assert PatternSvg(variant, a1, a2).colours[1] == Arg(a2, DarkBlue);
      }
    }
  }

  // ---------------------------------------------------------------------
  // The shared envelope

  const SvgOpen := "<svg xmlns=\"http://www.w3.org/2000/svg\" viewBox=\"0 0 100 100\">"
  const SvgClose := "</svg>"

  /** The `return` line every switch-based generator ends with. */
  function Wrap(content: string): (doc: string)
    ensures IsPrefix(SvgOpen, doc) && IsSuffix(SvgClose, doc)
    ensures |doc| == |SvgOpen| + |content| + |SvgClose|
  {
    SvgOpen + content + SvgClose
  }

  /** Recovers the content of an enveloped document; `None` for a document
      that does not carry the envelope. */
  function Unwrap(doc: string): Option<string> {
    if |SvgOpen| + |SvgClose| <= |doc| && IsPrefix(SvgOpen, doc) && IsSuffix(SvgClose, doc)
    then Some(doc[|SvgOpen|..|doc| - |SvgClose|])
    else None
  }

  /** Wrapping and unwrapping are inverse: the envelope adds nothing the
      content cannot be read back from, and every unwrappable document is
      the wrapping of what it unwraps to. */
  lemma EnvelopeRoundTrip(content: string, doc: string)
    ensures Unwrap(Wrap(content)) == Some(content)
    ensures Unwrap(doc).Some? ==> Wrap(Unwrap(doc).value) == doc
  {
    var w := Wrap(content);
    assert w[|SvgOpen|..|w| - |SvgClose|] == content;
    if Unwrap(doc).Some? {
      var inner := doc[|SvgOpen|..|doc| - |SvgClose|];
      assert doc == doc[..|SvgOpen|] + inner + doc[|doc| - |SvgClose|..];
    }
  }
}
