/**
 * The placeholder resolver of images.js.js: `generateSVG` reduces an image
 * `src` to a lookup key, and `createPlaceholderImage` dispatches that key
 * through an ordered chain of case-sensitive substring and equality tests.
 * The chain is modelled as an explicit table of rules; the first rule with
 * a passing test decides the graphic, and a key no rule accepts gets
 * `generateDefaultSVG()`.
 */
module Resolver {
  import opened Base
  import opened Graphics

  /** One condition of a rule: `key.includes(n)`, `key === s`, or the
      conjunction of two `includes` tests. */
  datatype Test = Has(needle: string) | Is(literal: string) | HasBoth(first: string, second: string)

  /** The generator call a rule makes. Colour-taking generators receive the
      caller's colours unless the rule passes its own. */
  datatype Action =
    | DrawPattern(variant: string)
    | DrawThumbnail(variant: string)
    | DrawThread(variant: string)
    | DrawEffect(variant: string)
    | DrawIcon(variant: string, colour: string)
    | DrawDuo
    | DrawPersona(variant: string, colour: string)
    | DrawCarpetExample(variant: string, colour: string)
    | DrawCarpetCompare(variant: string)
    | DrawPremiumFeature(variant: string)
    | DrawAchievement(variant: string)
    | DrawFixedPattern(variant: string, colour1: string, colour2: string)

  /** An `if (test || test || …) return action;` line of the chain. */
  datatype Rule = Rule(tests: seq<Test>, action: Action)

  predicate Holds(t: Test, key: string) {
    match t
    case Has(n) => Contains(key, n)
    case Is(s) => key == s
    case HasBoth(a, b) => Contains(key, a) && Contains(key, b)
  }

  predicate AnyHolds(tests: seq<Test>, key: string) {
    |tests| > 0 && (Holds(tests[0], key) || AnyHolds(tests[1..], key))
  }

  /** A rule fires when one of its alternatives holds. */
  predicate Fires(r: Rule, key: string) {
    AnyHolds(r.tests, key)
  }

  /** `AnyHolds` is the disjunction of the rule's tests. */
  lemma {:induction false} AnyHoldsIff(tests: seq<Test>, key: string)
    ensures AnyHolds(tests, key) <==> exists k :: 0 <= k < |tests| && Holds(tests[k], key)
  {
    if |tests| > 0 {
      AnyHoldsIff(tests[1..], key);
      if exists k :: 0 <= k < |tests| && Holds(tests[k], key) {
        var k :| 0 <= k < |tests| && Holds(tests[k], key);
        if k > 0 {
          assert tests[1..][k - 1] == tests[k];
        }
      }
      if exists k :: 0 <= k < |tests[1..]| && Holds(tests[1..][k], key) {
        var k :| 0 <= k < |tests[1..]| && Holds(tests[1..][k], key);
        assert tests[k + 1] == tests[1..][k];
      }
    }
  }

  /** A two-alternative rule fires when either alternative holds. */
  lemma AnyHoldsPair(a: Test, b: Test, key: string)
    ensures AnyHolds([a, b], key) <==> Holds(a, key) || Holds(b, key)
  {
    assert [a, b][1..] == [b];
    assert [b][1..] == [];
    assert !AnyHolds([], key);
    assert AnyHolds([b], key) <==> Holds(b, key);
  }

  // The dispatch chain of `createPlaceholderImage`, in source order, in the
  // groups the source's comments name. Rule positions in `Rules` are given
  // at the end of each line.

  /** Pattern placeholders: `patterns/<name>` or exactly `<name>.svg`. */
  const PatternRules: seq<Rule> := [
    Rule([Has("patterns/classic"), Is("classic.svg")], DrawPattern("classic")),  // 0
    Rule([Has("patterns/geometric"), Is("geometric.svg")], DrawPattern("geometric")),  // 1
    Rule([Has("patterns/floral"), Is("floral.svg")], DrawPattern("floral")),  // 2
    Rule([Has("patterns/arabesque"), Is("arabesque.svg")], DrawPattern("arabesque")),  // 3
    Rule([Has("patterns/royal"), Is("royal.svg")], DrawPattern("royal"))  // 4
  ]

  /** Pattern thumbnails. */
  const ThumbnailRules: seq<Rule> := [
    Rule([Has("classic-thumb")], DrawThumbnail("classic")),  // 5
    Rule([Has("geometric-thumb")], DrawThumbnail("geometric")),  // 6
    Rule([Has("floral-thumb")], DrawThumbnail("floral")),  // 7
    Rule([Has("arabesque-thumb")], DrawThumbnail("arabesque")),  // 8
    Rule([Has("royal-thumb")], DrawThumbnail("royal"))  // 9
  ]

  /** Thread patterns. */
  const ThreadRules: seq<Rule> := [
    Rule([Has("threads/standard"), Is("standard.svg")], DrawThread("standard")),  // 10
    Rule([Has("threads/silver"), Is("silver.svg")], DrawThread("silver")),  // 11
    Rule([Has("threads/gold"), Is("gold.svg")], DrawThread("gold")),  // 12
    Rule([Has("threads/magical"), Is("magical.svg")], DrawThread("magical"))  // 13
  ]

  /** Effects (note the `interactive-particles` and `personalized-blend` file names). */
  const EffectRules: seq<Rule> := [
    Rule([Has("effects/sound-waves"), Is("sound-waves.svg")], DrawEffect("sound-waves")),  // 14
    Rule([Has("effects/interactive-particles"), Is("interactive-particles.svg")], DrawEffect("particles")),  // 15
    Rule([Has("effects/personalized-blend"), Is("personalized-blend.svg")], DrawEffect("personalized")),  // 16
    Rule([Has("effects/diamond-sparkle"), Is("diamond-sparkle.svg")], DrawEffect("diamond-sparkle")),  // 17
    Rule([Has("effects/gold-glow"), Is("gold-glow.svg")], DrawEffect("gold-glow"))  // 18
  ]

  /** Icons, by path name or by alt-text word. */
  const IconRules: seq<Rule> := [
    Rule([Has("visual-learner"), Has("Visual learning")], DrawIcon("visual", "#1CB0F6")),  // 19
    Rule([Has("auditory-learner"), Has("Auditory")], DrawIcon("auditory", "#E91E63")),  // 20
    Rule([Has("kinesthetic-learner"), Has("Kinesthetic")], DrawIcon("kinesthetic", "#FF9800")),  // 21
    Rule([Has("personalized-learner"), Has("Personalized")], DrawIcon("personalized", "#4CAF50")),  // 22
    Rule([Has("streak-icon"), Has("Streak")], DrawIcon("streak", "#FFD900")),  // 23
    Rule([Has("gems-icon"), Has("Gems")], DrawIcon("gems", "#A560F8")),  // 24
    Rule([Has("league-icon"), Has("League")], DrawIcon("league", "#00BCD4"))  // 25
  ]

  /** The Duo character. */
  const CharacterRules: seq<Rule> := [
    Rule([Has("duo-flying"), Has("Duo")], DrawDuo)  // 26
  ]

  /** Personas, by path name or by a name together with a learning-style word. */
  const PersonaRules: seq<Rule> := [
    Rule([Has("persona-samuel"), HasBoth("Samuel", "Visual")], DrawPersona("boy", "#4CAF50")),  // 27
    Rule([Has("persona-amelia"), HasBoth("Amelia", "Auditory")], DrawPersona("girl", "#E91E63")),  // 28
    Rule([Has("persona-daniel"), HasBoth("Daniel", "Kinesthetic")], DrawPersona("boy2", "#FF9800"))  // 29
  ]

  /** Carpet examples, by path name or by alt text. */
  const CarpetExampleRules: seq<Rule> := [
    Rule([Has("carpet-visual-learner"), Has("Visual learner carpet")], DrawCarpetExample("visual", "#4CAF50")),  // 30
    Rule([Has("carpet-auditory-learner"), Has("Auditory learner carpet")], DrawCarpetExample("auditory", "#E91E63")),  // 31
    Rule([Has("carpet-kinesthetic-learner"), Has("Kinesthetic learner carpet")], DrawCarpetExample("kinesthetic", "#FF9800"))  // 32
  ]

  /** Free/premium comparisons and premium feature images. */
  const PremiumRules: seq<Rule> := [
    Rule([Has("carpet-free"), Has("Free Magic Carpet")], DrawCarpetCompare("free")),  // 33
    Rule([Has("carpet-premium"), Has("Premium Magic Carpet"), Has("Magic Carpet Flying")], DrawCarpetCompare("premium")),  // 34
    Rule([Has("premium/premium-patterns"), Has("premium-patterns.svg")], DrawPremiumFeature("patterns")),  // 35
    Rule([Has("premium/premium-colors"), Has("premium-colors.svg")], DrawPremiumFeature("colors")),  // 36
    Rule([Has("premium/premium-threads"), Has("premium-threads.svg")], DrawPremiumFeature("threads")),  // 37
    Rule([Has("premium/premium-learning"), Has("premium-learning.svg")], DrawPremiumFeature("learning")),  // 38
    Rule([Has("premium/premium-league"), Has("premium-league.svg")], DrawPremiumFeature("league"))  // 39
  ]

  /** Achievements. */
  const AchievementRules: seq<Rule> := [
    Rule([Has("achievements/streak-threads"), Has("streak-threads.svg")], DrawAchievement("streak")),  // 40
    Rule([Has("achievements/gem-embellishments"), Has("gem-embellishments.svg")], DrawAchievement("gems")),  // 41
    Rule([Has("achievements/league-heights"), Has("league-heights.svg")], DrawAchievement("league"))  // 42
  ]

  /** The `premium-feature-default` fallback and the generic keyword fallbacks. */
  const FallbackRules: seq<Rule> := [
    Rule([Has("premium-feature-default")], DrawPremiumFeature("patterns")),  // 43
    Rule([Has("visual")], DrawCarpetExample("visual", "#4CAF50")),  // 44
    Rule([Has("auditory")], DrawCarpetExample("auditory", "#E91E63")),  // 45
    Rule([Has("kinesthetic")], DrawCarpetExample("kinesthetic", "#FF9800")),  // 46
    Rule([Has("pattern")], DrawFixedPattern("classic", "#1CB0F6", "#0F8BC0")),  // 47
    Rule([Has("streak")], DrawAchievement("streak")),  // 48
    Rule([Has("gem")], DrawAchievement("gems")),  // 49
    Rule([Has("league")], DrawAchievement("league")),  // 50
    Rule([Has("premium")], DrawCarpetCompare("premium")),  // 51
    Rule([Has("free")], DrawCarpetCompare("free")),  // 52
    Rule([Has("carpet")], DrawCarpetCompare("premium"))  // 53
  ]

  /** The whole chain. */
  const Rules: seq<Rule> :=
    PatternRules + ThumbnailRules + ThreadRules + EffectRules + IconRules + CharacterRules
    + PersonaRules + CarpetExampleRules + PremiumRules + AchievementRules + FallbackRules

  /** Positions in the chain that the properties below talk about. */
  const ClassicPatternRule := 0
  const ClassicThumbRule := 5
  const GoldThreadRule := 12
  const GoldGlowRule := 18
  const VisualIconRule := 19
  const AuditoryIconRule := 20
  const KinestheticIconRule := 21
  const SamuelPersonaRule := 27
  const AmeliaPersonaRule := 28
  const DanielPersonaRule := 29
  const VisualCarpetRule := 30
  const AuditoryCarpetRule := 31
  const KinestheticCarpetRule := 32
  const GenericPatternRule := 47

  /** The rules at the named positions, spelled out. */
  lemma NamedRules()
    ensures |Rules| == 54
    ensures Rules[ClassicPatternRule] == Rule([Has("patterns/classic"), Is("classic.svg")], DrawPattern("classic"))
    ensures Rules[ClassicThumbRule] == Rule([Has("classic-thumb")], DrawThumbnail("classic"))
    ensures Rules[GoldThreadRule] == Rule([Has("threads/gold"), Is("gold.svg")], DrawThread("gold"))
    ensures Rules[GoldGlowRule] == Rule([Has("effects/gold-glow"), Is("gold-glow.svg")], DrawEffect("gold-glow"))
    ensures Rules[VisualIconRule] == Rule([Has("visual-learner"), Has("Visual learning")], DrawIcon("visual", "#1CB0F6"))
    ensures Rules[AuditoryIconRule] == Rule([Has("auditory-learner"), Has("Auditory")], DrawIcon("auditory", "#E91E63"))
    ensures Rules[KinestheticIconRule] == Rule([Has("kinesthetic-learner"), Has("Kinesthetic")], DrawIcon("kinesthetic", "#FF9800"))
    ensures Rules[SamuelPersonaRule] == Rule([Has("persona-samuel"), HasBoth("Samuel", "Visual")], DrawPersona("boy", "#4CAF50"))
    ensures Rules[AmeliaPersonaRule] == Rule([Has("persona-amelia"), HasBoth("Amelia", "Auditory")], DrawPersona("girl", "#E91E63"))
    ensures Rules[DanielPersonaRule] == Rule([Has("persona-daniel"), HasBoth("Daniel", "Kinesthetic")], DrawPersona("boy2", "#FF9800"))
    ensures Rules[VisualCarpetRule] == Rule([Has("carpet-visual-learner"), Has("Visual learner carpet")], DrawCarpetExample("visual", "#4CAF50"))
    ensures Rules[AuditoryCarpetRule] == Rule([Has("carpet-auditory-learner"), Has("Auditory learner carpet")], DrawCarpetExample("auditory", "#E91E63"))
    ensures Rules[KinestheticCarpetRule] == Rule([Has("carpet-kinesthetic-learner"), Has("Kinesthetic learner carpet")], DrawCarpetExample("kinesthetic", "#FF9800"))
    ensures Rules[GenericPatternRule] == Rule([Has("pattern")], DrawFixedPattern("classic", "#1CB0F6", "#0F8BC0"))
  {
  }

  /** The generator call of one rule, with the caller's optional colours. */
  function Run(a: Action, c1: Option<string>, c2: Option<string>): (g: Graphic)
    ensures g != DefaultPlaceholder
  {
    match a
    case DrawPattern(v) => PatternSvg(v, c1, c2)
    case DrawThumbnail(v) => PatternThumbnail(v, c1, c2)
    case DrawThread(v) => ThreadSvg(v, c1)
    case DrawEffect(v) => EffectSvg(v, c1)
    case DrawIcon(v, c) => IconSvg(v, Some(c))
    case DrawDuo => DuoOwl
    case DrawPersona(v, c) => PersonaSvg(v, Some(c))
    case DrawCarpetExample(v, c) => CarpetExampleSvg(v, Some(c))
    case DrawCarpetCompare(v) => CarpetCompareSvg(v)
    case DrawPremiumFeature(v) => PremiumFeatureSvg(v)
    case DrawAchievement(v) => AchievementSvg(v)
    case DrawFixedPattern(v, x, y) => PatternSvg(v, Some(x), Some(y))
  }

  /** The index of the first rule at or after `from` that fires on `key`. */
  function FirstFrom(rules: seq<Rule>, key: string, from: nat): (r: Option<nat>)
    requires from <= |rules|
    ensures r.Some? ==> from <= r.value < |rules| && Fires(rules[r.value], key)
    ensures r.Some? ==> forall j :: from <= j < r.value ==> !Fires(rules[j], key)
    ensures r.None? <==> forall j :: from <= j < |rules| ==> !Fires(rules[j], key)
    decreases |rules| - from
  {
    if from == |rules| then None
    else if Fires(rules[from], key) then Some(from)
    else FirstFrom(rules, key, from + 1)
  }

  /** The first rule of the chain that fires on `key`. */
  function FirstMatch(key: string): (r: Option<nat>)
    ensures r.Some? ==> r.value < |Rules| && Fires(Rules[r.value], key)
    ensures r.Some? ==> forall j :: 0 <= j < r.value ==> !Fires(Rules[j], key)
    ensures r.None? <==> forall j :: 0 <= j < |Rules| ==> !Fires(Rules[j], key)
  {
    FirstFrom(Rules, key, 0)
  }

  /** `createPlaceholderImage(type, color1, color2)`. */
  function Resolve(key: string, c1: Option<string>, c2: Option<string>): (g: Graphic)
    ensures g == DefaultPlaceholder <==> forall j :: 0 <= j < |Rules| ==> !Fires(Rules[j], key)
  {
    match FirstMatch(key)
    case Some(i) => Run(Rules[i].action, c1, c2)
    case None => DefaultPlaceholder
  }

  /** `generateSVG`'s key: the last two `/`-separated segments as
      `dir/file`, or just `file` when the directory segment is empty or
      absent; no key at all for an empty `src`. */
  function LookupKey(src: string): (key: Option<string>)
    ensures key.None? <==> src == ""
    ensures key.Some? ==> IsSuffix(key.value, src)
    ensures key.Some? ==> multiset(key.value)['/'] <= 1
    ensures key.Some? && '/' !in src ==> key.value == src
    ensures key.Some? && '/' in key.value ==> key.value == src || IsSuffix("/" + key.value, src)
    ensures key.Some? && '/' !in key.value ==>
              key.value == src || "/" + key.value == src || IsSuffix("//" + key.value, src)
    ensures key.Some? && key.value != "" ==> key.value[0] != '/'
  {
    if src == "" then None
    else
      KeyFacts(src);
      Some(KeyOf(Split(src, '/')))
  }

  /** Everything the key of a non-empty `src` satisfies, in one place. */
  lemma KeyFacts(src: string)
    requires src != ""
    ensures var key := KeyOf(Split(src, '/'));
            && IsSuffix(key, src)
            && multiset(key)['/'] <= 1
            && ('/' !in src ==> key == src)
            && ('/' in key ==> key == src || IsSuffix("/" + key, src))
            && ('/' !in key ==> key == src || "/" + key == src || IsSuffix("//" + key, src))
            && (key != "" ==> key[0] != '/')
  {
    var parts := Split(src, '/');
    KeyPlacement(src, parts);
    KeySuffix(src, parts);
  }

  /** The key is a suffix with at most one separator, and all of a `src`
      that has none. */
  lemma KeySuffix(src: string, parts: seq<string>)
    requires parts == Split(src, '/')
    ensures var key := KeyOf(parts);
            && IsSuffix(key, src)
            && multiset(key)['/'] <= 1
            && ('/' !in src ==> key == src)
  {
    KeyShape(src, parts);
    if '/' !in src {
      assert IndexOf(src, '/') < 0;
    }
  }

  /** The key made of the pieces of a split `src`. */
  function KeyOf(parts: seq<string>): string
    requires |parts| >= 1
  {
    var n := |parts|;
    if n > 1 && parts[n - 2] != "" then parts[n - 2] + "/" + parts[n - 1] else parts[n - 1]
  }

  /** Where the key sits in `src`: after a separator when both segments
      are kept, after two separators (or one, at the very start) when the
      directory segment is empty, and never beginning with a separator. */
  lemma KeyPlacement(src: string, parts: seq<string>)
    requires parts == Split(src, '/')
    ensures var key := KeyOf(parts);
            && ('/' in key ==> key == src || IsSuffix("/" + key, src))
            && ('/' !in key ==> key == src || "/" + key == src || IsSuffix("//" + key, src))
            && (key != "" ==> key[0] != '/')
  {
    var n := |parts|;
    KeyChars(parts);
    JoinSplit(src, '/');
    if n >= 2 {
      var file := parts[n - 1];
      TailSegments(src, parts);
      if parts[n - 2] == "" {
        EmptyDirTail(file);
      }
    }
  }

  /** A tail with an empty directory segment is the file after one or two
      separators. */
  lemma EmptyDirTail(file: string)
    ensures "" + "/" + file == "/" + file
    ensures "/" + ("" + "/" + file) == "//" + file
  {
    assert "" + "/" == "/";
    assert "/" + ("/" + file) == "//" + file;
  }

  /** What follows the separator in `j/tail` is a suffix of it. */
  lemma SuffixOfJoin(j: string, tail: string)
    ensures IsSuffix("/" + tail, j + "/" + tail)
  {
    assert j + "/" + tail == j + ("/" + tail);
    SuffixOfAppend(j, "/" + tail);
  }

  /** The key has a separator exactly when the directory segment is kept,
      and never starts with one. */
  lemma KeyChars(parts: seq<string>)
    requires |parts| >= 1 && forall k :: 0 <= k < |parts| ==> '/' !in parts[k]
    ensures var n := |parts|;
            '/' in KeyOf(parts) <==> n > 1 && parts[n - 2] != ""
    ensures KeyOf(parts) != "" ==> KeyOf(parts)[0] != '/'
  {
    var n := |parts|;
    var file := parts[n - 1];
    assert '/' !in file;
    if n > 1 && parts[n - 2] != "" {
      var dir := parts[n - 2];
      assert '/' !in dir;
      var key := dir + "/" + file;
      assert key[|dir|] == '/';
      assert key[0] == dir[0];
      assert forall c :: c in key ==> c in dir || c == '/' || c in file;
    }
  }

  /** Why the key is a suffix of `src` with at most one separator. */
  lemma KeyShape(src: string, parts: seq<string>)
    requires parts == Split(src, '/')
    ensures var n := |parts|;
            && IsSuffix(parts[n - 1], src)
            && (n > 1 ==> IsSuffix(parts[n - 2] + "/" + parts[n - 1], src))
            && multiset(parts[n - 1])['/'] == 0
            && (n > 1 ==> multiset(parts[n - 2] + "/" + parts[n - 1])['/'] == 1)
            && (n == 1 ==> parts[0] == src)
  {
    var n := |parts|;
    JoinSplit(src, '/');
    NoSlashCount(parts[n - 1]);
    if n > 1 {
      var d, f := parts[n - 2], parts[n - 1];
      NoSlashCount(d);
      assert multiset(d + "/" + f) == multiset(d) + multiset("/") + multiset(f);
      TailSegments(src, parts);
    }
  }

  lemma NoSlashCount(s: string)
    requires '/' !in s
    ensures multiset(s)['/'] == 0
  {
  }

  /** The last two segments, re-joined, end the string they came from. */
  lemma TailSegments(src: string, parts: seq<string>)
    requires |parts| > 1 && Join(parts, '/') == src
    ensures IsSuffix(parts[|parts| - 2] + "/" + parts[|parts| - 1], src)
    ensures IsSuffix(parts[|parts| - 1], src)
    ensures |parts| == 2 ==> src == parts[0] + "/" + parts[1]
    ensures |parts| > 2 ==> IsSuffix("/" + (parts[|parts| - 2] + "/" + parts[|parts| - 1]), src)
  {
    var n := |parts|;
    var d, f := parts[n - 2], parts[n - 1];
    var tail := d + "/" + f;
    JoinCons(d, [f], '/');
    if n == 2 {
      assert parts == [d] + [f];
      assert src == tail;
    } else {
      var front := parts[..n - 2];
      assert parts == front + [d, f];
      assert [d, f] == [d] + [f];
      JoinAppend(front, [d, f], '/');
      assert src == (Join(front, '/') + "/") + tail;
    }
    SuffixOfAppend(d + "/", f);
    assert tail == (d + "/") + f;
    if n > 2 {
      SuffixOfAppend(Join(parts[..n - 2], '/') + "/", tail);
      SuffixOfJoin(Join(parts[..n - 2], '/'), tail);
    }
    SuffixTransitive(f, tail, src);
  }

  /** `generateSVG(img, src)`: the graphic a failing image is replaced by
      (no colour arguments are passed), or nothing for an empty `src`. */
  function PlaceholderFor(src: string): (g: Option<Graphic>)
    ensures g.None? <==> src == ""
  {
    match LookupKey(src)
    case None => None
    case Some(key) => Some(Resolve(key, None, None))
  }
}
