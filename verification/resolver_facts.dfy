/**
 * Properties of the placeholder resolver: totality and the default case,
 * first-match-wins ordering, rules that earlier rules shadow, and the
 * routing of the concrete image paths the pages use.
 */
module ResolverFacts {
  import opened Base
  import opened Graphics
  import opened Resolver

  /** The default document comes out exactly when no rule of the chain
      fires; no rule's generator call produces it. */
  lemma DefaultIffNoRule(key: string, c1: Option<string>, c2: Option<string>)
    ensures Resolve(key, c1, c2) == DefaultPlaceholder <==>
            forall i :: 0 <= i < |Rules| ==> !Fires(Rules[i], key)
  {
  }

  /** First match wins: when rule `i` fires and no earlier rule does, the
      result is rule `i`'s generator call, whatever later rules say. */
  lemma FirstMatchWins(key: string, i: nat, c1: Option<string>, c2: Option<string>)
    requires i < |Rules| && Fires(Rules[i], key)
    requires forall j :: 0 <= j < i ==> !Fires(Rules[j], key)
    ensures FirstMatch(key) == Some(i)
    ensures Resolve(key, c1, c2) == Run(Rules[i].action, c1, c2)
  {
  }

  /** An earlier firing rule always pre-empts a later one. */
  lemma EarlierRulePreempts(key: string, i: nat, j: nat)
    requires i < j < |Rules| && Fires(Rules[i], key)
    ensures FirstMatch(key) != Some(j)
  {
  }

  /** A rule with two `includes` tests fires exactly when the key holds
      either needle. */
  lemma FiresEither(key: string, i: nat, a: string, b: string)
    requires i < |Rules| && Rules[i].tests == [Has(a), Has(b)]
    ensures Fires(Rules[i], key) <==> Contains(key, a) || Contains(key, b)
  {
    AnyHoldsPair(Has(a), Has(b), key);
  }

  /** A key holding `long` holds every needle found inside `long`. */
  lemma ContainsVia(key: string, long: string, short: string, at: int)
    requires Contains(key, long) && OccursAt(long, short, at)
    ensures Contains(key, short)
  {
    ContainsAt(long, short, at);
    ContainsTransitive(key, long, short);
  }

  /** A key naming `patterns/classic` fires both the classic pattern rule
      and the later generic `pattern` rule. */
  lemma ClassicKeyFiresBoth(key: string)
    requires Contains(key, "patterns/classic")
    ensures Fires(Rules[ClassicPatternRule], key)
    ensures Fires(Rules[GenericPatternRule], key)
  {
    NamedRules();
    AnyHoldsPair(Has("patterns/classic"), Is("classic.svg"), key);
    ContainsAt("patterns/classic", "pattern", 0);
    ContainsTransitive(key, "patterns/classic", "pattern");
  }

  /** First match wins: a key naming `patterns/classic` gets the classic
      pattern, although it also contains the generic `pattern` keyword. */
  lemma ClassicBeatsGenericPattern(key: string, c1: Option<string>, c2: Option<string>)
    requires Contains(key, "patterns/classic")
    ensures Fires(Rules[GenericPatternRule], key)
    ensures FirstMatch(key) == Some(ClassicPatternRule)
    ensures Resolve(key, c1, c2) == PatternSvg("classic", c1, c2)
  {
    ClassicKeyFiresBoth(key);
    NamedRules();
  }

  /** The tests of the auditory icon and carpet-example rules. */
  lemma AuditoryTests()
    ensures AuditoryIconRule < AuditoryCarpetRule < |Rules|
    ensures Rules[AuditoryIconRule].tests == [Has("auditory-learner"), Has("Auditory")]
    ensures Rules[AuditoryCarpetRule].tests == [Has("carpet-auditory-learner"), Has("Auditory learner carpet")]
  {
    NamedRules();
  }

  /** The auditory carpet-example needles hold the icon needles. */
  lemma AuditoryNeedles(key: string)
    ensures Contains(key, "carpet-auditory-learner") ==> Contains(key, "auditory-learner")
    ensures Contains(key, "Auditory learner carpet") ==> Contains(key, "Auditory")
  {
    if Contains(key, "carpet-auditory-learner") {
      assert "carpet-auditory-learner"[7..23] == "auditory-learner";
      ContainsVia(key, "carpet-auditory-learner", "auditory-learner", 7);
    }
    if Contains(key, "Auditory learner carpet") {
      ContainsVia(key, "Auditory learner carpet", "Auditory", 0);
    }
  }

  /** Every key the auditory carpet-example rule accepts, the earlier
      auditory icon rule accepts too. */
  lemma AuditoryCarpetImpliesIcon(key: string)
    ensures Fires(Rules[AuditoryCarpetRule], key) ==> Fires(Rules[AuditoryIconRule], key)
  {
    AuditoryTests();
    FiresEither(key, AuditoryCarpetRule, "carpet-auditory-learner", "Auditory learner carpet");
    FiresEither(key, AuditoryIconRule, "auditory-learner", "Auditory");
    AuditoryNeedles(key);
  }

  /** Shadowing: the auditory carpet-example rule never decides the result. */
  lemma AuditoryCarpetShadowed(key: string)
    ensures FirstMatch(key) != Some(AuditoryCarpetRule)
  {
    AuditoryCarpetImpliesIcon(key);
    if Fires(Rules[AuditoryCarpetRule], key) {
      EarlierRulePreempts(key, AuditoryIconRule, AuditoryCarpetRule);
    }
  }

  /** The tests of the kinesthetic icon and carpet-example rules. */
  lemma KinestheticTests()
    ensures KinestheticIconRule < KinestheticCarpetRule < |Rules|
    ensures Rules[KinestheticIconRule].tests == [Has("kinesthetic-learner"), Has("Kinesthetic")]
    ensures Rules[KinestheticCarpetRule].tests == [Has("carpet-kinesthetic-learner"), Has("Kinesthetic learner carpet")]
  {
    NamedRules();
  }

  /** The kinesthetic carpet-example needles hold the icon needles. */
  lemma KinestheticNeedles(key: string)
    ensures Contains(key, "carpet-kinesthetic-learner") ==> Contains(key, "kinesthetic-learner")
    ensures Contains(key, "Kinesthetic learner carpet") ==> Contains(key, "Kinesthetic")
  {
    if Contains(key, "carpet-kinesthetic-learner") {
      assert "carpet-kinesthetic-learner"[7..26] == "kinesthetic-learner";
      ContainsVia(key, "carpet-kinesthetic-learner", "kinesthetic-learner", 7);
    }
    if Contains(key, "Kinesthetic learner carpet") {
      ContainsVia(key, "Kinesthetic learner carpet", "Kinesthetic", 0);
    }
  }

  /** Every key the kinesthetic carpet-example rule accepts, the earlier
      kinesthetic icon rule accepts too. */
  lemma KinestheticCarpetImpliesIcon(key: string)
    ensures Fires(Rules[KinestheticCarpetRule], key) ==> Fires(Rules[KinestheticIconRule], key)
  {
    KinestheticTests();
    FiresEither(key, KinestheticCarpetRule, "carpet-kinesthetic-learner", "Kinesthetic learner carpet");
    FiresEither(key, KinestheticIconRule, "kinesthetic-learner", "Kinesthetic");
    KinestheticNeedles(key);
  }

  /** Shadowing: the kinesthetic carpet-example rule never decides. */
  lemma KinestheticCarpetShadowed(key: string)
    ensures FirstMatch(key) != Some(KinestheticCarpetRule)
  {
    KinestheticCarpetImpliesIcon(key);
    if Fires(Rules[KinestheticCarpetRule], key) {
      EarlierRulePreempts(key, KinestheticIconRule, KinestheticCarpetRule);
    }
  }

  /** The tests of the visual icon and carpet-example rules. */
  lemma VisualTests()
    ensures VisualIconRule < VisualCarpetRule < |Rules|
    ensures Rules[VisualIconRule].tests == [Has("visual-learner"), Has("Visual learning")]
    ensures Rules[VisualCarpetRule].tests == [Has("carpet-visual-learner"), Has("Visual learner carpet")]
  {
    NamedRules();
  }

  /** The visual carpet-example path holds the visual icon path. */
  lemma VisualNeedle(key: string)
    requires Contains(key, "carpet-visual-learner")
    ensures Contains(key, "visual-learner")
  {
    assert "carpet-visual-learner"[7..21] == "visual-learner";
    ContainsVia(key, "carpet-visual-learner", "visual-learner", 7);
  }

  /** The path alternative of the visual carpet-example rule implies the
      earlier visual icon rule. */
  lemma VisualCarpetPathImpliesIcon(key: string)
    requires Contains(key, "carpet-visual-learner")
    ensures Fires(Rules[VisualIconRule], key)
  {
    VisualTests();
    FiresEither(key, VisualIconRule, "visual-learner", "Visual learning");
    VisualNeedle(key);
  }

  /** The visual carpet-example rule decides only through its alt-text
      alternative (`Visual learner carpet`), never through its path name. */
  lemma VisualCarpetOnlyByAltText(key: string)
    ensures FirstMatch(key) == Some(VisualCarpetRule) ==>
              Contains(key, "Visual learner carpet") && !Contains(key, "carpet-visual-learner")
  {
    VisualTests();
    FiresEither(key, VisualCarpetRule, "carpet-visual-learner", "Visual learner carpet");
    if Contains(key, "carpet-visual-learner") {
      VisualCarpetPathImpliesIcon(key);
      EarlierRulePreempts(key, VisualIconRule, VisualCarpetRule);
    }
  }

  /** Shadowing, personas: the Amelia/Auditory and Daniel/Kinesthetic
      alt-text conditions never decide; those personas are reached only
      through their path names. */
  lemma PersonaAltTextShadowed(key: string)
    ensures FirstMatch(key) == Some(AmeliaPersonaRule) ==> Contains(key, "persona-amelia")
    ensures FirstMatch(key) == Some(DanielPersonaRule) ==> Contains(key, "persona-daniel")
  {
    NamedRules();
    AnyHoldsPair(Has("persona-amelia"), HasBoth("Amelia", "Auditory"), key);
    AnyHoldsPair(Has("persona-daniel"), HasBoth("Daniel", "Kinesthetic"), key);
    AnyHoldsPair(Has("auditory-learner"), Has("Auditory"), key);
    AnyHoldsPair(Has("kinesthetic-learner"), Has("Kinesthetic"), key);
    if Contains(key, "Auditory") {
      EarlierRulePreempts(key, AuditoryIconRule, AmeliaPersonaRule);
    }
    if Contains(key, "Kinesthetic") {
      EarlierRulePreempts(key, KinestheticIconRule, DanielPersonaRule);
    }
  }

  // ---------------------------------------------------------------------
  // Key extraction

  /** Extracting a key from a non-empty key gives the key back: a key is
      already in `dir/file` or `file` form. */
  lemma LookupKeyIdempotent(src: string)
    requires LookupKey(src).Some? && LookupKey(src).value != ""
    ensures LookupKey(LookupKey(src).value) == LookupKey(src)
  {
    var parts := Split(src, '/');
    var n := |parts|;
    assert LookupKey(src) == Some(KeyOf(parts));
    if n > 1 && parts[n - 2] != "" {
      KeyOfPair(parts[n - 2], parts[n - 1]);
    }
  }

  /** A `dir/file` key with a non-empty directory is its own key. */
  lemma KeyOfPair(dir: string, file: string)
    requires '/' !in dir && '/' !in file && dir != ""
    ensures LookupKey(dir + "/" + file) == Some(dir + "/" + file)
  {
    assert [dir, file][1..] == [file];
    SplitJoin([dir, file], '/');
    assert KeyOf([dir, file]) == dir + "/" + file;
  }
}
