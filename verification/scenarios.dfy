/** Concrete classifications: the empty text, module codes that are not trigger
    phrases, a bare "Fiori" mention, hybrid overriding on-prem, and an explicit
    user count. */
module Scenarios {
  import opened Seqs
  import opened Strings
  import opened Catalog
  import opened Classifier

  /** A lowered text in which no module has a positive score selects the UX
      module alone, or core + UX when it mentions "fiori". */
  lemma NoModuleMatched(t: string)
    requires forall i :: 0 <= i < |SapModules| ==> ModuleScore(SapModules[i], t) == 0
    ensures !AnyModuleTriggered(t)
    ensures SelectModules(t) == if Contains(t, "fiori") then [Core, Ux] else [Ux]
  {
    SelectModulesShape(t);
  }

  /** A lowered text matching no system trigger phrase selects no system. */
  lemma NoSystemMatched(t: string)
    requires forall i :: 0 <= i < |NonSapSystems| ==> !AnyKeyword(SystemKeywordsOf(NonSapSystems[i]), t, 0)
    ensures SelectExternal(t) == []
  {
    SameMembersBothEmpty(SelectExternal(t), []);
  }

  /** A lowered text mentioning no candidate keeps the default named-user hint. */
  lemma NoScaleMentioned(t: string)
    requires forall i :: 0 <= i < |ScaleCandidates| ==> !Contains(t, Decimal(ScaleCandidates[i]))
    ensures ScaleHint(t) == DefaultScale
  {
  }

  /** Only the empty pattern occurs in the empty text. */
  lemma NothingOccursInEmpty()
    ensures forall p :: p != "" ==> !Occurs("", p)
  {
    forall p | p != "" ensures !Occurs("", p) {
      ContainsInEmpty(p);
    }
  }

  lemma EmptyModules()
    ensures SelectModules("") == [Ux]
  {
    KeywordsNonEmpty();
    NothingOccursInEmpty();
    assert !AnyModuleTriggered("");
    SelectModulesShape("");
  }

  lemma EmptyExternal()
    ensures SelectExternal("") == []
  {
    KeywordsNonEmpty();
    NothingOccursInEmpty();
    SameMembersBothEmpty(SelectExternal(""), []);
  }

  lemma EmptyHosting()
    ensures SelectHosting("") == Cloud
  {
    NothingOccursInEmpty();
  }

  lemma EmptyScale()
    ensures ScaleHint("") == DefaultScale
  {
    NoScaleMentioned("");
  }

  /** The empty text yields the UX module alone, no external system, cloud
      hosting and the default of 1000 named users. */
  lemma EmptyText()
    ensures ExtractRequirements("") == Analysis([Ux], [], Cloud, DefaultScale)
  {
    assert Lower("") == "";
    EmptyModules();
    EmptyExternal();
    EmptyHosting();
    EmptyScale();
  }

  // ---------------------------------------------------------------------------
  // Short texts: only phrases of at most five characters can occur in them
  // ---------------------------------------------------------------------------

  /** The module trigger phrases of at most five characters. */
  const ShortModulePhrases: seq<string> := [
    "tax", "cost", "mrp", "order", "sales", "quote", "bom", "asset", "yard",
    "route", "time", "leave", "hr", "bi", "kpi", "mdm", "ariba", "crm"
  ]

  /** The system trigger phrases of at most five characters. */
  const ShortSystemPhrases: seq<string> := [
    "3pl", "wms", "upi", "card", "delta", "api", "apim", "iot", "edge", "plc", "dash", "ml"
  ]

  lemma ShortPhrasesListed()
    ensures forall m, k :: 0 <= k < |KeywordsOf(m)| && |KeywordsOf(m)[k]| <= 5 ==>
      KeywordsOf(m)[k] in ShortModulePhrases
    ensures forall x, k :: 0 <= k < |SystemKeywordsOf(x)| && |SystemKeywordsOf(x)[k]| <= 5 ==>
      SystemKeywordsOf(x)[k] in ShortSystemPhrases
  {
  }

  /** A text of at most five characters triggers a module only through one of
      the short phrases. */
  lemma ShortTextMatchesNoModule(t: string)
    requires |t| <= 5 && NoShortModulePhrase(t)
    ensures !AnyModuleTriggered(t)
  {
    ShortPhrasesListed();
    forall m, k | 0 <= k < |KeywordsOf(m)| ensures !Occurs(t, KeywordsOf(m)[k]) {
      var p := KeywordsOf(m)[k];
      if |p| <= 5 {
        var j :| 0 <= j < |ShortModulePhrases| && ShortModulePhrases[j] == p;
        assert !Contains(t, ShortModulePhrases[j]);
      }
    }
  }

  /** A text of at most five characters triggers a system only through one of
      the short phrases. */
  lemma ShortTextMatchesNoSystem(t: string)
    requires |t| <= 5 && NoShortSystemPhrase(t)
    ensures SelectExternal(t) == []
  {
    ShortPhrasesListed();
    forall x, k | 0 <= k < |SystemKeywordsOf(x)| ensures !Occurs(t, SystemKeywordsOf(x)[k]) {
      var p := SystemKeywordsOf(x)[k];
      if |p| <= 5 {
        var j :| 0 <= j < |ShortSystemPhrases| && ShortSystemPhrases[j] == p;
        assert !Contains(t, ShortSystemPhrases[j]);
      }
    }
    SameMembersBothEmpty(SelectExternal(t), []);
  }

  /** The decimal spellings of the candidates. */
  lemma SpelledCandidates()
    ensures Decimal(100) == "100" && Decimal(500) == "500" && Decimal(1000) == "1000"
    ensures Decimal(5000) == "5000" && Decimal(10000) == "10000" && Decimal(20000) == "20000"
  {
    assert Decimal(100) == "100" && Decimal(500) == "500" && Decimal(1000) == "1000";
  }

  /** No short module phrase occurs in `t`. */
  predicate NoShortModulePhrase(t: string) {
    forall j :: 0 <= j < |ShortModulePhrases| ==> !Contains(t, ShortModulePhrases[j])
  }

  /** No short system phrase occurs in `t`. */
  predicate NoShortSystemPhrase(t: string) {
    forall j :: 0 <= j < |ShortSystemPhrases| ==> !Contains(t, ShortSystemPhrases[j])
  }

  /** `t` has no decimal digit, so it mentions no number at all. */
  predicate NoDigit(t: string) {
    forall i :: 0 <= i < |t| ==> !IsDigit(t[i])
  }

  lemma NoDigitNoFigure(t: string)
    requires NoDigit(t)
    ensures forall n :: !Mentions(t, n)
  {
    forall n ensures !Mentions(t, n) {
      var d := Decimal(n);
      assert IsDigit(d[0]);
      assert d[0] !in t;
      MissingChar(t, d, 0);
    }
  }

  /** The classifier's outcome is made of the four selections on the lowered
      text. */
  lemma Outcome(text: string, t: string)
    requires Lower(text) == t
    ensures ExtractRequirements(text) == Analysis(SelectModules(t), SelectExternal(t), SelectHosting(t), ScaleHint(t))
  {
  }

  /** A lowered text of at most five characters, without the short phrases and
      candidates, selects no system, cloud hosting and the default scale, and
      only the UX module, or core + UX when it is "fiori". */
  lemma ShortTextOutcome(t: string)
    requires |t| <= 5
    requires NoShortModulePhrase(t) && NoShortSystemPhrase(t) && NoDigit(t)
    ensures SelectModules(t) == if Contains(t, "fiori") then [Core, Ux] else [Ux]
    ensures SelectExternal(t) == [] && SelectHosting(t) == Cloud && ScaleHint(t) == DefaultScale
  {
    ShortTextModules(t);
    ShortTextMatchesNoSystem(t);
    NoDigitNoFigure(t);
    ShortTextIsCloud(t);
  }

  lemma ShortTextModules(t: string)
    requires |t| <= 5 && NoShortModulePhrase(t)
    ensures SelectModules(t) == if Contains(t, "fiori") then [Core, Ux] else [Ux]
  {
    ShortTextMatchesNoModule(t);
    SelectModulesShape(t);
  }

  /** No hosting phrase fits in five characters. */
  lemma ShortTextIsCloud(t: string)
    requires |t| <= 5
    ensures SelectHosting(t) == Cloud
  {
    TooLongToOccur(t, "hybrid");
    TooLongToOccur(t, "on-prem");
    TooLongToOccur(t, "on prem");
    TooLongToOccur(t, "datacenter");
  }

  /** The outcome for any text whose lowered form is such a short text. */
  lemma ShortTextClassified(text: string, t: string)
    requires Lower(text) == t && |t| <= 5
    requires NoShortModulePhrase(t) && NoShortSystemPhrase(t) && NoDigit(t)
    ensures ExtractRequirements(text) ==
      Analysis(if Contains(t, "fiori") then [Core, Ux] else [Ux], [], Cloud, DefaultScale)
  {
    ShortTextOutcome(t);
    Outcome(text, t);
  }

  lemma EwmHasNoShortPhrase()
    ensures NoShortModulePhrase("ewm")
  {
  }

  lemma EwmHasNoSystemPhrase()
    ensures NoShortSystemPhrase("ewm")
  {
  }

  /** Module codes are not trigger phrases: "EWM", in any letter case, selects
      no module, so the outcome is the UX module alone. */
  lemma ModuleCodeIsNotAPhrase(text: string)
    requires Lower(text) == "ewm"
    ensures ExtractRequirements(text) == Analysis([Ux], [], Cloud, DefaultScale)
  {
    EwmHasNoShortPhrase();
    EwmHasNoSystemPhrase();
    TooLongToOccur("ewm", "fiori");
    ShortTextClassified(text, "ewm");
  }

  lemma CloseHasNoShortPhrase()
    ensures NoShortModulePhrase("close")
  {
  }

  lemma CloseHasNoSystemPhrase()
    ensures NoShortSystemPhrase("close")
  {
  }

  /** "close" is not the phrase "closing": matching asks for the phrase inside
      the text, not the text inside a phrase. */
  lemma CloseIsNotClosing(text: string)
    requires Lower(text) == "close"
    ensures ExtractRequirements(text) == Analysis([Ux], [], Cloud, DefaultScale)
  {
    CloseHasNoShortPhrase();
    CloseHasNoSystemPhrase();
    MissingChar("close", "fiori", 0);
    ShortTextClassified(text, "close");
  }

  lemma FioriHasNoShortPhrase()
    ensures NoShortModulePhrase("fiori")
  {
  }

  lemma FioriHasNoSystemPhrase()
    ensures NoShortSystemPhrase("fiori")
  {
  }

  /** A bare "Fiori" matches no module, so the outcome is the core + UX pair even
      though the mention would otherwise suppress the UX module. */
  lemma FioriAlone(text: string)
    requires Lower(text) == "fiori"
    ensures ExtractRequirements(text) == Analysis([Core, Ux], [], Cloud, DefaultScale)
  {
    FioriHasNoShortPhrase();
    FioriHasNoSystemPhrase();
    assert OccursAt("fiori", "fiori", 0);
    ShortTextClassified(text, "fiori");
  }

  lemma HybridMentioned()
    ensures Occurs("on-prem hybrid deployment", "hybrid")
  {
    assert "on-prem hybrid deployment"[8..14] == "hybrid";
    assert OccursAt("on-prem hybrid deployment", "hybrid", 8);
  }

  /** "hybrid" wins over an on-prem phrase in the same text. */
  lemma HybridOverridesOnPrem(text: string)
    requires Lower(text) == "on-prem hybrid deployment"
    ensures ExtractRequirements(text).hosting == Hybrid
  {
    HybridMentioned();
    Outcome(text, "on-prem hybrid deployment");
  }

  lemma TwentyThousandNotMentioned()
    ensures !Mentions("10000 users", 20000)
  {
    SpelledCandidates();
    assert '2' !in "10000 users";
    MissingChar("10000 users", "20000", 0);
  }

  lemma TenThousandMentioned()
    ensures Mentions("10000 users", 10000)
  {
    SpelledCandidates();
    assert OccursAt("10000 users", "10000", 0);
  }

  lemma TenThousandIsTheHint()
    ensures ScaleHint("10000 users") == 10000
  {
    TwentyThousandNotMentioned();
    TenThousandMentioned();
  }

  /** "10000 users" also contains "100" and "1000"; the largest candidate wins. */
  lemma LargestMentionWins(text: string)
    requires Lower(text) == "10000 users"
    ensures ExtractRequirements(text).users == 10000
  {
    TenThousandIsTheHint();
    Outcome(text, "10000 users");
  }
}
