/** The requirement classifier (`extract_requirements`, app.py lines 81-119):
    free text is lower-cased and matched by substring containment against the
    catalogue tables to select SAP modules, non-SAP systems, a hosting label and
    a named-user hint. */
module Classifier {
  import opened Seqs
  import opened Strings
  import opened Catalog

  datatype Option<T> = None | Some(value: T)

  /** The record the classifier returns and the graph and risk builders read. */
  datatype Analysis = Analysis(
    modules: seq<string>,
    external: seq<string>,
    hosting: string,
    users: int)

  // ---------------------------------------------------------------------------
  // Catalogue facts the classifier relies on
  // ---------------------------------------------------------------------------

  lemma CatalogsNoDup()
    ensures NoDup(SapModules) && NoDup(NonSapSystems)
  {
  }

  /** The core and UX modules are catalogued, distinct, and have no trigger
      phrases, so keyword matching never selects them. */
  lemma CoreAndUx()
    ensures Core in SapModules && Ux in SapModules && Core != Ux
    ensures KeywordsOf(Core) == [] && KeywordsOf(Ux) == []
  {
    CoreAndUxCatalogued();
  }

  /** The core and UX modules close the catalogue. */
  lemma CoreAndUxCatalogued()
    ensures SapModules[16] == Core && SapModules[17] == Ux && Core != Ux
  {
  }

  /** No trigger phrase is empty, so the empty text triggers nothing. */
  lemma KeywordsNonEmpty()
    ensures forall m, k :: 0 <= k < |KeywordsOf(m)| ==> KeywordsOf(m)[k] != ""
    ensures forall x, k :: 0 <= k < |SystemKeywordsOf(x)| ==> SystemKeywordsOf(x)[k] != ""
  {
  }

  // ---------------------------------------------------------------------------
  // Keyword matching
  // ---------------------------------------------------------------------------

  /** Some phrase of `kws` occurs in `t`. */
  ghost predicate AnyOccurs(kws: seq<string>, t: string) {
    exists k :: 0 <= k < |kws| && Occurs(t, kws[k])
  }

  /** The number of phrases of `kws[i..]` that occur in `t`: the per-module
      counter of lines 87-91. */
  function KeywordScore(kws: seq<string>, t: string, i: nat): (n: nat)
    requires i <= |kws|
    ensures n <= |kws| - i
    ensures n > 0 <==> exists k :: i <= k < |kws| && Occurs(t, kws[k])
    decreases |kws| - i
  {
    if i == |kws| then 0
    else (if Contains(t, kws[i]) then 1 else 0) + KeywordScore(kws, t, i + 1)
  }

  /** Python's `any(kw in t for kw in kws[i..])` (line 100). */
  function AnyKeyword(kws: seq<string>, t: string, i: nat): (b: bool)
    requires i <= |kws|
    ensures b <==> exists k :: i <= k < |kws| && Occurs(t, kws[k])
    decreases |kws| - i
  {
    if i == |kws| then false
    else Contains(t, kws[i]) || AnyKeyword(kws, t, i + 1)
  }

  /** The score of module `m` against the lowered text `t`. */
  function ModuleScore(m: string, t: string): nat {
    KeywordScore(KeywordsOf(m), t, 0)
  }

  ghost predicate ModuleTriggered(m: string, t: string) {
    AnyOccurs(KeywordsOf(m), t)
  }

  ghost predicate SystemTriggered(x: string, t: string) {
    AnyOccurs(SystemKeywordsOf(x), t)
  }

  /** Some catalogue module has a trigger phrase in `t`. */
  ghost predicate AnyModuleTriggered(t: string) {
    exists m :: m in SapModules && ModuleTriggered(m, t)
  }

  /** Line 92: modules with a positive score, in catalogue order. The size of the
      score does not matter, only that it is positive. */
  function MatchedModules(t: string): (sel: seq<string>)
    ensures forall m :: m in sel <==> m in SapModules && ModuleTriggered(m, t)
    ensures NoDup(sel)
    ensures Core !in sel && Ux !in sel
    ensures sel == [] <==> !AnyModuleTriggered(t)
  {
    CatalogsNoDup();
    CoreAndUx();
    var sel := MatchedAmong(SapModules, t);
    assert sel == [] <==> !AnyModuleTriggered(t) by {
      if sel != [] {
        assert sel[0] in sel;
      }
      if m :| m in SapModules && ModuleTriggered(m, t) {
        assert m in sel;
      }
    }
    sel
  }

  /** The codes of `codes` whose score against `t` is positive, in order. */
  function MatchedAmong(codes: seq<string>, t: string): (sel: seq<string>)
    ensures forall m :: m in sel <==> m in codes && ModuleTriggered(m, t)
    ensures NoDup(codes) ==> NoDup(sel) && InOrderOf(sel, codes)
  {
    var scored := m => ModuleScore(m, t) > 0;
    if NoDup(codes) then
      FilterOrdered(codes, scored);
      Filter(codes, scored)
    else
      Filter(codes, scored)
  }

  /** Lines 93-96 and 115 applied to the matched modules `sel`: the core module
      is appended when something matched, the UX module when the text does not
      mention "fiori", and an empty outcome becomes core + UX. */
  function AddForcedModules(sel: seq<string>, fioriMentioned: bool): (mods: seq<string>)
    requires NoDup(sel) && Core !in sel && Ux !in sel
    ensures mods != [] && NoDup(mods)
    ensures forall m :: m in mods ==> m in sel || m == Core || m == Ux
    ensures forall m :: m in sel ==> m in mods
    ensures Core in mods <==> sel != [] || fioriMentioned
    ensures Ux in mods <==> !fioriMentioned || sel == []
  {
    var withCore := if sel != [] && Core !in sel then sel + [Core] else sel;
    var withUx := if !fioriMentioned && Ux !in withCore then withCore + [Ux] else withCore;
    var mods := if withUx != [] then withUx else [Core, Ux];
    assert Core != Ux;
    if sel != [] then
      NoDupAppend(sel, Core);
      if !fioriMentioned then
        NoDupAppend(sel + [Core], Ux);
        mods
      else
        mods
    else
      assert NoDup([Core, Ux]);
      mods
  }

  /** Lines 92-96 and 115: the matched modules in catalogue order, then the core
      module if anything matched, then the UX module unless the text says
      "fiori"; the pair core + UX when that leaves nothing. */
  function SelectModules(t: string): (mods: seq<string>)
    ensures mods != []
    ensures NoDup(mods)
    ensures forall m :: m in mods ==> m in SapModules
    ensures forall m :: m != Core && m != Ux ==> (m in mods <==> m in SapModules && ModuleTriggered(m, t))
    ensures Core in mods <==> AnyModuleTriggered(t) || Occurs(t, "fiori")
    ensures Ux in mods <==> !Occurs(t, "fiori") || !AnyModuleTriggered(t)
  {
    var sel := MatchedModules(t);
    var fiori := Contains(t, "fiori");
    ForcedModulesCatalogued(sel, fiori);
    AddForcedModules(sel, fiori)
  }

  /** Forcing the core and UX modules into a selection from the catalogue keeps
      it within the catalogue. */
  lemma ForcedModulesCatalogued(sel: seq<string>, fioriMentioned: bool)
    requires NoDup(sel) && Core !in sel && Ux !in sel
    requires forall m :: m in sel ==> m in SapModules
    ensures forall m :: m in AddForcedModules(sel, fioriMentioned) ==> m in SapModules
  {
    CoreAndUxCatalogued();
  }

  /** The module list spelled out case by case: the matched modules, the core
      module and (without a "fiori" mention) the UX module when anything
      matched; otherwise core + UX when "fiori" is mentioned and the UX module
      alone when it is not. */
  lemma SelectModulesShape(t: string)
    ensures SelectModules(t) ==
      if AnyModuleTriggered(t) then
        MatchedModules(t) + [Core] + (if Occurs(t, "fiori") then [] else [Ux])
      else if Occurs(t, "fiori") then [Core, Ux]
      else [Ux]
  {
    CoreAndUx();
  }

  /** Lines 98-101: every non-SAP system with a trigger phrase in `t`, in table
      order, each once. */
  function SelectExternal(t: string): (exts: seq<string>)
    ensures forall x :: x in exts <==> x in NonSapSystems && SystemTriggered(x, t)
    ensures NoDup(exts)
  {
    CatalogsNoDup();
    SystemsAmong(NonSapSystems, t)
  }

  /** The labels of `labels` with a trigger phrase in `t`, in order. */
  function SystemsAmong(labels: seq<string>, t: string): (exts: seq<string>)
    ensures forall x :: x in exts <==> x in labels && SystemTriggered(x, t)
    ensures NoDup(labels) ==> NoDup(exts) && InOrderOf(exts, labels)
  {
    var triggered := x => AnyKeyword(SystemKeywordsOf(x), t, 0);
    if NoDup(labels) then
      FilterOrdered(labels, triggered);
      Filter(labels, triggered)
    else
      Filter(labels, triggered)
  }

  /** Matched modules keep catalogue order (the key order of `SAP_MODULES`). */
  lemma MatchedInCatalogOrder(t: string)
    ensures InOrderOf(MatchedModules(t), SapModules)
  {
    CatalogsNoDup();
  }

  /** Selected systems keep the key order of `NON_SAP_SYSTEMS`. */
  lemma ExternalInTableOrder(t: string)
    ensures InOrderOf(SelectExternal(t), NonSapSystems)
  {
    CatalogsNoDup();
  }

  // ---------------------------------------------------------------------------
  // Hosting and scale
  // ---------------------------------------------------------------------------

  ghost predicate MentionsOnPrem(t: string) {
    Occurs(t, "on-prem") || Occurs(t, "on prem") || Occurs(t, "datacenter")
  }

  /** Lines 103-107: cloud by default, on-prem on an on-prem phrase, and hybrid
      whenever "hybrid" occurs, overriding on-prem. */
  function SelectHosting(t: string): (h: string)
    ensures h in HostingChoices
    ensures h == Hybrid <==> Occurs(t, "hybrid")
    ensures h == OnPrem <==> MentionsOnPrem(t) && !Occurs(t, "hybrid")
    ensures h == Cloud <==> !MentionsOnPrem(t) && !Occurs(t, "hybrid")
  {
    var h := HostingChoices[0];
    var h := if Contains(t, "on-prem") || Contains(t, "on prem") || Contains(t, "datacenter") then OnPrem else h;
    if Contains(t, "hybrid") then Hybrid else h
  }

  /** The decimal spelling of `n` occurs in `t`. */
  ghost predicate Mentions(t: string, n: nat) {
    Occurs(t, Decimal(n))
  }

  predicate StrictlyAscending(xs: seq<nat>) {
    forall i, j :: 0 <= i < j < |xs| ==> xs[i] < xs[j]
  }

  /** Lines 110-112: scan the candidates in order; each one mentioned replaces
      the hint. */
  function ScanScale(cands: seq<nat>, t: string, hint: nat): nat {
    if cands == [] then hint
    else ScanScale(cands[1..], t, if Contains(t, Decimal(cands[0])) then cands[0] else hint)
  }

  /** Over ascending candidates the last match wins, so the scan keeps the
      largest mentioned candidate, or its starting hint when none is mentioned. */
  lemma {:induction false} ScanScaleKeepsLargest(cands: seq<nat>, t: string, hint: nat)
    requires StrictlyAscending(cands)
    ensures (forall c :: c in cands ==> !Mentions(t, c)) ==> ScanScale(cands, t, hint) == hint
    ensures (exists c :: c in cands && Mentions(t, c)) ==>
              var r := ScanScale(cands, t, hint);
              r in cands && Mentions(t, r) && forall c :: c in cands && Mentions(t, c) ==> c <= r
  {
    if cands != [] {
      var next := if Contains(t, Decimal(cands[0])) then cands[0] else hint;
      AscendingHead(cands);
      ScanScaleKeepsLargest(cands[1..], t, next);
    }
  }

  /** The head of an ascending list is below everything after it, and the tail
      is ascending too. */
  lemma AscendingHead(cands: seq<nat>)
    requires StrictlyAscending(cands) && cands != []
    ensures StrictlyAscending(cands[1..])
    ensures forall c :: c in cands[1..] ==> cands[0] < c
    ensures forall c :: c in cands <==> c == cands[0] || c in cands[1..]
  {
    forall c | c in cands[1..] ensures cands[0] < c {
      var j :| 0 <= j < |cands[1..]| && cands[1..][j] == c;
      assert cands[j + 1] == c;
    }
    assert cands == [cands[0]] + cands[1..];
  }

  /** Lines 109-112: the largest candidate whose decimal spelling occurs in the
      text, or 1000 when none does. */
  function ScaleHint(t: string): (n: nat)
    ensures n in ScaleCandidates
    ensures (exists c :: c in ScaleCandidates && Mentions(t, c)) ==>
              Mentions(t, n) && forall c :: c in ScaleCandidates && Mentions(t, c) ==> c <= n
    ensures (forall c :: c in ScaleCandidates ==> !Mentions(t, c)) ==> n == DefaultScale
  {
    ScanScaleKeepsLargest(ScaleCandidates, t, DefaultScale);
    ScanScale(ScaleCandidates, t, DefaultScale)
  }

  // ---------------------------------------------------------------------------
  // The classifier
  // ---------------------------------------------------------------------------

  /** `extract_requirements`: classify the lower-cased text. */
  function ExtractRequirements(text: string): (a: Analysis)
    ensures a.modules != [] && NoDup(a.modules)
    ensures forall m :: m in a.modules ==> m in SapModules
    ensures NoDup(a.external) && forall x :: x in a.external ==> x in NonSapSystems
    ensures a.hosting in HostingChoices
    ensures a.users in ScaleCandidates
  {
    var t := Lower(text);
    Analysis(SelectModules(t), SelectExternal(t), SelectHosting(t), ScaleHint(t))
  }

  /** The modules `extract_requirements` returns: the triggered catalogue modules
      of the lowered text, plus the core module when one is triggered or
      "fiori" is mentioned, and the UX module unless "fiori" is mentioned
      alongside a triggered module. */
  lemma ExtractedModules(text: string)
    ensures forall m :: m != Core && m != Ux ==>
      (m in ExtractRequirements(text).modules <==> m in SapModules && ModuleTriggered(m, Lower(text)))
    ensures Core in ExtractRequirements(text).modules <==> AnyModuleTriggered(Lower(text)) || Occurs(Lower(text), "fiori")
    ensures Ux in ExtractRequirements(text).modules <==> !Occurs(Lower(text), "fiori") || !AnyModuleTriggered(Lower(text))
  {
  }

  /** The systems `extract_requirements` returns: exactly the table systems
      triggered by the lowered text, in table order. */
  lemma ExtractedSystems(text: string)
    ensures forall x :: x in ExtractRequirements(text).external <==> x in NonSapSystems && SystemTriggered(x, Lower(text))
    ensures InOrderOf(ExtractRequirements(text).external, NonSapSystems)
  {
    ExternalInTableOrder(Lower(text));
  }

  /** The hosting label `extract_requirements` returns for the lowered text. */
  lemma ExtractedHosting(text: string)
    ensures ExtractRequirements(text).hosting == Hybrid <==> Occurs(Lower(text), "hybrid")
    ensures ExtractRequirements(text).hosting == OnPrem <==> MentionsOnPrem(Lower(text)) && !Occurs(Lower(text), "hybrid")
    ensures ExtractRequirements(text).hosting == Cloud <==> !MentionsOnPrem(Lower(text)) && !Occurs(Lower(text), "hybrid")
  {
  }

  /** The named-user hint `extract_requirements` returns: the largest candidate
      spelled out in the lowered text, or 1000 when none is. */
  lemma ExtractedScale(text: string)
    ensures (exists c :: c in ScaleCandidates && Mentions(Lower(text), c)) ==>
      var n := ExtractRequirements(text).users;
      Mentions(Lower(text), n) && forall c :: c in ScaleCandidates && Mentions(Lower(text), c) ==> c <= n
    ensures (forall c :: c in ScaleCandidates ==> !Mentions(Lower(text), c)) ==> ExtractRequirements(text).users == DefaultScale
  {
    assert ExtractRequirements(text).users == ScaleHint(Lower(text));
  }

  /** Line 311: the caller's named-user figure, when given, replaces the hint;
      nothing else changes. */
  function WithUsers(a: Analysis, users: Option<int>): (b: Analysis)
    ensures b.modules == a.modules && b.external == a.external && b.hosting == a.hosting
    ensures users.Some? ==> b.users == users.value
    ensures users.None? ==> b == a
  {
    match users
    case Some(u) => a.(users := u)
    case None => a
  }
}
