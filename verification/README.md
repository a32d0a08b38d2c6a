# SAP architecture advisor: the rule-based core in Dafny

The advisor reads free-text enterprise requirements. It classifies them against a small fixed
knowledge base into SAP modules, non-SAP systems, a hosting model and a named-user hint
(`extract_requirements`). From that analysis it derives two things:

- an architecture graph as Graphviz DOT text (`build_architecture`);
- a Failure Mode and Effects Analysis (FMEA) risk table ranked by risk priority number (RPN,
  severity × occurrence × detection) (`build_fmea`).

This project models those three functions and the tables they read. It proves what they
guarantee.

Modules:

- `Strings` (strings.dfy): the text primitives the source borrows from Python:
  - ASCII lower-casing;
  - the substring test `p in s`;
  - string ordering;
  - `"\n".join` with its inverse `split`;
  - `str(n)` with its inverse.
- `Seqs` (seqs.dfy): duplicate-freedom, first-occurrence positions, and the order-preserving
  filter behind Python's list comprehensions.
- `Catalog` (catalog.dfy): the tables `SAP_MODULES`, `MODULE_KEYWORDS`, `NON_SAP_SYSTEMS` and
  `HOSTING_CHOICES`, the candidates of the scale scan, and the designated core (`S/4HANA`) and UX
  (`Fiori`) modules.
- `Classifier` (classifier.dfy): `extract_requirements`, and the caller's override of the user
  count.
- `Architecture` (architecture.dfy): the edge template, the sorted node list and the DOT lines.
- `Fmea` (fmea.dfy): the components, the base scores, escalation of external systems, and the
  ranking.
- `Scenarios` (scenarios.dfy): whole-classifier outcomes for particular inputs. Each holds for
  any text whose lower-cased form is the stated one:
  - the empty text;
  - module codes typed as text;
  - "close" against "closing";
  - a bare "Fiori";
  - hybrid against on-prem;
  - one text that spells several scale candidates.
- `Placeholder` (placeholder.dfy): the full classification of the input box's placeholder
  requirement, phrase by phrase.

The tables are keyed dictionaries in the source and their iteration order matters. So they are
modelled as ordered lists of keys plus maps from key to trigger phrases.

## Model

| member | source | states |
|---|---|---|
| Strings.Lower | app.py:86 | `text.lower()`: same length, upper-case ASCII letters mapped to lower case, everything else kept, nothing upper-case left |
| Strings.LowerIdempotent | app.py:86 | lower-casing an already lower-cased text changes nothing |
| Strings.Contains | app.py:90 | `kw in t` holds exactly when the phrase occurs at some offset of the text |
| Strings.OccursInJoin | app.py:90 | a phrase without the separator occurs in a joined text exactly when it occurs in one of the pieces |
| Strings.Decimal | app.py:111 | `str(n)`: non-empty, all digits, no leading zero |
| Strings.ParseDecimalInverse | app.py:111 | reading back the decimal spelling of `n` gives `n` |
| Strings.SplitJoin | app.py:147 | splitting the newline-joined lines at newlines gives back the lines, when no line contains a newline |
| Strings.JoinSplit | app.py:147 | joining the pieces of a split gives the text back |
| Strings.LessTransitive | app.py:138 | the string order `sorted` uses is transitive |
| Strings.LessTotal | app.py:138 | any two distinct strings are ordered one way or the other |
| Seqs.Filter | app.py:92 | a list comprehension keeps exactly the elements satisfying the test, and is no longer than its input |
| Seqs.FilterCount | app.py:92 | every passing element is kept as often as it occurs in the input, and every failing one is dropped |
| Seqs.FilterAppend | app.py:92 | filtering distributes over concatenation, so kept elements, repeats included, stay in input order |
| Seqs.FilterOrdered | app.py:92 | filtering a duplicate-free list gives a duplicate-free list in its order |
| Seqs.InOrderUnique | app.py:92 | two duplicate-free lists with the same members, both in the order of a reference list, are equal |
| Classifier.CoreAndUx | app.py:42-63 | the core and UX modules are catalogued, distinct, and have no trigger phrases |
| Classifier.KeywordsNonEmpty | app.py:46-74 | no trigger phrase of a module or a system is empty |
| Classifier.KeywordScore | app.py:87-91 | the per-module counter is at most the number of phrases, and positive exactly when some phrase occurs in the text |
| Classifier.AnyKeyword | app.py:100 | `any(kw in t for kw in kws)` holds exactly when some phrase occurs |
| Classifier.MatchedModules | app.py:87-92 | the selected modules are exactly the catalogued modules with a phrase in the text, without duplicates, never the core or UX module, and empty exactly when no module is triggered |
| Classifier.MatchedInCatalogOrder | app.py:92 | the matched modules keep the key order of the module catalogue |
| Classifier.AddForcedModules | app.py:93-96 | appending the core and UX modules (and the line-115 fallback) yields a non-empty duplicate-free list holding every matched module; the core is present iff something matched or "fiori" is mentioned, and UX is present iff "fiori" is not mentioned or nothing matched |
| Classifier.SelectModules | app.py:92-115 | the module list is non-empty, duplicate-free and catalogued; any other module is in it iff triggered; the core is in it iff some module is triggered or "fiori" occurs; UX is in it iff "fiori" does not occur or nothing is triggered |
| Classifier.SelectModulesShape | app.py:92-115 | the module list case by case: the matched modules, then the core, then UX unless "fiori" occurs; or core + UX when only "fiori" occurs; or UX alone |
| Classifier.SelectExternal | app.py:98-101 | the systems are exactly the table's systems with a trigger phrase in the text, each once |
| Classifier.ExternalInTableOrder | app.py:98-101 | the systems keep the table's key order |
| Classifier.SelectHosting | app.py:103-107 | hybrid iff "hybrid" occurs; on-prem iff an on-prem phrase occurs without "hybrid"; cloud otherwise |
| Classifier.ScanScaleKeepsLargest | app.py:110-112 | over ascending candidates the scan keeps the largest mentioned candidate, or the starting hint when none is mentioned |
| Classifier.ScaleHint | app.py:109-112 | the hint is a candidate: the largest one whose decimal spelling occurs in the text, or 1000 when none occurs |
| Classifier.ExtractRequirements | app.py:81-119 | the analysis has a non-empty duplicate-free catalogued module list, duplicate-free table systems, one of the hosting choices, and a candidate user count |
| Classifier.ExtractedModules | app.py:86-115 | for the lowered text, a module other than core and UX is returned iff it is catalogued and triggered; the core iff some module is triggered or "fiori" occurs; UX iff "fiori" does not occur or nothing is triggered |
| Classifier.ExtractedSystems | app.py:98-101 | the returned systems are exactly the table systems the lowered text triggers, in table order |
| Classifier.ExtractedHosting | app.py:103-107 | the returned hosting is hybrid iff the lowered text has "hybrid", on-prem iff it has an on-prem phrase and no "hybrid", cloud otherwise |
| Classifier.ExtractedScale | app.py:109-112 | the returned hint is the largest candidate spelled out in the lowered text, or 1000 when none is |
| Classifier.WithUsers | app.py:310-311 | the caller's user figure replaces the hint and nothing else changes |
| Architecture.NonCore | app.py:133-134 | the modules other than core and UX, each as often as in the input, core and UX never; in the input's order when it has no duplicates |
| Architecture.NonCoreAppend | app.py:133-134 | dropping core and UX works piece by piece, so the kept modules, repeats included, stay in list order |
| Architecture.Edges | app.py:128-137 | users to UX, UX to core, core to the hosting node, then one edge into the core per non-core module and per external system, in order |
| Architecture.Endpoints | app.py:138 | the names listed are exactly the ends of the edges |
| Architecture.SortedUnique | app.py:138 | `sorted(set(xs))` is strictly ascending and has exactly the members of `xs` |
| Architecture.StrictlySortedUnique | app.py:138 | two strictly ascending lists with the same members are equal, so the sorted node list is determined by the node set |
| Architecture.Nodes | app.py:138 | the node list is strictly sorted, duplicate-free, and holds exactly the edge endpoints |
| Architecture.NodesAreAnchorsModulesAndSystems | app.py:128-138 | a name is a node iff it is the users node, the UX module, the core module, the hosting label, a non-core module or an external system |
| Architecture.DotLines | app.py:140-146 | header and layout lines, one quoted line per node in sorted order, one arrow line per edge in edge order, closing brace |
| Architecture.DotLinesAreSingleLines | app.py:140-147 | no DOT line contains a line break when no analysed name does |
| Architecture.BuildArchitecture | app.py:140-147 | splitting the DOT text at newlines gives back exactly the DOT lines, when no analysed name contains a line break |
| Architecture.CatalogNamesPlain | app.py:25-76 | no module code, system label or hosting label contains a line break or is "Users" |
| Architecture.ExtractedNamesPlain | app.py:310-311 | every analysis the page builds has single-line names, none of them "Users" |
| Architecture.ExtractedDotRoundTrip | app.py:322 | for every analysis the page builds, the DOT text splits at newlines into exactly the DOT lines |
| Fmea.BaseRisk | app.py:256-265 | every base score is on the 1-10 scale, occurrence at most 8, and an unlisted component gets the generic default |
| Fmea.ScoreComponent | app.py:264-279 | an internal component keeps its base scores and mode; an external one gets severity + 1 and occurrence + 2, capped at 10, and the integration mode; the RPN is the product and lies in 1-1000 |
| Fmea.EscalationRaisesRisk | app.py:266-270 | escalation adds exactly 2 to occurrence, never lowers severity, and strictly raises the RPN |
| Fmea.Components | app.py:250-254 | three anchors, the non-core modules and the external systems |
| Fmea.ComponentsAreGraphNodes | app.py:250-254 | the risk table's components are exactly the architecture graph's nodes other than the users node |
| Fmea.ScoreAll | app.py:264-279 | one scored row per component, in component order |
| Fmea.InsertByRpn | app.py:281 | inserting into a ranked list keeps it ranked and adds exactly the one row |
| Fmea.SortByRpn | app.py:281 | the result is ranked by RPN, highest first, and is a permutation of the rows |
| Fmea.BuildFmea | app.py:244-282 | the table is ranked by RPN, a permutation of the scored components, one row per component, every row well scored with the fixed action, and every component (and only those) has a row |
| Fmea.TableMatchesGraph | app.py:250-254 | the table has a row for exactly the graph's nodes other than the users node, when no analysed name is "Users" |
| Fmea.ExtractedTableMatchesGraph | app.py:341 | for every analysis the page builds, the risk table has a row for exactly the graph's nodes other than the users node |
| Fmea.ExternalRowsEscalated | app.py:266-269 | every external system has a row, and every row of an external system carries the escalated occurrence and the integration failure mode |
| Scenarios.NoModuleMatched | app.py:92-115 | when no module scores, the list is UX alone, or core + UX when "fiori" occurs |
| Scenarios.NoSystemMatched | app.py:98-101 | when no system phrase occurs, no system is selected |
| Scenarios.NoScaleMentioned | app.py:109-112 | when no candidate is spelled out, the hint stays 1000 |
| Scenarios.EmptyText | app.py:81-119 | the empty text gives UX alone, no system, cloud hosting and 1000 users |
| Scenarios.ShortTextClassified | app.py:81-119 | a text of at most five characters without a short phrase or digit gives UX alone (core + UX if it is "fiori"), no system, cloud and 1000 |
| Scenarios.ModuleCodeIsNotAPhrase | app.py:88-92 | "EWM" in any letter case matches no module, since codes are not trigger phrases |
| Scenarios.CloseIsNotClosing | app.py:90 | "close" does not trigger "closing": the phrase must occur in the text, not the other way round |
| Scenarios.FioriAlone | app.py:95 | a bare "Fiori" yields core + UX: the line-115 fallback restores UX although the mention suppressed it |
| Scenarios.HybridOverridesOnPrem | app.py:104-107 | "hybrid" wins over an on-prem phrase in the same text |
| Scenarios.LargestMentionWins | app.py:110-112 | "10000 users" also spells 100 and 1000; the hint is 10000 |
| Placeholder.ModulesIn | app.py:88-96 | any lowered text triggering exactly SD, Ariba and IBP (and not mentioning "fiori") gets SD, Ariba, IBP, S/4HANA, Fiori |
| Placeholder.SystemsIn | app.py:98-101 | any lowered text triggering exactly 3PL/WMS and Payment Gateway selects those two in table order |
| Placeholder.PlaceholderClassified | app.py:305-306 | the placeholder requirement, in any letter case, yields SD, Ariba, IBP, S/4HANA, Fiori; 3PL/WMS and Payment Gateway; cloud hosting; 1000 users. "5k" is not a candidate figure, "close" is not "closing" and "financial" is not "finance" |

## Left out

- The Streamlit page (sidebar, tabs, buttons, session state, chart rendering, downloads) is
  user-interface I/O. The one piece of it that feeds the core, the sidebar's user figure
  replacing the hint (line 311), is `Classifier.WithUsers`.
- `run_agents`, `AGENT_RULES` and `gen_explanation` are outside this model. They are string
  templating over the analysis.
- The JSON export bundle and its timestamp are outside this model: serialisation and the clock.
- `Strings.Lower`: lower-cases ASCII letters only. Python's `str.lower` is Unicode-aware, and some
  non-ASCII characters lower to ASCII letters: the Kelvin sign becomes `k`, and a dotted capital I
  becomes `i` plus a combining dot. So a text such as "\u212Api" or "b\u0130" selects a module in
  the source (BW/4HANA, through "kpi" or "bi") that the model does not select. The model covers
  texts whose lower-casing stays within ASCII.
- `text or ""` with `text` being `None`: the model takes a string. The page passes `""` when the
  box is empty, which `Scenarios.EmptyText` covers.
- `Fmea.SortByRpn`: states ranking and permutation but not which order equal-RPN rows take. The
  source calls pandas' default `sort_values`, which is not a stable sort, so the source itself
  promises no tie order.
- `Classifier.ExtractRequirements`: the module invariant is "non-empty", not "always contains
  core and UX". The code appends UX only when "fiori" is absent, so "order via fiori" yields
  SD + S/4HANA without Fiori. The model follows the code.
- `Scenarios.EmptyText`: the empty text yields UX alone (`["Fiori"]`), not core + UX. Line 96
  already appends UX, so the line-115 fallback never fires for it. The model follows the code.
- The placeholder text is only the hint shown in an empty input box. `PlaceholderClassified`
  describes what the classifier would make of it if typed.
- Descriptive names in `SAP_MODULES` (the dictionary values) are not read by the core and are
  not modelled.
