/** The risk table builder (`build_fmea`, app.py lines 244-282): one Failure Mode
    and Effects Analysis row per architecture component, scored from a static
    table, escalated for external systems, and ranked by risk priority number. */
module Fmea {
  import opened Catalog
  import opened Classifier
  import opened Architecture

  /** A base score: severity, occurrence, detection and failure mode. */
  datatype Risk = Risk(severity: int, occurrence: int, detection: int, mode: string)

  /** One row of the table, with the columns of the source's records. */
  datatype Row = Row(
    component: string,
    failureMode: string,
    severity: int,
    occurrence: int,
    detection: int,
    rpn: int,
    action: string)

  /** Lines 256-262: base scores of the fixed components. */
  const BaseRisks: map<string, Risk> := map[
    Ux := Risk(5, 4, 6, "UX performance under load"),
    Core := Risk(7, 3, 4, "Data model or custom code defects"),
    OnPrem := Risk(6, 4, 5, "Capacity planning & patching"),
    Cloud := Risk(4, 3, 6, "Release change impact"),
    Hybrid := Risk(6, 5, 6, "Network latency & split ops")
  ]

  /** Line 265: the score of any other component. */
  const DefaultRisk := Risk(5, 3, 6, "General failure mode")

  const EscalatedMode := "Integration latency/contract changes"

  const RecommendedAction := "Add monitoring, SLAs, automated tests, fallback paths, and operational runbooks."

  /** A score on the 1-10 FMEA scale. */
  predicate InScale(v: int) {
    1 <= v <= 10
  }

  function Min(x: int, y: int): int {
    if x <= y then x else y
  }

  /** Line 265: the table entry of `c`, or the generic default. Every base score
      is on the scale and leaves room for the occurrence escalation. */
  function BaseRisk(c: string): (r: Risk)
    ensures InScale(r.severity) && InScale(r.detection)
    ensures 1 <= r.occurrence <= 8
    ensures c !in BaseRisks ==> r == DefaultRisk
  {
    if c in BaseRisks then BaseRisks[c] else DefaultRisk
  }

  /** A row whose scores are on the scale and whose RPN is their product. */
  predicate WellScored(row: Row) {
    && InScale(row.severity) && InScale(row.occurrence) && InScale(row.detection)
    && row.rpn == row.severity * row.occurrence * row.detection
    && 1 <= row.rpn <= 1000
  }

  lemma ProductBounds(s: int, o: int, d: int)
    requires InScale(s) && InScale(o) && InScale(d)
    ensures 1 <= s * o * d <= 1000
  {
    assert 1 <= s * o <= 100 by {
      assert s * o <= 10 * o;
    }
    assert s * o * d <= 100 * d;
  }

  /** Lines 264-279: score one component. External systems get severity + 1 and
      occurrence + 2, both capped at 10, and the integration failure mode; the
      RPN is the product of the three scores. */
  function ScoreComponent(c: string, external: seq<string>): (row: Row)
    ensures row.component == c && row.action == RecommendedAction
    ensures WellScored(row)
    ensures row.detection == BaseRisk(c).detection
    ensures c !in external ==>
      row.severity == BaseRisk(c).severity && row.occurrence == BaseRisk(c).occurrence
      && row.failureMode == BaseRisk(c).mode
    ensures c in external ==>
      row.severity == Min(10, BaseRisk(c).severity + 1) && row.occurrence == Min(10, BaseRisk(c).occurrence + 2)
      && row.failureMode == EscalatedMode
  {
    var base := BaseRisk(c);
    var sev := if c in external then Min(10, base.severity + 1) else base.severity;
    var occ := if c in external then Min(10, base.occurrence + 2) else base.occurrence;
    var mode := if c in external then EscalatedMode else base.mode;
    ProductBounds(sev, occ, base.detection);
    Row(c, mode, sev, occ, base.detection, sev * occ * base.detection, RecommendedAction)
  }

  /** Escalation raises an external component's risk: its occurrence is exactly
      two above the base (the base never exceeds 8), its severity never drops,
      and so its RPN is strictly above the RPN it would have as an internal
      component. */
  lemma EscalationRaisesRisk(c: string, external: seq<string>)
    requires c in external
    ensures ScoreComponent(c, external).occurrence == BaseRisk(c).occurrence + 2
    ensures ScoreComponent(c, external).severity >= BaseRisk(c).severity
    ensures ScoreComponent(c, external).rpn > ScoreComponent(c, []).rpn
  {
  }

  /** Lines 250-254: the UX module, the core module, the hosting label, the
      non-core modules, then the external systems. */
  function Components(a: Analysis): (cs: seq<string>)
    ensures |cs| == 3 + |NonCore(a.modules)| + |a.external|
  {
    [Ux, Core, a.hosting] + NonCore(a.modules) + a.external
  }

  /** The risk table covers exactly the architecture graph's nodes other than
      the users node (whenever no analysed name is itself "Users"). */
  lemma ComponentsAreGraphNodes(a: Analysis)
    requires UsersNode != a.hosting && UsersNode !in a.modules && UsersNode !in a.external
    ensures forall c :: c in Components(a) <==> c in Nodes(a) && c != UsersNode
  {
    NodesAreAnchorsModulesAndSystems(a);
    var cs := Components(a);
    assert forall c :: c in cs <==> c == Ux || c == Core || c == a.hosting || c in NonCore(a.modules) || c in a.external;
  }

  /** One scored row per component, in component order. */
  function ScoreAll(cs: seq<string>, external: seq<string>): (rows: seq<Row>)
    ensures |rows| == |cs|
    ensures forall i :: 0 <= i < |cs| ==> rows[i] == ScoreComponent(cs[i], external)
  {
    if cs == [] then [] else [ScoreComponent(cs[0], external)] + ScoreAll(cs[1..], external)
  }

  /** Every component has a row of its own among the scored rows, and every row
      belongs to a component. */
  lemma ScoredComponents(cs: seq<string>, external: seq<string>)
    ensures forall c :: c in cs <==> exists r :: r in ScoreAll(cs, external) && r.component == c
  {
    var rows := ScoreAll(cs, external);
    forall c | c in cs ensures exists r :: r in rows && r.component == c {
      var i :| 0 <= i < |cs| && cs[i] == c;
      assert rows[i] in rows;
    }
  }

  // ---------------------------------------------------------------------------
  // Ranking by RPN, highest first
  // ---------------------------------------------------------------------------

  predicate SortedByRpn(rows: seq<Row>) {
    forall i, j :: 0 <= i < j < |rows| ==> rows[i].rpn >= rows[j].rpn
  }

  /** Insert `r` into a list ranked by RPN, keeping it ranked. */
  function InsertByRpn(r: Row, rows: seq<Row>): (res: seq<Row>)
    requires SortedByRpn(rows)
    ensures SortedByRpn(res)
    ensures multiset(res) == multiset(rows) + multiset{r}
  {
    if rows == [] then [r]
    else if r.rpn >= rows[0].rpn then [r] + rows
    else
      var tail := InsertByRpn(r, rows[1..]);
      assert rows == [rows[0]] + rows[1..];
      TailBounded(r, rows, tail);
      assert SortedByRpn([rows[0]] + tail) by {
        forall i, j | 0 <= i < j < |tail| + 1 ensures ([rows[0]] + tail)[i].rpn >= ([rows[0]] + tail)[j].rpn {
          if i == 0 {
            assert tail[j - 1] in tail;
          }
        }
      }
      [rows[0]] + tail
  }

  /** Every row of `tail`, a permutation of a ranked list's tail plus `r`, is
      ranked no higher than the list's head, when `r` is not. */
  lemma TailBounded(r: Row, rows: seq<Row>, tail: seq<Row>)
    requires SortedByRpn(rows) && rows != [] && r.rpn < rows[0].rpn
    requires multiset(tail) == multiset(rows[1..]) + multiset{r}
    ensures forall x :: x in tail ==> x.rpn <= rows[0].rpn
  {
    forall x | x in tail ensures x.rpn <= rows[0].rpn {
      assert x in multiset(tail);
      if x != r {
        assert x in multiset(rows[1..]);
        var k :| 0 <= k < |rows[1..]| && rows[1..][k] == x;
        assert rows[k + 1] == x;
      }
    }
  }

  /** Line 281's `sort_values("RPN", ascending=False)`: a permutation of the
      rows ranked by RPN, highest first. */
  function SortByRpn(rows: seq<Row>): (res: seq<Row>)
    ensures SortedByRpn(res)
    ensures multiset(res) == multiset(rows)
  {
    if rows == [] then []
    else
      assert rows == [rows[0]] + rows[1..];
      InsertByRpn(rows[0], SortByRpn(rows[1..]))
  }

  /** Two lists that are permutations of each other have the same length and
      the same members. */
  lemma SameRows(rows: seq<Row>, table: seq<Row>)
    requires multiset(table) == multiset(rows)
    ensures |table| == |rows|
    ensures forall r :: r in table <==> r in rows
  {
    assert |multiset(table)| == |multiset(rows)|;
    forall r ensures r in table <==> r in rows {
      assert r in table <==> r in multiset(table);
      assert r in rows <==> r in multiset(rows);
    }
  }

  /** `build_fmea`: the scored rows of all components, ranked by RPN. */
  function BuildFmea(a: Analysis): (table: seq<Row>)
    ensures SortedByRpn(table)
    ensures multiset(table) == multiset(ScoreAll(Components(a), a.external))
    ensures |table| == |Components(a)|
    ensures forall r :: r in table ==> WellScored(r) && r.action == RecommendedAction
    ensures forall c :: c in Components(a) <==> exists r :: r in table && r.component == c
  {
    var rows := ScoreAll(Components(a), a.external);
    var table := SortByRpn(rows);
    SameRows(rows, table);
    ScoredComponents(Components(a), a.external);
    table
  }

  /** Every row of an external system carries the escalated occurrence and the
      integration failure mode, and every external system has a row. */
  lemma ExternalRowsEscalated(a: Analysis)
    ensures forall r :: r in BuildFmea(a) && r.component in a.external ==>
      r.occurrence == Min(10, BaseRisk(r.component).occurrence + 2) && r.failureMode == EscalatedMode
    ensures forall x :: x in a.external ==> exists r :: r in BuildFmea(a) && r.component == x
  {
    var table := BuildFmea(a);
    var rows := ScoreAll(Components(a), a.external);
    SameRows(rows, table);
    EscalatedRows(Components(a), a.external);
    forall x | x in a.external ensures x in Components(a) {
    }
  }

  /** Scored rows of external components are escalated. */
  lemma EscalatedRows(cs: seq<string>, external: seq<string>)
    ensures forall r :: r in ScoreAll(cs, external) && r.component in external ==>
      r.occurrence == Min(10, BaseRisk(r.component).occurrence + 2) && r.failureMode == EscalatedMode
  {
    var rows := ScoreAll(cs, external);
    forall r | r in rows && r.component in external
      ensures r.occurrence == Min(10, BaseRisk(r.component).occurrence + 2) && r.failureMode == EscalatedMode
    {
      var i :| 0 <= i < |rows| && rows[i] == r;
    }
  }

  /** The risk table has a row for exactly the graph's nodes other than the
      users node. */
  ghost predicate TableCoversGraph(a: Analysis) {
    forall c :: (exists r :: r in BuildFmea(a) && r.component == c) <==> (c in Nodes(a) && c != UsersNode)
  }

  /** The table covers the graph whenever no analysed name is "Users". */
  lemma TableMatchesGraph(a: Analysis)
    requires UsersNode != a.hosting && UsersNode !in a.modules && UsersNode !in a.external
    ensures TableCoversGraph(a)
  {
    ComponentsAreGraphNodes(a);
    var table := BuildFmea(a);
    forall c ensures (exists r :: r in table && r.component == c) <==> c in Components(a) {
    }
  }

  /** Lines 322 and 341 on what line 310 produces: the risk table has one row
      for each node of the architecture graph other than the users node, and
      for nothing else. */
  lemma ExtractedTableMatchesGraph(text: string, users: Option<int>)
    ensures TableCoversGraph(WithUsers(ExtractRequirements(text), users))
  {
    ExtractedNamesPlain(text, users);
    TableMatchesGraph(WithUsers(ExtractRequirements(text), users));
  }
}
