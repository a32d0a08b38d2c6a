/** The architecture graph builder (`build_architecture`, app.py lines 122-147):
    a fixed wiring template over the analysis, its sorted node list, and the
    Graphviz DOT text that lists both. */
module Architecture {
  import opened Seqs
  import opened Strings
  import opened Catalog
  import opened Classifier

  /** A directed edge (source, target). */
  type Edge = (string, string)

  /** The fixed entry node of the landscape. */
  const UsersNode := "Users"

  /** Modules other than the core and UX modules, in list order (line 134 and
      line 252). */
  function NonCore(mods: seq<string>): (r: seq<string>)
    ensures |r| <= |mods|
    ensures forall m :: m in r <==> m in mods && m != Core && m != Ux
    ensures forall m :: multiset(r)[m] == if m != Core && m != Ux then multiset(mods)[m] else 0
    ensures NoDup(mods) ==> NoDup(r) && InOrderOf(r, mods)
  {
    var kept := m => m != Core && m != Ux;
    FilterCount(mods, kept);
    if NoDup(mods) then
      FilterOrdered(mods, kept);
      Filter(mods, kept)
    else
      Filter(mods, kept)
  }

  /** Dropping the core and UX modules works piece by piece: the kept modules,
      repeats included, stay in list order. */
  lemma NonCoreAppend(xs: seq<string>, ys: seq<string>)
    ensures NonCore(xs + ys) == NonCore(xs) + NonCore(ys)
  {
    var kept := m => m != Core && m != Ux;
    FilterAppend(xs, ys, kept);
  }

  /** One edge into the core module from every element of `xs`, in order. */
  function IntoCore(xs: seq<string>): (es: seq<Edge>)
    ensures |es| == |xs|
    ensures forall i :: 0 <= i < |xs| ==> es[i] == (xs[i], Core)
  {
    if xs == [] then [] else [(xs[0], Core)] + IntoCore(xs[1..])
  }

  /** Lines 128-137: users to UX, UX to core, core to the hosting node, then every
      non-core module and every external system into the core. */
  function Edges(a: Analysis): (es: seq<Edge>)
    ensures |es| == 3 + |NonCore(a.modules)| + |a.external|
    ensures es[0] == (UsersNode, Ux) && es[1] == (Ux, Core) && es[2] == (Core, a.hosting)
    ensures forall i :: 0 <= i < |NonCore(a.modules)| ==> es[3 + i] == (NonCore(a.modules)[i], Core)
    ensures forall j :: 0 <= j < |a.external| ==> es[3 + |NonCore(a.modules)| + j] == (a.external[j], Core)
  {
    [(UsersNode, Ux), (Ux, Core), (Core, a.hosting)] + IntoCore(NonCore(a.modules)) + IntoCore(a.external)
  }

  /** Both ends of every edge, in edge order. */
  function Endpoints(es: seq<Edge>): (ns: seq<string>)
    ensures forall n :: n in ns <==> exists e :: e in es && (n == e.0 || n == e.1)
  {
    if es == [] then []
    else
      var rest := Endpoints(es[1..]);
      assert forall e :: e in es <==> e == es[0] || e in es[1..] by {
        assert es == [es[0]] + es[1..];
      }
      [es[0].0, es[0].1] + rest
  }

  // ---------------------------------------------------------------------------
  // `sorted(set)`: the node list
  // ---------------------------------------------------------------------------

  predicate StrictlySorted(xs: seq<string>) {
    forall i, j :: 0 <= i < j < |xs| ==> Less(xs[i], xs[j])
  }

  lemma StrictlySortedHasNoDup(xs: seq<string>)
    requires StrictlySorted(xs)
    ensures NoDup(xs)
  {
    forall i, j | 0 <= i < j < |xs| ensures xs[i] != xs[j] {
      LessIrreflexive(xs[i]);
    }
  }

  /** Insert `x` into a strictly sorted list unless it is already there. */
  function InsertSorted(x: string, xs: seq<string>): (r: seq<string>)
    requires StrictlySorted(xs)
    ensures StrictlySorted(r)
    ensures forall y :: y in r <==> y == x || y in xs
  {
    if xs == [] then [x]
    else if x == xs[0] then xs
    else if Less(x, xs[0]) then
      assert StrictlySorted([x] + xs) by {
        forall j | 0 <= j < |xs| ensures Less(x, xs[j]) {
          if j > 0 {
            LessTransitive(x, xs[0], xs[j]);
          }
        }
      }
      [x] + xs
    else
      LessTotal(x, xs[0]);
      var tail := InsertSorted(x, xs[1..]);
      assert forall y :: y in xs[1..] ==> Less(xs[0], y) by {
        forall y | y in xs[1..] ensures Less(xs[0], y) {
          var k :| 0 <= k < |xs[1..]| && xs[1..][k] == y;
          assert xs[k + 1] == y;
        }
      }
      assert forall y :: y in xs <==> y == xs[0] || y in xs[1..] by {
        assert xs == [xs[0]] + xs[1..];
      }
      assert StrictlySorted([xs[0]] + tail) by {
        forall j | 0 <= j < |tail| ensures Less(xs[0], tail[j]) {
          assert tail[j] in tail;
        }
      }
      [xs[0]] + tail
  }

  /** Python's `sorted(set(xs))`: the distinct elements of `xs` in ascending order. */
  function SortedUnique(xs: seq<string>): (r: seq<string>)
    ensures StrictlySorted(r)
    ensures forall y :: y in r <==> y in xs
  {
    if xs == [] then []
    else
      assert forall y :: y in xs <==> y == xs[0] || y in xs[1..] by {
        assert xs == [xs[0]] + xs[1..];
      }
      InsertSorted(xs[0], SortedUnique(xs[1..]))
  }

  /** A set has exactly one strictly ascending listing, so `SortedUnique` is the
      only answer `sorted(set(...))` could give. */
  lemma {:induction false} StrictlySortedUnique(xs: seq<string>, ys: seq<string>)
    requires StrictlySorted(xs) && StrictlySorted(ys)
    requires forall y :: y in xs <==> y in ys
    ensures xs == ys
  {
    SameMembersBothEmpty(xs, ys);
    if xs != [] {
      assert xs[0] in ys && ys[0] in xs;
      if xs[0] != ys[0] {
        var i :| 0 <= i < |ys| && ys[i] == xs[0];
        var j :| 0 <= j < |xs| && xs[j] == ys[0];
        LessAsymmetric(xs[0], xs[j]);
      }
      forall y ensures y in xs[1..] <==> y in ys[1..] {
        StrictlySortedTail(xs, y);
        StrictlySortedTail(ys, y);
      }
      StrictlySortedUnique(xs[1..], ys[1..]);
      assert xs == [xs[0]] + xs[1..] && ys == [ys[0]] + ys[1..];
    }
  }

  lemma StrictlySortedTail(xs: seq<string>, y: string)
    requires StrictlySorted(xs) && xs != []
    ensures y in xs[1..] <==> y in xs && y != xs[0]
  {
    StrictlySortedHasNoDup(xs);
    NoDupTail(xs, y);
  }

  /** Line 138: the distinct edge endpoints in ascending order. */
  function Nodes(a: Analysis): (ns: seq<string>)
    ensures StrictlySorted(ns) && NoDup(ns)
    ensures forall n :: n in ns <==> exists e :: e in Edges(a) && (n == e.0 || n == e.1)
  {
    var ns := SortedUnique(Endpoints(Edges(a)));
    StrictlySortedHasNoDup(ns);
    ns
  }

  /** A node is one of the four anchors (users, UX, core, hosting), a non-core
      module or an external system. */
  ghost predicate IsGraphName(a: Analysis, n: string) {
    n == UsersNode || n == Ux || n == Core || n == a.hosting || n in NonCore(a.modules) || n in a.external
  }

  lemma NodeOfEdge(a: Analysis, n: string, k: nat)
    requires k < |Edges(a)| && (n == Edges(a)[k].0 || n == Edges(a)[k].1)
    ensures IsGraphName(a, n)
  {
    var nc := NonCore(a.modules);
    if 3 <= k < 3 + |nc| {
      assert nc[k - 3] in nc;
    } else if 3 + |nc| <= k {
      assert a.external[k - 3 - |nc|] in a.external;
    }
  }

  lemma GraphNameIsNode(a: Analysis, n: string)
    requires IsGraphName(a, n)
    ensures n in Nodes(a)
  {
    var es := Edges(a);
    var nc := NonCore(a.modules);
    if n in nc {
      var i :| 0 <= i < |nc| && nc[i] == n;
      assert es[3 + i] in es;
    } else if n in a.external {
      var j :| 0 <= j < |a.external| && a.external[j] == n;
      assert es[3 + |nc| + j] in es;
    } else if n == UsersNode || n == Ux {
      assert es[0] in es;
    } else {
      assert es[2] in es;
    }
  }

  /** The nodes are exactly the four anchors, the non-core modules and the
      external systems, each listed once. */
  lemma NodesAreAnchorsModulesAndSystems(a: Analysis)
    ensures forall n :: n in Nodes(a) <==> IsGraphName(a, n)
  {
    forall n ensures n in Nodes(a) <==> IsGraphName(a, n) {
      if n in Nodes(a) {
        var e :| e in Edges(a) && (n == e.0 || n == e.1);
        var k :| 0 <= k < |Edges(a)| && Edges(a)[k] == e;
        NodeOfEdge(a, n, k);
      }
      if IsGraphName(a, n) {
        GraphNameIsNode(a, n);
      }
    }
  }

  // ---------------------------------------------------------------------------
  // DOT text
  // ---------------------------------------------------------------------------

  const Header := "digraph G {"
  const Layout := "rankdir=LR; node [shape=box, style=rounded];"
  const Footer := "}"

  function Quote(s: string): string {
    "\"" + s + "\""
  }

  function NodeLine(n: string): string {
    Quote(n) + ";"
  }

  function EdgeLine(e: Edge): string {
    Quote(e.0) + " -> " + Quote(e.1) + ";"
  }

  function NodeLines(ns: seq<string>): (ls: seq<string>)
    ensures |ls| == |ns|
    ensures forall i :: 0 <= i < |ns| ==> ls[i] == NodeLine(ns[i])
  {
    if ns == [] then [] else [NodeLine(ns[0])] + NodeLines(ns[1..])
  }

  function EdgeLines(es: seq<Edge>): (ls: seq<string>)
    ensures |ls| == |es|
    ensures forall i :: 0 <= i < |es| ==> ls[i] == EdgeLine(es[i])
  {
    if es == [] then [] else [EdgeLine(es[0])] + EdgeLines(es[1..])
  }

  /** Lines 140-146: header, layout line, one line per node in sorted order, one
      line per edge in edge order, closing brace. */
  function DotLines(a: Analysis): (ls: seq<string>)
    ensures |ls| == 3 + |Nodes(a)| + |Edges(a)|
    ensures ls[0] == Header && ls[1] == Layout && ls[|ls| - 1] == Footer
    ensures forall i :: 0 <= i < |Nodes(a)| ==> ls[2 + i] == NodeLine(Nodes(a)[i])
    ensures forall j :: 0 <= j < |Edges(a)| ==> ls[2 + |Nodes(a)| + j] == EdgeLine(Edges(a)[j])
  {
    [Header, Layout] + NodeLines(Nodes(a)) + EdgeLines(Edges(a)) + [Footer]
  }

  /** No name the analysis carries contains a line break. */
  predicate SingleLineNames(a: Analysis) {
    && (forall m :: m in a.modules ==> '\n' !in m)
    && (forall x :: x in a.external ==> '\n' !in x)
    && '\n' !in a.hosting
  }

  lemma GraphNameIsSingleLine(a: Analysis, n: string)
    requires SingleLineNames(a) && IsGraphName(a, n)
    ensures '\n' !in n
  {
  }

  lemma NodeLineIsSingleLine(n: string)
    requires '\n' !in n
    ensures '\n' !in NodeLine(n)
  {
    assert NodeLine(n) == "\"" + n + "\"" + ";";
  }

  lemma EdgeLineIsSingleLine(e: Edge)
    requires '\n' !in e.0 && '\n' !in e.1
    ensures '\n' !in EdgeLine(e)
  {
    assert EdgeLine(e) == "\"" + e.0 + "\"" + " -> " + "\"" + e.1 + "\"" + ";";
  }

  lemma NodeLinesAreSingleLines(a: Analysis, i: nat)
    requires SingleLineNames(a) && i < |Nodes(a)|
    ensures '\n' !in NodeLine(Nodes(a)[i])
  {
    var n := Nodes(a)[i];
    assert n in Nodes(a);
    NodesAreAnchorsModulesAndSystems(a);
    GraphNameIsSingleLine(a, n);
    NodeLineIsSingleLine(n);
  }

  lemma EdgeLinesAreSingleLines(a: Analysis, k: nat)
    requires SingleLineNames(a) && k < |Edges(a)|
    ensures '\n' !in EdgeLine(Edges(a)[k])
  {
    var e := Edges(a)[k];
    NodeOfEdge(a, e.0, k);
    NodeOfEdge(a, e.1, k);
    GraphNameIsSingleLine(a, e.0);
    GraphNameIsSingleLine(a, e.1);
    EdgeLineIsSingleLine(e);
  }

  lemma FixedLinesAreSingleLines()
    ensures '\n' !in Header && '\n' !in Layout && '\n' !in Footer
  {
  }

  lemma DotLinesAreSingleLines(a: Analysis)
    requires SingleLineNames(a)
    ensures forall i :: 0 <= i < |DotLines(a)| ==> '\n' !in DotLines(a)[i]
  {
    var ls := DotLines(a);
    var ns := Nodes(a);
    FixedLinesAreSingleLines();
    forall i | 0 <= i < |ls| ensures '\n' !in ls[i] {
      if i < 2 || i == |ls| - 1 {
      } else if i < 2 + |ns| {
        NodeLinesAreSingleLines(a, i - 2);
      } else if 2 + |ns| <= i < |ls| - 1 {
        EdgeLinesAreSingleLines(a, i - 2 - |ns|);
      }
    }
  }

  /** Line 147: the DOT lines joined by newlines. When no name contains a line
      break, splitting the text at newlines gives back exactly the header, the
      layout line, the node lines, the edge lines and the closing brace. */
  function BuildArchitecture(a: Analysis): (dot: string)
    ensures SingleLineNames(a) ==> Split(dot, '\n') == DotLines(a)
  {
    var dot := Join(DotLines(a), '\n');
    if SingleLineNames(a) then
      DotLinesAreSingleLines(a);
      SplitJoin(DotLines(a), '\n');
      dot
    else
      dot
  }

  // ---------------------------------------------------------------------------
  // What the page feeds the builders
  // ---------------------------------------------------------------------------

  /** A catalogue name: a single line, and not the users node. */
  predicate PlainName(n: string) {
    '\n' !in n && n != UsersNode
  }

  lemma ModuleNamesPlain()
    ensures forall i :: 0 <= i < |SapModules| ==> PlainName(SapModules[i])
  {
  }

  lemma SystemNamesPlain()
    ensures forall i :: 0 <= i < |NonSapSystems| ==> PlainName(NonSapSystems[i])
  {
  }

  lemma HostingNamesPlain()
    ensures forall i :: 0 <= i < |HostingChoices| ==> PlainName(HostingChoices[i])
  {
  }

  /** No module code, system label or hosting label contains a line break or
      is the users node. */
  lemma CatalogNamesPlain()
    ensures forall m :: m in SapModules ==> PlainName(m)
    ensures forall x :: x in NonSapSystems ==> PlainName(x)
    ensures forall h :: h in HostingChoices ==> PlainName(h)
  {
    ModuleNamesPlain();
    SystemNamesPlain();
    HostingNamesPlain();
  }

  /** Lines 310-311: every analysis the page builds (classified text, then the
      sidebar's user figure) has single-line names none of which is the users
      node. */
  lemma ExtractedNamesPlain(text: string, users: Option<int>)
    ensures SingleLineNames(WithUsers(ExtractRequirements(text), users))
    ensures UsersNode != WithUsers(ExtractRequirements(text), users).hosting
    ensures UsersNode !in WithUsers(ExtractRequirements(text), users).modules
    ensures UsersNode !in WithUsers(ExtractRequirements(text), users).external
  {
    CatalogNamesPlain();
  }

  /** Line 322 on what line 310 produces: the DOT text splits at newlines into
      exactly the header, layout, node, edge and closing lines. */
  lemma ExtractedDotRoundTrip(text: string, users: Option<int>)
    ensures Split(BuildArchitecture(WithUsers(ExtractRequirements(text), users)), '\n')
      == DotLines(WithUsers(ExtractRequirements(text), users))
  {
    ExtractedNamesPlain(text, users);
  }
}
