/**
 The durable workspace graph as the context compiler queries it: a fixed finite set of objects and
 edges, the personal-object links, and the relations along which content and privacy flow.
 */
module WorkspaceGraph {
  import opened Wrappers
  import opened Privacy
  import opened Reachability

  datatype Kind =
    | ContextBridge | ContextSet | ConversationBranch | ConversationTurn
    | ManualNote | FileReference | StudySession | StudyCard
    | OtherKind(name: string)

  // One metadata entry: not there, well formed, or of the wrong type.
  datatype Field<+T> = Absent | Present(value: T) | Malformed

  datatype Flag = RequiresTools | RequiresVision | RequiresStructuredOutput | RequiresLongContext

  // `text` is the rendered block of the object, including the enabled sections of a bridge.
  datatype Object = Object(
    project: Option<string>,
    kind: Kind,
    createdAt: int,
    text: string,
    privacy: Field<Level>,
    capabilities: Field<set<string>>,
    flags: Field<set<Flag>>)

  datatype Family = Context | Provenance | OtherFamily(name: string)

  datatype Edge = Edge(project: string, source: Id, target: Id, family: Family)

  // `edges` is in (created_at, id) order, the order of every edge query.
  datatype Workspace = Workspace(objects: map<Id, Object>, links: set<(Id, string)>, edges: seq<Edge>)

  predicate Expandable(k: Kind) {
    k in {ContextBridge, ContextSet, ConversationBranch, ConversationTurn}
  }

  predicate Linkable(k: Kind) {
    k in {ManualNote, FileReference, StudySession, StudyCard}
  }

  /** The object belongs to the project, or is a personal object linked into it. */
  predicate Resolvable(w: Workspace, project: string, id: Id) {
    id in w.objects &&
    var o := w.objects[id];
    o.project == Some(project) || (o.project == None && Linkable(o.kind) && (id, project) in w.links)
  }

  function Resolve(w: Workspace, project: string, ids: set<Id>): map<Id, Object> {
    map id | id in ids && Resolvable(w, project, id) :: w.objects[id]
  }

  predicate Selects(e: Edge, project: string, families: set<Family>, targets: set<Id>) {
    e.project == project && e.family in families && e.target in targets
  }

  function EdgesInto(edges: seq<Edge>, project: string, families: set<Family>, targets: set<Id>): seq<Edge> {
    if edges == [] then []
    else (if Selects(edges[0], project, families, targets) then [edges[0]] else [])
         + EdgesInto(edges[1..], project, families, targets)
  }

  /** The same query with `.limit(n)`. */
  function Limit(edges: seq<Edge>, n: nat): (r: seq<Edge>)
    ensures |r| < n ==> r == edges
  {
    if |edges| > n then edges[..n] else edges
  }

  lemma {:induction false} QueryIsFilter(edges: seq<Edge>, project: string, families: set<Family>, targets: set<Id>, e: Edge)
    ensures e in EdgesInto(edges, project, families, targets) <==> e in edges && Selects(e, project, families, targets)
  {
    if edges != [] {
      QueryIsFilter(edges[1..], project, families, targets, e);
      assert e in edges <==> e == edges[0] || e in edges[1..];
    }
  }

  lemma {:induction false} QueryCountSplits(edges: seq<Edge>, project: string, families: set<Family>, a: set<Id>, b: set<Id>)
    requires a !! b
    ensures |EdgesInto(edges, project, families, a + b)|
         == |EdgesInto(edges, project, families, a)| + |EdgesInto(edges, project, families, b)|
  {
    if edges != [] {
      QueryCountSplits(edges[1..], project, families, a, b);
    }
  }

  lemma QueryCountGrows(edges: seq<Edge>, project: string, families: set<Family>, a: set<Id>, b: set<Id>)
    requires a <= b
    ensures |EdgesInto(edges, project, families, a)| <= |EdgesInto(edges, project, families, b)|
  {
    QueryCountSplits(edges, project, families, a, b - a);
    assert a + (b - a) == b;
  }

  /** Pairs of an edge of the given families whose source this project may see. */
  ghost function Flow(w: Workspace, project: string, families: set<Family>): Relation {
    set e | e in w.edges && e.project == project && e.family in families && Resolvable(w, project, e.source)
      :: (e.source, e.target)
  }

  // Context links are recorded only into objects that are expanded.
  ghost function LinkFlow(w: Workspace, project: string): Relation {
    set e | e in Flow(w, project, {Context}) && e.1 in w.objects && Expandable(w.objects[e.1].kind) :: e
  }

  // Content passes those links, except into a bridge.
  ghost function ContentFlow(w: Workspace, project: string): Relation {
    set e | e in LinkFlow(w, project) && !w.objects[e.1].kind.ContextBridge? :: e
  }

  // Privacy behind a bridge flows along both families.
  const ANCESTRY: set<Family> := {Context, Provenance}

  ghost function ProvenanceFlow(w: Workspace, project: string): Relation {
    Flow(w, project, {Provenance})
  }

  ghost function AncestryFlow(w: Workspace, project: string): Relation {
    Flow(w, project, ANCESTRY)
  }

  // An object is visible in a project it belongs to, and a personal note, file, session or card in those it is linked into.
  lemma VisibleIff(w: Workspace, project: string, x: Id)
    ensures Resolvable(w, project, x) <==>
      && x in w.objects
      && (w.objects[x].project == Some(project)
          || (w.objects[x].project == None && (x, project) in w.links
              && w.objects[x].kind in {ManualNote, FileReference, StudySession, StudyCard}))
  {
  }

  /**
   On the edges themselves: content flows from a visible source along the project's context edges into a set, branch or turn;
   links are recorded into bridges too; provenance flows along provenance edges, and behind a bridge both families count.
   */
  lemma FlowsAlongEdges(w: Workspace, project: string, x: Id, y: Id)
    ensures (x, y) in ContentFlow(w, project) <==>
      && Resolvable(w, project, x) && y in w.objects
      && w.objects[y].kind in {ContextSet, ConversationBranch, ConversationTurn} && Edge(project, x, y, Context) in w.edges
    ensures (x, y) in LinkFlow(w, project) <==>
      && Resolvable(w, project, x) && y in w.objects
      && w.objects[y].kind in {ContextBridge, ContextSet, ConversationBranch, ConversationTurn} && Edge(project, x, y, Context) in w.edges
    ensures (x, y) in ProvenanceFlow(w, project) <==> Resolvable(w, project, x) && Edge(project, x, y, Provenance) in w.edges
    ensures (x, y) in AncestryFlow(w, project) <==>
      Resolvable(w, project, x) && (Edge(project, x, y, Context) in w.edges || Edge(project, x, y, Provenance) in w.edges)
  {
    FlowIff(w, project, {Context}, x, y);
    FlowIff(w, project, {Provenance}, x, y);
    FlowIff(w, project, ANCESTRY, x, y);
  }

  lemma FlowIff(w: Workspace, project: string, families: set<Family>, x: Id, y: Id)
    ensures (x, y) in Flow(w, project, families) <==> Resolvable(w, project, x) && exists f :: f in families && Edge(project, x, y, f) in w.edges
  {
    if f :| f in families && Edge(project, x, y, f) in w.edges && Resolvable(w, project, x) {
      var e := Edge(project, x, y, f);
      assert e in w.edges && (e.source, e.target) == (x, y);
    }
    if (x, y) in Flow(w, project, families) {
      var e :| e in w.edges && e.project == project && e.family in families && Resolvable(w, project, e.source) && (e.source, e.target) == (x, y);
      assert e == Edge(project, x, y, e.family);
    }
  }

  // The links one unlimited query yields to this project are those of the flow.
  lemma QueryFollowsFlow(w: Workspace, project: string, families: set<Family>, targets: set<Id>)
    ensures (set e | e in EdgesInto(w.edges, project, families, targets) && Resolvable(w, project, e.source) :: (e.source, e.target))
         == Into(Flow(w, project, families), targets)
  {
    var q := EdgesInto(w.edges, project, families, targets);
    var lhs := set e | e in q && Resolvable(w, project, e.source) :: (e.source, e.target);
    var rhs := Into(Flow(w, project, families), targets);
    forall p | p in lhs ensures p in rhs {
      var e :| e in q && Resolvable(w, project, e.source) && (e.source, e.target) == p;
      QueryIsFilter(w.edges, project, families, targets, e);
    }
    forall p | p in rhs ensures p in lhs {
      var e :| e in w.edges && e.project == project && e.family in families && Resolvable(w, project, e.source) && (e.source, e.target) == p;
      QueryIsFilter(w.edges, project, families, targets, e);
    }
  }

  /** The set of all classifications that flow from the given objects. */
  function Classification(o: Object): Field<Level> {
    if o.privacy.Absent? && o.kind.ConversationTurn? then Present(LocalOnly) else o.privacy
  }

  ghost function Levels(objects: map<Id, Object>, ids: set<Id>): set<Level>
    requires ids <= objects.Keys
  {
    set x | x in ids && Classification(objects[x]).Present? :: Classification(objects[x]).value
  }

  /// What a selection means, without any walk.

  ghost function Included(w: Workspace, project: string, roots: set<Id>): set<Id> {
    Closure(ContentFlow(w, project), roots)
  }

  ghost function LinkedSources(w: Workspace, project: string, roots: set<Id>): set<Id> {
    SourcesOf(LinkFlow(w, project), Included(w, project, roots))
  }

  ghost function ProvenanceAncestry(w: Workspace, project: string, roots: set<Id>): set<Id> {
    Closure(ProvenanceFlow(w, project), Included(w, project, roots))
  }

  ghost function BridgeSources(w: Workspace, project: string, roots: set<Id>): set<Id> {
    set e | e in LinkFlow(w, project) && e.1 in Included(w, project, roots) && w.objects[e.1].kind.ContextBridge? :: e.0
  }

  ghost function BridgeAncestry(w: Workspace, project: string, roots: set<Id>): set<Id> {
    Closure(AncestryFlow(w, project), BridgeSources(w, project, roots))
  }

  ghost function PrivacySet(w: Workspace, project: string, roots: set<Id>): set<Id> {
    Included(w, project, roots) + LinkedSources(w, project, roots)
    + ProvenanceAncestry(w, project, roots) + BridgeAncestry(w, project, roots)
  }

  ghost predicate AllResolvable(w: Workspace, project: string, ids: set<Id>) {
    forall x | x in ids :: Resolvable(w, project, x)
  }

  // Closing along a flow never leaves the project.
  lemma ClosureResolvable(w: Workspace, project: string, rel: Relation, start: set<Id>)
    requires AllResolvable(w, project, start) && forall e | e in rel :: Resolvable(w, project, e.0)
    ensures AllResolvable(w, project, Closure(rel, start))
  {
    var all := set x | x in w.objects && Resolvable(w, project, x);
    ClosureIsLeast(rel, start, all);
  }

  lemma SelectionResolvable(w: Workspace, project: string, roots: set<Id>)
    requires AllResolvable(w, project, roots)
    ensures AllResolvable(w, project, Included(w, project, roots))
    ensures AllResolvable(w, project, PrivacySet(w, project, roots))
  {
    ClosureResolvable(w, project, ContentFlow(w, project), roots);
    ClosureResolvable(w, project, ProvenanceFlow(w, project), Included(w, project, roots));
    ClosureResolvable(w, project, AncestryFlow(w, project), BridgeSources(w, project, roots));
  }

  // Selecting more objects only ever adds to what privacy is joined over.
  lemma PrivacySetIsMonotone(w: Workspace, project: string, roots: set<Id>, more: set<Id>)
    requires roots <= more
    ensures Included(w, project, roots) <= Included(w, project, more)
    ensures PrivacySet(w, project, roots) <= PrivacySet(w, project, more)
  {
    ClosureIsMonotone(ContentFlow(w, project), roots, more);
    ClosureIsMonotone(ProvenanceFlow(w, project), Included(w, project, roots), Included(w, project, more));
    ClosureIsMonotone(AncestryFlow(w, project), BridgeSources(w, project, roots), BridgeSources(w, project, more));
  }

  // What privacy is joined over: the included objects, what is linked to them, where they came from, and what lies behind bridges.
  lemma PrivacySetIff(w: Workspace, project: string, roots: set<Id>, x: Id)
    ensures x in PrivacySet(w, project, roots) <==>
      || x in Included(w, project, roots)
      || (exists y :: y in Included(w, project, roots) && (x, y) in LinkFlow(w, project))
      || Reaches(ProvenanceFlow(w, project), x, Included(w, project, roots))
      || (exists y, b :: b in Included(w, project, roots) && (y, b) in LinkFlow(w, project) && w.objects[b].kind.ContextBridge?
            && Reaches(AncestryFlow(w, project), x, {y}))
  {
    var included, sources := Included(w, project, roots), BridgeSources(w, project, roots);
    ClosureIsReachability(ProvenanceFlow(w, project), included, x);
    ClosureIsReachability(AncestryFlow(w, project), sources, x);
    if Reaches(AncestryFlow(w, project), x, sources) {
      var p :| IsPath(AncestryFlow(w, project), p) && p[0] == x && p[|p| - 1] in sources;
      assert Reaches(AncestryFlow(w, project), x, {p[|p| - 1]});
    }
    if y, b :| b in included && (y, b) in LinkFlow(w, project) && w.objects[b].kind.ContextBridge? && Reaches(AncestryFlow(w, project), x, {y}) {
      assert y in sources;
    }
  }

  // The included objects are the least set that holds the selection and is closed under content flow.
  lemma IncludedIsLeast(w: Workspace, project: string, roots: set<Id>, s: set<Id>)
    requires roots <= s && Closed(ContentFlow(w, project), s)
    ensures Included(w, project, roots) <= s
    ensures roots <= Included(w, project, roots) && Closed(ContentFlow(w, project), Included(w, project, roots))
  {
    ClosureIsLeast(ContentFlow(w, project), roots, s);
    ClosureIsClosed(ContentFlow(w, project), roots);
  }

  // An object that was not selected is included only through an expanded object that is not a bridge.
  lemma NothingCrossesABridge(w: Workspace, project: string, roots: set<Id>, x: Id)
    requires x in Included(w, project, roots) && x !in roots
    ensures exists t :: t in Included(w, project, roots) && (x, t) in LinkFlow(w, project)
                     && Expandable(w.objects[t].kind) && !w.objects[t].kind.ContextBridge?
  {
    var flow := ContentFlow(w, project);
    ClosureIsReachability(flow, roots, x);
    var p :| IsPath(flow, p) && p[0] == x && p[|p| - 1] in roots;
    assert |p| > 1 && (p[0], p[1]) in flow;
    assert IsPath(flow, p[1..]) by { forall i | 0 <= i < |p| - 2 ensures (p[1..][i], p[1..][i + 1]) in flow { assert (p[i + 1], p[i + 2]) in flow; } }
    assert Reaches(flow, p[1], roots);
    ClosureIsReachability(flow, roots, p[1]);
  }

  // Privacy does cross it: every object with a context or provenance path to a source of an included bridge counts.
  lemma PrivacyCrossesBridges(w: Workspace, project: string, roots: set<Id>, bridge: Id, x: Id, p: seq<Id>)
    requires bridge in Included(w, project, roots) && bridge in w.objects && w.objects[bridge].kind.ContextBridge?
    requires IsPath(AncestryFlow(w, project), p) && p[0] == x && (p[|p| - 1], bridge) in LinkFlow(w, project)
    ensures x in PrivacySet(w, project, roots)
  {
    assert p[|p| - 1] in BridgeSources(w, project, roots);
    assert Reaches(AncestryFlow(w, project), x, BridgeSources(w, project, roots));
    ClosureIsReachability(AncestryFlow(w, project), BridgeSources(w, project, roots), x);
  }
}
