/** The three bounded worklist walks of the context compiler (app/memory/context_compiler.py:132-322). */
module ContextWalks {
  import opened Wrappers
  import opened Reachability
  import opened WorkspaceGraph
  import opened LayeredOrder

  const MAX_COMPILED_OBJECTS: nat := 200

  /// Small facts about sizes and recorded links.

  lemma {:induction false} SubsetSize(a: set<Id>, b: set<Id>)
    requires a <= b
    ensures |a| <= |b|
  {
    if a != {} {
      var x :| x in a;
      SubsetSize(a - {x}, b - {x});
    }
  }

  function AddLink(linked: Links, target: Id, source: Id): Links {
    linked[target := Recorded(linked, target) + [source]]
  }

  function LinkedIds(linked: Links): set<Id> {
    set p | p in LinkRelation(linked) :: p.0
  }

  lemma AddLinkAddsPair(linked: Links, target: Id, source: Id)
    ensures LinkRelation(AddLink(linked, target, source)) == LinkRelation(linked) + {(source, target)}
  {
    var after := AddLink(linked, target, source);
    forall p ensures p in LinkRelation(after) <==> p in LinkRelation(linked) || p == (source, target) {
      assert p.1 in after && p.0 in after[p.1] <==> (p.1 in linked && p.0 in linked[p.1]) || p == (source, target);
    }
  }

  /** The objects fetched so far are exactly what the store holds under those ids, and visible to the project. */
  ghost predicate Cached(objects: map<Id, Object>, w: Workspace, project: string) {
    forall x | x in objects :: Resolvable(w, project, x) && objects[x] == w.objects[x]
  }

  // Fetching the unknown sources of a batch of edges makes `in objects` mean `resolvable` for all of them.
  method Fetch(w: Workspace, project: string, objects: map<Id, Object>, edges: seq<Edge>)
    returns (r: map<Id, Object>)
    requires Cached(objects, w, project)
    ensures Cached(r, w, project) && objects.Keys <= r.Keys
    ensures forall e | e in edges :: e.source in r <==> Resolvable(w, project, e.source)
  {
    var missing := (set e | e in edges :: e.source) - objects.Keys;
    r := objects + Resolve(w, project, missing);
    forall e | e in edges ensures e.source in r <==> Resolvable(w, project, e.source) {
      assert e.source in objects || e.source in missing;
    }
  }

  /// Walk 1: context.

  datatype Walked = Walked(included: set<Id>, linked: Links, objects: map<Id, Object>)

  ghost function Carried(edges: seq<Edge>, objects: map<Id, Object>): set<Id> {
    set e | e in edges && e.source in objects && e.target in objects && !objects[e.target].kind.ContextBridge? :: e.source
  }

  ghost function Seen(edges: seq<Edge>, objects: map<Id, Object>): Relation {
    set e | e in edges && e.source in objects :: (e.source, e.target)
  }

  predicate Carries(e: Edge, objects: map<Id, Object>)
    requires e.target in objects
  {
    e.source in objects && !objects[e.target].kind.ContextBridge?
  }

  // One edge: record the link, carry its source over, and expand that next if it is new.
  method ExpandEdge(e: Edge, objects: map<Id, Object>, included: set<Id>, linked: Links, next: set<Id>)
    returns (included': set<Id>, linked': Links, next': set<Id>)
    requires e.target in objects
    ensures included' == included + (if Carries(e, objects) then {e.source} else {})
    ensures LinkRelation(linked') == LinkRelation(linked) + (if e.source in objects then {(e.source, e.target)} else {})
    ensures next' == next + (if Carries(e, objects) && e.source !in included && Expandable(objects[e.source].kind)
                             then {e.source} else {})
  {
    included', linked', next' := included, linked, next;
    if e.source in objects {
      AddLinkAddsPair(linked, e.target, e.source);
      linked' := AddLink(linked, e.target, e.source);
      if !objects[e.target].kind.ContextBridge? && e.source !in included {
        included' := included + {e.source};
        if Expandable(objects[e.source].kind) {
          next' := next + {e.source};
        }
      }
    }
  }

  ghost function Fresh(now: set<Id>, before: set<Id>, objects: map<Id, Object>): set<Id> {
    set x | x in now && x !in before && x in objects && Expandable(objects[x].kind)
  }

  lemma FreshGrows(now: set<Id>, before: set<Id>, objects: map<Id, Object>, e: Edge)
    requires e.target in objects && before <= now
    ensures Fresh(now + (if Carries(e, objects) then {e.source} else {}), before, objects)
         == Fresh(now, before, objects)
            + (if Carries(e, objects) && e.source !in now && Expandable(objects[e.source].kind) then {e.source} else {})
  {
  }

  /** How far one batch has got after `n` edges. */
  ghost predicate Expanding(edges: seq<Edge>, n: nat, objects: map<Id, Object>, included: set<Id>, linked: Links,
                            included': set<Id>, linked': Links, next: set<Id>)
    requires n <= |edges|
  {
    && included <= objects.Keys
    && included' == included + Carried(edges[..n], objects)
    && LinkRelation(linked') == LinkRelation(linked) + Seen(edges[..n], objects)
    && next == Fresh(included', included, objects)
  }

  lemma ExpandingStep(edges: seq<Edge>, i: nat, objects: map<Id, Object>, included: set<Id>, linked: Links,
                      now: set<Id>, links: Links, next: set<Id>, now': set<Id>, links': Links, next': set<Id>)
    requires i < |edges| && forall e | e in edges :: e.target in objects
    requires Expanding(edges, i, objects, included, linked, now, links, next)
    requires now' == now + (if Carries(edges[i], objects) then {edges[i].source} else {})
    requires LinkRelation(links')
          == LinkRelation(links) + (if edges[i].source in objects then {(edges[i].source, edges[i].target)} else {})
    requires next' == next + (if Carries(edges[i], objects) && edges[i].source !in now && Expandable(objects[edges[i].source].kind)
                              then {edges[i].source} else {})
    ensures Expanding(edges, i + 1, objects, included, linked, now', links', next')
    ensures now' <= included + Carried(edges, objects)
  {
    StepEdges(edges, i, objects);
    FreshGrows(now, included, objects, edges[i]);
  }

  // One batch of edges; gives up as soon as too many objects are included.
  method Expand(edges: seq<Edge>, objects: map<Id, Object>, included: set<Id>, linked: Links)
    returns (ok: bool, included': set<Id>, linked': Links, next: set<Id>)
    requires forall e | e in edges :: e.target in objects
    requires |included| <= MAX_COMPILED_OBJECTS && included <= objects.Keys
    ensures ok <==> |included + Carried(edges, objects)| <= MAX_COMPILED_OBJECTS
    ensures ok ==> Expanding(edges, |edges|, objects, included, linked, included', linked', next)
  {
    included', linked', next := included, linked, {};
    for i := 0 to |edges|
      invariant Expanding(edges, i, objects, included, linked, included', linked', next)
      invariant |included'| <= MAX_COMPILED_OBJECTS
    {
      ghost var now, links, soon := included', linked', next;
      included', linked', next := ExpandEdge(edges[i], objects, included', linked', next);
      ExpandingStep(edges, i, objects, included, linked, now, links, soon, included', linked', next);
      if |included'| > MAX_COMPILED_OBJECTS {
        SubsetSize(included', included + Carried(edges, objects));
        return false, included', linked', next;
      }
    }
    assert edges[..|edges|] == edges;
    ok := true;
  }

  lemma StepEdges(edges: seq<Edge>, i: nat, objects: map<Id, Object>)
    requires i < |edges| && forall e | e in edges :: e.target in objects
    ensures Carried(edges[..i + 1], objects)
         == Carried(edges[..i], objects) + (if Carries(edges[i], objects) then {edges[i].source} else {})
    ensures Seen(edges[..i + 1], objects)
         == Seen(edges[..i], objects)
            + (if edges[i].source in objects then {(edges[i].source, edges[i].target)} else {})
    ensures Carried(edges[..i + 1], objects) <= Carried(edges, objects)
  {
    assert edges[..i + 1] == edges[..i] + [edges[i]];
  }

  ghost function ExpandedObjects(w: Workspace, project: string, roots: set<Id>): set<Id> {
    set x | x in Included(w, project, roots) && x in w.objects && Expandable(w.objects[x].kind)
  }

  ghost predicate WithinContextBudget(w: Workspace, project: string, roots: set<Id>) {
    && |Included(w, project, roots)| <= MAX_COMPILED_OBJECTS
    && |EdgesInto(w.edges, project, {Context}, ExpandedObjects(w, project, roots))| <= MAX_COMPILED_OBJECTS
  }

  function ExpandableIn(walked: Walked): set<Id> {
    set x | x in walked.included && x in walked.objects && Expandable(walked.objects[x].kind)
  }

  /** What the context walk knows between two batches: `expanded` is done, `expandable` is next. */
  ghost predicate ContextWalk(w: Workspace, project: string, roots: set<Id>, walked: Walked,
                              expanded: set<Id>, expandable: set<Id>, traversed: nat)
  {
    && Cached(walked.objects, w, project)
    && roots <= walked.included <= Included(w, project, roots) && walked.included <= walked.objects.Keys
    && expanded !! expandable
    && expanded + expandable == ExpandableIn(walked)
    && SourcesOf(ContentFlow(w, project), expanded) <= walked.included
    && LinkRelation(walked.linked) == Into(LinkFlow(w, project), expanded)
    && LinkedIds(walked.linked) <= walked.objects.Keys
    && traversed == |EdgesInto(w.edges, project, {Context}, expanded)|
  }

  lemma WalkedIsExpanded(w: Workspace, project: string, roots: set<Id>, walked: Walked,
                         expanded: set<Id>, expandable: set<Id>, traversed: nat)
    requires ContextWalk(w, project, roots, walked, expanded, expandable, traversed)
    ensures expanded + expandable <= ExpandedObjects(w, project, roots)
    ensures |EdgesInto(w.edges, project, {Context}, expandable)| + traversed
         <= |EdgesInto(w.edges, project, {Context}, ExpandedObjects(w, project, roots))|
  {
    QueryCountSplits(w.edges, project, {Context}, expanded, expandable);
    QueryCountGrows(w.edges, project, {Context}, expanded + expandable, ExpandedObjects(w, project, roots));
  }

  lemma ContextWalkStarts(w: Workspace, project: string, roots: set<Id>, walked: Walked)
    requires AllResolvable(w, project, roots)
    requires walked == Walked(roots, map[], Resolve(w, project, roots))
    ensures ContextWalk(w, project, roots, walked, {}, ExpandableIn(walked), 0)
  {
    ClosureIsClosed(ContentFlow(w, project), roots);
    NothingIntoNothing(w.edges, project, {Context});
  }

  // One complete batch keeps what the walk knows.
  lemma ContextWalkAdvances(w: Workspace, project: string, roots: set<Id>, walked: Walked, expanded: set<Id>,
                            expandable: set<Id>, traversed: nat, edges: seq<Edge>, after: Walked, next: set<Id>)
    requires ContextWalk(w, project, roots, walked, expanded, expandable, traversed)
    requires edges == EdgesInto(w.edges, project, {Context}, expandable)
    requires walked.objects.Keys <= after.objects.Keys && Cached(after.objects, w, project)
    requires forall e | e in edges :: e.source in after.objects <==> Resolvable(w, project, e.source)
    requires Expanding(edges, |edges|, after.objects, walked.included, walked.linked, after.included, after.linked, next)
    ensures ContextWalk(w, project, roots, after, expanded + expandable, next, traversed + |edges|)
  {
    assert edges[..|edges|] == edges;
    BatchFollowsFlow(w, project, roots, walked.included, after.objects, expandable, edges);
    QueryCountSplits(w.edges, project, {Context}, expanded, expandable);
    IntoSplits(ContentFlow(w, project), expanded, expandable);
    IntoSplits(LinkFlow(w, project), expanded, expandable);
    assert expanded + expandable + next == ExpandableIn(after);
    assert LinkedIds(after.linked) <= LinkedIds(walked.linked) + after.objects.Keys;
  }

  // One round of the walk: query, fetch, expand. Fails only when the budget is truly exceeded.
  method ExpandRound(w: Workspace, project: string, ghost roots: set<Id>, walked: Walked,
                     ghost expanded: set<Id>, expandable: set<Id>, traversed: nat)
    returns (ok: bool, after: Walked, next: set<Id>, traversed': nat)
    requires ContextWalk(w, project, roots, walked, expanded, expandable, traversed)
    requires |walked.included| <= MAX_COMPILED_OBJECTS
    ensures !ok ==> !WithinContextBudget(w, project, roots)
    ensures ok ==> ContextWalk(w, project, roots, after, expanded + expandable, next, traversed')
    ensures ok ==> traversed' <= MAX_COMPILED_OBJECTS && |after.included| <= MAX_COMPILED_OBJECTS
  {
    WalkedIsExpanded(w, project, roots, walked, expanded, expandable, traversed);
    var due := EdgesInto(w.edges, project, {Context}, expandable);
    var edges := Limit(due, MAX_COMPILED_OBJECTS + 1);
    traversed' := traversed + |edges|;
    if traversed' > MAX_COMPILED_OBJECTS {
      return false, walked, {}, traversed';
    }
    assert edges == due;
    TargetsAreExpanded(w, project, expandable, edges);
    var objects := Fetch(w, project, walked.objects, edges);
    BatchFollowsFlow(w, project, roots, walked.included, objects, expandable, edges);
    var included, linked;
    ok, included, linked, next := Expand(edges, objects, walked.included, walked.linked);
    after := Walked(included, linked, objects);
    if ok {
      ContextWalkAdvances(w, project, roots, walked, expanded, expandable, traversed, edges, after, next);
      assert edges[..|edges|] == edges;
    } else {
      SubsetSize(walked.included + Carried(edges, objects), Included(w, project, roots));
    }
  }

  method WalkContext(w: Workspace, project: string, roots: set<Id>) returns (r: Option<Walked>)
    requires AllResolvable(w, project, roots) && |roots| <= MAX_COMPILED_OBJECTS
    ensures r.Some? <==> WithinContextBudget(w, project, roots)
    ensures r.Some? ==> r.value.included == Included(w, project, roots)
    ensures r.Some? ==> LinkRelation(r.value.linked) == Into(LinkFlow(w, project), Included(w, project, roots))
    ensures r.Some? ==> Cached(r.value.objects, w, project)
    ensures r.Some? ==> r.value.included <= r.value.objects.Keys && LinkedIds(r.value.linked) <= r.value.objects.Keys
  {
    var walked := Walked(roots, map[], Resolve(w, project, roots));
    var expandable := ExpandableIn(walked);
    var traversed: nat := 0;
    ghost var expanded: set<Id> := {};
    ContextWalkStarts(w, project, roots, walked);
    while expandable != {}
      invariant ContextWalk(w, project, roots, walked, expanded, expandable, traversed)
      invariant traversed <= MAX_COMPILED_OBJECTS && |walked.included| <= MAX_COMPILED_OBJECTS
      decreases ExpandedObjects(w, project, roots) - expanded
    {
      WalkedIsExpanded(w, project, roots, walked, expanded, expandable, traversed);
      var ok, after, next, edgesSeen := ExpandRound(w, project, roots, walked, expanded, expandable, traversed);
      if !ok {
        return None;
      }
      walked, traversed, expanded, expandable := after, edgesSeen, expanded + expandable, next;
    }
    ContextWalkEnds(w, project, roots, walked, expanded, traversed);
    return Some(walked);
  }

  lemma TargetsAreExpanded(w: Workspace, project: string, targets: set<Id>, edges: seq<Edge>)
    requires edges == EdgesInto(w.edges, project, {Context}, targets)
    ensures forall e | e in edges :: e.target in targets
  {
    forall e | e in edges ensures e.target in targets {
      QueryIsFilter(w.edges, project, {Context}, targets, e);
    }
  }

  lemma ContextWalkEnds(w: Workspace, project: string, roots: set<Id>, walked: Walked, expanded: set<Id>, traversed: nat)
    requires ContextWalk(w, project, roots, walked, expanded, {}, traversed)
    ensures walked.included == Included(w, project, roots) && expanded == ExpandedObjects(w, project, roots)
    ensures LinkRelation(walked.linked) == Into(LinkFlow(w, project), Included(w, project, roots))
  {
    var rel := ContentFlow(w, project);
    assert SourcesOf(rel, walked.included) <= SourcesOf(rel, expanded);
    ClosedIfSourcesInside(rel, walked.included);
    ClosedBetween(rel, roots, walked.included);
    assert Into(LinkFlow(w, project), expanded) == Into(LinkFlow(w, project), walked.included);
  }

  lemma NothingIntoNothing(edges: seq<Edge>, project: string, families: set<Family>)
    ensures EdgesInto(edges, project, families, {}) == []
  {
    var none: set<Id> := {};
    QueryCountSplits(edges, project, families, none, none);
    assert none + none == none;
  }

  // What one complete batch sees and carries, in terms of the flow relations.
  lemma BatchFollowsFlow(w: Workspace, project: string, roots: set<Id>, included: set<Id>,
                         objects: map<Id, Object>, expandable: set<Id>, edges: seq<Edge>)
    requires Cached(objects, w, project) && expandable <= included <= objects.Keys
    requires included <= Included(w, project, roots)
    requires forall x | x in expandable :: Expandable(objects[x].kind)
    requires edges == EdgesInto(w.edges, project, {Context}, expandable)
    requires forall e | e in edges :: e.source in objects <==> Resolvable(w, project, e.source)
    ensures Seen(edges, objects) == Into(LinkFlow(w, project), expandable)
    ensures Carried(edges, objects) == SourcesOf(ContentFlow(w, project), expandable)
    ensures Carried(edges, objects) <= Included(w, project, roots) && Carried(edges, objects) <= objects.Keys
  {
    QueryFollowsFlow(w, project, {Context}, expandable);
    TargetsAreExpanded(w, project, expandable, edges);
    assert Seen(edges, objects) == set e | e in edges && Resolvable(w, project, e.source) :: (e.source, e.target);
    assert Into(Flow(w, project, {Context}), expandable) == Into(LinkFlow(w, project), expandable);
    CarriedOfSeen(edges, objects, w, project, expandable);
    SourcesStayInside(ContentFlow(w, project), roots, expandable);
  }

  lemma CarriedOfSeen(edges: seq<Edge>, objects: map<Id, Object>, w: Workspace, project: string, expandable: set<Id>)
    requires Cached(objects, w, project) && forall e | e in edges :: e.target in objects
    requires Seen(edges, objects) == Into(LinkFlow(w, project), expandable)
    ensures Carried(edges, objects) == SourcesOf(ContentFlow(w, project), expandable)
  {
    forall x | x in Carried(edges, objects) ensures x in SourcesOf(ContentFlow(w, project), expandable) {
      var e :| e in edges && e.source in objects && !objects[e.target].kind.ContextBridge? && e.source == x;
      assert (e.source, e.target) in Seen(edges, objects);
    }
    forall x | x in SourcesOf(ContentFlow(w, project), expandable) ensures x in Carried(edges, objects) {
      var p :| p in ContentFlow(w, project) && p.1 in expandable && p.0 == x;
      assert p in Into(LinkFlow(w, project), expandable);
    }
  }

  /// Walks 2 and 3: provenance, and the ancestry behind bridges.

  /** An ancestry walk between two rounds: `visited` is done, `frontier` is next, nothing else is known yet. */
  ghost predicate AncestryWalk(rel: Relation, start: set<Id>, visited: set<Id>, frontier: set<Id>) {
    && visited !! frontier
    && visited + frontier == start + SourcesOf(rel, visited)
    && visited + frontier <= Closure(rel, start)
  }

  lemma AncestryWalkStarts(rel: Relation, start: set<Id>)
    ensures AncestryWalk(rel, start, {}, start)
  {
    ClosureIsClosed(rel, start);
  }

  lemma AncestryWalkAdvances(rel: Relation, start: set<Id>, visited: set<Id>, frontier: set<Id>)
    requires AncestryWalk(rel, start, visited, frontier)
    ensures AncestryWalk(rel, start, visited + frontier, SourcesOf(rel, frontier) - (visited + frontier))
    ensures start + SourcesOf(rel, visited + frontier) <= Closure(rel, start)
  {
    IntoSplits(rel, visited, frontier);
    SourcesStayInside(rel, start, visited + frontier);
    ClosureIsClosed(rel, start);
  }

  lemma AncestryWalkEnds(rel: Relation, start: set<Id>, visited: set<Id>)
    requires AncestryWalk(rel, start, visited, {})
    ensures visited == Closure(rel, start) == start + SourcesOf(rel, visited)
  {
    assert visited == visited + {};
    ClosedIfSourcesInside(rel, visited);
    ClosedBetween(rel, start, visited);
  }

  function QueriedSources(edges: seq<Edge>): set<Id> {
    set e | e in edges :: e.source
  }

  lemma QueriedSourcesGrow(w: Workspace, project: string, families: set<Family>, a: set<Id>, b: set<Id>)
    requires a <= b
    ensures QueriedSources(EdgesInto(w.edges, project, families, a)) <= QueriedSources(EdgesInto(w.edges, project, families, b))
  {
    var qa, qb := EdgesInto(w.edges, project, families, a), EdgesInto(w.edges, project, families, b);
    forall e | e in qa ensures e in qb {
      QueryIsFilter(w.edges, project, families, a, e);
      QueryIsFilter(w.edges, project, families, b, e);
    }
  }

  /** The sources known after a complete query are those of the flow. */
  lemma SeenFollowsFlow(w: Workspace, project: string, families: set<Family>, targets: set<Id>,
                        edges: seq<Edge>, objects: map<Id, Object>)
    requires edges == EdgesInto(w.edges, project, families, targets)
    requires forall e | e in edges :: e.source in objects <==> Resolvable(w, project, e.source)
    ensures Seen(edges, objects) == Into(Flow(w, project, families), targets)
    ensures QueriedSources(edges) * objects.Keys == SourcesOf(Flow(w, project, families), targets)
  {
    var flow := Flow(w, project, families);
    QueryFollowsFlow(w, project, families, targets);
    assert Seen(edges, objects) == set e | e in edges && Resolvable(w, project, e.source) :: (e.source, e.target);
    forall x | x in SourcesOf(flow, targets) ensures x in QueriedSources(edges) * objects.Keys {
      var p :| p in flow && p.1 in targets && p.0 == x;
      assert p in Into(flow, targets);
    }
    forall x | x in QueriedSources(edges) * objects.Keys ensures x in SourcesOf(flow, targets) {
      var e :| e in edges && e.source == x;
      assert (e.source, e.target) in Seen(edges, objects);
    }
  }

  ghost predicate WithinProvenanceBudget(w: Workspace, project: string, included: set<Id>) {
    var all := Closure(ProvenanceFlow(w, project), included);
    var edges := EdgesInto(w.edges, project, {Provenance}, all);
    |edges| <= MAX_COMPILED_OBJECTS && |all + QueriedSources(edges)| <= MAX_COMPILED_OBJECTS
  }

  datatype Derived = Derived(ids: set<Id>, sources: Links, objects: map<Id, Object>)

  // Records every resolvable source of one batch.
  method Collect(edges: seq<Edge>, objects: map<Id, Object>, sources: Links) returns (sources': Links, next: set<Id>)
    ensures LinkRelation(sources') == LinkRelation(sources) + Seen(edges, objects)
    ensures next == QueriedSources(edges) * objects.Keys
  {
    sources', next := sources, {};
    for i := 0 to |edges|
      invariant LinkRelation(sources') == LinkRelation(sources) + Seen(edges[..i], objects)
      invariant next == QueriedSources(edges[..i]) * objects.Keys
    {
      var e := edges[i];
      assert edges[..i + 1] == edges[..i] + [e];
      if e.source in objects {
        AddLinkAddsPair(sources', e.target, e.source);
        sources', next := AddLink(sources', e.target, e.source), next + {e.source};
      }
    }
    assert edges[..|edges|] == edges;
  }

  ghost predicate ProvenanceWalk(w: Workspace, project: string, included: set<Id>, visited: set<Id>, found: Derived) {
    var rel := ProvenanceFlow(w, project);
    && found.ids == SourcesOf(rel, visited)
    && LinkRelation(found.sources) == Into(rel, visited)
    && Cached(found.objects, w, project) && included <= found.objects.Keys && found.ids <= found.objects.Keys
  }

  method ProvenanceRound(w: Workspace, project: string, included: set<Id>, ghost visited: set<Id>, targets: set<Id>, found: Derived)
    returns (ok: bool, after: Derived, next: set<Id>)
    requires ProvenanceWalk(w, project, included, visited, found)
    requires AncestryWalk(ProvenanceFlow(w, project), included, visited, targets)
    ensures !ok ==> !WithinProvenanceBudget(w, project, included)
    ensures ok ==> ProvenanceWalk(w, project, included, visited + targets, after)
    ensures ok ==> next == SourcesOf(ProvenanceFlow(w, project), targets)
    ensures ok ==> found.objects.Keys <= after.objects.Keys
    ensures ok ==> |included + after.ids| <= MAX_COMPILED_OBJECTS
  {
    ghost var rel := ProvenanceFlow(w, project);
    ghost var all := Closure(rel, included);
    ghost var every := EdgesInto(w.edges, project, {Provenance}, all);
    AncestryWalkAdvances(rel, included, visited, targets);
    IntoSplits(rel, visited, targets);
    QueryCountGrows(w.edges, project, {Provenance}, targets, all);
    QueriedSourcesGrow(w, project, {Provenance}, targets, all);
    var due := EdgesInto(w.edges, project, {Provenance}, targets);
    var edges := Limit(due, MAX_COMPILED_OBJECTS + 1);
    if |edges| > MAX_COMPILED_OBJECTS {
      return false, found, {};
    }
    if |included + found.ids + QueriedSources(edges)| > MAX_COMPILED_OBJECTS {
      SubsetSize(included + found.ids + QueriedSources(edges), all + QueriedSources(every));
      return false, found, {};
    }
    assert edges == due;
    var objects := Fetch(w, project, found.objects, edges);
    SeenFollowsFlow(w, project, {Provenance}, targets, edges, objects);
    var sources;
    sources, next := Collect(edges, objects, found.sources);
    after := Derived(found.ids + next, sources, objects);
    ok := |included + after.ids| <= MAX_COMPILED_OBJECTS;
    SubsetSize(included + after.ids, included + found.ids + QueriedSources(edges));
  }

  method WalkProvenance(w: Workspace, project: string, included: set<Id>, objects: map<Id, Object>)
    returns (r: Option<Derived>)
    requires Cached(objects, w, project) && included <= objects.Keys && |included| <= MAX_COMPILED_OBJECTS
    ensures r.None? ==> !WithinProvenanceBudget(w, project, included)
    ensures r.Some? ==> ProvenanceWalk(w, project, included, Closure(ProvenanceFlow(w, project), included), r.value)
    ensures r.Some? ==> |Closure(ProvenanceFlow(w, project), included)| <= MAX_COMPILED_OBJECTS
    ensures r.Some? ==> objects.Keys <= r.value.objects.Keys
  {
    ghost var rel := ProvenanceFlow(w, project);
    var found := Derived({}, map[], objects);
    var frontier, visited: set<Id> := included, {};
    AncestryWalkStarts(rel, included);
    while frontier != {}
      invariant AncestryWalk(rel, included, visited, frontier)
      invariant ProvenanceWalk(w, project, included, visited, found)
      invariant |included + found.ids| <= MAX_COMPILED_OBJECTS && objects.Keys <= found.objects.Keys
      decreases Closure(rel, included) - visited
    {
      // The frontier never meets what was visited, so it is the whole target set of the query.
      var ok, after, next := ProvenanceRound(w, project, included, visited, frontier, found);
      if !ok {
        return None;
      }
      AncestryWalkAdvances(rel, included, visited, frontier);
      visited := visited + frontier;
      found, frontier := after, next - visited;
    }
    AncestryWalkEnds(rel, included, visited);
    return Some(found);
  }

  ghost predicate WithinBridgeBudget(w: Workspace, project: string, known: set<Id>, bridged: set<Id>) {
    var all := Closure(AncestryFlow(w, project), bridged);
    var edges := EdgesInto(w.edges, project, ANCESTRY, all);
    |edges| <= MAX_COMPILED_OBJECTS && |known + all + QueriedSources(edges)| <= MAX_COMPILED_OBJECTS
  }

  // What one more round can cost never exceeds what the whole ancestry costs.
  lemma BridgeRoundFits(w: Workspace, project: string, known: set<Id>, bridged: set<Id>, visited: set<Id>, targets: set<Id>)
    requires AncestryWalk(AncestryFlow(w, project), bridged, visited, targets)
    requires WithinBridgeBudget(w, project, known, bridged)
    ensures |EdgesInto(w.edges, project, ANCESTRY, visited)|
            + |EdgesInto(w.edges, project, ANCESTRY, targets)| <= MAX_COMPILED_OBJECTS
    ensures |known + (visited + targets) + QueriedSources(EdgesInto(w.edges, project, ANCESTRY, targets))|
         <= MAX_COMPILED_OBJECTS
    ensures |known + (visited + targets)| <= MAX_COMPILED_OBJECTS
  {
    var families := ANCESTRY;
    var all := Closure(AncestryFlow(w, project), bridged);
    var everything := known + all + QueriedSources(EdgesInto(w.edges, project, families, all));
    QueryCountSplits(w.edges, project, families, visited, targets);
    QueryCountGrows(w.edges, project, families, visited + targets, all);
    QueriedSourcesGrow(w, project, families, targets, all);
    SubsetSize(known + (visited + targets), everything);
    SubsetSize(known + (visited + targets) + QueriedSources(EdgesInto(w.edges, project, families, targets)), everything);
  }

  datatype Bridged = Bridged(ancestry: set<Id>, objects: map<Id, Object>, traversed: nat)

  ghost predicate BridgeWalk(w: Workspace, project: string, cached: set<Id>, visited: set<Id>, frontier: set<Id>, found: Bridged) {
    && found.ancestry == visited + frontier
    && Cached(found.objects, w, project) && cached <= found.objects.Keys && found.ancestry <= found.objects.Keys
    && found.traversed == |EdgesInto(w.edges, project, ANCESTRY, visited)|
  }

  lemma BridgeWalkAdvances(w: Workspace, project: string, known: set<Id>, cached: set<Id>, bridged: set<Id>, visited: set<Id>,
                           targets: set<Id>, found: Bridged, due: seq<Edge>, objects: map<Id, Object>, after: Bridged)
    requires AncestryWalk(AncestryFlow(w, project), bridged, visited, targets)
    requires BridgeWalk(w, project, cached, visited, targets, found)
    requires due == EdgesInto(w.edges, project, ANCESTRY, targets)
    requires Cached(objects, w, project) && found.objects.Keys <= objects.Keys
    requires forall e | e in due :: e.source in objects <==> Resolvable(w, project, e.source)
    requires after == Bridged(found.ancestry + QueriedSources(due) * objects.Keys, objects, found.traversed + |due|)
    ensures QueriedSources(due) * objects.Keys == SourcesOf(AncestryFlow(w, project), targets)
    ensures BridgeWalk(w, project, cached, visited + targets, QueriedSources(due) * objects.Keys - (visited + targets), after)
    ensures |known + after.ancestry| <= |known + found.ancestry + QueriedSources(due)|
  {
    SeenFollowsFlow(w, project, ANCESTRY, targets, due, objects);
    QueryCountSplits(w.edges, project, ANCESTRY, visited, targets);
    FrontierMoves(visited, targets, QueriedSources(due) * objects.Keys);
    KnownGrows(known, found.ancestry, QueriedSources(due), objects.Keys);
  }

  lemma FrontierMoves(visited: set<Id>, targets: set<Id>, next: set<Id>)
    ensures (visited + targets) + next == (visited + targets) + (next - (visited + targets))
  {
  }

  lemma KnownGrows(known: set<Id>, ancestry: set<Id>, sources: set<Id>, keys: set<Id>)
    ensures |known + (ancestry + sources * keys)| <= |known + ancestry + sources|
  {
    SubsetSize(known + (ancestry + sources * keys), known + ancestry + sources);
  }

  method BridgeRound(w: Workspace, project: string, known: set<Id>, ghost cached: set<Id>, ghost bridged: set<Id>,
                     ghost visited: set<Id>, targets: set<Id>, found: Bridged)
    returns (ok: bool, next: set<Id>, after: Bridged)
    requires AncestryWalk(AncestryFlow(w, project), bridged, visited, targets)
    requires BridgeWalk(w, project, cached, visited, targets, found)
    ensures !ok ==> !WithinBridgeBudget(w, project, known, bridged)
    ensures ok ==> next == SourcesOf(AncestryFlow(w, project), targets)
    ensures ok ==> BridgeWalk(w, project, cached, visited + targets, next - (visited + targets), after)
    ensures ok ==> |known + after.ancestry| <= MAX_COMPILED_OBJECTS
  {
    next, after := {}, found;
    var due := EdgesInto(w.edges, project, ANCESTRY, targets);
    var edges := Limit(due, MAX_COMPILED_OBJECTS + 1);
    ok := found.traversed + |edges| <= MAX_COMPILED_OBJECTS
          && |known + found.ancestry + QueriedSources(edges)| <= MAX_COMPILED_OBJECTS;
    if ok {
      assert edges == due;
      var objects := Fetch(w, project, found.objects, edges);
      next := QueriedSources(edges) * objects.Keys;
      after := Bridged(found.ancestry + next, objects, found.traversed + |edges|);
      BridgeWalkAdvances(w, project, known, cached, bridged, visited, targets, found, due, objects, after);
    } else {
      BridgeBudgetExceeded(w, project, known, cached, bridged, visited, targets, found, due, edges);
    }
  }

  lemma BridgeBudgetExceeded(w: Workspace, project: string, known: set<Id>, cached: set<Id>, bridged: set<Id>, visited: set<Id>,
                             targets: set<Id>, found: Bridged, due: seq<Edge>, edges: seq<Edge>)
    requires AncestryWalk(AncestryFlow(w, project), bridged, visited, targets)
    requires BridgeWalk(w, project, cached, visited, targets, found)
    requires due == EdgesInto(w.edges, project, ANCESTRY, targets) && edges == Limit(due, MAX_COMPILED_OBJECTS + 1)
    requires found.traversed + |edges| > MAX_COMPILED_OBJECTS
          || |known + found.ancestry + QueriedSources(edges)| > MAX_COMPILED_OBJECTS
    ensures !WithinBridgeBudget(w, project, known, bridged)
  {
    if WithinBridgeBudget(w, project, known, bridged) {
      BridgeRoundFits(w, project, known, bridged, visited, targets);
    }
  }

  lemma BridgeWalkStarts(w: Workspace, project: string, known: set<Id>, cached: set<Id>, bridged: set<Id>, found: Bridged)
    requires found == Bridged(bridged, found.objects, 0)
    requires Cached(found.objects, w, project) && cached <= found.objects.Keys && bridged <= found.objects.Keys
    ensures AncestryWalk(AncestryFlow(w, project), bridged, {}, bridged)
    ensures BridgeWalk(w, project, cached, {}, bridged, found)
    ensures WithinBridgeBudget(w, project, known, bridged) ==> |known + bridged| <= MAX_COMPILED_OBJECTS
  {
    AncestryWalkStarts(AncestryFlow(w, project), bridged);
    NothingIntoNothing(w.edges, project, ANCESTRY);
    if WithinBridgeBudget(w, project, known, bridged) {
      BridgeRoundFits(w, project, known, bridged, {}, bridged);
      SubsetSize(known + bridged, known + ({} + bridged));
    }
  }

  method WalkBridges(w: Workspace, project: string, known: set<Id>, bridged: set<Id>, objects: map<Id, Object>)
    returns (r: Option<Bridged>)
    requires Cached(objects, w, project) && bridged <= objects.Keys
    ensures r.None? ==> !WithinBridgeBudget(w, project, known, bridged)
    ensures r.Some? ==> r.value.ancestry == Closure(AncestryFlow(w, project), bridged)
    ensures r.Some? ==> Cached(r.value.objects, w, project) && objects.Keys <= r.value.objects.Keys && r.value.ancestry <= r.value.objects.Keys
    ensures r.Some? ==> |known + r.value.ancestry| <= MAX_COMPILED_OBJECTS
  {
    ghost var rel := AncestryFlow(w, project);
    var frontier, visited: set<Id> := bridged, {};
    var found := Bridged(bridged, objects, 0);
    BridgeWalkStarts(w, project, known, objects.Keys, bridged, found);
    if |known + bridged| > MAX_COMPILED_OBJECTS {
      return None;
    }
    while frontier != {}
      invariant AncestryWalk(rel, bridged, visited, frontier)
      invariant BridgeWalk(w, project, objects.Keys, visited, frontier, found)
      invariant |known + found.ancestry| <= MAX_COMPILED_OBJECTS
      decreases Closure(rel, bridged) - visited
    {
      var fits, next, after := BridgeRound(w, project, known, objects.Keys, bridged, visited, frontier, found);
      if !fits {
        return None;
      }
      AncestryWalkAdvances(rel, bridged, visited, frontier);
      visited := visited + frontier;
      found, frontier := after, next - visited;
    }
    AncestryWalkEnds(rel, bridged, visited);
    return Some(found);
  }
}
