/** `WorkspaceContextCompiler.compile` (app/memory/context_compiler.py:99-471). */
module ContextCompiler {
  import opened Wrappers
  import opened Privacy
  import opened Reachability
  import opened WorkspaceGraph
  import opened LayeredOrder
  import opened ContextWalks

  datatype CompileError =
    | TooManyObjects
    | NotFound
    | UnsupportedPrivacy(id: Id)
    | InvalidCapabilities(id: Id)
    | PromptTooLong

  datatype ManifestEntry = ManifestEntry(id: Id, kind: Kind, selectedByUser: bool, sources: set<Id>)

  datatype Compiled = Compiled(
    manifest: seq<ManifestEntry>,
    prompt: string,
    privacy: Option<Label>,
    privacySources: seq<(Id, Level)>,
    capabilities: set<string>,
    flags: set<Flag>)

  /// Joining what the objects require.

  datatype Requirements = Requirements(
    privacy: Option<Label>, sources: seq<(Id, Level)>, capabilities: set<string>, flags: set<Flag>)

  function Elements(q: seq<Id>): set<Id> {
    set x | x in q
  }

  /** The first metadata error of an object, if any; capabilities matter only for included objects. */
  function Fault(objects: map<Id, Object>, x: Id, included: set<Id>): Option<CompileError>
    requires x in objects
  {
    if Classification(objects[x]).Malformed? then Some(UnsupportedPrivacy(x))
    else if x in included && (objects[x].capabilities.Malformed? || objects[x].flags.Malformed?) then Some(InvalidCapabilities(x))
    else None
  }

  function ClassifiedSources(objects: map<Id, Object>, ids: seq<Id>): seq<(Id, Level)>
    requires forall x | x in ids :: x in objects
  {
    if ids == [] then []
    else
      var x := ids[|ids| - 1];
      ClassifiedSources(objects, ids[..|ids| - 1])
      + (if Classification(objects[x]).Present? then [(x, Classification(objects[x]).value)] else [])
  }

  ghost function RequiredCapabilities(objects: map<Id, Object>, ids: set<Id>): set<string>
    requires ids <= objects.Keys
  {
    set x, c | x in ids && objects[x].capabilities.Present? && c in objects[x].capabilities.value :: c
  }

  ghost function RequiredFlags(objects: map<Id, Object>, ids: set<Id>): set<Flag>
    requires ids <= objects.Keys
  {
    set x, f | x in ids && objects[x].flags.Present? && f in objects[x].flags.value :: f
  }

  ghost predicate Joined(r: Requirements, objects: map<Id, Object>, ids: seq<Id>, included: set<Id>)
    requires forall x | x in ids :: x in objects
  {
    && IsJoin(r.privacy, Levels(objects, Elements(ids)))
    && r.sources == ClassifiedSources(objects, ids)
    && r.capabilities == RequiredCapabilities(objects, Elements(ids) * included)
    && r.flags == RequiredFlags(objects, Elements(ids) * included)
  }

  function Values<T>(f: Field<set<T>>): set<T> {
    if f.Present? then f.value else {}
  }

  function JoinOne(r: Requirements, o: Object, x: Id, included: set<Id>): Requirements {
    var c := Classification(o);
    var labelled := if c.Present? then r.(privacy := Stricter(r.privacy, Some(Known(c.value))), sources := r.sources + [(x, c.value)]) else r;
    if x in included then
      labelled.(capabilities := r.capabilities + Values(o.capabilities), flags := r.flags + Values(o.flags))
    else labelled
  }

  lemma LevelsExtend(objects: map<Id, Object>, ids: set<Id>, x: Id)
    requires ids + {x} <= objects.Keys
    ensures Levels(objects, ids + {x})
         == Levels(objects, ids) + (if Classification(objects[x]).Present? then {Classification(objects[x]).value} else {})
  {
  }

  lemma CapabilitiesExtend(objects: map<Id, Object>, ids: set<Id>, x: Id)
    requires ids + {x} <= objects.Keys
    ensures RequiredCapabilities(objects, ids + {x}) == RequiredCapabilities(objects, ids) + Values(objects[x].capabilities)
  {
  }

  lemma FlagsExtend(objects: map<Id, Object>, ids: set<Id>, x: Id)
    requires ids + {x} <= objects.Keys
    ensures RequiredFlags(objects, ids + {x}) == RequiredFlags(objects, ids) + Values(objects[x].flags)
  {
  }

  lemma OneMoreId(ids: seq<Id>, x: Id, included: set<Id>)
    ensures Elements(ids + [x]) == Elements(ids) + {x}
    ensures Elements(ids + [x]) * included == if x in included then Elements(ids) * included + {x} else Elements(ids) * included
  {
    assert Elements(ids + [x]) == Elements(ids) + {x};
  }

  lemma JoinOneJoins(r: Requirements, objects: map<Id, Object>, ids: seq<Id>, included: set<Id>, x: Id)
    requires (forall y | y in ids :: y in objects) && x in objects
    requires Joined(r, objects, ids, included)
    ensures Joined(JoinOne(r, objects[x], x, included), objects, ids + [x], included)
  {
    var all := ids + [x];
    assert all[..|all| - 1] == ids;
    OneMoreId(ids, x, included);
    var now := Elements(ids) * included;
    assert now <= objects.Keys;
    LevelsExtend(objects, Elements(ids), x);
    CapabilitiesExtend(objects, now, x);
    FlagsExtend(objects, now, x);
    if Classification(objects[x]).Present? {
      JoinExtends(r.privacy, Levels(objects, Elements(ids)), Classification(objects[x]).value);
    }
  }

  method JoinRequirements(objects: map<Id, Object>, ids: seq<Id>, included: set<Id>)
    returns (r: Result<Requirements, CompileError>)
    requires forall x | x in ids :: x in objects
    ensures r.Ok? ==> Joined(r.value, objects, ids, included) && forall x | x in ids :: Fault(objects, x, included) == None
    ensures r.Err? ==> exists k :: 0 <= k < |ids| && Fault(objects, ids[k], included) == Some(r.error)
                                && forall i | 0 <= i < k :: Fault(objects, ids[i], included) == None
  {
    var acc := Requirements(None, [], {}, {});
    for k := 0 to |ids|
      invariant Joined(acc, objects, ids[..k], included)
      invariant forall i | 0 <= i < k :: Fault(objects, ids[i], included) == None
    {
      var fault := Fault(objects, ids[k], included);
      if fault.Some? {
        return Err(fault.value);
      }
      JoinOneJoins(acc, objects, ids[..k], included, ids[k]);
      assert ids[..k] + [ids[k]] == ids[..k + 1];
      acc := JoinOne(acc, objects[ids[k]], ids[k], included);
    }
    assert ids[..|ids|] == ids;
    return Ok(acc);
  }

  /// The compiler.

  function JoinBlocks(blocks: seq<string>): string {
    if blocks == [] then ""
    else if |blocks| == 1 then blocks[0]
    else blocks[0] + "\n\n" + JoinBlocks(blocks[1..])
  }

  ghost function CreationTimes(w: Workspace, ids: set<Id>): map<Id, int>
    requires ids <= w.objects.Keys
  {
    map x | x in ids :: w.objects[x].createdAt
  }

  /** The included objects in the order they are laid out. */
  ghost function LaidOut(w: Workspace, project: string, roots: set<Id>): seq<Id>
    requires Included(w, project, roots) <= w.objects.Keys
  {
    var included := Included(w, project, roots);
    Layers(included, Into(LinkFlow(w, project), included), CreationTimes(w, included))
  }

  ghost function ManifestOf(w: Workspace, project: string, roots: set<Id>, x: Id): ManifestEntry
    requires x in w.objects
  {
    var links := Into(LinkFlow(w, project), Included(w, project, roots));
    ManifestEntry(x, w.objects[x].kind, x in roots, SourcesOf(links, {x}) + SourcesOf(ProvenanceFlow(w, project), {x}))
  }

  ghost function Blocks(w: Workspace, ids: seq<Id>): seq<string>
    requires forall x | x in ids :: x in w.objects
  {
    seq(|ids|, i requires 0 <= i < |ids| => w.objects[ids[i]].text)
  }

  ghost function Manifest(w: Workspace, project: string, roots: set<Id>, ids: seq<Id>): seq<ManifestEntry>
    requires forall x | x in ids :: x in w.objects
  {
    seq(|ids|, i requires 0 <= i < |ids| => ManifestOf(w, project, roots, ids[i]))
  }

  /** The privacy requirement of a selection: the join of what contributes to it. */
  ghost predicate RequirementFor(w: Workspace, project: string, roots: set<Id>, required: Option<Label>) {
    && PrivacySet(w, project, roots) <= w.objects.Keys
    && IsJoin(required, Levels(w.objects, PrivacySet(w, project, roots)))
  }

  /** The routing requirements a selection carries. */
  ghost predicate Requires(w: Workspace, project: string, roots: set<Id>, r: Requirements) {
    var included, contributing := Included(w, project, roots), PrivacySet(w, project, roots);
    && RequirementFor(w, project, roots, r.privacy) && included <= w.objects.Keys
    && (forall x :: x in Listing(contributing, SameTime(contributing)) ==> x in w.objects)
    && r.sources == ClassifiedSources(w.objects, Listing(contributing, SameTime(contributing)))
    && r.capabilities == RequiredCapabilities(w.objects, included)
    && r.flags == RequiredFlags(w.objects, included)
  }

  /** What a successful compilation of a selection is. */
  ghost predicate Describes(w: Workspace, project: string, roots: set<Id>, c: Compiled) {
    && Included(w, project, roots) <= w.objects.Keys
    && (forall x | x in LaidOut(w, project, roots) :: x in w.objects)
    && c.manifest == Manifest(w, project, roots, LaidOut(w, project, roots))
    && c.prompt == JoinBlocks(Blocks(w, LaidOut(w, project, roots)))
    && Requires(w, project, roots, Requirements(c.privacy, c.privacySources, c.capabilities, c.flags))
  }

  ghost function SameTime(ids: set<Id>): map<Id, int> {
    map x | x in ids :: 0
  }

  ghost predicate WithinBudget(w: Workspace, project: string, roots: set<Id>) {
    var included := Included(w, project, roots);
    && |roots| <= MAX_COMPILED_OBJECTS
    && WithinContextBudget(w, project, roots)
    && WithinProvenanceBudget(w, project, included)
    && WithinBridgeBudget(w, project, ProvenanceAncestry(w, project, roots), BridgeSources(w, project, roots))
  }

  // What is included, with its provenance ancestry and everything behind its bridges, is at most 200 objects.
  ghost predicate WithinObjectLimit(w: Workspace, project: string, roots: set<Id>) {
    |ProvenanceAncestry(w, project, roots) + BridgeAncestry(w, project, roots)| <= MAX_COMPILED_OBJECTS
  }

  // So is what is shown, which is part of it.
  lemma IncludedIsWithinLimit(w: Workspace, project: string, roots: set<Id>)
    requires WithinObjectLimit(w, project, roots)
    ensures |Included(w, project, roots)| <= MAX_COMPILED_OBJECTS
  {
    ClosureIsClosed(ProvenanceFlow(w, project), Included(w, project, roots));
    SubsetSize(Included(w, project, roots), ProvenanceAncestry(w, project, roots) + BridgeAncestry(w, project, roots));
  }

  /** Why a compilation may be refused. */
  ghost predicate Explains(w: Workspace, project: string, roots: set<Id>, maxChars: nat, e: CompileError) {
    match e
    case TooManyObjects => !WithinBudget(w, project, roots)
    case NotFound => !AllResolvable(w, project, roots)
    case PromptTooLong =>
      AllResolvable(w, project, roots) && exists c :: Describes(w, project, roots, c) && |c.prompt| > maxChars
    case UnsupportedPrivacy(x) => FaultAt(w, project, roots, x, e)
    case InvalidCapabilities(x) => FaultAt(w, project, roots, x, e)
  }

  /** Everything the walks find out about a selection. */
  datatype Gathered = Gathered(
    included: set<Id>, linked: Links, provenance: Links, contributing: set<Id>, objects: map<Id, Object>)

  ghost predicate Gathers(w: Workspace, project: string, roots: set<Id>, g: Gathered) {
    && g.included == Included(w, project, roots)
    && LinkRelation(g.linked) == Into(LinkFlow(w, project), g.included)
    && LinkRelation(g.provenance) == Into(ProvenanceFlow(w, project), ProvenanceAncestry(w, project, roots))
    && g.contributing == PrivacySet(w, project, roots)
    && Cached(g.objects, w, project) && g.contributing <= g.objects.Keys
  }

  // The sources linked to a bridge, over the recorded links.
  function BridgedSources(linked: Links, objects: map<Id, Object>): set<Id> {
    set p | p in LinkRelation(linked) && p.1 in objects && objects[p.1].kind.ContextBridge? :: p.0
  }

  lemma BridgedSourcesFollowFlow(w: Workspace, project: string, roots: set<Id>, linked: Links, objects: map<Id, Object>)
    requires LinkRelation(linked) == Into(LinkFlow(w, project), Included(w, project, roots))
    requires Cached(objects, w, project) && Included(w, project, roots) <= objects.Keys
    ensures BridgedSources(linked, objects) == BridgeSources(w, project, roots)
    ensures LinkedIds(linked) == LinkedSources(w, project, roots)
    ensures BridgedSources(linked, objects) <= LinkedIds(linked)
  {
    var flow, included := LinkFlow(w, project), Included(w, project, roots);
    forall p | p in flow && p.1 in included ensures p in LinkRelation(linked) {
      assert p in Into(flow, included);
    }
  }

  // The three walks together find exactly what the selection means.
  lemma WalksGather(w: Workspace, project: string, roots: set<Id>, walked: Walked, derived: Derived, bridged: Bridged)
    requires walked.included == Included(w, project, roots)
    requires LinkRelation(walked.linked) == Into(LinkFlow(w, project), walked.included)
    requires LinkedIds(walked.linked) == LinkedSources(w, project, roots)
    requires ProvenanceWalk(w, project, walked.included, ProvenanceAncestry(w, project, roots), derived)
    requires bridged.ancestry == BridgeAncestry(w, project, roots)
    requires Cached(bridged.objects, w, project) && LinkedIds(walked.linked) <= bridged.objects.Keys
    requires derived.objects.Keys <= bridged.objects.Keys && bridged.ancestry <= bridged.objects.Keys
    ensures walked.included + derived.ids == ProvenanceAncestry(w, project, roots)
    ensures Gathers(w, project, roots, Gathered(walked.included, walked.linked, derived.sources,
              walked.included + LinkedIds(walked.linked) + derived.ids + bridged.ancestry, bridged.objects))
  {
    AncestryIsStartAndSources(ProvenanceFlow(w, project), walked.included);
  }

  method Gather(w: Workspace, project: string, roots: set<Id>) returns (r: Option<Gathered>)
    requires AllResolvable(w, project, roots) && |roots| <= MAX_COMPILED_OBJECTS
    ensures r.None? ==> !WithinBudget(w, project, roots)
    ensures r.Some? ==> WithinContextBudget(w, project, roots) && WithinObjectLimit(w, project, roots)
    ensures r.Some? ==> Gathers(w, project, roots, r.value)
  {
    var context := WalkContext(w, project, roots);
    if context.None? {
      return None;
    }
    var walked := context.value;
    assert walked.included == Included(w, project, roots);
    var provenance := WalkProvenance(w, project, walked.included, walked.objects);
    if provenance.None? {
      return None;
    }
    var derived := provenance.value;
    var bridgeSources := BridgedSources(walked.linked, derived.objects);
    BridgedSourcesFollowFlow(w, project, roots, walked.linked, derived.objects);
    AncestryIsStartAndSources(ProvenanceFlow(w, project), walked.included);
    var known := walked.included + derived.ids;
    assert known == ProvenanceAncestry(w, project, roots);
    var ancestry := WalkBridges(w, project, known, bridgeSources, derived.objects);
    if ancestry.None? {
      return None;
    }
    var bridged := ancestry.value;
    WalksGather(w, project, roots, walked, derived, bridged);
    return Some(Gathered(walked.included, walked.linked, derived.sources,
                         walked.included + LinkedIds(walked.linked) + derived.ids + bridged.ancestry, bridged.objects));
  }

  lemma AncestryIsStartAndSources(rel: Relation, start: set<Id>)
    ensures Closure(rel, start) == start + SourcesOf(rel, Closure(rel, start))
  {
    var all := start + SourcesOf(rel, Closure(rel, start));
    ClosureIsClosed(rel, start);
    SourcesStayInside(rel, start, Closure(rel, start));
    ClosureIsLeast(rel, start, all);
  }

  // Renders the objects in order and lists where each came from.
  method Render(w: Workspace, project: string, roots: set<Id>, g: Gathered, ordered: seq<Id>)
    returns (blocks: seq<string>, manifest: seq<ManifestEntry>)
    requires Gathers(w, project, roots, g) && forall x | x in ordered :: x in g.included
    requires g.included <= g.objects.Keys
    ensures |blocks| == |manifest| == |ordered|
    ensures forall i | 0 <= i < |ordered| ::
      ordered[i] in w.objects && blocks[i] == w.objects[ordered[i]].text && manifest[i] == ManifestOf(w, project, roots, ordered[i])
  {
    blocks, manifest := [], [];
    for k := 0 to |ordered|
      invariant |blocks| == |manifest| == k
      invariant forall i | 0 <= i < k ::
        ordered[i] in w.objects && blocks[i] == w.objects[ordered[i]].text && manifest[i] == ManifestOf(w, project, roots, ordered[i])
    {
      var block, entry := RenderOne(w, project, roots, g, ordered[k]);
      blocks, manifest := blocks + [block], manifest + [entry];
    }
  }

  method RenderOne(w: Workspace, project: string, roots: set<Id>, g: Gathered, x: Id) returns (block: string, entry: ManifestEntry)
    requires Gathers(w, project, roots, g) && x in g.included && g.included <= g.objects.Keys
    ensures x in w.objects && block == w.objects[x].text && entry == ManifestOf(w, project, roots, x)
  {
    var recorded := (set s | s in Recorded(g.linked, x)) + (set s | s in Recorded(g.provenance, x));
    RecordedSources(w, project, roots, g, x);
    block, entry := g.objects[x].text, ManifestEntry(x, g.objects[x].kind, x in roots, recorded);
  }

  lemma RecordedSources(w: Workspace, project: string, roots: set<Id>, g: Gathered, x: Id)
    requires Gathers(w, project, roots, g) && x in g.included && x in w.objects
    ensures (set s | s in Recorded(g.linked, x)) + (set s | s in Recorded(g.provenance, x))
         == ManifestOf(w, project, roots, x).sources
  {
    SourcesAreRecorded(g.linked, x);
    SourcesAreRecorded(g.provenance, x);
    ClosureIsClosed(ProvenanceFlow(w, project), g.included);
    assert SourcesOf(Into(ProvenanceFlow(w, project), ProvenanceAncestry(w, project, roots)), {x})
        == SourcesOf(ProvenanceFlow(w, project), {x});
  }

  lemma SourcesAreRecorded(linked: Links, x: Id)
    ensures (set s | s in Recorded(linked, x)) == SourcesOf(LinkRelation(linked), {x})
  {
    forall s | s in Recorded(linked, x) ensures s in SourcesOf(LinkRelation(linked), {x}) {
      assert (s, x) in LinkRelation(linked);
    }
  }

  // `len(objects) != len(roots)`: the two queries found every selected object.
  lemma FoundAll(found: set<Id>, roots: set<Id>)
    requires found <= roots
    ensures |found| == |roots| <==> found == roots
  {
    if found != roots {
      var x :| x in roots && x !in found;
      SubsetSize(found, roots - {x});
    }
  }

  lemma NothingInNothing(q: seq<Id>)
    ensures Elements(q) == {} <==> q == []
  {
    if q != [] {
      assert q[0] in Elements(q);
    }
  }

  lemma NothingSelected(w: Workspace, project: string)
    ensures Describes(w, project, {}, Compiled([], "", None, [], {}, {}))
  {
    var none: set<Id> := {};
    ClosureIsLeast(ContentFlow(w, project), none, none);
    assert Included(w, project, none) == none;
    ClosureIsLeast(ProvenanceFlow(w, project), none, none);
    ClosureIsLeast(AncestryFlow(w, project), none, none);
    assert BridgeSources(w, project, none) == none;
    assert PrivacySet(w, project, none) == none;
    assert Levels(w.objects, none) == {};
  }

  // Orders the included objects and renders them.
  method LayOut(w: Workspace, project: string, roots: set<Id>, g: Gathered)
    returns (blocks: seq<string>, manifest: seq<ManifestEntry>)
    requires Gathers(w, project, roots, g)
    ensures Included(w, project, roots) <= w.objects.Keys
    ensures forall x | x in LaidOut(w, project, roots) :: x in w.objects
    ensures blocks == Blocks(w, LaidOut(w, project, roots))
    ensures manifest == Manifest(w, project, roots, LaidOut(w, project, roots))
  {
    GatheredKnown(w, project, roots, g);
    var ordered := OrderGathered(w, project, roots, g);
    blocks, manifest := Render(w, project, roots, g, ordered);
  }

  method OrderGathered(w: Workspace, project: string, ghost roots: set<Id>, g: Gathered) returns (ordered: seq<Id>)
    requires Gathers(w, project, roots, g)
    ensures Included(w, project, roots) <= w.objects.Keys
    ensures ordered == LaidOut(w, project, roots) && Elements(ordered) == g.included
  {
    GatheredKnown(w, project, roots, g);
    var times := map x | x in g.included :: g.objects[x].createdAt;
    assert times == CreationTimes(w, g.included);
    ordered := Order(g.included, g.linked, times);
    EachObjectOnce(g.included, LinkRelation(g.linked), times);
  }

  ghost predicate Agree(a: map<Id, Object>, b: map<Id, Object>, ids: set<Id>) {
    ids <= a.Keys && ids <= b.Keys && forall x | x in ids :: a[x] == b[x]
  }

  lemma GatheredKnown(w: Workspace, project: string, roots: set<Id>, g: Gathered)
    requires Gathers(w, project, roots, g)
    ensures Agree(g.objects, w.objects, g.contributing) && Agree(g.objects, w.objects, g.included)
    ensures g.included <= g.contributing
  {
    assert g.included <= g.contributing;
  }

  // Joins the requirements of everything that contributes, in identifier order.
  method Require(objects: map<Id, Object>, contributing: set<Id>, included: set<Id>)
    returns (r: Result<Requirements, CompileError>)
    requires contributing <= objects.Keys
    ensures r.Ok? ==> (forall x :: x in Listing(contributing, SameTime(contributing)) <==> x in contributing)
    ensures r.Ok? ==> Joined(r.value, objects, Listing(contributing, SameTime(contributing)), included)
    ensures r.Ok? ==> forall x | x in contributing :: Fault(objects, x, included) == None
    ensures r.Err? ==> exists x :: x in contributing && Fault(objects, x, included) == Some(r.error)
  {
    var sameTime := map x | x in contributing :: 0;
    assert sameTime == SameTime(contributing);
    var ids := Sort(contributing, sameTime);
    assert forall x :: x in ids <==> x in contributing;
    r := JoinRequirements(objects, ids, included);
    if r.Ok? {
      forall x | x in contributing ensures Fault(objects, x, included) == None {
        assert x in ids;
      }
    }
  }

  lemma RequiredInStore(w: Workspace, project: string, roots: set<Id>, g: Gathered, r: Result<Requirements, CompileError>)
    requires Gathers(w, project, roots, g) && g.included <= g.contributing
    requires r.Ok? ==> (forall x :: x in Listing(g.contributing, SameTime(g.contributing)) <==> x in g.contributing)
    requires r.Ok? ==> Joined(r.value, g.objects, Listing(g.contributing, SameTime(g.contributing)), g.included)
    requires r.Ok? ==> forall x | x in g.contributing :: Fault(g.objects, x, g.included) == None
    requires r.Err? ==> exists x :: x in g.contributing && Fault(g.objects, x, g.included) == Some(r.error)
    ensures r.Ok? ==> Requires(w, project, roots, r.value) && NoFaults(w, project, roots)
    ensures r.Err? ==> exists x :: FaultAt(w, project, roots, x, r.error)
  {
    GatheredKnown(w, project, roots, g);
    if r.Ok? {
      JoinedInStore(g.objects, w.objects, g.contributing, g.included, Listing(g.contributing, SameTime(g.contributing)), r.value);
    } else {
      var x :| x in g.contributing && Fault(g.objects, x, g.included) == Some(r.error);
      assert FaultAt(w, project, roots, x, r.error);
    }
  }

  ghost predicate NoFaults(w: Workspace, project: string, roots: set<Id>) {
    forall x | x in PrivacySet(w, project, roots) :: x in w.objects && Fault(w.objects, x, Included(w, project, roots)) == None
  }

  ghost predicate FaultAt(w: Workspace, project: string, roots: set<Id>, x: Id, e: CompileError) {
    x in PrivacySet(w, project, roots) && x in w.objects && Fault(w.objects, x, Included(w, project, roots)) == Some(e)
  }

  lemma JoinedInStore(a: map<Id, Object>, b: map<Id, Object>, all: set<Id>, included: set<Id>, ids: seq<Id>, r: Requirements)
    requires Agree(a, b, all) && included <= all && forall x :: x in ids <==> x in all
    requires Joined(r, a, ids, included)
    ensures IsJoin(r.privacy, Levels(b, all)) && r.sources == ClassifiedSources(b, ids)
    ensures r.capabilities == RequiredCapabilities(b, included) && r.flags == RequiredFlags(b, included)
  {
    assert Elements(ids) == all && Elements(ids) * included == included;
    LevelsInStore(a, b, all);
    SourcesInStore(a, b, ids);
    CapabilitiesInStore(a, b, included);
    FlagsInStore(a, b, included);
  }

  lemma LevelsInStore(a: map<Id, Object>, b: map<Id, Object>, ids: set<Id>)
    requires Agree(a, b, ids)
    ensures Levels(a, ids) == Levels(b, ids)
  {
  }

  lemma CapabilitiesInStore(a: map<Id, Object>, b: map<Id, Object>, ids: set<Id>)
    requires Agree(a, b, ids)
    ensures RequiredCapabilities(a, ids) == RequiredCapabilities(b, ids)
  {
  }

  lemma FlagsInStore(a: map<Id, Object>, b: map<Id, Object>, ids: set<Id>)
    requires Agree(a, b, ids)
    ensures RequiredFlags(a, ids) == RequiredFlags(b, ids)
  {
  }

  lemma {:induction false} SourcesInStore(a: map<Id, Object>, b: map<Id, Object>, ids: seq<Id>)
    requires forall x | x in ids :: x in a && x in b && a[x] == b[x]
    ensures ClassifiedSources(a, ids) == ClassifiedSources(b, ids)
  {
    if ids != [] {
      SourcesInStore(a, b, ids[..|ids| - 1]);
    }
  }

  // Joins, lays out and renders what the walks gathered.
  method Finish(w: Workspace, project: string, roots: set<Id>, g: Gathered, maxChars: nat)
    returns (r: Result<Compiled, CompileError>)
    requires Gathers(w, project, roots, g)
    ensures r.Ok? ==> Describes(w, project, roots, r.value) && |r.value.prompt| <= maxChars && NoFaults(w, project, roots)
    ensures r.Err? ==>
      || (exists x :: FaultAt(w, project, roots, x, r.error))
      || (r.error == PromptTooLong && exists c :: Describes(w, project, roots, c) && |c.prompt| > maxChars)
  {
    GatheredKnown(w, project, roots, g);
    var required := Require(g.objects, g.contributing, g.included);
    RequiredInStore(w, project, roots, g, required);
    if required.Err? {
      return Err(required.error);
    }
    var blocks, manifest := LayOut(w, project, roots, g);
    var Requirements(privacy, sources, capabilities, flags) := required.value;
    var compiled := Compiled(manifest, JoinBlocks(blocks), privacy, sources, capabilities, flags);
    assert Describes(w, project, roots, compiled);
    if |compiled.prompt| > maxChars {
      return Err(PromptTooLong);
    }
    return Ok(compiled);
  }

  lemma FaultsExplain(w: Workspace, project: string, roots: set<Id>, maxChars: nat, e: CompileError)
    requires exists x :: FaultAt(w, project, roots, x, e)
    ensures Explains(w, project, roots, maxChars, e)
  {
  }

  method Compile(w: Workspace, project: string, selected: seq<Id>, maxChars: nat) returns (r: Result<Compiled, CompileError>)
    ensures r.Ok? ==> AllResolvable(w, project, Elements(selected)) && Describes(w, project, Elements(selected), r.value)
    ensures r.Ok? ==> selected == [] || |r.value.prompt| <= maxChars
    ensures r.Ok? && selected != [] ==> WithinContextBudget(w, project, Elements(selected))
    ensures r.Ok? && selected != [] ==>
      |ProvenanceAncestry(w, project, Elements(selected)) + BridgeAncestry(w, project, Elements(selected))| <= 200
    ensures r.Ok? && selected != [] ==> NoFaults(w, project, Elements(selected))
    ensures r.Err? ==> selected != [] && Explains(w, project, Elements(selected), maxChars, r.error)
  {
    var roots := Elements(selected);
    NothingInNothing(selected);
    if roots == {} {
      NothingSelected(w, project);
      return Ok(Compiled([], "", None, [], {}, {}));
    }
    if |roots| > MAX_COMPILED_OBJECTS {
      return Err(TooManyObjects);
    }
    var objects := Resolve(w, project, roots);
    FoundAll(objects.Keys, roots);
    if |objects| != |roots| {
      return Err(NotFound);
    }
    assert AllResolvable(w, project, roots);
    var gathered := Gather(w, project, roots);
    if gathered.None? {
      return Err(TooManyObjects);
    }
    r := Finish(w, project, roots, gathered.value, maxChars);
    if r.Err? && !r.error.PromptTooLong? {
      FaultsExplain(w, project, roots, maxChars, r.error);
    }
  }

  /// What a compilation guarantees.

  /**
   Whatever an object of the privacy set is labelled with is covered, an unlabelled conversation turn is kept local, and the
   requirement is what one of the objects asks for; there is none when none of them is labelled or a turn.
   */
  lemma RequirementIsTheJoin(w: Workspace, project: string, roots: set<Id>, required: Option<Label>, x: Id)
    requires RequirementFor(w, project, roots, required)
    ensures x in PrivacySet(w, project, roots) ==> x in w.objects
    ensures x in PrivacySet(w, project, roots) && w.objects[x].privacy.Present? ==> Covers(required, w.objects[x].privacy.value)
    ensures x in PrivacySet(w, project, roots) && w.objects[x].privacy == Absent && w.objects[x].kind == ConversationTurn ==>
      required == Some(Known(LocalOnly))
    ensures required.Some? ==> required.value.Known?
    ensures required.Some? ==> exists y ::
      && y in PrivacySet(w, project, roots) && y in w.objects
      && (w.objects[y].privacy == Present(required.value.level)
          || (w.objects[y].privacy == Absent && w.objects[y].kind == ConversationTurn && required.value.level == LocalOnly))
    ensures required.None? ==> forall y | y in PrivacySet(w, project, roots) && y in w.objects ::
      !w.objects[y].privacy.Present? && !(w.objects[y].privacy == Absent && w.objects[y].kind == ConversationTurn)
  {
    JoinAsksForLabels(w.objects, PrivacySet(w, project, roots), required);
  }

  lemma JoinAsksForLabels(objects: map<Id, Object>, ids: set<Id>, required: Option<Label>)
    requires ids <= objects.Keys && IsJoin(required, Levels(objects, ids))
    ensures forall x | x in ids && objects[x].privacy.Present? :: Covers(required, objects[x].privacy.value)
    ensures forall x | x in ids && objects[x].privacy == Absent && objects[x].kind == ConversationTurn :: required == Some(Known(LocalOnly))
    ensures required.Some? ==> required.value.Known?
    ensures required.Some? ==> exists y ::
      && y in ids && y in objects
      && (objects[y].privacy == Present(required.value.level)
          || (objects[y].privacy == Absent && objects[y].kind == ConversationTurn && required.value.level == LocalOnly))
    ensures required.None? ==> forall y | y in ids ::
      !objects[y].privacy.Present? && !(objects[y].privacy == Absent && objects[y].kind == ConversationTurn)
  {
    forall x | x in ids && Classification(objects[x]).Present?
      ensures Classification(objects[x]).value in Levels(objects, ids) && Covers(required, Classification(objects[x]).value)
    {
    }
    if required.Some? {
      var y :| y in ids && Classification(objects[y]).Present? && Classification(objects[y]).value == required.value.level;
      assert y in objects;
    }
  }

  // Selecting more objects never lowers the reported requirement.
  lemma SelectingMoreNeverWeakens(w: Workspace, project: string, roots: set<Id>, more: set<Id>,
                                  required: Option<Label>, required': Option<Label>)
    requires roots <= more && RequirementFor(w, project, roots, required) && RequirementFor(w, project, more, required')
    ensures required.Some? ==> required.value.Known? && Covers(required', required.value.level)
  {
    PrivacySetIsMonotone(w, project, roots, more);
    var all, all' := PrivacySet(w, project, roots), PrivacySet(w, project, more);
    JoinIsMonotone(required, Levels(w.objects, all), required', Levels(w.objects, all'));
  }

  // The result is a function of the store and of the set of selected objects.
  lemma CompilationIsDetermined(w: Workspace, project: string, roots: set<Id>, c: Compiled, c': Compiled)
    requires Describes(w, project, roots, c) && Describes(w, project, roots, c')
    ensures c == c'
  {
    JoinIsUnique(c.privacy, c'.privacy, Levels(w.objects, PrivacySet(w, project, roots)));
  }

  lemma ShownIds(w: Workspace, project: string, roots: set<Id>, c: Compiled) returns (ids: seq<Id>)
    requires Describes(w, project, roots, c)
    ensures ids == LaidOut(w, project, roots) && Enumerates(ids, Included(w, project, roots))
    ensures |c.manifest| == |ids| && forall i | 0 <= i < |ids| :: c.manifest[i].id == ids[i]
  {
    var included := Included(w, project, roots);
    ids := LaidOut(w, project, roots);
    EachObjectOnce(included, Into(LinkFlow(w, project), included), CreationTimes(w, included));
    assert c.manifest == Manifest(w, project, roots, ids);
  }

  predicate Shows(c: Compiled, x: Id) {
    exists i :: 0 <= i < |c.manifest| && c.manifest[i].id == x
  }

  // Content is shown for exactly the included objects, each once.
  lemma ManifestListsIncluded(w: Workspace, project: string, roots: set<Id>, c: Compiled, x: Id)
    requires Describes(w, project, roots, c)
    ensures Shows(c, x) <==> x in Included(w, project, roots)
    ensures forall i, j | 0 <= i < j < |c.manifest| :: c.manifest[i].id != c.manifest[j].id
  {
    var ids := ShownIds(w, project, roots, c);
    ShowsWhatIsListed(c, ids, Included(w, project, roots), x);
  }

  lemma ShowsWhatIsListed(c: Compiled, ids: seq<Id>, included: set<Id>, x: Id)
    requires Enumerates(ids, included) && |c.manifest| == |ids| && forall i | 0 <= i < |ids| :: c.manifest[i].id == ids[i]
    ensures Shows(c, x) <==> x in included
    ensures forall i, j | 0 <= i < j < |c.manifest| :: c.manifest[i].id != c.manifest[j].id
  {
    assert x in ids <==> Shows(c, x);
  }

  // An object whose context links lead only into bridges is never shown unless it was selected.
  lemma BridgedContentStaysOut(w: Workspace, project: string, roots: set<Id>, c: Compiled, x: Id)
    requires Describes(w, project, roots, c) && x !in roots
    requires forall e | e in LinkFlow(w, project) && e.0 == x :: w.objects[e.1].kind.ContextBridge?
    ensures !Shows(c, x)
  {
    ManifestListsIncluded(w, project, roots, c, x);
    if x in Included(w, project, roots) {
      NothingCrossesABridge(w, project, roots, x);
    }
  }

  // Neighbours in the manifest are in order of creation, unless the later one is linked to a source that is shown.
  lemma ManifestIsByAge(w: Workspace, project: string, roots: set<Id>, c: Compiled, i: nat)
    requires Describes(w, project, roots, c) && i + 1 < |c.manifest|
    ensures var a, b := c.manifest[i].id, c.manifest[i + 1].id;
      && a in w.objects && b in w.objects
      && (w.objects[a].createdAt < w.objects[b].createdAt || (w.objects[a].createdAt == w.objects[b].createdAt && a < b)
          || exists x :: x in Included(w, project, roots) && (x, b) in LinkFlow(w, project))
  {
    var included := Included(w, project, roots);
    var links, at := Into(LinkFlow(w, project), included), CreationTimes(w, included);
    var ids := ShownIds(w, project, roots, c);
    OlderFirstUnlessWaiting(included, links, at, i);
    if e :| e in links && e.1 == ids[i + 1] && e.0 in included {
      assert (e.0, ids[i + 1]) in LinkFlow(w, project);
    }
  }

  // Each entry names the kind of its object, whether it was selected, and every source it is linked to or derived from.
  lemma EntryTells(w: Workspace, project: string, roots: set<Id>, c: Compiled, i: nat, s: Id)
    requires Describes(w, project, roots, c) && i < |c.manifest|
    ensures var e := c.manifest[i];
      && e.id in w.objects && e.kind == w.objects[e.id].kind && (e.selectedByUser <==> e.id in roots)
      && (s in e.sources <==> (s, e.id) in LinkFlow(w, project) || (s, e.id) in ProvenanceFlow(w, project))
  {
    var ids := ShownIds(w, project, roots, c);
    assert ids[i] in ids;
    EntryAt(w, project, roots, c, i);
    EntryOf(w, project, roots, ids[i], s);
  }

  lemma EntryAt(w: Workspace, project: string, roots: set<Id>, c: Compiled, i: nat)
    requires Describes(w, project, roots, c) && i < |c.manifest|
    ensures c.manifest[i].id in w.objects && c.manifest[i] == ManifestOf(w, project, roots, c.manifest[i].id)
  {
    var ids := LaidOut(w, project, roots);
    assert c.manifest == Manifest(w, project, roots, ids);
    assert ids[i] in ids;
  }

  lemma EntryOf(w: Workspace, project: string, roots: set<Id>, x: Id, s: Id)
    requires x in w.objects && x in Included(w, project, roots)
    ensures var e := ManifestOf(w, project, roots, x);
      && e.id == x && e.kind == w.objects[x].kind && (e.selectedByUser <==> x in roots)
      && (s in e.sources <==> (s, x) in LinkFlow(w, project) || (s, x) in ProvenanceFlow(w, project))
  {
    var links, provenance := Into(LinkFlow(w, project), Included(w, project, roots)), ProvenanceFlow(w, project);
    assert s in SourcesOf(links, {x}) <==> (s, x) in links;
    assert s in SourcesOf(provenance, {x}) <==> (s, x) in provenance;
  }

  // The prompt is the texts of the shown objects in the order of the manifest, set apart by empty lines.
  lemma PromptIsTheTexts(w: Workspace, project: string, roots: set<Id>, c: Compiled, texts: seq<string>, n: nat)
    requires Describes(w, project, roots, c) && |texts| == |c.manifest|
    requires forall i | 0 <= i < |texts| :: c.manifest[i].id in w.objects && texts[i] == w.objects[c.manifest[i].id].text
    ensures texts == [] ==> c.prompt == ""
    ensures |texts| == 1 ==> c.prompt == texts[0]
    ensures 0 < n < |texts| ==> c.prompt == JoinBlocks(texts[..n]) + "\n\n" + JoinBlocks(texts[n..])
  {
    TextsAreBlocks(w, project, roots, c, texts);
    TextsJoin(texts, n);
  }

  lemma TextsJoin(texts: seq<string>, n: nat)
    ensures texts == [] ==> JoinBlocks(texts) == ""
    ensures |texts| == 1 ==> JoinBlocks(texts) == texts[0]
    ensures 0 < n < |texts| ==> JoinBlocks(texts) == JoinBlocks(texts[..n]) + "\n\n" + JoinBlocks(texts[n..])
  {
    if 0 < n < |texts| {
      BlocksJoin(texts[..n], texts[n..]);
      assert texts[..n] + texts[n..] == texts;
    }
  }

  lemma TextsAreBlocks(w: Workspace, project: string, roots: set<Id>, c: Compiled, texts: seq<string>)
    requires Describes(w, project, roots, c) && |texts| == |c.manifest|
    requires forall i | 0 <= i < |texts| :: c.manifest[i].id in w.objects && texts[i] == w.objects[c.manifest[i].id].text
    ensures c.prompt == JoinBlocks(texts)
  {
    var ids := ShownIds(w, project, roots, c);
    assert texts == Blocks(w, ids);
  }

  lemma {:induction false} BlocksJoin(a: seq<string>, b: seq<string>)
    requires a != [] && b != []
    ensures JoinBlocks(a + b) == JoinBlocks(a) + "\n\n" + JoinBlocks(b)
  {
    assert (a + b)[1..] == a[1..] + b;
    if |a| > 1 {
      BlocksJoin(a[1..], b);
    }
  }

  // The sources of the requirement are listed once each, by id: every labelled object of the privacy set and every unlabelled turn.
  lemma LabelsAreListed(w: Workspace, project: string, roots: set<Id>, c: Compiled, x: Id, l: Level)
    requires Describes(w, project, roots, c)
    ensures (x, l) in c.privacySources <==>
      && x in PrivacySet(w, project, roots) && x in w.objects
      && (w.objects[x].privacy == Present(l) || (w.objects[x].privacy == Absent && w.objects[x].kind == ConversationTurn && l == LocalOnly))
    ensures forall i, j | 0 <= i < j < |c.privacySources| :: c.privacySources[i].0 < c.privacySources[j].0
  {
    ListedLabels(w, PrivacySet(w, project, roots), c.privacySources, x, l);
  }

  lemma ListedLabels(w: Workspace, all: set<Id>, sources: seq<(Id, Level)>, x: Id, l: Level)
    requires (forall y :: y in Listing(all, SameTime(all)) ==> y in w.objects)
    requires sources == ClassifiedSources(w.objects, Listing(all, SameTime(all)))
    ensures (x, l) in sources <==>
      && x in all && x in w.objects
      && (w.objects[x].privacy == Present(l) || (w.objects[x].privacy == Absent && w.objects[x].kind == ConversationTurn && l == LocalOnly))
    ensures Ascending(sources)
  {
    var ids := Listing(all, SameTime(all));
    SourcesAreClassified(w.objects, ids, x, l);
    SourcesInOrder(w.objects, ids);
  }

  lemma {:induction false} SourcesAreClassified(objects: map<Id, Object>, ids: seq<Id>, x: Id, l: Level)
    requires forall y | y in ids :: y in objects
    ensures (x, l) in ClassifiedSources(objects, ids) <==> x in ids && Classification(objects[x]) == Present(l)
  {
    if ids != [] {
      var n := |ids| - 1;
      SourcesAreClassified(objects, ids[..n], x, l);
      assert ids == ids[..n] + [ids[n]];
    }
  }

  lemma {:induction false} SourcesInOrder(objects: map<Id, Object>, ids: seq<Id>)
    requires (forall y | y in ids :: y in objects) && forall i, j | 0 <= i < j < |ids| :: ids[i] < ids[j]
    ensures Ascending(ClassifiedSources(objects, ids))
  {
    if ids != [] {
      var n := |ids| - 1;
      var before := ClassifiedSources(objects, ids[..n]);
      SourcesInOrder(objects, ids[..n]);
      forall i | 0 <= i < |before| ensures before[i].0 < ids[n] {
        assert before[i] in before;
        SourcesAreClassified(objects, ids[..n], before[i].0, before[i].1);
        var k :| 0 <= k < n && ids[..n][k] == before[i].0;
        assert ids[k] < ids[n];
      }
      if Classification(objects[ids[n]]).Present? {
        OneMoreAscends(before, (ids[n], Classification(objects[ids[n]]).value));
      }
    }
  }

  ghost predicate Ascending(q: seq<(Id, Level)>) {
    forall i, j | 0 <= i < j < |q| :: q[i].0 < q[j].0
  }

  lemma OneMoreAscends(q: seq<(Id, Level)>, e: (Id, Level))
    requires Ascending(q) && forall i | 0 <= i < |q| :: q[i].0 < e.0
    ensures Ascending(q + [e])
  {
  }

  // Capabilities and flags are asked for by included objects only, and all of theirs are.
  lemma IncludedObjectsRequire(w: Workspace, project: string, roots: set<Id>, c: Compiled, capability: string, flag: Flag)
    requires Describes(w, project, roots, c)
    ensures capability in c.capabilities <==> exists x ::
      && x in Included(w, project, roots) && x in w.objects
      && w.objects[x].capabilities.Present? && capability in w.objects[x].capabilities.value
    ensures flag in c.flags <==> exists x ::
      && x in Included(w, project, roots) && x in w.objects
      && w.objects[x].flags.Present? && flag in w.objects[x].flags.value
  {
  }

  // What the errors about single objects mean.
  lemma FaultsAre(w: Workspace, project: string, roots: set<Id>, x: Id, y: Id)
    requires y in PrivacySet(w, project, roots) && y in w.objects
    ensures FaultAt(w, project, roots, y, UnsupportedPrivacy(x)) <==> x == y && w.objects[y].privacy.Malformed?
    ensures FaultAt(w, project, roots, y, InvalidCapabilities(x)) <==>
      x == y && !w.objects[y].privacy.Malformed? && y in Included(w, project, roots)
      && (w.objects[y].capabilities.Malformed? || w.objects[y].flags.Malformed?)
    ensures NoFaults(w, project, roots) ==>
      && !w.objects[y].privacy.Malformed?
      && (y in Included(w, project, roots) ==> !w.objects[y].capabilities.Malformed? && !w.objects[y].flags.Malformed?)
  {
  }

  /** In a workspace with at most 200 edges and 200 objects, dangling ones included, no selection is too large. */
  lemma SmallWorkspacesFit(w: Workspace, project: string, roots: set<Id>)
    requires AllResolvable(w, project, roots) && |w.edges| <= 200
    requires |w.objects.Keys + (set e | e in w.edges :: e.source)| <= 200
    ensures WithinBudget(w, project, roots)
  {
    var included, provenance, ancestry := Included(w, project, roots), ProvenanceAncestry(w, project, roots), BridgeAncestry(w, project, roots);
    WalkedObjectsExist(w, project, roots);
    SubsetSize(roots, w.objects.Keys + (set e | e in w.edges :: e.source));
    SmallContext(w, project, roots, included);
    SmallProvenance(w, project, included, provenance);
    SmallBridges(w, project, provenance, BridgeSources(w, project, roots), ancestry);
  }

  lemma WalkedObjectsExist(w: Workspace, project: string, roots: set<Id>)
    requires AllResolvable(w, project, roots)
    ensures roots <= w.objects.Keys && Included(w, project, roots) <= w.objects.Keys
    ensures ProvenanceAncestry(w, project, roots) <= w.objects.Keys && BridgeAncestry(w, project, roots) <= w.objects.Keys
  {
    SelectionResolvable(w, project, roots);
    var all := PrivacySet(w, project, roots);
    assert ProvenanceAncestry(w, project, roots) <= all && BridgeAncestry(w, project, roots) <= all;
  }

  lemma SmallContext(w: Workspace, project: string, roots: set<Id>, included: set<Id>)
    requires included == Included(w, project, roots) <= w.objects.Keys
    requires |w.edges| <= 200 && |w.objects.Keys + (set e | e in w.edges :: e.source)| <= 200
    ensures WithinContextBudget(w, project, roots)
  {
    SmallQuery(w, project, {Context}, ExpandedObjects(w, project, roots), included);
  }

  lemma SmallProvenance(w: Workspace, project: string, included: set<Id>, all: set<Id>)
    requires all == Closure(ProvenanceFlow(w, project), included) <= w.objects.Keys
    requires |w.edges| <= 200 && |w.objects.Keys + (set e | e in w.edges :: e.source)| <= 200
    ensures WithinProvenanceBudget(w, project, included)
  {
    SmallQuery(w, project, {Provenance}, all, all);
  }

  lemma SmallBridges(w: Workspace, project: string, known: set<Id>, bridged: set<Id>, all: set<Id>)
    requires all == Closure(AncestryFlow(w, project), bridged) <= w.objects.Keys && known <= w.objects.Keys
    requires |w.edges| <= 200 && |w.objects.Keys + (set e | e in w.edges :: e.source)| <= 200
    ensures WithinBridgeBudget(w, project, known, bridged)
  {
    SmallQuery(w, project, ANCESTRY, all, known + all);
  }

  // What a query yields, with objects known already, stays small in a small workspace.
  lemma SmallQuery(w: Workspace, project: string, families: set<Family>, targets: set<Id>, known: set<Id>)
    requires known <= w.objects.Keys && |w.edges| <= 200 && |w.objects.Keys + (set e | e in w.edges :: e.source)| <= 200
    ensures |EdgesInto(w.edges, project, families, targets)| <= 200 && |known| <= 200
    ensures |known + QueriedSources(EdgesInto(w.edges, project, families, targets))| <= 200
  {
    var all := w.objects.Keys + (set e | e in w.edges :: e.source);
    QueryIsShort(w, project, families, targets);
    SubsetSize(known, all);
    SubsetSize(known + QueriedSources(EdgesInto(w.edges, project, families, targets)), all);
  }

  lemma QueryIsShort(w: Workspace, project: string, families: set<Family>, targets: set<Id>)
    ensures |EdgesInto(w.edges, project, families, targets)| <= |w.edges|
    ensures QueriedSources(EdgesInto(w.edges, project, families, targets)) <= (set e | e in w.edges :: e.source)
  {
    QueryCount(w.edges, project, families, targets);
    forall e | e in EdgesInto(w.edges, project, families, targets) ensures e in w.edges {
      QueryIsFilter(w.edges, project, families, targets, e);
    }
  }

  lemma {:induction false} QueryCount(edges: seq<Edge>, project: string, families: set<Family>, targets: set<Id>)
    ensures |EdgesInto(edges, project, families, targets)| <= |edges|
  {
    if edges != [] {
      QueryCount(edges[1..], project, families, targets);
    }
  }

  ghost predicate SourcesShownFirst(c: Compiled, links: Relation) {
    forall i, j | 0 <= i < |c.manifest| && 0 <= j < |c.manifest| && (c.manifest[i].id, c.manifest[j].id) in links :: i < j
  }

  // The manifest puts every linked source before its consumers exactly when the links have no cycle.
  lemma SourcesShownFirstIffAcyclic(w: Workspace, project: string, roots: set<Id>, c: Compiled)
    requires Describes(w, project, roots, c)
    ensures SourcesShownFirst(c, Into(LinkFlow(w, project), Included(w, project, roots)))
       <==> Acyclic(Into(LinkFlow(w, project), Included(w, project, roots)), Included(w, project, roots))
  {
    var included := Included(w, project, roots);
    var ids := ShownIds(w, project, roots, c);
    SourcesFirstIffAcyclic(included, Into(LinkFlow(w, project), included), CreationTimes(w, included));
  }
}
