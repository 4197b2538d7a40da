/**
 From what a turn loads to the provider that sees it: the privacy part of `load_context_node`, the route selection of
 `reason_node` (app/orchestrator/nodes.py:92-228, 382-541), and the boundary handed to a delegated child.
 */
module PrivacyFlow {
  import opened Wrappers
  import opened Privacy
  import opened RoutingPolicy
  import opened RouteConfirmation
  import opened RoutingResolver
  import opened Reachability
  import opened WorkspaceGraph
  import opened ContextCompiler
  import Assembly = ContextAssembly

  // The stored routing context as far as privacy goes; an empty dictionary counts as absent in `reason_node`.
  datatype RoutingDict = RoutingDict(privacy: Option<Label>, otherKeys: bool)

  datatype TurnMetadata = TurnMetadata(routing: Option<RoutingDict>, privacy: Option<Label>)

  function InitialLabel(m: TurnMetadata): Option<Label> {
    if m.routing.Some? then m.routing.value.privacy else m.privacy
  }

  predicate Truthy(r: Option<Label>) {
    r.Some? && r != Some(Unknown(""))
  }

  function WithMemory(m: TurnMetadata, required: Option<Label>): TurnMetadata {
    if !Truthy(required) then m
    else if m.routing.Some? then m.(routing := Some(m.routing.value.(privacy := Stricter(m.routing.value.privacy, required))))
    else m.(privacy := Stricter(m.privacy, required))
  }

  predicate HasRequirements(c: Compiled) {
    c.privacy.Some? || c.capabilities != {} || c.flags != {}
  }

  function WithCompiled(m: TurnMetadata, c: Compiled): TurnMetadata {
    if !HasRequirements(c) then m
    else if m.routing.Some? then
      var effective := Stricter(m.routing.value.privacy, c.privacy);
      m.(routing := Some(RoutingDict(if Truthy(effective) then effective else m.routing.value.privacy, true)))
    else if c.privacy.Some? then m.(privacy := Stricter(m.privacy, c.privacy))
    else m
  }

  /** The privacy `reason_node` routes with; an unsupported label raises. */
  function TurnLevel(m: TurnMetadata, delegated: Option<Label>): Option<Level> {
    var chosen :=
      if m.routing.Some? && (m.routing.value.privacy.Some? || m.routing.value.otherKeys) then m.routing.value.privacy
      else if Truthy(m.privacy) then m.privacy
      else if Truthy(delegated) then delegated
      else None;
    match chosen
    case None => Some(Public)
    case Some(Known(l)) => Some(l)
    case Some(Unknown(_)) => None
  }

  // The label of a routing context decides when there is one, even when it is missing there; then the turn's own, then the delegated one.
  lemma LabelsInOrder(m: TurnMetadata, delegated: Option<Label>)
    ensures m.routing.Some? && m.routing.value.otherKeys ==>
      TurnLevel(m, delegated) == if m.routing.value.privacy == None then Some(Public)
                                 else if m.routing.value.privacy.value.Known? then Some(m.routing.value.privacy.value.level) else None
    ensures m.routing.None? && m.privacy.Some? && m.privacy.value.Known? ==> TurnLevel(m, delegated) == Some(m.privacy.value.level)
    ensures m.routing.None? && m.privacy.None? && delegated.Some? && delegated.value.Known? ==> TurnLevel(m, delegated) == Some(delegated.value.level)
    ensures m.routing.None? && m.privacy.None? && delegated.None? ==> TurnLevel(m, delegated) == Some(Public)
  {
  }

  datatype LoadError = MemoryError(m: Assembly.AssemblyError) | SelectionError(s: CompileError) | CapabilityUnavailable

  method LoadContext(m: TurnMetadata, memory: Option<Assembly.Loaded>, w: Workspace, project: string, selected: seq<Id>,
                     maxChars: nat, toolsAvailable: bool)
    returns (r: Result<TurnMetadata, LoadError>)
    ensures r.Ok? ==> LoadedWith(m, memory, w, project, selected, r.value)
    ensures r.Err? && r.error.MemoryError? <==>
      memory.Some? && !(Recognised(InitialLabel(m)) && Assembly.AllSupported(Assembly.Applied(memory.value)))
    ensures r.Ok? && selected != [] && !toolsAvailable ==> exists c: Compiled ::
      Describes(w, project, Elements(selected), c) && c.privacy.None? && c.capabilities == {} && c.flags == {}
    ensures r.Err? && r.error.SelectionError? ==> selected != [] && Explains(w, project, Elements(selected), maxChars, r.error.s)
    ensures r.Err? && r.error.CapabilityUnavailable? ==> selected != [] && !toolsAvailable && exists c: Compiled ::
      Describes(w, project, Elements(selected), c) && (c.privacy.Some? || c.capabilities != {} || c.flags != {})
  {
    var after := m;
    if memory.Some? {
      var context, required := Assembly.Assemble(InitialLabel(m), memory.value);
      if required.Err? {
        return Err(MemoryError(required.error));
      }
      after := WithMemory(after, required.value);
    }
    if selected != [] {
      var compiled := Compile(w, project, selected, maxChars);
      if compiled.Err? {
        return Err(SelectionError(compiled.error));
      }
      if HasRequirements(compiled.value) && !toolsAvailable {
        return Err(CapabilityUnavailable);
      }
      after := WithCompiled(after, compiled.value);
    }
    return Ok(after);
  }

  function MemoryLabel(m: TurnMetadata, memory: Option<Assembly.Loaded>): Option<Label> {
    if memory.Some? then Assembly.Fold(InitialLabel(m), Assembly.Applied(memory.value)) else None
  }

  ghost predicate LoadedWith(m: TurnMetadata, memory: Option<Assembly.Loaded>, w: Workspace, project: string,
                             selected: seq<Id>, m': TurnMetadata)
  {
    var remembered := WithMemory(m, MemoryLabel(m, memory));
    if selected == [] then m' == remembered
    else exists c: Compiled :: RequirementFor(w, project, Elements(selected), c.privacy) && m' == WithCompiled(remembered, c)
  }

  /// One join at a time.

  // A level the turn already routes with, or that is newly required, is routed with afterwards.
  lemma MemoryJoinKeeps(m: TurnMetadata, required: Option<Label>, delegated: Option<Label>, l: Level)
    requires Recognised(InitialLabel(m)) && Recognised(required) && Covers(required, l)
    ensures TurnLevel(WithMemory(m, required), delegated).Some?
    ensures Strictness(TurnLevel(WithMemory(m, required), delegated).value) >= Strictness(l)
    ensures Recognised(InitialLabel(WithMemory(m, required))) && Covers(InitialLabel(WithMemory(m, required)), l)
  {
  }

  lemma CompiledJoinKeeps(m: TurnMetadata, c: Compiled, delegated: Option<Label>, l: Level)
    requires Recognised(c.privacy) && InitialLabel(m) != Some(Unknown(""))
    requires Covers(InitialLabel(m), l) || Covers(c.privacy, l)
    ensures var level := TurnLevel(WithCompiled(m, c), delegated); level.Some? ==> Strictness(level.value) >= Strictness(l)
  {
  }

  // Some memory applied in the turn is labelled at least as strictly as `l`, or has no label at all.
  ghost predicate MemoryTouches(memory: Assembly.Loaded, l: Level) {
    exists x :: x in Assembly.Applied(memory) && (x.policy.Some? ==> Covers(x.policy, l))
  }

  // The object is labelled at least as strictly as `l`, or is a conversation turn without a label.
  ghost predicate ObjectDemands(w: Workspace, project: string, selected: seq<Id>, x: Id, l: Level) {
    && x in PrivacySet(w, project, Elements(selected)) && x in w.objects
    && if w.objects[x].privacy.Present? then Covers(Some(Known(w.objects[x].privacy.value)), l)
       else w.objects[x].privacy == Absent && w.objects[x].kind == ConversationTurn
  }

  ghost predicate SelectionTouches(w: Workspace, project: string, selected: seq<Id>, l: Level) {
    exists x :: ObjectDemands(w, project, selected, x, l)
  }

  // Some memory applied in this turn, or some object in the compiled privacy set, is at least as strict as `l`.
  ghost predicate TurnTouches(memory: Option<Assembly.Loaded>, w: Workspace, project: string, selected: seq<Id>, l: Level) {
    || (memory.Some? && MemoryTouches(memory.value, l))
    || (selected != [] && SelectionTouches(w, project, selected, l))
  }

  /** Everything loaded into the turn is reflected in the level it routes with, if it routes at all. */
  lemma LoadedLevelIsKept(m: TurnMetadata, memory: Option<Assembly.Loaded>, w: Workspace, project: string, selected: seq<Id>,
                          m': TurnMetadata, delegated: Option<Label>, l: Level)
    requires LoadedWith(m, memory, w, project, selected, m')
    requires memory.Some? ==> Recognised(InitialLabel(m)) && Assembly.AllSupported(Assembly.Applied(memory.value))
    requires memory.None? ==> InitialLabel(m) != Some(Unknown(""))
    requires TurnTouches(memory, w, project, selected, l)
    ensures var level := TurnLevel(m', delegated); level.Some? ==> Strictness(level.value) >= Strictness(l)
  {
    var required := MemoryLabel(m, memory);
    if memory.Some? {
      MemoryLabelIsExact(m, memory, l);
      if Covers(required, l) {
        MemoryJoinKeeps(m, required, delegated, l);
      }
    }
    if selected != [] {
      SelectionKeepsLevel(WithMemory(m, required), w, project, selected, m', delegated, l);
    }
  }

  lemma SelectionKeepsLevel(m: TurnMetadata, w: Workspace, project: string, selected: seq<Id>, m': TurnMetadata,
                            delegated: Option<Label>, l: Level)
    requires exists c: Compiled :: RequirementFor(w, project, Elements(selected), c.privacy) && m' == WithCompiled(m, c)
    requires InitialLabel(m) != Some(Unknown("")) && (Covers(InitialLabel(m), l) || SelectionTouches(w, project, selected, l))
    ensures var level := TurnLevel(m', delegated); level.Some? ==> Strictness(level.value) >= Strictness(l)
  {
    var c: Compiled :| RequirementFor(w, project, Elements(selected), c.privacy) && m' == WithCompiled(m, c);
    CompiledCovers(w, project, selected, c, l);
    CompiledJoinKeeps(m, c, delegated, l);
  }

  lemma CompiledCovers(w: Workspace, project: string, selected: seq<Id>, c: Compiled, l: Level)
    requires RequirementFor(w, project, Elements(selected), c.privacy)
    ensures Recognised(c.privacy)
    ensures SelectionTouches(w, project, selected, l) ==> Covers(c.privacy, l)
  {
    if x :| ObjectDemands(w, project, selected, x, l) {
      RequirementIsTheJoin(w, project, Elements(selected), c.privacy, x);
    }
  }

  /**
   And nothing else is: from recognised labels the level is above public exactly as far as the metadata, an applied memory or an
   object of the privacy set asks for.
   */
  lemma LevelIsExact(m: TurnMetadata, memory: Option<Assembly.Loaded>, w: Workspace, project: string, selected: seq<Id>,
                     m': TurnMetadata, l: Level)
    requires LoadedWith(m, memory, w, project, selected, m') && (m.routing.None? || m.privacy.None?) && l != Public
    requires Recognised(InitialLabel(m)) && (memory.Some? ==> Assembly.AllSupported(Assembly.Applied(memory.value)))
    ensures TurnLevel(m', None).Some?
    ensures Strictness(TurnLevel(m', None).value) >= Strictness(l) <==>
            Covers(InitialLabel(m), l) || TurnTouches(memory, w, project, selected, l)
  {
    MemoryLabelIsExact(m, memory, l);
    MemoryJoinIsExact(m, MemoryLabel(m, memory), l);
    if selected != [] {
      SelectionIsExact(WithMemory(m, MemoryLabel(m, memory)), w, project, selected, m', l);
    }
  }

  lemma MemoryLabelIsExact(m: TurnMetadata, memory: Option<Assembly.Loaded>, l: Level)
    requires Recognised(InitialLabel(m)) && (memory.Some? ==> Assembly.AllSupported(Assembly.Applied(memory.value)))
    ensures Recognised(MemoryLabel(m, memory))
    ensures Covers(MemoryLabel(m, memory), l) <==> memory.Some? && (Covers(InitialLabel(m), l) || MemoryTouches(memory.value, l))
  {
    if memory.Some? {
      Assembly.FoldIsJoin(InitialLabel(m), Assembly.Applied(memory.value), l);
      assert MemoryTouches(memory.value, l) <==> exists x :: x in Assembly.Applied(memory.value) && Covers(Some(Assembly.Classified(x)), l);
    }
  }

  lemma SelectionIsExact(m: TurnMetadata, w: Workspace, project: string, selected: seq<Id>, m': TurnMetadata, l: Level)
    requires exists c: Compiled :: RequirementFor(w, project, Elements(selected), c.privacy) && m' == WithCompiled(m, c)
    requires Recognised(InitialLabel(m)) && (m.routing.None? || m.privacy.None?) && l != Public
    ensures TurnLevel(m', None).Some?
    ensures Strictness(TurnLevel(m', None).value) >= Strictness(l) <==> Covers(InitialLabel(m), l) || SelectionTouches(w, project, selected, l)
  {
    var c: Compiled :| RequirementFor(w, project, Elements(selected), c.privacy) && m' == WithCompiled(m, c);
    CompiledCovers(w, project, selected, c, l);
    RequirementComesFromObjects(w, project, selected, c, l);
    CompiledJoinIsExact(m, c, l);
  }

  lemma MemoryJoinIsExact(m: TurnMetadata, required: Option<Label>, l: Level)
    requires Recognised(InitialLabel(m)) && Recognised(required) && (m.routing.None? || m.privacy.None?) && l != Public
    ensures var m' := WithMemory(m, required);
      && Recognised(InitialLabel(m')) && (m'.routing.None? || m'.privacy.None?)
      && (Covers(InitialLabel(m'), l) <==> Covers(InitialLabel(m), l) || Covers(required, l))
      && TurnLevel(m', None).Some? && (Strictness(TurnLevel(m', None).value) >= Strictness(l) <==> Covers(InitialLabel(m'), l))
  {
  }

  lemma CompiledJoinIsExact(m: TurnMetadata, c: Compiled, l: Level)
    requires Recognised(InitialLabel(m)) && Recognised(c.privacy) && (m.routing.None? || m.privacy.None?) && l != Public
    ensures TurnLevel(WithCompiled(m, c), None).Some?
    ensures Strictness(TurnLevel(WithCompiled(m, c), None).value) >= Strictness(l) <==> Covers(InitialLabel(m), l) || Covers(c.privacy, l)
  {
  }

  lemma RequirementComesFromObjects(w: Workspace, project: string, selected: seq<Id>, c: Compiled, l: Level)
    requires RequirementFor(w, project, Elements(selected), c.privacy)
    ensures Covers(c.privacy, l) ==> SelectionTouches(w, project, selected, l)
  {
    var all := PrivacySet(w, project, Elements(selected));
    RequirementIsTheJoin(w, project, Elements(selected), c.privacy, 0);
    if Covers(c.privacy, l) {
      var y :| y in all && y in w.objects && (w.objects[y].privacy == Present(c.privacy.value.level)
            || (w.objects[y].privacy == Absent && w.objects[y].kind == ConversationTurn && c.privacy.value.level == LocalOnly));
      assert ObjectDemands(w, project, selected, y, l);
    }
  }

  // Without a memory service an empty label in the metadata survives every join and is then read as no label at all.
  lemma EmptyLabelHidesRequirement(c: Compiled)
    requires c.privacy == Some(Known(LocalOnly))
    ensures TurnLevel(WithCompiled(TurnMetadata(None, Some(Unknown(""))), c), None) == Some(Public)
  {
  }

  // And that is the only way: the requirement of the selection is kept if and only if the label is not that empty string
  // held outside a routing context.
  lemma RequirementKeptIff(m: TurnMetadata, c: Compiled, l: Level)
    requires Covers(c.privacy, l) && l != Public
    ensures (var level := TurnLevel(WithCompiled(m, c), None); level.Some? ==> Strictness(level.value) >= Strictness(l)) <==>
            !(m.routing.None? && m.privacy == Some(Unknown("")))
  {
  }

  /// Route selection in `reason_node`.

  // One model call: the context it was routed with, what was registered, whether a proposal was confirmed, and the outcome.
  datatype ModelCall = ModelCall(context: Context, providers: seq<Provider>, primary: string, approved: bool, used: Context, selection: Selection)

  ghost predicate Routed(k: ModelCall) {
    && DistinctNames(k.providers)
    && Picks(k.used, k.providers, k.primary, k.selection)
    && (k.used == k.context || (k.approved && Confirmed(k)))
  }

  // The retry of a confirmed proposal.
  ghost predicate Confirmed(k: ModelCall) {
    exists x :: Proposes(k.context, k.providers, k.primary, x) && k.used == Retried(k.context, x.provider, x.model)
  }

  method ReasonRoute(c: Context, providers: seq<Provider>, primary: string, approved: bool)
    returns (r: Result<Selection, RouteError>, used: Context)
    requires DistinctNames(providers)
    ensures used.privacy == c.privacy
    ensures used != c <==> approved && exists x :: Proposes(c, providers, primary, x)
    ensures approved ==> !(r.Err? && r.error.ConfirmationRequired?)
    ensures !approved && (exists x :: Proposes(c, providers, primary, x)) ==> r.Err? && r.error.ConfirmationRequired?
    ensures r.Ok? ==> Routed(ModelCall(c, providers, primary, approved, used, r.value))
    ensures r.Err? ==> forall s :: !Picks(used, providers, primary, s)
  {
    used := c;
    r := Select(Some(c), providers, primary);
    if r.Err? && r.error.ConfirmationRequired? && approved {
      used := Retried(c, r.error.provider, r.error.model);
      ghost var x :| Proposes(c, providers, primary, x) && r.error == ConfirmationRequired(x.provider, x.model);
      assert used == Retried(c, x.provider, x.model);
      r := Select(Some(used), providers, primary);
    }
  }

  // The routed context is stored back and the next turn of the loop routes with the same level.
  function StoredBack(m: TurnMetadata, level: Level): TurnMetadata {
    m.(routing := Some(RoutingDict(Some(Known(level)), true)))
  }

  lemma LoopKeepsLevel(m: TurnMetadata, delegated: Option<Label>, level: Level)
    requires TurnLevel(m, delegated) == Some(level)
    ensures TurnLevel(StoredBack(m, level), delegated) == Some(level)
  {
  }

  /// Every model call of a run.

  // The model calls of a run, each routed with the level of the metadata and stored back before the next one.
  ghost predicate ModelCalls(m: TurnMetadata, delegated: Option<Label>, calls: seq<ModelCall>)
    decreases |calls|
  {
    calls == [] ||
    (&& TurnLevel(m, delegated) == Some(calls[0].context.privacy) && Routed(calls[0])
     && ModelCalls(StoredBack(m, calls[0].used.privacy), delegated, calls[1..]))
  }

  function AfterCalls(m: TurnMetadata, calls: seq<ModelCall>): TurnMetadata
    decreases |calls|
  {
    if calls == [] then m else AfterCalls(StoredBack(m, calls[0].used.privacy), calls[1..])
  }

  // Whoever answers under the selected name is on the device.
  lemma StrictCallStaysOnDevice(k: ModelCall, l: Level)
    requires Routed(k) && (l == Confidential || l == LocalOnly) && Strictness(k.context.privacy) >= Strictness(l)
    ensures k.used.privacy == k.context.privacy
    ensures forall p | Provider(k.selection.provider, p) in k.providers :: p.privacy != Cloud
  {
    var m := SelectionMeetsDemands(k.used, k.providers, k.primary, k.selection);
    FindIsTheProvider(k.providers, k.selection.provider, m);
    forall p | Provider(k.selection.provider, p) in k.providers ensures p.privacy != Cloud {
      FindIsTheProvider(k.providers, k.selection.provider, p);
    }
  }

  // A level a run starts with is kept by every call, confirmed or not, and binds each of them.
  lemma {:induction false} RunStaysOnDevice(m: TurnMetadata, delegated: Option<Label>, calls: seq<ModelCall>, l: Level)
    requires ModelCalls(m, delegated, calls) && (l == Confidential || l == LocalOnly)
    requires TurnLevel(m, delegated).Some? ==> Strictness(TurnLevel(m, delegated).value) >= Strictness(l)
    ensures forall i, p | 0 <= i < |calls| && Provider(calls[i].selection.provider, p) in calls[i].providers :: p.privacy != Cloud
    ensures calls != [] ==> AfterCalls(m, calls).routing.Some? && Covers(AfterCalls(m, calls).routing.value.privacy, l)
    decreases |calls|
  {
    if calls != [] {
      StrictCallStaysOnDevice(calls[0], l);
      var next := StoredBack(m, calls[0].used.privacy);
      LoopKeepsLevel(m, delegated, calls[0].context.privacy);
      RunStaysOnDevice(next, delegated, calls[1..], l);
      forall i, p | 0 <= i < |calls| && Provider(calls[i].selection.provider, p) in calls[i].providers ensures p.privacy != Cloud {
        assert i > 0 ==> calls[i] == calls[1..][i - 1];
      }
    }
  }

  /**
   End to end: when a memory loaded into the turn is confidential, local-only or unlabelled, or an object of the privacy set is
   confidential, local-only or an unlabelled conversation turn, no model call of the run reaches a cloud provider.
   */
  lemma ConfidentialStaysOnDevice(m: TurnMetadata, memory: Option<Assembly.Loaded>, w: Workspace, project: string, selected: seq<Id>,
                                  m': TurnMetadata, delegated: Option<Label>, calls: seq<ModelCall>)
    requires LoadedWith(m, memory, w, project, selected, m')
    requires memory.Some? ==> Recognised(InitialLabel(m)) && Assembly.AllSupported(Assembly.Applied(memory.value))
    requires memory.None? ==> InitialLabel(m) != Some(Unknown(""))
    requires (memory.Some? && exists x :: x in Assembly.Applied(memory.value) && x.policy in {None, Some(Known(Confidential)), Some(Known(LocalOnly))})
          || (selected != [] && exists x ::
                && x in PrivacySet(w, project, Elements(selected)) && x in w.objects
                && (w.objects[x].privacy in {Present(Confidential), Present(LocalOnly)}
                    || (w.objects[x].privacy == Absent && w.objects[x].kind == ConversationTurn)))
    requires ModelCalls(m', delegated, calls)
    ensures forall i, p | 0 <= i < |calls| && Provider(calls[i].selection.provider, p) in calls[i].providers :: p.privacy != Cloud
    ensures calls != [] ==> AfterCalls(m', calls).routing.Some? && Covers(AfterCalls(m', calls).routing.value.privacy, Confidential)
  {
    ConfidentialTouches(memory, w, project, selected);
    LoadedLevelIsKept(m, memory, w, project, selected, m', delegated, Confidential);
    RunStaysOnDevice(m', delegated, calls, Confidential);
  }

  lemma ConfidentialTouches(memory: Option<Assembly.Loaded>, w: Workspace, project: string, selected: seq<Id>)
    requires (memory.Some? && exists x :: x in Assembly.Applied(memory.value) && x.policy in {None, Some(Known(Confidential)), Some(Known(LocalOnly))})
          || (selected != [] && exists x ::
                && x in PrivacySet(w, project, Elements(selected)) && x in w.objects
                && (w.objects[x].privacy in {Present(Confidential), Present(LocalOnly)}
                    || (w.objects[x].privacy == Absent && w.objects[x].kind == ConversationTurn)))
    ensures TurnTouches(memory, w, project, selected, Confidential)
  {
    if selected != [] {
      if x :| x in PrivacySet(w, project, Elements(selected)) && x in w.objects
            && (w.objects[x].privacy in {Present(Confidential), Present(LocalOnly)}
                || (w.objects[x].privacy == Absent && w.objects[x].kind == ConversationTurn)) {
        assert ObjectDemands(w, project, selected, x, Confidential);
      }
    }
  }

  /// Delegation.

  function ParentOf(d: RoutingDict, confirmCloud: bool, fallback: Option<Fallback>): Parent {
    Parent(d.privacy, confirmCloud, fallback)
  }

  /** The metadata a child run starts with: its own routed context, or the passed one when the delegation already exists. */
  function ChildMetadata(d: RoutingDict, reused: bool, child: Context): TurnMetadata {
    TurnMetadata(Some(if reused then d else RoutingDict(Some(Known(child.privacy)), true)), None)
  }

  // A child starts at least as strict as the routing context passed to it, and its loaded context only adds to that.
  lemma ChildStartsAsStrict(d: RoutingDict, confirmCloud: bool, fallback: Option<Fallback>, reused: bool,
                            profile: Profile, role: string, base: Context, modelOverride: string, effort: Option<Effort>, l: Level)
    requires Covers(d.privacy, l)
    ensures var child := Inherited(WithProfile(profile, role, base, modelOverride, effort), Some(ParentOf(d, confirmCloud, fallback)));
      var level := TurnLevel(ChildMetadata(d, reused, child), None);
      && level.Some? && Strictness(level.value) >= Strictness(l)
      && (!reused ==> level == Some(child.privacy)) && (reused ==> level == Some(d.privacy.value.level))
  {
    ChildStaysWithinParent(profile, role, base, modelOverride, effort, ParentOf(d, confirmCloud, fallback));
  }

  lemma LoadingNeverLowers(m: TurnMetadata, memory: Option<Assembly.Loaded>, w: Workspace, project: string, selected: seq<Id>,
                           m': TurnMetadata, delegated: Option<Label>, l: Level)
    requires LoadedWith(m, memory, w, project, selected, m')
    requires memory.Some? ==> Recognised(InitialLabel(m)) && Assembly.AllSupported(Assembly.Applied(memory.value))
    requires m.routing.Some? && Covers(m.routing.value.privacy, l)
    ensures TurnLevel(m', delegated).Some? && Strictness(TurnLevel(m', delegated).value) >= Strictness(l)
  {
    var remembered := WithMemory(m, MemoryLabel(m, memory));
    if memory.Some? {
      Assembly.FoldIsJoin(InitialLabel(m), Assembly.Applied(memory.value), l);
      MemoryJoinKeeps(m, MemoryLabel(m, memory), delegated, l);
    }
    RoutingStays(m, MemoryLabel(m, memory), l);
    if selected != [] {
      var c: Compiled :| RequirementFor(w, project, Elements(selected), c.privacy) && m' == WithCompiled(remembered, c);
      CompiledCovers(w, project, selected, c, l);
      CompiledKeepsRouting(remembered, c, delegated, l);
    }
  }

  lemma RoutingStays(m: TurnMetadata, required: Option<Label>, l: Level)
    requires m.routing.Some? && Covers(m.routing.value.privacy, l) && Recognised(required)
    ensures WithMemory(m, required).routing.Some? && Covers(WithMemory(m, required).routing.value.privacy, l)
  {
  }

  lemma CompiledKeepsRouting(m: TurnMetadata, c: Compiled, delegated: Option<Label>, l: Level)
    requires m.routing.Some? && Covers(m.routing.value.privacy, l) && Recognised(c.privacy)
    ensures var level := TurnLevel(WithCompiled(m, c), delegated); level.Some? && Strictness(level.value) >= Strictness(l)
  {
  }

  // What a child run loads and calls, from the routing context `d` it was handed. It selects no workspace objects.
  ghost predicate ChildRuns(d: RoutingDict, reused: bool, child: Context, memory: Option<Assembly.Loaded>, calls: seq<ModelCall>) {
    var m := ChildMetadata(d, reused, child);
    && (memory.Some? ==> Recognised(InitialLabel(m)) && Assembly.AllSupported(Assembly.Applied(memory.value)))
    && ModelCalls(WithMemory(m, MemoryLabel(m, memory)), None, calls)
  }

  lemma MemoryNeverLowers(m: TurnMetadata, memory: Option<Assembly.Loaded>, l: Level)
    requires memory.Some? ==> Recognised(InitialLabel(m)) && Assembly.AllSupported(Assembly.Applied(memory.value))
    requires m.routing.Some? && Covers(m.routing.value.privacy, l)
    ensures var m' := WithMemory(m, MemoryLabel(m, memory)); m'.routing.Some? && Covers(m'.routing.value.privacy, l)
  {
    if memory.Some? {
      Assembly.FoldIsJoin(InitialLabel(m), Assembly.Applied(memory.value), l);
    }
    RoutingStays(m, MemoryLabel(m, memory), l);
  }

  lemma StrictLevelIsCovered(m: TurnMetadata, l: Level)
    requires m.routing.Some? && MustStayLocal(l)
    requires TurnLevel(m, None).Some? && Strictness(TurnLevel(m, None).value) >= Strictness(l) && m.privacy.None?
    ensures Covers(m.routing.value.privacy, l)
  {
  }

  // A child handed a strict routing context calls no cloud provider, whatever its profile says and whatever it loads itself.
  lemma StrictChildStaysOnDevice(d: RoutingDict, confirmCloud: bool, fallback: Option<Fallback>, reused: bool, profile: Profile, role: string,
                                 base: Context, modelOverride: string, effort: Option<Effort>, l: Level,
                                 memory: Option<Assembly.Loaded>, calls: seq<ModelCall>)
    requires Covers(d.privacy, l) && (l == Confidential || l == LocalOnly)
    requires ChildRuns(d, reused, Inherited(WithProfile(profile, role, base, modelOverride, effort), Some(ParentOf(d, confirmCloud, fallback))),
                       memory, calls)
    ensures forall i, p | 0 <= i < |calls| && Provider(calls[i].selection.provider, p) in calls[i].providers :: p.privacy != Cloud
  {
    var child := Inherited(WithProfile(profile, role, base, modelOverride, effort), Some(ParentOf(d, confirmCloud, fallback)));
    var m := ChildMetadata(d, reused, child);
    ChildStartsAsStrict(d, confirmCloud, fallback, reused, profile, role, base, modelOverride, effort, l);
    StrictLevelIsCovered(m, l);
    MemoryNeverLowers(m, memory, l);
    RunStaysOnDevice(WithMemory(m, MemoryLabel(m, memory)), None, calls, l);
  }

  /**
   End to end with delegation: when anything the parent loaded is confidential or local-only, a child handed the parent's
   routing context after any of its model calls reaches no cloud provider either.
   */
  lemma ConfidentialStaysOnDeviceInChild(m: TurnMetadata, memory: Option<Assembly.Loaded>, w: Workspace, project: string, selected: seq<Id>,
                                         m': TurnMetadata, delegated: Option<Label>, calls: seq<ModelCall>,
                                         confirmCloud: bool, fallback: Option<Fallback>, reused: bool, profile: Profile, role: string,
                                         base: Context, modelOverride: string, effort: Option<Effort>,
                                         memory2: Option<Assembly.Loaded>, calls2: seq<ModelCall>)
    requires LoadedWith(m, memory, w, project, selected, m')
    requires memory.Some? ==> Recognised(InitialLabel(m)) && Assembly.AllSupported(Assembly.Applied(memory.value))
    requires memory.None? ==> InitialLabel(m) != Some(Unknown(""))
    requires (memory.Some? && exists x :: x in Assembly.Applied(memory.value) && x.policy in {None, Some(Known(Confidential)), Some(Known(LocalOnly))})
          || (selected != [] && exists x ::
                && x in PrivacySet(w, project, Elements(selected)) && x in w.objects
                && (w.objects[x].privacy in {Present(Confidential), Present(LocalOnly)}
                    || (w.objects[x].privacy == Absent && w.objects[x].kind == ConversationTurn)))
    requires ModelCalls(m', delegated, calls) && calls != [] && AfterCalls(m', calls).routing.Some?
    requires var d := AfterCalls(m', calls).routing.value;
      ChildRuns(d, reused, Inherited(WithProfile(profile, role, base, modelOverride, effort), Some(ParentOf(d, confirmCloud, fallback))),
                memory2, calls2)
    ensures forall i, p | 0 <= i < |calls| && Provider(calls[i].selection.provider, p) in calls[i].providers :: p.privacy != Cloud
    ensures forall i, p | 0 <= i < |calls2| && Provider(calls2[i].selection.provider, p) in calls2[i].providers :: p.privacy != Cloud
  {
    ConfidentialStaysOnDevice(m, memory, w, project, selected, m', delegated, calls);
    StrictChildStaysOnDevice(AfterCalls(m', calls).routing.value, confirmCloud, fallback, reused, profile, role, base, modelOverride, effort,
                             Confidential, memory2, calls2);
  }

  /// Runs started by an event (app/events/dispatcher.py:154-196).

  // A resumed run keeps the routing context stored with it; a new run of an automation is local-only whatever its profile.
  function EventContext(profile: Context, automation: bool, stored: Option<Context>): Context {
    if stored.Some? then stored.value
    else if automation then profile.(privacy := LocalOnly, fallback := LocalOnlyFallback)
    else profile
  }

  lemma AutomationIsLocalOnly(profile: Context, automation: bool, stored: Context)
    ensures EventContext(profile, true, None).privacy == LocalOnly && EventContext(profile, true, None).fallback == LocalOnlyFallback
    ensures EventContext(profile, true, None) == profile.(privacy := LocalOnly, fallback := LocalOnlyFallback)
    ensures EventContext(profile, false, None) == profile && EventContext(profile, automation, Some(stored)) == stored
  {
  }

  // The metadata an automation's run starts with, on its first delivery or when it is resumed.
  function AutomationMetadata(first: Context, again: Context, resumed: bool): TurnMetadata {
    var stored := if resumed then Some(EventContext(first, true, None)) else None;
    TurnMetadata(Some(RoutingDict(Some(Known(EventContext(again, true, stored).privacy)), true)), None)
  }

  /** Whichever delivery executes an automation's run, and whatever it loads, none of its model calls reaches a cloud provider. */
  lemma AutomationStaysOnDevice(first: Context, again: Context, resumed: bool, memory: Option<Assembly.Loaded>, w: Workspace,
                                project: string, selected: seq<Id>, m': TurnMetadata, calls: seq<ModelCall>)
    requires LoadedWith(AutomationMetadata(first, again, resumed), memory, w, project, selected, m')
    requires memory.Some? ==> Assembly.AllSupported(Assembly.Applied(memory.value))
    requires ModelCalls(m', None, calls)
    ensures forall i, p | 0 <= i < |calls| && Provider(calls[i].selection.provider, p) in calls[i].providers :: p.privacy != Cloud
  {
    LoadingNeverLowers(AutomationMetadata(first, again, resumed), memory, w, project, selected, m', None, LocalOnly);
    RunStaysOnDevice(m', None, calls, LocalOnly);
  }
}
