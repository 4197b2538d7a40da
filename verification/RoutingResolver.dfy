/** Profile routing and inherited boundaries (app/models/routing_resolver.py:113-240). */
module RoutingResolver {
  import opened Wrappers
  import opened Privacy
  import opened RoutingPolicy

  datatype ReasoningConfig = ReasoningConfig(
    policy: ReasoningPolicy, effort: Effort, minEffort: Option<Effort>, maxEffort: Option<Effort>)

  datatype RouteConfig = RouteConfig(
    modelOverride: string,               // empty when there is none
    providerOverride: string,
    reasoning: ReasoningConfig,
    privacy: Option<Level>,
    fallback: Option<Fallback>)

  datatype Profile = Profile(
    privacy: Level, fallback: Fallback, preferLowCost: bool, preferLowLatency: bool, routes: map<string, RouteConfig>)

  const DEFAULT_ROUTE := RouteConfig("", "", ReasoningConfig(FixedReasoning, LowEffort, None, None), None, None)

  function RouteFor(p: Profile, role: string, taskType: Option<string>): RouteConfig {
    var named := if role == "root" && taskType.Some? && taskType.value != "" && taskType.value in p.routes then taskType.value else role;
    if named in p.routes then p.routes[named] else DEFAULT_ROUTE
  }

  /** What a parent's routing context passes down. */
  datatype Parent = Parent(privacy: Option<Label>, confirmCloud: bool, fallback: Option<Fallback>)

  /** The fallback of a child under a parent's: the finite policy table. */
  function NarrowFallback(child: Fallback, parent: Fallback): Fallback {
    if parent.CloudAllowed? then child
    else if child.CloudAllowed? then parent
    else if child == parent then child
    else if NoFallback in {child, parent} then NoFallback
    else if {child, parent} == {LocalOnlyFallback, AskBeforeCloud} then LocalOnlyFallback
    else NoFallback
  }

  /** `a` permits no more than `b`: `none` is the least policy, `cloud_allowed` the greatest, and asking first permits local use. */
  predicate AtMost(a: Fallback, b: Fallback) {
    a == b || a == NoFallback || b == CloudAllowed || (a == LocalOnlyFallback && b == AskBeforeCloud)
  }

  // The table is the meet of that order: what both permit and nothing else, so incomparable policies leave nothing.
  lemma NarrowFallbackIsMeet(a: Fallback, b: Fallback, c: Fallback)
    ensures AtMost(c, NarrowFallback(a, b)) <==> AtMost(c, a) && AtMost(c, b)
    ensures NarrowFallback(LocalOnlyFallback, AskBeforeCloud) == LocalOnlyFallback && NarrowFallback(SameProviderOnly, LocalOnlyFallback) == NoFallback
    ensures NarrowFallback(a, b) == NarrowFallback(b, a)
    ensures NarrowFallback(NarrowFallback(a, b), c) == NarrowFallback(a, NarrowFallback(b, c))
    ensures NarrowFallback(a, a) == a && NarrowFallback(a, CloudAllowed) == a && NarrowFallback(a, NoFallback) == NoFallback
  {
  }

  function Exact(c: Context, messageOverride: string): string {
    if messageOverride != "" then messageOverride else if c.lockAll then c.modelOverride else ""
  }

  function WithProfile(p: Profile, role: string, c: Context, messageOverride: string, effortOverride: Option<Effort>): Context {
    var route := RouteFor(p, role, c.taskType);
    var exact := Exact(c, messageOverride);
    var adaptive := route.reasoning.policy.AdaptiveReasoning?;
    c.(privacy := if route.privacy.Some? then route.privacy.value else p.privacy,
       fallback := if route.fallback.Some? then route.fallback.value else p.fallback,
       preferLowCost := p.preferLowCost,
       preferLowLatency := p.preferLowLatency,
       modelOverride := if exact != "" then exact
                        else if route.modelOverride != "" && route.modelOverride != "auto" then route.modelOverride
                        else route.providerOverride,
       lockAll := c.lockAll || exact != "",
       reasoning := Some(if effortOverride.Some? then FixedReasoning else route.reasoning.policy),
       effort := if effortOverride.Some? then effortOverride else if adaptive then None else Some(route.reasoning.effort),
       effortMin := if effortOverride.Some? then None else route.reasoning.minEffort,
       effortMax := if effortOverride.Some? then None else route.reasoning.maxEffort)
  }

  function Inherited(c: Context, parent: Option<Parent>): Context {
    if parent.None? then c
    else
      var p := parent.value;
      var privacy := Stricter(Some(Known(c.privacy)), p.privacy);
      c.(privacy := if privacy.Some? && privacy.value.Known? then privacy.value.level else c.privacy,
         confirmCloud := c.confirmCloud || p.confirmCloud,
         fallback := if p.fallback.Some? then NarrowFallback(c.fallback, p.fallback.value) else c.fallback)
  }

  /** The mutable routing context both functions write into. */
  class RoutingContext {
    var value: Context

    constructor (value: Context)
      ensures this.value == value
    {
      this.value := value;
    }

    method ApplyProfile(p: Profile, role: string, messageOverride: string, effortOverride: Option<Effort>)
      modifies this
      ensures value == WithProfile(p, role, old(value), messageOverride, effortOverride)
    {
      var c := value;
      var inherited := if c.lockAll then c.modelOverride else "";
      var exact := if messageOverride != "" then messageOverride else inherited;
      var route := RouteFor(p, role, c.taskType);
      var reasoning, effort := route.reasoning.policy, if route.reasoning.policy.FixedReasoning? then Some(route.reasoning.effort) else None;
      var effortMin, effortMax := route.reasoning.minEffort, route.reasoning.maxEffort;
      var model, lockAll := if route.modelOverride != "" && route.modelOverride != "auto"
                            then route.modelOverride else route.providerOverride, c.lockAll;
      if exact != "" {
        model, lockAll := exact, true;
      }
      if effortOverride.Some? {
        reasoning, effort, effortMin, effortMax := FixedReasoning, effortOverride, None, None;
      }
      value := c.(privacy := if route.privacy.Some? then route.privacy.value else p.privacy,
                  fallback := if route.fallback.Some? then route.fallback.value else p.fallback,
                  preferLowCost := p.preferLowCost, preferLowLatency := p.preferLowLatency,
                  modelOverride := model, lockAll := lockAll,
                  reasoning := Some(reasoning), effort := effort, effortMin := effortMin, effortMax := effortMax);
    }

    static method Narrowed(own: Fallback, above: Fallback) returns (fallback: Fallback)
      ensures fallback == NarrowFallback(own, above)
    {
      fallback := own;
      if !above.CloudAllowed? && above != fallback {
        if fallback.CloudAllowed? {
          fallback := above;
        } else if NoFallback in {fallback, above} {
          fallback := NoFallback;
        } else if {fallback, above} == {LocalOnlyFallback, AskBeforeCloud} {
          fallback := LocalOnlyFallback;
        } else {
          fallback := NoFallback;
        }
      }
    }

    method InheritBoundaries(parent: Option<Parent>)
      modifies this
      ensures value == Inherited(old(value), parent)
    {
      if parent.None? {
        return;
      }
      var p := parent.value;
      var privacy, fallback := value.privacy, value.fallback;
      var inherited := Stricter(Some(Known(privacy)), p.privacy);
      if inherited.Some? && inherited.value.Known? {
        privacy := inherited.value.level;
      }
      if p.fallback.Some? {
        fallback := Narrowed(fallback, p.fallback.value);
      }
      value := value.(privacy := privacy, confirmCloud := value.confirmCloud || p.confirmCloud, fallback := fallback);
    }
  }

  // Whatever the child's own profile says, it ends up within its parent's privacy and confirmation.
  lemma ChildStaysWithinParent(p: Profile, role: string, c: Context, messageOverride: string, effortOverride: Option<Effort>, parent: Parent)
    ensures var own := WithProfile(p, role, c, messageOverride, effortOverride);
      var child := Inherited(own, Some(parent));
      && (forall l :: Covers(parent.privacy, l) ==> Strictness(child.privacy) >= Strictness(l))
      && Strictness(child.privacy) >= Strictness(own.privacy)
      && (parent.confirmCloud ==> child.confirmCloud)
      && (if parent.fallback.None? then child.fallback == own.fallback
          else AtMost(child.fallback, own.fallback) && AtMost(child.fallback, parent.fallback.value))
  {
  }

  // The privacy level the profile asks for in this role.
  function ProfilePrivacy(p: Profile, role: string, c: Context): Level {
    var route := RouteFor(p, role, c.taskType);
    if route.privacy.Some? then route.privacy.value else p.privacy
  }

  // A specialist uses the route of its role; the root uses the route of its task when there is one.
  lemma RouteOfRoleOrTask(p: Profile, role: string, taskType: Option<string>)
    ensures role != "root" && role in p.routes ==> RouteFor(p, role, taskType) == p.routes[role]
    ensures role == "root" && taskType.Some? && taskType.value != "" && taskType.value in p.routes ==>
      RouteFor(p, role, taskType) == p.routes[taskType.value]
    ensures role == "root" && "root" in p.routes && (taskType.None? || taskType.value !in p.routes) ==> RouteFor(p, role, taskType) == p.routes["root"]
    ensures role !in p.routes && (role != "root" || taskType.None? || taskType.value !in p.routes) ==>
      RouteFor(p, role, taskType).privacy == None && RouteFor(p, role, taskType).fallback == None
      && RouteFor(p, role, taskType).reasoning.policy == FixedReasoning && RouteFor(p, role, taskType).reasoning.effort == LowEffort
  {
  }

  // The profile decides the policies, the route before the profile as a whole.
  lemma ProfileDecides(p: Profile, role: string, c: Context, messageOverride: string, effortOverride: Option<Effort>)
    ensures var route, d := RouteFor(p, role, c.taskType), WithProfile(p, role, c, messageOverride, effortOverride);
      && (route.privacy == None ==> d.privacy == p.privacy) && (route.privacy.Some? ==> Some(d.privacy) == route.privacy)
      && (route.fallback == None ==> d.fallback == p.fallback) && (route.fallback.Some? ==> Some(d.fallback) == route.fallback)
      && d.preferLowCost == p.preferLowCost && d.preferLowLatency == p.preferLowLatency
      && (messageOverride == "" && !c.lockAll ==> !d.lockAll)
      && (messageOverride == "" && !c.lockAll && route.modelOverride !in {"", "auto"} ==> d.modelOverride == route.modelOverride)
      && (messageOverride == "" && !c.lockAll && route.modelOverride in {"", "auto"} ==> d.modelOverride == route.providerOverride)
  {
  }

  // The bounds of an adaptive route bind every candidate; an effort asked for in the message is used instead.
  lemma ProfileBoundsEffort(p: Profile, role: string, c: Context, messageOverride: string, max: Effort, e: Effort)
    requires var r := RouteFor(p, role, c.taskType).reasoning;
      r.policy == AdaptiveReasoning && r.minEffort.Some? && r.maxEffort.Some? && Order(r.minEffort.value) <= Order(r.maxEffort.value)
    ensures CandidateEffort(WithProfile(p, role, c, messageOverride, None), UpTo(max)) == Some(Some(Chosen(e))) ==>
      var r := RouteFor(p, role, c.taskType).reasoning;
      Order(r.minEffort.value) <= Order(e) <= Order(r.maxEffort.value) && Order(e) <= Order(max)
  {
    var d := WithProfile(p, role, c, messageOverride, None);
    assert d.reasoning == Some(AdaptiveReasoning);
    if CandidateEffort(d, UpTo(max)) == Some(Some(Chosen(e))) {
      AdaptiveEffortIsBounded(d, UpTo(max), e);
    }
  }

  lemma RequestReplacesProfileEffort(p: Profile, role: string, c: Context, messageOverride: string, requested: Effort, max: Effort)
    ensures CandidateEffort(WithProfile(p, role, c, messageOverride, Some(requested)), UpTo(max))
         == if Order(requested) <= Order(max) then Some(Some(Chosen(requested))) else None
  {
    assert WithProfile(p, role, c, messageOverride, Some(requested)).reasoning == Some(FixedReasoning);
  }

  // A cloud provider that can do whatever the turn requires.
  function Capable(c: Context): Metadata {
    Metadata((set x | x in c.requiredCapabilities) + {"long_context"}, None, map[], LowGrade, LowGrade, Cloud, "m", ["m"], false, {}, map[],
             {"m"}, {"m"})
  }

  /**
   Applying a profile lets in no model that the turn's own hard constraints exclude, if and only if the profile keeps a
   turn on the device that had to stay there: every other requirement survives, but the level is the profile's.
   */
  lemma ProfileKeepsConstraintsIff(p: Profile, role: string, c: Context, messageOverride: string, effortOverride: Option<Effort>)
    ensures var d := WithProfile(p, role, c, messageOverride, effortOverride);
      (forall m: Metadata, model: string :: Satisfies(d, m, model) ==> Satisfies(c, m, model))
      <==> (c.privacy in {Confidential, LocalOnly} ==> ProfilePrivacy(p, role, c) in {Confidential, LocalOnly})
  {
    var d := WithProfile(p, role, c, messageOverride, effortOverride);
    if MustStayLocal(c.privacy) && !MustStayLocal(d.privacy) {
      assert Satisfies(d, Capable(c), "m") && !Satisfies(c, Capable(c), "m");
    }
  }

  // A local-only turn under a public profile may go to the cloud.
  lemma PublicProfileLiftsLocalOnly(c: Context)
    requires c.privacy.LocalOnly?
    ensures var d := WithProfile(Profile(Public, CloudAllowed, false, false, map[]), "root", c, "", None);
      Satisfies(d, Capable(c), "m") && !Satisfies(c, Capable(c), "m") && !OnDevice(Capable(c))
  {
  }

  /** Locking the model changes the model and nothing else of what the profile decides. */
  lemma LockChangesOnlyTheModel(p: Profile, role: string, c: Context, model: string, effortOverride: Option<Effort>)
    requires model != ""
    ensures var locked := WithProfile(p, role, c.(lockAll := true, modelOverride := model), "", effortOverride);
      && locked.modelOverride == model && locked == WithProfile(p, role, c, model, effortOverride)
      && locked == WithProfile(p, role, c, "", effortOverride).(lockAll := true, modelOverride := model)
  {
  }
}
