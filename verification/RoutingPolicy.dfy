/** `DeterministicRoutingPolicy.select` (app/models/routing_policy.py). */
module RoutingPolicy {
  import opened Wrappers
  import opened Privacy

  datatype PrivacyStatus = Cloud | Local | Airgap

  datatype Grade = LowGrade | MediumGrade | HighGrade

  datatype Effort = Instant | LowEffort | MediumEffort | HighEffort | MaxEffort

  // `reasoning_support` of a model; absent entries are unknown.
  datatype Support = Unsupported | FixedByModel | UnknownSupport | UpTo(max: Effort) | OtherSupport(name: string)

  datatype Metadata = Metadata(
    capabilities: set<string>,
    window: Option<int>,
    modelWindows: map<string, int>,
    cost: Grade,
    latency: Grade,
    privacy: PrivacyStatus,
    defaultModel: string,
    models: seq<string>,
    allowArbitrary: bool,
    toolsUnsupported: set<string>,       // models whose tool support is known to be missing
    reasoning: map<string, Support>,
    vision: set<string>,
    structured: set<string>)

  datatype Provider = Provider(name: string, meta: Metadata)

  datatype Fallback = NoFallback | SameProviderOnly | LocalOnlyFallback | CloudAllowed | AskBeforeCloud

  datatype ReasoningPolicy = FixedReasoning | AdaptiveReasoning

  datatype Complexity = Simple | Ordinary | Complex

  datatype Context = Context(
    taskType: Option<string>,
    lockAll: bool,                       // the exact model is fixed for the whole thread
    privacy: Level,
    fallback: Fallback,
    modelOverride: string,               // empty when there is none
    requiredCapabilities: seq<string>,
    requiresTools: bool,
    requiresVision: bool,
    requiresStructured: bool,
    requiresLongContext: bool,
    requiredWindow: Option<int>,
    effort: Option<Effort>,
    reasoning: Option<ReasoningPolicy>,
    effortMin: Option<Effort>,
    effortMax: Option<Effort>,
    complexity: Option<Complexity>,
    preferLowCost: bool,
    preferLowLatency: bool,
    confirmCloud: bool)

  datatype Tag = Chosen(effort: Effort) | TagFixed | TagUnknown | TagUnsupported | TagOther(name: string)

  datatype Selection = Selection(provider: string, model: string, effort: Option<Tag>, window: Option<int>)

  datatype RouteError =
    | ModelUnavailable
    | CapabilityMismatch
    | PrivacyBoundary
    | ReasoningUnsupported
    | NoEligibleRoute
    | ConfirmationRequired(provider: string, model: string)

  function Order(e: Effort): nat {
    match e
    case Instant => 0
    case LowEffort => 1
    case MediumEffort => 2
    case HighEffort => 3
    case MaxEffort => 4
  }

  function Min(a: Effort, b: Effort): Effort {
    if Order(b) < Order(a) then b else a
  }

  function Max(a: Effort, b: Effort): Effort {
    if Order(b) > Order(a) then b else a
  }

  function SelectedWindow(m: Metadata, model: string): Option<int> {
    if model in m.modelWindows then Some(m.modelWindows[model]) else m.window
  }

  function SupportOf(m: Metadata, model: string): Support {
    if model in m.reasoning then m.reasoning[model] else UnknownSupport
  }

  predicate OnDevice(m: Metadata) {
    m.privacy in {Local, Airgap}
  }

  predicate MustStayLocal(l: Level) {
    l in {Confidential, LocalOnly}
  }

  /// The hard constraints, one per requirement.

  predicate WindowFits(c: Context, m: Metadata, model: string) {
    c.requiredWindow.Some? && SelectedWindow(m, model).Some? ==> SelectedWindow(m, model).value >= c.requiredWindow.value
  }

  predicate PrivacyFits(c: Context, m: Metadata) {
    MustStayLocal(c.privacy) ==> OnDevice(m)
  }

  predicate CapabilitiesFit(c: Context, m: Metadata) {
    forall x | x in c.requiredCapabilities :: x in m.capabilities
  }

  /** What both the override and the candidate path must enforce. */
  predicate Satisfies(c: Context, m: Metadata, model: string) {
    && WindowFits(c, m, model)
    && PrivacyFits(c, m)
    && CapabilitiesFit(c, m)
    && (c.requiresTools ==> model !in m.toolsUnsupported)
    && (c.requiresVision ==> model in m.vision)
    && (c.requiresStructured ==> model in m.structured)
    && (c.requiresLongContext ==> "long_context" in m.capabilities)
  }

  /// Reasoning effort.

  function TargetEffort(c: Context): Effort {
    match c.complexity
    case Some(Simple) => LowEffort
    case Some(Complex) => HighEffort
    case _ => MediumEffort
  }

  function LowerBound(c: Context): Effort {
    if c.effortMin.Some? then c.effortMin.value else LowEffort
  }

  function UpperBound(c: Context): Effort {
    if c.effortMax.Some? then c.effortMax.value else HighEffort
  }

  function ProfileTarget(c: Context): Effort {
    Max(LowerBound(c), Min(UpperBound(c), TargetEffort(c)))
  }

  predicate IsFixed(c: Context) {
    c.effort.Some? || c.reasoning == Some(FixedReasoning)
  }

  function FixedEffort(c: Context): Effort {
    if c.effort.Some? then c.effort.value else MediumEffort
  }

  /** The effort an explicitly chosen model runs with, or a refusal. */
  function OverrideEffort(c: Context, support: Support): Result<Option<Tag>, RouteError> {
    if IsFixed(c) then
      var wanted := FixedEffort(c);
      if wanted.Instant? then
        match support
        case Unsupported => Err(ReasoningUnsupported)
        case FixedByModel => Ok(Some(TagFixed))
        case UnknownSupport => Ok(Some(TagUnknown))
        case _ => Ok(Some(Chosen(wanted)))
      else if support.UpTo? && Order(wanted) <= Order(support.max) then Ok(Some(Chosen(wanted)))
      else Err(ReasoningUnsupported)
    else if c.reasoning == Some(AdaptiveReasoning) then
      match support
      case Unsupported => Ok(Some(TagUnsupported))
      case FixedByModel => Ok(Some(TagFixed))
      case UnknownSupport => Ok(Some(TagUnknown))
      case UpTo(max) =>
        if Order(max) < Order(LowerBound(c)) then Err(ReasoningUnsupported)
        else Ok(Some(Chosen(Min(ProfileTarget(c), max))))
      case OtherSupport(name) => Ok(Some(TagOther(name)))
    else
      match support
      case FixedByModel => Ok(Some(TagFixed))
      case UnknownSupport => Ok(Some(TagUnknown))
      case _ => Ok(None)
  }

  /** The effort a candidate would run with; `None` drops the candidate. */
  function CandidateEffort(c: Context, support: Support): Option<Option<Tag>> {
    if support.Unsupported? then None
    else if c.reasoning == Some(AdaptiveReasoning) then
      match support
      case FixedByModel => Some(Some(TagFixed))
      case UnknownSupport => Some(Some(TagUnknown))
      case UpTo(max) =>
        if Order(max) < Order(LowerBound(c)) then None else Some(Some(Chosen(Min(ProfileTarget(c), max))))
      case _ => Some(Some(Chosen(ProfileTarget(c))))
    else if IsFixed(c) then
      var wanted := FixedEffort(c);
      match support
      case FixedByModel => if wanted.Instant? then Some(Some(TagFixed)) else None
      case UnknownSupport => if wanted.Instant? then Some(Some(TagUnknown)) else None
      case UpTo(max) => if Order(wanted) <= Order(max) then Some(Some(Chosen(wanted))) else None
      case _ => None
    else
      match support
      case UnknownSupport => Some(None)
      case FixedByModel => Some(Some(TagFixed))
      case UpTo(max) => Some(Some(Chosen(max)))
      case OtherSupport(name) => Some(Some(TagOther(name)))
      case Unsupported => None
  }

  /// What the tables mean.

  lemma EffortsAreOrdered()
    ensures Order(Instant) < Order(LowEffort) < Order(MediumEffort) < Order(HighEffort) < Order(MaxEffort)
  {
  }

  function Distance(a: Effort, b: Effort): nat {
    if Order(a) < Order(b) then Order(b) - Order(a) else Order(a) - Order(b)
  }

  // The effort an adaptive candidate runs with is allowed, and no allowed effort is nearer to what the task calls for.
  lemma AdaptiveEffortIsNearest(c: Context, max: Effort, e: Effort, other: Effort)
    requires c.reasoning == Some(AdaptiveReasoning) && CandidateEffort(c, UpTo(max)) == Some(Some(Chosen(e)))
    requires var low, high := if c.effortMin.Some? then c.effortMin.value else LowEffort, if c.effortMax.Some? then c.effortMax.value else HighEffort;
      Order(low) <= Order(high) && Order(low) <= Order(other) <= Order(high) && Order(other) <= Order(max)
    ensures var wanted := if c.complexity == Some(Simple) then LowEffort else if c.complexity == Some(Complex) then HighEffort else MediumEffort;
      Distance(e, wanted) <= Distance(other, wanted)
  {
  }

  // A candidate is dropped for its effort if and only if the model cannot reason, its maximum is below the adaptive minimum,
  // or a fixed effort is more than the model is known to offer.
  lemma CandidateIsDroppedIff(c: Context, support: Support)
    ensures CandidateEffort(c, support).None? <==>
      || support == Unsupported
      || (c.reasoning == Some(AdaptiveReasoning) && support.UpTo?
            && Order(support.max) < Order(if c.effortMin.Some? then c.effortMin.value else LowEffort))
      || (c.reasoning != Some(AdaptiveReasoning) && (c.effort.Some? || c.reasoning == Some(FixedReasoning))
            && var wanted := if c.effort.Some? then c.effort.value else MediumEffort;
               if support.UpTo? then Order(support.max) < Order(wanted) else support.OtherSupport? || wanted != Instant)
  {
  }

  // A requested effort is what a controllable model runs with on either path; a model that cannot be controlled keeps its own.
  lemma RequestedEffortIsKept(c: Context, support: Support, wanted: Effort)
    requires c.reasoning == Some(FixedReasoning) && wanted == (if c.effort.Some? then c.effort.value else MediumEffort)
    ensures support.UpTo? && Order(wanted) <= Order(support.max) ==>
      OverrideEffort(c, support) == Ok(Some(Chosen(wanted))) && CandidateEffort(c, support) == Some(Some(Chosen(wanted)))
    ensures OverrideEffort(c, support).Err? <==>
      if wanted == Instant then support == Unsupported else !(support.UpTo? && Order(wanted) <= Order(support.max))
    ensures support == FixedByModel && wanted == Instant ==> OverrideEffort(c, support) == Ok(Some(TagFixed))
    ensures support == UnknownSupport && wanted == Instant ==> OverrideEffort(c, support) == Ok(Some(TagUnknown))
  {
  }

  // Without a requested effort an adaptive override runs just as a candidate would, and is refused when that is dropped.
  lemma AdaptiveOverrideAgrees(c: Context, max: Effort)
    requires c.reasoning == Some(AdaptiveReasoning) && c.effort == None
    ensures OverrideEffort(c, UpTo(max)).Ok? <==> CandidateEffort(c, UpTo(max)).Some?
    ensures OverrideEffort(c, UpTo(max)).Ok? ==> Some(OverrideEffort(c, UpTo(max)).value) == CandidateEffort(c, UpTo(max))
  {
  }

  // Without a reasoning policy a candidate runs as strongly as its model can, an override says nothing about effort.
  lemma EffortWithoutPolicy(c: Context, support: Support)
    requires c.reasoning == None && c.effort == None
    ensures support.UpTo? ==> CandidateEffort(c, support) == Some(Some(Chosen(support.max))) && OverrideEffort(c, support) == Ok(None)
    ensures support == FixedByModel ==> CandidateEffort(c, support) == Some(Some(TagFixed)) && OverrideEffort(c, support) == Ok(Some(TagFixed))
    ensures support == UnknownSupport ==> CandidateEffort(c, support) == Some(None) && OverrideEffort(c, support) == Ok(Some(TagUnknown))
  {
  }

  // Adaptive reasoning stays inside the profile's bounds and never asks a model for more than it has.
  lemma AdaptiveEffortIsBounded(c: Context, support: Support, e: Effort)
    requires c.reasoning == Some(AdaptiveReasoning) && Order(LowerBound(c)) <= Order(UpperBound(c)) && support.UpTo?
    requires CandidateEffort(c, support) == Some(Some(Chosen(e)))
          || (c.effort.None? && OverrideEffort(c, support) == Ok(Some(Chosen(e))))
    ensures Order(if c.effortMin.Some? then c.effortMin.value else LowEffort) <= Order(e)
    ensures Order(e) <= Order(if c.effortMax.Some? then c.effortMax.value else HighEffort) && Order(e) <= Order(support.max)
  {
  }

  // On the override path a requested effort counts as fixed even under the adaptive policy, so the bounds hold
  // there if and only if no effort is set or the set one lies within them.
  lemma OverrideEffortIsBoundedIff(c: Context, support: Support, e: Effort)
    requires c.reasoning == Some(AdaptiveReasoning) && Order(LowerBound(c)) <= Order(UpperBound(c)) && support.UpTo?
    requires OverrideEffort(c, support) == Ok(Some(Chosen(e)))
    ensures Order(LowerBound(c)) <= Order(e) <= Order(UpperBound(c)) <==>
            c.effort.None? || Order(LowerBound(c)) <= Order(c.effort.value) <= Order(UpperBound(c))
  {
  }

  // An adaptive profile bounded by low effort, with high effort set: an override runs at high, a candidate at low.
  lemma OverrideExceedsProfile(c: Context)
    requires c.reasoning == Some(AdaptiveReasoning) && c.effort == Some(HighEffort) && c.effortMin == None && c.effortMax == Some(LowEffort)
    ensures OverrideEffort(c, UpTo(HighEffort)) == Ok(Some(Chosen(HighEffort))) && Order(HighEffort) > Order(UpperBound(c))
    ensures CandidateEffort(c, UpTo(HighEffort)) == Some(Some(Chosen(LowEffort)))
  {
  }

  /// Override path.

  function IndexOf(s: string, c: char): (i: Option<nat>)
    ensures i.Some? ==> i.value < |s|
  {
    if s == "" then None
    else if s[0] == c then Some(0)
    else
      var i := IndexOf(s[1..], c);
      if i.Some? then Some(i.value + 1) else None
  }

  lemma {:induction false} IndexOfFirst(s: string, c: char)
    ensures match IndexOf(s, c)
      case None => c !in s
      case Some(i) => i < |s| && s[i] == c && forall k | 0 <= k < i :: s[k] != c
  {
    if s != "" && s[0] != c {
      IndexOfFirst(s[1..], c);
      assert s == [s[0]] + s[1..];
    }
  }

  function Find(providers: seq<Provider>, name: string): Option<Metadata> {
    if providers == [] then None
    else if providers[0].name == name then Some(providers[0].meta)
    else Find(providers[1..], name)
  }

  predicate ModelAllowed(m: Metadata, model: string) {
    m.models == [] || m.allowArbitrary || model in m.models || (m.defaultModel != "" && model == m.defaultModel)
  }

  /** The provider and model an override names, when they are available. */
  function OverrideTarget(text: string, providers: seq<Provider>): Option<(string, string, Metadata)> {
    var colon := IndexOf(text, ':');
    if colon.Some? then
      var name, model := text[..colon.value], text[colon.value + 1..];
      var m := Find(providers, name);
      if m.Some? && ModelAllowed(m.value, model) then Some((name, model, m.value)) else None
    else
      var m := Find(providers, text);
      if m.Some? then Some((text, m.value.defaultModel, m.value)) else None
  }

  method SelectOverride(c: Context, providers: seq<Provider>) returns (r: Result<Selection, RouteError>)
    ensures r.Ok? <==>
      && OverrideTarget(c.modelOverride, providers).Some?
      && var (name, model, m) := OverrideTarget(c.modelOverride, providers).value;
         Satisfies(c, m, model) && OverrideEffort(c, SupportOf(m, model)).Ok?
    ensures r.Ok? ==>
      var (name, model, m) := OverrideTarget(c.modelOverride, providers).value;
      r.value == Selection(name, model, OverrideEffort(c, SupportOf(m, model)).value, SelectedWindow(m, model))
    ensures r == Err(ModelUnavailable) <==> OverrideTarget(c.modelOverride, providers).None?
    ensures r == Err(PrivacyBoundary) ==> c.privacy in {Confidential, LocalOnly} && OverrideTarget(c.modelOverride, providers).value.2.privacy == Cloud
    ensures r.Err? ==> !r.error.ConfirmationRequired? && !r.error.NoEligibleRoute?
  {
    var target := OverrideTarget(c.modelOverride, providers);
    if target.None? {
      return Err(ModelUnavailable);
    }
    var (name, model, m) := target.value;
    var window := SelectedWindow(m, model);
    if c.requiredWindow.Some? && window.Some? && window.value < c.requiredWindow.value {
      return Err(CapabilityMismatch);
    }
    if MustStayLocal(c.privacy) && !OnDevice(m) {
      return Err(PrivacyBoundary);
    }
    if exists x :: x in c.requiredCapabilities && x !in m.capabilities {
      return Err(CapabilityMismatch);
    }
    if c.requiresTools && model in m.toolsUnsupported {
      return Err(CapabilityMismatch);
    }
    if c.requiresVision && model !in m.vision {
      return Err(CapabilityMismatch);
    }
    if c.requiresStructured && model !in m.structured {
      return Err(CapabilityMismatch);
    }
    if c.requiresLongContext && "long_context" !in m.capabilities {
      return Err(CapabilityMismatch);
    }
    var effort :- OverrideEffort(c, SupportOf(m, model));
    return Ok(Selection(name, model, effort, window));
  }

  /// Candidate path.

  datatype Candidate = Candidate(provider: string, model: string, meta: Metadata)

  function ModelsOf(name: string, m: Metadata, models: seq<string>): seq<Candidate> {
    if models == [] then [] else [Candidate(name, models[0], m)] + ModelsOf(name, m, models[1..])
  }

  function Candidates(providers: seq<Provider>): seq<Candidate> {
    if providers == [] then []
    else
      var p := providers[0];
      ModelsOf(p.name, p.meta, if p.meta.models == [] then [p.meta.defaultModel] else p.meta.models) + Candidates(providers[1..])
  }

  // A candidate is a model a registered provider lists, or its default model when it lists none.
  lemma {:induction false} CandidatesAreListed(providers: seq<Provider>, x: Candidate)
    ensures x in Candidates(providers) <==> exists p ::
      && p in providers && x.provider == p.name && x.meta == p.meta
      && (if p.meta.models == [] then x.model == p.meta.defaultModel else x.model in p.meta.models)
  {
    if providers != [] {
      var p := providers[0];
      CandidatesAreListed(providers[1..], x);
      ModelsAreListed(p.name, p.meta, if p.meta.models == [] then [p.meta.defaultModel] else p.meta.models, x);
      assert forall q :: q in providers <==> q == p || q in providers[1..];
    }
  }

  lemma {:induction false} ModelsAreListed(name: string, m: Metadata, models: seq<string>, x: Candidate)
    ensures x in ModelsOf(name, m, models) <==> x.provider == name && x.meta == m && x.model in models
  {
    if models != [] {
      ModelsAreListed(name, m, models[1..], x);
    }
  }

  // The filters in the order they are applied.
  datatype Stage =
    | PrivacyStage | CapabilityStage | ToolStage | VisionStage | StructuredStage | LongContextStage | WindowStage | FallbackStage

  predicate Passes(g: Stage, c: Context, primary: string, x: Candidate) {
    match g
    case PrivacyStage => PrivacyFits(c, x.meta)
    case CapabilityStage => CapabilitiesFit(c, x.meta)
    case ToolStage => c.requiresTools ==> x.model !in x.meta.toolsUnsupported
    case VisionStage => c.requiresVision ==> x.model in x.meta.vision
    case StructuredStage => c.requiresStructured ==> x.model in x.meta.structured
    case LongContextStage => c.requiresLongContext ==> "long_context" in x.meta.capabilities
    case WindowStage => WindowFits(c, x.meta, x.model)
    case FallbackStage => FallbackFits(c, primary, x)
  }

  predicate FallbackFits(c: Context, primary: string, x: Candidate) {
    match c.fallback
    case NoFallback => x.provider == primary
    case SameProviderOnly => x.provider == primary
    case LocalOnlyFallback => OnDevice(x.meta)
    case _ => true
  }

  function StageError(g: Stage, c: Context): RouteError {
    match g
    case PrivacyStage => PrivacyBoundary
    case FallbackStage => if c.fallback.LocalOnlyFallback? then PrivacyBoundary else NoEligibleRoute
    case _ => CapabilityMismatch
  }

  function Keep(cands: seq<Candidate>, g: Stage, c: Context, primary: string): seq<Candidate> {
    if cands == [] then []
    else if Passes(g, c, primary, cands[0]) then [cands[0]] + Keep(cands[1..], g, c, primary)
    else Keep(cands[1..], g, c, primary)
  }

  /** Every constraint on a candidate, and an effort it can run with. */
  predicate Eligible(c: Context, primary: string, x: Candidate) {
    && Satisfies(c, x.meta, x.model)
    && FallbackFits(c, primary, x)
    && CandidateEffort(c, SupportOf(x.meta, x.model)).Some?
  }

  function EligibleOnes(cands: seq<Candidate>, c: Context, primary: string): seq<Candidate> {
    if cands == [] then []
    else if Eligible(c, primary, cands[0]) then [cands[0]] + EligibleOnes(cands[1..], c, primary)
    else EligibleOnes(cands[1..], c, primary)
  }

  function WithEffort(cands: seq<Candidate>, c: Context): seq<Candidate> {
    if cands == [] then []
    else if CandidateEffort(c, SupportOf(cands[0].meta, cands[0].model)).Some? then [cands[0]] + WithEffort(cands[1..], c)
    else WithEffort(cands[1..], c)
  }

  datatype Rank = Rank(first: nat, second: nat, third: nat)

  function Score(g: Grade): nat {
    match g case LowGrade => 1 case MediumGrade => 2 case HighGrade => 3
  }

  function RankOf(c: Context, primary: string, x: Candidate): Rank {
    var cost, latency, preference := Score(x.meta.cost), Score(x.meta.latency), if x.provider == primary then 0 else 1;
    if c.preferLowCost && c.preferLowLatency then Rank(cost, latency, preference)
    else if c.preferLowCost then Rank(cost, preference, 0)
    else if c.preferLowLatency then Rank(latency, preference, 0)
    else Rank(preference, cost, 0)
  }

  predicate Better(a: Rank, b: Rank) {
    a.first < b.first || (a.first == b.first && (a.second < b.second || (a.second == b.second && a.third < b.third)))
  }

  // The components are single digits, so the tuple order is the order of one number.
  function Key(r: Rank): nat {
    100 * r.first + 10 * r.second + r.third
  }

  lemma KeyOrdersRanks(c: Context, primary: string, x: Candidate, y: Candidate)
    ensures Better(RankOf(c, primary, x), RankOf(c, primary, y)) <==> Key(RankOf(c, primary, x)) < Key(RankOf(c, primary, y))
  {
  }

  // A candidate with the key it is sorted by.
  datatype Ranked = Ranked(candidate: Candidate, key: nat)

  function RankAll(cands: seq<Candidate>, c: Context, primary: string): seq<Ranked> {
    seq(|cands|, i requires 0 <= i < |cands| => Ranked(cands[i], Key(RankOf(c, primary, cands[i]))))
  }

  /** `q[i]` is the first entry of least key. */
  predicate FirstBestAt(q: seq<Ranked>, i: int) {
    0 <= i < |q| && (forall j | 0 <= j < |q| :: q[i].key <= q[j].key) && forall j | 0 <= j < i :: q[i].key < q[j].key
  }

  ghost predicate HeadIsFirstBest(sorted: seq<Ranked>, q: seq<Ranked>) {
    sorted != [] && exists i :: FirstBestAt(q, i) && sorted[0] == q[i]
  }

  predicate Sorted(q: seq<Ranked>) {
    forall i, j | 0 <= i < j < |q| :: q[i].key <= q[j].key
  }

  /** `sorted` is the stable sort of `q` as far as its order, its entries and its head go. */
  ghost predicate Sorts(sorted: seq<Ranked>, q: seq<Ranked>) {
    Sorted(sorted) && |sorted| == |q| && multiset(sorted) == multiset(q) && (q != [] ==> HeadIsFirstBest(sorted, q))
  }

  // The stable in-place sort: each entry goes behind those of equal rank.
  method SortByRank(q: seq<Ranked>) returns (sorted: seq<Ranked>)
    ensures Sorts(sorted, q)
  {
    sorted := [];
    ghost var taken: seq<Ranked> := [];
    for n := 0 to |q|
      invariant taken == q[..n] && Sorts(sorted, taken)
    {
      TakeOneMore(q, n);
      sorted := InsertByRank(sorted, taken, q[n]);
      taken := taken + [q[n]];
    }
    TakeAll(q);
  }

  lemma TakeAll(q: seq<Ranked>)
    ensures q[..|q|] == q
  {
  }

  method InsertByRank(sorted: seq<Ranked>, ghost q: seq<Ranked>, x: Ranked) returns (sorted': seq<Ranked>)
    requires Sorts(sorted, q)
    ensures Sorts(sorted', q + [x])
  {
    var k := InsertionPoint(sorted, x);
    Inserted(sorted, q, x, k);
    sorted' := sorted[..k] + [x] + sorted[k..];
  }

  lemma TakeOneMore(q: seq<Ranked>, n: nat)
    requires n < |q|
    ensures q[..n + 1] == q[..n] + [q[n]]
  {
  }

  method InsertionPoint(sorted: seq<Ranked>, x: Ranked) returns (k: nat)
    requires Sorted(sorted)
    ensures k <= |sorted| && (forall j | k <= j < |sorted| :: x.key < sorted[j].key) && (k > 0 ==> sorted[k - 1].key <= x.key)
  {
    k := |sorted|;
    while k > 0 && x.key < sorted[k - 1].key
      invariant k <= |sorted| && forall j | k <= j < |sorted| :: x.key < sorted[j].key
    {
      k := k - 1;
    }
  }

  lemma Inserted(sorted: seq<Ranked>, q: seq<Ranked>, x: Ranked, k: nat)
    requires Sorts(sorted, q) && k <= |sorted|
    requires forall j | k <= j < |sorted| :: x.key < sorted[j].key
    requires k > 0 ==> sorted[k - 1].key <= x.key
    ensures Sorts(sorted[..k] + [x] + sorted[k..], q + [x])
  {
    InsertedSorted(sorted, x, k);
    InsertedEntries(sorted, x, k);
    InsertedHead(sorted, q, x, k);
  }

  lemma InsertedSorted(q: seq<Ranked>, x: Ranked, k: nat)
    requires k <= |q| && Sorted(q)
    requires forall j | k <= j < |q| :: x.key < q[j].key
    requires k > 0 ==> q[k - 1].key <= x.key
    ensures Sorted(q[..k] + [x] + q[k..])
  {
    var r := q[..k] + [x] + q[k..];
    forall i, j | 0 <= i < j < |r| ensures r[i].key <= r[j].key {
      assert r[i] == if i < k then q[i] else if i == k then x else q[i - 1];
      assert r[j] == if j < k then q[j] else if j == k then x else q[j - 1];
    }
  }

  lemma InsertedEntries(q: seq<Ranked>, x: Ranked, k: nat)
    requires k <= |q|
    ensures multiset(q[..k] + [x] + q[k..]) == multiset(q) + multiset{x}
  {
    assert q == q[..k] + q[k..];
  }

  lemma InsertedHead(sorted: seq<Ranked>, q: seq<Ranked>, x: Ranked, k: nat)
    requires k <= |sorted| == |q| && Sorted(sorted) && (q != [] ==> HeadIsFirstBest(sorted, q))
    requires forall j | k <= j < |sorted| :: x.key < sorted[j].key
    requires k > 0 ==> sorted[k - 1].key <= x.key
    ensures HeadIsFirstBest(sorted[..k] + [x] + sorted[k..], q + [x])
  {
    var all := q + [x];
    if q == [] {
      assert FirstBestAt(all, 0);
    } else {
      var i :| FirstBestAt(q, i) && sorted[0] == q[i];
      if k == 0 {
        assert FirstBestAt(all, |q|);
      } else {
        assert FirstBestAt(all, i);
      }
    }
  }

  predicate PassesThrough(gs: seq<Stage>, c: Context, primary: string, x: Candidate) {
    forall g | g in gs :: Passes(g, c, primary, x)
  }

  /** The candidates that pass all of the given stages, in order. */
  function KeepThrough(cands: seq<Candidate>, gs: seq<Stage>, c: Context, primary: string): seq<Candidate> {
    if cands == [] then []
    else if PassesThrough(gs, c, primary, cands[0]) then [cands[0]] + KeepThrough(cands[1..], gs, c, primary)
    else KeepThrough(cands[1..], gs, c, primary)
  }

  // One more filter on top of the earlier ones.
  lemma {:induction false} KeepOneMore(cands: seq<Candidate>, gs: seq<Stage>, g: Stage, c: Context, primary: string)
    ensures Keep(KeepThrough(cands, gs, c, primary), g, c, primary) == KeepThrough(cands, gs + [g], c, primary)
  {
    if cands != [] {
      KeepOneMore(cands[1..], gs, g, c, primary);
      var rest := KeepThrough(cands[1..], gs, c, primary);
      assert PassesThrough(gs + [g], c, primary, cands[0])
        <==> PassesThrough(gs, c, primary, cands[0]) && Passes(g, c, primary, cands[0]) by {
        assert forall h :: h in gs + [g] <==> h in gs || h == g;
      }
      if PassesThrough(gs, c, primary, cands[0]) {
        assert ([cands[0]] + rest)[1..] == rest;
      }
    }
  }

  lemma {:induction false} KeepThroughNone(cands: seq<Candidate>, c: Context, primary: string)
    ensures KeepThrough(cands, [], c, primary) == cands
  {
    if cands != [] {
      KeepThroughNone(cands[1..], c, primary);
    }
  }

  const STAGES: seq<Stage> :=
    [PrivacyStage, CapabilityStage, ToolStage, VisionStage, StructuredStage, LongContextStage, WindowStage, FallbackStage]

  lemma AllStages(c: Context, primary: string, x: Candidate)
    ensures PassesThrough(STAGES, c, primary, x) <==> Satisfies(c, x.meta, x.model) && FallbackFits(c, primary, x)
  {
    assert PrivacyStage in STAGES && CapabilityStage in STAGES && ToolStage in STAGES && VisionStage in STAGES;
    assert StructuredStage in STAGES && LongContextStage in STAGES && WindowStage in STAGES && FallbackStage in STAGES;
  }

  lemma {:induction false} FilteredAreEligible(cands: seq<Candidate>, c: Context, primary: string)
    ensures WithEffort(KeepThrough(cands, STAGES, c, primary), c) == EligibleOnes(cands, c, primary)
  {
    if cands != [] {
      FilteredAreEligible(cands[1..], c, primary);
      AllStages(c, primary, cands[0]);
      var rest := KeepThrough(cands[1..], STAGES, c, primary);
      if PassesThrough(STAGES, c, primary, cands[0]) {
        assert ([cands[0]] + rest)[1..] == rest;
      }
    }
  }

  lemma {:induction false} EligibleMembers(cands: seq<Candidate>, c: Context, primary: string, x: Candidate)
    ensures x in EligibleOnes(cands, c, primary) <==> x in cands && Eligible(c, primary, x)
  {
    if cands != [] {
      EligibleMembers(cands[1..], c, primary, x);
      assert x in cands <==> x == cands[0] || x in cands[1..];
    }
  }

  /** The n-th filter is the first one that leaves nothing. */
  ghost predicate EmptiedAt(cands: seq<Candidate>, n: int, c: Context, primary: string) {
    && 0 <= n < |STAGES|
    && KeepThrough(cands, STAGES[..n], c, primary) != [] && KeepThrough(cands, STAGES[..n + 1], c, primary) == []
  }

  /** The filters one after the other; the first one that leaves nothing decides the error. */
  method Filter(cands: seq<Candidate>, c: Context, primary: string) returns (r: Result<seq<Candidate>, RouteError>)
    requires cands != []
    ensures r.Ok? ==> r.value == KeepThrough(cands, STAGES, c, primary) && r.value != []
    ensures r.Err? ==> exists n :: EmptiedAt(cands, n, c, primary) && r.error == StageError(STAGES[n], c)
  {
    var left := cands;
    KeepThroughNone(cands, c, primary);
    for n := 0 to |STAGES|
      invariant left == KeepThrough(cands, STAGES[..n], c, primary) && left != []
    {
      KeepOneMore(cands, STAGES[..n], STAGES[n], c, primary);
      assert STAGES[..n + 1] == STAGES[..n] + [STAGES[n]];
      left := Keep(left, STAGES[n], c, primary);
      if left == [] {
        assert EmptiedAt(cands, n, c, primary);
        return Err(StageError(STAGES[n], c));
      }
    }
    assert STAGES[..|STAGES|] == STAGES;
    return Ok(left);
  }

  lemma {:induction false} KeptCandidatesPass(cands: seq<Candidate>, gs: seq<Stage>, c: Context, primary: string, x: Candidate)
    requires x in KeepThrough(cands, gs, c, primary)
    ensures x in cands && PassesThrough(gs, c, primary, x)
  {
    var rest := KeepThrough(cands[1..], gs, c, primary);
    if x in rest {
      KeptCandidatesPass(cands[1..], gs, c, primary, x);
    }
  }

  ghost predicate AllCloud(providers: seq<Provider>) {
    forall p | p in providers :: p.meta.privacy == Cloud
  }

  lemma {:induction false} PassingCandidatesAreKept(cands: seq<Candidate>, gs: seq<Stage>, c: Context, primary: string, x: Candidate)
    requires x in cands && PassesThrough(gs, c, primary, x)
    ensures x in KeepThrough(cands, gs, c, primary)
  {
    if x != cands[0] {
      PassingCandidatesAreKept(cands[1..], gs, c, primary, x);
    }
  }

  // The turn demands something of the model besides privacy and reasoning.
  predicate Demanding(c: Context) {
    c.requiredCapabilities != [] || c.requiresTools || c.requiresVision || c.requiresStructured || c.requiresLongContext || c.requiredWindow.Some?
  }

  // What the error of a filter says about a candidate it rejects.
  lemma RejectionMeans(g: Stage, c: Context, primary: string, x: Candidate)
    requires !Passes(g, c, primary, x)
    ensures match StageError(g, c)
      case PrivacyBoundary => (c.privacy in {Confidential, LocalOnly} || c.fallback == LocalOnlyFallback) && x.meta.privacy == Cloud
      case CapabilityMismatch => Demanding(c)
      case NoEligibleRoute => c.fallback == NoFallback || c.fallback == SameProviderOnly
      case _ => false
  {
  }

  lemma SomeoneRejected(cands: seq<Candidate>, n: int, c: Context, primary: string) returns (x: Candidate)
    requires EmptiedAt(cands, n, c, primary)
    ensures x in cands && !Passes(STAGES[n], c, primary, x)
  {
    x := KeepThrough(cands, STAGES[..n], c, primary)[0];
    KeptCandidatesPass(cands, STAGES[..n], c, primary, x);
    if Passes(STAGES[n], c, primary, x) {
      assert STAGES[..n + 1] == STAGES[..n] + [STAGES[n]];
      PassingCandidatesAreKept(cands, STAGES[..n + 1], c, primary, x);
    }
  }

  // The first filter leaves nothing only when every provider is in the cloud.
  lemma NobodyStaysLocal(c: Context, providers: seq<Provider>, primary: string)
    requires EmptiedAt(Candidates(providers), 0, c, primary)
    ensures AllCloud(providers)
  {
    forall p | p in providers ensures p.meta.privacy == Cloud {
      var x := Candidate(p.name, if p.meta.models == [] then p.meta.defaultModel else p.meta.models[0], p.meta);
      CandidatesAreListed(providers, x);
      if Passes(PrivacyStage, c, primary, x) {
        assert STAGES[..1] == [PrivacyStage];
        PassingCandidatesAreKept(Candidates(providers), STAGES[..1], c, primary, x);
      }
    }
  }

  lemma FilterErrorMeans(c: Context, providers: seq<Provider>, primary: string, n: int)
    requires EmptiedAt(Candidates(providers), n, c, primary)
    ensures StageError(STAGES[n], c) in {PrivacyBoundary, CapabilityMismatch, NoEligibleRoute}
    ensures StageError(STAGES[n], c) == CapabilityMismatch ==> Demanding(c)
    ensures StageError(STAGES[n], c) == PrivacyBoundary ==>
      c.fallback == LocalOnlyFallback || (c.privacy in {Confidential, LocalOnly} && AllCloud(providers))
    ensures StageError(STAGES[n], c) == NoEligibleRoute ==> c.fallback in {NoFallback, SameProviderOnly}
  {
    var x := SomeoneRejected(Candidates(providers), n, c, primary);
    RejectionMeans(STAGES[n], c, primary, x);
    if n == 0 {
      NobodyStaysLocal(c, providers, primary);
    }
  }

  // When a turn has to stay on the device and every provider is in the cloud, the first filter already leaves nothing.
  lemma PrivacyEmptiesFirst(c: Context, providers: seq<Provider>, primary: string, n: int)
    requires c.privacy == Confidential || c.privacy == LocalOnly
    requires AllCloud(providers) && EmptiedAt(Candidates(providers), n, c, primary)
    ensures StageError(STAGES[n], c) == PrivacyBoundary
  {
    if n > 0 {
      var x := KeepThrough(Candidates(providers), STAGES[..n], c, primary)[0];
      assert STAGES[..n][0] == PrivacyStage && PrivacyStage in STAGES[..n];
      KeptCandidatesPass(Candidates(providers), STAGES[..n], c, primary, x);
      CandidatesAreListed(providers, x);
    }
  }

  // `valid_reasoning_candidates`: the candidates that can run, in order.
  method KeepRunnable(cands: seq<Candidate>, c: Context) returns (valid: seq<Candidate>)
    ensures valid == WithEffort(cands, c)
  {
    valid := [];
    for i := 0 to |cands|
      invariant valid + WithEffort(cands[i..], c) == WithEffort(cands, c)
    {
      assert cands[i..][1..] == cands[i + 1..];
      if CandidateEffort(c, SupportOf(cands[i].meta, cands[i].model)).Some? {
        valid := valid + [cands[i]];
      }
    }
  }

  predicate ConfirmationDue(c: Context, m: Metadata) {
    (c.fallback.AskBeforeCloud? || c.confirmCloud) && m.privacy.Cloud?
  }

  /** The first candidate of least rank among those that satisfy every constraint. */
  ghost predicate IsChoice(cands: seq<Candidate>, c: Context, primary: string, x: Candidate) {
    IsFirstBest(EligibleOnes(cands, c, primary), c, primary, x)
  }

  ghost predicate IsFirstBest(fit: seq<Candidate>, c: Context, primary: string, x: Candidate) {
    exists i :: 0 <= i < |fit| && fit[i] == x
      && (forall j | 0 <= j < |fit| :: !Better(RankOf(c, primary, fit[j]), RankOf(c, primary, x)))
      && (forall j | 0 <= j < i :: Better(RankOf(c, primary, x), RankOf(c, primary, fit[j])))
  }

  function SelectionOf(c: Context, x: Candidate): Selection {
    var effort := CandidateEffort(c, SupportOf(x.meta, x.model));
    Selection(x.provider, x.model, if effort.Some? then effort.value else None, SelectedWindow(x.meta, x.model))
  }

  method SelectCandidate(c: Context, providers: seq<Provider>, primary: string) returns (r: Result<Selection, RouteError>)
    ensures r.Ok? ==> exists x :: IsChoice(Candidates(providers), c, primary, x) && !ConfirmationDue(c, x.meta)
                               && r.value == SelectionOf(c, x)
    ensures r.Err? && r.error.ConfirmationRequired? ==>
      exists x :: IsChoice(Candidates(providers), c, primary, x) && ConfirmationDue(c, x.meta)
               && r.error == ConfirmationRequired(x.provider, x.model)
    ensures r.Err? && !r.error.ConfirmationRequired? ==> EligibleOnes(Candidates(providers), c, primary) == []
    ensures providers != [] && AllCloud(providers) && c.privacy in {Confidential, LocalOnly} ==> r == Err(PrivacyBoundary)
    ensures r == Err(PrivacyBoundary) ==> c.fallback == LocalOnlyFallback || (c.privacy in {Confidential, LocalOnly} && AllCloud(providers))
    ensures r == Err(CapabilityMismatch) ==> Demanding(c)
    ensures r == Err(ReasoningUnsupported) ==>
      c.reasoning == Some(AdaptiveReasoning) || ((c.effort.Some? || c.reasoning == Some(FixedReasoning)) && c.effort != Some(Instant))
    ensures r != Err(ModelUnavailable)
  {
    var all := Candidates(providers);
    if all == [] {
      assert providers == [];
      return Err(NoEligibleRoute);
    }
    FilteredAreEligible(all, c, primary);
    var kept := Filter(all, c, primary);
    if kept.Err? {
      ghost var n :| EmptiedAt(all, n, c, primary) && kept.error == StageError(STAGES[n], c);
      NothingKeptIsNothingEligible(all, n, c, primary);
      if AllCloud(providers) && c.privacy in {Confidential, LocalOnly} {
        PrivacyEmptiesFirst(c, providers, primary, n);
      }
      FilterErrorMeans(c, providers, primary, n);
      return Err(kept.error);
    }
    KeptCandidatesPass(all, STAGES, c, primary, kept.value[0]);
    CandidatesAreListed(providers, kept.value[0]);
    assert PrivacyStage == STAGES[0] && Passes(PrivacyStage, c, primary, kept.value[0]);
    var valid := KeepRunnable(kept.value, c);
    if valid == [] {
      if c.reasoning == Some(AdaptiveReasoning) || (IsFixed(c) && !FixedEffort(c).Instant?) {
        return Err(ReasoningUnsupported);
      }
      return Err(NoEligibleRoute);
    }
    var x := Best(valid, c, primary);
    if ConfirmationDue(c, x.meta) {
      return Err(ConfirmationRequired(x.provider, x.model));
    }
    return Ok(SelectionOf(c, x));
  }

  // Sorts and takes the head.
  method Best(valid: seq<Candidate>, c: Context, primary: string) returns (x: Candidate)
    requires valid != []
    ensures IsFirstBest(valid, c, primary, x)
  {
    var ranked := RankAll(valid, c, primary);
    var sorted := SortByRank(ranked);
    x := sorted[0].candidate;
    HeadIsBest(valid, c, primary, ranked, sorted);
  }

  lemma HeadIsBest(fit: seq<Candidate>, c: Context, primary: string, ranked: seq<Ranked>, sorted: seq<Ranked>)
    requires ranked == RankAll(fit, c, primary) && HeadIsFirstBest(sorted, ranked)
    ensures IsFirstBest(fit, c, primary, sorted[0].candidate)
  {
    var i :| FirstBestAt(ranked, i) && sorted[0] == ranked[i];
    LeastKeyIsBest(fit, c, primary, i);
  }

  lemma LeastKeyIsBest(fit: seq<Candidate>, c: Context, primary: string, i: nat)
    requires FirstBestAt(RankAll(fit, c, primary), i)
    ensures IsFirstBest(fit, c, primary, fit[i])
  {
    var ranked := RankAll(fit, c, primary);
    forall j | 0 <= j < |fit|
      ensures !Better(RankOf(c, primary, fit[j]), RankOf(c, primary, fit[i]))
      ensures j < i ==> Better(RankOf(c, primary, fit[i]), RankOf(c, primary, fit[j]))
    {
      KeyOrdersRanks(c, primary, fit[j], fit[i]);
      KeyOrdersRanks(c, primary, fit[i], fit[j]);
      assert ranked[j].key == Key(RankOf(c, primary, fit[j])) && ranked[i].key == Key(RankOf(c, primary, fit[i]));
    }
  }

  lemma EligiblePassesPrefix(c: Context, primary: string, x: Candidate, n: nat)
    requires n <= |STAGES| && Eligible(c, primary, x)
    ensures PassesThrough(STAGES[..n], c, primary, x)
  {
    AllStages(c, primary, x);
    assert forall g | g in STAGES[..n] :: g in STAGES;
  }

  // A stage that leaves nothing means nobody passes all of them.
  lemma {:induction false} NothingKeptIsNothingEligible(cands: seq<Candidate>, n: nat, c: Context, primary: string)
    requires n < |STAGES| && KeepThrough(cands, STAGES[..n + 1], c, primary) == []
    ensures EligibleOnes(cands, c, primary) == []
  {
    if cands != [] {
      NothingKeptIsNothingEligible(cands[1..], n, c, primary);
      if Eligible(c, primary, cands[0]) {
        EligiblePassesPrefix(c, primary, cands[0], n + 1);
      }
    }
  }

  lemma ChoiceIsUnique(cands: seq<Candidate>, c: Context, primary: string, x: Candidate, y: Candidate)
    requires IsChoice(cands, c, primary, x) && IsChoice(cands, c, primary, y)
    ensures x == y && EligibleOnes(cands, c, primary) != []
  {
    var fit := EligibleOnes(cands, c, primary);
    var i :| 0 <= i < |fit| && fit[i] == x && forall j | 0 <= j < i :: Better(RankOf(c, primary, x), RankOf(c, primary, fit[j]));
    var k :| 0 <= k < |fit| && fit[k] == y && forall j | 0 <= j < k :: Better(RankOf(c, primary, y), RankOf(c, primary, fit[j]));
    assert i == k;
  }

  lemma {:induction false} FoundIsRegistered(providers: seq<Provider>, name: string)
    ensures Find(providers, name).Some? ==> Provider(name, Find(providers, name).value) in providers
  {
    if providers != [] && providers[0].name != name {
      FoundIsRegistered(providers[1..], name);
    }
  }

  lemma CandidateIsRegistered(providers: seq<Provider>, x: Candidate)
    ensures x in Candidates(providers) ==> Provider(x.provider, x.meta) in providers
  {
    CandidatesAreListed(providers, x);
  }

  /// The whole policy.

  /** The selected provider is registered with metadata `m` and meets every hard constraint. */
  ghost predicate Chose(c: Context, providers: seq<Provider>, s: Selection, m: Metadata) {
    Provider(s.provider, m) in providers && Satisfies(c, m, s.model)
  }

  // What the candidate path must return: the choice, unless cloud use has to be confirmed first.
  ghost predicate IsRoute(c: Context, providers: seq<Provider>, primary: string, s: Selection) {
    exists x :: IsChoice(Candidates(providers), c, primary, x) && !ConfirmationDue(c, x.meta) && s == SelectionOf(c, x)
  }

  // What the override path must return.
  ghost predicate IsOverrideRoute(c: Context, providers: seq<Provider>, s: Selection) {
    && OverrideTarget(c.modelOverride, providers).Some?
    && var (name, model, m) := OverrideTarget(c.modelOverride, providers).value;
       && Satisfies(c, m, model) && OverrideEffort(c, SupportOf(m, model)).Ok?
       && s == Selection(name, model, OverrideEffort(c, SupportOf(m, model)).value, SelectedWindow(m, model))
  }

  // The candidate path asks for this route to be confirmed.
  ghost predicate Proposes(c: Context, providers: seq<Provider>, primary: string, x: Candidate) {
    c.modelOverride == "" && IsChoice(Candidates(providers), c, primary, x) && ConfirmationDue(c, x.meta)
  }

  ghost predicate Picks(c: Context, providers: seq<Provider>, primary: string, s: Selection) {
    if c.modelOverride == "" then IsRoute(c, providers, primary, s) else IsOverrideRoute(c, providers, s)
  }

  /** Whichever path selects a model, it is a registered one that meets every hard constraint. */
  lemma SelectionMeetsConstraints(c: Context, providers: seq<Provider>, primary: string, s: Selection)
    requires Picks(c, providers, primary, s)
    ensures exists m :: Chose(c, providers, s, m)
  {
    if c.modelOverride == "" {
      RouteMeetsConstraints(c, providers, primary, s);
    } else {
      var (name, model, m) := OverrideTarget(c.modelOverride, providers).value;
      OverrideIsRegistered(c.modelOverride, providers);
      assert Chose(c, providers, s, m);
    }
  }

  /** Field by field: what a selected model offers, on either path. */
  lemma SelectionMeetsDemands(c: Context, providers: seq<Provider>, primary: string, s: Selection) returns (m: Metadata)
    requires Picks(c, providers, primary, s)
    ensures Provider(s.provider, m) in providers
    ensures m.models == [] || m.allowArbitrary || s.model in m.models || s.model == m.defaultModel
    ensures c.privacy == Confidential || c.privacy == LocalOnly ==> m.privacy != Cloud
    ensures forall x | x in c.requiredCapabilities :: x in m.capabilities
    ensures c.requiresTools ==> s.model !in m.toolsUnsupported
    ensures c.requiresVision ==> s.model in m.vision
    ensures c.requiresStructured ==> s.model in m.structured
    ensures c.requiresLongContext ==> "long_context" in m.capabilities
    ensures s.window == (if s.model in m.modelWindows then Some(m.modelWindows[s.model]) else m.window)
    ensures c.requiredWindow.Some? && s.window.Some? ==> c.requiredWindow.value <= s.window.value
  {
    if c.modelOverride == "" {
      var x :| IsChoice(Candidates(providers), c, primary, x) && s == SelectionOf(c, x);
      ChoiceMeetsConstraints(c, providers, primary, x);
      EligibleMembers(Candidates(providers), c, primary, x);
      CandidatesAreListed(providers, x);
      m := x.meta;
    } else {
      OverrideIsRegistered(c.modelOverride, providers);
      m := OverrideTarget(c.modelOverride, providers).value.2;
    }
  }

  // Where cloud use has to be confirmed, only cloud routes are proposed and none is picked without a proposal.
  lemma CloudIsProposedNotPicked(c: Context, providers: seq<Provider>, primary: string, s: Selection, x: Candidate)
    requires c.modelOverride == ""
    ensures Picks(c, providers, primary, s) && (c.fallback == AskBeforeCloud || c.confirmCloud) ==>
      exists m: Metadata :: Provider(s.provider, m) in providers && m.privacy != Cloud
    ensures Proposes(c, providers, primary, x) ==>
      Provider(x.provider, x.meta) in providers && x.meta.privacy == Cloud && (c.fallback == AskBeforeCloud || c.confirmCloud)
  {
    if Picks(c, providers, primary, s) {
      var y :| IsChoice(Candidates(providers), c, primary, y) && !ConfirmationDue(c, y.meta) && s == SelectionOf(c, y);
      ChoiceMeetsConstraints(c, providers, primary, y);
    }
    if Proposes(c, providers, primary, x) {
      ChoiceMeetsConstraints(c, providers, primary, x);
    }
  }

  // Between the chosen candidate and any other that would do, the preferences of the context decide, in their order.
  lemma ChoiceIsPreferred(cands: seq<Candidate>, c: Context, primary: string, x: Candidate, y: Candidate)
    requires IsChoice(cands, c, primary, x) && y in cands && Eligible(c, primary, y)
    ensures c.preferLowCost || (!c.preferLowLatency && (x.provider == primary <==> y.provider == primary)) ==>
      (y.meta.cost == LowGrade ==> x.meta.cost == LowGrade) && (y.meta.cost == MediumGrade ==> x.meta.cost != HighGrade)
    ensures c.preferLowLatency && (!c.preferLowCost || x.meta.cost == y.meta.cost) ==>
      (y.meta.latency == LowGrade ==> x.meta.latency == LowGrade) && (y.meta.latency == MediumGrade ==> x.meta.latency != HighGrade)
    ensures (c.preferLowCost ==> x.meta.cost == y.meta.cost) && (c.preferLowLatency ==> x.meta.latency == y.meta.latency) ==>
      (y.provider == primary ==> x.provider == primary)
  {
    EligibleMembers(cands, c, primary, y);
    var fit := EligibleOnes(cands, c, primary);
    var j :| 0 <= j < |fit| && fit[j] == y;
    assert !Better(RankOf(c, primary, fit[j]), RankOf(c, primary, x));
  }

  // There is a first entry of least key.
  lemma {:induction false} FirstBestExists(q: seq<Ranked>)
    requires q != []
    ensures exists i :: FirstBestAt(q, i)
  {
    var n := |q| - 1;
    if n == 0 {
      assert FirstBestAt(q, 0);
    } else {
      FirstBestExists(q[..n]);
      var i :| FirstBestAt(q[..n], i);
      assert FirstBestAt(q, if q[n].key < q[i].key then n else i);
    }
  }

  /** When some listed model offers everything demanded, a model is selected or proposed for confirmation. */
  lemma FittingModelIsRouted(c: Context, providers: seq<Provider>, primary: string, p: Provider, model: string)
    requires c.modelOverride == "" && p in providers && (if p.meta.models == [] then model == p.meta.defaultModel else model in p.meta.models)
    requires c.privacy == Confidential || c.privacy == LocalOnly || c.fallback == LocalOnlyFallback ==> p.meta.privacy != Cloud
    requires c.fallback == NoFallback || c.fallback == SameProviderOnly ==> p.name == primary
    requires forall x | x in c.requiredCapabilities :: x in p.meta.capabilities
    requires c.requiresTools ==> model !in p.meta.toolsUnsupported
    requires c.requiresVision ==> model in p.meta.vision
    requires c.requiresStructured ==> model in p.meta.structured
    requires c.requiresLongContext ==> "long_context" in p.meta.capabilities
    requires var window := if model in p.meta.modelWindows then Some(p.meta.modelWindows[model]) else p.meta.window;
      c.requiredWindow.Some? && window.Some? ==> c.requiredWindow.value <= window.value
    requires CandidateEffort(c, if model in p.meta.reasoning then p.meta.reasoning[model] else UnknownSupport).Some?
    ensures (exists s :: Picks(c, providers, primary, s)) || (exists x :: Proposes(c, providers, primary, x))
  {
    var y := Candidate(p.name, model, p.meta);
    CandidatesAreListed(providers, y);
    EligibleMembers(Candidates(providers), c, primary, y);
    var fit := EligibleOnes(Candidates(providers), c, primary);
    FirstBestExists(RankAll(fit, c, primary));
    var i :| FirstBestAt(RankAll(fit, c, primary), i);
    LeastKeyIsBest(fit, c, primary, i);
    var x := fit[i];
    if ConfirmationDue(c, x.meta) {
      assert Proposes(c, providers, primary, x);
    } else {
      assert Picks(c, providers, primary, SelectionOf(c, x));
    }
  }

  lemma OverrideIsRegistered(text: string, providers: seq<Provider>)
    requires OverrideTarget(text, providers).Some?
    ensures var (name, model, m) := OverrideTarget(text, providers).value; Provider(name, m) in providers
  {
    var (name, model, m) := OverrideTarget(text, providers).value;
    FoundIsRegistered(providers, name);
  }

  lemma RouteMeetsConstraints(c: Context, providers: seq<Provider>, primary: string, s: Selection)
    requires IsRoute(c, providers, primary, s)
    ensures exists m :: Chose(c, providers, s, m)
  {
    var x :| IsChoice(Candidates(providers), c, primary, x) && s == SelectionOf(c, x);
    ChoiceMeetsConstraints(c, providers, primary, x);
    assert Chose(c, providers, s, x.meta);
  }

  lemma ChoiceMeetsConstraints(c: Context, providers: seq<Provider>, primary: string, x: Candidate)
    requires IsChoice(Candidates(providers), c, primary, x)
    ensures Provider(x.provider, x.meta) in providers && Satisfies(c, x.meta, x.model)
  {
    EligibleMembers(Candidates(providers), c, primary, x);
    CandidateIsRegistered(providers, x);
  }

  lemma NoRouteAfterError(c: Context, providers: seq<Provider>, primary: string, e: RouteError, s: Selection)
    requires c.modelOverride == ""
    requires e.ConfirmationRequired? ==> exists y :: IsChoice(Candidates(providers), c, primary, y) && ConfirmationDue(c, y.meta)
    requires !e.ConfirmationRequired? ==> EligibleOnes(Candidates(providers), c, primary) == []
    ensures !Picks(c, providers, primary, s)
  {
    if e.ConfirmationRequired? {
      var y :| IsChoice(Candidates(providers), c, primary, y) && ConfirmationDue(c, y.meta);
      forall x | IsChoice(Candidates(providers), c, primary, x) ensures x == y {
        ChoiceIsUnique(Candidates(providers), c, primary, x, y);
      }
    }
  }

  method Select(context: Option<Context>, providers: seq<Provider>, primary: string) returns (r: Result<Selection, RouteError>)
    ensures context.Some? && r.Ok? ==> exists m :: Chose(context.value, providers, r.value, m)
    ensures context.Some? ==>
      if r.Ok? then Picks(context.value, providers, primary, r.value)
      else forall s :: !Picks(context.value, providers, primary, s)
    ensures context.Some? && r.Ok? && context.value.privacy in {Confidential, LocalOnly} ==>
      exists m: Metadata :: Provider(r.value.provider, m) in providers && m.privacy != Cloud
    ensures r.Err? && r.error.ConfirmationRequired? ==>
      context.Some? && exists x :: Proposes(context.value, providers, primary, x) && r.error == ConfirmationRequired(x.provider, x.model)
    ensures context.Some? && context.value.modelOverride == "" && context.value.privacy in {Confidential, LocalOnly} && providers != [] ==>
      (forall p | p in providers :: p.meta.privacy == Cloud) ==> r == Err(PrivacyBoundary)
    ensures context.Some? && context.value.modelOverride == "" && r == Err(PrivacyBoundary) ==>
      || context.value.fallback == LocalOnlyFallback
      || (context.value.privacy in {Confidential, LocalOnly} && forall p | p in providers :: p.meta.privacy == Cloud)
    ensures context.Some? && r == Err(ModelUnavailable) ==>
      context.value.modelOverride != "" && OverrideTarget(context.value.modelOverride, providers).None?
    ensures context.Some? && (exists x :: Proposes(context.value, providers, primary, x)) ==> r.Err? && r.error.ConfirmationRequired?
    ensures context.None? ==> r.Ok?
  {
    if context.None? {
      var found := Find(providers, primary);
      var target := if found.Some? then primary else if providers != [] then providers[0].name else "mock";
      var meta := if found.Some? then found else if providers != [] then Some(providers[0].meta) else None;
      var model := if meta.Some? then meta.value.defaultModel else "default";
      return Ok(Selection(target, model, None, if meta.Some? then SelectedWindow(meta.value, model) else None));
    }
    var c := context.value;
    if c.modelOverride != "" {
      r := SelectOverride(c, providers);
      if r.Ok? {
        SelectionMeetsConstraints(c, providers, primary, r.value);
      }
    } else {
      r := SelectCandidate(c, providers, primary);
      if r.Ok? {
        SelectionMeetsConstraints(c, providers, primary, r.value);
      } else {
        forall s ensures !Picks(c, providers, primary, s) {
          NoRouteAfterError(c, providers, primary, r.error, s);
        }
      }
    }
  }
}
