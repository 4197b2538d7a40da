/** `ContextAssembler.assemble_context` and `_apply_memory_privacy` (app/memory/context.py:108-275). */
module ContextAssembly {
  import opened Wrappers
  import opened Privacy

  const MAX_PROFILE_CHARS: nat := 8_000
  const MAX_PROJECT_CHARS: nat := 12_000
  const MAX_SEMANTIC_CHARS: nat := 12_000
  const MAX_EPISODE_CHARS: nat := 8_000

  // `policy` is the stored privacy classification, `None` for data written before it was recorded.
  datatype Memory = Memory(id: nat, key: string, content: string, policy: Option<Label>, semantic: bool)

  datatype AssemblyError = UnsupportedMemoryLabel | UnsupportedRoutingLabel

  /** Unlabelled memories have an unknown origin and stay on the device. */
  function Classified(m: Memory): Label {
    if m.policy.Some? then m.policy.value else Known(LocalOnly)
  }

  predicate Supported(m: Memory) {
    Classified(m).Known?
  }

  ghost predicate AllSupported(ms: seq<Memory>) {
    forall m | m in ms :: Supported(m)
  }

  /** The policy after every memory of a list was applied. */
  function Fold(policy: Option<Label>, ms: seq<Memory>): Option<Label> {
    if ms == [] then policy else Stricter(Fold(policy, ms[..|ms| - 1]), Some(Classified(ms[|ms| - 1])))
  }

  // The fold is the join: it covers what the start or one of the memories demands, and nothing more.
  lemma {:induction false} FoldIsJoin(policy: Option<Label>, ms: seq<Memory>, l: Level)
    requires Recognised(policy) && AllSupported(ms)
    ensures Recognised(Fold(policy, ms))
    ensures Covers(Fold(policy, ms), l) <==> Covers(policy, l) || exists m :: m in ms && Covers(Some(Classified(m)), l)
    ensures Fold(policy, ms) == None <==> policy == None && ms == []
  {
    if ms != [] {
      var n := |ms| - 1;
      assert ms == ms[..n] + [ms[n]] && ms[n] in ms;
      FoldIsJoin(policy, ms[..n], l);
      StricterIsLeastUpperBound(Fold(policy, ms[..n]), Some(Classified(ms[n])));
    }
  }

  lemma {:induction false} FoldConcat(policy: Option<Label>, a: seq<Memory>, b: seq<Memory>)
    ensures Fold(policy, a + b) == Fold(Fold(policy, a), b)
  {
    if b == [] {
      assert a + b == a;
    } else {
      var n := |b| - 1;
      FoldConcat(policy, a, b[..n]);
      assert (a + b)[..|a + b| - 1] == a + b[..n];
    }
  }

  /// Which memories a tier takes, in order.

  function Chars(ms: seq<Memory>): nat {
    if ms == [] then 0 else Chars(ms[..|ms| - 1]) + |ms[|ms| - 1].content|
  }

  function Texts(ms: seq<Memory>): seq<string> {
    seq(|ms|, i requires 0 <= i < |ms| => ms[i].content)
  }

  function Ids(ms: seq<Memory>): seq<nat> {
    seq(|ms|, i requires 0 <= i < |ms| => ms[i].id)
  }

  // `known` are the texts already shown as project facts.
  datatype Tier = Conversation | Profile | Project | Episodes | Semantic(known: seq<string>)

  /** The memories whose label was applied, and those whose text is shown. */
  datatype Taken = Taken(applied: seq<Memory>, shown: seq<Memory>)

  function Budget(t: Tier): nat {
    match t
    case Conversation => 0
    case Profile => MAX_PROFILE_CHARS
    case Project => MAX_PROJECT_CHARS
    case Episodes => MAX_EPISODE_CHARS
    case Semantic(_) => MAX_SEMANTIC_CHARS
  }

  predicate Shows(taken: Taken, content: string) {
    exists m :: m in taken.shown && m.content == content
  }

  predicate Fits(t: Tier, taken: Taken, m: Memory) {
    t.Conversation? || Chars(taken.shown) + |m.content| <= Budget(t)
  }

  /** An item the tier never considers. */
  predicate Ignored(t: Tier, m: Memory) {
    match t
    case Conversation => m.content == ""
    case Episodes => m.content == ""
    case Profile => m.key == ""
    case Project => false
    case Semantic(_) => !m.semantic
  }

  /** An item whose text is already in the prompt, so that only its label and id count. */
  predicate Repeated(t: Tier, taken: Taken, m: Memory) {
    match t
    case Project => Shows(taken, m.content)
    case Semantic(known) => m.content in known || Shows(taken, m.content)
    case _ => false
  }

  function Consider(t: Tier, taken: Taken, m: Memory): Taken {
    if Ignored(t, m) then taken
    else if Repeated(t, taken, m) then taken.(applied := taken.applied + [m])
    else if Fits(t, taken, m) then Taken(taken.applied + [m], taken.shown + [m])
    else taken
  }

  // Greedy: an item that does not fit is skipped, later ones may still fit.
  function Select(t: Tier, ms: seq<Memory>): Taken {
    if ms == [] then Taken([], []) else Consider(t, Select(t, ms[..|ms| - 1]), ms[|ms| - 1])
  }

  // Later items never change what was taken before.
  lemma {:induction false} SelectionGrows(t: Tier, ms: seq<Memory>, n: nat)
    requires n <= |ms|
    ensures Select(t, ms[..n]).applied <= Select(t, ms).applied
  {
    if n < |ms| {
      SelectionGrows(t, ms[..|ms| - 1], n);
      assert ms[..|ms| - 1][..n] == ms[..n];
    } else {
      assert ms[..n] == ms;
    }
  }

  lemma UnsupportedSelection(t: Tier, ms: seq<Memory>, i: nat)
    requires i < |ms| && !Supported(ms[i])
    requires Select(t, ms[..i + 1]).applied == Select(t, ms[..i]).applied + [ms[i]]
    ensures !AllSupported(Select(t, ms).applied)
  {
    SelectionGrows(t, ms, i + 1);
    var some, all := Select(t, ms[..i + 1]).applied, Select(t, ms).applied;
    assert some[|some| - 1] == ms[i] && all[|some| - 1] == ms[i];
  }

  lemma OneMoreShown(shown: seq<Memory>, m: Memory)
    ensures Chars(shown + [m]) == Chars(shown) + |m.content|
    ensures Texts(shown + [m]) == Texts(shown) + [m.content] && Ids(shown + [m]) == Ids(shown) + [m.id]
  {
    assert (shown + [m])[..|shown|] == shown;
  }

  lemma OneMoreApplied(policy: Option<Label>, applied: seq<Memory>, m: Memory)
    ensures AllSupported(applied + [m]) <==> AllSupported(applied) && Supported(m)
    ensures Fold(policy, applied + [m]) == Stricter(Fold(policy, applied), Some(Classified(m)))
  {
    var all := applied + [m];
    assert all[..|all| - 1] == applied && all[|all| - 1] == m;
    assert forall x :: x in all <==> x in applied || x == m;
  }

  /**
   One item after another: a tier shows it unless it is empty or nameless, of another kind, known already or too long for what is
   left of the budget; the label is applied to what is shown and to repetitions.
   */
  lemma TierTakes(t: Tier, ms: seq<Memory>, i: nat)
    requires i < |ms|
    ensures var before, after, m := Select(t, ms[..i]), Select(t, ms[..i + 1]), ms[i];
      && after.shown in {before.shown, before.shown + [m]} && after.applied in {before.applied, before.applied + [m]}
      && (after.shown == before.shown + [m] <==>
            match t
            case Conversation => m.content != ""
            case Profile => m.key != "" && Chars(before.shown) + |m.content| <= 8000
            case Episodes => m.content != "" && Chars(before.shown) + |m.content| <= 8000
            case Project => (forall x | x in before.shown :: x.content != m.content) && Chars(before.shown) + |m.content| <= 12000
            case Semantic(known) =>
              m.semantic && m.content !in known && (forall x | x in before.shown :: x.content != m.content)
              && Chars(before.shown) + |m.content| <= 12000)
      && (after.applied == before.applied + [m] <==>
            || after.shown == before.shown + [m]
            || (t.Project? && exists x :: x in before.shown && x.content == m.content)
            || (t.Semantic? && m.semantic && (m.content in t.known || exists x :: x in before.shown && x.content == m.content)))
    ensures Chars([]) == 0 && Chars(Select(t, ms[..i]).shown + [ms[i]]) == Chars(Select(t, ms[..i]).shown) + |ms[i].content|
  {
    assert ms[..i + 1][..i] == ms[..i];
    var before := Select(t, ms[..i]);
    OneMoreShown(before.shown, ms[i]);
    assert |before.shown + [ms[i]]| == |before.shown| + 1 && |before.applied + [ms[i]]| == |before.applied| + 1;
  }

  // A tier stays within its budget, shows nothing without applying its label, and shows no text twice.
  lemma SelectionIsBounded(t: Tier, ms: seq<Memory>)
    ensures var taken := Select(t, ms);
      && (!t.Conversation? ==> Chars(taken.shown) <= if t.Profile? || t.Episodes? then 8000 else 12000)
      && (forall m | m in taken.shown :: m in taken.applied)
      && (t.Project? || t.Semantic? ==> forall i, j | 0 <= i < j < |taken.shown| :: taken.shown[i].content != taken.shown[j].content)
  {
    SelectionInBounds(t, ms);
  }

  lemma {:induction false} SelectionInBounds(t: Tier, ms: seq<Memory>)
    ensures !t.Conversation? ==> Chars(Select(t, ms).shown) <= Budget(t)
    ensures LabelsApplied(Select(t, ms)) && (t.Project? || t.Semantic? ==> Different(Select(t, ms).shown))
  {
    if ms != [] {
      SelectionInBounds(t, ms[..|ms| - 1]);
      ConsiderKeepsBounds(t, Select(t, ms[..|ms| - 1]), ms[|ms| - 1]);
    }
  }

  ghost predicate LabelsApplied(taken: Taken) {
    forall m | m in taken.shown :: m in taken.applied
  }

  ghost predicate Different(shown: seq<Memory>) {
    forall i, j | 0 <= i < j < |shown| :: shown[i].content != shown[j].content
  }

  lemma ConsiderKeepsBounds(t: Tier, taken: Taken, m: Memory)
    requires !t.Conversation? ==> Chars(taken.shown) <= Budget(t)
    requires LabelsApplied(taken) && (t.Project? || t.Semantic? ==> Different(taken.shown))
    ensures !t.Conversation? ==> Chars(Consider(t, taken, m).shown) <= Budget(t)
    ensures LabelsApplied(Consider(t, taken, m))
    ensures t.Project? || t.Semantic? ==> Different(Consider(t, taken, m).shown)
  {
    OneMoreShown(taken.shown, m);
    if (t.Project? || t.Semantic?) && !Shows(taken, m.content) {
      forall i | 0 <= i < |taken.shown| ensures taken.shown[i].content != m.content {
        assert taken.shown[i] in taken.shown;
      }
    }
  }

  lemma ShownTexts(taken: Taken, content: string)
    ensures content in Texts(taken.shown) <==> Shows(taken, content)
  {
    if m :| m in taken.shown && m.content == content {
      var i :| 0 <= i < |taken.shown| && taken.shown[i] == m;
      assert Texts(taken.shown)[i] == content;
    }
  }

  /// The assembled context.

  class AssembledContext {
    var privacy: Option<Label>
    var messages: seq<string>
    var profile: seq<Memory>             // profile facts with their keys and ids, in insertion order
    var projectFacts: seq<string>
    var projectIds: seq<nat>
    var episodes: seq<string>
    var semanticItems: seq<string>

    constructor (initial: Option<Label>)
      ensures privacy == initial && messages == [] && profile == [] && projectFacts == [] && projectIds == []
      ensures episodes == [] && semanticItems == []
    {
      privacy := initial;
      messages, profile, projectFacts, projectIds, episodes, semanticItems := [], [], [], [], [], [];
    }

    /** `_apply_memory_privacy`, on top of the memories applied so far. */
    method Apply(m: Memory, ghost start: Option<Label>, ghost applied: seq<Memory>) returns (ok: bool)
      requires privacy == Fold(start, applied) && AllSupported(applied)
      modifies `privacy
      ensures ok <==> Supported(m)
      ensures ok ==> privacy == Fold(start, applied + [m]) && AllSupported(applied + [m])
    {
      OneMoreApplied(start, applied, m);
      var policy := if m.policy.None? then Known(LocalOnly) else m.policy.value;
      if policy.Unknown? {
        return false;
      }
      privacy := Stricter(privacy, Some(policy));
      ok := true;
    }

    method AddConversation(ms: seq<Memory>) returns (ok: bool)
      requires messages == []
      modifies `privacy, `messages
      ensures ok <==> AllSupported(Select(Conversation, ms).applied)
      ensures ok ==> privacy == Fold(old(privacy), Select(Conversation, ms).applied)
      ensures ok ==> messages == Texts(Select(Conversation, ms).shown)
    {
      ghost var taken := Taken([], []);
      for i := 0 to |ms|
        invariant taken == Select(Conversation, ms[..i]) && AllSupported(taken.applied)
        invariant privacy == Fold(old(privacy), taken.applied) && messages == Texts(taken.shown)
      {
        var m := ms[i];
        assert ms[..i + 1][..i] == ms[..i];
        if m.content == "" {
          continue;
        }
        var applied := Apply(m, old(privacy), taken.applied);
        if !applied {
          UnsupportedSelection(Conversation, ms, i);
          return false;
        }
        messages := messages + [m.content];
        OneMoreShown(taken.shown, m);
        taken := Taken(taken.applied + [m], taken.shown + [m]);
      }
      assert ms[..|ms|] == ms;
      ok := true;
    }

    method AddProfile(ms: seq<Memory>) returns (ok: bool)
      requires profile == []
      modifies `privacy, `profile
      ensures ok <==> AllSupported(Select(Profile, ms).applied)
      ensures ok ==> privacy == Fold(old(privacy), Select(Profile, ms).applied)
      ensures ok ==> profile == Select(Profile, ms).shown
    {
      var chars := 0;
      ghost var taken := Taken([], []);
      for i := 0 to |ms|
        invariant taken == Select(Profile, ms[..i]) && AllSupported(taken.applied)
        invariant privacy == Fold(old(privacy), taken.applied) && profile == taken.shown && chars == Chars(taken.shown)
      {
        var m := ms[i];
        assert ms[..i + 1][..i] == ms[..i];
        if m.key == "" || chars + |m.content| > MAX_PROFILE_CHARS {
          continue;
        }
        var applied := Apply(m, old(privacy), taken.applied);
        if !applied {
          UnsupportedSelection(Profile, ms, i);
          return false;
        }
        profile, chars := profile + [m], chars + |m.content|;
        OneMoreShown(taken.shown, m);
        taken := Taken(taken.applied + [m], taken.shown + [m]);
      }
      assert ms[..|ms|] == ms;
      ok := true;
    }

    method AddEpisodes(ms: seq<Memory>) returns (ok: bool)
      requires episodes == []
      modifies `privacy, `episodes
      ensures ok <==> AllSupported(Select(Episodes, ms).applied)
      ensures ok ==> privacy == Fold(old(privacy), Select(Episodes, ms).applied)
      ensures ok ==> episodes == Texts(Select(Episodes, ms).shown)
    {
      var chars := 0;
      ghost var taken := Taken([], []);
      for i := 0 to |ms|
        invariant taken == Select(Episodes, ms[..i]) && AllSupported(taken.applied)
        invariant privacy == Fold(old(privacy), taken.applied) && episodes == Texts(taken.shown) && chars == Chars(taken.shown)
      {
        var m := ms[i];
        assert ms[..i + 1][..i] == ms[..i];
        if m.content == "" || chars + |m.content| > MAX_EPISODE_CHARS {
          continue;
        }
        var applied := Apply(m, old(privacy), taken.applied);
        if !applied {
          UnsupportedSelection(Episodes, ms, i);
          return false;
        }
        episodes, chars := episodes + [m.content], chars + |m.content|;
        OneMoreShown(taken.shown, m);
        taken := Taken(taken.applied + [m], taken.shown + [m]);
      }
      assert ms[..|ms|] == ms;
      ok := true;
    }

    // The project tier so far: `taken` of its memories, with their texts, ids and labels.
    ghost predicate HoldsProject(start: Option<Label>, taken: Taken, chars: nat)
      reads this
    {
      && AllSupported(taken.applied) && privacy == Fold(start, taken.applied) && chars == Chars(taken.shown)
      && projectFacts == Texts(taken.shown) && projectIds == Ids(taken.applied)
    }

    method AddProjectMemory(m: Memory, chars: nat, ghost start: Option<Label>, ghost taken: Taken) returns (ok: bool, chars': nat)
      requires HoldsProject(start, taken, chars)
      modifies `privacy, `projectFacts, `projectIds
      ensures ok ==> HoldsProject(start, Consider(Project, taken, m), chars')
      ensures !ok ==> !Supported(m) && Consider(Project, taken, m).applied == taken.applied + [m]
    {
      chars' := chars;
      ShownTexts(taken, m.content);
      var included := m.content in projectFacts;
      if !included && chars + |m.content| > MAX_PROJECT_CHARS {
        return true, chars;
      }
      ok := Apply(m, start, taken.applied);
      if !ok {
        return;
      }
      OneMoreShown(taken.applied, m);
      OneMoreShown(taken.shown, m);
      projectIds := projectIds + [m.id];
      if !included {
        projectFacts, chars' := projectFacts + [m.content], chars + |m.content|;
      }
    }

    method AddProject(ms: seq<Memory>) returns (ok: bool)
      requires projectFacts == [] && projectIds == []
      modifies `privacy, `projectFacts, `projectIds
      ensures ok <==> AllSupported(Select(Project, ms).applied)
      ensures ok ==> privacy == Fold(old(privacy), Select(Project, ms).applied)
      ensures ok ==> projectFacts == Texts(Select(Project, ms).shown) && projectIds == Ids(Select(Project, ms).applied)
    {
      var chars := 0;
      for i := 0 to |ms|
        invariant HoldsProject(old(privacy), Select(Project, ms[..i]), chars)
      {
        assert ms[..i + 1][..i] == ms[..i];
        ok, chars := AddProjectMemory(ms[i], chars, old(privacy), Select(Project, ms[..i]));
        if !ok {
          UnsupportedSelection(Project, ms, i);
          return;
        }
      }
      assert ms[..|ms|] == ms;
      ok := true;
    }

    method AddSemantic(ms: seq<Memory>) returns (ok: bool)
      requires semanticItems == []
      modifies `privacy, `semanticItems
      ensures ok <==> AllSupported(Select(Semantic(projectFacts), ms).applied)
      ensures ok ==> privacy == Fold(old(privacy), Select(Semantic(projectFacts), ms).applied)
      ensures ok ==> semanticItems == Texts(Select(Semantic(projectFacts), ms).shown)
    {
      var chars := 0;
      ghost var tier := Semantic(projectFacts);
      ghost var taken := Taken([], []);
      for i := 0 to |ms|
        invariant taken == Select(tier, ms[..i]) && AllSupported(taken.applied)
        invariant privacy == Fold(old(privacy), taken.applied) && chars == Chars(taken.shown)
        invariant semanticItems == Texts(taken.shown)
      {
        var m := ms[i];
        assert ms[..i + 1][..i] == ms[..i];
        ShownTexts(taken, m.content);
        var known := m.content in semanticItems || m.content in projectFacts;
        if !m.semantic || (!known && chars + |m.content| > MAX_SEMANTIC_CHARS) {
          continue;
        }
        var applied := Apply(m, old(privacy), taken.applied);
        if !applied {
          UnsupportedSelection(tier, ms, i);
          return false;
        }
        OneMoreShown(taken.shown, m);
        if !known {
          semanticItems, chars := semanticItems + [m.content], chars + |m.content|;
        }
        taken := Consider(tier, taken, m);
      }
      assert ms[..|ms|] == ms;
      ok := true;
    }
  }

  /// The whole assembly.

  // What the memory service returned for each tier.
  datatype Loaded = Loaded(
    conversation: seq<Memory>, profile: seq<Memory>, project: seq<Memory>, episodes: seq<Memory>, semantic: seq<Memory>)

  function SemanticOf(l: Loaded): Taken {
    Select(Semantic(Texts(Select(Project, l.project).shown)), l.semantic)
  }

  function OfSession(l: Loaded): seq<Memory> {
    Select(Conversation, l.conversation).applied + Select(Profile, l.profile).applied
  }

  function OfProject(l: Loaded): seq<Memory> {
    Select(Project, l.project).applied + Select(Episodes, l.episodes).applied
  }

  function Stored(l: Loaded): seq<Memory> {
    OfSession(l) + OfProject(l)
  }

  /** Every memory the turn loads, in the order in which its label is applied. */
  function Applied(l: Loaded): seq<Memory> {
    Stored(l) + SemanticOf(l).applied
  }

  // Whatever any tier shows has its label applied to the turn.
  lemma ShownIsApplied(l: Loaded, m: Memory)
    requires m in Select(Conversation, l.conversation).shown + Select(Profile, l.profile).shown + Select(Project, l.project).shown
                  + Select(Episodes, l.episodes).shown + SemanticOf(l).shown
    ensures m in Applied(l)
  {
    SelectionIsBounded(Conversation, l.conversation);
    SelectionIsBounded(Profile, l.profile);
    SelectionIsBounded(Project, l.project);
    SelectionIsBounded(Episodes, l.episodes);
    SelectionIsBounded(Semantic(Texts(Select(Project, l.project).shown)), l.semantic);
  }

  // The tiers stored with the session and the project, in their order.
  method AssembleStored(initial: Option<Label>, l: Loaded) returns (c: AssembledContext, ok: bool)
    ensures fresh(c) && c.semanticItems == []
    ensures ok <==> AllSupported(Stored(l))
    ensures ok ==> c.privacy == Fold(initial, Stored(l))
    ensures ok ==> c.messages == Texts(Select(Conversation, l.conversation).shown) && c.profile == Select(Profile, l.profile).shown
    ensures ok ==> c.projectFacts == Texts(Select(Project, l.project).shown)
    ensures ok ==> c.projectIds == Ids(Select(Project, l.project).applied)
    ensures ok ==> c.episodes == Texts(Select(Episodes, l.episodes).shown)
  {
    c := new AssembledContext(initial);
    SupportedInParts(OfSession(l), OfProject(l));
    FoldConcat(initial, OfSession(l), OfProject(l));
    ok := AddSessionTiers(c, l);
    if ok {
      ok := AddProjectTiers(c, l);
    }
  }

  // The conversation and the profile.
  method AddSessionTiers(c: AssembledContext, l: Loaded) returns (ok: bool)
    requires c.messages == [] && c.profile == []
    modifies c`privacy, c`messages, c`profile
    ensures ok <==> AllSupported(OfSession(l))
    ensures ok ==> c.privacy == Fold(old(c.privacy), OfSession(l))
    ensures ok ==> c.messages == Texts(Select(Conversation, l.conversation).shown) && c.profile == Select(Profile, l.profile).shown
  {
    SupportedInParts(Select(Conversation, l.conversation).applied, Select(Profile, l.profile).applied);
    FoldConcat(c.privacy, Select(Conversation, l.conversation).applied, Select(Profile, l.profile).applied);
    ok := c.AddConversation(l.conversation);
    if ok {
      ok := c.AddProfile(l.profile);
    }
  }

  // The project and its episodes.
  method AddProjectTiers(c: AssembledContext, l: Loaded) returns (ok: bool)
    requires c.projectFacts == [] && c.projectIds == [] && c.episodes == []
    modifies c`privacy, c`projectFacts, c`projectIds, c`episodes
    ensures ok <==> AllSupported(OfProject(l))
    ensures ok ==> c.privacy == Fold(old(c.privacy), OfProject(l))
    ensures ok ==> c.projectFacts == Texts(Select(Project, l.project).shown) && c.projectIds == Ids(Select(Project, l.project).applied)
    ensures ok ==> c.episodes == Texts(Select(Episodes, l.episodes).shown)
  {
    SupportedInParts(Select(Project, l.project).applied, Select(Episodes, l.episodes).applied);
    FoldConcat(c.privacy, Select(Project, l.project).applied, Select(Episodes, l.episodes).applied);
    ok := c.AddProject(l.project);
    if ok {
      ok := c.AddEpisodes(l.episodes);
    }
  }

  method Assemble(initial: Option<Label>, l: Loaded) returns (c: AssembledContext, r: Result<Option<Label>, AssemblyError>)
    ensures fresh(c)
    ensures r.Ok? <==> Recognised(initial) && AllSupported(Applied(l))
    ensures r == Err(UnsupportedRoutingLabel) <==> initial.Some? && initial.value.Unknown?
    ensures r.Ok? ==> r.value == c.privacy && c.privacy == Fold(initial, Applied(l))
    ensures r.Ok? ==> c.messages == Texts(Select(Conversation, l.conversation).shown) && c.profile == Select(Profile, l.profile).shown
    ensures r.Ok? ==> c.projectFacts == Texts(Select(Project, l.project).shown) && c.projectIds == Ids(Select(Project, l.project).applied)
    ensures r.Ok? ==> c.episodes == Texts(Select(Episodes, l.episodes).shown) && c.semanticItems == Texts(SemanticOf(l).shown)
  {
    if initial.Some? && initial.value.Unknown? {
      c := new AssembledContext(None);
      return c, Err(UnsupportedRoutingLabel);
    }
    SupportedInParts(Stored(l), SemanticOf(l).applied);
    FoldConcat(initial, Stored(l), SemanticOf(l).applied);
    var ok;
    c, ok := AssembleStored(initial, l);
    if ok {
      ok := c.AddSemantic(l.semantic);
    }
    return c, if ok then Ok(c.privacy) else Err(UnsupportedMemoryLabel);
  }

  lemma SupportedInParts(a: seq<Memory>, b: seq<Memory>)
    ensures AllSupported(a + b) <==> AllSupported(a) && AllSupported(b)
  {
    assert forall m :: m in a + b <==> m in a || m in b;
  }
}
