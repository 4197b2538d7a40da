/**
 Retrying a confirmed cloud route: the proposal is written into the routing context as the text `provider:model` and
 looked up again by the override path (app/orchestrator/nodes.py:503-538, app/models/routing_policy.py:91-115).
 */
module RouteConfirmation {
  import opened Wrappers
  import opened Privacy
  import opened RoutingPolicy

  function OverrideText(provider: string, model: string): string {
    provider + ":" + model
  }

  function Retried(c: Context, provider: string, model: string): Context {
    c.(modelOverride := OverrideText(provider, model))
  }

  // The registry is a dictionary.
  ghost predicate DistinctNames(providers: seq<Provider>) {
    forall i, j | 0 <= i < j < |providers| :: providers[i].name != providers[j].name
  }

  // The text is split where the provider's name ends exactly when the name has no colon of its own.
  lemma {:induction false} ConfirmedOverrideReadsBack(provider: string, model: string)
    ensures IndexOf(OverrideText(provider, model), ':') == Some(|provider|) <==> ':' !in provider
    ensures IndexOf(OverrideText(provider, model), ':').Some?
    ensures ':' in provider ==> IndexOf(OverrideText(provider, model), ':').value < |provider|
  {
    var text := OverrideText(provider, model);
    IndexOfFirst(text, ':');
    assert text[|provider|] == ':';
    assert text[..|provider|] == provider;
    if ':' in provider {
      var k :| 0 <= k < |provider| && provider[k] == ':';
      assert text[k] == ':';
    }
    var i := IndexOf(text, ':').value;
    if i < |provider| {
      assert provider[i] == ':';
    }
  }

  lemma {:induction false} FindIsTheProvider(providers: seq<Provider>, name: string, m: Metadata)
    requires DistinctNames(providers) && Provider(name, m) in providers
    ensures Find(providers, name) == Some(m)
  {
    if providers[0] != Provider(name, m) {
      var i :| 0 <= i < |providers| && providers[i] == Provider(name, m);
      FindIsTheProvider(providers[1..], name, m);
    }
  }

  /**
   An override names a provider, or a provider and a model: it is available if and only if the provider is registered and lists the
   model, takes any, lists none, or has it as its default.
   */
  lemma OverrideIsAvailableIff(providers: seq<Provider>, name: string, model: string, m: Metadata)
    requires DistinctNames(providers) && ':' !in name
    ensures OverrideTarget(OverrideText(name, model), providers) == Some((name, model, m)) <==>
      && Provider(name, m) in providers
      && (m.models == [] || m.allowArbitrary || model in m.models || (model == m.defaultModel && model != ""))
    ensures OverrideTarget(name, providers) == Some((name, m.defaultModel, m)) <==> Provider(name, m) in providers
  {
    var text := OverrideText(name, model);
    ConfirmedOverrideReadsBack(name, model);
    IndexOfFirst(name, ':');
    assert text[..|name|] == name && text[|name| + 1..] == model;
    FoundIsRegistered(providers, name);
    if Provider(name, m) in providers {
      FindIsTheProvider(providers, name, m);
    }
  }

  lemma CandidateIsAllowed(providers: seq<Provider>, x: Candidate)
    requires x in Candidates(providers)
    ensures ModelAllowed(x.meta, x.model)
  {
    CandidatesAreListed(providers, x);
  }

  lemma ProposalIsRegistered(c: Context, providers: seq<Provider>, primary: string, x: Candidate)
    requires DistinctNames(providers) && Proposes(c, providers, primary, x)
    ensures Find(providers, x.provider) == Some(x.meta) && ModelAllowed(x.meta, x.model) && Satisfies(c, x.meta, x.model)
  {
    var cands := Candidates(providers);
    EligibleMembers(cands, c, primary, x);
    CandidateIsRegistered(providers, x);
    CandidateIsAllowed(providers, x);
    FindIsTheProvider(providers, x.provider, x.meta);
  }

  /** The confirmed text names the proposed route again if and only if the provider's name has no colon. */
  lemma ConfirmedTargetIff(c: Context, providers: seq<Provider>, primary: string, x: Candidate)
    requires DistinctNames(providers) && Proposes(c, providers, primary, x)
    ensures OverrideTarget(OverrideText(x.provider, x.model), providers) == Some((x.provider, x.model, x.meta)) <==> ':' !in x.provider
    ensures ':' in x.provider && OverrideTarget(OverrideText(x.provider, x.model), providers).Some? ==>
      OverrideTarget(OverrideText(x.provider, x.model), providers).value.0 != x.provider
  {
    var text := OverrideText(x.provider, x.model);
    ProposalIsRegistered(c, providers, primary, x);
    ConfirmedOverrideReadsBack(x.provider, x.model);
    assert text[..|x.provider|] == x.provider && text[|x.provider| + 1..] == x.model;
    assert |text[..IndexOf(text, ':').value]| == IndexOf(text, ':').value;
  }

  /**
   After a confirmation the proposed route itself is selected if and only if the provider's name has no colon and the
   override path accepts the effort.
   */
  lemma ConfirmedRouteIsSelectedIff(c: Context, providers: seq<Provider>, primary: string, x: Candidate)
    requires DistinctNames(providers) && Proposes(c, providers, primary, x)
    ensures (exists s :: Picks(Retried(c, x.provider, x.model), providers, primary, s) && s.provider == x.provider && s.model == x.model)
      <==> ':' !in x.provider && OverrideEffort(c, SupportOf(x.meta, x.model)).Ok?
  {
    var retry := Retried(c, x.provider, x.model);
    ProposalIsRegistered(c, providers, primary, x);
    ConfirmedTargetIff(c, providers, primary, x);
    assert Satisfies(retry, x.meta, x.model) && OverrideEffort(retry, SupportOf(x.meta, x.model)) == OverrideEffort(c, SupportOf(x.meta, x.model));
    if ':' !in x.provider && OverrideEffort(c, SupportOf(x.meta, x.model)).Ok? {
      var s := Selection(x.provider, x.model, OverrideEffort(c, SupportOf(x.meta, x.model)).value, SelectedWindow(x.meta, x.model));
      assert Picks(retry, providers, primary, s);
    }
  }

  /// An input on which another provider answers.

  function Asking(): Context {
    Context(None, false, Public, CloudAllowed, "", [], false, false, false, false, None, None, None, None, None, None, false, false, true)
  }

  function CloudProvider(model: string): Metadata {
    Metadata({}, None, map[], LowGrade, LowGrade, Cloud, model, [], true, {}, map[], {}, {})
  }

  function Registry(): seq<Provider> {
    [Provider("a:b", CloudProvider("m")), Provider("a", CloudProvider("n"))]
  }

  // The person confirms "a:b" with model "m"; the retry selects provider "a" with model "b:m".
  lemma ConfirmedRouteGoesElsewhere()
    ensures DistinctNames(Registry()) && Proposes(Asking(), Registry(), "a:b", Candidate("a:b", "m", CloudProvider("m")))
    ensures Picks(Retried(Asking(), "a:b", "m"), Registry(), "a:b", Selection("a", "b:m", Some(TagUnknown), None))
  {
    var first, second := Candidate("a:b", "m", CloudProvider("m")), Candidate("a", "n", CloudProvider("n"));
    assert Registry()[1..] == [Provider("a", CloudProvider("n"))] && Registry()[1..][1..] == [];
    assert ["m"][1..] == [] && ["n"][1..] == [];
    assert Candidates(Registry()[1..]) == [second];
    assert Candidates(Registry()) == [first, second];
    assert [first, second][1..] == [second] && [second][1..] == [];
    assert EligibleOnes([second], Asking(), "a:b") == [second];
    var fit := EligibleOnes([first, second], Asking(), "a:b");
    assert fit == [first, second];
    assert fit[0] == first;
    ConfirmedTextOfAB();
  }

  lemma ConfirmedTextOfAB()
    ensures OverrideTarget(OverrideText("a:b", "m"), Registry()) == Some(("a", "b:m", CloudProvider("n")))
  {
    var text := OverrideText("a:b", "m");
    assert text == "a:b:m" && text[1..] == ":b:m";
    assert IndexOf(text[1..], ':') == Some(0);
    assert IndexOf(text, ':') == Some(1);
    assert text[..1] == "a" && text[2..] == "b:m";
    assert Find(Registry()[1..], "a") == Some(CloudProvider("n"));
  }
}
