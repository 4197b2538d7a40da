/** What deduplicating research sources amounts to on values (app/research/dedup.py:83-161). */
module SourceDedup {
  import opened Wrappers

  datatype Source = Source(
    canonical: string,
    title: string,
    url: Option<string>,
    year: Option<int>,
    abstract_: Option<string>,
    aliases: seq<string>,
    authors: seq<string>,
    sections: map<string, string>,
    metadata: map<string, string>)

  // Title normalisation and identifier extraction, left abstract.
  datatype Rules = Rules(normalize: string -> string, identify: Source -> string)

  ghost predicate Proper(rules: Rules) {
    forall s :: rules.identify(s) != ""
  }

  predicate Given(o: Option<string>) { o.Some? && o.value != "" }

  predicate GivenYear(o: Option<int>) { o.Some? && o.value != 0 }

  function Identified(rules: Rules, c: Source): Source {
    if c.canonical == "" then c.(canonical := rules.identify(c)) else c
  }

  /// Merging a candidate into the source it matches.

  function AddAlias(aliases: seq<string>, url: Option<string>, alias: string): seq<string> {
    if alias in aliases || url == Some(alias) then aliases else aliases + [alias]
  }

  function AddAliases(aliases: seq<string>, url: Option<string>, more: seq<string>): seq<string> {
    if more == [] then aliases else AddAlias(AddAliases(aliases, url, more[..|more| - 1]), url, more[|more| - 1])
  }

  function AddAuthors(authors: seq<string>, more: seq<string>): seq<string> {
    if more == [] then authors
    else
      var sofar := AddAuthors(authors, more[..|more| - 1]);
      if more[|more| - 1] in sofar then sofar else sofar + [more[|more| - 1]]
  }

  // The longer text of a section wins, the older one on a tie.
  function MergeSections(old_: map<string, string>, more: map<string, string>): map<string, string> {
    map k | k in old_.Keys + more.Keys :: if k in more && (k !in old_ || |more[k]| > |old_[k]|) then more[k] else old_[k]
  }

  predicate Richer(c: Option<string>, s: Option<string>) {
    Given(c) && (!Given(s) || |c.value| > |s.value|)
  }

  function Merged(s: Source, c: Source): Source {
    s.(aliases := AddAliases(AddAliases(s.aliases, s.url, if Given(c.url) then [c.url.value] else []), s.url, c.aliases),
       sections := MergeSections(s.sections, c.sections),
       abstract_ := if Richer(c.abstract_, s.abstract_) then c.abstract_ else s.abstract_,
       authors := AddAuthors(s.authors, c.authors),
       metadata := c.metadata + s.metadata,
       year := if GivenYear(c.year) && !GivenYear(s.year) then c.year else s.year)
  }

  // The source already holds whatever the candidate could add.
  ghost predicate Covers(s: Source, c: Source) {
    && (Given(c.url) ==> Knows(s, c.url.value))
    && (forall a | a in c.aliases :: Knows(s, a))
    && (forall a | a in c.authors :: a in s.authors)
    && (forall k | k in c.sections :: k in s.sections && |c.sections[k]| <= |s.sections[k]|)
    && !Richer(c.abstract_, s.abstract_)
    && c.metadata.Keys <= s.metadata.Keys
    && (GivenYear(c.year) ==> GivenYear(s.year))
  }

  predicate Knows(s: Source, alias: string) {
    alias in s.aliases || s.url == Some(alias)
  }

  // Nothing is lost and nothing gets shorter.
  ghost predicate Grows(s: Source, s': Source) {
    && s'.canonical == s.canonical && s'.title == s.title && s'.url == s.url
    && s.aliases <= s'.aliases && s.authors <= s'.authors
    && (forall k | k in s.sections :: k in s'.sections && (s'.sections[k] == s.sections[k] || |s.sections[k]| < |s'.sections[k]|))
    && (forall k | k in s.metadata :: k in s'.metadata && s'.metadata[k] == s.metadata[k])
    && (s'.abstract_ == s.abstract_ || Richer(s'.abstract_, s.abstract_))
    && (s'.year == s.year || (GivenYear(s'.year) && !GivenYear(s.year)))
  }

  lemma {:induction false} AliasesAreAdded(aliases: seq<string>, url: Option<string>, more: seq<string>)
    ensures aliases <= AddAliases(aliases, url, more)
    ensures forall a | a in more :: a in AddAliases(aliases, url, more) || url == Some(a)
    ensures forall a | a in AddAliases(aliases, url, more) :: a in aliases || a in more
  {
    if more != [] {
      AliasesAreAdded(aliases, url, more[..|more| - 1]);
      assert more == more[..|more| - 1] + [more[|more| - 1]];
    }
  }

  lemma {:induction false} AuthorsAreAdded(authors: seq<string>, more: seq<string>)
    ensures authors <= AddAuthors(authors, more)
    ensures forall a :: a in AddAuthors(authors, more) <==> a in authors || a in more
  {
    if more != [] {
      AuthorsAreAdded(authors, more[..|more| - 1]);
      assert more == more[..|more| - 1] + [more[|more| - 1]];
    }
  }

  /** Merging loses nothing of the source and takes in everything of the candidate. */
  lemma MergeGrowsAndCovers(s: Source, c: Source)
    ensures Grows(s, Merged(s, c)) && Covers(Merged(s, c), c)
  {
    var first := if Given(c.url) then [c.url.value] else [];
    AliasesAreAdded(s.aliases, s.url, first);
    AliasesAreAdded(AddAliases(s.aliases, s.url, first), s.url, c.aliases);
    AuthorsAreAdded(s.authors, c.authors);
  }

  lemma GrowthKeepsCover(s: Source, s': Source, c: Source)
    requires Grows(s, s') && Covers(s, c)
    ensures Covers(s', c)
  {
  }

  lemma GrowsIsOrder(a: Source, b: Source, c: Source)
    ensures Grows(a, a)
    ensures Grows(a, b) && Grows(b, c) ==> Grows(a, c)
    ensures Grows(a, b) && Grows(b, a) ==> a == b
  {
    if Grows(a, b) && Grows(b, a) {
      assert a.sections == b.sections && a.metadata == b.metadata;
    }
  }

  lemma {:induction false} KnownAliasesAddNothing(aliases: seq<string>, url: Option<string>, more: seq<string>)
    requires forall a | a in more :: a in aliases || url == Some(a)
    ensures AddAliases(aliases, url, more) == aliases
  {
    if more != [] {
      KnownAliasesAddNothing(aliases, url, more[..|more| - 1]);
    }
  }

  lemma {:induction false} KnownAuthorsAddNothing(authors: seq<string>, more: seq<string>)
    requires forall a | a in more :: a in authors
    ensures AddAuthors(authors, more) == authors
  {
    if more != [] {
      KnownAuthorsAddNothing(authors, more[..|more| - 1]);
    }
  }

  /** Merging changes nothing if and only if the source already covers the candidate. */
  lemma MergeIsIdleIffCovered(s: Source, c: Source)
    ensures Merged(s, c) == s <==> Covers(s, c)
  {
    MergeGrowsAndCovers(s, c);
    if Covers(s, c) {
      var first := if Given(c.url) then [c.url.value] else [];
      KnownAliasesAddNothing(s.aliases, s.url, first);
      KnownAliasesAddNothing(s.aliases, s.url, c.aliases);
      KnownAuthorsAddNothing(s.authors, c.authors);
      assert MergeSections(s.sections, c.sections) == s.sections;
      assert c.metadata + s.metadata == s.metadata;
    }
  }

  /// The whole pass.

  // `canon` and `titles` are the two lookup maps, from identifier or normalised title to the key of a source.
  datatype Pass = Pass(sources: map<string, Source>, canon: map<string, string>, titles: map<string, string>, added: seq<string>)

  datatype Candidate = Candidate(key: string, source: Source)

  function Index(rules: Rules, sources: map<string, Source>, order: seq<string>): (p: Pass)
    requires forall k | k in order :: k in sources
    ensures p.added == []
  {
    if order == [] then Pass(sources, map[], map[], [])
    else
      var k := order[|order| - 1];
      var p := Index(rules, sources, order[..|order| - 1]);
      Registered(rules, p, k, sources[k])
  }

  // A source is found under its identity unless that is empty.
  function Entered(index: map<string, string>, identity: string, k: string): map<string, string> {
    if identity != "" then index[identity := k] else index
  }

  function Registered(rules: Rules, p: Pass, k: string, s: Source): Pass {
    p.(canon := Entered(p.canon, s.canonical, k), titles := Entered(p.titles, rules.normalize(s.title), k))
  }

  // The canonical identifier decides first, the title only when that is unknown.
  function Match(rules: Rules, p: Pass, c: Source): (m: Option<string>)
    ensures m.Some? ==> m.value in p.canon.Values + p.titles.Values
  {
    var title := rules.normalize(c.title);
    if c.canonical in p.canon then Some(p.canon[c.canonical])
    else if title != "" && title in p.titles then Some(p.titles[title])
    else None
  }

  function Absorb(rules: Rules, p: Pass, c: Candidate): Pass {
    var s := Identified(rules, c.source);
    var m := Match(rules, p, s);
    if m.Some? then (if m.value in p.sources then p.(sources := p.sources[m.value := Merged(p.sources[m.value], s)]) else p)
    else Registered(rules, p, c.key, s).(sources := p.sources[c.key := s], added := p.added + [c.key])
  }

  function AbsorbAll(rules: Rules, p: Pass, cs: seq<Candidate>): Pass {
    if cs == [] then p else Absorb(rules, AbsorbAll(rules, p, cs[..|cs| - 1]), cs[|cs| - 1])
  }

  lemma AbsorbAllAppend(rules: Rules, p: Pass, cs: seq<Candidate>, c: Candidate)
    ensures AbsorbAll(rules, p, cs + [c]) == Absorb(rules, AbsorbAll(rules, p, cs), c)
  {
    assert (cs + [c])[..|cs|] == cs;
  }

  /// Identities stay distinct.

  ghost predicate Apart(identity: Source -> string, s: Source, t: Source) {
    identity(s) != "" ==> identity(s) != identity(t)
  }

  ghost predicate ApartBy(identity: Source -> string, sources: map<string, Source>) {
    forall a, b | a in sources && b in sources && a != b :: Apart(identity, sources[a], sources[b])
  }

  /** No two sources share a canonical identifier or a normalised title. */
  ghost predicate Distinct(rules: Rules, sources: map<string, Source>) {
    ApartBy(Canonical(), sources) && ApartBy(Title(rules), sources)
  }

  // The two identities of a source.
  function Canonical(): Source -> string {
    (s: Source) => s.canonical
  }

  function Title(rules: Rules): Source -> string {
    (s: Source) => rules.normalize(s.title)
  }

  // The index holds exactly the identities of the sources with these keys.
  ghost predicate Exact(identity: Source -> string, index: map<string, string>, sources: map<string, Source>, keys: set<string>) {
    && keys <= sources.Keys
    && (forall k | k in keys :: Findable(identity, index, sources[k], k))
    && (forall i | i in index :: i != "" && index[i] in keys && identity(sources[index[i]]) == i)
  }

  ghost predicate Findable(identity: Source -> string, index: map<string, string>, s: Source, k: string) {
    identity(s) != "" ==> identity(s) in index && index[identity(s)] == k
  }

  lemma ExactIsApart(identity: Source -> string, index: map<string, string>, sources: map<string, Source>)
    requires Exact(identity, index, sources, sources.Keys)
    ensures ApartBy(identity, sources)
  {
    forall a, b | a in sources && b in sources && a != b ensures Apart(identity, sources[a], sources[b]) {
      assert Findable(identity, index, sources[a], a) && Findable(identity, index, sources[b], b);
    }
  }

  lemma EnterKeepsExact(identity: Source -> string, index: map<string, string>, sources: map<string, Source>, keys: set<string>,
                        k: string, s: Source)
    requires Exact(identity, index, sources, keys) && k !in keys && identity(s) !in index
    ensures Exact(identity, Entered(index, identity(s), k), sources[k := s], keys + {k})
  {
    var index', sources' := Entered(index, identity(s), k), sources[k := s];
    forall x | x in keys + {k} ensures Findable(identity, index', sources'[x], x) {
      if x != k {
        assert Findable(identity, index, sources[x], x);
      }
    }
  }

  lemma ApartIsNotEntered(identity: Source -> string, index: map<string, string>, sources: map<string, Source>, keys: set<string>, k: string)
    requires Exact(identity, index, sources, keys) && ApartBy(identity, sources) && k in sources && k !in keys
    ensures identity(sources[k]) !in index
  {
    forall i | i in index ensures i != identity(sources[k]) {
      assert Apart(identity, sources[index[i]], sources[k]);
    }
  }

  lemma ReplaceKeepsExact(identity: Source -> string, index: map<string, string>, sources: map<string, Source>, k: string, s: Source)
    requires Exact(identity, index, sources, sources.Keys) && k in sources && identity(s) == identity(sources[k])
    ensures Exact(identity, index, sources[k := s], sources[k := s].Keys)
  {
    var sources' := sources[k := s];
    forall x | x in sources' ensures Findable(identity, index, sources'[x], x) {
      assert Findable(identity, index, sources[x], x);
    }
  }

  ghost predicate Indexed(rules: Rules, p: Pass, keys: set<string>) {
    Exact(Canonical(), p.canon, p.sources, keys) && Exact(Title(rules), p.titles, p.sources, keys)
  }

  function KeySet(q: seq<string>): set<string> {
    set k | k in q
  }

  ghost predicate Lists(order: seq<string>, sources: map<string, Source>) {
    KeySet(order) <= sources.Keys && forall i, j | 0 <= i < j < |order| :: order[i] != order[j]
  }

  lemma {:induction false} IndexIsExact(rules: Rules, sources: map<string, Source>, order: seq<string>)
    requires Distinct(rules, sources) && Lists(order, sources) && forall k | k in order :: k in sources
    ensures Index(rules, sources, order).sources == sources && Index(rules, sources, order).added == []
    ensures Indexed(rules, Index(rules, sources, order), KeySet(order))
  {
    if order != [] {
      var rest, k := order[..|order| - 1], order[|order| - 1];
      assert order == rest + [k] && KeySet(order) == KeySet(rest) + {k};
      IndexIsExact(rules, sources, rest);
      var p := Index(rules, sources, rest);
      assert sources[k := sources[k]] == sources;
      ApartIsNotEntered(Canonical(), p.canon, sources, KeySet(rest), k);
      ApartIsNotEntered(Title(rules), p.titles, sources, KeySet(rest), k);
      EnterKeepsExact(Canonical(), p.canon, sources, KeySet(rest), k, sources[k]);
      EnterKeepsExact(Title(rules), p.titles, sources, KeySet(rest), k, sources[k]);
    }
  }

  /// One candidate.

  // What a pass keeps of every source it started with.
  ghost predicate AllGrow(sources: map<string, Source>, sources': map<string, Source>) {
    forall k | k in sources :: k in sources' && Grows(sources[k], sources'[k])
  }

  // Some source with one of the candidate's identities holds everything the candidate had.
  ghost predicate Taken(rules: Rules, sources: map<string, Source>, c: Candidate) {
    exists k :: k in sources && Serves(rules, sources[k], Identified(rules, c.source))
  }

  ghost predicate Serves(rules: Rules, s: Source, c: Source) {
    && Covers(s, c)
    && (s.canonical == c.canonical || (rules.normalize(c.title) != "" && rules.normalize(s.title) == rules.normalize(c.title)))
  }

  predicate Found(rules: Rules, p: Pass, c: Candidate) {
    Match(rules, p, Identified(rules, c.source)).Some?
  }

  lemma AbsorbGrows(rules: Rules, p: Pass, c: Candidate)
    requires c.key !in p.sources
    ensures AllGrow(p.sources, Absorb(rules, p, c).sources)
  {
    forall k | k in p.sources ensures Grows(p.sources[k], Absorb(rules, p, c).sources[k]) {
      GrowsIsOrder(p.sources[k], p.sources[k], p.sources[k]);
      MergeGrowsAndCovers(p.sources[k], Identified(rules, c.source));
    }
  }

  lemma AbsorbKeepsIndexed(rules: Rules, p: Pass, c: Candidate)
    requires Proper(rules) && Indexed(rules, p, p.sources.Keys) && c.key !in p.sources
    ensures var p' := Absorb(rules, p, c);
      Indexed(rules, p', p'.sources.Keys) && AllGrow(p.sources, p'.sources)
  {
    AbsorbGrows(rules, p, c);
    var s := Identified(rules, c.source);
    var m := Match(rules, p, s);
    if m.Some? {
      var old_ := p.sources[m.value];
      ReplaceKeepsExact(Canonical(), p.canon, p.sources, m.value, Merged(old_, s));
      ReplaceKeepsExact(Title(rules), p.titles, p.sources, m.value, Merged(old_, s));
    } else {
      EnterKeepsExact(Canonical(), p.canon, p.sources, p.sources.Keys, c.key, s);
      EnterKeepsExact(Title(rules), p.titles, p.sources, p.sources.Keys, c.key, s);
      assert p.sources.Keys + {c.key} == p.sources[c.key := s].Keys;
    }
  }

  lemma AbsorbTakes(rules: Rules, p: Pass, c: Candidate)
    requires Proper(rules) && Indexed(rules, p, p.sources.Keys)
    ensures Taken(rules, Absorb(rules, p, c).sources, c) && Found(rules, Absorb(rules, p, c), c)
    ensures p.canon.Keys <= Absorb(rules, p, c).canon.Keys && p.titles.Keys <= Absorb(rules, p, c).titles.Keys
  {
    var s := Identified(rules, c.source);
    var m, p' := Match(rules, p, s), Absorb(rules, p, c);
    if m.Some? {
      MergeGrowsAndCovers(p.sources[m.value], s);
      assert Serves(rules, p'.sources[m.value], s);
    } else {
      assert Serves(rules, p'.sources[c.key], s);
    }
  }

  lemma TakenStays(rules: Rules, sources: map<string, Source>, sources': map<string, Source>, c: Candidate)
    requires Taken(rules, sources, c) && AllGrow(sources, sources')
    ensures Taken(rules, sources', c)
  {
    var k :| k in sources && Serves(rules, sources[k], Identified(rules, c.source));
    GrowthKeepsCover(sources[k], sources'[k], Identified(rules, c.source));
    assert Serves(rules, sources'[k], Identified(rules, c.source));
  }

  lemma AllGrowIsTransitive(a: map<string, Source>, b: map<string, Source>, c: map<string, Source>)
    requires AllGrow(a, b) && AllGrow(b, c)
    ensures AllGrow(a, c)
  {
    forall k | k in a ensures k in c && Grows(a[k], c[k]) {
      GrowsIsOrder(a[k], b[k], c[k]);
    }
  }

  /// The whole pass.

  // Candidates come with fresh, distinct source ids.
  ghost predicate FreshKeys(sources: map<string, Source>, cs: seq<Candidate>) {
    (forall i | 0 <= i < |cs| :: cs[i].key !in sources) && forall i, j | 0 <= i < j < |cs| :: cs[i].key != cs[j].key
  }

  ghost predicate AllSettled(rules: Rules, p: Pass, cs: seq<Candidate>) {
    forall i | 0 <= i < |cs| :: Settled(rules, p, cs[i])
  }

  function CandidateKeys(cs: seq<Candidate>): set<string> {
    set i | 0 <= i < |cs| :: cs[i].key
  }

  lemma {:induction false} PassKeys(rules: Rules, p: Pass, cs: seq<Candidate>)
    ensures AbsorbAll(rules, p, cs).sources.Keys <= p.sources.Keys + CandidateKeys(cs)
  {
    if cs != [] {
      PassKeys(rules, p, cs[..|cs| - 1]);
      assert CandidateKeys(cs[..|cs| - 1]) <= CandidateKeys(cs) && cs[|cs| - 1].key in CandidateKeys(cs);
    }
  }

  lemma RestIsFresh(rules: Rules, p: Pass, cs: seq<Candidate>)
    requires cs != [] && FreshKeys(p.sources, cs)
    ensures FreshKeys(p.sources, cs[..|cs| - 1]) && cs[|cs| - 1].key !in AbsorbAll(rules, p, cs[..|cs| - 1]).sources
  {
    PassKeys(rules, p, cs[..|cs| - 1]);
  }

  lemma {:induction false} PassKeepsIndexed(rules: Rules, p: Pass, cs: seq<Candidate>)
    requires Proper(rules) && Indexed(rules, p, p.sources.Keys) && FreshKeys(p.sources, cs)
    ensures var p' := AbsorbAll(rules, p, cs); Indexed(rules, p', p'.sources.Keys) && AllGrow(p.sources, p'.sources)
  {
    if cs == [] {
      forall k | k in p.sources ensures Grows(p.sources[k], p.sources[k]) {
        GrowsIsOrder(p.sources[k], p.sources[k], p.sources[k]);
      }
    } else {
      var rest, c := cs[..|cs| - 1], cs[|cs| - 1];
      RestIsFresh(rules, p, cs);
      PassKeepsIndexed(rules, p, rest);
      var q := AbsorbAll(rules, p, rest);
      AbsorbKeepsIndexed(rules, q, c);
      AllGrowIsTransitive(p.sources, q.sources, Absorb(rules, q, c).sources);
    }
  }

  lemma RestIsIndexed(rules: Rules, p: Pass, cs: seq<Candidate>)
    requires Proper(rules) && Indexed(rules, p, p.sources.Keys) && FreshKeys(p.sources, cs) && cs != []
    ensures FreshKeys(p.sources, cs[..|cs| - 1])
    ensures var q := AbsorbAll(rules, p, cs[..|cs| - 1]); Indexed(rules, q, q.sources.Keys) && cs[|cs| - 1].key !in q.sources
  {
    RestIsFresh(rules, p, cs);
    PassKeepsIndexed(rules, p, cs[..|cs| - 1]);
  }

  ghost predicate Settled(rules: Rules, p: Pass, c: Candidate) {
    Taken(rules, p.sources, c) && Found(rules, p, c)
  }

  lemma StaysSettled(rules: Rules, q: Pass, c: Candidate, x: Candidate)
    requires Proper(rules) && Indexed(rules, q, q.sources.Keys) && c.key !in q.sources
    requires x == c || Settled(rules, q, x)
    ensures Settled(rules, Absorb(rules, q, c), x)
  {
    AbsorbTakes(rules, q, c);
    if x != c {
      AbsorbKeepsIndexed(rules, q, c);
      TakenStays(rules, q.sources, Absorb(rules, q, c).sources, x);
    }
  }

  lemma {:induction false} CandidateIsSettled(rules: Rules, p: Pass, cs: seq<Candidate>, i: nat)
    requires Proper(rules) && Indexed(rules, p, p.sources.Keys) && FreshKeys(p.sources, cs) && i < |cs|
    ensures Settled(rules, AbsorbAll(rules, p, cs), cs[i])
  {
    if i < |cs| - 1 {
      RestIsFresh(rules, p, cs);
      CandidateIsSettled(rules, p, cs[..|cs| - 1], i);
    }
    LastKeepsSettled(rules, p, cs, cs[i]);
  }

  lemma LastKeepsSettled(rules: Rules, p: Pass, cs: seq<Candidate>, x: Candidate)
    requires Proper(rules) && Indexed(rules, p, p.sources.Keys) && FreshKeys(p.sources, cs) && cs != []
    requires x == cs[|cs| - 1] || Settled(rules, AbsorbAll(rules, p, cs[..|cs| - 1]), x)
    ensures Settled(rules, AbsorbAll(rules, p, cs), x)
  {
    RestIsIndexed(rules, p, cs);
    StaysSettled(rules, AbsorbAll(rules, p, cs[..|cs| - 1]), cs[|cs| - 1], x);
  }

  lemma PassTakesAll(rules: Rules, p: Pass, cs: seq<Candidate>)
    requires Proper(rules) && Indexed(rules, p, p.sources.Keys) && FreshKeys(p.sources, cs)
    ensures AllSettled(rules, AbsorbAll(rules, p, cs), cs)
  {
    forall i | 0 <= i < |cs| ensures Settled(rules, AbsorbAll(rules, p, cs), cs[i]) {
      CandidateIsSettled(rules, p, cs, i);
    }
  }

  function Deduplicated(rules: Rules, sources: map<string, Source>, order: seq<string>, cs: seq<Candidate>): Pass
    requires forall k | k in order :: k in sources
  {
    AbsorbAll(rules, Index(rules, sources, order), cs)
  }

  /** Deduplication keeps identities distinct, loses and shortens nothing, and takes every candidate in. */
  lemma DeduplicationKeepsEverything(rules: Rules, sources: map<string, Source>, order: seq<string>, cs: seq<Candidate>)
    requires Proper(rules) && Distinct(rules, sources) && Lists(order, sources) && KeySet(order) == sources.Keys && FreshKeys(sources, cs)
    requires forall k | k in order :: k in sources
    ensures var p := Deduplicated(rules, sources, order, cs);
      Distinct(rules, p.sources) && AllGrow(sources, p.sources) && forall i | 0 <= i < |cs| :: Taken(rules, p.sources, cs[i])
  {
    IndexIsExact(rules, sources, order);
    PassKeepsIndexed(rules, Index(rules, sources, order), cs);
    PassTakesAll(rules, Index(rules, sources, order), cs);
    var p := Deduplicated(rules, sources, order, cs);
    forall i | 0 <= i < |cs| ensures Taken(rules, p.sources, cs[i]) {
      assert Settled(rules, p, cs[i]);
    }
    ExactIsApart(Canonical(), p.canon, p.sources);
    ExactIsApart(Title(rules), p.titles, p.sources);
  }

  /// Running it again.

  lemma ExactKeys(identity: Source -> string, index: map<string, string>, index': map<string, string>, sources: map<string, Source>)
    requires Exact(identity, index, sources, sources.Keys) && Exact(identity, index', sources, sources.Keys)
    ensures index == index'
  {
    forall i ensures i in index <==> i in index' {
      if i in index {
        assert Findable(identity, index', sources[index[i]], index[i]);
      }
      if i in index' {
        assert Findable(identity, index, sources[index'[i]], index'[i]);
      }
    }
    forall i | i in index ensures index[i] == index'[i] {
      assert Findable(identity, index', sources[index[i]], index[i]);
    }
  }

  lemma {:induction false} FoundAddsNothing(rules: Rules, p: Pass, cs: seq<Candidate>)
    requires forall i | 0 <= i < |cs| :: Found(rules, p, cs[i])
    ensures var p' := AbsorbAll(rules, p, cs);
      p'.canon == p.canon && p'.titles == p.titles && p'.added == p.added && p'.sources.Keys == p.sources.Keys
  {
    if cs != [] {
      var rest, c := cs[..|cs| - 1], cs[|cs| - 1];
      forall i | 0 <= i < |rest| ensures Found(rules, p, rest[i]) {
        assert rest[i] == cs[i];
      }
      FoundAddsNothing(rules, p, rest);
      assert Found(rules, p, c);
    }
  }

  lemma PassFacts(rules: Rules, sources: map<string, Source>, order: seq<string>, cs: seq<Candidate>)
    requires Proper(rules) && Distinct(rules, sources) && Lists(order, sources) && KeySet(order) == sources.Keys && FreshKeys(sources, cs)
    requires forall k | k in order :: k in sources
    ensures var p := Deduplicated(rules, sources, order, cs);
      Indexed(rules, p, p.sources.Keys) && Distinct(rules, p.sources) && AllSettled(rules, p, cs)
  {
    var p := Deduplicated(rules, sources, order, cs);
    IndexIsExact(rules, sources, order);
    PassKeepsIndexed(rules, Index(rules, sources, order), cs);
    PassTakesAll(rules, Index(rules, sources, order), cs);
    ExactIsApart(Canonical(), p.canon, p.sources);
    ExactIsApart(Title(rules), p.titles, p.sources);
  }

  // Indexing an indexed collection again gives the same lookup maps.
  lemma IndexAgain(rules: Rules, p: Pass, order: seq<string>)
    requires Indexed(rules, p, p.sources.Keys) && Distinct(rules, p.sources) && Lists(order, p.sources) && KeySet(order) == p.sources.Keys
    requires forall k | k in order :: k in p.sources
    ensures Index(rules, p.sources, order) == p.(added := [])
  {
    IndexIsExact(rules, p.sources, order);
    var q := Index(rules, p.sources, order);
    ExactKeys(Canonical(), p.canon, q.canon, p.sources);
    ExactKeys(Title(rules), p.titles, q.titles, p.sources);
  }

  lemma PartnerIsSource(rules: Rules, p: Pass, c: Candidate)
    requires Indexed(rules, p, p.sources.Keys) && Found(rules, p, c)
    ensures Match(rules, p, Identified(rules, c.source)).value in p.sources
  {
  }

  /** A second pass over the same candidates adds no source. */
  lemma SecondPassAddsNothing(rules: Rules, sources: map<string, Source>, order: seq<string>, cs: seq<Candidate>, order': seq<string>)
    requires Proper(rules) && Distinct(rules, sources) && Lists(order, sources) && KeySet(order) == sources.Keys && FreshKeys(sources, cs)
    requires forall k | k in order :: k in sources
    requires var once := Deduplicated(rules, sources, order, cs).sources;
      Lists(order', once) && KeySet(order') == once.Keys && forall k | k in order' :: k in once
    ensures var once := Deduplicated(rules, sources, order, cs).sources;
      var twice := Deduplicated(rules, once, order', cs);
      twice.added == [] && twice.sources.Keys == once.Keys
  {
    var p := Deduplicated(rules, sources, order, cs);
    PassFacts(rules, sources, order, cs);
    IndexAgain(rules, p, order');
    var q := Index(rules, p.sources, order');
    forall i | 0 <= i < |cs| ensures Found(rules, q, cs[i]) {
      assert Settled(rules, p, cs[i]);
    }
    FoundAddsNothing(rules, q, cs);
  }

  // The source a candidate would be merged into.
  function Partner(rules: Rules, p: Pass, c: Candidate): (k: string)
    requires Found(rules, p, c)
  {
    Match(rules, p, Identified(rules, c.source)).value
  }

  ghost predicate Idle(rules: Rules, p: Pass, c: Candidate) {
    Found(rules, p, c) && Partner(rules, p, c) in p.sources && Covers(p.sources[Partner(rules, p, c)], Identified(rules, c.source))
  }

  lemma {:induction false} SourcesOnlyGrow(rules: Rules, p: Pass, cs: seq<Candidate>)
    requires forall i | 0 <= i < |cs| :: Found(rules, p, cs[i])
    ensures AllGrow(p.sources, AbsorbAll(rules, p, cs).sources)
  {
    if cs == [] {
      forall k | k in p.sources ensures Grows(p.sources[k], p.sources[k]) {
        GrowsIsOrder(p.sources[k], p.sources[k], p.sources[k]);
      }
    } else {
      var rest, c := cs[..|cs| - 1], cs[|cs| - 1];
      forall i | 0 <= i < |rest| ensures Found(rules, p, rest[i]) {
        assert rest[i] == cs[i];
      }
      SourcesOnlyGrow(rules, p, rest);
      FoundAddsNothing(rules, p, rest);
      OneGrows(rules, AbsorbAll(rules, p, rest), c);
      AllGrowIsTransitive(p.sources, AbsorbAll(rules, p, rest).sources, AbsorbAll(rules, p, cs).sources);
    }
  }

  lemma OneGrows(rules: Rules, q: Pass, c: Candidate)
    requires Found(rules, q, c)
    ensures AllGrow(q.sources, Absorb(rules, q, c).sources)
  {
    forall k | k in q.sources ensures Grows(q.sources[k], Absorb(rules, q, c).sources[k]) {
      GrowsIsOrder(q.sources[k], q.sources[k], q.sources[k]);
      MergeGrowsAndCovers(q.sources[k], Identified(rules, c.source));
    }
  }

  lemma BackWhereItStarted(a: map<string, Source>, b: map<string, Source>)
    requires AllGrow(a, b) && AllGrow(b, a)
    ensures a == b
  {
    forall k | k in a ensures a[k] == b[k] {
      GrowsIsOrder(a[k], b[k], a[k]);
    }
  }

  lemma {:induction false} IdleChangesNothing(rules: Rules, p: Pass, cs: seq<Candidate>)
    requires forall i | 0 <= i < |cs| :: Idle(rules, p, cs[i])
    ensures AbsorbAll(rules, p, cs) == p
  {
    if cs != [] {
      var rest, c := cs[..|cs| - 1], cs[|cs| - 1];
      forall i | 0 <= i < |rest| ensures Idle(rules, p, rest[i]) {
        assert rest[i] == cs[i];
      }
      IdleChangesNothing(rules, p, rest);
      assert Idle(rules, p, c);
      MergeIsIdleIffCovered(p.sources[Partner(rules, p, c)], Identified(rules, c.source));
    }
  }

  lemma UnchangedIsIdle(rules: Rules, p: Pass, c: Candidate)
    requires Found(rules, p, c) && Partner(rules, p, c) in p.sources && Absorb(rules, p, c).sources == p.sources
    ensures Idle(rules, p, c)
  {
    var k, s := Partner(rules, p, c), Identified(rules, c.source);
    MergeIsIdleIffCovered(p.sources[k], s);
    assert p.sources[k := Merged(p.sources[k], s)][k] == Merged(p.sources[k], s);
  }

  // Nothing undoes a change, so a pass without effect had none at any candidate.
  lemma NoChangeSoFar(rules: Rules, p: Pass, cs: seq<Candidate>)
    requires forall i | 0 <= i < |cs| :: Found(rules, p, cs[i])
    requires AbsorbAll(rules, p, cs).sources == p.sources && cs != []
    ensures AbsorbAll(rules, p, cs[..|cs| - 1]) == p
  {
    var rest, c := cs[..|cs| - 1], cs[|cs| - 1];
    forall i | 0 <= i < |rest| ensures Found(rules, p, rest[i]) {
      assert rest[i] == cs[i];
    }
    FoundAddsNothing(rules, p, rest);
    SourcesOnlyGrow(rules, p, rest);
    OneGrows(rules, AbsorbAll(rules, p, rest), c);
    BackWhereItStarted(p.sources, AbsorbAll(rules, p, rest).sources);
  }

  ghost predicate HavePartners(rules: Rules, p: Pass, cs: seq<Candidate>) {
    forall i | 0 <= i < |cs| :: Found(rules, p, cs[i]) && Partner(rules, p, cs[i]) in p.sources
  }

  lemma RestHavePartners(rules: Rules, p: Pass, cs: seq<Candidate>)
    requires HavePartners(rules, p, cs) && cs != []
    ensures HavePartners(rules, p, cs[..|cs| - 1])
  {
  }

  lemma {:induction false} NoChangeMeansIdle(rules: Rules, p: Pass, cs: seq<Candidate>, i: nat)
    requires HavePartners(rules, p, cs) && AbsorbAll(rules, p, cs).sources == p.sources && i < |cs|
    ensures Idle(rules, p, cs[i])
  {
    NoChangeSoFar(rules, p, cs);
    if i < |cs| - 1 {
      RestHavePartners(rules, p, cs);
      NoChangeMeansIdle(rules, p, cs[..|cs| - 1], i);
    } else {
      UnchangedIsIdle(rules, p, cs[i]);
    }
  }

  /** Repeating a pass changes nothing at all if and only if each candidate's present partner already covers it. */
  lemma RepeatIsIdleIff(rules: Rules, p: Pass, cs: seq<Candidate>)
    requires HavePartners(rules, p, cs)
    ensures AbsorbAll(rules, p, cs) == p <==> forall i | 0 <= i < |cs| :: Idle(rules, p, cs[i])
  {
    if AbsorbAll(rules, p, cs) == p {
      forall i | 0 <= i < |cs| ensures Idle(rules, p, cs[i]) {
        NoChangeMeansIdle(rules, p, cs, i);
      }
    }
    if forall i | 0 <= i < |cs| :: Idle(rules, p, cs[i]) {
      IdleChangesNothing(rules, p, cs);
    }
  }

  /** The second pass over the same candidates changes nothing if and only if each one's partner in the result covers it. */
  lemma SecondPassIsIdleIff(rules: Rules, sources: map<string, Source>, order: seq<string>, cs: seq<Candidate>, order': seq<string>)
    requires Proper(rules) && Distinct(rules, sources) && Lists(order, sources) && KeySet(order) == sources.Keys && FreshKeys(sources, cs)
    requires forall k | k in order :: k in sources
    requires var once := Deduplicated(rules, sources, order, cs).sources;
      Lists(order', once) && KeySet(order') == once.Keys && forall k | k in order' :: k in once
    ensures var once := Deduplicated(rules, sources, order, cs).sources;
      Deduplicated(rules, once, order', cs).sources == once
      <==> forall i | 0 <= i < |cs| :: Idle(rules, Index(rules, once, order'), cs[i])
  {
    var p := Deduplicated(rules, sources, order, cs);
    var q := Index(rules, p.sources, order');
    SecondPassFinds(rules, sources, order, cs, order');
    FoundAddsNothing(rules, q, cs);
    RepeatIsIdleIff(rules, q, cs);
  }

  lemma SecondPassFinds(rules: Rules, sources: map<string, Source>, order: seq<string>, cs: seq<Candidate>, order': seq<string>)
    requires Proper(rules) && Distinct(rules, sources) && Lists(order, sources) && KeySet(order) == sources.Keys && FreshKeys(sources, cs)
    requires forall k | k in order :: k in sources
    requires var once := Deduplicated(rules, sources, order, cs).sources;
      Lists(order', once) && KeySet(order') == once.Keys && forall k | k in order' :: k in once
    ensures var q := Index(rules, Deduplicated(rules, sources, order, cs).sources, order');
      q.sources == Deduplicated(rules, sources, order, cs).sources && q.added == [] && HavePartners(rules, q, cs)
  {
    var p := Deduplicated(rules, sources, order, cs);
    PassFacts(rules, sources, order, cs);
    IndexAgain(rules, p, order');
    forall i | 0 <= i < |cs| ensures Found(rules, p.(added := []), cs[i]) && Partner(rules, p.(added := []), cs[i]) in p.sources {
      SettledHasPartner(rules, p, cs, i);
    }
  }

  lemma SettledHasPartner(rules: Rules, p: Pass, cs: seq<Candidate>, i: nat)
    requires Indexed(rules, p, p.sources.Keys) && AllSettled(rules, p, cs) && i < |cs|
    ensures Found(rules, p.(added := []), cs[i]) && Partner(rules, p.(added := []), cs[i]) in p.sources
  {
    assert Settled(rules, p, cs[i]);
    PartnerIsSource(rules, p, cs[i]);
  }

  function Paper(canonical: string, title: string, authors: seq<string>): Source {
    Source(canonical, title, None, None, None, [], authors, map[], map[])
  }

  /// An input on which the second pass does change something.

  function PlainRules(): Rules { Rules((t: string) => t, (s: Source) => "id") }

  // The first candidate matches "s" by title only; the second is new under the first one's identifier.
  function ByTitle(): Candidate { Candidate("a", Paper("l", "T", ["A"])) }

  function ByIdentifier(): Candidate { Candidate("b", Paper("l", "U", [])) }

  function Known(): map<string, Source> { map["s" := Paper("k", "T", [])] }

  function AfterOne(): map<string, Source> { map["s" := Paper("k", "T", ["A"]), "b" := Paper("l", "U", [])] }

  function AfterTwo(): map<string, Source> { map["s" := Paper("k", "T", ["A"]), "b" := Paper("l", "U", ["A"])] }

  lemma FirstPassOverBoth()
    ensures Deduplicated(PlainRules(), Known(), ["s"], [ByTitle(), ByIdentifier()]).sources == AfterOne()
  {
    var rules := PlainRules();
    var p0 := Pass(Known(), map["k" := "s"], map["T" := "s"], []);
    var p1 := p0.(sources := map["s" := Paper("k", "T", ["A"])]);
    MergedAuthor(Paper("k", "T", []), ByTitle().source, Paper("k", "T", ["A"]));
    assert Index(rules, Known(), ["s"]) == p0;
    assert Absorb(rules, p0, ByTitle()) == p1;
    TwoCandidates(rules, p0, ByTitle(), ByIdentifier());
  }

  lemma SecondPassOverBoth()
    ensures Deduplicated(PlainRules(), AfterOne(), ["s", "b"], [ByTitle(), ByIdentifier()]).sources == AfterTwo()
  {
    var rules := PlainRules();
    var q0 := Pass(AfterOne(), map["k" := "s", "l" := "b"], map["T" := "s", "U" := "b"], []);
    var q1 := q0.(sources := AfterTwo());
    IndexOfBoth();
    MergedAuthor(Paper("l", "U", []), ByTitle().source, Paper("l", "U", ["A"]));
    assert Absorb(rules, q0, ByTitle()) == q1;
    MergedAuthor(Paper("l", "U", ["A"]), ByIdentifier().source, Paper("l", "U", ["A"]));
    assert Absorb(rules, q1, ByIdentifier()) == q1;
    TwoCandidates(rules, q0, ByTitle(), ByIdentifier());
  }

  lemma IndexOfBoth()
    ensures Index(PlainRules(), AfterOne(), ["s", "b"]) == Pass(AfterOne(), map["k" := "s", "l" := "b"], map["T" := "s", "U" := "b"], [])
  {
    assert ["s", "b"][..1] == ["s"] && ["s"][..0] == [];
    assert Index(PlainRules(), AfterOne(), ["s"]) == Pass(AfterOne(), map["k" := "s"], map["T" := "s"], []);
  }

  // Finding the first candidate by identifier this time, the second pass gives the new source an author it did not have.
  lemma SecondPassAddsAuthor()
    ensures Deduplicated(PlainRules(), Known(), ["s"], [ByTitle(), ByIdentifier()]).sources == AfterOne()
    ensures Deduplicated(PlainRules(), AfterOne(), ["s", "b"], [ByTitle(), ByIdentifier()]).sources == AfterTwo() != AfterOne()
  {
    FirstPassOverBoth();
    SecondPassOverBoth();
    assert AfterOne()["b"].authors == [] && AfterTwo()["b"].authors == ["A"];
  }

  lemma TheInputIsAdmissible()
    ensures Proper(PlainRules()) && Distinct(PlainRules(), Known()) && FreshKeys(Known(), [ByTitle(), ByIdentifier()])
  {
  }

  lemma TwoCandidates(rules: Rules, p: Pass, c: Candidate, d: Candidate)
    ensures AbsorbAll(rules, p, [c, d]) == Absorb(rules, Absorb(rules, p, c), d)
  {
    assert [c, d] == [c] + [d];
    AbsorbAllAppend(rules, p, [c], d);
    AbsorbAllAppend(rules, p, [], c);
    assert [] + [c] == [c];
  }

  lemma MergedAuthor(s: Source, c: Source, m: Source)
    requires s == Paper(s.canonical, s.title, s.authors) && c == Paper(c.canonical, c.title, c.authors)
    requires m == Paper(s.canonical, s.title, AddAuthors(s.authors, c.authors))
    ensures Merged(s, c) == m
  {
    assert MergeSections(map[], map[]) == map[];
  }
}
