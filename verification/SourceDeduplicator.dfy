/** `SourceDeduplicator.deduplicate` on shared, mutable sources (app/research/dedup.py:87-161). */
module SourceDeduplicator {
  import opened Wrappers
  import opened SourceDedup

  class ResearchSource {
    const sourceId: string
    const title: string
    const url: Option<string>
    var canonical: string
    var year: Option<int>
    var abstract_: Option<string>
    var aliases: seq<string>
    var authors: seq<string>
    var sections: map<string, string>
    var metadata: map<string, string>

    constructor (sourceId: string, s: Source)
      ensures this.sourceId == sourceId && View() == s
    {
      this.sourceId, title, url, canonical, year := sourceId, s.title, s.url, s.canonical, s.year;
      abstract_, aliases, authors, sections, metadata := s.abstract_, s.aliases, s.authors, s.sections, s.metadata;
    }

    function View(): Source
      reads this
    {
      Source(canonical, title, url, year, abstract_, aliases, authors, sections, metadata)
    }

    method MergeAliases(c: ResearchSource)
      requires c != this
      modifies this`aliases
      ensures aliases == AddAliases(AddAliases(old(aliases), url, if Given(c.url) then [c.url.value] else []), url, c.aliases)
    {
      if Given(c.url) && c.url != url && c.url.value !in aliases {
        aliases := aliases + [c.url.value];
      }
      ghost var start := aliases;
      for i := 0 to |c.aliases|
        invariant aliases == AddAliases(start, url, c.aliases[..i])
      {
        assert c.aliases[..i + 1][..i] == c.aliases[..i];
        if c.aliases[i] !in aliases && Some(c.aliases[i]) != url {
          aliases := aliases + [c.aliases[i]];
        }
      }
      assert c.aliases[..|c.aliases|] == c.aliases;
    }

    method MergeAuthors(c: ResearchSource)
      requires c != this
      modifies this`authors
      ensures authors == AddAuthors(old(authors), c.authors)
    {
      for i := 0 to |c.authors|
        invariant authors == AddAuthors(old(authors), c.authors[..i])
      {
        assert c.authors[..i + 1][..i] == c.authors[..i];
        if c.authors[i] !in authors {
          authors := authors + [c.authors[i]];
        }
      }
      assert c.authors[..|c.authors|] == c.authors;
    }

    method MergeTexts(c: ResearchSource)
      requires c != this
      modifies this`sections
      ensures sections == MergeSections(old(sections), c.sections)
    {
      var todo := c.sections.Keys;
      while todo != {}
        invariant todo <= c.sections.Keys
        invariant sections == MergeSections(old(sections), c.sections - todo)
      {
        var k :| k in todo;
        if k !in sections || |c.sections[k]| > |sections[k]| {
          sections := sections[k := c.sections[k]];
        }
        todo := todo - {k};
      }
      assert c.sections - {} == c.sections;
    }

    method MergeMetadata(c: ResearchSource)
      requires c != this
      modifies this`metadata
      ensures metadata == c.metadata + old(metadata)
    {
      var todo := c.metadata.Keys;
      while todo != {}
        invariant todo <= c.metadata.Keys
        invariant metadata == (c.metadata - todo) + old(metadata)
      {
        var k :| k in todo;
        if k !in metadata {
          metadata := metadata[k := c.metadata[k]];
        }
        todo := todo - {k};
      }
      assert c.metadata - {} == c.metadata;
    }

    method Merge(c: ResearchSource)
      requires c != this
      modifies this
      ensures View() == Merged(old(View()), c.View())
    {
      MergeAliases(c);
      MergeTexts(c);
      if Given(c.abstract_) && (!Given(abstract_) || |c.abstract_.value| > |abstract_.value|) {
        abstract_ := c.abstract_;
      }
      MergeAuthors(c);
      MergeMetadata(c);
      if GivenYear(c.year) && !GivenYear(year) {
        year := c.year;
      }
    }
  }

  type Sources = map<string, ResearchSource>

  ghost function Views(m: Sources): map<string, Source>
    reads m.Values
  {
    map k | k in m :: m[k].View()
  }

  ghost predicate Separate(m: Sources) {
    forall a, b | a in m && b in m && a != b :: m[a] != m[b]
  }

  // A lookup map holds, for every entry of the modelled index, the object itself.
  ghost predicate Points(objects: Sources, index: map<string, string>, m: Sources) {
    objects.Keys == index.Keys && forall i | i in index :: index[i] in m && objects[i] == m[index[i]]
  }

  lemma EnterKeepsPoints(objects: Sources, index: map<string, string>, m: Sources, identity: string, k: string)
    requires Points(objects, index, m) && k in m
    ensures Points(if identity != "" then objects[identity := m[k]] else objects, Entered(index, identity, k), m)
  {
  }

  lemma AddKeepsPoints(objects: Sources, index: map<string, string>, m: Sources, k: string, s: ResearchSource)
    requires Points(objects, index, m) && k !in m
    ensures Points(objects, index, m[k := s])
  {
  }

  ghost function Members(q: seq<ResearchSource>): set<ResearchSource> {
    set s | s in q
  }

  function Ids(q: seq<ResearchSource>): seq<string> {
    if q == [] then [] else Ids(q[..|q| - 1]) + [q[|q| - 1].sourceId]
  }

  // Each is the object stored under its id.
  ghost predicate Listed(q: seq<ResearchSource>, m: Sources) {
    forall s | s in q :: s.sourceId in m && m[s.sourceId] == s
  }

  lemma ListedNext(q: seq<ResearchSource>, m: Sources, m': Sources, s: ResearchSource, isNew: bool)
    requires Listed(q, m) && s.sourceId !in m && m' == if isNew then m[s.sourceId := s] else m
    ensures Listed(if isNew then q + [s] else q, m')
  {
  }

  lemma AddedId(q: seq<ResearchSource>, s: ResearchSource)
    ensures Ids(q + [s]) == Ids(q) + [s.sourceId]
  {
    assert (q + [s])[..|q|] == q;
  }

  // Candidates are new objects with new, distinct source ids.
  ghost predicate Incoming(m: Sources, q: seq<ResearchSource>) {
    && (forall i | 0 <= i < |q| :: q[i].sourceId !in m && q[i] !in m.Values)
    && (forall i, j | 0 <= i < j < |q| :: q[i] != q[j] && q[i].sourceId != q[j].sourceId)
  }

  ghost function CandidateViews(q: seq<ResearchSource>): (r: seq<Candidate>)
    reads q
    ensures |r| == |q|
  {
    if q == [] then [] else [Candidate(q[0].sourceId, q[0].View())] + CandidateViews(q[1..])
  }

  // The pass over the candidates in `done`, which added these sources.
  ghost predicate Passed(rules: Rules, start: Pass, done: seq<Candidate>, p: Pass, added: seq<ResearchSource>) {
    p == AbsorbAll(rules, start, done) && Ids(added) == p.added
  }

  lemma PassedNext(rules: Rules, start: Pass, done: seq<Candidate>, p: Pass, added: seq<ResearchSource>, view: Candidate, c: ResearchSource,
                   isNew: bool)
    requires Passed(rules, start, done, p, added)
    requires Absorb(rules, p, view).added == if isNew then p.added + [c.sourceId] else p.added
    ensures Passed(rules, start, done + [view], Absorb(rules, p, view), if isNew then added + [c] else added)
  {
    AddedId(added, c);
    AbsorbAllAppend(rules, start, done, view);
  }

  lemma NextView(done: seq<Candidate>, views: seq<Candidate>)
    requires views != []
    ensures (done + [views[0]]) + views[1..] == done + views
  {
  }

  lemma AllViews(done: seq<Candidate>, views: seq<Candidate>)
    requires views == []
    ensures done + views == done
  {
  }

  // Taking a candidate leaves the others incoming.
  lemma RestIncoming(m: Sources, m': Sources, q: seq<ResearchSource>)
    requires q != [] && Incoming(m, q) && (m' == m || m' == m[q[0].sourceId := q[0]])
    ensures Incoming(m', q[1..]) && q[0] !in q[1..]
  {
    assert m'.Values <= m.Values + {q[0]};
  }

  class Deduplicator {
    const rules: Rules
    var sources: Sources              // the existing sources, by id
    var canon: Sources
    var titles: Sources

    constructor (rules: Rules, sources: Sources)
      ensures this.rules == rules && this.sources == sources
    {
      this.rules, this.sources, canon, titles := rules, sources, map[], map[];
    }

    ghost predicate Models(p: Pass)
      reads this, sources.Values
    {
      && p.sources == Views(sources) && Separate(sources)
      && Points(canon, p.canon, sources) && Points(titles, p.titles, sources)
    }

    /** Builds the two lookup maps in the order of the dictionary. */
    method BuildIndex(order: seq<string>)
      requires Separate(sources) && forall k | k in order :: k in sources
      modifies this`canon, this`titles
      ensures Models(Index(rules, Views(sources), order))
    {
      canon, titles := map[], map[];
      for i := 0 to |order|
        invariant Models(Index(rules, Views(sources), order[..i]))
      {
        assert order[..i + 1][..i] == order[..i] && order[i] in order;
        Enter(Index(rules, Views(sources), order[..i]), order[i]);
      }
      assert order[..|order|] == order;
    }

    method Enter(ghost p: Pass, k: string)
      requires Models(p) && k in sources
      modifies this`canon, this`titles
      ensures Models(Registered(rules, p, k, sources[k].View()))
    {
      var s := sources[k];
      EnterKeepsPoints(canon, p.canon, sources, s.canonical, k);
      EnterKeepsPoints(titles, p.titles, sources, rules.normalize(s.title), k);
      if s.canonical != "" {
        canon := canon[s.canonical := s];
      }
      if rules.normalize(s.title) != "" {
        titles := titles[rules.normalize(s.title) := s];
      }
    }

    method FindMatch(ghost p: Pass, c: ResearchSource) returns (m: Option<ResearchSource>)
      requires Models(p)
      ensures match Match(rules, p, c.View())
              case None => m.None?
              case Some(k) => k in sources && m == Some(sources[k])
    {
      var title := rules.normalize(c.title);
      if c.canonical in canon {
        return Some(canon[c.canonical]);
      } else if title != "" && title in titles {
        return Some(titles[title]);
      }
      return None;
    }

    method MergeInto(ghost p: Pass, ghost k: string, s: ResearchSource, c: ResearchSource)
      requires Models(p) && k in sources && sources[k] == s && c !in sources.Values
      modifies s
      ensures Models(p.(sources := p.sources[k := Merged(p.sources[k], old(c.View()))]))
    {
      assert s in sources.Values;
      s.Merge(c);
    }

    method Add(ghost p: Pass, c: ResearchSource)
      requires Models(p) && c.sourceId !in sources && c !in sources.Values
      modifies this`sources, this`canon, this`titles
      ensures Models(Registered(rules, p, c.sourceId, c.View()).(sources := p.sources[c.sourceId := c.View()]))
      ensures sources == old(sources)[c.sourceId := c]
    {
      AddKeepsPoints(canon, p.canon, sources, c.sourceId, c);
      AddKeepsPoints(titles, p.titles, sources, c.sourceId, c);
      sources := sources[c.sourceId := c];
      Enter(p.(sources := Views(sources)), c.sourceId);
    }

    /** One candidate: merged into its match in place, or added. */
    method AbsorbOne(ghost p: Pass, c: ResearchSource) returns (isNew: bool)
      requires Models(p) && c.sourceId !in sources && c !in sources.Values
      modifies this`sources, this`canon, this`titles, sources.Values, c
      ensures Models(Absorb(rules, p, Candidate(c.sourceId, old(c.View()))))
      ensures isNew <==> Match(rules, p, Identified(rules, old(c.View()))).None?
      ensures sources == if isNew then old(sources)[c.sourceId := c] else old(sources)
    {
      ghost var key := Match(rules, p, Identified(rules, c.View()));
      Identify(c);
      assert Models(p);
      var m := FindMatch(p, c);
      isNew := m.None?;
      if m.Some? {
        MergeInto(p, key.value, m.value, c);
      } else {
        Add(p, c);
      }
    }

    method AbsorbNext(ghost p: Pass, rest: seq<ResearchSource>) returns (isNew: bool)
      requires Models(p) && rest != [] && Incoming(sources, rest)
      modifies this`sources, this`canon, this`titles, sources.Values, rest[0]
      ensures Models(Absorb(rules, p, old(CandidateViews(rest))[0]))
      ensures Incoming(sources, rest[1..]) && CandidateViews(rest[1..]) == old(CandidateViews(rest))[1..]
      ensures sources.Values <= old(sources.Values) + {rest[0]}
      ensures Absorb(rules, p, old(CandidateViews(rest))[0]).added == if isNew then p.added + [rest[0].sourceId] else p.added
      ensures sources == if isNew then old(sources)[rest[0].sourceId := rest[0]] else old(sources)
    {
      ghost var before := sources;
      isNew := AbsorbOne(p, rest[0]);
      RestIncoming(before, sources, rest);
    }

    method AbsorbCandidates(ghost start: Pass, candidates: seq<ResearchSource>) returns (added: seq<ResearchSource>)
      requires Models(start) && Incoming(sources, candidates) && start.added == []
      modifies this`sources, this`canon, this`titles, sources.Values, candidates
      ensures Models(AbsorbAll(rules, start, old(CandidateViews(candidates))))
      ensures Ids(added) == AbsorbAll(rules, start, old(CandidateViews(candidates))).added && Listed(added, sources)
      ensures Members(added) <= Members(candidates)
    {
      ghost var cs, p, done := CandidateViews(candidates), start, [];
      var rest := candidates;
      added := [];
      while rest != []
        invariant Models(p) && Incoming(sources, rest)
        invariant Passed(rules, start, done, p, added) && done + CandidateViews(rest) == cs && Listed(added, sources)
        invariant Members(rest) <= Members(candidates) && Members(added) <= Members(candidates)
        invariant sources.Values <= old(sources.Values) + Members(candidates)
        decreases |rest|
      {
        var c := rest[0];
        assert c in Members(rest);
        ghost var view, views := CandidateViews(rest)[0], CandidateViews(rest);
        NextView(done, views);
        ghost var before := sources;
        var isNew := AbsorbNext(p, rest);
        ListedNext(added, before, sources, c, isNew);
        PassedNext(rules, start, done, p, added, view, c, isNew);
        added := if isNew then added + [c] else added;
        p, done, rest := Absorb(rules, p, view), done + [view], rest[1..];
      }
      AllViews(done, CandidateViews(rest));
    }

    /** The whole pass over incoming candidates; returns the genuinely new sources. */
    method Deduplicate(candidates: seq<ResearchSource>, order: seq<string>) returns (added: seq<ResearchSource>)
      requires Separate(sources) && (forall k | k in order :: k in sources) && Incoming(sources, candidates)
      modifies this`sources, this`canon, this`titles, sources.Values, candidates
      ensures Models(Deduplicated(rules, old(Views(sources)), order, old(CandidateViews(candidates))))
      ensures Ids(added) == Deduplicated(rules, old(Views(sources)), order, old(CandidateViews(candidates))).added
      ensures Listed(added, sources) && Members(added) <= Members(candidates)
    {
      ghost var start := Index(rules, Views(sources), order);
      BuildIndex(order);
      added := AbsorbCandidates(start, candidates);
    }

    method Identify(c: ResearchSource)
      modifies c
      ensures c.View() == Identified(rules, old(c.View()))
    {
      if c.canonical == "" {
        c.canonical := rules.identify(c.View());
      }
    }
  }
}
