/** The order in which the compiler lays out included objects (app/memory/context_compiler.py:398-412). */
module LayeredOrder {
  import opened Reachability

  // For each consuming object, the recorded sources, in edge order and with repetitions.
  type Links = map<Id, seq<Id>>

  /** Creation time first, identifier second. */
  predicate Precedes(a: Id, b: Id, at: map<Id, int>)
    requires a in at && b in at
  {
    at[a] < at[b] || (at[a] == at[b] && a < b)
  }

  ghost predicate IsListing(q: seq<Id>, s: set<Id>, at: map<Id, int>)
    requires s <= at.Keys
  {
    && (forall x :: x in q <==> x in s)
    && forall i, j | 0 <= i < j < |q| :: Precedes(q[i], q[j], at)
  }

  lemma {:induction false} ListingIsUnique(q: seq<Id>, r: seq<Id>, s: set<Id>, at: map<Id, int>)
    requires s <= at.Keys && IsListing(q, s, at) && IsListing(r, s, at)
    ensures q == r
  {
    EmptyListing(q, s, at);
    EmptyListing(r, s, at);
    if q != [] {
      assert q[0] in r && r[0] in q;
      var i :| 0 <= i < |r| && r[i] == q[0];
      var j :| 0 <= j < |q| && q[j] == r[0];
      assert q[0] == r[0];
      TailIsListing(q, s, at);
      TailIsListing(r, s, at);
      ListingIsUnique(q[1..], r[1..], s - {q[0]}, at);
      assert q == [q[0]] + q[1..] && r == [r[0]] + r[1..];
    }
  }

  lemma EmptyListing(q: seq<Id>, s: set<Id>, at: map<Id, int>)
    requires s <= at.Keys && IsListing(q, s, at)
    ensures q == [] <==> s == {}
  {
    if q != [] {
      assert q[0] in q;
    }
  }

  lemma TailIsListing(q: seq<Id>, s: set<Id>, at: map<Id, int>)
    requires s <= at.Keys && IsListing(q, s, at) && q != []
    ensures IsListing(q[1..], s - {q[0]}, at)
  {
    forall x ensures x in q[1..] <==> x in s - {q[0]} {
      if x in s && x != q[0] {
        var i :| 0 <= i < |q| && q[i] == x;
        assert q[1..][i - 1] == x;
      }
      if x in q[1..] {
        var i :| 0 <= i < |q[1..]| && q[1..][i] == x;
        assert q[i + 1] == x && Precedes(q[0], q[i + 1], at);
      }
    }
  }

  /** The sorted listing of a set: a value, so it cannot depend on iteration order. */
  ghost function Listing(s: set<Id>, at: map<Id, int>): (q: seq<Id>)
    requires s <= at.Keys
    ensures IsListing(q, s, at)
  {
    if s == {} then []
    else
      var m := First(s, at);
      [m] + Listing(s - {m}, at)
  }

  ghost function First(s: set<Id>, at: map<Id, int>): (m: Id)
    requires s <= at.Keys && s != {}
    ensures m in s && forall x | x in s && x != m :: Precedes(m, x, at)
  {
    var x :| x in s;
    if s == {x} then x
    else
      var m := First(s - {x}, at);
      assert forall y | y in s && y != x :: y in s - {x};
      if Precedes(x, m, at) then x else m
  }

  /** `list.sort` with the key (created_at, id), by insertion, from a set in arbitrary order. */
  method Sort(s: set<Id>, at: map<Id, int>) returns (q: seq<Id>)
    requires s <= at.Keys
    ensures q == Listing(s, at)
  {
    q := [];
    var rest := s;
    while rest != {}
      invariant rest <= s && IsListing(q, s - rest, at)
      decreases rest
    {
      var x :| x in rest;
      var k := 0;
      assert forall i | 0 <= i < |q| :: q[i] in q;
      while k < |q| && Precedes(q[k], x, at)
        invariant 0 <= k <= |q| && forall i | 0 <= i < |q| :: q[i] in s
        invariant forall i | 0 <= i < k :: Precedes(q[i], x, at)
      {
        k := k + 1;
      }
      InsertKeepsListing(q, x, k, s - rest, at);
      q := q[..k] + [x] + q[k..];
      rest := rest - {x};
      assert s - rest == s - (rest + {x}) + {x};
    }
    assert s - rest == s;
    ListingIsUnique(q, Listing(s, at), s, at);
  }

  lemma InsertKeepsListing(q: seq<Id>, x: Id, k: nat, s: set<Id>, at: map<Id, int>)
    requires s <= at.Keys && x in at && x !in s && IsListing(q, s, at) && k <= |q|
    requires forall i | 0 <= i < k :: Precedes(q[i], x, at)
    requires k < |q| ==> !Precedes(q[k], x, at)
    ensures IsListing(q[..k] + [x] + q[k..], s + {x}, at)
  {
    var r := q[..k] + [x] + q[k..];
    assert q == q[..k] + q[k..];
    assert forall y :: y in r <==> y in q || y == x;
    forall i | k <= i < |q| ensures Precedes(x, q[i], at) {
      assert q[k] in s && q[i] in s;
    }
  }

  /** The recorded links as a relation. */
  function LinkRelation(linked: Links): Relation {
    set t, s | t in linked && s in linked[t] :: (s, t)
  }

  predicate IsReady(x: Id, remaining: set<Id>, rel: Relation) {
    forall e | e in rel && e.1 == x :: e.0 !in remaining
  }

  function Ready(remaining: set<Id>, rel: Relation): set<Id> {
    set x | x in remaining && IsReady(x, remaining, rel)
  }

  /** The next layer: the objects no remaining object feeds, or everything left when there are none. */
  function NextLayer(remaining: set<Id>, rel: Relation): set<Id> {
    if Ready(remaining, rel) == {} then remaining else Ready(remaining, rel)
  }

  ghost function Layers(remaining: set<Id>, rel: Relation, at: map<Id, int>): seq<Id>
    requires remaining <= at.Keys
  {
    if remaining == {} then []
    else
      var layer := NextLayer(remaining, rel);
      assert layer != {} && layer <= remaining;
      Listing(layer, at) + Layers(remaining - layer, rel, at)
  }

  lemma LayersUnfold(remaining: set<Id>, rel: Relation, at: map<Id, int>)
    requires remaining != {} && remaining <= at.Keys
    ensures NextLayer(remaining, rel) != {} && NextLayer(remaining, rel) <= remaining
    ensures Layers(remaining, rel, at)
         == Listing(NextLayer(remaining, rel), at) + Layers(remaining - NextLayer(remaining, rel), rel, at)
  {
  }

  function Recorded(linked: Links, x: Id): seq<Id> {
    if x in linked then linked[x] else []
  }

  method Order(included: set<Id>, linked: Links, at: map<Id, int>) returns (ordered: seq<Id>)
    requires included <= at.Keys
    ensures ordered == Layers(included, LinkRelation(linked), at)
  {
    ghost var rel := LinkRelation(linked);
    ordered := [];
    var remaining := included;
    while remaining != {}
      invariant remaining <= included
      invariant ordered + Layers(remaining, rel, at) == Layers(included, rel, at)
      decreases remaining
    {
      LayersUnfold(remaining, rel, at);
      var ready := set x | x in remaining && forall s | s in Recorded(linked, x) :: s !in remaining;
      ReadyAgrees(remaining, linked);
      if ready == {} {
        ready := remaining;
      }
      var layer := Sort(ready, at);
      Regroup(ordered, layer, Layers(remaining - ready, rel, at));
      ordered, remaining := ordered + layer, remaining - ready;
    }
  }

  lemma Regroup(a: seq<Id>, b: seq<Id>, c: seq<Id>)
    ensures a + (b + c) == (a + b) + c
  {
  }

  lemma ReadyAgrees(remaining: set<Id>, linked: Links)
    ensures (set x | x in remaining && forall s | s in Recorded(linked, x) :: s !in remaining)
         == Ready(remaining, LinkRelation(linked))
  {
    var rel := LinkRelation(linked);
    forall x | x in remaining
      ensures (forall s | s in Recorded(linked, x) :: s !in remaining) <==> IsReady(x, remaining, rel)
    {
      if IsReady(x, remaining, rel) {
        forall s | s in Recorded(linked, x) ensures s !in remaining {
          assert (s, x) in rel;
        }
      }
    }
  }

  ghost predicate Enumerates(q: seq<Id>, s: set<Id>) {
    && (forall x :: x in q <==> x in s)
    && forall i, j | 0 <= i < j < |q| :: q[i] != q[j]
  }

  // Whatever the links, each included object is emitted exactly once.
  lemma {:induction false} EachObjectOnce(remaining: set<Id>, rel: Relation, at: map<Id, int>)
    requires remaining <= at.Keys
    ensures Enumerates(Layers(remaining, rel, at), remaining)
  {
    if remaining != {} {
      var layer := NextLayer(remaining, rel);
      EachObjectOnce(remaining - layer, rel, at);
      var head, tail := Listing(layer, at), Layers(remaining - layer, rel, at);
      forall i, j | 0 <= i < j < |head + tail| ensures (head + tail)[i] != (head + tail)[j] {
        if i < |head| <= j {
          assert head[i] in layer && tail[j - |head|] in remaining - layer;
        }
      }
    }
  }

  /** A path of at least one link from an object back to itself, inside `s`. */
  ghost predicate IsCycle(rel: Relation, p: seq<Id>, s: set<Id>) {
    |p| > 1 && IsPath(rel, p) && p[0] == p[|p| - 1] && forall i | 0 <= i < |p| :: p[i] in s
  }

  ghost predicate Acyclic(rel: Relation, s: set<Id>) {
    !exists p :: IsCycle(rel, p, s)
  }

  ghost predicate SourcesFirst(q: seq<Id>, rel: Relation) {
    forall i, j | 0 <= i < |q| && 0 <= j < |q| && (q[i], q[j]) in rel :: i < j
  }

  // Of two neighbours the older comes first, the smaller id among those of one age, unless the later one has a source to wait for.
  lemma {:induction false} OlderFirstUnlessWaiting(included: set<Id>, rel: Relation, at: map<Id, int>, i: nat)
    requires included <= at.Keys && i + 1 < |Layers(included, rel, at)|
    ensures forall x | x in Layers(included, rel, at) :: x in included
    ensures var q := Layers(included, rel, at); var a, b := q[i], q[i + 1];
      && a in included && b in included
      && (at[a] < at[b] || (at[a] == at[b] && a < b) || exists e :: e in rel && e.1 == b && e.0 in included)
  {
    var layer := NextLayer(included, rel);
    var head, tail := Listing(layer, at), Layers(included - layer, rel, at);
    EachObjectOnce(included, rel, at);
    EachObjectOnce(included - layer, rel, at);
    if i + 1 < |head| {
      assert Precedes(head[i], head[i + 1], at);
    } else if i + 1 == |head| {
      var b := tail[0];
      assert b in tail && b in included - layer;
      assert b !in Ready(included, rel);
    } else {
      OlderFirstUnlessWaiting(included - layer, rel, at, i - |head|);
    }
  }

  // Without cycles some remaining object is always ready, so the fallback is never taken.
  lemma FallbackNeedsCycle(remaining: set<Id>, rel: Relation)
    requires remaining != {} && Ready(remaining, rel) == {}
    ensures !Acyclic(rel, remaining)
  {
    var p := WalkBack(remaining, rel, |remaining| + 1);
    var i, j := Repetition(p, remaining);
    assert IsCycle(rel, p[i..j + 1], remaining);
  }

  lemma {:induction false} WalkBack(remaining: set<Id>, rel: Relation, n: nat) returns (p: seq<Id>)
    requires remaining != {} && Ready(remaining, rel) == {} && n > 0
    ensures |p| == n && IsPath(rel, p) && forall i | 0 <= i < n :: p[i] in remaining
  {
    if n == 1 {
      var x :| x in remaining;
      p := [x];
    } else {
      var q := WalkBack(remaining, rel, n - 1);
      assert q[0] in remaining && q[0] !in Ready(remaining, rel);
      var e :| e in rel && e.1 == q[0] && e.0 in remaining;
      p := [e.0] + q;
      forall i | 0 <= i < |p| - 1 ensures (p[i], p[i + 1]) in rel {
        if i > 0 { assert (q[i - 1], q[i]) in rel; }
      }
    }
  }

  // Pigeonhole.
  lemma {:induction false} Repetition(p: seq<Id>, s: set<Id>) returns (i: nat, j: nat)
    requires |p| > |s| && forall k | 0 <= k < |p| :: p[k] in s
    ensures i < j < |p| && p[i] == p[j]
  {
    var last := |p| - 1;
    if k :| 0 <= k < last && p[k] == p[last] {
      i, j := k, last;
    } else {
      i, j := Repetition(p[..last], s - {p[last]});
    }
  }

  // The order puts every source before its consumers exactly when the links are acyclic.
  lemma SourcesFirstIffAcyclic(included: set<Id>, rel: Relation, at: map<Id, int>)
    requires included <= at.Keys
    ensures SourcesFirst(Layers(included, rel, at), rel) <==> Acyclic(rel, included)
  {
    var q := Layers(included, rel, at);
    EachObjectOnce(included, rel, at);
    if Acyclic(rel, included) {
      AcyclicPutsSourcesFirst(included, rel, at);
    }
    if SourcesFirst(q, rel) {
      forall p ensures !IsCycle(rel, p, included) {
        if IsCycle(rel, p, included) {
          PathAscends(p, rel, q, included, |p| - 1);
        }
      }
    }
  }

  ghost function Position(q: seq<Id>, x: Id): (k: nat)
    requires x in q
    ensures k < |q| && q[k] == x
  {
    var k :| 0 <= k < |q| && q[k] == x; k
  }

  lemma {:induction false} PathAscends(p: seq<Id>, rel: Relation, q: seq<Id>, s: set<Id>, n: nat)
    requires IsPath(rel, p) && Enumerates(q, s) && SourcesFirst(q, rel) && n < |p|
    requires forall i | 0 <= i < |p| :: p[i] in s
    ensures n > 0 ==> Position(q, p[0]) < Position(q, p[n])
  {
    if n > 0 {
      PathAscends(p, rel, q, s, n - 1);
      assert (p[n - 1], p[n]) in rel;
    }
  }

  lemma {:induction false} AcyclicPutsSourcesFirst(remaining: set<Id>, rel: Relation, at: map<Id, int>)
    requires remaining <= at.Keys && Acyclic(rel, remaining)
    ensures SourcesFirst(Layers(remaining, rel, at), rel)
  {
    if remaining != {} {
      var layer := NextLayer(remaining, rel);
      if Ready(remaining, rel) == {} {
        FallbackNeedsCycle(remaining, rel);
      }
      var rest := remaining - layer;
      assert Acyclic(rel, rest) by {
        forall p ensures !IsCycle(rel, p, rest) { assert !IsCycle(rel, p, remaining); }
      }
      AcyclicPutsSourcesFirst(rest, rel, at);
      EachObjectOnce(rest, rel, at);
      ReadyBeforeRest(layer, rest, rel, at, Listing(layer, at), Layers(rest, rel, at));
    }
  }

  lemma ReadyBeforeRest(layer: set<Id>, rest: set<Id>, rel: Relation, at: map<Id, int>, head: seq<Id>, tail: seq<Id>)
    requires layer == Ready(layer + rest, rel)
    requires (forall i | 0 <= i < |head| :: head[i] in layer) && (forall i | 0 <= i < |tail| :: tail[i] in rest)
    requires SourcesFirst(tail, rel)
    ensures SourcesFirst(head + tail, rel)
  {
    var q := head + tail;
    assert forall k | 0 <= k < |head| :: IsReady(head[k], layer + rest, rel);
    forall i, j | 0 <= i < |q| && 0 <= j < |q| && (q[i], q[j]) in rel ensures i < j {
      assert q[i] in layer + rest;
      if i >= |head| && j >= |head| {
        assert (tail[i - |head|], tail[j - |head|]) in rel;
      }
    }
  }
}
