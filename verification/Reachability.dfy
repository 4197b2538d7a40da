/** Ancestry in a finite relation: the simple specification that the worklist walks are proved against. */
module Reachability {

  // Identifiers are compared only for equality and by one total order.
  type Id = nat

  // Pairs (source, target).
  type Relation = set<(Id, Id)>

  function SourcesOf(rel: Relation, targets: set<Id>): set<Id> {
    set e | e in rel && e.1 in targets :: e.0
  }

  /** The part of a relation that leads into `targets`. */
  function Into(rel: Relation, targets: set<Id>): Relation {
    set e | e in rel && e.1 in targets
  }

  lemma IntoSplits(rel: Relation, a: set<Id>, b: set<Id>)
    ensures Into(rel, a + b) == Into(rel, a) + Into(rel, b)
    ensures SourcesOf(rel, a + b) == SourcesOf(rel, a) + SourcesOf(rel, b)
  {
  }

  // A set with all its sources is closed.
  lemma ClosedIfSourcesInside(rel: Relation, s: set<Id>)
    requires SourcesOf(rel, s) <= s
    ensures Closed(rel, s)
  {
    forall e | e in rel && e.1 in s ensures e.0 in s {
      assert e.0 in SourcesOf(rel, s);
    }
  }

  lemma SourcesStayInside(rel: Relation, start: set<Id>, targets: set<Id>)
    requires targets <= Closure(rel, start)
    ensures SourcesOf(rel, targets) <= Closure(rel, start)
  {
    ClosureIsClosed(rel, start);
  }

  ghost predicate Closed(rel: Relation, s: set<Id>) {
    forall e | e in rel && e.1 in s :: e.0 in s
  }

  /** Everything from which some element of `start` can be reached, by plain saturation. */
  ghost function Closure(rel: Relation, start: set<Id>): set<Id>
    decreases (set e | e in rel :: e.0) - start
  {
    if SourcesOf(rel, start) <= start then start
    else
      Grows(rel, start);
      Closure(rel, start + SourcesOf(rel, start))
  }

  lemma Grows(rel: Relation, start: set<Id>)
    requires !(SourcesOf(rel, start) <= start)
    ensures (set e | e in rel :: e.0) - (start + SourcesOf(rel, start)) < (set e | e in rel :: e.0) - start
  {
    var next := SourcesOf(rel, start);
    assert !(forall x | x in next :: x in start);
    var x :| x in next && x !in start;
    assert x in (set e | e in rel :: e.0) - start;
  }

  lemma {:induction false} ClosureIsClosed(rel: Relation, start: set<Id>)
    ensures start <= Closure(rel, start) && Closed(rel, Closure(rel, start))
    decreases (set e | e in rel :: e.0) - start
  {
    if SourcesOf(rel, start) <= start {
      forall e | e in rel && e.1 in start ensures e.0 in start {
        assert e.0 in SourcesOf(rel, start);
      }
    } else {
      Grows(rel, start);
      ClosureIsClosed(rel, start + SourcesOf(rel, start));
    }
  }

  lemma {:induction false} ClosureIsLeast(rel: Relation, start: set<Id>, s: set<Id>)
    requires start <= s && Closed(rel, s)
    ensures Closure(rel, start) <= s
    decreases (set e | e in rel :: e.0) - start
  {
    if !(SourcesOf(rel, start) <= start) {
      Grows(rel, start);
      ClosureIsLeast(rel, start + SourcesOf(rel, start), s);
    }
  }

  // How every walk concludes: a closed set between the start and the closure is the closure.
  lemma ClosedBetween(rel: Relation, start: set<Id>, s: set<Id>)
    requires start <= s <= Closure(rel, start) && Closed(rel, s)
    ensures s == Closure(rel, start)
  {
    ClosureIsLeast(rel, start, s);
  }

  lemma ClosureIsMonotone(rel: Relation, start: set<Id>, start': set<Id>)
    requires start <= start'
    ensures Closure(rel, start) <= Closure(rel, start')
  {
    ClosureIsClosed(rel, start');
    ClosureIsLeast(rel, start, Closure(rel, start'));
  }

  /** Each element of the path is a source of the next one. */
  ghost predicate IsPath(rel: Relation, p: seq<Id>) {
    |p| > 0 && forall i | 0 <= i < |p| - 1 :: (p[i], p[i + 1]) in rel
  }

  ghost predicate Reaches(rel: Relation, x: Id, start: set<Id>) {
    exists p :: IsPath(rel, p) && p[0] == x && p[|p| - 1] in start
  }

  // Saturation and paths agree.
  lemma ClosureIsReachability(rel: Relation, start: set<Id>, x: Id)
    ensures x in Closure(rel, start) <==> Reaches(rel, x, start)
  {
    if Reaches(rel, x, start) {
      var p :| IsPath(rel, p) && p[0] == x && p[|p| - 1] in start;
      ClosureIsClosed(rel, start);
      PathStaysInside(rel, p, Closure(rel, start));
    }
    if x in Closure(rel, start) {
      PathInside(rel, start, x);
    }
  }

  lemma {:induction false} PathStaysInside(rel: Relation, p: seq<Id>, s: set<Id>)
    requires IsPath(rel, p) && Closed(rel, s) && p[|p| - 1] in s
    ensures p[0] in s
  {
    if |p| > 1 {
      PathStaysInside(rel, p[1..], s);
      assert (p[0], p[1]) in rel;
    }
  }

  lemma {:induction false} PathInside(rel: Relation, start: set<Id>, x: Id)
    requires x in Closure(rel, start)
    ensures Reaches(rel, x, start)
    decreases (set e | e in rel :: e.0) - start
  {
    var next := SourcesOf(rel, start);
    if next <= start {
      assert IsPath(rel, [x]);
    } else {
      Grows(rel, start);
      PathInside(rel, start + next, x);
      var p :| IsPath(rel, p) && p[0] == x && p[|p| - 1] in start + next;
      if p[|p| - 1] !in start {
        var e :| e in rel && e.1 in start && e.0 == p[|p| - 1];
        assert IsPath(rel, p + [e.1]);
        assert (p + [e.1])[|p|] == e.1;
      }
    }
  }
}
