/** Zones whose transitions keep every wall time on its date and dates in order. */
module ZoneDates {
  import opened ZoneClock

  // The calendar date of a local time, and the midnight it starts with.
  function Date(w: int): int { w / 86_400_000_000 }

  function Midnight(d: int): int { d * 86_400_000_000 }

  // A clock set forward moves no skipped time to another date, and a clock set back repeats none.
  ghost predicate KeepsDates(z: Zone) {
    forall i | 0 <= i < |z.transitions| :: KeptAt(z, i)
  }

  predicate KeptAt(z: Zone, i: nat)
    requires i < |z.transitions|
  {
    DateKept(z.transitions[i].at, Offset(z, i), Offset(z, i + 1))
  }

  predicate DateKept(at: int, before: int, after: int) {
    && (before < after ==> Date(at + before) == Date(at + after + (after - before) - 1))
    && (after < before ==> Date(at + after) == Date(at + before - 1))
  }

  // Every wall time falls on the date it names, and dates never run backwards.
  ghost predicate DatesInOrder(z: Zone) {
    (forall w: int :: Lands(z, w)) && (forall u: int, v: int | u <= v :: Forward(z, u, v))
  }

  predicate Lands(z: Zone, w: int) { Date(Local(z, Utc(z, w, false))) == Date(w) }

  predicate Forward(z: Zone, u: int, v: int) { Date(Local(z, u)) <= Date(Local(z, v)) }

  lemma DatesLand(z: Zone, w: int)
    requires WellFormed(z) && KeepsDates(z)
    ensures Lands(z, w)
  {
    WallTimeShows(z, w);
    var k := WallIndex(z, w, false, |z.transitions|);
    if k < |z.transitions| && z.transitions[k].at + Offset(z, k) <= w {
      assert KeptAt(z, k);
      GapStaysOnDate(z.transitions[k].at, Offset(z, k), Offset(z, k + 1), w);
    }
  }

  lemma GapStaysOnDate(at: int, before: int, after: int, w: int)
    requires at + before <= w < at + after && DateKept(at, before, after)
    ensures Date(w + after - before) == Date(w)
  {
  }

  lemma GapDates(at: int, before: int, after: int)
    requires before < after && Date(at + before) == Date(at + after)
    requires Date(at + after - 1) == Date(at + after + (after - before) - 1)
    ensures DateKept(at, before, after)
  {
  }

  lemma BackDates(at: int, before: int, after: int)
    requires after <= before && Date(at - 1 + before) <= Date(at + after)
    ensures DateKept(at, before, after)
  {
  }

  lemma JustBefore(z: Zone, i: nat)
    requires WellFormed(z) && i < |z.transitions|
    ensures InstantIndex(z, z.transitions[i].at - 1, |z.transitions|) == i
  {
    if i > 0 {
      TransitionFacts(z, i - 1);
    }
    InstantIndexIs(z, z.transitions[i].at - 1, i);
  }

  // From just before the last transition to any later instant.
  lemma LastTransitionAdvances(z: Zone, v: int)
    requires WellFormed(z) && KeepsDates(z) && InstantIndex(z, v, |z.transitions|) > 0
    ensures var k := InstantIndex(z, v, |z.transitions|);
      var t := z.transitions[k - 1].at; InstantIndex(z, t - 1, |z.transitions|) == k - 1 && Forward(z, t - 1, v)
  {
    var k := InstantIndex(z, v, |z.transitions|);
    var t := z.transitions[k - 1].at;
    JustBefore(z, k - 1);
    assert KeptAt(z, k - 1);
    BackStaysOnDate(t, Offset(z, k - 1), Offset(z, k), v);
  }

  lemma SameOffsetAdvances(z: Zone, u: int, v: int)
    requires u <= v && InstantIndex(z, u, |z.transitions|) == InstantIndex(z, v, |z.transitions|)
    ensures Forward(z, u, v)
  {
    DateGrows(Local(z, u), Local(z, v));
  }

  lemma {:induction false} DatesAdvanceTo(z: Zone, u: int, v: int, k: nat)
    requires WellFormed(z) && KeepsDates(z) && u <= v && k == InstantIndex(z, v, |z.transitions|)
    ensures Forward(z, u, v)
    decreases k
  {
    InstantIndexGrows(z, u, v);
    var j := InstantIndex(z, u, |z.transitions|);
    if j < k {
      var last := z.transitions[k - 1].at - 1;
      TransitionsInOrder(z, j, k - 1);
      LastTransitionAdvances(z, v);
      DatesAdvanceTo(z, u, last, k - 1);
      ForwardChains(z, u, last, v);
    } else {
      SameOffsetAdvances(z, u, v);
    }
  }

  lemma DatesAdvance(z: Zone, u: int, v: int)
    requires WellFormed(z) && KeepsDates(z) && u <= v
    ensures Forward(z, u, v)
  {
    DatesAdvanceTo(z, u, v, InstantIndex(z, v, |z.transitions|));
  }

  lemma ForwardChains(z: Zone, u: int, m: int, v: int)
    requires Forward(z, u, m) && Forward(z, m, v)
    ensures Forward(z, u, v)
  {
  }

  lemma DateGrows(a: int, b: int)
    requires a <= b
    ensures Date(a) <= Date(b)
  {
  }

  lemma BackStaysOnDate(at: int, before: int, after: int, v: int)
    requires DateKept(at, before, after) && at <= v
    ensures Date(at - 1 + before) <= Date(v + after)
  {
  }

  lemma LandingMeansKept(z: Zone, i: nat)
    requires WellFormed(z) && i < |z.transitions| && Offset(z, i) < Offset(z, i + 1)
    requires Lands(z, z.transitions[i].at + Offset(z, i)) && Lands(z, z.transitions[i].at + Offset(z, i + 1) - 1)
    ensures KeptAt(z, i)
  {
    var t, before, after := z.transitions[i].at, Offset(z, i), Offset(z, i + 1);
    SkippedTimeLands(z, i, t + before);
    SkippedTimeLands(z, i, t + after - 1);
    GapDates(t, before, after);
  }

  lemma SkippedTimeLands(z: Zone, i: nat, w: int)
    requires WellFormed(z) && i < |z.transitions| && Lands(z, w)
    requires z.transitions[i].at + Offset(z, i) <= w < z.transitions[i].at + Offset(z, i + 1)
    ensures Date(w + Offset(z, i + 1) - Offset(z, i)) == Date(w)
  {
    SkippedTimeShows(z, i, w);
  }

  lemma SkippedTimeShows(z: Zone, i: nat, w: int)
    requires WellFormed(z) && i < |z.transitions|
    requires z.transitions[i].at + Offset(z, i) <= w < z.transitions[i].at + Offset(z, i + 1)
    ensures Local(z, Utc(z, w, false)) == w + Offset(z, i + 1) - Offset(z, i)
  {
    if i > 0 {
      assert Apart(z, i - 1, i) && IsOffset(Offset(z, i - 1)) && IsOffset(Offset(z, i));
    }
    WallIndexIs(z, w, false, i);
    WallTimeShows(z, w);
  }

  lemma ForwardMeansKept(z: Zone, i: nat)
    requires WellFormed(z) && i < |z.transitions| && Offset(z, i + 1) <= Offset(z, i)
    requires Forward(z, z.transitions[i].at - 1, z.transitions[i].at)
    ensures KeptAt(z, i)
  {
    var t := z.transitions[i].at;
    if i > 0 {
      assert Apart(z, i - 1, i);
    }
    InstantIndexIs(z, t - 1, i);
    if i + 1 < |z.transitions| {
      assert Apart(z, i, i + 1);
    }
    InstantIndexIs(z, t, i + 1);
    BackDates(t, Offset(z, i), Offset(z, i + 1));
  }

  /** Exactly the zones that keep their dates show every wall time on its own date, with dates in order. */
  lemma DatesInOrderIffKept(z: Zone)
    requires WellFormed(z)
    ensures DatesInOrder(z) <==> KeepsDates(z)
  {
    if DatesInOrder(z) {
      forall i | 0 <= i < |z.transitions| ensures KeptAt(z, i) {
        if Offset(z, i) < Offset(z, i + 1) {
          LandingMeansKept(z, i);
        } else {
          ForwardMeansKept(z, i);
        }
      }
    }
    if KeepsDates(z) {
      forall w: int ensures Lands(z, w) {
        DatesLand(z, w);
      }
      forall u: int, v: int | u <= v ensures Forward(z, u, v) {
        DatesAdvance(z, u, v);
      }
    }
  }
}
