/**
 Wall clocks: instants, local times and a zone's transitions (as used by app/events/automation_schedule.py:77-92).
 Instants and local times count microseconds from the epoch; a local time is the reading of the wall clock.
 */
module ZoneClock {
  const SECOND: int := 1_000_000
  const HOUR: int := 3_600_000_000
  const DAY: int := 86_400_000_000

  /// The zone database: offsets from UTC that change at given instants.

  datatype Transition = Transition(at: int, offset: int)

  datatype Zone = Zone(first: int, transitions: seq<Transition>)

  predicate IsOffset(o: int) {
    -DAY < o < DAY
  }

  // Transitions are two days apart, more than an offset can jump.
  ghost predicate WellFormed(z: Zone) {
    && IsOffset(z.first)
    && (forall i | 0 <= i < |z.transitions| :: IsOffset(z.transitions[i].offset))
    && (forall i, j | 0 <= i < j < |z.transitions| :: Apart(z, i, j))
  }

  predicate Apart(z: Zone, i: nat, j: nat)
    requires i < |z.transitions| && j < |z.transitions|
  {
    z.transitions[i].at + 2 * DAY <= z.transitions[j].at
  }

  ghost predicate WholeSeconds(z: Zone) {
    z.first % SECOND == 0 && forall i | 0 <= i < |z.transitions| :: z.transitions[i].offset % SECOND == 0
  }

  // The offset once the first `k` transitions have happened.
  function Offset(z: Zone, k: nat): int
    requires k <= |z.transitions|
  {
    if k == 0 then z.first else z.transitions[k - 1].offset
  }

  function Min(a: int, b: int): int { if a < b then a else b }
  function Max(a: int, b: int): int { if a < b then b else a }

  // The wall time at which transition `i` counts: an ambiguous time is before it with fold 0 and after it with fold 1.
  function WallAt(z: Zone, i: nat, fold: bool): int
    requires i < |z.transitions|
  {
    z.transitions[i].at + if fold then Min(Offset(z, i), Offset(z, i + 1)) else Max(Offset(z, i), Offset(z, i + 1))
  }

  // How many transitions have happened at an instant, or before a local time.
  function InstantIndex(z: Zone, u: int, n: nat): (k: nat)
    requires n <= |z.transitions|
    ensures k <= n
    ensures k > 0 ==> z.transitions[k - 1].at <= u
    ensures k < n ==> u < z.transitions[k].at
  {
    if n == 0 then 0 else if z.transitions[n - 1].at <= u then n else InstantIndex(z, u, n - 1)
  }

  function WallIndex(z: Zone, w: int, fold: bool, n: nat): (k: nat)
    requires n <= |z.transitions|
    ensures k <= n
    ensures k > 0 ==> WallAt(z, k - 1, fold) <= w
    ensures k < n ==> w < WallAt(z, k, fold)
  {
    if n == 0 then 0 else if WallAt(z, n - 1, fold) <= w then n else WallIndex(z, w, fold, n - 1)
  }

  function Local(z: Zone, u: int): int {
    u + Offset(z, InstantIndex(z, u, |z.transitions|))
  }

  // Whether the wall clock shows this time for the second time.
  function Fold(z: Zone, u: int): bool {
    var k := InstantIndex(z, u, |z.transitions|);
    k > 0 && Offset(z, k - 1) - Offset(z, k) > u - z.transitions[k - 1].at
  }

  function Utc(z: Zone, w: int, fold: bool): int {
    w - Offset(z, WallIndex(z, w, fold, |z.transitions|))
  }

  // The wall clock shows an instant with the offset of the last transition at or before it.
  lemma LocalTimeIs(z: Zone, u: int)
    requires WellFormed(z)
    ensures (forall i | 0 <= i < |z.transitions| :: u < z.transitions[i].at) ==> Local(z, u) == u + z.first
    ensures forall i | 0 <= i < |z.transitions| && z.transitions[i].at <= u && (i + 1 < |z.transitions| ==> u < z.transitions[i + 1].at) ::
      Local(z, u) == u + z.transitions[i].offset
  {
    forall i | 0 <= i < |z.transitions| && z.transitions[i].at <= u && (i + 1 < |z.transitions| ==> u < z.transitions[i + 1].at)
      ensures Local(z, u) == u + z.transitions[i].offset
    {
      InstantIndexIs(z, u, i + 1);
    }
  }

  lemma TransitionsInOrder(z: Zone, i: nat, j: nat)
    requires WellFormed(z) && i <= j < |z.transitions|
    ensures z.transitions[i].at <= z.transitions[j].at
  {
    assert i < j ==> Apart(z, i, j);
  }

  lemma InstantIndexIs(z: Zone, u: int, k: nat)
    requires WellFormed(z) && k <= |z.transitions|
    requires k > 0 ==> z.transitions[k - 1].at <= u
    requires k < |z.transitions| ==> u < z.transitions[k].at
    ensures InstantIndex(z, u, |z.transitions|) == k
  {
    var n := InstantIndex(z, u, |z.transitions|);
    if n + 1 < k {
      TransitionsInOrder(z, n, k - 1);
    }
    if k + 1 < n {
      TransitionsInOrder(z, k, n - 1);
    }
  }

  lemma WallTimesInOrder(z: Zone, fold: bool, i: nat, j: nat)
    requires WellFormed(z) && i < j < |z.transitions|
    ensures WallAt(z, i, fold) < WallAt(z, j, fold)
  {
    assert IsOffset(Offset(z, i)) && IsOffset(Offset(z, i + 1)) && IsOffset(Offset(z, j)) && IsOffset(Offset(z, j + 1));
    assert Apart(z, i, j);
  }

  lemma WallIndexIs(z: Zone, w: int, fold: bool, k: nat)
    requires WellFormed(z) && k <= |z.transitions|
    requires k > 0 ==> WallAt(z, k - 1, fold) <= w
    requires k < |z.transitions| ==> w < WallAt(z, k, fold)
    ensures WallIndex(z, w, fold, |z.transitions|) == k
  {
    var n := WallIndex(z, w, fold, |z.transitions|);
    if k + 1 < n {
      WallTimesInOrder(z, fold, k, n - 1);
    }
    if n + 1 < k {
      WallTimesInOrder(z, fold, n, k - 1);
    }
  }

  /** An instant converted to wall time and back is the same instant. */
  lemma InstantRoundTrip(z: Zone, u: int)
    requires WellFormed(z)
    ensures Utc(z, Local(z, u), Fold(z, u)) == u
  {
    var k := InstantIndex(z, u, |z.transitions|);
    if 0 < k < |z.transitions| {
      assert Apart(z, k - 1, k);
    }
    WallIndexIs(z, Local(z, u), Fold(z, u), k);
  }

  // A wall time read with fold 0 shows itself, or, inside a gap, the time moved forward by the gap.
  lemma WallTimeShows(z: Zone, w: int)
    requires WellFormed(z)
    ensures var k := WallIndex(z, w, false, |z.transitions|);
      if k < |z.transitions| && z.transitions[k].at + Offset(z, k) <= w
      then w < z.transitions[k].at + Offset(z, k + 1) && Local(z, Utc(z, w, false)) == w + Offset(z, k + 1) - Offset(z, k)
      else Local(z, Utc(z, w, false)) == w
  {
    var k := WallIndex(z, w, false, |z.transitions|);
    var u := Utc(z, w, false);
    if k < |z.transitions| && z.transitions[k].at <= u {
      assert IsOffset(Offset(z, k)) && IsOffset(Offset(z, k + 1));
      if k + 1 < |z.transitions| {
        assert Apart(z, k, k + 1);
      }
      InstantIndexIs(z, u, k + 1);
    } else {
      InstantIndexIs(z, u, k);
    }
  }

  lemma InstantIndexGrows(z: Zone, u: int, v: int)
    requires WellFormed(z) && u <= v
    ensures InstantIndex(z, u, |z.transitions|) <= InstantIndex(z, v, |z.transitions|)
  {
    var j, k := InstantIndex(z, u, |z.transitions|), InstantIndex(z, v, |z.transitions|);
    if k + 1 < j {
      TransitionsInOrder(z, k, j - 1);
    }
  }

  // Transition `i` with the two offsets around it, and its distance from the next one.
  lemma TransitionFacts(z: Zone, i: nat)
    requires WellFormed(z) && i < |z.transitions|
    ensures IsOffset(Offset(z, i)) && IsOffset(Offset(z, i + 1))
    ensures i + 1 < |z.transitions| ==> z.transitions[i].at + 2 * DAY <= z.transitions[i + 1].at
  {
    if i + 1 < |z.transitions| {
      assert Apart(z, i, i + 1);
    }
  }

  // The instant lies in the shift of the skipped time `w`: after transition `k`, before `w` is shown, moved forward.
  predicate Skipping(z: Zone, k: nat, w: int, u: int)
    requires k < |z.transitions|
  {
    var t, before, after := z.transitions[k].at, Offset(z, k), Offset(z, k + 1);
    t <= u < w - before && w < t + after && Local(z, u) == u + after
  }

  // Until a wall time is reached the clock shows less, except while it is being skipped.
  lemma NotYetReached(z: Zone, w: int, u: int)
    requires WellFormed(z) && u < Utc(z, w, false)
    ensures var k := WallIndex(z, w, false, |z.transitions|);
      Local(z, u) < w || (k < |z.transitions| && Skipping(z, k, w, u))
  {
    var k, j := WallIndex(z, w, false, |z.transitions|), InstantIndex(z, u, |z.transitions|);
    if j < k {
      ShowsLessBefore(z, u, j, k - 1);
    } else if k < j {
      TransitionFacts(z, k);
      TransitionsInOrder(z, k, j - 1);
      InstantIndexIs(z, u, k + 1);
    }
  }

  lemma ShowsLessBefore(z: Zone, u: int, j: nat, i: nat)
    requires WellFormed(z) && j == InstantIndex(z, u, |z.transitions|) <= i < |z.transitions|
    ensures Local(z, u) < WallAt(z, i, false)
  {
    if j < i {
      WallTimesInOrder(z, false, j, i);
    }
  }

  // Once a wall time has been reached the clock shows no less, unless it was set back by the last transition since.
  lemma ReachedBefore(z: Zone, w: int, u: int)
    requires WellFormed(z) && Utc(z, w, false) <= u && Local(z, u) < w
    ensures var j := InstantIndex(z, u, |z.transitions|);
      j > 0 && w < z.transitions[j - 1].at + Offset(z, j - 1) && z.transitions[j - 1].at + Offset(z, j) <= Local(z, u)
  {
    var k, j := WallIndex(z, w, false, |z.transitions|), InstantIndex(z, u, |z.transitions|);
    if k < j {
      BeforeTheLast(z, w, k, j - 1);
    } else if j < k {
      WallReached(z, k - 1, w);
      TransitionsInOrder(z, j, k - 1);
    }
  }

  // A wall time read under offset `k` lies at or after the transition that brought it in.
  lemma WallReached(z: Zone, i: nat, w: int)
    requires WellFormed(z) && i < |z.transitions| && WallIndex(z, w, false, |z.transitions|) == i + 1
    ensures z.transitions[i].at <= Utc(z, w, false)
  {
  }

  lemma BeforeTheLast(z: Zone, w: int, k: nat, i: nat)
    requires WellFormed(z) && k == WallIndex(z, w, false, |z.transitions|) <= i < |z.transitions|
    requires Utc(z, w, false) < z.transitions[i].at || k < i
    ensures w < z.transitions[i].at + Offset(z, i)
  {
    TransitionFacts(z, k);
    TransitionFacts(z, i);
    if k < i {
      assert Apart(z, k, i);
    }
  }

  lemma WallIndexGrows(z: Zone, w: int, v: int)
    requires WellFormed(z) && w <= v
    ensures WallIndex(z, w, false, |z.transitions|) <= WallIndex(z, v, false, |z.transitions|)
  {
    var j, k := WallIndex(z, w, false, |z.transitions|), WallIndex(z, v, false, |z.transitions|);
    if k + 1 < j {
      WallTimesInOrder(z, false, k, j - 1);
    }
  }

  // A later wall time on the other side of a transition is a later instant, when it is further off than the clock jumps.
  lemma ReadingsAcross(z: Zone, w: int, v: int)
    requires WellFormed(z) && WallIndex(z, w, false, |z.transitions|) < WallIndex(z, v, false, |z.transitions|)
    requires var j := WallIndex(z, w, false, |z.transitions|); Offset(z, j + 1) - Offset(z, j) < v - w
    ensures Utc(z, w, false) < Utc(z, v, false)
  {
    var j, k := WallIndex(z, w, false, |z.transitions|), WallIndex(z, v, false, |z.transitions|);
    TransitionFacts(z, j);
    if j + 1 < k {
      WallReached(z, k - 1, v);
      assert Apart(z, j, k - 1);
    }
  }

  // Inside a gap a wall time is read with the offset before it and shown with the offset after it.
  lemma SkippedReading(z: Zone, i: nat, w: int)
    requires WellFormed(z) && i < |z.transitions|
    requires z.transitions[i].at + Offset(z, i) < w < z.transitions[i].at + Offset(z, i + 1)
    ensures Utc(z, w, false) == w - Offset(z, i)
    ensures Local(z, w - Offset(z, i) - 1) == w + (Offset(z, i + 1) - Offset(z, i)) - 1
  {
    TransitionFacts(z, i);
    if i > 0 {
      TransitionFacts(z, i - 1);
    }
    WallIndexIs(z, w, false, i);
    InstantIndexIs(z, w - Offset(z, i) - 1, i + 1);
  }

  // A wall time shown before a set back, and more than a day later than what it goes back to, is past at the transition.
  lemma SetBackReading(z: Zone, i: nat, w: int)
    requires WellFormed(z) && i < |z.transitions|
    requires z.transitions[i].at + Offset(z, i + 1) + DAY < w < z.transitions[i].at + Offset(z, i)
    ensures Utc(z, w, false) < z.transitions[i].at
    ensures Local(z, z.transitions[i].at) == z.transitions[i].at + Offset(z, i + 1)
  {
    TransitionFacts(z, i);
    if i > 0 {
      TransitionFacts(z, i - 1);
    }
    WallIndexIs(z, w, false, i);
    InstantIndexIs(z, z.transitions[i].at, i + 1);
  }
}
