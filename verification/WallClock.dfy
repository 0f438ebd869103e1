/** Local wall clocks and how a nominal calendar time is resolved to an instant
    (internal/core/schedule_time.go, first half). Instants and wall
    times are counted in minutes; a wall time is the instant whose UTC reading it is. */
module WallClock {
  import opened Wrappers

  const DAY: int := 1_440
  /** Within a week a zone changes its offset at most once. */
  const WEEK: int := 10_080

  /** The calendar date of a wall time, as days since the epoch, and its midnight. */
  function DateOf(wall: int): int { wall / 1_440 }

  function MidnightOf(date: int): int { date * 1_440 }

  lemma DateBounds(wall: int)
    ensures MidnightOf(DateOf(wall)) <= wall < MidnightOf(DateOf(wall) + 1)
  {
  }

  /** A location: `off` gives the offset in force at an instant. `pick` is the
      freedom Go leaves to time.Date: the instant whose offset it happens to use. */
  datatype Zone = Zone(off: int -> int, pick: int -> int) {

    ghost predicate Valid() {
      && (forall t :: -DAY < off(t) < DAY)
      && (forall w :: -DAY < pick(w) - w < DAY)
      && (forall t1, t2, t3 :: OneChange(t1, t2, t3))
      && (forall t1, t2 :: Near(t1, t2))
    }

    /** No offset comes and goes within a week ... */
    ghost predicate OneChange(t1: int, t2: int, t3: int) {
      t1 <= t2 <= t3 <= t1 + WEEK ==> off(t2) == off(t1) || off(t2) == off(t3)
    }

    /** ... and a single change moves the clock by at most 24 hours. */
    ghost predicate Near(t1: int, t2: int) {
      t1 <= t2 <= t1 + WEEK ==> -DAY <= off(t1) - off(t2) <= DAY
    }

    /** What a clock in this location shows at instant t. */
    function Local(t: int): int { t + off(t) }

    /** time.Date: correct for one of the offsets in force near the wall time. */
    function Date(wall: int): int { wall - off(pick(wall)) }

    /** No instant shows this wall time: it lies in the gap of a forward change. */
    ghost predicate Missing(wall: int) {
      forall t :: Local(t) != wall
    }

    /** Reference resolution: the first instant showing `wall`; a missing wall keeps
        the offset in force a day earlier, i.e. the one before the gap. */
    function Due(wall: int): int {
      var early, late := wall - off(wall - DAY), wall - off(wall + DAY);
      if Local(early) == wall && (Local(late) != wall || early <= late) then early
      else if Local(late) == wall then late
      else early
    }
  }

  /** Due is the least instant showing the wall time, whenever there is one. */
  lemma DueIsFirst(z: Zone, wall: int)
    requires z.Valid()
    ensures z.Missing(wall) <==> z.Local(z.Due(wall)) != wall
    ensures forall t :: z.Local(t) == wall ==> z.Due(wall) <= t
  {
    forall t | z.Local(t) == wall
      ensures z.Local(z.Due(wall)) == wall && z.Due(wall) <= t
    {
      assert z.OneChange(wall - DAY, t, wall + DAY);
    }
  }

  /** Where wallOffsets looks, relative to its anchor: 48 and 24 hours either side. */
  const PROBES: seq<int> := [-2 * DAY, -DAY, 0, DAY, 2 * DAY]

  ghost function Samples(z: Zone, wall: int): set<int> {
    set j | 0 <= j < |PROBES| :: z.off(z.Date(wall) + PROBES[j])
  }

  method WallOffsets(z: Zone, wall: int) returns (offsets: set<int>)
    ensures offsets == Samples(z, wall)
  {
    offsets := {};
    var anchor := z.Date(wall);
    for i := 0 to |PROBES|
      invariant offsets == set j | 0 <= j < i :: z.off(anchor + PROBES[j])
    {
      offsets := offsets + {z.off(anchor + PROBES[i])};
    }
  }

  /** Every instant within a day of the wall time has a sampled offset: the five
      probes never miss an offset that can show the wall. */
  lemma SamplesCover(z: Zone, wall: int, t: int)
    requires z.Valid() && wall - DAY <= t <= wall + DAY
    ensures z.off(t) in Samples(z, wall)
  {
    var a := z.Date(wall);
    assert z.OneChange(a + PROBES[0], t, a + PROBES[4]);
    assert z.off(a + PROBES[0]) in Samples(z, wall) && z.off(a + PROBES[4]) in Samples(z, wall);
  }

  lemma SampleBound(z: Zone, wall: int, o: int)
    requires z.Valid() && o in Samples(z, wall)
    ensures -DAY < o < DAY
  {
    var j :| 0 <= j < |PROBES| && o == z.off(z.Date(wall) + PROBES[j]);
  }

  /** When a change lies within a day of the wall time, only its two sides are sampled. */
  lemma SamplesNearChange(z: Zone, wall: int, o: int)
    requires z.Valid()
    requires z.off(wall - DAY) != z.off(wall + DAY) && o in Samples(z, wall)
    ensures o == z.off(wall - DAY) || o == z.off(wall + DAY)
  {
    var j :| 0 <= j < |PROBES| && o == z.off(z.Date(wall) + PROBES[j]);
    var t := z.Date(wall) + PROBES[j];
    assert z.OneChange(t, wall - DAY, wall + DAY) && z.OneChange(wall - DAY, t, wall + DAY) && z.OneChange(wall - DAY, wall + DAY, t);
  }

  /** In a gap the offset before it is the smaller one, so that the latest candidate
      is the wall time read with the offset before the gap. */
  lemma MissingIsGap(z: Zone, wall: int)
    requires z.Valid() && z.Missing(wall)
    ensures z.off(wall - DAY) < z.off(wall + DAY)
    ensures z.Due(wall) == wall - z.off(wall - DAY)
    ensures z.off(wall - z.off(wall + DAY)) == z.off(wall - DAY)
  {
    var p, q := z.off(wall - DAY), z.off(wall + DAY);
    assert z.Local(wall - p) != wall && z.Local(wall - q) != wall;
    assert z.OneChange(wall - DAY, wall - p, wall + DAY) && z.OneChange(wall - DAY, wall - q, wall + DAY);
    assert z.OneChange(wall - DAY, wall - p, wall - q);
  }

  /** The two facts that identify resolveWall's answer among the sampled candidates. */
  lemma ResolvedFrom(z: Zone, wall: int)
    requires z.Valid()
    ensures Samples(z, wall) != {}
    ensures forall t :: z.Local(t) == wall ==> wall - t in Samples(z, wall)
    ensures z.Missing(wall) ==> z.off(wall - DAY) in Samples(z, wall)
    ensures z.Missing(wall) ==> forall o :: o in Samples(z, wall) ==> z.off(wall - DAY) <= o
    ensures z.Missing(wall) ==> z.Due(wall) == wall - z.off(wall - DAY)
  {
    SamplesCover(z, wall, wall - DAY);
    forall t | z.Local(t) == wall ensures wall - t in Samples(z, wall) {
      SamplesCover(z, wall, t);
    }
    if z.Missing(wall) {
      MissingIsGap(z, wall);
      forall o | o in Samples(z, wall) ensures z.off(wall - DAY) <= o {
        SamplesNearChange(z, wall, o);
      }
    }
    DueIsFirst(z, wall);
  }

  /** The least and the latest candidate among the offsets already visited. */
  ghost predicate FirstOf(z: Zone, wall: int, tried: set<int>, first: Option<int>) {
    match first
    case None => forall o :: o in tried ==> z.Local(wall - o) != wall
    case Some(t) => z.Local(t) == wall && forall o :: o in tried && z.Local(wall - o) == wall ==> t <= wall - o
  }

  ghost predicate LatestOf(wall: int, tried: set<int>, fallback: Option<int>) {
    match fallback
    case None => tried == {}
    case Some(t) => wall - t in tried && forall o :: o in tried ==> wall - o <= t
  }

  /** One candidate. */
  method ResolveStep(z: Zone, wall: int, ghost tried: set<int>, offset: int, first0: Option<int>, fallback0: Option<int>)
    returns (first: Option<int>, fallback: Option<int>)
    requires FirstOf(z, wall, tried, first0) && LatestOf(wall, tried, fallback0)
    ensures FirstOf(z, wall, tried + {offset}, first) && LatestOf(wall, tried + {offset}, fallback)
  {
    first, fallback := first0, fallback0;
    var candidate := wall - offset;
    if fallback.None? || candidate > fallback.value {
      fallback := Some(candidate);
    }
    var local := z.Local(candidate);
    if local == wall && (first.None? || candidate < first.value) {
      first := Some(candidate);
    }
  }

  /** resolveWall: the least instant showing `wall`, or, when none does, the latest
      candidate. The order in which the offsets are visited is left open. */
  method ResolveWall(z: Zone, wall: int) returns (due: int, missing: bool)
    requires z.Valid()
    ensures missing <==> z.Missing(wall)
    ensures !missing ==> z.Local(due) == wall && forall t :: z.Local(t) == wall ==> due <= t
    ensures due == z.Due(wall)
  {
    var offsets := WallOffsets(z, wall);
    var first, fallback: Option<int> := None, None;
    var rest, tried := offsets, {};
    while rest != {}
      invariant rest + tried == offsets
      invariant FirstOf(z, wall, tried, first)
      invariant LatestOf(wall, tried, fallback)
      decreases rest
    {
      var offset :| offset in rest;
      first, fallback := ResolveStep(z, wall, tried, offset, first, fallback);
      rest, tried := rest - {offset}, tried + {offset};
    }
    Resolved(z, wall, first, fallback);
    if first.None? {
      return fallback.value, true;
    }
    return first.value, false;
  }

  lemma Resolved(z: Zone, wall: int, first: Option<int>, fallback: Option<int>)
    requires z.Valid()
    requires FirstOf(z, wall, Samples(z, wall), first) && LatestOf(wall, Samples(z, wall), fallback)
    ensures first.None? <==> z.Missing(wall)
    ensures first.Some? ==> first.value == z.Due(wall) && z.Local(first.value) == wall && forall t :: z.Local(t) == wall ==> first.value <= t
    ensures first.None? ==> fallback == Some(z.Due(wall))
  {
    ResolvedFrom(z, wall);
    DueIsFirst(z, wall);
    if first.None? {
      forall t ensures z.Local(t) != wall {
        var o := wall - t;
        assert z.Local(wall - o) == z.Local(t);
      }
    } else {
      var d := z.Due(wall);
      assert wall - (wall - d) == d;
    }
  }

  // ---- How resolved instants follow the wall times they come from ----

  /** Resolved instants are not monotone in the wall time, but each comes from the
      offset of an instant at most a day before the wall time and not after itself. */
  lemma DueOffset(z: Zone, wall: int) returns (v: int)
    requires z.Valid()
    ensures wall - DAY <= v <= z.Due(wall) && z.Due(wall) == wall - z.off(v)
  {
    DueIsFirst(z, wall);
    if z.Missing(wall) {
      MissingIsGap(z, wall);
      v := wall - DAY;
    } else {
      v := z.Due(wall);
    }
  }

  /** A bound below every candidate of `wall` is below every later wall's instant. */
  lemma LaterWallsAreLater(z: Zone, wall: int, later: int, earliest: int)
    requires z.Valid() && wall <= later
    requires earliest <= wall + DAY && forall o :: o in Samples(z, wall) ==> earliest <= wall - o
    ensures earliest <= z.Due(later)
  {
    var v := DueOffset(z, later);
    if z.Due(later) < earliest {
      SamplesCover(z, wall, v);
    }
  }

  /** The offsets in force within a day of an instant are sampled around what the clock
      shows at it. */
  lemma SamplesAround(z: Zone, at: int, t: int)
    requires z.Valid() && at - DAY <= t <= at + DAY
    ensures z.off(t) in Samples(z, z.Local(at))
  {
    var wall := z.Local(at);
    var a := z.Date(wall);
    assert z.Near(at, z.pick(wall)) && z.Near(z.pick(wall), at);
    assert z.OneChange(a + PROBES[0], t, a + PROBES[4]);
    assert z.off(a + PROBES[0]) in Samples(z, wall) && z.off(a + PROBES[4]) in Samples(z, wall);
  }

  /** Walls more than the local offset spread behind the clock at `after` are past. */
  lemma EarlierWallsArePast(z: Zone, after: int, wall: int, low: int, high: int)
    requires z.Valid()
    requires forall o :: o in Samples(z, z.Local(after)) ==> low <= o <= high
    requires wall <= z.Local(after) - (high - low)
    ensures z.Due(wall) <= after
    ensures wall < z.Local(after) - (high - low) ==> z.Due(wall) < after
  {
    SamplesAround(z, after, after);
    DueIsFirst(z, wall);
    var due := z.Due(wall);
    if due >= after {
      if z.Missing(wall) {
        MissingIsGap(z, wall);
        var before := wall - z.off(wall + DAY);
        assert z.OneChange(wall - DAY, after, wall + DAY);
        if z.off(after) == z.off(wall + DAY) {
          assert z.OneChange(wall - DAY, after, before);
          assert z.Near(wall - DAY, after);
          SamplesAround(z, after, before);
        }
      } else {
        assert z.Near(after, due);
        SamplesAround(z, after, due);
      }
    }
  }

  /** Walls whose instant is not after `after` are at most a day ahead of the clock. */
  lemma PastWallsAreNear(z: Zone, after: int, wall: int)
    requires z.Valid() && z.Due(wall) <= after
    ensures wall <= z.Local(after) + DAY
  {
    var v := DueOffset(z, wall);
    assert z.Near(v, after);
  }

  /** Walls not yet beyond an earlier wall's instant are at most a day beyond that wall. */
  lemma OpenWallsAreNear(z: Zone, first: int, wall: int, earliest: int)
    requires z.Valid() && first <= wall
    requires earliest == wall + DAY || wall - earliest in Samples(z, wall)
    requires earliest <= z.Due(first)
    ensures wall <= first + DAY
  {
    var v := DueOffset(z, first);
    if earliest != wall + DAY {
      var o := wall - earliest;
      var j :| 0 <= j < |PROBES| && o == z.off(z.Date(wall) + PROBES[j]);
      var s := z.Date(wall) + PROBES[j];
      assert z.Near(v, s) && z.Near(s, v);
    }
  }

  /** The offsets sampled around a wall differ by at most a day. */
  lemma SampleSpread(z: Zone, wall: int, o1: int, o2: int)
    requires z.Valid() && o1 in Samples(z, wall) && o2 in Samples(z, wall)
    ensures o1 - o2 <= DAY
  {
    var a := z.Date(wall);
    var j, k :| 0 <= j < |PROBES| && 0 <= k < |PROBES| && o1 == z.off(a + PROBES[j]) && o2 == z.off(a + PROBES[k]);
    assert z.Near(a + PROBES[j], a + PROBES[k]) && z.Near(a + PROBES[k], a + PROBES[j]);
  }
}
