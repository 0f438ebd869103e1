/** Maintenance windows and policies (internal/core/maintenance.go). Windows use elapsed
    duration; an exception closes the whole local date. */
module Maintenance {
  import opened Wrappers
  import opened WallClock
  import opened ScheduleTime

  datatype Policy = Policy(name: string, rule: Rule, zone: Zone, exceptions: set<int>, minutes: int, connections: set<string>) {
    ghost predicate Valid() { zone.Valid() && rule.Valid() }

    predicate DurationAllowed() { 1 <= minutes <= 1440 }

    function Length(): int { minutes }

    /** An exception covers the local date at t. */
    predicate ClosedDay(t: int) { DateOf(zone.Local(t)) in exceptions }

    /** The midnight that ends the local date at t, as a wall time. */
    function Midnight(t: int): int { MidnightOf(DateOf(zone.Local(t)) + 1) }

    predicate NextDayClosed(t: int) { DateOf(zone.Local(t)) + 1 in exceptions }

    /** The window starts at d: the rule matches there, the wall time is real, d is its
        first instant, and no exception removes it. */
    ghost predicate StartsAt(d: int) {
      rule.matches(zone.Local(d)) && zone.Due(zone.Local(d)) == d && !ClosedDay(d)
    }

    /** Starts whose window contains `at`. */
    ghost predicate Covers(d: int, at: int) { StartsAt(d) && at - Length() < d <= at }

    predicate AppliesTo(connection: string) { connections == {} || connection in connections }
  }

  /** `Shut` is the zero time: no window is open or about to end. */
  datatype WindowEnd = BadDuration | Shut | Until(end: int) {
    predicate After(at: int) { Until? && end > at }
  }

  /** What maintenanceWindow owes: the greatest end over all covering starts, clipped
      where an excepted next date begins. */
  ghost predicate IsWindow(p: Policy, at: int, r: WindowEnd) {
    if !p.DurationAllowed() then r == BadDuration
    else if p.ClosedDay(at) then r == Shut
    else if forall d :: !p.Covers(d, at) then r == Shut
    else r.Until? && exists d :: Latest(p, at, d) && r.end == Clipped(p, at, d + p.Length())
  }

  ghost predicate Latest(p: Policy, at: int, d: int) {
    p.Covers(d, at) && forall x :: p.Covers(x, at) ==> x <= d
  }

  function Clipped(p: Policy, at: int, end: int): int {
    var midnight := p.zone.Due(p.Midnight(at));
    if p.NextDayClosed(at) && midnight < end then midnight else end
  }

  /** The offset range around the window, from the instants the code probes. */
  method OffsetRange(z: Zone, after: int, at: int) returns (minimum: int, maximum: int)
    requires z.Valid() && after <= at <= after + DAY
    ensures minimum <= z.off(after) <= maximum && minimum <= z.off(at) <= maximum && maximum - minimum <= DAY
  {
    minimum, maximum := z.off(at), z.off(at);
    ghost var lo, hi := at, at;
    var anchors := [after - 2 * DAY, after, after + 2 * DAY, at - 2 * DAY, at, at + 2 * DAY];
    for i := 0 to |anchors|
      invariant minimum == z.off(lo) && maximum == z.off(hi)
      invariant after - 2 * DAY <= lo <= at + 2 * DAY && after - 2 * DAY <= hi <= at + 2 * DAY
      invariant forall j :: 0 <= j < i ==> minimum <= z.off(anchors[j]) <= maximum
    {
      var offset := z.off(anchors[i]);
      if offset < minimum {
        minimum, lo := offset, anchors[i];
      }
      if offset > maximum {
        maximum, hi := offset, anchors[i];
      }
    }
    assert z.off(after) == z.off(anchors[1]) && z.off(at) == z.off(anchors[4]);
    assert z.Near(lo, hi) && z.Near(hi, lo);
  }

  /** The padded wall range contains every covering start, across an offset change. */
  lemma RangeContains(p: Policy, at: int, low: int, high: int, d: int)
    requires p.Valid() && p.DurationAllowed() && p.Covers(d, at)
    requires low <= p.zone.off(at - p.Length()) <= high && low <= p.zone.off(at) <= high
    ensures p.zone.Local(at - p.Length()) - (high - low) < p.zone.Local(d) <= p.zone.Local(at) + (high - low)
  {
    assert p.zone.OneChange(at - p.Length(), d, at);
  }

  ghost predicate InRange(p: Policy, at: int, start: int, limit: int) {
    forall d :: p.Covers(d, at) ==> start < p.zone.Local(d) <= limit
  }

  lemma RangeContainsAll(p: Policy, at: int, low: int, high: int)
    requires p.Valid() && p.DurationAllowed()
    requires low <= p.zone.off(at - p.Length()) <= high && low <= p.zone.off(at) <= high
    ensures InRange(p, at, p.zone.Local(at - p.Length()) - (high - low), p.zone.Local(at) + (high - low))
  {
    forall d | p.Covers(d, at)
      ensures p.zone.Local(at - p.Length()) - (high - low) < p.zone.Local(d) <= p.zone.Local(at) + (high - low)
    {
      RangeContains(p, at, low, high, d);
    }
  }

  /** Every covering start found so far ends no later than `until`, and `until` is one. */
  ghost predicate Scanned(p: Policy, at: int, wall: int, until: Option<int>) {
    && (forall d :: p.Covers(d, at) && p.zone.Local(d) <= wall ==> until.Some? && d + p.Length() <= until.value)
    && (until.Some? ==> p.Covers(until.value - p.Length(), at))
  }

  lemma ScannedAll(p: Policy, at: int, until: Option<int>)
    requires p.DurationAllowed() && !p.ClosedDay(at)
    requires forall d :: p.Covers(d, at) ==> until.Some? && d + p.Length() <= until.value
    requires until.Some? ==> p.Covers(until.value - p.Length(), at)
    ensures IsWindow(p, at, if until.None? then Shut else Until(Clipped(p, at, until.value)))
  {
    if until.Some? {
      assert Latest(p, at, until.value - p.Length());
    }
  }

  lemma ScanStep(p: Policy, at: int, before: int, wall: int, due: int, missing: bool, until: Option<int>, until': Option<int>)
    requires p.Valid() && p.rule.next(before) == Some(wall) && Scanned(p, at, before, until)
    requires due == p.zone.Due(wall) && (missing <==> p.zone.Missing(wall))
    requires until' == if !missing && at - p.Length() < due <= at && DateOf(wall) !in p.exceptions && (until.None? || due + p.Length() > until.value)
                       then Some(due + p.Length()) else until
    ensures Scanned(p, at, wall, until')
  {
    DueIsFirst(p.zone, wall);
    forall d | p.Covers(d, at) && p.zone.Local(d) <= wall
      ensures until'.Some? && d + p.Length() <= until'.value
    {
      assert p.zone.Local(d) <= before || p.zone.Local(d) == wall;
    }
  }

  lemma ScanEnds(p: Policy, at: int, wall: int, limit: int, until: Option<int>)
    requires p.Valid() && Scanned(p, at, wall, until)
    requires forall d :: p.Covers(d, at) ==> p.zone.Local(d) <= limit
    requires p.rule.next(wall).None? || p.rule.next(wall).value > limit
    ensures forall d :: p.Covers(d, at) ==> until.Some? && d + p.Length() <= until.value
  {
  }

  method Start(p: Policy, wall: int) returns (due: int, missing: bool)
    requires p.Valid()
    ensures due == p.zone.Due(wall) && (missing <==> p.zone.Missing(wall))
  {
    due, missing := ResolveWall(p.zone, wall);
  }

  /** One nominal start: it counts if it is real, covers `at` and is not excepted. */
  method ScanWall(p: Policy, at: int, ghost before: int, wall: int, until0: Option<int>) returns (until: Option<int>)
    requires p.Valid() && p.rule.next(before) == Some(wall) && Scanned(p, at, before, until0)
    ensures Scanned(p, at, wall, until)
  {
    until := until0;
    var due, missing := Start(p, wall);
    if !missing && due > at - p.Length() && due <= at && DateOf(wall) !in p.exceptions {
      var end := due + p.Length();
      if until.None? || end > until.value {
        until := Some(end);
      }
    }
    ScanStep(p, at, before, wall, due, missing, until0, until);
  }

  /** maintenanceWindow. */
  method MaintenanceWindow(p: Policy, at: int) returns (r: WindowEnd)
    requires p.Valid()
    ensures IsWindow(p, at, r)
  {
    if !p.DurationAllowed() {
      return BadDuration;
    }
    if p.ClosedDay(at) {
      return Shut;
    }
    var until := LatestEnd(p, at);
    ScannedAll(p, at, until);
    if until.None? {
      return Shut;
    }
    var end := until.value;
    if p.NextDayClosed(at) {
      var midnight, _ := ResolveWall(p.zone, p.Midnight(at));
      if midnight < end {
        end := midnight;
      }
    }
    return Until(end);
  }

  /** The padded wall range. */
  method SearchRange(p: Policy, at: int) returns (start: int, limit: int)
    requires p.Valid() && p.DurationAllowed()
    ensures InRange(p, at, start, limit) && start <= limit <= start + 5760
  {
    var after := at - p.Length();
    var minimum, maximum := OffsetRange(p.zone, after, at);
    var padding := maximum - minimum;
    RangeContainsAll(p, at, minimum, maximum);
    assert p.zone.Near(after, at);
    return p.zone.Local(after) - padding, p.zone.Local(at) + padding;
  }

  /** The enumeration of nominal starts, each resolved on its own. At most 5,760 minute
      walls lie in the range, so the cap on the iterations never cuts it short. */
  method LatestEnd(p: Policy, at: int) returns (until: Option<int>)
    requires p.Valid() && p.DurationAllowed()
    ensures forall d :: p.Covers(d, at) ==> until.Some? && d + p.Length() <= until.value
    ensures until.Some? ==> p.Covers(until.value - p.Length(), at)
  {
    var start, limit := SearchRange(p, at);
    until := None;
    var wall := start;
    var i := 0;
    while i < 6000
      invariant Scanned(p, at, wall, until) && InRange(p, at, start, limit)
      invariant 0 <= i <= wall - start && wall <= limit <= start + 5760
    {
      ghost var before := wall;
      var upcoming := p.rule.next(wall);
      if upcoming.None? || upcoming.value > limit {
        ScanEnds(p, at, wall, limit, until);
        return;
      }
      wall := upcoming.value;
      until := ScanWall(p, at, before, wall, until);
      i := i + 1;
    }
    assert false;
  }

  // ---- Several policies ----

  datatype Restriction = Failed | Closed(name: string) | Open(until: Option<int>)

  ghost predicate OpenUntil(p: Policy, at: int, end: int) { IsWindow(p, at, Until(end)) && end > at }

  /** What maintenanceRestriction owes for the policies that apply to a connection: all
      of them open, with the least of their ends, or one that is not. */
  ghost predicate Restricts(policies: seq<Policy>, connection: string, at: int, r: Restriction) {
    match r
    case Failed => exists p :: p in policies && p.AppliesTo(connection) && !p.DurationAllowed()
    case Closed(name) => exists p, w :: p in policies && p.AppliesTo(connection) && p.name == name && IsWindow(p, at, w) && !w.After(at)
    case Open(until) =>
      && (forall p :: p in policies && p.AppliesTo(connection) ==> exists end :: OpenUntil(p, at, end) && until.Some? && until.value <= end)
      && (until.Some? ==> exists p :: p in policies && p.AppliesTo(connection) && OpenUntil(p, at, until.value))
  }

  method MaintenanceRestriction(policies: seq<Policy>, connection: string, at: int) returns (r: Restriction)
    requires forall p :: p in policies ==> p.Valid()
    ensures Restricts(policies, connection, at, r)
  {
    var until: Option<int> := None;
    for i := 0 to |policies|
      invariant Restricts(policies[..i], connection, at, Open(until))
    {
      var p := policies[i];
      assert policies[..i + 1] == policies[..i] + [p];
      if p.AppliesTo(connection) {
        var end := MaintenanceWindow(p, at);
        if end == BadDuration {
          return Failed;
        }
        if !end.After(at) {
          return Closed(p.name);
        }
        assert OpenUntil(p, at, end.end);
        if until.None? || end.end < until.value {
          until := Some(end.end);
        }
      }
    }
    assert policies[..|policies|] == policies;
    return Open(until);
  }

  // ---- Open and closed, by the clock ----

  /** A window starts at d: its rule matches what the clock then shows for the first time,
      on a date that is not excepted. */
  ghost predicate StartsNow(p: Policy, d: int) {
    && p.rule.matches(p.zone.Local(d)) && DateOf(p.zone.Local(d)) !in p.exceptions
    && forall u :: p.zone.Local(u) == p.zone.Local(d) ==> d <= u
  }

  /** A start whose minutes are not over at t, and which no closed next date has cut. */
  ghost predicate Running(p: Policy, d: int, t: int) {
    && StartsNow(p, d) && d <= t < d + p.minutes
    && (DateOf(p.zone.Local(t)) + 1 in p.exceptions ==> t < p.zone.Due((DateOf(p.zone.Local(t)) + 1) * 1440))
  }

  ghost predicate OpenNow(p: Policy, t: int) {
    1 <= p.minutes <= 1440 && DateOf(p.zone.Local(t)) !in p.exceptions && exists d :: Running(p, d, t)
  }

  lemma StartsAtMeans(p: Policy, d: int)
    requires p.Valid()
    ensures p.StartsAt(d) <==> StartsNow(p, d)
  {
    DueIsFirst(p.zone, p.zone.Local(d));
  }

  /** A policy is open at an instant exactly if its local date is not excepted and one of
      its windows has started there and is still running. */
  lemma OpenIff(p: Policy, at: int, r: WindowEnd)
    requires p.Valid() && IsWindow(p, at, r)
    ensures r.After(at) <==> OpenNow(p, at)
  {
    if d :| Running(p, d, at) {
      StartsAtMeans(p, d);
      if p.DurationAllowed() && !p.ClosedDay(at) {
        assert p.Covers(d, at);
        var last :| Latest(p, at, last) && r.end == Clipped(p, at, last + p.Length());
        assert d <= last;
      }
    }
    if r.After(at) {
      var d :| Latest(p, at, d) && r.end == Clipped(p, at, d + p.Length());
      StartsAtMeans(p, d);
      assert Running(p, d, at);
    }
  }

  /** A connection is open exactly if every policy that names it, or names none, is open;
      then the answer is the end that comes first, and none only if no policy concerns it. */
  lemma ConnectionOpenIff(policies: seq<Policy>, connection: string, at: int, r: Restriction)
    requires (forall p :: p in policies ==> p.Valid()) && Restricts(policies, connection, at, r)
    ensures r.Open? <==> forall p :: p in policies && (p.connections == {} || connection in p.connections) ==> OpenNow(p, at)
    ensures r.Open? ==> forall p :: p in policies && (p.connections == {} || connection in p.connections) ==>
      exists end :: IsWindow(p, at, Until(end)) && at < end && r.until.Some? && r.until.value <= end
    ensures r.Open? && r.until.Some? ==> exists p :: p in policies && (p.connections == {} || connection in p.connections) && IsWindow(p, at, Until(r.until.value))
  {
    assert forall p :: p in policies ==> (p.AppliesTo(connection) <==> p.connections == {} || connection in p.connections);
    match r
    case Open(until) =>
      forall p | p in policies && p.AppliesTo(connection)
        ensures OpenNow(p, at) && exists end :: IsWindow(p, at, Until(end)) && at < end && until.Some? && until.value <= end
      {
        var end :| OpenUntil(p, at, end) && until.Some? && until.value <= end;
        OpenIff(p, at, Until(end));
      }
    case Closed(name) =>
      var p, w :| p in policies && p.AppliesTo(connection) && p.name == name && IsWindow(p, at, w) && !w.After(at);
      OpenIff(p, at, w);
    case Failed =>
  }

  // ---- Interval soundness ----

  /** Up to the reported end the same start keeps the window open. Only an excepted local
      date closes it early; a closed date that lies ahead never does, because the clip
      has left its midnight out already. */
  lemma StaysOpenIff(p: Policy, at: int, end: int, t: int, r: WindowEnd)
    requires p.Valid() && IsWindow(p, at, Until(end)) && at <= t < end && IsWindow(p, t, r)
    ensures r.After(t) <==> !p.ClosedDay(t)
  {
    var d :| Latest(p, at, d) && end == Clipped(p, at, d + p.Length());
    assert p.Covers(d, t);
    if !p.ClosedDay(t) && p.NextDayClosed(t) {
      ClosedDateIsAhead(p, at, t);
    }
  }

  lemma ClosedDateIsAhead(p: Policy, at: int, t: int)
    requires p.zone.Valid() && at <= t < at + DAY && !p.ClosedDay(at) && !p.ClosedDay(t) && p.NextDayClosed(t)
    requires p.NextDayClosed(at) ==> t < p.zone.Due(p.Midnight(at))
    ensures t < p.zone.Due(p.Midnight(t))
  {
    DateBounds(p.zone.Local(at));
    DateBounds(p.zone.Local(t));
    MidnightAhead(p.zone, at, t, p.Midnight(t));
  }

  /** A midnight of which t shows the eve lies ahead of t, given that `at` did not show the
      date it begins and, if `at` showed the eve as well, that t has kept the clip. */
  lemma MidnightAhead(z: Zone, at: int, t: int, midnight: int)
    requires z.Valid() && at <= t < at + DAY && midnight - DAY <= z.Local(t) < midnight
    requires !(midnight <= z.Local(at) < midnight + DAY)
    requires midnight - DAY <= z.Local(at) < midnight ==> t < z.Due(midnight)
    ensures t < z.Due(midnight)
  {
    var due := z.Due(midnight);
    DueIsFirst(z, midnight);
    if z.Missing(midnight) {
      MissingIsGap(z, midnight);
    }
    assert z.Near(at, t) && z.OneChange(due, at, t) && z.OneChange(at, due, t) && z.Near(due, t);
    assert z.OneChange(midnight - DAY, due, t) && z.OneChange(midnight - DAY, t, midnight + DAY) && z.OneChange(due, t, midnight + DAY);
  }

  /** Over a stretch of constant offset an open window is open throughout. */
  lemma {:induction false} StaysOpen(p: Policy, at: int, end: int, t: int, r: WindowEnd)
    requires p.Valid() && IsWindow(p, at, Until(end)) && at <= t < end && IsWindow(p, t, r)
    requires forall u :: at <= u <= t ==> p.zone.off(u) == p.zone.off(at)
    ensures r.After(t)
  {
    StaysOpenIff(p, at, end, t, r);
    var d :| Latest(p, at, d) && end == Clipped(p, at, d + p.Length());
    NoClosedDateReached(p, at, t);
  }

  /** With a constant offset a closed date is not reached before its clip. */
  lemma NoClosedDateReached(p: Policy, at: int, t: int)
    requires p.zone.Valid() && at <= t < at + DAY && !p.ClosedDay(at)
    requires p.NextDayClosed(at) ==> t < p.zone.Due(p.Midnight(at))
    requires forall u :: at <= u <= t ==> p.zone.off(u) == p.zone.off(at)
    ensures !p.ClosedDay(t)
  {
    DateBounds(p.zone.Local(at));
    DateBounds(p.zone.Local(t));
    if DateOf(p.zone.Local(t)) != DateOf(p.zone.Local(at)) {
      MidnightPassed(p.zone, at, t, p.Midnight(at));
    }
  }

  /** An end recorded earlier vouches for the window as long as it has not passed: with the
      same policies, a restriction is found exactly if a policy's local date is excepted. */
  lemma {:induction false} RecordedEndHoldsIff(policies: seq<Policy>, connection: string, at: int, until: Option<int>, t: int, r: Restriction)
    requires forall p :: p in policies ==> p.Valid() && p.DurationAllowed()
    requires Restricts(policies, connection, at, Open(until)) && at <= t && (until.Some? ==> t < until.value)
    requires Restricts(policies, connection, t, r)
    ensures r.Open? <==> forall p :: p in policies && p.AppliesTo(connection) ==> !p.ClosedDay(t)
  {
    if r.Closed? {
      var p, w :| p in policies && p.AppliesTo(connection) && p.name == r.name && IsWindow(p, t, w) && !w.After(t);
      StaysOpenAmong(policies, connection, at, until, t, p, w);
    } else {
      forall p | p in policies && p.AppliesTo(connection) ensures !p.ClosedDay(t) {
        var end :| OpenUntil(p, t, end);
      }
    }
  }

  lemma StaysOpenAmong(policies: seq<Policy>, connection: string, at: int, until: Option<int>, t: int, p: Policy, w: WindowEnd)
    requires p in policies && p.Valid() && p.AppliesTo(connection) && IsWindow(p, t, w)
    requires Restricts(policies, connection, at, Open(until)) && at <= t && (until.Some? ==> t < until.value)
    ensures w.After(t) <==> !p.ClosedDay(t)
  {
    var end :| OpenUntil(p, at, end) && until.Some? && until.value <= end;
    StaysOpenIff(p, at, end, t, w);
  }

  /** In particular none is found over a stretch of constant offset. */
  lemma {:induction false} RecordedEndHolds(policies: seq<Policy>, connection: string, at: int, until: Option<int>, t: int, r: Restriction)
    requires forall p :: p in policies ==> p.Valid() && p.DurationAllowed()
    requires forall p, u :: p in policies && at <= u <= t ==> p.zone.off(u) == p.zone.off(at)
    requires Restricts(policies, connection, at, Open(until)) && at <= t && (until.Some? ==> t < until.value)
    requires Restricts(policies, connection, t, r)
    ensures r.Open?
  {
    if r.Closed? {
      var p, w :| p in policies && p.AppliesTo(connection) && p.name == r.name && IsWindow(p, t, w) && !w.After(t);
      var end :| OpenUntil(p, at, end) && until.Some? && until.value <= end;
      StaysOpen(p, at, end, t, w);
    }
  }

  lemma MidnightPassed(z: Zone, at: int, t: int, midnight: int)
    requires z.Valid() && z.Local(at) < midnight <= z.Local(t)
    requires at <= t && forall u :: at <= u <= t ==> z.off(u) == z.off(at)
    ensures z.Due(midnight) <= t
  {
    DueIsFirst(z, midnight);
    assert z.Local(midnight - z.off(at)) == midnight;
  }

  // ---- Where a closed date begins ----

  /** The first instant at or past a wall time. */
  ghost predicate FirstReaching(z: Zone, wall: int, t: int) {
    z.Local(t) >= wall && forall u :: u < t ==> z.Local(u) < wall
  }

  /** The instant the clip uses is where the closed date begins exactly when the midnight
      is not skipped by a change that has already begun the minute before it. */
  lemma ClipIsDateStartIff(z: Zone, midnight: int)
    requires z.Valid()
    ensures FirstReaching(z, midnight, z.Due(midnight))
       <==> (z.Local(z.Due(midnight)) == midnight || z.off(z.Due(midnight) - 1) == z.off(midnight - DAY))
  {
    var due := z.Due(midnight);
    DueIsFirst(z, midnight);
    if z.Missing(midnight) {
      MissingIsGap(z, midnight);
      assert z.Local(due) != midnight && z.Local(due - 1) == due - 1 + z.off(due - 1);
      assert z.OneChange(midnight - DAY, due - 1, midnight + DAY) && z.OneChange(midnight - DAY, due, midnight + DAY);
      forall u | u < due && z.off(due - 1) == z.off(midnight - DAY) ensures z.Local(u) < midnight {
        assert z.OneChange(u, due - 1, due);
      }
    } else {
      forall u | u < due ensures z.Local(u) < midnight {
        var back := midnight - z.off(u);
        assert z.OneChange(back, u, due) && z.Local(back) == back + z.off(back);
      }
    }
  }

  /** A clock set forward from 23:30 to 00:30 on an excepted date: the window is reported
      open until midnight's stand-in, half an hour after the date has begun. */
  lemma ClipPastDateStart() returns (p: Policy, at: int, end: int, t: int)
    ensures p.Valid() && IsWindow(p, at, Until(end)) && at < t < end && IsWindow(p, t, Shut) && p.ClosedDay(t)
  {
    var zone := Zone(t => if t < 1410 then 0 else 60, w => w);
    var rule := Rule(w => w == 1380, w => if w < 1380 then Some(1380) else None);
    p := Policy("night", rule, zone, {1}, 120, {});
    at, end, t := 1380, 1440, 1410;
    assert zone.Valid() && zone.Due(1440) == 1440;
    assert Latest(p, at, 1380);
  }
}
