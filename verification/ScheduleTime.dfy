/** The next slot of a schedule (internal/core/schedule_time.go, second half). */
module ScheduleTime {
  import opened Wrappers
  import opened WallClock

  /** In the order of their names, which breaks ties between equal local times. */
  datatype Action = Restart | Shutdown | Start {
    function Rank(): nat {
      match this case Restart => 0 case Shutdown => 1 case Start => 2
    }

    function Name(): (name: string)
      ensures ':' !in name
    {
      match this case Restart => "restart" case Shutdown => "shutdown" case Start => "start"
    }
  }

  /** The order of two texts. */
  predicate TextBefore(a: string, b: string) {
    b != "" && (a == "" || a[0] < b[0] || (a[0] == b[0] && TextBefore(a[1..], b[1..])))
  }

  lemma RankIsTextOrder(a: Action, b: Action)
    ensures a.Rank() < b.Rank() <==> TextBefore(a.Name(), b.Name())
  {
    assert "restart"[0] == 'r' && "shutdown"[0] == 's' && "start"[0] == 's';
    assert "shutdown"[1..] == "hutdown" && "start"[1..] == "tart" && "shutdown"[1..][0] == 'h' && "start"[1..][0] == 't';
    assert "restart"[1..] == "estart" && "estart"[0] == 'e';
    assert TextBefore("hutdown", "tart") && !TextBefore("tart", "hutdown");
    if a == b {
      NotBeforeItself(a.Name());
    }
  }

  lemma {:induction false} NotBeforeItself(a: string)
    ensures !TextBefore(a, a)
  {
    if a != "" {
      NotBeforeItself(a[1..]);
    }
  }

  /** A parsed cron rule: the minute walls it matches and its search for the next one. */
  datatype Rule = Rule(matches: int -> bool, next: int -> Option<int>) {
    ghost predicate Valid() {
      && (forall w :: next(w).Some? ==> w < next(w).value && matches(next(w).value))
      && (forall v, w :: v < w && matches(w) ==> next(v).Some? && next(v).value <= w)
    }
  }

  datatype Line = Line(rule: Rule, action: Action)

  /** A schedule after validation: a single local time, or one rule, or a start and a
      shutdown rule. `exceptions` holds local dates, as days since the epoch. */
  datatype Timing = Once(wall: int, action: Action) | Recurring(line: Line) | Window(start: Rule, stop: Rule)

  datatype ScheduleSpec = ScheduleSpec(timing: Timing, zone: Zone, exceptions: set<int>) {
    ghost predicate Valid() {
      && zone.Valid()
      && forall l :: l in Lines() ==> l.rule.Valid()
    }

    function Lines(): seq<Line> {
      match timing
      case Once(_, _) => []
      case Recurring(line) => [line]
      case Window(start, stop) => [Line(start, Start), Line(stop, Shutdown)]
    }

    predicate Excepted(wall: int) { DateOf(wall) in exceptions }
  }

  /** A local time and action: what `slot` renders as text and compares. */
  datatype Slot = Slot(wall: int, action: Action) {
    predicate Before(other: Slot) {
      wall < other.wall || (wall == other.wall && action.Rank() < other.action.Rank())
    }
  }

  datatype Skip = Runs | TimeMissing | CalendarException | PairOverlap

  datatype Occurrence = Occurrence(due: int, slot: Slot, skip: Skip) {
    /** Order of processing: by instant, ties by local slot. */
    predicate Precedes(other: Occurrence) {
      due < other.due || (due == other.due && slot.Before(other.slot))
    }
  }

  datatype Upcoming = Next(value: Occurrence) | Finished | BeyondHorizon

  // ---- What an answer means ----

  /** The occurrence of a wall time on its own, before looking at the paired rule. */
  function Nominal(s: ScheduleSpec, slot: Slot): Occurrence {
    Occurrence(s.zone.Due(slot.wall), slot,
               if s.Excepted(slot.wall) then CalendarException
               else if s.zone.Local(s.zone.Due(slot.wall)) != slot.wall then TimeMissing
               else Runs)
  }

  /** One of the schedule's rules matches this slot. */
  ghost predicate Scheduled(s: ScheduleSpec, slot: Slot) {
    exists i :: 0 <= i < |s.Lines()| && s.Lines()[i].action == slot.action && s.Lines()[i].rule.matches(slot.wall)
  }

  /** Strictly after the instant and, at the instant itself, after the prior slot. */
  predicate Eligible(s: ScheduleSpec, after: int, prior: Option<Slot>, slot: Slot) {
    var due := s.zone.Due(slot.wall);
    due > after || (due == after && prior.Some? && prior.value.Before(slot))
  }

  /** A real occurrence of the other action falls at the same instant. */
  ghost predicate Overlaps(s: ScheduleSpec, slot: Slot) {
    exists other :: Scheduled(s, other) && other.action != slot.action
      && s.zone.Due(other.wall) == s.zone.Due(slot.wall) && Nominal(s, other).skip == Runs
  }

  ghost function Settled(s: ScheduleSpec, slot: Slot): Occurrence {
    var o := Nominal(s, slot);
    if o.skip == Runs && Overlaps(s, slot) then o.(skip := PairOverlap) else o
  }

  // ---- The search ----

  method MakeOccurrence(s: ScheduleSpec, wall: int, action: Action) returns (o: Occurrence)
    requires s.Valid()
    ensures o == Nominal(s, Slot(wall, action))
  {
    var due, missing := ResolveWall(s.zone, wall);
    DueIsFirst(s.zone, wall);
    var skip := Runs;
    if missing {
      skip := TimeMissing;
    }
    if s.Excepted(wall) {
      skip := CalendarException;
    }
    o := Occurrence(due, Slot(wall, action), skip);
  }

  /** The earliest candidate instant around a wall time. */
  method Earliest(z: Zone, wall: int) returns (earliest: int)
    requires z.Valid()
    ensures earliest <= wall + DAY && forall o :: o in Samples(z, wall) ==> earliest <= wall - o
    ensures earliest == wall + DAY || wall - earliest in Samples(z, wall)
  {
    earliest := wall + DAY;
    var offsets := WallOffsets(z, wall);
    var rest, tried := offsets, {};
    while rest != {}
      invariant rest + tried == offsets
      invariant earliest <= wall + DAY && forall o :: o in tried ==> earliest <= wall - o
      invariant earliest == wall + DAY || wall - earliest in offsets
      decreases rest
    {
      var offset :| offset in rest;
      rest, tried := rest - {offset}, tried + {offset};
      var candidate := wall - offset;
      if candidate < earliest {
        earliest := candidate;
      }
    }
  }

  /** Where the enumeration starts: behind the local clock by the offset spread. */
  method StartOf(z: Zone, after: int) returns (start: int)
    requires z.Valid()
    ensures z.Local(after) - DAY <= start
    ensures forall w :: w <= start ==> z.Due(w) <= after
    ensures forall w :: w < start ==> z.Due(w) < after
  {
    var wallAfter := z.Local(after);
    var minimum, maximum := DAY, -DAY;
    var offsets := WallOffsets(z, wallAfter);
    var rest, tried := offsets, {};
    while rest != {}
      invariant rest + tried == offsets
      invariant forall o :: o in tried ==> minimum <= o <= maximum
      invariant tried == {} ==> minimum == DAY && maximum == -DAY
      invariant tried != {} ==> minimum in tried && maximum in tried
      decreases rest
    {
      var offset :| offset in rest;
      rest, tried := rest - {offset}, tried + {offset};
      SampleBound(z, wallAfter, offset);
      minimum := if offset < minimum then offset else minimum;
      maximum := if offset > maximum then offset else maximum;
    }
    SamplesAround(z, after, after);
    SampleSpread(z, wallAfter, maximum, minimum);
    start := wallAfter - (maximum - minimum);
    forall w | w <= start ensures z.Due(w) <= after && (w < start ==> z.Due(w) < after) {
      EarlierWallsArePast(z, after, w, minimum, maximum);
    }
  }

  /** How far the search has settled a slot: it is past, or later than the best found,
      or recorded and not before the best found. */
  ghost predicate Seen(s: ScheduleSpec, after: int, prior: Option<Slot>, next: Option<Occurrence>, candidates: seq<Occurrence>, slot: Slot) {
    var o := Nominal(s, slot);
    || o.due < after
    || (prior.None? && o.due <= after)
    || (next.Some? && next.value.due < o.due)
    || (o in candidates && (Eligible(s, after, prior, slot) ==> next.Some? && !o.Precedes(next.value)))
  }

  ghost predicate Recorded(s: ScheduleSpec, after: int, prior: Option<Slot>, next: Option<Occurrence>, candidates: seq<Occurrence>) {
    && (forall c :: c in candidates ==> c == Nominal(s, c.slot) && Scheduled(s, c.slot))
    && (next.Some? ==> next.value in candidates && Eligible(s, after, prior, next.value.slot))
  }

  /** The search only adds candidates and only improves on the best one. */
  ghost predicate Grows(next: Option<Occurrence>, candidates: seq<Occurrence>, next': Option<Occurrence>, candidates': seq<Occurrence>) {
    && (forall c :: c in candidates ==> c in candidates')
    && (next.Some? ==> next'.Some? && (next' == next || next'.value.Precedes(next.value)))
  }

  lemma SeenGrows(s: ScheduleSpec, after: int, prior: Option<Slot>, next: Option<Occurrence>, candidates: seq<Occurrence>,
                  next': Option<Occurrence>, candidates': seq<Occurrence>, slot: Slot)
    requires Grows(next, candidates, next', candidates') && Seen(s, after, prior, next, candidates, slot)
    ensures Seen(s, after, prior, next', candidates', slot)
  {
  }

  /** One matching wall time: record its occurrence and keep it if it is the best. */
  method Consider(s: ScheduleSpec, i: nat, wall: int, after: int, prior: Option<Slot>, next0: Option<Occurrence>, candidates0: seq<Occurrence>)
    returns (next: Option<Occurrence>, candidates: seq<Occurrence>)
    requires s.Valid() && i < |s.Lines()| && s.Lines()[i].rule.matches(wall)
    requires Recorded(s, after, prior, next0, candidates0)
    ensures Recorded(s, after, prior, next, candidates) && Grows(next0, candidates0, next, candidates)
    ensures Seen(s, after, prior, next, candidates, Slot(wall, s.Lines()[i].action))
    ensures Eligible(s, after, prior, Slot(wall, s.Lines()[i].action)) ==> next.Some? && next.value.due <= s.zone.Due(wall)
  {
    assert s.Lines()[i] in s.Lines();
    next, candidates := next0, candidates0;
    var o := MakeOccurrence(s, wall, s.Lines()[i].action);
    if o.due < after {
      return;
    }
    candidates := candidates + [o];
    if Eligible(s, after, prior, o.slot) && (next.None? || o.due < next.value.due || (o.due == next.value.due && o.slot.Before(next.value.slot))) {
      next := Some(o);
    }
  }

  /** The bookkeeping of the step count: before the first eligible match all matches lie
      within a day of the local clock, after it within a day of that match. */
  datatype Count = Count(attempts: nat, first: Option<int>, found: nat)

  ghost predicate Counted(z: Zone, start: int, after: int, wall: int, k: Count) {
    && k.attempts <= wall - start
    && (k.first.None? && k.attempts > 0 ==> wall <= z.Local(after) + DAY)
    && (k.first.Some? ==> k.found <= 2882 && k.first.value <= wall <= k.first.value + DAY
                          && k.attempts - k.found <= wall - k.first.value)
  }

  lemma CountBound(z: Zone, start: int, after: int, wall: int, k: Count)
    requires Counted(z, start, after, wall, k) && z.Local(after) - DAY <= start + 1
    ensures k.attempts <= 4322 && (k.first.None? ==> k.attempts <= 2881)
  {
  }

  ghost function Tally(s: ScheduleSpec, after: int, prior: Option<Slot>, slot: Slot, k: Count): Count {
    if k.first.None? && Eligible(s, after, prior, slot) then Count(k.attempts + 1, Some(slot.wall), k.attempts + 1)
    else k.(attempts := k.attempts + 1)
  }

  lemma CountStep(s: ScheduleSpec, start: int, after: int, prior: Option<Slot>, before: int, slot: Slot, k: Count)
    requires s.zone.Valid() && Counted(s.zone, start, after, before, k) && s.zone.Local(after) - DAY <= start + 1
    requires before < slot.wall
    requires k.attempts == 0 ==> before == start && k.first.None?
    requires k.first.Some? ==> slot.wall <= k.first.value + DAY
    ensures Counted(s.zone, start, after, slot.wall, Tally(s, after, prior, slot, k))
  {
    CountBound(s.zone, start, after, before, k);
    if k.first.None? && !Eligible(s, after, prior, slot) {
      PastWallsAreNear(s.zone, after, slot.wall);
    }
  }

  /** Every match of rule i up to a wall time is settled. */
  ghost predicate SeenTo(s: ScheduleSpec, i: nat, limit: int, after: int, prior: Option<Slot>, next: Option<Occurrence>, candidates: seq<Occurrence>)
    requires i < |s.Lines()|
  {
    forall w :: s.Lines()[i].rule.matches(w) && w <= limit ==> Seen(s, after, prior, next, candidates, Slot(w, s.Lines()[i].action))
  }

  ghost predicate SeenAll(s: ScheduleSpec, i: nat, after: int, prior: Option<Slot>, next: Option<Occurrence>, candidates: seq<Occurrence>)
    requires i < |s.Lines()|
  {
    forall w :: s.Lines()[i].rule.matches(w) ==> Seen(s, after, prior, next, candidates, Slot(w, s.Lines()[i].action))
  }

  lemma SeenStep(s: ScheduleSpec, i: nat, before: int, wall: int, after: int, prior: Option<Slot>, next: Option<Occurrence>, candidates: seq<Occurrence>,
                 next': Option<Occurrence>, candidates': seq<Occurrence>)
    requires s.Valid() && i < |s.Lines()| && s.Lines()[i].rule.next(before) == Some(wall)
    requires SeenTo(s, i, before, after, prior, next, candidates) && Grows(next, candidates, next', candidates')
    requires Seen(s, after, prior, next', candidates', Slot(wall, s.Lines()[i].action))
    ensures SeenTo(s, i, wall, after, prior, next', candidates')
  {
    var line := s.Lines()[i];
    assert line in s.Lines();
    forall w | line.rule.matches(w) && w <= wall ensures Seen(s, after, prior, next', candidates', Slot(w, line.action)) {
      if w <= before {
        SeenGrows(s, after, prior, next, candidates, next', candidates', Slot(w, line.action));
      }
    }
  }

  /** Past the earliest candidate of a wall, later matches cannot beat the best found. */
  lemma SeenAtBreak(s: ScheduleSpec, i: nat, before: int, wall: int, earliest: int, after: int, prior: Option<Slot>, next: Option<Occurrence>, candidates: seq<Occurrence>)
    requires s.Valid() && i < |s.Lines()| && s.Lines()[i].rule.next(before) == Some(wall)
    requires SeenTo(s, i, before, after, prior, next, candidates)
    requires earliest <= wall + DAY && forall o :: o in Samples(s.zone, wall) ==> earliest <= wall - o
    requires next.Some? && earliest > next.value.due
    ensures SeenAll(s, i, after, prior, next, candidates)
  {
    var line := s.Lines()[i];
    assert line in s.Lines();
    forall w | line.rule.matches(w) ensures Seen(s, after, prior, next, candidates, Slot(w, line.action)) {
      if before < w {
        LaterWallsAreLater(s.zone, wall, w, earliest);
      }
    }
  }

  lemma SeenAtEnd(s: ScheduleSpec, i: nat, wall: int, after: int, prior: Option<Slot>, next: Option<Occurrence>, candidates: seq<Occurrence>)
    requires s.Valid() && i < |s.Lines()| && s.Lines()[i].rule.next(wall).None?
    requires SeenTo(s, i, wall, after, prior, next, candidates)
    ensures SeenAll(s, i, after, prior, next, candidates)
  {
    assert s.Lines()[i] in s.Lines();
  }

  lemma GrowsOn(a: Option<Occurrence>, as': seq<Occurrence>, b: Option<Occurrence>, bs: seq<Occurrence>, c: Option<Occurrence>, cs: seq<Occurrence>)
    requires Grows(a, as', b, bs) && Grows(b, bs, c, cs)
    ensures Grows(a, as', c, cs)
  {
  }

  /** One rule of nextScheduleAfter. The cap on the number of attempts is never what
      ends the enumeration, so every match of the rule is settled. */
  method Enumerate(s: ScheduleSpec, i: nat, start: int, after: int, prior: Option<Slot>, next0: Option<Occurrence>, candidates0: seq<Occurrence>)
    returns (next: Option<Occurrence>, candidates: seq<Occurrence>)
    requires s.Valid() && i < |s.Lines()|
    requires s.zone.Local(after) - DAY <= start + 1
    requires SeenTo(s, i, start, after, prior, next0, candidates0)
    requires Recorded(s, after, prior, next0, candidates0)
    ensures Recorded(s, after, prior, next, candidates) && Grows(next0, candidates0, next, candidates)
    ensures SeenAll(s, i, after, prior, next, candidates)
  {
    var line := s.Lines()[i];
    assert line in s.Lines();
    next, candidates := next0, candidates0;
    var wall := start;
    var attempts := 0;
    ghost var k := Count(0, None, 0);
    while attempts < 6000
      invariant k.attempts == attempts <= 4322
      invariant Recorded(s, after, prior, next, candidates) && Grows(next0, candidates0, next, candidates)
      invariant SeenTo(s, i, wall, after, prior, next, candidates)
      invariant attempts == 0 ==> wall == start && k.first.None?
      invariant Counted(s.zone, start, after, wall, k)
      invariant k.first.Some? ==> next.Some? && next.value.due <= s.zone.Due(k.first.value)
    {
      ghost var before := wall;
      var upcoming := line.rule.next(wall);
      if upcoming.None? {
        SeenAtEnd(s, i, wall, after, prior, next, candidates);
        return;
      }
      wall := upcoming.value;
      var earliest := Earliest(s.zone, wall);
      if next.Some? && earliest > next.value.due {
        SeenAtBreak(s, i, before, wall, earliest, after, prior, next, candidates);
        return;
      }
      if k.first.Some? {
        OpenWallsAreNear(s.zone, k.first.value, wall, earliest);
      }
      ghost var next1, candidates1 := next, candidates;
      next, candidates := Consider(s, i, wall, after, prior, next, candidates);
      SeenStep(s, i, before, wall, after, prior, next1, candidates1, next, candidates);
      GrowsOn(next0, candidates0, next1, candidates1, next, candidates);
      CountStep(s, start, after, prior, before, Slot(wall, line.action), k);
      k, attempts := Tally(s, after, prior, Slot(wall, line.action), k), attempts + 1;
      CountBound(s.zone, start, after, wall, k);
    }
    assert false;
  }

  /** The answer nextScheduleAfter owes: the least eligible slot of all rules, with the
      reason it will not run, if there is one; no answer only when nothing is eligible. */
  ghost predicate IsNext(s: ScheduleSpec, after: int, prior: Option<Slot>, r: Upcoming) {
    match r
    case Next(o) =>
      && Scheduled(s, o.slot) && Eligible(s, after, prior, o.slot) && o == Settled(s, o.slot)
      && forall x :: Scheduled(s, x) && Eligible(s, after, prior, x) ==> x == o.slot || o.Precedes(Nominal(s, x))
    case Finished => false
    case BeyondHorizon => forall x :: Scheduled(s, x) ==> !Eligible(s, after, prior, x)
  }

  /** The answer for every form of timing. */
  ghost predicate IsUpcoming(s: ScheduleSpec, after: int, prior: Option<Slot>, r: Upcoming) {
    if s.timing.Once? then r == (var o := Nominal(s, Slot(s.timing.wall, s.timing.action)); if o.due > after then Next(o) else Finished)
    else IsNext(s, after, prior, r)
  }

  lemma SeenEverywhere(s: ScheduleSpec, after: int, prior: Option<Slot>, next: Option<Occurrence>, candidates: seq<Occurrence>, x: Slot)
    requires forall i :: 0 <= i < |s.Lines()| ==> SeenAll(s, i, after, prior, next, candidates)
    requires Scheduled(s, x)
    ensures Seen(s, after, prior, next, candidates, x)
  {
    var i :| 0 <= i < |s.Lines()| && s.Lines()[i].action == x.action && s.Lines()[i].rule.matches(x.wall);
    assert SeenAll(s, i, after, prior, next, candidates);
    assert x == Slot(x.wall, s.Lines()[i].action);
  }

  lemma BestIsNext(s: ScheduleSpec, after: int, prior: Option<Slot>, next: Option<Occurrence>, candidates: seq<Occurrence>)
    requires forall i :: 0 <= i < |s.Lines()| ==> SeenAll(s, i, after, prior, next, candidates)
    requires Recorded(s, after, prior, next, candidates)
    ensures next.None? ==> IsNext(s, after, prior, BeyondHorizon)
    ensures next.Some? ==> IsNext(s, after, prior, Next(Settled(s, next.value.slot)))
    ensures next.Some? ==> forall x :: Scheduled(s, x) && s.zone.Due(x.wall) == next.value.due ==> Nominal(s, x) in candidates
  {
    forall x | Scheduled(s, x)
      ensures Seen(s, after, prior, next, candidates, x)
    {
      SeenEverywhere(s, after, prior, next, candidates, x);
    }
  }

  /** All rules in turn: every slot is settled by the time the last one is done. */
  method Search(s: ScheduleSpec, after: int, prior: Option<Slot>) returns (next: Option<Occurrence>, candidates: seq<Occurrence>)
    requires s.Valid()
    ensures Recorded(s, after, prior, next, candidates)
    ensures forall j :: 0 <= j < |s.Lines()| ==> SeenAll(s, j, after, prior, next, candidates)
  {
    var start := StartOf(s.zone, after);
    if prior.Some? {
      start := start - 1;
    }
    next, candidates := None, [];
    for i := 0 to |s.Lines()|
      invariant Recorded(s, after, prior, next, candidates)
      invariant forall j :: 0 <= j < i ==> SeenAll(s, j, after, prior, next, candidates)
    {
      ghost var next1, candidates1 := next, candidates;
      next, candidates := Enumerate(s, i, start, after, prior, next, candidates);
      forall j | 0 <= j < i ensures SeenAll(s, j, after, prior, next, candidates) {
        SeenAllGrows(s, j, after, prior, next1, candidates1, next, candidates);
      }
    }
  }

  lemma SeenAllGrows(s: ScheduleSpec, j: nat, after: int, prior: Option<Slot>, next: Option<Occurrence>, candidates: seq<Occurrence>,
                     next': Option<Occurrence>, candidates': seq<Occurrence>)
    requires j < |s.Lines()| && SeenAll(s, j, after, prior, next, candidates) && Grows(next, candidates, next', candidates')
    ensures SeenAll(s, j, after, prior, next', candidates')
  {
    forall w | s.Lines()[j].rule.matches(w) ensures Seen(s, after, prior, next', candidates', Slot(w, s.Lines()[j].action)) {
      SeenGrows(s, after, prior, next, candidates, next', candidates', Slot(w, s.Lines()[j].action));
    }
  }

  /** A recorded occurrence that runs at the same instant under the other action. */
  method FindOverlap(candidates: seq<Occurrence>, best: Occurrence) returns (found: bool)
    ensures found <==> exists c :: c in candidates && c.skip == Runs && c.due == best.due && c.slot.action != best.slot.action
  {
    for k := 0 to |candidates|
      invariant forall c :: c in candidates[..k] ==> !(c.skip == Runs && c.due == best.due && c.slot.action != best.slot.action)
    {
      var other := candidates[k];
      if other.skip == Runs && other.due == best.due && other.slot.action != best.slot.action {
        return true;
      }
    }
    return false;
  }

  /** nextScheduleAfter: no slot is lost to the start offset, the early break or the cap. */
  method NextScheduleAfter(s: ScheduleSpec, after: int, prior: Option<Slot>) returns (r: Upcoming)
    requires s.Valid()
    ensures IsUpcoming(s, after, prior, r)
    ensures Answers(s, after, prior, r)
  {
    if s.timing.Once? {
      var o := MakeOccurrence(s, s.timing.wall, s.timing.action);
      r := if o.due > after then Next(o) else Finished;
      AnswersInOwnTerms(s, after, prior, r);
      return;
    }
    var next, candidates := Search(s, after, prior);
    BestIsNext(s, after, prior, next, candidates);
    if next.None? {
      AnswersInOwnTerms(s, after, prior, BeyondHorizon);
      return BeyondHorizon;
    }
    var best := next.value;
    if best.skip == Runs {
      var found := FindOverlap(candidates, best);
      OverlapRecorded(s, best, candidates);
      if found {
        best := best.(skip := PairOverlap);
      }
    }
    AnswersInOwnTerms(s, after, prior, Next(best));
    return Next(best);
  }

  lemma OverlapRecorded(s: ScheduleSpec, best: Occurrence, candidates: seq<Occurrence>)
    requires best == Nominal(s, best.slot)
    requires forall c :: c in candidates ==> c == Nominal(s, c.slot) && Scheduled(s, c.slot)
    requires forall x :: Scheduled(s, x) && s.zone.Due(x.wall) == best.due ==> Nominal(s, x) in candidates
    ensures Overlaps(s, best.slot) <==> exists c :: c in candidates && c.skip == Runs && c.due == best.due && c.slot.action != best.slot.action
  {
    if c :| c in candidates && c.skip == Runs && c.due == best.due && c.slot.action != best.slot.action {
      assert Scheduled(s, c.slot);
    }
    if Overlaps(s, best.slot) {
      var x :| Scheduled(s, x) && x.action != best.slot.action && s.zone.Due(x.wall) == best.due && Nominal(s, x).skip == Runs;
      assert Nominal(s, x) in candidates;
    }
  }

  /** Both sides of a collision are blocked, whichever is reached first. */
  lemma OverlapIsMutual(s: ScheduleSpec, x: Slot)
    requires Scheduled(s, x) && Settled(s, x).skip == PairOverlap
    ensures exists y :: Scheduled(s, y) && y.action != x.action && s.zone.Due(y.wall) == s.zone.Due(x.wall) && Settled(s, y).skip == PairOverlap
  {
    var y :| Scheduled(s, y) && y.action != x.action && s.zone.Due(y.wall) == s.zone.Due(x.wall) && Nominal(s, y).skip == Runs;
    assert Overlaps(s, y);
  }

  /** Continuing from an answer visits every other eligible slot and never this one again. */
  lemma ContinuesWithout(s: ScheduleSpec, after: int, prior: Option<Slot>, o: Occurrence, x: Slot)
    requires IsNext(s, after, prior, Next(o)) && Scheduled(s, x)
    ensures Eligible(s, o.due, Some(o.slot), x) <==> Eligible(s, after, prior, x) && x != o.slot
  {
    if Eligible(s, after, prior, x) && x != o.slot {
      assert o.Precedes(Nominal(s, x));
    }
  }

  // ---- The same in the user's own terms ----

  /** What the user asked for: the one local time, or what a rule matches. */
  ghost predicate Planned(s: ScheduleSpec, slot: Slot) {
    match s.timing
    case Once(wall, action) => slot == Slot(wall, action)
    case Recurring(line) => line.rule.matches(slot.wall) && slot.action == line.action
    case Window(start, stop) => (start.matches(slot.wall) && slot.action == Start) || (stop.matches(slot.wall) && slot.action == Shutdown)
  }

  /** The clock shows this wall time at t for the first time. */
  ghost predicate FirstShown(z: Zone, wall: int, t: int) {
    z.Local(t) == wall && forall u :: z.Local(u) == wall ==> t <= u
  }

  /** The instant of a wall time; one that is skipped is read with the offset before the
      gap. */
  ghost predicate FallsAt(z: Zone, wall: int, t: int) {
    FirstShown(z, wall, t) || (z.Missing(wall) && t == wall - z.off(wall - DAY))
  }

  ghost predicate Happens(s: ScheduleSpec, slot: Slot, t: int) {
    Planned(s, slot) && FirstShown(s.zone, slot.wall, t) && DateOf(slot.wall) !in s.exceptions
  }

  /** Another action happens at this instant. */
  ghost predicate Crossed(s: ScheduleSpec, x: Slot, t: int) {
    exists y: Slot :: y.action != x.action && Happens(s, y, t)
  }

  /** An occurrence is one the user asked for, at its instant, and is skipped exactly for
      the reason that applies: its date is excepted; or no clock shows its time; or the
      other action happens at the same instant. */
  ghost predicate Tells(s: ScheduleSpec, o: Occurrence) {
    && Planned(s, o.slot) && FallsAt(s.zone, o.slot.wall, o.due)
    && (o.skip == CalendarException <==> DateOf(o.slot.wall) in s.exceptions)
    && (o.skip == TimeMissing <==> DateOf(o.slot.wall) !in s.exceptions && forall t :: s.zone.Local(t) != o.slot.wall)
    && (o.skip == PairOverlap <==> Happens(s, o.slot, o.due) && Crossed(s, o.slot, o.due))
  }

  /** Still to come: after the instant, or at it but later in the order of slots. */
  ghost predicate ToCome(s: ScheduleSpec, after: int, prior: Option<Slot>, x: Slot, t: int) {
    && Planned(s, x) && FallsAt(s.zone, x.wall, t)
    && (after < t || (after == t && !s.timing.Once? && prior.Some? && InOrder(prior.value, x)))
  }

  ghost predicate InOrder(x: Slot, y: Slot) {
    x.wall < y.wall || (x.wall == y.wall && TextBefore(x.action.Name(), y.action.Name()))
  }

  ghost predicate Answers(s: ScheduleSpec, after: int, prior: Option<Slot>, r: Upcoming) {
    match r
    case Next(o) =>
      && Tells(s, o) && ToCome(s, after, prior, o.slot, o.due)
      && forall x, t :: ToCome(s, after, prior, x, t) && x != o.slot ==> o.due < t || (o.due == t && InOrder(o.slot, x))
    case Finished => s.timing.Once? && forall x, t :: !ToCome(s, after, prior, x, t)
    case BeyondHorizon => !s.timing.Once? && forall x, t :: !ToCome(s, after, prior, x, t)
  }

  lemma FallsAtDue(z: Zone, wall: int, t: int)
    requires z.Valid()
    ensures FallsAt(z, wall, t) <==> t == z.Due(wall)
    ensures FirstShown(z, wall, t) <==> t == z.Due(wall) && !z.Missing(wall)
  {
    DueIsFirst(z, wall);
    if z.Missing(wall) {
      MissingIsGap(z, wall);
    } else {
      assert FirstShown(z, wall, z.Due(wall));
    }
  }

  lemma OrderIsBefore(x: Slot, y: Slot)
    ensures InOrder(x, y) <==> x.Before(y)
  {
    RankIsTextOrder(x.action, y.action);
  }

  lemma PlannedIsScheduled(s: ScheduleSpec, x: Slot)
    requires !s.timing.Once?
    ensures Planned(s, x) <==> Scheduled(s, x)
  {
    if Planned(s, x) {
      var i := if s.timing.Window? && !(s.timing.start.matches(x.wall) && x.action == Start) then 1 else 0;
      assert s.Lines()[i].action == x.action && s.Lines()[i].rule.matches(x.wall);
    }
  }

  lemma HappensIsRuns(s: ScheduleSpec, x: Slot, t: int)
    requires s.Valid() && Planned(s, x)
    ensures Happens(s, x, t) <==> t == s.zone.Due(x.wall) && Nominal(s, x).skip == Runs
  {
    FallsAtDue(s.zone, x.wall, t);
    DueIsFirst(s.zone, x.wall);
  }

  lemma CrossedIsOverlap(s: ScheduleSpec, x: Slot)
    requires s.Valid() && Planned(s, x)
    ensures Crossed(s, x, s.zone.Due(x.wall)) <==> !s.timing.Once? && Overlaps(s, x)
  {
    var due := s.zone.Due(x.wall);
    if y: Slot :| y.action != x.action && Happens(s, y, due) {
      HappensIsRuns(s, y, due);
      if !s.timing.Once? {
        PlannedIsScheduled(s, y);
      }
    }
    if !s.timing.Once? && Overlaps(s, x) {
      var y :| Scheduled(s, y) && y.action != x.action && s.zone.Due(y.wall) == due && Nominal(s, y).skip == Runs;
      PlannedIsScheduled(s, y);
      HappensIsRuns(s, y, due);
    }
  }

  lemma SettledTells(s: ScheduleSpec, x: Slot)
    requires s.Valid() && Planned(s, x)
    ensures Tells(s, if s.timing.Once? then Nominal(s, x) else Settled(s, x))
  {
    var due := s.zone.Due(x.wall);
    FallsAtDue(s.zone, x.wall, due);
    DueIsFirst(s.zone, x.wall);
    HappensIsRuns(s, x, due);
    CrossedIsOverlap(s, x);
  }

  lemma ToComeIsEligible(s: ScheduleSpec, after: int, prior: Option<Slot>, x: Slot, t: int)
    requires s.Valid()
    ensures ToCome(s, after, prior, x, t)
       <==> Planned(s, x) && t == s.zone.Due(x.wall) && (if s.timing.Once? then after < t else Eligible(s, after, prior, x))
  {
    FallsAtDue(s.zone, x.wall, t);
    if prior.Some? {
      OrderIsBefore(prior.value, x);
    }
  }

  /** What the search looks for is what the user asked for. */
  lemma AnswersInOwnTerms(s: ScheduleSpec, after: int, prior: Option<Slot>, r: Upcoming)
    requires s.Valid() && IsUpcoming(s, after, prior, r)
    ensures Answers(s, after, prior, r)
  {
    if r.Next? {
      var o := r.value;
      if !s.timing.Once? {
        PlannedIsScheduled(s, o.slot);
      }
      SettledTells(s, o.slot);
      ToComeIsEligible(s, after, prior, o.slot, o.due);
      forall x, t | ToCome(s, after, prior, x, t) && x != o.slot ensures o.due < t || (o.due == t && InOrder(o.slot, x)) {
        ToComeIsEligible(s, after, prior, x, t);
        OrderIsBefore(o.slot, x);
        if !s.timing.Once? {
          PlannedIsScheduled(s, x);
          assert o.Precedes(Nominal(s, x));
        }
      }
    } else {
      forall x, t ensures !ToCome(s, after, prior, x, t) {
        ToComeIsEligible(s, after, prior, x, t);
        if !s.timing.Once? {
          PlannedIsScheduled(s, x);
        }
      }
    }
  }

  /** ... and nothing else would do: there is one answer. */
  lemma AnswerIsUnique(s: ScheduleSpec, after: int, prior: Option<Slot>, r: Upcoming, r': Upcoming)
    requires s.Valid() && Answers(s, after, prior, r) && Answers(s, after, prior, r')
    ensures r == r'
  {
    if r.Next? && r'.Next? {
      var o, o' := r.value, r'.value;
      FallsAtDue(s.zone, o.slot.wall, o.due);
      FallsAtDue(s.zone, o'.slot.wall, o'.due);
      OrderIsBefore(o.slot, o'.slot);
      OrderIsBefore(o'.slot, o.slot);
      if o.slot == o'.slot {
        OneReason(s, o, o');
      }
    }
  }

  lemma OneReason(s: ScheduleSpec, o: Occurrence, o': Occurrence)
    requires Tells(s, o) && Tells(s, o') && o.slot == o'.slot && o.due == o'.due
    ensures o == o'
  {
  }
}
