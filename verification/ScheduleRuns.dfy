/** What holds of a schedule over every run of ticks, edits, approvals and switches. */
module ScheduleRuns {
  import opened Wrappers
  import opened ScheduleTime
  import opened Schedules
  import Operations
  import OperationRuns
  import Keys

  // ---- Slots ----

  /** The tick that processed e asked the calendar where to go on. */
  ghost predicate Answered(e: Processed) {
    && e.occurrence.due * 60 <= e.now
    && (e.upcoming.Some? ==> IsUpcoming(e.spec, AskFrom(e.occurrence.due, e.now), AskPrior(e.occurrence, e.now), Next(e.upcoming.value)))
  }

  /** Within one revision every slot is the one the previous tick chose. */
  ghost predicate Chained(a: Processed, b: Processed) {
    a.revision <= b.revision && (a.revision == b.revision ==> a.spec == b.spec && a.upcoming == Some(b.occurrence))
  }

  ghost predicate Slots(s: State) {
    var p, n := s.plan, |s.done|;
    && (forall i :: 0 <= i < n ==> Answered(s.done[i]))
    && (forall i :: 0 < i < n ==> Chained(s.done[i - 1], s.done[i]))
    && (n > 0 ==> Open(s.done[n - 1], p))
  }

  /** The last processed slot and the row agree on what comes next. */
  ghost predicate Open(e: Processed, p: Plan) {
    e.revision <= p.revision && (e.revision == p.revision ==> e.spec == p.spec && e.upcoming == p.next && p.clockVersion >= 2)
  }

  lemma SlotsStep(s: State, step: Step)
    requires Slots(s)
    ensures Slots(Apply(s, step))
  {
    var after := Apply(s, step);
    if |after.done| > |s.done| {
      SlotsProcess(s, step);
    }
  }

  lemma SlotsProcess(s: State, step: Step)
    requires Slots(s) && |Apply(s, step).done| > |s.done|
    ensures Slots(Apply(s, step))
  {
    var after, n := Apply(s, step), |s.done|;
    assert after.done == s.done + [after.done[n]];
    assert Answered(after.done[n]);
    assert n > 0 ==> Chained(s.done[n - 1], after.done[n]);
    forall i | 0 < i <= n ensures Chained(after.done[i - 1], after.done[i]) {
      if i < n {
        assert Chained(s.done[i - 1], s.done[i]);
      }
    }
  }

  lemma {:induction false} SlotsAlways(s: State, steps: seq<Step>)
    requires Created(s)
    ensures Slots(Run(s, steps))
  {
    if steps != [] {
      SlotsAlways(s, steps[..|steps| - 1]);
      SlotsStep(Run(s, steps[..|steps| - 1]), steps[|steps| - 1]);
    }
  }

  lemma NextIsLater(e: Processed, o: Occurrence)
    requires Answered(e) && e.upcoming == Some(o)
    ensures e.occurrence.Precedes(o)
  {
  }

  lemma {:induction false} SlotsIncreaseIn(s: State, i: nat, j: nat)
    requires Slots(s) && i < j < |s.done| && s.done[i].revision == s.done[j].revision
    ensures s.done[j - 1].revision == s.done[j].revision && s.done[i].spec == s.done[j].spec
    ensures s.done[i].occurrence.Precedes(s.done[j].occurrence)
    decreases j
  {
    assert Chained(s.done[j - 1], s.done[j]);
    RevisionsGrow(s, i, j - 1);
    NextIsLater(s.done[j - 1], s.done[j].occurrence);
    if i < j - 1 {
      SlotsIncreaseIn(s, i, j - 1);
    }
  }

  lemma {:induction false} RevisionsGrow(s: State, i: nat, j: nat)
    requires Slots(s) && i <= j < |s.done|
    ensures s.done[i].revision <= s.done[j].revision
    decreases j
  {
    if i < j {
      assert Chained(s.done[j - 1], s.done[j]);
      RevisionsGrow(s, i, j - 1);
    }
  }

  /** Under one revision the slots processed by successive ticks strictly increase. */
  lemma {:induction false} SlotsIncrease(s: State, steps: seq<Step>, i: nat, j: nat)
    requires Created(s)
    requires var done := Run(s, steps).done; i < j < |done| && done[i].revision == done[j].revision
    ensures Run(s, steps).done[i].occurrence.Precedes(Run(s, steps).done[j].occurrence)
  {
    SlotsAlways(s, steps);
    SlotsIncreaseIn(Run(s, steps), i, j);
  }

  /** A tick that ran so late that its own slot and every slot up to the clock are lost. */
  ghost predicate PassedOver(e: Processed, x: Slot) {
    Late(e.occurrence.due, e.now) && Nominal(e.spec, x).due * 60 <= e.now
  }

  lemma {:induction false} NothingLostIn(s: State, i: nat, j: nat, x: Slot)
    requires Slots(s) && i < j < |s.done| && s.done[i].revision == s.done[j].revision
    requires Scheduled(s.done[i].spec, x)
    requires s.done[i].occurrence.Precedes(Nominal(s.done[i].spec, x)) && Nominal(s.done[i].spec, x).Precedes(s.done[j].occurrence)
    ensures exists k :: i <= k < j && (s.done[k].occurrence.slot == x || PassedOver(s.done[k], x))
    decreases j - i
  {
    assert Chained(s.done[i], s.done[i + 1]) by {
      assert Chained(s.done[(i + 1) - 1], s.done[i + 1]);
    }
    RevisionsGrow(s, i, i + 1);
    RevisionsGrow(s, i + 1, j);
    var e, next := s.done[i], s.done[i + 1].occurrence;
    assert Answered(e);
    if !PassedOver(e, x) && next.slot != x {
      assert e.spec.timing.Once? ==> e.spec.Lines() == [];
      assert Eligible(e.spec, AskFrom(e.occurrence.due, e.now), AskPrior(e.occurrence, e.now), x);
      assert next.Precedes(Nominal(e.spec, x));
      NothingLostIn(s, i + 1, j, x);
    }
  }

  /** Between two processed slots of a revision every scheduled slot was processed too,
      or passed over by a late tick. */
  lemma {:induction false} NothingLost(s: State, steps: seq<Step>, i: nat, j: nat, x: Slot)
    requires Created(s)
    requires var done := Run(s, steps).done; i < j < |done| && done[i].revision == done[j].revision
    requires var e := Run(s, steps).done[i]; Scheduled(e.spec, x) && e.occurrence.Precedes(Nominal(e.spec, x))
    requires var done := Run(s, steps).done; Nominal(done[i].spec, x).Precedes(done[j].occurrence)
    ensures exists k :: i <= k < j && var e := Run(s, steps).done[k]; e.occurrence.slot == x || PassedOver(e, x)
  {
    SlotsAlways(s, steps);
    NothingLostIn(Run(s, steps), i, j, x);
  }

  // ---- What is launched ----

  /** By then someone other than the revision's editor had approved that revision. */
  ghost predicate Backed(reviews: seq<Review>, revision: nat, row: Operations.Operation) {
    && row.approver.Some? && row.approver.value != row.core.requester
    && Published(revision, row.core.requester) in reviews && Approved(revision, row.approver.value) in reviews
  }

  /** An operation as it stands right after the tick that queued it. */
  function Launched(row: Operations.Operation): Operations.Life {
    Operations.Life(row, [], [], row.created)
  }

  ghost predicate Launches(id: string, e: Processed, reviews: seq<Review>) {
    && e.seen <= |reviews|
    && (forall a, b :: 0 <= a < b < |e.outcomes| ==> e.outcomes[a].resource != e.outcomes[b].resource)
    && (forall o :: o in e.outcomes && o.Queued? ==> Launch(id, e, o) && Backed(reviews[..e.seen], e.revision, o.row))
  }

  ghost predicate Launch(id: string, e: Processed, o: Outcome)
    requires o.Queued?
  {
    && !Late(e.occurrence.due, e.now) && e.occurrence.skip == Runs
    && Operations.Created(Launched(o.row)) && o.row.resource == Some(o.resource) && o.row.core.action == ActionOf(e.occurrence.slot.action)
    && o.row.standing == Some(Operations.Standing(id, e.revision, e.occurrence.due * 60))
  }

  ghost predicate Authority(s: State) {
    var p := s.plan;
    && DistinctTargets(p.targets)
    && Published(p.revision, p.editor) in s.reviews
    && (p.approvedRevision.Some? ==>
          p.approver.Some? && p.approver.value != p.editor && p.approvedRevision.value == p.revision && Approved(p.revision, p.approver.value) in s.reviews)
    && (forall i :: 0 <= i < |s.done| ==> Launches(p.id, s.done[i], s.reviews))
  }

  lemma ReviewsGrow(id: string, e: Processed, reviews: seq<Review>, more: seq<Review>)
    requires Launches(id, e, reviews)
    ensures Launches(id, e, reviews + more)
  {
    assert (reviews + more)[..e.seen] == reviews[..e.seen];
  }

  lemma AuthorityStep(s: State, step: Step)
    requires Authority(s)
    ensures Authority(Apply(s, step)) && Apply(s, step).plan.id == s.plan.id
  {
    if step.Tick? {
      AuthorityTick(s, step);
    } else {
      var after := Apply(s, step);
      var more := after.reviews[|s.reviews|..];
      assert after.reviews == s.reviews + more;
      forall i | 0 <= i < |s.done| ensures Launches(s.plan.id, after.done[i], after.reviews) {
        ReviewsGrow(s.plan.id, s.done[i], s.reviews, more);
      }
    }
  }

  lemma AuthorityTick(s: State, step: Step)
    requires Authority(s) && step.Tick?
    ensures Authority(Apply(s, step)) && Apply(s, step).plan.id == s.plan.id
  {
    var after := Apply(s, step);
    if |after.done| > |s.done| {
      LaunchesNow(s, step.start, step.now, step.facts, after.done[|s.done|].upcoming);
    }
  }

  lemma LaunchesNow(s: State, start: int, now: int, f: TickFacts, upcoming: Option<Occurrence>)
    requires Authority(s) && Claimed(s.plan, start) && s.plan.next.value.due * 60 <= now <= start
    ensures var p, o := s.plan, s.plan.next.value;
      Launches(p.id, Processed(p.revision, p.spec, o, now, upcoming, OutcomesOf(p, o, f, start, now), |s.reviews|), s.reviews)
  {
    var p, o := s.plan, s.plan.next.value;
    assert s.reviews[..|s.reviews|] == s.reviews;
    var outcomes := OutcomesOf(p, o, f, start, now);
    assert forall i :: 0 <= i < |outcomes| ==> outcomes[i] == OutcomeOf(p, o, p.targets[i], f, start, now) && outcomes[i].resource == p.targets[i].resource;
  }

  lemma {:induction false} AuthorityAlways(s: State, steps: seq<Step>)
    requires Created(s)
    ensures Authority(Run(s, steps)) && Run(s, steps).plan.id == s.plan.id
  {
    if steps != [] {
      AuthorityAlways(s, steps[..|steps| - 1]);
      AuthorityStep(Run(s, steps[..|steps| - 1]), steps[|steps| - 1]);
    }
  }

  /** Whatever a tick queues was approved, before that tick and for that very revision, by
      someone other than its editor, and it is queued in time. */
  lemma {:induction false} QueuedIsApproved(s: State, steps: seq<Step>, i: nat, o: Outcome)
    requires Created(s) && i < |Run(s, steps).done| && o in Run(s, steps).done[i].outcomes && o.Queued?
    ensures var e := Run(s, steps).done[i];
      e.seen <= |Run(s, steps).reviews| && Backed(Run(s, steps).reviews[..e.seen], e.revision, o.row) && Launch(s.plan.id, e, o)
  {
    AuthorityAlways(s, steps);
    assert Launches(s.plan.id, Run(s, steps).done[i], Run(s, steps).reviews);
  }

  /** The calendar drives the operation protocol: whatever workers do later, a queued
      operation is only submitted in the half minute after its slot. */
  lemma {:induction false} SubmittedInItsSlot(s: State, steps: seq<Step>, i: nat, o: Outcome, moves: seq<Operations.Step>, call: Operations.Event)
    requires Created(s) && i < |Run(s, steps).done| && o in Run(s, steps).done[i].outcomes && o.Queued?
    requires call in Operations.Run(Launched(o.row), moves).log && call.Sent? && call.request.submit
    ensures var due := Run(s, steps).done[i].occurrence.due * 60; due <= call.at <= due + Operations.DISPATCH_WINDOW
    ensures call.request.core == o.row.core && o.row.core.action == ActionOf(Run(s, steps).done[i].occurrence.slot.action)
  {
    QueuedIsApproved(s, steps, i, o);
    OperationRuns.SubmitIsTimely(Launched(o.row), moves, call);
    var log := Operations.Run(Launched(o.row), moves).log;
    var k :| 0 <= k < |log| && log[k] == call;
    OperationRuns.SubmitIsAsCreated(Launched(o.row), moves, k);
  }

  // ---- Keys ----

  function KeyOf(id: string, e: Processed, resource: string, local: int -> string): Keys.Key {
    Keys.Key(id, e.revision, e.occurrence.due * 60_000_000, resource, e.occurrence.slot.action.Name(), local(e.occurrence.slot.wall))
  }

  /** Two queued operations of a run, by processed slot and target. */
  ghost predicate Apart(z: State, local: int -> string, i: nat, a: nat, j: nat, b: nat) {
    && i < |z.done| && j < |z.done| && a < |z.done[i].outcomes| && b < |z.done[j].outcomes|
    && ':' !in z.done[i].outcomes[a].resource && ':' !in z.done[j].outcomes[b].resource
    && KeyOf(z.plan.id, z.done[i], z.done[i].outcomes[a].resource, local).Text() != KeyOf(z.plan.id, z.done[j], z.done[j].outcomes[b].resource, local).Text()
  }

  lemma KeysDifferIn(z: State, local: int -> string, i: nat, a: nat, j: nat, b: nat)
    requires Slots(z) && Authority(z) && ':' !in z.plan.id && (forall v, w :: v != w ==> local(v) != local(w))
    requires i < |z.done| && j < |z.done| && a < |z.done[i].outcomes| && b < |z.done[j].outcomes| && (i, a) != (j, b)
    requires ':' !in z.done[i].outcomes[a].resource && ':' !in z.done[j].outcomes[b].resource
    ensures Apart(z, local, i, a, j, b)
  {
    var x, y := KeyOf(z.plan.id, z.done[i], z.done[i].outcomes[a].resource, local), KeyOf(z.plan.id, z.done[j], z.done[j].outcomes[b].resource, local);
    if x.Text() == y.Text() {
      Keys.KeyInjective(x, y);
      SameKeySameOutcome(z, local, i, a, j, b);
    }
  }

  lemma SameKeySameOutcome(z: State, local: int -> string, i: nat, a: nat, j: nat, b: nat)
    requires Slots(z) && Authority(z) && (forall v, w :: v != w ==> local(v) != local(w))
    requires i < |z.done| && j < |z.done| && a < |z.done[i].outcomes| && b < |z.done[j].outcomes|
    requires KeyOf(z.plan.id, z.done[i], z.done[i].outcomes[a].resource, local) == KeyOf(z.plan.id, z.done[j], z.done[j].outcomes[b].resource, local)
    ensures i == j && a == b
  {
    if i < j {
      SlotsIncreaseIn(z, i, j);
    } else if j < i {
      SlotsIncreaseIn(z, j, i);
    }
    assert Launches(z.plan.id, z.done[i], z.reviews);
  }

  /** A slot and target create at most one operation: over a whole run no two queued
      operations share an idempotency key. `local` renders a wall time. */
  lemma {:induction false} KeysDiffer(s: State, steps: seq<Step>, local: int -> string, i: nat, a: nat, j: nat, b: nat)
    requires Created(s) && ':' !in s.plan.id && (forall v, w :: v != w ==> local(v) != local(w))
    requires var done := Run(s, steps).done; i < |done| && j < |done| && a < |done[i].outcomes| && b < |done[j].outcomes| && (i, a) != (j, b)
    requires var done := Run(s, steps).done; ':' !in done[i].outcomes[a].resource && ':' !in done[j].outcomes[b].resource
    ensures Apart(Run(s, steps), local, i, a, j, b)
  {
    SlotsAlways(s, steps);
    AuthorityAlways(s, steps);
    KeysDifferIn(Run(s, steps), local, i, a, j, b);
  }
}
