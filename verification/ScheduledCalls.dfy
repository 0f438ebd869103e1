/** A schedule together with the operations its ticks have queued: before every call the
    worker asks whether the schedule still authorises it (ScheduleAuthorizesOperation,
    internal/database/schedules.sql.go:567, in internal/core/operations.go:475-482). */
module ScheduledCalls {
  import opened Wrappers
  import ScheduleTime
  import Schedules
  import ScheduleRuns
  import ScheduleSlots
  import Operations
  import OperationRuns
  import Outcomes

  /** An operation as it was queued, and as it has become. */
  datatype Launch = Launch(origin: Operations.Operation, life: Operations.Life)

  /** A call that was authorised, and the schedule's row at that moment. */
  datatype Call = Call(launch: nat, event: Operations.Event, plan: Schedules.Plan)

  datatype Joint = Joint(schedule: Schedules.State, launches: seq<Launch>, calls: seq<Call>)

  /** A check carries the two lookups of the query that lie outside the schedule's row. */
  datatype Move = Plan(step: Schedules.Step) | Act(launch: nat, work: Operations.Step, identities: bool, maintenanceRevision: int)

  // ---- The query ----

  predicate ActionAllowed(s: ScheduleTime.ScheduleSpec, action: Outcomes.Action) {
    match s.timing
    case Once(_, a) => Schedules.ActionOf(a) == action
    case Recurring(line) => Schedules.ActionOf(line.action) == action
    case Window(_, _) => action in {Outcomes.Start, Outcomes.Shutdown}
  }

  /** The schedule's row still stands behind this operation: the revision that queued it is
      the current one, approved, switched on and not removed, and names the target. */
  predicate StandsBehind(p: Schedules.Plan, o: Operations.Operation) {
    && o.standing.Some? && p.id == o.standing.value.schedule && p.revision == o.standing.value.revision
    && (exists i :: 0 <= i < |p.targets| && o.resource == Some(p.targets[i].resource) && p.targets[i].connectionRevision == o.core.connectionRevision)
    && !p.deleted && p.enabled && p.identityEnabled && p.approvedRevision == Some(p.revision) && p.policyCurrent
    && ActionAllowed(p.spec, o.core.action)
  }

  predicate Authorises(p: Schedules.Plan, o: Operations.Operation, identities: bool, maintenanceRevision: int) {
    StandsBehind(p, o) && p.maintenanceRevision == maintenanceRevision && identities
  }

  // ---- Joint steps ----

  function Launched(outcomes: seq<Schedules.Outcome>): seq<Launch> {
    if outcomes == [] then []
    else
      var last := outcomes[|outcomes| - 1];
      Launched(outcomes[..|outcomes| - 1]) + if last.Queued? then [Launch(last.row, ScheduleRuns.Launched(last.row))] else []
  }

  /** The worker's step, with the answer of the query as its authority. */
  function Asked(z: Joint, m: Move): Operations.Step
    requires m.Act? && m.launch < |z.launches|
  {
    match m.work
    case Check(w, start, now, facts) =>
      Operations.Check(w, start, now, facts.(authorised := Authorises(z.schedule.plan, z.launches[m.launch].life.row, m.identities, m.maintenanceRevision)))
    case _ => m.work
  }

  ghost function Planned(z: Joint, step: Schedules.Step): Joint {
    var after := Schedules.Apply(z.schedule, step);
    Joint(after, z.launches + (if |after.done| > |z.schedule.done| then Launched(after.done[|z.schedule.done|].outcomes) else []), z.calls)
  }

  function Acted(z: Joint, m: Move): Joint
    requires m.Act? && m.launch < |z.launches|
  {
    var before := z.launches[m.launch].life;
    var after := Operations.Apply(before, Asked(z, m));
    Joint(z.schedule, z.launches[m.launch := z.launches[m.launch].(life := after)],
          if |after.log| > |before.log| then z.calls + [Call(m.launch, after.log[|before.log|], z.schedule.plan)] else z.calls)
  }

  ghost function Apply(z: Joint, m: Move): Joint {
    match m
    case Plan(step) => Planned(z, step)
    case Act(i, _, _, _) => if i < |z.launches| then Acted(z, m) else z
  }

  ghost function Run(s: Schedules.State, moves: seq<Move>): Joint {
    if moves == [] then Joint(s, [], []) else Apply(Run(s, moves[..|moves| - 1]), moves[|moves| - 1])
  }

  // ---- Every call was authorised by the schedule as it stood ----

  ghost predicate Sane(s: Launch) {
    && s.origin.core.action in {Outcomes.Start, Outcomes.Shutdown, Outcomes.Restart} && Operations.Created(ScheduleRuns.Launched(s.origin))
    && s.life.row.core == s.origin.core && s.life.row.standing == s.origin.standing && s.life.row.resource == s.origin.resource
    && s.origin.standing.Some? && OperationRuns.Claims(s.life)
  }

  /** Each logged call is in the history, made while the schedule stood behind it. */
  ghost predicate Sanctioned(z: Joint, i: nat)
    requires i < |z.launches|
  {
    forall e :: e in z.launches[i].life.log && e.Sent? ==> exists p :: Call(i, e, p) in z.calls && StandsBehind(p, z.launches[i].origin)
  }

  ghost predicate Sound(z: Joint) {
    forall i :: 0 <= i < |z.launches| ==> Sane(z.launches[i]) && Sanctioned(z, i)
  }

  /** A launch has lived a run of its own, so that all that holds of runs holds of it. */
  ghost predicate Lived(s: Launch) {
    exists steps :: s.life == Operations.Run(ScheduleRuns.Launched(s.origin), steps)
  }

  lemma LivesOn(s: Launch, step: Operations.Step)
    requires Lived(s)
    ensures Lived(s.(life := Operations.Apply(s.life, step)))
  {
    var steps :| s.life == Operations.Run(ScheduleRuns.Launched(s.origin), steps);
    var more := steps + [step];
    assert more[..|more| - 1] == steps;
    assert Operations.Run(ScheduleRuns.Launched(s.origin), more) == Operations.Apply(s.life, step);
  }

  lemma {:induction false} LaunchedHaveLived(outcomes: seq<Schedules.Outcome>)
    ensures forall i :: 0 <= i < |Launched(outcomes)| ==> Lived(Launched(outcomes)[i])
  {
    if outcomes != [] {
      LaunchedHaveLived(outcomes[..|outcomes| - 1]);
      var last := outcomes[|outcomes| - 1];
      if last.Queued? {
        assert Operations.Run(ScheduleRuns.Launched(last.row), []) == ScheduleRuns.Launched(last.row);
      }
    }
  }

  lemma {:induction false} LivedAlways(s: Schedules.State, moves: seq<Move>)
    ensures forall i :: 0 <= i < |Run(s, moves).launches| ==> Lived(Run(s, moves).launches[i])
  {
    if moves != [] {
      var before, m := Run(s, moves[..|moves| - 1]), moves[|moves| - 1];
      LivedAlways(s, moves[..|moves| - 1]);
      LivedStep(before, m);
    }
  }

  lemma LivedStep(z: Joint, m: Move)
    requires forall i :: 0 <= i < |z.launches| ==> Lived(z.launches[i])
    ensures forall i :: 0 <= i < |Apply(z, m).launches| ==> Lived(Apply(z, m).launches[i])
  {
    if m.Act? && m.launch < |z.launches| {
      LivesOn(z.launches[m.launch], Asked(z, m));
    } else if m.Plan? {
      var done := Schedules.Apply(z.schedule, m.step).done;
      if |done| > |z.schedule.done| {
        LaunchedHaveLived(done[|z.schedule.done|].outcomes);
      }
    }
  }

  /** A scheduled operation is a power action: no step changes what it is about. */
  lemma ColumnsStay(l: Operations.Life, s: Operations.Step)
    requires l.row.core.action != Outcomes.Create
    ensures var o := Operations.Apply(l, s).row; o.core == l.row.core && o.standing == l.row.standing && o.resource == l.row.resource
  {
  }

  /** Only a cleared check logs a call, and the log gains one event at most. */
  lemma CallsAreCleared(l: Operations.Life, s: Operations.Step)
    ensures var log := Operations.Apply(l, s).log;
      log == l.log || (|log| == |l.log| + 1 && log[..|l.log|] == l.log && (log[|l.log|].Sent? ==> s.Check? && s.facts.authorised))
  {
  }

  lemma {:induction false} LaunchedAreSane(outcomes: seq<Schedules.Outcome>, id: string, e: Schedules.Processed)
    requires forall o :: o in outcomes && o.Queued? ==> ScheduleRuns.Launch(id, e, o)
    ensures forall i :: 0 <= i < |Launched(outcomes)| ==> Sane(Launched(outcomes)[i]) && Launched(outcomes)[i].life.log == []
  {
    if outcomes != [] {
      var init, last := outcomes[..|outcomes| - 1], outcomes[|outcomes| - 1];
      LaunchedAreSane(init, id, e);
      assert last in outcomes;
      if last.Queued? {
        OperationRuns.ClaimsAlways(ScheduleRuns.Launched(last.row), []);
      }
    }
  }

  lemma SoundPlanned(z: Joint, step: Schedules.Step)
    requires Sound(z) && ScheduleRuns.Authority(z.schedule)
    ensures Sound(Planned(z, step)) && ScheduleRuns.Authority(Planned(z, step).schedule)
  {
    ScheduleRuns.AuthorityStep(z.schedule, step);
    var t := Planned(z, step);
    var n := |z.schedule.done|;
    if |t.schedule.done| > n {
      assert ScheduleRuns.Launches(t.schedule.plan.id, t.schedule.done[n], t.schedule.reviews);
      LaunchedAreSane(t.schedule.done[n].outcomes, t.schedule.plan.id, t.schedule.done[n]);
    }
    forall i | 0 <= i < |t.launches| ensures Sane(t.launches[i]) && Sanctioned(t, i) {
      if i < |z.launches| {
        assert Sane(z.launches[i]) && Sanctioned(z, i);
      }
    }
  }

  lemma SoundActed(z: Joint, m: Move)
    requires Sound(z) && m.Act? && m.launch < |z.launches|
    ensures Sound(Acted(z, m))
  {
    var t, was := Acted(z, m), z.launches[m.launch];
    assert Sane(was) && Sanctioned(z, m.launch);
    ColumnsStay(was.life, Asked(z, m));
    OperationRuns.ClaimsStep(was.life, Asked(z, m));
    forall i | 0 <= i < |t.launches| ensures Sane(t.launches[i]) && Sanctioned(t, i) {
      if i != m.launch {
        assert Sane(z.launches[i]) && Sanctioned(z, i);
        SanctionedOther(z, m, i);
      } else {
        SanctionedNow(z, m);
      }
    }
  }

  lemma SanctionedOther(z: Joint, m: Move, i: nat)
    requires m.Act? && m.launch < |z.launches| && i < |z.launches| && i != m.launch && Sanctioned(z, i)
    ensures Sanctioned(Acted(z, m), i)
  {
    var t := Acted(z, m);
    forall e | e in t.launches[i].life.log && e.Sent? ensures exists p :: Call(i, e, p) in t.calls && StandsBehind(p, t.launches[i].origin) {
      var p :| Call(i, e, p) in z.calls && StandsBehind(p, z.launches[i].origin);
      assert Call(i, e, p) in t.calls;
    }
  }

  lemma SanctionedNow(z: Joint, m: Move)
    requires m.Act? && m.launch < |z.launches| && Sane(z.launches[m.launch]) && Sanctioned(z, m.launch)
    ensures Sanctioned(Acted(z, m), m.launch)
  {
    var t, i := Acted(z, m), m.launch;
    var before, after := z.launches[i].life.log, t.launches[i].life.log;
    CallsAreCleared(z.launches[i].life, Asked(z, m));
    forall e | e in after && e.Sent? ensures exists p :: Call(i, e, p) in t.calls && StandsBehind(p, t.launches[i].origin) {
      if e in before {
        var p :| Call(i, e, p) in z.calls && StandsBehind(p, z.launches[i].origin);
        assert Call(i, e, p) in t.calls;
      } else {
        assert e == after[|before|];
        assert Call(i, e, z.schedule.plan) in t.calls && StandsBehind(z.schedule.plan, z.launches[i].origin);
      }
    }
  }

  lemma {:induction false} SoundAlways(s: Schedules.State, moves: seq<Move>)
    requires Schedules.Created(s)
    ensures Sound(Run(s, moves)) && ScheduleRuns.Authority(Run(s, moves).schedule)
  {
    if moves != [] {
      var before, m := Run(s, moves[..|moves| - 1]), moves[|moves| - 1];
      SoundAlways(s, moves[..|moves| - 1]);
      if m.Plan? {
        SoundPlanned(before, m.step);
      } else if m.launch < |before.launches| {
        SoundActed(before, m);
      }
    }
  }

  /** Whatever is sent for a scheduled operation, submit or observation, was authorised at a
      moment when the very revision that queued it was current, approved, switched on and
      not removed, and still named its target; a submit, moreover, in its half minute. */
  lemma {:induction false} CallsAreSanctioned(s: Schedules.State, moves: seq<Move>, i: nat, e: Operations.Event)
    requires Schedules.Created(s) && i < |Run(s, moves).launches| && e in Run(s, moves).launches[i].life.log && e.Sent?
    ensures exists p :: Call(i, e, p) in Run(s, moves).calls && StandsBehind(p, Run(s, moves).launches[i].origin)
    ensures e.request.submit ==> SentInTime(e, Run(s, moves).launches[i].origin)
  {
    SoundAlways(s, moves);
    LivedAlways(s, moves);
    var launch := Run(s, moves).launches[i];
    assert Sane(launch);
    if e.request.submit {
      var steps :| launch.life == Operations.Run(ScheduleRuns.Launched(launch.origin), steps);
      OperationRuns.SubmitIsTimely(ScheduleRuns.Launched(launch.origin), steps, e);
    }
  }

  predicate SentInTime(e: Operations.Event, o: Operations.Operation)
    requires e.Sent?
  {
    o.standing.Some? && o.standing.value.due <= e.at <= o.standing.value.due + Operations.DISPATCH_WINDOW
  }

  /** What the query answers: the schedule has exactly the revision that queued the
      operation, approved, switched on and not removed, and names its target and action. */
  lemma AuthorisedIff(z: Joint, m: Move)
    requires m.Act? && m.launch < |z.launches| && m.work.Check?
    ensures var p, o := z.schedule.plan, z.launches[m.launch].life.row;
      Asked(z, m).facts.authorised
      <==> && o.standing.Some? && o.standing.value.schedule == p.id && o.standing.value.revision == p.revision
           && !p.deleted && p.enabled && p.identityEnabled && p.policyCurrent && m.identities
           && p.approvedRevision == Some(p.revision) && p.maintenanceRevision == m.maintenanceRevision
           && (exists t :: t in p.targets && o.resource == Some(t.resource) && t.connectionRevision == o.core.connectionRevision)
           && (exists a: ScheduleTime.Action, w :: SlotAction(p.spec, a) && w == o.core.action && ScheduleSlots.SameAction(a, w))
  {
    var p, o := z.schedule.plan, z.launches[m.launch].life.row;
    if t :| t in p.targets && o.resource == Some(t.resource) && t.connectionRevision == o.core.connectionRevision {
      var i :| 0 <= i < |p.targets| && p.targets[i] == t;
    }
    ActionsAreSlots(p.spec, o.core.action);
  }

  /** The schedule has slots of this action. */
  predicate SlotAction(s: ScheduleTime.ScheduleSpec, a: ScheduleTime.Action) {
    match s.timing
    case Once(_, action) => a == action
    case Recurring(line) => a == line.action
    case Window(_, _) => a != ScheduleTime.Restart
  }

  lemma ActionsAreSlots(s: ScheduleTime.ScheduleSpec, action: Outcomes.Action)
    ensures ActionAllowed(s, action) <==> exists a: ScheduleTime.Action, w :: SlotAction(s, a) && w == action && ScheduleSlots.SameAction(a, w)
  {
    if ActionAllowed(s, action) {
      var a := if action == Outcomes.Start then ScheduleTime.Start else if action == Outcomes.Shutdown then ScheduleTime.Shutdown else ScheduleTime.Restart;
      assert SlotAction(s, a) && ScheduleSlots.SameAction(a, action);
    }
  }

  predicate Suspended(p: Schedules.Plan) {
    !p.enabled || !p.identityEnabled || p.approvedRevision != Some(p.revision)
  }

  /** While its schedule is switched off or awaits approval nothing is sent for any
      operation that it queued, submit or observation. */
  lemma {:induction false} SuspendedIsSilent(s: Schedules.State, moves: seq<Move>, k: nat, i: nat)
    requires Schedules.Created(s) && k <= |moves| && i < |Run(s, moves[..k]).launches|
    requires forall j :: k <= j <= |moves| ==> Suspended(Run(s, moves[..j]).schedule.plan)
    ensures i < |Run(s, moves).launches| && CallsOf(Run(s, moves).launches[i].life.log) == CallsOf(Run(s, moves[..k]).launches[i].life.log)
    decreases |moves|
  {
    if k == |moves| {
      assert moves[..k] == moves;
    } else {
      var init := moves[..|moves| - 1];
      assert init[..k] == moves[..k];
      forall j | k <= j <= |init| ensures Suspended(Run(s, init[..j]).schedule.plan) {
        assert init[..j] == moves[..j];
      }
      SuspendedIsSilent(s, init, k, i);
      assert init[..|init|] == init;
      SuspendedStep(Run(s, init), moves[|moves| - 1], i);
    }
  }

  lemma SuspendedStep(z: Joint, m: Move, i: nat)
    requires i < |z.launches| && Suspended(z.schedule.plan)
    ensures i < |Apply(z, m).launches| && CallsOf(Apply(z, m).launches[i].life.log) == CallsOf(z.launches[i].life.log)
  {
    if m.Act? && m.launch == i {
      CallsAreCleared(z.launches[i].life, Asked(z, m));
    }
  }

  // ---- Revocation ----

  /** An edit or a removal has ended the revision that queued this operation. */
  predicate Revoked(p: Schedules.Plan, o: Operations.Operation) {
    o.standing.Some? && (p.deleted || p.revision > o.standing.value.revision)
  }

  function CallsOf(log: seq<Operations.Event>): seq<Operations.Event> {
    if log == [] then []
    else CallsOf(log[..|log| - 1]) + if log[|log| - 1].Sent? then [log[|log| - 1]] else []
  }

  lemma RevisionsAdvance(s: Schedules.State, step: Schedules.Step)
    ensures var p := Schedules.Apply(s, step).plan; s.plan.revision <= p.revision && (s.plan.deleted ==> p.deleted)
  {
  }

  lemma SilentStep(z: Joint, m: Move, i: nat)
    requires i < |z.launches| && Sound(z) && Revoked(z.schedule.plan, z.launches[i].origin)
    ensures var t := Apply(z, m);
      && i < |t.launches| && t.launches[i].origin == z.launches[i].origin && Revoked(t.schedule.plan, t.launches[i].origin)
      && CallsOf(t.launches[i].life.log) == CallsOf(z.launches[i].life.log)
  {
    if m.Plan? {
      RevisionsAdvance(z.schedule, m.step);
    } else if m.launch == i {
      assert Sane(z.launches[i]);
      CallsAreCleared(z.launches[i].life, Asked(z, m));
    }
  }

  /** Once its schedule has been edited or removed, nothing more is ever sent for an
      operation that an earlier revision queued. */
  lemma {:induction false} RevokedIsSilent(s: Schedules.State, moves: seq<Move>, k: nat, i: nat)
    requires Schedules.Created(s) && k <= |moves| && i < |Run(s, moves[..k]).launches|
    requires Revoked(Run(s, moves[..k]).schedule.plan, Run(s, moves[..k]).launches[i].origin)
    ensures i < |Run(s, moves).launches| && CallsOf(Run(s, moves).launches[i].life.log) == CallsOf(Run(s, moves[..k]).launches[i].life.log)
    ensures Run(s, moves).launches[i].origin == Run(s, moves[..k]).launches[i].origin
    ensures Revoked(Run(s, moves).schedule.plan, Run(s, moves).launches[i].origin)
    decreases |moves|
  {
    if k == |moves| {
      assert moves[..k] == moves;
    } else {
      var init := moves[..|moves| - 1];
      assert init[..k] == moves[..k];
      RevokedIsSilent(s, init, k, i);
      SoundAlways(s, init);
      SilentStep(Run(s, init), moves[|moves| - 1], i);
    }
  }
}
