/** A schedule's row over time (internal/core/schedules.go and its statements): ticks of
    the scheduler, edits, approvals and switches. Calendar instants are in minutes, clock
    readings in seconds. */
module Schedules {
  import opened Wrappers
  import opened ScheduleTime
  import Operations
  import Outcomes

  const STALE: int := 360

  datatype Target = Target(resource: string, connection: string, connectionRevision: int, moduleRevision: int)

  datatype Plan = Plan(
    id: string, spec: ScheduleSpec, editor: string, enabled: bool, identityEnabled: bool,
    revision: nat, writeRevision: int, approvedRevision: Option<nat>, approver: Option<string>, maintenanceRevision: int,
    policyCurrent: bool, clockVersion: int, next: Option<Occurrence>, targets: seq<Target>, deleted: bool)

  /** What a tick reads about one target. */
  datatype TargetFacts = TargetFacts(
    restricted: bool, maintenanceRevision: int, maintenanceEnds: Option<int>, moduleAllowed: bool, supported: bool, usable: bool,
    connectionRevision: int, found: bool, observed: int, status: string, nativeId: string, runtime: string, busy: bool)

  /** `failed`: a statement failed and the transaction was rolled back. */
  datatype TickFacts = TickFacts(identities: bool, approverAllowed: bool, executor: bool, about: Target -> TargetFacts, failed: bool)

  function ActionOf(a: Action): Outcomes.Action {
    match a case Restart => Outcomes.Restart case Shutdown => Outcomes.Shutdown case Start => Outcomes.Start
  }

  // ---- One tick ----

  predicate Late(due: int, now: int) { now - due * 60 > Operations.DISPATCH_WINDOW }

  /** The occurrence may be dispatched at all. */
  predicate MayDispatch(p: Plan, o: Occurrence, f: TickFacts, now: int) {
    && o.skip == Runs && f.identities && !Late(o.due, now) && p.enabled && p.identityEnabled
    && p.approvedRevision == Some(p.revision) && p.approver.Some? && p.approver.value != p.editor && f.approverAllowed
    && p.policyCurrent && f.executor
  }

  predicate TargetReady(p: Plan, o: Occurrence, t: Target, f: TargetFacts, now: int) {
    && !f.restricted && f.maintenanceRevision == p.maintenanceRevision && f.moduleAllowed && f.supported && f.usable
    && f.connectionRevision == t.connectionRevision && f.found && now - f.observed <= STALE
    && Outcomes.PowerAllowed(ActionOf(o.slot.action), f.status) && !f.busy
  }

  datatype Outcome = Queued(resource: string, row: Operations.Operation) | Skipped(resource: string)

  /** CreateOperation and BindScheduledOperation. */
  function ScheduledRow(p: Plan, o: Occurrence, t: Target, f: TargetFacts, start: int): Operations.Operation
    requires p.approver.Some?
  {
    var core := Outcomes.Core(p.editor, ActionOf(o.slot.action), Outcomes.Server, f.nativeId, f.status, "", "", "", "", "", "",
                              t.connection, t.connectionRevision, t.moduleRevision, f.runtime, f.maintenanceRevision, false, f.maintenanceEnds);
    var limit := o.due * 60 + Operations.DISPATCH_WINDOW;
    Operations.Operation(core, Outcomes.Queued, start, limit, p.approver, Some(limit), Some(Operations.Standing(p.id, p.revision, o.due * 60)),
                         Some(t.resource), f.nativeId, "", "", None, start, None, start)
  }

  function OutcomeOf(p: Plan, o: Occurrence, t: Target, f: TickFacts, start: int, now: int): Outcome {
    if MayDispatch(p, o, f, now) && TargetReady(p, o, t, f.about(t), now) then Queued(t.resource, ScheduledRow(p, o, t, f.about(t), start))
    else Skipped(t.resource)
  }

  function OutcomesOf(p: Plan, o: Occurrence, f: TickFacts, start: int, now: int): seq<Outcome> {
    seq(|p.targets|, i requires 0 <= i < |p.targets| => OutcomeOf(p, o, p.targets[i], f, start, now))
  }

  // ---- The history ----

  datatype Review = Published(revision: nat, editor: string) | Approved(revision: nat, user: string)

  /** A slot that a tick processed, with the slot it chose next and the number of reviews
      that had happened by then. */
  datatype Processed = Processed(
    revision: nat, spec: ScheduleSpec, occurrence: Occurrence, now: int, upcoming: Option<Occurrence>, outcomes: seq<Outcome>, seen: nat)

  datatype State = State(plan: Plan, reviews: seq<Review>, done: seq<Processed>)

  datatype Step =
    | Tick(start: int, now: int, facts: TickFacts, answer: Upcoming)
    | Edit(expected: int, now: int, user: string, permitted: bool, spec: ScheduleSpec, targets: seq<Target>, answer: Upcoming)
    | Approve(expected: int, user: string, permitted: bool, maintenanceRevision: int)
    | Switch(expected: int, permitted: bool, enabled: bool, identityEnabled: bool)
    | Remove(expected: int, permitted: bool)

  predicate Claimed(p: Plan, start: int) {
    !p.deleted && p.next.Some? && (p.next.value.due * 60 <= start || p.clockVersion < 2)
  }

  predicate Reviewed(p: Plan, expected: int) {
    !p.deleted && expected >= 1 && p.writeRevision == expected
  }

  function After(answer: Upcoming): Option<Occurrence> {
    if answer.Next? then Some(answer.value) else None
  }

  /** From where a tick asks for the next slot: a late one starts over from the clock. */
  function AskFrom(due: int, now: int): int {
    if due * 60 > now || Late(due, now) then now / 60 else due
  }

  function AskPrior(o: Occurrence, now: int): Option<Slot> {
    if o.due * 60 > now || Late(o.due, now) then None else Some(o.slot)
  }

  ghost predicate DistinctTargets(targets: seq<Target>) {
    forall i, j :: 0 <= i < j < |targets| ==> targets[i].resource != targets[j].resource
  }

  /** The calendar's answer is the right one, a transaction starts after the caller read
      the clock, and schedule_targets has one row per resource. */
  ghost predicate Lawful(s: State, step: Step) {
    match step
    case Tick(start, now, _, answer) =>
      now <= start && (Claimed(s.plan, start) ==> IsUpcoming(s.plan.spec, AskFrom(s.plan.next.value.due, now), AskPrior(s.plan.next.value, now), answer))
    case Edit(_, now, _, _, spec, targets, answer) =>
      spec.Valid() && IsUpcoming(spec, now / 60, None, answer) && DistinctTargets(targets)
    case _ => true
  }

  function Ticked(s: State, start: int, now: int, f: TickFacts, answer: Upcoming): State {
    var p := s.plan;
    if !Claimed(p, start) || answer.BeyondHorizon? || f.failed then s
    else
      var o, chosen := p.next.value, p.(clockVersion := 2, next := After(answer));
      if o.due * 60 > now then (if p.clockVersion >= 2 then s else s.(plan := chosen))
      else s.(plan := chosen, done := s.done + [Processed(p.revision, p.spec, o, now, After(answer), OutcomesOf(p, o, f, start, now), |s.reviews|)])
  }

  /** UpdateSchedule: a new revision that nobody has approved yet. */
  function Edited(s: State, user: string, spec: ScheduleSpec, targets: seq<Target>, first: Occurrence): State {
    var p := s.plan;
    s.(plan := p.(writeRevision := p.writeRevision + 1, clockVersion := 2, editor := user, spec := spec, revision := p.revision + 1,
                  approvedRevision := None, approver := None, next := Some(first), targets := targets),
       reviews := s.reviews + [Published(p.revision + 1, user)])
  }

  ghost function Apply(s: State, step: Step): State {
    if !Lawful(s, step) then s else
    var p := s.plan;
    match step
    case Tick(start, now, facts, answer) => Ticked(s, start, now, facts, answer)
    case Edit(expected, now, user, permitted, spec, targets, answer) =>
      if !permitted || !Reviewed(p, expected) || !answer.Next? then s
      else Edited(s, user, spec, targets, answer.value)
    case Approve(expected, user, permitted, maintenanceRevision) =>
      if !permitted || !Reviewed(p, expected) || user == p.editor then s
      else s.(plan := p.(writeRevision := p.writeRevision + 1, approvedRevision := Some(p.revision), approver := Some(user), maintenanceRevision := maintenanceRevision),
              reviews := s.reviews + [Approved(p.revision, user)])
    case Switch(expected, permitted, enabled, identityEnabled) =>
      if !permitted || !Reviewed(p, expected) then s
      else s.(plan := p.(writeRevision := p.writeRevision + 1, enabled := enabled, identityEnabled := identityEnabled))
    case Remove(expected, permitted) =>
      if !permitted || !Reviewed(p, expected) then s
      else s.(plan := p.(writeRevision := p.writeRevision + 1, enabled := false, identityEnabled := false, deleted := true))
  }

  /** CreateSchedule, or a row older than the second clock version. */
  ghost predicate Created(s: State) {
    && s.done == [] && s.reviews == [Published(s.plan.revision, s.plan.editor)]
    && s.plan.approvedRevision.None? && s.plan.approver.None? && s.plan.spec.Valid() && DistinctTargets(s.plan.targets)
  }

  ghost function Run(s: State, steps: seq<Step>): State {
    if steps == [] then s else Apply(Run(s, steps[..|steps| - 1]), steps[|steps| - 1])
  }
}
