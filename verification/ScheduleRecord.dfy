/** The schedules row as the code works on it: a record whose statements update it in
    place, each proved to be the corresponding step of Schedules.Apply. */
module ScheduleRecord {
  import opened Wrappers
  import opened ScheduleTime
  import opened Schedules
  import Operations
  import Outcomes

  datatype Detail =
    | Nothing | SlotSkipped(skip: Skip) | IdentityRefused | MissedWindow | Paused | IdentityDisabled | ApprovalMissing | PolicyChanged | NoExecutor
    | Maintenance | MaintenanceChanged | ModuleChanged | Unsupported | Disabled | CredentialChanged | ResourceGone | Stale | NotEligible | Overlapping

  /** Why the whole occurrence is skipped: later reasons overwrite earlier ones. */
  method SkipReason(p: Plan, o: Occurrence, f: TickFacts, now: int) returns (skip: Detail)
    ensures skip == Nothing <==> MayDispatch(p, o, f, now)
  {
    skip := if o.skip == Runs then Nothing else SlotSkipped(o.skip);
    if !f.identities {
      skip := IdentityRefused;
    }
    if now - o.due * 60 > Operations.DISPATCH_WINDOW {
      skip := MissedWindow;
    }
    if !p.enabled {
      skip := Paused;
    }
    if !p.identityEnabled {
      skip := IdentityDisabled;
    }
    if p.approvedRevision.None? || p.approvedRevision.value != p.revision || p.approver.None? || p.approver.value == p.editor || !f.approverAllowed {
      skip := ApprovalMissing;
    }
    if !p.policyCurrent {
      skip := PolicyChanged;
    }
    if !f.executor {
      skip := NoExecutor;
    }
  }

  /** Why one target is skipped, starting from the occurrence's own reason. */
  method TargetReason(p: Plan, o: Occurrence, t: Target, f: TargetFacts, now: int, skip: Detail) returns (detail: Detail)
    ensures detail == Nothing <==> skip == Nothing && TargetReady(p, o, t, f, now)
  {
    detail := skip;
    if f.restricted {
      detail := Maintenance;
    }
    if p.maintenanceRevision != f.maintenanceRevision {
      detail := MaintenanceChanged;
    }
    if !f.moduleAllowed {
      detail := ModuleChanged;
    }
    if !f.supported {
      detail := Unsupported;
    }
    if !f.usable {
      detail := Disabled;
    }
    if f.connectionRevision != t.connectionRevision {
      detail := CredentialChanged;
    }
    if !f.found {
      detail := ResourceGone;
    } else if now - f.observed > STALE {
      detail := Stale;
    } else if !Outcomes.PowerAllowed(ActionOf(o.slot.action), f.status) {
      detail := NotEligible;
    }
    if f.busy {
      detail := Overlapping;
    }
  }

  /** The loop over the targets: each is queued or skipped, none is left out. */
  method Dispatch(p: Plan, o: Occurrence, f: TickFacts, start: int, now: int) returns (outcomes: seq<Outcome>, queued: nat, skipped: nat)
    ensures outcomes == OutcomesOf(p, o, f, start, now)
    ensures queued + skipped == |p.targets|
    ensures queued > 0 <==> exists i :: 0 <= i < |outcomes| && outcomes[i].Queued?
    ensures skipped > 0 <==> exists i :: 0 <= i < |outcomes| && outcomes[i].Skipped?
  {
    var skip := SkipReason(p, o, f, now);
    outcomes, queued, skipped := [], 0, 0;
    for k := 0 to |p.targets|
      invariant |outcomes| == k == queued + skipped
      invariant forall i :: 0 <= i < k ==> outcomes[i] == OutcomeOf(p, o, p.targets[i], f, start, now)
      invariant queued > 0 <==> exists i :: 0 <= i < k && outcomes[i].Queued?
      invariant skipped > 0 <==> exists i :: 0 <= i < k && outcomes[i].Skipped?
    {
      var t := p.targets[k];
      var detail := TargetReason(p, o, t, f.about(t), now, skip);
      ghost var before := outcomes;
      if detail == Nothing {
        outcomes := outcomes + [Queued(t.resource, ScheduledRow(p, o, t, f.about(t), start))];
        queued := queued + 1;
      } else {
        outcomes := outcomes + [Skipped(t.resource)];
        skipped := skipped + 1;
      }
      assert forall i :: 0 <= i < k ==> outcomes[i] == before[i];
    }
  }

  class Schedule {
    /** The columns; each statement replaces the ones it sets. */
    var row: Plan
    ghost var reviews: seq<Review>
    ghost var done: seq<Processed>

    ghost function Now(): State
      reads this
    {
      State(row, reviews, done)
    }

    /** CreateSchedule with its first slot. */
    constructor (id: string, spec: ScheduleSpec, editor: string, targets: seq<Target>, first: Occurrence)
      requires spec.Valid() && DistinctTargets(targets)
      ensures Created(Now()) && row.next == Some(first) && row.revision == 1 && row.clockVersion == 2
    {
      row := Plan(id, spec, editor, true, true, 1, 1, None, None, 0, true, 2, Some(first), targets, false);
      reviews, done := [Published(1, editor)], [];
    }

    /** AdvanceSchedule and RefreshScheduleClock. */
    method SetNext(next: Option<Occurrence>)
      modifies this`row
      ensures row == old(row).(clockVersion := 2, next := next)
    {
      row := row.(clockVersion := 2, next := next);
    }

    /** scheduleTick, once this row is the one it claims. */
    method Tick(start: int, now: int, facts: TickFacts) returns (ghost answer: Upcoming)
      requires row.spec.Valid() && now <= start
      modifies this
      ensures Lawful(old(Now()), Step.Tick(start, now, facts, answer))
      ensures Now() == Apply(old(Now()), Step.Tick(start, now, facts, answer))
      ensures row.spec == old(row.spec)
    {
      answer := Finished;
      if row.deleted || row.next.None? || !(row.next.value.due * 60 <= start || row.clockVersion < 2) {
        return;
      }
      var due := row.next.value;
      var upcoming: Upcoming;
      if due.due * 60 > now {
        upcoming := NextScheduleAfter(row.spec, now / 60, None);
        answer := upcoming;
        if row.clockVersion >= 2 || upcoming.BeyondHorizon? || facts.failed {
          return;
        }
        SetNext(After(upcoming));
        return;
      }
      if now - due.due * 60 > Operations.DISPATCH_WINDOW {
        upcoming := NextScheduleAfter(row.spec, now / 60, None);
      } else {
        upcoming := NextScheduleAfter(row.spec, due.due, Some(due.slot));
      }
      answer := upcoming;
      if upcoming.BeyondHorizon? || facts.failed {
        return;
      }
      var outcomes, queued, skipped := Dispatch(row, due, facts, start, now);
      done := done + [Processed(row.revision, row.spec, due, now, After(upcoming), outcomes, |reviews|)];
      SetNext(After(upcoming));
    }

    /** UpdateSchedule. */
    method Publish(user: string, spec: ScheduleSpec, targets: seq<Target>, first: Occurrence)
      modifies this
      ensures Now() == Edited(old(Now()), user, spec, targets, first)
    {
      row := row.(writeRevision := row.writeRevision + 1, clockVersion := 2, editor := user, spec := spec, revision := row.revision + 1);
      row := row.(approvedRevision := None, approver := None, next := Some(first), targets := targets);
      reviews := reviews + [Published(row.revision, user)];
    }

    /** SaveSchedule on an existing row: a new revision that nobody has approved yet. */
    method Edit(expected: int, now: int, user: string, permitted: bool, spec: ScheduleSpec, targets: seq<Target>) returns (ok: bool, ghost answer: Upcoming)
      requires spec.Valid() && DistinctTargets(targets)
      modifies this
      ensures Lawful(old(Now()), Step.Edit(expected, now, user, permitted, spec, targets, answer))
      ensures Now() == Apply(old(Now()), Step.Edit(expected, now, user, permitted, spec, targets, answer))
      ensures ok <==> permitted && Reviewed(old(row), expected) && answer.Next?
      ensures ok ==> row.spec == spec && row.targets == targets && row.editor == user && row.approvedRevision.None?
      ensures ok ==> row.next.Some? && Answers(spec, now / 60, None, Next(row.next.value))
    {
      var upcoming := NextScheduleAfter(spec, now / 60, None);
      answer := upcoming;
      if !upcoming.Next? || !permitted || row.deleted || expected < 1 || row.writeRevision != expected {
        return false, answer;
      }
      Publish(user, spec, targets, upcoming.value);
      return true, answer;
    }

    method ApproveSchedule(expected: int, user: string, permitted: bool, maintenanceRevision: int) returns (ok: bool)
      modifies this
      ensures Now() == Apply(old(Now()), Approve(expected, user, permitted, maintenanceRevision))
      ensures ok <==> permitted && Reviewed(old(row), expected) && user != old(row.editor)
    {
      if row.deleted || expected < 1 || row.writeRevision != expected || row.editor == user || !permitted {
        return false;
      }
      row := row.(writeRevision := row.writeRevision + 1, approvedRevision := Some(row.revision), approver := Some(user));
      row := row.(maintenanceRevision := maintenanceRevision);
      reviews := reviews + [Approved(row.revision, user)];
      return true;
    }

    method SetEnabled(expected: int, permitted: bool, enabled: bool, identityEnabled: bool) returns (ok: bool)
      modifies this`row
      ensures Now() == Apply(old(Now()), Switch(expected, permitted, enabled, identityEnabled))
      ensures ok <==> permitted && Reviewed(old(row), expected)
    {
      if row.deleted || expected < 1 || row.writeRevision != expected || !permitted {
        return false;
      }
      row := row.(writeRevision := row.writeRevision + 1, enabled := enabled, identityEnabled := identityEnabled);
      return true;
    }

    method Delete(expected: int, permitted: bool) returns (ok: bool)
      modifies this`row
      ensures Now() == Apply(old(Now()), Remove(expected, permitted))
      ensures ok <==> permitted && Reviewed(old(row), expected)
    {
      if row.deleted || expected < 1 || row.writeRevision != expected || !permitted {
        return false;
      }
      row := row.(writeRevision := row.writeRevision + 1, enabled := false, identityEnabled := false, deleted := true);
      return true;
    }
  }
}
