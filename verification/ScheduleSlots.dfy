/** What ticks and edits do, in the user's own terms and over every run: nothing is done but
    what the current specification asks for, and what it asks for is done exactly when every
    condition of the dispatch holds (internal/core/schedules.go). */
module ScheduleSlots {
  import opened Wrappers
  import opened ScheduleTime
  import opened Schedules
  import opened WallClock
  import Operations
  import Outcomes
  import ScheduleRuns

  // ---- Slots are those of the specification ----

  ghost predicate Meant(s: State) {
    && NextIsMeant(s.plan)
    && forall i :: 0 <= i < |s.done| ==> Tells(s.done[i].spec, s.done[i].occurrence)
  }

  ghost predicate NextIsMeant(p: Plan) {
    p.spec.Valid() && (p.next.Some? ==> Tells(p.spec, p.next.value))
  }

  lemma MeantStep(s: State, step: Step)
    requires Meant(s)
    ensures Meant(Apply(s, step))
  {
    if Lawful(s, step) {
      match step
      case Tick(start, now, facts, answer) =>
        if Claimed(s.plan, start) {
          AnswersInOwnTerms(s.plan.spec, AskFrom(s.plan.next.value.due, now), AskPrior(s.plan.next.value, now), answer);
        }
      case Edit(_, now, _, _, spec, _, answer) => AnswersInOwnTerms(spec, now / 60, None, answer);
      case _ =>
    }
  }

  lemma {:induction false} MeantAlways(s: State, steps: seq<Step>)
    requires Created(s) && NextIsMeant(s.plan)
    ensures Meant(Run(s, steps))
  {
    if steps != [] {
      MeantAlways(s, steps[..|steps| - 1]);
      MeantStep(Run(s, steps[..|steps| - 1]), steps[|steps| - 1]);
    }
  }

  /** Whatever is processed is a slot that its own specification asks for, at its instant,
      and skipped exactly for the reason that applies; so is the slot that waits. */
  lemma {:induction false} ProcessedAsMeant(s: State, steps: seq<Step>)
    requires Created(s) && NextIsMeant(s.plan)
    ensures var z := Run(s, steps);
      && (forall i :: 0 <= i < |z.done| ==> Tells(z.done[i].spec, z.done[i].occurrence))
      && (z.plan.next.Some? ==> Tells(z.plan.spec, z.plan.next.value))
  {
    MeantAlways(s, steps);
  }

  /** What is queued is asked for on a date that is not excepted, at the first instant at
      which the clock shows its time, with no other action at that instant. */
  lemma {:induction false} QueuedOnTheCalendar(s: State, steps: seq<Step>, i: nat, o: Outcome)
    requires Created(s) && NextIsMeant(s.plan)
    requires i < |Run(s, steps).done| && o in Run(s, steps).done[i].outcomes && o.Queued?
    ensures var e := Run(s, steps).done[i];
      && Planned(e.spec, e.occurrence.slot) && FirstShown(e.spec.zone, e.occurrence.slot.wall, e.occurrence.due)
      && DateOf(e.occurrence.slot.wall) !in e.spec.exceptions
      && !Crossed(e.spec, e.occurrence.slot, e.occurrence.due)
      && SameAction(e.occurrence.slot.action, o.row.core.action)
  {
    MeantAlways(s, steps);
    ScheduleRuns.QueuedIsApproved(s, steps, i, o);
    assert Tells(Run(s, steps).done[i].spec, Run(s, steps).done[i].occurrence);
  }

  predicate SameAction(slot: Action, action: Outcomes.Action) {
    (slot, action) in {(Restart, Outcomes.Restart), (Shutdown, Outcomes.Shutdown), (Start, Outcomes.Start)}
  }

  // ---- Edits ----

  /** The caller may, and has seen the row as it is. */
  predicate UpToDate(p: Plan, expected: int, permitted: bool) {
    permitted && !p.deleted && 1 <= expected == p.writeRevision
  }

  /** An edit is refused, or from then on the row is what it says: the new specification
      with its own first slot from the clock, approved by nobody. */
  lemma EditTakesEffect(s: State, step: Step)
    requires step.Edit? && Lawful(s, step)
    ensures UpToDate(s.plan, step.expected, step.permitted) && step.answer.Next? ==>
      var p := Apply(s, step).plan;
      && p.spec == step.spec && p.targets == step.targets && p.editor == step.user
      && p.next.Some? && Answers(step.spec, step.now / 60, None, Next(p.next.value))
      && p.revision == s.plan.revision + 1 && p.writeRevision == s.plan.writeRevision + 1 && p.approvedRevision.None? && p.approver.None?
      && Apply(s, step).reviews == s.reviews + [Published(p.revision, step.user)]
    ensures !UpToDate(s.plan, step.expected, step.permitted) || !step.answer.Next? ==> Apply(s, step) == s
  {
    AnswersInOwnTerms(step.spec, step.now / 60, None, step.answer);
  }

  lemma {:induction false} RunConcat(s: State, a: seq<Step>, b: seq<Step>)
    ensures Run(s, a + b) == Run(Run(s, a), b)
  {
    if b == [] {
      assert a + b == a;
    } else {
      RunConcat(s, a, b[..|b| - 1]);
      assert (a + b)[..|a + b| - 1] == a + b[..|b| - 1] && (a + b)[|a + b| - 1] == b[|b| - 1];
    }
  }

  /** Under this revision the row keeps this specification, and so does what it processes
      from index n on. */
  ghost predicate Since(s: State, n: nat, revision: nat, spec: ScheduleSpec) {
    && revision <= s.plan.revision && (s.plan.revision == revision ==> s.plan.spec == spec)
    && n <= |s.done|
    && forall i :: n <= i < |s.done| ==> revision <= s.done[i].revision && (s.done[i].revision == revision ==> s.done[i].spec == spec)
  }

  lemma {:induction false} SinceAlways(s: State, steps: seq<Step>, n: nat, revision: nat, spec: ScheduleSpec)
    requires Since(s, n, revision, spec)
    ensures Since(Run(s, steps), n, revision, spec)
  {
    if steps != [] {
      SinceAlways(s, steps[..|steps| - 1], n, revision, spec);
    }
  }

  /** After an accepted edit only slots of the new specification, or of a later one, are
      processed: no slot of a replaced specification survives it. */
  lemma {:induction false} EditEndsOldSlots(s: State, before: seq<Step>, step: Step, after: seq<Step>, i: nat)
    requires Created(s) && NextIsMeant(s.plan) && step.Edit? && Lawful(Run(s, before), step)
    requires UpToDate(Run(s, before).plan, step.expected, step.permitted) && step.answer.Next?
    requires |Run(s, before).done| <= i < |Run(s, before + [step] + after).done|
    ensures var e, revision := Run(s, before + [step] + after).done[i], Run(s, before).plan.revision + 1;
      e.revision >= revision && (e.revision == revision ==> e.spec == step.spec && Tells(step.spec, e.occurrence))
  {
    var z := Run(s, before);
    EditTakesEffect(z, step);
    assert (before + [step])[..|before|] == before;
    SinceAlways(Apply(z, step), after, |z.done|, z.plan.revision + 1, step.spec);
    RunConcat(s, before + [step], after);
    MeantAlways(s, before + [step] + after);
  }

  // ---- Approvals and switches ----

  lemma ApprovalTakesEffect(s: State, step: Step)
    requires step.Approve?
    ensures UpToDate(s.plan, step.expected, step.permitted) && step.user != s.plan.editor ==>
      Apply(s, step).plan == s.plan.(writeRevision := s.plan.writeRevision + 1, approvedRevision := Some(s.plan.revision), approver := Some(step.user),
                                     maintenanceRevision := step.maintenanceRevision)
    ensures !UpToDate(s.plan, step.expected, step.permitted) || step.user == s.plan.editor ==> Apply(s, step) == s
  {
  }

  lemma SwitchTakesEffect(s: State, step: Step)
    requires step.Switch? || step.Remove?
    ensures UpToDate(s.plan, step.expected, step.permitted) ==>
      var p := Apply(s, step).plan;
      && p.enabled == (step.Switch? && step.enabled) && p.identityEnabled == (step.Switch? && step.identityEnabled) && p.deleted == step.Remove?
      && p == s.plan.(writeRevision := s.plan.writeRevision + 1, enabled := p.enabled, identityEnabled := p.identityEnabled, deleted := p.deleted)
    ensures !UpToDate(s.plan, step.expected, step.permitted) ==> Apply(s, step) == s
  {
  }

  lemma WriteRevisionsGrow(s: State, step: Step)
    ensures s.plan.writeRevision <= Apply(s, step).plan.writeRevision
    ensures !step.Tick? && Apply(s, step) != s ==> s.plan.writeRevision == step.expected < Apply(s, step).plan.writeRevision
  {
  }

  lemma {:induction false} WriteRevisionsGrowAlways(s: State, steps: seq<Step>)
    ensures s.plan.writeRevision <= Run(s, steps).plan.writeRevision
  {
    if steps != [] {
      WriteRevisionsGrowAlways(s, steps[..|steps| - 1]);
      WriteRevisionsGrow(Run(s, steps[..|steps| - 1]), steps[|steps| - 1]);
    }
  }

  /** No update is lost: of two requests made on the same view of the row at most one takes
      effect, however many ticks and other requests come in between. */
  lemma {:induction false} NoLostUpdate(s: State, first: Step, between: seq<Step>, second: Step)
    requires !first.Tick? && !second.Tick? && first.expected == second.expected && Apply(s, first) != s
    ensures Apply(Run(Apply(s, first), between), second) == Run(Apply(s, first), between)
  {
    WriteRevisionsGrow(s, first);
    WriteRevisionsGrowAlways(Apply(s, first), between);
    WriteRevisionsGrow(Run(Apply(s, first), between), second);
  }

  // ---- Ticks ----

  /** A tick processes the row's slot exactly when it is due and the calendar knows how to
      go on; otherwise at most the next slot of a row from before the second clock version
      is computed anew. */
  lemma TickProcessesIff(s: State, step: Step)
    requires step.Tick? && Lawful(s, step)
    ensures var p, z := s.plan, Apply(s, step);
      |z.done| > |s.done| <==> !p.deleted && p.next.Some? && p.next.value.due * 60 <= step.now && !step.answer.BeyondHorizon? && !step.facts.failed
    ensures var p, z := s.plan, Apply(s, step);
      |z.done| > |s.done| ==>
        && z.done == s.done + [z.done[|s.done|]] && z.done[|s.done|].occurrence == p.next.value
        && z.done[|s.done|].revision == p.revision && z.done[|s.done|].spec == p.spec && z.done[|s.done|].now == step.now
        && z.plan == p.(clockVersion := 2, next := z.plan.next)
        && (if step.answer.Next? then z.plan.next == Some(step.answer.value) else z.plan.next.None?)
    ensures |Apply(s, step).done| <= |s.done| ==>
      var p, z := s.plan, Apply(s, step);
      if !p.deleted && p.next.Some? && step.now < p.next.value.due * 60 && p.clockVersion < 2 && !step.answer.BeyondHorizon? && !step.facts.failed
      then z == s.(plan := p.(clockVersion := 2, next := z.plan.next)) else z == s
  {
  }

  /** A punctual tick goes on right behind its own slot; a late one, and one that only
      recomputes, start over from the clock. */
  lemma TickGoesOn(s: State, step: Step)
    requires step.Tick? && Lawful(s, step) && s.plan.spec.Valid() && Apply(s, step) != s
    ensures var o, now, next := s.plan.next.value, step.now, Apply(s, step).plan.next;
      && s.plan.next.Some? && Apply(s, step).plan.clockVersion == 2
      && (next.Some? ==> step.answer == Next(next.value)) && (next.None? ==> step.answer == Finished)
      && (if 0 <= now - o.due * 60 <= 30 then Answers(s.plan.spec, o.due, Some(o.slot), step.answer) else Answers(s.plan.spec, now / 60, None, step.answer))
  {
    var o := s.plan.next.value;
    AnswersInOwnTerms(s.plan.spec, AskFrom(o.due, step.now), AskPrior(o, step.now), step.answer);
  }

  /** Each target of a processed slot is queued exactly when the slot is to run, not more
      than half a minute late, its schedule is on and approved by someone else for this very
      revision, and everything the tick reads about the target is as it was set up. */
  lemma QueuedIff(s: State, step: Step, i: nat)
    requires step.Tick? && Lawful(s, step) && |Apply(s, step).done| > |s.done| && i < |s.plan.targets|
    ensures var p, f, t, o, now := s.plan, step.facts, s.plan.targets[i], s.plan.next.value, step.now;
      var outcomes, a := Apply(s, step).done[|s.done|].outcomes, f.about(t);
      && |outcomes| == |p.targets| && outcomes[i].resource == t.resource
      && (outcomes[i].Queued? <==>
            && o.skip == Runs && now - o.due * 60 <= 30
            && p.enabled && p.identityEnabled && p.policyCurrent
            && p.approvedRevision == Some(p.revision) && p.approver.Some? && p.approver.value != p.editor
            && f.identities && f.approverAllowed && f.executor
            && !a.restricted && a.maintenanceRevision == p.maintenanceRevision && a.moduleAllowed && a.supported && a.usable
            && a.connectionRevision == t.connectionRevision && a.found && now - a.observed <= 360 && !a.busy
            && a.status in (if o.slot.action == Start then {"off", "stopped"} else {"running", "active"}))
  {
  }

  /** The queued operation is the one the slot and the target call for. */
  lemma QueuedAsCalledFor(s: State, step: Step, i: nat)
    requires step.Tick? && Lawful(s, step) && |Apply(s, step).done| > |s.done| && i < |s.plan.targets|
    requires Apply(s, step).done[|s.done|].outcomes[i].Queued?
    ensures var p, t, o, row := s.plan, s.plan.targets[i], s.plan.next.value, Apply(s, step).done[|s.done|].outcomes[i].row;
      var a := step.facts.about(t);
      && SameAction(o.slot.action, row.core.action) && row.status == Outcomes.Queued && row.resource == Some(t.resource)
      && row.core.requester == p.editor && row.approver == p.approver
      && row.core.target == row.nativeId == a.nativeId && row.core.expectedStatus == a.status && row.core.runtime == a.runtime
      && row.core.connection == t.connection && row.core.connectionRevision == t.connectionRevision && row.core.moduleRevision == t.moduleRevision
      && row.core.maintenanceRevision == a.maintenanceRevision && row.core.maintenanceEnds == a.maintenanceEnds && !row.core.maintenanceException
      && row.expires == o.due * 60 + 30 && row.standing == Some(Operations.Standing(p.id, p.revision, o.due * 60))
  {
  }
}
