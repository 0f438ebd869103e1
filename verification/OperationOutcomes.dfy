/** What is recorded of a call, and how an operation can come to have failed
    (internal/core/operations.go:610-680), in terms of the provider's answer. */
module OperationOutcomes {
  import opened Wrappers
  import opened Outcomes
  import opened Operations
  import opened OperationChecks
  import OperationRuns
  import OperationTable

  /** A worker about to record what its call brought back, while its claim is current. */
  predicate Recording(l: Life, s: Step) {
    s.Finish? && Timely(l, s) && l.workers[s.worker].progress == Sending && InTime(l, s.worker, s.now)
  }

  /** The part of an answer that is kept: all of it, unless it raises doubts about what was
      made. */
  predicate Kept(l: Life, s: Step, status: Status)
    requires s.Finish?
  {
    s.answer.Some? && !Clashes(l.row.core, l.row.nativeId, s.answer.value)
    && !(status == Uncertain && l.row.core.action in {Snapshot, Create} && s.answer.value.outcome in {Accepted, Success})
  }

  /** The answer names the resource that was made, and is believed. */
  predicate Names(l: Life, s: Step, status: Status)
    requires s.Finish?
  {
    Kept(l, s, status) && l.row.core.action == Create && s.answer.value.nativeId != "" && status in {Observing, Succeeded}
  }

  /** What is recorded: the status the answer decides, the ids and the reading it brings,
      and for a create the resource it names, a key's only once it is there. */
  lemma FinishRecords(l: Life, s: Step)
    requires Recording(l, s) && !s.taken
    ensures var o, after := l.row, Apply(l, s).row;
      && Decides(o.core, o.actionId, o.nativeId, l.workers[s.worker].dispatch, s.answer, after.status)
      && after.actionId == (if Kept(l, s, after.status) && s.answer.value.actionId != "" then s.answer.value.actionId else o.actionId)
      && after.observed == (if Kept(l, s, after.status) && s.answer.value.status != "" then s.answer.value.status else o.observed)
      && after.nativeId == (if Names(l, s, after.status) then s.answer.value.nativeId else o.nativeId)
      && after.resource == (if Names(l, s, after.status) && (o.core.kind == SshKey ==> after.status == Succeeded) then Some(s.id) else o.resource)
      && after.updated == s.start && after.nextAttempt == s.start + 5 && after.deadline == (if o.deadline.Some? then o.deadline else Some(s.start + 900))
    ensures Apply(l, s).log == l.log && Apply(l, s).workers[s.worker].progress == Gone
  {
    VerdictDecides(l.row.core, l.row.actionId, l.row.nativeId, l.workers[s.worker].dispatch, s.answer);
  }

  /** A binding that the index rejects takes the whole transaction with it; without one
      there is nothing to reject. */
  lemma TakenRecordsNothing(l: Life, s: Step)
    requires Recording(l, s) && s.taken
    ensures var free := Apply(l, s.(taken := false)).row;
      Apply(l, s).row == (if Names(l, s, free.status) then l.row else free)
  {
    VerdictDecides(l.row.core, l.row.actionId, l.row.nativeId, l.workers[s.worker].dispatch, s.answer);
  }

  /** Another operation that is not over is on this resource. */
  ghost predicate Taken(t: OperationTable.Table, resource: string, id: string) {
    exists other :: other in t && other != id && t[other].row.resource == Some(resource)
      && t[other].row.status !in {Succeeded, Failed, Rejected, Canceled, Expired, Resolved}
  }

  lemma BoundAsNamed(l: Life, s: Step)
    requires Recording(l, s)
    ensures var free := Apply(l, s.(taken := false)).row;
      var j := Verdict(l.row.core, l.row.actionId, l.row.nativeId, l.workers[s.worker].dispatch, s.answer);
      Names(l, s, free.status) ==> Bound(l.row, j, s.id).resource == free.resource
  {
  }

  /** In the table: an outcome is recorded unless it would bind a resource that another
      operation, not yet over, is already on. */
  lemma BindsUnlessOccupied(t: OperationTable.Table, id: string, s: Step)
    requires id in t && Recording(t[id], s)
    ensures var l, free := t[id], Apply(t[id], s.(taken := false)).row;
      OperationTable.Apply(t, OperationTable.Act(id, s))[id].row
      == if Names(l, s, free.status) && free.resource.Some? && Taken(t, free.resource.value, id) then l.row else free
  {
    var l, free := t[id], Apply(t[id], s.(taken := false)).row;
    BoundAsNamed(l, s);
    TakenRecordsNothing(l, s.(taken := true));
    forall r ensures OperationTable.Occupied(t, r, id) <==> Taken(t, r, id) {
    }
  }

  lemma StaleAnswerIsDropped(l: Life, s: Step)
    requires s.Finish? && !Recording(l, s)
    ensures Apply(l, s).row == l.row && Apply(l, s).log == l.log
  {
  }

  // ---- Failures ----

  /** The ways in which a row comes to have failed. */
  predicate Fails(l: Life, s: Step) {
    || (Recording(l, s) && s.answer.Some? && s.answer.value.outcome == Failure)
    || (Ready(l, s) && !Calls(l, s) && (!s.facts.requestValid || (l.workers[s.worker].dispatch && !s.facts.credential)))
  }

  lemma FailsOnlyThen(l: Life, s: Step)
    requires l.row.status != Failed && Apply(l, s).row.status == Failed
    ensures Fails(l, s)
  {
    if s.Finish? && Recording(l, s) {
      VerdictDecides(l.row.core, l.row.actionId, l.row.nativeId, l.workers[s.worker].dispatch, s.answer);
    }
  }

  /** Something has been submitted. */
  ghost predicate Submitted(log: seq<Event>) {
    exists e :: e in log && e.Sent? && e.request.submit
  }

  lemma AfterSubmitNoDispatch(l: Life, s: Step)
    requires OperationRuns.Claims(l) && OperationRuns.Sends(l) && Ready(l, s) && Submitted(l.log)
    ensures !l.workers[s.worker].dispatch
  {
    var e :| e in l.log && e.Sent? && e.request.submit;
    assert OperationRuns.SentBy(l, e);
  }

  /** Once something has been submitted, an operation has failed only because an answer in
      time reported a failure, or because a later observation could not even be asked for.
      A lost answer, an unsure one or a missing credential never makes it fail. */
  lemma {:induction false} FailedAfterSubmit(l: Life, steps: seq<Step>) returns (k: nat)
    requires Created(l) && Submitted(Run(l, steps).log) && Run(l, steps).row.status == Failed
    ensures k < |steps|
    ensures var z, s := Run(l, steps[..k]), steps[k];
      || (Recording(z, s) && s.answer.Some? && s.answer.value.outcome == Failure)
      || (Ready(z, s) && !z.workers[s.worker].dispatch && !s.facts.requestValid)
  {
    var init, last := steps[..|steps| - 1], steps[|steps| - 1];
    var z := Run(l, init);
    OperationRuns.ClaimsAlways(l, init);
    OperationRuns.SendsAlways(l, init);
    if z.row.status == Failed {
      OperationRuns.StepAdvances(z, last);
      LogStaysWhenTerminal(z, last);
      k := FailedAfterSubmit(l, init);
      assert init[..k] == steps[..k];
    } else {
      k := |steps| - 1;
      FailsOnlyThen(z, last);
      FailureLogsNothing(z, last);
      if Ready(z, last) {
        AfterSubmitNoDispatch(z, last);
      }
    }
  }

  lemma LogStaysWhenTerminal(l: Life, s: Step)
    requires l.row.status.Terminal()
    ensures Apply(l, s).log == l.log
  {
  }

  lemma FailureLogsNothing(l: Life, s: Step)
    requires Fails(l, s)
    ensures Apply(l, s).log == l.log
  {
  }

  /** No answer, or one that leaves doubt, never ends an operation: it stays busy, and can
      be observed or resolved. */
  lemma {:induction false} UncertainStaysOpen(l: Life, s: Step)
    requires Recording(l, s) && (s.answer.None? || s.answer.value.outcome == Unsure)
    ensures !Apply(l, s).row.status.Terminal()
  {
    VerdictDecides(l.row.core, l.row.actionId, l.row.nativeId, l.workers[s.worker].dispatch, s.answer);
  }
}
