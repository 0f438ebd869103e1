/** When a worker may call the provider, and what becomes of a row when it may not, in terms
    of what its transaction reads (internal/core/operations.go:470-606). */
module OperationChecks {
  import opened Wrappers
  import opened Outcomes
  import opened Operations

  /** The claim is the row's own, and its three minutes are not over. */
  predicate InTime(l: Life, w: nat, now: int)
    requires w < |l.workers|
  {
    var worker := l.workers[w];
    && l.row.lease == Some(worker.claimed + 180) && now <= worker.claimed + 180
    && l.row.status == (if worker.dispatch then Dispatching else Observing)
  }

  /** This check authorises a call. */
  predicate Calls(l: Life, s: Step) { |Apply(l, s).log| > |l.log| }

  /** A check that can act at all. */
  predicate Ready(l: Life, s: Step) {
    s.Check? && Timely(l, s) && l.workers[s.worker].progress == Holding
  }

  /** What is sent is what the row says, in the phase of the claim. */
  lemma CallIsOfTheRow(l: Life, s: Step)
    requires Ready(l, s) && Calls(l, s)
    ensures var call := Sent(Request(l.row.core, l.workers[s.worker].dispatch, l.row.nativeId, l.row.actionId), s.worker, s.now, s.facts.approvalRequired);
      Apply(l, s).log == l.log + [call] && Apply(l, s).row == l.row && Apply(l, s).workers[s.worker].progress == Sending
  {
  }

  /** A submit leaves exactly when, at that moment, the requester, the connection, the
      module, the template, the runtime, the identities, the maintenance window, the
      resource, the request's life and its approval are all as they must be. */
  lemma SubmitsIff(l: Life, s: Step)
    requires Ready(l, s) && l.workers[s.worker].dispatch
    ensures var o, f, now := l.row, s.facts, s.now;
      var c := o.core;
      Calls(l, s)
      <==> && InTime(l, s.worker, now) && now <= o.expires
           && f.authorised && f.creationPermitted && f.capable && f.moduleAllowed && f.templateAllowed && f.policyCurrent
           && f.runtimeAvailable && f.identitiesAllowed && f.credential && f.requestValid
           && f.connectionEnabled && !f.connectionDeleted && f.connectionRevision == c.connectionRevision
           && (c.action == Delete || c.action == Create || c.action == Snapshot ==> f.actionAuthority)
           && f.maintenanceRevision == c.maintenanceRevision
           && (c.maintenanceException ==> f.overrideAllowed)
           && (!c.maintenanceException ==> !f.restricted && (c.maintenanceEnds.None? || now < c.maintenanceEnds.value))
           && (c.action != Create ==>
                 && f.unowned && f.resource.Some?
                 && f.resource.value.kind == c.kind && f.resource.value.identity == c.identity && f.resource.value.status == c.expectedStatus)
           && (c.action == Resize ==> f.resource.value.size == c.expectedSize)
           && (c.action == Tags ==> f.resource.value.tags == c.expectedTags)
           && (f.approvalRequired || o.approver.Some? || o.standing.Some? ==>
                 && o.approver.Some? && o.approver.value != c.requester && f.approverAllowed
                 && o.approvalExpires.Some? && now <= o.approvalExpires.value)
  {
  }

  /** An observation leaves exactly when the requester, the connection and the runtime are
      still there and the quarter of an hour is not over; windows and approvals do not
      matter any more. */
  lemma ObservesIff(l: Life, s: Step)
    requires Ready(l, s) && !l.workers[s.worker].dispatch
    ensures var o, f, now := l.row, s.facts, s.now;
      Calls(l, s)
      <==> && InTime(l, s.worker, now) && (o.deadline.None? || now <= o.deadline.value)
           && f.authorised && f.runtimeAvailable && f.credential && f.requestValid
           && f.connectionEnabled && !f.connectionDeleted && f.connectionRevision == o.core.connectionRevision
           && (o.core.action == Delete || o.core.action == Create || o.core.action == Snapshot ==> f.actionAuthority)
  {
  }

  lemma OnlyChecksCall(l: Life, s: Step)
    ensures var log := Apply(l, s).log;
      log == l.log || (|log| == |l.log| + 1 && log[..|l.log|] == l.log && (log[|l.log|].Sent? ==> Ready(l, s) && log[|l.log|].at == s.now))
  {
  }

  /** In every run each call in the history left with a check of its own, made at that
      moment on the history before it: SubmitsIff and ObservesIff tell what it found. */
  lemma {:induction false} EveryCallWasChecked(l: Life, steps: seq<Step>, j: nat) returns (k: nat)
    requires Created(l) && j < |Run(l, steps).log| && Run(l, steps).log[j].Sent?
    ensures k < |steps|
    ensures var z, s, call := Run(l, steps[..k]), steps[k], Run(l, steps).log[j];
      && Ready(z, s) && Calls(z, s) && z.log == Run(l, steps).log[..j]
      && call.at == s.now && call.worker == s.worker && (call.request.submit <==> z.workers[s.worker].dispatch)
  {
    var init, last := steps[..|steps| - 1], steps[|steps| - 1];
    var z := Run(l, init);
    OnlyChecksCall(z, last);
    if j < |z.log| {
      assert Run(l, steps).log[j] == z.log[j] && Run(l, steps).log[..j] == z.log[..j];
      k := EveryCallWasChecked(l, init, j);
      assert init[..k] == steps[..k];
    } else {
      k := |steps| - 1;
      CallIsOfTheRow(z, last);
    }
  }

  /** The same check, had its credential and its request been good. */
  function Repaired(s: Step): Step
    requires s.Check?
  {
    Check(s.worker, s.start, s.now, s.facts.(credential := true, requestValid := true))
  }

  /** A current check that sends nothing ends the attempt: a dispatch as failed if only its
      credential or its request was at fault, and as canceled otherwise; an observation as
      failed if only its request was, and as uncertain otherwise. */
  lemma RefusedIsSettled(l: Life, s: Step)
    requires Ready(l, s) && InTime(l, s.worker, s.now) && !Calls(l, s)
    ensures var o := Apply(l, s).row; var dispatch := l.workers[s.worker].dispatch;
      && o.status == (if Calls(l, Repaired(s)) && (dispatch || s.facts.credential) then Failed else if dispatch then Canceled else Uncertain)
      && o.updated == s.start && o.nativeId == l.row.nativeId && o.actionId == l.row.actionId && o.observed == l.row.observed && o.resource == l.row.resource
    ensures Apply(l, s).log == l.log
  {
  }

  /** A check whose claim is not current, or out of time, changes nothing. */
  lemma StaleCheckIsHarmless(l: Life, s: Step)
    requires Ready(l, s) && !InTime(l, s.worker, s.now)
    ensures Apply(l, s).row == l.row && Apply(l, s).log == l.log
  {
  }

  // ---- Claims and sweeps ----

  /** A queued row is claimed for its dispatch, an observed one for the next observation, as
      soon as no lease and no delay stands against it. */
  lemma ClaimsIff(l: Life, s: Step)
    requires s.Claim? && Timely(l, s)
    ensures var o, t := l.row, Apply(l, s);
      |t.workers| > |l.workers|
      <==> (o.status == Queued || o.status == Observing) && (o.lease.None? || o.lease.value <= s.now) && o.nextAttempt <= s.now
    ensures var o, t := l.row, Apply(l, s);
      |t.workers| > |l.workers| ==>
        && t.workers == l.workers + [Worker(s.now, o.status == Queued, s.now, Holding)]
        && t.row == o.(status := if o.status == Queued then Dispatching else Observing, lease := Some(s.now + 180), updated := s.now)
    ensures |Apply(l, s).workers| <= |l.workers| ==> Apply(l, s) == l.(clock := s.now)
  {
  }

  /** The sweep gives up on a dispatch whose worker is overdue: the outcome is unknown. It
      ends requests that nobody dispatched in time, and leaves all others alone. */
  lemma SweepGivesUpIff(l: Life, s: Step)
    requires s.Sweep? && Timely(l, s)
    ensures var o, after := l.row, Apply(l, s).row;
      && (o.status == Dispatching && o.lease.Some? && o.lease.value < s.now ==> after.status == Uncertain && after.lease == o.lease)
      && (o.status in {Queued, AwaitingApproval} && (o.expires < s.now || (o.approvalExpires.Some? && o.approvalExpires.value < s.now)) ==> after.status == Expired)
      && (after != o ==>
            || (o.status == Dispatching && after.status == Uncertain && o.lease.Some? && o.lease.value < s.now)
            || (o.status in {Queued, AwaitingApproval} && after.status == Expired && (o.expires < s.now || (o.approvalExpires.Some? && o.approvalExpires.value < s.now))))
    ensures Apply(l, s).log == l.log
  {
  }

  // ---- People ----

  /** A review decides a request that waits for one, by someone else, in its life; to
      approve, the request must still be possible at that moment. */
  lemma ReviewDecidesIff(l: Life, s: Step)
    requires s.Review? && Timely(l, s)
    ensures var o, f, now := l.row, s.facts, s.now;
      var c := o.core;
      Apply(l, s).row != o
      <==> && s.permitted && s.user != c.requester && o.status == AwaitingApproval && now <= o.expires
           && (s.approve ==>
                 && f.creationPermitted && f.moduleAllowed && f.maintenanceRevision == c.maintenanceRevision
                 && (c.maintenanceException ==> f.overrideAllowed)
                 && (!c.maintenanceException ==> !f.restricted && (c.maintenanceEnds.None? || now < c.maintenanceEnds.value))
                 && f.connectionEnabled && !f.connectionDeleted && f.connectionRevision == c.connectionRevision
                 && (c.action != Create ==> f.resource.Some? && f.resource.value.status == c.expectedStatus))
    ensures var o, after := l.row, Apply(l, s).row;
      after != o ==> after == o.(status := if s.approve then Queued else Rejected, approver := Some(s.user), approvalExpires := Some(s.start + 3600), updated := s.start)
                     && Apply(l, s).log == l.log + [Reviewed(s.user, s.approve, s.start)]
  {
    assert l.row.status == AwaitingApproval ==> l.row.(status := Queued).status != l.row.status;
  }

  /** Only the requester withdraws a request, and only before its dispatch. */
  lemma CancelWithdrawsIff(l: Life, s: Step)
    requires s.Cancel? && Timely(l, s)
    ensures Apply(l, s).row != l.row <==> s.permitted && s.user == l.row.core.requester && l.row.status in {Queued, AwaitingApproval}
    ensures Apply(l, s).row != l.row ==> Apply(l, s).row.status == Canceled
    ensures Apply(l, s).log == l.log
  {
  }

  /** An uncertain row whose lease is over can be observed again, without a new submit, or
      closed by someone other than the requester; no other row can. */
  lemma UncertainIsSettledIff(l: Life, s: Step)
    requires (s.Reconcile? || s.Resolve?) && Timely(l, s)
    ensures var o := l.row;
      Apply(l, s).row != o
      <==> && o.status == Uncertain && (o.lease.None? || o.lease.value <= s.now) && s.permitted
           && (if s.Resolve? then s.user != o.core.requester
               else s.facts.connectionEnabled && !s.facts.connectionDeleted && s.facts.connectionRevision == o.core.connectionRevision)
    ensures var o, after := l.row, Apply(l, s).row;
      after != o && s.Reconcile? ==>
        && after == o.(status := Observing, lease := None, nextAttempt := s.start, deadline := Some(s.start + 900), updated := s.start)
        && Apply(l, s).log == l.log + [Rechecked(s.start)]
    ensures Apply(l, s).row != l.row && s.Resolve? ==> Apply(l, s).row.status == Resolved && Apply(l, s).log == l.log
  {
  }
}
