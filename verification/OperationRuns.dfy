/** What holds of an operation over every run of its transactions: any number of workers,
    crashes (a worker that simply stops), lost answers, expired leases and rechecks. */
module OperationRuns {
  import opened Wrappers
  import opened Outcomes
  import opened Operations

  // ---- Claims and the row ----

  /** The row and its claims: only the first claim dispatches, claims are made one after
      another, and the row's lease is the last claim's. */
  ghost predicate Claims(l: Life) {
    var o, n := l.row, |l.workers|;
    && (forall i :: 0 <= i < n ==> (l.workers[i].dispatch <==> i == 0) && l.workers[i].claimed <= l.workers[i].since <= l.clock)
    && (forall i, j :: 0 <= i < j < n ==> l.workers[i].claimed < l.workers[j].claimed)
    && (o.lease.Some? ==> n > 0 && o.lease.value == l.workers[n - 1].Lease())
    && (o.status in {AwaitingApproval, Queued} ==> n == 0)
    && (o.status == Dispatching ==> n == 1)
    && (o.status in {Dispatching, Uncertain} ==> o.lease.Some?)
    && (o.status == Observing ==> n > 0)
    && (o.status == Observing && o.lease.None? ==> l.workers[n - 1].claimed < o.nextAttempt || l.workers[n - 1].claimed < l.clock)
    && (o.status.Rank() <= 2 ==> o.nativeId == o.core.target && o.actionId == "")
  }

  lemma ClaimsStep(l: Life, s: Step)
    requires Claims(l)
    ensures Claims(Apply(l, s))
  {
    if Timely(l, s) {
      match s
      case Claim(_) => ClaimsClaim(l, s);
      case Check(_, _, _, _) => ClaimsCheck(l, s);
      case Finish(_, _, _, _, _, _) => ClaimsFinish(l, s);
      case Reconcile(_, _, _, _) => ClaimsReconcile(l, s);
      case Review(_, _, _, _, _, _) => ClaimsReview(l, s);
      case _ => ClaimsOther(l, s);
    }
  }

  lemma ClaimsReview(l: Life, s: Step)
    requires Claims(l) && s.Review?
    ensures Claims(Apply(l, s))
  {
    assert Apply(l, s).workers == l.workers;
  }

  lemma ClaimsReconcile(l: Life, s: Step)
    requires Claims(l) && s.Reconcile?
    ensures Claims(Apply(l, s))
  {
    var t := Apply(l, s);
    ClaimsRow(l, t.row, t.log, t.clock);
  }

  /** Steps that leave the claims alone: how the row may change then. */
  lemma ClaimsRow(l: Life, o: Operation, log: seq<Event>, clock: int)
    requires Claims(l) && l.clock <= clock
    requires o == l.row || (o.core == l.row.core && o.nativeId == l.row.nativeId && o.actionId == l.row.actionId && o.status.Rank() >= 3)
    requires o.lease == l.row.lease || o.lease.None?
    requires o.status == Uncertain ==> o.lease.Some?
    requires o != l.row && o.status == Observing ==> l.workers != [] && o.lease.None? && l.workers[|l.workers| - 1].claimed < clock
    ensures Claims(Life(o, l.workers, log, clock))
  {
  }

  lemma ClaimsOther(l: Life, s: Step)
    requires Claims(l) && (s.Cancel? || s.Sweep? || s.Resolve?)
    ensures Claims(Apply(l, s))
  {
    var t := Apply(l, s);
    ClaimsRow(l, t.row, t.log, t.clock);
  }

  lemma ClaimsClaim(l: Life, s: Step)
    requires Claims(l) && s.Claim? && Timely(l, s)
    ensures Claims(Apply(l, s))
  {
    assert Claimable(l.row, s.now) ==> forall i :: 0 <= i < |l.workers| ==> Apply(l, s).workers[i] == l.workers[i];
  }

  lemma ClaimsCheck(l: Life, s: Step)
    requires Claims(l) && s.Check? && Timely(l, s)
    ensures Claims(Apply(l, s))
  {
    ClaimsChecked(l.(clock := s.now), s.worker, s.start, s.now, s.facts);
  }

  lemma ClaimsChecked(l: Life, w: nat, start: int, now: int, f: Facts)
    requires Claims(l) && w < |l.workers| && l.workers[w].since <= start <= now == l.clock
    ensures Claims(Checked(l, w, start, now, f))
  {
    ClaimsMoved(l, w, now, Gone);
    ClaimsMoved(l, w, now, Sending);
  }

  lemma ClaimsFinish(l: Life, s: Step)
    requires Claims(l) && s.Finish? && Timely(l, s)
    ensures Claims(Apply(l, s))
  {
    ClaimsCompleted(l.(clock := s.now), s.worker, s.start, s.now, s.answer, s.id, s.taken);
  }

  lemma ClaimsCompleted(l: Life, w: nat, start: int, now: int, answer: Option<PowerResult>, id: string, taken: bool)
    requires Claims(l) && w < |l.workers| && l.workers[w].since <= start <= now == l.clock
    ensures Claims(Completed(l, w, start, now, answer, id, taken))
  {
    ClaimsMoved(l, w, now, Gone);
  }

  lemma ClaimsMoved(l: Life, w: nat, now: int, progress: Progress)
    requires Claims(l) && w < |l.workers| && l.workers[w].since <= now == l.clock
    ensures Claims(Moved(l, w, now, progress))
  {
  }

  lemma {:induction false} ClaimsAlways(l: Life, steps: seq<Step>)
    requires Created(l)
    ensures Claims(Run(l, steps))
  {
    if steps != [] {
      ClaimsAlways(l, steps[..|steps| - 1]);
      ClaimsStep(Run(l, steps[..|steps| - 1]), steps[|steps| - 1]);
    }
  }

  /** Fencing: successive claims carry strictly increasing leases, so that equal leases
      mean the same claim. */
  lemma {:induction false} LeasesIncrease(l: Life, steps: seq<Step>, i: nat, j: nat)
    requires Created(l)
    requires i < j < |Run(l, steps).workers|
    ensures Run(l, steps).workers[i].Lease() < Run(l, steps).workers[j].Lease()
  {
    ClaimsAlways(l, steps);
  }

  /** A worker whose claim was superseded, or whose lease has run out, changes nothing. */
  lemma {:induction false} StaleWorkerIsHarmless(l: Life, steps: seq<Step>, s: Step)
    requires Created(l) && (s.Check? || s.Finish?)
    requires var at := Run(l, steps); s.worker < |at.workers| && (s.worker != |at.workers| - 1 || at.workers[s.worker].Lease() < s.now)
    ensures Apply(Run(l, steps), s).row == Run(l, steps).row && Apply(Run(l, steps), s).log == Run(l, steps).log
  {
    ClaimsAlways(l, steps);
  }

  /** Status never goes back, and a finished operation never changes again: for any two
      moments of a run. */
  lemma {:induction false} StatusAdvances(l: Life, steps: seq<Step>, k: nat)
    requires k <= |steps|
    ensures var before, after := Run(l, steps[..k]).row, Run(l, steps).row;
      before.status.Rank() <= after.status.Rank() && (before.status.Terminal() ==> after == before)
    decreases |steps|
  {
    if k == |steps| {
      assert steps[..k] == steps;
    } else {
      var init := steps[..|steps| - 1];
      StatusAdvances(l, init, k);
      assert init[..k] == steps[..k];
      StepAdvances(Run(l, init), steps[|steps| - 1]);
    }
  }

  lemma StepAdvances(l: Life, s: Step)
    ensures l.row.status.Rank() <= Apply(l, s).row.status.Rank() && (l.row.status.Terminal() ==> Apply(l, s).row == l.row)
  {
  }

  // ---- What may be sent ----

  /** Each call belongs to one claim, in order; only the first claim's is a submit. */
  ghost predicate Sends(l: Life) {
    && (Unsent(l) ==> forall e :: e in l.log ==> !e.Sent?)
    && (forall e :: e in l.log && e.Sent? ==> SentBy(l, e))
    && (forall i, k :: 0 <= i < k < |l.log| && l.log[i].Sent? && l.log[k].Sent? ==> l.log[i].worker < l.log[k].worker)
  }

  ghost predicate Unsent(l: Life) {
    l.workers == [] || (|l.workers| == 1 && l.workers[0].progress == Holding)
  }

  ghost predicate SentBy(l: Life, e: Event)
    requires e.Sent?
  {
    var r := e.request;
    && e.worker < |l.workers| && l.workers[e.worker].progress != Holding
    && (r.submit <==> e.worker == 0)
    && r.core == l.row.core && (r.submit ==> r.nativeId == r.core.target && r.actionId == "")
  }

  lemma SendsStep(l: Life, s: Step)
    requires Claims(l) && Sends(l)
    ensures Sends(Apply(l, s))
  {
    if Timely(l, s) {
      match s
      case Check(_, _, _, _) => SendsCheck(l, s);
      case Finish(_, _, _, _, _, _) => SendsFinish(l, s);
      case _ => SendsOther(l, s);
    }
  }

  lemma SendsOther(l: Life, s: Step)
    requires Claims(l) && Sends(l) && Timely(l, s) && !s.Check? && !s.Finish?
    ensures Sends(Apply(l, s))
  {
    SendsKept(l, Apply(l, s));
  }

  lemma SendsFinish(l: Life, s: Step)
    requires Claims(l) && Sends(l) && s.Finish? && Timely(l, s)
    ensures Sends(Apply(l, s))
  {
    SendsMoved(l, s.worker, s.now, Gone);
    SendsKept(if l.workers[s.worker].progress == Sending then Moved(l, s.worker, s.now, Gone) else l, Apply(l, s));
  }

  /** Steps that send nothing: claims and log only grow. */
  lemma SendsKept(l: Life, after: Life)
    requires Sends(l) && after.row.core == l.row.core && l.workers <= after.workers && (Unsent(after) ==> Unsent(l))
    requires after.log == l.log || exists e: Event :: !e.Sent? && after.log == l.log + [e]
    ensures Sends(after)
  {
    forall e | e in after.log && e.Sent? ensures e in l.log {
    }
  }

  lemma SendsMoved(l: Life, w: nat, now: int, progress: Progress)
    requires Sends(l) && w < |l.workers| && progress != Holding
    ensures Sends(Moved(l, w, now, progress))
  {
  }

  lemma SendsCheck(l: Life, s: Step)
    requires Claims(l) && Sends(l) && s.Check? && Timely(l, s)
    ensures Sends(Apply(l, s))
  {
    SendsChecked(l.(clock := s.now), s.worker, s.start, s.now, s.facts);
  }

  lemma SendsChecked(l: Life, w: nat, start: int, now: int, f: Facts)
    requires Claims(l) && Sends(l) && w < |l.workers|
    ensures Sends(Checked(l, w, start, now, f))
  {
    SendsMoved(l, w, now, Gone);
    SendsMoved(l, w, now, Sending);
  }

  lemma {:induction false} SendsAlways(l: Life, steps: seq<Step>)
    requires Created(l)
    ensures Sends(Run(l, steps)) && Run(l, steps).row.core == l.row.core
  {
    if steps != [] {
      var before := Run(l, steps[..|steps| - 1]);
      SendsAlways(l, steps[..|steps| - 1]);
      ClaimsAlways(l, steps[..|steps| - 1]);
      SendsStep(before, steps[|steps| - 1]);
    }
  }

  /** At most one submit is ever authorised, and whatever is authorised after any other
      call only observes. Each claim authorises at most one call. */
  lemma {:induction false} SubmitsOnceThenObserves(l: Life, steps: seq<Step>, i: nat, k: nat)
    requires Created(l)
    requires var log := Run(l, steps).log; i < k < |log| && log[i].Sent? && log[k].Sent?
    ensures !Run(l, steps).log[k].request.submit && Run(l, steps).log[i].worker < Run(l, steps).log[k].worker
  {
    SendsAlways(l, steps);
  }

  /** What was reviewed is what is sent: a submit carries the inputs fixed at creation. */
  lemma {:induction false} SubmitIsAsCreated(l: Life, steps: seq<Step>, k: nat)
    requires Created(l)
    requires var log := Run(l, steps).log; k < |log| && log[k].Sent?
    ensures var r := Run(l, steps).log[k].request;
      r.core == l.row.core && (r.submit ==> r == Request(l.row.core, true, l.row.core.target, ""))
  {
    SendsAlways(l, steps);
  }

  // ---- Who agreed to it ----

  ghost predicate Approval(l: Life, user: string, at: int) {
    Reviewed(user, true, at) in l.log && user != l.row.core.requester
  }

  ghost predicate Approvals(l: Life) {
    var o := l.row;
    && o.created <= l.clock
    && (o.standing.Some? ==>
          && o.status != AwaitingApproval && o.approver.Some? && o.approver.value != o.core.requester
          && o.approvalExpires == Some(o.expires) && o.expires == o.standing.value.due + DISPATCH_WINDOW && o.standing.value.due <= o.created)
    && (o.standing.None? && o.approver.Some? && o.status != Rejected ==>
          exists at :: Approval(l, o.approver.value, at) && o.approvalExpires == Some(at + APPROVAL))
    && (o.status == Rejected ==> l.workers == [])
    && (forall e :: e in l.log && e.Sent? && e.request.submit ==> Covered(o, e))
  }

  /** The call was authorised within the request's life and that of its approval. */
  ghost predicate Covered(o: Operation, e: Event)
    requires e.Sent?
  {
    && o.created <= e.at <= o.expires
    && (e.approvalRequired || o.standing.Some? ==> o.approver.Some? && o.approvalExpires.Some? && e.at <= o.approvalExpires.value)
  }

  lemma ApprovalsStep(l: Life, s: Step)
    requires Claims(l) && Sends(l) && Approvals(l)
    ensures Approvals(Apply(l, s))
  {
    match s
    case Review(_, _, _, _, _, _) => ApprovalsReview(l, s);
    case Check(_, _, _, _) => ApprovalsCheck(l, s);
    case Finish(_, _, _, _, _, _) => ApprovalsFinish(l, s);
    case _ => ApprovalsOther(l, s);
  }

  lemma ApprovalsFinish(l: Life, s: Step)
    requires Claims(l) && Approvals(l) && s.Finish?
    ensures Approvals(Apply(l, s))
  {
    ApprovalsKept(l, Apply(l, s));
  }

  lemma ApprovalsOther(l: Life, s: Step)
    requires Claims(l) && Approvals(l) && !s.Review? && !s.Check? && !s.Finish?
    ensures Approvals(Apply(l, s))
  {
    ApprovalsKept(l, Apply(l, s));
  }

  lemma ApprovalsReview(l: Life, s: Step)
    requires Claims(l) && Sends(l) && Approvals(l) && s.Review?
    ensures Approvals(Apply(l, s))
  {
    var after := Apply(l, s);
    if Timely(l, s) && MayReview(l.row, s) {
      assert s.approve ==> Approval(after, s.user, s.start);
    } else {
      ApprovalsKept(l, after);
    }
  }

  lemma ApprovalsCheck(l: Life, s: Step)
    requires Claims(l) && Sends(l) && Approvals(l) && s.Check?
    ensures Approvals(Apply(l, s))
  {
    ApprovalsKept(l, Apply(l, s));
  }

  /** Steps that leave the review alone: the log gains at most a covered call. */
  lemma ApprovalsKept(l: Life, after: Life)
    requires Approvals(l) && l.clock <= after.clock
    requires after.row.(status := l.row.status, nativeId := l.row.nativeId, actionId := l.row.actionId, observed := l.row.observed, resource := l.row.resource,
                        lease := l.row.lease, nextAttempt := l.row.nextAttempt, deadline := l.row.deadline, updated := l.row.updated) == l.row
    requires after.row.status == l.row.status || (l.row.status != Rejected && after.row.status !in {AwaitingApproval, Rejected})
    requires after.row.status == Rejected ==> |after.workers| == |l.workers|
    requires after.log == l.log || exists e: Event :: after.log == l.log + [e] && (e.Sent? && e.request.submit ==> Covered(l.row, e))
    ensures Approvals(after)
  {
    assert forall e :: e in l.log ==> e in after.log;
    if l.row.standing.None? && l.row.approver.Some? && l.row.status != Rejected {
      var at :| Approval(l, l.row.approver.value, at) && l.row.approvalExpires == Some(at + APPROVAL);
      assert Approval(after, l.row.approver.value, at);
    }
  }

  lemma StandingKept(l: Life, s: Step)
    ensures Apply(l, s).row.standing == l.row.standing
  {
  }

  lemma {:induction false} ApprovalsAlways(l: Life, steps: seq<Step>)
    requires Created(l)
    ensures Approvals(Run(l, steps)) && Run(l, steps).row.standing == l.row.standing
  {
    if steps != [] {
      var before := Run(l, steps[..|steps| - 1]);
      ApprovalsAlways(l, steps[..|steps| - 1]);
      ClaimsAlways(l, steps[..|steps| - 1]);
      SendsAlways(l, steps[..|steps| - 1]);
      ApprovalsStep(before, steps[|steps| - 1]);
      StandingKept(before, steps[|steps| - 1]);
    }
  }

  /** The call at index k of the log comes after an approving review by another user that
      was then at most an hour old. */
  ghost predicate ApprovedBefore(log: seq<Event>, k: nat, requester: string) {
    k < |log| && log[k].Sent? && exists i :: 0 <= i < k && ApprovingFor(log[i], log[k], requester)
  }

  ghost predicate ApprovingFor(review: Event, call: Event, requester: string)
    requires call.Sent?
  {
    review.Reviewed? && review.approved && review.user != requester && review.at <= call.at <= review.at + APPROVAL
  }

  ghost predicate NeedsReview(l: Life, e: Event) {
    e.Sent? && e.request.submit && e.approvalRequired && l.row.standing.None?
  }

  ghost predicate Vouched(l: Life) {
    && (forall e :: e in l.log && e.Reviewed? ==> e.at <= l.clock)
    && (forall k :: 0 <= k < |l.log| && NeedsReview(l, l.log[k]) ==> ApprovedBefore(l.log, k, l.row.core.requester))
  }

  lemma VouchedStep(l: Life, s: Step)
    requires Claims(l) && Approvals(l) && Vouched(l)
    ensures Vouched(Apply(l, s))
  {
    match s
    case Check(_, _, _, _) => VouchedCheck(l, s);
    case Finish(_, _, _, _, _, _) => VouchedFinish(l, s);
    case _ => VouchedKept(l, Apply(l, s));
  }

  lemma VouchedFinish(l: Life, s: Step)
    requires Vouched(l) && s.Finish?
    ensures Vouched(Apply(l, s))
  {
    VouchedKept(l, Apply(l, s));
  }

  lemma VouchedKept(l: Life, after: Life)
    requires Vouched(l) && l.clock <= after.clock && after.row.core == l.row.core && after.row.standing == l.row.standing
    requires after.log == l.log || exists e: Event :: after.log == l.log + [e] && VouchedEvent(l, e) && (e.Reviewed? ==> e.at <= after.clock)
    ensures Vouched(after)
  {
    forall k | 0 <= k < |after.log| && NeedsReview(after, after.log[k]) ensures ApprovedBefore(after.log, k, after.row.core.requester) {
      if k < |l.log| {
        assert after.log[k] == l.log[k] && ApprovedBefore(l.log, k, l.row.core.requester);
        var i :| 0 <= i < k && ApprovingFor(l.log[i], l.log[k], l.row.core.requester);
        assert ApprovingFor(after.log[i], after.log[k], l.row.core.requester);
      } else {
        var i :| 0 <= i < k && ApprovingFor(l.log[i], after.log[k], l.row.core.requester);
        assert ApprovingFor(after.log[i], after.log[k], l.row.core.requester);
      }
    }
  }

  /** An event that may be logged next: if it needs a review, the log already has it. */
  ghost predicate VouchedEvent(l: Life, e: Event) {
    NeedsReview(l, e) ==> exists i :: 0 <= i < |l.log| && ApprovingFor(l.log[i], e, l.row.core.requester)
  }

  lemma VouchedCheck(l: Life, s: Step)
    requires Claims(l) && Approvals(l) && Vouched(l) && s.Check?
    ensures Vouched(Apply(l, s))
  {
    var after := Apply(l, s);
    if after.log != l.log {
      VouchedCall(l, s, after.log[|l.log|]);
    }
    VouchedKept(l, after);
  }

  lemma VouchedCall(l: Life, s: Step, e: Event)
    requires Claims(l) && Approvals(l) && Vouched(l) && s.Check? && Apply(l, s).log == l.log + [e]
    ensures VouchedEvent(l, e)
  {
    if NeedsReview(l, e) {
      assert Apply(l, s).log[|l.log|] == e;
      assert e.at == s.now && Timely(l, s) && ApprovalStands(l.row, s.facts, s.now);
      var at :| Approval(l, l.row.approver.value, at) && l.row.approvalExpires == Some(at + APPROVAL);
      var i :| 0 <= i < |l.log| && l.log[i] == Reviewed(l.row.approver.value, true, at);
      assert l.log[i] in l.log;
      assert ApprovingFor(l.log[i], e, l.row.core.requester);
    }
  }

  lemma {:induction false} VouchedAlways(l: Life, steps: seq<Step>)
    requires Created(l)
    ensures Vouched(Run(l, steps)) && Run(l, steps).row.core == l.row.core && Run(l, steps).row.standing == l.row.standing
  {
    SendsAlways(l, steps);
    ApprovalsAlways(l, steps);
    if steps != [] {
      var init := steps[..|steps| - 1];
      VouchedAlways(l, init);
      ClaimsAlways(l, init);
      ApprovalsAlways(l, init);
      VouchedStep(Run(l, init), steps[|steps| - 1]);
    }
  }

  /** A submit that needs approval has one by another user: an approving review that comes
      before it in the history and was at most an hour old, or the schedule's standing
      approval bound at creation. */
  lemma {:induction false} SubmitIsApproved(l: Life, steps: seq<Step>, k: nat)
    requires Created(l)
    requires var log := Run(l, steps).log; k < |log| && log[k].Sent? && log[k].request.submit && log[k].approvalRequired
    ensures l.row.standing.None? ==> ApprovedBefore(Run(l, steps).log, k, l.row.core.requester)
    ensures l.row.standing.Some? ==> var o := Run(l, steps).row; o.approver == l.row.approver && o.approver.Some? && o.approver.value != l.row.core.requester
  {
    VouchedAlways(l, steps);
    if l.row.standing.Some? {
      StandingStays(l, steps);
      ApprovalsAlways(l, steps);
    }
    assert l.row.standing.None? ==> NeedsReview(Run(l, steps), Run(l, steps).log[k]);
  }

  /** A standing approval is the one given at creation. */
  lemma {:induction false} StandingStays(l: Life, steps: seq<Step>)
    requires Created(l) && l.row.standing.Some?
    ensures Run(l, steps).row.approver == l.row.approver
  {
    if steps != [] {
      var init := steps[..|steps| - 1];
      StandingStays(l, init);
      ApprovalsAlways(l, init);
      ApproverStays(Run(l, init), steps[|steps| - 1]);
    }
  }

  /** Only a review, of a row that awaits it, names an approver. */
  lemma ApproverStays(l: Life, s: Step)
    requires l.row.status != AwaitingApproval
    ensures Apply(l, s).row.approver == l.row.approver
  {
  }

  /** A scheduled submit is only authorised in the half minute after it fell due, and any
      submit within the life of its request. */
  lemma {:induction false} SubmitIsTimely(l: Life, steps: seq<Step>, e: Event)
    requires Created(l) && e in Run(l, steps).log && e.Sent? && e.request.submit
    ensures Run(l, steps).row.created <= e.at <= Run(l, steps).row.expires
    ensures l.row.standing.Some? ==> l.row.standing.value.due <= e.at <= l.row.standing.value.due + DISPATCH_WINDOW
  {
    ApprovalsAlways(l, steps);
  }

  // ---- How often it is observed ----

  /** Observations authorised since the last recheck. */
  function Observations(log: seq<Event>): nat {
    if log == [] then 0
    else match log[|log| - 1]
      case Rechecked(_) => 0
      case Sent(r, _, _, _) => Observations(log[..|log| - 1]) + if r.submit then 0 else 1
      case Reviewed(_, _, _) => Observations(log[..|log| - 1])
  }

  /** A recheck may observe at once; after a dispatch the first wait has begun. */
  function Head(log: seq<Event>): nat {
    if log == [] then 0 else if log[|log| - 1].Rechecked? then 1 else Head(log[..|log| - 1])
  }

  ghost predicate Paced(l: Life) {
    var o, n, head := l.row, Observations(l.log), Head(l.log);
    && n <= 180 + head
    && (o.status.Rank() <= 2 ==> n == 0 && head == 0 && o.deadline.None?)
    && (o.status == Observing ==> o.deadline.Some? && l.workers != [] && Spaced(o.deadline.value - OBSERVATION, o, l.workers[|l.workers| - 1], n - head))
  }

  /** Claims are at least five seconds apart, counted from when the deadline was set. */
  ghost predicate Spaced(base: int, o: Operation, last: Worker, n: int) {
    && (o.lease.None? ==> base + RETRY * (n + 1) <= o.nextAttempt)
    && (o.lease.Some? ==> base + RETRY * (if last.progress == Holding then n + 1 else n) <= last.claimed)
  }

  lemma LogGrows(log: seq<Event>, e: Event)
    ensures Head(log + [e]) == if e.Rechecked? then 1 else Head(log)
    ensures Observations(log + [e]) == if e.Rechecked? then 0 else Observations(log) + if e.Sent? && !e.request.submit then 1 else 0
  {
    assert (log + [e])[..|log|] == log;
  }

  lemma PacedStep(l: Life, s: Step)
    requires Claims(l) && Paced(l)
    ensures Paced(Apply(l, s))
  {
    match s
    case Claim(_) => PacedClaim(l, s);
    case Check(_, _, _, _) => PacedCheck(l, s);
    case Finish(_, _, _, _, _, _) => PacedFinish(l, s);
    case Reconcile(_, _, _, _) => PacedReconcile(l, s);
    case Review(_, _, _, _, _, _) => PacedReview(l, s);
    case _ => PacedOther(l, s);
  }

  lemma PacedClaim(l: Life, s: Step)
    requires Claims(l) && Paced(l) && s.Claim?
    ensures Paced(Apply(l, s))
  {
  }

  lemma PacedCheck(l: Life, s: Step)
    requires Claims(l) && Paced(l) && s.Check?
    ensures Paced(Apply(l, s))
  {
    if Timely(l, s) && l.workers[s.worker].progress == Holding && Holds(l, s.worker, s.now) && Clear(l.row, l.workers[s.worker].dispatch, s.facts, s.now) {
      PacedCleared(l, s);
    }
  }

  lemma PacedCleared(l: Life, s: Step)
    requires Claims(l) && Paced(l) && s.Check? && Timely(l, s) && l.workers[s.worker].progress == Holding
    requires Holds(l, s.worker, s.now) && (!l.workers[s.worker].dispatch && l.row.deadline.Some? ==> s.now <= l.row.deadline.value)
    ensures Paced(Apply(l, s))
  {
    LogGrows(l.log, Sent(Request(l.row.core, l.workers[s.worker].dispatch, l.row.nativeId, l.row.actionId), s.worker, s.now, s.facts.approvalRequired));
  }

  lemma PacedFinish(l: Life, s: Step)
    requires Claims(l) && Paced(l) && s.Finish?
    ensures Paced(Apply(l, s))
  {
  }

  lemma PacedReconcile(l: Life, s: Step)
    requires Claims(l) && Paced(l) && s.Reconcile?
    ensures Paced(Apply(l, s))
  {
    LogGrows(l.log, Rechecked(s.start));
  }

  lemma PacedReview(l: Life, s: Step)
    requires Claims(l) && Paced(l) && s.Review?
    ensures Paced(Apply(l, s))
  {
    LogGrows(l.log, Reviewed(s.user, s.approve, s.start));
  }

  lemma PacedOther(l: Life, s: Step)
    requires Claims(l) && Paced(l) && (s.Cancel? || s.Sweep? || s.Resolve?)
    ensures Paced(Apply(l, s))
  {
  }

  lemma {:induction false} PacedAlways(l: Life, steps: seq<Step>)
    requires Created(l)
    ensures Paced(Run(l, steps))
  {
    if steps != [] {
      PacedAlways(l, steps[..|steps| - 1]);
      ClaimsAlways(l, steps[..|steps| - 1]);
      PacedStep(Run(l, steps[..|steps| - 1]), steps[|steps| - 1]);
    }
  }

  /** At most 180 observations after a dispatch and 181 after each recheck. */
  lemma {:induction false} ObservationIsBounded(l: Life, steps: seq<Step>)
    requires Created(l)
    ensures Observations(Run(l, steps).log) <= 180 + Head(Run(l, steps).log)
  {
    PacedAlways(l, steps);
  }

  // ---- When it was last touched ----

  /** The row's stamp is never ahead of the clock, nor of the worker that observes it. */
  ghost predicate Stamped(l: Life) {
    && l.row.updated <= l.clock
    && (l.row.status == Observing && l.row.lease.Some? ==> l.workers != [] && l.row.updated <= l.workers[|l.workers| - 1].since)
  }

  lemma StampedStep(l: Life, s: Step)
    requires Claims(l) && Stamped(l)
    ensures Stamped(Apply(l, s))
    ensures MovesForward(l, Apply(l, s))
  {
    if Timely(l, s) {
      match s
      case Check(_, _, _, _) => StampedCheck(l, s);
      case Finish(_, _, _, _, _, _) => StampedFinish(l, s);
      case _ => StampedOther(l, s);
    }
  }

  predicate MovesForward(l: Life, after: Life) {
    l.row.status == Observing ==> l.row.updated <= after.row.updated && after.row.status in {Observing, Uncertain, Succeeded, Failed}
  }

  lemma StampedCheck(l: Life, s: Step)
    requires Claims(l) && Stamped(l) && s.Check? && Timely(l, s)
    ensures Stamped(Apply(l, s)) && MovesForward(l, Apply(l, s))
  {
  }

  lemma StampedFinish(l: Life, s: Step)
    requires Claims(l) && Stamped(l) && s.Finish? && Timely(l, s)
    ensures Stamped(Apply(l, s)) && MovesForward(l, Apply(l, s))
  {
  }

  lemma StampedOther(l: Life, s: Step)
    requires Claims(l) && Stamped(l) && !s.Check? && !s.Finish?
    ensures Stamped(Apply(l, s)) && MovesForward(l, Apply(l, s))
  {
  }

  lemma {:induction false} StampedAlways(l: Life, steps: seq<Step>)
    requires Created(l)
    ensures Stamped(Run(l, steps))
  {
    if steps != [] {
      StampedAlways(l, steps[..|steps| - 1]);
      ClaimsAlways(l, steps[..|steps| - 1]);
      StampedStep(Run(l, steps[..|steps| - 1]), steps[|steps| - 1]);
    }
  }

  /** Although a stamp is the start of its transaction, not the commit, an observed
      operation is never stamped earlier than it was before; and it is never dropped. */
  lemma {:induction false} ObservingMovesForward(l: Life, steps: seq<Step>, s: Step)
    requires Created(l) && Run(l, steps).row.status == Observing
    ensures Run(l, steps).row.updated <= Apply(Run(l, steps), s).row.updated
    ensures Apply(Run(l, steps), s).row.status in {Observing, Uncertain, Succeeded, Failed}
  {
    ClaimsAlways(l, steps);
    StampedAlways(l, steps);
    StampedStep(Run(l, steps), s);
  }
}
