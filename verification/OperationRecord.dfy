/** The operation row as the service updates it (internal/core/operations.go): each method
    is one transaction and is proved to be the corresponding step of Operations. */
module OperationRecord {
  import opened Wrappers
  import opened Outcomes
  import opened Operations

  /** Why a check refuses to let anything be sent. */
  datatype Failure =
    | Nothing | AccessRevoked | AuthorityRevoked | ConnectionChanged | CreationDisabled | ActionUnsupported | ModuleChanged | TemplateRevoked
    | WindowEnded | MaintenancePolicyChanged | WindowClosed | ExceptionRevoked | ResourceChanged | RequestExpired | ApprovalMissing
    | ObservationTimedOut | RuntimeUnavailable | IdentityRefused | ResourceOwned

  /** The check's running verdict: any gate may overwrite the reason, none may clear it. */
  method Gate(o: Operation, dispatch: bool, f: Facts, now: int) returns (failure: Failure)
    ensures failure == Nothing <==> Clear(o, dispatch, f, now)
  {
    failure := Nothing;
    if !f.authorised {
      failure := AccessRevoked;
    }
    if o.core.action in {Delete, Create, Snapshot} && !f.actionAuthority {
      failure := AuthorityRevoked;
    }
    if !f.connectionEnabled || f.connectionDeleted || f.connectionRevision != o.core.connectionRevision {
      failure := ConnectionChanged;
    }
    if dispatch && !f.creationPermitted {
      failure := CreationDisabled;
    }
    if dispatch && !f.capable {
      failure := ActionUnsupported;
    }
    if dispatch && !f.moduleAllowed {
      failure := ModuleChanged;
    }
    if dispatch {
      if !f.templateAllowed {
        failure := TemplateRevoked;
      }
      if !o.core.maintenanceException && o.core.maintenanceEnds.Some? && !(now < o.core.maintenanceEnds.value) {
        failure := WindowEnded;
      }
      if f.maintenanceRevision != o.core.maintenanceRevision {
        failure := MaintenancePolicyChanged;
      } else if !o.core.maintenanceException && f.restricted {
        failure := WindowClosed;
      }
      if o.core.maintenanceException && !f.overrideAllowed {
        failure := ExceptionRevoked;
      }
      if !ResourceUnchanged(o.core, f) {
        failure := ResourceChanged;
      }
      if o.expires < now || !f.policyCurrent {
        failure := RequestExpired;
      }
      if (f.approvalRequired || o.approver.Some? || o.standing.Some?)
         && (o.approver.None? || o.approver.value == o.core.requester || o.approvalExpires.None? || o.approvalExpires.value < now || !f.approverAllowed)
      {
        failure := ApprovalMissing;
      }
    } else if o.deadline.Some? && o.deadline.value < now {
      failure := ObservationTimedOut;
    }
    if !f.runtimeAvailable {
      failure := RuntimeUnavailable;
    }
    if dispatch && !f.identitiesAllowed {
      failure := IdentityRefused;
    }
    if dispatch && o.core.action != Create && !f.unowned {
      failure := ResourceOwned;
    }
  }

  /** The conditions of ReviewOperation, in the order of the code. */
  method Reviewable(o: Operation, start: int, now: int, user: string, permitted: bool, approve: bool, f: Facts) returns (ok: bool)
    ensures ok <==> MayReview(o, Review(start, now, user, permitted, approve, f))
  {
    if !permitted || o.core.requester == user {
      return false;
    }
    if o.status != AwaitingApproval || o.expires < now {
      return false;
    }
    if approve {
      if !f.creationPermitted || !f.moduleAllowed {
        return false;
      }
      if !o.core.maintenanceException && o.core.maintenanceEnds.Some? && !(now < o.core.maintenanceEnds.value) {
        return false;
      }
      if f.maintenanceRevision != o.core.maintenanceRevision {
        return false;
      }
      if o.core.maintenanceException {
        if !f.overrideAllowed {
          return false;
        }
      } else if f.restricted {
        return false;
      }
      if (o.core.action != Create && (f.resource.None? || f.resource.value.status != o.core.expectedStatus))
         || f.connectionRevision != o.core.connectionRevision || !f.connectionEnabled || f.connectionDeleted
      {
        return false;
      }
    }
    return true;
  }

  /** What a worker remembers of its claim: the job it was handed. */
  datatype Job = Job(status: Status, lease: int)

  class Record {
    /** The columns; each statement replaces the ones it sets. */
    var row: Operation
    ghost var workers: seq<Worker>
    ghost var log: seq<Event>
    ghost var clock: int

    ghost function Now(): Life
      reads this
    {
      Life(row, workers, log, clock)
    }

    /** The job in worker w's hand is its claim. */
    ghost predicate Handed(job: Job, w: nat)
      reads this
    {
      w < |workers| && job.status == workers[w].Held() && job.lease == workers[w].Lease()
    }

    constructor Interactive(core: Core, resource: Option<string>, needsApproval: bool, now: int)
      ensures Created(Now()) && row.core == core && clock == now
      ensures row.status == (if needsApproval then AwaitingApproval else Queued) && row.resource == resource && row.expires == now + 24 * 60 * 60
    {
      row := Operation(core, if needsApproval then AwaitingApproval else Queued, now, now + REQUEST, None, None, None,
                       resource, core.target, "", "", None, now, None, now);
      workers, log, clock := [], [], now;
    }

    constructor Scheduled(core: Core, resource: string, standing: Standing, approver: string, now: int)
      requires standing.due <= now && approver != core.requester
      ensures Created(Now()) && row.core == core && row.standing == Some(standing) && clock == now
    {
      var limit := standing.due + DISPATCH_WINDOW;
      row := Operation(core, Queued, now, limit, Some(approver), Some(limit), Some(standing),
                       Some(resource), core.target, "", "", None, now, None, now);
      workers, log, clock := [], [], now;
    }

    /** SaveOperationOutcome. */
    method SaveOutcome(start: int, newStatus: Status, power: Option<PowerResult>)
      modifies this`row
      ensures row == Save(old(row), start, newStatus, power)
    {
      if power.Some? {
        if power.value.actionId != "" {
          row := row.(actionId := power.value.actionId);
        }
        if power.value.status != "" {
          row := row.(observed := power.value.status);
        }
      }
      row := row.(status := newStatus, updated := start, nextAttempt := start + RETRY);
      if row.deadline.None? {
        row := row.(deadline := Some(start + OBSERVATION));
      }
      if newStatus == Observing {
        row := row.(lease := None);
      }
    }

    method ReviewOperation(start: int, now: int, user: string, permitted: bool, approve: bool, facts: Facts) returns (ok: bool)
      requires Timely(Now(), Review(start, now, user, permitted, approve, facts))
      modifies this
      ensures Now() == Apply(old(Now()), Review(start, now, user, permitted, approve, facts))
      ensures ok <==> MayReview(old(row), Review(start, now, user, permitted, approve, facts))
    {
      clock := now;
      ok := Reviewable(row, start, now, user, permitted, approve, facts);
      if ok {
        row := row.(status := if approve then Queued else Rejected, approver := Some(user), approvalExpires := Some(start + APPROVAL), updated := start);
        log := log + [Reviewed(user, approve, start)];
      }
    }

    method CancelOperation(start: int, now: int, user: string, permitted: bool) returns (ok: bool)
      requires Timely(Now(), Cancel(start, now, user, permitted))
      modifies this
      ensures Now() == Apply(old(Now()), Cancel(start, now, user, permitted))
      ensures ok <==> permitted && user == old(row).core.requester && old(row).status in {Queued, AwaitingApproval}
    {
      clock := now;
      if !permitted || row.core.requester != user || (row.status != Queued && row.status != AwaitingApproval) {
        return false;
      }
      SaveOutcome(start, Canceled, None);
      return true;
    }

    /** The sweep of operationTick over rows listed as expired. */
    method ExpireIfDue(start: int, now: int)
      requires Timely(Now(), Sweep(start, now))
      modifies this
      ensures Now() == Apply(old(Now()), Sweep(start, now))
    {
      clock := now;
      if row.status == Dispatching && row.lease.Some? && row.lease.value < now {
        SaveOutcome(start, Uncertain, None);
        return;
      }
      if (row.status == Queued || row.status == AwaitingApproval)
         && (row.expires < now || (row.approvalExpires.Some? && row.approvalExpires.value < now))
      {
        SaveOutcome(start, Expired, None);
      }
    }

    method ClaimOperation(now: int) returns (job: Option<Job>)
      requires Timely(Now(), Claim(now))
      modifies this
      ensures Now() == Apply(old(Now()), Claim(now))
      ensures job.Some? <==> Claimable(old(row), now)
      ensures job.Some? ==> Handed(job.value, |old(workers)|) && job.value.lease == now + LEASE && row.lease == Some(job.value.lease)
    {
      clock := now;
      if !((row.status == Queued || row.status == Observing) && (row.lease.None? || row.lease.value <= now) && row.nextAttempt <= now) {
        return None;
      }
      workers := workers + [Worker(now, row.status == Queued, now, Holding)];
      row := row.(lease := Some(now + LEASE), updated := now);
      if row.status == Queued {
        row := row.(status := Dispatching);
      }
      return Some(Job(row.status, now + LEASE));
    }

    /** The first transaction of runOperation: authorise one call, or settle the row. */
    method CheckOperation(job: Job, ghost w: nat, start: int, now: int, facts: Facts) returns (request: Option<Request>)
      requires Handed(job, w) && workers[w].progress == Holding && Timely(Now(), Check(w, start, now, facts))
      modifies this
      ensures Now() == Apply(old(Now()), Check(w, start, now, facts))
      ensures request.Some? <==> Holds(old(Now()), w, now) && Clear(old(row), job.status == Dispatching, facts, now) && facts.credential && facts.requestValid
      ensures request.Some? ==> request.value == Request(row.core, job.status == Dispatching, row.nativeId, row.actionId)
    {
      clock := now;
      if row.lease.None? || row.lease.value != job.lease || row.status != job.status || row.lease.value < now {
        workers := Moved(Now(), w, now, Gone).workers;
        return None;
      }
      request := Authorise(job, w, start, now, facts);
    }

    /** The gates, once the claim is known to be current. */
    method Authorise(job: Job, ghost w: nat, start: int, now: int, facts: Facts) returns (request: Option<Request>)
      requires Handed(job, w) && workers[w].progress == Holding && Holds(Now(), w, now)
      modifies this
      ensures Now() == Checked(old(Now()), w, start, now, facts)
      ensures request == if Clear(old(row), job.status == Dispatching, facts, now) && facts.credential && facts.requestValid
                         then Some(Request(row.core, job.status == Dispatching, row.nativeId, row.actionId)) else None
    {
      var dispatch := job.status == Dispatching;
      var failure := Gate(row, dispatch, facts, now);
      var settled := row.status;
      if failure != Nothing {
        settled := if dispatch then Canceled else Uncertain;
      } else if !facts.credential {
        settled := if dispatch then Failed else Uncertain;
      } else if !facts.requestValid {
        settled := Failed;
      } else {
        workers := Moved(Now(), w, now, Sending).workers;
        log := log + [Sent(Request(row.core, dispatch, row.nativeId, row.actionId), w, now, facts.approvalRequired)];
        return Some(Request(row.core, dispatch, row.nativeId, row.actionId));
      }
      workers := Moved(Now(), w, now, Gone).workers;
      SaveOutcome(start, settled, None);
      return None;
    }

    /** BindCreatedServer, for an answer that names the created resource. */
    method BindCreated(j: Judgement, id: string)
      requires Binds(row, j)
      modifies this`row
      ensures row == Bound(old(row), j, id)
    {
      if row.nativeId == "" || row.nativeId == j.power.value.nativeId {
        row := row.(nativeId := j.power.value.nativeId);
        if !(row.core.kind == SshKey && j.power.value.outcome != Success) {
          row := row.(resource := Some(id));
        }
      }
    }

    /** The second transaction of runOperation: record what the call brought back. */
    method FinishOperation(job: Job, ghost w: nat, start: int, now: int, answer: Option<PowerResult>, id: string, taken: bool)
      requires Handed(job, w) && workers[w].progress == Sending && Timely(Now(), Finish(w, start, now, answer, id, taken))
      modifies this
      ensures Now() == Apply(old(Now()), Finish(w, start, now, answer, id, taken))
    {
      clock := now;
      workers := Moved(Now(), w, now, Gone).workers;
      if row.status != job.status || row.lease.None? || row.lease.value != job.lease || row.lease.value < now {
        return;
      }
      var j := Judge(row.core, row.actionId, row.nativeId, job.status == Dispatching, answer);
      if row.core.action == Create && j.power.Some? && (j.status == Observing || j.status == Succeeded) && j.power.value.nativeId != "" {
        if taken {
          return;
        }
        BindCreated(j, id);
      }
      SaveOutcome(start, j.status, j.power);
    }

    /** RecheckOperation. */
    method ReconcileOperation(start: int, now: int, permitted: bool, facts: Facts) returns (ok: bool)
      requires Timely(Now(), Reconcile(start, now, permitted, facts))
      modifies this
      ensures Now() == Apply(old(Now()), Reconcile(start, now, permitted, facts))
      ensures ok <==> permitted && Settleable(old(row), now) && ConnectionUnchanged(old(row).core, facts)
    {
      clock := now;
      if !permitted || row.status != Uncertain || (row.lease.Some? && row.lease.value > now) {
        return false;
      }
      if !facts.connectionEnabled || facts.connectionRevision != row.core.connectionRevision || facts.connectionDeleted {
        return false;
      }
      row := row.(status := Observing, lease := None, nextAttempt := start, deadline := Some(start + OBSERVATION), updated := start);
      log := log + [Rechecked(start)];
      return true;
    }

    method ResolveOperation(start: int, now: int, user: string, permitted: bool) returns (ok: bool)
      requires Timely(Now(), Resolve(start, now, user, permitted))
      modifies this
      ensures Now() == Apply(old(Now()), Resolve(start, now, user, permitted))
      ensures ok <==> permitted && user != old(row).core.requester && Settleable(old(row), now)
    {
      clock := now;
      if !permitted || row.core.requester == user {
        return false;
      }
      if row.status != Uncertain || (row.lease.Some? && row.lease.value > now) {
        return false;
      }
      SaveOutcome(start, Resolved, None);
      return true;
    }
  }
}
