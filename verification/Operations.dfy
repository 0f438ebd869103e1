/** The life of one cloud operation: its row, the workers that claimed it and what they
    were allowed to send (internal/core/operations.go and its statements). A step is one
    database transaction; `start` is the transaction's now(), `now` the clock read in it.
    Times are in seconds. Permission lookups and other tables enter as facts. */
module Operations {
  import opened Wrappers
  import opened Outcomes

  const LEASE: int := 180
  const RETRY: int := 5
  const OBSERVATION: int := 900
  const APPROVAL: int := 3600
  const REQUEST: int := 86400
  const DISPATCH_WINDOW: int := 30

  /** The schedule, its revision and the instant an operation was created for. */
  datatype Standing = Standing(schedule: string, revision: int, due: int)

  datatype Operation = Operation(
    core: Core, status: Status, created: int, expires: int,
    approver: Option<string>, approvalExpires: Option<int>, standing: Option<Standing>,
    resource: Option<string>, nativeId: string, actionId: string, observed: string,
    lease: Option<int>, nextAttempt: int, deadline: Option<int>, updated: int)

  /** One run of a worker on a claimed row. It acts on the row twice at most: in the
      check before the call and in recording the outcome after it; it may stop anywhere. */
  datatype Progress = Holding | Sending | Gone

  datatype Worker = Worker(claimed: int, dispatch: bool, since: int, progress: Progress) {
    function Lease(): int { claimed + LEASE }
    function Held(): Status { if dispatch then Dispatching else Observing }
  }

  datatype Request = Request(core: Core, submit: bool, nativeId: string, actionId: string)

  datatype Event =
    | Reviewed(user: string, approved: bool, at: int)
    | Sent(request: Request, worker: nat, at: int, approvalRequired: bool)
    | Rechecked(at: int)

  datatype Life = Life(row: Operation, workers: seq<Worker>, log: seq<Event>, clock: int)

  // ---- What the transactions read elsewhere ----

  datatype ResourceRow = ResourceRow(kind: Kind, identity: string, status: string, size: string, tags: string)

  datatype Facts = Facts(
    authorised: bool, actionAuthority: bool, creationPermitted: bool, capable: bool, moduleAllowed: bool, templateAllowed: bool,
    connectionEnabled: bool, connectionDeleted: bool, connectionRevision: int,
    maintenanceRevision: int, restricted: bool, overrideAllowed: bool,
    resource: Option<ResourceRow>, policyCurrent: bool, approvalRequired: bool, approverAllowed: bool,
    runtimeAvailable: bool, identitiesAllowed: bool, unowned: bool, credential: bool, requestValid: bool)

  predicate ConnectionUnchanged(core: Core, f: Facts) {
    f.connectionEnabled && !f.connectionDeleted && f.connectionRevision == core.connectionRevision
  }

  predicate MaintenanceAllows(core: Core, f: Facts, now: int) {
    && f.maintenanceRevision == core.maintenanceRevision
    && (if core.maintenanceException then f.overrideAllowed
        else !f.restricted && (core.maintenanceEnds.Some? ==> now < core.maintenanceEnds.value))
  }

  predicate ResourceUnchanged(core: Core, f: Facts) {
    core.action == Create
    || (f.resource.Some? && var r := f.resource.value;
        && r.kind == core.kind && r.identity == core.identity && r.status == core.expectedStatus
        && (core.action == Resize ==> r.size == core.expectedSize)
        && (core.action == Tags ==> r.tags == core.expectedTags))
  }

  predicate ApprovalStands(o: Operation, f: Facts, now: int) {
    (f.approvalRequired || o.approver.Some? || o.standing.Some?) ==>
      && o.approver.Some? && o.approver.value != o.core.requester && f.approverAllowed
      && o.approvalExpires.Some? && now <= o.approvalExpires.value
  }

  /** Everything runOperation's check asks before anything may be sent. */
  predicate Clear(o: Operation, dispatch: bool, f: Facts, now: int) {
    && f.authorised && ConnectionUnchanged(o.core, f) && f.runtimeAvailable
    && (o.core.action in {Delete, Create, Snapshot} ==> f.actionAuthority)
    && (dispatch ==>
          && f.creationPermitted && f.capable && f.moduleAllowed && f.templateAllowed && f.identitiesAllowed
          && MaintenanceAllows(o.core, f, now) && ResourceUnchanged(o.core, f)
          && now <= o.expires && f.policyCurrent && ApprovalStands(o, f, now)
          && (o.core.action != Create ==> f.unowned))
    && (!dispatch ==> (o.deadline.Some? ==> now <= o.deadline.value))
  }

  // ---- The statements ----

  function Save(o: Operation, start: int, status: Status, power: Option<PowerResult>): Operation {
    o.(status := status,
       actionId := if power.Some? && power.value.actionId != "" then power.value.actionId else o.actionId,
       observed := if power.Some? && power.value.status != "" then power.value.status else o.observed,
       nextAttempt := start + RETRY, updated := start,
       deadline := if o.deadline.Some? then o.deadline else Some(start + OBSERVATION),
       lease := if status == Observing then None else o.lease)
  }

  /** Does recording this judgement bind a created resource, and to which inventory row? */
  predicate Binds(o: Operation, j: Judgement) {
    o.core.action == Create && j.power.Some? && j.status in {Observing, Succeeded} && j.power.value.nativeId != ""
  }

  function Bound(o: Operation, j: Judgement, id: string): Operation {
    if !Binds(o, j) || !(o.nativeId == "" || o.nativeId == j.power.value.nativeId) then o
    else o.(nativeId := j.power.value.nativeId,
            resource := if o.core.kind == SshKey && j.power.value.outcome != Success then o.resource else Some(id))
  }

  function Recheck(o: Operation, start: int): Operation {
    o.(status := Observing, lease := None, nextAttempt := start, deadline := Some(start + OBSERVATION), updated := start)
  }

  // ---- The transactions ----

  datatype Step =
    | Review(start: int, now: int, user: string, permitted: bool, approve: bool, facts: Facts)
    | Cancel(start: int, now: int, user: string, permitted: bool)
    | Sweep(start: int, now: int)
    | Claim(now: int)
    | Check(worker: nat, start: int, now: int, facts: Facts)
    | Finish(worker: nat, start: int, now: int, answer: Option<PowerResult>, id: string, taken: bool)
    | Reconcile(start: int, now: int, permitted: bool, facts: Facts)
    | Resolve(start: int, now: int, user: string, permitted: bool)

  /** Time does not run backwards, a transaction starts before it reads the clock, and a
      worker starts a transaction only after its previous one. */
  predicate Timely(l: Life, s: Step) {
    && l.clock <= s.now
    && (!s.Claim? ==> s.start <= s.now)
    && (s.Check? || s.Finish? ==> s.worker < |l.workers| && l.workers[s.worker].since <= s.start)
  }

  predicate MayReview(o: Operation, s: Step)
    requires s.Review?
  {
    && s.permitted && s.user != o.core.requester && o.status == AwaitingApproval && s.now <= o.expires
    && (s.approve ==>
          && s.facts.creationPermitted && s.facts.moduleAllowed && MaintenanceAllows(o.core, s.facts, s.now)
          && ConnectionUnchanged(o.core, s.facts)
          && (o.core.action != Create ==> s.facts.resource.Some? && s.facts.resource.value.status == o.core.expectedStatus))
  }

  predicate Overdue(o: Operation, now: int) {
    o.status in {Queued, AwaitingApproval} && (o.expires < now || (o.approvalExpires.Some? && o.approvalExpires.value < now))
  }

  predicate Abandoned(o: Operation, now: int) {
    o.status == Dispatching && o.lease.Some? && o.lease.value < now
  }

  predicate Claimable(o: Operation, now: int) {
    o.status in {Queued, Observing} && (o.lease.Some? ==> o.lease.value <= now) && o.nextAttempt <= now
  }

  /** The fence: this worker's claim is the row's current one and has not run out. */
  predicate Holds(l: Life, w: nat, now: int)
    requires w < |l.workers|
  {
    var worker := l.workers[w];
    l.row.lease == Some(worker.Lease()) && l.row.status == worker.Held() && now <= worker.Lease()
  }

  predicate Settleable(o: Operation, now: int) {
    o.status == Uncertain && (o.lease.Some? ==> o.lease.value <= now)
  }

  function Moved(l: Life, w: nat, now: int, progress: Progress): Life
    requires w < |l.workers|
  {
    l.(workers := l.workers[w := l.workers[w].(progress := progress, since := now)])
  }

  function Checked(l: Life, w: nat, start: int, now: int, f: Facts): Life
    requires w < |l.workers|
  {
    var o, dispatch := l.row, l.workers[w].dispatch;
    if l.workers[w].progress != Holding then l
    else if !Holds(l, w, now) then Moved(l, w, now, Gone)
    else if !Clear(o, dispatch, f, now) then Moved(l, w, now, Gone).(row := Save(o, start, if dispatch then Canceled else Uncertain, None))
    else if !f.credential then Moved(l, w, now, Gone).(row := Save(o, start, if dispatch then Failed else Uncertain, None))
    else if !f.requestValid then Moved(l, w, now, Gone).(row := Save(o, start, Failed, None))
    else Moved(l, w, now, Sending).(log := l.log + [Sent(Request(o.core, dispatch, o.nativeId, o.actionId), w, now, f.approvalRequired)])
  }

  /** `taken`: binding would give the created resource a second busy operation. */
  function Completed(l: Life, w: nat, start: int, now: int, answer: Option<PowerResult>, id: string, taken: bool): Life
    requires w < |l.workers|
  {
    var o := l.row;
    var j := Verdict(o.core, o.actionId, o.nativeId, l.workers[w].dispatch, answer);
    if l.workers[w].progress != Sending then l
    else if !Holds(l, w, now) || (taken && Binds(o, j)) then Moved(l, w, now, Gone)
    else Moved(l, w, now, Gone).(row := Save(Bound(o, j, id), start, j.status, j.power))
  }

  function Apply(l: Life, s: Step): Life {
    if !Timely(l, s) then l else
    var o, t := l.row, l.(clock := s.now);
    match s
    case Review(start, now, user, permitted, approve, facts) =>
      if !MayReview(o, s) then t
      else t.(row := o.(status := if approve then Queued else Rejected, approver := Some(user), approvalExpires := Some(start + APPROVAL), updated := start),
              log := l.log + [Reviewed(user, approve, start)])
    case Cancel(start, now, user, permitted) =>
      if permitted && user == o.core.requester && o.status in {Queued, AwaitingApproval} then t.(row := Save(o, start, Canceled, None)) else t
    case Sweep(start, now) =>
      if Abandoned(o, now) then t.(row := Save(o, start, Uncertain, None))
      else if Overdue(o, now) then t.(row := Save(o, start, Expired, None))
      else t
    case Claim(now) =>
      if !Claimable(o, now) then t
      else t.(row := o.(lease := Some(now + LEASE), updated := now, status := if o.status == Queued then Dispatching else o.status),
              workers := l.workers + [Worker(now, o.status == Queued, now, Holding)])
    case Check(w, start, now, facts) => Checked(t, w, start, now, facts)
    case Finish(w, start, now, answer, id, taken) => Completed(t, w, start, now, answer, id, taken)
    case Reconcile(start, now, permitted, facts) =>
      if permitted && Settleable(o, now) && ConnectionUnchanged(o.core, facts)
      then t.(row := Recheck(o, start), log := l.log + [Rechecked(start)]) else t
    case Resolve(start, now, user, permitted) =>
      if permitted && user != o.core.requester && Settleable(o, now) then t.(row := Save(o, start, Resolved, None)) else t
  }

  // ---- Creation ----

  /** CreateOperation, followed by BindScheduledOperation for a scheduled one. */
  predicate Created(l: Life) {
    var o := l.row;
    && l.workers == [] && l.log == []
    && o.lease.None? && o.deadline.None? && o.actionId == "" && o.nativeId == o.core.target && o.updated == o.created <= l.clock
    && match o.standing
       case None =>
         o.status in {AwaitingApproval, Queued} && o.approver.None? && o.approvalExpires.None? && o.expires == o.created + REQUEST
       case Some(s) =>
         && o.status == Queued && o.expires == s.due + DISPATCH_WINDOW && o.approvalExpires == Some(o.expires)
         && s.due <= o.created && o.approver.Some? && o.approver.value != o.core.requester
  }

  ghost function Run(l: Life, steps: seq<Step>): Life {
    if steps == [] then l else Apply(Run(l, steps[..|steps| - 1]), steps[|steps| - 1])
  }
}
