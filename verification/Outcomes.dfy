/** How a provider's answer becomes an operation's outcome: the judgement in the second
    transaction of runOperation (internal/core/operations.go:610-675). */
module Outcomes {
  import opened Wrappers

  datatype Action = Start | Shutdown | Restart | Resize | Delete | Snapshot | Tags | Create

  datatype Kind = Server | Database | SshKey | OtherKind

  datatype Status =
    | AwaitingApproval | Queued | Dispatching | Observing | Uncertain
    | Succeeded | Failed | Rejected | Canceled | Expired | Resolved
  {
    function Rank(): nat {
      match this
      case AwaitingApproval => 0
      case Queued => 1
      case Dispatching => 2
      case Observing => 3
      case Uncertain => 3
      case _ => 4
    }

    predicate Terminal() { Rank() == 4 }

    /** The statuses of ResourceOperationBusy and of the partial unique index. */
    predicate Busy() { !Terminal() }
  }

  /** What an operation was asked to do; nothing in it is ever updated. */
  datatype Core = Core(
    requester: string, action: Action, kind: Kind, target: string, expectedStatus: string,
    expectedSize: string, targetSize: string, expectedTags: string, targetTags: string, deletionImpact: string,
    identity: string, connection: string, connectionRevision: int, moduleRevision: int, runtime: string,
    maintenanceRevision: int, maintenanceException: bool, maintenanceEnds: Option<int>)

  datatype Reported = Accepted | Success | Failure | Unsure

  /** A valid, non-preview answer. `error` is empty when the provider reported none. */
  datatype PowerResult = PowerResult(outcome: Reported, actionId: string, status: string, nativeId: string, size: string, tags: string, error: string)

  /** The observed statuses from which an action may start. */
  predicate PowerAllowed(action: Action, status: string) {
    match action
    case Delete | Tags => status == "running" || status == "active" || status == "off" || status == "stopped"
    case Start | Resize | Snapshot => status == "off" || status == "stopped"
    case Shutdown | Restart => status == "running" || status == "active"
    case Create => false
  }

  predicate PowerReached(action: Action, status: string) {
    match action
    case Delete => status == "terminated" || status == "deleted"
    case Start | Restart => status == "running" || status == "active"
    case Shutdown => status == "off" || status == "stopped"
    case _ => false
  }

  predicate ResourceActionReached(kind: Kind, action: Action, status: string) {
    if kind == Database then (action == Start && status == "available") || (action == Shutdown && status == "stopped")
    else PowerReached(action, status)
  }

  datatype Judgement = Judgement(status: Status, power: Option<PowerResult>)

  function Initial(dispatch: bool, answer: Option<PowerResult>): Status {
    match answer
    case None => if dispatch then Uncertain else Observing
    case Some(p) =>
      match p.outcome
      case Accepted => Observing
      case Success => Succeeded
      case Failure => Failed
      case Unsure => Uncertain
  }

  /** The requested state, as read back, that makes a success believable. */
  predicate StateConfirmed(core: Core, p: PowerResult) {
    match core.action
    case Start | Shutdown | Restart => ResourceActionReached(core.kind, core.action, p.status)
    case Resize => p.size == core.targetSize
    case Delete => PowerReached(Delete, p.status)
    case Snapshot => p.status == "snapshot_available"
    case Tags => p.tags == core.targetTags
    case Create => if core.kind == SshKey then p.status == "present" else PowerReached(Start, p.status)
  }

  /** The provider names what it made, and does not change its mind about it. */
  predicate IdentityConfirmed(core: Core, actionId: string, nativeId: string, p: PowerResult) {
    match core.action
    case Snapshot => p.actionId != "" && (actionId == "" || p.actionId == actionId)
    case Create => p.nativeId != "" && (nativeId == "" || p.nativeId == nativeId)
    case _ => true
  }

  /** The judgement, in the order of the code. */
  method Judge(core: Core, actionId: string, nativeId: string, dispatch: bool, answer: Option<PowerResult>) returns (j: Judgement)
    ensures j == Verdict(core, actionId, nativeId, dispatch, answer)
    ensures Decides(core, actionId, nativeId, dispatch, answer, j.status)
  {
    VerdictDecides(core, actionId, nativeId, dispatch, answer);
    var status, power := Uncertain, answer;
    if answer.Some? {
      status := match answer.value.outcome case Accepted => Observing case Success => Succeeded case Failure => Failed case Unsure => Uncertain;
    } else if !dispatch {
      status := Observing;
    }
    if core.action in {Start, Shutdown, Restart} && status == Succeeded && (power.None? || !ResourceActionReached(core.kind, core.action, power.value.status)) {
      status := Uncertain;
    }
    if core.action == Snapshot && (status == Succeeded || status == Observing) && power.Some? {
      if power.value.error == "" && (power.value.actionId == "" || (actionId != "" && power.value.actionId != actionId)
                                     || (status == Succeeded && power.value.status != "snapshot_available")) {
        status, power := Uncertain, None;
      }
    }
    if core.action == Tags && status == Succeeded && (power.None? || power.value.tags != core.targetTags) {
      status := Uncertain;
    }
    if core.action == Resize && status == Succeeded && (power.None? || power.value.size != core.targetSize) {
      status := Uncertain;
    }
    if core.action == Delete && status == Succeeded && (power.None? || !PowerReached(Delete, power.value.status)) {
      status := Uncertain;
    }
    if core.action == Create && power.Some? {
      if dispatch && core.kind == SshKey && status == Succeeded {
        status, power := Observing, Some(power.value.(outcome := Accepted));
      }
      var p := power.value;
      if (p.nativeId != "" && nativeId != "" && p.nativeId != nativeId)
         || ((status == Succeeded || status == Observing) && p.error == "" && p.nativeId == "")
         || (status == Succeeded && ((core.kind == SshKey && p.status != "present") || (core.kind != SshKey && !PowerReached(Start, p.status))))
      {
        status, power := Uncertain, None;
      }
    }
    return Judgement(status, power);
  }

  /** Reference: what the answer claims, unless a claim of progress goes unconfirmed.
      A success is recorded exactly when the provider claims one and its own reading
      confirms state and identity -- except that an answer carrying an error is not asked
      for a snapshot's state or identity, nor for the identity of a created resource. */
  function Verdict(core: Core, actionId: string, nativeId: string, dispatch: bool, answer: Option<PowerResult>): (j: Judgement)
    ensures j.status in {Observing, Uncertain, Succeeded, Failed}
    ensures j.status == Succeeded <==>
      && answer.Some? && answer.value.outcome == Success
      && !(dispatch && core.action == Create && core.kind == SshKey)
      && (StateConfirmed(core, answer.value) || (core.action == Snapshot && answer.value.error != ""))
      && (IdentityConfirmed(core, actionId, nativeId, answer.value)
          || (core.action == Snapshot && answer.value.error != "")
          || (core.action == Create && answer.value.error != "" && answer.value.nativeId == ""))
  {
    var claimed := Initial(dispatch, answer);
    if answer.None? then Judgement(claimed, None)
    else
      var p := answer.value;
      match core.action
      case Snapshot =>
        if claimed in {Succeeded, Observing} && p.error == "" && !(IdentityConfirmed(core, actionId, nativeId, p) && (claimed == Succeeded ==> StateConfirmed(core, p)))
        then Judgement(Uncertain, None) else Judgement(claimed, answer)
      case Create =>
        var imported := dispatch && core.kind == SshKey && claimed == Succeeded;
        var status := if imported then Observing else claimed;
        if (p.nativeId != "" && nativeId != "" && p.nativeId != nativeId)
           || (status in {Succeeded, Observing} && p.error == "" && p.nativeId == "")
           || (status == Succeeded && !StateConfirmed(core, p))
        then Judgement(Uncertain, None) else Judgement(status, Some(if imported then p.(outcome := Accepted) else p))
      case _ =>
        Judgement(if claimed == Succeeded && !StateConfirmed(core, p) then Uncertain else claimed, answer)
  }

  // ---- By what the provider reports ----

  /** The answer names another resource than an earlier one did. */
  predicate Clashes(core: Core, nativeId: string, p: PowerResult) {
    core.action == Create && p.nativeId != "" && nativeId != "" && p.nativeId != nativeId
  }

  /** Without an error to excuse it, the answer fails to name what was made, or names
      another snapshot action. */
  predicate Unnamed(core: Core, actionId: string, p: PowerResult) {
    p.error == "" && ((core.action == Create && p.nativeId == "") || (core.action == Snapshot && (p.actionId == "" || (actionId != "" && p.actionId != actionId))))
  }

  /** The reading shows what was asked for. */
  predicate Shows(core: Core, p: PowerResult) {
    match core.action
    case Start => if core.kind == Database then p.status == "available" else p.status in {"running", "active"}
    case Restart => core.kind != Database && p.status in {"running", "active"}
    case Shutdown => if core.kind == Database then p.status == "stopped" else p.status in {"off", "stopped"}
    case Delete => p.status in {"terminated", "deleted"}
    case Resize => p.size == core.targetSize
    case Tags => p.tags == core.targetTags
    case Snapshot => p.status == "snapshot_available" || p.error != ""
    case Create => if core.kind == SshKey then p.status == "present" else p.status in {"running", "active"}
  }

  /** What is recorded for an answer, or for none: a failure only if one is reported,
      progress only if it is named, success only if it is shown, and doubt otherwise. */
  predicate Decides(core: Core, actionId: string, nativeId: string, dispatch: bool, answer: Option<PowerResult>, status: Status) {
    match answer
    case None => status == (if dispatch then Uncertain else Observing)
    case Some(p) =>
      if Clashes(core, nativeId, p) then status == Uncertain
      else match p.outcome
        case Failure => status == Failed
        case Unsure => status == Uncertain
        case Accepted => status == (if Unnamed(core, actionId, p) then Uncertain else Observing)
        case Success =>
          status == (if Unnamed(core, actionId, p) then Uncertain
                     else if dispatch && core.action == Create && core.kind == SshKey then Observing
                     else if Shows(core, p) then Succeeded else Uncertain)
  }

  lemma VerdictDecides(core: Core, actionId: string, nativeId: string, dispatch: bool, answer: Option<PowerResult>)
    ensures Decides(core, actionId, nativeId, dispatch, answer, Verdict(core, actionId, nativeId, dispatch, answer).status)
  {
  }

  /** What a start reaches a shutdown may begin with, and the other way round; so neither
      can be asked for twice in a row. */
  lemma StartAndShutdownAlternate(status: string)
    ensures PowerReached(Start, status) <==> PowerAllowed(Shutdown, status)
    ensures PowerReached(Shutdown, status) <==> PowerAllowed(Start, status)
    ensures !(PowerAllowed(Start, status) && PowerAllowed(Shutdown, status))
    ensures PowerAllowed(Delete, status) <==> PowerAllowed(Start, status) || PowerAllowed(Shutdown, status)
  {
  }

  /** The exception is real: a snapshot nobody has seen is recorded as taken. */
  lemma UnseenSnapshotSucceeds(core: Core) returns (p: PowerResult)
    requires core.action == Snapshot
    ensures Verdict(core, "", "", true, Some(p)).status == Succeeded && !StateConfirmed(core, p) && !IdentityConfirmed(core, "", "", p)
  {
    p := PowerResult(Success, "", "", "", "", "", "observation_failed");
  }

  /** So is the other one: a create that names no resource is recorded as succeeded, and
      nothing is bound. */
  lemma UnnamedCreateSucceeds(core: Core) returns (p: PowerResult)
    requires core.action == Create && core.kind != SshKey
    ensures Verdict(core, "", "", true, Some(p)).status == Succeeded && p.nativeId == "" && !IdentityConfirmed(core, "", "", p)
  {
    p := PowerResult(Success, "", "running", "", "", "", "observation_failed");
  }

  /** Every answer with this error that is recorded as a success confirms it. */
  ghost predicate SuccessIsConfirmed(core: Core, actionId: string, nativeId: string, dispatch: bool, error: string) {
    forall p: PowerResult :: p.error == error && Verdict(core, actionId, nativeId, dispatch, Some(p)).status == Succeeded ==>
      StateConfirmed(core, p) && IdentityConfirmed(core, actionId, nativeId, p)
  }

  /** A recorded success is a confirmed one exactly if the answer carries no error, or the
      action is neither a snapshot nor a create (a key import never succeeds at dispatch). */
  lemma SuccessIsConfirmedIff(core: Core, actionId: string, nativeId: string, dispatch: bool, error: string)
    ensures SuccessIsConfirmed(core, actionId, nativeId, dispatch, error)
       <==> error == "" || core.action !in {Snapshot, Create} || (core.action == Create && core.kind == SshKey && dispatch)
  {
    var unseen := PowerResult(Success, "", if core.kind == SshKey then "present" else "running", "", "", "", error);
    if error != "" && (core.action == Snapshot || (core.action == Create && !(core.kind == SshKey && dispatch))) {
      assert Verdict(core, actionId, nativeId, dispatch, Some(unseen)).status == Succeeded;
      assert !IdentityConfirmed(core, actionId, nativeId, unseen);
    }
  }
}
