/** When scans are queued, claimed, ended and published, and what operations make of the
    inventory, in terms of rows (internal/core/discovery.go:26-265 and its statements). */
module DiscoveryChecks {
  import opened Wrappers
  import opened Discovery
  import Outcomes

  /** A scan is queued exactly if its connection is there and switched on, and no other scan
      of it is queued or running. */
  lemma QueuesIff(s: State, start: int, now: int, permitted: bool)
    requires Lawful(s, Queue(start, now, permitted))
    ensures var c, t := s.scans, Apply(s, Queue(start, now, permitted)).scans;
      && (|t.jobs| > |c.jobs|
          <==> permitted && c.connection.enabled && !c.connection.deleted
               && forall i :: 0 <= i < |c.jobs| ==> c.jobs[i].status != Queued && c.jobs[i].status != Running)
      && (|t.jobs| > |c.jobs| ==> t == c.(jobs := c.jobs + [Job(start, c.connection.revision, Queued, None)]))
      && (|t.jobs| <= |c.jobs| ==> t == c)
  {
    assert forall i :: 0 <= i < |s.scans.jobs| ==> (s.scans.jobs[i].status.Active() <==> s.scans.jobs[i].status == Queued || s.scans.jobs[i].status == Running);
  }

  /** Each queued scan is claimed once, for three minutes. */
  lemma ClaimsIff(s: State, job: nat, now: int)
    requires Lawful(s, Claim(job, now)) && job < |s.scans.jobs|
    ensures var c, t := s.scans, Apply(s, Claim(job, now)).scans;
      && (|t.workers| > |c.workers| <==> c.jobs[job].status == Queued)
      && (|t.workers| > |c.workers| ==>
            && t.jobs == c.jobs[job := c.jobs[job].(status := Running, lease := Some(now + 180))]
            && t.workers == c.workers + [Worker(job, now, Claimed)] && t.connection == c.connection && t.published == c.published)
      && (|t.workers| <= |c.workers| ==> t == c)
  {
  }

  /** A running scan fails as soon as its three minutes are over; no other does. */
  lemma ExpiresIff(s: State, job: nat, start: int, now: int)
    requires Lawful(s, Expire(job, start, now)) && job < |s.scans.jobs|
    ensures var was, later := s.scans.jobs[job], Apply(s, Expire(job, start, now)).scans.jobs[job];
      && (later != was <==> was.status == Running && was.lease.Some? && was.lease.value <= start)
      && (later != was ==> later == was.(status := Failed))
  {
  }

  /** An operation of the connection has been at the provider since this instant. */
  predicate Interferes(o: OpRow, since: int) {
    o.updated >= since && !(o.status in {Outcomes.AwaitingApproval, Outcomes.Queued, Outcomes.Rejected, Outcomes.Canceled, Outcomes.Expired})
  }

  lemma OvertakenMeans(ops: map<string, OpRow>, created: int)
    ensures Overtaken(ops, created) <==> exists id :: id in ops && Interferes(ops[id], created)
  {
    forall id | id in ops ensures Touches(ops[id].status) && ops[id].updated >= created <==> Interferes(ops[id], created) {
      match ops[id].status
      case AwaitingApproval => case Queued => case Dispatching => case Observing => case Uncertain => case Succeeded =>
      case Failed => case Rejected => case Canceled => case Expired => case Resolved =>
    }
  }

  /** The scan still runs, within its lease, on a connection that is as it was. */
  predicate InTime(s: State, w: nat, start: int)
    requires w < |s.scans.workers|
  {
    var c, worker := s.scans, s.scans.workers[w];
    worker.job < |c.jobs| && c.jobs[worker.job].status == Running && c.jobs[worker.job].lease.Some? && start < c.jobs[worker.job].lease.value
  }

  predicate Unchanged(s: State, w: nat)
    requires w < |s.scans.workers| && s.scans.workers[w].job < |s.scans.jobs|
  {
    var c := s.scans;
    c.connection.enabled && !c.connection.deleted && c.connection.revision == c.jobs[c.workers[w].job].revision
  }

  ghost predicate Undisturbed(s: State, w: nat)
    requires w < |s.scans.workers| && s.scans.workers[w].job < |s.scans.jobs|
  {
    forall id :: id in s.ops ==> !Interferes(s.ops[id], s.scans.jobs[s.scans.workers[w].job].created)
  }

  /** A scan is published exactly if it is in time, the connection and the provider's module
      are unchanged, there is a snapshot, and no operation has been at the provider since
      the scan was queued. Otherwise it ends as failed, if only the snapshot is missing, or
      as canceled, and leaves no trace in the inventory. */
  lemma PublishesIff(s: State, w: nat, start: int, now: int, moduleAllowed: bool)
    requires Lawful(s, Finish(w, start, now, moduleAllowed)) && s.scans.workers[w].progress.Read?
    ensures var c, t, worker := s.scans, Apply(s, Finish(w, start, now, moduleAllowed)), s.scans.workers[w];
      && (|t.scans.published| > |c.published|
          <==> InTime(s, w, start) && Unchanged(s, w) && moduleAllowed && worker.progress.result.Some? && Undisturbed(s, w))
      && (InTime(s, w, start) ==>
            t.scans.jobs[worker.job].status
            == if !Unchanged(s, w) || !moduleAllowed then Canceled
               else if worker.progress.result.None? then Failed
               else if Undisturbed(s, w) then Succeeded else Canceled)
      && (!InTime(s, w, start) ==> t.scans.jobs == c.jobs)
      && (|t.scans.published| <= |c.published| ==> t.inventory == s.inventory && t.scans.published == c.published)
  {
    if s.scans.workers[w].job < |s.scans.jobs| {
      OvertakenMeans(s.ops, s.scans.jobs[s.scans.workers[w].job].created);
    }
  }

  /** The scan was queued under a configuration that is not the current one any more. */
  predicate Outdated(s: State, j: nat) {
    j < |s.scans.jobs| && s.scans.jobs[j].revision < s.scans.connection.revision
  }

  lemma EditOutdates(s: State, step: Step, j: nat)
    requires step.Edit? && Lawful(s, step) && j < |s.scans.jobs| && s.scans.jobs[j].revision <= s.scans.connection.revision
    ensures Outdated(Apply(s, step), j)
    ensures var c := Apply(s, step).scans.connection; c.enabled == step.enabled && (c.deleted <==> s.scans.connection.deleted || step.deleted)
  {
  }

  lemma {:induction false} OutdatedStays(s: State, steps: seq<Step>, j: nat)
    requires Outdated(s, j)
    ensures Outdated(Run(s, steps), j)
  {
    if steps != [] {
      OutdatedStays(s, steps[..|steps| - 1], j);
      OutdatedStep(Run(s, steps[..|steps| - 1]), steps[|steps| - 1], j);
    }
  }

  lemma OutdatedStep(s: State, step: Step, j: nat)
    requires Outdated(s, j)
    ensures Outdated(Apply(s, step), j)
  {
  }

  /** Once its connection has been edited, a scan that was queued before is never published,
      whenever its snapshot arrives. */
  lemma {:induction false} EditEndsScans(s: State, edit: Step, steps: seq<Step>, step: Step, j: nat)
    requires edit.Edit? && Lawful(s, edit) && j < |s.scans.jobs| && s.scans.jobs[j].revision <= s.scans.connection.revision
    requires step.Finish? && var c := Run(Apply(s, edit), steps).scans; step.worker < |c.workers| && c.workers[step.worker].job == j && c.workers[step.worker].progress.Read?
    ensures var z := Run(Apply(s, edit), steps); Apply(z, step).inventory == z.inventory && Apply(z, step).scans.published == z.scans.published
  {
    EditOutdates(s, edit, j);
    OutdatedStays(Apply(s, edit), steps, j);
    var z := Run(Apply(s, edit), steps);
    if Lawful(z, step) {
      PublishesIff(z, step.worker, step.start, step.now, step.moduleAllowed);
    }
  }

  /** A resource that is retired keeps what is known of it. */
  lemma RetiredIsKept(inventory: Inventory, snapshot: Snapshot, k: Key)
    requires k in inventory && k !in snapshot.resources
    ensures k in Published(inventory, snapshot) && Published(inventory, snapshot)[k].details == inventory[k].details
    ensures Live(Published(inventory, snapshot), k) <==> Live(inventory, k) && k.kind !in snapshot.covered
  {
  }

  /** A confirmed deletion takes its resource out of the inventory, a binding puts the
      created one in; an operation touches no other resource, and its row is stamped. */
  lemma WorkShows(s: State, step: Step, k: Key)
    requires step.Work? && Lawful(s, step)
    ensures var t := Apply(s, step);
      && (step.deletes == Some(k) ==> !Live(t.inventory, k) && (k in t.inventory <==> k in s.inventory))
      && (step.deletes.None? && step.creates == Some(k) ==> k in t.inventory && t.inventory[k] == Resource(step.details, true))
      && (step.deletes != Some(k) && step.creates != Some(k) ==> (k in t.inventory <==> k in s.inventory) && (k in s.inventory ==> t.inventory[k] == s.inventory[k]))
      && t.ops == s.ops[step.op := OpRow(step.status, step.start)] && t.scans == s.scans
  {
  }
}
