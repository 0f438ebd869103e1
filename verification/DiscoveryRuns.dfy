/** Inventory never goes back in time: what holds over every run of scans, operations and
    edits of a connection, with interrupted and late workers. */
module DiscoveryRuns {
  import opened Wrappers
  import opened Discovery
  import Outcomes

  // ---- Jobs ----

  ghost predicate OneActive(c: Scans) {
    forall i :: 0 <= i < |c.jobs| - 1 ==> !c.jobs[i].status.Active()
  }

  /** A worker's claim, and then its read, come after its job was queued. */
  ghost predicate OfJob(c: Scans, clock: int, w: Worker) {
    w.job < |c.jobs| && c.jobs[w.job].status != Queued && c.jobs[w.job].created <= Began(w) <= w.since <= clock
  }

  function Began(w: Worker): int {
    if w.progress.Read? then w.progress.at else w.since
  }

  /** Publications are in the order of their jobs; whoever works on a later job began after
      an earlier one was published. */
  ghost predicate Order(c: Scans, clock: int) {
    && (forall i :: 0 <= i < |c.published| ==> c.published[i].readAt <= c.published[i].at <= clock)
    && (forall i :: 0 <= i < |c.published| ==> c.published[i].job < |c.jobs| && !c.jobs[c.published[i].job].status.Active())
    && (forall i, j :: 0 <= i < j < |c.published| ==> c.published[i].at <= c.published[j].readAt)
    && (forall i, w :: 0 <= i < |c.published| && 0 <= w < |c.workers| && c.workers[w].job > c.published[i].job ==> c.published[i].at <= Began(c.workers[w]))
  }

  ghost predicate Queueing(c: Scans, clock: int) {
    && OneActive(c) && Order(c, clock)
    && (forall i :: 0 <= i < |c.jobs| ==> c.jobs[i].created <= clock)
    && (forall w :: 0 <= w < |c.workers| ==> OfJob(c, clock, c.workers[w]))
  }

  lemma QueueingWaits(c: Scans, clock: int, later: int)
    requires Queueing(c, clock) && clock <= later
    ensures Queueing(c, later)
  {
    forall w | 0 <= w < |c.workers| ensures OfJob(c, later, c.workers[w]) {
      assert OfJob(c, clock, c.workers[w]);
    }
  }

  lemma QueueingQueue(c: Scans, clock: int, job: Job)
    requires Queueing(c, clock) && !AnyActive(c.jobs) && job.created <= clock && job.status == Queued
    ensures Queueing(c.(jobs := c.jobs + [job]), clock)
  {
    forall w | 0 <= w < |c.workers| ensures OfJob(c.(jobs := c.jobs + [job]), clock, c.workers[w]) {
      assert OfJob(c, clock, c.workers[w]);
    }
  }

  lemma QueueingClaim(c: Scans, clock: int, j: nat, lease: Option<int>)
    requires Queueing(c, clock) && j < |c.jobs| && c.jobs[j].status == Queued
    ensures Queueing(c.(jobs := c.jobs[j := c.jobs[j].(status := Running, lease := lease)], workers := c.workers + [Worker(j, clock, Claimed)]), clock)
  {
    var t := c.(jobs := c.jobs[j := c.jobs[j].(status := Running, lease := lease)], workers := c.workers + [Worker(j, clock, Claimed)]);
    forall w | 0 <= w < |t.workers| ensures OfJob(t, clock, t.workers[w]) {
      assert w < |c.workers| ==> OfJob(c, clock, c.workers[w]);
    }
  }

  lemma QueueingMoved(c: Scans, clock: int, w: nat, progress: Progress)
    requires Queueing(c, clock) && w < |c.workers|
    requires progress.Read? ==> progress.at == c.workers[w].since && !c.workers[w].progress.Read?
    ensures Queueing(Moved(c, w, clock, progress), clock)
  {
    var t := Moved(c, w, clock, progress);
    assert OfJob(c, clock, c.workers[w]);
    forall v | 0 <= v < |t.workers| ensures OfJob(t, clock, t.workers[v]) {
      assert OfJob(c, clock, c.workers[v]);
    }
  }

  lemma QueueingEnded(c: Scans, clock: int, j: nat, status: JobStatus)
    requires Queueing(c, clock) && j < |c.jobs| && !status.Active()
    ensures Queueing(Ended(c, j, status), clock)
  {
    forall w | 0 <= w < |c.workers| ensures OfJob(Ended(c, j, status), clock, c.workers[w]) {
      assert OfJob(c, clock, c.workers[w]);
    }
  }

  lemma QueueingAppend(c: Scans, clock: int, p: Publication)
    requires Queueing(c, clock) && p.readAt <= p.at <= clock && p.job < |c.jobs| && !c.jobs[p.job].status.Active()
    requires forall v :: 0 <= v < |c.workers| ==> c.workers[v].job <= p.job
    requires forall i :: 0 <= i < |c.published| ==> c.published[i].at <= p.readAt
    ensures Queueing(c.(published := c.published + [p]), clock)
  {
    forall w | 0 <= w < |c.workers| ensures OfJob(c.(published := c.published + [p]), clock, c.workers[w]) {
      assert OfJob(c, clock, c.workers[w]);
    }
  }

  /** The running job is the last one, so what it publishes was read after all before. */
  lemma QueueingPublish(c: Scans, clock: int, w: nat, snapshot: Snapshot)
    requires Queueing(c, clock) && w < |c.workers| && c.workers[w].progress.Read? && c.workers[w].job < |c.jobs| && c.jobs[c.workers[w].job].status == Running
    ensures var j := c.workers[w].job;
      Queueing(Ended(Moved(c, w, clock, Gone), j, Succeeded).(published := c.published + [Publication(j, c.workers[w].progress.at, clock, snapshot)]), clock)
  {
    var j := c.workers[w].job;
    assert OfJob(c, clock, c.workers[w]) && j == |c.jobs| - 1;
    QueueingMoved(c, clock, w, Gone);
    var moved := Moved(c, w, clock, Gone);
    QueueingEnded(moved, clock, j, Succeeded);
    forall v | 0 <= v < |moved.workers| ensures moved.workers[v].job <= j {
      assert OfJob(moved, clock, moved.workers[v]);
    }
    QueueingAppend(Ended(moved, j, Succeeded), clock, Publication(j, c.workers[w].progress.at, clock, snapshot));
  }

  lemma QueueingFinish(s: State, w: nat, start: int, moduleAllowed: bool)
    requires Queueing(s.scans, s.clock) && w < |s.scans.workers|
    ensures Queueing(Finished(s, w, start, s.clock, moduleAllowed).scans, s.clock)
  {
    var c, worker := s.scans, s.scans.workers[w];
    QueueingMoved(c, s.clock, w, Gone);
    if worker.progress.Read? && worker.job < |c.jobs| {
      QueueingEnded(Moved(c, w, s.clock, Gone), s.clock, worker.job, Canceled);
      QueueingEnded(Moved(c, w, s.clock, Gone), s.clock, worker.job, Failed);
      if c.jobs[worker.job].status == Running && worker.progress.result.Some? {
        QueueingPublish(c, s.clock, w, worker.progress.result.value);
      }
    }
  }

  lemma QueueingStep(s: State, step: Step)
    requires Queueing(s.scans, s.clock)
    ensures Queueing(Apply(s, step).scans, Apply(s, step).clock)
  {
    if Lawful(s, step) {
      QueueingWaits(s.scans, s.clock, step.now);
      match step
      case Queue(_, _, _) => QueueingJobs(s, step);
      case Claim(_, _) => QueueingJobs(s, step);
      case Expire(_, _, _) => QueueingExpire(s, step);
      case Fetch(w, now, result) =>
        if s.scans.workers[w].progress == Claimed { QueueingMoved(s.scans, now, w, Read(s.scans.workers[w].since, result)); }
      case Finish(w, start, now, moduleAllowed) => QueueingFinish(s.(clock := now), w, start, moduleAllowed);
      case Edit(_, _, now) => QueueingEdit(s.scans, now, Apply(s, step).scans);
      case _ =>
    }
  }

  lemma QueueingJobs(s: State, step: Step)
    requires Queueing(s.scans, step.now) && Lawful(s, step) && (step.Queue? || step.Claim?)
    ensures Queueing(Apply(s, step).scans, step.now)
  {
    if Apply(s, step).scans != s.scans {
      if step.Queue? {
        QueueingQueue(s.scans, step.now, Job(step.start, s.scans.connection.revision, Queued, None));
      } else {
        QueueingClaim(s.scans, step.now, step.job, Some(step.now + LEASE));
      }
    }
  }

  lemma QueueingExpire(s: State, step: Step)
    requires Queueing(s.scans, step.now) && Lawful(s, step) && step.Expire?
    ensures Queueing(Apply(s, step).scans, step.now)
  {
    if Apply(s, step).scans != s.scans {
      QueueingEnded(s.scans, step.now, step.job, Failed);
    }
  }

  lemma QueueingEdit(c: Scans, clock: int, t: Scans)
    requires Queueing(c, clock) && t.jobs == c.jobs && t.workers == c.workers && t.published == c.published
    ensures Queueing(t, clock)
  {
    forall w | 0 <= w < |c.workers| ensures OfJob(t, clock, c.workers[w]) {
      assert OfJob(c, clock, c.workers[w]);
    }
  }

  // ---- Snapshots ----

  /** What a snapshot shows against the provider's changes came before them. */
  ghost predicate Shows(w: World, snapshot: Snapshot, at: int) {
    && snapshot.Covers()
    && (forall k :: k in snapshot.resources && k in w.gone ==> at <= w.gone[k])
    && (forall k :: k in w.there && k !in w.gone && k.kind in snapshot.covered && k !in snapshot.resources ==> at <= w.there[k])
  }

  ghost predicate Seen(w: World, clock: int, worker: Worker) {
    worker.progress.Read? && worker.progress.result.Some? ==> worker.progress.at <= clock && Shows(w, worker.progress.result.value, worker.progress.at)
  }

  ghost predicate Snapshots(workers: seq<Worker>, w: World, clock: int) {
    forall v :: 0 <= v < |workers| ==> Seen(w, clock, workers[v])
  }

  /** The provider changes now, after every read so far. */
  lemma SnapshotsWorld(workers: seq<Worker>, w: World, clock: int, k: Key, now: int, maker: map<Key, string>)
    requires Snapshots(workers, w, clock) && clock <= now
    ensures Snapshots(workers, w.(gone := w.gone[k := now]), now) && Snapshots(workers, w.(there := w.there[k := now], maker := maker), now)
  {
    forall v | 0 <= v < |workers|
      ensures Seen(w.(gone := w.gone[k := now]), now, workers[v]) && Seen(w.(there := w.there[k := now], maker := maker), now, workers[v])
    {
      assert Seen(w, clock, workers[v]);
    }
  }

  /** Only a fetch gives a worker a snapshot. */
  ghost predicate ReadsKept(before: seq<Worker>, after: seq<Worker>) {
    && |before| <= |after|
    && forall v :: 0 <= v < |after| ==> !after[v].progress.Read? || (v < |before| && after[v] == before[v])
  }

  lemma SnapshotsKept(before: seq<Worker>, after: seq<Worker>, w: World, z: World, clock: int, now: int)
    requires Snapshots(before, w, clock) && z.gone == w.gone && z.there == w.there && clock <= now && ReadsKept(before, after)
    ensures Snapshots(after, z, now)
  {
    forall v | 0 <= v < |after| ensures Seen(z, now, after[v]) {
      if after[v].progress.Read? {
        assert Seen(w, clock, before[v]);
      }
    }
  }

  lemma SnapshotsFetch(workers: seq<Worker>, w: World, clock: int, v: nat, now: int, result: Option<Snapshot>)
    requires Snapshots(workers, w, clock) && clock <= now && v < |workers|
    requires workers[v].since <= now && (result.Some? ==> Truthful(w, result.value, workers[v].since))
    ensures Snapshots(workers[v := workers[v].(progress := Read(workers[v].since, result), since := now)], w, now)
  {
    var after := workers[v := workers[v].(progress := Read(workers[v].since, result), since := now)];
    forall u | 0 <= u < |after| ensures Seen(w, now, after[u]) {
      assert Seen(w, clock, workers[u]);
    }
  }

  lemma SnapshotsStep(s: State, step: Step)
    requires Snapshots(s.scans.workers, s.world, s.clock) && Queueing(s.scans, s.clock)
    ensures Snapshots(Apply(s, step).scans.workers, Apply(s, step).world, Apply(s, step).clock)
  {
    if Lawful(s, step) {
      var t := Apply(s, step);
      match step
      case Vanish(k, now) => SnapshotsWorld(s.scans.workers, s.world, s.clock, k, now, s.world.maker);
      case Appear(k, _, now) => SnapshotsWorld(s.scans.workers, s.world, s.clock, k, now, t.world.maker);
      case Fetch(w, now, result) =>
        SnapshotsKept(s.scans.workers, s.scans.workers, s.world, s.world, s.clock, now);
        if s.scans.workers[w].progress == Claimed {
          assert OfJob(s.scans, s.clock, s.scans.workers[w]);
          SnapshotsFetch(s.scans.workers, s.world, s.clock, w, now, result);
        }
      case Finish(_, _, _, _) => SnapshotsFinish(s, step);
      case _ => SnapshotsKept(s.scans.workers, t.scans.workers, s.world, t.world, s.clock, step.now);
    }
  }

  lemma SnapshotsFinish(s: State, step: Step)
    requires Snapshots(s.scans.workers, s.world, s.clock) && Lawful(s, step) && step.Finish?
    ensures Snapshots(Apply(s, step).scans.workers, Apply(s, step).world, Apply(s, step).clock)
  {
    SnapshotsKept(s.scans.workers, Apply(s, step).scans.workers, s.world, s.world, s.clock, step.now);
  }

  // ---- Confirmed deletions and creations ----

  /** A resource an operation has confirmed as deleted. */
  ghost predicate Deleted(s: State, k: Key)
    requires k in s.world.deletedBy
  {
    var op := s.world.deletedBy[k];
    && k in s.world.gone && op in s.ops && !Live(s.inventory, k)
    && s.ops[op].status == Outcomes.Succeeded && s.world.gone[k] <= s.ops[op].updated
  }

  /** A resource bound by an operation that still observes it or is over. */
  ghost predicate Bound(s: State, k: Key)
    requires k in s.world.boundBy
  {
    var op := s.world.boundBy[k];
    && k in s.world.there && op in s.ops && s.ops[op].status in {Outcomes.Observing, Outcomes.Succeeded, Outcomes.Failed}
    && s.world.there[k] <= s.ops[op].updated && (k !in s.world.gone ==> Live(s.inventory, k))
  }

  ghost predicate Confirmed(s: State) {
    && (forall k :: k in s.world.deletedBy ==> Deleted(s, k))
    && (forall k :: k in s.world.boundBy ==> Bound(s, k))
  }

  /** A snapshot that no operation has overtaken agrees with all that is confirmed. */
  lemma ConfirmedPublish(s: State, snapshot: Snapshot, at: int, created: int)
    requires Confirmed(s) && Shows(s.world, snapshot, at) && created <= at && !Overtaken(s.ops, created)
    ensures Confirmed(s.(inventory := Published(s.inventory, snapshot)))
  {
    var t := s.(inventory := Published(s.inventory, snapshot));
    forall k | k in s.world.deletedBy ensures Deleted(t, k) {
      assert Deleted(s, k);
      PublishedIsTheSnapshot(s.inventory, snapshot, k);
    }
    forall k | k in s.world.boundBy ensures Bound(t, k) {
      assert Bound(s, k);
      PublishedIsTheSnapshot(s.inventory, snapshot, k);
    }
  }

  lemma ConfirmedFinish(s: State, w: nat, start: int, now: int, moduleAllowed: bool)
    requires Confirmed(s) && Queueing(s.scans, s.clock) && Snapshots(s.scans.workers, s.world, s.clock) && w < |s.scans.workers|
    ensures Confirmed(Finished(s, w, start, now, moduleAllowed))
  {
    var worker, t := s.scans.workers[w], Finished(s, w, start, now, moduleAllowed);
    assert OfJob(s.scans, s.clock, worker) && Seen(s.world, s.clock, worker);
    var u := s;
    if worker.progress.Read? && Verdict(s.scans, s.ops, w, start, moduleAllowed) == Succeeded {
      u := s.(inventory := Published(s.inventory, worker.progress.result.value));
      ConfirmedPublish(s, worker.progress.result.value, worker.progress.at, s.scans.jobs[worker.job].created);
    }
    ConfirmedKept(u, t);
  }

  lemma ConfirmedKept(s: State, t: State)
    requires Confirmed(s) && t.inventory == s.inventory && t.ops == s.ops && t.world == s.world
    ensures Confirmed(t)
  {
    forall k | k in t.world.deletedBy ensures Deleted(t, k) {
      assert Deleted(s, k);
    }
    forall k | k in t.world.boundBy ensures Bound(t, k) {
      assert Bound(s, k);
    }
  }

  lemma DeletedWork(s: State, op: string, start: int, status: Outcomes.Status, deletes: Option<Key>, creates: Option<Key>, details: string, k: Key)
    requires Confirmed(s) && Working(s, op, start, status, deletes, creates) && k in Worked(s, op, start, status, deletes, creates, details).world.deletedBy
    ensures Deleted(Worked(s, op, start, status, deletes, creates, details), k)
  {
    if k in s.world.deletedBy {
      assert Deleted(s, k);
    }
  }

  lemma BoundWork(s: State, op: string, start: int, status: Outcomes.Status, deletes: Option<Key>, creates: Option<Key>, details: string, k: Key)
    requires Confirmed(s) && Working(s, op, start, status, deletes, creates) && k in Worked(s, op, start, status, deletes, creates, details).world.boundBy
    ensures Bound(Worked(s, op, start, status, deletes, creates, details), k)
  {
    if k in s.world.boundBy {
      assert Bound(s, k);
    }
  }

  lemma ConfirmedWork(s: State, op: string, start: int, status: Outcomes.Status, deletes: Option<Key>, creates: Option<Key>, details: string)
    requires Confirmed(s) && Working(s, op, start, status, deletes, creates)
    ensures Confirmed(Worked(s, op, start, status, deletes, creates, details))
  {
    var t := Worked(s, op, start, status, deletes, creates, details);
    forall k | k in t.world.deletedBy ensures Deleted(t, k) {
      DeletedWork(s, op, start, status, deletes, creates, details, k);
    }
    forall k | k in t.world.boundBy ensures Bound(t, k) {
      BoundWork(s, op, start, status, deletes, creates, details, k);
    }
  }

  lemma ConfirmedWorld(s: State, t: State)
    requires Confirmed(s) && t.inventory == s.inventory && t.ops == s.ops
    requires t.world.deletedBy == s.world.deletedBy && t.world.boundBy == s.world.boundBy
    requires forall k :: k in s.world.gone ==> k in t.world.gone && t.world.gone[k] == s.world.gone[k]
    requires forall k :: k in s.world.there ==> k in t.world.there && t.world.there[k] == s.world.there[k]
    ensures Confirmed(t)
  {
    forall k | k in t.world.deletedBy ensures Deleted(t, k) {
      assert Deleted(s, k);
    }
    forall k | k in t.world.boundBy ensures Bound(t, k) {
      assert Bound(s, k);
    }
  }

  lemma ConfirmedStep(s: State, step: Step)
    requires Confirmed(s) && Queueing(s.scans, s.clock) && Snapshots(s.scans.workers, s.world, s.clock)
    ensures Confirmed(Apply(s, step))
  {
    if Lawful(s, step) {
      var u := s.(clock := step.now);
      ConfirmedKept(s, u);
      match step
      case Finish(w, start, now, moduleAllowed) =>
        QueueingWaits(s.scans, s.clock, now);
        SnapshotsKept(s.scans.workers, s.scans.workers, s.world, s.world, s.clock, now);
        ConfirmedFinish(u, w, start, now, moduleAllowed);
      case Work(op, start, _, status, deletes, creates, details) =>
        assert Working(u, op, start, status, deletes, creates);
        ConfirmedWork(u, op, start, status, deletes, creates, details);
      case Vanish(_, _) => ConfirmedWorld(s, Apply(s, step));
      case Appear(_, _, _) => ConfirmedWorld(s, Apply(s, step));
      case _ => ConfirmedKept(s, Apply(s, step));
    }
  }

  // ---- Whole runs ----

  ghost predicate Sound(s: State) {
    && Queueing(s.scans, s.clock) && Snapshots(s.scans.workers, s.world, s.clock) && Confirmed(s)
    && (forall k :: k in s.world.there ==> s.world.there[k] <= s.clock)
  }

  lemma {:induction false} SoundFrom(s: State, steps: seq<Step>)
    requires Sound(s)
    ensures Sound(Run(s, steps))
  {
    if steps != [] {
      var before, step := Run(s, steps[..|steps| - 1]), steps[|steps| - 1];
      SoundFrom(s, steps[..|steps| - 1]);
      QueueingStep(before, step);
      SnapshotsStep(before, step);
      ConfirmedStep(before, step);
      AppearancesArePast(before, step);
    }
  }

  lemma SoundAlways(s: State, steps: seq<Step>)
    requires Fresh(s)
    ensures Sound(Run(s, steps))
  {
    SoundFrom(s, steps);
  }

  lemma AppearancesArePast(s: State, step: Step)
    requires forall k :: k in s.world.there ==> s.world.there[k] <= s.clock
    ensures forall k :: k in Apply(s, step).world.there ==> Apply(s, step).world.there[k] <= Apply(s, step).clock
  {
  }

  /** Snapshots are published in the order in which they were read: each was read after
      the one before it had been published. */
  lemma {:induction false} PublishedInReadOrder(s: State, steps: seq<Step>, i: nat, j: nat)
    requires Fresh(s) && i < j < |Run(s, steps).scans.published|
    ensures var published := Run(s, steps).scans.published; published[i].readAt <= published[i].at <= published[j].readAt
  {
    SoundAlways(s, steps);
  }

  /** A resource whose deletion an operation has confirmed is not live, until an operation
      that creates it binds it again (see Deletions); no snapshot ever resurrects it. */
  lemma {:induction false} DeletedStaysDeleted(s: State, steps: seq<Step>, k: Key)
    requires Fresh(s) && k in Run(s, steps).world.deletedBy
    ensures !Live(Run(s, steps).inventory, k)
  {
    SoundAlways(s, steps);
    assert Deleted(Run(s, steps), k);
  }

  /** No snapshot retires a resource that an operation has bound, unless the provider has
      deleted it, or the operation itself has become uncertain. */
  lemma {:induction false} BoundStaysLive(s: State, steps: seq<Step>, k: Key)
    requires Fresh(s) && k in Run(s, steps).world.boundBy && k !in Run(s, steps).world.gone
    ensures Live(Run(s, steps).inventory, k)
  {
    SoundAlways(s, steps);
    assert Bound(Run(s, steps), k);
  }

  lemma {:induction false} AtMostOneActive(s: State, steps: seq<Step>, i: nat, j: nat)
    requires Fresh(s) && i < j < |Run(s, steps).scans.jobs|
    ensures !(Run(s, steps).scans.jobs[i].status.Active() && Run(s, steps).scans.jobs[j].status.Active())
  {
    SoundAlways(s, steps);
  }

  /** Nothing but an operation's outcome or a successful scan changes the inventory; in
      particular an expired, failed, canceled or overtaken scan does not. */
  lemma OnlySuccessPublishes(s: State, step: Step)
    requires !step.Work?
    ensures var t := Apply(s, step);
      || (t.inventory == s.inventory && t.scans.published == s.scans.published)
      || (step.Finish? && step.worker < |s.scans.workers| && var w := s.scans.workers[step.worker];
          && w.progress.Read? && w.progress.result.Some? && w.job < |s.scans.jobs|
          && s.scans.jobs[w.job].status == Running && s.scans.jobs[w.job].lease.Some? && step.start < s.scans.jobs[w.job].lease.value
          && !Overtaken(s.ops, s.scans.jobs[w.job].created)
          && t.inventory == Published(s.inventory, w.progress.result.value) && t.scans.jobs[w.job].status == Succeeded
          && t.scans.published == s.scans.published + [Publication(w.job, w.progress.at, step.now, w.progress.result.value)])
  {
  }

  /** What can happen to the inventory: a published scan, or a confirmed outcome. */
  datatype Change = Scan(snapshot: Snapshot) | Deletion(key: Key) | Creation(key: Key, details: string)

  function Changed(inventory: Inventory, c: Change): Inventory {
    match c
    case Scan(snapshot) => Discovery.Published(inventory, snapshot)
    case Deletion(key) => if key in inventory then inventory[key := Resource("deleted", false)] else inventory
    case Creation(key, details) => inventory[key := Resource(details, true)]
  }

  function Replayed(inventory: Inventory, changes: seq<Change>): Inventory {
    if changes == [] then inventory else Changed(Replayed(inventory, changes[..|changes| - 1]), changes[|changes| - 1])
  }

  /** The scans among the changes, in their order. */
  function ScansIn(changes: seq<Change>): seq<Snapshot> {
    if changes == [] then []
    else ScansIn(changes[..|changes| - 1]) + if changes[|changes| - 1].Scan? then [changes[|changes| - 1].snapshot] else []
  }

  function SnapshotsOf(published: seq<Publication>): seq<Snapshot> {
    seq(|published|, i requires 0 <= i < |published| => published[i].snapshot)
  }

  /** What a step adds to the changes: the scan it publishes, or the deletion or creation
      that the operation of a Work step confirms. */
  function ChangeBy(s: State, step: Step): seq<Change> {
    if !Lawful(s, step) then []
    else match step
      case Work(_, _, _, _, deletes, creates, details) =>
        if deletes.Some? then [Deletion(deletes.value)] else if creates.Some? then [Creation(creates.value, details)] else []
      case Finish(_, _, _, _) =>
        var published := Apply(s, step).scans.published;
        if |published| > |s.scans.published| then [Scan(published[|s.scans.published|].snapshot)] else []
      case _ => []
  }

  function Changes(s: State, steps: seq<Step>): seq<Change> {
    if steps == [] then []
    else Changes(s, steps[..|steps| - 1]) + ChangeBy(Run(s, steps[..|steps| - 1]), steps[|steps| - 1])
  }

  /** The inventory of any run is what the published scans and the operations' confirmed
      deletions and creations made of it, one after another, and nothing else: no other
      scan, and no other step, has left a trace. */
  lemma {:induction false} InventoryIsReplayed(s: State, steps: seq<Step>)
    requires Fresh(s)
    ensures Run(s, steps).inventory == Replayed(s.inventory, Changes(s, steps))
    ensures SnapshotsOf(Run(s, steps).scans.published) == ScansIn(Changes(s, steps))
  {
    if steps != [] {
      var before, step := Run(s, steps[..|steps| - 1]), steps[|steps| - 1];
      var changes := Changes(s, steps[..|steps| - 1]);
      InventoryIsReplayed(s, steps[..|steps| - 1]);
      StepChanges(before, step);
      OneMore(s.inventory, changes, ChangeBy(before, step));
    }
  }

  lemma StepChanges(s: State, step: Step)
    ensures |ChangeBy(s, step)| <= 1
    ensures Apply(s, step).inventory == Replayed(s.inventory, ChangeBy(s, step))
    ensures SnapshotsOf(Apply(s, step).scans.published) == SnapshotsOf(s.scans.published) + ScansIn(ChangeBy(s, step))
  {
    if step.Work? {
      assert ChangeBy(s, step) != [] ==> ChangeBy(s, step)[..0] == [];
    } else {
      OnlySuccessPublishes(s, step);
      assert ChangeBy(s, step) != [] ==> ChangeBy(s, step)[..0] == [];
    }
  }

  lemma OneMore(inventory: Inventory, changes: seq<Change>, more: seq<Change>)
    requires |more| <= 1
    ensures Replayed(inventory, changes + more) == Replayed(Replayed(inventory, changes), more)
    ensures ScansIn(changes + more) == ScansIn(changes) + ScansIn(more)
  {
    if more == [] {
      assert changes + more == changes;
    } else {
      assert (changes + more)[..|changes|] == changes && more[..0] == [];
    }
  }

  /** Once a scan has expired, its worker's late snapshot is thrown away. */
  lemma {:induction false} ExpiredNeverPublishes(s: State, steps: seq<Step>, j: nat, step: Step)
    requires j < |s.scans.jobs| && !s.scans.jobs[j].status.Active()
    requires step.Finish? && var c := Run(s, steps).scans; step.worker < |c.workers| && c.workers[step.worker].job == j
    ensures Apply(Run(s, steps), step).inventory == Run(s, steps).inventory
  {
    EndedStaysEnded(s, steps, j);
  }

  lemma {:induction false} EndedStaysEnded(s: State, steps: seq<Step>, j: nat)
    requires j < |s.scans.jobs| && !s.scans.jobs[j].status.Active()
    ensures j < |Run(s, steps).scans.jobs| && Run(s, steps).scans.jobs[j] == s.scans.jobs[j]
  {
    if steps != [] {
      EndedStaysEnded(s, steps[..|steps| - 1], j);
      EndedStep(Run(s, steps[..|steps| - 1]), steps[|steps| - 1], j);
    }
  }

  lemma EndedStep(s: State, step: Step, j: nat)
    requires j < |s.scans.jobs| && !s.scans.jobs[j].status.Active()
    ensures j < |Apply(s, step).scans.jobs| && Apply(s, step).scans.jobs[j] == s.scans.jobs[j]
  {
  }
}
