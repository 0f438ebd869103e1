/** Inventory of one connection (internal/core/discovery.go and its statements): scan jobs
    with a lease, snapshots read from the provider, and operations that confirm deletions
    and creations meanwhile. Times are in seconds; `start` is a transaction's now(). */
module Discovery {
  import opened Wrappers
  import Outcomes

  const LEASE: int := 180

  datatype Key = Key(kind: string, region: string, native: string)

  datatype Resource = Resource(details: string, live: bool)

  type Inventory = map<Key, Resource>

  datatype Snapshot = Snapshot(resources: map<Key, string>, covered: set<string>) {
    /** Scanned resources belong to the reported kinds. */
    predicate Covers() { forall k :: k in resources ==> k.kind in covered }
  }

  datatype JobStatus = Queued | Running | Succeeded | Failed | Canceled {
    predicate Active() { this in {Queued, Running} }
  }

  datatype Job = Job(created: int, revision: int, status: JobStatus, lease: Option<int>)

  datatype Connection = Connection(enabled: bool, deleted: bool, revision: int)

  /** A worker: claimed, with a snapshot (or a failure) from the read it began at that
      instant, or over. */
  datatype Progress = Claimed | Read(at: int, result: Option<Snapshot>) | Gone

  datatype Worker = Worker(job: nat, since: int, progress: Progress)

  datatype OpRow = OpRow(status: Outcomes.Status, updated: int)

  datatype Publication = Publication(job: nat, readAt: int, at: int, snapshot: Snapshot)

  /** The connection with its jobs and workers, and what was published. */
  datatype Scans = Scans(connection: Connection, jobs: seq<Job>, workers: seq<Worker>, published: seq<Publication>)

  /** `gone` and `there` say since when the provider shows a resource as deleted or as
      created, and `maker` for which operation it was made, if for one. `deletedBy` and
      `boundBy` name the operations that last confirmed a deletion or bound a creation. */
  datatype World = World(gone: map<Key, int>, there: map<Key, int>, maker: map<Key, string>, deletedBy: map<Key, string>, boundBy: map<Key, string>)

  datatype State = State(scans: Scans, inventory: Inventory, ops: map<string, OpRow>, world: World, clock: int)

  // ---- Publishing a snapshot ----

  function Upserted(inventory: Inventory, resources: map<Key, string>): Inventory {
    map k | k in inventory.Keys + resources.Keys :: if k in resources then Resource(resources[k], true) else inventory[k]
  }

  function Retired(inventory: Inventory, covered: set<string>, present: set<Key>): Inventory {
    map k | k in inventory :: if k.kind in covered && k !in present then inventory[k].(live := false) else inventory[k]
  }

  function Published(inventory: Inventory, s: Snapshot): Inventory {
    Retired(Upserted(inventory, s.resources), s.covered, s.resources.Keys)
  }

  predicate Live(inventory: Inventory, k: Key) { k in inventory && inventory[k].live }

  /** After a publication the live resources of the covered kinds are exactly the scanned
      ones, as scanned; other kinds are untouched. */
  lemma PublishedIsTheSnapshot(inventory: Inventory, s: Snapshot, k: Key)
    requires s.Covers()
    ensures k.kind in s.covered ==> (Live(Published(inventory, s), k) <==> k in s.resources)
    ensures k in s.resources ==> Published(inventory, s)[k] == Resource(s.resources[k], true)
    ensures k.kind !in s.covered ==> (k in Published(inventory, s) <==> k in inventory) && (k in inventory ==> Published(inventory, s)[k] == inventory[k])
  {
    assert k in Published(inventory, s) <==> k in inventory.Keys + s.resources.Keys;
  }

  // ---- Steps ----

  datatype Step =
    | Queue(start: int, now: int, permitted: bool)
    | Claim(job: nat, now: int)
    | Fetch(worker: nat, now: int, result: Option<Snapshot>)
    | Finish(worker: nat, start: int, now: int, moduleAllowed: bool)
    | Expire(job: nat, start: int, now: int)
    | Edit(enabled: bool, deleted: bool, now: int)
    | Work(op: string, start: int, now: int, status: Outcomes.Status, deletes: Option<Key>, creates: Option<Key>, details: string)
    | Vanish(key: Key, now: int)
    | Appear(key: Key, origin: Option<string>, now: int)

  /** Operations that touched the provider since the scan was queued. */
  predicate Overtaken(ops: map<string, OpRow>, created: int) {
    exists id :: id in ops && ops[id].updated >= created && Touches(ops[id].status)
  }

  predicate Touches(status: Outcomes.Status) {
    status in {Outcomes.Dispatching, Outcomes.Observing, Outcomes.Uncertain, Outcomes.Succeeded, Outcomes.Failed, Outcomes.Resolved}
  }

  predicate AnyActive(jobs: seq<Job>) {
    exists i :: 0 <= i < |jobs| && jobs[i].status.Active()
  }

  /** What the provider shows to a read that began at this instant and has ended now: what
      was deleted before it is gone, what was created before it is there; what changed
      meanwhile may show either way. */
  predicate Truthful(w: World, snapshot: Snapshot, began: int) {
    && snapshot.Covers()
    && (forall k :: k in snapshot.resources && k in w.gone ==> began <= w.gone[k])
    && (forall k :: k in w.there && k !in w.gone && k.kind in snapshot.covered && k !in snapshot.resources ==> began <= w.there[k])
  }

  /** A finished operation stays as it is, an observed one is not stamped earlier nor
      dropped; the provider answered before the transaction that records its answer, and
      names to a create only what it has made for it. */
  predicate Working(s: State, op: string, start: int, status: Outcomes.Status, deletes: Option<Key>, creates: Option<Key>) {
    && (op in s.ops ==> !s.ops[op].status.Terminal())
    && (op in s.ops && s.ops[op].status == Outcomes.Observing ==>
          s.ops[op].updated <= start && status in {Outcomes.Observing, Outcomes.Uncertain, Outcomes.Succeeded, Outcomes.Failed})
    && (deletes.Some? ==> status == Outcomes.Succeeded && deletes.value in s.world.gone && s.world.gone[deletes.value] <= start)
    && (creates.Some? ==> status in {Outcomes.Observing, Outcomes.Succeeded} && creates.value in s.world.there && s.world.there[creates.value] <= start
                          && creates.value in s.world.maker && s.world.maker[creates.value] == op)
  }

  /** Clocks do not run backwards; a transaction starts before it acts, and a worker's after
      what it did before; the provider tells the truth and never reuses an identity. */
  predicate Lawful(s: State, step: Step) {
    && s.clock <= step.now
    && match step
       case Queue(start, now, _) => start <= now
       case Fetch(w, _, result) => w < |s.scans.workers| && (result.Some? ==> Truthful(s.world, result.value, s.scans.workers[w].since))
       case Finish(w, start, now, _) => w < |s.scans.workers| && s.scans.workers[w].since <= start <= now
       case Expire(_, start, now) => start <= now
       case Work(op, start, now, status, deletes, creates, _) => start <= now && Working(s, op, start, status, deletes, creates)
       case Vanish(key, _) => key !in s.world.gone
       case Appear(key, origin, _) => key !in s.world.there && key !in s.world.gone && (origin.Some? ==> origin.value in s.ops)
       case _ => true
  }

  function Moved(c: Scans, w: nat, now: int, progress: Progress): Scans
    requires w < |c.workers|
  {
    c.(workers := c.workers[w := c.workers[w].(progress := progress, since := now)])
  }

  function Ended(c: Scans, job: nat, status: JobStatus): Scans
    requires job < |c.jobs|
  {
    c.(jobs := c.jobs[job := c.jobs[job].(status := status)])
  }

  /** What finishScan decides about the job, in the order of the code; Running for nothing. */
  function Verdict(c: Scans, ops: map<string, OpRow>, w: nat, start: int, moduleAllowed: bool): JobStatus
    requires w < |c.workers| && c.workers[w].progress.Read? && c.workers[w].job < |c.jobs|
  {
    var worker, job := c.workers[w], c.jobs[c.workers[w].job];
    if job.status != Running || job.lease.None? || job.lease.value <= start then Running
    else if c.connection.deleted || !c.connection.enabled || c.connection.revision != job.revision then Canceled
    else if !moduleAllowed then Canceled
    else if worker.progress.result.None? then Failed
    else if Overtaken(ops, job.created) then Canceled
    else Succeeded
  }

  function Finished(s: State, w: nat, start: int, now: int, moduleAllowed: bool): State
    requires w < |s.scans.workers|
  {
    var worker := s.scans.workers[w];
    if !worker.progress.Read? || worker.job >= |s.scans.jobs| then s
    else
      var done, verdict := Moved(s.scans, w, now, Gone), Verdict(s.scans, s.ops, w, start, moduleAllowed);
      if verdict == Running then s.(scans := done)
      else if verdict != Succeeded then s.(scans := Ended(done, worker.job, verdict))
      else s.(scans := Ended(done, worker.job, Succeeded).(published := s.scans.published + [Publication(worker.job, worker.progress.at, now, worker.progress.result.value)]),
              inventory := Published(s.inventory, worker.progress.result.value))
  }

  /** An operation's outcome on this connection, with what it confirms. */
  function Worked(s: State, op: string, start: int, status: Outcomes.Status, deletes: Option<Key>, creates: Option<Key>, details: string): State {
    var w, t := s.world, s.(ops := s.ops[op := OpRow(status, start)]);
    var bound := if status == Outcomes.Uncertain then map k | k in w.boundBy && w.boundBy[k] != op :: w.boundBy[k] else w.boundBy;
    if deletes.Some? then
      t.(world := w.(boundBy := bound, deletedBy := w.deletedBy[deletes.value := op]),
         inventory := if deletes.value in s.inventory then s.inventory[deletes.value := Resource("deleted", false)] else s.inventory)
    else if creates.Some? then
      t.(world := w.(boundBy := bound[creates.value := op], deletedBy := w.deletedBy - {creates.value}), inventory := s.inventory[creates.value := Resource(details, true)])
    else t.(world := w.(boundBy := bound))
  }

  function Apply(s0: State, step: Step): State {
    if !Lawful(s0, step) then s0 else
    var s, c := s0.(clock := step.now), s0.scans;
    match step
    case Queue(start, _, permitted) =>
      if !permitted || c.connection.deleted || !c.connection.enabled || AnyActive(c.jobs) then s
      else s.(scans := c.(jobs := c.jobs + [Job(start, c.connection.revision, Queued, None)]))
    case Claim(job, now) =>
      if job >= |c.jobs| || c.jobs[job].status != Queued then s
      else s.(scans := c.(jobs := c.jobs[job := c.jobs[job].(status := Running, lease := Some(now + LEASE))], workers := c.workers + [Worker(job, now, Claimed)]))
    case Fetch(w, now, result) => if c.workers[w].progress != Claimed then s else s.(scans := Moved(c, w, now, Read(c.workers[w].since, result)))
    case Finish(w, start, now, moduleAllowed) => Finished(s, w, start, now, moduleAllowed)
    case Expire(job, start, _) =>
      if job < |c.jobs| && c.jobs[job].status == Running && c.jobs[job].lease.Some? && c.jobs[job].lease.value <= start then s.(scans := Ended(c, job, Failed)) else s
    case Edit(enabled, deleted, _) => s.(scans := c.(connection := Connection(enabled, c.connection.deleted || deleted, c.connection.revision + 1)))
    case Work(op, start, _, status, deletes, creates, details) => Worked(s, op, start, status, deletes, creates, details)
    case Vanish(key, now) => s.(world := s.world.(gone := s.world.gone[key := now]))
    case Appear(key, origin, now) =>
      s.(world := s.world.(there := s.world.there[key := now], maker := if origin.Some? then s.world.maker[key := origin.value] else s.world.maker))
  }

  function Run(s: State, steps: seq<Step>): State {
    if steps == [] then s else Apply(Run(s, steps[..|steps| - 1]), steps[|steps| - 1])
  }

  /** A connection before its first scan, whatever the inventory holds by then. */
  predicate Fresh(s: State) {
    s.scans.jobs == [] && s.scans.workers == [] && s.scans.published == [] && s.ops == map[] && s.world == World(map[], map[], map[], map[], map[])
  }
}
