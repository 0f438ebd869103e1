/** The exporter as the code runs it: configuration and batch rows updated in place, each
    transaction proved to be the corresponding step of AuditExport.Apply. */
module AuditExportRecord {
  import opened Wrappers
  import opened AuditExport

  /** What the write to the store was given and how it ended. */
  datatype Request = Request(target: string, key: string, checksum: string, payload: Archive)

  class Exporter {
    const env: Env
    var config: Option<Config>
    var batches: seq<Batch>
    var store: map<(string, string), Archive>
    ghost var workers: seq<Worker>
    ghost var targets: map<nat, string>

    ghost function Now(): Export
      reads this
    {
      Export(config, batches, workers, targets, store)
    }

    constructor (env: Env)
      ensures Now() == INITIAL && this.env == env
    {
      this.env := env;
      config, batches, store := None, [], map[];
      workers, targets := [], map[];
    }

    /** AuditExportActive. */
    method Active() returns (active: bool)
      ensures active <==> AnyActive(Now())
    {
      for i := 0 to |batches|
        invariant forall j :: 0 <= j < i ==> !batches[j].Active()
      {
        if batches[i].status == Pending || batches[i].status == Running {
          return true;
        }
      }
      return false;
    }

    /** CancelAuditExportBatches. */
    method CancelBatches()
      modifies this`batches
      ensures batches == CanceledAll(old(batches))
    {
      for i := 0 to |batches|
        invariant |batches| == |old(batches)|
        invariant forall j :: 0 <= j < i ==> batches[j] == CanceledAll(old(batches))[j]
        invariant forall j :: i <= j < |batches| ==> batches[j] == old(batches)[j]
      {
        if batches[i].status == Pending || batches[i].status == Running {
          batches := batches[i := batches[i].(status := Canceled)];
        }
      }
    }

    method SaveAuditExport(permitted: bool, target: string)
      modifies this
      ensures Now() == Apply(env, old(Now()), Configure(permitted, target))
    {
      if !permitted {
        return;
      }
      var revision := 1;
      if config.Some? {
        revision := config.value.revision + 1;
      }
      config, targets := Some(Config(revision, false, false, 0, target)), targets[revision := target];
      CancelBatches();
    }

    /** createExportBatch: nothing is stored unless the rows can be archived. */
    method CreateBatch(kind: Kind, probe: string, rows: seq<Row>, now: int) returns (ok: bool)
      requires env.Valid() && config.Some?
      modifies this`batches
      ensures ok <==> env.Archivable(rows, probe)
      ensures batches == old(batches) + if ok then [NewBatch(env, config.value.revision, kind, probe, rows, now)] else []
    {
      var archive := BuildArchive(env, rows, probe);
      if archive.None? {
        return false;
      }
      batches := batches + [NewBatch(env, config.value.revision, kind, probe, rows, now)];
      return true;
    }

    method TestAuditExport(permitted: bool, id: string, now: int) returns (ok: bool)
      requires env.Valid()
      modifies this`batches
      ensures Now() == Apply(env, old(Now()), RequestProbe(permitted, id, now))
      ensures ok <==> permitted && config.Some? && !config.value.enabled && !AnyActive(old(Now())) && env.Archivable([], id)
    {
      if !permitted || config.None? {
        return false;
      }
      var active := Active();
      if active || config.value.enabled {
        return false;
      }
      ok := CreateBatch(Probe, id, [], now);
    }

    method SetAuditExportEnabled(permitted: bool, enabled: bool) returns (ok: bool)
      modifies this`config, this`batches
      ensures Now() == Apply(env, old(Now()), Enable(permitted, enabled))
      ensures ok <==> permitted && old(config).Some? && (enabled ==> old(config).value.verified)
    {
      if !permitted || config.None? || (enabled && !config.value.verified) {
        return false;
      }
      if !enabled {
        CancelBatches();
      }
      config := Some(config.value.(enabled := enabled));
      return true;
    }

    method RetryAuditExport(permitted: bool, now: int)
      modifies this`batches
      ensures Now() == Apply(env, old(Now()), Retry(permitted, now))
    {
      if !permitted {
        return;
      }
      for i := 0 to |batches|
        invariant |batches| == |old(batches)|
        invariant forall j :: 0 <= j < i ==> batches[j] == if old(batches)[j].status == Pending then old(batches)[j].(nextAttempt := now) else old(batches)[j]
        invariant forall j :: i <= j < |batches| ==> batches[j] == old(batches)[j]
      {
        if batches[i].status == Pending {
          batches := batches[i := batches[i].(nextAttempt := now)];
        }
      }
    }

    method PrepareAuditExport(page: seq<Row>, now: int)
      requires env.Valid()
      modifies this`batches
      ensures Now() == Apply(env, old(Now()), Prepare(page, now))
    {
      if config.None? {
        return;
      }
      var active := Active();
      if active || !config.value.enabled || !config.value.verified || page == [] {
        return;
      }
      var _ := CreateBatch(Events, "", page, now);
    }

    method ClaimBatch(b: nat, now: int) returns (job: Option<Batch>)
      modifies this`batches, this`workers
      ensures Now() == Apply(env, old(Now()), Claim(b, now))
      ensures job.Some? <==> b < |old(batches)| && Due(old(batches)[b], now)
      ensures job.Some? ==> workers == old(workers) + [Worker(b, job.value, Claimed)] && job.value == batches[b]
    {
      if b >= |batches| || !((batches[b].status == Pending && batches[b].nextAttempt <= now)
                             || (batches[b].status == Running && batches[b].lease.Some? && batches[b].lease.value < now))
      {
        return None;
      }
      var live := batches[b].(status := Running, attempts := batches[b].attempts + 1, lease := Some(now + LEASE));
      batches, workers := batches[b := live], workers + [Worker(b, live, Claimed)];
      return Some(live);
    }

    /** The first transaction of auditExportTick: may this claim write? */
    method CheckBatch(b: nat, job: Batch, ghost w: nat, now: int, readable: bool) returns (request: Option<Request>)
      requires w < |workers| && workers[w] == Worker(b, job, Claimed) && b < |batches|
      modifies this`batches, this`workers
      ensures Now() == Apply(env, old(Now()), Check(w, now, readable))
      ensures request.Some? <==> workers[w].phase.Ready?
      ensures request.Some? ==> request.value == Request(workers[w].phase.target, job.key, job.checksum, job.Payload(env.org))
    {
      if config.None? || batches[b].status != Running || batches[b].attempts != job.attempts || batches[b].lease != job.lease
         || batches[b].lease.None? || now > batches[b].lease.value
      {
        workers := workers[w := Worker(b, job, Gone)];
        return None;
      }
      if config.value.revision != job.revision || (job.kind == Events && (!config.value.enabled || !config.value.verified)) {
        batches, workers := batches[b := Finished(batches[b], Canceled, now)], workers[w := Worker(b, job, Gone)];
        return None;
      }
      if !readable {
        workers := workers[w := Worker(b, job, Gone)];
        return None;
      }
      workers := workers[w := Worker(b, job, Ready(config.value.target))];
      return Some(Request(config.value.target, job.key, job.checksum, job.Payload(env.org)));
    }

    /** The conditional PutObject of auditstore.write. */
    method PutObject(b: nat, job: Batch, request: Request, ghost w: nat, delivered: bool, answered: bool) returns (go: bool)
      requires w < |workers| && workers[w] == Worker(b, job, Ready(request.target))
      requires request == Request(request.target, job.key, job.checksum, job.Payload(env.org))
      modifies this`store, this`workers
      ensures Now() == Apply(env, old(Now()), Put(w, delivered, answered))
      ensures go <==> workers[w].phase.Stored?
    {
      if delivered && (request.target, request.key) !in store {
        store := store[(request.target, request.key) := request.payload];
      }
      go := delivered && answered;
      workers := workers[w := Worker(b, job, if go then Stored(request.target) else Failed)];
    }

    /** The read back: accepted only if length and hash of the stored bytes agree. */
    method VerifyObject(b: nat, job: Batch, request: Request, ghost w: nat, answered: bool) returns (ok: bool)
      requires w < |workers| && workers[w] == Worker(b, job, Stored(request.target))
      requires request == Request(request.target, job.key, job.checksum, job.Payload(env.org))
      modifies this`workers
      ensures Now() == Apply(env, old(Now()), Get(w, answered))
      ensures ok <==> workers[w].phase.Verified?
    {
      ok := false;
      if answered && (request.target, request.key) in store {
        var stored := store[(request.target, request.key)];
        ok := |stored| == |request.payload| && env.sum(stored) == request.checksum;
      }
      workers := workers[w := Worker(b, job, if ok then Verified else Failed)];
    }

    /** The second transaction of auditExportTick. */
    method FinishBatch(b: nat, job: Batch, ok: bool, ghost w: nat, now: int)
      requires w < |workers| && workers[w] == Worker(b, job, if ok then Verified else Failed) && b < |batches|
      modifies this`config, this`batches, this`workers
      ensures Now() == Apply(env, old(Now()), Finish(w, now))
    {
      workers := workers[w := Worker(b, job, Gone)];
      if config.None? || batches[b].status != Running || batches[b].attempts != job.attempts || batches[b].lease != job.lease
         || batches[b].lease.None? || now > batches[b].lease.value || config.value.revision != job.revision
      {
        return;
      }
      var status, next := Succeeded, now + Delay(job.attempts);
      if !ok {
        status := Pending;
      }
      batches := batches[b := Finished(batches[b], status, next)];
      if !ok {
        return;
      }
      if job.kind == Probe {
        config := Some(config.value.(verified := true));
      } else {
        config := Some(config.value.(cursor := LastId(job.rows)));
      }
    }
  }
}
