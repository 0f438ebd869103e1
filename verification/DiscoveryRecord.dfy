/** Scan jobs and inventory as the code works on them: rows updated in place, each
    transaction proved to be the corresponding step of Discovery.Apply. */
module DiscoveryRecord {
  import opened Wrappers
  import opened Discovery

  datatype Scanned = Scanned(key: Key, details: string)

  /** A scan lists resources; of two lines for one resource the later counts. */
  function MapOf(rows: seq<Scanned>): map<Key, string> {
    if rows == [] then map[] else MapOf(rows[..|rows| - 1])[rows[|rows| - 1].key := rows[|rows| - 1].details]
  }

  class Scanner {
    var connection: Connection
    var jobs: seq<Job>
    var inventory: Inventory
    var ops: map<string, OpRow>
    ghost var workers: seq<Worker>
    ghost var published: seq<Publication>
    ghost var world: World
    ghost var clock: int

    ghost function Now(): State
      reads this
    {
      State(Scans(connection, jobs, workers, published), inventory, ops, world, clock)
    }

    constructor (inventory: Inventory, now: int)
      ensures Fresh(Now()) && this.inventory == inventory && clock == now
    {
      connection, jobs, ops := Connection(true, false, 1), [], map[];
      this.inventory := inventory;
      workers, published, world, clock := [], [], World(map[], map[], map[], map[], map[]), now;
    }

    /** The partial unique index on active jobs. */
    method ActiveScan() returns (active: bool)
      ensures active <==> AnyActive(jobs)
    {
      for i := 0 to |jobs|
        invariant forall j :: 0 <= j < i ==> !jobs[j].status.Active()
      {
        if jobs[i].status == Queued || jobs[i].status == Running {
          return true;
        }
      }
      return false;
    }

    method QueueScan(start: int, now: int, permitted: bool)
      requires Lawful(Now(), Queue(start, now, permitted))
      modifies this`jobs, this`clock
      ensures Now() == Apply(old(Now()), Queue(start, now, permitted))
    {
      clock := now;
      if !permitted || connection.deleted || !connection.enabled {
        return;
      }
      var active := ActiveScan();
      if !active {
        jobs := jobs + [Job(start, connection.revision, Queued, None)];
      }
    }

    method ClaimScan(job: nat, now: int) returns (claimed: bool)
      requires Lawful(Now(), Claim(job, now))
      modifies this`jobs, this`workers, this`clock
      ensures Now() == Apply(old(Now()), Claim(job, now))
      ensures claimed <==> job < |old(jobs)| && old(jobs)[job].status == Queued
    {
      clock := now;
      if job >= |jobs| || jobs[job].status != Queued {
        return false;
      }
      jobs, workers := jobs[job := jobs[job].(status := Running, lease := Some(now + LEASE))], workers + [Worker(job, now, Claimed)];
      return true;
    }

    method ExpireScan(job: nat, start: int, now: int) returns (expired: bool)
      requires Lawful(Now(), Expire(job, start, now))
      modifies this`jobs, this`clock
      ensures Now() == Apply(old(Now()), Expire(job, start, now))
      ensures expired <==> old(jobs) != jobs
    {
      clock := now;
      if job >= |jobs| || jobs[job].status != Running || jobs[job].lease.None? || jobs[job].lease.value > start {
        return false;
      }
      jobs := jobs[job := jobs[job].(status := Failed)];
      return true;
    }

    /** UpsertResource for every scanned resource, in the order of the scan. */
    method UpsertAll(rows: seq<Scanned>) returns (present: set<Key>)
      modifies this`inventory
      ensures inventory == Upserted(old(inventory), MapOf(rows)) && present == MapOf(rows).Keys
    {
      present := {};
      for i := 0 to |rows|
        invariant inventory == Upserted(old(inventory), MapOf(rows[..i]))
        invariant present == MapOf(rows[..i]).Keys
      {
        ghost var before := inventory;
        present, inventory := present + {rows[i].key}, inventory[rows[i].key := Resource(rows[i].details, true)];
        assert rows[..i + 1][..i] == rows[..i];
      }
      assert rows[..|rows|] == rows;
    }

    /** RetireMissingResources. */
    method RetireMissing(covered: set<string>, present: set<Key>)
      modifies this`inventory
      ensures inventory == Retired(old(inventory), covered, present)
    {
      var rest := inventory.Keys;
      ghost var tried: set<Key> := {};
      while rest != {}
        invariant rest + tried == old(inventory).Keys == inventory.Keys && rest !! tried
        invariant forall k :: k in tried ==> inventory[k] == Retired(old(inventory), covered, present)[k]
        invariant forall k :: k in rest ==> inventory[k] == old(inventory)[k]
        decreases rest
      {
        var k :| k in rest;
        rest, tried := rest - {k}, tried + {k};
        if k.kind in covered && k !in present {
          inventory := inventory[k := inventory[k].(live := false)];
        }
      }
    }

    /** ScanOvertakenByOperation. */
    method OvertakenByOperation(created: int) returns (overtaken: bool)
      ensures overtaken <==> Overtaken(ops, created)
    {
      var rest, tried := ops.Keys, {};
      while rest != {}
        invariant rest + tried == ops.Keys
        invariant forall id :: id in tried ==> !(ops[id].updated >= created && Touches(ops[id].status))
        decreases rest
      {
        var id :| id in rest;
        rest, tried := rest - {id}, tried + {id};
        if ops[id].updated >= created && Touches(ops[id].status) {
          return true;
        }
      }
      return false;
    }

    /** The guards of finishScan; Running when the job is no longer this worker's. */
    method Judge(job: nat, read: bool, start: int, moduleAllowed: bool, ghost w: nat) returns (verdict: JobStatus)
      requires w < |workers| && workers[w].progress.Read? && workers[w].job == job < |jobs| && (read <==> workers[w].progress.result.Some?)
      ensures verdict == Verdict(Now().scans, ops, w, start, moduleAllowed)
    {
      if jobs[job].status != Running || jobs[job].lease.None? || jobs[job].lease.value <= start {
        return Running;
      }
      if connection.deleted || !connection.enabled || connection.revision != jobs[job].revision || !moduleAllowed {
        return Canceled;
      }
      if !read {
        return Failed;
      }
      var overtaken := OvertakenByOperation(jobs[job].created);
      return if overtaken then Canceled else Succeeded;
    }

    method FinishScan(job: nat, result: Option<seq<Scanned>>, covered: set<string>, start: int, now: int, moduleAllowed: bool, ghost w: nat)
      requires Lawful(Now(), Finish(w, start, now, moduleAllowed)) && workers[w].job == job < |jobs| && workers[w].progress.Read?
      requires workers[w].progress.result == if result.None? then None else Some(Snapshot(MapOf(result.value), covered))
      modifies this`jobs, this`inventory, this`workers, this`published, this`clock
      ensures Now() == Apply(old(Now()), Finish(w, start, now, moduleAllowed))
    {
      ghost var readAt := workers[w].progress.at;
      var verdict := Judge(job, result.Some?, start, moduleAllowed, w);
      clock, workers := now, Moved(Now().scans, w, now, Gone).workers;
      if verdict == Running {
        return;
      }
      jobs := jobs[job := jobs[job].(status := verdict)];
      if verdict == Succeeded {
        var present := UpsertAll(result.value);
        RetireMissing(covered, present);
        published := published + [Publication(job, readAt, now, Snapshot(MapOf(result.value), covered))];
      }
    }
  }
}
