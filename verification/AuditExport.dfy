/** Continuous export of one organization's audit log (internal/core/audit_export.go,
    internal/auditstore/store.go and their statements): batches with leases and retries,
    a cursor, and a store that only creates objects. Times are in seconds. */
module AuditExport {
  import opened Wrappers
  import AuditLog
  import Keys

  type Row = AuditLog.Row

  const PAGE: int := 100
  const LEASE: int := 60

  // ---- Archives ----

  const MAX_BATCH_BYTES: int := 4_194_304

  datatype Line = Manifest(org: string, first: int, last: int, count: nat, probe: string) | Record(org: string, id: int, content: string)

  type Archive = seq<Line>

  function FirstId(rows: seq<Row>): int { if rows == [] then 0 else rows[0].id }

  function LastId(rows: seq<Row>): int { if rows == [] then 0 else rows[|rows| - 1].id }

  function RecordOf(r: Row): Line { Record(r.org, r.id, r.content) }

  function Records(rows: seq<Row>): seq<Line> {
    seq(|rows|, i requires 0 <= i < |rows| => RecordOf(rows[i]))
  }

  function ArchiveOf(org: string, rows: seq<Row>, probe: string): Archive {
    [Manifest(org, FirstId(rows), LastId(rows), |rows|, probe)] + Records(rows)
  }

  /** An archive determines the rows it was made from. */
  lemma ArchiveReadsBack(org: string, rows: seq<Row>, probe: string, rows': seq<Row>, probe': string)
    requires ArchiveOf(org, rows, probe) == ArchiveOf(org, rows', probe')
    ensures rows == rows' && probe == probe'
  {
    var a := ArchiveOf(org, rows, probe);
    assert a[0] == ArchiveOf(org, rows', probe')[0];
    forall i | 0 <= i < |rows| ensures rows[i] == rows'[i] {
      assert a[i + 1] == RecordOf(rows[i]) && ArchiveOf(org, rows', probe')[i + 1] == RecordOf(rows'[i]);
    }
  }

  /** The organization, the digest (SHA-256 is taken to be injective), and the sizes in
      bytes of an archive's text and of its compressed form. */
  datatype Env = Env(org: string, sum: Archive -> string, size: Archive -> nat, packed: Archive -> nat) {
    ghost predicate Valid() {
      && (forall a, b :: sum(a) == sum(b) ==> a == b)
      && (forall a, b :: size(a) <= size(a + b))
    }

    /** The limits of one batch; only records are checked against the first. */
    predicate Fits(rows: seq<Row>, probe: string) {
      && (rows != [] ==> size(ArchiveOf(org, rows, probe)) <= MAX_BATCH_BYTES)
      && packed(ArchiveOf(org, rows, probe)) <= MAX_BATCH_BYTES
    }

    predicate Archivable(rows: seq<Row>, probe: string) {
      Fits(rows, probe) && forall r :: r in rows ==> r.org == org
    }
  }

  /** auditArchive: refuses rows of another organization and batches beyond the limits. */
  method BuildArchive(env: Env, rows: seq<Row>, probe: string) returns (archive: Option<Archive>)
    requires env.Valid()
    ensures archive == if env.Archivable(rows, probe) then Some(ArchiveOf(env.org, rows, probe)) else None
  {
    var lines := [Manifest(env.org, FirstId(rows), LastId(rows), |rows|, probe)];
    for i := 0 to |rows|
      invariant lines == ArchiveOf(env.org, rows, probe)[..i + 1]
      invariant forall r :: r in rows[..i] ==> r.org == env.org
      invariant i > 0 ==> env.size(lines) <= MAX_BATCH_BYTES
    {
      if rows[i].org != env.org {
        return None;
      }
      lines := lines + [RecordOf(rows[i])];
      if env.size(lines) > MAX_BATCH_BYTES {
        TooLong(env, ArchiveOf(env.org, rows, probe), lines);
        return None;
      }
    }
    assert lines == ArchiveOf(env.org, rows, probe) && rows[..|rows|] == rows;
    if env.packed(lines) > MAX_BATCH_BYTES {
      return None;
    }
    return Some(lines);
  }

  lemma TooLong(env: Env, whole: Archive, lines: Archive)
    requires env.Valid() && lines <= whole && env.size(lines) > MAX_BATCH_BYTES
    ensures env.size(whole) > MAX_BATCH_BYTES
  {
    assert lines + whole[|lines|..] == whole;
  }

  // ---- Rows ----

  datatype Config = Config(revision: nat, enabled: bool, verified: bool, cursor: int, target: string)

  datatype Kind = Probe | Events

  datatype Status = Pending | Running | Succeeded | Canceled

  datatype Batch = Batch(
    revision: nat, kind: Kind, probe: string, rows: seq<Row>, checksum: string, key: string,
    status: Status, attempts: nat, nextAttempt: int, lease: Option<int>)
  {
    predicate Active() { status in {Pending, Running} }

    function Payload(org: string): Archive { ArchiveOf(org, rows, probe) }
  }

  /** A worker with the batch as it claimed it. It may stop anywhere. */
  datatype Phase = Claimed | Ready(target: string) | Stored(target: string) | Verified | Failed | Gone

  datatype Worker = Worker(batch: nat, job: Batch, phase: Phase)

  /** `targets` remembers the storage target of every revision, `store` all objects. */
  datatype Export = Export(
    config: Option<Config>, batches: seq<Batch>, workers: seq<Worker>, targets: map<nat, string>, store: map<(string, string), Archive>)

  // ---- Steps ----

  datatype Step =
    | Configure(permitted: bool, target: string)
    | RequestProbe(permitted: bool, id: string, now: int)
    | Enable(permitted: bool, enabled: bool)
    | Retry(permitted: bool, now: int)
    | Prepare(page: seq<Row>, now: int)
    | Claim(batch: nat, now: int)
    | Check(worker: nat, now: int, readable: bool)
    | Put(worker: nat, delivered: bool, answered: bool)
    | Get(worker: nat, answered: bool)
    | Finish(worker: nat, now: int)
    | Foreign(target: string, key: string, content: Archive)

  predicate AnyActive(e: Export) {
    exists i :: 0 <= i < |e.batches| && e.batches[i].Active()
  }

  function CanceledAll(batches: seq<Batch>): seq<Batch> {
    seq(|batches|, i requires 0 <= i < |batches| => if batches[i].Active() then batches[i].(status := Canceled) else batches[i])
  }

  function Zeros(n: nat): string { seq(n, _ => '0') }

  function Padded(id: int): string {
    var digits := Keys.Integer(id);
    if |digits| >= 20 then digits else Zeros(20 - |digits|) + digits
  }

  function NewBatch(env: Env, revision: nat, kind: Kind, probe: string, rows: seq<Row>, now: int): Batch {
    var checksum := env.sum(ArchiveOf(env.org, rows, probe));
    var name := if kind == Probe then "checks/" + probe + "-" + checksum + ".jsonl.gz"
                else Padded(FirstId(rows)) + "-" + Padded(LastId(rows)) + "-" + checksum + ".jsonl.gz";
    Batch(revision, kind, probe, rows, checksum, "providah-audit/" + env.org + "/" + name, Pending, 0, now, None)
  }

  predicate Due(b: Batch, now: int) {
    (b.status == Pending && b.nextAttempt <= now) || (b.status == Running && b.lease.Some? && b.lease.value < now)
  }

  /** The fence: the batch still runs under this worker's claim, which has not run out. */
  predicate Current(e: Export, w: nat, now: int)
    requires w < |e.workers|
  {
    var worker := e.workers[w];
    worker.batch < |e.batches| && var live := e.batches[worker.batch];
    live.status == Running && live.attempts == worker.job.attempts && live.lease == worker.job.lease && live.lease.Some? && now <= live.lease.value
  }

  function Backoff(n: nat): int { if n == 0 then 60 else 2 * Backoff(n - 1) }

  /** Doubling from a minute, at most an hour. */
  function Delay(attempts: nat): int {
    var d := Backoff(if attempts == 0 then 0 else if attempts - 1 < 6 then attempts - 1 else 6);
    if d > 3600 then 3600 else d
  }

  function Finished(b: Batch, status: Status, next: int): Batch {
    b.(status := status, nextAttempt := next, lease := None)
  }

  function At(e: Export, w: nat, phase: Phase): Export
    requires w < |e.workers|
  {
    e.(workers := e.workers[w := e.workers[w].(phase := phase)])
  }

  /** PutObject with If-None-Match: an object that exists is never replaced. */
  function Created(store: map<(string, string), Archive>, target: string, key: string, content: Archive): map<(string, string), Archive> {
    if (target, key) in store then store else store[(target, key) := content]
  }

  function Checked(e: Export, w: nat, now: int, readable: bool): Export
    requires w < |e.workers|
  {
    var job, b := e.workers[w].job, e.workers[w].batch;
    if e.workers[w].phase != Claimed then e
    else if e.config.None? || !Current(e, w, now) then At(e, w, Gone)
    else if e.config.value.revision != job.revision || (job.kind == Events && (!e.config.value.enabled || !e.config.value.verified))
    then At(e, w, Gone).(batches := e.batches[b := Finished(e.batches[b], Canceled, now)])
    else if !readable then At(e, w, Gone)
    else At(e, w, Ready(e.config.value.target))
  }

  /** Recording the outcome: success moves the cursor, or verifies the target. */
  function Recorded(e: Export, w: nat, now: int): Export
    requires w < |e.workers|
  {
    var job, b, ok := e.workers[w].job, e.workers[w].batch, e.workers[w].phase == Verified;
    if e.workers[w].phase !in {Verified, Failed} then e
    else if e.config.None? || !Current(e, w, now) || e.config.value.revision != job.revision then At(e, w, Gone)
    else
      var done := At(e, w, Gone).(batches := e.batches[b := Finished(e.batches[b], if ok then Succeeded else Pending, now + Delay(job.attempts))]);
      if !ok then done
      else done.(config := Some(if job.kind == Probe then e.config.value.(verified := true) else e.config.value.(cursor := LastId(job.rows))))
  }

  function Configured(e: Export, target: string): Export {
    var revision := if e.config.None? then 1 else e.config.value.revision + 1;
    e.(config := Some(Config(revision, false, false, 0, target)), batches := CanceledAll(e.batches), targets := e.targets[revision := target])
  }

  /** The store has exactly what was sent, checked by length and hash. */
  predicate Matches(env: Env, e: Export, target: string, job: Batch) {
    (target, job.key) in e.store
    && |e.store[(target, job.key)]| == |job.Payload(env.org)| && env.sum(e.store[(target, job.key)]) == job.checksum
  }

  function Apply(env: Env, e: Export, s: Step): Export {
    match s
    case Configure(permitted, target) => if permitted then Configured(e, target) else e
    case RequestProbe(permitted, id, now) =>
      if !permitted || e.config.None? || AnyActive(e) || e.config.value.enabled || !env.Archivable([], id) then e
      else e.(batches := e.batches + [NewBatch(env, e.config.value.revision, Probe, id, [], now)])
    case Enable(permitted, enabled) =>
      if !permitted || e.config.None? || (enabled && !e.config.value.verified) then e
      else e.(config := Some(e.config.value.(enabled := enabled)), batches := if enabled then e.batches else CanceledAll(e.batches))
    case Retry(permitted, now) =>
      if !permitted then e
      else e.(batches := seq(|e.batches|, i requires 0 <= i < |e.batches| => if e.batches[i].status == Pending then e.batches[i].(nextAttempt := now) else e.batches[i]))
    case Prepare(page, now) =>
      if e.config.None? || AnyActive(e) || !e.config.value.enabled || !e.config.value.verified || page == [] || !env.Archivable(page, "") then e
      else e.(batches := e.batches + [NewBatch(env, e.config.value.revision, Events, "", page, now)])
    case Claim(b, now) =>
      if b >= |e.batches| || !Due(e.batches[b], now) then e
      else
        var live := e.batches[b].(status := Running, attempts := e.batches[b].attempts + 1, lease := Some(now + LEASE));
        e.(batches := e.batches[b := live], workers := e.workers + [Worker(b, live, Claimed)])
    case Check(w, now, readable) => if w >= |e.workers| then e else Checked(e, w, now, readable)
    case Put(w, delivered, answered) =>
      if w >= |e.workers| || !e.workers[w].phase.Ready? then e
      else
        var target, job := e.workers[w].phase.target, e.workers[w].job;
        At(e, w, if delivered && answered then Stored(target) else Failed)
          .(store := if delivered then Created(e.store, target, job.key, job.Payload(env.org)) else e.store)
    case Get(w, answered) =>
      if w >= |e.workers| || !e.workers[w].phase.Stored? then e
      else At(e, w, if answered && Matches(env, e, e.workers[w].phase.target, e.workers[w].job) then Verified else Failed)
    case Finish(w, now) => if w >= |e.workers| then e else Recorded(e, w, now)
    case Foreign(target, key, content) => e.(store := Created(e.store, target, key, content))
  }

  const INITIAL: Export := Export(None, [], [], map[], map[])

  /** AuditExportRows: the first hundred rows past the cursor, in the order of their ids. */
  ghost predicate IsPage(page: seq<Row>, own: seq<Row>, cursor: int) {
    && |page| <= PAGE && AuditLog.Increasing(page)
    && (forall r :: r in page ==> r in own && r.id > cursor)
    && (forall r :: r in own && r.id > cursor && r !in page ==> |page| == PAGE && forall p :: p in page ==> p.id < r.id)
  }

  // ---- The log and the exporter together ----

  datatype System = System(log: AuditLog.Log, exporter: Export)

  /** `notes` audit events are written by the exporter's own transaction, as `writer`. */
  datatype Move = Log(step: AuditLog.Step) | Act(act: Step, writer: nat, notes: seq<string>)

  /** Transactions that lock the organization's row first. */
  predicate Locks(s: Step) {
    s.Configure? || s.RequestProbe? || s.Enable? || s.Retry? || s.Prepare? || s.Check? || s.Finish?
  }

  function Notes(org: string, writer: nat, notes: seq<string>): seq<AuditLog.Step> {
    [AuditLog.Lock(writer, org)]
    + seq(|notes|, i requires 0 <= i < |notes| => AuditLog.Draw(writer, org, notes[i]))
    + [AuditLog.Commit(writer)]
  }

  function Own(env: Env, sys: System): seq<Row> {
    AuditLog.RowsOf(sys.log.committed, env.org)
  }

  /** A transaction waits for the lock; what it selects are the committed rows. */
  ghost predicate Enabled(env: Env, sys: System, m: Move) {
    m.Act? ==>
      && (Locks(m.act) ==> AuditLog.Free(sys.log, env.org) && m.writer !in sys.log.open)
      && (m.act.Prepare? && sys.exporter.config.Some? ==> IsPage(m.act.page, Own(env, sys), sys.exporter.config.value.cursor))
  }

  ghost function Advance(env: Env, sys: System, m: Move): System {
    if !Enabled(env, sys, m) then sys
    else match m
      case Log(step) => sys.(log := AuditLog.Apply(sys.log, step))
      case Act(act, writer, notes) =>
        System(if Locks(act) then AuditLog.Run(sys.log, Notes(env.org, writer, notes)) else sys.log, Apply(env, sys.exporter, act))
  }

  ghost function Run(env: Env, moves: seq<Move>): System {
    if moves == [] then System(AuditLog.EMPTY, INITIAL) else Advance(env, Run(env, moves[..|moves| - 1]), moves[|moves| - 1])
  }
}
