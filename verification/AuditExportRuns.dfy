/** What holds of the export over every run, with any number of writers, workers, crashes,
    lost answers, late writes, pauses and new configurations. */
module AuditExportRuns {
  import opened Wrappers
  import opened AuditExport
  import AuditLog

  // ---- What has been exported ----

  predicate Counts(b: Batch, revision: nat) {
    b.kind == Events && b.status == Succeeded && b.revision == revision
  }

  /** The rows of the succeeded batches of a revision, in the order of the batches. */
  function Exported(batches: seq<Batch>, revision: nat): seq<Row> {
    if batches == [] then []
    else Exported(batches[..|batches| - 1], revision) + if Counts(batches[|batches| - 1], revision) then batches[|batches| - 1].rows else []
  }

  lemma ExportedAppend(batches: seq<Batch>, b: Batch, revision: nat)
    ensures Exported(batches + [b], revision) == Exported(batches, revision) + if Counts(b, revision) then b.rows else []
  {
    assert (batches + [b])[..|batches|] == batches;
  }

  lemma {:induction false} ExportedSame(a: seq<Batch>, b: seq<Batch>, revision: nat)
    requires |a| == |b|
    requires forall i :: 0 <= i < |a| ==> Counts(a[i], revision) == Counts(b[i], revision) && a[i].rows == b[i].rows
    ensures Exported(a, revision) == Exported(b, revision)
  {
    if a != [] {
      ExportedSame(a[..|a| - 1], b[..|b| - 1], revision);
    }
  }

  lemma {:induction false} ExportedNone(batches: seq<Batch>, revision: nat)
    requires forall i :: 0 <= i < |batches| ==> batches[i].revision < revision
    ensures Exported(batches, revision) == []
  {
    if batches != [] {
      ExportedNone(batches[..|batches| - 1], revision);
    }
  }

  // ---- One active batch, and the cursor ----

  ghost predicate OneActive(e: Export) {
    forall i :: 0 <= i < |e.batches| - 1 ==> !e.batches[i].Active()
  }

  /** Batches belong to configured revisions, an active one to the current revision. */
  ghost predicate Configurations(e: Export) {
    && (forall i :: 0 <= i < |e.batches| ==> e.config.Some? && e.batches[i].revision <= e.config.value.revision)
    && (forall i :: 0 <= i < |e.batches| && e.batches[i].Active() ==> e.batches[i].revision == e.config.value.revision)
  }

  /** Each revision has exported a prefix of the organization's rows, ending at the cursor
      for the current one; an active batch continues it without a gap. */
  ghost predicate Prefixes(e: Export, own: seq<Row>) {
    && (forall r: nat :: Exported(e.batches, r) <= own)
    && (e.config.Some? ==> e.config.value.cursor == LastId(Exported(e.batches, e.config.value.revision)))
    && (forall i :: 0 <= i < |e.batches| && e.batches[i].Active() && e.batches[i].kind == Events ==>
          e.batches[i].rows != [] && Exported(e.batches, e.batches[i].revision) + e.batches[i].rows <= own)
  }

  ghost predicate Progress(e: Export, own: seq<Row>) {
    OneActive(e) && Configurations(e) && Prefixes(e, own)
  }

  lemma ProgressGrows(e: Export, own: seq<Row>, more: seq<Row>)
    requires Progress(e, own) && own <= more
    ensures Progress(e, more)
  {
  }

  /** Same batches apart from work in progress: nothing new has succeeded. */
  ghost predicate SameWork(a: Export, b: Export) {
    && |a.batches| == |b.batches|
    && forall i :: 0 <= i < |a.batches| ==> SameBatch(a.batches[i], b.batches[i])
  }

  ghost predicate SameBatch(a: Batch, b: Batch) {
    && a.revision == b.revision && a.kind == b.kind && a.rows == b.rows && a.probe == b.probe && a.checksum == b.checksum && a.key == b.key
    && (a.status == Succeeded <==> b.status == Succeeded) && (b.Active() ==> a.Active())
  }

  lemma ProgressKept(e: Export, after: Export, own: seq<Row>)
    requires Progress(e, own) && SameWork(e, after)
    requires after.config.Some? == e.config.Some? && (e.config.Some? ==> after.config.value.revision == e.config.value.revision && after.config.value.cursor == e.config.value.cursor)
    ensures Progress(after, own)
  {
    forall r: nat ensures Exported(after.batches, r) == Exported(e.batches, r) {
      ExportedSame(e.batches, after.batches, r);
    }
    forall i | 0 <= i < |after.batches|
      ensures SameBatch(e.batches[i], after.batches[i]) && after.config.Some? && after.batches[i].revision <= after.config.value.revision
      ensures after.batches[i].Active() ==> e.batches[i].Active() && after.batches[i].revision == after.config.value.revision
    {
    }
  }

  lemma ProgressConfigure(e: Export, target: string, own: seq<Row>)
    requires Progress(e, own)
    ensures Progress(Configured(e, target), own)
  {
    var after := Configured(e, target);
    forall r: nat ensures Exported(after.batches, r) == Exported(e.batches, r) {
      ExportedSame(e.batches, after.batches, r);
    }
    ExportedNone(after.batches, after.config.value.revision);
  }

  lemma ProgressAppend(e: Export, b: Batch, own: seq<Row>)
    requires Progress(e, own) && !AnyActive(e) && e.config.Some? && b.Active() && b.revision == e.config.value.revision
    requires b.kind == Events ==> b.rows != [] && Exported(e.batches, b.revision) + b.rows <= own
    ensures Progress(e.(batches := e.batches + [b]), own)
  {
    forall r: nat ensures Exported(e.batches + [b], r) == Exported(e.batches, r) {
      ExportedAppend(e.batches, b, r);
    }
  }

  /** The selected page is exactly the next rows in commit order. */
  lemma PageIsNext(page: seq<Row>, own: seq<Row>, sent: seq<Row>)
    requires AuditLog.Increasing(own) && sent <= own && (forall r :: r in own ==> r.id > 0)
    requires IsPage(page, own, LastId(sent))
    ensures sent + page <= own
  {
    CursorSplits(own, sent);
    PageInRest(page, own, LastId(sent), |sent|);
    PageFits(page, own, |sent|);
    forall i | 0 <= i < |page| ensures page[i] == own[|sent| + i] {
      PageAt(page, own, LastId(sent), |sent|, i);
    }
  }

  lemma PageInRest(page: seq<Row>, own: seq<Row>, cursor: int, n: nat)
    requires IsPage(page, own, cursor) && n <= |own| && forall i :: 0 <= i < |own| ==> (own[i].id > cursor <==> i >= n)
    ensures forall r :: r in page ==> r in own[n..]
  {
    forall r | r in page ensures r in own[n..] {
      var i :| 0 <= i < |own| && own[i] == r;
      assert own[n..][i - n] == r;
    }
  }

  lemma CursorSplits(own: seq<Row>, sent: seq<Row>)
    requires AuditLog.Increasing(own) && sent <= own && (forall r :: r in own ==> r.id > 0)
    ensures forall i :: 0 <= i < |own| ==> (own[i].id > LastId(sent) <==> i >= |sent|)
  {
    assert forall i :: 0 <= i < |own| ==> own[i] in own;
  }

  lemma {:induction false} PageFits(page: seq<Row>, own: seq<Row>, n: nat)
    requires AuditLog.Increasing(own) && AuditLog.Increasing(page) && n <= |own|
    requires forall r :: r in page ==> r in own[n..]
    ensures n + |page| <= |own|
    decreases |page|
  {
    if page != [] {
      var last := page[|page| - 1];
      var k :| n <= k < |own| && own[k] == last by {
        assert last in own[n..];
      }
      var init, rest := page[..|page| - 1], own[..k];
      forall r | r in init ensures r in rest[n..] {
        assert r in page && r in own[n..];
        var j :| n <= j < |own| && own[j] == r;
        assert r.id < last.id;
        assert rest[n..][j - n] == r;
      }
      PageFits(init, rest, n);
    }
  }

  lemma {:induction false} PageAt(page: seq<Row>, own: seq<Row>, cursor: int, n: nat, i: nat)
    requires AuditLog.Increasing(own) && IsPage(page, own, cursor) && n + |page| <= |own| && i < |page|
    requires forall j :: 0 <= j < |own| ==> (own[j].id > cursor <==> j >= n)
    ensures page[i] == own[n + i]
    decreases i
  {
    forall j | 0 <= j < i ensures page[j] == own[n + j] {
      PageAt(page, own, cursor, n, j);
    }
    assert page[i] in own;
    var k :| 0 <= k < |own| && own[k] == page[i];
    if i > 0 {
      assert page[i - 1] == own[n + (i - 1)] && page[i - 1].id < page[i].id;
    }
    var least := own[n + i];
    assert least in own && page[i] in page && least.id <= page[i].id;
    assert least in page;
    var j :| 0 <= j < |page| && page[j] == least;
    assert i <= j;
  }

  // ---- What the store holds ----

  /** The store of the batch's revision holds exactly its payload. */
  predicate Holds(env: Env, e: Export, b: Batch) {
    b.revision in e.targets && (e.targets[b.revision], b.key) in e.store && e.store[(e.targets[b.revision], b.key)] == b.Payload(env.org)
  }

  ghost predicate Jobs(env: Env, e: Export) {
    forall w :: 0 <= w < |e.workers| ==> Job(env, e, e.workers[w])
  }

  /** A worker's copy of its batch is the batch; what it has verified is in the store. */
  ghost predicate Job(env: Env, e: Export, w: Worker) {
    && w.batch < |e.batches| && w.job.attempts <= e.batches[w.batch].attempts && SameText(w.job, e.batches[w.batch])
    && (w.phase.Ready? || w.phase.Stored? ==> w.job.revision in e.targets && w.phase.target == e.targets[w.job.revision])
    && (w.phase.Verified? ==> Holds(env, e, w.job))
  }

  predicate SameText(a: Batch, b: Batch) {
    a.revision == b.revision && a.kind == b.kind && a.rows == b.rows && a.probe == b.probe && a.checksum == b.checksum && a.key == b.key
  }

  ghost predicate Objects(env: Env, e: Export) {
    forall i :: 0 <= i < |e.batches| ==> Object(env, e, e.batches[i])
  }

  ghost predicate Object(env: Env, e: Export, b: Batch) {
    b.checksum == env.sum(b.Payload(env.org)) && (b.status == Succeeded ==> Holds(env, e, b))
  }

  ghost predicate Targets(e: Export) {
    && (e.config.None? ==> e.targets == map[])
    && (e.config.Some? ==> e.config.value.revision in e.targets && e.targets[e.config.value.revision] == e.config.value.target
                           && forall r :: r in e.targets ==> r <= e.config.value.revision)
  }

  ghost predicate Stores(env: Env, e: Export) {
    Jobs(env, e) && Objects(env, e) && Targets(e)
  }

  /** Stored objects and the targets of old revisions stay as they are. */
  ghost predicate Extends(e: Export, after: Export) {
    && (forall k :: k in e.store ==> k in after.store && after.store[k] == e.store[k])
    && (forall r :: r in e.targets ==> r in after.targets && after.targets[r] == e.targets[r])
    && |e.batches| <= |after.batches|
    && forall i :: 0 <= i < |e.batches| ==> SameText(e.batches[i], after.batches[i]) && e.batches[i].attempts <= after.batches[i].attempts
  }

  lemma JobsKept(env: Env, e: Export, after: Export)
    requires Jobs(env, e) && Extends(e, after) && after.workers == e.workers
    ensures Jobs(env, after)
  {
    forall w | 0 <= w < |e.workers| ensures Job(env, after, e.workers[w]) {
      assert Job(env, e, e.workers[w]);
    }
  }

  lemma ObjectsKept(env: Env, e: Export, after: Export)
    requires Objects(env, e) && Extends(e, after) && |after.batches| == |e.batches|
    requires forall i :: 0 <= i < |e.batches| ==> (after.batches[i].status == Succeeded ==> e.batches[i].status == Succeeded)
    ensures Objects(env, after)
  {
    forall i | 0 <= i < |e.batches| ensures Object(env, after, after.batches[i]) {
      assert Object(env, e, e.batches[i]);
    }
  }

  /** One worker moves on; nothing else changes but the store, which only grows. */
  lemma MovesOn(env: Env, e: Export, after: Export, w: nat, phase: Phase)
    requires Stores(env, e) && w < |e.workers| && Extends(e, after) && after.batches == e.batches
    requires after.workers == At(e, w, phase).workers && after.targets == e.targets && after.config == e.config
    requires Job(env, after, after.workers[w])
    ensures Stores(env, after)
  {
    ObjectsKept(env, e, after);
    forall v | 0 <= v < |e.workers| ensures Job(env, after, after.workers[v]) {
      assert Job(env, e, e.workers[v]);
    }
  }

  lemma StoresPut(env: Env, e: Export, s: Step)
    requires Stores(env, e) && s.Put?
    ensures Stores(env, Apply(env, e, s))
  {
    if s.worker < |e.workers| && e.workers[s.worker].phase.Ready? {
      assert Job(env, e, e.workers[s.worker]);
      var after := Apply(env, e, s);
      MovesOn(env, e, after, s.worker, after.workers[s.worker].phase);
    }
  }

  lemma StoresGet(env: Env, e: Export, s: Step)
    requires env.Valid() && Stores(env, e) && s.Get?
    ensures Stores(env, Apply(env, e, s))
  {
    if s.worker < |e.workers| && e.workers[s.worker].phase.Stored? {
      var worker := e.workers[s.worker];
      assert Job(env, e, worker) && Object(env, e, e.batches[worker.batch]);
      var after := Apply(env, e, s);
      MovesOn(env, e, after, s.worker, after.workers[s.worker].phase);
    }
  }

  /** A batch and a worker's phase change; text, targets and store do not. */
  lemma StoresSettled(env: Env, e: Export, after: Export, w: nat, status: Status, next: int)
    requires Stores(env, e) && w < |e.workers| && e.workers[w].batch < |e.batches|
    requires after.workers == At(e, w, Gone).workers && after.targets == e.targets && after.store == e.store
    requires after.batches == e.batches[e.workers[w].batch := Finished(e.batches[e.workers[w].batch], status, next)]
    requires status == Succeeded ==> Holds(env, e, e.workers[w].job)
    requires after.config.Some? && e.config.Some? && after.config.value.revision == e.config.value.revision && after.config.value.target == e.config.value.target
    ensures Stores(env, after)
  {
    forall v | 0 <= v < |e.workers| ensures Job(env, after, after.workers[v]) {
      assert Job(env, e, e.workers[v]);
    }
    forall i | 0 <= i < |e.batches| ensures Object(env, after, after.batches[i]) {
      assert Object(env, e, e.batches[i]) && Job(env, e, e.workers[w]);
    }
  }

  lemma StoresCheck(env: Env, e: Export, w: nat, now: int, readable: bool)
    requires Stores(env, e) && w < |e.workers|
    ensures Stores(env, Checked(e, w, now, readable))
  {
    var after, job := Checked(e, w, now, readable), e.workers[w].job;
    assert Job(env, e, e.workers[w]);
    if e.workers[w].phase == Claimed {
      if e.config.None? || !Current(e, w, now) {
        MovesOn(env, e, after, w, Gone);
      } else if e.config.value.revision != job.revision || (job.kind == Events && (!e.config.value.enabled || !e.config.value.verified)) {
        StoresSettled(env, e, after, w, Canceled, now);
      } else {
        MovesOn(env, e, after, w, if readable then Ready(e.config.value.target) else Gone);
      }
    }
  }

  lemma StoresFinish(env: Env, e: Export, w: nat, now: int)
    requires Stores(env, e) && w < |e.workers|
    ensures Stores(env, Recorded(e, w, now))
  {
    var after, worker := Recorded(e, w, now), e.workers[w];
    assert Job(env, e, worker);
    if worker.phase in {Verified, Failed} {
      if e.config.None? || !Current(e, w, now) || e.config.value.revision != worker.job.revision {
        MovesOn(env, e, after, w, Gone);
      } else {
        StoresSettled(env, e, after, w, if worker.phase == Verified then Succeeded else Pending, now + Delay(worker.job.attempts));
      }
    }
  }

  lemma StoresAppend(env: Env, e: Export, b: Batch)
    requires Stores(env, e) && b.checksum == env.sum(b.Payload(env.org)) && b.status != Succeeded
    ensures Stores(env, e.(batches := e.batches + [b]))
  {
    var after := e.(batches := e.batches + [b]);
    JobsKept(env, e, after);
    forall i | 0 <= i < |after.batches| ensures Object(env, after, after.batches[i]) {
      assert i < |e.batches| ==> Object(env, e, e.batches[i]);
    }
  }

  lemma StoresClaim(env: Env, e: Export, s: Step)
    requires Stores(env, e) && s.Claim?
    ensures Stores(env, Apply(env, e, s))
  {
    var after := Apply(env, e, s);
    if after != e {
      JobsKept(env, e, after.(workers := e.workers));
      ObjectsKept(env, e, after);
      forall w | 0 <= w < |after.workers| ensures Job(env, after, after.workers[w]) {
        assert w < |e.workers| ==> Job(env, after.(workers := e.workers), e.workers[w]);
      }
    }
  }

  lemma StoresStep(env: Env, e: Export, s: Step)
    requires env.Valid() && Stores(env, e)
    ensures Stores(env, Apply(env, e, s))
  {
    match s
    case Claim(_, _) => StoresClaim(env, e, s);
    case Check(w, now, readable) => if w < |e.workers| { StoresCheck(env, e, w, now, readable); }
    case Put(_, _, _) => StoresPut(env, e, s);
    case Get(_, _) => StoresGet(env, e, s);
    case Finish(w, now) => if w < |e.workers| { StoresFinish(env, e, w, now); }
    case RequestProbe(_, id, now) =>
      if Apply(env, e, s) != e {
        StoresAppend(env, e, NewBatch(env, e.config.value.revision, Probe, id, [], now));
      }
    case Prepare(page, now) =>
      if Apply(env, e, s) != e {
        StoresAppend(env, e, NewBatch(env, e.config.value.revision, Events, "", page, now));
      }
    case Configure(permitted, target) => if permitted { StoresConfigure(env, e, target); }
    case _ => StoresOther(env, e, s);
  }

  lemma StoresConfigure(env: Env, e: Export, target: string)
    requires Stores(env, e)
    ensures Stores(env, Configured(e, target))
  {
    JobsKept(env, e, Configured(e, target));
    ObjectsKept(env, e, Configured(e, target));
  }

  lemma StoresOther(env: Env, e: Export, s: Step)
    requires Stores(env, e) && (s.Enable? || s.Retry? || s.Foreign?)
    ensures Stores(env, Apply(env, e, s))
  {
    OtherExtends(env, e, s);
    JobsKept(env, e, Apply(env, e, s));
    ObjectsKept(env, e, Apply(env, e, s));
    TargetsKept(env, e, s);
  }

  lemma OtherExtends(env: Env, e: Export, s: Step)
    requires s.Enable? || s.Retry? || s.Foreign?
    ensures var after := Apply(env, e, s);
      && Extends(e, after) && after.workers == e.workers && |after.batches| == |e.batches|
      && forall i :: 0 <= i < |e.batches| ==> (after.batches[i].status == Succeeded ==> e.batches[i].status == Succeeded)
  {
  }

  lemma TargetsKept(env: Env, e: Export, s: Step)
    requires Targets(e) && (s.Enable? || s.Retry? || s.Foreign?)
    ensures Targets(Apply(env, e, s))
  {
  }

  // ---- Progress, step by step ----

  lemma ProgressSucceeds(e: Export, after: Export, own: seq<Row>, b: nat, next: int)
    requires Progress(e, own) && b < |e.batches| && e.batches[b].Active() && e.config.Some? && after.config.Some?
    requires after.batches == e.batches[b := Finished(e.batches[b], Succeeded, next)] && after.config.value.revision == e.config.value.revision
    requires after.config.value.cursor == if e.batches[b].kind == Events then LastId(e.batches[b].rows) else e.config.value.cursor
    ensures Progress(after, own)
  {
    forall r: nat ensures Exported(after.batches, r) == Exported(e.batches, r) + if Counts(after.batches[b], r) then e.batches[b].rows else [] {
      ExportedLast(e.batches, Finished(e.batches[b], Succeeded, next), r);
    }
  }

  lemma ExportedLast(batches: seq<Batch>, last: Batch, revision: nat)
    requires batches != [] && batches[|batches| - 1].Active()
    ensures Exported(batches[|batches| - 1 := last], revision) == Exported(batches, revision) + if Counts(last, revision) then last.rows else []
  {
    assert batches[|batches| - 1 := last][..|batches| - 1] == batches[..|batches| - 1];
    assert Exported(batches, revision) == Exported(batches[..|batches| - 1], revision) + [];
  }

  lemma ProgressCheck(e: Export, w: nat, now: int, readable: bool, own: seq<Row>)
    requires Progress(e, own) && w < |e.workers|
    ensures Progress(Checked(e, w, now, readable), own)
  {
    ProgressKept(e, Checked(e, w, now, readable), own);
  }

  lemma ProgressFinish(env: Env, e: Export, w: nat, now: int, own: seq<Row>)
    requires Progress(e, own) && Jobs(env, e) && w < |e.workers|
    ensures Progress(Recorded(e, w, now), own)
  {
    var after, worker := Recorded(e, w, now), e.workers[w];
    assert Job(env, e, worker);
    if worker.phase == Verified && e.config.Some? && Current(e, w, now) && e.config.value.revision == worker.job.revision {
      ProgressSucceeds(e, after, own, worker.batch, now + Delay(worker.job.attempts));
    } else {
      ProgressKept(e, after, own);
    }
  }

  lemma ProgressPrepare(env: Env, e: Export, s: Step, own: seq<Row>)
    requires Progress(e, own) && s.Prepare? && AuditLog.Increasing(own) && (forall r :: r in own ==> r.id > 0)
    requires e.config.Some? ==> IsPage(s.page, own, e.config.value.cursor)
    ensures Progress(Apply(env, e, s), own)
  {
    if Apply(env, e, s) != e {
      var revision := e.config.value.revision;
      PageIsNext(s.page, own, Exported(e.batches, revision));
      ProgressAppend(e, NewBatch(env, revision, Events, "", s.page, s.now), own);
    }
  }

  lemma ProgressStep(env: Env, e: Export, s: Step, own: seq<Row>)
    requires Progress(e, own) && Jobs(env, e) && AuditLog.Increasing(own) && (forall r :: r in own ==> r.id > 0)
    requires s.Prepare? && e.config.Some? ==> IsPage(s.page, own, e.config.value.cursor)
    ensures Progress(Apply(env, e, s), own)
  {
    match s
    case Configure(permitted, target) => if permitted { ProgressConfigure(e, target, own); }
    case RequestProbe(_, id, now) =>
      if Apply(env, e, s) != e {
        ProgressAppend(e, NewBatch(env, e.config.value.revision, Probe, id, [], now), own);
      }
    case Prepare(_, _) => ProgressPrepare(env, e, s, own);
    case Check(w, now, readable) => if w < |e.workers| { ProgressCheck(e, w, now, readable, own); }
    case Finish(w, now) => if w < |e.workers| { ProgressFinish(env, e, w, now, own); }
    case Claim(_, _) => ProgressClaim(env, e, s, own);
    case Retry(_, _) => ProgressRetry(env, e, s, own);
    case Enable(_, _) => ProgressEnable(env, e, s, own);
    case _ => ProgressIdle(env, e, s, own);
  }

  lemma ProgressClaim(env: Env, e: Export, s: Step, own: seq<Row>)
    requires Progress(e, own) && s.Claim?
    ensures Progress(Apply(env, e, s), own)
  {
    ProgressKept(e, Apply(env, e, s), own);
  }

  lemma ProgressIdle(env: Env, e: Export, s: Step, own: seq<Row>)
    requires Progress(e, own) && (s.Put? || s.Get? || s.Foreign?)
    ensures Progress(Apply(env, e, s), own)
  {
    ProgressFrame(e, Apply(env, e, s), own);
  }

  lemma ProgressFrame(e: Export, after: Export, own: seq<Row>)
    requires Progress(e, own) && after.batches == e.batches && after.config == e.config
    ensures Progress(after, own)
  {
    forall r: nat ensures Exported(after.batches, r) <= own {
      assert Exported(e.batches, r) <= own;
    }
  }

  lemma ProgressRetry(env: Env, e: Export, s: Step, own: seq<Row>)
    requires Progress(e, own) && s.Retry?
    ensures Progress(Apply(env, e, s), own)
  {
    ProgressKept(e, Apply(env, e, s), own);
  }

  lemma ProgressEnable(env: Env, e: Export, s: Step, own: seq<Row>)
    requires Progress(e, own) && s.Enable?
    ensures Progress(Apply(env, e, s), own)
  {
    ProgressKept(e, Apply(env, e, s), own);
  }

  // ---- Probes ----

  /** A probe of this configuration was stored and read back. */
  ghost predicate ProbePassed(e: Export, revision: nat) {
    exists i :: 0 <= i < |e.batches| && e.batches[i].kind == Probe && e.batches[i].status == Succeeded && e.batches[i].revision == revision
  }

  ghost predicate Probed(e: Export) {
    && (e.config.Some? ==> (e.config.value.verified ==> ProbePassed(e, e.config.value.revision)) && (e.config.value.enabled ==> e.config.value.verified))
    && (forall i :: 0 <= i < |e.batches| && e.batches[i].kind == Events ==> ProbePassed(e, e.batches[i].revision))
  }

  lemma ProbePassedKept(e: Export, after: Export, revision: nat)
    requires ProbePassed(e, revision) && |e.batches| <= |after.batches|
    requires forall i :: 0 <= i < |e.batches| && e.batches[i].status == Succeeded ==> after.batches[i] == e.batches[i]
    ensures ProbePassed(after, revision)
  {
    var i :| 0 <= i < |e.batches| && e.batches[i].kind == Probe && e.batches[i].status == Succeeded && e.batches[i].revision == revision;
    assert after.batches[i] == e.batches[i];
  }

  /** What has succeeded never changes again. */
  lemma SucceededStays(env: Env, e: Export, s: Step)
    ensures |e.batches| <= |Apply(env, e, s).batches|
    ensures forall i :: 0 <= i < |e.batches| && e.batches[i].status == Succeeded ==> Apply(env, e, s).batches[i] == e.batches[i]
  {
  }

  lemma ProbedStep(env: Env, e: Export, s: Step)
    requires Probed(e) && Jobs(env, e)
    ensures Probed(Apply(env, e, s))
  {
    var after := Apply(env, e, s);
    SucceededStays(env, e, s);
    forall r: nat | ProbePassed(e, r) ensures ProbePassed(after, r) {
      ProbePassedKept(e, after, r);
    }
    if after.config.Some? && after.config.value.verified {
      ProbedNow(env, e, s);
    }
    forall i | 0 <= i < |after.batches| && after.batches[i].kind == Events ensures ProbePassed(after, after.batches[i].revision) {
      BatchOrigin(env, e, s, i);
    }
    EnabledIsVerified(env, e, s);
  }

  lemma EnabledIsVerified(env: Env, e: Export, s: Step)
    requires e.config.Some? && e.config.value.enabled ==> e.config.value.verified
    ensures var after := Apply(env, e, s).config; after.Some? && after.value.enabled ==> after.value.verified
  {
  }

  /** A batch existed before, or is prepared now under a verified configuration. */
  lemma BatchOrigin(env: Env, e: Export, s: Step, i: nat)
    requires i < |Apply(env, e, s).batches| && Apply(env, e, s).batches[i].kind == Events
    ensures i < |e.batches| ==> e.batches[i].kind == Events && e.batches[i].revision == Apply(env, e, s).batches[i].revision
    ensures i >= |e.batches| ==> e.config.Some? && e.config.value.verified && Apply(env, e, s).batches[i].revision == e.config.value.revision
  {
  }

  lemma ProbedNow(env: Env, e: Export, s: Step)
    requires Probed(e) && Jobs(env, e)
    requires forall r: nat :: ProbePassed(e, r) ==> ProbePassed(Apply(env, e, s), r)
    requires Apply(env, e, s).config.Some? && Apply(env, e, s).config.value.verified
    ensures ProbePassed(Apply(env, e, s), Apply(env, e, s).config.value.revision)
  {
    var after := Apply(env, e, s);
    if !e.config.value.verified {
      assert s.Finish?;
      var w := e.workers[s.worker];
      assert Job(env, e, w);
      assert after.batches[w.batch].status == Succeeded;
    }
  }

  // ---- Claims ----

  /** Each claim of a batch counts one attempt more than the one before. */
  ghost predicate Attempts(e: Export) {
    && (forall v :: 0 <= v < |e.workers| ==> e.workers[v].batch < |e.batches| && e.workers[v].job.attempts <= e.batches[e.workers[v].batch].attempts)
    && (forall v, w :: 0 <= v < w < |e.workers| && e.workers[v].batch == e.workers[w].batch ==> e.workers[v].job.attempts < e.workers[w].job.attempts)
  }

  lemma AttemptsStep(env: Env, e: Export, s: Step)
    requires Attempts(e)
    ensures Attempts(Apply(env, e, s))
  {
    var after := Apply(env, e, s);
    if s.Claim? && after != e {
      AttemptsClaim(env, e, s);
    } else {
      WorkersStay(env, e, s);
      forall v | 0 <= v < |after.workers|
        ensures after.workers[v].batch < |after.batches| && after.workers[v].job.attempts <= after.batches[after.workers[v].batch].attempts
      {
        assert after.workers[v].batch == e.workers[v].batch;
      }
    }
  }

  /** The same workers, the same numbers of attempts. */
  ghost predicate SameClaims(e: Export, after: Export) {
    && |after.workers| == |e.workers| && |e.batches| <= |after.batches|
    && (forall v :: 0 <= v < |e.workers| ==> after.workers[v].(phase := e.workers[v].phase) == e.workers[v])
    && (forall i :: 0 <= i < |e.batches| ==> after.batches[i].attempts == e.batches[i].attempts)
  }

  lemma WorkersStay(env: Env, e: Export, s: Step)
    requires !s.Claim? || Apply(env, e, s) == e
    ensures SameClaims(e, Apply(env, e, s))
  {
    match s
    case Check(w, now, readable) => if w < |e.workers| { WorkersChecked(e, w, now, readable); }
    case Finish(w, now) => if w < |e.workers| { WorkersRecorded(e, w, now); }
    case _ =>
  }

  lemma WorkersChecked(e: Export, w: nat, now: int, readable: bool)
    requires w < |e.workers|
    ensures SameClaims(e, Checked(e, w, now, readable))
  {
  }

  lemma WorkersRecorded(e: Export, w: nat, now: int)
    requires w < |e.workers|
    ensures SameClaims(e, Recorded(e, w, now))
  {
  }

  lemma AttemptsClaim(env: Env, e: Export, s: Step)
    requires Attempts(e) && s.Claim? && s.batch < |e.batches| && Due(e.batches[s.batch], s.now)
    ensures Attempts(Apply(env, e, s))
  {
    var after, n := Apply(env, e, s), |e.workers|;
    forall v | 0 <= v < n ensures after.workers[v] == e.workers[v] {
    }
  }

  // ---- Whole runs ----

  ghost predicate Sound(env: Env, sys: System) {
    AuditLog.Ordered(sys.log) && Progress(sys.exporter, Own(env, sys)) && Stores(env, sys.exporter) && Probed(sys.exporter) && Attempts(sys.exporter)
  }

  lemma OwnIsOrdered(env: Env, sys: System)
    requires AuditLog.Ordered(sys.log)
    ensures AuditLog.Increasing(Own(env, sys)) && forall r :: r in Own(env, sys) ==> r.id > 0
  {
    AuditLog.RowsOfIncreasing(sys.log.committed, env.org);
    forall r | r in Own(env, sys) ensures r.id > 0 {
      AuditLog.RowsOfMembers(sys.log.committed, env.org, r);
    }
  }

  lemma LogStep(env: Env, sys: System, m: Move)
    requires AuditLog.Ordered(sys.log)
    ensures AuditLog.Ordered(Advance(env, sys, m).log) && Own(env, sys) <= Own(env, Advance(env, sys, m))
  {
    var after := Advance(env, sys, m).log;
    if m.Log? {
      AuditLog.OrderedStep(sys.log, m.step);
    } else {
      AuditLog.OrderedRun(sys.log, Notes(env.org, m.writer, m.notes));
    }
    AuditLog.RowsOfGrows(sys.log.committed, after.committed, env.org);
  }

  lemma SoundStep(env: Env, sys: System, m: Move)
    requires env.Valid() && Sound(env, sys)
    ensures Sound(env, Advance(env, sys, m)) && Own(env, sys) <= Own(env, Advance(env, sys, m))
  {
    LogStep(env, sys, m);
    if m.Act? && Enabled(env, sys, m) {
      OwnIsOrdered(env, sys);
      ProgressStep(env, sys.exporter, m.act, Own(env, sys));
      StoresStep(env, sys.exporter, m.act);
      ProbedStep(env, sys.exporter, m.act);
      AttemptsStep(env, sys.exporter, m.act);
    }
    ProgressGrows(Advance(env, sys, m).exporter, Own(env, sys), Own(env, Advance(env, sys, m)));
  }

  lemma {:induction false} SoundAlways(env: Env, moves: seq<Move>)
    requires env.Valid()
    ensures Sound(env, Run(env, moves))
  {
    if moves != [] {
      SoundAlways(env, moves[..|moves| - 1]);
      SoundStep(env, Run(env, moves[..|moves| - 1]), moves[|moves| - 1]);
    }
  }

  /** The events with an id up to the cursor. */
  function UpTo(own: seq<Row>, cursor: int): seq<Row> {
    if own == [] then [] else UpTo(own[..|own| - 1], cursor) + if own[|own| - 1].id <= cursor then [own[|own| - 1]] else []
  }

  lemma {:induction false} UpToPrefix(own: seq<Row>, n: nat, cursor: int)
    requires n <= |own| && forall i :: 0 <= i < |own| ==> (own[i].id <= cursor <==> i < n)
    ensures UpTo(own, cursor) == own[..n]
  {
    if own != [] {
      var init := own[..|own| - 1];
      if n == |own| {
        UpToPrefix(init, n - 1, cursor);
      } else {
        UpToPrefix(init, n, cursor);
        assert init[..n] == own[..n];
      }
    }
  }

  /** Under the current configuration the succeeded batches together hold exactly the
      organization's events up to the cursor, each once and in order; under every earlier
      one they hold its first so many events, again without gap or repetition. */
  lemma {:induction false} ExportsExactlyOnce(env: Env, moves: seq<Move>)
    requires env.Valid()
    ensures var sys := Run(env, moves);
      sys.exporter.config.Some? ==> Exported(sys.exporter.batches, sys.exporter.config.value.revision) == UpTo(Own(env, sys), sys.exporter.config.value.cursor)
    ensures forall r: nat :: Exported(Run(env, moves).exporter.batches, r) <= Own(env, Run(env, moves))
  {
    SoundAlways(env, moves);
    var sys := Run(env, moves);
    var own := Own(env, sys);
    OwnIsOrdered(env, sys);
    if sys.exporter.config.Some? {
      var sent := Exported(sys.exporter.batches, sys.exporter.config.value.revision);
      CursorSplits(own, sent);
      UpToPrefix(own, |sent|, LastId(sent));
    }
  }

  /** The store of its own configuration holds each succeeded batch byte for byte. */
  lemma {:induction false} SucceededIsStored(env: Env, moves: seq<Move>, i: nat)
    requires env.Valid() && i < |Run(env, moves).exporter.batches| && Run(env, moves).exporter.batches[i].status == Succeeded
    ensures Holds(env, Run(env, moves).exporter, Run(env, moves).exporter.batches[i])
  {
    SoundAlways(env, moves);
    assert Object(env, Run(env, moves).exporter, Run(env, moves).exporter.batches[i]);
  }

  lemma {:induction false} AtMostOneActive(env: Env, moves: seq<Move>, i: nat, j: nat)
    requires env.Valid() && i < j < |Run(env, moves).exporter.batches|
    ensures !(Run(env, moves).exporter.batches[i].Active() && Run(env, moves).exporter.batches[j].Active())
  {
    SoundAlways(env, moves);
  }

  lemma {:induction false} OwnGrows(env: Env, moves: seq<Move>, k: nat)
    requires env.Valid() && k <= |moves|
    ensures Own(env, Run(env, moves[..k])) <= Own(env, Run(env, moves))
    decreases |moves|
  {
    if k == |moves| {
      assert moves[..k] == moves;
    } else {
      var init := moves[..|moves| - 1];
      OwnGrows(env, init, k);
      assert init[..k] == moves[..k];
      SoundAlways(env, init);
      SoundStep(env, Run(env, init), moves[|moves| - 1]);
    }
  }

  /** An event that commits after the cursor was read lies past the cursor. */
  lemma {:induction false} CursorNeverPasses(env: Env, moves: seq<Move>, k: nat, r: Row)
    requires env.Valid() && k <= |moves| && Run(env, moves[..k]).exporter.config.Some?
    requires r in Own(env, Run(env, moves)) && r !in Own(env, Run(env, moves[..k]))
    ensures Run(env, moves[..k]).exporter.config.value.cursor < r.id
  {
    SoundAlways(env, moves[..k]);
    SoundAlways(env, moves);
    OwnGrows(env, moves, k);
    OwnIsOrdered(env, Run(env, moves));
    var e, own := Run(env, moves[..k]).exporter, Own(env, Run(env, moves));
    CursorIsBefore(Exported(e.batches, e.config.value.revision), Own(env, Run(env, moves[..k])), own, r);
  }

  lemma CursorIsBefore(sent: seq<Row>, seen: seq<Row>, own: seq<Row>, r: Row)
    requires sent <= seen <= own && AuditLog.Increasing(own) && r in own && r !in seen && r.id > 0
    ensures LastId(sent) < r.id
  {
    var i :| 0 <= i < |own| && own[i] == r;
    assert forall j :: 0 <= j < |seen| ==> own[j] == seen[j] && seen[j] in seen;
  }

  /** No event is batched before a probe of the same configuration has passed. */
  lemma {:induction false} ProbedBeforeExport(env: Env, moves: seq<Move>, i: nat)
    requires env.Valid() && i < |Run(env, moves).exporter.batches| && Run(env, moves).exporter.batches[i].kind == Events
    ensures ProbePassed(Run(env, moves).exporter, Run(env, moves).exporter.batches[i].revision)
  {
    SoundAlways(env, moves);
  }

  /** A worker whose batch has been claimed again, or whose lease has run out, changes
      neither a batch nor the cursor. */
  lemma {:induction false} StaleWorkerIsHarmless(env: Env, moves: seq<Move>, v: nat, s: Step)
    requires env.Valid() && (s.Check? || s.Finish?) && s.worker == v && v < |Run(env, moves).exporter.workers|
    requires var e := Run(env, moves).exporter;
      (exists w :: v < w < |e.workers| && e.workers[w].batch == e.workers[v].batch) || (e.workers[v].job.lease.Some? && e.workers[v].job.lease.value < s.now)
    ensures var e := Run(env, moves).exporter; Apply(env, e, s).batches == e.batches && Apply(env, e, s).config == e.config
  {
    SoundAlways(env, moves);
    assert !Current(Run(env, moves).exporter, v, s.now);
  }
}
