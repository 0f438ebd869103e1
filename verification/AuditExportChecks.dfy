/** When batches are made, claimed, written and settled, in terms of the rows that the
    transactions read (internal/core/audit_export.go:128-413 and its statements). */
module AuditExportChecks {
  import opened Wrappers
  import opened AuditExport

  predicate Idle(e: Export) {
    forall i :: 0 <= i < |e.batches| ==> e.batches[i].status in {Succeeded, Status.Canceled}
  }

  lemma IdleMeans(e: Export)
    ensures Idle(e) <==> !AnyActive(e)
  {
    forall i | 0 <= i < |e.batches| ensures e.batches[i].status in {Succeeded, Status.Canceled} <==> !e.batches[i].Active() {
      match e.batches[i].status case Pending => case Running => case Succeeded => case Canceled =>
    }
  }

  /** An archive is made unless a row belongs to another organization or a limit of four
      megabytes is exceeded. */
  predicate Archives(env: Env, rows: seq<Row>, probe: string) {
    && (forall i :: 0 <= i < |rows| ==> rows[i].org == env.org)
    && env.packed(ArchiveOf(env.org, rows, probe)) <= 4 * 1024 * 1024
    && (rows == [] || env.size(ArchiveOf(env.org, rows, probe)) <= 4 * 1024 * 1024)
  }

  lemma ArchivesIff(env: Env, rows: seq<Row>, probe: string)
    ensures Archives(env, rows, probe) <==> env.Archivable(rows, probe)
  {
  }

  /** Events are batched exactly while the export is verified and switched on, nothing is
      under way, and there is something to export that can be archived. */
  lemma PreparesIff(env: Env, e: Export, page: seq<Row>, now: int)
    ensures var t := Apply(env, e, Prepare(page, now));
      && (t != e <==> e.config.Some? && e.config.value.enabled && e.config.value.verified && Idle(e) && page != [] && Archives(env, page, ""))
      && (t != e ==> |t.batches| == |e.batches| + 1 && t == e.(batches := e.batches + [t.batches[|e.batches|]])
                     && var b := t.batches[|e.batches|];
                        b.rows == page && b.kind == Events && b.status == Pending && b.nextAttempt == now && b.attempts == 0 && b.revision == e.config.value.revision)
  {
    IdleMeans(e);
    ArchivesIff(env, page, "");
    assert |Apply(env, e, Prepare(page, now)).batches| != |e.batches| ==> Apply(env, e, Prepare(page, now)) != e;
  }

  /** A probe is made exactly while the export is configured, paused and idle. */
  lemma ProbesIff(env: Env, e: Export, permitted: bool, id: string, now: int)
    ensures var t := Apply(env, e, RequestProbe(permitted, id, now));
      && (t != e <==> permitted && e.config.Some? && !e.config.value.enabled && Idle(e) && Archives(env, [], id))
      && (t != e ==> |t.batches| == |e.batches| + 1 && t == e.(batches := e.batches + [t.batches[|e.batches|]])
                     && var b := t.batches[|e.batches|];
                        b.kind == Probe && b.probe == id && b.rows == [] && b.status == Pending && b.nextAttempt == now && b.revision == e.config.value.revision)
  {
    IdleMeans(e);
    ArchivesIff(env, [], id);
    assert |Apply(env, e, RequestProbe(permitted, id, now)).batches| != |e.batches| ==> Apply(env, e, RequestProbe(permitted, id, now)) != e;
  }

  /** Switching on takes a verified configuration; switching off ends what is under way. */
  lemma EnablesIff(env: Env, e: Export, permitted: bool, enabled: bool)
    ensures var t := Apply(env, e, Enable(permitted, enabled));
      && (permitted && e.config.Some? && (enabled ==> e.config.value.verified) ==>
            && t.config == Some(e.config.value.(enabled := enabled)) && (enabled ==> t.batches == e.batches) && (!enabled ==> Idle(t)))
      && (!permitted || e.config.None? || (enabled && !e.config.value.verified) ==> t == e)
  {
    IdleMeans(Apply(env, e, Enable(permitted, enabled)));
  }

  /** A new configuration starts over: a greater revision, paused, not verified, with
      nothing exported and nothing under way. */
  lemma ConfigureStartsOver(env: Env, e: Export, target: string)
    ensures var t := Apply(env, e, Configure(true, target));
      && t.config.Some? && t.config.value.target == target && !t.config.value.enabled && !t.config.value.verified && t.config.value.cursor == 0
      && (e.config.Some? ==> t.config.value.revision == e.config.value.revision + 1) && Idle(t)
    ensures Apply(env, e, Configure(false, target)) == e
  {
    IdleMeans(Apply(env, e, Configure(true, target)));
  }

  lemma RetryIsAtOnce(env: Env, e: Export, now: int, i: nat)
    requires i < |e.batches|
    ensures var t := Apply(env, e, Retry(true, now));
      |t.batches| == |e.batches| && t.batches[i] == if e.batches[i].status == Pending then e.batches[i].(nextAttempt := now) else e.batches[i]
    ensures Apply(env, e, Retry(false, now)) == e
  {
  }

  // ---- Claims ----

  /** A batch is claimed when it is due, or when the minute of its worker is over. */
  lemma ClaimsIff(env: Env, e: Export, b: nat, now: int)
    requires b < |e.batches|
    ensures var was, t := e.batches[b], Apply(env, e, Claim(b, now));
      && (|t.workers| > |e.workers|
          <==> (was.status == Pending && was.nextAttempt <= now) || (was.status == Running && was.lease.Some? && was.lease.value < now))
      && (|t.workers| > |e.workers| ==>
            && t.batches == e.batches[b := was.(status := Running, attempts := was.attempts + 1, lease := Some(now + 60))]
            && t.workers == e.workers + [Worker(b, t.batches[b], Claimed)])
      && (|t.workers| <= |e.workers| ==> t == e)
  {
  }

  ghost predicate Leased(e: Export) {
    forall i :: 0 <= i < |e.batches| && e.batches[i].status == Running ==> e.batches[i].lease.Some?
  }

  lemma LeasedStep(env: Env, e: Export, s: Step)
    requires Leased(e)
    ensures Leased(Apply(env, e, s))
  {
    match s
    case Check(w, now, readable) => if w < |e.workers| { LeasedChecked(e, w, now, readable); }
    case Finish(w, now) => if w < |e.workers| { LeasedRecorded(e, w, now); }
    case _ =>
  }

  lemma LeasedChecked(e: Export, w: nat, now: int, readable: bool)
    requires Leased(e) && w < |e.workers|
    ensures Leased(Checked(e, w, now, readable))
  {
  }

  lemma LeasedRecorded(e: Export, w: nat, now: int)
    requires Leased(e) && w < |e.workers|
    ensures Leased(Recorded(e, w, now))
  {
  }

  lemma {:induction false} LeasedAlways(env: Env, moves: seq<Move>)
    ensures Leased(Run(env, moves).exporter)
  {
    if moves != [] {
      LeasedAlways(env, moves[..|moves| - 1]);
      var sys, m := Run(env, moves[..|moves| - 1]), moves[|moves| - 1];
      if m.Act? {
        LeasedStep(env, sys.exporter, m.act);
      }
    }
  }

  /** No batch is stuck with a dead worker: in every run a batch that is running has a lease,
      and as soon as it is over another worker can claim it. */
  lemma {:induction false} DeadWorkerIsReplaced(env: Env, moves: seq<Move>, b: nat)
    requires b < |Run(env, moves).exporter.batches| && Run(env, moves).exporter.batches[b].status == Running
    ensures var e := Run(env, moves).exporter;
      e.batches[b].lease.Some? && forall now :: e.batches[b].lease.value < now ==>
        var t := Apply(env, e, Claim(b, now)); |t.workers| == |e.workers| + 1 && t.workers[|e.workers|].batch == b && t.workers[|e.workers|].phase == Claimed
  {
    LeasedAlways(env, moves);
    var e := Run(env, moves).exporter;
    forall now | e.batches[b].lease.value < now
      ensures var t := Apply(env, e, Claim(b, now)); |t.workers| == |e.workers| + 1 && t.workers[|e.workers|].batch == b && t.workers[|e.workers|].phase == Claimed
    {
      ClaimsIff(env, e, b, now);
    }
  }

  // ---- Before and after the write ----

  /** The batch is running under this very claim, whose minute is not over. */
  predicate InTime(e: Export, w: nat, now: int)
    requires w < |e.workers|
  {
    var worker := e.workers[w];
    && worker.batch < |e.batches| && e.batches[worker.batch].status == Running
    && e.batches[worker.batch].attempts == worker.job.attempts && e.batches[worker.batch].lease == worker.job.lease
    && worker.job.lease.Some? && now <= worker.job.lease.value
  }

  /** A worker may write exactly if its claim is current, its configuration is, and, for
      events, the export is still verified and switched on. */
  lemma WritesIff(env: Env, e: Export, w: nat, now: int, readable: bool)
    requires w < |e.workers| && e.workers[w].phase == Claimed
    ensures var t, job := Apply(env, e, Check(w, now, readable)), e.workers[w].job;
      && (t.workers[w].phase.Ready?
          <==> && InTime(e, w, now) && readable && e.config.Some? && e.config.value.revision == job.revision
               && (job.kind == Events ==> e.config.value.enabled && e.config.value.verified))
      && (t.workers[w].phase.Ready? ==> t.workers[w].phase.target == e.config.value.target && t.batches == e.batches)
      && (InTime(e, w, now) && e.config.Some?
          && (e.config.value.revision != job.revision || (job.kind == Events && !(e.config.value.enabled && e.config.value.verified)))
          ==> t.batches[e.workers[w].batch].status == Status.Canceled)
      && t.config == e.config && t.store == e.store
  {
  }

  /** A write creates the object, or leaves one that is there as it is, and goes on to the
      read back exactly if it was delivered and answered. */
  lemma PutCreates(env: Env, e: Export, w: nat, delivered: bool, answered: bool)
    requires w < |e.workers| && e.workers[w].phase.Ready?
    ensures var t, job, target := Apply(env, e, Put(w, delivered, answered)), e.workers[w].job, e.workers[w].phase.target;
      && t.workers[w].phase == (if delivered && answered then Stored(target) else Failed)
      && (delivered ==> (target, job.key) in t.store)
      && (forall k :: k in e.store ==> k in t.store && t.store[k] == e.store[k])
      && (forall k :: k in t.store && k !in e.store ==> delivered && k == (target, job.key) && t.store[k] == ArchiveOf(env.org, job.rows, job.probe))
      && t.batches == e.batches && t.config == e.config
  {
  }

  /** The read back is accepted exactly if it arrives and the object is what was sent. */
  lemma VerifiesIff(env: Env, e: Export, w: nat, answered: bool)
    requires env.Valid() && w < |e.workers| && e.workers[w].phase.Stored? && e.workers[w].job.checksum == env.sum(e.workers[w].job.Payload(env.org))
    ensures var t, job, k := Apply(env, e, Get(w, answered)), e.workers[w].job, (e.workers[w].phase.target, e.workers[w].job.key);
      && t.workers[w].phase == (if answered && k in e.store && e.store[k] == ArchiveOf(env.org, job.rows, job.probe) then Verified else Failed)
      && t.batches == e.batches && t.config == e.config && t.store == e.store
  {
  }

  /** Different archives have different keys, so that the only object that can be in the way
      of a batch is its own or a foreign one. Digests are of one length. */
  lemma KeyNamesContent(env: Env, revision: nat, kind: Kind, probe: string, rows: seq<Row>, now: int, revision': nat, kind': Kind, probe': string, rows': seq<Row>, now': int)
    requires env.Valid() && forall a :: |env.sum(a)| == 64
    requires NewBatch(env, revision, kind, probe, rows, now).key == NewBatch(env, revision', kind', probe', rows', now').key
    ensures rows == rows' && probe == probe'
  {
    var b, b' := NewBatch(env, revision, kind, probe, rows, now), NewBatch(env, revision', kind', probe', rows', now');
    EndsWithChecksum(env, revision, kind, probe, rows, now);
    EndsWithChecksum(env, revision', kind', probe', rows', now');
    assert b.checksum == b'.checksum;
    ArchiveReadsBack(env.org, rows, probe, rows', probe');
  }

  lemma EndsWithChecksum(env: Env, revision: nat, kind: Kind, probe: string, rows: seq<Row>, now: int)
    requires |env.sum(ArchiveOf(env.org, rows, probe))| == 64
    ensures var b := NewBatch(env, revision, kind, probe, rows, now);
      |b.key| >= 73 && b.key[|b.key| - 73..|b.key| - 9] == b.checksum == env.sum(ArchiveOf(env.org, rows, probe))
  {
    var b := NewBatch(env, revision, kind, probe, rows, now);
    var front := "providah-audit/" + env.org + "/" + (if kind == Probe then "checks/" + probe + "-" else Padded(FirstId(rows)) + "-" + Padded(LastId(rows)) + "-");
    assert b.key == front + b.checksum + ".jsonl.gz";
  }

  /** What is recorded: after a verified write the batch has succeeded and the cursor stands
      at its last event, or the target is verified; after a failed one it waits for the
      next attempt. A worker out of time, or of an old configuration, records nothing. */
  lemma RecordsIff(env: Env, e: Export, w: nat, now: int)
    requires w < |e.workers| && e.workers[w].phase in {Verified, Failed}
    ensures var t, job, b := Apply(env, e, Finish(w, now)), e.workers[w].job, e.workers[w].batch;
      var counts := e.config.Some? && InTime(e, w, now) && e.config.value.revision == job.revision;
      && (counts && e.workers[w].phase == Verified ==>
            && t.batches == e.batches[b := e.batches[b].(status := Succeeded, lease := None, nextAttempt := t.batches[b].nextAttempt)]
            && t.config == Some(if job.kind == Probe then e.config.value.(verified := true) else e.config.value.(cursor := LastId(job.rows))))
      && (counts && e.workers[w].phase == Failed ==>
            && t.batches == e.batches[b := e.batches[b].(status := Pending, lease := None, nextAttempt := now + Delay(job.attempts))]
            && t.config == e.config)
      && (!counts ==> t.batches == e.batches && t.config == e.config)
      && t.store == e.store && t.workers[w].phase == Gone
  {
  }

  /** The wait doubles from a minute up to an hour. */
  lemma DelayDoubles(n: nat)
    ensures Delay(1) == 60
    ensures 1 <= n ==> Delay(n + 1) == if 2 * Delay(n) <= 3600 then 2 * Delay(n) else 3600
  {
    assert Backoff(0) == 60 && Backoff(1) == 120 && Backoff(2) == 240 && Backoff(3) == 480 && Backoff(4) == 960;
    assert Backoff(5) == 1920 && Backoff(6) == 3840;
  }
}
