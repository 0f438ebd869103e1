/** How long a confirmed deletion lasts. Scans respect it for good; but a create that is
    still in flight may bind its resource after a scan has published it and another
    operation has deleted it, and binding makes the row live again
    (internal/core/creation.go:177-206, internal/database/operations.sql.go:1104-1142). */
module Deletions {
  import opened Wrappers
  import opened Discovery
  import opened DiscoveryRuns
  import Outcomes

  lemma UndoingStep(s: State, step: Step, k: Key)
    requires k in s.world.deletedBy && k !in Apply(s, step).world.deletedBy
    ensures step.Work? && step.creates == Some(k) && MadeFor(s, step.op, k)
  {
    if step.Finish? && Lawful(s, step) {
      FinishKeepsWorld(s.(clock := step.now), step);
    }
  }

  lemma FinishKeepsWorld(s: State, step: Step)
    requires step.Finish? && step.worker < |s.scans.workers|
    ensures Finished(s, step.worker, step.start, step.now, step.moduleAllowed).world == s.world
  {
  }

  /** The operation this resource was made for, not over yet. */
  predicate MadeFor(s: State, op: string, k: Key) {
    k in s.world.maker && s.world.maker[k] == op && (op in s.ops ==> !s.ops[op].status.Terminal())
  }

  /** Whenever a confirmed deletion has ended, the operation that the resource was made for
      has bound it since, while it was open. */
  lemma {:induction false} OnlyItsMakerUndoes(s: State, steps: seq<Step>, k: Key) returns (i: nat)
    requires k in s.world.deletedBy && k !in Run(s, steps).world.deletedBy
    ensures i < |steps| && steps[i].Work? && steps[i].creates == Some(k) && MadeFor(Run(s, steps[..i]), steps[i].op, k)
  {
    var last := |steps| - 1;
    if k in Run(s, steps[..last]).world.deletedBy {
      i := last;
      UndoingStep(Run(s, steps[..last]), steps[last], k);
    } else {
      i := OnlyItsMakerUndoes(s, steps[..last], k);
      assert steps[..last][..i] == steps[..i];
    }
  }

  // ---- It happens ----

  const SERVER: Key := Key("compute.server", "eu", "7")

  /** The create's call is out while a scan finds and publishes what it has made ... */
  const PUBLISHING: seq<Step> := [
    Work("create", 1, 1, Outcomes.Dispatching, None, None, ""), Queue(1, 1, false),
    Appear(SERVER, Some("create"), 2),
    Queue(3, 3, true), Claim(0, 4), Fetch(0, 5, Some(Snapshot(map[SERVER := "running"], {"compute.server"}))), Finish(0, 6, 6, true)]

  /** ... a delete of the published server is confirmed, and the create's answer arrives. */
  const DELETING: seq<Step> := [
    Work("delete", 7, 7, Outcomes.Dispatching, None, None, ""), Queue(7, 7, false),
    Vanish(SERVER, 8),
    Work("delete", 9, 9, Outcomes.Succeeded, Some(SERVER), None, "deleted")]

  const BINDING: Step := Work("create", 10, 10, Outcomes.Observing, None, Some(SERVER), "running")

  function Blank(): State {
    State(Scans(Connection(true, false, 1), [], [], []), map[], map[], World(map[], map[], map[], map[], map[]), 0)
  }

  lemma RunLast(s: State, steps: seq<Step>)
    requires steps != []
    ensures Run(s, steps) == Apply(Run(s, steps[..|steps| - 1]), steps[|steps| - 1])
  {
  }

  /** Once the provider has made the server. */
  function Made(): State {
    State(Scans(Connection(true, false, 1), [], [], []), map[], map["create" := OpRow(Outcomes.Dispatching, 1)],
          World(map[], map[SERVER := 2], map[SERVER := "create"], map[], map[]), 2)
  }

  lemma RunMade()
    ensures Run(Blank(), PUBLISHING[..3]) == Made()
  {
    assert PUBLISHING[..3][..2] == PUBLISHING[..2] && PUBLISHING[..2][..1] == PUBLISHING[..1] && PUBLISHING[..1][..0] == [];
    assert Run(Blank(), []) == Blank();
    var dispatched := Apply(Blank(), PUBLISHING[0]);
    assert Run(Blank(), PUBLISHING[..1]) == dispatched;
    assert Run(Blank(), PUBLISHING[..2]) == Apply(dispatched, PUBLISHING[1]);
    assert Run(Blank(), PUBLISHING[..3]) == Apply(Run(Blank(), PUBLISHING[..2]), PUBLISHING[2]);
  }

  /** Before the scan finishes. */
  function Fetched(): State {
    var c := Scans(Connection(true, false, 1), [Job(3, 1, Running, Some(184))],
                   [Worker(0, 5, Read(4, Some(Snapshot(map[SERVER := "running"], {"compute.server"}))))], []);
    Made().(scans := c, clock := 5)
  }

  lemma RunFetched()
    ensures Run(Blank(), PUBLISHING[..6]) == Fetched()
  {
    RunMade();
    assert PUBLISHING[..6][..5] == PUBLISHING[..5] && PUBLISHING[..5][..4] == PUBLISHING[..4] && PUBLISHING[..4][..3] == PUBLISHING[..3];
    var queued := Apply(Made(), PUBLISHING[3]);
    assert Run(Blank(), PUBLISHING[..4]) == queued;
    var claimed := Apply(queued, PUBLISHING[4]);
    assert Run(Blank(), PUBLISHING[..5]) == claimed;
    assert Run(Blank(), PUBLISHING[..6]) == Apply(claimed, PUBLISHING[5]);
  }

  lemma ServerIsPublished()
    ensures var z := Run(Blank(), PUBLISHING);
      Live(z.inventory, SERVER) && z.ops == Made().ops && z.world == Made().world && z.clock == 6
  {
    RunFetched();
    RunLast(Blank(), PUBLISHING);
    assert PUBLISHING[..|PUBLISHING| - 1] == PUBLISHING[..6];
    PublishedIsTheSnapshot(map[], Snapshot(map[SERVER := "running"], {"compute.server"}), SERVER);
  }

  lemma DeleteIsSent()
    ensures var z := Run(Run(Blank(), PUBLISHING), DELETING[..2]);
      && z.clock == 7 && z.world == Made().world
      && z.ops == map["create" := OpRow(Outcomes.Dispatching, 1), "delete" := OpRow(Outcomes.Dispatching, 7)]
  {
    ServerIsPublished();
    var z := Run(Blank(), PUBLISHING);
    assert DELETING[..2][..1] == DELETING[..1] && DELETING[..1][..0] == [];
    assert Run(z, []) == z;
    assert Run(z, DELETING[..1]) == Apply(z, DELETING[0]);
    assert Run(z, DELETING[..2]) == Apply(Run(z, DELETING[..1]), DELETING[1]);
  }

  lemma ServerVanishes()
    ensures var z := Run(Run(Blank(), PUBLISHING), DELETING[..3]);
      && z.clock == 8 && z.world == Made().world.(gone := map[SERVER := 8])
      && z.ops == map["create" := OpRow(Outcomes.Dispatching, 1), "delete" := OpRow(Outcomes.Dispatching, 7)]
  {
    DeleteIsSent();
    assert DELETING[..3][..2] == DELETING[..2];
    RunLast(Run(Blank(), PUBLISHING), DELETING[..3]);
  }

  lemma ServerIsDeleted()
    ensures var z := Run(Run(Blank(), PUBLISHING), DELETING);
      && SERVER in z.world.deletedBy && !Live(z.inventory, SERVER) && z.clock == 9
      && z.world.maker == Made().world.maker && z.world.there == Made().world.there
      && "create" in z.ops && z.ops["create"] == OpRow(Outcomes.Dispatching, 1)
  {
    ServerVanishes();
    RunLast(Run(Blank(), PUBLISHING), DELETING);
    assert DELETING[..|DELETING| - 1] == DELETING[..3];
  }

  lemma ServerIsBack()
    ensures Live(Apply(Run(Run(Blank(), PUBLISHING), DELETING), BINDING).inventory, SERVER)
  {
    ServerIsDeleted();
  }

  lemma {:induction false} RunConcat(s: State, a: seq<Step>, b: seq<Step>)
    ensures Run(s, a + b) == Run(Run(s, a), b)
  {
    if b == [] {
      assert a + b == a;
    } else {
      RunConcat(s, a, b[..|b| - 1]);
      assert (a + b)[..|a + b| - 1] == a + b[..|b| - 1] && (a + b)[|a + b| - 1] == b[|b| - 1];
    }
  }

  /** A run in which a confirmed deletion is undone. */
  lemma DeletionIsUndone() returns (s: State, before: seq<Step>, step: Step, k: Key)
    ensures Fresh(s) && k in Run(s, before).world.deletedBy && !Live(Run(s, before).inventory, k)
    ensures Live(Apply(Run(s, before), step).inventory, k)
  {
    s, before, step, k := Blank(), PUBLISHING + DELETING, BINDING, SERVER;
    ServerIsDeleted();
    ServerIsBack();
    RunConcat(s, PUBLISHING, DELETING);
  }

  // ---- Exactly when ----

  /** The operation this resource was made for is not over yet. */
  predicate MakerOpen(s: State, k: Key) {
    k in s.world.maker && s.world.maker[k] in s.ops && !s.ops[s.world.maker[k]].status.Terminal()
  }

  /** What was made was made for a known operation, and nothing is stamped in the future. */
  ghost predicate Known(s: State) {
    && (forall k :: k in s.world.maker ==> k in s.world.there && s.world.maker[k] in s.ops)
    && (forall id :: id in s.ops ==> s.ops[id].updated <= s.clock)
  }

  lemma KnownStep(s: State, step: Step)
    requires Known(s)
    ensures Known(Apply(s, step))
  {
    if Lawful(s, step) && step.Finish? {
      KnownFinish(s.(clock := step.now), step);
    }
  }

  lemma KnownFinish(s: State, step: Step)
    requires Known(s) && step.Finish? && step.worker < |s.scans.workers|
    ensures Known(Finished(s, step.worker, step.start, step.now, step.moduleAllowed))
  {
  }

  lemma {:induction false} KnownAlways(s: State, steps: seq<Step>)
    requires Fresh(s)
    ensures Known(Run(s, steps))
  {
    if steps != [] {
      KnownAlways(s, steps[..|steps| - 1]);
      KnownStep(Run(s, steps[..|steps| - 1]), steps[|steps| - 1]);
    }
  }

  /** In no continuation is the resource live again. */
  ghost predicate GoneForGood(s: State, k: Key) {
    forall steps :: !Live(Run(s, steps).inventory, k)
  }

  /** Deleted, and its maker, if any, is over. */
  ghost predicate Final(s: State, k: Key) {
    k in s.world.deletedBy && k in s.world.gone && !MakerOpen(s, k) && (k in s.world.maker ==> s.world.maker[k] in s.ops)
  }

  lemma FinalStep(s: State, step: Step, k: Key)
    requires Final(s, k)
    ensures Final(Apply(s, step), k)
  {
    if Lawful(s, step) && step.Finish? {
      FinalFinish(s.(clock := step.now), step, k);
    }
  }

  lemma FinalFinish(s: State, step: Step, k: Key)
    requires Final(s, k) && step.Finish? && step.worker < |s.scans.workers|
    ensures Final(Finished(s, step.worker, step.start, step.now, step.moduleAllowed), k)
  {
  }

  lemma {:induction false} FinalStays(s: State, steps: seq<Step>, k: Key)
    requires Sound(s) && Final(s, k)
    ensures Final(Run(s, steps), k) && !Live(Run(s, steps).inventory, k)
  {
    if steps != [] {
      FinalStays(s, steps[..|steps| - 1], k);
      FinalStep(Run(s, steps[..|steps| - 1]), steps[|steps| - 1], k);
    }
    SoundFrom(s, steps);
    assert Deleted(Run(s, steps), k);
  }

  /** An open maker may bind the resource at once. */
  lemma MakerBrings(s: State, k: Key)
    requires Sound(s) && Known(s) && MakerOpen(s, k)
    ensures !GoneForGood(s, k)
  {
    var step := Work(s.world.maker[k], s.clock, s.clock, Outcomes.Observing, None, Some(k), "");
    assert Lawful(s, step);
    assert [step][..0] == [] && Run(s, [step]) == Apply(s, step);
    assert Live(Run(s, [step]).inventory, k);
  }

  /** A confirmed deletion lasts for good if and only if no create is still open that the
      resource was made for. */
  lemma {:induction false} GoneForGoodIff(s: State, before: seq<Step>, k: Key)
    requires Fresh(s) && k in Run(s, before).world.deletedBy
    ensures GoneForGood(Run(s, before), k) <==> !MakerOpen(Run(s, before), k)
  {
    var z := Run(s, before);
    SoundAlways(s, before);
    KnownAlways(s, before);
    assert Deleted(z, k);
    if MakerOpen(z, k) {
      MakerBrings(z, k);
    } else {
      forall steps ensures !Live(Run(z, steps).inventory, k) {
        FinalStays(z, steps, k);
      }
    }
  }

  /** What a caller can check beforehand: if every operation of the connection is over,
      whatever is confirmed as deleted is gone for good. */
  lemma {:induction false} NothingOpenNothingBack(s: State, before: seq<Step>, k: Key)
    requires Fresh(s) && k in Run(s, before).world.deletedBy
    requires forall id :: id in Run(s, before).ops ==> Run(s, before).ops[id].status.Terminal()
    ensures GoneForGood(Run(s, before), k)
  {
    GoneForGoodIff(s, before, k);
  }

  /** And a revived row does not last: the next scan that begins after the deletion, covers
      its kind and is published retires it. */
  lemma {:induction false} NextScanRetires(s: State, before: seq<Step>, step: Step, k: Key)
    requires Fresh(s) && step.Finish? && k in Run(s, before).world.gone
    requires var z := Run(s, before); |Apply(z, step).scans.published| > |z.scans.published|
    requires var z := Run(s, before); var p := Apply(z, step).scans.published[|z.scans.published|]; z.world.gone[k] < p.readAt && k.kind in p.snapshot.covered
    ensures !Live(Apply(Run(s, before), step).inventory, k)
  {
    var z := Run(s, before);
    SoundAlways(s, before);
    OnlySuccessPublishes(z, step);
    var w := z.scans.workers[step.worker];
    assert Seen(z.world, z.clock, w);
    PublishedIsTheSnapshot(z.inventory, w.progress.result.value, k);
  }
}
