/** Scans of a connection running together with its operations: every change of an operation
    row is a Work step of the inventory, and what Discovery asks of such steps follows from
    the operation protocol, apart from what only the provider can promise. */
module InventoryOperations {
  import opened Wrappers
  import Deletions
  import Discovery
  import DiscoveryRuns
  import Operations
  import OperationRuns
  import OperationTable
  import Outcomes

  /** The inventory row of a native identity, given what the operation is about. */
  type Place = (Outcomes.Core, string) -> Discovery.Key

  datatype Joint = Joint(table: OperationTable.Table, scans: Discovery.State)

  datatype Move = Insert(id: string, life: Operations.Life) | Act(id: string, work: Operations.Step) | Scan(step: Discovery.Step)

  // ---- What an operation's step does to the inventory ----

  /** The judgement that a Finish step records, if it records one. */
  function Records(l: Operations.Life, s: Operations.Step): Option<Outcomes.Judgement> {
    if !s.Finish? || !Operations.Timely(l, s) || l.workers[s.worker].progress != Operations.Sending || !Operations.Holds(l, s.worker, s.now) then None
    else
      var j := Outcomes.Verdict(l.row.core, l.row.actionId, l.row.nativeId, l.workers[s.worker].dispatch, s.answer);
      if s.taken && Operations.Binds(l.row, j) then None else Some(j)
  }

  /** savePowerOutcome of a confirmed deletion. */
  function Deletes(place: Place, l: Operations.Life, s: Operations.Step): Option<Discovery.Key> {
    var j := Records(l, s);
    if j.Some? && l.row.core.action == Outcomes.Delete && j.value.status == Outcomes.Succeeded then Some(place(l.row.core, l.row.core.target)) else None
  }

  /** UpsertCreatedServer and UpsertCreatedSSHKey in bindCreatedResource. */
  function Creates(place: Place, l: Operations.Life, s: Operations.Step): Option<Discovery.Key> {
    var j := Records(l, s);
    if j.Some? && Operations.Binds(l.row, j.value) && !(l.row.core.kind == Outcomes.SshKey && j.value.power.value.outcome != Outcomes.Success)
    then Some(place(l.row.core, j.value.power.value.nativeId)) else None
  }

  /** A step that leaves the row alone is only a moment passing for the inventory. */
  function Seen(place: Place, id: string, l: Operations.Life, s: Operations.Step): Discovery.Step {
    var o := Operations.Apply(l, s).row;
    if o == l.row then Discovery.Queue(s.now, s.now, false)
    else Discovery.Work(id, o.updated, s.now, o.status, Deletes(place, l, s), Creates(place, l, s), o.observed)
  }

  /** The step with the verdict of the index on a binding. */
  ghost function Indexed(t: OperationTable.Table, id: string, s: Operations.Step): Operations.Step
    requires id in t
  {
    if s.Finish? then s.(taken := OperationTable.Collides(t, id, s)) else s
  }

  /** What is left to the provider: it answered a deletion or a creation before the
      transaction that records it began, and named what it made for this operation. */
  ghost predicate Truthful(place: Place, z: Joint, id: string, l: Operations.Life, s: Operations.Step) {
    var w, start := z.scans.world, Operations.Apply(l, s).row.updated;
    && (Deletes(place, l, s).Some? ==> var k := Deletes(place, l, s).value; k in w.gone && w.gone[k] <= start)
    && (Creates(place, l, s).Some? ==> var k := Creates(place, l, s).value; k in w.there && w.there[k] <= start && k in w.maker && w.maker[k] == id)
  }

  ghost predicate Enabled(place: Place, z: Joint, m: Move) {
    match m
    case Insert(id, life) => Operations.Created(life) && life.clock <= z.scans.clock
    case Act(id, work) =>
      id in z.table && z.scans.clock <= work.now
      && var s := Indexed(z.table, id, work); Operations.Timely(z.table[id], s) && Truthful(place, z, id, z.table[id], s)
    case Scan(step) =>
      && !step.Work?
      && (step.Appear? && step.origin.Some? ==> step.origin.value in z.table && Submitted(z.table[step.origin.value]))
  }

  /** A create whose call is out, answered or not: the provider may be at work on it. */
  ghost predicate Submitted(l: Operations.Life) {
    l.row.core.action == Outcomes.Create && exists e :: e in l.log && e.Sent? && e.request.submit
  }

  ghost function Apply(place: Place, z: Joint, m: Move): Joint {
    if !Enabled(place, z, m) then z
    else match m
      case Insert(id, life) => Joint(OperationTable.Apply(z.table, OperationTable.Insert(id, life)), z.scans)
      case Act(id, work) =>
        Joint(OperationTable.Apply(z.table, OperationTable.Act(id, work)),
              Discovery.Apply(z.scans, Seen(place, id, z.table[id], Indexed(z.table, id, work))))
      case Scan(step) => Joint(z.table, Discovery.Apply(z.scans, step))
  }

  ghost function Run(place: Place, z: Joint, moves: seq<Move>): Joint {
    if moves == [] then z else Apply(place, Run(place, z, moves[..|moves| - 1]), moves[|moves| - 1])
  }

  /** No operations yet, and no scans. */
  ghost predicate Fresh(z: Joint) {
    z.table == map[] && Discovery.Fresh(z.scans)
  }

  // ---- The inventory sees the operations as they are ----

  ghost predicate Sane(z: Joint) {
    && OperationTable.OnePerResource(z.table)
    && (forall id :: id in z.table ==> Fit(z, id))
    && (forall id :: id in z.scans.ops ==> id in z.table)
  }

  /** An operation in the table, its clock, and what the scans know of it. */
  ghost predicate Fit(z: Joint, id: string)
    requires id in z.table
  {
    var l := z.table[id];
    && OperationRuns.Claims(l) && OperationRuns.Stamped(l) && l.clock <= z.scans.clock
    && (if id in z.scans.ops then z.scans.ops[id] == Discovery.OpRow(l.row.status, l.row.updated)
        else l.row.status in {Outcomes.AwaitingApproval, Outcomes.Queued})
  }

  /** How a row may move, whatever the step: from an open state, not stamped in the future,
      and if it was observed, not backwards nor out of sight. */
  predicate MovesOn(before: Operations.Operation, after: Operations.Operation, now: int) {
    && !before.status.Terminal() && after.updated <= now
    && (before.status == Outcomes.Observing ==>
          before.updated <= after.updated && after.status in {Outcomes.Observing, Outcomes.Uncertain, Outcomes.Succeeded, Outcomes.Failed})
  }

  lemma RowMovesOn(l: Operations.Life, s: Operations.Step)
    requires OperationRuns.Claims(l) && OperationRuns.Stamped(l) && Operations.Timely(l, s)
    ensures var o := Operations.Apply(l, s).row; o == l.row || MovesOn(l.row, o, s.now)
    ensures Operations.Apply(l, s).clock == s.now
  {
    OperationRuns.StepAdvances(l, s);
    OperationRuns.StampedStep(l, s);
  }

  lemma OutcomeIsRecorded(place: Place, l: Operations.Life, s: Operations.Step)
    ensures Deletes(place, l, s).Some? ==> Operations.Apply(l, s).row.status == Outcomes.Succeeded
    ensures Creates(place, l, s).Some? ==> Operations.Apply(l, s).row.status in {Outcomes.Observing, Outcomes.Succeeded}
  {
  }

  lemma LawfulWork(scans: Discovery.State, id: string, before: Operations.Operation, after: Operations.Operation, now: int,
                   deletes: Option<Discovery.Key>, creates: Option<Discovery.Key>)
    requires scans.clock <= now && MovesOn(before, after, now)
    requires id in scans.ops ==> scans.ops[id] == Discovery.OpRow(before.status, before.updated)
    requires deletes.Some? ==> after.status == Outcomes.Succeeded && deletes.value in scans.world.gone && scans.world.gone[deletes.value] <= after.updated
    requires creates.Some? ==> after.status in {Outcomes.Observing, Outcomes.Succeeded} && creates.value in scans.world.there
                               && scans.world.there[creates.value] <= after.updated && creates.value in scans.world.maker && scans.world.maker[creates.value] == id
    ensures Discovery.Lawful(scans, Discovery.Work(id, after.updated, now, after.status, deletes, creates, after.observed))
  {
  }

  /** The clauses that Discovery puts on a Work step hold of every change of a row. */
  lemma WorkIsLawful(place: Place, z: Joint, id: string, s: Operations.Step)
    requires id in z.table && Fit(z, id) && z.scans.clock <= s.now && Operations.Timely(z.table[id], s)
    requires Truthful(place, z, id, z.table[id], s)
    ensures Discovery.Lawful(z.scans, Seen(place, id, z.table[id], s))
  {
    var l := z.table[id];
    RowMovesOn(l, s);
    OutcomeIsRecorded(place, l, s);
    if Operations.Apply(l, s).row != l.row {
      LawfulWork(z.scans, id, l.row, Operations.Apply(l, s).row, s.now, Deletes(place, l, s), Creates(place, l, s));
    }
  }

  lemma ScanKeepsOps(s: Discovery.State, step: Discovery.Step)
    requires !step.Work?
    ensures Discovery.Apply(s, step).ops == s.ops && s.clock <= Discovery.Apply(s, step).clock
    ensures Discovery.Lawful(s, step) ==> Discovery.Apply(s, step).clock == step.now
  {
  }

  lemma WorkSetsOp(s: Discovery.State, step: Discovery.Step)
    requires step.Work? && Discovery.Lawful(s, step)
    ensures Discovery.Apply(s, step).ops == s.ops[step.op := Discovery.OpRow(step.status, step.start)] && Discovery.Apply(s, step).clock == step.now
  {
  }

  lemma TableIsSane(z: Joint)
    requires Sane(z)
    ensures OperationTable.AllClaims(z.table)
  {
    forall id | id in z.table ensures OperationRuns.Claims(z.table[id]) {
      assert Fit(z, id);
    }
  }

  /** Rows that a move does not touch stay fit as the clock goes on. */
  lemma FitStays(z: Joint, t: Joint, id: string)
    requires id in z.table && Fit(z, id) && id in t.table && t.table[id] == z.table[id] && z.scans.clock <= t.scans.clock
    requires (id in t.scans.ops <==> id in z.scans.ops) && (id in z.scans.ops ==> t.scans.ops[id] == z.scans.ops[id])
    ensures Fit(t, id)
  {
  }

  lemma SaneInsert(place: Place, z: Joint, m: Move)
    requires Sane(z) && m.Insert? && Enabled(place, z, m)
    ensures Sane(Apply(place, z, m))
  {
    var table := OperationTable.Apply(z.table, OperationTable.Insert(m.id, m.life));
    TableIsSane(z);
    OperationTable.InsertKeepsIndex(z.table, OperationTable.Insert(m.id, m.life));
    if table != z.table {
      SaneWith(z, m.id, m.life);
    }
  }

  lemma SaneWith(z: Joint, id: string, life: Operations.Life)
    requires Sane(z) && id !in z.table && Operations.Created(life) && life.clock <= z.scans.clock
    requires OperationTable.OnePerResource(z.table[id := life])
    ensures Sane(Joint(z.table[id := life], z.scans))
  {
    var t := Joint(z.table[id := life], z.scans);
    forall other | other in t.table ensures Fit(t, other) {
      if other in z.table {
        FitStays(z, t, other);
      } else {
        FitFresh(t, other);
      }
    }
  }

  lemma FitFresh(t: Joint, id: string)
    requires id in t.table && Operations.Created(t.table[id]) && t.table[id].clock <= t.scans.clock && id !in t.scans.ops
    ensures Fit(t, id)
  {
    OperationRuns.ClaimsAlways(t.table[id], []);
    OperationRuns.StampedAlways(t.table[id], []);
  }

  lemma SaneScan(place: Place, z: Joint, m: Move)
    requires Sane(z) && m.Scan? && Enabled(place, z, m)
    ensures Sane(Apply(place, z, m))
  {
    var t := Apply(place, z, m);
    ScanKeepsOps(z.scans, m.step);
    forall id | id in t.table ensures Fit(t, id) {
      FitStays(z, t, id);
    }
  }

  /** The row that moves, and what the inventory knows of it afterwards. */
  lemma FitMoves(place: Place, z: Joint, id: string, s: Operations.Step)
    requires id in z.table && Fit(z, id) && z.scans.clock <= s.now && Operations.Timely(z.table[id], s)
    requires Truthful(place, z, id, z.table[id], s)
    ensures var t := Joint(z.table[id := Operations.Apply(z.table[id], s)], Discovery.Apply(z.scans, Seen(place, id, z.table[id], s)));
      && Fit(t, id) && z.scans.clock <= t.scans.clock
      && (forall other :: other != id ==> (other in t.scans.ops <==> other in z.scans.ops) && (other in z.scans.ops ==> t.scans.ops[other] == z.scans.ops[other]))
  {
    var l, seen := z.table[id], Seen(place, id, z.table[id], s);
    WorkIsLawful(place, z, id, s);
    OperationRuns.ClaimsStep(l, s);
    OperationRuns.StampedStep(l, s);
    RowMovesOn(l, s);
    if seen.Work? {
      WorkSetsOp(z.scans, seen);
    } else {
      ScanKeepsOps(z.scans, seen);
    }
    FitAfter(z, Discovery.Apply(z.scans, seen), id, Operations.Apply(l, s));
  }

  lemma FitAfter(z: Joint, scans: Discovery.State, id: string, after: Operations.Life)
    requires id in z.table && Fit(z, id) && OperationRuns.Claims(after) && OperationRuns.Stamped(after) && after.clock <= scans.clock
    requires || (scans.ops == z.scans.ops && after.row == z.table[id].row)
             || scans.ops == z.scans.ops[id := Discovery.OpRow(after.row.status, after.row.updated)]
    ensures Fit(Joint(z.table[id := after], scans), id)
    ensures forall other :: other != id ==> (other in scans.ops <==> other in z.scans.ops) && (other in z.scans.ops ==> scans.ops[other] == z.scans.ops[other])
  {
  }

  lemma SaneAct(place: Place, z: Joint, m: Move)
    requires Sane(z) && m.Act? && Enabled(place, z, m)
    ensures Sane(Apply(place, z, m))
  {
    var t, s := Apply(place, z, m), Indexed(z.table, m.id, m.work);
    assert Fit(z, m.id);
    TableIsSane(z);
    OperationTable.MoveKeepsIndex(z.table, OperationTable.Act(m.id, m.work));
    FitMoves(place, z, m.id, s);
    assert t == Joint(z.table[m.id := Operations.Apply(z.table[m.id], s)], Discovery.Apply(z.scans, Seen(place, m.id, z.table[m.id], s)));
    forall id | id in t.table ensures Fit(t, id) {
      if id != m.id {
        FitStays(z, t, id);
      }
    }
  }

  /** In every joint run the operation rows that a scan consults are the real ones, and
      whatever changes a row reaches the inventory. */
  lemma {:induction false} SaneAlways(place: Place, z: Joint, moves: seq<Move>)
    requires Sane(z)
    ensures Sane(Run(place, z, moves))
  {
    if moves != [] {
      var before, m := Run(place, z, moves[..|moves| - 1]), moves[|moves| - 1];
      SaneAlways(place, z, moves[..|moves| - 1]);
      if Enabled(place, before, m) {
        match m
        case Insert(_, _) => SaneInsert(place, before, m);
        case Act(_, _) => SaneAct(place, before, m);
        case Scan(_) => SaneScan(place, before, m);
      }
    }
  }

  /** So in every joint run no change of an operation row is lost on the inventory. */
  lemma {:induction false} WorkAlwaysArrives(place: Place, z: Joint, moves: seq<Move>, m: Move)
    requires Fresh(z) && m.Act? && Enabled(place, Run(place, z, moves), m)
    ensures var t := Run(place, z, moves); Discovery.Lawful(t.scans, Seen(place, m.id, t.table[m.id], Indexed(t.table, m.id, m.work)))
  {
    var t := Run(place, z, moves);
    SaneAlways(place, z, moves);
    assert Fit(t, m.id);
    WorkIsLawful(place, t, m.id, Indexed(t.table, m.id, m.work));
  }

  // ---- So the inventory's theorems hold of it ----

  /** The scans have lived a run of Discovery, none of whose Work steps was refused. */
  ghost predicate Reached(from: Discovery.State, s: Discovery.State) {
    exists steps :: s == Discovery.Run(from, steps)
  }

  lemma ReachedOn(from: Discovery.State, s: Discovery.State, step: Discovery.Step)
    requires Reached(from, s)
    ensures Reached(from, Discovery.Apply(s, step))
  {
    var steps :| s == Discovery.Run(from, steps);
    var more := steps + [step];
    assert more[..|more| - 1] == steps;
    assert Discovery.Run(from, more) == Discovery.Apply(s, step);
  }

  lemma {:induction false} ReachedAlways(place: Place, z: Joint, moves: seq<Move>)
    ensures Reached(z.scans, Run(place, z, moves).scans)
  {
    if moves == [] {
      assert Discovery.Run(z.scans, []) == z.scans;
    } else {
      var before, m := Run(place, z, moves[..|moves| - 1]), moves[|moves| - 1];
      ReachedAlways(place, z, moves[..|moves| - 1]);
      match m
      case Insert(_, _) =>
      case Act(id, work) => if Enabled(place, before, m) { ReachedOn(z.scans, before.scans, Seen(place, id, before.table[id], Indexed(before.table, id, work))); }
      case Scan(step) => ReachedOn(z.scans, before.scans, step);
    }
  }

  // ---- Resources are made for creates ----

  ghost predicate Made(z: Joint) {
    forall k :: k in z.scans.world.maker ==> k in z.scans.world.there && MadeByCreate(z, z.scans.world.maker[k])
  }

  ghost predicate MadeByCreate(z: Joint, id: string) {
    id in z.table && z.table[id].row.core.action == Outcomes.Create
  }

  /** What a step of the inventory does to the record of deletions and makers. */
  lemma WorldStep(s: Discovery.State, step: Discovery.Step, k: Discovery.Key)
    ensures var w := Discovery.Apply(s, step).world;
      && (k in s.world.maker && k in s.world.there ==> k in w.maker && k in w.there && w.maker[k] == s.world.maker[k])
      && (k in w.maker && k !in s.world.maker ==> step.Appear? && k in w.there && step.origin == Some(w.maker[k]))
      && (step.Work? && Discovery.Lawful(s, step) && step.deletes == Some(k) ==> k in w.deletedBy)
  {
    if step.Finish? && Discovery.Lawful(s, step) {
      Deletions.FinishKeepsWorld(s.(clock := step.now), step);
    }
  }

  lemma CoreStays(l: Operations.Life, s: Operations.Step)
    ensures Operations.Apply(l, s).row.core == l.row.core
  {
  }

  lemma MadeScan(place: Place, z: Joint, m: Move)
    requires Made(z) && m.Scan? && Enabled(place, z, m)
    ensures Made(Apply(place, z, m))
  {
    var t := Apply(place, z, m);
    forall k | k in t.scans.world.maker ensures k in t.scans.world.there && MadeByCreate(t, t.scans.world.maker[k]) {
      WorldStep(z.scans, m.step, k);
    }
  }

  lemma MadeAct(place: Place, z: Joint, m: Move)
    requires Made(z) && m.Act? && Enabled(place, z, m)
    ensures Made(Apply(place, z, m))
  {
    var t, s := Apply(place, z, m), Indexed(z.table, m.id, m.work);
    CoreStays(z.table[m.id], s);
    forall k | k in t.scans.world.maker ensures k in t.scans.world.there && MadeByCreate(t, t.scans.world.maker[k]) {
      WorldStep(z.scans, Seen(place, m.id, z.table[m.id], s), k);
      assert MadeByCreate(z, z.scans.world.maker[k]);
    }
  }

  lemma {:induction false} MadeAlways(place: Place, z: Joint, moves: seq<Move>)
    requires Made(z)
    ensures Made(Run(place, z, moves))
  {
    if moves != [] {
      var before, m := Run(place, z, moves[..|moves| - 1]), moves[|moves| - 1];
      MadeAlways(place, z, moves[..|moves| - 1]);
      match m
      case Insert(_, _) => assert forall id :: MadeByCreate(before, id) ==> MadeByCreate(Apply(place, before, m), id);
      case Act(_, _) => if Enabled(place, before, m) { MadeAct(place, before, m); }
      case Scan(_) => if Enabled(place, before, m) { MadeScan(place, before, m); }
    }
  }

  // ---- Deletions, seen from the operations ----

  predicate DeleteDone(o: Operations.Operation) {
    o.core.action == Outcomes.Delete && o.status == Outcomes.Succeeded
  }

  function Target(place: Place, o: Operations.Operation): Discovery.Key { place(o.core, o.core.target) }

  /** The move with which this delete succeeds. */
  ghost predicate Succeeds(place: Place, z: Joint, m: Move, id: string) {
    && id in z.table && !DeleteDone(z.table[id].row)
    && id in Apply(place, z, m).table && DeleteDone(Apply(place, z, m).table[id].row)
  }

  lemma SucceedsByRecord(place: Place, l: Operations.Life, s: Operations.Step)
    ensures DeleteDone(Operations.Apply(l, s).row) && !DeleteDone(l.row) ==> Deletes(place, l, s) == Some(Target(place, l.row))
  {
  }

  lemma OnlyActsSucceed(place: Place, z: Joint, m: Move, id: string)
    requires Succeeds(place, z, m, id)
    ensures m.Act? && m.id == id && Enabled(place, z, m) && DeleteDone(Operations.Apply(z.table[id], Indexed(z.table, id, m.work)).row)
  {
  }

  lemma DeletedNow(place: Place, z: Joint, id: string, s: Operations.Step)
    requires id in z.table && Fit(z, id) && z.scans.clock <= s.now && Operations.Timely(z.table[id], s)
    requires Truthful(place, z, id, z.table[id], s)
    requires !DeleteDone(z.table[id].row) && DeleteDone(Operations.Apply(z.table[id], s).row)
    ensures Target(place, z.table[id].row) in Discovery.Apply(z.scans, Seen(place, id, z.table[id], s)).world.deletedBy
  {
    WorkIsLawful(place, z, id, s);
    SucceedsByRecord(place, z.table[id], s);
    WorldStep(z.scans, Seen(place, id, z.table[id], s), Target(place, z.table[id].row));
  }

  /** A delete that succeeds is confirmed in the inventory by the same transaction. */
  lemma DeletionIsRecorded(place: Place, z: Joint, m: Move, id: string)
    requires Sane(z) && Succeeds(place, z, m, id)
    ensures Target(place, z.table[id].row) in Apply(place, z, m).scans.world.deletedBy
  {
    OnlyActsSucceed(place, z, m, id);
    assert Fit(z, id);
    DeletedNow(place, z, id, Indexed(z.table, id, m.work));
  }

  /** The move with which an open create binds the resource made for it. */
  ghost predicate Rebinds(place: Place, z: Joint, m: Move, k: Discovery.Key) {
    && m.Act? && m.id in z.table && Enabled(place, z, m)
    && Creates(place, z.table[m.id], Indexed(z.table, m.id, m.work)) == Some(k)
    && Deletions.MadeFor(z.scans, m.id, k)
  }

  lemma RebindsWhenUndone(place: Place, z: Joint, m: Move, k: Discovery.Key)
    requires k in z.scans.world.deletedBy && k !in Apply(place, z, m).scans.world.deletedBy
    ensures Rebinds(place, z, m, k)
  {
    match m
    case Insert(_, _) =>
    case Act(id, work) => Deletions.UndoingStep(z.scans, Seen(place, id, z.table[id], Indexed(z.table, id, work)), k);
    case Scan(step) => Deletions.UndoingStep(z.scans, step, k);
  }

  lemma {:induction false} OnlyItsMakerUndoes(place: Place, z: Joint, moves: seq<Move>, k: Discovery.Key) returns (i: nat)
    requires k in z.scans.world.deletedBy && k !in Run(place, z, moves).scans.world.deletedBy
    ensures i < |moves| && Rebinds(place, Run(place, z, moves[..i]), moves[i], k)
  {
    var last := |moves| - 1;
    if k in Run(place, z, moves[..last]).scans.world.deletedBy {
      i := last;
      RebindsWhenUndone(place, Run(place, z, moves[..last]), moves[last], k);
    } else {
      i := OnlyItsMakerUndoes(place, z, moves[..last], k);
      assert moves[..last][..i] == moves[..i];
    }
  }

  lemma {:induction false} NotLive(place: Place, z: Joint, moves: seq<Move>, k: Discovery.Key)
    requires Discovery.Fresh(z.scans) && k in Run(place, z, moves).scans.world.deletedBy
    ensures !Discovery.Live(Run(place, z, moves).scans.inventory, k)
  {
    ReachedAlways(place, z, moves);
    var steps :| Run(place, z, moves).scans == Discovery.Run(z.scans, steps);
    DiscoveryRuns.DeletedStaysDeleted(z.scans, steps, k);
  }

  lemma {:induction false} RunConcat(place: Place, z: Joint, a: seq<Move>, b: seq<Move>)
    ensures Run(place, z, a + b) == Run(place, Run(place, z, a), b)
  {
    if b == [] {
      assert a + b == a;
    } else {
      RunConcat(place, z, a, b[..|b| - 1]);
      assert (a + b)[..|a + b| - 1] == a + b[..|b| - 1] && (a + b)[|a + b| - 1] == b[|b| - 1];
    }
  }

  lemma DeletedUntil(place: Place, z: Joint, before: seq<Move>, t: Joint, more: seq<Move>, k: Discovery.Key)
    requires Discovery.Fresh(z.scans) && t == Run(place, z, before) && Discovery.Live(Run(place, t, more).scans.inventory, k)
    ensures k !in Run(place, t, more).scans.world.deletedBy
  {
    RunConcat(place, z, before, more);
    if k in Run(place, t, more).scans.world.deletedBy {
      NotLive(place, z, before + more, k);
    }
  }

  /** From the transaction with which a delete succeeds, its target is not live, unless
      meanwhile the create it was made for, open until then, has bound it. */
  lemma {:induction false} DeletedTargetIsNotLive(place: Place, z: Joint, moves: seq<Move>, m: Move, more: seq<Move>, id: string) returns (i: nat)
    requires Fresh(z) && Succeeds(place, Run(place, z, moves), m, id)
    requires var s := Run(place, z, moves); Discovery.Live(Run(place, Apply(place, s, m), more).scans.inventory, Target(place, s.table[id].row))
    ensures var s := Run(place, z, moves);
      i < |more| && Rebinds(place, Run(place, Apply(place, s, m), more[..i]), more[i], Target(place, s.table[id].row))
  {
    var s := Run(place, z, moves);
    SaneAlways(place, z, moves);
    DeletionIsRecorded(place, s, m, id);
    var t, k := Apply(place, s, m), Target(place, s.table[id].row);
    assert (moves + [m])[..|moves|] == moves;
    DeletedUntil(place, z, moves + [m], t, more, k);
    i := OnlyItsMakerUndoes(place, t, more, k);
  }

  /** Once no create is open, a confirmed deletion holds over every further joint run: what
      a caller can check in the operations table. */
  lemma {:induction false} DeletionHolds(place: Place, z: Joint, moves: seq<Move>, more: seq<Move>, k: Discovery.Key)
    requires Fresh(z) && k in Run(place, z, moves).scans.world.deletedBy
    requires forall id :: MadeByCreate(Run(place, z, moves), id) ==> Run(place, z, moves).table[id].row.status.Terminal()
    ensures !Discovery.Live(Run(place, Run(place, z, moves), more).scans.inventory, k)
  {
    var t := Run(place, z, moves);
    SaneAlways(place, z, moves);
    MadeAlways(place, z, moves);
    ReachedAlways(place, z, moves);
    ReachedAlways(place, t, more);
    var before :| t.scans == Discovery.Run(z.scans, before);
    var steps :| Run(place, t, more).scans == Discovery.Run(t.scans, steps);
    if k in t.scans.world.maker {
      assert Fit(t, t.scans.world.maker[k]);
    }
    Deletions.GoneForGoodIff(z.scans, before, k);
  }
}
