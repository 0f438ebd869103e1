/** The run in which a late create undoes a confirmed deletion, step by step through the
    transactions of both operations: the index on busy resources does not stop it, because
    a create has no resource until it is bound. */
module LateBinding {
  import opened Wrappers
  import opened InventoryOperations
  import Deletions
  import Discovery
  import Operations
  import OperationTable
  import Outcomes

  function Where(core: Outcomes.Core, native: string): Discovery.Key {
    Discovery.Key("compute.server", "eu", native)
  }

  // ---- The two operations ----

  function About(action: Outcomes.Action, target: string): Outcomes.Core {
    Outcomes.Core("ann", action, Outcomes.Server, target, "running", "", "", "", "", "", "", "conn", 1, 1, "", 0, false, None)
  }

  function Requested(core: Outcomes.Core, resource: Option<string>, at: int): Operations.Life {
    Operations.Life(Operations.Operation(core, Outcomes.Queued, at, at + Operations.REQUEST, None, None, None,
                                         resource, core.target, "", "", None, at, None, at), [], [], at)
  }

  /** Every gate is open, and no approval is asked for. */
  function Welcome(): Operations.Facts {
    Operations.Facts(true, true, true, true, true, true, true, false, 1, 0, false, true,
                     Some(Operations.ResourceRow(Outcomes.Server, "", "running", "", "")), true, false, true, true, true, true, true, true)
  }

  function Claimed(core: Outcomes.Core, resource: Option<string>, at: int, now: int): Operations.Life {
    Operations.Apply(Requested(core, resource, at), Operations.Claim(now))
  }

  function Sent(core: Outcomes.Core, resource: Option<string>, at: int, now: int): Operations.Life {
    Operations.Apply(Claimed(core, resource, at, now), Operations.Check(0, now, now, Welcome()))
  }

  lemma SendsAtOnce(core: Outcomes.Core, resource: Option<string>, at: int, now: int)
    requires core == About(core.action, core.target) && at <= now <= at + Operations.REQUEST
    ensures Operations.Created(Requested(core, resource, at))
    ensures var c := Claimed(core, resource, at, now);
      c.row == Requested(core, resource, at).row.(status := Outcomes.Dispatching, lease := Some(now + Operations.LEASE), updated := now)
      && c.clock == now && |c.workers| == 1 && c.workers[0] == Operations.Worker(now, true, now, Operations.Holding)
    ensures var t := Sent(core, resource, at, now);
      t.row == Claimed(core, resource, at, now).row && t.clock == now && |t.workers| == 1
      && t.workers[0] == Operations.Worker(now, true, now, Operations.Sending)
      && |t.log| == 1 && t.log[0].Sent? && t.log[0].request.submit
  {
  }

  // ---- One move at a time ----

  /** What an operation's step shows the inventory when it records no outcome. */
  lemma ActsQuietly(z: Joint, id: string, s: Operations.Step, after: Operations.Life)
    requires id in z.table && z.scans.clock <= s.now && !s.Finish? && Operations.Timely(z.table[id], s) && after == Operations.Apply(z.table[id], s)
    ensures Apply(Where, z, Act(id, s)) == Joint(z.table[id := after], Discovery.Apply(z.scans,
      if after.row == z.table[id].row then Discovery.Queue(s.now, s.now, false)
      else Discovery.Work(id, after.row.updated, s.now, after.row.status, None, None, after.row.observed)))
  {
  }

  lemma {:induction false} Scans(t: OperationTable.Table, s: Discovery.State, steps: seq<Discovery.Step>) returns (moves: seq<Move>)
    requires forall i :: 0 <= i < |steps| ==> !steps[i].Work?
    requires forall i :: 0 <= i < |steps| && steps[i].Appear? && steps[i].origin.Some? ==> steps[i].origin.value in t && Submitted(t[steps[i].origin.value])
    ensures Run(Where, Joint(t, s), moves) == Joint(t, Discovery.Run(s, steps))
  {
    if steps == [] {
      moves := [];
    } else {
      var init, last := steps[..|steps| - 1], steps[|steps| - 1];
      var before := Scans(t, s, init);
      moves := before + [Scan(last)];
      assert moves[..|moves| - 1] == before;
    }
  }

  lemma RunThree(z: Joint, a: Move, b: Move, c: Move)
    ensures Run(Where, z, [a, b, c]) == Apply(Where, Apply(Where, Apply(Where, z, a), b), c)
  {
    assert [a, b, c][..2] == [a, b] && [a, b][..1] == [a] && [a][..0] == [];
    assert Run(Where, z, [a]) == Apply(Where, z, a) && Run(Where, z, [a, b]) == Apply(Where, Run(Where, z, [a]), b);
  }

  // ---- The run ----

  /** A request that is inserted, claimed and sent, with nobody else on its resource. */
  lemma Launches(z: Joint, id: string, core: Outcomes.Core, resource: Option<string>, now: int)
    requires core == About(core.action, core.target) && id !in z.table && z.scans.clock <= now <= z.scans.clock + Operations.REQUEST
    requires resource.Some? ==> !OperationTable.Occupied(z.table, resource.value, id)
    ensures var at := z.scans.clock;
      Run(Where, z, [Insert(id, Requested(core, resource, at)), Act(id, Operations.Claim(now)), Act(id, Operations.Check(0, now, now, Welcome()))])
      == Joint(z.table[id := Sent(core, resource, at, now)],
               Discovery.Apply(Discovery.Apply(z.scans, Discovery.Work(id, now, now, Outcomes.Dispatching, None, None, "")), Discovery.Queue(now, now, false)))
  {
    var at := z.scans.clock;
    SendsAtOnce(core, resource, at, now);
    var a, b, c := Insert(id, Requested(core, resource, at)), Act(id, Operations.Claim(now)), Act(id, Operations.Check(0, now, now, Welcome()));
    RunThree(z, a, b, c);
    var inserted := Apply(Where, z, a);
    assert inserted == Joint(z.table[id := Requested(core, resource, at)], z.scans);
    ActsQuietly(inserted, id, Operations.Claim(now), Claimed(core, resource, at, now));
    var claimed := Apply(Where, inserted, b);
    ClockAfterWork(z.scans, Discovery.Work(id, now, now, Outcomes.Dispatching, None, None, ""));
    assert claimed.table == z.table[id := Claimed(core, resource, at, now)];
    ActsQuietly(claimed, id, Operations.Check(0, now, now, Welcome()), Sent(core, resource, at, now));
    assert Apply(Where, claimed, c).table == z.table[id := Sent(core, resource, at, now)];
  }

  lemma ClockAfterWork(s: Discovery.State, step: Discovery.Step)
    requires step.Work? && s.clock <= step.now
    ensures Discovery.Apply(s, step).clock <= step.now
  {
  }

  function Creating(): Operations.Life { Sent(About(Outcomes.Create, ""), None, 0, 1) }

  function Deleting(): Operations.Life { Sent(About(Outcomes.Delete, "7"), Some("srv"), 6, 7) }

  const DELETED: Operations.Step :=
    Operations.Finish(0, 9, 9, Some(Outcomes.PowerResult(Outcomes.Success, "", "deleted", "", "", "", "")), "srv", false)

  const BOUND: Operations.Step :=
    Operations.Finish(0, 10, 10, Some(Outcomes.PowerResult(Outcomes.Accepted, "a", "running", "7", "", "", "")), "srv", false)

  lemma DeleteIsRecorded()
    ensures Operations.Timely(Deleting(), DELETED)
    ensures var o := Operations.Apply(Deleting(), DELETED).row;
      o.status == Outcomes.Succeeded && o.updated == 9 && o.observed == "deleted" && o.core == About(Outcomes.Delete, "7")
    ensures Deletes(Where, Deleting(), DELETED) == Some(Deletions.SERVER) && Creates(Where, Deleting(), DELETED) == None
  {
    SendsAtOnce(About(Outcomes.Delete, "7"), Some("srv"), 6, 7);
  }

  lemma CreateIsBound()
    ensures Operations.Timely(Creating(), BOUND)
    ensures var o := Operations.Apply(Creating(), BOUND).row; o.status == Outcomes.Observing && o.updated == 10 && o.observed == "running"
    ensures Deletes(Where, Creating(), BOUND) == None && Creates(Where, Creating(), BOUND) == Some(Deletions.SERVER)
  {
    SendsAtOnce(About(Outcomes.Create, ""), None, 0, 1);
  }

  function Early(): Discovery.State { Discovery.Run(Deletions.Blank(), Deletions.PUBLISHING[..2]) }

  lemma CreateIsSent() returns (moves: seq<Move>)
    ensures Run(Where, Joint(map[], Deletions.Blank()), moves) == Joint(map["create" := Creating()], Early())
    ensures Submitted(Creating())
  {
    Launches(Joint(map[], Deletions.Blank()), "create", About(Outcomes.Create, ""), None, 1);
    SendsAtOnce(About(Outcomes.Create, ""), None, 0, 1);
    SameStart();
    assert Creating().log[0] in Creating().log;
    moves := [Insert("create", Requested(About(Outcomes.Create, ""), None, 0)), Act("create", Operations.Claim(1)), Act("create", Operations.Check(0, 1, 1, Welcome()))];
  }

  /** The create is sent, and the scan publishes what it has made. */
  lemma Publishes() returns (moves: seq<Move>)
    ensures Run(Where, Joint(map[], Deletions.Blank()), moves) == Joint(map["create" := Creating()], Discovery.Run(Deletions.Blank(), Deletions.PUBLISHING))
  {
    var steps := Deletions.PUBLISHING;
    var first := CreateIsSent();
    var rest := Scans(map["create" := Creating()], Early(), steps[2..]);
    RunConcat(Where, Joint(map[], Deletions.Blank()), first, rest);
    Deletions.RunConcat(Deletions.Blank(), steps[..2], steps[2..]);
    assert steps[..2] + steps[2..] == steps;
    moves := first + rest;
  }

  lemma SameStart()
    ensures Discovery.Apply(Discovery.Apply(Deletions.Blank(), Discovery.Work("create", 1, 1, Outcomes.Dispatching, None, None, "")), Discovery.Queue(1, 1, false))
         == Discovery.Run(Deletions.Blank(), Deletions.PUBLISHING[..2])
  {
    var steps := Deletions.PUBLISHING;
    assert steps[..2][..1] == steps[..1] && steps[..1][..0] == [];
    assert Discovery.Run(Deletions.Blank(), []) == Deletions.Blank();
    assert Discovery.Run(Deletions.Blank(), steps[..1]) == Discovery.Apply(Deletions.Blank(), steps[0]);
  }

  function Published(): Discovery.State { Discovery.Run(Deletions.Blank(), Deletions.PUBLISHING) }

  lemma SameDispatch(s: Discovery.State)
    ensures Discovery.Apply(Discovery.Apply(s, Discovery.Work("delete", 7, 7, Outcomes.Dispatching, None, None, "")), Discovery.Queue(7, 7, false))
         == Discovery.Run(s, Deletions.DELETING[..2])
  {
    var steps := Deletions.DELETING;
    assert steps[..2][..1] == steps[..1] && steps[..1][..0] == [];
    assert Discovery.Run(s, []) == s;
    assert Discovery.Run(s, steps[..1]) == Discovery.Apply(s, steps[0]);
  }

  /** The index has nothing against the delete: the create has no resource. */
  lemma DeleteIsSent(t: OperationTable.Table, s: Discovery.State) returns (moves: seq<Move>)
    requires s.clock == 6 && "delete" !in t && forall id :: id in t ==> t[id].row.resource.None?
    ensures Run(Where, Joint(t, s), moves) == Joint(t["delete" := Deleting()], Discovery.Run(s, Deletions.DELETING[..2]))
  {
    Launches(Joint(t, s), "delete", About(Outcomes.Delete, "7"), Some("srv"), 7);
    SameDispatch(s);
    moves := [Insert("delete", Requested(About(Outcomes.Delete, "7"), Some("srv"), 6)), Act("delete", Operations.Claim(7)), Act("delete", Operations.Check(0, 7, 7, Welcome()))];
  }

  /** A recorded outcome that the index does not reject, as the inventory sees it. */
  lemma Finishes(z: Joint, id: string, s: Operations.Step, after: Operations.Life, deletes: Option<Discovery.Key>, creates: Option<Discovery.Key>)
    requires id in z.table && s.Finish? && !s.taken && !OperationTable.Collides(z.table, id, s) && Operations.Timely(z.table[id], s) && z.scans.clock <= s.now
    requires after == Operations.Apply(z.table[id], s) && after.row != z.table[id].row
    requires Deletes(Where, z.table[id], s) == deletes && Creates(Where, z.table[id], s) == creates
    requires Truthful(Where, z, id, z.table[id], s)
    ensures Apply(Where, z, Act(id, s))
         == Joint(z.table[id := after], Discovery.Apply(z.scans, Discovery.Work(id, after.row.updated, s.now, after.row.status, deletes, creates, after.row.observed)))
  {
    assert Indexed(z.table, id, s) == s;
  }

  lemma DeleteSucceeds(t: OperationTable.Table, s: Discovery.State)
    requires "delete" in t && t["delete"] == Deleting() && s.clock <= 9
    requires forall id :: id in t && id != "delete" ==> t[id].row.resource.None?
    requires Deletions.SERVER in s.world.gone && s.world.gone[Deletions.SERVER] <= 9
    ensures Apply(Where, Joint(t, s), Act("delete", DELETED)) == Joint(t["delete" := Operations.Apply(Deleting(), DELETED)], Discovery.Apply(s, Deletions.DELETING[3]))
  {
    DeleteIsRecorded();
    NoCollision(t, "delete", DELETED);
    Finishes(Joint(t, s), "delete", DELETED, Operations.Apply(Deleting(), DELETED), Some(Deletions.SERVER), None);
  }

  lemma NoCollision(t: OperationTable.Table, id: string, s: Operations.Step)
    requires id in t && s.Finish? && forall other :: other in t && other != id ==> t[other].row.resource.None? || !t[other].row.status.Busy()
    ensures !OperationTable.Collides(t, id, s)
  {
  }

  /** Nor against the binding: the delete is over. */
  lemma CreateBinds(t: OperationTable.Table, s: Discovery.State)
    requires "create" in t && t["create"] == Creating() && s.clock <= 10
    requires forall id :: id in t && id != "create" ==> !t[id].row.status.Busy()
    requires var k := Deletions.SERVER; k in s.world.there && s.world.there[k] <= 10 && k in s.world.maker && s.world.maker[k] == "create"
    ensures Apply(Where, Joint(t, s), Act("create", BOUND)) == Joint(t["create" := Operations.Apply(Creating(), BOUND)], Discovery.Apply(s, Deletions.BINDING))
  {
    CreateIsBound();
    NoCollision(t, "create", BOUND);
    Finishes(Joint(t, s), "create", BOUND, Operations.Apply(Creating(), BOUND), None, Some(Deletions.SERVER));
  }

  function Both(): OperationTable.Table { map["create" := Creating(), "delete" := Deleting()] }

  lemma LivesAsSent()
    ensures Creating().row.resource.None? && Creating().row.status == Outcomes.Dispatching
    ensures Operations.Apply(Deleting(), DELETED).row.status == Outcomes.Succeeded && Operations.Apply(Deleting(), DELETED).row.core == About(Outcomes.Delete, "7")
  {
    SendsAtOnce(About(Outcomes.Create, ""), None, 0, 1);
    DeleteIsRecorded();
  }

  lemma Chained(z: Joint, a: seq<Move>, y: Joint, b: seq<Move>, x: Joint)
    requires Run(Where, z, a) == y && Run(Where, y, b) == x
    ensures Run(Where, z, a + b) == x
  {
    RunConcat(Where, z, a, b);
  }

  lemma OneMore(z: Joint, a: seq<Move>, y: Joint, m: Move, x: Joint)
    requires Run(Where, z, a) == y && Apply(Where, y, m) == x
    ensures Run(Where, z, a + [m]) == x
  {
    assert (a + [m])[..|a|] == a;
  }

  /** The provider lets the server vanish, whatever the operations are. */
  lemma Vanishes(z: Joint, before: seq<Move>, t: OperationTable.Table, s: Discovery.State) returns (moves: seq<Move>)
    requires Run(Where, z, before) == Joint(t, Discovery.Run(s, Deletions.DELETING[..2]))
    ensures Run(Where, z, moves) == Joint(t, Discovery.Run(s, Deletions.DELETING[..3]))
  {
    var steps := Deletions.DELETING;
    var third := Scans(t, Discovery.Run(s, steps[..2]), steps[2..3]);
    Deletions.RunConcat(s, steps[..2], steps[2..3]);
    assert steps[..2] + steps[2..3] == steps[..3];
    Chained(z, before, Joint(t, Discovery.Run(s, steps[..2])), third, Joint(t, Discovery.Run(s, steps[..3])));
    moves := before + third;
  }

  lemma BothAreSent() returns (moves: seq<Move>)
    ensures Run(Where, Joint(map[], Deletions.Blank()), moves) == Joint(Both(), Discovery.Run(Published(), Deletions.DELETING[..3]))
  {
    Deletions.ServerIsPublished();
    LivesAsSent();
    var first := Publishes();
    var second := DeleteIsSent(map["create" := Creating()], Published());
    Chained(Joint(map[], Deletions.Blank()), first, Joint(map["create" := Creating()], Published()), second, Joint(Both(), Discovery.Run(Published(), Deletions.DELETING[..2])));
    moves := Vanishes(Joint(map[], Deletions.Blank()), first + second, Both(), Published());
  }

  /** The delete succeeds, from any such moment. */
  lemma TargetGoes(z: Joint, before: seq<Move>, t: OperationTable.Table, s: Discovery.State)
    requires Run(Where, z, before) == Joint(t, Discovery.Run(s, Deletions.DELETING[..3]))
    requires "delete" in t && t["delete"] == Deleting() && forall id :: id in t && id != "delete" ==> t[id].row.resource.None?
    requires var u := Discovery.Run(s, Deletions.DELETING[..3]); u.clock <= 9 && Deletions.SERVER in u.world.gone && u.world.gone[Deletions.SERVER] <= 9
    ensures Run(Where, z, before + [Act("delete", DELETED)]) == Joint(t["delete" := Operations.Apply(Deleting(), DELETED)], Discovery.Run(s, Deletions.DELETING))
  {
    DeleteSucceeds(t, Discovery.Run(s, Deletions.DELETING[..3]));
    Deletions.RunLast(s, Deletions.DELETING);
    assert Deletions.DELETING[..|Deletions.DELETING| - 1] == Deletions.DELETING[..3];
    OneMore(z, before, Joint(t, Discovery.Run(s, Deletions.DELETING[..3])), Act("delete", DELETED),
            Joint(t["delete" := Operations.Apply(Deleting(), DELETED)], Discovery.Run(s, Deletions.DELETING)));
  }

  /** The table once the delete is over. */
  ghost predicate Over(t: OperationTable.Table, c: Operations.Life, d: Operations.Life) {
    && t.Keys == {"create", "delete"} && t["create"] == c && t["delete"] == d
    && d.row.status == Outcomes.Succeeded && d.row.core == About(Outcomes.Delete, "7")
  }

  lemma OverAsSeen(t: OperationTable.Table, c: Operations.Life, d: Operations.Life)
    requires Over(t, c, d)
    ensures "delete" in t && DeleteDone(t["delete"].row) && Target(Where, t["delete"].row) == Deletions.SERVER
    ensures "create" in t && t["create"] == c && forall id :: id in t && id != "create" ==> !t[id].row.status.Busy()
  {
  }

  lemma BothToOver(t: OperationTable.Table, c: Operations.Life, d: Operations.Life, e: Operations.Life)
    requires t == map["create" := c, "delete" := d] && c.row.resource.None?
    requires e.row.status == Outcomes.Succeeded && e.row.core == About(Outcomes.Delete, "7")
    ensures "delete" in t && t["delete"] == d && (forall id :: id in t && id != "delete" ==> t[id].row.resource.None?) && Over(t["delete" := e], c, e)
  {
  }

  lemma TargetIsGone() returns (moves: seq<Move>, t: OperationTable.Table)
    ensures Run(Where, Joint(map[], Deletions.Blank()), moves) == Joint(t, Discovery.Run(Published(), Deletions.DELETING))
    ensures Over(t, Creating(), Operations.Apply(Deleting(), DELETED))
  {
    LivesAsSent();
    BothToOver(Both(), Creating(), Deleting(), Operations.Apply(Deleting(), DELETED));
    t := Both()["delete" := Operations.Apply(Deleting(), DELETED)];
    Deletions.ServerVanishes();
    var before := BothAreSent();
    TargetGoes(Joint(map[], Deletions.Blank()), before, Both(), Published());
    moves := before + [Act("delete", DELETED)];
  }

  lemma Undone(z: Joint)
    requires z.scans == Discovery.Run(Published(), Deletions.DELETING) && "create" in z.table && z.table["create"] == Creating()
    requires forall id :: id in z.table && id != "create" ==> !z.table[id].row.status.Busy()
    ensures !Discovery.Live(z.scans.inventory, Deletions.SERVER)
    ensures Discovery.Live(Apply(Where, z, Act("create", BOUND)).scans.inventory, Deletions.SERVER)
  {
    Deletions.ServerIsDeleted();
    Deletions.ServerIsBack();
    CreateBinds(z.table, z.scans);
  }

  /** A joint run after which a delete has succeeded and its target is gone, and a next
      move, the outcome of an earlier create, that makes the target live again. */
  lemma DeletionIsUndone() returns (z: Joint, moves: seq<Move>, last: Move)
    ensures InventoryOperations.Fresh(z)
    ensures var t := Run(Where, z, moves);
      && "delete" in t.table && DeleteDone(t.table["delete"].row) && Target(Where, t.table["delete"].row) == Deletions.SERVER
      && !Discovery.Live(t.scans.inventory, Deletions.SERVER)
      && Discovery.Live(Apply(Where, t, last).scans.inventory, Deletions.SERVER)
  {
    z, last := Joint(map[], Deletions.Blank()), Act("create", BOUND);
    var t: OperationTable.Table;
    moves, t := TargetIsGone();
    OverAsSeen(t, Creating(), Operations.Apply(Deleting(), DELETED));
    Undone(Run(Where, z, moves));
  }
}
