/** All operations together: the partial unique index on busy operations of a resource
    (internal/database/migrations/00006_operations.sql:14) and what it buys over whole runs. */
module OperationTable {
  import opened Wrappers
  import opened Outcomes
  import opened Operations
  import opened OperationRuns

  type Table = map<string, Life>

  /** Some other operation, pending, active or uncertain, is on this resource. */
  ghost predicate Occupied(t: Table, resource: string, id: string) {
    exists other :: other in t && other != id && t[other].row.status.Busy() && t[other].row.resource == Some(resource)
  }

  /** Would recording this answer give its resource a second busy operation? */
  ghost predicate Collides(t: Table, id: string, s: Step)
    requires id in t && s.Finish?
  {
    var l := t[id];
    s.worker < |l.workers| &&
    var j := Verdict(l.row.core, l.row.actionId, l.row.nativeId, l.workers[s.worker].dispatch, s.answer);
    var bound := Bound(l.row, j, s.id).resource;
    bound.Some? && Occupied(t, bound.value, id)
  }

  datatype Move = Insert(id: string, life: Life) | Act(id: string, step: Step)

  /** An insert the index rejects leaves nothing, nor does a rejected binding. */
  ghost function Apply(t: Table, m: Move): Table {
    match m
    case Insert(id, life) =>
      if id in t || !Created(life) || (life.row.resource.Some? && Occupied(t, life.row.resource.value, id)) then t
      else t[id := life]
    case Act(id, s) =>
      if id !in t then t
      else t[id := Operations.Apply(t[id], if s.Finish? then s.(taken := Collides(t, id, s)) else s)]
  }

  ghost function Run(moves: seq<Move>): Table {
    if moves == [] then map[] else Apply(Run(moves[..|moves| - 1]), moves[|moves| - 1])
  }

  ghost predicate OnePerResource(t: Table) {
    forall a, b :: a in t && b in t && a != b && t[a].row.status.Busy() && t[b].row.status.Busy() && t[a].row.resource.Some?
      ==> t[a].row.resource != t[b].row.resource
  }

  ghost predicate AllClaims(t: Table) {
    forall id :: id in t ==> Claims(t[id])
  }

  /** A step never makes a finished operation busy, and changes its resource only by an
      accepted binding. */
  lemma StepKeepsResource(l: Life, s: Step)
    requires Claims(l)
    ensures Operations.Apply(l, s).row.status.Busy() ==> l.row.status.Busy()
    ensures !s.Finish? ==> Operations.Apply(l, s).row.resource == l.row.resource
    ensures s.Finish? && Operations.Apply(l, s).row.resource != l.row.resource ==>
              s.worker < |l.workers| && !s.taken
              && Operations.Apply(l, s).row.resource == Bound(l.row, Verdict(l.row.core, l.row.actionId, l.row.nativeId, l.workers[s.worker].dispatch, s.answer), s.id).resource
  {
  }

  /** Writing one row keeps the index if no other busy operation is on its resource. */
  lemma WriteKeepsIndex(t: Table, id: string, after: Life)
    requires AllClaims(t) && OnePerResource(t) && Claims(after)
    requires after.row.status.Busy() && after.row.resource.Some? ==> !Occupied(t, after.row.resource.value, id)
    ensures AllClaims(t[id := after]) && OnePerResource(t[id := after])
  {
  }

  /** A request is admitted exactly if its id is new and no operation that is pending, active
      or uncertain is on its resource; it then stands beside all others. */
  lemma InsertsIff(t: Table, id: string, life: Life)
    requires Created(life)
    ensures Apply(t, Insert(id, life)) == t[id := life] && id !in t
       <==> id !in t && (life.row.resource.None?
            || forall other :: other in t && t[other].row.resource == life.row.resource ==>
                 t[other].row.status in {Succeeded, Failed, Rejected, Canceled, Expired, Resolved})
    ensures Apply(t, Insert(id, life)) in {t, t[id := life]}
  {
  }

  lemma InsertKeepsIndex(t: Table, m: Move)
    requires AllClaims(t) && OnePerResource(t) && m.Insert?
    ensures AllClaims(Apply(t, m)) && OnePerResource(Apply(t, m))
  {
    if Apply(t, m) != t {
      ClaimsAlways(m.life, []);
      WriteKeepsIndex(t, m.id, m.life);
    }
  }

  lemma {:induction false} ActKeepsIndex(t: Table, id: string, s: Step)
    requires AllClaims(t) && OnePerResource(t) && id in t
    requires s.Finish? ==> s.taken == Collides(t, id, s)
    ensures var after := t[id := Operations.Apply(t[id], s)]; AllClaims(after) && OnePerResource(after)
  {
    var after := Operations.Apply(t[id], s);
    ClaimsStep(t[id], s);
    StepKeepsResource(t[id], s);
    WriteKeepsIndex(t, id, after);
  }

  lemma MoveKeepsIndex(t: Table, m: Move)
    requires AllClaims(t) && OnePerResource(t)
    ensures AllClaims(Apply(t, m)) && OnePerResource(Apply(t, m))
  {
    match m
    case Insert(_, _) => InsertKeepsIndex(t, m);
    case Act(id, s) =>
      if id in t {
        ActKeepsIndex(t, id, if s.Finish? then s.(taken := Collides(t, id, s)) else s);
      }
  }

  /** In every reachable table each resource has at most one operation that is pending,
      active or uncertain, also after a created resource has been bound. */
  lemma {:induction false} OneBusyOperation(moves: seq<Move>)
    ensures AllClaims(Run(moves)) && OnePerResource(Run(moves))
  {
    if moves != [] {
      OneBusyOperation(moves[..|moves| - 1]);
      MoveKeepsIndex(Run(moves[..|moves| - 1]), moves[|moves| - 1]);
    }
  }
}
