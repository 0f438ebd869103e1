/** The audit log under concurrent writers (AddAudit, internal/database/core.sql.go:14-17):
    a writer locks the organization's row, draws the next event id from one sequence shared
    by all organizations, and keeps the lock until it commits or aborts. */
module AuditLog {

  /** An event; `content` is what exportDetails and the archive keep of it. */
  datatype Row = Row(id: int, org: string, content: string)

  /** An open transaction: the organization rows it has locked, what it has inserted. */
  datatype Writer = Writer(locks: set<string>, rows: seq<Row>)

  /** `committed` is in commit order; `next` is the shared sequence. */
  datatype Log = Log(committed: seq<Row>, open: map<nat, Writer>, next: int)

  datatype Step =
    | Lock(writer: nat, org: string)
    | Draw(writer: nat, org: string, content: string)
    | Commit(writer: nat)
    | Abort(writer: nat)

  predicate Free(l: Log, org: string) {
    forall w :: w in l.open ==> org !in l.open[w].locks
  }

  function Opened(l: Log, w: nat): Writer {
    if w in l.open then l.open[w] else Writer({}, [])
  }

  /** A lock someone holds makes the writer wait: the step is not taken. */
  function Apply(l: Log, s: Step): Log {
    match s
    case Lock(w, org) =>
      if !Free(l, org) then l else l.(open := l.open[w := Opened(l, w).(locks := Opened(l, w).locks + {org})])
    case Draw(w, org, content) =>
      if w !in l.open || org !in l.open[w].locks then l
      else l.(open := l.open[w := l.open[w].(rows := l.open[w].rows + [Row(l.next, org, content)])], next := l.next + 1)
    case Commit(w) =>
      if w !in l.open then l else l.(committed := l.committed + l.open[w].rows, open := l.open - {w})
    case Abort(w) =>
      l.(open := l.open - {w})
  }

  function Run(l: Log, steps: seq<Step>): Log {
    if steps == [] then l else Apply(Run(l, steps[..|steps| - 1]), steps[|steps| - 1])
  }

  const EMPTY: Log := Log([], map[], 1)

  // ---- Ids grow in commit order ----

  /** Within one organization, later rows have greater ids. */
  ghost predicate Ascending(rows: seq<Row>) {
    forall i, j :: 0 <= i < j < |rows| && rows[i].org == rows[j].org ==> rows[i].id < rows[j].id
  }

  ghost predicate Bounded(rows: seq<Row>, next: int) {
    forall r :: r in rows ==> 0 < r.id < next
  }

  /** What an open transaction has inserted comes after all that is committed. */
  ghost predicate Follows(l: Log, w: nat)
    requires w in l.open
  {
    var rows := l.open[w].rows;
    && Ascending(rows) && Bounded(rows, l.next)
    && (forall r :: r in rows ==> r.org in l.open[w].locks)
    && (forall c, r :: c in l.committed && r in rows && c.org == r.org ==> c.id < r.id)
  }

  ghost predicate Ordered(l: Log) {
    && Ascending(l.committed) && Bounded(l.committed, l.next) && l.next > 0
    && (forall w :: w in l.open ==> Follows(l, w))
    && (forall v, w, org :: v in l.open && w in l.open && org in l.open[v].locks && org in l.open[w].locks ==> v == w)
  }

  lemma OrderedStep(l: Log, s: Step)
    requires Ordered(l)
    ensures Ordered(Apply(l, s)) && l.committed <= Apply(l, s).committed
  {
    match s
    case Lock(_, _) => OrderedLock(l, s);
    case Draw(_, _, _) => OrderedDraw(l, s);
    case Commit(_) => OrderedCommit(l, s);
    case Abort(_) => OrderedAbort(l, s);
  }

  lemma OrderedLock(l: Log, s: Step)
    requires Ordered(l) && s.Lock?
    ensures Ordered(Apply(l, s))
  {
    var after := Apply(l, s);
    if Free(l, s.org) {
      forall v | v in after.open ensures Follows(after, v) {
        FollowsLock(l, s, v);
      }
      forall v, w, org | v in after.open && w in after.open && org in after.open[v].locks && org in after.open[w].locks ensures v == w {
        OneHolder(l, s, v, w, org);
      }
    }
  }

  lemma OneHolder(l: Log, s: Step, v: nat, w: nat, org: string)
    requires Ordered(l) && s.Lock? && v in Apply(l, s).open && w in Apply(l, s).open
    requires org in Apply(l, s).open[v].locks && org in Apply(l, s).open[w].locks
    ensures v == w
  {
  }

  lemma FollowsLock(l: Log, s: Step, v: nat)
    requires Ordered(l) && s.Lock? && v in Apply(l, s).open
    ensures Follows(Apply(l, s), v)
  {
    assert v in l.open ==> Follows(l, v);
  }

  lemma OrderedDraw(l: Log, s: Step)
    requires Ordered(l) && s.Draw?
    ensures Ordered(Apply(l, s))
  {
    if s.writer in l.open && s.org in l.open[s.writer].locks {
      forall v | v in l.open ensures Follows(Apply(l, s), v) {
        FollowsDraw(l, s, v);
      }
    }
  }

  lemma FollowsDraw(l: Log, s: Step, v: nat)
    requires Ordered(l) && s.Draw? && s.writer in l.open && s.org in l.open[s.writer].locks && v in l.open
    ensures Follows(Apply(l, s), v)
  {
    assert Follows(l, v);
    var before, rows := l.open[v].rows, Apply(l, s).open[v].rows;
    assert rows == if v == s.writer then before + [Row(l.next, s.org, s.content)] else before;
    forall r | r in rows ensures 0 < r.id < l.next + 1 && r.org in l.open[v].locks {
      assert r in before || r == Row(l.next, s.org, s.content);
    }
  }

  lemma OrderedCommit(l: Log, s: Step)
    requires Ordered(l) && s.Commit?
    ensures Ordered(Apply(l, s))
  {
    if s.writer in l.open {
      var after := Apply(l, s);
      assert Follows(l, s.writer);
      forall v | v in after.open ensures Follows(after, v) {
        assert Follows(l, v);
        forall c, r | c in l.open[s.writer].rows && r in l.open[v].rows ensures c.org != r.org {
          assert c.org in l.open[s.writer].locks && r.org in l.open[v].locks;
        }
      }
    }
  }

  lemma OrderedAbort(l: Log, s: Step)
    requires Ordered(l) && s.Abort?
    ensures Ordered(Apply(l, s))
  {
    forall v | v in Apply(l, s).open ensures Follows(Apply(l, s), v) {
      assert Follows(l, v);
    }
  }

  lemma {:induction false} OrderedRun(l: Log, steps: seq<Step>)
    requires Ordered(l)
    ensures Ordered(Run(l, steps)) && l.committed <= Run(l, steps).committed
  {
    if steps != [] {
      OrderedRun(l, steps[..|steps| - 1]);
      OrderedStep(Run(l, steps[..|steps| - 1]), steps[|steps| - 1]);
    }
  }

  /** Whatever commits after a reader has seen an organization's rows carries a greater
      id than each of them, however many writers were open at the time or aborted since. */
  lemma LaterCommitsAreGreater(before: seq<Step>, after: seq<Step>, seen: Row, k: nat)
    requires seen in Run(EMPTY, before).committed
    requires var l := Run(Run(EMPTY, before), after); |Run(EMPTY, before).committed| <= k < |l.committed| && l.committed[k].org == seen.org
    ensures seen.id < Run(Run(EMPTY, before), after).committed[k].id
  {
    OrderedRun(EMPTY, before);
    OrderedRun(Run(EMPTY, before), after);
  }

  // ---- One organization's rows ----

  function RowsOf(rows: seq<Row>, org: string): seq<Row> {
    if rows == [] then []
    else RowsOf(rows[..|rows| - 1], org) + if rows[|rows| - 1].org == org then [rows[|rows| - 1]] else []
  }

  lemma {:induction false} RowsOfConcat(a: seq<Row>, b: seq<Row>, org: string)
    ensures RowsOf(a + b, org) == RowsOf(a, org) + RowsOf(b, org)
  {
    if b == [] {
      assert a + b == a;
    } else {
      RowsOfConcat(a, b[..|b| - 1], org);
      var whole := a + b;
      assert whole[..|whole| - 1] == a + b[..|b| - 1] && whole[|whole| - 1] == b[|b| - 1];
    }
  }

  lemma {:induction false} RowsOfMembers(rows: seq<Row>, org: string, r: Row)
    ensures r in RowsOf(rows, org) <==> r in rows && r.org == org
  {
    if rows != [] {
      RowsOfMembers(rows[..|rows| - 1], org, r);
      assert rows == rows[..|rows| - 1] + [rows[|rows| - 1]];
    }
  }

  lemma RowsOfGrows(a: seq<Row>, b: seq<Row>, org: string)
    requires a <= b
    ensures RowsOf(a, org) <= RowsOf(b, org)
  {
    RowsOfConcat(a, b[|a|..], org);
    assert a + b[|a|..] == b;
  }

  ghost predicate Increasing(rows: seq<Row>) {
    forall i, j :: 0 <= i < j < |rows| ==> rows[i].id < rows[j].id
  }

  lemma {:induction false} RowsOfIncreasing(rows: seq<Row>, org: string)
    requires Ascending(rows)
    ensures Increasing(RowsOf(rows, org))
  {
    if rows != [] {
      var init := rows[..|rows| - 1];
      RowsOfIncreasing(init, org);
      var own := RowsOf(init, org);
      forall i | 0 <= i < |own| && rows[|rows| - 1].org == org ensures own[i].id < rows[|rows| - 1].id {
        RowsOfMembers(init, org, own[i]);
      }
    }
  }
}
