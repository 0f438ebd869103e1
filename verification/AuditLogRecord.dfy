/** The audit log as its statements work on it: rows inserted and committed in place. */
module AuditLogRecord {
  import opened AuditLog

  class EventLog {
    var committed: seq<Row>
    var open: map<nat, Writer>
    var next: int

    function Now(): Log
      reads this
    {
      Log(committed, open, next)
    }

    constructor ()
      ensures Now() == EMPTY
    {
      committed, open, next := [], map[], 1;
    }

    /** Is some other transaction keeping the organization's row locked? */
    method Blocked(writer: nat, org: string) returns (blocked: bool)
      ensures blocked <==> exists w :: w in open && w != writer && org in open[w].locks
    {
      var rest, tried := open.Keys, {};
      while rest != {}
        invariant rest + tried == open.Keys
        invariant forall w :: w in tried ==> w == writer || org !in open[w].locks
        decreases rest
      {
        var w :| w in rest;
        rest, tried := rest - {w}, tried + {w};
        if w != writer && org in open[w].locks {
          return true;
        }
      }
      return false;
    }

    /** AddAudit: lock the organization's row, then draw the id; it waits while blocked. */
    method AddAudit(writer: nat, org: string, content: string) returns (done: bool)
      modifies this
      ensures done <==> forall w :: w in old(open) && w != writer ==> org !in old(open)[w].locks
      ensures done ==> Now() == Apply(Apply(old(Now()), Lock(writer, org)), Draw(writer, org, content))
      ensures done ==> writer in open && Row(old(next), org, content) in open[writer].rows && next == old(next) + 1
      ensures !done ==> Now() == old(Now())
    {
      var blocked := Blocked(writer, org);
      if blocked {
        return false;
      }
      assert Free(Now(), org) <==> org !in Opened(Now(), writer).locks;
      if writer !in open {
        assert {} + {org} == {org};
        open := open[writer := Writer({org}, [])];
      } else if org !in open[writer].locks {
        open := open[writer := open[writer].(locks := open[writer].locks + {org})];
      }
      assert Now() == Apply(old(Now()), Lock(writer, org));
      open, next := open[writer := open[writer].(rows := open[writer].rows + [Row(next, org, content)])], next + 1;
      return true;
    }

    method CommitAll(writer: nat)
      modifies this`committed, this`open
      ensures Now() == Apply(old(Now()), Commit(writer))
    {
      if writer in open {
        committed, open := committed + open[writer].rows, open - {writer};
      }
    }

    /** The rows go, the drawn ids stay used. */
    method Rollback(writer: nat)
      modifies this`open
      ensures Now() == Apply(old(Now()), Abort(writer))
    {
      open := open - {writer};
    }
  }
}
