/** Where maintenance windows meet the operation protocol: an operation carries the policy
    revision and the end that maintenanceCheck gave when it was requested, and its dispatch
    asks again (internal/core/operations.go:515-526). The calendar counts minutes, the
    operation seconds. */
module MaintenanceGate {
  import opened Wrappers
  import opened Maintenance
  import opened ScheduleTime
  import opened WallClock
  import Operations
  import OperationChecks
  import Outcomes

  /** The operation was requested at minute `at`, inside the windows of these policies. */
  ghost predicate RequestedUnder(core: Outcomes.Core, policies: seq<Policy>, at: int) {
    && !core.maintenanceException
    && exists until :: Restricts(policies, core.connection, at, Open(until)) && Recorded(core, until)
  }

  predicate Recorded(core: Outcomes.Core, until: Option<int>) {
    core.maintenanceEnds == match until case None => None case Some(end) => Some(end * 60)
  }

  /** The dispatch found this policy revision and asked these policies at its own minute. */
  ghost predicate AskedAgain(core: Outcomes.Core, policies: seq<Policy>, f: Operations.Facts, now: int) {
    && f.maintenanceRevision == core.maintenanceRevision
    && exists r :: Restricts(policies, core.connection, now / 60, r) && (f.restricted <==> !r.Open?)
  }

  predicate Unexpired(core: Outcomes.Core, now: int) {
    core.maintenanceEnds.Some? ==> now < core.maintenanceEnds.value
  }

  ghost predicate Sensible(policies: seq<Policy>) {
    forall p :: p in policies ==> p.Valid() && p.DurationAllowed()
  }

  /** Under unchanged policies the maintenance gate of a dispatch passes exactly as long as
      the recorded end has not passed and no applicable policy excepts the local date. */
  lemma GatePassesIff(core: Outcomes.Core, policies: seq<Policy>, at: int, f: Operations.Facts, now: int)
    requires Sensible(policies) && RequestedUnder(core, policies, at) && AskedAgain(core, policies, f, now) && at <= now / 60
    ensures Operations.MaintenanceAllows(core, f, now)
       <==> Unexpired(core, now) && forall p :: p in policies && p.AppliesTo(core.connection) ==> !p.ClosedDay(now / 60)
  {
    var until :| Restricts(policies, core.connection, at, Open(until)) && Recorded(core, until);
    var r :| Restricts(policies, core.connection, now / 60, r) && (f.restricted <==> !r.Open?);
    if Unexpired(core, now) {
      RecordedEndHoldsIff(policies, core.connection, at, until, now / 60, r);
    }
  }

  /** Over a stretch of constant offset the recorded end alone decides. */
  lemma GatePasses(core: Outcomes.Core, policies: seq<Policy>, at: int, f: Operations.Facts, now: int)
    requires Sensible(policies) && RequestedUnder(core, policies, at) && AskedAgain(core, policies, f, now) && at <= now / 60
    requires forall p, u :: p in policies && at <= u <= now / 60 ==> p.zone.off(u) == p.zone.off(at)
    ensures Operations.MaintenanceAllows(core, f, now) <==> Unexpired(core, now)
  {
    var until :| Restricts(policies, core.connection, at, Open(until)) && Recorded(core, until);
    var r :| Restricts(policies, core.connection, now / 60, r) && (f.restricted <==> !r.Open?);
    if Unexpired(core, now) {
      RecordedEndHolds(policies, core.connection, at, until, now / 60, r);
    }
  }

  // ---- What it means for the call ----

  /** The same operation, had it been requested without a window ... */
  function Unwindowed(l: Operations.Life): Operations.Life {
    l.(row := l.row.(core := l.row.core.(maintenanceEnds := None)))
  }

  /** ... and the same check, had it found none closed. */
  function Unrestricted(s: Operations.Step): Operations.Step
    requires s.Check?
  {
    Operations.Check(s.worker, s.start, s.now, s.facts.(restricted := false))
  }

  lemma WindowsApart(l: Operations.Life, s: Operations.Step)
    requires OperationChecks.Ready(l, s) && l.workers[s.worker].dispatch && !l.row.core.maintenanceException
    ensures var c := l.row.core;
      OperationChecks.Calls(l, s)
      <==> OperationChecks.Calls(Unwindowed(l), Unrestricted(s)) && !s.facts.restricted && (c.maintenanceEnds.None? || s.now < c.maintenanceEnds.value)
  {
    OperationChecks.SubmitsIff(l, s);
    OperationChecks.SubmitsIff(Unwindowed(l), Unrestricted(s));
  }

  /** Under unchanged policies a request made inside its windows is submitted exactly if it
      would be without any, its recorded end has not passed, and no policy that applies to
      its connection excepts the local date. */
  lemma SubmitsInWindowIff(l: Operations.Life, s: Operations.Step, policies: seq<Policy>, at: int)
    requires OperationChecks.Ready(l, s) && l.workers[s.worker].dispatch
    requires Sensible(policies) && RequestedUnder(l.row.core, policies, at) && AskedAgain(l.row.core, policies, s.facts, s.now) && at <= s.now / 60
    ensures var c, minute := l.row.core, s.now / 60;
      OperationChecks.Calls(l, s)
      <==> && OperationChecks.Calls(Unwindowed(l), Unrestricted(s))
           && (c.maintenanceEnds.None? || s.now < c.maintenanceEnds.value)
           && forall p :: p in policies && (p.connections == {} || c.connection in p.connections) ==> DateOf(p.zone.Local(minute)) !in p.exceptions
  {
    var c := l.row.core;
    GatePassesIff(c, policies, at, s.facts, s.now);
    WindowsApart(l, s);
    assert forall p :: p in policies ==> (p.AppliesTo(c.connection) <==> p.connections == {} || c.connection in p.connections)
                                         && (p.ClosedDay(s.now / 60) <==> DateOf(p.zone.Local(s.now / 60)) in p.exceptions);
  }

  /** A window of two hours from 23:00 in a zone without changes, and no exceptions. */
  function Nightly(): Policy {
    Policy("night", Rule(w => w == 1380, w => if w < 1380 then Some(1380) else None), Zone(t => 0, w => w), {}, 120, {})
  }

  lemma NightlyIsOpen(at: int)
    requires 1380 <= at < 1500
    ensures Nightly().Valid() && Restricts([Nightly()], "c", at, Open(Some(1500)))
  {
    var p := Nightly();
    assert p.Covers(1380, at) && Latest(p, at, 1380);
    assert IsWindow(p, at, Until(1500)) && OpenUntil(p, at, 1500);
    assert p in [p];
  }

  /** A request within such a window does pass when it is dispatched twenty minutes later:
      what the two lemmas above ask for is met. */
  lemma GateIsPassed(core: Outcomes.Core, f: Operations.Facts)
    requires !core.maintenanceException && core.connection == "c" && core.maintenanceEnds == Some(90_000)
    requires f.maintenanceRevision == core.maintenanceRevision && !f.restricted
    ensures Sensible([Nightly()]) && RequestedUnder(core, [Nightly()], 1380) && AskedAgain(core, [Nightly()], f, 84_000)
    ensures Operations.MaintenanceAllows(core, f, 84_000)
  {
    NightlyIsOpen(1380);
    NightlyIsOpen(1400);
    assert Recorded(core, Some(1500));
    assert AskedAgain(core, [Nightly()], f, 84_000) by {
      assert 84_000 / 60 == 1400 && Restricts([Nightly()], core.connection, 1400, Open(Some(1500)));
    }
  }
}
