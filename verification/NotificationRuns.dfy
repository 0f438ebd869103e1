/** What holds of a delivery over every run, with crashes, lost leases and late workers. */
module NotificationRuns {
  import opened Wrappers
  import opened Notifications

  // ---- Attempt rows ----

  /** One attempt row and one worker for each claim; a row is in flight only if it is the
      last one and the delivery is being sent under its claim. */
  ghost predicate Rows(s: State) {
    && |s.attempts| == s.row.attempts == |s.workers|
    && (forall k :: 0 <= k < |s.attempts| ==> (s.attempts[k].InFlight? <==> s.row.status == Sending && k == |s.attempts| - 1))
    && (forall k :: 0 <= k < |s.workers| ==> s.workers[k].job.attempts == k + 1 && Judgement(s.workers[k].progress))
    && (s.row.status == Sending ==> |s.workers| > 0 && s.row.lease.Some? && s.row.lease == s.workers[|s.workers| - 1].job.lease)
  }

  predicate Judgement(p: Progress) {
    p.Judged? ==> p.status != Sending
  }

  /** Within an epoch every claim spends one more of the budget than the one before. */
  ghost predicate Budget(s: State) {
    && (forall k :: 0 <= k < |s.workers| ==> Spends(s, s.workers[k]))
    && (forall i, j :: 0 <= i < j < |s.workers| ==> s.workers[i].epoch <= s.workers[j].epoch)
    && (forall i, j :: 0 <= i < j < |s.workers| && s.workers[i].epoch == s.workers[j].epoch ==> s.workers[i].job.retryCount < s.workers[j].job.retryCount)
  }

  ghost predicate Spends(s: State, w: Worker) {
    && w.epoch <= s.epoch && w.job.retryCount >= 1 && (w.epoch == s.epoch ==> w.job.retryCount <= s.row.retryCount)
    && (w.sentIn.Some? ==> w.job.retryCount <= BUDGET && w.epoch <= w.sentIn.value <= s.epoch && w.progress != Claimed)
  }

  lemma RowsStep(s: State, step: Step)
    requires Rows(s)
    ensures Rows(Apply(s, step))
  {
    match step
    case Claim(_, _) => RowsClaim(s, step);
    case Decide(w, now, dest, readable, answer) => if w < |s.workers| { RowsDecide(s, w, now, dest, readable, answer); }
    case Finish(w, now) => if w < |s.workers| { RowsFinish(s, w, now); }
    case _ =>
  }

  lemma RowsClaim(s: State, step: Step)
    requires Rows(s) && step.Claim?
    ensures Rows(Apply(s, step))
  {
  }

  lemma RowsDecide(s: State, w: nat, now: int, dest: Destination, readable: bool, answer: Answer)
    requires Rows(s) && w < |s.workers|
    ensures Rows(Decided(s, w, now, dest, readable, answer))
  {
  }

  lemma RowsFinish(s: State, w: nat, now: int)
    requires Rows(s) && w < |s.workers|
    ensures Rows(Finished(s, w, now))
  {
    assert Judgement(s.workers[w].progress);
  }

  lemma BudgetStep(s: State, step: Step)
    requires Budget(s)
    ensures Budget(Apply(s, step))
  {
    match step
    case Claim(_, _) => BudgetClaim(s, step);
    case Decide(w, now, dest, readable, answer) => if w < |s.workers| { BudgetDecide(s, w, now, dest, readable, answer); }
    case Finish(w, now) => if w < |s.workers| { BudgetFinish(s, w, now); }
    case _ => BudgetRow(s, step);
  }

  lemma BudgetClaim(s: State, step: Step)
    requires Budget(s) && step.Claim?
    ensures Budget(Apply(s, step))
  {
    var after := Apply(s, step);
    forall k | 0 <= k < |s.workers| ensures Spends(after, s.workers[k]) {
      assert Spends(s, s.workers[k]);
    }
  }

  lemma BudgetDecide(s: State, w: nat, now: int, dest: Destination, readable: bool, answer: Answer)
    requires Budget(s) && w < |s.workers|
    ensures Budget(Decided(s, w, now, dest, readable, answer))
  {
    var after := Decided(s, w, now, dest, readable, answer);
    forall k | 0 <= k < |s.workers| ensures Spends(after, after.workers[k]) {
      assert Spends(s, s.workers[k]);
    }
  }

  lemma BudgetFinish(s: State, w: nat, now: int)
    requires Budget(s) && w < |s.workers|
    ensures Budget(Finished(s, w, now))
  {
    var after := Finished(s, w, now);
    forall k | 0 <= k < |s.workers| ensures Spends(after, after.workers[k]) {
      assert Spends(s, s.workers[k]);
    }
  }

  lemma BudgetRow(s: State, step: Step)
    requires Budget(s) && (step.Redeliver? || step.RemoveDestination?)
    ensures Budget(Apply(s, step))
  {
    forall k | 0 <= k < |s.workers| ensures Spends(Apply(s, step), s.workers[k]) {
      assert Spends(s, s.workers[k]);
    }
  }

  lemma {:induction false} Always(s: State, steps: seq<Step>)
    requires Rows(s) && Budget(s)
    ensures Rows(Run(s, steps)) && Budget(Run(s, steps))
  {
    if steps != [] {
      Always(s, steps[..|steps| - 1]);
      RowsStep(Run(s, steps[..|steps| - 1]), steps[|steps| - 1]);
      BudgetStep(Run(s, steps[..|steps| - 1]), steps[|steps| - 1]);
    }
  }

  /** An attempt row is in flight exactly when the delivery is being sent, and then it is
      the last one and the only one. */
  lemma {:induction false} OneAttemptInFlight(s: State, steps: seq<Step>)
    requires Queued(s)
    ensures var z := Run(s, steps);
      forall k :: 0 <= k < |z.attempts| ==> (z.attempts[k].InFlight? <==> z.row.status == Sending && k == |z.attempts| - 1)
    ensures Run(s, steps).row.status == Sending ==> Run(s, steps).attempts != []
  {
    Always(s, steps);
  }

  /** A worker whose claim was superseded, or whose lease ran out, records nothing. */
  lemma {:induction false} StaleWorkerIsHarmless(s: State, steps: seq<Step>, w: nat, now: int)
    requires Queued(s)
    requires var z := Run(s, steps); w < |z.workers| && (w < |z.workers| - 1 || z.workers[w].job.lease.None? || z.workers[w].job.lease.value < now)
    ensures var z := Run(s, steps); Apply(z, Finish(w, now)).row == z.row && Apply(z, Finish(w, now)).attempts == z.attempts
  {
    Always(s, steps);
  }

  // ---- How often it is sent ----

  /** Calls made by the claims of one epoch. */
  function SentBy(workers: seq<Worker>, epoch: nat): nat {
    if workers == [] then 0
    else SentBy(workers[..|workers| - 1], epoch) + if Sent(workers[|workers| - 1], epoch) then 1 else 0
  }

  predicate Sent(w: Worker, epoch: nat) { w.epoch == epoch && w.sentIn.Some? }

  /** Calls made during one epoch, by whatever claim. */
  function SentDuring(workers: seq<Worker>, epoch: nat): nat {
    if workers == [] then 0
    else SentDuring(workers[..|workers| - 1], epoch) + if workers[|workers| - 1].sentIn == Some(epoch) then 1 else 0
  }

  /** Calls made during an epoch by claims older than it. */
  function Stragglers(workers: seq<Worker>, epoch: nat): nat {
    if workers == [] then 0
    else Stragglers(workers[..|workers| - 1], epoch)
         + if workers[|workers| - 1].sentIn == Some(epoch) && workers[|workers| - 1].epoch < epoch then 1 else 0
  }

  ghost predicate Spending(workers: seq<Worker>) {
    && (forall k :: 0 <= k < |workers| ==> workers[k].job.retryCount >= 1 && (workers[k].sentIn.Some? ==> workers[k].job.retryCount <= BUDGET))
    && (forall i, j :: 0 <= i < j < |workers| && workers[i].epoch == workers[j].epoch ==> workers[i].job.retryCount < workers[j].job.retryCount)
  }

  lemma {:induction false} SentBound(workers: seq<Worker>, epoch: nat, limit: int)
    requires Spending(workers) && limit >= 0
    requires forall k :: 0 <= k < |workers| && Sent(workers[k], epoch) ==> workers[k].job.retryCount <= limit
    ensures SentBy(workers, epoch) <= limit
  {
    if workers != [] {
      var init, last := workers[..|workers| - 1], workers[|workers| - 1];
      SentBound(init, epoch, if Sent(last, epoch) then last.job.retryCount - 1 else limit);
    }
  }

  /** The claims between two redeliveries make at most eight calls. */
  lemma {:induction false} BudgetHolds(s: State, steps: seq<Step>, epoch: nat)
    requires Queued(s)
    ensures SentBy(Run(s, steps).workers, epoch) <= BUDGET
  {
    Always(s, steps);
    var z := Run(s, steps);
    assert forall k :: 0 <= k < |z.workers| ==> Spends(z, z.workers[k]);
    SentBound(z.workers, epoch, BUDGET);
  }

  // ---- By the clock rather than by the claim ----

  lemma {:induction false} DuringSplits(workers: seq<Worker>, epoch: nat)
    requires forall k :: 0 <= k < |workers| && workers[k].sentIn.Some? ==> workers[k].epoch <= workers[k].sentIn.value
    ensures SentDuring(workers, epoch) <= SentBy(workers, epoch) + Stragglers(workers, epoch)
  {
    if workers != [] {
      DuringSplits(workers[..|workers| - 1], epoch);
    }
  }

  /** Between two redeliveries there are at most eight calls, and one more for each claim
      from before that only calls now. */
  lemma {:induction false} BudgetAndStragglers(s: State, steps: seq<Step>, epoch: nat)
    requires Queued(s)
    ensures SentDuring(Run(s, steps).workers, epoch) <= BUDGET + Stragglers(Run(s, steps).workers, epoch)
  {
    BudgetHolds(s, steps, epoch);
    Always(s, steps);
    var z := Run(s, steps);
    assert forall k :: 0 <= k < |z.workers| ==> Spends(z, z.workers[k]);
    DuringSplits(z.workers, epoch);
  }

  /** Some claim within budget has not come to a decision yet. */
  predicate Straggling(s: State) {
    exists k :: 0 <= k < |s.workers| && s.workers[k].progress == Claimed && s.workers[k].job.retryCount <= BUDGET
  }

  /** No claim from before `epoch` calls in it, or can still. */
  ghost predicate Quiet(s: State, epoch: nat) {
    forall k :: 0 <= k < |s.workers| && s.workers[k].epoch < epoch ==>
      s.workers[k].sentIn != Some(epoch) && (s.workers[k].progress == Claimed ==> s.workers[k].job.retryCount > BUDGET)
  }

  lemma {:induction false} QuietAlways(s: State, steps: seq<Step>, epoch: nat)
    requires Quiet(s, epoch) && epoch <= s.epoch
    ensures Quiet(Run(s, steps), epoch) && epoch <= Run(s, steps).epoch
  {
    if steps != [] {
      QuietAlways(s, steps[..|steps| - 1], epoch);
      QuietStep(Run(s, steps[..|steps| - 1]), steps[|steps| - 1], epoch);
    }
  }

  lemma QuietStep(s: State, step: Step, epoch: nat)
    requires Quiet(s, epoch) && epoch <= s.epoch
    ensures Quiet(Apply(s, step), epoch) && epoch <= Apply(s, step).epoch
  {
  }

  lemma {:induction false} QuietHasNoStragglers(workers: seq<Worker>, epoch: nat)
    requires forall k :: 0 <= k < |workers| && workers[k].epoch < epoch ==> workers[k].sentIn != Some(epoch)
    ensures Stragglers(workers, epoch) == 0
  {
    if workers != [] {
      QuietHasNoStragglers(workers[..|workers| - 1], epoch);
    }
  }

  lemma {:induction false} RunConcat(s: State, a: seq<Step>, b: seq<Step>)
    ensures Run(s, a + b) == Run(Run(s, a), b)
  {
    if b == [] {
      assert a + b == a;
    } else {
      RunConcat(s, a, b[..|b| - 1]);
      assert (a + b)[..|a + b| - 1] == a + b[..|b| - 1] && (a + b)[|a + b| - 1] == b[|b| - 1];
    }
  }

  lemma RunThree(s: State, a: Step, b: Step, c: Step)
    ensures Run(s, [a, b, c]) == Apply(Apply(Apply(s, a), b), c)
  {
    assert [a, b, c][..2] == [a, b] && [a, b][..1] == [a] && [a][..0] == [];
    assert Run(s, [a]) == Apply(s, a) && Run(s, [a, b]) == Apply(Run(s, [a]), b);
  }

  function Willing(job: Delivery): Destination {
    Destination(true, true, job.destinationRevision, Some(0))
  }

  /** A claim, a call that fails, and the record of it. */
  lemma RoundSends(s: State) returns (round: seq<Step>)
    requires Rows(s) && s.row.status == Pending && s.row.retryCount < BUDGET
    ensures var z := Run(s, round);
      && Rows(z) && z.epoch == s.epoch && z.row.retryCount == s.row.retryCount + 1
      && z.row.status == (if z.row.retryCount < BUDGET then Pending else Dead)
      && SentDuring(z.workers, s.epoch) == SentDuring(s.workers, s.epoch) + 1
  {
    var n, at := |s.workers|, s.row.nextAttempt;
    var claimed := Apply(s, Claim(at, true));
    var decided := Apply(claimed, Decide(n, 0, Willing(claimed.row), true, Broken));
    var settled := Apply(decided, Finish(n, at));
    round := [Claim(at, true), Decide(n, 0, Willing(claimed.row), true, Broken), Finish(n, at)];
    RunThree(s, round[0], round[1], round[2]);
    RowsStep(s, round[0]);
    RowsStep(claimed, round[1]);
    RowsStep(decided, round[2]);
    assert settled.workers[..n] == s.workers;
  }

  lemma {:induction false} RoundsSend(s: State, n: nat) returns (steps: seq<Step>)
    requires Rows(s) && s.row.status == Pending && s.row.retryCount + n == BUDGET
    ensures SentDuring(Run(s, steps).workers, s.epoch) == SentDuring(s.workers, s.epoch) + n
    decreases n
  {
    if n == 0 {
      steps := [];
    } else {
      var round := RoundSends(s);
      var rest: seq<Step> := [];
      if n > 1 {
        rest := RoundsSend(Run(s, round), n - 1);
      }
      steps := round + rest;
      RunConcat(s, round, rest);
    }
  }

  lemma {:induction false} SentDuringUpdate(workers: seq<Worker>, k: nat, w: Worker, epoch: nat)
    requires k < |workers| && workers[k].sentIn.None? && w.sentIn == Some(epoch)
    ensures SentDuring(workers[k := w], epoch) == SentDuring(workers, epoch) + 1
  {
    var init := workers[..|workers| - 1];
    if k == |workers| - 1 {
      assert workers[k := w][..k] == init;
    } else {
      SentDuringUpdate(init, k, w, epoch);
      assert workers[k := w][..|workers| - 1] == init[k := w];
    }
  }

  lemma LateCall(t: State, k: nat)
    requires Rows(t) && k < |t.workers| && t.workers[k].progress == Claimed && t.workers[k].sentIn.None? && t.workers[k].job.retryCount <= BUDGET
    ensures var u := Apply(t, Decide(k, 0, Willing(t.workers[k].job), true, Broken));
      Rows(u) && u.row == t.row && u.epoch == t.epoch && SentDuring(u.workers, t.epoch) == SentDuring(t.workers, t.epoch) + 1
  {
    var late := Decide(k, 0, Willing(t.workers[k].job), true, Broken);
    RowsStep(t, late);
    SentDuringUpdate(t.workers, k, Apply(t, late).workers[k], t.epoch);
  }

  lemma StragglerOvershoots(t: State, k: nat) returns (steps: seq<Step>)
    requires Rows(t) && t.row.status == Pending && t.row.retryCount == 0
    requires k < |t.workers| && t.workers[k].progress == Claimed && t.workers[k].sentIn.None? && t.workers[k].job.retryCount <= BUDGET
    ensures SentDuring(Run(t, steps).workers, t.epoch) > BUDGET
  {
    var late := Decide(k, 0, Willing(t.workers[k].job), true, Broken);
    LateCall(t, k);
    var rounds := RoundsSend(Apply(t, late), BUDGET);
    steps := [late] + rounds;
    RunConcat(t, [late], rounds);
    assert [late][..0] == [] && Run(t, [late]) == Apply(t, late);
  }

  /** In every continuation at most eight calls are made before the next redelivery. */
  ghost predicate InBudget(t: State) {
    forall steps :: SentDuring(Run(t, steps).workers, t.epoch) <= BUDGET
  }

  /** Counted by the clock, a redelivery is sure to stay within the budget if and only if
      no earlier claim within budget is still undecided when it is made. */
  lemma {:induction false} RedeliveryStaysInBudget(s: State, before: seq<Step>, now: int, dest: Destination)
    requires Queued(s) && Redeliverable(Run(s, before), true, dest)
    ensures InBudget(Redelivered(Run(s, before), now)) <==> !Straggling(Run(s, before))
  {
    var z := Run(s, before);
    if Straggling(z) {
      Overshoots(s, before, now, dest);
    } else {
      forall steps ensures SentDuring(Run(Redelivered(z, now), steps).workers, z.epoch + 1) <= BUDGET {
        QuietStaysInBudget(s, before, now, dest, steps);
      }
    }
  }

  /** It does happen: a worker stalls, its lease runs out, another one delivers, and the
      delivery is sent again while the first may still call. */
  lemma StragglersExist() returns (s: State, before: seq<Step>, dest: Destination)
    ensures Queued(s) && Redeliverable(Run(s, before), true, dest) && Straggling(Run(s, before))
    ensures !InBudget(Redelivered(Run(s, before), 62))
  {
    dest := Destination(true, true, 1, None);
    s := State(Delivery(Pending, 0, 0, 0, None, 1, false), [], [], 0);
    before := [Claim(0, true), Claim(61, true), Decide(1, 61, dest, true, Code(200)), Finish(1, 62)];
    assert before[..3] == [before[0], before[1], before[2]] && Run(s, before) == Apply(Run(s, before[..3]), before[3]);
    RunThree(s, before[0], before[1], before[2]);
    assert Run(s, before).workers[0].progress == Claimed;
    Overshoots(s, before, 62, dest);
  }

  lemma Overshoots(s: State, before: seq<Step>, now: int, dest: Destination)
    requires Queued(s) && Redeliverable(Run(s, before), true, dest) && Straggling(Run(s, before))
    ensures !InBudget(Redelivered(Run(s, before), now))
  {
    var z := Run(s, before);
    Always(s, before);
    var k :| 0 <= k < |z.workers| && z.workers[k].progress == Claimed && z.workers[k].job.retryCount <= BUDGET;
    assert Spends(z, z.workers[k]);
    var t := Redelivered(z, now);
    RowsStep(z, Redeliver(now, true, dest));
    var steps := StragglerOvershoots(t, k);
    assert SentDuring(Run(t, steps).workers, t.epoch) > BUDGET;
  }

  // ---- What the attempt rows say of it ----

  /** A worker that has not decided yet has its attempt row in flight or given up on. */
  ghost predicate Undecided(s: State) {
    |s.attempts| == |s.workers| && forall k :: 0 <= k < |s.workers| && s.workers[k].progress == Claimed ==> !s.attempts[k].Settled?
  }

  lemma UndecidedStep(s: State, step: Step)
    requires Rows(s) && Undecided(s)
    ensures Undecided(Apply(s, step))
  {
    RowsStep(s, step);
    if step.Finish? && step.worker < |s.workers| {
      UndecidedFinish(s, step.worker, step.now);
    }
  }

  lemma UndecidedFinish(s: State, w: nat, now: int)
    requires Undecided(s) && w < |s.workers|
    ensures Undecided(Finished(s, w, now))
  {
  }

  lemma {:induction false} UndecidedAlways(s: State, steps: seq<Step>)
    requires Queued(s)
    ensures Undecided(Run(s, steps))
  {
    if steps != [] {
      Always(s, steps[..|steps| - 1]);
      UndecidedAlways(s, steps[..|steps| - 1]);
      UndecidedStep(Run(s, steps[..|steps| - 1]), steps[|steps| - 1]);
    }
  }

  /** Some attempt was given up on without an answer: a row the caller can look for. */
  predicate LostAttempt(s: State) {
    exists k :: 0 <= k < |s.attempts| && s.attempts[k].Uncertain?
  }

  /** What a caller can check: when no attempt row is uncertain, a redelivery stays within
      the budget, whatever happens next. */
  lemma {:induction false} NoLostAttemptInBudget(s: State, before: seq<Step>, now: int, dest: Destination)
    requires Queued(s) && Redeliverable(Run(s, before), true, dest) && !LostAttempt(Run(s, before))
    ensures InBudget(Redelivered(Run(s, before), now))
  {
    SettledMeansDecided(s, before);
    RedeliveryStaysInBudget(s, before, now, dest);
  }

  lemma SettledMeansDecided(s: State, before: seq<Step>)
    requires Queued(s) && Run(s, before).row.status != Sending && !LostAttempt(Run(s, before))
    ensures !Straggling(Run(s, before))
  {
    Always(s, before);
    UndecidedAlways(s, before);
  }

  /** The run without what worker k did after its claim, and the state it leads to. */
  function Without(steps: seq<Step>, k: nat): seq<Step> {
    if steps == [] then []
    else Without(steps[..|steps| - 1], k) + if ActsAs(steps[|steps| - 1], k) then [] else [steps[|steps| - 1]]
  }

  predicate ActsAs(step: Step, k: nat) {
    (step.Decide? || step.Finish?) && step.worker == k
  }

  function Unwound(s: State, k: nat): State {
    if k >= |s.workers| then s else s.(workers := s.workers[k := s.workers[k].(progress := Claimed, sentIn := None)])
  }

  predicate Unsettled(s: State, k: nat) {
    k < |s.attempts| ==> !s.attempts[k].Settled?
  }

  lemma UnwoundStep(s: State, step: Step, k: nat)
    requires Rows(s) && Unsettled(Apply(s, step), k)
    ensures Unsettled(s, k)
    ensures (if ActsAs(step, k) then Unwound(s, k) else Apply(Unwound(s, k), step)) == Unwound(Apply(s, step), k)
  {
    match step
    case Claim(_, _) => UnwoundClaim(s, step, k);
    case Decide(w, now, dest, readable, answer) =>
      if w < |s.workers| && w != k && k < |s.workers| {
        assert Unwound(s, k).workers[w] == s.workers[w];
      }
    case Finish(w, now) => if w < |s.workers| { UnwoundFinish(s, w, now, k); }
    case _ =>
  }

  lemma UnwoundClaim(s: State, step: Step, k: nat)
    requires Rows(s) && step.Claim? && Unsettled(Apply(s, step), k)
    ensures Unsettled(s, k) && Apply(Unwound(s, k), step) == Unwound(Apply(s, step), k)
  {
    if k < |s.attempts| {
      assert Apply(s, step).attempts[k].Settled? <==> s.attempts[k].Settled?;
    }
  }

  lemma UnwoundFinish(s: State, w: nat, now: int, k: nat)
    requires Rows(s) && w < |s.workers| && Unsettled(Finished(s, w, now), k)
    ensures Unsettled(s, k)
    ensures (if w == k then Unwound(s, k) else Finished(Unwound(s, k), w, now)) == Unwound(Finished(s, w, now), k)
  {
  }

  lemma {:induction false} UnwoundRun(s: State, steps: seq<Step>, k: nat)
    requires Queued(s) && Unsettled(Run(s, steps), k)
    ensures Run(s, Without(steps, k)) == Unwound(Run(s, steps), k)
  {
    if steps != [] {
      var init, last := steps[..|steps| - 1], steps[|steps| - 1];
      Always(s, init);
      UnwoundStep(Run(s, init), last, k);
      UnwoundRun(s, init, k);
      if ActsAs(last, k) {
        assert Without(steps, k) == Without(init, k);
      } else {
        assert Without(steps, k)[..|Without(steps, k)| - 1] == Without(init, k);
      }
    }
  }

  /** And the rows cannot say more: with an uncertain attempt of a claim within budget, a
      run that leaves the very same rows may exceed the budget after the redelivery. */
  lemma {:induction false} LostAttemptMayOvershoot(s: State, before: seq<Step>, now: int, dest: Destination, k: nat)
    requires Queued(s) && Redeliverable(Run(s, before), true, dest)
    requires k < |Run(s, before).attempts| && Run(s, before).attempts[k].Uncertain?
    requires k < |Run(s, before).workers| ==> Run(s, before).workers[k].job.retryCount <= BUDGET
    ensures exists other :: SameRows(Run(s, other), Run(s, before)) && !InBudget(Redelivered(Run(s, other), now))
  {
    var other := Without(before, k);
    Always(s, before);
    UnwoundRun(s, before, k);
    assert Run(s, other).workers[k].progress == Claimed;
    Overshoots(s, other, now, dest);
    assert SameRows(Run(s, other), Run(s, before));
  }

  predicate SameRows(a: State, b: State) { a.row == b.row && a.attempts == b.attempts }

  /** If no earlier claim can still call, none does. */
  lemma QuietAfter(z: State, now: int, steps: seq<Step>)
    requires Budget(z) && !Straggling(z)
    ensures Stragglers(Run(Redelivered(z, now), steps).workers, z.epoch + 1) == 0
  {
    var t := Redelivered(z, now);
    assert forall k :: 0 <= k < |z.workers| ==> Spends(z, z.workers[k]);
    QuietAlways(t, steps, t.epoch);
    QuietHasNoStragglers(Run(t, steps).workers, t.epoch);
  }

  lemma RunOn(s: State, before: seq<Step>, step: Step, after: seq<Step>)
    ensures Run(s, before + [step] + after) == Run(Apply(Run(s, before), step), after)
  {
    assert (before + [step])[..|before|] == before;
    RunConcat(s, before + [step], after);
  }

  lemma QuietTail(s: State, before: seq<Step>, step: Step, after: seq<Step>, epoch: nat)
    requires Queued(s) && Stragglers(Run(Apply(Run(s, before), step), after).workers, epoch) == 0
    ensures SentDuring(Run(Apply(Run(s, before), step), after).workers, epoch) <= BUDGET
  {
    RunOn(s, before, step, after);
    BudgetAndStragglers(s, before + [step] + after, epoch);
  }

  lemma QuietStaysInBudget(s: State, before: seq<Step>, now: int, dest: Destination, steps: seq<Step>)
    requires Queued(s) && Redeliverable(Run(s, before), true, dest) && !Straggling(Run(s, before))
    ensures SentDuring(Run(Redelivered(Run(s, before), now), steps).workers, Run(s, before).epoch + 1) <= BUDGET
  {
    Always(s, before);
    QuietAfter(Run(s, before), now, steps);
    assert Apply(Run(s, before), Redeliver(now, true, dest)) == Redelivered(Run(s, before), now);
    QuietTail(s, before, Redeliver(now, true, dest), steps, Run(s, before).epoch + 1);
  }
}
