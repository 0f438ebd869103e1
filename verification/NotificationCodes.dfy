/** What the answers of a destination mean for a delivery, and when it may be called, in
    terms of response codes and rows (internal/core/notifications.go:327-471). */
module NotificationCodes {
  import opened Wrappers
  import opened Notifications
  import opened NotificationRuns

  predicate Success(code: int) { 200 <= code <= 299 }

  /** Redirections and client errors other than a timeout or too many requests. */
  predicate Refused(code: int) { 300 <= code <= 499 && code != 408 && code != 429 }

  // ---- One step ----

  /** A delivery is claimed when it is due, or when its worker's minute is over. */
  lemma ClaimsIff(s: State, now: int, active: bool)
    ensures var d, t := s.row, Apply(s, Claim(now, active));
      && (|t.workers| > |s.workers| <==> active && ((d.status == Pending && d.nextAttempt <= now) || (d.status == Sending && d.lease.Some? && d.lease.value < now)))
      && (|t.workers| > |s.workers| ==>
            && t.row == d.(status := Sending, attempts := d.attempts + 1, retryCount := d.retryCount + 1, lease := Some(now + 60))
            && t.workers == s.workers + [Worker(t.row, s.epoch, Claimed, None)]
            && |t.attempts| == |s.attempts| + 1 && t.attempts[|s.attempts|] == InFlight
            && forall k :: 0 <= k < |s.attempts| ==> t.attempts[k] == if s.attempts[k] == InFlight then Uncertain else s.attempts[k])
      && (|t.workers| <= |s.workers| ==> t == s)
  {
  }

  /** The destination is called exactly when it is switched on, unchanged and verified, or,
      for a verification, its challenge has not expired, and the budget is not spent. */
  lemma CallsIff(s: State, w: nat, now: int, dest: Destination, readable: bool, answer: Answer)
    requires w < |s.workers| && s.workers[w].progress == Claimed && s.workers[w].sentIn.None?
    ensures var job, after := s.workers[w].job, Apply(s, Decide(w, now, dest, readable, answer)).workers[w];
      && (after.sentIn.Some?
          <==> && readable && dest.enabled && dest.revision == job.destinationRevision && job.retryCount <= 8
               && (if job.verification then dest.expires.Some? && now <= dest.expires.value else dest.verified))
      && (after.progress == Judged(Canceled, 0)
          <==> !dest.enabled || dest.revision != job.destinationRevision || (!job.verification && !dest.verified))
      && (after.sentIn.None? ==> after.progress in {Progress.Gone, Judged(Canceled, 0), Judged(Dead, 0)})
    ensures var t := Apply(s, Decide(w, now, dest, readable, answer)); t.row == s.row && t.attempts == s.attempts
  {
  }

  /** The worker's verdict is recorded exactly if the delivery is still being sent under its
      claim, the minute of the claim is not over, and the code can be one; then the delivery
      and its attempt row are settled together. */
  lemma RecordsIff(s: State, w: nat, now: int)
    requires w < |s.workers| && w < |s.attempts| && s.workers[w].progress.Judged?
    ensures var d, job, p, t := s.row, s.workers[w].job, s.workers[w].progress, Apply(s, Finish(w, now));
      var counts := d.status == Sending && d.attempts == job.attempts && d.lease.Some? && d.lease == job.lease && now <= d.lease.value && 0 <= p.code <= 599;
      && (counts ==> t.row == d.(status := p.status, lease := None, nextAttempt := now + Delay(job.retryCount)) && t.attempts == s.attempts[w := Settled(p.status, p.code)])
      && (!counts ==> t.row == d && t.attempts == s.attempts)
      && t.workers[w].progress == Progress.Gone
  {
  }

  /** With its destination a pending delivery goes, and every challenge; others stay. */
  lemma RemovalCancels(s: State)
    ensures var d, t := s.row, Apply(s, RemoveDestination);
      && (d.status == Pending ==> t.row == d.(status := Canceled, lease := None, verification := false))
      && (d.status != Pending ==> t.row == d.(verification := false))
      && t == s.(row := t.row)
  {
  }

  /** A settled delivery, not a verification, is sent anew if its destination is still the
      one it was meant for. */
  lemma RedeliversIff(s: State, now: int, permitted: bool, dest: Destination)
    ensures var d, t := s.row, Apply(s, Redeliver(now, permitted, dest));
      && (t != s <==> && permitted && d.status in {Delivered, Dead, Canceled} && !d.verification
                      && dest.enabled && dest.verified && dest.revision == d.destinationRevision)
      && (t != s ==> t == s.(row := d.(status := Pending, retryCount := 0, nextAttempt := now, lease := None), epoch := s.epoch + 1))
  {
    assert Redelivered(s, now).epoch != s.epoch;
    match s.row.status case Pending => case Sending => case Delivered => case Dead => case Canceled =>
  }

  /** The wait doubles from a minute. */
  lemma DelayDoubles(n: nat)
    ensures Delay(1) == 60
    ensures 1 <= n < 9 ==> Delay(n + 1) == 2 * Delay(n)
    ensures 9 <= n ==> Delay(n) == Delay(9)
  {
    assert Power(0) == 1;
  }

  /** A failed attempt is not repeated before its wait is over. */
  lemma RetryWaits(s: State, w: nat, now: int, later: int, active: bool)
    requires w < |s.workers| && Apply(s, Finish(w, now)).row.status == Pending && s.row.status == Sending
    requires later < now + Delay(s.workers[w].job.retryCount)
    ensures var t := Apply(s, Finish(w, now)); t.row.lease.None? && Apply(t, Claim(later, active)) == t
  {
  }

  // ---- Every run ----

  /** Delivered means a success code; without a call there is no code; a call is repeated
      exactly if its code is neither a success nor a refusal and the budget is not spent. */
  ghost predicate Coded(w: Worker, status: Status, code: int) {
    && (status == Delivered <==> Success(code))
    && (w.sentIn.None? ==> status in {Dead, Canceled} && code == 0)
    && (w.sentIn.Some? ==> status in {Delivered, Dead, Pending} && (status == Pending <==> !Success(code) && !Refused(code) && w.job.retryCount < 8))
  }

  ghost predicate Codes(s: State) {
    && (forall k :: 0 <= k < |s.workers| && s.workers[k].progress.Judged? ==> Coded(s.workers[k], s.workers[k].progress.status, s.workers[k].progress.code))
    && (forall k :: 0 <= k < |s.attempts| && k < |s.workers| && s.attempts[k].Settled? ==>
          s.workers[k].progress == Progress.Gone && Coded(s.workers[k], s.attempts[k].status, s.attempts[k].code))
    && (forall k :: 0 <= k < |s.workers| && s.workers[k].progress == Claimed ==> s.workers[k].sentIn.None?)
    && (s.row.status in {Delivered, Dead} ==> s.attempts != [] && s.attempts[|s.attempts| - 1].Settled? && s.attempts[|s.attempts| - 1].status == s.row.status)
  }

  lemma CodesStep(s: State, step: Step)
    requires Rows(s) && Codes(s)
    ensures Codes(Apply(s, step))
  {
    match step
    case Claim(_, _) => CodesClaim(s, step);
    case Decide(w, now, dest, readable, answer) => if w < |s.workers| { CodesDecide(s, w, now, dest, readable, answer); }
    case Finish(w, now) => if w < |s.workers| { CodesFinish(s, w, now); }
    case _ =>
  }

  lemma CodesClaim(s: State, step: Step)
    requires Rows(s) && Codes(s) && step.Claim?
    ensures Codes(Apply(s, step))
  {
  }

  lemma CodesDecide(s: State, w: nat, now: int, dest: Destination, readable: bool, answer: Answer)
    requires Rows(s) && Codes(s) && w < |s.workers|
    ensures Codes(Decided(s, w, now, dest, readable, answer))
  {
  }

  lemma CodesFinish(s: State, w: nat, now: int)
    requires Rows(s) && Codes(s) && w < |s.workers|
    ensures Codes(Finished(s, w, now))
  {
  }

  lemma {:induction false} CodesAlways(s: State, steps: seq<Step>)
    requires Queued(s)
    ensures Codes(Run(s, steps)) && Rows(Run(s, steps))
  {
    Always(s, steps);
    if steps != [] {
      CodesAlways(s, steps[..|steps| - 1]);
      CodesStep(Run(s, steps[..|steps| - 1]), steps[|steps| - 1]);
    }
  }

  /** Every settled attempt row tells what its own call, if it made one, was answered: it is
      delivered exactly if the code is a success, and repeated exactly if the code is
      neither a success nor a refusal and this was not the eighth try. */
  lemma {:induction false} AttemptsAreCoded(s: State, steps: seq<Step>, k: nat)
    requires Queued(s) && k < |Run(s, steps).attempts| && Run(s, steps).attempts[k].Settled?
    ensures var z := Run(s, steps); k < |z.workers| && Coded(z.workers[k], z.attempts[k].status, z.attempts[k].code)
  {
    CodesAlways(s, steps);
  }

  /** A delivery is delivered only by a call of its last claim that was answered with a
      success. */
  lemma {:induction false} DeliveredWasAccepted(s: State, steps: seq<Step>)
    requires Queued(s) && Run(s, steps).row.status == Delivered
    ensures var z := Run(s, steps);
      && z.attempts != [] && |z.workers| == |z.attempts| && z.workers[|z.workers| - 1].sentIn.Some?
      && z.attempts[|z.attempts| - 1].Settled? && Success(z.attempts[|z.attempts| - 1].code)
  {
    CodesAlways(s, steps);
  }

  /** And it is given up on only if its last call was refused or spent the budget, or no call
      could be made. */
  lemma {:induction false} DeadWasRefused(s: State, steps: seq<Step>)
    requires Queued(s) && Run(s, steps).row.status == Dead
    ensures var z := Run(s, steps); var last := |z.attempts| - 1;
      && z.attempts != [] && |z.workers| == |z.attempts| && z.attempts[last].Settled? && !Success(z.attempts[last].code)
      && (z.workers[last].sentIn.Some? ==> Refused(z.attempts[last].code) || z.workers[last].job.retryCount >= 8)
  {
    CodesAlways(s, steps);
  }
}
