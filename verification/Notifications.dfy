/** One notification delivery (internal/core/notifications.go:327-471 and its statements):
    its row, its attempt rows, and the workers that claimed it. Times are in seconds. */
module Notifications {
  import opened Wrappers

  const LEASE: int := 60
  const BUDGET: int := 8

  datatype Status = Pending | Sending | Delivered | Dead | Canceled

  /** An attempt row: in flight, given up on, or settled with the delivery's own status. */
  datatype Attempt = InFlight | Uncertain | Settled(status: Status, code: int)

  datatype Delivery = Delivery(
    status: Status, attempts: nat, retryCount: nat, nextAttempt: int, lease: Option<int>, destinationRevision: int, verification: bool)

  /** What a worker's run is up to: claimed, with an outcome to record, or over. */
  datatype Progress = Claimed | Judged(status: Status, code: int) | Gone

  /** A worker with the row as it claimed it. `epoch` counts the redeliveries before the
      claim, `sentIn` those before its call to the destination, if it made one. */
  datatype Worker = Worker(job: Delivery, epoch: nat, progress: Progress, sentIn: Option<nat>)

  /** Claim number k writes attempt row k and is worker k. */
  datatype State = State(row: Delivery, attempts: seq<Attempt>, workers: seq<Worker>, epoch: nat)

  datatype Destination = Destination(enabled: bool, verified: bool, revision: int, expires: Option<int>)

  /** How a call ended: with an error or with a response code. */
  datatype Answer = Broken | Code(code: int)

  datatype Step =
    | Claim(now: int, active: bool)
    | Decide(worker: nat, now: int, destination: Destination, readable: bool, answer: Answer)
    | Finish(worker: nat, now: int)
    | Redeliver(now: int, permitted: bool, destination: Destination)
    | RemoveDestination

  predicate Due(d: Delivery, now: int) {
    (d.status == Pending && d.nextAttempt <= now) || (d.status == Sending && d.lease.Some? && d.lease.value < now)
  }

  /** The gates before a call: may this claim still send, and if not, what becomes of it? */
  function Refusal(job: Delivery, dest: Destination, now: int): Option<Status> {
    if !dest.enabled || dest.revision != job.destinationRevision || (!job.verification && !dest.verified) then Some(Canceled)
    else if job.verification && (dest.expires.None? || dest.expires.value < now) then Some(Dead)
    else if job.retryCount > BUDGET then Some(Dead)
    else None
  }

  predicate Accepted(a: Answer) { a.Code? && 200 <= a.code < 300 }

  predicate Permanent(a: Answer) { a.Code? && 300 <= a.code < 500 && a.code != 408 && a.code != 429 }

  function Outcome(retryCount: nat, a: Answer): Status {
    if Accepted(a) then Delivered else if Permanent(a) || retryCount >= BUDGET then Dead else Pending
  }

  function CodeOf(a: Answer): int { if a.Code? then a.code else 0 }

  function Power(n: nat): int { if n == 0 then 1 else 2 * Power(n - 1) }

  function Delay(retryCount: nat): int {
    60 * Power(if retryCount <= 1 then 0 else if retryCount <= 9 then retryCount - 1 else 8)
  }

  /** The fence: the delivery is still being sent under this worker's claim. */
  predicate Current(s: State, w: nat, now: int)
    requires w < |s.workers|
  {
    var job := s.workers[w].job;
    s.row.status == Sending && s.row.attempts == job.attempts && s.row.lease.Some? && s.row.lease == job.lease && now <= s.row.lease.value
  }

  function MarkLost(attempts: seq<Attempt>): seq<Attempt> {
    seq(|attempts|, i requires 0 <= i < |attempts| => if attempts[i].InFlight? then Uncertain else attempts[i])
  }

  function At(s: State, w: nat, progress: Progress): State
    requires w < |s.workers|
  {
    s.(workers := s.workers[w := s.workers[w].(progress := progress)])
  }

  function Decided(s: State, w: nat, now: int, dest: Destination, readable: bool, answer: Answer): State
    requires w < |s.workers|
  {
    var worker := s.workers[w];
    if worker.progress != Claimed then s
    else match Refusal(worker.job, dest, now)
      case Some(status) => At(s, w, Judged(status, 0))
      case None =>
        if !readable then At(s, w, Gone)
        else s.(workers := s.workers[w := worker.(progress := Judged(Outcome(worker.job.retryCount, answer), CodeOf(answer)), sentIn := Some(s.epoch))])
  }

  function Finished(s: State, w: nat, now: int): State
    requires w < |s.workers|
  {
    var worker := s.workers[w];
    if !worker.progress.Judged? then s
    else if !Current(s, w, now) || worker.progress.code < 0 || worker.progress.code > 599 then At(s, w, Gone)
    else At(s, w, Gone).(row := s.row.(status := worker.progress.status, nextAttempt := now + Delay(worker.job.retryCount), lease := None),
                         attempts := if w < |s.attempts| then s.attempts[w := Settled(worker.progress.status, worker.progress.code)] else s.attempts)
  }

  predicate Redeliverable(s: State, permitted: bool, dest: Destination) {
    permitted && s.row.status !in {Pending, Sending} && !s.row.verification
    && dest.enabled && dest.verified && dest.revision == s.row.destinationRevision
  }

  function Redelivered(s: State, now: int): State {
    s.(row := s.row.(status := Pending, retryCount := 0, nextAttempt := now, lease := None), epoch := s.epoch + 1)
  }

  function Apply(s: State, step: Step): State {
    match step
    case Claim(now, active) =>
      if !active || !Due(s.row, now) then s
      else
        var job := s.row.(status := Sending, attempts := s.row.attempts + 1, retryCount := s.row.retryCount + 1, lease := Some(now + LEASE));
        s.(row := job, attempts := MarkLost(s.attempts) + [InFlight], workers := s.workers + [Worker(job, s.epoch, Claimed, None)])
    case Decide(w, now, dest, readable, answer) => if w >= |s.workers| then s else Decided(s, w, now, dest, readable, answer)
    case Finish(w, now) => if w >= |s.workers| then s else Finished(s, w, now)
    case Redeliver(now, permitted, dest) => if Redeliverable(s, permitted, dest) then Redelivered(s, now) else s
    case RemoveDestination =>
      s.(row := s.row.(status := if s.row.status == Pending then Canceled else s.row.status,
                       lease := if s.row.status == Pending then None else s.row.lease, verification := false))
  }

  function Run(s: State, steps: seq<Step>): State {
    if steps == [] then s else Apply(Run(s, steps[..|steps| - 1]), steps[|steps| - 1])
  }

  /** A delivery as an event or a test queues it. */
  predicate Queued(s: State) {
    s.row.status == Pending && s.row.attempts == 0 && s.row.retryCount == 0 && s.row.lease.None? && s.attempts == [] && s.workers == [] && s.epoch == 0
  }
}
