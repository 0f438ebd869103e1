/** The delivery as the code works on it: rows updated in place, each transaction proved to
    be the corresponding step of Notifications.Apply. */
module NotificationRecord {
  import opened Wrappers
  import opened Notifications

  /** The worker's verdict before its second transaction. */
  datatype Verdict = Verdict(status: Status, code: int, sent: bool)

  /** The gates and the call of notificationTick; None when reading the message failed. */
  method Judge(job: Delivery, dest: Destination, now: int, readable: bool, answer: Answer) returns (v: Option<Verdict>)
    ensures v.None? <==> Refusal(job, dest, now).None? && !readable
    ensures v.Some? ==> v.value.sent <==> Refusal(job, dest, now).None?
    ensures v.Some? && !v.value.sent ==> v.value.status == Refusal(job, dest, now).value && v.value.code == 0
    ensures v.Some? && v.value.sent ==> job.retryCount <= BUDGET && v.value.status == Outcome(job.retryCount, answer) && v.value.code == CodeOf(answer)
    ensures v.Some? && v.value.sent ==>
      && (v.value.status == Delivered <==> answer.Code? && 200 <= answer.code <= 299)
      && (v.value.status == Pending <==> job.retryCount < 8 && (answer.Broken? || answer.code < 200 || answer.code in {408, 429} || answer.code >= 500))
      && v.value.status in {Delivered, Dead, Pending}
  {
    var status, code := Pending, 0;
    if !dest.enabled || dest.revision != job.destinationRevision || (!job.verification && !dest.verified) {
      status := Canceled;
    } else if job.verification && (dest.expires.None? || dest.expires.value < now) {
      status := Dead;
    } else if job.retryCount > BUDGET {
      status := Dead;
    } else {
      if !readable {
        return None;
      }
      code := if answer.Code? then answer.code else 0;
      if answer.Code? && code >= 200 && code < 300 {
        status := Delivered;
      } else if (answer.Code? && code >= 300 && code < 500 && code != 408 && code != 429) || job.retryCount >= BUDGET {
        status := Dead;
      }
      return Some(Verdict(status, code, true));
    }
    return Some(Verdict(status, code, false));
  }

  class Record {
    const destinationRevision: int
    var status: Status
    var attempts: nat
    var retryCount: nat
    var nextAttempt: int
    var lease: Option<int>
    var verification: bool
    var rows: seq<Attempt>
    ghost var workers: seq<Worker>
    ghost var epoch: nat

    function Row(): Delivery
      reads this
    {
      Delivery(status, attempts, retryCount, nextAttempt, lease, destinationRevision, verification)
    }

    ghost function Now(): State
      reads this
    {
      State(Row(), rows, workers, epoch)
    }

    constructor (destinationRevision: int, verification: bool, now: int)
      ensures Queued(Now()) && Row().verification == verification && Row().nextAttempt == now
    {
      this.destinationRevision, this.verification := destinationRevision, verification;
      status, attempts, retryCount, nextAttempt, lease, rows := Pending, 0, 0, now, None, [];
      workers, epoch := [], 0;
    }

    /** MarkNotificationLostAttempts. */
    method GiveUpOnLost()
      modifies this`rows
      ensures rows == MarkLost(old(rows))
    {
      for i := 0 to |rows|
        invariant |rows| == |old(rows)|
        invariant forall j :: 0 <= j < i ==> rows[j] == MarkLost(old(rows))[j]
        invariant forall j :: i <= j < |rows| ==> rows[j] == old(rows)[j]
      {
        if rows[i].InFlight? {
          rows := rows[i := Uncertain];
        }
      }
    }

    /** ClaimNotificationDelivery, then the attempt rows. */
    method ClaimDelivery(now: int, active: bool) returns (job: Option<Delivery>)
      modifies this
      ensures Now() == Apply(old(Now()), Claim(now, active))
      ensures job.Some? <==> active && Due(old(Row()), now)
      ensures job.Some? ==> workers == old(workers) + [Worker(job.value, epoch, Claimed, None)]
    {
      if !active || !((status == Pending && nextAttempt <= now) || (status == Sending && lease.Some? && lease.value < now)) {
        return None;
      }
      status, attempts, retryCount, lease := Sending, attempts + 1, retryCount + 1, Some(now + LEASE);
      GiveUpOnLost();
      rows, workers := rows + [InFlight], workers + [Worker(Row(), epoch, Claimed, None)];
      return Some(Row());
    }

    /** Between the two transactions: nothing of the delivery changes. */
    method CallDestination(job: Delivery, ghost w: nat, now: int, dest: Destination, readable: bool, answer: Answer) returns (v: Option<Verdict>)
      requires w < |workers| && workers[w].job == job && workers[w].progress == Claimed
      modifies this`workers
      ensures Now() == Apply(old(Now()), Decide(w, now, dest, readable, answer))
      ensures v.Some? ==> workers[w].progress == Judged(v.value.status, v.value.code)
    {
      v := Judge(job, dest, now, readable, answer);
      ghost var worker := workers[w];
      workers := workers[w :=
        if v.None? then worker.(progress := Progress.Gone)
        else worker.(progress := Judged(v.value.status, v.value.code), sentIn := if v.value.sent then Some(epoch) else worker.sentIn)];
    }

    /** The second transaction. `k` is the attempt row this worker wrote. */
    method FinishDelivery(job: Delivery, v: Verdict, k: nat, ghost w: nat, now: int)
      requires w < |workers| && workers[w].job == job && workers[w].progress == Judged(v.status, v.code) && k == w < |rows|
      modifies this
      ensures Now() == Apply(old(Now()), Finish(w, now))
    {
      workers := workers[w := workers[w].(progress := Progress.Gone)];
      if status != Sending || attempts != job.attempts || lease.None? || lease != job.lease || now > lease.value {
        return;
      }
      if v.code < 0 || v.code > 599 {
        return;
      }
      rows := rows[k := Settled(v.status, v.code)];
      status, nextAttempt, lease := v.status, now + Delay(job.retryCount), None;
    }

    method RedeliverNotification(now: int, permitted: bool, dest: Destination) returns (ok: bool)
      modifies this
      ensures Now() == Apply(old(Now()), Redeliver(now, permitted, dest))
      ensures ok <==> Redeliverable(old(Now()), permitted, dest)
    {
      if !permitted || status == Pending || status == Sending || verification {
        return false;
      }
      if !dest.enabled || !dest.verified || dest.revision != destinationRevision {
        return false;
      }
      status, retryCount, nextAttempt, lease, epoch := Pending, 0, now, None, epoch + 1;
      return true;
    }

    /** CancelRemovedDestinationDeliveries and ClearDestinationChallenges. */
    method DestinationRemoved()
      modifies this`status, this`lease, this`verification
      ensures Now() == Apply(old(Now()), RemoveDestination)
    {
      if status == Pending {
        status, lease := Canceled, None;
      }
      verification := false;
    }
  }
}
