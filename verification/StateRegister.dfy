/** What a Terraform-style state backend promises its clients: one document behind one
    lock. StateBackend shows that the service behaves like this. */
module StateRegister {
  import opened Wrappers

  type Bytes = seq<int>

  datatype Doc = Doc(lineage: string, serial: nat, bytes: Bytes)

  datatype Holder = Holder(lock: string, session: string)

  datatype Register = Register(current: Option<Doc>, holder: Option<Holder>)

  datatype Request = Get | Lock(lock: string) | Unlock(lock: string) | Post(ids: seq<string>, doc: Doc)

  /** HTTP 200 with and without a body, 404, 423 and 409 with the lock in the way. */
  datatype Response = Done | Body(bytes: Bytes) | NotFound | Locked(lock: string) | Conflict(held: Option<string>)

  predicate Holds(r: Register, session: string, ids: seq<string>) {
    r.holder.Some? && r.holder.value.session == session && ids == [r.holder.value.lock]
  }

  /** A document that neither rewinds, forks nor repeats the current one. */
  predicate Succeeds(r: Register, doc: Doc) {
    r.current.Some? ==> doc.lineage == r.current.value.lineage && doc.serial > r.current.value.serial
  }

  function Serve(r: Register, session: string, q: Request): (Register, Response) {
    match q
    case Get => (r, if r.current.None? then NotFound else Body(r.current.value.bytes))
    case Lock(lock) =>
      if r.holder.None? then (r.(holder := Some(Holder(lock, session))), Done)
      else if r.holder.value == Holder(lock, session) then (r, Done)
      else (r, Locked(r.holder.value.lock))
    case Unlock(lock) =>
      if r.holder.None? then (r, Done)
      else if r.holder.value == Holder(lock, session) then (r.(holder := None), Done)
      else (r, Conflict(Some(r.holder.value.lock)))
    case Post(ids, doc) =>
      if !Holds(r, session, ids) then (r, Conflict(if r.holder.Some? then Some(r.holder.value.lock) else None))
      else if r.current == Some(doc) then (r, Done)
      else if Succeeds(r, doc) then (r.(current := Some(doc)), Done)
      else (r, Conflict(None))
  }

  // ---- Runs ----

  datatype Call = Call(session: string, request: Request)

  const EMPTY: Register := Register(None, None)

  function Run(calls: seq<Call>): Register {
    if calls == [] then EMPTY else Serve(Run(calls[..|calls| - 1]), calls[|calls| - 1].session, calls[|calls| - 1].request).0
  }

  /** This call, made in register r, changes the document. */
  predicate Writes(r: Register, c: Call) {
    c.request.Post? && Holds(r, c.session, c.request.ids) && r.current != Some(c.request.doc) && Succeeds(r, c.request.doc)
  }

  /** The accepted documents, in order. */
  function Accepted(calls: seq<Call>): seq<Doc> {
    if calls == [] then []
    else
      var init, last := calls[..|calls| - 1], calls[|calls| - 1];
      Accepted(init) + if Writes(Run(init), last) then [last.request.doc] else []
  }

  /** Serials strictly increase, lineage is fixed, and the last document is current. */
  ghost predicate History(docs: seq<Doc>, current: Option<Doc>) {
    && current == (if docs == [] then None else Some(docs[|docs| - 1]))
    && forall i, j :: 0 <= i < j < |docs| ==> docs[i].serial < docs[j].serial && docs[i].lineage == docs[j].lineage
  }

  lemma HistoryStep(docs: seq<Doc>, r: Register, c: Call)
    requires History(docs, r.current)
    ensures History(docs + if Writes(r, c) then [c.request.doc] else [], Serve(r, c.session, c.request).0.current)
  {
    assert docs + [] == docs;
  }

  /** GET serves the last accepted document; serials strictly increase; lineage is fixed. */
  lemma {:induction false} AcceptedIsHistory(calls: seq<Call>)
    ensures History(Accepted(calls), Run(calls).current)
  {
    if calls != [] {
      AcceptedIsHistory(calls[..|calls| - 1]);
      HistoryStep(Accepted(calls[..|calls| - 1]), Run(calls[..|calls| - 1]), calls[|calls| - 1]);
    }
  }

  lemma {:induction false} AcceptedGrows(calls: seq<Call>, k: nat)
    requires k <= |calls|
    ensures Accepted(calls[..k]) <= Accepted(calls)
    decreases |calls|
  {
    if k == |calls| {
      assert calls[..k] == calls;
    } else {
      AcceptedGrows(calls[..|calls| - 1], k);
      assert calls[..|calls| - 1][..k] == calls[..k];
    }
  }

  /** Resending an accepted write, at whatever later time and by whomever, changes nothing. */
  lemma {:induction false} ResendChangesNothing(calls: seq<Call>, k: nat, resent: Call)
    requires k < |calls| && Writes(Run(calls[..k]), calls[k])
    requires resent.request.Post? && resent.request.doc == calls[k].request.doc
    ensures Serve(Run(calls), resent.session, resent.request).0 == Run(calls)
  {
    AcceptedIsHistory(calls);
    AcceptedHas(calls, k);
    OldWriteIsIgnored(Accepted(calls), Run(calls), resent);
  }

  lemma AcceptedHas(calls: seq<Call>, k: nat)
    requires k < |calls| && Writes(Run(calls[..k]), calls[k])
    ensures calls[k].request.doc in Accepted(calls)
  {
    AcceptedGrows(calls, k + 1);
    assert calls[..k + 1][..k] == calls[..k];
    assert Accepted(calls[..k + 1])[|Accepted(calls[..k])|] == calls[k].request.doc;
  }

  lemma OldWriteIsIgnored(docs: seq<Doc>, r: Register, c: Call)
    requires History(docs, r.current) && c.request.Post? && c.request.doc in docs
    ensures Serve(r, c.session, c.request).0 == r
  {
  }

  /** ... and an immediate resend is answered as the write was. */
  lemma ResendIsAnswered(r: Register, c: Call)
    requires Writes(r, c)
    ensures Serve(r, c.session, c.request).1 == Done
    ensures Serve(Serve(r, c.session, c.request).0, c.session, c.request) == (Serve(r, c.session, c.request).0, Done)
  {
  }

  /** No call in calls[from..] gives up this lock. */
  predicate Keeps(calls: seq<Call>, from: nat, h: Holder) {
    forall i :: from <= i < |calls| ==> calls[i] != Call(h.session, Unlock(h.lock))
  }

  /** Between a LOCK and its UNLOCK the holder stays, and only it writes. */
  lemma {:induction false} OnlyTheHolderWrites(calls: seq<Call>, k: nat, h: Holder)
    requires k <= |calls| && Run(calls[..k]).holder == Some(h) && Keeps(calls, k, h)
    ensures Run(calls).holder == Some(h)
    ensures forall i :: k <= i < |calls| && Writes(Run(calls[..i]), calls[i]) ==> calls[i].session == h.session && calls[i].request.ids == [h.lock]
    decreases |calls|
  {
    if k == |calls| {
      assert calls[..k] == calls;
    } else {
      var init, n := calls[..|calls| - 1], |calls| - 1;
      assert init[..k] == calls[..k];
      OnlyTheHolderWrites(init, k, h);
      forall i | k <= i < n && Writes(Run(calls[..i]), calls[i]) ensures calls[i].session == h.session && calls[i].request.ids == [h.lock] {
        assert init[..i] == calls[..i] && init[i] == calls[i];
      }
      assert calls[..n] == init;
    }
  }

  // ---- Answers ----

  /** What a further call is answered. */
  function Reply(calls: seq<Call>, c: Call): Response {
    Serve(Run(calls), c.session, c.request).1
  }

  function Latest(calls: seq<Call>): Option<Doc> {
    if Accepted(calls) == [] then None else Some(Accepted(calls)[|Accepted(calls)| - 1])
  }

  lemma RunOn(calls: seq<Call>, c: Call)
    ensures Run(calls + [c]) == Serve(Run(calls), c.session, c.request).0
    ensures Accepted(calls + [c]) == Accepted(calls) + if Writes(Run(calls), c) then [c.request.doc] else []
  {
    assert (calls + [c])[..|calls|] == calls;
  }

  /** A GET answers with the bytes of the last accepted document, whoever asks, and with
      404 exactly if none has been accepted; it changes nothing. */
  lemma {:induction false} GetAnswers(calls: seq<Call>, session: string)
    ensures Reply(calls, Call(session, Get)) == match Latest(calls) case None => NotFound case Some(doc) => Body(doc.bytes)
    ensures Run(calls + [Call(session, Get)]) == Run(calls)
  {
    AcceptedIsHistory(calls);
    RunOn(calls, Call(session, Get));
  }

  /** h has locked the state, and has not unlocked it since. */
  ghost predicate HasLocked(calls: seq<Call>, h: Holder) {
    exists k :: 0 <= k < |calls| && LockedAt(calls, k, h) && Keeps(calls, k + 1, h)
  }

  predicate LockedAt(calls: seq<Call>, k: nat, h: Holder)
    requires k < |calls|
  {
    calls[k] == Call(h.session, Lock(h.lock)) && Reply(calls[..k], calls[k]) == Done
  }

  /** The lock is held by whoever was last granted it and has not returned it. */
  lemma {:induction false} HolderIff(calls: seq<Call>, h: Holder)
    ensures Run(calls).holder == Some(h) <==> HasLocked(calls, h)
  {
    if k :| 0 <= k < |calls| && LockedAt(calls, k, h) && Keeps(calls, k + 1, h) {
      assert calls[..k + 1][..k] == calls[..k];
      OnlyTheHolderWrites(calls, k + 1, h);
    }
    if Run(calls).holder == Some(h) {
      LockedOnce(calls, h);
    }
  }

  lemma {:induction false} LockedOnce(calls: seq<Call>, h: Holder)
    requires Run(calls).holder == Some(h)
    ensures HasLocked(calls, h)
  {
    var n := |calls| - 1;
    var init := calls[..n];
    if Run(init).holder == Some(h) {
      LockedOnce(init, h);
      var k :| 0 <= k < n && LockedAt(init, k, h) && Keeps(init, k + 1, h);
      assert init[..k] == calls[..k];
      assert LockedAt(calls, k, h) && Keeps(calls, k + 1, h);
    } else {
      assert LockedAt(calls, n, h);
    }
  }

  /** A LOCK is granted exactly if nobody else holds the lock, and then the caller does;
      otherwise it is answered with the lock in the way and changes nothing. */
  lemma {:induction false} LockAnswers(calls: seq<Call>, h: Holder)
    ensures var c := Call(h.session, Lock(h.lock));
      && (Reply(calls, c) == Done <==> forall other :: HasLocked(calls, other) ==> other == h)
      && (Reply(calls, c) == Done ==> HasLocked(calls + [c], h))
      && (Reply(calls, c) != Done ==> Run(calls + [c]) == Run(calls) && exists other :: HasLocked(calls, other) && Reply(calls, c) == Locked(other.lock))
    ensures Latest(calls + [Call(h.session, Lock(h.lock))]) == Latest(calls)
  {
    var c := Call(h.session, Lock(h.lock));
    RunOn(calls, c);
    HolderIff(calls + [c], h);
    HoldersAre(calls);
  }

  lemma {:induction false} HoldersAre(calls: seq<Call>)
    ensures forall other :: HasLocked(calls, other) <==> Run(calls).holder == Some(other)
  {
    forall other ensures HasLocked(calls, other) <==> Run(calls).holder == Some(other) {
      HolderIff(calls, other);
    }
  }

  /** An UNLOCK is granted to the holder, and if nobody holds the lock; then nobody does. */
  lemma {:induction false} UnlockAnswers(calls: seq<Call>, h: Holder)
    ensures var c := Call(h.session, Unlock(h.lock));
      && (Reply(calls, c) == Done <==> forall other :: HasLocked(calls, other) ==> other == h)
      && (Reply(calls, c) == Done ==> forall other :: !HasLocked(calls + [c], other))
      && (Reply(calls, c) != Done ==> Run(calls + [c]) == Run(calls) && exists other :: HasLocked(calls, other) && Reply(calls, c) == Conflict(Some(other.lock)))
    ensures Latest(calls + [Call(h.session, Unlock(h.lock))]) == Latest(calls)
  {
    var c := Call(h.session, Unlock(h.lock));
    RunOn(calls, c);
    HoldersAre(calls);
    HoldersAre(calls + [c]);
  }

  /** The document continues the accepted ones. */
  predicate Continues(calls: seq<Call>, doc: Doc) {
    match Latest(calls)
    case None => true
    case Some(last) => doc == last || (doc.lineage == last.lineage && doc.serial > last.serial)
  }

  /** A POST is answered 200 exactly if the caller holds the lock, names it, and brings the
      last accepted document again or one of its lineage with a greater serial; from then on
      that document is the last accepted one. Otherwise nothing changes, and the lock in the
      way is named if the caller does not hold it. */
  lemma {:induction false} PostAnswers(calls: seq<Call>, session: string, ids: seq<string>, doc: Doc)
    ensures var c := Call(session, Post(ids, doc));
      && (Reply(calls, c) == Done <==> |ids| == 1 && HasLocked(calls, Holder(ids[0], session)) && Continues(calls, doc))
      && (Reply(calls, c) == Done ==> Latest(calls + [c]) == Some(doc))
      && (Reply(calls, c) != Done ==> Run(calls + [c]) == Run(calls) && Accepted(calls + [c]) == Accepted(calls) && Reply(calls, c).Conflict?)
      && (Reply(calls, c).Conflict? ==>
            Reply(calls, c).held == if |ids| == 1 && HasLocked(calls, Holder(ids[0], session)) then None
                                    else if Run(calls).holder.Some? then Some(Run(calls).holder.value.lock) else None)
  {
    var c := Call(session, Post(ids, doc));
    AcceptedIsHistory(calls);
    RunOn(calls, c);
    HoldersAre(calls);
    assert |ids| == 1 ==> ids == [ids[0]];
    assert Accepted(calls) + [] == Accepted(calls);
  }
}
