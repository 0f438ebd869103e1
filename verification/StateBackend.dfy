/** The state backend behind automationState (internal/core/managed_state.go:134-213): a
    project row, an append-only history of sealed states, and the lock columns. Every
    request is answered as StateRegister answers it. */
module StateBackend {
  import opened Wrappers
  import opened StateRegister
  import opened Artifacts

  datatype Meta = Meta(lineage: string, serial: nat)

  /** The parser of state files, the digest of a document, which lock ids are UUIDs. */
  datatype Env = Env(vault: Vault, parse: Bytes -> Option<Meta>, sum: Bytes -> string, uuid: string -> bool, limit: nat) {
    ghost predicate Valid() {
      && vault.Valid() && !uuid("")
      && (forall a, b :: sum(a) == sum(b) ==> a == b)
      && (forall b :: parse(b).Some? ==> parse(b).value.lineage != "")
    }

    function DocOf(raw: Bytes): Option<Doc> {
      match parse(raw) case None => None case Some(m) => Some(Doc(m.lineage, m.serial, raw))
    }
  }

  /** The columns of automation_projects that name the current state. */
  datatype Pointer = Pointer(stateId: string, lineage: string, serial: int, sum: string, size: nat)

  const NO_STATE: Pointer := Pointer("", "", -1, "", 0)

  /** A row of automation_states. */
  datatype StateRow = StateRow(lineage: string, serial: nat, sum: string, size: nat, sealed: Sealed)

  datatype RawRequest = RawGet | RawLock(lock: string) | RawUnlock(lock: string) | RawPost(ids: seq<string>, raw: Bytes)

  /** An answer, or an HTTP 400, 403 or 500. */
  datatype Reply = Answer(response: Response) | Invalid | Denied | Failure

  /** A stored state is sealed from a document of which its row tells the truth. */
  ghost predicate Kept(env: Env, key: string, row: StateRow, raw: Bytes) {
    && |raw| == row.size <= env.limit && env.sum(raw) == row.sum && env.parse(raw) == Some(Meta(row.lineage, row.serial))
    && Seals(env.vault, key, raw, row.sealed)
  }

  ghost predicate AllKept(env: Env, prefix: string, states: map<string, StateRow>, plain: map<string, Bytes>) {
    forall id :: id in states ==> id != "" && id in plain && Kept(env, prefix + id, states[id], plain[id])
  }

  /** The project row refers to the newest state of the one lineage. */
  ghost predicate Newest(states: map<string, StateRow>, p: Pointer) {
    && p.stateId in states && PointerTo(p.stateId, states[p.stateId]) == p
    && forall id :: id in states ==> states[id].lineage == p.lineage && (id != p.stateId ==> states[id].serial < p.serial)
  }

  function PointerTo(id: string, row: StateRow): Pointer {
    Pointer(id, row.lineage, row.serial, row.sum, row.size)
  }

  lemma KeptGrows(env: Env, prefix: string, states: map<string, StateRow>, plain: map<string, Bytes>, id: string, row: StateRow, raw: Bytes)
    requires AllKept(env, prefix, states, plain) && id != "" && id !in states && Kept(env, prefix + id, row, raw)
    ensures AllKept(env, prefix, states[id := row], plain[id := raw])
  {
  }

  lemma NewestMoves(states: map<string, StateRow>, p: Pointer, id: string, row: StateRow)
    requires Newest(states, p) && id !in states && row.lineage == p.lineage && row.serial > p.serial
    ensures Newest(states[id := row], PointerTo(id, row))
  {
    forall other | other in states ensures states[other].lineage == p.lineage && states[other].serial <= p.serial {
    }
  }

  /** What a write meets on its way: a random id, an object identity and version, and
      whether the object store and the ownership index do their part. */
  datatype Weather = Weather(id: string, identity: int, version: string, delivered: bool, answered: bool, indexed: bool)

  class Project {
    const env: Env
    const prefix: string
    const store: ArtifactStore
    var pointer: Pointer
    var lockId: string
    var lockSession: string
    var states: map<string, StateRow>
    ghost var plain: map<string, Bytes>

    ghost predicate Valid()
      reads this
    {
      && env.Valid() && store.vault == env.vault
      && (lockId == "" <==> lockSession == "")
      && (pointer.stateId == "" ==> pointer == NO_STATE && states == map[])
      && (pointer.stateId != "" ==> Newest(states, pointer))
      && AllKept(env, prefix, states, plain)
    }

    ghost function Register(): Register
      requires Valid()
      reads this
    {
      StateRegister.Register(
        if pointer.stateId == "" then None else Some(Doc(pointer.lineage, pointer.serial, plain[pointer.stateId])),
        if lockId == "" then None else Some(Holder(lockId, lockSession)))
    }

    constructor (env: Env, prefix: string, store: ArtifactStore)
      requires env.Valid() && store.vault == env.vault
      ensures Valid() && Register() == EMPTY && this.store == store && this.env == env && this.prefix == prefix
    {
      this.env, this.prefix, this.store := env, prefix, store;
      pointer := NO_STATE;
      lockId, lockSession, states, plain := "", "", map[], map[];
    }

    /** InvalidAutomationStatePointer, the check run over a restored database. */
    predicate InvalidPointer()
      reads this
    {
      || (pointer.stateId == "" && states != map[])
      || (pointer.stateId != ""
          && (pointer.stateId !in states || states[pointer.stateId].serial != pointer.serial || states[pointer.stateId].lineage != pointer.lineage
              || states[pointer.stateId].sum != pointer.sum || states[pointer.stateId].size != pointer.size
              || exists id :: id in states && states[id].serial > pointer.serial))
    }

    lemma PointerIsValid()
      requires Valid()
      ensures !InvalidPointer()
    {
    }

    /** The bytes of the current state can still be read from where they are kept. */
    ghost predicate Readable()
      requires Valid()
      reads this, store
    {
      pointer.stateId != "" ==> Present(env.vault, store.objects, prefix + pointer.stateId, states[pointer.stateId].sealed)
    }

    method GetState(session: string) returns (reply: Reply)
      requires Valid()
      ensures reply == if Readable() then Answer(Serve(Register(), session, Get).1) else Failure
      ensures Readable() ==> reply == Answer(match Register().current case None => NotFound case Some(doc) => Body(doc.bytes))
    {
      if pointer.stateId == "" {
        return Answer(NotFound);
      }
      assert Kept(env, prefix + pointer.stateId, states[pointer.stateId], plain[pointer.stateId]);
      var row := states[pointer.stateId];
      OpenNeverLies(env.vault, store.objects, prefix + pointer.stateId, plain[pointer.stateId], row.sealed, env.limit);
      var bytes := store.OpenArtifact(prefix + pointer.stateId, row.sealed, env.limit);
      if bytes.None? {
        return Failure;
      }
      var meta := env.parse(bytes.value);
      if meta.None? || env.sum(bytes.value) != pointer.sum || meta.value.lineage != pointer.lineage || meta.value.serial != pointer.serial || |bytes.value| != pointer.size {
        return Failure;
      }
      return Answer(Body(bytes.value));
    }

    method LockState(session: string, lock: string) returns (reply: Reply)
      requires Valid() && session != ""
      modifies this`lockId, this`lockSession
      ensures Valid()
      ensures !env.uuid(lock) ==> reply == Invalid && Register() == old(Register())
      ensures env.uuid(lock) ==> reply.Answer? && (Register(), reply.response) == Serve(old(Register()), session, Lock(lock))
    {
      if !env.uuid(lock) {
        return Invalid;
      }
      if lockId != "" {
        if lockId == lock && lockSession == session {
          return Answer(Done);
        }
        return Answer(Locked(lockId));
      }
      lockId, lockSession := lock, session;
      return Answer(Done);
    }

    method UnlockState(session: string, lock: string) returns (reply: Reply)
      requires Valid() && session != ""
      modifies this`lockId, this`lockSession
      ensures Valid()
      ensures !env.uuid(lock) ==> reply == Invalid && Register() == old(Register())
      ensures env.uuid(lock) ==> reply.Answer? && (Register(), reply.response) == Serve(old(Register()), session, Unlock(lock))
    {
      if !env.uuid(lock) {
        return Invalid;
      }
      if lockId == "" {
        return Answer(Done);
      }
      if lockId != lock || lockSession != session {
        return Answer(Conflict(Some(lockId)));
      }
      lockId, lockSession := "", "";
      return Answer(Done);
    }

    /** InsertAutomationState and AdvanceAutomationState. */
    method Advance(id: string, doc: Doc, sealed: Sealed)
      requires Valid() && id != "" && id !in states && env.DocOf(doc.bytes) == Some(doc) && |doc.bytes| <= env.limit
      requires Seals(env.vault, prefix + id, doc.bytes, sealed) && Succeeds(Register(), doc)
      modifies this`pointer, this`states, this`plain
      ensures Valid() && Register() == old(Register()).(current := Some(doc))
      ensures states == old(states)[id := StateRow(doc.lineage, doc.serial, env.sum(doc.bytes), |doc.bytes|, sealed)]
    {
      var row := StateRow(doc.lineage, doc.serial, env.sum(doc.bytes), |doc.bytes|, sealed);
      KeptGrows(env, prefix, states, plain, id, row, doc.bytes);
      if pointer.stateId != "" {
        NewestMoves(states, pointer, id, row);
      }
      states, plain, pointer := states[id := row], plain[id := doc.bytes], PointerTo(id, row);
    }

    /** The state will arrive: a fresh id, an index that agrees and, if there is an object
        store, a write of a new key that arrives, is answered and gets a version. */
    predicate Storable(w: Weather)
      reads this, store
    {
      && w.id != "" && w.id !in states && w.indexed
      && (env.vault.store.Some? ==> w.delivered && w.answered && prefix + w.id !in store.current && w.version !in {"", "null"})
    }

    /** Sealing the document and recording it; a failure on the way leaves no trace here. */
    method StoreState(doc: Doc, w: Weather) returns (stored: bool)
      requires Valid() && env.DocOf(doc.bytes) == Some(doc) && |doc.bytes| <= env.limit && Succeeds(Register(), doc)
      modifies this`pointer, this`states, this`plain, store
      ensures Valid() && Register() == if stored then old(Register()).(current := Some(doc)) else old(Register())
      ensures forall id :: id in old(states) ==> id in states && states[id] == old(states)[id]
      ensures stored <==> old(Storable(w))
    {
      var sealed := store.Seal(prefix + w.id, doc.bytes, w.identity, w.version, w.delivered, w.answered);
      if sealed.None? || w.id in states || w.id == "" || !w.indexed {
        return false;
      }
      Advance(w.id, doc, sealed.value);
      return true;
    }

    /** The lock and serial checks of a write: an answer, or leave to store it. */
    method Screen(session: string, ids: seq<string>, doc: Doc) returns (r: Option<Response>)
      requires Valid() && session != "" && env.DocOf(doc.bytes) == Some(doc)
      ensures r.Some? ==> (Register(), r.value) == Serve(Register(), session, Post(ids, doc))
      ensures r.None? ==> Writes(Register(), Call(session, Post(ids, doc)))
    {
      if lockId == "" || lockSession != session || |ids| != 1 || ids[0] != lockId {
        return Some(Conflict(if lockId == "" then None else Some(lockId)));
      }
      assert pointer.stateId != "" ==> Kept(env, prefix + pointer.stateId, states[pointer.stateId], plain[pointer.stateId]);
      if pointer.serial >= 0 && (pointer.lineage != doc.lineage || doc.serial < pointer.serial || (doc.serial == pointer.serial && env.sum(doc.bytes) != pointer.sum)) {
        return Some(Conflict(None));
      }
      if doc.serial == pointer.serial {
        return Some(Done);
      }
      return None;
    }

    method PostState(session: string, ids: seq<string>, raw: Bytes, w: Weather) returns (reply: Reply)
      requires Valid() && session != ""
      modifies this, store
      ensures Valid()
      ensures reply.Answer? ==> env.parse(raw).Some? && (Register(), reply.response) == Serve(old(Register()), session, Post(ids, env.DocOf(raw).value))
      ensures !reply.Answer? ==> Register() == old(Register())
      ensures forall id :: id in old(states) ==> id in states && states[id] == old(states)[id]
      ensures reply == Invalid <==> env.parse(raw).None? || |raw| > env.limit
      ensures reply == Failure <==> |raw| <= env.limit && env.parse(raw).Some? && !old(Storable(w))
                                    && Writes(old(Register()), Call(session, Post(ids, env.DocOf(raw).value)))
      ensures reply != Denied
    {
      var meta := env.parse(raw);
      if |raw| > env.limit || meta.None? {
        return Invalid;
      }
      var doc := Doc(meta.value.lineage, meta.value.serial, raw);
      var screened := Screen(session, ids, doc);
      if screened.Some? {
        return Answer(screened.value);
      }
      var stored := StoreState(doc, w);
      return if stored then Answer(Done) else Failure;
    }

    /** The request as the register knows it, if it is one. */
    function Parsed(request: RawRequest): Option<Request> {
      match request
      case RawGet => Some(Get)
      case RawLock(lock) => if env.uuid(lock) then Some(Lock(lock)) else None
      case RawUnlock(lock) => if env.uuid(lock) then Some(Unlock(lock)) else None
      case RawPost(ids, raw) => if |raw| > env.limit || env.parse(raw).None? then None else Some(Post(ids, env.DocOf(raw).value))
    }

    /** automationState: whatever is answered is the register's own answer, and whatever is
        refused or fails leaves the register as it was. */
    method AutomationState(session: string, writable: bool, authorised: bool, request: RawRequest, w: Weather) returns (reply: Reply)
      requires Valid() && session != ""
      modifies this, store
      ensures Valid()
      ensures reply.Answer? ==> Parsed(request).Some? && (Register(), reply.response) == Serve(old(Register()), session, Parsed(request).value)
      ensures !reply.Answer? ==> Register() == old(Register())
      ensures reply == Denied <==> !authorised || (!writable && !request.RawGet?)
      ensures reply == Invalid <==> authorised && (writable || request.RawGet?) && Parsed(request).None?
      ensures reply == Failure ==> (request.RawGet? && !old(Readable()))
                                   || (request.RawPost? && !old(Storable(w)) && Writes(old(Register()), Call(session, Parsed(request).value)))
      ensures request.RawGet? && authorised && old(Readable()) ==>
                reply == Answer(match old(Register()).current case None => NotFound case Some(doc) => Body(doc.bytes))
    {
      if !authorised || (!request.RawGet? && !writable) {
        return Denied;
      }
      match request {
        case RawGet => reply := GetState(session);
        case RawLock(lock) => reply := LockState(session, lock);
        case RawUnlock(lock) => reply := UnlockState(session, lock);
        case RawPost(ids, raw) => reply := PostState(session, ids, raw, w);
      }
    }
  }
}
