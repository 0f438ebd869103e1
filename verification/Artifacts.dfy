/** Protected artifacts (internal/core/artifacts.go, internal/artifactstore/store.go):
    encryption is an inverse pair, digests are injective, and the object store pins
    versions but is otherwise not trusted. */
module Artifacts {
  import opened Wrappers
  import opened StateRegister

  datatype Reference = Reference(store: string, key: string, version: string, sum: string, size: nat)

  datatype Secret = Plain(bytes: Bytes) | Envelope(reference: Reference, identity: int)

  /** Something encrypted for one recipient. */
  datatype Cipher = Cipher(recipient: int, secret: Secret)

  datatype Storage = Database | Objects

  datatype Sealed = Sealed(storage: Storage, cipher: Cipher)

  /** The service's own identity, digests and sizes of encrypted bytes, and the object
      store's name, if there is one. */
  datatype Vault = Vault(identity: int, sum: Cipher -> string, size: Cipher -> nat, store: Option<string>) {
    ghost predicate Valid() {
      && (forall a, b :: sum(a) == sum(b) ==> a == b)
      && (forall c :: size(c) >= 1 && sum(c) != "")
    }
  }

  /** The versions of objects in the store, by key and version. */
  type Versions = map<(string, string), Cipher>

  function Decrypt(c: Cipher, identity: int): Option<Secret> {
    if c.recipient == identity then Some(c.secret) else None
  }

  /** Store.Read: the pinned version, checked by length and digest. */
  function Read(v: Vault, objects: Versions, r: Reference): (c: Option<Cipher>)
    ensures c.Some? ==> v.sum(c.value) == r.sum
  {
    if v.store != Some(r.store) || r.version == "" || r.version == "null" || r.sum == "" || r.size < 1 || (r.key, r.version) !in objects then None
    else
      var c := objects[(r.key, r.version)];
      if v.size(c) != r.size || v.sum(c) != r.sum then None else Some(c)
  }

  /** decryptBounded. */
  function DecryptBounded(c: Cipher, identity: int, limit: nat): Option<Bytes> {
    match Decrypt(c, identity)
    case Some(Plain(bytes)) => if |bytes| <= limit then Some(bytes) else None
    case _ => None
  }

  function Open(v: Vault, objects: Versions, key: string, s: Sealed, limit: nat): Option<Bytes> {
    if s.storage == Database then DecryptBounded(s.cipher, v.identity, limit)
    else if v.store.None? then None
    else match Decrypt(s.cipher, v.identity)
      case Some(Envelope(reference, identity)) =>
        if reference.key != key then None
        else (match Read(v, objects, reference) case None => None case Some(c) => DecryptBounded(c, identity, limit))
      case _ => None
  }

  /** What sealing `raw` under `key` produced. */
  ghost predicate Seals(v: Vault, key: string, raw: Bytes, s: Sealed) {
    match s.storage
    case Database => s.cipher == Cipher(v.identity, Plain(raw))
    case Objects => exists identity: int :: SealsFor(v, key, raw, s, identity)
  }

  ghost predicate SealsFor(v: Vault, key: string, raw: Bytes, s: Sealed, identity: int) {
    && s.cipher.recipient == v.identity && s.cipher.secret.Envelope? && s.cipher.secret.identity == identity
    && s.cipher.secret.reference.key == key && s.cipher.secret.reference.sum == v.sum(Cipher(identity, Plain(raw)))
  }

  /** Nothing else has replaced or removed the pinned object. */
  ghost predicate Present(v: Vault, objects: Versions, key: string, s: Sealed) {
    s.storage == Objects ==> s.cipher.secret.Envelope? && Read(v, objects, s.cipher.secret.reference).Some?
  }

  /** What is read is the object under the very version that was pinned, unaltered in length
      and digest; an unversioned object is never read. */
  lemma ReadIsPinned(v: Vault, objects: Versions, r: Reference)
    requires v.Valid()
    ensures Read(v, objects, r).Some?
       <==> && v.store == Some(r.store) && r.version != "" && r.version != "null"
            && (r.key, r.version) in objects && v.size(objects[(r.key, r.version)]) == r.size && v.sum(objects[(r.key, r.version)]) == r.sum
    ensures Read(v, objects, r).Some? ==> Read(v, objects, r).value == objects[(r.key, r.version)]
  {
  }

  /** Whatever the store does, opening yields the sealed bytes or nothing; and it yields
      them exactly when the pinned object can still be read and the bound allows it. */
  lemma OpenNeverLies(v: Vault, objects: Versions, key: string, raw: Bytes, s: Sealed, limit: nat)
    requires v.Valid() && Seals(v, key, raw, s)
    ensures Open(v, objects, key, s, limit) == if Present(v, objects, key, s) && |raw| <= limit then Some(raw) else None
  {
    if s.storage == Objects {
      var identity :| SealsFor(v, key, raw, s, identity);
      var c := Read(v, objects, s.cipher.secret.reference);
      if c.Some? {
        assert v.sum(c.value) == v.sum(Cipher(identity, Plain(raw)));
      }
    }
  }

  /** An object-backed artifact cannot be passed off under another key. */
  lemma OpenIsBoundToKey(v: Vault, objects: Versions, key: string, other: string, raw: Bytes, s: Sealed, limit: nat)
    requires v.Valid() && Seals(v, key, raw, s) && other != key
    ensures Open(v, objects, other, s, limit) == if s.storage == Database && |raw| <= limit then Some(raw) else None
  {
    if s.storage == Objects {
      var identity :| SealsFor(v, key, raw, s, identity);
    }
  }

  class ArtifactStore {
    const vault: Vault
    var objects: Versions
    /** Keys with a current version: a conditional write fails on them. */
    var current: set<string>

    constructor (vault: Vault)
      ensures this.vault == vault && objects == map[] && current == {}
    {
      this.vault := vault;
      objects, current := map[], {};
    }

    /** Store.Put: create only, then read the new version back. `delivered` and
        `answered` say whether the write arrived and its answer came back. */
    method Put(key: string, payload: Cipher, version: string, delivered: bool, answered: bool) returns (r: Option<Reference>)
      modifies this
      ensures forall k :: k in old(objects) ==> k in objects && (objects[k] == old(objects)[k] || k == (key, version))
      ensures r.Some? ==> r.value.key == key && r.value.sum == vault.sum(payload) && Read(vault, objects, r.value) == Some(payload)
      ensures vault.Valid() ==> (r.Some? <==> vault.store.Some? && delivered && answered && key !in old(current) && version !in {"", "null"})
    {
      if vault.store.None? {
        return None;
      }
      var accepted := delivered && key !in current;
      if accepted {
        objects, current := objects[(key, version) := payload], current + {key};
      }
      if !accepted || !answered {
        return None;
      }
      var reference := Reference(vault.store.value, key, version, vault.sum(payload), vault.size(payload));
      if Read(vault, objects, reference).None? {
        return None;
      }
      return Some(reference);
    }

    /** sealArtifact, with the object identity it generates. */
    method Seal(key: string, raw: Bytes, identity: int, version: string, delivered: bool, answered: bool) returns (s: Option<Sealed>)
      modifies this
      ensures s.Some? ==> Seals(vault, key, raw, s.value) && Present(vault, objects, key, s.value)
      ensures vault.store.None? ==> s.Some?
      ensures vault.Valid() && vault.store.Some? ==> (s.Some? <==> delivered && answered && key !in old(current) && version !in {"", "null"})
    {
      if vault.store.None? {
        return Some(Sealed(Database, Cipher(vault.identity, Plain(raw))));
      }
      var encrypted := Cipher(identity, Plain(raw));
      var reference := Put(key, encrypted, version, delivered, answered);
      if reference.None? {
        return None;
      }
      var s' := Sealed(Objects, Cipher(vault.identity, Envelope(reference.value, identity)));
      assert SealsFor(vault, key, raw, s', identity);
      return Some(s');
    }

    /** openArtifact. */
    method OpenArtifact(key: string, s: Sealed, limit: nat) returns (bytes: Option<Bytes>)
      ensures bytes == Open(vault, objects, key, s, limit)
    {
      if s.storage == Database {
        return DecryptBounded(s.cipher, vault.identity, limit);
      }
      if vault.store.None? {
        return None;
      }
      var raw := Decrypt(s.cipher, vault.identity);
      if raw.None? || !raw.value.Envelope? || raw.value.reference.key != key {
        return None;
      }
      var encrypted := Read(vault, objects, raw.value.reference);
      if encrypted.None? {
        return None;
      }
      return DecryptBounded(encrypted.value, raw.value.identity, limit);
    }
  }
}
