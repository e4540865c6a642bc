/** `frontend/src/lib/usuarios.ts`: reading profiles with their identity
    forced to the document id, and the upsert that stamps `updatedAt` on
    every write and `createdAt` only on the first one. */
module Usuarios {
  import opened Js
  import opened Firestore

  /** `const { uid: _, ...rest } = data; return { uid: id, ...rest }` */
  function WithUid(id: string, data: Fields): Fields {
    map["uid" := Str(id)] + (data - {"uid"})
  }

  /** `fetchUsuario(uid)` given what `getDoc` found at that id: `null`
      exactly when the document does not exist; otherwise the stored fields
      with `uid` replaced by the argument. */
  function FetchUsuario(uid: string, snap: Option<Fields>): (r: Option<Fields>)
    ensures r.None? <==> snap.None?
    ensures r.Some? ==> r.value.Keys == snap.value.Keys + {"uid"}
    ensures r.Some? ==> r.value["uid"] == Str(uid)
    ensures r.Some? ==> forall k :: k in snap.value && k != "uid" ==> r.value[k] == snap.value[k]
  {
    match snap
    case None => None
    case Some(data) => Some(WithUid(uid, data))
  }

  /** `fetchUsuarios()`: each profile with `uid` equal to its document id,
      whatever `uid` is stored. */
  function FetchUsuarios(docs: seq<DocSnap>): (r: seq<Fields>)
    ensures |r| == |docs|
    ensures forall i :: 0 <= i < |docs| ==> r[i].Keys == docs[i].data.Keys + {"uid"}
    ensures forall i :: 0 <= i < |docs| ==> r[i]["uid"] == Str(docs[i].id)
    ensures forall i, k :: 0 <= i < |docs| && k in docs[i].data && k != "uid" ==> r[i][k] == docs[i].data[k]
  {
    seq(|docs|, i requires 0 <= i < |docs| => WithUid(docs[i].id, docs[i].data))
  }

  /** The object `upsertUsuario(uid, data)` hands to `setDoc`:
      `{ uid, ...data, updatedAt: updated }`, plus `createdAt: created` when
      no document exists yet. `updated` and `created` are two readings of
      the clock, the second taken after the existence check. A `uid` in `data` wins over the argument (the
      spread comes after it); an `updatedAt` in `data` loses to the clock; on a
      later call a `createdAt` in `data` goes through untouched. */
  function UpsertPayload(uid: string, data: Fields, updated: Timestamp, created: Timestamp, found: bool): (r: Fields)
    ensures r.Keys == data.Keys + {"uid", "updatedAt"} + (if found then {} else {"createdAt"})
    ensures r["uid"] == if "uid" in data then data["uid"] else Str(uid)
    ensures r["updatedAt"] == Stamp(updated)
    ensures !found ==> r["createdAt"] == Stamp(created)
    ensures found ==> Get(r, "createdAt") == Get(data, "createdAt")
    ensures forall k :: k in data && k != "uid" && k != "updatedAt" && k != "createdAt" ==> r[k] == data[k]
  {
    var payload := map["uid" := Str(uid)] + data + map["updatedAt" := Stamp(updated)];
    if found then payload else payload["createdAt" := Stamp(created)]
  }

  /** The `usuarios` collection: document id to stored fields. */
  class UsuarioStore {
    var docs: map<string, Fields>

    constructor ()
      ensures docs == map[]
    {
      docs := map[];
    }

    /** `getDoc(doc(usuariosRef, uid))` */
    function Lookup(uid: string): (r: Option<Fields>)
      reads this
      ensures r.Some? <==> uid in docs
      ensures r.Some? ==> r.value == docs[uid]
    {
      if uid in docs then Some(docs[uid]) else None
    }

    /** `upsertUsuario(uid, data)`, with the two clock readings passed in.
        The payload is built, `createdAt` is added to it when the existence
        check finds no document, and it is merged into the stored document;
        no other document changes. */
    method Upsert(uid: string, data: Fields, updated: Timestamp, created: Timestamp)
      modifies this
      ensures docs == old(docs)[uid := Upserted(old(Lookup(uid)), uid, data, updated, created)]
    {
      var payload := map["uid" := Str(uid)] + data + map["updatedAt" := Stamp(updated)];
      var snap := Lookup(uid);
      if snap.None? {
        payload := payload["createdAt" := Stamp(created)];
      }
      assert payload == UpsertPayload(uid, data, updated, created, snap.Some?);
      var stored := if snap.Some? then snap.value else map[];
      docs := docs[uid := MergeWrite(stored, payload)];
    }
  }

  /** The document that results from an upsert at `uid` over what is stored there. */
  function Upserted(stored: Option<Fields>, uid: string, data: Fields, updated: Timestamp, created: Timestamp): Fields {
    MergeWrite(if stored.Some? then stored.value else map[], UpsertPayload(uid, data, updated, created, stored.Some?))
  }

  /** A field other than the identity and the timestamps reads, after an
      upsert, as the caller passed it; when the caller passed `undefined` or
      nothing, as it was stored before (and as `undefined` on a new profile). */
  lemma UpsertedField(stored: Option<Fields>, uid: string, data: Fields, updated: Timestamp, created: Timestamp, k: string)
    requires k != "uid" && k != "updatedAt" && k != "createdAt"
    ensures Get(Upserted(stored, uid, data, updated, created), k) ==
      if Get(data, k) != Undefined then Get(data, k)
      else if stored.Some? then Get(stored.value, k)
      else Undefined
  {
    var p := UpsertPayload(uid, data, updated, created, stored.Some?);
    assert Get(p, k) == Get(data, k);
  }

  /** `createdAt` is stamped once: after a first upsert that reads the clock
      as `c1` for `createdAt` and a later one at `t2` whose data carries no
      `createdAt`, the stored `createdAt` is still `c1` while `updatedAt` is
      `t2`; the later call's own `createdAt` reading `c2` is never written.
      A caller that does put a `createdAt` in the data of the later call
      overwrites it. */
  lemma CreatedAtStampedOnce(uid: string, a: Fields, b: Fields, t1: Timestamp, c1: Timestamp, t2: Timestamp, c2: Timestamp)
    ensures var first := Upserted(None, uid, a, t1, c1);
      var second := Upserted(Some(first), uid, b, t2, c2);
      && second["updatedAt"] == Stamp(t2)
      && (Get(b, "createdAt") == Undefined ==> second["createdAt"] == Stamp(c1))
      && (Get(b, "createdAt") != Undefined ==> second["createdAt"] == b["createdAt"])
  {
    var first := Upserted(None, uid, a, t1, c1);
    var p1 := UpsertPayload(uid, a, t1, c1, false);
    assert first["createdAt"] == p1["createdAt"] == Stamp(c1);
    var p2 := UpsertPayload(uid, b, t2, c2, true);
    assert Get(p2, "createdAt") == Get(b, "createdAt");
  }

  /** Reading a profile back after an upsert: it exists, `uid` is the
      address, `updatedAt` is the time of the write, and every defined field
      the caller passed (other than the identity and the timestamps) is
      stored as passed. */
  lemma UpsertThenFetch(stored: Option<Fields>, uid: string, data: Fields, updated: Timestamp, created: Timestamp)
    ensures var r := FetchUsuario(uid, Some(Upserted(stored, uid, data, updated, created)));
      && r.Some?
      && r.value["uid"] == Str(uid)
      && r.value["updatedAt"] == Stamp(updated)
      && forall k :: k in data && data[k] != Undefined && k != "uid" && k != "updatedAt" && k != "createdAt" ==>
        r.value[k] == data[k]
  {
    var doc := Upserted(stored, uid, data, updated, created);
    var p := UpsertPayload(uid, data, updated, created, stored.Some?);
    assert doc["updatedAt"] == Stamp(updated);
    forall k | k in data && data[k] != Undefined && k != "uid" && k != "updatedAt" && k != "createdAt"
      ensures doc[k] == data[k]
    {
      assert p[k] == data[k];
    }
  }
}
