/** The narrow view of the Firestore client that the record-shaping code
    depends on: document snapshots as the reader hands them over, and what a
    write does to a stored document. */
module Firestore {
  import opened Js

  /** A document from a query or a `getDoc`: its id and its data. */
  datatype DocSnap = DocSnap(id: string, data: Fields)

  /** The outcome of a read: the documents, or the error the client raised. */
  datatype Read<+T> = Loaded(value: T) | Failed(reason: string)

  /** `setDoc(ref, payload, { merge: true })`, and `addDoc` when `stored` is
      empty: each entry of the payload replaces the stored one, entries bound
      to `undefined` are skipped, and stored entries the payload does not name
      stay as they are. */
  function MergeWrite(stored: Fields, payload: Fields): (r: Fields)
    ensures forall k :: k in r <==> k in stored || (k in payload && payload[k] != Undefined)
    ensures forall k :: k in payload && payload[k] != Undefined ==> r[k] == payload[k]
    ensures forall k :: k in stored && Get(payload, k) == Undefined ==> r[k] == stored[k]
    ensures forall k :: k in r ==> r[k] != Undefined || (k in stored && stored[k] == Undefined)
  {
    stored + map k | k in payload && payload[k] != Undefined :: payload[k]
  }
}
