/**
 * The `Scan` collection: the schema of models/Scan.js and what `save()`
 * does with a new document. The collection is a log in insertion order.
 */
module ScanStore {
  import opened Wrappers

  /** A MongoDB ObjectId, assigned when the document is constructed. */
  type ObjectId = nat

  /** A stored scan record. `code` is always present and non-empty; every other string field is optional. */
  datatype Scan = Scan(
    id: ObjectId,
    code: string,
    adId: Option<string>,
    locationId: Option<string>,
    locationName: Option<string>,
    userSessionId: Option<string>,
    ipAddress: Option<string>,
    userAgent: Option<string>,
    timestamp: int)

  /** A document as `new Scan({...})` builds it, before validation; `timestamp` is in milliseconds. */
  datatype ScanDoc = ScanDoc(
    code: Option<string>,
    adId: Option<string>,
    locationId: Option<string>,
    locationName: Option<string>,
    userSessionId: Option<string>,
    ipAddress: Option<string>,
    userAgent: Option<string>,
    timestamp: Option<int>)

  /** Why `save()` rejects a document. */
  datatype SaveError =
    | CodeRequired          // the `required` validator: missing or empty `code`
    | WriteFailed           // the database did not take the write (a dropped connection, a timeout)
    | DuplicateCode         // the unique index on `code`
    | DuplicateId           // the implicit unique index on `_id`

  /** Mongoose's `required` check for a String path: present and non-empty. */
  predicate HasCode(doc: ScanDoc)
  {
    doc.code.Some? && doc.code.value != ""
  }

  predicate CodeTaken(store: seq<Scan>, code: string)
  {
    exists i :: 0 <= i < |store| && store[i].code == code
  }

  predicate IdTaken(store: seq<Scan>, id: ObjectId)
  {
    exists i :: 0 <= i < |store| && store[i].id == id
  }

  /** The collection's invariant: every code is present, and codes and ids are each unique. */
  predicate Valid(store: seq<Scan>)
  {
    && (forall i :: 0 <= i < |store| ==> store[i].code != "")
    && (forall i, j :: 0 <= i < j < |store| ==> store[i].code != store[j].code)
    && (forall i, j :: 0 <= i < j < |store| ==> store[i].id != store[j].id)
  }

  /**
   * `doc.save()` at time `now`: validation first, then the insert, which
   * fails when the database does not take the write (`writeFails`) and
   * which the unique indexes on `code` and `_id` may refuse. An accepted
   * document is appended with its timestamp defaulting to `now`.
   */
  function Save(store: seq<Scan>, doc: ScanDoc, id: ObjectId, now: int, writeFails: bool): (r: Result<seq<Scan>, SaveError>)
    ensures r.Success? <==> HasCode(doc) && !writeFails && !CodeTaken(store, doc.code.value) && !IdTaken(store, id)
    ensures !HasCode(doc) ==> r == Failure(CodeRequired)
    ensures HasCode(doc) && writeFails ==> r == Failure(WriteFailed)
    ensures r.Success? ==>
      && |r.value| == |store| + 1
      && r.value[..|store|] == store
      && var s := r.value[|store|];
      && s.id == id
      && Some(s.code) == doc.code
      && s.adId == doc.adId && s.locationId == doc.locationId && s.locationName == doc.locationName
      && s.userSessionId == doc.userSessionId && s.ipAddress == doc.ipAddress && s.userAgent == doc.userAgent
      && (doc.timestamp.None? ==> s.timestamp == now)
      && (doc.timestamp.Some? ==> s.timestamp == doc.timestamp.value)
    ensures Valid(store) && r.Success? ==> Valid(r.value)
  {
    if !HasCode(doc) then Failure(CodeRequired)
    else if writeFails then Failure(WriteFailed)
    else if CodeTaken(store, doc.code.value) then Failure(DuplicateCode)
    else if IdTaken(store, id) then Failure(DuplicateId)
    else
      var s := Scan(id, doc.code.value, doc.adId, doc.locationId, doc.locationName,
                    doc.userSessionId, doc.ipAddress, doc.userAgent, doc.timestamp.GetOr(now));
      Success(store + [s])
  }

  /** Extending a log keeps every code it already held. */
  lemma CodeTakenExtends(store: seq<Scan>, store': seq<Scan>, code: string)
    requires |store| <= |store'| && store'[..|store|] == store
    requires CodeTaken(store, code)
    ensures CodeTaken(store', code)
  {
  }
}
