/** A small Option type, used for lookups that may find nothing and for
    request parameters that may be absent. */
module Wrappers {
  datatype Option<+T> = None | Some(value: T)
}

/** The key collection: one document per API key, a unique index on the
    `key` field, and the bulk and single-document updates the service
    performs on it, each stated as a function from the old table to the new. */
module KeyStore {
  import opened Wrappers

  /** Timestamps are integers in microseconds, the resolution of the UTC
      clock the service reads. */
  const TicksPerDay: int := 86_400_000_000

  /** The store keeps dates as whole milliseconds. */
  const TicksPerMilli: int := 1000

  /** What the store keeps of a timestamp: the driver drops the part below a
      millisecond, rounding down. */
  function FloorMillis(ts: int): (r: int)
    ensures r <= ts < r + TicksPerMilli
    ensures r % TicksPerMilli == 0
  {
    ts / TicksPerMilli * TicksPerMilli
  }

  /** Shifting a timestamp by whole milliseconds shifts its stored value by
      the same amount. */
  lemma FloorMillisShift(ts: int, m: int)
    ensures FloorMillis(ts + m * TicksPerMilli) == FloorMillis(ts) + m * TicksPerMilli
  {
    var q, r := ts / TicksPerMilli, ts % TicksPerMilli;
    assert ts == q * TicksPerMilli + r && 0 <= r < TicksPerMilli;
    assert ts + m * TicksPerMilli == (q + m) * TicksPerMilli + r;
    assert (ts + m * TicksPerMilli) / TicksPerMilli == q + m;
  }

  /** The lifetime, in days, of the key that a rework issues. */
  const ReworkDays: int := 30

  datatype KeyRecord = KeyRecord(
    key: string,
    name: string,
    createdAt: int,
    expiresAt: int,
    active: bool,
    usage: nat)

  /** The collection, indexed by the value of each document's `key` field. */
  type Table = map<string, KeyRecord>

  /** The unique index on `key`: every document is filed under its own key,
      so no two documents carry the same key. */
  predicate WellKeyed(t: Table) {
    forall k :: k in t ==> t[k].key == k
  }

  /** The document that create_key builds for one attempt: active, unused,
      created now and expiring `days` later. Once stored, both timestamps lose
      their sub-millisecond part, so the stored lifetime is still exactly
      `days` but starts up to a millisecond before `now`. */
  function NewRecord(key: string, name: string, now: int, days: int): (r: KeyRecord)
    ensures r.key == key && r.name == name && r.active && r.usage == 0
    ensures r.createdAt == now && r.expiresAt == now + days * TicksPerDay
    ensures Stored(r).expiresAt == Stored(r).createdAt + days * TicksPerDay
    ensures Stored(r).createdAt <= now < Stored(r).createdAt + TicksPerMilli
  {
    FloorMillisShift(now, days * 86_400_000);
    KeyRecord(key, name, now, now + days * TicksPerDay, true, 0)
  }

  /** A document as the store keeps it after insert_one: the same fields,
      with both timestamps floored to the millisecond. */
  function Stored(doc: KeyRecord): KeyRecord {
    doc.(createdAt := FloorMillis(doc.createdAt), expiresAt := FloorMillis(doc.expiresAt))
  }

  /** A successful insert_one: the key is not taken yet, the new document is
      stored under it and every document already present stays as it was. */
  function Inserted(t: Table, doc: KeyRecord): (u: Table)
    requires doc.key !in t
    ensures u.Keys == t.Keys + {doc.key}
    ensures u[doc.key] == doc
    ensures forall k :: k in t ==> u[k] == t[k]
    ensures WellKeyed(t) ==> WellKeyed(u)
    ensures WellKeyed(t) ==> forall k :: k in u && u[k].key == doc.key ==> k == doc.key
  {
    t[doc.key := doc]
  }

  /** update_many({"name": n}, {"$set": {"active": False}}). */
  function Revoked(t: Table, n: string): (u: Table)
    ensures u.Keys == t.Keys
    ensures forall k :: k in t && t[k].name == n ==> !u[k].active
    ensures forall k :: k in t && t[k].name != n ==> u[k] == t[k]
    ensures forall k :: k in t ==> u[k] == t[k].(active := u[k].active)
    ensures forall k :: k in u && u[k].active ==> t[k].active
    ensures WellKeyed(t) ==> WellKeyed(u)
  {
    map k | k in t :: if t[k].name == n then t[k].(active := false) else t[k]
  }

  /** The documents that update_many counts as modified: those named n that
      were still active (setting `active` to the value it already has is no
      modification). */
  function RevokedKeys(t: Table, n: string): set<string> {
    set k | k in t && t[k].name == n && t[k].active
  }

  /** The keys whose documents differ between two tables over the same keys. */
  function ChangedKeys(t: Table, u: Table): set<string>
    requires u.Keys == t.Keys
  {
    set k | k in t && u[k] != t[k]
  }

  /** The count that revoke_by_name returns is the number of documents the
      bulk update actually changed. */
  lemma RevokeCountsChanges(t: Table, n: string)
    ensures |RevokedKeys(t, n)| == |ChangedKeys(t, Revoked(t, n))|
  {
    var u := Revoked(t, n);
    forall k | k in t
      ensures k in RevokedKeys(t, n) <==> k in ChangedKeys(t, u)
    {
      if t[k].name == n && t[k].active {
        assert u[k].active != t[k].active;
      }
    }
    assert RevokedKeys(t, n) == ChangedKeys(t, u);
  }

  /** update_one({"key": key}, {"$set": {"active": False}}): matches at most
      one document, and nothing when the key is absent. */
  function Deactivated(t: Table, key: string): (u: Table)
    ensures u.Keys == t.Keys
    ensures key in t ==> u[key] == t[key].(active := false)
    ensures forall k :: k in t && k != key ==> u[k] == t[k]
    ensures WellKeyed(t) ==> WellKeyed(u)
  {
    if key in t then t[key := t[key].(active := false)] else t
  }

  /** update_one({"key": key}, {"$inc": {"usage": 1}}). */
  function Incremented(t: Table, key: string): (u: Table)
    ensures u.Keys == t.Keys
    ensures key in t ==> u[key] == t[key].(usage := t[key].usage + 1)
    ensures forall k :: k in t && k != key ==> u[k] == t[k]
    ensures WellKeyed(t) ==> WellKeyed(u)
  {
    if key in t then t[key := t[key].(usage := t[key].usage + 1)] else t
  }

  /** delete_many({"$or": [{"key": tok}, {"name": tok}]}). */
  function Deleted(t: Table, tok: string): (u: Table)
    ensures forall k :: k in u <==> k in t && t[k].key != tok && t[k].name != tok
    ensures forall k :: k in u ==> u[k] == t[k]
    ensures WellKeyed(t) ==> WellKeyed(u)
  {
    map k | k in t && t[k].key != tok && t[k].name != tok :: t[k]
  }
}
