/** The service: the key collection as mutable state, the store operations
    the code issues against it, key creation with retry on a duplicate key,
    revocation, the /ai request flow and the admin commands that change or
    read the collection. */
module Api {
  import opened Wrappers
  import opened KeyStore
  import opened Access

  /** One draw from the token generator, paired with the clock reading of the
      attempt that uses it (every retry of create_key reads the clock again). */
  datatype Draw = Draw(token: string, at: int)

  /** What the /usage command reports: nothing to a non-admin, "not found",
      or the document it found. */
  datatype UsageReply = Ignored | NotFound | Found(record: KeyRecord)

  class KeyService {
    /** The admin's user id, from the environment. */
    const adminId: int
    /** The key collection. */
    var table: Table

    ghost predicate Valid()
      reads this
    {
      WellKeyed(table)
    }

    constructor (adminId: int)
      ensures Valid()
      ensures this.adminId == adminId && table == map[]
    {
      this.adminId := adminId;
      table := map[];
    }

    /** is_admin: only the configured admin id passes. Every admin command
        starts with this check and does nothing when it fails. */
    predicate IsAdmin(uid: int): (b: bool)
      ensures b <==> uid == adminId
    {
      uid == adminId
    }

    /** insert_one under the unique index on `key`: fails, changing nothing,
        when a document with that key already exists; otherwise stores the
        document with its timestamps floored to the millisecond. */
    method InsertOne(doc: KeyRecord) returns (inserted: bool)
      requires Valid()
      modifies this
      ensures Valid()
      ensures inserted <==> doc.key !in old(table)
      ensures table == if inserted then Inserted(old(table), Stored(doc)) else old(table)
    {
      if doc.key in table {
        inserted := false;
      } else {
        table := Inserted(table, Stored(doc));
        inserted := true;
      }
    }

    /** create_key: builds a fresh active record with zero usage that expires
        `days` after it is created, and on a duplicate key tries again with
        the next token. The first draw whose token is free is the one used;
        None means the supplied draws ran out, all of them taken. The record
        returned is the document as built; the table holds it as stored. */
    method CreateKey(name: string, days: int, draws: seq<Draw>) returns (doc: Option<KeyRecord>)
      requires Valid()
      modifies this
      ensures Valid()
      ensures doc.Some? ==>
        doc.value.name == name && doc.value.active && doc.value.usage == 0 &&
        doc.value.expiresAt == doc.value.createdAt + days * TicksPerDay
      ensures doc.Some? ==>
        exists i :: 0 <= i < |draws| && doc.value == NewRecord(draws[i].token, name, draws[i].at, days) &&
          forall j :: 0 <= j < i ==> draws[j].token in old(table)
      ensures doc.Some? ==> doc.value.key !in old(table) && table == Inserted(old(table), Stored(doc.value))
      ensures doc.None? ==> table == old(table) && forall j :: 0 <= j < |draws| ==> draws[j].token in old(table)
    {
      var i := 0;
      while i < |draws|
        invariant 0 <= i <= |draws|
        invariant Valid() && table == old(table)
        invariant forall j :: 0 <= j < i ==> draws[j].token in old(table)
      {
        var candidate := NewRecord(draws[i].token, name, draws[i].at, days);
        var inserted := InsertOne(candidate);
        if inserted {
          return Some(candidate);
        }
        i := i + 1;
      }
      return None;
    }

    /** revoke_by_name: deactivates every document with that name and returns
        how many of them the update modified. */
    method RevokeByName(name: string) returns (modified: nat)
      requires Valid()
      modifies this
      ensures Valid()
      ensures table == Revoked(old(table), name)
      ensures modified == |RevokedKeys(old(table), name)|
      ensures modified == |ChangedKeys(old(table), table)|
    {
      RevokeCountsChanges(table, name);
      modified := |RevokedKeys(table, name)|;
      table := Revoked(table, name);
    }

    /** find_one({"key": key, "active": True}). */
    method FindActive(key: string) returns (doc: Option<KeyRecord>)
      requires Valid()
      ensures doc.Some? <==> key in table && table[key].active
      ensures doc.Some? ==> doc.value == table[key] && doc.value.key == key
    {
      if key in table && table[key].active {
        doc := Some(table[key]);
      } else {
        doc := None;
      }
    }

    /** The lazy-expiry write: update_one setting `active` to false. */
    method DeactivateKey(key: string)
      requires Valid()
      modifies this
      ensures Valid()
      ensures table == Deactivated(old(table), key)
    {
      if key in table {
        table := table[key := table[key].(active := false)];
      }
    }

    /** The metering write: update_one with $inc of `usage` by 1. */
    method IncrementUsage(key: string)
      requires Valid()
      modifies this
      ensures Valid()
      ensures table == Incremented(old(table), key)
    {
      if key in table {
        table := table[key := table[key].(usage := table[key].usage + 1)];
      }
    }

    /** The /ai endpoint. `contacted` says whether the upstream call was made:
        only for a request whose key is present, active and unexpired. */
    method HandleAi(req: Request) returns (resp: Response, contacted: bool)
      requires Valid()
      modifies this
      ensures Valid()
      ensures (resp, table) == Respond(old(table), req)
      ensures contacted <==> Check(old(table), req.apikey, req.prompt, req.now) == Admitted
      ensures !contacted ==> forall k :: k in table ==> table[k].usage == old(table)[k].usage
    {
      if !Given(req.apikey) || !Given(req.prompt) {
        return Refusal(400, MissingParameters), false;
      }
      var key := req.apikey.value;
      var doc := FindActive(key);
      if doc.None? {
        return Refusal(401, InvalidKey), false;
      }
      if doc.value.expiresAt < req.now {
        DeactivateKey(key);
        return Refusal(401, KeyExpired), false;
      }
      contacted := true;
      match req.upstream
      case Failed =>
        resp := ServerError;
      case Replied(reply, latency) =>
        IncrementUsage(key);
        resp := Answer(Provider, reply, latency);
    }

    /** /usage: the document whose key is the token if there is one,
        otherwise a document whose name is the token. */
    method Usage(uid: int, token: string) returns (reply: UsageReply)
      requires Valid()
      ensures !IsAdmin(uid) <==> reply == Ignored
      ensures IsAdmin(uid) && token in table ==> reply == Found(table[token])
      ensures IsAdmin(uid) && token !in table ==>
        (reply == NotFound <==> forall k :: k in table ==> table[k].name != token)
      ensures reply.Found? ==>
        reply.record.key in table && table[reply.record.key] == reply.record &&
        (reply.record.key == token || reply.record.name == token)
    {
      if !IsAdmin(uid) {
        return Ignored;
      }
      if token in table {
        return Found(table[token]);
      }
      var named := set k | k in table && table[k].name == token;
      if named == {} {
        assert forall k :: k in table ==> k !in named;
        return NotFound;
      }
      var k :| k in named;
      return Found(table[k]);
    }

    /** /rework: revokes every key of the name, then creates a new key of
        that name that lasts ReworkDays. */
    method Rework(uid: int, name: string, draws: seq<Draw>) returns (doc: Option<KeyRecord>)
      requires Valid()
      modifies this
      ensures Valid()
      ensures !IsAdmin(uid) ==> table == old(table) && doc.None?
      ensures IsAdmin(uid) ==>
        forall k :: k in old(table) && old(table)[k].name == name ==> k in table && !table[k].active
      ensures doc.Some? ==>
        doc.value.name == name && doc.value.active && doc.value.usage == 0 &&
        doc.value.expiresAt == doc.value.createdAt + ReworkDays * TicksPerDay &&
        doc.value.key !in old(table)
      // the new key comes from the first draw whose token is free, and there
      // is none only when every draw collides
      ensures IsAdmin(uid) && doc.Some? ==>
        exists i :: 0 <= i < |draws| && doc.value == NewRecord(draws[i].token, name, draws[i].at, ReworkDays) &&
          forall j :: 0 <= j < i ==> draws[j].token in old(table)
      ensures IsAdmin(uid) && doc.None? ==> forall j :: 0 <= j < |draws| ==> draws[j].token in old(table)
      ensures IsAdmin(uid) ==>
        table == if doc.Some? then Inserted(Revoked(old(table), name), Stored(doc.value)) else Revoked(old(table), name)
    {
      if !IsAdmin(uid) {
        return None;
      }
      var _ := RevokeByName(name);
      doc := CreateKey(name, ReworkDays, draws);
    }

    /** /delkey: removes every document whose key or whose name is the token. */
    method DeleteKey(uid: int, token: string)
      requires Valid()
      modifies this
      ensures Valid()
      ensures table == if IsAdmin(uid) then Deleted(old(table), token) else old(table)
    {
      if IsAdmin(uid) {
        table := Deleted(table, token);
      }
    }
  }
}
