/** The /ai request: the parameter check, the lookup of an active key, lazy
    expiry, the upstream call and usage metering, stated as a function from
    the table before the request to the response and the table after it. */
module Access {
  import opened Wrappers
  import opened KeyStore

  const Provider: string := "Alice AI"
  const MissingParameters: string := "Missing parameters"
  const InvalidKey: string := "Invalid API key"
  const KeyExpired: string := "API key expired"

  /** What the upstream completion call yields if it is made: a reply with
      its measured latency (hundredths of a second), or an exception (an
      error status, a timeout or a response of unexpected shape). */
  datatype Upstream = Replied(reply: string, latency: nat) | Failed

  /** One call of /ai: the two query parameters, the clock reading, and the
      outcome the upstream call has if the request gets that far. */
  datatype Request = Request(apikey: Option<string>, prompt: Option<string>, now: int, upstream: Upstream)

  datatype Response =
    | Answer(provider: string, reply: string, latency: nat)  // 200
    | Refusal(status: nat, error: string)                    // 400 or 401
    | ServerError                                            // 500: the upstream exception escapes

  datatype Verdict = Missing | Invalid | Expired | Admitted

  /** Truthiness of a query parameter: absent and empty both count as missing. */
  predicate Given(p: Option<string>) {
    p.Some? && p.value != ""
  }

  /** A record authorises a request when it is active and its expiry is not
      strictly before now (a key is still good at the instant it expires). */
  predicate Usable(r: KeyRecord, now: int) {
    r.active && !(r.expiresAt < now)
  }

  /** The authorisation part of /ai, before any write. */
  function Check(t: Table, apikey: Option<string>, prompt: Option<string>, now: int): (v: Verdict)
    ensures v == Missing <==> !Given(apikey) || !Given(prompt)
    ensures v == Admitted <==> Given(apikey) && Given(prompt) && apikey.value in t && Usable(t[apikey.value], now)
    ensures v == Expired <==>
      Given(apikey) && Given(prompt) && apikey.value in t && t[apikey.value].active && t[apikey.value].expiresAt < now
  {
    if !Given(apikey) || !Given(prompt) then Missing
    else if !(apikey.value in t && t[apikey.value].active) then Invalid
    else if t[apikey.value].expiresAt < now then Expired
    else Admitted
  }

  /** The whole /ai request: the response and the table afterwards. */
  function Respond(t: Table, req: Request): (r: (Response, Table))
    ensures r.1.Keys == t.Keys
    ensures WellKeyed(t) ==> WellKeyed(r.1)
    // a successful answer needs an admitted key and a reply from upstream
    ensures r.0.Answer? <==> Check(t, req.apikey, req.prompt, req.now) == Admitted && req.upstream.Replied?
    // usage: exactly one more for the presented key on success, otherwise untouched
    ensures forall k :: k in t ==>
      r.1[k].usage == t[k].usage + (if r.0.Answer? && req.apikey == Some(k) then 1 else 0)
    // only `active` and `usage` can change, and `active` is never set back to true
    ensures forall k :: k in t ==> r.1[k] == t[k].(active := r.1[k].active, usage := r.1[k].usage)
    ensures forall k :: k in t && r.1[k].active ==> t[k].active
    // refusals and their side effects
    ensures Check(t, req.apikey, req.prompt, req.now) == Missing ==> r == (Refusal(400, MissingParameters), t)
    ensures Check(t, req.apikey, req.prompt, req.now) == Invalid ==> r == (Refusal(401, InvalidKey), t)
    ensures Check(t, req.apikey, req.prompt, req.now) == Expired ==>
      r.0 == Refusal(401, KeyExpired) &&
      forall k :: k in t ==> r.1[k] == if Some(k) == req.apikey then t[k].(active := false) else t[k]
    // an upstream failure is a 500 that changes no record
    ensures Check(t, req.apikey, req.prompt, req.now) == Admitted && req.upstream.Failed? ==> r == (ServerError, t)
    ensures r.0.ServerError? ==> r.1 == t
    // an answer carries the provider and the upstream reply and latency, and
    // its one effect is the usage increment of the presented key
    ensures r.0.Answer? ==>
      r.0 == Answer(Provider, req.upstream.reply, req.upstream.latency) &&
      r.1 == Incremented(t, req.apikey.value)
  {
    match Check(t, req.apikey, req.prompt, req.now)
    case Missing => (Refusal(400, MissingParameters), t)
    case Invalid => (Refusal(401, InvalidKey), t)
    case Expired => (Refusal(401, KeyExpired), Deactivated(t, req.apikey.value))
    case Admitted =>
      match req.upstream
      case Failed => (ServerError, t)
      case Replied(reply, latency) => (Answer(Provider, reply, latency), Incremented(t, req.apikey.value))
  }

  /** A sequence of /ai requests served one after another. */
  function RespondAll(t: Table, reqs: seq<Request>): (r: (seq<Response>, Table))
    ensures |r.0| == |reqs|
    ensures r.1.Keys == t.Keys
    ensures WellKeyed(t) ==> WellKeyed(r.1)
    ensures forall k :: k in t && r.1[k].active ==> t[k].active
    ensures forall k :: k in t ==> r.1[k].usage >= t[k].usage
    ensures forall k :: k in t ==>
      r.1[k].key == t[k].key && r.1[k].name == t[k].name &&
      r.1[k].createdAt == t[k].createdAt && r.1[k].expiresAt == t[k].expiresAt
    decreases |reqs|
  {
    if reqs == [] then ([], t)
    else
      var (resp, t1) := Respond(t, reqs[0]);
      var (rest, t2) := RespondAll(t1, reqs[1..]);
      ([resp] + rest, t2)
  }

  /** How many of the requests presenting key k were answered. */
  function Answered(reqs: seq<Request>, resps: seq<Response>, k: string): nat
    requires |resps| == |reqs|
    decreases |reqs|
  {
    if reqs == [] then 0
    else (if resps[0].Answer? && reqs[0].apikey == Some(k) then 1 else 0) + Answered(reqs[1..], resps[1..], k)
  }

  /** Over any run of requests, a key's usage grows by exactly the number of
      its requests that were answered: rejected and failed requests are never
      metered, and no answered request is lost. */
  lemma {:induction false} UsageCountsAnswers(t: Table, reqs: seq<Request>, k: string)
    requires k in t
    ensures var r := RespondAll(t, reqs);
      r.1[k].usage == t[k].usage + Answered(reqs, r.0, k)
  {
    if reqs != [] {
      var (resp, t1) := Respond(t, reqs[0]);
      UsageCountsAnswers(t1, reqs[1..], k);
      var (rest, t2) := RespondAll(t1, reqs[1..]);
      assert RespondAll(t, reqs) == ([resp] + rest, t2);
      assert ([resp] + rest)[1..] == rest;
    }
  }

  /** Lazy expiry: an expired but still active key is refused as expired,
      and its only effect is to deactivate that key; presenting it again is
      then refused as invalid, with no further change. */
  lemma ExpiryIsLazyAndFinal(t: Table, req: Request, again: Request)
    requires Check(t, req.apikey, req.prompt, req.now) == Expired
    requires again.apikey == req.apikey && Given(again.prompt)
    ensures Respond(t, req).0 == Refusal(401, KeyExpired)
    ensures Respond(t, req).1 == Deactivated(t, req.apikey.value)
    ensures var t1 := Respond(t, req).1;
      Respond(t1, again) == (Refusal(401, InvalidKey), t1)
  {
  }

  /** After revoke_by_name(n), no key that was filed under name n
      authorises a request any more. */
  lemma RevokedKeysAreInvalid(t: Table, n: string, req: Request)
    requires Given(req.apikey) && Given(req.prompt)
    requires req.apikey.value in t && t[req.apikey.value].name == n
    ensures Check(Revoked(t, n), req.apikey, req.prompt, req.now) == Invalid
  {
  }

  /** After a rework of name n (revoke by name, then insert a fresh key of
      the same name drawn at clock reading `at`), every old key of n is
      refused as invalid, and the new key, as stored, is admitted up to 30
      days after its millisecond-floored creation time, with usage 0. */
  lemma ReworkRetiresOldKeys(t: Table, n: string, key: string, at: int, req: Request)
    requires key !in t
    requires Given(req.apikey) && Given(req.prompt)
    ensures var u := Inserted(Revoked(t, n), Stored(NewRecord(key, n, at, ReworkDays)));
      (req.apikey.value in t && t[req.apikey.value].name == n ==>
        Check(u, req.apikey, req.prompt, req.now) == Invalid) &&
      (req.apikey.value == key && req.now <= FloorMillis(at) + ReworkDays * TicksPerDay ==>
        Check(u, req.apikey, req.prompt, req.now) == Admitted && u[key].usage == 0)
  {
  }

  /** Expiry is checked against the stored, millisecond-floored expiry: a key
      created at a clock reading with a sub-millisecond part is already
      expired at `days` after that reading, although the expiry of the
      document create_key returns has not passed yet. */
  lemma StoredExpiryPrecedesReturnedExpiry(t: Table, key: string, name: string, at: int, days: int, req: Request)
    requires key !in t
    requires at % TicksPerMilli != 0
    requires req.apikey == Some(key) && Given(req.apikey) && Given(req.prompt)
    requires req.now == at + days * TicksPerDay
    ensures req.now <= NewRecord(key, name, at, days).expiresAt
    ensures Check(Inserted(t, Stored(NewRecord(key, name, at, days))), req.apikey, req.prompt, req.now) == Expired
  {
    var doc := NewRecord(key, name, at, days);
    assert FloorMillis(at) < at;
    assert Stored(doc).expiresAt < req.now;
  }

  /** After delete_many on a token, no key whose record matched the token,
      by key or by name, authorises a request. */
  lemma DeletedKeysAreInvalid(t: Table, tok: string, req: Request)
    requires Given(req.apikey) && Given(req.prompt)
    requires req.apikey.value in t
    requires t[req.apikey.value].key == tok || t[req.apikey.value].name == tok
    ensures Check(Deleted(t, tok), req.apikey, req.prompt, req.now) == Invalid
  {
  }
}
