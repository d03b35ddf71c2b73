/**
 * The paired-record data model of the main process: paired servers keyed
 * by `"ip:port"`, paired entities keyed by their decimal id, the cloud
 * session record, and the pure map operations the pairing and delete
 * handlers perform on those collections.
 */
module Records {
  import opened Wrappers
  import opened JsValues
  import Decimal

  /** What the pairing engine reports in a `server:paired` event. */
  datatype ServerData = ServerData(name: string, ip: string, port: nat, playerId: string, playerToken: string)

  /** A stored server: the event payload spread into a record, plus the capture time (`Date.now()`, ms). */
  datatype PairedServer = PairedServer(payload: ServerData, pairedAt: int)

  /**
   * What the pairing engine reports in an `entity:paired` event. String
   * fields the engine leaves out are written `""`.
   */
  datatype EntityData = EntityData(entityId: nat, entityType: string, entityName: string, ip: string, port: nat, name: string)

  datatype PairedEntity = PairedEntity(
    entityId: nat, entityType: string, entityName: string,
    serverId: string, serverName: string, pairedAt: int)

  /** The persisted cloud session; `expires_at` is in epoch seconds, `0` when unknown. */
  datatype CloudSession = CloudSession(access_token: string, refresh_token: string, expires_at: int, web_app_url: string)

  const DEFAULT_ENTITY_TYPE := "switch"
  const UNKNOWN_SERVER := "Unknown Server"
  const SERVER_NOT_FOUND := "Server not found"
  const ENTITY_NOT_FOUND := "Entity not found"

  // ---------------------------------------------------------------- keys

  /** `` `${ip}:${port}` ``: the identity of a server and the `serverId` of its entities. */
  function Endpoint(ip: string, port: nat): string {
    ip + ":" + Decimal.Show(port)
  }

  function ServerKey(d: ServerData): string {
    Endpoint(d.ip, d.port)
  }

  /** `String(entityId)`. */
  function EntityKey(id: nat): string {
    Decimal.Show(id)
  }

  /** Position of the last `':'` in `s`, if any. */
  function LastColon(s: string): (r: Option<nat>)
    ensures r.Some? ==> r.value < |s| && s[r.value] == ':' && forall j :: r.value < j < |s| ==> s[j] != ':'
    ensures r.None? ==> forall j :: 0 <= j < |s| ==> s[j] != ':'
    decreases |s|
  {
    if |s| == 0 then None
    else if s[|s| - 1] == ':' then Some(|s| - 1)
    else LastColon(s[..|s| - 1])
  }

  /**
   * Splits a server key back into address and port at its last colon.
   * Splitting at the last colon keeps IPv6 addresses, which contain
   * colons themselves, intact.
   */
  function SplitEndpoint(key: string): Option<(string, nat)> {
    match LastColon(key)
    case None => None
    case Some(i) =>
      match Decimal.Parse(key[i + 1..])
      case None => None
      case Some(port) => Some((key[..i], port))
  }

  /** Every endpoint key can be split back into the address and port it was built from. */
  lemma SplitEndpointRoundTrip(ip: string, port: nat)
    ensures SplitEndpoint(Endpoint(ip, port)) == Some((ip, port))
  {
    var key := Endpoint(ip, port);
    var digits := Decimal.Show(port);
    assert key[|ip|] == ':';
    forall j | |ip| < j < |key| ensures key[j] != ':' {
      assert key[j] == digits[j - |ip| - 1];
    }
    assert LastColon(key) == Some(|ip|);
    assert key[|ip| + 1..] == digits;
    assert key[..|ip|] == ip;
    Decimal.ParseShow(port);
  }

  /** Two servers share a key exactly when they share address and port. */
  lemma ServerKeyIdentity(a: ServerData, b: ServerData)
    ensures ServerKey(a) == ServerKey(b) <==> a.ip == b.ip && a.port == b.port
  {
    SplitEndpointRoundTrip(a.ip, a.port);
    SplitEndpointRoundTrip(b.ip, b.port);
  }

  /** Distinct entity ids never collide on one key. */
  lemma EntityKeyIdentity(a: nat, b: nat)
    ensures EntityKey(a) == EntityKey(b) <==> a == b
  {
    Decimal.ShowInjective(a, b);
  }

  // ---------------------------------------------------------- records

  function StampServer(d: ServerData, nowMs: int): PairedServer {
    PairedServer(d, nowMs)
  }

  /**
   * The entity record the `entity:paired` handler stores, with its
   * defaults for a missing type, name and server name.
   */
  function StampEntity(d: EntityData, nowMs: int): (e: PairedEntity)
    ensures e.entityId == d.entityId && e.pairedAt == nowMs
    ensures e.serverId == Endpoint(d.ip, d.port)
    ensures e.entityType != "" && (d.entityType != "" ==> e.entityType == d.entityType)
    ensures d.entityType == "" ==> e.entityType == DEFAULT_ENTITY_TYPE
    ensures e.entityName != "" && (d.entityName != "" ==> e.entityName == d.entityName)
    ensures d.entityName == "" ==> e.entityName == "Device #" + EntityKey(d.entityId)
    ensures e.serverName != "" && (d.name != "" ==> e.serverName == d.name)
    ensures d.name == "" ==> e.serverName == UNKNOWN_SERVER
  {
    PairedEntity(
      d.entityId,
      OrElse(d.entityType, DEFAULT_ENTITY_TYPE),
      OrElse(d.entityName, "Device #" + EntityKey(d.entityId)),
      Endpoint(d.ip, d.port),
      OrElse(d.name, UNKNOWN_SERVER),
      nowMs)
  }

  /** An entity's `serverId` names the key its server is (or would be) stored under. */
  lemma EntityPointsAtServerKey(e: EntityData, s: ServerData, nowMs: int)
    requires e.ip == s.ip && e.port == s.port
    ensures StampEntity(e, nowMs).serverId == ServerKey(s)
  {
  }

  // ------------------------------------------------- upsert sequences

  /** The map after applying keyed writes in order (each `m[k] = v` of a handler). */
  function Replay<K, V>(m: map<K, V>, writes: seq<(K, V)>): map<K, V>
    decreases |writes|
  {
    if writes == [] then m
    else Replay(m, writes[..|writes| - 1])[writes[|writes| - 1].0 := writes[|writes| - 1].1]
  }

  /** Index of the last write to key `k`. */
  function LastWrite<K(==), V>(writes: seq<(K, V)>, k: K): (r: Option<nat>)
    ensures r.Some? ==> r.value < |writes| && writes[r.value].0 == k
    ensures r.Some? ==> forall j :: r.value < j < |writes| ==> writes[j].0 != k
    ensures r.None? ==> forall j :: 0 <= j < |writes| ==> writes[j].0 != k
    decreases |writes|
  {
    if writes == [] then None
    else if writes[|writes| - 1].0 == k then Some(|writes| - 1)
    else LastWrite(writes[..|writes| - 1], k)
  }

  /**
   * Upserts are last-write-wins and never duplicate: after any sequence of
   * writes, a key holds the value of its last write, or its old value when
   * nothing wrote it, and the key set grows by exactly the written keys.
   */
  lemma {:induction false} ReplayLastWriteWins<K, V>(m: map<K, V>, writes: seq<(K, V)>, k: K)
    ensures k in Replay(m, writes) <==> k in m || LastWrite(writes, k).Some?
    ensures LastWrite(writes, k).Some? ==> Replay(m, writes)[k] == writes[LastWrite(writes, k).value].1
    ensures LastWrite(writes, k).None? && k in m ==> Replay(m, writes)[k] == m[k]
    decreases |writes|
  {
    if writes != [] {
      ReplayLastWriteWins(m, writes[..|writes| - 1], k);
    }
  }

  datatype ServerEvent = ServerEvent(data: ServerData, capturedAt: int)

  function ServerWrites(events: seq<ServerEvent>): (w: seq<(string, PairedServer)>)
    ensures |w| == |events|
    ensures forall i :: 0 <= i < |events| ==> w[i] == (ServerKey(events[i].data), StampServer(events[i].data, events[i].capturedAt))
  {
    seq(|events|, i requires 0 <= i < |events| => (ServerKey(events[i].data), StampServer(events[i].data, events[i].capturedAt)))
  }

  /**
   * A run of `server:paired` events stores, for a given address and port,
   * exactly the payload of the last event for that endpoint stamped with
   * its capture time.
   */
  lemma ServerReplayKeepsLastEvent(m: map<string, PairedServer>, events: seq<ServerEvent>, i: nat)
    requires i < |events|
    requires forall j :: i < j < |events| ==> (events[j].data.ip, events[j].data.port) != (events[i].data.ip, events[i].data.port)
    ensures ServerKey(events[i].data) in Replay(m, ServerWrites(events))
    ensures Replay(m, ServerWrites(events))[ServerKey(events[i].data)] == PairedServer(events[i].data, events[i].capturedAt)
  {
    var w := ServerWrites(events);
    var k := ServerKey(events[i].data);
    forall j | i < j < |events| ensures w[j].0 != k {
      ServerKeyIdentity(events[j].data, events[i].data);
    }
    ReplayLastWriteWins(m, w, k);
    assert LastWrite(w, k) == Some(i);
  }

  // ------------------------------------------------------------ delete

  /**
   * The delete handlers: a key that is present is removed and reported as
   * success; an absent key reports `notFound` and leaves the map as it was.
   */
  function DeleteRecord<V>(m: map<string, V>, id: string, notFound: string): (r: (Outcome<string>, map<string, V>))
    ensures r.0.Pass? <==> id in m
    ensures r.0.Fail? ==> r.0.error == notFound && r.1 == m
    ensures r.1.Keys == m.Keys - {id}
    ensures forall k :: k in r.1 ==> r.1[k] == m[k]
  {
    if id in m then (Pass, m - {id}) else (Fail(notFound), m)
  }

  /** Deleting what an upsert just stored succeeds and forgets that key only. */
  lemma DeleteUndoesInsert<V>(m: map<string, V>, k: string, v: V, notFound: string)
    requires k !in m
    ensures DeleteRecord(m[k := v], k, notFound) == (Pass, m)
  {
    assert (m[k := v]) - {k} == m;
  }

  /**
   * The property names every plain JavaScript object inherits from
   * `Object.prototype`; indexing a record with one of them yields a
   * (truthy) function or object even though no record has that key.
   */
  const INHERITED_NAMES: set<string> := {
    "constructor", "toString", "toLocaleString", "valueOf", "hasOwnProperty",
    "isPrototypeOf", "propertyIsEnumerable", "__proto__", "__defineGetter__",
    "__defineSetter__", "__lookupGetter__", "__lookupSetter__"
  }

  /**
   * The delete handlers as written: `if (servers[id])` tests truthiness of
   * a property lookup, which also succeeds for inherited names; the
   * following `delete` then removes nothing.
   */
  function DeleteRecordAsWritten<V>(m: map<string, V>, id: string, notFound: string): (r: (Outcome<string>, map<string, V>))
    ensures r.1 == m - {id}
  {
    if id in m || id in INHERITED_NAMES then (Pass, m - {id}) else (Fail(notFound), m)
  }

  /** As written, deleting `"constructor"` from a store that has no such record reports success. */
  lemma DeleteAsWrittenReportsPhantomSuccess<V>(m: map<string, V>)
    requires "constructor" !in m
    ensures DeleteRecordAsWritten(m, "constructor", SERVER_NOT_FOUND).0 == Pass
    ensures DeleteRecord(m, "constructor", SERVER_NOT_FOUND).0 == Fail(SERVER_NOT_FOUND)
  {
  }

  /** Stored keys are never inherited names, so the two versions differ only on absent ids. */
  lemma ServerKeysAreNotInheritedNames(d: ServerData)
    ensures ServerKey(d) !in INHERITED_NAMES
  {
    var k := ServerKey(d);
    assert k[|d.ip|] == ':';
    forall n | n in INHERITED_NAMES ensures ':' !in n {}
  }
}
