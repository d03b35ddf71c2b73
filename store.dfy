/**
 * The persistent key-value store of the main process, held in memory:
 * the `servers` and `entities` collections and the optional
 * `cloudSession`. Its methods are the handlers that write it.
 */
module Store {
  import opened Wrappers
  import opened Records

  class PersistentStore {
    var servers: map<string, PairedServer>
    var entities: map<string, PairedEntity>
    var cloudSession: Option<CloudSession>

    /** The store's defaults: empty collections, logged out. */
    constructor ()
      ensures servers == map[] && entities == map[] && cloudSession == None
    {
      servers := map[];
      entities := map[];
      cloudSession := None;
    }

    /** `server:paired`: store the payload under `"ip:port"`, stamped with the capture time. */
    method UpsertServer(d: ServerData, nowMs: int)
      modifies this
      ensures servers == old(servers)[ServerKey(d) := StampServer(d, nowMs)]
      ensures entities == old(entities) && cloudSession == old(cloudSession)
    {
      servers := servers[ServerKey(d) := StampServer(d, nowMs)];
    }

    /** `entity:paired`: store the defaulted record under `String(entityId)`. */
    method UpsertEntity(d: EntityData, nowMs: int)
      modifies this
      ensures entities == old(entities)[EntityKey(d.entityId) := StampEntity(d, nowMs)]
      ensures servers == old(servers) && cloudSession == old(cloudSession)
    {
      entities := entities[EntityKey(d.entityId) := StampEntity(d, nowMs)];
    }

    /** `pairing:deleteServer`. */
    method DeleteServer(id: string) returns (r: Outcome<string>)
      modifies this
      ensures (r, servers) == DeleteRecord(old(servers), id, SERVER_NOT_FOUND)
      ensures entities == old(entities) && cloudSession == old(cloudSession)
    {
      if id in servers {
        servers := servers - {id};
        r := Pass;
      } else {
        r := Fail(SERVER_NOT_FOUND);
      }
    }

    /** `pairing:deleteEntity`. */
    method DeleteEntity(id: string) returns (r: Outcome<string>)
      modifies this
      ensures (r, entities) == DeleteRecord(old(entities), id, ENTITY_NOT_FOUND)
      ensures servers == old(servers) && cloudSession == old(cloudSession)
    {
      if id in entities {
        entities := entities - {id};
        r := Pass;
      } else {
        r := Fail(ENTITY_NOT_FOUND);
      }
    }

    /** `store.set('cloudSession', …)`; `None` is the logged-out state. */
    method SetSession(s: Option<CloudSession>)
      modifies this
      ensures cloudSession == s
      ensures servers == old(servers) && entities == old(entities)
    {
      cloudSession := s;
    }

    /** `auth:logout`: forget the session; always succeeds. */
    method Logout() returns (r: Outcome<string>)
      modifies this
      ensures r == Pass && cloudSession == None
      ensures servers == old(servers) && entities == old(entities)
    {
      cloudSession := None;
      r := Pass;
    }
  }
}
