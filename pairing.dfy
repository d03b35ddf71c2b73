/**
 * The pairing orchestrator: the single module-level `pairingClient` slot
 * of the main process, the calls it makes on the (opaque) pairing engine,
 * and the four event handlers it subscribes. The engine itself is seen
 * only through the record of calls made on it.
 */
module Pairing {
  import opened Wrappers
  import opened JsValues
  import opened Records
  import Store

  const STEAM_CANCELLED := "Steam login was cancelled"
  const OPENING_LOGIN := "Opening Steam login..."

  datatype EventKind = StatusKind | ServerPairedKind | EntityPairedKind | ErrorKind

  const ALL_KINDS: set<EventKind> := {StatusKind, ServerPairedKind, EntityPairedKind, ErrorKind}

  /** One thing the orchestrator does to engine instance `id`. */
  datatype Step =
    | Construct(id: nat)             // `new RustPlusPairing()`
    | Subscribe(id: nat, kind: EventKind)
    | CaptureToken(id: nat)          // `getSteamAuthToken()` on behalf of the instance
    | Register(id: nat, token: JsValue)
    | Listen(id: nat)
    | Destroy(id: nat)

  // ------------------------------------------------ the record of steps

  function Init(steps: seq<Step>): seq<Step>
    requires steps != []
  {
    steps[..|steps| - 1]
  }

  function Last(steps: seq<Step>): Step
    requires steps != []
  {
    steps[|steps| - 1]
  }

  /** Instances constructed and not yet destroyed. */
  function Live(steps: seq<Step>): set<nat>
    decreases |steps|
  {
    if steps == [] then {}
    else match Last(steps)
      case Construct(id) => Live(Init(steps)) + {id}
      case Destroy(id) => Live(Init(steps)) - {id}
      case _ => Live(Init(steps))
  }

  function Constructed(steps: seq<Step>): set<nat>
    decreases |steps|
  {
    if steps == [] then {}
    else if Last(steps).Construct? then Constructed(Init(steps)) + {Last(steps).id}
    else Constructed(Init(steps))
  }

  /** The event kinds instance `id` has handlers for. */
  function Subscribed(steps: seq<Step>, id: nat): set<EventKind>
    decreases |steps|
  {
    if steps == [] then {}
    else if Last(steps).Subscribe? && Last(steps).id == id then Subscribed(Init(steps), id) + {Last(steps).kind}
    else Subscribed(Init(steps), id)
  }

  /** Whether step `s` may follow `prefix`. */
  predicate Allowed(prefix: seq<Step>, s: Step) {
    match s
    case Construct(id) => id !in Constructed(prefix)
    case Subscribe(id, _) => id in Live(prefix)
    case Destroy(id) => id in Live(prefix)
    case CaptureToken(id) => id in Live(prefix) && Subscribed(prefix, id) == ALL_KINDS
    case Register(id, _) => id in Live(prefix) && Subscribed(prefix, id) == ALL_KINDS
    case Listen(id) => id in Live(prefix) && Subscribed(prefix, id) == ALL_KINDS
  }

  /**
   * Every step is allowed by what precedes it: instances are fresh, only
   * live instances are touched, and an instance is used for token capture,
   * registration or listening only once all four handlers are installed.
   */
  predicate WellFormed(steps: seq<Step>)
    decreases |steps|
  {
    steps == [] || (WellFormed(Init(steps)) && Allowed(Init(steps), Last(steps)))
  }

  /** Whether the step starts the token capture, registers, or listens. */
  predicate UsesInstance(s: Step) {
    s.CaptureToken? || s.Register? || s.Listen?
  }

  lemma AppendStep(steps: seq<Step>, s: Step)
    ensures Init(steps + [s]) == steps && Last(steps + [s]) == s
    ensures WellFormed(steps + [s]) <==> WellFormed(steps) && Allowed(steps, s)
    ensures Live(steps + [s]) ==
      if s.Construct? then Live(steps) + {s.id} else if s.Destroy? then Live(steps) - {s.id} else Live(steps)
    ensures Constructed(steps + [s]) == if s.Construct? then Constructed(steps) + {s.id} else Constructed(steps)
    ensures forall id ::
      Subscribed(steps + [s], id) == if s.Subscribe? && s.id == id then Subscribed(steps, id) + {s.kind} else Subscribed(steps, id)
  {
    assert (steps + [s])[..|steps|] == steps;
  }

  lemma {:induction false} WellFormedPrefix(steps: seq<Step>, k: nat)
    requires WellFormed(steps) && k <= |steps|
    ensures WellFormed(steps[..k])
    decreases |steps|
  {
    if k < |steps| {
      assert steps[..k] == Init(steps)[..k];
      WellFormedPrefix(Init(steps), k);
    } else {
      assert steps[..k] == steps;
    }
  }

  lemma {:induction false} SubscribedWitness(steps: seq<Step>, id: nat, kind: EventKind)
    requires kind in Subscribed(steps, id)
    ensures exists i :: 0 <= i < |steps| && steps[i] == Subscribe(id, kind)
    decreases |steps|
  {
    if Last(steps) == Subscribe(id, kind) {
      assert steps[|steps| - 1] == Subscribe(id, kind);
    } else {
      SubscribedWitness(Init(steps), id, kind);
      var i :| 0 <= i < |Init(steps)| && Init(steps)[i] == Subscribe(id, kind);
      assert steps[i] == Subscribe(id, kind);
    }
  }

  /**
   * Subscribe before use: whenever an instance starts a token capture, is
   * registered or is told to listen, each of the four handlers was
   * installed on it by an earlier step.
   */
  lemma SubscriptionsPrecedeUse(steps: seq<Step>, k: nat, kind: EventKind)
    requires WellFormed(steps) && k < |steps| && UsesInstance(steps[k])
    ensures exists i :: 0 <= i < k && steps[i] == Subscribe(steps[k].id, kind)
  {
    WellFormedPrefix(steps, k + 1);
    var p := steps[..k + 1];
    assert Init(p) == steps[..k] && Last(p) == steps[k];
    SubscribedWitness(steps[..k], steps[k].id, kind);
    var i :| 0 <= i < k && steps[..k][i] == Subscribe(steps[k].id, kind);
    assert steps[i] == Subscribe(steps[k].id, kind);
  }

  lemma {:induction false} LiveWereConstructed(steps: seq<Step>)
    requires WellFormed(steps)
    ensures Live(steps) <= Constructed(steps)
    decreases |steps|
  {
    if steps != [] {
      LiveWereConstructed(Init(steps));
    }
  }

  lemma {:induction false} DestroyedWereConstructed(steps: seq<Step>, i: nat)
    requires WellFormed(steps) && i < |steps| && steps[i].Destroy?
    ensures steps[i].id in Constructed(steps)
    decreases |steps|
  {
    if i == |steps| - 1 {
      LiveWereConstructed(Init(steps));
    } else {
      assert Init(steps)[i] == steps[i];
      DestroyedWereConstructed(Init(steps), i);
    }
  }

  /** A live instance has never been destroyed: instance ids are never reused. */
  lemma {:induction false} LiveNeverDestroyed(steps: seq<Step>, id: nat, i: nat)
    requires WellFormed(steps) && id in Live(steps) && i < |steps|
    ensures steps[i] != Destroy(id)
    decreases |steps|
  {
    var prefix := Init(steps);
    if i == |steps| - 1 {
    } else if Last(steps) == Construct(id) {
      assert prefix[i] == steps[i];
      if steps[i] == Destroy(id) {
        DestroyedWereConstructed(prefix, i);
      }
    } else {
      assert prefix[i] == steps[i];
      LiveNeverDestroyed(prefix, id, i);
    }
  }

  /** No instance is destroyed twice. */
  lemma DestroyedAtMostOnce(steps: seq<Step>, i: nat, j: nat)
    requires WellFormed(steps) && i < j < |steps| && steps[j].Destroy?
    ensures steps[i] != steps[j]
  {
    WellFormedPrefix(steps, j + 1);
    var p := steps[..j + 1];
    assert Init(p) == steps[..j] && Last(p) == steps[j];
    LiveNeverDestroyed(steps[..j], steps[j].id, i);
  }

  // ------------------------------------------------ start and stop

  function SlotIds(slot: Option<nat>): set<nat> {
    if slot.Some? then {slot.value} else {}
  }

  /** Tearing down whatever occupies the slot. */
  function Teardown(slot: Option<nat>): seq<Step> {
    if slot.Some? then [Destroy(slot.value)] else []
  }

  function Subscriptions(id: nat): seq<Step> {
    [Subscribe(id, StatusKind), Subscribe(id, ServerPairedKind), Subscribe(id, EntityPairedKind), Subscribe(id, ErrorKind)]
  }

  /** `if (!steamToken)`: no token, or a falsy one, counts as a cancelled login. */
  predicate Cancelled(token: Option<JsValue>) {
    token.None? || !Truthy(token.value)
  }

  /** The steps of one `pairing:start` on instance `id`, given the capture and registration outcomes. */
  function StartSteps(slot: Option<nat>, id: nat, token: Option<JsValue>, register: Outcome<string>): seq<Step> {
    Teardown(slot) + [Construct(id)] + Subscriptions(id) + [CaptureToken(id)]
    + (if Cancelled(token) then [] else [Register(id, token.value)] + (if register.Pass? then [Listen(id)] else []))
  }

  /** The `{success, error}` of `pairing:start`. */
  function StartOutcome(token: Option<JsValue>, register: Outcome<string>, listen: Outcome<string>): (r: Outcome<string>)
    ensures r.Pass? <==> !Cancelled(token) && register.Pass? && listen.Pass?
    ensures Cancelled(token) ==> r == Fail(STEAM_CANCELLED)
    ensures !Cancelled(token) && register.Fail? ==> r == register
    ensures !Cancelled(token) && register.Pass? && listen.Fail? ==> r == listen
  {
    if Cancelled(token) then Fail(STEAM_CANCELLED)
    else if register.Fail? then register
    else listen
  }

  lemma TeardownEmptiesSlot(steps: seq<Step>, slot: Option<nat>)
    requires WellFormed(steps) && Live(steps) == SlotIds(slot)
    ensures WellFormed(steps + Teardown(slot)) && Live(steps + Teardown(slot)) == {}
    ensures Constructed(steps + Teardown(slot)) == Constructed(steps)
  {
    if slot.Some? {
      AppendStep(steps, Destroy(slot.value));
    } else {
      assert steps + Teardown(slot) == steps;
    }
  }

  /** A fresh instance, once constructed and subscribed, is the only live one and has all four handlers. */
  lemma ConstructAndSubscribe(t: seq<Step>, id: nat)
    requires WellFormed(t) && Live(t) == {} && id !in Constructed(t)
    ensures var u := t + [Construct(id)] + Subscriptions(id);
      && WellFormed(u) && Live(u) == {id} && Constructed(u) == Constructed(t) + {id}
      && Subscribed(u, id) == ALL_KINDS
  {
    LiveNeverSubscribedBeforeConstruct(t, id);
    var t0 := t + [Construct(id)];
    AppendStep(t, Construct(id));
    var t1 := t0 + [Subscribe(id, StatusKind)];
    AppendStep(t0, Subscribe(id, StatusKind));
    var t2 := t1 + [Subscribe(id, ServerPairedKind)];
    AppendStep(t1, Subscribe(id, ServerPairedKind));
    var t3 := t2 + [Subscribe(id, EntityPairedKind)];
    AppendStep(t2, Subscribe(id, EntityPairedKind));
    var t4 := t3 + [Subscribe(id, ErrorKind)];
    AppendStep(t3, Subscribe(id, ErrorKind));
    assert t4 == t + [Construct(id)] + Subscriptions(id);
  }

  /** Capture, registration and listening on the live, fully subscribed instance. */
  lemma UseKeepsWellFormed(u: seq<Step>, id: nat, token: Option<JsValue>, register: Outcome<string>)
    requires WellFormed(u) && id in Live(u) && Subscribed(u, id) == ALL_KINDS
    ensures var w := u + [CaptureToken(id)]
      + (if Cancelled(token) then [] else [Register(id, token.value)] + (if register.Pass? then [Listen(id)] else []));
      WellFormed(w) && Live(w) == Live(u) && Constructed(w) == Constructed(u)
  {
    var u0 := u + [CaptureToken(id)];
    AppendStep(u, CaptureToken(id));
    if !Cancelled(token) {
      var u1 := u0 + [Register(id, token.value)];
      AppendStep(u0, Register(id, token.value));
      if register.Pass? {
        AppendStep(u1, Listen(id));
        assert u1 + [Listen(id)] == u + [CaptureToken(id)] + ([Register(id, token.value)] + [Listen(id)]);
      } else {
        assert u1 == u + [CaptureToken(id)] + ([Register(id, token.value)] + []);
      }
    } else {
      assert u0 == u + [CaptureToken(id)] + [];
    }
  }

  /**
   * A start keeps the record well formed and leaves the new instance as
   * the only live one, whatever occupied the slot before, whether or not
   * the login was cancelled and whether or not registration failed.
   */
  lemma StartKeepsOneLive(steps: seq<Step>, slot: Option<nat>, id: nat, token: Option<JsValue>, register: Outcome<string>)
    requires WellFormed(steps) && Live(steps) == SlotIds(slot) && id !in Constructed(steps)
    ensures WellFormed(steps + StartSteps(slot, id, token, register))
    ensures Live(steps + StartSteps(slot, id, token, register)) == {id}
    ensures Constructed(steps + StartSteps(slot, id, token, register)) == Constructed(steps) + {id}
  {
    TeardownEmptiesSlot(steps, slot);
    var t := steps + Teardown(slot);
    ConstructAndSubscribe(t, id);
    var u := t + [Construct(id)] + Subscriptions(id);
    UseKeepsWellFormed(u, id, token, register);
    var tail := if Cancelled(token) then [] else [Register(id, token.value)] + (if register.Pass? then [Listen(id)] else []);
    assert steps + StartSteps(slot, id, token, register) == u + [CaptureToken(id)] + tail;
  }

  /** An instance that was never constructed has no handlers. */
  lemma {:induction false} LiveNeverSubscribedBeforeConstruct(steps: seq<Step>, id: nat)
    requires WellFormed(steps) && id !in Constructed(steps)
    ensures Subscribed(steps, id) == {}
    decreases |steps|
  {
    if steps != [] {
      LiveWereConstructed(Init(steps));
      LiveNeverSubscribedBeforeConstruct(Init(steps), id);
    }
  }

  // ------------------------------------------------ the orchestrator

  datatype EngineEvent =
    | StatusEvent(message: string)
    | ServerPaired(server: ServerData)
    | EntityPaired(entity: EntityData)
    | EngineError(message: string)

  /** What the main window receives over `webContents.send`. */
  datatype Notification =
    | StatusNote(message: string)
    | ServerNote(server: ServerData)
    | EntityNote(entity: EntityData)
    | ErrorNote(message: string)

  function Forwarded(e: EngineEvent): Notification {
    match e
    case StatusEvent(m) => StatusNote(m)
    case ServerPaired(d) => ServerNote(d)
    case EntityPaired(d) => EntityNote(d)
    case EngineError(m) => ErrorNote(m)
  }

  class Orchestrator {
    const store: Store.PersistentStore
    var slot: Option<nat>              // `pairingClient`
    var nextId: nat
    ghost var steps: seq<Step>         // every call made on an engine instance, in order
    var mainWindowOpen: bool           // `mainWindow` is not null
    var outbox: seq<Notification>      // what has been sent to the main window

    ghost predicate Valid()
      reads this
    {
      && WellFormed(steps)
      && Live(steps) == SlotIds(slot)
      && (forall x :: x in Constructed(steps) ==> x < nextId)
    }

    constructor (store: Store.PersistentStore)
      ensures Valid() && this.store == store
      ensures slot == None && steps == [] && outbox == [] && mainWindowOpen
    {
      this.store := store;
      slot, nextId, steps := None, 0, [];
      mainWindowOpen, outbox := true, [];
    }

    method Notify(n: Notification)
      modifies this`outbox
      ensures outbox == old(outbox) + (if mainWindowOpen then [n] else [])
    {
      if mainWindowOpen {
        outbox := outbox + [n];
      }
    }

    /**
     * `pairing:start`, with the result of the Steam capture and the
     * outcomes of `registerWithToken` and `startListening` as inputs.
     */
    method Start(token: Option<JsValue>, register: Outcome<string>, listen: Outcome<string>) returns (r: Outcome<string>)
      requires Valid()
      modifies this
      ensures Valid()
      ensures slot == Some(old(nextId)) && nextId == old(nextId) + 1
      ensures steps == old(steps) + StartSteps(old(slot), old(nextId), token, register)
      ensures |Live(steps)| == 1
      ensures outbox == old(outbox) + (if old(mainWindowOpen) then [StatusNote(OPENING_LOGIN)] else [])
      ensures mainWindowOpen == old(mainWindowOpen)
      ensures r == StartOutcome(token, register, listen)
    {
      StartKeepsOneLive(steps, slot, nextId, token, register);
      steps := steps + StartSteps(slot, nextId, token, register);
      slot := Some(nextId);
      nextId := nextId + 1;
      Notify(StatusNote(OPENING_LOGIN));
      r := StartOutcome(token, register, listen);
    }

    /** `pairing:stop`: destroy the instance, if any, and empty the slot; always succeeds. */
    method Stop() returns (r: Outcome<string>)
      requires Valid()
      modifies this
      ensures Valid() && r == Pass && slot == None && Live(steps) == {}
      ensures steps == old(steps) + Teardown(old(slot))
      ensures nextId == old(nextId) && outbox == old(outbox) && mainWindowOpen == old(mainWindowOpen)
    {
      if slot.Some? {
        AppendStep(steps, Destroy(slot.value));
        steps := steps + [Destroy(slot.value)];
        slot := None;
      }
      r := Pass;
    }

    /** `before-quit`: destroy the instance but leave the slot as it is; no engine outlives the process. */
    method BeforeQuit()
      requires Valid()
      modifies this`steps
      ensures WellFormed(steps) && Live(steps) == {}
      ensures steps == old(steps) + Teardown(old(slot)) && slot == old(slot)
    {
      if slot.Some? {
        AppendStep(steps, Destroy(slot.value));
        steps := steps + [Destroy(slot.value)];
      }
    }

    /** The main window closes: later notifications are dropped (`mainWindow?.`). */
    method MainWindowClosed()
      requires Valid()
      modifies this`mainWindowOpen
      ensures Valid() && !mainWindowOpen
    {
      mainWindowOpen := false;
    }

    /**
     * An event reaches the subscribed handlers: it is forwarded to the main
     * window, and pairing events are upserted into the store at `nowMs`.
     */
    method Deliver(e: EngineEvent, nowMs: int)
      requires Valid()
      modifies this`outbox, store
      ensures Valid()
      ensures outbox == old(outbox) + (if mainWindowOpen then [Forwarded(e)] else [])
      ensures store.servers == if e.ServerPaired? then old(store.servers)[ServerKey(e.server) := StampServer(e.server, nowMs)] else old(store.servers)
      ensures store.entities == if e.EntityPaired? then old(store.entities)[EntityKey(e.entity.entityId) := StampEntity(e.entity, nowMs)] else old(store.entities)
      ensures store.cloudSession == old(store.cloudSession)
    {
      Notify(Forwarded(e));
      match e
      case ServerPaired(d) => store.UpsertServer(d, nowMs);
      case EntityPaired(d) => store.UpsertEntity(d, nowMs);
      case _ =>
    }
  }

  /** Stopping twice: the second stop does nothing and still succeeds. */
  method StopTwice(o: Orchestrator) returns (first: Outcome<string>, second: Outcome<string>)
    requires o.Valid()
    modifies o
    ensures first == Pass && second == Pass && o.slot == None
    ensures o.steps == old(o.steps) + Teardown(old(o.slot))
  {
    first := o.Stop();
    ghost var between := o.steps;
    second := o.Stop();
    assert o.steps == between;
  }
}
