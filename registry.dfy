/**
 * The handler registries of PacketManager, as values.  The plain registries
 * (client and server packet ids) log and ignore a duplicate registration or a
 * missing deregistration; the addon registries (addon id, then packet id within
 * the addon) create an addon's table the first time a handler is registered
 * into it and throw InvalidOperationException in those cases.
 */
module Registry {
  import opened Common

  /** A registered callback; handlers are opaque to the packet manager. */
  datatype Handler = Handler(token: nat)

  /** Addon id to (addon packet id to handler). */
  type AddonTable = map<byte, map<byte, Handler>>

  /** The two InvalidOperationException cases of the addon registries. */
  datatype RegistryError = AlreadyRegistered | NotRegistered

  /**
   * Registering in a plain registry (lines 105-115, 188-195): an id that is
   * already present keeps its first handler; otherwise exactly that id is added.
   */
  function Register<K>(m: map<K, Handler>, id: K, handler: Handler): (r: map<K, Handler>)
    ensures r.Keys == m.Keys + {id}
    ensures r[id] == if id in m then m[id] else handler
    ensures forall k :: k in m ==> r[k] == m[k]
  {
    if id in m then m else m[id := handler]
  }

  /** Deregistering from a plain registry (lines 127-134, 210-217): removes exactly that id, if present. */
  function Deregister<K>(m: map<K, Handler>, id: K): (r: map<K, Handler>)
    ensures r.Keys == m.Keys - {id}
    ensures forall k :: k in r ==> r[k] == m[k]
  {
    m - {id}
  }

  /** The handler an addon registry holds for (addonId, packetId), if any. */
  function AddonLookup(t: AddonTable, addonId: byte, packetId: byte): (r: Option<Handler>)
    ensures r.Some? <==> addonId in t && packetId in t[addonId]
    ensures r.Some? ==> r.value == t[addonId][packetId]
  {
    if addonId in t && packetId in t[addonId] then Some(t[addonId][packetId]) else None
  }

  /**
   * Registering in an addon registry (lines 252-268, 325-341): throws when the
   * pair is present; otherwise adds it, creating the addon's table if needed,
   * and changes nothing else.
   */
  function RegisterAddon(t: AddonTable, addonId: byte, packetId: byte, handler: Handler)
    : (r: Result<AddonTable, RegistryError>)
    ensures r.Failure? <==> AddonLookup(t, addonId, packetId).Some?
    ensures r.Failure? ==> r.error == AlreadyRegistered
    ensures r.Success? ==> r.value.Keys == t.Keys + {addonId}
    ensures r.Success? ==> AddonLookup(r.value, addonId, packetId) == Some(handler)
    ensures r.Success? ==> forall a, p :: (a, p) != (addonId, packetId) ==>
              AddonLookup(r.value, a, p) == AddonLookup(t, a, p)
  {
    var table := if addonId in t then t[addonId] else map[];
    if packetId in table then Failure(AlreadyRegistered)
    else Success(t[addonId := table[packetId := handler]])
  }

  /**
   * Deregistering from an addon registry (lines 270-282, 343-355): throws when
   * the addon or the packet id is absent; otherwise removes that one entry and
   * keeps the addon's table, even when it becomes empty.
   */
  function DeregisterAddon(t: AddonTable, addonId: byte, packetId: byte)
    : (r: Result<AddonTable, RegistryError>)
    ensures r.Failure? <==> AddonLookup(t, addonId, packetId).None?
    ensures r.Failure? ==> r.error == NotRegistered
    ensures r.Success? ==> r.value.Keys == t.Keys
    ensures r.Success? ==> AddonLookup(r.value, addonId, packetId).None?
    ensures r.Success? ==> forall a, p :: (a, p) != (addonId, packetId) ==>
              AddonLookup(r.value, a, p) == AddonLookup(t, a, p)
  {
    if addonId !in t || packetId !in t[addonId] then Failure(NotRegistered)
    else Success(t[addonId := t[addonId] - {packetId}])
  }

  /** Registering an id twice leaves the first handler active. */
  lemma RegisterKeepsFirst<K>(m: map<K, Handler>, id: K, first: Handler, second: Handler)
    ensures Register(Register(m, id, first), id, second) == Register(m, id, first)
    ensures id !in m ==> Register(Register(m, id, first), id, second)[id] == first
  {
  }

  /** Deregistering a freshly registered id restores the registry. */
  lemma RegisterDeregister<K>(m: map<K, Handler>, id: K, handler: Handler)
    requires id !in m
    ensures Deregister(Register(m, id, handler), id) == m
  {
    assert Deregister(Register(m, id, handler), id).Keys == m.Keys;
  }

  /**
   * An addon registration can be undone, but the addon's table stays: the
   * result is the original registry with that addon's table (new and empty if
   * it was absent) present.
   */
  lemma RegisterDeregisterAddon(t: AddonTable, addonId: byte, packetId: byte, handler: Handler)
    requires AddonLookup(t, addonId, packetId).None?
    ensures RegisterAddon(t, addonId, packetId, handler).Success?
    ensures var r := RegisterAddon(t, addonId, packetId, handler).value;
      DeregisterAddon(r, addonId, packetId)
        == Success(t[addonId := if addonId in t then t[addonId] else map[]])
  {
    var table := if addonId in t then t[addonId] else map[];
    var r := t[addonId := table[packetId := handler]];
    assert RegisterAddon(t, addonId, packetId, handler) == Success(r);
    assert table[packetId := handler] - {packetId} == table;
    assert r[addonId := r[addonId] - {packetId}] == t[addonId := table];
  }

  /**
   * A second registration of the same addon pair throws; the PacketManager addon
   * methods state that their tables are then left unchanged.
   */
  lemma RegisterAddonTwiceThrows(t: AddonTable, addonId: byte, packetId: byte, first: Handler, second: Handler)
    requires RegisterAddon(t, addonId, packetId, first).Success?
    ensures RegisterAddon(RegisterAddon(t, addonId, packetId, first).value, addonId, packetId, second)
      == Failure(AlreadyRegistered)
  {
  }
}
