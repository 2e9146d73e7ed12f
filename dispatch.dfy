/**
 * Dispatch of a decoded update packet to the registered handlers, as traces.
 *
 * An update packet carries a dictionary from packet id to payload, and for
 * each addon a dictionary from addon packet id to payload.  A payload that is
 * a collection is expanded into one call per instance, in the collection's
 * order.  Dictionaries are sequences of (id, payload) pairs whose order stands
 * for the (unspecified) dictionary enumeration order.
 *
 * The server runs each handler inline, so its trace is the sequence of
 * invocations (a handler exception is a flag on the invocation).  The client
 * defers each handler to the main-thread queue, so its trace is the sequence
 * of work items appended to that queue.  A call without a handler produces a
 * warning entry in both.
 */
module Dispatch {
  import opened Common
  import opened Registry

  /** The id of a connected client, an unsigned 16-bit value. */
  type ClientId = x: int | 0 <= x < 0x1_0000

  /** A decoded payload; its contents are opaque to dispatch. */
  datatype PacketData = Data(token: nat) | IsCollection(instances: seq<PacketData>)

  /** A payload dictionary, in enumeration order. */
  type PacketDict<K> = seq<(K, PacketData)>

  /** A decoded update packet: top-level payloads and, per addon id, addon payloads. */
  datatype UpdatePacket = UpdatePacket(packetData: PacketDict<nat>, addonData: seq<(byte, PacketDict<byte>)>)

  /** No key occurs twice, as in a dictionary. */
  predicate DistinctKeys<K(==), V>(d: seq<(K, V)>) {
    forall i, j :: 0 <= i < j < |d| ==> d[i].0 != d[j].0
  }

  /** One invocation of the per-entry callback. */
  datatype Call<K> = Call(packetId: K, data: PacketData)

  /** What a handler is looked up under: a top-level id or an (addon id, packet id) pair. */
  datatype Key = Top(packetId: nat) | AddonKey(addonId: byte, addonPacketId: byte)

  /** The payloads one dictionary value yields: a collection's instances (not unpacked further), or the value itself. */
  function Instances(d: PacketData): seq<PacketData> {
    if d.IsCollection? then d.instances else [d]
  }

  /** One call with the given id per payload, in order. */
  function Tag<K>(id: K, xs: seq<PacketData>): (r: seq<Call<K>>)
    ensures |r| == |xs|
    ensures forall i :: 0 <= i < |xs| ==> r[i] == Call(id, xs[i])
  {
    seq(|xs|, i requires 0 <= i < |xs| => Call(id, xs[i]))
  }

  /** The calls UnpackPacketDataDict makes for a dictionary, in order (lines 366-383). */
  function Unpack<K>(dict: PacketDict<K>): seq<Call<K>> {
    if dict == [] then [] else Tag(dict[0].0, Instances(dict[0].1)) + Unpack(dict[1..])
  }

  /** The payloads of the calls made with the given id, in order. */
  function Select<K(==)>(calls: seq<Call<K>>, id: K): seq<PacketData> {
    if calls == [] then []
    else (if calls[0].packetId == id then [calls[0].data] else []) + Select(calls[1..], id)
  }

  // ---------------------------------------------------------------- server

  /** Server handler execution (lines 171-186, 295-323): an invocation, with whether the handler threw, or a warning. */
  datatype ServerEvent =
    | Invoked(key: Key, handler: Handler, client: ClientId, data: PacketData, failed: bool)
    | Unhandled(key: Key)

  /** Whether a handler throws when invoked with a client and payload; handlers are opaque. */
  type Fails = (Handler, ClientId, PacketData) -> bool

  function ExecuteServer(handlers: map<nat, Handler>, client: ClientId, call: Call<nat>, fails: Fails): ServerEvent {
    if call.packetId in handlers then
      var h := handlers[call.packetId];
      Invoked(Top(call.packetId), h, client, call.data, fails(h, client, call.data))
    else Unhandled(Top(call.packetId))
  }

  function ExecuteServerAddon(tables: AddonTable, client: ClientId, addonId: byte, call: Call<byte>, fails: Fails)
    : ServerEvent
  {
    var key := AddonKey(addonId, call.packetId);
    match AddonLookup(tables, addonId, call.packetId)
    case None => Unhandled(key)
    case Some(h) => Invoked(key, h, client, call.data, fails(h, client, call.data))
  }

  /**
   * The events of the top-level calls: one per call, in order; registered ids
   * invoke their handler with the sending client and the payload, registered or
   * not the remaining calls still run.
   */
  function ServerEvents(handlers: map<nat, Handler>, client: ClientId, calls: seq<Call<nat>>, fails: Fails)
    : (r: seq<ServerEvent>)
    ensures |r| == |calls|
    ensures forall i :: 0 <= i < |calls| ==> r[i].key == Top(calls[i].packetId)
    ensures forall i :: 0 <= i < |calls| ==> (r[i].Invoked? <==> calls[i].packetId in handlers)
    ensures forall i :: 0 <= i < |calls| && r[i].Invoked? ==>
              r[i].handler == handlers[calls[i].packetId] && r[i].client == client && r[i].data == calls[i].data
  {
    seq(|calls|, i requires 0 <= i < |calls| => ExecuteServer(handlers, client, calls[i], fails))
  }

  /** The events of one addon's calls, likewise, looked up in the addon registry. */
  function ServerAddonEvents(tables: AddonTable, client: ClientId, addonId: byte, calls: seq<Call<byte>>, fails: Fails)
    : (r: seq<ServerEvent>)
    ensures |r| == |calls|
    ensures forall i :: 0 <= i < |calls| ==> r[i].key == AddonKey(addonId, calls[i].packetId)
    ensures forall i :: 0 <= i < |calls| ==>
              (r[i].Invoked? <==> AddonLookup(tables, addonId, calls[i].packetId).Some?)
    ensures forall i :: 0 <= i < |calls| && r[i].Invoked? ==>
              Some(r[i].handler) == AddonLookup(tables, addonId, calls[i].packetId)
              && r[i].client == client && r[i].data == calls[i].data
  {
    seq(|calls|, i requires 0 <= i < |calls| => ExecuteServerAddon(tables, client, addonId, calls[i], fails))
  }

  /** The events of all addons' calls, addon by addon. */
  function ServerAddonsEvents(tables: AddonTable, client: ClientId, addons: seq<(byte, PacketDict<byte>)>, fails: Fails)
    : seq<ServerEvent>
  {
    if addons == [] then []
    else (ServerAddonEvents(tables, client, addons[0].0, Unpack(addons[0].1), fails)
          + ServerAddonsEvents(tables, client, addons[1..], fails))
  }

  /** HandleServerPacket (lines 143-165): top-level calls, then each addon's calls. */
  function ServerTrace(handlers: map<nat, Handler>, tables: AddonTable, client: ClientId, packet: UpdatePacket, fails: Fails)
    : seq<ServerEvent>
  {
    ServerEvents(handlers, client, Unpack(packet.packetData), fails)
      + ServerAddonsEvents(tables, client, packet.addonData, fails)
  }

  /** The payloads a handler was invoked with under the given key, in order. */
  function InvokedData(events: seq<ServerEvent>, key: Key): seq<PacketData> {
    if events == [] then []
    else ((if events[0].Invoked? && events[0].key == key then [events[0].data] else [])
          + InvokedData(events[1..], key))
  }

  /** An event with the handler's exception forgotten. */
  function Erase(e: ServerEvent): ServerEvent {
    if e.Invoked? then e.(failed := false) else e
  }

  function EraseAll(events: seq<ServerEvent>): (r: seq<ServerEvent>)
    ensures |r| == |events|
    ensures forall i :: 0 <= i < |events| ==> r[i] == Erase(events[i])
  {
    seq(|events|, i requires 0 <= i < |events| => Erase(events[i]))
  }

  // ---------------------------------------------------------------- client

  /**
   * A work item on the main-thread queue.  A top-level item looks its handler
   * up when it runs (line 97); an addon item holds the handler found when it
   * was queued (line 244).
   */
  datatype WorkItem =
    | RunRegistered(packetId: nat, data: PacketData)
    | RunAddon(addonId: byte, addonPacketId: byte, handler: Handler, data: PacketData)

  /** Client handler execution (lines 88-103, 223-250): a queued work item, or a warning. */
  datatype ClientStep = Enqueued(item: WorkItem) | Skipped(key: Key)

  function ExecuteClient(handlers: map<nat, Handler>, call: Call<nat>): ClientStep {
    if call.packetId in handlers then Enqueued(RunRegistered(call.packetId, call.data))
    else Skipped(Top(call.packetId))
  }

  function ExecuteClientAddon(tables: AddonTable, addonId: byte, call: Call<byte>): ClientStep {
    match AddonLookup(tables, addonId, call.packetId)
    case None => Skipped(AddonKey(addonId, call.packetId))
    case Some(h) => Enqueued(RunAddon(addonId, call.packetId, h, call.data))
  }

  /** The steps of the top-level calls: one per call, in order; registered ids queue their payload. */
  function ClientSteps(handlers: map<nat, Handler>, calls: seq<Call<nat>>): (r: seq<ClientStep>)
    ensures |r| == |calls|
    ensures forall i :: 0 <= i < |calls| ==>
              r[i] == if calls[i].packetId in handlers then Enqueued(RunRegistered(calls[i].packetId, calls[i].data))
                      else Skipped(Top(calls[i].packetId))
  {
    seq(|calls|, i requires 0 <= i < |calls| => ExecuteClient(handlers, calls[i]))
  }

  /** The steps of one addon's calls: registered pairs queue their handler with the payload. */
  function ClientAddonSteps(tables: AddonTable, addonId: byte, calls: seq<Call<byte>>): (r: seq<ClientStep>)
    ensures |r| == |calls|
    ensures forall i :: 0 <= i < |calls| ==>
              (r[i].Enqueued? <==> AddonLookup(tables, addonId, calls[i].packetId).Some?)
    ensures forall i :: 0 <= i < |calls| && r[i].Enqueued? ==>
              AddonLookup(tables, addonId, calls[i].packetId).Some? &&
              r[i].item == RunAddon(addonId, calls[i].packetId, tables[addonId][calls[i].packetId], calls[i].data)
    ensures forall i :: 0 <= i < |calls| && r[i].Skipped? ==> r[i].key == AddonKey(addonId, calls[i].packetId)
  {
    seq(|calls|, i requires 0 <= i < |calls| => ExecuteClientAddon(tables, addonId, calls[i]))
  }

  function ClientAddonsSteps(tables: AddonTable, addons: seq<(byte, PacketDict<byte>)>): seq<ClientStep> {
    if addons == [] then []
    else ClientAddonSteps(tables, addons[0].0, Unpack(addons[0].1)) + ClientAddonsSteps(tables, addons[1..])
  }

  /** HandleClientPacket (lines 68-82): top-level calls, then each addon's calls. */
  function ClientTrace(handlers: map<nat, Handler>, tables: AddonTable, packet: UpdatePacket): seq<ClientStep> {
    ClientSteps(handlers, Unpack(packet.packetData)) + ClientAddonsSteps(tables, packet.addonData)
  }

  /** The work items the steps append to the main-thread queue, in order. */
  function Queued(steps: seq<ClientStep>): seq<WorkItem> {
    if steps == [] then []
    else (if steps[0].Enqueued? then [steps[0].item] else []) + Queued(steps[1..])
  }

  /** The payloads queued for a top-level id, in order. */
  function QueuedData(items: seq<WorkItem>, packetId: nat): seq<PacketData> {
    if items == [] then []
    else ((if items[0].RunRegistered? && items[0].packetId == packetId then [items[0].data] else [])
          + QueuedData(items[1..], packetId))
  }
}
