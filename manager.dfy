/**
 * The PacketManager object: four handler registries held in fields and updated
 * in place, and the dispatch of update packets against them.  The client's
 * main-thread queue is an object of its own, to which client dispatch appends.
 */
module Manager {
  import opened Common
  import opened Registry
  import opened Dispatch
  import opened DispatchProperties

  /** The queue of actions waiting to run on the main thread; only appending is modelled. */
  class MainThreadQueue {
    var pending: seq<WorkItem>

    constructor ()
      ensures pending == []
    {
      pending := [];
    }

    /** ThreadUtil.RunActionOnMainThread: the action runs later, after those queued before it. */
    method RunActionOnMainThread(item: WorkItem)
      modifies this
      ensures pending == old(pending) + [item]
    {
      pending := pending + [item];
    }
  }

  class PacketManager {
    var clientPacketHandlers: map<nat, Handler>
    var serverPacketHandlers: map<nat, Handler>
    var clientAddonPacketHandlers: AddonTable
    var serverAddonPacketHandlers: AddonTable

    /** All four registries start empty (lines 54-60). */
    constructor ()
      ensures clientPacketHandlers == map[] && serverPacketHandlers == map[]
      ensures clientAddonPacketHandlers == map[] && serverAddonPacketHandlers == map[]
    {
      clientPacketHandlers := map[];
      serverPacketHandlers := map[];
      clientAddonPacketHandlers := map[];
      serverAddonPacketHandlers := map[];
    }

    // ------------------------------------------------------ registries

    /** Returns whether the duplicate was logged instead of registered. */
    method RegisterClientPacketHandler(packetId: nat, handler: Handler) returns (logged: bool)
      modifies this`clientPacketHandlers
      ensures clientPacketHandlers == Register(old(clientPacketHandlers), packetId, handler)
      ensures logged <==> packetId in old(clientPacketHandlers)
    {
      if packetId in clientPacketHandlers {
        return true;
      }
      clientPacketHandlers := clientPacketHandlers[packetId := handler];
      return false;
    }

    /** Returns whether the missing id was logged. */
    method DeregisterClientPacketHandler(packetId: nat) returns (logged: bool)
      modifies this`clientPacketHandlers
      ensures clientPacketHandlers == Deregister(old(clientPacketHandlers), packetId)
      ensures logged <==> packetId !in old(clientPacketHandlers)
    {
      if packetId !in clientPacketHandlers {
        return true;
      }
      clientPacketHandlers := clientPacketHandlers - {packetId};
      return false;
    }

    method RegisterServerPacketHandler(packetId: nat, handler: Handler) returns (logged: bool)
      modifies this`serverPacketHandlers
      ensures serverPacketHandlers == Register(old(serverPacketHandlers), packetId, handler)
      ensures logged <==> packetId in old(serverPacketHandlers)
    {
      if packetId in serverPacketHandlers {
        return true;
      }
      serverPacketHandlers := serverPacketHandlers[packetId := handler];
      return false;
    }

    method DeregisterServerPacketHandler(packetId: nat) returns (logged: bool)
      modifies this`serverPacketHandlers
      ensures serverPacketHandlers == Deregister(old(serverPacketHandlers), packetId)
      ensures logged <==> packetId !in old(serverPacketHandlers)
    {
      if packetId !in serverPacketHandlers {
        return true;
      }
      serverPacketHandlers := serverPacketHandlers - {packetId};
      return false;
    }

    /** A thrown InvalidOperationException leaves the registry as it was. */
    method RegisterClientAddonPacketHandler(addonId: byte, packetId: byte, handler: Handler)
      returns (outcome: Outcome<RegistryError>)
      modifies this`clientAddonPacketHandlers
      ensures var r := RegisterAddon(old(clientAddonPacketHandlers), addonId, packetId, handler);
        if r.Success? then outcome == Pass && clientAddonPacketHandlers == r.value
        else outcome == Fail(r.error) && clientAddonPacketHandlers == old(clientAddonPacketHandlers)
    {
      var addonPacketHandlers;
      if addonId in clientAddonPacketHandlers {
        addonPacketHandlers := clientAddonPacketHandlers[addonId];
      } else {
        addonPacketHandlers := map[];
        clientAddonPacketHandlers := clientAddonPacketHandlers[addonId := addonPacketHandlers];
      }
      if packetId in addonPacketHandlers {
        return Fail(AlreadyRegistered);
      }
      clientAddonPacketHandlers := clientAddonPacketHandlers[addonId := addonPacketHandlers[packetId := handler]];
      return Pass;
    }

    method DeregisterClientAddonPacketHandler(addonId: byte, packetId: byte) returns (outcome: Outcome<RegistryError>)
      modifies this`clientAddonPacketHandlers
      ensures var r := DeregisterAddon(old(clientAddonPacketHandlers), addonId, packetId);
        if r.Success? then outcome == Pass && clientAddonPacketHandlers == r.value
        else outcome == Fail(r.error) && clientAddonPacketHandlers == old(clientAddonPacketHandlers)
    {
      if addonId !in clientAddonPacketHandlers {
        return Fail(NotRegistered);
      }
      var addonPacketHandlers := clientAddonPacketHandlers[addonId];
      if packetId !in addonPacketHandlers {
        return Fail(NotRegistered);
      }
      clientAddonPacketHandlers := clientAddonPacketHandlers[addonId := addonPacketHandlers - {packetId}];
      return Pass;
    }

    /** Empties the client addon registry and no other (lines 287-289). */
    method ClearClientAddonPacketHandlers()
      modifies this`clientAddonPacketHandlers
      ensures clientAddonPacketHandlers == map[]
    {
      clientAddonPacketHandlers := map[];
    }

    method RegisterServerAddonPacketHandler(addonId: byte, packetId: byte, handler: Handler)
      returns (outcome: Outcome<RegistryError>)
      modifies this`serverAddonPacketHandlers
      ensures var r := RegisterAddon(old(serverAddonPacketHandlers), addonId, packetId, handler);
        if r.Success? then outcome == Pass && serverAddonPacketHandlers == r.value
        else outcome == Fail(r.error) && serverAddonPacketHandlers == old(serverAddonPacketHandlers)
    {
      var addonPacketHandlers;
      if addonId in serverAddonPacketHandlers {
        addonPacketHandlers := serverAddonPacketHandlers[addonId];
      } else {
        addonPacketHandlers := map[];
        serverAddonPacketHandlers := serverAddonPacketHandlers[addonId := addonPacketHandlers];
      }
      if packetId in addonPacketHandlers {
        return Fail(AlreadyRegistered);
      }
      serverAddonPacketHandlers := serverAddonPacketHandlers[addonId := addonPacketHandlers[packetId := handler]];
      return Pass;
    }

    method DeregisterServerAddonPacketHandler(addonId: byte, packetId: byte) returns (outcome: Outcome<RegistryError>)
      modifies this`serverAddonPacketHandlers
      ensures var r := DeregisterAddon(old(serverAddonPacketHandlers), addonId, packetId);
        if r.Success? then outcome == Pass && serverAddonPacketHandlers == r.value
        else outcome == Fail(r.error) && serverAddonPacketHandlers == old(serverAddonPacketHandlers)
    {
      if addonId !in serverAddonPacketHandlers {
        return Fail(NotRegistered);
      }
      var addonPacketHandlers := serverAddonPacketHandlers[addonId];
      if packetId !in addonPacketHandlers {
        return Fail(NotRegistered);
      }
      serverAddonPacketHandlers := serverAddonPacketHandlers[addonId := addonPacketHandlers - {packetId}];
      return Pass;
    }

    // -------------------------------------------------------- dispatch

    /** The calls made for a dictionary: each collection's instances in order, any other value once. */
    static method UnpackPacketDataDict<K>(packetDataDict: PacketDict<K>) returns (calls: seq<Call<K>>)
      ensures calls == Unpack(packetDataDict)
    {
      calls := [];
      for i := 0 to |packetDataDict|
        invariant calls == Unpack(packetDataDict[..i])
      {
        var (packetId, packetData) := packetDataDict[i];
        UnpackPrefix(packetDataDict, i);
        if packetData.IsCollection? {
          ghost var base := calls;
          var instances := packetData.instances;
          for j := 0 to |instances|
            invariant calls == base + Tag(packetId, instances[..j])
          {
            TagPrefix(packetId, instances, j);
            AppendAssociative(base, Tag(packetId, instances[..j]), [Call(packetId, instances[j])]);
            calls := calls + [Call(packetId, instances[j])];
          }
          assert instances[..|instances|] == instances;
        } else {
          calls := calls + [Call(packetId, packetData)];
        }
      }
      assert packetDataDict[..|packetDataDict|] == packetDataDict;
    }

    method ExecuteServerPacketHandler(client: ClientId, packetId: nat, packetData: PacketData, fails: Fails)
      returns (event: ServerEvent)
      ensures event == ExecuteServer(serverPacketHandlers, client, Call(packetId, packetData), fails)
    {
      if packetId !in serverPacketHandlers {
        return Unhandled(Top(packetId));
      }
      var handler := serverPacketHandlers[packetId];
      var failed := fails(handler, client, packetData);
      event := Invoked(Top(packetId), handler, client, packetData, failed);
    }

    method ExecuteServerAddonPacketHandler(client: ClientId, addonId: byte, packetId: byte, packetData: PacketData,
                                           fails: Fails)
      returns (event: ServerEvent)
      ensures event == ExecuteServerAddon(serverAddonPacketHandlers, client, addonId, Call(packetId, packetData), fails)
    {
      if addonId !in serverAddonPacketHandlers {
        return Unhandled(AddonKey(addonId, packetId));
      }
      var addonPacketHandlers := serverAddonPacketHandlers[addonId];
      if packetId !in addonPacketHandlers {
        return Unhandled(AddonKey(addonId, packetId));
      }
      var handler := addonPacketHandlers[packetId];
      var failed := fails(handler, client, packetData);
      event := Invoked(AddonKey(addonId, packetId), handler, client, packetData, failed);
    }

    /** The callback HandleServerPacket hands UnpackPacketDataDict for top-level calls. */
    method ExecuteServerCalls(client: ClientId, calls: seq<Call<nat>>, fails: Fails) returns (events: seq<ServerEvent>)
      ensures events == ServerEvents(serverPacketHandlers, client, calls, fails)
    {
      events := [];
      for i := 0 to |calls|
        invariant |events| == i
        invariant forall j :: 0 <= j < i ==> events[j] == ExecuteServer(serverPacketHandlers, client, calls[j], fails)
      {
        var event := ExecuteServerPacketHandler(client, calls[i].packetId, calls[i].data, fails);
        events := events + [event];
      }
    }

    /** The callback HandleServerPacket hands UnpackPacketDataDict for one addon's calls. */
    method ExecuteServerAddonCalls(client: ClientId, addonId: byte, calls: seq<Call<byte>>, fails: Fails)
      returns (events: seq<ServerEvent>)
      ensures events == ServerAddonEvents(serverAddonPacketHandlers, client, addonId, calls, fails)
    {
      events := [];
      for i := 0 to |calls|
        invariant |events| == i
        invariant forall j :: 0 <= j < i ==>
                    events[j] == ExecuteServerAddon(serverAddonPacketHandlers, client, addonId, calls[j], fails)
      {
        var event := ExecuteServerAddonPacketHandler(client, addonId, calls[i].packetId, calls[i].data, fails);
        events := events + [event];
      }
    }

    /** The loop of HandleServerPacket over the addons' dictionaries. */
    method ExecuteServerAddonData(client: ClientId, addonData: seq<(byte, PacketDict<byte>)>, fails: Fails)
      returns (events: seq<ServerEvent>)
      ensures events == ServerAddonsEvents(serverAddonPacketHandlers, client, addonData, fails)
    {
      events := [];
      for a := 0 to |addonData|
        invariant events == ServerAddonsEvents(serverAddonPacketHandlers, client, addonData[..a], fails)
      {
        var (addonId, packetDataDict) := addonData[a];
        var addonCalls := UnpackPacketDataDict(packetDataDict);
        var more := ExecuteServerAddonCalls(client, addonId, addonCalls, fails);
        ServerAddonsConcat(serverAddonPacketHandlers, client, addonData[..a], [addonData[a]], fails);
        assert addonData[..a + 1] == addonData[..a] + [addonData[a]];
        events := events + more;
      }
      assert addonData[..|addonData|] == addonData;
    }

    /** Runs the server's handlers for a packet from the given client, in trace order. */
    method HandleServerPacket(client: ClientId, packet: UpdatePacket, fails: Fails) returns (trace: seq<ServerEvent>)
      ensures trace == ServerTrace(serverPacketHandlers, serverAddonPacketHandlers, client, packet, fails)
    {
      var calls := UnpackPacketDataDict(packet.packetData);
      var top := ExecuteServerCalls(client, calls, fails);
      var rest := ExecuteServerAddonData(client, packet.addonData, fails);
      trace := top + rest;
    }

    /** Queues a top-level handler's work item, which looks the handler up again when it runs. */
    method ExecuteClientPacketHandler(packetId: nat, packetData: PacketData, queue: MainThreadQueue)
      returns (step: ClientStep)
      modifies queue
      ensures step == ExecuteClient(clientPacketHandlers, Call(packetId, packetData))
      ensures queue.pending == old(queue.pending) + Queued([step])
    {
      if packetId !in clientPacketHandlers {
        return Skipped(Top(packetId));
      }
      var item := RunRegistered(packetId, packetData);
      queue.RunActionOnMainThread(item);
      step := Enqueued(item);
    }

    /** Queues an addon handler's work item, holding the handler found now. */
    method ExecuteClientAddonPacketHandler(addonId: byte, packetId: byte, packetData: PacketData, queue: MainThreadQueue)
      returns (step: ClientStep)
      modifies queue
      ensures step == ExecuteClientAddon(clientAddonPacketHandlers, addonId, Call(packetId, packetData))
      ensures queue.pending == old(queue.pending) + Queued([step])
    {
      if addonId !in clientAddonPacketHandlers {
        return Skipped(AddonKey(addonId, packetId));
      }
      var addonPacketHandlers := clientAddonPacketHandlers[addonId];
      if packetId !in addonPacketHandlers {
        return Skipped(AddonKey(addonId, packetId));
      }
      var handler := addonPacketHandlers[packetId];
      var item := RunAddon(addonId, packetId, handler, packetData);
      queue.RunActionOnMainThread(item);
      step := Enqueued(item);
    }

    /** The callback HandleClientPacket hands UnpackPacketDataDict for top-level calls. */
    method ExecuteClientCalls(calls: seq<Call<nat>>, queue: MainThreadQueue) returns (steps: seq<ClientStep>)
      modifies queue
      ensures steps == ClientSteps(clientPacketHandlers, calls)
      ensures queue.pending == old(queue.pending) + Queued(steps)
    {
      steps := [];
      for i := 0 to |calls|
        invariant |steps| == i
        invariant forall j :: 0 <= j < i ==> steps[j] == ExecuteClient(clientPacketHandlers, calls[j])
        invariant queue.pending == old(queue.pending) + Queued(steps)
      {
        var step := ExecuteClientPacketHandler(calls[i].packetId, calls[i].data, queue);
        QueuedConcat(steps, [step]);
        steps := steps + [step];
      }
    }

    /** The callback HandleClientPacket hands UnpackPacketDataDict for one addon's calls. */
    method ExecuteClientAddonCalls(addonId: byte, calls: seq<Call<byte>>, queue: MainThreadQueue)
      returns (steps: seq<ClientStep>)
      modifies queue
      ensures steps == ClientAddonSteps(clientAddonPacketHandlers, addonId, calls)
      ensures queue.pending == old(queue.pending) + Queued(steps)
    {
      steps := [];
      for i := 0 to |calls|
        invariant |steps| == i
        invariant forall j :: 0 <= j < i ==> steps[j] == ExecuteClientAddon(clientAddonPacketHandlers, addonId, calls[j])
        invariant queue.pending == old(queue.pending) + Queued(steps)
      {
        var step := ExecuteClientAddonPacketHandler(addonId, calls[i].packetId, calls[i].data, queue);
        QueuedConcat(steps, [step]);
        steps := steps + [step];
      }
    }

    /** The loop of HandleClientPacket over the addons' dictionaries. */
    method ExecuteClientAddonData(addonData: seq<(byte, PacketDict<byte>)>, queue: MainThreadQueue)
      returns (steps: seq<ClientStep>)
      modifies queue
      ensures steps == ClientAddonsSteps(clientAddonPacketHandlers, addonData)
      ensures queue.pending == old(queue.pending) + Queued(steps)
    {
      steps := [];
      for a := 0 to |addonData|
        invariant steps == ClientAddonsSteps(clientAddonPacketHandlers, addonData[..a])
        invariant queue.pending == old(queue.pending) + Queued(steps)
      {
        var (addonId, packetDataDict) := addonData[a];
        var addonCalls := UnpackPacketDataDict(packetDataDict);
        var more := ExecuteClientAddonCalls(addonId, addonCalls, queue);
        QueuedConcat(steps, more);
        AppendAssociative(old(queue.pending), Queued(steps), Queued(more));
        ClientAddonsConcat(clientAddonPacketHandlers, addonData[..a], [addonData[a]]);
        assert addonData[..a + 1] == addonData[..a] + [addonData[a]];
        steps := steps + more;
      }
      assert addonData[..|addonData|] == addonData;
    }

    /** Appends the client's work items for a packet to the main-thread queue, in trace order. */
    method HandleClientPacket(packet: UpdatePacket, queue: MainThreadQueue) returns (steps: seq<ClientStep>)
      modifies queue
      ensures steps == ClientTrace(clientPacketHandlers, clientAddonPacketHandlers, packet)
      ensures queue.pending == old(queue.pending) + Queued(steps)
    {
      var calls := UnpackPacketDataDict(packet.packetData);
      ghost var start := queue.pending;
      var top := ExecuteClientCalls(calls, queue);
      var rest := ExecuteClientAddonData(packet.addonData, queue);
      QueuedConcat(top, rest);
      AppendAssociative(start, Queued(top), Queued(rest));
      steps := top + rest;
    }
  }
}
