/** What dispatch promises: collection expansion, ordering, and isolation of missing and failing handlers. */
module DispatchProperties {
  import opened Common
  import opened Registry
  import opened Dispatch

  // ------------------------------------------------------- unpacking

  lemma {:induction false} UnpackConcat<K>(a: PacketDict<K>, b: PacketDict<K>)
    ensures Unpack(a + b) == Unpack(a) + Unpack(b)
  {
    if a != [] {
      assert (a + b)[0] == a[0] && (a + b)[1..] == a[1..] + b;
      UnpackConcat(a[1..], b);
    } else {
      assert a + b == b;
    }
  }

  /** Unpacking one more entry of a dictionary appends that entry's calls. */
  lemma UnpackPrefix<K>(d: PacketDict<K>, i: nat)
    requires i < |d|
    ensures Unpack(d[..i + 1]) == Unpack(d[..i]) + Tag(d[i].0, Instances(d[i].1))
  {
    assert d[..i + 1] == d[..i] + [d[i]];
    UnpackConcat(d[..i], [d[i]]);
    assert Unpack([d[i]]) == Tag(d[i].0, Instances(d[i].1)) + Unpack([]);
  }

  lemma TagPrefix<K>(id: K, xs: seq<PacketData>, j: nat)
    requires j < |xs|
    ensures Tag(id, xs[..j + 1]) == Tag(id, xs[..j]) + [Call(id, xs[j])]
  {
  }

  lemma {:induction false} SelectConcat<K>(a: seq<Call<K>>, b: seq<Call<K>>, id: K)
    ensures Select(a + b, id) == Select(a, id) + Select(b, id)
  {
    if a != [] {
      assert (a + b)[0] == a[0] && (a + b)[1..] == a[1..] + b;
      SelectConcat(a[1..], b, id);
    } else {
      assert a + b == b;
    }
  }

  /** All calls for one value carry that value's key. */
  lemma {:induction false} SelectTag<K>(key: K, xs: seq<PacketData>, id: K)
    ensures Select(Tag(key, xs), id) == if key == id then xs else []
  {
    if xs != [] {
      assert Tag(key, xs)[1..] == Tag(key, xs[1..]);
      SelectTag(key, xs[1..], id);
      assert xs == [xs[0]] + xs[1..];
    }
  }

  /** A key the dictionary does not hold gets no call. */
  lemma {:induction false} UnpackAbsentKey<K>(d: PacketDict<K>, id: K)
    requires forall j :: 0 <= j < |d| ==> d[j].0 != id
    ensures Select(Unpack(d), id) == []
  {
    if d != [] {
      SelectConcat(Tag(d[0].0, Instances(d[0].1)), Unpack(d[1..]), id);
      SelectTag(d[0].0, Instances(d[0].1), id);
      UnpackAbsentKey(d[1..], id);
    }
  }

  /**
   * UnpackPacketDataDict makes, for each key, one call per instance of a
   * collection value, in the collection's order, and one call for any other
   * value.
   */
  lemma {:induction false} UnpackForKey<K>(d: PacketDict<K>, i: nat)
    requires DistinctKeys(d) && i < |d|
    ensures d[i].1.IsCollection? ==> Select(Unpack(d), d[i].0) == d[i].1.instances
    ensures d[i].1.Data? ==> Select(Unpack(d), d[i].0) == [d[i].1]
  {
    var id := d[i].0;
    SelectConcat(Tag(d[0].0, Instances(d[0].1)), Unpack(d[1..]), id);
    SelectTag(d[0].0, Instances(d[0].1), id);
    if i == 0 {
      UnpackAbsentKey(d[1..], id);
    } else {
      UnpackForKey(d[1..], i - 1);
    }
  }

  // ---------------------------------------------------------- server

  lemma {:induction false} InvokedDataConcat(a: seq<ServerEvent>, b: seq<ServerEvent>, key: Key)
    ensures InvokedData(a + b, key) == InvokedData(a, key) + InvokedData(b, key)
  {
    if a != [] {
      assert (a + b)[0] == a[0] && (a + b)[1..] == a[1..] + b;
      InvokedDataConcat(a[1..], b, key);
    } else {
      assert a + b == b;
    }
  }

  /** A registered top-level id's handler is invoked with exactly its calls' payloads, in order. */
  lemma {:induction false} ServerEventsData(handlers: map<nat, Handler>, client: ClientId, calls: seq<Call<nat>>,
                                           fails: Fails, id: nat)
    requires id in handlers
    ensures InvokedData(ServerEvents(handlers, client, calls, fails), Top(id)) == Select(calls, id)
  {
    if calls != [] {
      assert ServerEvents(handlers, client, calls, fails)[1..] == ServerEvents(handlers, client, calls[1..], fails);
      ServerEventsData(handlers, client, calls[1..], fails, id);
    }
  }

  /** Addon events carry addon keys only. */
  lemma {:induction false} ServerAddonsKeys(tables: AddonTable, client: ClientId, addons: seq<(byte, PacketDict<byte>)>,
                                           fails: Fails)
    ensures forall j :: 0 <= j < |ServerAddonsEvents(tables, client, addons, fails)| ==>
              ServerAddonsEvents(tables, client, addons, fails)[j].key.AddonKey?
  {
    if addons != [] {
      ServerAddonsKeys(tables, client, addons[1..], fails);
    }
  }

  lemma {:induction false} InvokedDataNone(events: seq<ServerEvent>, key: Key)
    requires forall j :: 0 <= j < |events| ==> events[j].key != key
    ensures InvokedData(events, key) == []
  {
    if events != [] {
      InvokedDataNone(events[1..], key);
    }
  }

  /**
   * Top-level events come first, one per top-level call, and every later event
   * is an addon event.
   */
  lemma ServerTopFirst(handlers: map<nat, Handler>, tables: AddonTable, client: ClientId, packet: UpdatePacket,
                       fails: Fails)
    ensures var n := |Unpack(packet.packetData)|;
      var trace := ServerTrace(handlers, tables, client, packet, fails);
      n <= |trace|
      && (forall j :: 0 <= j < n ==> trace[j] == ServerEvents(handlers, client, Unpack(packet.packetData), fails)[j])
      && (forall j :: n <= j < |trace| ==> trace[j].key.AddonKey?)
  {
    ServerAddonsKeys(tables, client, packet.addonData, fails);
  }

  /**
   * A top-level collection sent to the server reaches its handler once per
   * instance, in the collection's order, and nothing else reaches it.
   */
  lemma ServerCollectionOrder(handlers: map<nat, Handler>, tables: AddonTable, client: ClientId,
                              packet: UpdatePacket, fails: Fails, i: nat)
    requires DistinctKeys(packet.packetData) && i < |packet.packetData|
    requires packet.packetData[i].0 in handlers
    ensures InvokedData(ServerTrace(handlers, tables, client, packet, fails), Top(packet.packetData[i].0))
      == Instances(packet.packetData[i].1)
  {
    var id := packet.packetData[i].0;
    var top := ServerEvents(handlers, client, Unpack(packet.packetData), fails);
    var rest := ServerAddonsEvents(tables, client, packet.addonData, fails);
    InvokedDataConcat(top, rest, Top(id));
    ServerEventsData(handlers, client, Unpack(packet.packetData), fails, id);
    UnpackForKey(packet.packetData, i);
    ServerAddonsKeys(tables, client, packet.addonData, fails);
    InvokedDataNone(rest, Top(id));
  }

  /**
   * A missing handler only turns its own calls into warnings: every other
   * event is the one the full registry would give.
   */
  lemma MissingHandlerIsolated(handlers: map<nat, Handler>, client: ClientId, calls: seq<Call<nat>>, fails: Fails, id: nat)
    ensures var without := ServerEvents(handlers - {id}, client, calls, fails);
      forall j :: 0 <= j < |calls| ==>
        without[j] == if calls[j].packetId == id then Unhandled(Top(id))
                      else ServerEvents(handlers, client, calls, fails)[j]
  {
  }

  /** Likewise for an addon whose table is missing: its calls warn and the other addons' events stay. */
  lemma {:induction false} MissingAddonIsolated(tables: AddonTable, client: ClientId, addons: seq<(byte, PacketDict<byte>)>,
                                               fails: Fails, addonId: byte)
    ensures var without := ServerAddonsEvents(tables - {addonId}, client, addons, fails);
      var with := ServerAddonsEvents(tables, client, addons, fails);
      |without| == |with|
      && forall j :: 0 <= j < |with| ==>
        without[j] == if with[j].key.AddonKey? && with[j].key.addonId == addonId then Unhandled(with[j].key) else with[j]
  {
    ServerAddonsKeys(tables, client, addons, fails);
    ServerAddonsKeys(tables - {addonId}, client, addons, fails);
    if addons != [] {
      MissingAddonIsolated(tables, client, addons[1..], fails, addonId);
    }
  }

  lemma {:induction false} ServerAddonsConcat(tables: AddonTable, client: ClientId, a: seq<(byte, PacketDict<byte>)>,
                                             b: seq<(byte, PacketDict<byte>)>, fails: Fails)
    ensures ServerAddonsEvents(tables, client, a + b, fails)
         == ServerAddonsEvents(tables, client, a, fails) + ServerAddonsEvents(tables, client, b, fails)
  {
    if a != [] {
      assert (a + b)[0] == a[0] && (a + b)[1..] == a[1..] + b;
      ServerAddonsConcat(tables, client, a[1..], b, fails);
    } else {
      assert a + b == b;
    }
  }

  /** The failure flag of each invocation is whether that handler threw on that payload. */
  lemma {:induction false} ServerFailureFlags(handlers: map<nat, Handler>, tables: AddonTable, client: ClientId,
                                             packet: UpdatePacket, fails: Fails)
    ensures forall e :: e in ServerTrace(handlers, tables, client, packet, fails) && e.Invoked? ==>
              e.failed == fails(e.handler, e.client, e.data)
  {
    AddonFailureFlags(tables, client, packet.addonData, fails);
  }

  lemma {:induction false} AddonFailureFlags(tables: AddonTable, client: ClientId, addons: seq<(byte, PacketDict<byte>)>,
                                            fails: Fails)
    ensures forall e :: e in ServerAddonsEvents(tables, client, addons, fails) && e.Invoked? ==>
              e.failed == fails(e.handler, e.client, e.data)
  {
    if addons != [] {
      AddonFailureFlags(tables, client, addons[1..], fails);
    }
  }

  /**
   * A handler exception never aborts the pass: whichever handlers throw, the
   * same handlers are invoked with the same payloads in the same order.
   */
  lemma {:induction false} FailuresDoNotAbort(handlers: map<nat, Handler>, tables: AddonTable, client: ClientId,
                                             packet: UpdatePacket, fails: Fails, others: Fails)
    ensures EraseAll(ServerTrace(handlers, tables, client, packet, fails))
         == EraseAll(ServerTrace(handlers, tables, client, packet, others))
  {
    AddonsEraseFailures(tables, client, packet.addonData, fails, others);
  }

  lemma {:induction false} AddonsEraseFailures(tables: AddonTable, client: ClientId, addons: seq<(byte, PacketDict<byte>)>,
                                              fails: Fails, others: Fails)
    ensures EraseAll(ServerAddonsEvents(tables, client, addons, fails))
         == EraseAll(ServerAddonsEvents(tables, client, addons, others))
  {
    if addons != [] {
      AddonsEraseFailures(tables, client, addons[1..], fails, others);
    }
  }

  // ---------------------------------------------------------- client

  lemma {:induction false} QueuedConcat(a: seq<ClientStep>, b: seq<ClientStep>)
    ensures Queued(a + b) == Queued(a) + Queued(b)
  {
    if a != [] {
      assert (a + b)[0] == a[0] && (a + b)[1..] == a[1..] + b;
      QueuedConcat(a[1..], b);
    } else {
      assert a + b == b;
    }
  }

  lemma {:induction false} QueuedDataConcat(a: seq<WorkItem>, b: seq<WorkItem>, id: nat)
    ensures QueuedData(a + b, id) == QueuedData(a, id) + QueuedData(b, id)
  {
    if a != [] {
      assert (a + b)[0] == a[0] && (a + b)[1..] == a[1..] + b;
      QueuedDataConcat(a[1..], b, id);
    } else {
      assert a + b == b;
    }
  }

  lemma {:induction false} ClientAddonsConcat(tables: AddonTable, a: seq<(byte, PacketDict<byte>)>,
                                             b: seq<(byte, PacketDict<byte>)>)
    ensures ClientAddonsSteps(tables, a + b) == ClientAddonsSteps(tables, a) + ClientAddonsSteps(tables, b)
  {
    if a != [] {
      assert (a + b)[0] == a[0] && (a + b)[1..] == a[1..] + b;
      ClientAddonsConcat(tables, a[1..], b);
    } else {
      assert a + b == b;
    }
  }

  /** The queue gets one item per call of a registered top-level id, with exactly its payloads, in order ... */
  lemma {:induction false} ClientStepsData(handlers: map<nat, Handler>, calls: seq<Call<nat>>, id: nat)
    ensures id in handlers ==> QueuedData(Queued(ClientSteps(handlers, calls)), id) == Select(calls, id)
    ensures id !in handlers ==> QueuedData(Queued(ClientSteps(handlers, calls)), id) == []
  {
    if calls != [] {
      var steps := ClientSteps(handlers, calls);
      assert steps == [steps[0]] + ClientSteps(handlers, calls[1..]);
      QueuedConcat([steps[0]], ClientSteps(handlers, calls[1..]));
      QueuedDataConcat(Queued([steps[0]]), Queued(ClientSteps(handlers, calls[1..])), id);
      ClientStepsData(handlers, calls[1..], id);
    }
  }

  /** ... and the addons' items are all addon items. */
  lemma {:induction false} ClientAddonsItems(tables: AddonTable, addons: seq<(byte, PacketDict<byte>)>)
    ensures forall item :: item in Queued(ClientAddonsSteps(tables, addons)) ==> item.RunAddon?
  {
    if addons != [] {
      var steps := ClientAddonSteps(tables, addons[0].0, Unpack(addons[0].1));
      QueuedConcat(steps, ClientAddonsSteps(tables, addons[1..]));
      OneAddonItems(steps);
      ClientAddonsItems(tables, addons[1..]);
    }
  }

  lemma {:induction false} OneAddonItems(steps: seq<ClientStep>)
    requires forall j :: 0 <= j < |steps| && steps[j].Enqueued? ==> steps[j].item.RunAddon?
    ensures forall item :: item in Queued(steps) ==> item.RunAddon?
  {
    if steps != [] {
      OneAddonItems(steps[1..]);
    }
  }

  lemma {:induction false} QueuedDataNone(items: seq<WorkItem>, id: nat)
    requires forall item :: item in items ==> item.RunAddon?
    ensures QueuedData(items, id) == []
  {
    if items != [] {
      assert items[0] in items;
      QueuedDataNone(items[1..], id);
    }
  }

  /** Client dispatch queues the top-level items first, then the addon items, in call order. */
  lemma ClientTopFirst(handlers: map<nat, Handler>, tables: AddonTable, packet: UpdatePacket)
    ensures Queued(ClientTrace(handlers, tables, packet))
         == Queued(ClientSteps(handlers, Unpack(packet.packetData))) + Queued(ClientAddonsSteps(tables, packet.addonData))
    ensures forall item :: item in Queued(ClientAddonsSteps(tables, packet.addonData)) ==> item.RunAddon?
  {
    QueuedConcat(ClientSteps(handlers, Unpack(packet.packetData)), ClientAddonsSteps(tables, packet.addonData));
    ClientAddonsItems(tables, packet.addonData);
  }

  /**
   * On the client, a top-level collection is queued once per instance, in the
   * collection's order, and an unregistered id queues nothing.
   */
  lemma ClientQueueOrder(handlers: map<nat, Handler>, tables: AddonTable, packet: UpdatePacket, i: nat)
    requires DistinctKeys(packet.packetData) && i < |packet.packetData|
    ensures var id := packet.packetData[i].0;
      QueuedData(Queued(ClientTrace(handlers, tables, packet)), id)
        == if id in handlers then Instances(packet.packetData[i].1) else []
  {
    var id := packet.packetData[i].0;
    var top := Queued(ClientSteps(handlers, Unpack(packet.packetData)));
    var rest := Queued(ClientAddonsSteps(tables, packet.addonData));
    ClientTopFirst(handlers, tables, packet);
    QueuedDataConcat(top, rest, id);
    QueuedDataNone(rest, id);
    ClientStepsData(handlers, Unpack(packet.packetData), id);
    UnpackForKey(packet.packetData, i);
  }
}
