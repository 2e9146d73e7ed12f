# HKMP packet manager: a verified model

HKMP (Hollow Knight Multiplayer) sends game state between clients and a
server as length-delimited packets. Its `PacketManager` does three jobs:

- **Framer.** `HandleReceivedData` and `ByteArrayToPackets` turn each
  received chunk of bytes into packet bodies. A chunk is the bytes left over
  from the previous call, followed by the new bytes. Each frame is a 2-byte
  unsigned length prefix, read little-endian, followed by that many body
  bytes. An incomplete frame is passed back as the new leftover.
- **Handler registries.** There are four: client id to handler, server id
  to handler, and for the client and the server each, addon id to
  (addon packet id to handler). The plain registries log and ignore a
  duplicate registration or a missing deregistration. The addon registries
  throw `InvalidOperationException` in those cases, and they create an
  addon's table the first time a handler is registered into it.
- **Dispatcher.** It walks the payload dictionaries of a decoded update
  packet. A collection payload is expanded into one call per instance. Each
  call's handler is looked up. An unregistered id gets a warning and the rest
  still dispatch, and handler exceptions are caught. The server runs its
  handlers inline. The client queues them on the main thread.

Modules:

- `Common` (common.dfy): bytes, `Option`, `Outcome`, `Result`.
- `Framing` (framing.dfy): the specification functions `ParseFrom`, `Parse`
  and `Receive`, and the imperative `ByteArrayToPackets` and
  `HandleReceivedData` over arrays, proved against them.
- `FramingProperties` (framing_properties.dfy): how a pass decomposes the
  buffer, how it stops, what leftovers look like, and how a split chunk
  behaves.
- `FramingCorrection` (framing_correction.dfy): the framer finding below.
- `Registry` (registry.dfy): the registry operations as functions on maps.
- `Dispatch` (dispatch.dfy): payloads, unpacking, and dispatch as traces.
  The server's trace is its handler invocations. The client's trace is the
  work items it appends to the main-thread queue.
- `DispatchProperties` (dispatch_properties.dfy): the ordering, expansion
  and isolation properties.
- `Manager` (manager.dfy): the `PacketManager` class, whose four registries
  are fields updated in place, and a `MainThreadQueue` class.

All file paths below are relative to the repository root. All line numbers
refer to `HKMP/Networking/Packet/PacketManager.cs`.

## Model

| member | source | states |
|---|---|---|
| Framing.ParseFrom | HKMP/Networking/Packet/PacketManager.cs:409-462 | Reference definition of one pass from a read index; its properties are the `FramingProperties` rows. |
| Framing.Parse | HKMP/Networking/Packet/PacketManager.cs:409-462 | Reference definition of one pass from index 0. |
| Dispatch.Unpack | HKMP/Networking/Packet/PacketManager.cs:366-383 | Reference definition of the calls of one dictionary; its properties are the `UnpackForKey` and `UnpackConcat` rows. |
| Dispatch.ServerTrace | HKMP/Networking/Packet/PacketManager.cs:143-165 | Reference definition of the server's trace; its properties are the `ServerTopFirst`, `ServerCollectionOrder` and `FailuresDoNotAbort` rows. |
| Dispatch.ClientTrace | HKMP/Networking/Packet/PacketManager.cs:68-82 | Reference definition of the client's steps; its properties are the `ClientTopFirst` and `ClientQueueOrder` rows. |
| Framing.LengthPrefix | HKMP/Networking/Packet/PacketManager.cs:422 | The two prefix bytes written for a length 0..65535 read back, little-endian, as that length. |
| Framing.ReadLength | HKMP/Networking/Packet/PacketManager.cs:422 | An unsigned 16-bit prefix never declares more than 65535 bytes. |
| Framing.CopyRange | HKMP/Networking/Packet/PacketManager.cs:447-450 | Returns a fresh array holding exactly the `count` bytes of the data from `from` on. |
| Framing.ByteArrayToPackets | HKMP/Networking/Packet/PacketManager.cs:409-462 | The read-index loop emits exactly the packets of `Parse` over the array. It writes the `ref` leftover exactly when `Parse` ends on an incomplete frame, as a copy of the unread bytes from that frame's prefix on, in a fresh array. Otherwise the leftover is left as it was. |
| Framing.HandleReceivedData | HKMP/Networking/Packet/PacketManager.cs:385-407 | Packets and new leftover are those of `Receive`. A non-null, non-empty leftover is copied in front of the chunk and reset to null before the pass. A leftover the call writes is a fresh array. |
| Framing.Receive | HKMP/Networking/Packet/PacketManager.cs:385-407 | The call gives the packets of one pass over pending bytes plus chunk. Afterwards the bytes pending are those the pass writes, or none. |
| FramingProperties.PrefixRoundTrip | HKMP/Networking/Packet/PacketManager.cs:422 | Reading a prefix and writing the length back gives the same two bytes, so prefix encoding is a bijection. |
| FramingProperties.ParseFromSuffix | HKMP/Networking/Packet/PacketManager.cs:413-459 | Parsing from read index i is the same as parsing the unread suffix. |
| FramingProperties.ParseStep | HKMP/Networking/Packet/PacketManager.cs:446-458 | Given a complete first frame, the pass emits its body and then continues after it. |
| FramingProperties.ParseStops | HKMP/Networking/Packet/PacketManager.cs:419-443 | A pass ends in one of three ways. With under 2 unread bytes, or on a zero prefix, nothing is written. On an incomplete frame, the unread bytes from its prefix on are written as the leftover: at least 2 bytes and fewer than the declared length plus 2. |
| FramingProperties.ParseDecomposes | HKMP/Networking/Packet/PacketManager.cs:413-461 | Every emitted body is 1..65535 bytes long. The buffer is exactly prefix(len p) ++ p over the emitted packets, in stream order, followed by the unread residual. Nothing is split, merged or reordered, and a zero prefix never yields a packet. |
| FramingProperties.ParseFrameHead | HKMP/Networking/Packet/PacketManager.cs:446-458 | A pass over one valid frame followed by more bytes emits that body first, then what the rest yields. |
| FramingProperties.ParseFramed | HKMP/Networking/Packet/PacketManager.cs:413-459 | A pass over framed bodies followed by t emits those bodies, then what t alone yields. |
| FramingProperties.FramedRoundTrip | HKMP/Networking/Packet/PacketManager.cs:409-462 | Parsing the framing of valid bodies gives back exactly those bodies, with no leftover and no residual. |
| FramingProperties.LeftoverIsPartialFrame | HKMP/Networking/Packet/PacketManager.cs:433-443 | From any leftover, the bytes a call leaves pending are empty or the start of one incomplete frame, and a leftover that is written holds all unread bytes. |
| FramingProperties.ParseAppend | HKMP/Networking/Packet/PacketManager.cs:413-459 | Appending bytes does not change the packets of complete frames already there. The pass just continues from the residual. |
| FramingProperties.ChunkSplit | HKMP/Networking/Packet/PacketManager.cs:389-406 | Feeding s1 and then s2 yields the same packets, and leaves the same bytes pending, as feeding s1 ++ s2. This requires the pass over s1 to end with nothing unread or with a written leftover. |
| FramingCorrection.SplitPrefixIsLost | HKMP/Networking/Packet/PacketManager.cs:419-429 | As written: a frame fed whole yields its body. Cut after its first byte, the first call drops that byte and keeps nothing. The second call reads a 256-byte prefix: whatever bytes follow, its first packet, if any, is 256 bytes long rather than the 8-byte body. |
| FramingCorrection.ParseFixed | HKMP/Networking/Packet/PacketManager.cs:419-429 | The corrected pass emits the same packets and stops at the same place. A lone unread byte is written as the leftover instead of being dropped. |
| FramingCorrection.ReceiveFixed | HKMP/Networking/Packet/PacketManager.cs:385-407 | A call with the corrected pass emits the packets of one pass over pending plus chunk. |
| FramingCorrection.ZeroStopPersists | HKMP/Networking/Packet/PacketManager.cs:426-429 | Once a pass stops on a zero prefix, appending bytes never restarts it. |
| FramingCorrection.FixedKeepsResidual | HKMP/Networking/Packet/PacketManager.cs:421-443 | With the correction, unless the pass stops on a zero prefix, every unread byte stays pending. |
| FramingCorrection.FixedFeedMatchesWhole | HKMP/Networking/Packet/PacketManager.cs:385-462 | With the correction, feeding a stream in one or more chunks emits what one pass over the whole stream emits, and leaves its residual pending, provided that pass does not stop on a zero prefix. |
| FramingCorrection.FixedChunkInvariance | HKMP/Networking/Packet/PacketManager.cs:385-462 | With the correction, a stream of valid frames cut into any chunks yields exactly its bodies, in order, with nothing left pending. |
| Registry.Register | HKMP/Networking/Packet/PacketManager.cs:105-115 | An id already present keeps its first handler and the map is unchanged. Otherwise exactly that id is added, with the new handler. |
| Registry.Deregister | HKMP/Networking/Packet/PacketManager.cs:127-134 | Exactly that id is removed. An absent id leaves the map unchanged. |
| Registry.AddonLookup | HKMP/Networking/Packet/PacketManager.cs:231-239 | A handler is found exactly when the addon has a table holding that packet id, and it is that entry. |
| Registry.RegisterAddon | HKMP/Networking/Packet/PacketManager.cs:252-268 | Throws `AlreadyRegistered` exactly when the pair is present. Otherwise it adds the pair, creating the addon's table, and every other pair is unchanged. |
| Registry.DeregisterAddon | HKMP/Networking/Packet/PacketManager.cs:270-282 | Throws `NotRegistered` exactly when the addon or the packet id is absent. Otherwise it removes only that pair and keeps every addon's table. |
| Registry.RegisterKeepsFirst | HKMP/Networking/Packet/PacketManager.cs:105-115 | A second registration of an id changes nothing, and the first handler stays active. |
| Registry.RegisterDeregister | HKMP/Networking/Packet/PacketManager.cs:105-134 | Deregistering a freshly registered id restores the registry. |
| Registry.RegisterDeregisterAddon | HKMP/Networking/Packet/PacketManager.cs:252-282 | Registering and then deregistering a new addon pair restores the registry, except that the addon's table (empty if new) remains. |
| Registry.RegisterAddonTwiceThrows | HKMP/Networking/Packet/PacketManager.cs:252-268 | Registering the same addon pair twice throws on the second call. |
| Dispatch.ServerEvents | HKMP/Networking/Packet/PacketManager.cs:171-186 | One event per top-level call, in order. A registered id invokes its handler with the sending client and the payload. An unregistered id gives a warning. |
| Dispatch.ServerAddonEvents | HKMP/Networking/Packet/PacketManager.cs:295-323 | One event per addon call, in order. It is an invocation exactly when the addon's table holds the id, with that handler, client and payload. |
| Dispatch.ClientSteps | HKMP/Networking/Packet/PacketManager.cs:88-103 | One step per top-level call, in order. A registered id queues a work item for its id and payload. An unregistered id gives a warning. |
| Dispatch.ClientAddonSteps | HKMP/Networking/Packet/PacketManager.cs:223-250 | One step per addon call, in order. A registered pair queues the handler found now together with the payload. |
| DispatchProperties.UnpackConcat | HKMP/Networking/Packet/PacketManager.cs:370-382 | Unpacking is done entry by entry: unpacking a + b gives the calls of a, then those of b. |
| DispatchProperties.UnpackPrefix | HKMP/Networking/Packet/PacketManager.cs:370-382 | Unpacking one more entry appends that entry's calls. |
| DispatchProperties.SelectTag | HKMP/Networking/Packet/PacketManager.cs:375-378 | All calls for one value carry that value's key. |
| DispatchProperties.UnpackAbsentKey | HKMP/Networking/Packet/PacketManager.cs:366-383 | A key the dictionary does not hold gets no call. |
| DispatchProperties.UnpackForKey | HKMP/Networking/Packet/PacketManager.cs:366-383 | With distinct keys, a collection value gives exactly one call per instance in list order, and any other value exactly one call. |
| DispatchProperties.ServerEventsData | HKMP/Networking/Packet/PacketManager.cs:171-186 | A registered id's handler is invoked with exactly that id's payloads, in call order. |
| DispatchProperties.ServerAddonsKeys | HKMP/Networking/Packet/PacketManager.cs:150-164 | Every event of the addon pass is an addon event. |
| DispatchProperties.ServerTopFirst | HKMP/Networking/Packet/PacketManager.cs:143-165 | The server dispatches every top-level call before any addon call. |
| DispatchProperties.ServerCollectionOrder | HKMP/Networking/Packet/PacketManager.cs:143-149 | A registered top-level entry reaches its handler once per instance, in the collection's order, and nothing else reaches that handler under that id. |
| DispatchProperties.MissingHandlerIsolated | HKMP/Networking/Packet/PacketManager.cs:171-175 | Without a handler for an id, only that id's calls turn into warnings. Every other event stays as it was. |
| DispatchProperties.MissingAddonIsolated | HKMP/Networking/Packet/PacketManager.cs:304-307 | Without a table for an addon, only that addon's calls turn into warnings. Every other addon's events stay as they were. |
| DispatchProperties.ServerAddonsConcat | HKMP/Networking/Packet/PacketManager.cs:150-164 | The addon pass is done addon by addon. |
| DispatchProperties.ServerFailureFlags | HKMP/Networking/Packet/PacketManager.cs:179-185 | Each invocation's failure flag is whether that handler threw on that client and payload. |
| DispatchProperties.AddonFailureFlags | HKMP/Networking/Packet/PacketManager.cs:317-322 | The same holds for the addon pass. |
| DispatchProperties.FailuresDoNotAbort | HKMP/Networking/Packet/PacketManager.cs:179-185 | Whichever handlers throw, the same handlers are invoked with the same payloads in the same order. |
| DispatchProperties.AddonsEraseFailures | HKMP/Networking/Packet/PacketManager.cs:317-322 | The same holds for the addon pass. |
| DispatchProperties.QueuedConcat | HKMP/Networking/Packet/PacketManager.cs:95 | The items queued by consecutive steps are queued in step order. |
| DispatchProperties.QueuedDataConcat | HKMP/Networking/Packet/PacketManager.cs:95 | Selecting one id's payloads commutes with concatenating queues. |
| DispatchProperties.ClientAddonsConcat | HKMP/Networking/Packet/PacketManager.cs:73-81 | The client's addon pass is done addon by addon. |
| DispatchProperties.ClientStepsData | HKMP/Networking/Packet/PacketManager.cs:88-103 | A registered id gets one queued item per call, carrying exactly that id's payloads in order. An unregistered id gets none. |
| DispatchProperties.ClientAddonsItems | HKMP/Networking/Packet/PacketManager.cs:223-250 | The addon pass queues only addon items. |
| DispatchProperties.OneAddonItems | HKMP/Networking/Packet/PacketManager.cs:242-249 | Addon steps queue only addon items. |
| DispatchProperties.QueuedDataNone | HKMP/Networking/Packet/PacketManager.cs:242-249 | Addon items carry no top-level id. |
| DispatchProperties.InvokedDataConcat | HKMP/Networking/Packet/PacketManager.cs:143-165 | Selecting one key's invocations commutes with concatenating traces. |
| DispatchProperties.InvokedDataNone | HKMP/Networking/Packet/PacketManager.cs:143-165 | A trace without a key has no invocations under it. |
| DispatchProperties.ClientTopFirst | HKMP/Networking/Packet/PacketManager.cs:68-82 | For every packet, the client queues all top-level items before the addon items, and the addon pass queues only addon items. |
| DispatchProperties.ClientQueueOrder | HKMP/Networking/Packet/PacketManager.cs:68-82 | A top-level collection is queued once per instance in list order, and an unregistered id queues nothing. |
| Manager.MainThreadQueue.RunActionOnMainThread | HKMP/Networking/Packet/PacketManager.cs:95 | The action is appended at the back of the main-thread queue. |
| Manager.PacketManager.constructor | HKMP/Networking/Packet/PacketManager.cs:54-60 | All four registries start empty. |
| Manager.PacketManager.RegisterClientPacketHandler | HKMP/Networking/Packet/PacketManager.cs:105-115 | Updates the client registry as `Register` does, and logs exactly when the id was present. |
| Manager.PacketManager.DeregisterClientPacketHandler | HKMP/Networking/Packet/PacketManager.cs:127-134 | Updates the client registry as `Deregister` does, and logs exactly when the id was absent. |
| Manager.PacketManager.RegisterServerPacketHandler | HKMP/Networking/Packet/PacketManager.cs:188-195 | Updates the server registry as `Register` does, and logs exactly when the id was present. |
| Manager.PacketManager.DeregisterServerPacketHandler | HKMP/Networking/Packet/PacketManager.cs:210-217 | Updates the server registry as `Deregister` does, and logs exactly when the id was absent. |
| Manager.PacketManager.RegisterClientAddonPacketHandler | HKMP/Networking/Packet/PacketManager.cs:252-268 | Creates the table in place and then checks for the pair. The result and new state are those of `RegisterAddon`, and a throw leaves the registry as it was. |
| Manager.PacketManager.DeregisterClientAddonPacketHandler | HKMP/Networking/Packet/PacketManager.cs:270-282 | The result and new state are those of `DeregisterAddon`, and a throw leaves the registry as it was. |
| Manager.PacketManager.ClearClientAddonPacketHandlers | HKMP/Networking/Packet/PacketManager.cs:287-289 | Empties the client addon registry and changes no other registry. |
| Manager.PacketManager.RegisterServerAddonPacketHandler | HKMP/Networking/Packet/PacketManager.cs:325-341 | The same as the client addon version, on the server addon registry. |
| Manager.PacketManager.DeregisterServerAddonPacketHandler | HKMP/Networking/Packet/PacketManager.cs:343-355 | The same as the client addon version, on the server addon registry. |
| Manager.PacketManager.UnpackPacketDataDict | HKMP/Networking/Packet/PacketManager.cs:366-383 | The nested loops make exactly the calls of `Unpack`, so `UnpackForKey` applies to them. |
| Manager.PacketManager.ExecuteServerPacketHandler | HKMP/Networking/Packet/PacketManager.cs:171-186 | Warns for an unregistered id. Otherwise it invokes the registered handler inline and records whether it threw. |
| Manager.PacketManager.ExecuteServerAddonPacketHandler | HKMP/Networking/Packet/PacketManager.cs:295-323 | Warns when the addon's table or its entry is missing. Otherwise it invokes the handler inline and records whether it threw. |
| Manager.PacketManager.ExecuteServerCalls | HKMP/Networking/Packet/PacketManager.cs:145-148 | The top-level callback loop gives `ServerEvents`. |
| Manager.PacketManager.ExecuteServerAddonCalls | HKMP/Networking/Packet/PacketManager.cs:155-163 | One addon's callback loop gives `ServerAddonEvents`. |
| Manager.PacketManager.ExecuteServerAddonData | HKMP/Networking/Packet/PacketManager.cs:151-164 | The foreach over the addons gives the addon events, addon by addon. |
| Manager.PacketManager.HandleServerPacket | HKMP/Networking/Packet/PacketManager.cs:143-165 | The invocation trace is `ServerTrace`, so the `DispatchProperties` server lemmas apply. |
| Manager.PacketManager.ExecuteClientPacketHandler | HKMP/Networking/Packet/PacketManager.cs:88-103 | Warns for an unregistered id. Otherwise it appends a work item that looks the handler up when it runs. |
| Manager.PacketManager.ExecuteClientAddonPacketHandler | HKMP/Networking/Packet/PacketManager.cs:223-250 | Warns when the addon's table or its entry is missing. Otherwise it appends a work item holding the handler found now. |
| Manager.PacketManager.ExecuteClientCalls | HKMP/Networking/Packet/PacketManager.cs:70 | The top-level callback loop gives `ClientSteps`, and the queue grows by their items in order. |
| Manager.PacketManager.ExecuteClientAddonCalls | HKMP/Networking/Packet/PacketManager.cs:77-80 | One addon's callback loop gives `ClientAddonSteps`, and the queue grows by their items in order. |
| Manager.PacketManager.ExecuteClientAddonData | HKMP/Networking/Packet/PacketManager.cs:73-81 | The foreach over the addons gives the addon steps, and the queue grows by their items. |
| Manager.PacketManager.HandleClientPacket | HKMP/Networking/Packet/PacketManager.cs:68-82 | The steps are `ClientTrace`, and exactly their work items are appended to the main-thread queue, in order. `ClientQueueOrder` then applies. |

## Left out

- Threads. `ThreadUtil.RunActionOnMainThread` is an append to a FIFO queue
  (`MainThreadQueue`). Running the queued items on the main thread is not
  modelled.
- Handlers running later. A queued top-level client item looks its handler up
  when it runs (line 97). That includes the `KeyNotFoundException` it would
  catch if the id were deregistered in the meantime. The model records only
  the id and payload.
- Handlers. They are opaque tokens, and whether one throws is the parameter
  `fails`. Effects a handler could have on the registries, while it runs
  inline on the server, are not modelled.
- Logging. `Logger` calls are a returned `logged` flag (plain registries) or a
  warning entry in the trace (dispatch). Message texts and stack traces are
  left out.
- The delegate wrappers and `(T)iPacket` casts (lines 117-125 and 197-208) are
  left out. They only adapt handler types.
- Update packet encoding and decoding, `Packet`, and the internals of
  `RawPacketDataCollection` are not part of this model. A packet is its body
  bytes. A decoded update packet is two sequences of (id, payload) pairs. The
  type does not force their keys to be distinct; the lemmas that depend on
  it (`UnpackForKey`, `ServerCollectionOrder`, `ClientQueueOrder`) require
  `DistinctKeys` of the top-level dictionary.
- Dictionary order. C# `Dictionary` enumeration order is unspecified, so each
  dictionary is a sequence whose order stands for whatever order enumeration
  produces. Only the order within a collection is a guarantee of the source.
- The enums `ClientPacketId` and `ServerPacketId` are `nat`.
- Addon tables are updated in place in the source and modelled as map values.
  No other object holds a reference to an inner table, so nothing is lost.
- Framing.ReadLength: `BitConverter.ToUInt16` reads in host byte order. The
  model fixes it to little-endian, which is the byte order of every platform
  the game runs on.
- The comment at line 417 says the length prefix is 4 bytes. The code reads 2,
  and the model follows the code.
- `UnpackPacketDataDict` takes a callback (`Action<T, IPacketData>`). In the
  model it returns the list of calls, and the per-call handlers run over that
  list (`ExecuteServerCalls`, `ExecuteClientCalls` and the addon versions).
  The calls and their order are the same under the model's assumption that
  no handler changes the registries during a pass (see the handlers line
  above: a server handler runs inline and could call the public
  Register/Deregister methods, which the model does not capture).

## Findings

| source | as written | input that shows it | evidently intended | confidence | as-written member | corrected member |
|---|---|---|---|---|---|---|
| HKMP/Networking/Packet/PacketManager.cs:419-429 | A pass that ends with exactly one unread byte writes no leftover, so that byte is dropped. When a read boundary falls between the two bytes of a length prefix, the frame is lost and the stream after it is misread. | The 10-byte frame `[8, 0, 1, 2, 3, 4, 5, 6, 7, 8]` received as `[8]` and then `[0, 1, 2, 3, 4, 5, 6, 7, 8]`. The first call emits nothing and keeps nothing. The second reads `0, 1` as a 256-byte prefix and keeps everything as a leftover. Whatever follows, the second call's first packet is 256 bytes long, so the 8-byte body is not emitted there, although the same bytes in one chunk yield it. | A lone trailing byte is kept as the leftover, like any other incomplete frame. Packets then do not depend on how the stream is cut into chunks. | not executed | FramingCorrection.SplitPrefixIsLost | FramingCorrection.FixedChunkInvariance |

More on this finding:

- The corrected pass is `FramingCorrection.ParseFixed`, and its call
  `FramingCorrection.ReceiveFixed`.
- `ChunkSplit` states when the code as written is still independent of
  chunking. The pass over the first chunk must end with nothing unread or with
  a written leftover.
- A zero length prefix also stops a pass without a leftover (lines 427-429),
  and the unread bytes after it are discarded. The corrected chunk theorem
  therefore assumes the stream holds no zero prefix. That holds for any
  stream made by framing non-empty bodies.
