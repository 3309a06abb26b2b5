# graviti overlay routing core, modelled in Dafny

graviti is a Pastry-style peer-to-peer overlay written in JavaScript. Each
node has a hexadecimal node ID, keeps a leafset of neighbouring nodes, and
routes every overlay message either to itself (a local delivery event) or
on towards the node whose ID is closest to the message's destination ID.

This project models the node-local part of that engine:

- **The leafset manager** (`lib/core/leafsetmgr.js`), a class over a map
  from node ID to `"host:port"`. `updateLeafset` merges one pair or a whole
  map into it, last write wins. `getRoutingHop` answers with the `nearest`
  ID that `getNearestId` returns, but only when the destination lies
  numerically between the `lowest` and `highest` IDs it returns. The answer is either the local node or a
  leafset member with its address split at `':'`.
- **The older leafset manager** (`lib/leafsetmgr.js`), the same merge with
  a `getRoutingHop` that answers with the bare ID. A lemma shows that, given
  the same leafset, local ID and `getNearestId`, both managers make the same
  routing decision. The two files load their own `node` and `ringutil`
  modules (`lib/leafsetmgr.js:2,4`, `lib/core/leafsetmgr.js:2,4`), so the
  lemma holds as far as those answer alike.
- **The overlay's message handling** (`lib/overlay/overlay.js`).
  `_processMessage` decides between local delivery and forwarding and names
  the event it raises. When forwarding, it adds the next hop to the
  message metadata, sends the message, and offers the sender a better
  route (lazy route repair). The listeners of the event it raises run
  inside `emit` and may alter the message and its metadata before the send.
  `send`, `sendToId` and `_send` choose the destination ID and route the
  message; `sendToAddr` sends it straight to an address, with no destination
  ID. Emitted events, sends, heartbeats and a thrown exception are recorded
  in a ghost trace of the `Overlay` object.
- **`langutil.extend`** (`lib/common/langutil.js`), the shallow in-place
  merge of one object into another, over a `JsObject` class.

Node IDs are strings of hexadecimal digits (`NodeIds.NodeId`). Their numeric
value (`NodeIds.Value`) is the unsigned base-16 integer the source compares.
The collaborators that are not part of this model are parameters:
`ringutil.getNearestId`, `routingmgr.getNextHop`,
`routingtable.findBetterRoutingHop`, `uri.parse(...).app_name`,
`uri.parse(...).hash`, the `messages.Message` constructor and the
application's event listeners. `getNearestId` is given the candidates as a
set, and is assumed to return only IDs among them
(`Leafsets.NearestContract`). The only thing assumed of the message
constructor is that the message keeps the URI and destination ID it is
given (`Overlay.KeepsAddressing`).

The leafset is an unbounded map (see the TODO at `lib/core/leafsetmgr.js:8`),
with no liveness state per entry, and `_processMessage` never reads a hop
count.

Files: `options.dfy`, `node_ids.dfy`, `strings.dfy` (JavaScript `split`),
`map_merge.dfy` (last-write-wins merge), `leafsets.dfy` (what the two
leafset managers share), `leafset_mgr.dfy`, `legacy_leafset_mgr.dfy`,
`langutil.dfy`, `overlay.dfy`.

## Model

| member | source | states |
|---|---|---|
| `LeafsetMgr.LeafsetManager.UpdateLeafset` | lib/core/leafsetmgr.js:13-32 | the new leafset is the old one with every supplied pair written over it; a falsy first argument supplies nothing |
| `Leafsets.UpdateFalsyIsNoOp` | lib/core/leafsetmgr.js:14-15 | an absent first argument or the empty ID string leaves the leafset unchanged |
| `Leafsets.UpdateSingle` | lib/core/leafsetmgr.js:17-31 | after `updateLeafset(id, addr)` the leafset maps `id` to `addr`, gains no other key, and every other entry is unchanged |
| `Leafsets.UpdateNodes` | lib/core/leafsetmgr.js:23-31 | after `updateLeafset(nodes)` every key of `nodes` maps to its value in `nodes`, other keys keep their value, and the key set is the union |
| `Leafsets.UpdateNeverShrinks` | lib/core/leafsetmgr.js:23-31 | no update removes a key; the leafset's size never decreases |
| `Leafsets.UpdateIdempotent` | lib/core/leafsetmgr.js:23-31 | applying the same update twice gives the same leafset as applying it once |
| `Leafsets.NoSizeBound` | lib/core/leafsetmgr.js:8-9 | from any leafset, one update takes it past any given size: nothing bounds the leafset |
| `Leafsets.OutsideSpanNotInRange` | lib/core/leafsetmgr.js:40-45 | given only the membership contract of `getNearestId`, an ID above every candidate or below every candidate never passes the range guard |
| `LeafsetMgr.LeafsetManager.RoutingHop` | lib/core/leafsetmgr.js:37-60 | a hop exists exactly when `nearest`, `lowest` and `highest` are all present (non-empty) and `lowest <= id <= highest` numerically; the hop is the nearest ID; it is the local node (ID only) exactly when that ID is the local ID, and otherwise a leafset key whose address and port are the text before and after the first `':'` of its stored address; the leafset is only read |
| `LeafsetMgr.NoHopOutsideLeafsetRange` | lib/core/leafsetmgr.js:38-59 | an ID numerically above (or below) the local ID and every leafset key gets no hop |
| `Strings.Split` | lib/core/leafsetmgr.js:53-54 | `s.split(sep)` yields at least one piece and no piece holds the separator |
| `Strings.JoinSplit` | lib/core/leafsetmgr.js:53-54 | joining the pieces of a split with the separator gives back the original string |
| `Strings.SplitFirst` | lib/core/leafsetmgr.js:53-54 | the first piece is the text up to the first separator; there is a second piece exactly when the separator occurs, and the remaining pieces are the split of what follows it |
| `Strings.SplitHostPort` | lib/core/leafsetmgr.js:53-54 | `split(':')[0]` is the text before the first colon; `split(':')[1]` exists exactly when there is a colon and is the text between it and the next colon or the end |
| `LegacyLeafsetMgr.LegacyLeafsetManager.UpdateLeafset` | lib/leafsetmgr.js:12-31 | the same merge: each supplied ID maps to its supplied address, all other entries unchanged, falsy first argument a no-op |
| `LegacyLeafsetMgr.LegacyLeafsetManager.RoutingHop` | lib/leafsetmgr.js:36-48 | the nearest ID is returned exactly when `lowest <= id <= highest` numerically, and it is a leafset key or the local ID |
| `LegacyLeafsetMgr.AgreesWithNewerManager` | lib/leafsetmgr.js:41-47 | over the same leafset, local ID and `getNearestId`, the older manager returns an ID exactly when the newer one returns a hop, and it is that hop's ID |
| `MapMerge.Overwrite` | lib/common/langutil.js:18-21 | the merged key set is the union; every key of `b` maps to `b`'s value; keys only in `a` keep their previous values |
| `MapMerge.OverwriteIdempotent` | lib/common/langutil.js:18-22 | `extend(extend(a, b), b)` leaves the same properties as `extend(a, b)` |
| `MapMerge.OverwriteGrows` | lib/common/langutil.js:18-21 | merging never removes a key, and the result is at least as large as either side |
| `LangUtil.Extend` | lib/common/langutil.js:14-23 | throws exactly when `a` is undefined and `b` has a property to copy; otherwise returns the very object `a` it was given; with `b` undefined `a` is unchanged; otherwise `a`'s properties become its old ones overwritten by `b`'s, also when `b` is `a` |
| `Overlay.Decide` | lib/overlay/overlay.js:107-116 | a message without a non-empty `dest_id` is for this node; otherwise it is forwarded exactly when `getNextHop(dest_id).id` differs from the node's ID, and then to that hop |
| `Overlay.NoDestinationDeliveredLocally` | lib/overlay/overlay.js:108-125 | a message whose `dest_id` is absent or empty produces exactly one effect: the received event |
| `Overlay.ExactlyOneEvent` | lib/overlay/overlay.js:118-136 | every message raises exactly one event, first, named `graviti-message-...` or `<app_name>-app-message-...`, `received` when delivered and `forwarding` when forwarded |
| `Overlay.EventKindsDistinct` | lib/overlay/overlay.js:119-136 | a received event and a forwarding event never have the same name |
| `Overlay.AppEventNamesDistinct` | lib/overlay/overlay.js:121-135 | different application names (including `graviti`) give different event names |
| `Overlay.MissingAppNameReadsAsUndefined` | lib/overlay/overlay.js:124 | metadata without `app_name` gives the event name of an application called `undefined` |
| `Overlay.ForwardedInfoNamesNextHop` | lib/overlay/overlay.js:127-131 | the metadata handed to a forwarding event gains `next_hop_id`, `next_hop_addr`, `next_hop_port` equal to the next hop's fields and keeps every other field |
| `Overlay.DeliveredMessageNotSent` | lib/overlay/overlay.js:118-126 | a locally delivered message produces no send and no heartbeat |
| `Overlay.ForwardedMessageSentOnce` | lib/overlay/overlay.js:99-137 | a forwarded message is sent exactly once, as the forwarding listeners left it, to the `next_hop_port` and `next_hop_addr` of the metadata as they left it; these are the next hop's own port and address whenever the listeners kept those two fields |
| `Overlay.RouteOfferedOnlyWhenBetter` | lib/overlay/overlay.js:139-151 | a heartbeat is sent exactly when the message is forwarded, its source is another node, `findBetterRoutingHop` returns a route and `source_ap` is set, all read after the forwarding listeners ran; there is at most one; it carries the route's row and goes to the host and port split from `source_ap` |
| `Overlay.Overlay.ProcessMessage` | lib/overlay/overlay.js:100-153 | appends exactly the effects of the decision to the trace; an absent `msginfo` starts as one holding only the URI's `app_name`; a given `msginfo` ends as the event's listeners left it, having been handed to them extended in place with the next hop when forwarding and unchanged otherwise |
| `Overlay.Overlay.ForwardMessage` | lib/overlay/overlay.js:126-152 | the forwarding branch: metadata extended in place, forwarding event, then one send and the route offer made with the message and metadata as the listeners left them |
| `Overlay.Overlay.OfferBetterRoute` | lib/overlay/overlay.js:139-151 | appends the route offer (heartbeat, thrown error, or nothing) to the trace |
| `Overlay.Overlay.SendInternal` | lib/overlay/overlay.js:78-84 | the message processed carries the given URI, and its destination ID is the URI's hash when no `destId` is given and `destId` otherwise; it is processed with fresh metadata |
| `Overlay.Overlay.Send` | lib/overlay/overlay.js:59-61 | the message processed carries the given URI and the URI's hash as destination ID |
| `Overlay.Overlay.SendToId` | lib/overlay/overlay.js:72-74 | the message processed carries the given URI and the supplied `destId` whenever one is supplied |
| `Overlay.Overlay.SendToAddr` | lib/overlay/overlay.js:65-68 | exactly one direct send to the given port and address of a message with the given URI and no destination ID, with no routing |

## Left out

- Transport (`lib/messaging/udptran.js`), connection and message managers, heartbeating, bootstrap and proximity neighbour selection: their code is not part of this model. `heartbeater.sendHeartbeatToAddr` and `messagemgr.send` appear only as recorded effects.
- `init`, `join`, `leave` and `_startNode` in `lib/overlay/overlay.js`: event-listener wiring and node start/stop.
- Logging (`util.log`, `logger`): no effect on state.
- `Object.prototype.extend` and `isArray` in `lib/common/langutil.js`: they depend on JavaScript prototype chains and runtime type tags.
- `ringutil.getNearestId`, `routingmgr.getNextHop`, `routingtable.findBetterRoutingHop` and the URI parser are parameters with no behaviour of their own. No circular distance or tie-breaking is modelled. The bounds that `getNearestId` returns as big integers are taken to be the numeric values of its `lowest` and `highest` IDs.
- The big-integer library: `Value` reads hex digits in either case. IDs holding other characters are outside the `NodeId` type.
- `getNearestId` is given the candidates as a set: the order of `Object.keys` and a repeated local ID (when the local ID is also a leafset key) are not modelled, so its answer is taken to depend only on the candidate IDs. `LegacyLeafsetMgr.AgreesWithNewerManager` relies on this.
- The order in which `for...in` and `Object.keys` visit keys: the loops visit keys in an arbitrary order. The resulting map does not depend on that order.
- Leafset addresses are strings. `updateLeafset(id)` without an address (which stores `undefined`) and the exception `getRoutingHop` would then raise are not modelled.
- Event listeners are one parameter returning the message and metadata they leave (`lib/overlay/overlay.js:99`). Their other effects, and their identity with the message object held elsewhere, are not modelled.
- JavaScript values are either `undefined` or a string (`LangUtil.JsValue`). `null`, numbers and objects are not modelled, so neither is the exception a `null` `dest_id` raises at `lib/overlay/overlay.js:110` nor the one a non-string `source_ap` raises at `lib/overlay/overlay.js:145`.
- `LangUtil.Extend`: a missing `b` is modelled as `null` and stands for `undefined`, which returns `a`. `extend(a, null)`, where `Object.keys(null)` throws at `lib/common/langutil.js:18`, is not modelled.
- `getNextHop` returning `undefined` (which would throw) is not modelled.
- `messages.Message` is a parameter. Only `uri`, `dest_id` and `source_id` of a message are read; `content` and `headers` are carried as flat maps.
- The module-level singletons (`leafset`, `node.nodeId`) become objects and parameters. The program is single-threaded, so no concurrency is modelled.
