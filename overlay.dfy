/**
 * The overlay's message handling (`lib/overlay/overlay.js`): deciding
 * whether a message is for this node or must be forwarded, naming the event
 * raised, adding the next hop to the message's metadata, sending it on, and
 * offering a better route back to the sender. The routing manager, the
 * routing table, the URI parser, the message constructor and the
 * application's event listeners are parameters; events, sends and
 * heartbeats are recorded in a trace.
 */
module Overlay {
  import opened Options
  import opened Strings
  import opened MapMerge
  import opened LangUtil

  /** The fields of a message the overlay reads or passes on. */
  datatype Message = Message(
    uri: string,
    destId: JsValue,
    sourceId: JsValue,
    content: map<string, JsValue>,
    headers: map<string, JsValue>)

  /** What `routingmgr.getNextHop` answers: the hop's ID and its address and port. */
  datatype RouteHop = RouteHop(id: string, addr: JsValue, port: JsValue)

  /** What `routingtable.findBetterRoutingHop` offers: a peer and the routing-table row it sits in. */
  datatype BetterRoute = BetterRoute(id: string, row: map<string, JsValue>)

  /** An observable effect of the overlay. */
  datatype Effect =
    | Emitted(event: string, msg: Message, msginfo: map<string, JsValue>)  // self.emit(event, msg, msginfo)
    | Sent(port: JsValue, addr: JsValue, msg: Message)                     // messagemgr.send(port, addr, msg)
    | HeartbeatSent(host: string, port: JsValue, routingTable: map<string, JsValue>)
    | Thrown(error: string)                                                // an exception escapes

  datatype EffectKind = EmitKind | SendKind | HeartbeatKind | ThrowKind

  function KindOf(e: Effect): EffectKind {
    match e
    case Emitted(_, _, _) => EmitKind
    case Sent(_, _, _) => SendKind
    case HeartbeatSent(_, _, _) => HeartbeatKind
    case Thrown(_) => ThrowKind
  }

  /** How many effects of the given kind a trace holds. */
  function Count(effects: seq<Effect>, kind: EffectKind): nat {
    if effects == [] then 0
    else (if KindOf(effects[0]) == kind then 1 else 0) + Count(effects[1..], kind)
  }

  lemma {:induction false} CountAppend(a: seq<Effect>, b: seq<Effect>, kind: EffectKind)
    ensures Count(a + b, kind) == Count(a, kind) + Count(b, kind)
    decreases |a|
  {
    if a != [] {
      assert (a + b)[1..] == a[1..] + b;
      CountAppend(a[1..], b, kind);
    } else {
      assert a + b == b;
    }
  }

  /** `msg.dest_id !== undefined && msg.dest_id.length > 0`. */
  predicate HasDestination(msg: Message) {
    msg.destId.Str? && |msg.destId.s| > 0
  }

  /** Deliver here, or forward to the given next hop. */
  datatype Decision = Deliver | Forward(hop: RouteHop)

  /**
   * The local-versus-forward decision: a message with no destination is for
   * this node; otherwise it is forwarded exactly when the routing manager's
   * next hop is some other node.
   */
  function Decide(nodeId: string, msg: Message, getNextHop: string -> RouteHop): (d: Decision)
    ensures !HasDestination(msg) ==> d == Deliver
    ensures HasDestination(msg) ==> (d.Forward? <==> getNextHop(msg.destId.s).id != nodeId)
    ensures d.Forward? ==> d.hop == getNextHop(msg.destId.s) && d.hop.id != nodeId
  {
    if HasDestination(msg) && getNextHop(msg.destId.s).id != nodeId then
      Forward(getNextHop(msg.destId.s))
    else Deliver
  }

  /** JavaScript's string conversion of a property value, as `+` performs it. */
  function ToJsString(v: JsValue): string {
    match v
    case Undefined => "undefined"
    case Str(s) => s
  }

  /**
   * The event name: `graviti-message-...` for the overlay's own messages,
   * `<app_name>-app-message-...` for any other application.
   */
  function EventName(appName: JsValue, forwarding: bool): string {
    (if appName == Str("graviti") then "graviti" else ToJsString(appName) + "-app")
    + (if forwarding then "-message-forwarding" else "-message-received")
  }

  /** A received event and a forwarding event never share a name. */
  lemma EventKindsDistinct(a: JsValue, b: JsValue)
    ensures EventName(a, false) != EventName(b, true)
  {
    var r, f := EventName(a, false), EventName(b, true);
    assert r[|r| - 1] == 'd';
    assert f[|f| - 1] == 'g';
  }

  /** Distinct application names give distinct event names, `graviti` included. */
  lemma {:induction false} AppEventNamesDistinct(a: string, b: string, forwarding: bool)
    requires a != b
    ensures EventName(Str(a), forwarding) != EventName(Str(b), forwarding)
  {
    var suffix := if forwarding then "-message-forwarding" else "-message-received";
    var pa := if a == "graviti" then "graviti" else a + "-app";
    var pb := if b == "graviti" then "graviti" else b + "-app";
    assert EventName(Str(a), forwarding) == pa + suffix;
    assert EventName(Str(b), forwarding) == pb + suffix;
    if |pa| == |pb| {
      // the two prefixes differ at some position i, and so do the names
      var i: nat;
      if a == "graviti" || b == "graviti" {
        i := 3;
        assert pa[i] != pb[i];
      } else {
        assert |a| == |b|;
        i :| i < |a| && a[i] != b[i];
        assert pa[i] == a[i] && pb[i] == b[i];
      }
      assert (pa + suffix)[i] == pa[i] && (pb + suffix)[i] == pb[i];
    } else {
      assert |pa + suffix| != |pb + suffix|;
    }
  }

  /** A message whose metadata lacks `app_name` is announced as if its application were named "undefined". */
  lemma MissingAppNameReadsAsUndefined(forwarding: bool)
    ensures EventName(Undefined, forwarding) == EventName(Str("undefined"), forwarding)
  {
  }

  /** The metadata a forwarded message gains: the next hop's ID, address and port. */
  function NextHopFields(hop: RouteHop): map<string, JsValue> {
    map["next_hop_id" := Str(hop.id), "next_hop_addr" := hop.addr, "next_hop_port" := hop.port]
  }

  /** The metadata handed to the event: as it was when delivered, extended with the next hop when forwarded. */
  function EventInfo(info: map<string, JsValue>, d: Decision): map<string, JsValue> {
    match d
    case Deliver => info
    case Forward(hop) => Overwrite(info, NextHopFields(hop))
  }

  /** A forwarded message's event metadata names its next hop and keeps every other field it had. */
  lemma ForwardedInfoNamesNextHop(info: map<string, JsValue>, hop: RouteHop)
    ensures var fwd := EventInfo(info, Forward(hop));
      && fwd.Keys == info.Keys + {"next_hop_id", "next_hop_addr", "next_hop_port"}
      && Get(fwd, "next_hop_id") == Str(hop.id)
      && Get(fwd, "next_hop_addr") == hop.addr
      && Get(fwd, "next_hop_port") == hop.port
      && forall k :: k in info && k !in NextHopFields(hop) ==> fwd[k] == info[k]
  {
  }

  /**
   * The application's listeners, run synchronously by `emit`: given the
   * event name, the message and the metadata, the message and metadata as
   * they leave them. A forwarding listener may alter a message before it is
   * sent on (lib/overlay/overlay.js:99).
   */
  type Listeners = (string, Message, map<string, JsValue>) -> (Message, map<string, JsValue>)

  /** The message and metadata once the listeners of the message's one event have run. */
  function AfterEvent(msg: Message, info: map<string, JsValue>, d: Decision, listeners: Listeners): (Message, map<string, JsValue>) {
    var shown := EventInfo(info, d);
    listeners(EventName(Get(shown, "app_name"), d.Forward?), msg, shown)
  }

  /** The listeners left `key` of the metadata as it was handed to them. */
  predicate Unaltered(before: map<string, JsValue>, after: map<string, JsValue>, key: string) {
    Get(after, key) == Get(before, key)
  }

  /**
   * The lazy route repair offered to the sender of a forwarded message: a
   * heartbeat carrying the better route's row, to the host and port in the
   * message's `source_ap`, when the sender is another node and the routing
   * table has a better hop. Splitting a missing `source_ap` throws.
   */
  function RouteOffer(nodeId: string, msg: Message, info: map<string, JsValue>,
                      findBetterRoutingHop: (JsValue, JsValue) -> Option<BetterRoute>): seq<Effect>
  {
    if msg.sourceId == Str(nodeId) then []
    else match findBetterRoutingHop(msg.sourceId, msg.destId)
      case None => []
      case Some(better) =>
        match Get(info, "source_ap")
        case Undefined => [Thrown("TypeError: source_ap is undefined")]
        case Str(ap) =>
          var (host, port) := SplitHostPort(ap);
          [HeartbeatSent(host, if port.Some? then Str(port.value) else Undefined, better.row)]
  }

  /**
   * Everything `_processMessage` does for one message whose metadata starts
   * as `info`, in order: the event, and when forwarding the send and the
   * route offer, both made with what the forwarding listeners left.
   */
  function ProcessEffects(nodeId: string, msg: Message, info: map<string, JsValue>,
                          getNextHop: string -> RouteHop,
                          findBetterRoutingHop: (JsValue, JsValue) -> Option<BetterRoute>,
                          listeners: Listeners): seq<Effect>
  {
    var d := Decide(nodeId, msg, getNextHop);
    var shown := EventInfo(info, d);
    var event := Emitted(EventName(Get(shown, "app_name"), d.Forward?), msg, shown);
    if d.Deliver? then [event]
    else
      var after := AfterEvent(msg, info, d, listeners);
      [event, Sent(Get(after.1, "next_hop_port"), Get(after.1, "next_hop_addr"), after.0)]
      + RouteOffer(nodeId, after.0, after.1, findBetterRoutingHop)
  }

  /**
   * Each message raises exactly one event, first: `...-message-received`
   * when it is for this node, `...-message-forwarding` when it is not, named
   * after the metadata's `app_name`.
   */
  lemma ExactlyOneEvent(nodeId: string, msg: Message, info: map<string, JsValue>,
                        getNextHop: string -> RouteHop,
                        findBetterRoutingHop: (JsValue, JsValue) -> Option<BetterRoute>,
                        listeners: Listeners)
    ensures var effects := ProcessEffects(nodeId, msg, info, getNextHop, findBetterRoutingHop, listeners);
      && Count(effects, EmitKind) == 1
      && effects[0].Emitted?
      && effects[0].event == EventName(Get(info, "app_name"), Decide(nodeId, msg, getNextHop).Forward?)
  {
    var d := Decide(nodeId, msg, getNextHop);
    var effects := ProcessEffects(nodeId, msg, info, getNextHop, findBetterRoutingHop, listeners);
    if d.Forward? {
      var after := AfterEvent(msg, info, d, listeners);
      var offer := RouteOffer(nodeId, after.0, after.1, findBetterRoutingHop);
      CountAppend([effects[0], effects[1]], offer, EmitKind);
      assert Count(offer, EmitKind) == 0;
    }
  }

  /** A message delivered here is never sent anywhere and triggers no route offer. */
  lemma DeliveredMessageNotSent(nodeId: string, msg: Message, info: map<string, JsValue>,
                                getNextHop: string -> RouteHop,
                                findBetterRoutingHop: (JsValue, JsValue) -> Option<BetterRoute>,
                                listeners: Listeners)
    requires Decide(nodeId, msg, getNextHop) == Deliver
    ensures var effects := ProcessEffects(nodeId, msg, info, getNextHop, findBetterRoutingHop, listeners);
      Count(effects, SendKind) == 0 && Count(effects, HeartbeatKind) == 0
  {
  }

  /** In particular a message without a destination ID is always delivered here, never forwarded. */
  lemma NoDestinationDeliveredLocally(nodeId: string, msg: Message, info: map<string, JsValue>,
                                      getNextHop: string -> RouteHop,
                                      findBetterRoutingHop: (JsValue, JsValue) -> Option<BetterRoute>,
                                      listeners: Listeners)
    requires !HasDestination(msg)
    ensures var effects := ProcessEffects(nodeId, msg, info, getNextHop, findBetterRoutingHop, listeners);
      effects == [Emitted(EventName(Get(info, "app_name"), false), msg, info)]
  {
  }

  /**
   * A forwarded message is sent exactly once, to the `next_hop_port` and
   * `next_hop_addr` of the metadata as the forwarding listeners left it:
   * the next hop's own port and address whenever they left those two alone.
   */
  lemma ForwardedMessageSentOnce(nodeId: string, msg: Message, info: map<string, JsValue>,
                                 getNextHop: string -> RouteHop,
                                 findBetterRoutingHop: (JsValue, JsValue) -> Option<BetterRoute>,
                                 listeners: Listeners)
    requires Decide(nodeId, msg, getNextHop).Forward?
    ensures var d := Decide(nodeId, msg, getNextHop);
            var after := AfterEvent(msg, info, d, listeners);
            var effects := ProcessEffects(nodeId, msg, info, getNextHop, findBetterRoutingHop, listeners);
      && Count(effects, SendKind) == 1
      && effects[1] == Sent(Get(after.1, "next_hop_port"), Get(after.1, "next_hop_addr"), after.0)
      && (Unaltered(EventInfo(info, d), after.1, "next_hop_port") ==> effects[1].port == d.hop.port)
      && (Unaltered(EventInfo(info, d), after.1, "next_hop_addr") ==> effects[1].addr == d.hop.addr)
  {
    var d := Decide(nodeId, msg, getNextHop);
    var after := AfterEvent(msg, info, d, listeners);
    var effects := ProcessEffects(nodeId, msg, info, getNextHop, findBetterRoutingHop, listeners);
    var offer := RouteOffer(nodeId, after.0, after.1, findBetterRoutingHop);
    CountAppend([effects[0], effects[1]], offer, SendKind);
    assert Count(offer, SendKind) == 0;
  }

  /**
   * A better-route heartbeat goes out only for a forwarded message from
   * another node for which the routing table has a better hop, and then to
   * the host and port in `source_ap`, carrying that hop's row. Source,
   * destination and `source_ap` are read after the forwarding listeners ran.
   */
  lemma RouteOfferedOnlyWhenBetter(nodeId: string, msg: Message, info: map<string, JsValue>,
                                   getNextHop: string -> RouteHop,
                                   findBetterRoutingHop: (JsValue, JsValue) -> Option<BetterRoute>,
                                   listeners: Listeners)
    ensures var d := Decide(nodeId, msg, getNextHop);
            var after := AfterEvent(msg, info, d, listeners);
            var effects := ProcessEffects(nodeId, msg, info, getNextHop, findBetterRoutingHop, listeners);
            var better := findBetterRoutingHop(after.0.sourceId, after.0.destId);
      && (Count(effects, HeartbeatKind) > 0 <==>
            && d.Forward?
            && after.0.sourceId != Str(nodeId)
            && better.Some?
            && Get(after.1, "source_ap").Str?)
      && Count(effects, HeartbeatKind) <= 1
      && (Count(effects, HeartbeatKind) > 0 ==>
            && effects[|effects| - 1].HeartbeatSent?
            && effects[|effects| - 1].routingTable == better.value.row
            && HostPort(Get(after.1, "source_ap").s, effects[|effects| - 1].host,
                        if effects[|effects| - 1].port.Str? then Some(effects[|effects| - 1].port.s) else None))
  {
    var d := Decide(nodeId, msg, getNextHop);
    var effects := ProcessEffects(nodeId, msg, info, getNextHop, findBetterRoutingHop, listeners);
    if d.Forward? {
      var after := AfterEvent(msg, info, d, listeners);
      var offer := RouteOffer(nodeId, after.0, after.1, findBetterRoutingHop);
      CountAppend([effects[0], effects[1]], offer, HeartbeatKind);
    }
  }

  /** What is assumed of `messages.Message`: it keeps the URI and destination ID it is given. */
  ghost predicate KeepsAddressing(newMessage: (string, map<string, JsValue>, map<string, JsValue>, JsValue) -> Message) {
    forall u, c, h, d :: newMessage(u, c, h, d).uri == u && newMessage(u, c, h, d).destId == d
  }

  /** The overlay node: its ID, its collaborators, and the trace of what it has done. */
  class Overlay {
    const nodeId: string
    /** `routingmgr.getNextHop`. */
    const getNextHop: string -> RouteHop
    /** `routingtable.findBetterRoutingHop(sourceId, destId)`. */
    const findBetterRoutingHop: (JsValue, JsValue) -> Option<BetterRoute>
    /** `uri.parse(u).app_name`. */
    const appNameOf: string -> JsValue
    /** `uri.parse(u).hash`. */
    const hashOf: string -> JsValue
    /** `new messages.Message(uri, content, headers, destId)`. */
    const newMessage: (string, map<string, JsValue>, map<string, JsValue>, JsValue) -> Message
    /** The listeners registered on the overlay's events. */
    const listeners: Listeners

    ghost var trace: seq<Effect>

    ghost predicate Valid() {
      KeepsAddressing(newMessage)
    }

    constructor (nodeId: string, getNextHop: string -> RouteHop,
                 findBetterRoutingHop: (JsValue, JsValue) -> Option<BetterRoute>,
                 appNameOf: string -> JsValue, hashOf: string -> JsValue,
                 newMessage: (string, map<string, JsValue>, map<string, JsValue>, JsValue) -> Message,
                 listeners: Listeners)
      requires KeepsAddressing(newMessage)
      ensures Valid()
      ensures this.nodeId == nodeId && this.getNextHop == getNextHop
      ensures this.findBetterRoutingHop == findBetterRoutingHop
      ensures this.appNameOf == appNameOf && this.hashOf == hashOf && this.newMessage == newMessage
      ensures this.listeners == listeners
      ensures trace == []
    {
      this.nodeId := nodeId;
      this.getNextHop := getNextHop;
      this.findBetterRoutingHop := findBetterRoutingHop;
      this.appNameOf := appNameOf;
      this.hashOf := hashOf;
      this.newMessage := newMessage;
      this.listeners := listeners;
      trace := [];
    }

    /** The metadata `_processMessage` starts from: the given one, or a new one holding only `app_name`. */
    function StartInfo(msg: Message, msginfo: map<string, JsValue>, given: bool): map<string, JsValue> {
      if given then msginfo else map["app_name" := appNameOf(msg.uri)]
    }

    /**
     * `_processMessage(msg, msginfo)`: decide, raise the event, and when
     * forwarding extend `msginfo` in place, send, and offer a better route.
     * A given `msginfo` ends as the listeners of the event left it.
     */
    method ProcessMessage(msg: Message, msginfo: JsObject?)
      modifies this, msginfo
      ensures var start := StartInfo(msg, if msginfo == null then map[] else old(msginfo.props), msginfo != null);
        && trace == old(trace) + ProcessEffects(nodeId, msg, start, getNextHop, findBetterRoutingHop, listeners)
        && (msginfo != null ==>
              msginfo.props == AfterEvent(msg, start, Decide(nodeId, msg, getNextHop), listeners).1)
    {
      var info: JsObject;
      if msginfo == null {
        info := new JsObject(map["app_name" := appNameOf(msg.uri)]);
      } else {
        info := msginfo;
      }

      var isForThisNode := true;
      var nextHop: Option<RouteHop> := None;
      if msg.destId.Str? && |msg.destId.s| > 0 {
        nextHop := Some(getNextHop(msg.destId.s));
        if nextHop.value.id != nodeId {
          isForThisNode := false;
        }
      }

      if isForThisNode {
        var event := EventName(Get(info.props, "app_name"), false);
        trace := trace + [Emitted(event, msg, info.props)];
        var after := listeners(event, msg, info.props);
        info.props := after.1;
      } else {
        ForwardMessage(msg, info, nextHop.value);
      }
    }

    /**
     * The forwarding branch: extend the metadata in place with the next hop,
     * raise the forwarding event, then send and offer a route with what its
     * listeners left.
     */
    method ForwardMessage(msg: Message, info: JsObject, hop: RouteHop)
      modifies this, info
      ensures var shown := EventInfo(old(info.props), Forward(hop));
              var after := AfterEvent(msg, old(info.props), Forward(hop), listeners);
        && info.props == after.1
        && trace == old(trace)
             + [Emitted(EventName(Get(shown, "app_name"), true), msg, shown),
                Sent(Get(after.1, "next_hop_port"), Get(after.1, "next_hop_addr"), after.0)]
             + RouteOffer(nodeId, after.0, after.1, findBetterRoutingHop)
    {
      var fields := new JsObject(NextHopFields(hop));
      var extended, threw := Extend(info, fields);
      var event := EventName(Get(info.props, "app_name"), true);
      trace := trace + [Emitted(event, msg, info.props)];
      var after := listeners(event, msg, info.props);
      info.props := after.1;
      var sent := after.0;
      trace := trace + [Sent(Get(info.props, "next_hop_port"), Get(info.props, "next_hop_addr"), sent)];
      OfferBetterRoute(sent, info.props);
    }

    /** The lazy route repair step of a forwarded message whose metadata is `info`. */
    method OfferBetterRoute(msg: Message, info: map<string, JsValue>)
      modifies this
      ensures trace == old(trace) + RouteOffer(nodeId, msg, info, findBetterRoutingHop)
    {
      if msg.sourceId != Str(nodeId) {
        var better := findBetterRoutingHop(msg.sourceId, msg.destId);
        if better.Some? {
          match Get(info, "source_ap") {
            case Undefined =>
              trace := trace + [Thrown("TypeError: source_ap is undefined")];
            case Str(ap) =>
              var hostPort := SplitHostPort(ap);
              var port := if hostPort.1.Some? then Str(hostPort.1.value) else Undefined;
              trace := trace + [HeartbeatSent(hostPort.0, port, better.value.row)];
          }
        }
      }
    }

    /**
     * `_send(destUri, content, headers, addr, port, destId)`: the message
     * routed is addressed to the URI's hash unless a `destId` is given, and
     * is processed with fresh metadata.
     */
    method SendInternal(destUri: string, content: map<string, JsValue>, headers: map<string, JsValue>, destId: JsValue)
      requires Valid()
      modifies this
      ensures exists msg: Message ::
        && msg.uri == destUri
        && msg.destId == (if destId == Undefined then hashOf(destUri) else destId)
        && trace == old(trace) + ProcessEffects(nodeId, msg, StartInfo(msg, map[], false), getNextHop, findBetterRoutingHop, listeners)
    {
      var dest := destId;
      if dest == Undefined {
        dest := hashOf(destUri);
      }
      var msg := newMessage(destUri, content, headers, dest);
      ProcessMessage(msg, null);
    }

    /** `send(destUri, content, headers)`: routed towards the hash of the URI's resource. */
    method Send(destUri: string, content: map<string, JsValue>, headers: map<string, JsValue>)
      requires Valid()
      modifies this
      ensures exists msg: Message ::
        && msg.uri == destUri
        && msg.destId == hashOf(destUri)
        && trace == old(trace) + ProcessEffects(nodeId, msg, StartInfo(msg, map[], false), getNextHop, findBetterRoutingHop, listeners)
    {
      SendInternal(destUri, content, headers, Undefined);
    }

    /** `sendToId(destUri, content, headers, destId)`: routed towards `destId` itself (the hash only if `destId` is undefined). */
    method SendToId(destUri: string, content: map<string, JsValue>, headers: map<string, JsValue>, destId: JsValue)
      requires Valid()
      modifies this
      ensures exists msg: Message ::
        && msg.uri == destUri
        && msg.destId == (if destId == Undefined then hashOf(destUri) else destId)
        && trace == old(trace) + ProcessEffects(nodeId, msg, StartInfo(msg, map[], false), getNextHop, findBetterRoutingHop, listeners)
    {
      SendInternal(destUri, content, headers, destId);
    }

    /** `sendToAddr(...)`: one direct send to the given address, with no routing and no destination ID. */
    method SendToAddr(destUri: string, content: map<string, JsValue>, headers: map<string, JsValue>, addr: JsValue, port: JsValue)
      requires Valid()
      modifies this
      ensures exists msg: Message ::
        && msg.uri == destUri
        && msg.destId == Undefined
        && trace == old(trace) + [Sent(port, addr, msg)]
    {
      var msg := newMessage(destUri, content, headers, Undefined);
      trace := trace + [Sent(port, addr, msg)];
    }
  }
}
