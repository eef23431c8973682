/** One subscriber per OPC-UA server: the chain connect, create session
    (with the certificate trust check), create subscription, monitor nodes,
    and the publish produced for each changed value.

    The OPC-UA client library is not modelled. Each library callback is a
    method of its own, called with the callback's outcome; what the
    subscriber asks of the library and the events it emits are recorded, in
    order, in `trace`. */
module Subscriber {
  import opened JsValues
  import opened ConfigAgent

  // ---------------------------------------------------------------------
  // Topic and payload
  // ---------------------------------------------------------------------

  /** The characters removed from topic segments. */
  predicate IsReserved(c: char)
  {
    c == '#' || c == '?' || c == '+'
  }

  predicate Clean(s: string)
  {
    forall i :: 0 <= i < |s| ==> !IsReserved(s[i])
  }

  /** `replace(/\#|\?|\+/g, '')`: drop every reserved character. */
  function Sanitize(s: string): string
  {
    if s == [] then []
    else (if IsReserved(s[0]) then [] else [s[0]]) + Sanitize(s[1..])
  }

  /** Sanitizing distributes over concatenation, so it keeps the order of
      what it keeps. */
  lemma {:induction false} SanitizeConcat(a: string, b: string)
    ensures Sanitize(a + b) == Sanitize(a) + Sanitize(b)
  {
    if a != [] {
      assert (a + b)[1..] == a[1..] + b;
      SanitizeConcat(a[1..], b);
    } else {
      assert a + b == b;
    }
  }

  lemma CleanConcat(a: string, b: string)
    requires Clean(a) && Clean(b)
    ensures Clean(a + b)
  {
    forall i | 0 <= i < |a + b| ensures !IsReserved((a + b)[i]) {
      if i >= |a| { assert (a + b)[i] == b[i - |a|]; }
    }
  }

  /** The result holds no reserved character. */
  lemma {:induction false} SanitizeClean(s: string)
    ensures Clean(Sanitize(s))
  {
    if s != [] {
      SanitizeClean(s[1..]);
      CleanConcat(if IsReserved(s[0]) then [] else [s[0]], Sanitize(s[1..]));
    }
  }

  /** Every occurrence of every other character is kept, and no reserved
      character survives. */
  lemma {:induction false} SanitizeCounts(s: string)
    ensures forall c :: !IsReserved(c) ==> multiset(Sanitize(s))[c] == multiset(s)[c]
    ensures forall c :: IsReserved(c) ==> multiset(Sanitize(s))[c] == 0
  {
    if s != [] {
      SanitizeCounts(s[1..]);
      assert s == [s[0]] + s[1..];
      assert multiset(s) == multiset([s[0]]) + multiset(s[1..]);
      var head := if IsReserved(s[0]) then [] else [s[0]];
      assert multiset(Sanitize(s)) == multiset(head) + multiset(Sanitize(s[1..]));
    }
  }

  /** A string with no reserved character is left as it is. */
  lemma {:induction false} SanitizeFixesClean(s: string)
    requires Clean(s)
    ensures Sanitize(s) == s
  {
    if s != [] {
      assert !IsReserved(s[0]);
      assert Clean(s[1..]) by {
        forall i | 0 <= i < |s[1..]| ensures !IsReserved(s[1..][i]) { assert s[1..][i] == s[i + 1]; }
      }
      SanitizeFixesClean(s[1..]);
    }
  }

  /** Sanitizing twice is sanitizing once. */
  lemma SanitizeIdempotent(s: string)
    ensures Sanitize(Sanitize(s)) == Sanitize(s)
  {
    SanitizeClean(s);
    SanitizeFixesClean(Sanitize(s));
  }

  /** The topic a changed value of node `displayName` on server
      `serverName` is published on. */
  function Topic(serverName: string, displayName: string): string
  {
    "opcua/" + Sanitize(serverName) + "/node/" + Sanitize(displayName)
  }

  /** A topic holds no reserved character, and for clean names it is the
      plain template: the fixed prefix, the server name, the "/node/"
      separator and the node name. */
  lemma TopicWellFormed(serverName: string, displayName: string)
    ensures Clean(Topic(serverName, displayName))
    ensures Clean(serverName) && Clean(displayName) ==>
      Topic(serverName, displayName) == "opcua/" + serverName + "/node/" + displayName
  {
    SanitizeClean(serverName);
    SanitizeClean(displayName);
    var prefix, sep := "opcua/", "/node/";
    assert Clean(prefix) && Clean(sep);
    CleanConcat(prefix, Sanitize(serverName));
    CleanConcat(prefix + Sanitize(serverName), sep);
    CleanConcat(prefix + Sanitize(serverName) + sep, Sanitize(displayName));
    if Clean(serverName) && Clean(displayName) {
      SanitizeFixesClean(serverName);
      SanitizeFixesClean(displayName);
    }
  }

  /** The value part of an OPC-UA data value. */
  datatype Variant = Variant(dataType: int, value: JsValue)

  /** A changed data value: the value and its source timestamp (absent when
      the server reports none). */
  datatype DataValue = DataValue(value: Variant, sourceTimestamp: Option<int>)

  /** The published message body, before it is turned into JSON. */
  datatype Payload = Payload(id: string, displayName: string, timestamp: Option<int>, value: Variant)

  datatype Publish = Publish(topic: string, payload: Payload)

  // ---------------------------------------------------------------------
  // Session identity and the trust decision
  // ---------------------------------------------------------------------

  /** The user identity passed to `createSession`: the configured one when
      it exists and both its user name and password are truthy, otherwise
      none (anonymous). */
  function SessionIdentity(configured: Option<Identity>): (r: Option<Identity>)
    ensures r.Some? <==> configured.Some? && Truthy(configured.value.userName) && Truthy(configured.value.password)
    ensures r.Some? ==> r == configured
  {
    match configured
    case None => None
    case Some(id) => if Truthy(id.userName) && Truthy(id.password) then configured else None
  }

  /** A session as the library hands it over. */
  datatype Session = Session(sessionId: string, serverCertificate: seq<byte>)

  /** Whether a created session may be used: a `certExist` of exactly 0
      skips the trust check; any other value requires the server
      certificate to be in the trust store. */
  predicate SessionAccepted(certExist: JsValue, session: Session, trustFiles: seq<seq<byte>>)
  {
    IsZero(certExist) || Trusts(trustFiles, session.serverCertificate)
  }

  /** With `certExist` 0 the trust store plays no part; with any other
      value an empty trust store, or one whose files all differ from the
      certificate, rejects the session. */
  lemma TrustBranch(certExist: JsValue, session: Session, files1: seq<seq<byte>>, files2: seq<seq<byte>>)
    ensures IsZero(certExist) ==>
      SessionAccepted(certExist, session, files1) && SessionAccepted(certExist, session, files2)
    ensures !IsZero(certExist) && (forall i :: 0 <= i < |files1| ==> files1[i] != session.serverCertificate) ==>
      !SessionAccepted(certExist, session, files1)
    ensures !IsZero(certExist) ==> !SessionAccepted(certExist, session, [])
  {
  }

  // ---------------------------------------------------------------------
  // The subscriber
  // ---------------------------------------------------------------------

  /** How far the chain has got. */
  datatype Phase = Disconnected | Connecting | SessionCreating | Subscribing | Monitoring | Failed

  /** The events the subscriber emits to itself. */
  datatype Event = ConnectEvent | SessionCreateEvent | SubscribeEvent | DisconnectEvent

  /** The requests the subscriber makes of the OPC-UA client library. */
  datatype LibraryCall =
    | ConnectCall(url: string)
    | CreateSessionCall(identity: Option<Identity>)
    | NewSubscription(session: Session)
    | MonitorCall(nodeId: string)
    | DisconnectCall

  datatype Action = Emit(event: Event) | Call(call: LibraryCall)

  /** A monitored item: the node it watches, under the node id it was
      requested with. */
  datatype MonitoredItem = MonitoredItem(nodeId: string, node: OpcNode)

  /** What `monitorNodes` requests: one item per configured node, in order,
      each watching the node's `Id`. */
  function MonitorPlan(nodes: seq<OpcNode>): (r: seq<MonitoredItem>)
    ensures |r| == |nodes|
    ensures forall i :: 0 <= i < |nodes| ==> r[i].nodeId == nodes[i].Id && r[i].node == nodes[i]
  {
    seq(|nodes|, i requires 0 <= i < |nodes| => MonitoredItem(nodes[i].Id, nodes[i]))
  }

  function MonitorCalls(items: seq<MonitoredItem>): (r: seq<Action>)
  {
    seq(|items|, i requires 0 <= i < |items| => Call(MonitorCall(items[i].nodeId)))
  }

  class OPCUASubscriber {
    /** The server configuration and nodes the subscriber was created
        with; they never change for its lifetime. */
    const serverConfig: ServerInfo
    const monitoredItemsConfig: seq<OpcNode>

    var phase: Phase
    /** `_session`: the last session created successfully. */
    var session: Option<Session>
    /** `_subscription`: the session the current subscription was created on. */
    var subscription: Option<Session>
    /** The items monitored on the current subscription. */
    var monitored: seq<MonitoredItem>
    /** Every library request and emitted event, in order. */
    var trace: seq<Action>

    ghost predicate Valid()
      reads this
    {
      && (subscription.Some? ==> session.Some?)
      && (phase == Subscribing ==> subscription.Some? && monitored == [])
      && (phase == Monitoring ==> subscription.Some? && monitored == MonitorPlan(monitoredItemsConfig))
    }

    constructor (serverConfig: ServerInfo, monitoredItemsConfig: seq<OpcNode>)
      ensures Valid()
      ensures this.serverConfig == serverConfig && this.monitoredItemsConfig == monitoredItemsConfig
      ensures phase == Disconnected && session == None && subscription == None
      ensures monitored == [] && trace == []
    {
      this.serverConfig := serverConfig;
      this.monitoredItemsConfig := monitoredItemsConfig;
      phase := Disconnected;
      session := None;
      subscription := None;
      monitored := [];
      trace := [];
    }

    /** `connect()`: ask the library to connect to the server's URL. */
    method Connect()
      requires Valid()
      modifies this`phase, this`trace
      ensures Valid()
      ensures trace == old(trace) + [Call(ConnectCall(serverConfig.url))]
      ensures phase == Connecting
    {
      trace := trace + [Call(ConnectCall(serverConfig.url))];
      phase := Connecting;
    }

    /** The connect callback: an error is only logged and nothing is
        emitted; success emits `connect`, whose handler creates the session. */
    method OnConnectResult(connectError: bool)
      requires Valid()
      modifies this`phase, this`trace
      ensures Valid()
      ensures connectError ==> trace == old(trace) && phase == Disconnected
      ensures !connectError ==>
        trace == old(trace) + [Emit(ConnectEvent), Call(CreateSessionCall(SessionIdentity(serverConfig.userIdentity)))]
        && phase == SessionCreating
    {
      if connectError {
        phase := Disconnected;
        return;
      }
      trace := trace + [Emit(ConnectEvent)];
      CreateSession();
    }

    /** The override of the library's reconnection hook: it emits `connect`,
        so the chain restarts from session creation exactly as after a
        successful connect. */
    method OnConnectionReestablished()
      requires Valid()
      modifies this`phase, this`trace
      ensures Valid()
      ensures trace == old(trace) + [Emit(ConnectEvent), Call(CreateSessionCall(SessionIdentity(serverConfig.userIdentity)))]
      ensures phase == SessionCreating
    {
      trace := trace + [Emit(ConnectEvent)];
      CreateSession();
    }

    /** `createSession()`: ask for a session with the selected identity. */
    method CreateSession()
      requires Valid()
      modifies this`phase, this`trace
      ensures Valid()
      ensures trace == old(trace) + [Call(CreateSessionCall(SessionIdentity(serverConfig.userIdentity)))]
      ensures phase == SessionCreating
    {
      trace := trace + [Call(CreateSessionCall(SessionIdentity(serverConfig.userIdentity)))];
      phase := SessionCreating;
    }

    /** The session callback. `result` is the created session, or `None`
        when creation failed; `trustFiles` holds the trust directory's
        files. An accepted session emits `session_create`, whose handler
        creates the subscription. A failed creation or an untrusted
        certificate issues a disconnect and emits nothing. The session is
        stored as soon as it is created, before the trust check. */
    method OnSessionCreated(result: Option<Session>, trustFiles: seq<seq<byte>>)
      requires Valid()
      modifies this`phase, this`trace, this`session, this`subscription, this`monitored
      ensures Valid()
      ensures session == (if result.Some? then result else old(session))
      ensures result.Some? && SessionAccepted(serverConfig.certExist, result.value, trustFiles) ==>
        && trace == old(trace) + [Emit(SessionCreateEvent), Call(NewSubscription(result.value))]
        && subscription == result && monitored == [] && phase == Subscribing
      ensures !(result.Some? && SessionAccepted(serverConfig.certExist, result.value, trustFiles)) ==>
        && trace == old(trace) + [Call(DisconnectCall)]
        && subscription == old(subscription) && monitored == old(monitored) && phase == Failed
    {
      var failed := result.None?;
      if result.Some? {
        session := result;
        if IsZero(serverConfig.certExist) {
          trace := trace + [Emit(SessionCreateEvent)];
          CreateSubscription();
        } else {
          var trusted := CompareWithTrustCert(trustFiles, result.value.serverCertificate);
          if !trusted {
            failed := true;
          } else {
            trace := trace + [Emit(SessionCreateEvent)];
            CreateSubscription();
          }
        }
      }
      if failed {
        trace := trace + [Call(DisconnectCall)];
        phase := Failed;
      }
    }

    /** `createSubscription()`: a new subscription on the current session,
        with no monitored items yet. */
    method CreateSubscription()
      requires Valid() && session.Some?
      modifies this`phase, this`trace, this`subscription, this`monitored
      ensures Valid()
      ensures trace == old(trace) + [Call(NewSubscription(session.value))]
      ensures subscription == session && monitored == [] && phase == Subscribing
    {
      subscription := session;
      monitored := [];
      trace := trace + [Call(NewSubscription(session.value))];
      phase := Subscribing;
    }

    /** The subscription's `started` event: emits `subscribe`, whose handler
        monitors the nodes. */
    method OnSubscriptionStarted()
      requires Valid() && phase == Subscribing
      modifies this`phase, this`trace, this`monitored
      ensures Valid()
      ensures trace == old(trace) + [Emit(SubscribeEvent)] + MonitorCalls(MonitorPlan(monitoredItemsConfig))
      ensures monitored == MonitorPlan(monitoredItemsConfig) && phase == Monitoring
    {
      trace := trace + [Emit(SubscribeEvent)];
      MonitorNodes();
    }

    /** `monitorNodes()`: one monitored item per configured node, in order. */
    method MonitorNodes()
      requires Valid() && subscription.Some? && monitored == []
      modifies this`phase, this`trace, this`monitored
      ensures Valid()
      ensures monitored == MonitorPlan(monitoredItemsConfig)
      ensures trace == old(trace) + MonitorCalls(monitored)
      ensures phase == Monitoring
    {
      var plan := MonitorPlan(monitoredItemsConfig);
      var i := 0;
      while i < |monitoredItemsConfig|
        invariant 0 <= i <= |monitoredItemsConfig|
        invariant monitored == plan[..i]
        invariant trace == old(trace) + MonitorCalls(plan[..i])
      {
        var node := monitoredItemsConfig[i];
        var item := MonitoredItem(node.Id, node);
        assert plan[..i + 1] == plan[..i] + [item];
        assert MonitorCalls(plan[..i + 1]) == MonitorCalls(plan[..i]) + [Call(MonitorCall(node.Id))];
        monitored := monitored + [item];
        trace := trace + [Call(MonitorCall(node.Id))];
        i := i + 1;
      }
      assert plan[..i] == plan;
      phase := Monitoring;
    }

    /** A monitored item's `changed` event: exactly one publish, on the
        topic of this server and the item's node, carrying the item's node
        id, the node's display name, the source timestamp and the value. */
    method OnChanged(k: nat, dataValue: DataValue) returns (p: Publish)
      requires k < |monitored|
      ensures p.topic == Topic(serverConfig.name, monitored[k].node.DisplayName)
      ensures p.payload.id == monitored[k].nodeId
      ensures p.payload.displayName == monitored[k].node.DisplayName
      ensures p.payload.timestamp == dataValue.sourceTimestamp
      ensures p.payload.value == dataValue.value
    {
      var item := monitored[k];
      var payload := Payload(item.nodeId, item.node.DisplayName, dataValue.sourceTimestamp, dataValue.value);
      var awsServerName := Sanitize(serverConfig.name);
      var awsNodeName := Sanitize(item.node.DisplayName);
      p := Publish("opcua/" + awsServerName + "/node/" + awsNodeName, payload);
    }

    /** `disconnect()`: ask the library to disconnect. */
    method Disconnect()
      requires Valid()
      modifies this`phase, this`trace
      ensures Valid()
      ensures trace == old(trace) + [Call(DisconnectCall)]
      ensures phase == Disconnected
    {
      trace := trace + [Call(DisconnectCall)];
      phase := Disconnected;
    }

    /** The disconnect callback: success emits `disconnect` (which nothing
        listens to); an error is only logged. */
    method OnDisconnectResult(disconnectError: bool)
      requires Valid()
      modifies this`trace
      ensures Valid()
      ensures trace == old(trace) + (if disconnectError then [] else [Emit(DisconnectEvent)])
    {
      if !disconnectError {
        trace := trace + [Emit(DisconnectEvent)];
      }
    }
  }
}
