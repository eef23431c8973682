/** The adapter's main loop: the set of live subscribers and the pass that
    brings it in line with a reloaded configuration. */
module Adapter {
  import opened JsValues
  import opened ConfigAgent
  import opened Seqs
  import opened Reconcile

  /** `haveSameSub`: equal key counts, then every new key looked up among
      the live keys, stopping at the first one missing. */
  method HaveSameSub(incoming: map<string, JsValue>, live: map<string, JsValue>) returns (same: bool)
    ensures same <==> SameSubscriptions(incoming.Keys, live.Keys)
    ensures same <==> incoming.Keys == live.Keys
  {
    SameSubscriptionsIsEquality(incoming.Keys, live.Keys);
    same := |incoming.Keys| == |live.Keys|;
    if same {
      var todo := incoming.Keys;
      while todo != {}
        invariant todo <= incoming.Keys
        invariant same && incoming.Keys - todo <= live.Keys
        decreases |todo|
      {
        var subs :| subs in todo;
        if subs !in live {
          same := false;
          break;
        }
        todo := todo - {subs};
      }
    }
  }

  /** The adapter's state: `OPCUASubscriberSet`, the two configuration
      lists the configuration agent exports, and the calls made on
      subscribers, each recorded by the subscriber's identity. `builder`
      says which client option check and map builders a pass runs:
      `AsWritten` is the program as it stands, `Corrected` the one with
      its defects fixed. */
  class Engine {
    const builder: Builder
    var subscribers: seq<Live>
    /** `ConfigAgent.ServerConfigs`: the list the last pass settled on. */
    var serverConfigs: seq<ServerConfig>
    /** `ConfigAgent.ReServerConfigs`: the list a pass loads into. */
    var reServerConfigs: seq<ServerConfig>
    /** The identity the next subscriber object gets. */
    var nextId: nat
    /** The `disconnect()` calls made, in order. */
    var disconnected: seq<nat>
    /** The `connect()` calls made, in order. */
    var connected: seq<nat>

    /** Between passes: subscribers are distinct objects, all already
        allocated, and the reload list is empty. */
    predicate Valid()
      reads this
    {
      && (forall s :: s in subscribers ==> s.id < nextId)
      && Injective(subscribers, IdOf)
      && reServerConfigs == []
    }

    constructor (builder: Builder)
      ensures Valid() && this.builder == builder
      ensures subscribers == [] && serverConfigs == [] && reServerConfigs == []
      ensures disconnected == [] && connected == []
    {
      subscribers := [];
      serverConfigs := [];
      reServerConfigs := [];
      nextId := 0;
      disconnected := [];
      connected := [];
      this.builder := builder;
    }

    /** `updateOPCUASubscriberSetStatus`: splice out, in place, every
        subscriber whose session exists and is closed (`closed` holds
        their identities); the rest keep their order. */
    method RemoveClosed(closed: set<nat>)
      modifies this`subscribers
      ensures subscribers == Filter(old(subscribers), IdOutside(closed))
    {
      ghost var s0 := subscribers;
      ghost var k := 0;
      ghost var kept: seq<Live> := [];
      var index: int := 0;
      while index < |subscribers|
        invariant 0 <= k <= |s0|
        invariant kept == Filter(s0[..k], IdOutside(closed))
        invariant subscribers == kept + s0[k..]
        invariant index == |kept|
        decreases |s0| - k
      {
        SpliceAt(s0, k, IdOutside(closed), kept, subscribers, index);
        if subscribers[index].id in closed {
          SpliceDrop(s0, k, IdOutside(closed), kept, subscribers, index);
          subscribers := subscribers[..index] + subscribers[index + 1..];
          index := index - 1;
        } else {
          SpliceKeep(s0, k, IdOutside(closed), kept, subscribers);
          kept := kept + [s0[k]];
        }
        index := index + 1;
        k := k + 1;
      }
      assert s0[..k] == s0;
    }

    /** The disconnect branch: every subscriber of server `name` gets
        `disconnect()` and is spliced out; the others keep their order. */
    method DisconnectServer(name: string)
      modifies this`subscribers, this`disconnected
      ensures subscribers == Filter(old(subscribers), NameOutside({name}))
      ensures disconnected == old(disconnected) + Ids(Filter(old(subscribers), NameInside({name})))
    {
      ghost var s0 := subscribers;
      ghost var d0 := disconnected;
      ghost var k := 0;
      ghost var kept: seq<Live> := [];
      ghost var gone: seq<Live> := [];
      var index: int := 0;
      while index < |subscribers|
        invariant 0 <= k <= |s0|
        invariant kept == Filter(s0[..k], NameOutside({name}))
        invariant subscribers == kept + s0[k..]
        invariant index == |kept|
        invariant gone == Filter(s0[..k], NameInside({name}))
        invariant disconnected == d0 + Ids(gone)
        decreases |s0| - k
      {
        SpliceAt(s0, k, NameOutside({name}), kept, subscribers, index);
        if subscribers[index].server.name == name {
          SpliceDrop(s0, k, NameOutside({name}), kept, subscribers, index);
          GoneDrop(s0, k, {name}, gone, d0);
          disconnected := disconnected + [subscribers[index].id];
          subscribers := subscribers[..index] + subscribers[index + 1..];
          index := index - 1;
          gone := gone + [s0[k]];
        } else {
          SpliceKeep(s0, k, NameOutside({name}), kept, subscribers);
          GoneKeep(s0, k, {name}, gone);
          kept := kept + [s0[k]];
        }
        index := index + 1;
        k := k + 1;
      }
      assert s0[..k] == s0;
    }

    /** The `find` over the reload list: its callback never returns true,
        so every entry of server `name` is marked connected. */
    method MarkConnected(name: string)
      modifies this`reServerConfigs
      ensures reServerConfigs == Mark(old(reServerConfigs), {name})
    {
      ghost var r0 := reServerConfigs;
      var index := 0;
      while index < |reServerConfigs|
        invariant 0 <= index <= |reServerConfigs| == |r0|
        invariant forall j :: 0 <= j < index ==> reServerConfigs[j] == Mark(r0, {name})[j]
        invariant forall j :: index <= j < |r0| ==> reServerConfigs[j] == r0[j]
      {
        if reServerConfigs[index].server.name == name {
          reServerConfigs := reServerConfigs[index := reServerConfigs[index].(connection := true)];
        }
        index := index + 1;
      }
    }

    /** `connectServer` over the reload list: one new subscriber, connected
        at once, per entry not yet connected, in list order; then every
        entry is marked connected. */
    method ConnectServer()
      modifies this`subscribers, this`reServerConfigs, this`nextId, this`connected
      ensures subscribers == old(subscribers) + Spawn(Filter(old(reServerConfigs), IsPending), old(nextId))
      ensures reServerConfigs == SetConnected(old(reServerConfigs))
      ensures nextId == old(nextId) + |Filter(old(reServerConfigs), IsPending)|
      ensures connected == old(connected) + Ids(Spawn(Filter(old(reServerConfigs), IsPending), old(nextId)))
    {
      ghost var r0, s0, c0, id0 := reServerConfigs, subscribers, connected, nextId;
      ghost var pending: seq<ServerConfig> := [];
      var i := 0;
      while i < |reServerConfigs|
        invariant 0 <= i <= |r0| == |reServerConfigs|
        invariant reServerConfigs == SetConnected(r0[..i]) + r0[i..]
        invariant pending == Filter(r0[..i], IsPending)
        invariant subscribers == s0 + Spawn(pending, id0)
        invariant nextId == id0 + |pending|
        invariant connected == c0 + Ids(Spawn(pending, id0))
      {
        ConnectAt(r0, i, reServerConfigs);
        if !reServerConfigs[i].connection {
          SpawnNew(r0, i, id0, pending, reServerConfigs, s0, c0);
          var subscriber := Live(nextId, reServerConfigs[i].server, reServerConfigs[i].subscriptions);
          subscribers := subscribers + [subscriber];
          connected := connected + [subscriber.id];
          nextId := nextId + 1;
          reServerConfigs := reServerConfigs[i := reServerConfigs[i].(connection := true)];
          pending := pending + [r0[i]];
        } else {
          SpawnSkip(r0, i, pending, reServerConfigs);
        }
        i := i + 1;
      }
      assert r0[..i] == r0;
    }

    /** `clearArray` on the subscriber set: pop until empty. */
    method ClearArray()
      modifies this`subscribers
      ensures subscribers == []
    {
      while |subscribers| > 0
        invariant subscribers == old(subscribers)[..|subscribers|]
      {
        subscribers := subscribers[..|subscribers| - 1];
      }
    }

    /** The teardown branch: every subscriber, in order, gets
        `disconnect()`. */
    method DisconnectAll()
      modifies this`disconnected
      ensures disconnected == old(disconnected) + Ids(subscribers)
    {
      var index := 0;
      while index < |subscribers|
        invariant 0 <= index <= |subscribers|
        invariant disconnected == old(disconnected) + Ids(subscribers[..index])
      {
        IdsAppend(subscribers[..index], [subscribers[index]]);
        assert subscribers[..index + 1] == subscribers[..index] + [subscribers[index]];
        disconnected := disconnected + [subscribers[index].id];
        index := index + 1;
      }
      assert subscribers[..index] == subscribers;
    }

    /** One round of the loop over the live names: test whether server
        `serverName` is unchanged, then either mark its new entries or
        disconnect its subscribers. */
    method VisitLiveServer(liveMap: map<string, Summary>, newMap: map<string, Summary>, serverName: string)
      returns (haveSameSub: bool)
      requires serverName in liveMap
      modifies this`subscribers, this`disconnected, this`reServerConfigs
      ensures haveSameSub == Unchanged(liveMap, newMap, serverName)
      ensures haveSameSub ==>
        && reServerConfigs == Mark(old(reServerConfigs), {serverName})
        && subscribers == old(subscribers) && disconnected == old(disconnected)
      ensures !haveSameSub ==>
        && subscribers == Filter(old(subscribers), NameOutside({serverName}))
        && disconnected == old(disconnected) + Ids(Filter(old(subscribers), NameInside({serverName})))
        && reServerConfigs == old(reServerConfigs)
    {
      haveSameSub := false;
      if serverName in newMap && liveMap[serverName].url == newMap[serverName].url {
        haveSameSub := HaveSameSub(newMap[serverName].subscription, liveMap[serverName].subscription);
      }
      if !haveSameSub {
        DisconnectServer(serverName);
      } else {
        MarkConnected(serverName);
      }
    }

    ghost predicate PassedOver(s1: seq<Live>, d0: seq<nat>, re0: seq<ServerConfig>,
                               stale: set<string>, kept: set<string>, done: set<string>)
      reads this
    {
      PassState(subscribers, disconnected, reServerConfigs, s1, d0, re0, stale, kept, done)
    }

    /** Visiting one more live name keeps the pass's bookkeeping. */
    method VisitNext(liveMap: map<string, Summary>, newMap: map<string, Summary>, serverName: string,
                     ghost s1: seq<Live>, ghost d0: seq<nat>, ghost re0: seq<ServerConfig>,
                     ghost kept: set<string>, ghost done: set<string>)
      requires serverName in liveMap && serverName !in done
      requires kept <= liveMap.Keys
      requires forall n :: n in liveMap ==> (n in kept <==> Unchanged(liveMap, newMap, n))
      requires PassedOver(s1, d0, re0, liveMap.Keys - kept, kept, done)
      modifies this`subscribers, this`disconnected, this`reServerConfigs
      ensures PassedOver(s1, d0, re0, liveMap.Keys - kept, kept, done + {serverName})
    {
      ghost var stale := liveMap.Keys - kept;
      if serverName in stale {
        DisconnectStep(s1, done, stale, kept, serverName);
      } else {
        KeepStep(re0, done, stale, kept, serverName);
      }
      var haveSameSub := VisitLiveServer(liveMap, newMap, serverName);
    }

    /** The disconnect pass of a non-empty reload, over the live names in
        any order: the servers that are not unchanged (`kept`) are torn
        down, the unchanged ones have their new entries marked connected. */
    method DisconnectStale(liveMap: map<string, Summary>, newMap: map<string, Summary>, ghost kept: set<string>)
      requires kept <= liveMap.Keys
      requires forall n :: n in liveMap ==> (n in kept <==> Unchanged(liveMap, newMap, n))
      modifies this`subscribers, this`disconnected, this`reServerConfigs
      ensures subscribers == Filter(old(subscribers), NameOutside(liveMap.Keys - kept))
      ensures multiset(disconnected) == multiset(old(disconnected))
        + multiset(Ids(Filter(old(subscribers), NameInside(liveMap.Keys - kept))))
      ensures reServerConfigs == Mark(old(reServerConfigs), kept)
    {
      ghost var s1, d0, re0 := subscribers, disconnected, reServerConfigs;
      ghost var stale := liveMap.Keys - kept;
      var todo := liveMap.Keys;
      ghost var done: set<string> := {};
      PassStart(s1, d0, re0, stale, kept);
      while todo != {}
        invariant todo + done == liveMap.Keys && todo !! done
        invariant PassedOver(s1, d0, re0, stale, kept, done)
        decreases |todo|
      {
        var serverName :| serverName in todo;
        VisitNext(liveMap, newMap, serverName, s1, d0, re0, kept, done);
        todo := todo - {serverName};
        done := done + {serverName};
      }
      PassEnd(subscribers, disconnected, reServerConfigs, s1, d0, re0, stale, kept, done);
    }

    /** The branch for a non-empty reload: disconnect stale servers,
        mark unchanged ones, connect the rest, and make the reload list the
        current one. */
    method ApplyReload()
      requires reServerConfigs != [] && AllPending(reServerConfigs)
      requires forall s :: s in subscribers ==> s.id < nextId
      requires Injective(subscribers, IdOf)
      modifies this`subscribers, this`disconnected, this`reServerConfigs, this`serverConfigs,
        this`nextId, this`connected
      ensures subscribers == Reconciled(builder, old(subscribers), old(reServerConfigs), old(nextId))
      ensures serverConfigs == SetConnected(Mark(old(reServerConfigs), KeptNames(builder, old(subscribers), old(reServerConfigs))))
      ensures reServerConfigs == []
      ensures multiset(disconnected) == multiset(old(disconnected))
        + multiset(Ids(Filter(old(subscribers), NameInside(StaleNames(builder, old(subscribers), old(reServerConfigs))))))
      ensures connected == old(connected) + Ids(Created(builder, old(subscribers), old(reServerConfigs), old(nextId)))
      ensures nextId == old(nextId) + |Created(builder, old(subscribers), old(reServerConfigs), old(nextId))|
      ensures forall s :: s in subscribers ==> s.id < nextId
      ensures Injective(subscribers, IdOf)
    {
      ghost var s1, re0 := subscribers, reServerConfigs;
      var reConfigServerMap := ServerMapBy(builder, reServerConfigs);
      var subscriberSetMap := LiveMapBy(builder, subscribers);
      StaleIsRest(builder, s1, re0);
      DisconnectStale(subscriberSetMap, reConfigServerMap, KeptNames(builder, s1, re0));
      PendingAfterMark(re0, KeptNames(builder, s1, re0));
      ConnectServer();
      ReconciledFreshIds(builder, s1, re0, old(nextId));
      serverConfigs := reServerConfigs;
      reServerConfigs := [];
    }

    /** The branch for an empty reload: disconnect every subscriber, then
        clear the set. */
    method TearDown()
      modifies this`subscribers, this`disconnected
      ensures subscribers == []
      ensures disconnected == old(disconnected) + Ids(old(subscribers))
    {
      DisconnectAll();
      ClearArray();
    }

    /** The first half of `updateConfig`: drop closed subscribers and let
        the configuration agent load the file's entries into the (empty)
        reload list. */
    method Reload(agent: Agent, closed: set<nat>, clientList: seq<ClientEntry>,
                  certList: seq<CertEntry>, serverList: seq<EndpointEntry>, fileMtime: Stamp)
      returns (clientErr: Option<ConfigError>, certErr: Option<ConfigError>)
      requires Valid()
      modifies this`subscribers, this`reServerConfigs, agent`clientOptions, agent`certPath, agent`lastModified
      ensures subscribers == Filter(old(subscribers), IdOutside(closed))
      ensures reServerConfigs == AcceptedConfigs(serverList) && AllPending(reServerConfigs)
      ensures forall s :: s in subscribers ==> s.id < nextId
      ensures Injective(subscribers, IdOf)
      ensures (agent.clientOptions, clientErr) == ApplyClientEntries(builder, old(agent.clientOptions), clientList, 0)
      ensures certErr.None? <==> certList != [] && !IsEmptyOrWhitespace(certList[0].CertPath)
      ensures agent.certPath == if certErr.None? then certList[0].CertPath else old(agent.certPath)
      ensures agent.lastModified == if |AcceptedConfigs(serverList)| > 0 then fileMtime else old(agent.lastModified)
    {
      RemoveClosed(closed);
      assert forall s :: s in subscribers ==> s.id < nextId by {
        FilterMembership(old(subscribers), IdOutside(closed));
      }
      FilterInjective(old(subscribers), IdOutside(closed), IdOf);
      var pushed;
      pushed, clientErr, certErr := agent.ConfigInit(builder, reServerConfigs, clientList, certList, serverList, fileMtime);
      reServerConfigs := pushed;
      LoadedConfigsWellFormed(serverList);
    }

    /** The callback the configuration agent runs once the reload list is
        loaded: reconcile against it or, when it is empty, tear down. */
    method ConfigLoaded()
      requires AllPending(reServerConfigs)
      requires forall s :: s in subscribers ==> s.id < nextId
      requires Injective(subscribers, IdOf)
      modifies this`subscribers, this`disconnected, this`reServerConfigs, this`serverConfigs,
        this`nextId, this`connected
      ensures Valid()
      ensures PassOutcome(builder, old(subscribers), old(reServerConfigs), old(nextId),
                          old(disconnected), old(connected), old(serverConfigs),
                          subscribers, nextId, disconnected, connected, serverConfigs)
    {
      if |reServerConfigs| > 0 {
        ApplyReload();
      } else {
        TearDown();
      }
    }

    /** `updateConfig`: drop closed subscribers, reload the configuration
        into `ReServerConfigs`, and then either reconcile against it or,
        when it is empty, tear everything down. */
    method UpdateConfig(agent: Agent, closed: set<nat>, clientList: seq<ClientEntry>,
                        certList: seq<CertEntry>, serverList: seq<EndpointEntry>, fileMtime: Stamp)
      returns (clientErr: Option<ConfigError>, certErr: Option<ConfigError>)
      requires Valid()
      modifies this, agent`clientOptions, agent`certPath, agent`lastModified
      ensures Valid()
      ensures agent.timeout == old(agent.timeout)
      ensures (agent.clientOptions, clientErr) == ApplyClientEntries(builder, old(agent.clientOptions), clientList, 0)
      ensures certErr.None? <==> certList != [] && !IsEmptyOrWhitespace(certList[0].CertPath)
      ensures agent.certPath == if certErr.None? then certList[0].CertPath else old(agent.certPath)
      ensures agent.lastModified == if |AcceptedConfigs(serverList)| > 0 then fileMtime else old(agent.lastModified)
      ensures PassOutcome(builder, Filter(old(subscribers), IdOutside(closed)), AcceptedConfigs(serverList), old(nextId),
                          old(disconnected), old(connected), old(serverConfigs),
                          subscribers, nextId, disconnected, connected, serverConfigs)
    {
      clientErr, certErr := Reload(agent, closed, clientList, certList, serverList, fileMtime);
      ConfigLoaded();
    }
  }

  /** One tick of `checkFileLoop` with `updateConfig` as its callback:
      when the configuration file's modification time `mtime` changed, run
      the whole pass with the file contents given; the next timeout is
      chosen from the options in force before the pass. The server loader
      stats the file again, and `loadMtime` is what that second stat
      returns. */
  method PollOnce(agent: Agent, engine: Engine, mtime: Stamp, loadMtime: Stamp, closed: set<nat>,
                  clientList: seq<ClientEntry>, certList: seq<CertEntry>, serverList: seq<EndpointEntry>)
    returns (invoked: bool)
    requires engine.Valid()
    modifies agent, engine
    ensures engine.Valid()
    ensures invoked == !DatesEqual(mtime, old(agent.lastModified))
    ensures agent.timeout
      == PollTick(old(agent.lastModified), old(agent.timeout), old(agent.clientOptions).checkServerConfigInterval, mtime).timeout
    ensures invoked ==>
      && agent.lastModified == (if |AcceptedConfigs(serverList)| > 0 then loadMtime else mtime)
      && agent.clientOptions == ApplyClientEntries(engine.builder, old(agent.clientOptions), clientList, 0).0
      && agent.certPath == (if certList != [] && !IsEmptyOrWhitespace(certList[0].CertPath)
                            then certList[0].CertPath else old(agent.certPath))
      && PassOutcome(engine.builder, Filter(old(engine.subscribers), IdOutside(closed)), AcceptedConfigs(serverList),
                     old(engine.nextId), old(engine.disconnected), old(engine.connected), old(engine.serverConfigs),
                     engine.subscribers, engine.nextId, engine.disconnected, engine.connected, engine.serverConfigs)
    ensures !invoked ==>
      && unchanged(engine)
      && agent.lastModified == old(agent.lastModified)
      && agent.clientOptions == old(agent.clientOptions) && agent.certPath == old(agent.certPath)
  {
    invoked := agent.Tick(mtime);
    if invoked {
      var clientErr, certErr := engine.UpdateConfig(agent, closed, clientList, certList, serverList, loadMtime);
    }
  }
}
