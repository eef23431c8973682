# OPC-UA adapter: reconciliation, configuration agent and subscriber lifecycle

This project models the core of the Greengrass OPC-UA adapter in Dafny and proves properties of the model. The adapter has three parts:

- **Reconciliation engine** (`index.js`). It keeps one subscriber object per configured OPC-UA server in `OPCUASubscriberSet`. On every change of `published_nodes.json` it does the following, in order:
  - drops subscribers whose session has closed;
  - reloads the configuration into `ReServerConfigs`;
  - compares each live server with the new one by name, URL and subscription keys;
  - disconnects and splices out the subscribers of servers that changed or vanished;
  - marks the entries of unchanged servers as connected;
  - creates one subscriber for each entry left unmarked.

  When the reloaded list is empty it disconnects and clears everything.
- **Configuration agent** (`config_agent.js`):
  - validates and transforms the entries of the three configuration files;
  - runs the change-detection poll on the node file's modification time;
  - checks a server certificate against the trust directory.
- **Subscriber** (`subscriber.js`, `OPCUASubscriber`). It runs one server's event chain: connect, create session (with the trust check), create subscription, monitor nodes. Each changed value yields one publish, on a topic built from sanitised names.

Modules and files:

- `values.dfy` (`JsValues`): the JavaScript values the configuration carries, with truthiness, `Number.isInteger`, `=== 0` and white space as `trim` sees it.
- `seqs.dfy` (`Seqs`): an order-preserving `Filter` and the key set (`Image`) of a sequence, with the lemmas the engine's loops use.
- `config_agent.dfy` (`ConfigAgent`): the configuration records, the loaders' decisions as functions, lemmas about them, and a class `Agent` holding the agent's module variables:
  - `LastModifiedtime`;
  - `timeout`;
  - `clientOptions`;
  - `certConfig.CertPath`.
- `reconcile.dfy` (`Reconcile`): the pure part of `updateConfig`:
  - the two `reduce`s that build the server maps;
  - the unchanged/stale decision;
  - the reference functions `Survivors`, `Created` and `Reconciled`, with the theorems about them.
- `index.dfy` (`Adapter`): a class `Engine` holding `OPCUASubscriberSet`, `ServerConfigs` and `ReServerConfigs`. Its methods mirror the source's loops:
  - the in-place `splice`/`index -= 1` loops;
  - the `find` that marks entries;
  - `connectServer`;
  - `clearArray`;
  - each branch of the `configInit` callback.

  Each method is proved against the reference functions. An `Engine` is built with a `Builder`, which picks the client option check and the map builders a pass runs. `AsWritten` is the program as it stands, including every behaviour listed under "## Findings". `Corrected` has all of them fixed. Every theorem about the pass holds for both builders, except that `ReconciledMatchesConfig` holds only for `Corrected`.
- `subscriber.dfy` (`Subscriber`): the topic sanitiser and payload, the identity and trust decisions, and a class `OPCUASubscriber`. It has one method per library callback. Each method records the library requests and the emitted events in a `trace`.

A subscriber is seen by the engine as a record with:

- an object identity;
- the `server` configuration it was built with;
- its node list.

The engine logs its `connect()` and `disconnect()` calls as sequences of identities.

## Model

| member | source | states |
|---|---|---|
| ConfigAgent.LoadedConfigsWellFormed | greengrass-opcua-adapter-nodejs/config_agent.js:133-178 | Every loaded configuration has a non-blank name and URL, at least one node and `connection` false. No more configurations are loaded than entries given, and all of them load exactly when every entry passes the filter. |
| ConfigAgent.AcceptedEntryPosition | greengrass-opcua-adapter-nodejs/config_agent.js:148-178 | An accepted entry lands at the position counting the accepted entries before it. It has its name and URL copied, its nodes in the same order, `certExist` 1 when absent or null and otherwise the given value, its `userIdentity` copied, and `connection` false. |
| ConfigAgent.IsEmptyOrWhitespace | greengrass-opcua-adapter-nodejs/config_agent.js:55-57 | Defines `isEmptyOrWhitespace` on an optional string: missing, or every character one that `trim` removes. `LoadedConfigsWellFormed` and `Agent.LoadCertConfig` state its consequences. |
| ConfigAgent.AcceptedConfigs | greengrass-opcua-adapter-nodejs/config_agent.js:133-180 | Defines the list one load appends: the accepted entries, transformed, in order. `LoadedConfigsWellFormed`, `AcceptedEntryPosition`, `SkippedEntryAddsNothing` and `AcceptedConfigsPrefix` state its properties. |
| ConfigAgent.SkippedEntryAddsNothing | greengrass-opcua-adapter-nodejs/config_agent.js:133-147 | An entry with a blank name, a blank URL or no nodes adds nothing to the loaded list. |
| ConfigAgent.AcceptedConfigsPrefix | greengrass-opcua-adapter-nodejs/config_agent.js:133-180 | Loading is in input order: what a prefix of the file loads is a prefix of what the whole file loads. |
| ConfigAgent.Agent.LoadServerConfigs | greengrass-opcua-adapter-nodejs/config_agent.js:126-182 | The caller's list is extended by exactly the accepted entries, transformed, in order. The file time is recorded iff at least one entry was appended. |
| ConfigAgent.ClientConfigOutcome | greengrass-opcua-adapter-nodejs/config_agent.js:76-102 | For either builder, loading client entries fails iff some entry fails a check: a `keepSessionAlive` that is not a non-blank string (corrected: nor a boolean), or a non-integer `maxRetry`, `initialDelay`, `maxDelay` or `checkServerConfigInterval`. It then reports the first such entry and field, in check order. The options left in force are those of the last entry that passed before it, or the previous options if none did. On success they are those of the last entry. |
| ConfigAgent.ApplyClientEntries | greengrass-opcua-adapter-nodejs/config_agent.js:76-109 | Defines the client loop: each passing entry overwrites the options, and the first failing entry stops it with that entry's index and field. `ClientConfigOutcome` states what it computes. |
| ConfigAgent.BooleanKeepAliveRejected | greengrass-opcua-adapter-nodejs/config_agent.js:55-57 | As written, a boolean `keepSessionAlive` in the first entry always fails the check at config_agent.js:78: `false` is empty, and `true` has no `trim`. The options are then left as they were. |
| ConfigAgent.CorrectedAcceptsBooleanKeepAlive | greengrass-opcua-adapter-nodejs/config_agent.js:76-102 | Corrected, a client file whose entries hold boolean `keepSessionAlive` values and integer numbers loads without error, and the options become those of its last entry. |
| ConfigAgent.Agent.LoadClientConfig | greengrass-opcua-adapter-nodejs/config_agent.js:72-110 | The entry loop leaves the options and error that `ApplyClientEntries` specifies for the builder given. |
| ConfigAgent.Agent.LoadCertConfig | greengrass-opcua-adapter-nodejs/config_agent.js:112-124 | Fails when there is no first entry or its `CertPath` is missing or blank, and leaves the path unchanged. Otherwise it stores the first entry's path. |
| ConfigAgent.Agent.ConfigInit | greengrass-opcua-adapter-nodejs/config_agent.js:71-183 | The three loads are independent. It states the client options and error, the certificate path (set iff the certificate file is valid), the appended server configurations and the recorded file time. |
| ConfigAgent.DatesEqual | greengrass-opcua-adapter-nodejs/config_agent.js:185-187 | Defines `datesEqual` as "neither compares later than the other". `DatesEqualIsEquality` states that this is equality of the compared numbers. |
| ConfigAgent.DatesEqualIsEquality | greengrass-opcua-adapter-nodejs/config_agent.js:185-187 | `datesEqual` holds iff the compared numbers are equal. It is therefore reflexive and symmetric, and on two dates it is equality. |
| ConfigAgent.EpochEqualsUnset | greengrass-opcua-adapter-nodejs/config_agent.js:33 | The initial recorded time `""` compares equal to a date at the epoch and to no other date. |
| ConfigAgent.PollTickDecision | greengrass-opcua-adapter-nodejs/config_agent.js:232-239 | A tick invokes the callback iff the observed time differs from the recorded one, and then records the observed time. Otherwise the recorded time stays. The next timeout is the interval when that is positive, else the previous one. |
| ConfigAgent.SecondTickQuiet | greengrass-opcua-adapter-nodejs/config_agent.js:232-235 | A second tick with the same modification time does not invoke the callback and changes nothing. |
| ConfigAgent.PollTick | greengrass-opcua-adapter-nodejs/config_agent.js:232-239 | Defines one tick's decision: call or not, the recorded time, the next timeout. `PollTickDecision` and `SecondTickQuiet` state its properties. |
| ConfigAgent.Agent.Tick | greengrass-opcua-adapter-nodejs/config_agent.js:221-242 | One tick of `checkFileLoop` returns and stores exactly the decision `PollTick` specifies. |
| ConfigAgent.CompareWithTrustCert | greengrass-opcua-adapter-nodejs/config_agent.js:207-219 | True iff some trust file's bytes equal the certificate, so the length pre-check changes nothing. False for an empty directory. |
| ConfigAgent.Agent.constructor | greengrass-opcua-adapter-nodejs/config_agent.js:33-53 | The agent starts with no recorded time, timeout 0, the default client options and no certificate path. |
| Reconcile.SubscriptionMapLastWins | greengrass-opcua-adapter-nodejs/index.js:69-72 | A key maps to the value of the last node with that key, as the reduce's repeated `map[key] = value` leaves it. |
| Reconcile.SubscriptionMap | greengrass-opcua-adapter-nodejs/index.js:68-71 | The inner `reduce` is keyed by exactly the keys of the nodes. `SubscriptionMapLastWins` gives the values. |
| Reconcile.Collect | greengrass-opcua-adapter-nodejs/index.js:66-78 | The corrected outer `reduce` is keyed by exactly the server names of the list. |
| Reconcile.CollectLastWins | greengrass-opcua-adapter-nodejs/index.js:66-78 | A name maps to the URL and subscriptions of the last entry with that name. |
| Reconcile.MapKeys | greengrass-opcua-adapter-nodejs/index.js:66-95 | Both maps, as written or corrected, are keyed by exactly the server names of their lists. |
| Reconcile.LiveMapAt | greengrass-opcua-adapter-nodejs/index.js:82-95 | With distinct names, a live subscriber's map entry holds its own URL and the keys of its nodes. |
| Reconcile.ServerMapAt | greengrass-opcua-adapter-nodejs/index.js:66-78 | With distinct names, a configuration's map entry holds its own URL and the keys of its nodes. |
| Reconcile.FoldAsWritten | greengrass-opcua-adapter-nodejs/index.js:68-77 | The as-written outer reduce, as a heap of objects. Each name refers to a stored object and is keyed by exactly the names of the entries. The object reused is the one under "undefined" when there is one. |
| Reconcile.CollectAsWritten | greengrass-opcua-adapter-nodejs/index.js:66-78 | The map the as-written reduce returns is keyed by exactly the names of the entries. |
| Reconcile.LiveMapAsWritten | greengrass-opcua-adapter-nodejs/index.js:82-95 | Defines `convertOPCUASubscriberSetToMap` as written: node key `obj.id`, value `obj.displayName`, and the reduce that starts each server from `result[current.id_0]`. `MapKeys`, `LiveMapAsWrittenAliases` and `AsWrittenMissesNodeChange` state its properties. |
| Reconcile.ServerMapAsWritten | greengrass-opcua-adapter-nodejs/index.js:66-78 | Defines `convertSerConfigToMap` as written, in the same way. `MapKeys`, `ServerMapAsWrittenAliases` and `AsWrittenMissesNodeChange` state its properties. |
| Reconcile.LiveMap | greengrass-opcua-adapter-nodejs/index.js:82-95 | Defines `convertOPCUASubscriberSetToMap` with a key made of the node's `Id` and `DisplayName` together, and a last-wins reduce. `MapKeys` and `LiveMapAt` state its properties. |
| Reconcile.ServerMap | greengrass-opcua-adapter-nodejs/index.js:66-78 | Defines `convertSerConfigToMap` with the same corrections. `MapKeys` and `ServerMapAt` state its properties. |
| Reconcile.CollectAsWrittenAgrees | greengrass-opcua-adapter-nodejs/index.js:73 | As long as no server is named "undefined", the as-written reduce, which falls back to the object under `result[current.id_0]`, builds the same map as the corrected one. |
| Reconcile.AsWrittenAliasesUndefined | greengrass-opcua-adapter-nodejs/index.js:73 | With entries named "undefined" and then "B", the as-written reduce gives both names B's summary. The corrected reduce keeps each name's own summary. |
| Reconcile.LiveMapAsWrittenAliases | greengrass-opcua-adapter-nodejs/index.js:90 | The same aliasing in the live map: a subscriber named "undefined" shows the next subscriber's URL and nodes. |
| Reconcile.ServerMapAsWrittenAliases | greengrass-opcua-adapter-nodejs/index.js:73 | The same aliasing in the configuration map. |
| Reconcile.CorrectedSeesUrlChange | greengrass-opcua-adapter-nodejs/index.js:121-122 | With the corrected maps, a changed URL of the server named "undefined" makes it stale. |
| Reconcile.AsWrittenMissesUrlChange | greengrass-opcua-adapter-nodejs/index.js:119-135 | As written, that URL change is judged unchanged. Corrected, it is stale. |
| Reconcile.SameSubscriptionsIsEquality | greengrass-opcua-adapter-nodejs/index.js:124-135 | Equal key counts plus "every new key is live" is exactly key-set equality. |
| Reconcile.AsWrittenKeysIgnoreNodes | greengrass-opcua-adapter-nodejs/index.js:70 | As written (`obj.id` on records that carry `Id`), every non-empty node list has the single key "undefined". Any two non-empty node lists therefore compare as the same subscriptions. |
| Reconcile.SubscriptionKeysAreNodes | greengrass-opcua-adapter-nodejs/index.js:119-135 | With the corrected key, two node lists compare as the same subscriptions iff they hold the same set of nodes (`Id` and `DisplayName`). Node order and repetition do not matter. |
| Reconcile.NodeKeySets | greengrass-opcua-adapter-nodejs/index.js:68-71 | The corrected key sets of two node lists are equal iff the lists hold the same nodes, because the key (the escaped `Id`, a bar, the `DisplayName`) determines the node. |
| Reconcile.AsWrittenMissesNodeChange | greengrass-opcua-adapter-nodejs/index.js:86 | A server keeps its name and URL while its only node is replaced by any different node. As written it is judged unchanged, so it is not re-subscribed. Corrected, it is stale, whether the `Id` or only the `DisplayName` changed. |
| Reconcile.Unchanged | greengrass-opcua-adapter-nodejs/index.js:119-136 | Defines when a live server is left alone: its name is in the new map with the same URL, and the `haveSameSub` test passes. `Adapter.HaveSameSub` and `Adapter.Engine.VisitLiveServer` are proved against it. |
| Reconcile.StaleKeptPartition | greengrass-opcua-adapter-nodejs/index.js:117-157 | For either builder, every live name is either stale or kept, never both. Kept names are names of the new list. |
| Reconcile.PendingAfterMark | greengrass-opcua-adapter-nodejs/index.js:148-159 | On freshly loaded entries, the ones still unconnected after marking are exactly those whose server was not kept. |
| Reconcile.ReconciledParts | greengrass-opcua-adapter-nodejs/index.js:117-159 | For either builder, the surviving subscribers are those of the kept names. The created ones are one per new entry whose name was not kept, in list order. |
| Reconcile.ReconciledNames | greengrass-opcua-adapter-nodejs/index.js:113-163 | For either builder, after a non-empty pass the names served are exactly the names configured. |
| Reconcile.ReconciledOnePerName | greengrass-opcua-adapter-nodejs/index.js:148-159 | For either builder, with distinct live names and distinct new names, a pass leaves at most one subscriber per server. Unchanged servers are therefore not connected twice. |
| Reconcile.ReconciledKeepsUnchanged | greengrass-opcua-adapter-nodejs/index.js:148-159 | For either builder: subscribers of unchanged servers stay, survivors are old subscribers, no new subscriber is created for a kept server, and new subscribers get consecutive identities. |
| Reconcile.ReconciledMatchesConfig | greengrass-opcua-adapter-nodejs/index.js:117-159 | With the corrected builder and distinct names, every subscriber after the pass serves its server's configured URL and exactly its configured nodes, `Id` and `DisplayName` alike. `AsWrittenPassKeepsOldNode` shows that this fails as written. |
| Reconcile.ReconciledFreshIds | greengrass-opcua-adapter-nodejs/index.js:52-64 | For either builder, subscriber identities stay distinct and below the next free identity. |
| Reconcile.AsWrittenPassKeepsOldNode | greengrass-opcua-adapter-nodejs/index.js:70 | The whole pass on the node-change case, for any server and any two different nodes. As written, the subscriber stays on its old node and nothing is created. Corrected, the server is stale and a new subscriber serves the new node. |
| Reconcile.CorrectedSeesRename | greengrass-opcua-adapter-nodejs/index.js:70 | Concrete case: node "ns=1;i=1" renamed from "t1" to "t2". As written, subscriber 0 stays and goes on publishing under "t1". Corrected, it is replaced by subscriber 1 for the renamed node. |
| Reconcile.Reconciled | greengrass-opcua-adapter-nodejs/index.js:117-159 | Defines the subscriber set after a non-empty pass with either builder: the survivors of the disconnect loop, then one new subscriber per entry left unmarked. The `Reconciled*` lemmas state its properties. |
| Reconcile.PassOutcome | greengrass-opcua-adapter-nodejs/index.js:114-175 | Defines the engine state the `configInit` callback leaves, for either branch. `Adapter.Engine.ConfigLoaded` and `Adapter.Engine.UpdateConfig` are proved to reach it. |
| Adapter.Engine.constructor | greengrass-opcua-adapter-nodejs/index.js:35 | The engine starts with no subscribers, empty configuration lists and empty call logs, with the builder given. |
| Adapter.HaveSameSub | greengrass-opcua-adapter-nodejs/index.js:119-135 | The count check plus the key loop with early `break` returns true iff the two key sets are equal. |
| Adapter.Engine.RemoveClosed | greengrass-opcua-adapter-nodejs/index.js:97-109 | The in-place splice loop removes exactly the subscribers whose session is closed. The rest keep their order. |
| Adapter.Engine.DisconnectServer | greengrass-opcua-adapter-nodejs/index.js:137-147 | The in-place splice loop removes exactly the subscribers of the named server and keeps the rest in order. Each removed subscriber gets `disconnect()`, in set order. |
| Adapter.Engine.MarkConnected | greengrass-opcua-adapter-nodejs/index.js:148-156 | The `find` visits every entry, because its callback never returns true. Every entry of the named server ends connected, the others are untouched. |
| Adapter.Engine.ConnectServer | greengrass-opcua-adapter-nodejs/index.js:52-64 | Appends one subscriber per entry whose flag was false, in list order, with consecutive identities, and calls `connect()` on each. Afterwards every entry is connected. |
| Adapter.Engine.ClearArray | greengrass-opcua-adapter-nodejs/index.js:46-50 | Popping until empty leaves the set empty. |
| Adapter.Engine.DisconnectAll | greengrass-opcua-adapter-nodejs/index.js:168-171 | Every subscriber gets `disconnect()`, in order. |
| Adapter.Engine.VisitLiveServer | greengrass-opcua-adapter-nodejs/index.js:118-157 | One round over a live name. The computed flag is exactly `Unchanged`. An unchanged server has its new entries marked, anything else has its subscribers disconnected and removed. |
| Adapter.Engine.DisconnectStale | greengrass-opcua-adapter-nodejs/index.js:117-157 | The loop over live names, in any order, removes the subscribers of exactly the stale names and keeps the rest in order. It disconnects each removed subscriber once, and marks the entries of exactly the kept names. |
| Adapter.Engine.ApplyReload | greengrass-opcua-adapter-nodejs/index.js:114-163 | A non-empty pass builds both maps with the engine's builder, and leaves the subscribers `Reconciled` for that builder. The new current list is the reload list, marked and then fully connected, and the reload list is empty. It states the calls made, and keeps identities distinct and fresh. |
| Adapter.Engine.TearDown | greengrass-opcua-adapter-nodejs/index.js:165-174 | An empty reload disconnects every subscriber and leaves the set empty. |
| Adapter.Engine.Reload | greengrass-opcua-adapter-nodejs/index.js:111-114 | Closed subscribers are dropped, and the reload list becomes exactly the accepted entries of the node file, all unconnected. |
| Adapter.Engine.ConfigLoaded | greengrass-opcua-adapter-nodejs/index.js:114-175 | The `configInit` callback either reconciles or tears down, reaching `PassOutcome` for the engine's builder, including the next identity. It restores the engine invariant. |
| Adapter.Engine.UpdateConfig | greengrass-opcua-adapter-nodejs/index.js:111-176 | The whole pass: the agent's new options, certificate path and recorded time, its timeout unchanged, and `PassOutcome` for the engine's builder. That outcome is computed from the subscribers left after dropping closed ones and from the accepted entries of the file. |
| Adapter.PollOnce | greengrass-opcua-adapter-nodejs/config_agent.js:221-242 | The pass runs iff the file time changed. The next timeout follows the interval in force before the pass. With a change, the recorded time becomes what the server loader's own stat returns when it accepts an entry, and the tick's time otherwise; the agent takes its new options and path, and the engine reaches `PassOutcome`. Without one, the engine and the recorded time, options and path all stay. |
| Subscriber.Sanitize | greengrass-opcua-adapter-nodejs/subscriber.js:183-184 | Defines the global `replace` of `#`, `?` and `+` with nothing as dropping each reserved character. The `Sanitize*` lemmas state its properties. |
| Subscriber.SanitizeClean | greengrass-opcua-adapter-nodejs/subscriber.js:183-184 | A sanitised name contains no `#`, `?` or `+`. |
| Subscriber.SanitizeCounts | greengrass-opcua-adapter-nodejs/subscriber.js:183-184 | Every occurrence of every other character is kept, and no reserved character is. |
| Subscriber.SanitizeConcat | greengrass-opcua-adapter-nodejs/subscriber.js:183-184 | Sanitising distributes over concatenation, so the kept characters stay in order. |
| Subscriber.SanitizeFixesClean | greengrass-opcua-adapter-nodejs/subscriber.js:183-184 | A name without reserved characters is left unchanged. |
| Subscriber.SanitizeIdempotent | greengrass-opcua-adapter-nodejs/subscriber.js:183-184 | Sanitising twice equals sanitising once. |
| Subscriber.Topic | greengrass-opcua-adapter-nodejs/subscriber.js:183-185 | Defines the topic template over the sanitised names. `TopicWellFormed` states its properties. |
| Subscriber.TopicWellFormed | greengrass-opcua-adapter-nodejs/subscriber.js:185 | A topic has no reserved character. For clean names it is `opcua/<server>/node/<node>`. |
| Subscriber.SessionIdentity | greengrass-opcua-adapter-nodejs/subscriber.js:81-93 | The configured identity is passed iff it exists and both user name and password are truthy. Otherwise no identity is passed. |
| Subscriber.SessionAccepted | greengrass-opcua-adapter-nodejs/subscriber.js:102-114 | Defines when a created session is used: `certExist === 0`, or the certificate is in the trust store. `TrustBranch` and `OPCUASubscriber.OnSessionCreated` state its consequences. |
| Subscriber.TrustBranch | greengrass-opcua-adapter-nodejs/subscriber.js:103-114 | With `certExist === 0` the trust store plays no part. Otherwise a store without the certificate, empty or not, rejects the session. |
| Subscriber.MonitorPlan | greengrass-opcua-adapter-nodejs/subscriber.js:155-160 | One monitored item per configured node, in order, each watching the node's `Id`. |
| Subscriber.OPCUASubscriber.constructor | greengrass-opcua-adapter-nodejs/subscriber.js:30-53 | A new subscriber keeps its server and node configuration, starts disconnected, and has no session, no subscription and an empty trace. |
| Subscriber.OPCUASubscriber.Connect | greengrass-opcua-adapter-nodejs/subscriber.js:55-57 | Asks the library to connect to the server URL. |
| Subscriber.OPCUASubscriber.OnConnectResult | greengrass-opcua-adapter-nodejs/subscriber.js:57-63 | A connect error emits nothing. Success emits `connect` and asks for a session with the selected identity. |
| Subscriber.OPCUASubscriber.OnConnectionReestablished | greengrass-opcua-adapter-nodejs/subscriber.js:49-52 | The reconnection hook emits `connect`, so the chain restarts at session creation. |
| Subscriber.OPCUASubscriber.CreateSession | greengrass-opcua-adapter-nodejs/subscriber.js:80-95 | Asks for a session with the identity `SessionIdentity` selects. |
| Subscriber.OPCUASubscriber.OnSessionCreated | greengrass-opcua-adapter-nodejs/subscriber.js:95-128 | A created session is stored. If it is accepted (certExist 0, or trusted), `session_create` is emitted and a subscription is created. A failed creation or an untrusted certificate issues a disconnect and emits nothing. |
| Subscriber.OPCUASubscriber.CreateSubscription | greengrass-opcua-adapter-nodejs/subscriber.js:131-142 | A new subscription on the current session, with nothing monitored yet. |
| Subscriber.OPCUASubscriber.OnSubscriptionStarted | greengrass-opcua-adapter-nodejs/subscriber.js:143-146 | `started` emits `subscribe`, which monitors the nodes. |
| Subscriber.OPCUASubscriber.MonitorNodes | greengrass-opcua-adapter-nodejs/subscriber.js:153-168 | The loop monitors exactly `MonitorPlan` of the configured nodes, requesting one item per node in order. |
| Subscriber.OPCUASubscriber.OnChanged | greengrass-opcua-adapter-nodejs/subscriber.js:172-196 | A change yields exactly one publish, on `Topic(server name, node display name)`, with the item's node id, the display name, the source timestamp and the value. |
| Subscriber.OPCUASubscriber.Disconnect | greengrass-opcua-adapter-nodejs/subscriber.js:66-69 | Asks the library to disconnect. |
| Subscriber.OPCUASubscriber.OnDisconnectResult | greengrass-opcua-adapter-nodejs/subscriber.js:69-76 | Success emits `disconnect`. An error emits nothing. |

## Left out

- File and directory access (`jsonFile.readFile`, `fs.statSync`, `readdirSync`, `readFileSync`). The parsed file contents, the node file's modification time as each of its two stats returns it (the tick's and the server loader's, config_agent.js:226 and 130) and the trust directory's file contents (a sequence of byte sequences) are parameters.
- A failed file read (`throw err`, config_agent.js:73, 113, 127) is not modelled: each loader takes the parsed contents.
- The checks the loaders make are modelled. A failing check returns a `ConfigError` value where the source throws. The process crash that an uncaught throw in an asynchronous callback causes is not modelled, and neither is the difference between the source's `Error` and `TypeError` throws.
- An absent `connectionStrategy` object (config_agent.js:82) is modelled as its three fields being `Undefined`. The entry then fails at `maxRetry`, where the source throws a TypeError.
- An absent `OpcNodes` array (config_agent.js:144). `.length` on it throws inside the `forEach`, so the callback never runs. `OpcNodes` is always a sequence in the model.
- An absent `DisplayName` on a monitored node (subscriber.js:184). `.replace` on it throws in the `changed` handler. `DisplayName` is always a string in the model.
- A session without a server certificate (config_agent.js:212). `serverCert.length` throws there. `serverCertificate` is always a byte sequence in the model.
- `reportSystemStatus` only writes the current second to a file.
- Timer mechanics of `checkFileLoop` (`setInterval`, `clearInterval`, re-arming) and real asynchrony. The model has one tick as a step, and each library callback as a method called with its outcome.
- The three `configInit` reads finish in a nondeterministic order. The model runs them in file order. They touch disjoint state, and only the node file's read runs the callback.
- node-opcua internals are outside the model: `OPCUAClient` construction, the client options passed to it, the `ClientSubscription` parameters and the monitoring options are constants handed to the library.
- The IoT publish transport, its error callback (which only logs) and `JSON.stringify`. The payload is a record.
- Console logging and `dumpServerInfo`.
- `ConfigAgent.confirmFilePath()` is not defined in config_agent.js, and `customerOption` is never set there.
- Non-string `EndpointName`, `EndpointUrl` or `CertPath` values. A truthy non-string throws a TypeError on `.trim`. Absent or null values are modelled (`None`).
- Property names that collide with `Object.prototype` (`in` on plain objects sees inherited keys such as `constructor`). The maps are Dafny maps.
- Floating-point rounding of large numbers in `Number.isInteger`. Numbers are reals.
- The engine does not read the subscribers' `_session` objects. `RemoveClosed` takes the identities of the subscribers whose session exists with `_closed === true`.
- The copy-paste error message for `checkServerConfigInterval` (config_agent.js:95) is not modelled. Only which field failed is modelled.
- Batching, upload strategy and liveness tolerance: no code for them in the core files.
- tool/nodeFileParser.py, an interactive CSV-to-JSON script.
- Adapter.Engine.DisconnectStale: states the `disconnect()` calls as a multiset, because their order follows the `for..in` order of the live names, which the model leaves open.
- Adapter.Engine.ApplyReload: states the `disconnect()` calls as a multiset, for the same reason.
- Subscriber.OPCUASubscriber.OnChanged: the payload id is the configured node id string. The normalisation that the library's `NodeId.toString()` may apply is not modelled.
- Adapter.Engine.ConnectServer: a created subscriber is recorded with `connect()` only. Its own chain is `Subscriber.OPCUASubscriber` and is not run from the engine.

## Findings

| source | as written | input that shows it | evidently intended | confidence | as-written member | corrected member |
|---|---|---|---|---|---|---|
| greengrass-opcua-adapter-nodejs/index.js:70 | The subscription maps are keyed by `obj.id`, but node records carry `Id` and `DisplayName`, so every key is "undefined" (index.js:86 likewise) | Server A keeps name and URL while its only node changes from "ns=1;i=1" to "ns=1;i=2": A is judged unchanged and the old node stays monitored | Key each node by its `Id` and `DisplayName` together, so any change of the node set, a new `Id` or a renamed node, makes the server stale | not executed | Reconcile.AsWrittenPassKeepsOldNode | Reconcile.ReconciledMatchesConfig |
| greengrass-opcua-adapter-nodejs/index.js:73 | `result[name]` starts from `result[current.id_0]`, an undefined property name, so once a server named "undefined" is in the map, every later server reuses and overwrites that server's object (index.js:90 likewise) | Servers "undefined" (URL u) and "B", reloaded with "undefined" at URL u': both maps show B's URL under "undefined", so the URL change is missed | A fresh object per server, the last entry of a name winning | not executed | Reconcile.AsWrittenMissesUrlChange | Reconcile.CollectLastWins |
| greengrass-opcua-adapter-nodejs/config_agent.js:78 | `keepSessionAlive` goes through `isEmptyOrWhitespace`, which only a non-blank string passes: `false` counts as empty and `true.trim` throws | A client entry with `keepSessionAlive: true` and integer numbers: the load aborts at entry 0 and the options are not updated | Accept a boolean, the type the default options give the field | not executed | ConfigAgent.BooleanKeepAliveRejected | ConfigAgent.CorrectedAcceptsBooleanKeepAlive |
