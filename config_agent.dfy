/** The configuration agent: loading of the three JSON configuration files
    (client options, certificate location, published nodes) into the
    adapter's configuration, the change-detection poll on the published
    nodes file, and the certificate trust-store check.

    File access is not modelled: each loader takes the parsed contents of
    its file, the poll tick takes the file's modification time, and the
    trust check takes the contents of every file of the trust directory. */
module ConfigAgent {
  import opened JsValues

  newtype byte = x: int | 0 <= x < 256

  // ---------------------------------------------------------------------
  // Data model
  // ---------------------------------------------------------------------

  /** One monitored node of published_nodes.json, stored as read. */
  datatype OpcNode = OpcNode(Id: string, DisplayName: string)

  /** The optional `userIdentity` object of an endpoint. */
  datatype Identity = Identity(userName: JsValue, password: JsValue)

  /** One endpoint entry of published_nodes.json. An absent or null name
      or URL is `None`; `userIdentity` is `None` when absent or null. */
  datatype EndpointEntry = EndpointEntry(
    EndpointName: Option<string>,
    EndpointUrl: Option<string>,
    OpcNodes: seq<OpcNode>,
    CertExist: JsValue,
    userIdentity: Option<Identity>)

  /** The `server` part of a loaded server configuration; it is what each
      subscriber is constructed with. */
  datatype ServerInfo = ServerInfo(
    name: string,
    url: string,
    certExist: JsValue,
    userIdentity: Option<Identity>)

  /** A loaded server configuration; `connection` records whether a
      subscriber already serves it. */
  datatype ServerConfig = ServerConfig(
    server: ServerInfo,
    subscriptions: seq<OpcNode>,
    connection: bool)

  /** One entry of client_config.json, with the three fields of its
      `connectionStrategy` object flattened; an absent `connectionStrategy`
      shows all three as `Undefined`, so its entry fails at `maxRetry`, where
      the source throws a TypeError. */
  datatype ClientEntry = ClientEntry(
    keepSessionAlive: JsValue,
    maxRetry: JsValue,
    initialDelay: JsValue,
    maxDelay: JsValue,
    checkServerConfigInterval: JsValue)

  /** The global client options handed to every OPC-UA client. */
  datatype ClientOptions = ClientOptions(
    keepSessionAlive: JsValue,
    maxRetry: int,
    initialDelay: int,
    maxDelay: int,
    checkServerConfigInterval: int)

  /** One entry of cert_config.json. */
  datatype CertEntry = CertEntry(CertPath: Option<string>)

  /** Which program the model runs: the code as it stands, or the code
      with the defects it shows corrected (the client option check here,
      the subscription maps of the reconciliation). */
  datatype Builder = AsWritten | Corrected

  datatype ClientField = KeepSessionAlive | MaxRetry | InitialDelay | MaxDelay | CheckServerConfigInterval

  /** The errors the loaders throw. */
  datatype ConfigError =
    | InvalidClientField(index: nat, field: ClientField)
    | NoCertEntry
    | BlankCertPath

  /** The options in force before any client configuration is loaded. */
  const DefaultClientOptions := ClientOptions(Bool(true), 100000, 2000, 10 * 1000, 1000)

  /** A file modification time as the poll compares it: `Unset` is the
      empty string the recorded time starts as, `At(ms)` a date. */
  datatype Stamp = Unset | At(ms: int)

  // ---------------------------------------------------------------------
  // Published nodes: entry filter and transform
  // ---------------------------------------------------------------------

  /** `isEmptyOrWhitespace`: missing, empty, or only white space. */
  predicate IsEmptyOrWhitespace(v: Option<string>)
  {
    v.None? || IsBlank(v.value)
  }

  /** An entry is loaded unless its name or URL is blank or it lists no node. */
  predicate Accepted(e: EndpointEntry)
  {
    !IsEmptyOrWhitespace(e.EndpointName) && !IsEmptyOrWhitespace(e.EndpointUrl) && |e.OpcNodes| > 0
  }

  /** `CertExist` defaults to 1 (trust check required) when absent or null. */
  function CertExistOf(v: JsValue): JsValue
  {
    if v.Undefined? || v.Null? then Num(1.0) else v
  }

  /** The server configuration built from an accepted entry. */
  function ToServerConfig(e: EndpointEntry): ServerConfig
    requires Accepted(e)
  {
    ServerConfig(
      ServerInfo(e.EndpointName.value, e.EndpointUrl.value, CertExistOf(e.CertExist), e.userIdentity),
      e.OpcNodes,
      false)
  }

  /** What loading `list` appends: the accepted entries, transformed, in order. */
  function AcceptedConfigs(list: seq<EndpointEntry>): seq<ServerConfig>
  {
    if list == [] then []
    else
      var last := list[|list| - 1];
      AcceptedConfigs(list[..|list| - 1]) + (if Accepted(last) then [ToServerConfig(last)] else [])
  }

  /** A skipped entry contributes nothing. */
  lemma SkippedEntryAddsNothing(list: seq<EndpointEntry>, i: nat)
    requires i < |list| && !Accepted(list[i])
    ensures AcceptedConfigs(list[..i + 1]) == AcceptedConfigs(list[..i])
  {
    assert list[..i + 1][..i] == list[..i];
  }

  lemma {:induction false} AcceptedConfigsPrefix(list: seq<EndpointEntry>, n: nat)
    requires n <= |list|
    ensures AcceptedConfigs(list[..n]) <= AcceptedConfigs(list)
  {
    if n < |list| {
      var init := list[..|list| - 1];
      assert init[..n] == list[..n];
      AcceptedConfigsPrefix(init, n);
    } else {
      assert list[..n] == list;
    }
  }

  /** An accepted entry lands at the position given by the number of
      accepted entries before it, with its name and URL copied, its nodes
      kept in order, `certExist` defaulted to 1 when absent or null and
      otherwise copied, and `connection` false. */
  lemma AcceptedEntryPosition(list: seq<EndpointEntry>, i: nat)
    requires i < |list| && Accepted(list[i])
    ensures var k := |AcceptedConfigs(list[..i])|;
      && k < |AcceptedConfigs(list)|
      && var c := AcceptedConfigs(list)[k];
      && c.server.name == list[i].EndpointName.value
      && c.server.url == list[i].EndpointUrl.value
      && c.subscriptions == list[i].OpcNodes
      && c.server.certExist == (if list[i].CertExist.Undefined? || list[i].CertExist.Null? then Num(1.0) else list[i].CertExist)
      && c.server.userIdentity == list[i].userIdentity
      && !c.connection
  {
    assert list[..i + 1][..i] == list[..i];
    assert AcceptedConfigs(list[..i + 1]) == AcceptedConfigs(list[..i]) + [ToServerConfig(list[i])];
    AcceptedConfigsPrefix(list, i + 1);
  }

  /** Every loaded configuration comes from an accepted entry, so it has a
      non-blank name and URL, at least one node, and `connection` false;
      and nothing is loaded beyond the entries given. */
  lemma {:induction false} LoadedConfigsWellFormed(list: seq<EndpointEntry>)
    ensures |AcceptedConfigs(list)| <= |list|
    ensures forall c :: c in AcceptedConfigs(list) ==>
      && !c.connection && |c.subscriptions| > 0
      && !IsBlank(c.server.name) && !IsBlank(c.server.url)
    ensures |AcceptedConfigs(list)| == |list| <==> forall e :: e in list ==> Accepted(e)
  {
    if list != [] {
      var init := list[..|list| - 1];
      LoadedConfigsWellFormed(init);
      assert list == init + [list[|list| - 1]];
      forall e | e in init ensures e in list { }
    }
  }

  // ---------------------------------------------------------------------
  // Client options
  // ---------------------------------------------------------------------

  /** As written, `keepSessionAlive` passes `isEmptyOrWhitespace` only as
      a non-blank string: a falsy value is reported empty, and a truthy
      non-string has no `trim`, so the call itself throws. Corrected, a
      boolean, the type the default options give it, passes as well. */
  predicate KeepAlivePasses(b: Builder, v: JsValue)
  {
    (v.Str? && !IsBlank(v.s)) || (b.Corrected? && v.Bool?)
  }

  /** The four number fields are integers. */
  predicate IntegerFields(e: ClientEntry)
  {
    IsInteger(e.maxRetry) && IsInteger(e.initialDelay) && IsInteger(e.maxDelay)
    && IsInteger(e.checkServerConfigInterval)
  }

  /** The first field of a client entry that fails its check, in the order
      the loader checks them. */
  function FirstInvalidField(b: Builder, e: ClientEntry): (r: Option<ClientField>)
    ensures r.None? ==> IntegerFields(e)
  {
    if !KeepAlivePasses(b, e.keepSessionAlive) then Some(KeepSessionAlive)
    else if !IsInteger(e.maxRetry) then Some(MaxRetry)
    else if !IsInteger(e.initialDelay) then Some(InitialDelay)
    else if !IsInteger(e.maxDelay) then Some(MaxDelay)
    else if !IsInteger(e.checkServerConfigInterval) then Some(CheckServerConfigInterval)
    else None
  }

  predicate ValidClientEntry(b: Builder, e: ClientEntry)
  {
    FirstInvalidField(b, e).None?
  }

  function OptionsOf(e: ClientEntry): ClientOptions
    requires IntegerFields(e)
  {
    ClientOptions(e.keepSessionAlive, e.maxRetry.r.Floor, e.initialDelay.r.Floor,
                  e.maxDelay.r.Floor, e.checkServerConfigInterval.r.Floor)
  }

  /** The options and error after processing entries `from..` of `list`
      starting from `opts`: each passing entry overwrites the options, and
      the first failing entry stops the load with its error. */
  function ApplyClientEntries(b: Builder, opts: ClientOptions, list: seq<ClientEntry>, from: nat)
    : (ClientOptions, Option<ConfigError>)
    decreases |list| - from
  {
    if from >= |list| then (opts, None)
    else match FirstInvalidField(b, list[from])
      case Some(f) => (opts, Some(InvalidClientField(from, f)))
      case None => ApplyClientEntries(b, OptionsOf(list[from]), list, from + 1)
  }

  /** Entry `k` is the first entry from `from` on that fails validation. */
  predicate FirstInvalidAt(b: Builder, list: seq<ClientEntry>, from: nat, k: nat)
  {
    && from <= k < |list|
    && (forall j :: from <= j < k ==> ValidClientEntry(b, list[j]))
    && !ValidClientEntry(b, list[k])
  }

  /** Loading client entries fails exactly when some entry has a
      `keepSessionAlive` the builder's check refuses or a non-integer
      number field, and then reports the first such entry and field;
      the options left in force are those of the last passing entry before
      it (or the previous options when there is none). */
  lemma {:induction false} ClientConfigOutcome(b: Builder, opts: ClientOptions, list: seq<ClientEntry>, from: nat)
    requires from <= |list|
    ensures ApplyClientEntries(b, opts, list, from).1.None? <==> forall j :: from <= j < |list| ==> ValidClientEntry(b, list[j])
    ensures var (o, err) := ApplyClientEntries(b, opts, list, from);
      err.None? ==> o == if from == |list| then opts else OptionsOf(list[|list| - 1])
    ensures var (o, err) := ApplyClientEntries(b, opts, list, from);
      err.Some? ==>
        exists k: nat {:trigger FirstInvalidAt(b, list, from, k)} :: FirstInvalidAt(b, list, from, k)
          && err == Some(InvalidClientField(k, FirstInvalidField(b, list[k]).value))
          && o == (if k == from then opts else OptionsOf(list[k - 1]))
    decreases |list| - from
  {
    if from < |list| {
      var (o, err) := ApplyClientEntries(b, opts, list, from);
      if ValidClientEntry(b, list[from]) {
        ClientConfigOutcome(b, OptionsOf(list[from]), list, from + 1);
        if err.Some? {
          var k: nat :| FirstInvalidAt(b, list, from + 1, k)
            && err == Some(InvalidClientField(k, FirstInvalidField(b, list[k]).value))
            && o == (if k == from + 1 then OptionsOf(list[from]) else OptionsOf(list[k - 1]));
          assert FirstInvalidAt(b, list, from, k);
        }
      } else {
        assert FirstInvalidAt(b, list, from, from);
        assert err == Some(InvalidClientField(from, FirstInvalidField(b, list[from]).value)) && o == opts;
      }
    }
  }

  /** A boolean `keepSessionAlive`, as the default options carry it, never
      passes as written: `false` is reported empty and `true.trim` throws,
      so a client file whose first entry holds a boolean loads nothing. */
  lemma BooleanKeepAliveRejected(opts: ClientOptions, list: seq<ClientEntry>)
    requires list != [] && list[0].keepSessionAlive.Bool?
    ensures ApplyClientEntries(AsWritten, opts, list, 0) == (opts, Some(InvalidClientField(0, KeepSessionAlive)))
  {
  }

  /** Corrected, a client file whose entries hold booleans and integers
      loads, and the options are those of its last entry. */
  lemma CorrectedAcceptsBooleanKeepAlive(opts: ClientOptions, list: seq<ClientEntry>)
    requires list != []
    requires forall j :: 0 <= j < |list| ==> list[j].keepSessionAlive.Bool? && IntegerFields(list[j])
    ensures ApplyClientEntries(Corrected, opts, list, 0) == (OptionsOf(list[|list| - 1]), None)
  {
    ClientConfigOutcome(Corrected, opts, list, 0);
  }

  // ---------------------------------------------------------------------
  // Change detection
  // ---------------------------------------------------------------------

  /** The number a relational comparison turns a stamp into: a date's
      milliseconds, and 0 for the empty string. */
  function TimeValue(s: Stamp): int
  {
    match s
    case Unset => 0
    case At(ms) => ms
  }

  /** `datesEqual`: neither is later than the other. */
  predicate DatesEqual(a: Stamp, b: Stamp)
  {
    !(TimeValue(a) > TimeValue(b) || TimeValue(b) > TimeValue(a))
  }

  /** The two-sided comparison is equality of the compared numbers (so it
      is reflexive and symmetric), and on two dates it is plain equality. */
  lemma DatesEqualIsEquality(a: Stamp, b: Stamp)
    ensures DatesEqual(a, b) <==> TimeValue(a) == TimeValue(b)
    ensures DatesEqual(a, a) && (DatesEqual(a, b) <==> DatesEqual(b, a))
    ensures a.At? && b.At? ==> (DatesEqual(a, b) <==> a == b)
  {
  }

  /** The recorded time starts as the empty string, which compares like a
      date at the epoch: a file whose time is exactly the epoch is not seen
      as changed on the first tick. */
  lemma EpochEqualsUnset()
    ensures DatesEqual(At(0), Unset)
    ensures forall ms :: ms != 0 ==> !DatesEqual(At(ms), Unset)
  {
  }

  /** What one poll tick decides. */
  datatype TickOutcome = TickOutcome(invoke: bool, lastModified: Stamp, timeout: int)

  function PollTick(lastModified: Stamp, timeout: int, interval: int, mtime: Stamp): TickOutcome
  {
    var changed := !DatesEqual(mtime, lastModified);
    TickOutcome(changed,
                if changed then mtime else lastModified,
                if interval > 0 then interval else timeout)
  }

  /** After a tick the recorded time compares equal to the observed one, so
      a second tick with the same modification time invokes nothing and
      records nothing new. */
  lemma SecondTickQuiet(lastModified: Stamp, timeout: int, interval: int, mtime: Stamp)
    ensures var t1 := PollTick(lastModified, timeout, interval, mtime);
      var t2 := PollTick(t1.lastModified, t1.timeout, interval, mtime);
      !t2.invoke && t2.lastModified == t1.lastModified && t2.timeout == t1.timeout
  {
  }

  /** A tick invokes the reconciliation exactly when the observed time
      differs from the recorded one; the recorded time then becomes the
      observed one. The next timeout is the configured interval when that
      is positive, and otherwise stays as it was. */
  lemma PollTickDecision(lastModified: Stamp, timeout: int, interval: int, mtime: Stamp)
    ensures var t := PollTick(lastModified, timeout, interval, mtime);
      && (t.invoke <==> TimeValue(mtime) != TimeValue(lastModified))
      && DatesEqual(t.lastModified, mtime)
      && (t.invoke ==> t.lastModified == mtime)
      && (!t.invoke ==> t.lastModified == lastModified)
      && (t.timeout == interval <== interval > 0)
      && (interval <= 0 ==> t.timeout == timeout)
  {
  }

  // ---------------------------------------------------------------------
  // Trust store
  // ---------------------------------------------------------------------

  /** The server certificate is trusted when some trust-store file holds
      exactly its bytes. */
  predicate Trusts(trustFiles: seq<seq<byte>>, serverCert: seq<byte>)
  {
    exists i :: 0 <= i < |trustFiles| && trustFiles[i] == serverCert
  }

  /** `compareWithTrustCert`: scan the trust directory's files in order,
      comparing lengths first and then bytes, and stop at the first match. */
  method CompareWithTrustCert(trustFiles: seq<seq<byte>>, serverCert: seq<byte>) returns (trusted: bool)
    ensures trusted <==> Trusts(trustFiles, serverCert)
    ensures trustFiles == [] ==> !trusted
  {
    var i := 0;
    while i < |trustFiles|
      invariant 0 <= i <= |trustFiles|
      invariant forall j :: 0 <= j < i ==> trustFiles[j] != serverCert
    {
      var contents := trustFiles[i];
      if |contents| == |serverCert| {
        if contents == serverCert {
          return true;
        }
      }
      i := i + 1;
    }
    return false;
  }

  // ---------------------------------------------------------------------
  // The agent's state: the module-level variables of the configuration agent
  // ---------------------------------------------------------------------

  class Agent {
    /** The modification time recorded at the last detected change. */
    var lastModified: Stamp
    /** The delay before the next poll tick. */
    var timeout: int
    var clientOptions: ClientOptions
    /** `certConfig.CertPath`; unset until a certificate configuration loads. */
    var certPath: Option<string>

    constructor ()
      ensures lastModified == Unset && timeout == 0
      ensures clientOptions == DefaultClientOptions && certPath == None
    {
      lastModified := Unset;
      timeout := 0;
      clientOptions := DefaultClientOptions;
      certPath := None;
    }

    /** Read client_config.json: validate each entry in turn, overwrite the
        options with each passing entry, and stop at the first failing one. */
    method LoadClientConfig(b: Builder, list: seq<ClientEntry>) returns (err: Option<ConfigError>)
      modifies this`clientOptions
      ensures (clientOptions, err) == ApplyClientEntries(b, old(clientOptions), list, 0)
    {
      var i := 0;
      while i < |list|
        invariant 0 <= i <= |list|
        invariant ApplyClientEntries(b, clientOptions, list, i) == ApplyClientEntries(b, old(clientOptions), list, 0)
      {
        var f := FirstInvalidField(b, list[i]);
        if f.Some? {
          return Some(InvalidClientField(i, f.value));
        }
        clientOptions := OptionsOf(list[i]);
        i := i + 1;
      }
      return None;
    }

    /** Read cert_config.json: its first entry must hold a non-blank path. */
    method LoadCertConfig(list: seq<CertEntry>) returns (err: Option<ConfigError>)
      modifies this`certPath
      ensures err == (if list == [] then Some(NoCertEntry)
                      else if IsEmptyOrWhitespace(list[0].CertPath) then Some(BlankCertPath)
                      else None)
      ensures err.None? ==> certPath == list[0].CertPath
      ensures err.Some? ==> certPath == old(certPath)
    {
      if list == [] {
        return Some(NoCertEntry);
      }
      if IsEmptyOrWhitespace(list[0].CertPath) {
        return Some(BlankCertPath);
      }
      certPath := list[0].CertPath;
      return None;
    }

    /** Read published_nodes.json (whose modification time is `fileMtime`):
        append each accepted entry to `serverConfigs`, recording the file's
        time whenever an entry is appended. */
    method LoadServerConfigs(serverConfigs: seq<ServerConfig>, list: seq<EndpointEntry>, fileMtime: Stamp)
      returns (pushed: seq<ServerConfig>)
      modifies this`lastModified
      ensures pushed == serverConfigs + AcceptedConfigs(list)
      ensures lastModified == if |AcceptedConfigs(list)| > 0 then fileMtime else old(lastModified)
    {
      pushed := serverConfigs;
      var i := 0;
      while i < |list|
        invariant 0 <= i <= |list|
        invariant pushed == serverConfigs + AcceptedConfigs(list[..i])
        invariant lastModified == if |AcceptedConfigs(list[..i])| > 0 then fileMtime else old(lastModified)
      {
        assert list[..i + 1][..i] == list[..i];
        var config := list[i];
        if Accepted(config) {
          pushed := pushed + [ToServerConfig(config)];
          lastModified := fileMtime;
        }
        i := i + 1;
      }
      assert list[..i] == list;
    }

    /** `configInit`: the three loads. Each file is read on its own, so a
        failing one does not prevent the others. */
    method ConfigInit(b: Builder, serverConfigs: seq<ServerConfig>, clientList: seq<ClientEntry>,
                      certList: seq<CertEntry>, serverList: seq<EndpointEntry>, fileMtime: Stamp)
      returns (pushed: seq<ServerConfig>, clientErr: Option<ConfigError>, certErr: Option<ConfigError>)
      modifies this`clientOptions, this`certPath, this`lastModified
      ensures (clientOptions, clientErr) == ApplyClientEntries(b, old(clientOptions), clientList, 0)
      ensures certErr.None? <==> certList != [] && !IsEmptyOrWhitespace(certList[0].CertPath)
      ensures certPath == if certErr.None? then certList[0].CertPath else old(certPath)
      ensures pushed == serverConfigs + AcceptedConfigs(serverList)
      ensures lastModified == if |AcceptedConfigs(serverList)| > 0 then fileMtime else old(lastModified)
    {
      clientErr := LoadClientConfig(b, clientList);
      certErr := LoadCertConfig(certList);
      pushed := LoadServerConfigs(serverConfigs, serverList, fileMtime);
    }

    /** One tick of `checkFileLoop`, given the file's current modification
        time; `invoke` says whether the reconciliation callback runs. */
    method Tick(mtime: Stamp) returns (invoke: bool)
      modifies this`lastModified, this`timeout
      ensures var t := PollTick(old(lastModified), old(timeout), clientOptions.checkServerConfigInterval, mtime);
        invoke == t.invoke && lastModified == t.lastModified && timeout == t.timeout
    {
      invoke := false;
      if !DatesEqual(mtime, lastModified) {
        lastModified := mtime;
        invoke := true;
      }
      if clientOptions.checkServerConfigInterval > 0 {
        timeout := clientOptions.checkServerConfigInterval;
      }
    }
  }
}
