/** The values the reconciliation compares: each server reduced to a name, a
    URL and a subscription map, for the live subscribers and for a freshly
    loaded configuration, and the pure decision of which live subscribers
    survive and which configurations get a new subscriber. */
module Reconcile {
  import opened JsValues
  import opened ConfigAgent
  import opened Seqs

  // ---------------------------------------------------------------------
  // Live subscribers as the reconciliation sees them
  // ---------------------------------------------------------------------

  /** A live subscriber: an object identity, the server configuration it
      was constructed with (`getServerConfig()`) and its node list
      (`getNodeConfig()`). */
  datatype Live = Live(id: nat, server: ServerInfo, nodes: seq<OpcNode>)

  function NameOf(s: Live): string { s.server.name }

  function IdOf(s: Live): nat { s.id }

  function ConfigName(c: ServerConfig): string { c.server.name }

  /** The object identities of `s`, in order. */
  function Ids(s: seq<Live>): (r: seq<nat>)
    ensures |r| == |s| && forall i :: 0 <= i < |s| ==> r[i] == s[i].id
  {
    seq(|s|, i requires 0 <= i < |s| => s[i].id)
  }

  // ---------------------------------------------------------------------
  // Subscription maps
  // ---------------------------------------------------------------------

  /** What a server is reduced to: its URL and its subscription map. */
  datatype Summary = Summary(url: string, subscription: map<string, JsValue>)

  /** The inner `reduce`: each node in turn sets `map[key(node)]` to
      `val(node)`, so a later node with the same key wins. */
  function SubscriptionMap(nodes: seq<OpcNode>, key: OpcNode -> string, val: OpcNode -> JsValue)
    : (m: map<string, JsValue>)
    ensures m.Keys == Image(nodes, key)
  {
    if nodes == [] then map[] else
      var init := nodes[..|nodes| - 1];
      var last := nodes[|nodes| - 1];
      assert nodes == init + [last];
      ImageAppend(init, [last], key);
      SubscriptionMap(init, key, val)[key(last) := val(last)]
  }

  /** A key maps to the value of the last node carrying it. */
  lemma {:induction false} SubscriptionMapLastWins(nodes: seq<OpcNode>, key: OpcNode -> string,
                                                   val: OpcNode -> JsValue, i: nat)
    requires i < |nodes|
    requires forall j :: i < j < |nodes| ==> key(nodes[j]) != key(nodes[i])
    ensures key(nodes[i]) in SubscriptionMap(nodes, key, val)
    ensures SubscriptionMap(nodes, key, val)[key(nodes[i])] == val(nodes[i])
  {
    if i < |nodes| - 1 {
      var init := nodes[..|nodes| - 1];
      assert init[i] == nodes[i];
      SubscriptionMapLastWins(init, key, val, i);
    }
  }

  /** The key the subscription map is meant to use: it identifies the
      node by its `Id` and its `DisplayName` together, the `Id` escaped so
      that `|` can separate the two. A node renamed under the same `Id` is
      then a different subscription, as its topic is. */
  function NodeKey(n: OpcNode): string { Escaped(n.Id) + "|" + n.DisplayName }

  predicate Reserved(c: char) { c == '|' || c == '\\' }

  /** `s` with a backslash before every `|` and every backslash. */
  function Escaped(s: string): string
  {
    if s == [] then [] else (if Reserved(s[0]) then ['\\', s[0]] else [s[0]]) + Escaped(s[1..])
  }

  /** A non-empty escaped string does not start with `|`. */
  lemma EscapedHead(s: string)
    requires s != []
    ensures Escaped(s) != [] && Escaped(s)[0] != '|'
  {
    var h := if Reserved(s[0]) then ['\\', s[0]] else [s[0]];
    assert Escaped(s) == h + Escaped(s[1..]);
    assert Escaped(s)[0] == h[0];
  }

  /** An escaped string followed by `|` is read back unambiguously. */
  lemma {:induction false} EscapedSeparates(x: string, p: string, y: string, q: string)
    requires Escaped(x) + "|" + p == Escaped(y) + "|" + q
    ensures x == y && p == q
  {
    var l := Escaped(x) + "|" + p;
    if x == [] || y == [] {
      if x != [] {
        assert l[0] == Escaped(x)[0];
        EscapedHead(x);
      } else if y != [] {
        assert (Escaped(y) + "|" + q)[0] == Escaped(y)[0];
        EscapedHead(y);
      } else {
        assert p == l[1..] == q;
      }
    } else {
      var hx := if Reserved(x[0]) then ['\\', x[0]] else [x[0]];
      var hy := if Reserved(y[0]) then ['\\', y[0]] else [y[0]];
      var rx, ry := Escaped(x[1..]) + "|" + p, Escaped(y[1..]) + "|" + q;
      assert l == hx + rx;
      assert l == hy + ry;
      assert l[0] == hx[0] == hy[0];
      if Reserved(x[0]) || Reserved(y[0]) {
        assert l[1] == hx[1] == hy[1];
      }
      assert hx == hy && x[0] == y[0];
      assert rx == l[|hx|..] == ry;
      EscapedSeparates(x[1..], p, y[1..], q);
      assert x == [x[0]] + x[1..] && y == [y[0]] + y[1..];
    }
  }

  /** Two nodes share a key exactly when they are the same node. */
  lemma NodeKeyInjective(a: OpcNode, b: OpcNode)
    ensures NodeKey(a) == NodeKey(b) <==> a == b
  {
    if NodeKey(a) == NodeKey(b) {
      EscapedSeparates(a.Id, a.DisplayName, b.Id, b.DisplayName);
    }
  }

  /** The nodes of a node list, regardless of order and repetition. */
  function Nodes(s: seq<OpcNode>): set<OpcNode> { set n | n in s }

  /** The key sets of two node lists are equal exactly when the lists hold
      the same nodes. */
  lemma NodeKeySets(a: seq<OpcNode>, b: seq<OpcNode>)
    ensures Image(a, NodeKey) == Image(b, NodeKey) <==> Nodes(a) == Nodes(b)
  {
    if Image(a, NodeKey) == Image(b, NodeKey) {
      forall n | n in a ensures n in b {
        assert NodeKey(n) in Image(b, NodeKey);
        var m :| m in b && NodeKey(m) == NodeKey(n);
        NodeKeyInjective(m, n);
      }
      forall n | n in b ensures n in a {
        assert NodeKey(n) in Image(a, NodeKey);
        var m :| m in a && NodeKey(m) == NodeKey(n);
        NodeKeyInjective(m, n);
      }
    } else if Nodes(a) == Nodes(b) {
      forall k | k in Image(a, NodeKey) ensures k in Image(b, NodeKey) {
        var x :| x in a && NodeKey(x) == k;
        assert x in Nodes(a);
        assert x in Nodes(b);
        assert NodeKey(x) in Image(b, NodeKey);
      }
      forall k | k in Image(b, NodeKey) ensures k in Image(a, NodeKey) {
        var x :| x in b && NodeKey(x) == k;
        assert x in Nodes(b);
        assert x in Nodes(a);
        assert NodeKey(x) in Image(a, NodeKey);
      }
    }
  }

  function NodeLabel(n: OpcNode): JsValue { Str(n.DisplayName) }

  /** The key as written: `obj.id`. Node records carry `Id` and
      `DisplayName` only, so the property is undefined and the key is the
      string "undefined". */
  function NodeKeyAsWritten(n: OpcNode): string { "undefined" }

  /** The value as written: `obj.displayName`, undefined likewise. */
  function NodeLabelAsWritten(n: OpcNode): JsValue { Undefined }

  /** A server entry of the map under construction. */
  function Summarize(server: ServerInfo, nodes: seq<OpcNode>, key: OpcNode -> string, val: OpcNode -> JsValue)
    : (string, Summary)
  {
    (server.name, Summary(server.url, SubscriptionMap(nodes, key, val)))
  }

  function ConfigEntries(m: seq<ServerConfig>, key: OpcNode -> string, val: OpcNode -> JsValue)
    : (r: seq<(string, Summary)>)
    ensures |r| == |m|
  {
    seq(|m|, i requires 0 <= i < |m| => Summarize(m[i].server, m[i].subscriptions, key, val))
  }

  function LiveEntries(s: seq<Live>, key: OpcNode -> string, val: OpcNode -> JsValue)
    : (r: seq<(string, Summary)>)
    ensures |r| == |s|
  {
    seq(|s|, i requires 0 <= i < |s| => Summarize(s[i].server, s[i].nodes, key, val))
  }

  function EntryNames(entries: seq<(string, Summary)>): set<string>
  {
    set i | 0 <= i < |entries| :: entries[i].0
  }

  // ---------------------------------------------------------------------
  // The outer reduce, corrected: a plain map in which the last entry wins
  // ---------------------------------------------------------------------

  function Collect(entries: seq<(string, Summary)>): (r: map<string, Summary>)
    ensures r.Keys == EntryNames(entries)
  {
    if entries == [] then map[] else
      var init := entries[..|entries| - 1];
      var last := entries[|entries| - 1];
      assert forall i :: 0 <= i < |init| ==> init[i] == entries[i];
      assert EntryNames(entries) == EntryNames(init) + {last.0};
      Collect(init)[last.0 := last.1]
  }

  /** A name maps to the summary of the last entry carrying it. */
  lemma {:induction false} CollectLastWins(entries: seq<(string, Summary)>, i: nat)
    requires i < |entries|
    requires forall j :: i < j < |entries| ==> entries[j].0 != entries[i].0
    ensures entries[i].0 in Collect(entries)
    ensures Collect(entries)[entries[i].0] == entries[i].1
  {
    if i < |entries| - 1 {
      var init := entries[..|entries| - 1];
      assert init[i] == entries[i];
      CollectLastWins(init, i);
    }
  }

  // ---------------------------------------------------------------------
  // The outer reduce as written: `result[name] = result[current.id_0] || {}`
  // ---------------------------------------------------------------------

  /** The accumulator of the as-written reduce: each name refers to an
      object, and `store` holds the objects' contents, so two names can
      refer to one object. */
  datatype Heap = Heap(names: map<string, nat>, store: seq<Summary>)

  predicate HeapOk(h: Heap)
  {
    forall n :: n in h.names ==> h.names[n] < |h.store|
  }

  /** One step: `current.id_0` is undefined, so the object reused is the
      one under the name "undefined" when there is one, and a new object
      otherwise; its `url` and `subscription` are then overwritten. */
  function Assign(h: Heap, name: string, s: Summary): (r: Heap)
    requires HeapOk(h)
    ensures HeapOk(r) && r.names.Keys == h.names.Keys + {name}
  {
    var ref := if "undefined" in h.names then h.names["undefined"] else |h.store|;
    var store := if ref < |h.store| then h.store[ref := s] else h.store + [s];
    Heap(h.names[name := ref], store)
  }

  function FoldAsWritten(entries: seq<(string, Summary)>): (h: Heap)
    ensures HeapOk(h) && h.names.Keys == EntryNames(entries)
  {
    if entries == [] then Heap(map[], []) else
      var init := entries[..|entries| - 1];
      var last := entries[|entries| - 1];
      assert forall i :: 0 <= i < |init| ==> init[i] == entries[i];
      assert EntryNames(entries) == EntryNames(init) + {last.0};
      Assign(FoldAsWritten(init), last.0, last.1)
  }

  function Resolve(h: Heap): (r: map<string, Summary>)
    requires HeapOk(h)
    ensures r.Keys == h.names.Keys
  {
    map n | n in h.names :: h.store[h.names[n]]
  }

  function CollectAsWritten(entries: seq<(string, Summary)>): (r: map<string, Summary>)
    ensures r.Keys == EntryNames(entries)
  {
    Resolve(FoldAsWritten(entries))
  }

  /** A single entry, whatever its name, is collected as it is. */
  lemma CollectAsWrittenSingle(e: (string, Summary))
    ensures CollectAsWritten([e]) == map[e.0 := e.1] == Collect([e])
  {
    assert [e][..0] == [];
    assert FoldAsWritten([e]) == Heap(map[e.0 := 0], [e.1]);
  }

  /** Without a server named "undefined" the as-written reduce builds the
      map the corrected one does. */
  lemma {:induction false} CollectAsWrittenAgrees(entries: seq<(string, Summary)>)
    requires "undefined" !in EntryNames(entries)
    ensures CollectAsWritten(entries) == Collect(entries)
  {
    if entries != [] {
      var init := entries[..|entries| - 1];
      var last := entries[|entries| - 1];
      assert forall i :: 0 <= i < |init| ==> init[i] == entries[i];
      assert EntryNames(entries) == EntryNames(init) + {last.0};
      CollectAsWrittenAgrees(init);
      var h := FoldAsWritten(init);
      var h' := Assign(h, last.0, last.1);
      assert FoldAsWritten(entries) == h';
      assert h'.store == h.store + [last.1];
      assert Resolve(h') == Resolve(h)[last.0 := last.1];
    }
  }

  /** The counterexample: once a server is named "undefined", the next
      server's object is that server's object too, and both names end
      with the later server's summary. */
  lemma AsWrittenAliasesUndefined(s1: Summary, s2: Summary)
    ensures CollectAsWritten([("undefined", s1), ("B", s2)]) == map["undefined" := s2, "B" := s2]
    ensures Collect([("undefined", s1), ("B", s2)]) == map["undefined" := s1, "B" := s2]
  {
    var e := [("undefined", s1), ("B", s2)];
    var e1: seq<(string, Summary)> := [("undefined", s1)];
    assert e[..1] == e1;
    assert e1[..0] == [];
    assert FoldAsWritten(e1[..0]) == Heap(map[], []);
    var h0 := FoldAsWritten(e1);
    assert h0 == Assign(Heap(map[], []), "undefined", s1);
    assert h0 == Heap(map["undefined" := 0], [s1]);
    assert FoldAsWritten(e) == Heap(map["undefined" := 0, "B" := 0], [s2]);
  }

  // ---------------------------------------------------------------------
  // Subscription maps compared
  // ---------------------------------------------------------------------

  /** The `haveSameSub` test as written: equal key counts, and every new
      key among the live keys. */
  predicate SameSubscriptions(incoming: set<string>, live: set<string>)
  {
    |incoming| == |live| && incoming <= live
  }

  lemma SameSubscriptionsIsEquality(incoming: set<string>, live: set<string>)
    ensures SameSubscriptions(incoming, live) <==> incoming == live
  {
    if incoming <= live {
      assert live == incoming + (live - incoming);
      assert |live| == |incoming| + |live - incoming|;
    }
  }

  /** As written every non-empty node list has the single key "undefined",
      so any two non-empty node lists compare as the same subscriptions. */
  lemma AsWrittenKeysIgnoreNodes(a: seq<OpcNode>, b: seq<OpcNode>)
    requires a != [] && b != []
    ensures SubscriptionMap(a, NodeKeyAsWritten, NodeLabelAsWritten).Keys == {"undefined"}
    ensures SameSubscriptions(SubscriptionMap(a, NodeKeyAsWritten, NodeLabelAsWritten).Keys,
                              SubscriptionMap(b, NodeKeyAsWritten, NodeLabelAsWritten).Keys)
  {
    assert NodeKeyAsWritten(a[0]) in Image(a, NodeKeyAsWritten);
    assert NodeKeyAsWritten(b[0]) in Image(b, NodeKeyAsWritten);
  }

  /** With the corrected key, the comparison sees exactly the set of nodes,
      so the order and repetition of nodes do not matter while a changed
      `Id` or a changed `DisplayName` does. */
  lemma SubscriptionKeysAreNodes(a: seq<OpcNode>, b: seq<OpcNode>)
    ensures SameSubscriptions(SubscriptionMap(a, NodeKey, NodeLabel).Keys,
                              SubscriptionMap(b, NodeKey, NodeLabel).Keys)
            <==> Nodes(a) == Nodes(b)
  {
    SameSubscriptionsIsEquality(SubscriptionMap(a, NodeKey, NodeLabel).Keys,
                                SubscriptionMap(b, NodeKey, NodeLabel).Keys);
    NodeKeySets(a, b);
  }

  // ---------------------------------------------------------------------
  // The two maps of `updateConfig`
  // ---------------------------------------------------------------------

  /** `convertOPCUASubscriberSetToMap`, with the corrected key and reduce. */
  function LiveMap(s: seq<Live>): map<string, Summary>
  {
    Collect(LiveEntries(s, NodeKey, NodeLabel))
  }

  /** `convertSerConfigToMap`, with the corrected key and reduce. */
  function ServerMap(m: seq<ServerConfig>): map<string, Summary>
  {
    Collect(ConfigEntries(m, NodeKey, NodeLabel))
  }

  /** `convertOPCUASubscriberSetToMap` as written. */
  function LiveMapAsWritten(s: seq<Live>): map<string, Summary>
  {
    CollectAsWritten(LiveEntries(s, NodeKeyAsWritten, NodeLabelAsWritten))
  }

  /** `convertSerConfigToMap` as written. */
  function ServerMapAsWritten(m: seq<ServerConfig>): map<string, Summary>
  {
    CollectAsWritten(ConfigEntries(m, NodeKeyAsWritten, NodeLabelAsWritten))
  }

  /** The pair of map builders a pass runs, chosen by the `Builder`:
      `convertSerConfigToMap` and `convertOPCUASubscriberSetToMap` as
      written, or corrected. */
  function LiveMapBy(b: Builder, s: seq<Live>): map<string, Summary>
  {
    match b
    case AsWritten => LiveMapAsWritten(s)
    case Corrected => LiveMap(s)
  }

  function ServerMapBy(b: Builder, m: seq<ServerConfig>): map<string, Summary>
  {
    match b
    case AsWritten => ServerMapAsWritten(m)
    case Corrected => ServerMap(m)
  }

  lemma LiveEntryNames(s: seq<Live>, key: OpcNode -> string, val: OpcNode -> JsValue)
    ensures EntryNames(LiveEntries(s, key, val)) == Image(s, NameOf)
  {
    var e := LiveEntries(s, key, val);
    forall x | x in EntryNames(e) ensures x in Image(s, NameOf) {
      var i :| 0 <= i < |e| && e[i].0 == x;
      assert s[i] in s;
    }
    forall x | x in Image(s, NameOf) ensures x in EntryNames(e) {
      var y :| y in s && NameOf(y) == x;
      var i :| 0 <= i < |s| && s[i] == y;
      assert e[i].0 == x;
    }
  }

  lemma ConfigEntryNames(m: seq<ServerConfig>, key: OpcNode -> string, val: OpcNode -> JsValue)
    ensures EntryNames(ConfigEntries(m, key, val)) == Image(m, ConfigName)
  {
    var e := ConfigEntries(m, key, val);
    forall x | x in EntryNames(e) ensures x in Image(m, ConfigName) {
      var i :| 0 <= i < |e| && e[i].0 == x;
      assert m[i] in m;
    }
    forall x | x in Image(m, ConfigName) ensures x in EntryNames(e) {
      var y :| y in m && ConfigName(y) == x;
      var i :| 0 <= i < |m| && m[i] == y;
      assert e[i].0 == x;
    }
  }

  /** Both maps, as written or corrected, are keyed by exactly the server
      names of their lists. */
  lemma MapKeys(b: Builder, s: seq<Live>, m: seq<ServerConfig>)
    ensures LiveMapBy(b, s).Keys == Image(s, NameOf)
    ensures ServerMapBy(b, m).Keys == Image(m, ConfigName)
  {
    if b.AsWritten? {
      LiveEntryNames(s, NodeKeyAsWritten, NodeLabelAsWritten);
      ConfigEntryNames(m, NodeKeyAsWritten, NodeLabelAsWritten);
    } else {
      LiveEntryNames(s, NodeKey, NodeLabel);
      ConfigEntryNames(m, NodeKey, NodeLabel);
    }
  }

  /** With distinct names, a live subscriber's entry of the map is its own
      URL and set of node ids. */
  lemma LiveMapAt(s: seq<Live>, i: nat)
    requires i < |s| && Injective(s, NameOf)
    ensures NameOf(s[i]) in LiveMap(s)
    ensures LiveMap(s)[NameOf(s[i])].url == s[i].server.url
    ensures LiveMap(s)[NameOf(s[i])].subscription.Keys == Image(s[i].nodes, NodeKey)
  {
    var e := LiveEntries(s, NodeKey, NodeLabel);
    assert forall j :: i < j < |e| ==> e[j].0 == NameOf(s[j]) && NameOf(s[i]) != NameOf(s[j]);
    CollectLastWins(e, i);
  }

  lemma ServerMapAt(m: seq<ServerConfig>, i: nat)
    requires i < |m| && Injective(m, ConfigName)
    ensures ConfigName(m[i]) in ServerMap(m)
    ensures ServerMap(m)[ConfigName(m[i])].url == m[i].server.url
    ensures ServerMap(m)[ConfigName(m[i])].subscription.Keys == Image(m[i].subscriptions, NodeKey)
  {
    var e := ConfigEntries(m, NodeKey, NodeLabel);
    assert forall j :: i < j < |e| ==> e[j].0 == ConfigName(m[j]) && ConfigName(m[i]) != ConfigName(m[j]);
    CollectLastWins(e, i);
  }

  // ---------------------------------------------------------------------
  // The reconciliation decision
  // ---------------------------------------------------------------------

  /** A live server is unchanged when its name is in the new map with the
      same URL and the `haveSameSub` test passes. */
  predicate Unchanged(liveMap: map<string, Summary>, newMap: map<string, Summary>, name: string)
  {
    name in liveMap && name in newMap && liveMap[name].url == newMap[name].url
    && SameSubscriptions(newMap[name].subscription.Keys, liveMap[name].subscription.Keys)
  }

  /** The live names whose subscribers are disconnected. */
  function Stale(liveMap: map<string, Summary>, newMap: map<string, Summary>): set<string>
  {
    set n | n in liveMap && !Unchanged(liveMap, newMap, n)
  }

  /** The live names whose new entries are marked connected. */
  function Kept(liveMap: map<string, Summary>, newMap: map<string, Summary>): set<string>
  {
    set n | n in liveMap && Unchanged(liveMap, newMap, n)
  }

  function NameOutside(names: set<string>): Live -> bool
  {
    (s: Live) => s.server.name !in names
  }

  function NameInside(names: set<string>): Live -> bool
  {
    (s: Live) => s.server.name in names
  }

  function IdOutside(ids: set<nat>): Live -> bool
  {
    (s: Live) => s.id !in ids
  }

  function ConfigOutside(names: set<string>): ServerConfig -> bool
  {
    (c: ServerConfig) => c.server.name !in names
  }

  function IsPending(c: ServerConfig): bool { !c.connection }

  /** The new list once every entry named in `names` is marked connected. */
  function Mark(m: seq<ServerConfig>, names: set<string>): (r: seq<ServerConfig>)
    ensures |r| == |m|
  {
    seq(|m|, i requires 0 <= i < |m| => if m[i].server.name in names then m[i].(connection := true) else m[i])
  }

  /** The subscribers `connectServer` creates for the entries `p`, with
      object identities from `id0` on. */
  function Spawn(p: seq<ServerConfig>, id0: nat): (r: seq<Live>)
    ensures |r| == |p|
  {
    seq(|p|, k requires 0 <= k < |p| => Live(id0 + k, p[k].server, p[k].subscriptions))
  }

  /** The list once `connectServer` has set every flag. */
  function SetConnected(m: seq<ServerConfig>): (r: seq<ServerConfig>)
    ensures |r| == |m|
  {
    seq(|m|, i requires 0 <= i < |m| => m[i].(connection := true))
  }

  function StaleNames(b: Builder, s1: seq<Live>, re0: seq<ServerConfig>): set<string>
  {
    Stale(LiveMapBy(b, s1), ServerMapBy(b, re0))
  }

  function KeptNames(b: Builder, s1: seq<Live>, re0: seq<ServerConfig>): set<string>
  {
    Kept(LiveMapBy(b, s1), ServerMapBy(b, re0))
  }

  /** The subscribers left after the disconnect pass. */
  function Survivors(b: Builder, s1: seq<Live>, re0: seq<ServerConfig>): seq<Live>
  {
    Filter(s1, NameOutside(StaleNames(b, s1, re0)))
  }

  /** The subscribers `connectServer` then creates. */
  function Created(b: Builder, s1: seq<Live>, re0: seq<ServerConfig>, id0: nat): seq<Live>
  {
    Spawn(Filter(Mark(re0, KeptNames(b, s1, re0)), IsPending), id0)
  }

  /** The subscriber set after a non-empty pass with the builders `b`. */
  function Reconciled(b: Builder, s1: seq<Live>, re0: seq<ServerConfig>, id0: nat): seq<Live>
  {
    Survivors(b, s1, re0) + Created(b, s1, re0, id0)
  }

  /** What the `configInit` callback leaves behind when it builds its maps
      with `b`, from subscribers `s1`, the loaded list `re0`, the next
      identity `id0`, the call logs `d0` and `c0` and the current list
      `sc0`: with entries loaded, the reconciled set, the identities used,
      the new current list and the calls made; with none, an empty set
      after one `disconnect()` per subscriber and nothing else changed. */
  predicate PassOutcome(b: Builder, s1: seq<Live>, re0: seq<ServerConfig>, id0: nat,
                        d0: seq<nat>, c0: seq<nat>, sc0: seq<ServerConfig>,
                        subs: seq<Live>, nid: nat, disc: seq<nat>, conn: seq<nat>, sc: seq<ServerConfig>)
  {
    if re0 != [] then
      && subs == Reconciled(b, s1, re0, id0)
      && nid == id0 + |Created(b, s1, re0, id0)|
      && sc == SetConnected(Mark(re0, KeptNames(b, s1, re0)))
      && multiset(disc) == multiset(d0) + multiset(Ids(Filter(s1, NameInside(StaleNames(b, s1, re0)))))
      && conn == c0 + Ids(Created(b, s1, re0, id0))
    else
      && subs == [] && nid == id0 && disc == d0 + Ids(s1)
      && sc == sc0 && conn == c0
  }

  /** Freshly loaded entries all have `connection` false. */
  predicate AllPending(m: seq<ServerConfig>)
  {
    forall i :: 0 <= i < |m| ==> !m[i].connection
  }

  // ---------------------------------------------------------------------
  // Properties of the decision
  // ---------------------------------------------------------------------

  /** Every live name is stale or kept, never both; kept names are names
      of the new list. */
  lemma StaleKeptPartition(b: Builder, s1: seq<Live>, re0: seq<ServerConfig>)
    ensures StaleNames(b, s1, re0) + KeptNames(b, s1, re0) == Image(s1, NameOf)
    ensures StaleNames(b, s1, re0) !! KeptNames(b, s1, re0)
    ensures KeptNames(b, s1, re0) <= Image(re0, ConfigName)
  {
    MapKeys(b, s1, re0);
  }

  /** On freshly loaded entries, the entries still pending after marking
      are those whose names were not kept. */
  lemma {:induction false} PendingAfterMark(m: seq<ServerConfig>, names: set<string>)
    requires AllPending(m)
    ensures Filter(Mark(m, names), IsPending) == Filter(m, ConfigOutside(names))
  {
    if m != [] {
      assert Mark(m, names)[1..] == Mark(m[1..], names);
      PendingAfterMark(m[1..], names);
    }
  }

  lemma SpawnNames(p: seq<ServerConfig>, id0: nat)
    ensures Image(Spawn(p, id0), NameOf) == Image(p, ConfigName)
    ensures Injective(p, ConfigName) ==> Injective(Spawn(p, id0), NameOf)
  {
    var r := Spawn(p, id0);
    forall x | x in Image(r, NameOf) ensures x in Image(p, ConfigName) {
      var y :| y in r && NameOf(y) == x;
      var k :| 0 <= k < |r| && r[k] == y;
      assert p[k] in p;
    }
    forall x | x in Image(p, ConfigName) ensures x in Image(r, NameOf) {
      var y :| y in p && ConfigName(y) == x;
      var k :| 0 <= k < |p| && p[k] == y;
      assert r[k] in r;
    }
  }

  /** The names a filter keeps. */
  lemma FilterNames(s: seq<Live>, names: set<string>)
    ensures Image(Filter(s, NameOutside(names)), NameOf) == Image(s, NameOf) - names
  {
    FilterMembership(s, NameOutside(names));
    var f := Filter(s, NameOutside(names));
    forall x | x in Image(s, NameOf) - names ensures x in Image(f, NameOf) {
      var y :| y in s && NameOf(y) == x;
      assert y in f;
    }
  }

  lemma FilterConfigNames(m: seq<ServerConfig>, names: set<string>)
    ensures Image(Filter(m, ConfigOutside(names)), ConfigName) == Image(m, ConfigName) - names
  {
    FilterMembership(m, ConfigOutside(names));
    var f := Filter(m, ConfigOutside(names));
    forall x | x in Image(m, ConfigName) - names ensures x in Image(f, ConfigName) {
      var y :| y in m && ConfigName(y) == x;
      assert y in f;
    }
  }

  /** The subscribers kept are exactly those of the kept names, and the
      subscribers created are those of the new entries whose names were
      not kept. */
  lemma ReconciledParts(b: Builder, s1: seq<Live>, re0: seq<ServerConfig>, id0: nat)
    requires AllPending(re0)
    ensures Image(Survivors(b, s1, re0), NameOf) == KeptNames(b, s1, re0)
    ensures Created(b, s1, re0, id0) == Spawn(Filter(re0, ConfigOutside(KeptNames(b, s1, re0))), id0)
    ensures Image(Created(b, s1, re0, id0), NameOf) == Image(re0, ConfigName) - KeptNames(b, s1, re0)
  {
    StaleKeptPartition(b, s1, re0);
    FilterNames(s1, StaleNames(b, s1, re0));
    PendingAfterMark(re0, KeptNames(b, s1, re0));
    SpawnNames(Filter(re0, ConfigOutside(KeptNames(b, s1, re0))), id0);
    FilterConfigNames(re0, KeptNames(b, s1, re0));
  }

  /** After a non-empty pass the servers served are exactly the servers
      configured: stale servers are re-created, vanished ones are gone. */
  lemma ReconciledNames(b: Builder, s1: seq<Live>, re0: seq<ServerConfig>, id0: nat)
    requires AllPending(re0)
    ensures Image(Reconciled(b, s1, re0, id0), NameOf) == Image(re0, ConfigName)
  {
    ReconciledParts(b, s1, re0, id0);
    StaleKeptPartition(b, s1, re0);
    ImageAppend(Survivors(b, s1, re0), Created(b, s1, re0, id0), NameOf);
  }

  /** With distinct live names and distinct new names, the pass leaves at
      most one subscriber per server: unchanged servers are not connected
      a second time. */
  lemma ReconciledOnePerName(b: Builder, s1: seq<Live>, re0: seq<ServerConfig>, id0: nat)
    requires AllPending(re0)
    requires Injective(s1, NameOf) && Injective(re0, ConfigName)
    ensures Injective(Reconciled(b, s1, re0, id0), NameOf)
  {
    ReconciledParts(b, s1, re0, id0);
    FilterInjective(s1, NameOutside(StaleNames(b, s1, re0)), NameOf);
    FilterInjective(re0, ConfigOutside(KeptNames(b, s1, re0)), ConfigName);
    SpawnNames(Filter(re0, ConfigOutside(KeptNames(b, s1, re0))), id0);
    InjectiveAppend(Survivors(b, s1, re0), Created(b, s1, re0, id0), NameOf);
  }

  /** The subscribers of unchanged servers stay as they were, and no new
      subscriber is created for them; the new ones get the identities
      `id0`, `id0 + 1`, ... */
  lemma ReconciledKeepsUnchanged(b: Builder, s1: seq<Live>, re0: seq<ServerConfig>, id0: nat)
    requires AllPending(re0)
    ensures forall s :: s in s1 && NameOf(s) in KeptNames(b, s1, re0) ==> s in Survivors(b, s1, re0)
    ensures forall s :: s in Survivors(b, s1, re0) ==> s in s1
    ensures forall r :: r in Created(b, s1, re0, id0) ==> NameOf(r) !in KeptNames(b, s1, re0)
    ensures forall k :: 0 <= k < |Created(b, s1, re0, id0)| ==> Created(b, s1, re0, id0)[k].id == id0 + k
  {
    ReconciledParts(b, s1, re0, id0);
    StaleKeptPartition(b, s1, re0);
    FilterMembership(s1, NameOutside(StaleNames(b, s1, re0)));
    forall r | r in Created(b, s1, re0, id0) ensures NameOf(r) !in KeptNames(b, s1, re0) {
      assert NameOf(r) in Image(Created(b, s1, re0, id0), NameOf);
    }
  }

  /** A subscriber that agrees with the corrected map of distinct
      configurations serves the URL and the nodes of its configuration. */
  lemma MatchesConfigEntry(r: Live, re0: seq<ServerConfig>)
    requires Injective(re0, ConfigName)
    requires NameOf(r) in ServerMap(re0)
    requires r.server.url == ServerMap(re0)[NameOf(r)].url
    requires Image(r.nodes, NodeKey) == ServerMap(re0)[NameOf(r)].subscription.Keys
    ensures exists j :: (0 <= j < |re0| && ConfigName(re0[j]) == NameOf(r)
      && r.server.url == re0[j].server.url
      && Nodes(r.nodes) == Nodes(re0[j].subscriptions))
  {
    MapKeys(Corrected, [], re0);
    assert NameOf(r) in Image(re0, ConfigName);
    var c :| c in re0 && ConfigName(c) == NameOf(r);
    var j :| 0 <= j < |re0| && re0[j] == c;
    ServerMapAt(re0, j);
    NodeKeySets(r.nodes, re0[j].subscriptions);
  }

  /** With distinct names, every subscriber left after the pass serves its
      server's configured URL and exactly its configured nodes, `Id` and
      `DisplayName` alike. */
  lemma ReconciledMatchesConfig(s1: seq<Live>, re0: seq<ServerConfig>, id0: nat)
    requires AllPending(re0)
    requires Injective(s1, NameOf) && Injective(re0, ConfigName)
    ensures forall r :: r in Reconciled(Corrected, s1, re0, id0) ==>
      NameOf(r) in ServerMap(re0)
      && r.server.url == ServerMap(re0)[NameOf(r)].url
      && Image(r.nodes, NodeKey) == ServerMap(re0)[NameOf(r)].subscription.Keys
    ensures forall r :: r in Reconciled(Corrected, s1, re0, id0) ==>
      exists j :: (0 <= j < |re0| && ConfigName(re0[j]) == NameOf(r)
        && r.server.url == re0[j].server.url
        && Nodes(r.nodes) == Nodes(re0[j].subscriptions))
  {
    ReconciledParts(Corrected, s1, re0, id0);
    var kept := KeptNames(Corrected, s1, re0);
    var surv := Survivors(Corrected, s1, re0);
    var p := Filter(re0, ConfigOutside(kept));
    forall r | r in Reconciled(Corrected, s1, re0, id0)
      ensures NameOf(r) in ServerMap(re0)
      ensures r.server.url == ServerMap(re0)[NameOf(r)].url
      ensures Image(r.nodes, NodeKey) == ServerMap(re0)[NameOf(r)].subscription.Keys
    {
      if r in surv {
        var i :| 0 <= i < |surv| && surv[i] == r;
        var k := FilterSource(s1, NameOutside(StaleNames(Corrected, s1, re0)), i);
        LiveMapAt(s1, k);
        assert NameOf(r) in Image(surv, NameOf);
        var lm, nm := LiveMap(s1), ServerMap(re0);
        assert Unchanged(lm, nm, NameOf(r));
        SameSubscriptionsIsEquality(nm[NameOf(r)].subscription.Keys, lm[NameOf(r)].subscription.Keys);
      } else {
        var c := Created(Corrected, s1, re0, id0);
        assert r in c;
        var k :| 0 <= k < |c| && c[k] == r;
        var j := FilterSource(re0, ConfigOutside(kept), k);
        assert r.server == re0[j].server && r.nodes == re0[j].subscriptions;
        ServerMapAt(re0, j);
      }
    }
    forall r | r in Reconciled(Corrected, s1, re0, id0)
      ensures exists j :: (0 <= j < |re0| && ConfigName(re0[j]) == NameOf(r)
        && r.server.url == re0[j].server.url
        && Nodes(r.nodes) == Nodes(re0[j].subscriptions))
    {
      MatchesConfigEntry(r, re0);
    }
  }

  // ---------------------------------------------------------------------
  // The key as written, in the reconciliation
  // ---------------------------------------------------------------------

  /** As written, a server whose only node is replaced while its name and
      URL stay is judged unchanged, so its old node stays monitored; the
      corrected key judges it stale, whether the `Id` or only the
      `DisplayName` changed. */
  lemma AsWrittenMissesNodeChange(srv: ServerInfo, id: nat, n1: OpcNode, n2: OpcNode)
    requires n1 != n2
    ensures var s1 := [Live(id, srv, [n1])];
      var re0 := [ServerConfig(srv, [n2], false)];
      Unchanged(LiveMapAsWritten(s1), ServerMapAsWritten(re0), srv.name)
      && !Unchanged(LiveMap(s1), ServerMap(re0), srv.name)
  {
    var s1 := [Live(id, srv, [n1])];
    var re0 := [ServerConfig(srv, [n2], false)];
    var le, ce := LiveEntries(s1, NodeKeyAsWritten, NodeLabelAsWritten), ConfigEntries(re0, NodeKeyAsWritten, NodeLabelAsWritten);
    assert le == [Summarize(srv, [n1], NodeKeyAsWritten, NodeLabelAsWritten)];
    assert ce == [Summarize(srv, [n2], NodeKeyAsWritten, NodeLabelAsWritten)];
    CollectAsWrittenSingle(le[0]);
    CollectAsWrittenSingle(ce[0]);
    AsWrittenKeysIgnoreNodes([n1], [n2]);
    LiveMapAt(s1, 0);
    ServerMapAt(re0, 0);
    assert Image([n1], NodeKey) == {NodeKey(n1)};
    assert Image([n2], NodeKey) == {NodeKey(n2)};
    NodeKeyInjective(n1, n2);
    SameSubscriptionsIsEquality({NodeKey(n2)}, {NodeKey(n1)});
  }

  /** One live subscriber and one new entry of the same server: the name
      is kept or stale according to the verdict on it. */
  lemma SingleServerNames(b: Builder, x: Live, c: ServerConfig)
    requires NameOf(x) == ConfigName(c)
    ensures var u := Unchanged(LiveMapBy(b, [x]), ServerMapBy(b, [c]), NameOf(x));
      && KeptNames(b, [x], [c]) == (if u then {NameOf(x)} else {})
      && StaleNames(b, [x], [c]) == (if u then {} else {NameOf(x)})
  {
    MapKeys(b, [x], [c]);
    assert Image([x], NameOf) == {NameOf(x)};
    VerdictOfOne(LiveMapBy(b, [x]), ServerMapBy(b, [c]), NameOf(x));
  }

  lemma VerdictOfOne(liveMap: map<string, Summary>, newMap: map<string, Summary>, name: string)
    requires liveMap.Keys == {name}
    ensures var u := Unchanged(liveMap, newMap, name);
      && Kept(liveMap, newMap) == (if u then {name} else {})
      && Stale(liveMap, newMap) == (if u then {} else {name})
  {
  }

  /** A pass over one live subscriber and one new entry of the same server,
      judged unchanged: the subscriber stays and nothing is created. */
  lemma SingleServerKept(b: Builder, x: Live, c: ServerConfig, id0: nat)
    requires NameOf(x) == ConfigName(c)
    requires Unchanged(LiveMapBy(b, [x]), ServerMapBy(b, [c]), NameOf(x))
    ensures Reconciled(b, [x], [c], id0) == [x] && Created(b, [x], [c], id0) == []
  {
    SingleServerNames(b, x, c);
    assert Survivors(b, [x], [c]) == Filter([x], NameOutside({}));
    FilterAll([x], NameOutside({}));
    var marked := Mark([c], {NameOf(x)});
    assert marked == [c.(connection := true)];
    FilterNone(marked, IsPending);
    assert Created(b, [x], [c], id0) == Spawn([], id0);
  }

  /** The same pass with the server judged changed: the subscriber is
      replaced by a new one for the entry. */
  lemma SingleServerStale(b: Builder, x: Live, c: ServerConfig, id0: nat)
    requires NameOf(x) == ConfigName(c) && !c.connection
    requires !Unchanged(LiveMapBy(b, [x]), ServerMapBy(b, [c]), NameOf(x))
    ensures Reconciled(b, [x], [c], id0) == [Live(id0, c.server, c.subscriptions)]
    ensures StaleNames(b, [x], [c]) == {NameOf(x)}
  {
    SingleServerNames(b, x, c);
    assert Survivors(b, [x], [c]) == Filter([x], NameOutside({NameOf(x)}));
    FilterNone([x], NameOutside({NameOf(x)}));
    var marked := Mark([c], {});
    assert marked == [c];
    FilterAll(marked, IsPending);
    assert Created(b, [x], [c], id0) == Spawn([c], id0);
  }

  /** The whole pass on that case: as written, the subscriber stays on its
      old node and nothing is connected; corrected, it is disconnected and a
      new subscriber serves the new node. */
  lemma AsWrittenPassKeepsOldNode(srv: ServerInfo, id: nat, n1: OpcNode, n2: OpcNode, id0: nat)
    requires n1 != n2
    ensures var s1 := [Live(id, srv, [n1])];
      var re0 := [ServerConfig(srv, [n2], false)];
      && Reconciled(AsWritten, s1, re0, id0) == s1
      && Created(AsWritten, s1, re0, id0) == []
      && Reconciled(Corrected, s1, re0, id0) == [Live(id0, srv, [n2])]
      && StaleNames(Corrected, s1, re0) == {srv.name}
  {
    var x := Live(id, srv, [n1]);
    var c := ServerConfig(srv, [n2], false);
    AsWrittenMissesNodeChange(srv, id, n1, n2);
    SingleServerKept(AsWritten, x, c, id0);
    SingleServerStale(Corrected, x, c, id0);
  }

  /** A node renamed under the same `Id`: as written nothing happens, while
      the corrected pass replaces subscriber 0 by subscriber 1, which
      publishes under the new display name. */
  lemma CorrectedSeesRename()
    ensures var srv := ServerInfo("A", "opc.tcp://a:4840", Num(1.0), None);
      var s1 := [Live(0, srv, [OpcNode("ns=1;i=1", "t1")])];
      var re0 := [ServerConfig(srv, [OpcNode("ns=1;i=1", "t2")], false)];
      && Reconciled(AsWritten, s1, re0, 1) == s1
      && Reconciled(Corrected, s1, re0, 1) == [Live(1, srv, [OpcNode("ns=1;i=1", "t2")])]
      && StaleNames(Corrected, s1, re0) == {"A"}
  {
    var srv := ServerInfo("A", "opc.tcp://a:4840", Num(1.0), None);
    AsWrittenPassKeepsOldNode(srv, 0, OpcNode("ns=1;i=1", "t1"), OpcNode("ns=1;i=1", "t2"), 1);
  }

  lemma UnchangedAgainstItself(m: map<string, Summary>, name: string)
    requires name in m
    ensures Unchanged(m, m, name)
  {
  }

  /** The as-written live map of two subscribers, the first one named
      "undefined": both names hold the second subscriber's summary. */
  lemma LiveMapAsWrittenAliases(u: ServerInfo, b: ServerInfo, nu: seq<OpcNode>, nb: seq<OpcNode>)
    requires u.name == "undefined" && b.name == "B"
    ensures var sb := Summarize(b, nb, NodeKeyAsWritten, NodeLabelAsWritten).1;
      LiveMapAsWritten([Live(0, u, nu), Live(1, b, nb)]) == map["undefined" := sb, "B" := sb]
  {
    var le := LiveEntries([Live(0, u, nu), Live(1, b, nb)], NodeKeyAsWritten, NodeLabelAsWritten);
    assert le == [("undefined", le[0].1), ("B", le[1].1)];
    AsWrittenAliasesUndefined(le[0].1, le[1].1);
  }

  lemma ServerMapAsWrittenAliases(u: ServerInfo, b: ServerInfo, nu: seq<OpcNode>, nb: seq<OpcNode>)
    requires u.name == "undefined" && b.name == "B"
    ensures var sb := Summarize(b, nb, NodeKeyAsWritten, NodeLabelAsWritten).1;
      ServerMapAsWritten([ServerConfig(u, nu, false), ServerConfig(b, nb, false)]) == map["undefined" := sb, "B" := sb]
  {
    var ce := ConfigEntries([ServerConfig(u, nu, false), ServerConfig(b, nb, false)], NodeKeyAsWritten, NodeLabelAsWritten);
    assert ce == [("undefined", ce[0].1), ("B", ce[1].1)];
    AsWrittenAliasesUndefined(ce[0].1, ce[1].1);
  }

  /** The corrected maps of the same two lists see the URL change. */
  lemma CorrectedSeesUrlChange(u: ServerInfo, u': ServerInfo, b: ServerInfo, n: seq<OpcNode>)
    requires u.name == u'.name == "undefined" && b.name == "B" && u.url != u'.url
    ensures !Unchanged(LiveMap([Live(0, u, n), Live(1, b, n)]),
                       ServerMap([ServerConfig(u', n, false), ServerConfig(b, n, false)]), "undefined")
  {
    var s1 := [Live(0, u, n), Live(1, b, n)];
    var re0 := [ServerConfig(u', n, false), ServerConfig(b, n, false)];
    assert Injective(s1, NameOf);
    assert Injective(re0, ConfigName);
    LiveMapAt(s1, 0);
    ServerMapAt(re0, 0);
  }

  /** As written, a server named "undefined" takes the next server's URL
      and nodes in both maps, so a change of its own URL goes unnoticed;
      the corrected maps see it. */
  lemma AsWrittenMissesUrlChange(u: ServerInfo, u': ServerInfo, b: ServerInfo, n: seq<OpcNode>)
    requires u.name == u'.name == "undefined" && b.name == "B" && u.url != u'.url
    ensures var s1 := [Live(0, u, n), Live(1, b, n)];
      var re0 := [ServerConfig(u', n, false), ServerConfig(b, n, false)];
      Unchanged(LiveMapAsWritten(s1), ServerMapAsWritten(re0), "undefined")
      && !Unchanged(LiveMap(s1), ServerMap(re0), "undefined")
  {
    var s1 := [Live(0, u, n), Live(1, b, n)];
    var re0 := [ServerConfig(u', n, false), ServerConfig(b, n, false)];
    LiveMapAsWrittenAliases(u, b, n, n);
    ServerMapAsWrittenAliases(u', b, n, n);
    UnchangedAgainstItself(LiveMapAsWritten(s1), "undefined");
    CorrectedSeesUrlChange(u, u', b, n);
  }

  // ---------------------------------------------------------------------
  // Facts the engine's loops use
  // ---------------------------------------------------------------------

  lemma IdsAppend(a: seq<Live>, b: seq<Live>)
    ensures Ids(a + b) == Ids(a) + Ids(b)
  {
  }

  /** Spawning one entry more appends one subscriber with the next id. */
  lemma SpawnSnoc(p: seq<ServerConfig>, c: ServerConfig, id0: nat)
    ensures Spawn(p + [c], id0) == Spawn(p, id0) + [Live(id0 + |p|, c.server, c.subscriptions)]
  {
  }

  /** A subscriber of `names` visited in the disconnect branch joins the
      ones already disconnected, `gone`. */
  lemma GoneDrop(s: seq<Live>, k: nat, names: set<string>, gone: seq<Live>, d0: seq<nat>)
    requires k < |s| && s[k].server.name in names
    requires gone == Filter(s[..k], NameInside(names))
    ensures Filter(s[..k + 1], NameInside(names)) == gone + [s[k]]
    ensures (d0 + Ids(gone)) + [s[k].id] == d0 + Ids(gone + [s[k]])
  {
    FilterSnoc(s, k, NameInside(names));
    IdsAppend(gone, [s[k]]);
    assert (d0 + Ids(gone)) + [s[k].id] == d0 + (Ids(gone) + [s[k].id]);
  }

  /** A subscriber of another server leaves `gone` as it is. */
  lemma GoneKeep(s: seq<Live>, k: nat, names: set<string>, gone: seq<Live>)
    requires k < |s| && s[k].server.name !in names
    requires gone == Filter(s[..k], NameInside(names))
    ensures Filter(s[..k + 1], NameInside(names)) == gone
  {
    FilterSnoc(s, k, NameInside(names));
  }

  /** Where `connectServer` stands at entry `i`: the entries before it
      are marked connected, the rest are as they were. */
  lemma ConnectAt(r: seq<ServerConfig>, i: nat, cur: seq<ServerConfig>)
    requires i < |r| && cur == SetConnected(r[..i]) + r[i..]
    ensures i < |cur| && cur[i] == r[i]
  {
  }

  /** An entry not yet connected gets a new subscriber with the next
      identity and is marked connected. */
  lemma SpawnNew(r: seq<ServerConfig>, i: nat, id0: nat, pending: seq<ServerConfig>, cur: seq<ServerConfig>,
                  s0: seq<Live>, c0: seq<nat>)
    requires i < |r| && !r[i].connection
    requires pending == Filter(r[..i], IsPending) && cur == SetConnected(r[..i]) + r[i..]
    ensures Filter(r[..i + 1], IsPending) == pending + [r[i]]
    ensures (s0 + Spawn(pending, id0)) + [Live(id0 + |pending|, r[i].server, r[i].subscriptions)]
         == s0 + Spawn(pending + [r[i]], id0)
    ensures (c0 + Ids(Spawn(pending, id0))) + [id0 + |pending|] == c0 + Ids(Spawn(pending + [r[i]], id0))
    ensures cur[i := r[i].(connection := true)] == SetConnected(r[..i + 1]) + r[i + 1..]
  {
    FilterSnoc(r, i, IsPending);
    var x := Live(id0 + |pending|, r[i].server, r[i].subscriptions);
    SpawnSnoc(pending, r[i], id0);
    IdsAppend(Spawn(pending, id0), [x]);
    assert (s0 + Spawn(pending, id0)) + [x] == s0 + (Spawn(pending, id0) + [x]);
    assert (c0 + Ids(Spawn(pending, id0))) + [x.id] == c0 + (Ids(Spawn(pending, id0)) + [x.id]);
    assert r[..i + 1] == r[..i] + [r[i]];
  }

  /** An entry already connected is passed over. */
  lemma SpawnSkip(r: seq<ServerConfig>, i: nat, pending: seq<ServerConfig>, cur: seq<ServerConfig>)
    requires i < |r| && r[i].connection
    requires pending == Filter(r[..i], IsPending) && cur == SetConnected(r[..i]) + r[i..]
    ensures Filter(r[..i + 1], IsPending) == pending
    ensures cur == SetConnected(r[..i + 1]) + r[i + 1..]
  {
    FilterSnoc(r, i, IsPending);
    assert r[..i + 1] == r[..i] + [r[i]];
    assert r[i].(connection := true) == r[i];
  }

  /** Marking name by name is marking the set of names. */
  lemma MarkUnion(m: seq<ServerConfig>, names: set<string>, name: string)
    ensures Mark(Mark(m, names), {name}) == Mark(m, names + {name})
  {
  }

  /** The ids of the subscribers of two disjoint name sets, together, are
      the ids of the subscribers of their union. */
  lemma {:induction false} IdsFilterUnion(s: seq<Live>, a: set<string>, b: set<string>)
    requires a !! b
    ensures multiset(Ids(Filter(s, NameInside(a + b))))
         == multiset(Ids(Filter(s, NameInside(a)))) + multiset(Ids(Filter(s, NameInside(b))))
  {
    if s != [] {
      IdsFilterUnion(s[1..], a, b);
      var hab := if NameInside(a + b)(s[0]) then [s[0]] else [];
      var ha := if NameInside(a)(s[0]) then [s[0]] else [];
      var hb := if NameInside(b)(s[0]) then [s[0]] else [];
      IdsAppend(hab, Filter(s[1..], NameInside(a + b)));
      IdsAppend(ha, Filter(s[1..], NameInside(a)));
      IdsAppend(hb, Filter(s[1..], NameInside(b)));
    }
  }

  /** Where the disconnect pass stands once the live names in `done` are
      visited, starting from subscribers `s1`, log `d0` and reload list
      `re0`: the current subscribers, log and reload list. */
  ghost predicate PassState(subs: seq<Live>, disc: seq<nat>, res: seq<ServerConfig>,
                            s1: seq<Live>, d0: seq<nat>, re0: seq<ServerConfig>,
                            stale: set<string>, kept: set<string>, done: set<string>)
  {
    && subs == Filter(s1, NameOutside(done * stale))
    && multiset(disc) == multiset(d0) + multiset(Ids(Filter(s1, NameInside(done * stale))))
    && res == Mark(re0, done * kept)
  }

  lemma PassStart(s1: seq<Live>, d0: seq<nat>, re0: seq<ServerConfig>, stale: set<string>, kept: set<string>)
    ensures PassState(s1, d0, re0, s1, d0, re0, stale, kept, {})
  {
    assert {} * stale == {} && {} * kept == {};
    FilterAll(s1, NameOutside({}));
    FilterNone(s1, NameInside({}));
    assert Mark(re0, {}) == re0;
  }

  lemma PassEnd(subs: seq<Live>, disc: seq<nat>, res: seq<ServerConfig>,
                s1: seq<Live>, d0: seq<nat>, re0: seq<ServerConfig>,
                stale: set<string>, kept: set<string>, done: set<string>)
    requires PassState(subs, disc, res, s1, d0, re0, stale, kept, done)
    requires stale <= done && kept <= done
    ensures subs == Filter(s1, NameOutside(stale))
    ensures multiset(disc) == multiset(d0) + multiset(Ids(Filter(s1, NameInside(stale))))
    ensures res == Mark(re0, kept)
  {
    assert done * stale == stale && done * kept == kept;
  }

  /** Disconnecting one more stale server, `name`, in the disconnect pass. */
  lemma DisconnectStep(s1: seq<Live>, done: set<string>, stale: set<string>, kept: set<string>, name: string)
    requires name in stale && name !in done && name !in kept
    ensures (done + {name}) * kept == done * kept
    ensures Filter(Filter(s1, NameOutside(done * stale)), NameOutside({name}))
         == Filter(s1, NameOutside((done + {name}) * stale))
    ensures Filter(Filter(s1, NameOutside(done * stale)), NameInside({name})) == Filter(s1, NameInside({name}))
    ensures multiset(Ids(Filter(s1, NameInside((done + {name}) * stale))))
         == multiset(Ids(Filter(s1, NameInside(done * stale)))) + multiset(Ids(Filter(s1, NameInside({name}))))
  {
    assert (done + {name}) * stale == done * stale + {name};
    FilterFilter(s1, NameOutside(done * stale), NameOutside({name}), NameOutside((done + {name}) * stale));
    FilterFilter(s1, NameOutside(done * stale), NameInside({name}), NameInside({name}));
    IdsFilterUnion(s1, done * stale, {name});
  }

  /** Marking one more unchanged server, `name`, in the disconnect pass. */
  lemma KeepStep(re0: seq<ServerConfig>, done: set<string>, stale: set<string>, kept: set<string>, name: string)
    requires name in kept && name !in stale
    ensures Mark(Mark(re0, done * kept), {name}) == Mark(re0, (done + {name}) * kept)
    ensures (done + {name}) * stale == done * stale
  {
    assert (done + {name}) * kept == done * kept + {name};
    MarkUnion(re0, done * kept, name);
  }

  /** The stale names are the live names not kept, and kept names are
      exactly the unchanged live names. */
  lemma StaleIsRest(b: Builder, s1: seq<Live>, re0: seq<ServerConfig>)
    ensures KeptNames(b, s1, re0) <= LiveMapBy(b, s1).Keys
    ensures StaleNames(b, s1, re0) == LiveMapBy(b, s1).Keys - KeptNames(b, s1, re0)
    ensures forall n :: n in LiveMapBy(b, s1) ==> (n in KeptNames(b, s1, re0) <==> Unchanged(LiveMapBy(b, s1), ServerMapBy(b, re0), n))
  {
  }

  /** Subscribers kept from `s1` and subscribers spawned from `id0` on have
      distinct identities, all below `id0` plus the number spawned. */
  lemma KeptAndSpawnedIds(s1: seq<Live>, stale: set<string>, p: seq<ServerConfig>, id0: nat)
    requires forall s :: s in s1 ==> s.id < id0
    requires Injective(s1, IdOf)
    ensures forall r :: r in Filter(s1, NameOutside(stale)) + Spawn(p, id0) ==> r.id < id0 + |p|
    ensures Injective(Filter(s1, NameOutside(stale)) + Spawn(p, id0), IdOf)
  {
    var surv, made := Filter(s1, NameOutside(stale)), Spawn(p, id0);
    FilterMembership(s1, NameOutside(stale));
    FilterInjective(s1, NameOutside(stale), IdOf);
    assert forall y :: y in surv ==> IdOf(y) < id0;
    forall y | y in made ensures id0 <= IdOf(y) < id0 + |p| {
      var k :| 0 <= k < |made| && made[k] == y;
    }
    assert Image(surv, IdOf) !! Image(made, IdOf);
    InjectiveAppend(surv, made, IdOf);
  }

  /** Subscriber identities stay distinct and below the next free one. */
  lemma ReconciledFreshIds(b: Builder, s1: seq<Live>, re0: seq<ServerConfig>, id0: nat)
    requires forall s :: s in s1 ==> s.id < id0
    requires Injective(s1, IdOf)
    ensures forall r :: r in Reconciled(b, s1, re0, id0) ==> r.id < id0 + |Created(b, s1, re0, id0)|
    ensures Injective(Reconciled(b, s1, re0, id0), IdOf)
  {
    KeptAndSpawnedIds(s1, StaleNames(b, s1, re0), Filter(Mark(re0, KeptNames(b, s1, re0)), IsPending), id0);
  }
}
