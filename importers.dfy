/**
  The importers: engine-config outbounds (as the encoders write them, or as
  a user's V2Ray configuration holds them) and Shadowsocks-Qt5 exports are
  read back into flat server records.
*/
module Importers {
  import opened Wrappers
  import opened QtString
  import opened QtJson
  import opened UrlDecoders

  // mKCP defaults used when an imported kcpSettings lacks a field.
  const DEFAULT_V2RAY_KCP_MTU: int := 1350
  const DEFAULT_V2RAY_KCP_TTI: int := 50
  const DEFAULT_V2RAY_KCP_UP_CAPACITY: int := 5
  const DEFAULT_V2RAY_KCP_DOWN_CAPACITY: int := 20
  // The write buffer also falls back on this one: the code never reads
  // DEFAULT_V2RAY_KCP_WRITE_BUF_SIZE (also 2).
  const DEFAULT_V2RAY_KCP_READ_BUF_SIZE: int := 2

  // ---------------------------------------------------------------------
  // settings.vnext

  /**
    getV2RayServerSettingsFromConfig: the first vnext entry gives address,
    port and a "address:port" name; its first user, if any, gives id,
    alter ID and security ("auto" when the user names none).
  */
  function ServerSettingsFromConfig(settings: JObject): (r: JObject)
    ensures ToArray(Get(settings, "vnext")) == [] ==> r == map[]
    ensures "serverAddr" in r <==> ToArray(Get(settings, "vnext")) != []
    ensures r != map[] ==>
      var server := ToObject(ToArray(Get(settings, "vnext"))[0]);
      var port := ToVariantInt(Get(server, "port"));
      "serverAddr" in r && r["serverAddr"] == Str(ToString(Get(server, "address"))) &&
      "serverPort" in r && r["serverPort"] == Num(port) &&
      "serverName" in r && r["serverName"] == Str(ToString(Get(server, "address")) + ":" + IntToString(port))
    ensures r != map[] ==>
      var users := ToArray(Get(ToObject(ToArray(Get(settings, "vnext"))[0]), "users"));
      ("id" in r <==> users != []) && ("alterId" in r <==> users != []) && ("security" in r <==> users != [])
    ensures r != map[] ==>
      var users := ToArray(Get(ToObject(ToArray(Get(settings, "vnext"))[0]), "users"));
      users != [] ==>
        var user := ToObject(users[0]);
        "id" in r && r["id"] == Str(ToString(Get(user, "id"))) &&
        "alterId" in r && r["alterId"] == Num(ToVariantInt(Get(user, "alterId"))) &&
        "security" in r &&
        ("security" in user ==> r["security"] == Str(ToString(user["security"]))) &&
        ("security" !in user ==> r["security"] == Str("auto"))
  {
    var vnext := ToArray(Get(settings, "vnext"));
    if vnext == [] then map[]
    else
      var server := ToObject(vnext[0]);
      var address := ToString(Get(server, "address"));
      var port := ToVariantInt(Get(server, "port"));
      var located := map[
        "serverAddr" := Str(address),
        "serverPort" := Num(port),
        "serverName" := Str(address + ":" + IntToString(ToInt(Num(port))))];
      var users := ToArray(Get(server, "users"));
      if users == [] then located
      else
        var user := ToObject(users[0]);
        located["id" := Str(ToString(Get(user, "id")))]
               ["alterId" := Num(ToVariantInt(Get(user, "alterId")))]
               ["security" := Str(if "security" in user then ToString(user["security"]) else "auto")]
  }

  // ---------------------------------------------------------------------
  // streamSettings

  /** The object the stream importer reads: `streamSettings` unless it is empty. */
  function StreamSource(transport: JObject, streamSettings: JObject): JObject
  {
    if streamSettings == map[] then transport else streamSettings
  }

  /** The network an imported stream names, "tcp" when it names none. */
  function ImportedNetwork(s: JObject): string
  {
    if "network" in s then ToString(s["network"]) else "tcp"
  }

  /** A header's type, "none" when it has none. */
  function HeaderType(section: JObject): string
  {
    var header := ToObject(Get(section, "header"));
    if "type" in header then ToString(header["type"]) else "none"
  }

  /** A kcpSettings number, or its default when the field is missing. */
  function KcpNumber(kcp: JObject, key: string, default: int): Json
  {
    Num(if key in kcp then ToVariantInt(kcp[key]) else default)
  }

  /** Adds the flat kcp fields; the write buffer falls back on the read-buffer default. */
  function WithKcp(o: JObject, kcp: JObject): JObject
  {
    o["kcpMtu" := KcpNumber(kcp, "mtu", DEFAULT_V2RAY_KCP_MTU)]
     ["kcpTti" := KcpNumber(kcp, "tti", DEFAULT_V2RAY_KCP_TTI)]
     ["kcpUpLink" := KcpNumber(kcp, "uplinkCapacity", DEFAULT_V2RAY_KCP_UP_CAPACITY)]
     ["kcpDownLink" := KcpNumber(kcp, "downlinkCapacity", DEFAULT_V2RAY_KCP_DOWN_CAPACITY)]
     ["kcpReadBuffer" := KcpNumber(kcp, "readBufferSize", DEFAULT_V2RAY_KCP_READ_BUF_SIZE)]
     ["kcpWriteBuffer" := KcpNumber(kcp, "writeBufferSize", DEFAULT_V2RAY_KCP_READ_BUF_SIZE)]
     ["kcpCongestion" := Bool(ToBool(Get(kcp, "congestion")))]
     ["packetHeader" := Str(HeaderType(kcp))]
  }

  /** Adds the flat ws fields: host from "host" or else "Host"; the path as stored (null when missing). */
  function WithWs(o: JObject, ws: JObject): JObject
  {
    var headers := ToObject(Get(ws, "headers"));
    Put(o["networkHost" := Str(if "host" in headers then ToString(headers["host"]) else ToString(Get(headers, "Host")))],
        "networkPath", RefGet(ws, "path"))
  }

  /** Adds the flat http fields: the first host (left out when there is none) and the path read as text. */
  function WithHttp(o: JObject, http: JObject): JObject
  {
    Put(o, "networkHost", At(ToArray(Get(http, "host")), 0))["networkPath" := Str(ToString(Get(http, "path")))]
  }

  /** Adds the flat quic fields. */
  function WithQuic(o: JObject, quic: JObject): JObject
  {
    o["quicSecurity" := Str(if "security" in quic then ToString(quic["security"]) else "none")]
     ["packetHeader" := Str(HeaderType(quic))]
     ["quicKey" := Str(ToString(Get(quic, "key")))]
  }

  /** Adds the flat fields of the transport section of `network`; nothing for an unknown network. */
  function WithTransport(o: JObject, s: JObject, network: string): JObject
  {
    if network == "tcp" then o["tcpHeaderType" := Str(HeaderType(ToObject(Get(s, "tcpSettings"))))]
    else if network == "kcp" then WithKcp(o, ToObject(Get(s, "kcpSettings")))
    else if network == "ws" then WithWs(o, ToObject(Get(s, "wsSettings")))
    else if network == "http" then WithHttp(o, ToObject(Get(s, "httpSettings")))
    else if network == "domainsocket" then o["domainSocketFilePath" := Str(ToString(Get(ToObject(Get(s, "dsSettings")), "path")))]
    else if network == "quic" then WithQuic(o, ToObject(Get(s, "quicSettings")))
    else o
  }

  /**
    The flat stream fields every import has; allowInsecure is true unless a
    tlsSettings section is present, which then gives its own value (null
    when it is silent).
  */
  function ImportedStreamBase(s: JObject): JObject
  {
    Put(map[
          "network" := Str(ImportedNetwork(s)),
          "networkSecurity" := Str(if "security" in s then ToString(s["security"]) else "none")],
        "allowInsecure",
        if "tlsSettings" in s then RefGet(ToObject(s["tlsSettings"]), "allowInsecure") else Bool(true))
  }

  /** What the stream importer builds from the object it reads. */
  function ImportedStream(s: JObject): JObject
  {
    WithTransport(ImportedStreamBase(s), s, ImportedNetwork(s))
  }

  /** getV2RayStreamSettingsFromConfig. */
  method V2RayStreamSettingsFromConfig(transport: JObject, streamSettings: JObject) returns (serverStreamSettings: JObject)
    ensures serverStreamSettings == ImportedStream(StreamSource(transport, streamSettings))
  {
    var s := if streamSettings == map[] then transport else streamSettings;
    var network := if "network" in s then ToString(s["network"]) else "tcp";
    serverStreamSettings := map[];
    serverStreamSettings := serverStreamSettings["network" := Str(network)];
    serverStreamSettings := serverStreamSettings[
      "networkSecurity" := Str(if "security" in s then ToString(s["security"]) else "none")];
    serverStreamSettings := serverStreamSettings["allowInsecure" := Bool(true)];
    if "tlsSettings" in s {
      var tlsSettings := ToObject(s["tlsSettings"]);
      serverStreamSettings := Put(serverStreamSettings,
        "allowInsecure", RefGet(tlsSettings, "allowInsecure"));
    }
    ghost var base := serverStreamSettings;
    assert base == ImportedStreamBase(s);
    if network == "tcp" {
      var tcpSettings := ToObject(Get(s, "tcpSettings"));
      serverStreamSettings := serverStreamSettings["tcpHeaderType" := Str(HeaderType(tcpSettings))];
    } else if network == "kcp" {
      var kcpSettings := ToObject(Get(s, "kcpSettings"));
      serverStreamSettings := serverStreamSettings[
        "kcpMtu" := KcpNumber(kcpSettings, "mtu", DEFAULT_V2RAY_KCP_MTU)];
      serverStreamSettings := serverStreamSettings[
        "kcpTti" := KcpNumber(kcpSettings, "tti", DEFAULT_V2RAY_KCP_TTI)];
      serverStreamSettings := serverStreamSettings[
        "kcpUpLink" := KcpNumber(kcpSettings, "uplinkCapacity", DEFAULT_V2RAY_KCP_UP_CAPACITY)];
      serverStreamSettings := serverStreamSettings[
        "kcpDownLink" := KcpNumber(kcpSettings, "downlinkCapacity", DEFAULT_V2RAY_KCP_DOWN_CAPACITY)];
      serverStreamSettings := serverStreamSettings[
        "kcpReadBuffer" := KcpNumber(kcpSettings, "readBufferSize", DEFAULT_V2RAY_KCP_READ_BUF_SIZE)];
      serverStreamSettings := serverStreamSettings[
        "kcpWriteBuffer" := KcpNumber(kcpSettings, "writeBufferSize", DEFAULT_V2RAY_KCP_READ_BUF_SIZE)];
      serverStreamSettings := serverStreamSettings[
        "kcpCongestion" := Bool(ToBool(Get(kcpSettings, "congestion")))];
      serverStreamSettings := serverStreamSettings["packetHeader" := Str(HeaderType(kcpSettings))];
    } else if network == "ws" {
      var wsSettings := ToObject(Get(s, "wsSettings"));
      var headers := ToObject(Get(wsSettings, "headers"));
      serverStreamSettings := serverStreamSettings[
        "networkHost" := Str(if "host" in headers then ToString(headers["host"]) else ToString(Get(headers, "Host")))];
      serverStreamSettings := Put(serverStreamSettings, "networkPath", RefGet(wsSettings, "path"));
    } else if network == "http" {
      var httpSettings := ToObject(Get(s, "httpSettings"));
      serverStreamSettings := Put(serverStreamSettings,
        "networkHost", At(ToArray(Get(httpSettings, "host")), 0));
      serverStreamSettings := serverStreamSettings["networkPath" := Str(ToString(Get(httpSettings, "path")))];
    } else if network == "domainsocket" {
      var dsSettings := ToObject(Get(s, "dsSettings"));
      serverStreamSettings := serverStreamSettings[
        "domainSocketFilePath" := Str(ToString(Get(dsSettings, "path")))];
    } else if network == "quic" {
      var quicSettings := ToObject(Get(s, "quicSettings"));
      serverStreamSettings := serverStreamSettings[
        "quicSecurity" := Str(if "security" in quicSettings then ToString(quicSettings["security"]) else "none")];
      serverStreamSettings := serverStreamSettings["packetHeader" := Str(HeaderType(quicSettings))];
      serverStreamSettings := serverStreamSettings["quicKey" := Str(ToString(Get(quicSettings, "key")))];
    }
    assert serverStreamSettings == WithTransport(base, s, network);
  }

  // ---------------------------------------------------------------------
  // Engine configurations

  /**
    QJsonObject::insert of every entry of `source` into `target`: source
    entries win, and an undefined source value removes its key.
  */
  function Merged(target: JObject, source: JObject): JObject
  {
    map k | k in target.Keys + source.Keys && !(k in source && source[k].Undefined?) ::
      if k in source then source[k] else target[k]
  }

  /** The loop that inserts the stream fields into the server record. */
  method InsertAll(target: JObject, source: JObject) returns (r: JObject)
    ensures r == Merged(target, source)
  {
    r := target;
    var pending := source.Keys;
    while pending != {}
      invariant pending <= source.Keys
      invariant r == Merged(target, source - pending)
      decreases |pending|
    {
      var k :| k in pending;
      ghost var done := source - pending;
      MergedPut(target, done, k, source[k]);
      r := Put(r, k, source[k]);
      pending := pending - {k};
      assert source - pending == done[k := source[k]];
    }
    assert source - {} == source;
  }

  /** Inserting one more entry extends the merge by that entry. */
  lemma MergedPut(target: JObject, done: JObject, k: string, v: Json)
    ensures Put(Merged(target, done), k, v) == Merged(target, done[k := v])
  {
  }

  /** With no undefined values to remove, inserting everything is the map union. */
  lemma MergedIsUnion(target: JObject, source: JObject)
    requires forall k :: k in source ==> !source[k].Undefined?
    ensures Merged(target, source) == target + source
  {
  }

  /** The concurrency an outbound's mux object asks for (0 when it gives none). */
  function MuxConcurrency(server: JObject): int
  {
    ToVariantInt(Get(ToObject(Get(server, "mux")), "concurrency"))
  }

  /**
    The mux entry: the concurrency as text when the outbound asks for a
    positive one, else -1 when the record has no mux yet.
  */
  function WithMux(serverConfig: JObject, server: JObject): JObject
  {
    var withConcurrency :=
      if "mux" in server && MuxConcurrency(server) > 0
      then serverConfig["mux" := Str(IntToString(MuxConcurrency(server)))]
      else serverConfig;
    if "mux" !in withConcurrency then withConcurrency["mux" := Num(-1)] else withConcurrency
  }

  /**
    One outbound of getServerConfigFromV2RayConfig: none unless it is a
    VMess outbound with a vnext entry. The stream importer is called with
    its two arguments swapped, so the configuration's global `transport`
    is read whenever it is non-empty.
  */
  function ImportOutbound(item: Json, transport: JObject): Option<JObject>
  {
    var server := ToObject(item);
    if ToString(Get(server, "protocol")) != "vmess" then None
    else
      var serverSettings := ServerSettingsFromConfig(ToObject(Get(server, "settings")));
      if serverSettings == map[] then None
      else
        var streamSettings := ImportedStream(StreamSource(ToObject(Get(server, "streamSettings")), transport));
        Some(WithMux(Merged(serverSettings, streamSettings), server))
  }

  /** The values `f` gives the items, in order, leaving out the items it gives none for. */
  function Collect(items: seq<Json>, f: Json -> Option<JObject>): seq<JObject>
  {
    if items == [] then []
    else
      Collect(items[..|items| - 1], f) +
      (match f(items[|items| - 1]) case Some(v) => [v] case None => [])
  }

  /** The records imported from a list of outbounds, in order. */
  function ImportAll(items: seq<Json>, transport: JObject): seq<JObject>
  {
    Collect(items, item => ImportOutbound(item, transport))
  }

  lemma ImportAllStep(items: seq<Json>, i: int, transport: JObject)
    requires 0 <= i < |items|
    ensures ImportAll(items[..i + 1], transport) ==
      ImportAll(items[..i], transport) +
      (match ImportOutbound(items[i], transport) case Some(serverConfig) => [serverConfig] case None => [])
  {
    assert items[..i + 1][..i] == items[..i];
    assert items[..i + 1][i] == items[i];
  }

  /** The body of the import loop for one outbound: skipped unless VMess with a server. */
  method ImportServer(item: Json, transport: JObject) returns (serverConfig: Option<JObject>)
    ensures serverConfig == ImportOutbound(item, transport)
  {
    var server := ToObject(item);
    var protocol := ToString(Get(server, "protocol"));
    if protocol != "vmess" {
      return None;
    }
    var serverSettings := ServerSettingsFromConfig(ToObject(Get(server, "settings")));
    var streamSettings := V2RayStreamSettingsFromConfig(ToObject(Get(server, "streamSettings")), transport);
    if serverSettings == map[] {
      return None;
    }
    var merged := InsertAll(serverSettings, streamSettings);
    if "mux" in server {
      var mux := MuxConcurrency(server);
      if mux > 0 {
        merged := merged["mux" := Str(IntToString(mux))];
      }
    }
    if "mux" !in merged {
      merged := merged["mux" := Num(-1)];
    }
    return Some(merged);
  }

  /** getServerConfigFromV2RayConfig. */
  method ServerConfigFromV2RayConfig(config: JObject) returns (servers: seq<JObject>)
    ensures servers == ImportAll(ToArray(Get(config, "outbounds")), ToObject(Get(config, "transport")))
  {
    servers := [];
    var serversConfig := ToArray(Get(config, "outbounds"));
    var transport := ToObject(Get(config, "transport"));
    var i := 0;
    while i < |serversConfig|
      invariant 0 <= i <= |serversConfig|
      invariant servers == ImportAll(serversConfig[..i], transport)
    {
      ImportAllStep(serversConfig, i, transport);
      var serverConfig := ImportServer(serversConfig[i], transport);
      if serverConfig.Some? {
        servers := servers + [serverConfig.value];
      }
      i := i + 1;
    }
    assert serversConfig[..i] == serversConfig;
  }

  // ---------------------------------------------------------------------
  // Properties of the engine-config import

  /** The stream importer never stores an undefined value. */
  lemma ImportedStreamDefined(s: JObject)
    ensures forall k :: k in ImportedStream(s) ==> !ImportedStream(s)[k].Undefined?
  {
  }

  /** Neither importer produces a "mux" entry. */
  lemma NoMuxBeforeMerge(settings: JObject, s: JObject)
    ensures "mux" !in ServerSettingsFromConfig(settings)
    ensures "mux" !in ImportedStream(s)
  {
  }

  /**
    An imported record holds every field of the server settings and of the
    imported stream (the two share no key).
  */
  lemma ImportedRecordFields(server: JObject, transport: JObject, k: string)
    requires ImportOutbound(Obj(server), transport).Some?
    ensures var r := ImportOutbound(Obj(server), transport).value;
      var serverSettings := ServerSettingsFromConfig(ToObject(Get(server, "settings")));
      var stream := ImportedStream(StreamSource(ToObject(Get(server, "streamSettings")), transport));
      (k in stream ==> Get(r, k) == stream[k]) &&
      (k in serverSettings && k !in stream ==> Get(r, k) == serverSettings[k])
  {
    var serverSettings := ServerSettingsFromConfig(ToObject(Get(server, "settings")));
    var stream := ImportedStream(StreamSource(ToObject(Get(server, "streamSettings")), transport));
    ImportedStreamDefined(StreamSource(ToObject(Get(server, "streamSettings")), transport));
    MergedIsUnion(serverSettings, stream);
    NoMuxBeforeMerge(ToObject(Get(server, "settings")), StreamSource(ToObject(Get(server, "streamSettings")), transport));
  }

  /**
    Every imported record has a mux entry: the outbound's positive
    concurrency as decimal text, or else the number -1; read back as an
    integer it is that concurrency or -1.
  */
  lemma ImportedMux(server: JObject, transport: JObject)
    requires ImportOutbound(Obj(server), transport).Some?
    ensures var r := ImportOutbound(Obj(server), transport).value;
      var positive := "mux" in server && MuxConcurrency(server) > 0;
      "mux" in r &&
      r["mux"] == (if positive then Str(IntToString(MuxConcurrency(server))) else Num(-1)) &&
      ToVariantInt(r["mux"]) == (if positive then MuxConcurrency(server) else -1)
  {
    var serverSettings := ServerSettingsFromConfig(ToObject(Get(server, "settings")));
    var stream := ImportedStream(StreamSource(ToObject(Get(server, "streamSettings")), transport));
    NoMuxBeforeMerge(ToObject(Get(server, "settings")), StreamSource(ToObject(Get(server, "streamSettings")), transport));
    assert "mux" !in Merged(serverSettings, stream);
    if "mux" in server && MuxConcurrency(server) > 0 {
      VariantIntOfNumberText(MuxConcurrency(server));
    }
  }

  /** Only VMess outbounds with a vnext entry are imported. */
  lemma ImportOutboundKeeps(item: Json, transport: JObject)
    ensures var server := ToObject(item);
      ImportOutbound(item, transport).Some? <==>
        Get(server, "protocol") == Str("vmess") && ToArray(Get(ToObject(Get(server, "settings")), "vnext")) != []
  {
    var settings := ToObject(Get(ToObject(item), "settings"));
    if ToArray(Get(settings, "vnext")) != [] {
      assert "serverAddr" in ServerSettingsFromConfig(settings);
    }
  }

  /**
    The swapped call: once the configuration has a non-empty global
    transport, an outbound's own streamSettings makes no difference.
  */
  lemma GlobalTransportWins(server: JObject, streamSettings: Json, transport: JObject)
    requires transport != map[]
    ensures ImportOutbound(Obj(server["streamSettings" := streamSettings]), transport) == ImportOutbound(Obj(server), transport)
  {
    var other := server["streamSettings" := streamSettings];
    assert Get(other, "protocol") == Get(server, "protocol");
    assert Get(other, "settings") == Get(server, "settings");
    assert Get(other, "mux") == Get(server, "mux");
    assert ("mux" in other) == ("mux" in server);
  }

  /** Without a global transport, the outbound's own streamSettings is read. */
  lemma OwnStreamWithoutTransport(server: JObject)
    requires ImportOutbound(Obj(server), map[]).Some?
    ensures var r := ImportOutbound(Obj(server), map[]).value;
      Get(r, "network") == Str(ImportedNetwork(ToObject(Get(server, "streamSettings"))))
  {
    var s := StreamSource(ToObject(Get(server, "streamSettings")), map[]);
    ImportedRecordFields(server, map[], "network");
    WithTransportKeeps(ImportedStreamBase(s), s, ImportedNetwork(s), "network");
  }

  lemma {:induction false} CollectAppend(a: seq<Json>, b: seq<Json>, f: Json -> Option<JObject>)
    ensures Collect(a + b, f) == Collect(a, f) + Collect(b, f)
    decreases |b|
  {
    if b == [] {
      assert a + b == a;
    } else {
      var init := b[..|b| - 1];
      CollectAppend(a, init, f);
      assert (a + b)[..|a + b| - 1] == a + init;
      assert (a + b)[|a + b| - 1] == b[|b| - 1];
    }
  }

  /** The import keeps the outbounds' order: importing a concatenation concatenates the imports. */
  lemma ImportAllAppend(a: seq<Json>, b: seq<Json>, transport: JObject)
    ensures ImportAll(a + b, transport) == ImportAll(a, transport) + ImportAll(b, transport)
  {
    CollectAppend(a, b, item => ImportOutbound(item, transport));
  }

  lemma {:induction false} CollectBound(items: seq<Json>, f: Json -> Option<JObject>)
    ensures |Collect(items, f)| <= |items|
  {
    if items != [] {
      CollectBound(items[..|items| - 1], f);
    }
  }

  lemma {:induction false} CollectNone(items: seq<Json>, f: Json -> Option<JObject>)
    requires forall i :: 0 <= i < |items| ==> f(items[i]).None?
    ensures Collect(items, f) == []
  {
    if items != [] {
      CollectNone(items[..|items| - 1], f);
    }
  }

  /** At most one record per outbound. */
  lemma ImportAllBound(items: seq<Json>, transport: JObject)
    ensures |ImportAll(items, transport)| <= |items|
  {
    CollectBound(items, item => ImportOutbound(item, transport));
  }

  /** A configuration without VMess outbounds imports nothing. */
  lemma ImportAllOnlyVmess(items: seq<Json>, transport: JObject)
    requires forall i :: 0 <= i < |items| ==> Get(ToObject(items[i]), "protocol") != Str("vmess")
    ensures ImportAll(items, transport) == []
  {
    forall i | 0 <= i < |items|
      ensures ImportOutbound(items[i], transport).None?
    {
      ImportOutboundKeeps(items[i], transport);
    }
    CollectNone(items, item => ImportOutbound(item, transport));
  }

  // ---------------------------------------------------------------------
  // Properties of the stream importer

  /** The stream fields the transport sections leave alone. */
  predicate BaseKey(k: string)
  {
    k == "network" || k == "networkSecurity" || k == "allowInsecure" || k == "mux"
  }

  lemma WithKcpKeeps(o: JObject, kcp: JObject, k: string)
    requires BaseKey(k)
    ensures Get(WithKcp(o, kcp), k) == Get(o, k)
  {
  }

  lemma WithWsKeeps(o: JObject, ws: JObject, k: string)
    requires BaseKey(k)
    ensures Get(WithWs(o, ws), k) == Get(o, k)
  {
  }

  lemma WithHttpKeeps(o: JObject, http: JObject, k: string)
    requires BaseKey(k)
    ensures Get(WithHttp(o, http), k) == Get(o, k)
  {
  }

  lemma WithQuicKeeps(o: JObject, quic: JObject, k: string)
    requires BaseKey(k)
    ensures Get(WithQuic(o, quic), k) == Get(o, k)
  {
  }

  /** The transport fields never overwrite the base stream fields or a mux entry. */
  lemma WithTransportKeeps(o: JObject, s: JObject, network: string, k: string)
    requires BaseKey(k)
    ensures Get(WithTransport(o, s, network), k) == Get(o, k)
  {
    if network == "kcp" {
      WithKcpKeeps(o, ToObject(Get(s, "kcpSettings")), k);
    } else if network == "ws" {
      WithWsKeeps(o, ToObject(Get(s, "wsSettings")), k);
    } else if network == "http" {
      WithHttpKeeps(o, ToObject(Get(s, "httpSettings")), k);
    } else if network == "quic" {
      WithQuicKeeps(o, ToObject(Get(s, "quicSettings")), k);
    }
  }

  /** A stream naming no network is read as TCP, and the security level defaults to "none". */
  lemma ImportedStreamDefaults(s: JObject)
    ensures var r := ImportedStream(s);
      Get(r, "network") == Str(ImportedNetwork(s)) &&
      ("network" !in s ==> Get(r, "network") == Str("tcp")) &&
      ("security" !in s ==> Get(r, "networkSecurity") == Str("none")) &&
      ("tlsSettings" !in s ==> Get(r, "allowInsecure") == Bool(true))
  {
    var base := ImportedStreamBase(s);
    WithTransportKeeps(base, s, ImportedNetwork(s), "network");
    WithTransportKeeps(base, s, ImportedNetwork(s), "networkSecurity");
    WithTransportKeeps(base, s, ImportedNetwork(s), "allowInsecure");
  }

  /** The TCP header type is read from tcpSettings.header.type, "none" when that is missing. */
  lemma ImportedTcpHeader(s: JObject)
    requires ImportedNetwork(s) == "tcp"
    ensures var header := ToObject(Get(ToObject(Get(s, "tcpSettings")), "header"));
      Get(ImportedStream(s), "tcpHeaderType") == Str(if "type" in header then ToString(header["type"]) else "none")
  {
  }

  /** A kcp field the section leaves out gets its default; the write buffer gets the read-buffer one. */
  lemma ImportedKcpDefaults(s: JObject)
    requires ImportedNetwork(s) == "kcp" && ToObject(Get(s, "kcpSettings")) == map[]
    ensures var r := ImportedStream(s);
      Get(r, "kcpMtu") == Num(DEFAULT_V2RAY_KCP_MTU) && Get(r, "kcpTti") == Num(DEFAULT_V2RAY_KCP_TTI) &&
      Get(r, "kcpUpLink") == Num(DEFAULT_V2RAY_KCP_UP_CAPACITY) &&
      Get(r, "kcpDownLink") == Num(DEFAULT_V2RAY_KCP_DOWN_CAPACITY) &&
      Get(r, "kcpReadBuffer") == Num(DEFAULT_V2RAY_KCP_READ_BUF_SIZE) &&
      Get(r, "kcpWriteBuffer") == Num(DEFAULT_V2RAY_KCP_READ_BUF_SIZE) &&
      Get(r, "kcpCongestion") == Bool(false) && Get(r, "packetHeader") == Str("none")
  {
  }

  // ---------------------------------------------------------------------
  // Shadowsocks-Qt5 exports

  /**
    The plugin query an entry is turned into, as QString::arg fills
    "plugin=%1%3B%2" ("%3" has no argument and stays as written).
  */
  function Qt5PluginQuery(lib: QtCodecs, server: JObject): string
  {
    Concat(["plugin=", ToString(Get(server, "plugin")), "%3B", lib.toPercentEncoding(ToString(Get(server, "plugin_opts")))])
  }

  /** One Shadowsocks-Qt5 entry as a server record. */
  function Qt5Record(lib: QtCodecs, item: Json): JObject
  {
    var server := ToObject(item);
    var serverConfig := map[
      "serverName" := Str(ToString(Get(server, "remarks"))),
      "serverAddr" := Str(ToString(Get(server, "server"))),
      "serverPort" := Str(IntToString(ToInt(Get(server, "server_port")))),
      "encryption" := Str(ToString(Get(server, "method"))),
      "password" := Str(ToString(Get(server, "password")))];
    if "plugin_opts" in server && ToString(server["plugin_opts"]) != ""
    then serverConfig["plugins" := Obj(Qt5Plugins(lib, server))]
    else serverConfig
  }

  /** getServerConfigFromShadowsocksQt5Config. */
  method ServerConfigFromShadowsocksQt5Config(lib: QtCodecs, config: JObject) returns (servers: seq<JObject>)
    ensures var items := ToArray(Get(config, "configs"));
      servers == seq(|items|, i requires 0 <= i < |items| => Qt5Record(lib, items[i]))
  {
    var serversConfig := ToArray(Get(config, "configs"));
    servers := [];
    var i := 0;
    while i < |serversConfig|
      invariant 0 <= i <= |serversConfig|
      invariant |servers| == i
      invariant forall j :: 0 <= j < i ==> servers[j] == Qt5Record(lib, serversConfig[j])
    {
      var server := ToObject(serversConfig[i]);
      var serverConfig := map[
        "serverName" := Str(ToString(Get(server, "remarks"))),
        "serverAddr" := Str(ToString(Get(server, "server"))),
        "serverPort" := Str(IntToString(ToInt(Get(server, "server_port")))),
        "encryption" := Str(ToString(Get(server, "method"))),
        "password" := Str(ToString(Get(server, "password")))];
      if "plugin_opts" in server && ToString(server["plugin_opts"]) != "" {
        var plugins := Concat(["plugin=", ToString(Get(server, "plugin")), "%3B",
                               lib.toPercentEncoding(ToString(server["plugin_opts"]))]);
        var pluginOptions := ShadowsocksPlugins(lib, plugins);
        serverConfig := serverConfig["plugins" := Obj(pluginOptions)];
      }
      servers := servers + [serverConfig];
      i := i + 1;
    }
  }

  /** The plugins an entry's options yield: the query parser run on the rebuilt query. */
  function Qt5Plugins(lib: QtCodecs, server: JObject): JObject
  {
    PluginOptions(lib, Qt5PluginQuery(lib, server))
  }

  /**
    An entry gets a "plugins" object exactly when it has non-empty plugin
    options, even if they yield no entry.
  */
  lemma Qt5RecordPlugins(lib: QtCodecs, item: Json)
    ensures var server := ToObject(item);
      var r := Qt5Record(lib, item);
      ("plugins" in r <==> ToString(Get(server, "plugin_opts")) != "") &&
      ("plugins" in r ==> r["plugins"] == Obj(Qt5Plugins(lib, server)))
  {
  }

  /** The port is stored as text that reads back as the entry's 32-bit port. */
  lemma Qt5RecordPort(lib: QtCodecs, item: Json)
    ensures var r := Qt5Record(lib, item);
      "serverPort" in r && r["serverPort"].Str? &&
      ParseInteger(r["serverPort"].s) == Some(ToInt(Get(ToObject(item), "server_port")))
  {
    ParseIntToString(ToInt(Get(ToObject(item), "server_port")));
  }
}
