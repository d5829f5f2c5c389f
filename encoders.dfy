/**
  The encoders: a canonical flat profile record becomes the outbound
  fragment of the V2Ray engine configuration. For VMess the transport part
  ("streamSettings") is built key by key from the record's network; an
  HTTP-camouflaged TCP transport carries a decoy request whose User-Agent
  list is drawn from the C library's random stream.
*/
module Encoders {
  import opened Wrappers
  import opened QtString
  import opened QtJson

  // ---------------------------------------------------------------------
  // Random user agents

  const OPERATING_SYSTEMS: seq<string> :=
    ["Macintosh; Intel Mac OS X 10_15", "X11; Linux x86_64", "Windows NT 10.0; Win64; x64"]

  /** The four numbers drawn for one user agent. */
  datatype AgentDraw = AgentDraw(osIndex: nat, major: nat, build: nat, patch: nat)

  /**
    The draws for the i-th user agent: `rand(k)` is the value of the k-th
    call to std::rand (never negative), four calls per agent, reduced as
    the source reduces them.
  */
  function Draw(rand: nat -> nat, i: nat): (d: AgentDraw)
    ensures d.osIndex < |OPERATING_SYSTEMS|
    ensures 50 <= d.major < 80 && 1000 <= d.build < 5000 && d.patch < 100
  {
    AgentDraw(rand(4 * i) % 3, rand(4 * i + 1) % 30 + 50, rand(4 * i + 2) % 4000 + 1000, rand(4 * i + 3) % 100)
  }

  /**
    A Chrome user agent on one of the three operating systems: the
    template's placeholders filled in order, as QString::arg does.
  */
  function UserAgent(d: AgentDraw): string
    requires d.osIndex < |OPERATING_SYSTEMS|
  {
    Concat(["Mozilla/5.0 (", OPERATING_SYSTEMS[d.osIndex], ") AppleWebKit/537.36 (KHTML, like Gecko) Chrome/",
            IntToString(d.major), ".0.", IntToString(d.build), ".", IntToString(d.patch), " Safari/537.36"])
  }

  /** The first n user agents of the stream: the i-th is built from the i-th group of four draws. */
  function UserAgents(n: nat, rand: nat -> nat): (r: seq<Json>)
    ensures |r| == n
  {
    seq(n, i requires 0 <= i < n => Str(UserAgent(Draw(rand, i))))
  }

  /** getRandomUserAgents: a negative count gives no agent. */
  method RandomUserAgents(n: int, rand: nat -> nat) returns (agents: seq<Json>)
    ensures agents == UserAgents(if n < 0 then 0 else n, rand)
  {
    agents := [];
    var i := 0;
    while i < n
      invariant 0 <= i <= (if n < 0 then 0 else n)
      invariant |agents| == i
      invariant forall k :: 0 <= k < i ==> agents[k] == Str(UserAgent(Draw(rand, k)))
    {
      agents := agents + [Str(UserAgent(Draw(rand, i)))];
      i := i + 1;
    }
  }

  // ---------------------------------------------------------------------
  // The decoy HTTP exchange of an HTTP-camouflaged TCP transport

  const DECOY_HOSTS: seq<string> :=
    ["www.baidu.com", "www.bing.com", "www.163.com", "www.netease.com", "www.qq.com", "www.tencent.com",
     "www.taobao.com", "www.tmall.com", "www.alibaba-inc.com", "www.aliyun.com", "www.sensetime.com",
     "www.megvii.com"]

  /** The number of user agents the decoy request carries. */
  const DECOY_AGENT_COUNT: nat := 24

  function Strs(texts: seq<string>): (r: seq<Json>)
    ensures |r| == |texts|
    ensures forall i :: 0 <= i < |texts| ==> r[i] == Str(texts[i])
  {
    seq(|texts|, i requires 0 <= i < |texts| => Str(texts[i]))
  }

  function DecoyRequest(agents: seq<Json>): Json
  {
    Obj(map[
      "version" := Str("1.1"),
      "method" := Str("GET"),
      "path" := Arr([Str("/")]),
      "headers" := Obj(map[
        "host" := Arr(Strs(DECOY_HOSTS)),
        "User-Agent" := Arr(agents),
        "Accept-Encoding" := Arr([Str("gzip, deflate")]),
        "Connection" := Arr([Str("keep-alive")]),
        "Pragma" := Str("no-cache")])])
  }

  function DecoyResponse(): Json
  {
    Obj(map[
      "version" := Str("1.1"),
      "status" := Str("200"),
      "reason" := Str("OK"),
      "headers" := Obj(map[
        "Content-Type" := Arr([Str("text/html;charset=utf-8")]),
        "Transfer-Encoding" := Arr([Str("chunked")]),
        "Connection" := Arr([Str("keep-alive")]),
        "Pragma" := Str("no-cache")])])
  }

  // ---------------------------------------------------------------------
  // Transport ("streamSettings")

  /** The key of the transport section each network gets; other networks get none. */
  function TransportKey(network: string): Option<string>
  {
    if network == "tcp" then Some("tcpSettings")
    else if network == "kcp" then Some("kcpSettings")
    else if network == "ws" then Some("wsSettings")
    else if network == "http" then Some("httpSettings")
    else if network == "domainsocket" then Some("dsSettings")
    else if network == "quic" then Some("quicSettings")
    else None
  }

  /** The keys every fragment has, before the transport section. */
  function StreamSettingsBase(record: JObject): JObject
  {
    var head := Put(map[], "network", Get(record, "network"));
    head["security" := Str(ToLower(ToString(Get(record, "networkSecurity"))))]
        ["tlsSettings" := Obj(map["allowInsecure" := Bool(ToBool(Get(record, "allowInsecure")))])]
  }

  /** The TCP section for an already lowercased header type. */
  function TcpSettings(headerType: string, rand: nat -> nat): JObject
  {
    (if headerType == "http" then DecoyExchange(rand) else map[])["type" := Str(headerType)]
  }

  /** The camouflage of an "http" TCP header: a fake request and its response. */
  function DecoyExchange(rand: nat -> nat): JObject
  {
    map["request" := DecoyRequest(UserAgents(DECOY_AGENT_COUNT, rand)), "response" := DecoyResponse()]
  }

  /** The kcp section: the record's numbers as 32-bit integers, the congestion flag and the lowercased header type. */
  function KcpSection(record: JObject): JObject
  {
    map["mtu" := Num(ToVariantInt(Get(record, "kcpMtu"))),
        "tti" := Num(ToVariantInt(Get(record, "kcpTti"))),
        "uplinkCapacity" := Num(ToVariantInt(Get(record, "kcpUpLink"))),
        "downlinkCapacity" := Num(ToVariantInt(Get(record, "kcpDownLink"))),
        "congestion" := Bool(ToBool(Get(record, "kcpCongestion"))),
        "readBufferSize" := Num(ToVariantInt(Get(record, "kcpReadBuffer"))),
        "writeBufferSize" := Num(ToVariantInt(Get(record, "kcpWriteBuffer"))),
        "header" := Obj(map["type" := Str(ToLower(ToString(Get(record, "packetHeader"))))])]
  }

  /** The transport section for the record's network (meaningful when TransportKey is Some). */
  function TransportSection(record: JObject, network: string, rand: nat -> nat): JObject
  {
    if network == "tcp" then TcpSettings(ToLower(ToString(Get(record, "tcpHeaderType"))), rand)
    else if network == "kcp" then KcpSection(record)
    else if network == "ws" then
      map["path" := Str(ToString(Get(record, "networkPath"))),
          "headers" := Obj(Put(map[], "host", Get(record, "networkHost")))]
    else if network == "http" then
      map["host" := Arr([Str(ToString(Get(record, "networkHost")))]),
          "path" := Arr([Str(ToString(Get(record, "networkPath")))])]
    else if network == "domainsocket" then
      map["path" := Str(ToString(Get(record, "domainSocketFilePath")))]
    else
      map["security" := Str(ToLower(ToString(Get(record, "quicSecurity")))),
          "key" := Str(ToString(Get(record, "quicKey"))),
          "header" := Obj(map["type" := Str(ToLower(ToString(Get(record, "packetHeader"))))])]
  }

  /** What getV2RayStreamSettingsConfig builds for a record. */
  function StreamSettingsFragment(record: JObject, rand: nat -> nat): JObject
  {
    var network := ToString(Get(record, "network"));
    match TransportKey(network)
    case Some(key) => StreamSettingsBase(record)[key := Obj(TransportSection(record, network, rand))]
    case None => StreamSettingsBase(record)
  }

  /** getV2RayStreamSettingsConfig. */
  method V2RayStreamSettingsConfig(record: JObject, rand: nat -> nat) returns (streamSettings: JObject)
    ensures streamSettings == StreamSettingsFragment(record, rand)
  {
    var network := ToString(Get(record, "network"));
    streamSettings := map[];
    streamSettings := Put(streamSettings, "network", Get(record, "network"));
    streamSettings := Put(streamSettings, "security", Str(ToLower(ToString(Get(record, "networkSecurity")))));
    streamSettings := Put(streamSettings, "tlsSettings",
                          Obj(map["allowInsecure" := Bool(ToBool(Get(record, "allowInsecure")))]));
    if network == "tcp" {
      var tcpHeaderType := ToLower(ToString(Get(record, "tcpHeaderType")));
      var tcpSettings: JObject := map["type" := Str(tcpHeaderType)];
      if tcpHeaderType == "http" {
        var agents := RandomUserAgents(DECOY_AGENT_COUNT, rand);
        tcpSettings := Put(tcpSettings, "request", DecoyRequest(agents));
        tcpSettings := Put(tcpSettings, "response", DecoyResponse());
        assert tcpSettings == DecoyExchange(rand)["type" := Str(tcpHeaderType)];
      }
      streamSettings := Put(streamSettings, "tcpSettings", Obj(tcpSettings));
    } else if network == "kcp" {
      streamSettings := Put(streamSettings, "kcpSettings", Obj(TransportSection(record, network, rand)));
    } else if network == "ws" {
      var headers := Put(map[], "host", Get(record, "networkHost"));
      streamSettings := Put(streamSettings, "wsSettings",
                            Obj(map["path" := Str(ToString(Get(record, "networkPath"))), "headers" := Obj(headers)]));
    } else if network == "http" {
      streamSettings := Put(streamSettings, "httpSettings",
                            Obj(map["host" := Arr([Str(ToString(Get(record, "networkHost")))]),
                                    "path" := Arr([Str(ToString(Get(record, "networkPath")))])]));
    } else if network == "domainsocket" {
      streamSettings := Put(streamSettings, "dsSettings",
                            Obj(map["path" := Str(ToString(Get(record, "domainSocketFilePath")))]));
    } else if network == "quic" {
      streamSettings := Put(streamSettings, "quicSettings", Obj(TransportSection(record, network, rand)));
    }
  }

  /**
    A fragment holds "security", "tlsSettings", "network" exactly when the
    record has one, and exactly one transport section: the one its network
    names, if any.
  */
  lemma StreamSettingsKeys(record: JObject, rand: nat -> nat)
    ensures var r := StreamSettingsFragment(record, rand);
      var network := ToString(Get(record, "network"));
      r.Keys == {"security", "tlsSettings"}
                + (if Get(record, "network") != Undefined then {"network"} else {})
                + (if TransportKey(network).Some? then {TransportKey(network).value} else {})
  {
  }

  /** The network value is copied as it is; the security level is lowercased. */
  lemma StreamSettingsHeader(record: JObject, rand: nat -> nat)
    ensures var r := StreamSettingsFragment(record, rand);
      Get(r, "network") == Get(record, "network") &&
      r["security"] == Str(ToLower(ToString(Get(record, "networkSecurity")))) &&
      ToBool(Get(ToObject(r["tlsSettings"]), "allowInsecure")) == ToBool(Get(record, "allowInsecure"))
  {
  }

  /** The fragment's transport section is the one built for its network. */
  lemma TransportSectionOf(record: JObject, rand: nat -> nat)
    requires TransportKey(ToString(Get(record, "network"))).Some?
    ensures var network := ToString(Get(record, "network"));
      Get(StreamSettingsFragment(record, rand), TransportKey(network).value)
      == Obj(TransportSection(record, network, rand))
  {
  }

  /** A TCP transport is typed by the lowercased header type. */
  lemma TcpSectionType(headerType: string, rand: nat -> nat)
    ensures Get(TcpSettings(headerType, rand), "type") == Str(headerType)
  {
  }

  /** The decoy exchange is present exactly when the header type is "http". */
  lemma TcpSectionDecoy(headerType: string, rand: nat -> nat)
    ensures var tcp := TcpSettings(headerType, rand);
      ("request" in tcp <==> headerType == "http") && ("response" in tcp <==> headerType == "http")
  {
  }

  /** The decoy request is built from the first 24 user agents of the stream. */
  lemma TcpSectionAgents(rand: nat -> nat)
    ensures Get(TcpSettings("http", rand), "request") == DecoyRequest(UserAgents(DECOY_AGENT_COUNT, rand))
    ensures Get(TcpSettings("http", rand), "response") == DecoyResponse()
  {
  }

  /** The decoy request carries the given user agents and the twelve decoy hosts. */
  lemma DecoyRequestHeaders(agents: seq<Json>)
    ensures var headers := ToObject(Get(ToObject(DecoyRequest(agents)), "headers"));
      ToArray(Get(headers, "User-Agent")) == agents &&
      ToArray(Get(headers, "host")) == Strs(DECOY_HOSTS) && |DECOY_HOSTS| == 12
  {
  }

  // ---------------------------------------------------------------------
  // Outbound fragments

  /** getPrettyV2RayConfig. */
  function PrettyV2RayConfig(record: JObject, rand: nat -> nat): (r: JObject)
    ensures "tag" in r && r["tag"] == Str("proxy-vmess")
    ensures "protocol" in r && r["protocol"] == Str("vmess")
    ensures "streamSettings" in r && r["streamSettings"] == Obj(StreamSettingsFragment(record, rand))
    ensures "settings" in r && r["settings"] == Obj(VnextSettings(record))
    ensures "mux" in r
    ensures "autoConnect" in r && "serverName" in r && "subscription" in r
  {
    var mux := ToVariantInt(Get(record, "mux"));
    map[
      "autoConnect" := Bool(ToBool(Get(record, "autoConnect"))),
      "serverName" := Str(ToString(Get(record, "serverName"))),
      "subscription" := Str(if "subscription" in record then ToString(record["subscription"]) else ""),
      "protocol" := Str("vmess"),
      "mux" := Obj(map["enabled" := Bool(mux != -1), "concurrency" := Num(mux)]),
      "settings" := Obj(VnextSettings(record)),
      "tag" := Str("proxy-vmess")
    ][
      "streamSettings" := Obj(StreamSettingsFragment(record, rand))
    ]
  }

  /** The profile fields carried into the VMess outbound: auto-connect, name and subscription ("" when missing). */
  lemma V2RayProfileFields(record: JObject, rand: nat -> nat)
    ensures var r := PrettyV2RayConfig(record, rand);
      Get(r, "autoConnect") == Bool(ToBool(Get(record, "autoConnect"))) &&
      Get(r, "serverName") == Str(ToString(Get(record, "serverName"))) &&
      Get(r, "subscription") == Str(if "subscription" in record then ToString(record["subscription"]) else "")
  {
  }

  /** The outbound's "settings": one vnext server holding one user. */
  function VnextSettings(record: JObject): JObject
  {
    map["vnext" := Arr([Obj(map[
      "address" := Str(ToString(Get(record, "serverAddr"))),
      "port" := Num(ToVariantInt(Get(record, "serverPort"))),
      "users" := Arr([Obj(map[
        "id" := Str(ToString(Get(record, "id"))),
        "alterId" := Num(ToVariantInt(Get(record, "alterId"))),
        "security" := Str(ToLower(ToString(Get(record, "security"))))])])])])]
  }

  /** Multiplexing is on unless the stored value reads as -1, and the concurrency is that value. */
  lemma MuxSettings(record: JObject, rand: nat -> nat)
    ensures var mux := ToObject(PrettyV2RayConfig(record, rand)["mux"]);
      (ToBool(Get(mux, "enabled")) <==> ToVariantInt(Get(record, "mux")) != -1) &&
      ToVariantInt(Get(mux, "concurrency")) == ToVariantInt(Get(record, "mux"))
  {
  }

  /** getPrettyShadowsocksConfig. */
  function PrettyShadowsocksConfig(record: JObject): (r: JObject)
    ensures "tag" in r && r["tag"] == Str("proxy-shadowsocks")
    ensures "protocol" in r && r["protocol"] == Str("shadowsocks")
    ensures "streamSettings" in r && r["streamSettings"] == Obj(map["network" := Str("tcp")])
    ensures "settings" in r && r["settings"] == Obj(map["servers" := Arr([Obj(ShadowsocksServer(record))])])
  {
    map[
      "autoConnect" := Bool(ToBool(Get(record, "autoConnect"))),
      "serverName" := Str(ToString(Get(record, "serverName"))),
      "subscription" := Str(if "subscription" in record then ToString(record["subscription"]) else ""),
      "protocol" := Str("shadowsocks"),
      "settings" := Obj(map["servers" := Arr([Obj(ShadowsocksServer(record))])]),
      "streamSettings" := Obj(map["network" := Str("tcp")]),
      "tag" := Str("proxy-shadowsocks")]
  }

  /** The one entry of the Shadowsocks "servers" list. */
  function ShadowsocksServer(record: JObject): JObject
  {
    map[
      "address" := Str(ToString(Get(record, "serverAddr"))),
      "port" := Num(ToVariantInt(Get(record, "serverPort"))),
      "method" := Str(ToLower(ToString(Get(record, "encryption")))),
      "password" := Str(ToString(Get(record, "password")))]
  }

  /**
    The single server of the Shadowsocks fragment carries the address and
    password as text, the port read as a 32-bit integer and the method
    lowercased.
  */
  lemma ShadowsocksServerFields(record: JObject)
    ensures var servers := ToArray(Get(ToObject(Get(PrettyShadowsocksConfig(record), "settings")), "servers"));
      |servers| == 1 &&
      var server := ToObject(servers[0]);
      Get(server, "address") == Str(ToString(Get(record, "serverAddr"))) &&
      Get(server, "port") == Num(ToVariantInt(Get(record, "serverPort"))) &&
      Get(server, "method") == Str(ToLower(ToString(Get(record, "encryption")))) &&
      Get(server, "password") == Str(ToString(Get(record, "password")))
  {
    var r := PrettyShadowsocksConfig(record);
    assert Get(r, "settings") == Obj(map["servers" := Arr([Obj(ShadowsocksServer(record))])]);
  }

  /**
    The Shadowsocks fragment keeps the auto-connect flag and the name, and
    the subscription when there is one (else "").
  */
  lemma ShadowsocksProfileFields(record: JObject)
    ensures var r := PrettyShadowsocksConfig(record);
      Get(r, "autoConnect") == Bool(ToBool(Get(record, "autoConnect"))) &&
      Get(r, "serverName") == Str(ToString(Get(record, "serverName"))) &&
      Get(r, "subscription") == Str(if "subscription" in record then ToString(record["subscription"]) else "")
  {
  }

  /** The Shadowsocks fragment ignores every transport field of the record. */
  lemma ShadowsocksIgnoresTransport(record: JObject, key: string, value: Json)
    requires key !in {"autoConnect", "serverName", "subscription", "serverAddr", "serverPort", "encryption", "password"}
    ensures PrettyShadowsocksConfig(record[key := value]) == PrettyShadowsocksConfig(record)
  {
    assert forall k :: k != key ==> Get(record[key := value], k) == Get(record, k);
  }
}
