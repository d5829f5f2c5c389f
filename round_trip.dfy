/**
  Encoding a VMess record as an outbound and importing that outbound back.
  Most fields come back as they were (those the encoder lowercases come
  back lowercased); two do not, because encoder and importer disagree on
  where the value lives: a TCP header type is written as tcpSettings.type
  but read from tcpSettings.header.type, and an HTTP path is written as an
  array but read as text.
*/
module RoundTrip {
  import opened QtString
  import opened QtJson
  import opened Encoders
  import opened Importers

  /** The import of the transport fragment the encoder writes for `record`. */
  function Reimported(record: JObject, rand: nat -> nat): JObject
  {
    ImportedStream(StreamSettingsFragment(record, rand))
  }

  /** The three fields every fragment carries, as the importer reads them. */
  lemma FragmentHeadAsRead(record: JObject, rand: nat -> nat)
    requires Get(record, "network").Str?
    ensures var base := ImportedStreamBase(StreamSettingsFragment(record, rand));
      ImportedNetwork(StreamSettingsFragment(record, rand)) == ToString(Get(record, "network")) &&
      Get(base, "network") == Get(record, "network") &&
      Get(base, "networkSecurity") == Str(ToLower(ToString(Get(record, "networkSecurity")))) &&
      Get(base, "allowInsecure") == Bool(ToBool(Get(record, "allowInsecure")))
  {
    StreamSettingsHeader(record, rand);
  }

  /** The network, the security level and the allowInsecure flag come back. */
  lemma StreamRoundTripBase(record: JObject, rand: nat -> nat)
    requires Get(record, "network").Str?
    ensures var r := Reimported(record, rand);
      Get(r, "network") == Get(record, "network") &&
      Get(r, "networkSecurity") == Str(ToLower(ToString(Get(record, "networkSecurity")))) &&
      Get(r, "allowInsecure") == Bool(ToBool(Get(record, "allowInsecure")))
  {
    var fragment := StreamSettingsFragment(record, rand);
    var base := ImportedStreamBase(fragment);
    FragmentHeadAsRead(record, rand);
    WithTransportKeeps(base, fragment, ImportedNetwork(fragment), "network");
    WithTransportKeeps(base, fragment, ImportedNetwork(fragment), "networkSecurity");
    WithTransportKeeps(base, fragment, ImportedNetwork(fragment), "allowInsecure");
  }

  /** The fragment's section for `network`, as the importer reads it. */
  lemma SectionAsRead(record: JObject, rand: nat -> nat, network: string)
    requires Get(record, "network") == Str(network) && TransportKey(network).Some?
    ensures var fragment := StreamSettingsFragment(record, rand);
      ImportedNetwork(fragment) == network &&
      ToObject(Get(fragment, TransportKey(network).value)) == TransportSection(record, network, rand)
  {
    StreamSettingsHeader(record, rand);
    TransportSectionOf(record, rand);
  }

  /** A TCP transport always comes back with header type "none", whatever the record held. */
  lemma StreamRoundTripTcp(record: JObject, rand: nat -> nat)
    requires Get(record, "network") == Str("tcp")
    ensures Get(Reimported(record, rand), "tcpHeaderType") == Str("none")
  {
    SectionAsRead(record, rand, "tcp");
    TcpHasNoHeader(ToLower(ToString(Get(record, "tcpHeaderType"))), rand);
  }

  /** The encoder's TCP section has no "header" entry. */
  lemma TcpHasNoHeader(headerType: string, rand: nat -> nat)
    ensures HeaderType(TcpSettings(headerType, rand)) == "none"
  {
    assert "header" !in TcpSettings(headerType, rand);
  }

  lemma KcpTimingRead(o: JObject, record: JObject)
    ensures var r := WithKcp(o, KcpSection(record));
      Get(r, "kcpMtu") == Num(ToVariantInt(Get(record, "kcpMtu"))) &&
      Get(r, "kcpTti") == Num(ToVariantInt(Get(record, "kcpTti")))
  {
  }

  lemma KcpCapacityRead(o: JObject, record: JObject)
    ensures var r := WithKcp(o, KcpSection(record));
      Get(r, "kcpUpLink") == Num(ToVariantInt(Get(record, "kcpUpLink"))) &&
      Get(r, "kcpDownLink") == Num(ToVariantInt(Get(record, "kcpDownLink")))
  {
  }

  lemma KcpBufferRead(o: JObject, record: JObject)
    ensures var r := WithKcp(o, KcpSection(record));
      Get(r, "kcpReadBuffer") == Num(ToVariantInt(Get(record, "kcpReadBuffer"))) &&
      Get(r, "kcpWriteBuffer") == Num(ToVariantInt(Get(record, "kcpWriteBuffer"))) &&
      Get(r, "kcpCongestion") == Bool(ToBool(Get(record, "kcpCongestion"))) &&
      Get(r, "packetHeader") == Str(ToLower(ToString(Get(record, "packetHeader"))))
  {
  }

  /** The kcp numbers (as 32-bit integers), the congestion flag and the lowercased header type come back. */
  lemma StreamRoundTripKcp(record: JObject, rand: nat -> nat)
    requires Get(record, "network") == Str("kcp")
    ensures var r := Reimported(record, rand);
      Get(r, "kcpMtu") == Num(ToVariantInt(Get(record, "kcpMtu"))) &&
      Get(r, "kcpTti") == Num(ToVariantInt(Get(record, "kcpTti"))) &&
      Get(r, "kcpUpLink") == Num(ToVariantInt(Get(record, "kcpUpLink"))) &&
      Get(r, "kcpDownLink") == Num(ToVariantInt(Get(record, "kcpDownLink"))) &&
      Get(r, "kcpReadBuffer") == Num(ToVariantInt(Get(record, "kcpReadBuffer"))) &&
      Get(r, "kcpWriteBuffer") == Num(ToVariantInt(Get(record, "kcpWriteBuffer"))) &&
      Get(r, "kcpCongestion") == Bool(ToBool(Get(record, "kcpCongestion"))) &&
      Get(r, "packetHeader") == Str(ToLower(ToString(Get(record, "packetHeader"))))
  {
    SectionAsRead(record, rand, "kcp");
    var base := ImportedStreamBase(StreamSettingsFragment(record, rand));
    assert TransportSection(record, "kcp", rand) == KcpSection(record);
    KcpTimingRead(base, record);
    KcpCapacityRead(base, record);
    KcpBufferRead(base, record);
  }

  lemma WsSectionRead(o: JObject, record: JObject, rand: nat -> nat)
    ensures var r := WithWs(o, TransportSection(record, "ws", rand));
      Get(r, "networkHost") == Str(ToString(Get(record, "networkHost"))) &&
      Get(r, "networkPath") == Str(ToString(Get(record, "networkPath")))
  {
  }

  /** The ws host and path come back as text. */
  lemma StreamRoundTripWs(record: JObject, rand: nat -> nat)
    requires Get(record, "network") == Str("ws")
    ensures var r := Reimported(record, rand);
      Get(r, "networkHost") == Str(ToString(Get(record, "networkHost"))) &&
      Get(r, "networkPath") == Str(ToString(Get(record, "networkPath")))
  {
    SectionAsRead(record, rand, "ws");
    WsSectionRead(ImportedStreamBase(StreamSettingsFragment(record, rand)), record, rand);
  }

  lemma HttpSectionRead(o: JObject, record: JObject, rand: nat -> nat)
    ensures var r := WithHttp(o, TransportSection(record, "http", rand));
      Get(r, "networkHost") == Str(ToString(Get(record, "networkHost"))) &&
      Get(r, "networkPath") == Str("")
  {
  }

  /** The http host comes back; the path, written as an array and read as text, comes back empty. */
  lemma StreamRoundTripHttp(record: JObject, rand: nat -> nat)
    requires Get(record, "network") == Str("http")
    ensures var r := Reimported(record, rand);
      Get(r, "networkHost") == Str(ToString(Get(record, "networkHost"))) &&
      Get(r, "networkPath") == Str("")
  {
    SectionAsRead(record, rand, "http");
    HttpSectionRead(ImportedStreamBase(StreamSettingsFragment(record, rand)), record, rand);
  }

  /** The domain socket path comes back. */
  lemma StreamRoundTripDomainSocket(record: JObject, rand: nat -> nat)
    requires Get(record, "network") == Str("domainsocket")
    ensures Get(Reimported(record, rand), "domainSocketFilePath") == Str(ToString(Get(record, "domainSocketFilePath")))
  {
    SectionAsRead(record, rand, "domainsocket");
  }

  lemma QuicSectionRead(o: JObject, record: JObject, rand: nat -> nat)
    ensures var r := WithQuic(o, TransportSection(record, "quic", rand));
      Get(r, "quicSecurity") == Str(ToLower(ToString(Get(record, "quicSecurity")))) &&
      Get(r, "quicKey") == Str(ToString(Get(record, "quicKey"))) &&
      Get(r, "packetHeader") == Str(ToLower(ToString(Get(record, "packetHeader"))))
  {
  }

  /** The quic key comes back; its security level and header type come back lowercased. */
  lemma StreamRoundTripQuic(record: JObject, rand: nat -> nat)
    requires Get(record, "network") == Str("quic")
    ensures var r := Reimported(record, rand);
      Get(r, "quicSecurity") == Str(ToLower(ToString(Get(record, "quicSecurity")))) &&
      Get(r, "quicKey") == Str(ToString(Get(record, "quicKey"))) &&
      Get(r, "packetHeader") == Str(ToLower(ToString(Get(record, "packetHeader"))))
  {
    SectionAsRead(record, rand, "quic");
    QuicSectionRead(ImportedStreamBase(StreamSettingsFragment(record, rand)), record, rand);
  }

  // ---------------------------------------------------------------------
  // The vnext entry and the whole outbound

  /** The settings the importer reads back from the encoder's vnext entry. */
  function ReimportedSettings(record: JObject, rand: nat -> nat): JObject
  {
    ServerSettingsFromConfig(ToObject(Get(PrettyV2RayConfig(record, rand), "settings")))
  }

  /** The vnext address and 32-bit port come back, and the name is made of the two. */
  lemma VnextRoundTrip(record: JObject, rand: nat -> nat)
    ensures var r := ReimportedSettings(record, rand);
      var address := ToString(Get(record, "serverAddr"));
      var port := ToVariantInt(Get(record, "serverPort"));
      Get(r, "serverAddr") == Str(address) && Get(r, "serverPort") == Num(port) &&
      Get(r, "serverName") == Str(address + ":" + IntToString(port))
  {
    assert ReimportedSettings(record, rand) == ServerSettingsFromConfig(VnextSettings(record));
    VnextServerRead(record);
  }

  lemma VnextServerRead(record: JObject)
    ensures var r := ServerSettingsFromConfig(VnextSettings(record));
      var address := ToString(Get(record, "serverAddr"));
      var port := ToVariantInt(Get(record, "serverPort"));
      Get(r, "serverAddr") == Str(address) && Get(r, "serverPort") == Num(port) &&
      Get(r, "serverName") == Str(address + ":" + IntToString(port))
  {
  }

  /** The vnext user comes back: id and alter ID as they were, the security level lowercased. */
  lemma UserRoundTrip(record: JObject, rand: nat -> nat)
    ensures var r := ReimportedSettings(record, rand);
      Get(r, "id") == Str(ToString(Get(record, "id"))) &&
      Get(r, "alterId") == Num(ToVariantInt(Get(record, "alterId"))) &&
      Get(r, "security") == Str(ToLower(ToString(Get(record, "security"))))
  {
    assert ReimportedSettings(record, rand) == ServerSettingsFromConfig(VnextSettings(record));
    VnextUserRead(record);
  }

  lemma VnextUserRead(record: JObject)
    ensures var r := ServerSettingsFromConfig(VnextSettings(record));
      Get(r, "id") == Str(ToString(Get(record, "id"))) &&
      Get(r, "alterId") == Num(ToVariantInt(Get(record, "alterId"))) &&
      Get(r, "security") == Str(ToLower(ToString(Get(record, "security"))))
  {
    var user := ToObject(ToArray(Get(ToObject(ToArray(Get(VnextSettings(record), "vnext"))[0]), "users"))[0]);
    assert "security" in user;
  }

  /**
    The encoder's outbound is imported (without a global transport) into a
    record holding the re-imported settings and stream fields.
  */
  lemma OutboundRoundTrip(record: JObject, rand: nat -> nat, k: string)
    ensures var outbound := PrettyV2RayConfig(record, rand);
      ImportOutbound(Obj(outbound), map[]).Some? &&
      var r := ImportOutbound(Obj(outbound), map[]).value;
      (k in Reimported(record, rand) ==> Get(r, k) == Reimported(record, rand)[k]) &&
      (k in ReimportedSettings(record, rand) && k !in Reimported(record, rand) ==> Get(r, k) == ReimportedSettings(record, rand)[k])
  {
    var outbound := PrettyV2RayConfig(record, rand);
    VnextPresent(record, rand);
    ImportOutboundKeeps(Obj(outbound), map[]);
    assert StreamSource(ToObject(Get(outbound, "streamSettings")), map[]) == StreamSettingsFragment(record, rand);
    ImportedRecordFields(outbound, map[], k);
  }

  lemma VnextPresent(record: JObject, rand: nat -> nat)
    ensures var outbound := PrettyV2RayConfig(record, rand);
      Get(outbound, "protocol") == Str("vmess") &&
      ToArray(Get(ToObject(Get(outbound, "settings")), "vnext")) != []
  {
  }

  /**
    The mux setting survives encoding and importing when it is positive or
    -1 (off); any other value comes back as -1.
  */
  lemma MuxRoundTrip(record: JObject, rand: nat -> nat)
    ensures var outbound := PrettyV2RayConfig(record, rand);
      var mux := ToVariantInt(Get(record, "mux"));
      ImportOutbound(Obj(outbound), map[]).Some? &&
      var r := ImportOutbound(Obj(outbound), map[]).value;
      "mux" in r && ToVariantInt(r["mux"]) == (if mux > 0 then mux else -1)
  {
    var outbound := PrettyV2RayConfig(record, rand);
    VnextPresent(record, rand);
    ImportOutboundKeeps(Obj(outbound), map[]);
    MuxSettings(record, rand);
    ImportedMux(outbound, map[]);
  }
}
