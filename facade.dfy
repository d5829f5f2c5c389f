/**
  The protocol name of a profile chooses the codec; the three dispatchers
  send a record or a URL to the VMess or the Shadowsocks codec, and answer
  an unknown protocol with one error message or an empty object.
*/
module Facade {
  import opened Wrappers
  import opened QtString
  import opened QtJson
  import opened Utility
  import opened Validation
  import opened Encoders
  import opened UrlDecoders

  datatype Protocol = VMess | Shadowsocks | Unknown

  const UNKNOWN_PROTOCOL_MESSAGE: string := "Unknown Server protocol"

  /** getProtocol: "vmess" and "v2ray" name VMess, "shadowsocks" names Shadowsocks. */
  function GetProtocol(protocol: string): (p: Protocol)
    ensures p == VMess <==> protocol == "vmess" || protocol == "v2ray"
    ensures p == Shadowsocks <==> protocol == "shadowsocks"
    ensures p == Unknown <==> protocol !in {"vmess", "v2ray", "shadowsocks"}
  {
    if protocol == "vmess" || protocol == "v2ray" then VMess
    else if protocol == "shadowsocks" then Shadowsocks
    else Unknown
  }

  /** getServerConfigErrors: an unknown protocol gets exactly one message. */
  function ServerConfigErrors(v: FieldValidators, protocol: Protocol, record: JObject, excludedName: Option<string>): (r: seq<string>)
    ensures "" !in r
    ensures protocol == Unknown ==> r == [UNKNOWN_PROTOCOL_MESSAGE]
    ensures protocol == VMess ==> r == V2RayErrors(v, record, excludedName)
    ensures protocol == Shadowsocks ==> r == ShadowsocksErrors(v, record, excludedName)
  {
    match protocol
    case VMess => V2RayErrors(v, record, excludedName)
    case Shadowsocks => ShadowsocksErrors(v, record, excludedName)
    case Unknown => [UNKNOWN_PROTOCOL_MESSAGE]
  }

  /** getPrettyServerConfig: an unknown protocol gets the empty object; a known one its tagged fragment. */
  function PrettyServerConfig(protocol: Protocol, record: JObject, rand: nat -> nat): (r: JObject)
    ensures protocol == Unknown <==> r == map[]
    ensures protocol == VMess ==> "tag" in r && r["tag"] == Str("proxy-vmess")
    ensures protocol == Shadowsocks ==> "tag" in r && r["tag"] == Str("proxy-shadowsocks")
  {
    match protocol
    case VMess => PrettyV2RayConfig(record, rand)
    case Shadowsocks => PrettyShadowsocksConfig(record)
    case Unknown => map[]
  }

  /** getServerConfigFromUrl. */
  function ServerConfigFromUrl(lib: QtCodecs, protocol: Protocol, serverUrl: string, subscriptionUrl: string): JObject
  {
    match protocol
    case VMess => V2RayServerConfigFromUrl(lib, serverUrl, subscriptionUrl)
    case Shadowsocks => ShadowsocksServerConfigFromUrl(lib, serverUrl, subscriptionUrl)
    case Unknown => map[]
  }

  /**
    An unknown protocol decodes to the empty object; a known one to a
    record with an address and a port, not auto-connected, that remembers
    its subscription.
  */
  lemma UrlRecordShape(lib: QtCodecs, protocol: Protocol, serverUrl: string, subscriptionUrl: string)
    ensures var r := ServerConfigFromUrl(lib, protocol, serverUrl, subscriptionUrl);
      (protocol == Unknown <==> r == map[]) &&
      (protocol != Unknown ==>
        "serverAddr" in r && "serverPort" in r &&
        Get(r, "autoConnect") == Bool(false) && Get(r, "subscription") == Str(subscriptionUrl))
  {
    match protocol
    case VMess => V2RayUrlDefaults(lib, serverUrl, subscriptionUrl);
    case Shadowsocks => ShadowsocksUrlDefaults(lib, serverUrl, subscriptionUrl);
    case Unknown =>
  }

  /** Whatever the protocol name, validation never reports an empty message and an unknown name is refused. */
  lemma ErrorsForName(v: FieldValidators, protocol: string, record: JObject, excludedName: Option<string>)
    ensures var r := ServerConfigErrors(v, GetProtocol(protocol), record, excludedName);
      "" !in r &&
      (protocol !in {"vmess", "v2ray", "shadowsocks"} ==> r == [UNKNOWN_PROTOCOL_MESSAGE])
  {
  }
}
