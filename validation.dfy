/**
  Validation of canonical profile records: each field check yields a
  message or "", the messages are appended in field order and the empty
  ones removed at the end, so an empty list means the profile is valid.
*/
module Validation {
  import opened Wrappers
  import opened QtString
  import opened QtJson
  import opened Utility

  const NAME_USED_MESSAGE: string := "The '%1' has been used by another server."
  const PLUGINS_UNSUPPORTED_MESSAGE: string := "The Shadowsocks plugins are currently not supported."

  function ServerName(record: JObject): string
  {
    ToString(Get(record, "serverName"))
  }

  /**
    getServerNameError: the name is required and must be unused, except
    when it equals the name the profile already had (`excludedName`), in
    which case the name-in-use check is not run at all.
  */
  function ServerNameError(v: FieldValidators, record: JObject, excludedName: Option<string>): (r: string)
    ensures excludedName == Some(ServerName(record)) ==>
      r != NAME_USED_MESSAGE && (r == "" <==> ServerName(record) != "")
    ensures excludedName != Some(ServerName(record)) ==>
      (r == "" <==> ServerName(record) != "" && v.isServerNameNotUsed(ServerName(record))) &&
      (r == NAME_USED_MESSAGE <==> ServerName(record) != "" && !v.isServerNameNotUsed(ServerName(record)))
  {
    if excludedName.Some? && ServerName(record) == excludedName.value then
      StringConfigError(record, "serverName", "Server Name", [], "")
    else
      var r := StringConfigError(record, "serverName", "Server Name", [v.isServerNameNotUsed], NAME_USED_MESSAGE);
      assert AnyAccepts([v.isServerNameNotUsed], ServerName(record)) <==> v.isServerNameNotUsed(ServerName(record)) by {
        assert [v.isServerNameNotUsed][0] == v.isServerNameNotUsed;
      }
      r
  }

  // ---------------------------------------------------------------------
  // VMess

  /** The VMess field checks, in the order they are appended. */
  function V2RayFieldChecks(v: FieldValidators, record: JObject, excludedName: Option<string>): seq<string>
  {
    [ ServerNameError(v, record, excludedName),
      StringConfigError(record, "serverAddr", "Server Address", [v.isIpAddrValid, v.isDomainNameValid], ""),
      NumericConfigError(record, "serverPort", "Server Port", 0, 65535),
      StringConfigError(record, "id", "ID", [], ""),
      NumericConfigError(record, "alterId", "Alter ID", 0, 65535),
      StringConfigError(record, "security", "Security", [], ""),
      NumericConfigError(record, "mux", "MUX", -1, 1024),
      StringConfigError(record, "network", "Network", [], ""),
      StringConfigError(record, "networkSecurity", "Network Security", [], "") ]
  }

  /** The transport checks selected by `network`, in the order they are appended. */
  function StreamSettingsChecks(v: FieldValidators, record: JObject, network: string): seq<string>
  {
    if network == "kcp" then
      [ NumericConfigError(record, "kcpMtu", "MTU", 576, 1460),
        NumericConfigError(record, "kcpTti", "TTI", 10, 100),
        NumericConfigError(record, "kcpUpLink", "Uplink Capacity", 0, NO_UPPER_BOUND),
        NumericConfigError(record, "kcpDownLink", "Downlink Capacity", 0, NO_UPPER_BOUND),
        NumericConfigError(record, "kcpReadBuffer", "Read Buffer Size", 0, NO_UPPER_BOUND),
        NumericConfigError(record, "kcpWriteBuffer", "Write Buffer Size", 0, NO_UPPER_BOUND),
        StringConfigError(record, "packetHeader", "Packet Header", [], "") ]
    else if network == "ws" || network == "http" then
      [ StringConfigError(record, "networkHost", "Host", [v.isDomainNameValid], ""),
        StringConfigError(record, "networkPath", "Path", [], "") ]
    else if network == "domainsocket" then
      [ StringConfigError(record, "domainSocketFilePath", "Socket File Path", [v.isFileExists], "") ]
    else if network == "quic" then
      [ StringConfigError(record, "quicSecurity", "QUIC Security", [], ""),
        StringConfigError(record, "packetHeader", "Packet Header", [], ""),
        StringConfigError(record, "quicKey", "QUIC Key", [], "") ]
    else []
  }

  /** The errors reported for a VMess record. */
  function V2RayErrors(v: FieldValidators, record: JObject, excludedName: Option<string>): seq<string>
  {
    RemoveAll(V2RayFieldChecks(v, record, excludedName)
              + StreamSettingsChecks(v, record, ToString(Get(record, "network"))), "")
  }

  /** getV2RayStreamSettingsErrors. */
  method V2RayStreamSettingsErrors(v: FieldValidators, record: JObject, network: string)
    returns (errors: seq<string>)
    ensures errors == StreamSettingsChecks(v, record, network)
    ensures network !in {"kcp", "ws", "http", "domainsocket", "quic"} ==> errors == []
  {
    errors := [];
    if network == "kcp" {
      errors := errors + [NumericConfigError(record, "kcpMtu", "MTU", 576, 1460)];
      errors := errors + [NumericConfigError(record, "kcpTti", "TTI", 10, 100)];
      errors := errors + [NumericConfigError(record, "kcpUpLink", "Uplink Capacity", 0, NO_UPPER_BOUND)];
      errors := errors + [NumericConfigError(record, "kcpDownLink", "Downlink Capacity", 0, NO_UPPER_BOUND)];
      errors := errors + [NumericConfigError(record, "kcpReadBuffer", "Read Buffer Size", 0, NO_UPPER_BOUND)];
      errors := errors + [NumericConfigError(record, "kcpWriteBuffer", "Write Buffer Size", 0, NO_UPPER_BOUND)];
      errors := errors + [StringConfigError(record, "packetHeader", "Packet Header", [], "")];
    } else if network == "ws" || network == "http" {
      errors := errors + [StringConfigError(record, "networkHost", "Host", [v.isDomainNameValid], "")];
      errors := errors + [StringConfigError(record, "networkPath", "Path", [], "")];
    } else if network == "domainsocket" {
      errors := errors + [StringConfigError(record, "domainSocketFilePath", "Socket File Path", [v.isFileExists], "")];
    } else if network == "quic" {
      errors := errors + [StringConfigError(record, "quicSecurity", "QUIC Security", [], "")];
      errors := errors + [StringConfigError(record, "packetHeader", "Packet Header", [], "")];
      errors := errors + [StringConfigError(record, "quicKey", "QUIC Key", [], "")];
    }
  }

  /** getV2RayServerConfigErrors: the field checks, then the transport checks, empty messages removed. */
  method V2RayServerConfigErrors(v: FieldValidators, record: JObject, excludedName: Option<string>)
    returns (errors: seq<string>)
    ensures errors == V2RayErrors(v, record, excludedName)
  {
    var all: seq<string> := [];
    var c0 := ServerNameError(v, record, excludedName);
    var c1 := StringConfigError(record, "serverAddr", "Server Address", [v.isIpAddrValid, v.isDomainNameValid], "");
    var c2 := NumericConfigError(record, "serverPort", "Server Port", 0, 65535);
    var c3 := StringConfigError(record, "id", "ID", [], "");
    var c4 := NumericConfigError(record, "alterId", "Alter ID", 0, 65535);
    var c5 := StringConfigError(record, "security", "Security", [], "");
    var c6 := NumericConfigError(record, "mux", "MUX", -1, 1024);
    var c7 := StringConfigError(record, "network", "Network", [], "");
    var c8 := StringConfigError(record, "networkSecurity", "Network Security", [], "");
    all := all + [c0];
    all := all + [c1];
    all := all + [c2];
    all := all + [c3];
    all := all + [c4];
    all := all + [c5];
    all := all + [c6];
    all := all + [c7];
    all := all + [c8];
    var fields := all;
    assert fields == V2RayFieldChecks(v, record, excludedName);
    var streamErrors := V2RayStreamSettingsErrors(v, record, ToString(Get(record, "network")));
    all := all + streamErrors;
    errors := RemoveAll(all, "");
  }

  /**
    No empty message survives, the field errors come before the transport
    errors, and a name error, when there is one, is the first message.
  */
  lemma V2RayErrorsOrder(v: FieldValidators, record: JObject, excludedName: Option<string>)
    ensures "" !in V2RayErrors(v, record, excludedName)
    ensures V2RayErrors(v, record, excludedName) ==
      RemoveAll(V2RayFieldChecks(v, record, excludedName), "")
      + RemoveAll(StreamSettingsChecks(v, record, ToString(Get(record, "network"))), "")
    ensures ServerNameError(v, record, excludedName) != "" ==>
      V2RayErrors(v, record, excludedName) != [] &&
      V2RayErrors(v, record, excludedName)[0] == ServerNameError(v, record, excludedName)
  {
    var fields := V2RayFieldChecks(v, record, excludedName);
    var stream := StreamSettingsChecks(v, record, ToString(Get(record, "network")));
    RemoveAllAppend(fields, stream, "");
    if fields[0] != "" {
      RemoveAllHead(fields + stream, "");
    }
  }

  // ---------------------------------------------------------------------
  // Shadowsocks

  /** The Shadowsocks field checks, in the order they are appended. */
  function ShadowsocksFieldChecks(v: FieldValidators, record: JObject, excludedName: Option<string>): seq<string>
  {
    [ ServerNameError(v, record, excludedName),
      StringConfigError(record, "serverAddr", "Server Address", [v.isIpAddrValid, v.isDomainNameValid], ""),
      NumericConfigError(record, "serverPort", "Server Port", 0, 65535),
      StringConfigError(record, "encryption", "Security", [], ""),
      StringConfigError(record, "password", "Password", [], "") ]
  }

  /** Plugins are refused outright: one message when the record names any. */
  function PluginChecks(record: JObject): seq<string>
  {
    if "plugins" in record then [PLUGINS_UNSUPPORTED_MESSAGE] else []
  }

  /** The errors reported for a Shadowsocks record. */
  function ShadowsocksErrors(v: FieldValidators, record: JObject, excludedName: Option<string>): seq<string>
  {
    RemoveAll(ShadowsocksFieldChecks(v, record, excludedName) + PluginChecks(record), "")
  }

  /** The checks' messages other than the plugin refusal: "" or a captioned message or the name-in-use text. */
  predicate PlainMessage(m: string)
  {
    m == "" || IsLabelMessage(m) || m == NAME_USED_MESSAGE
  }

  lemma FixedMessagesDiffer()
    ensures !PlainMessage(PLUGINS_UNSUPPORTED_MESSAGE)
    ensures !IsLabelMessage(NAME_USED_MESSAGE)
    ensures NAME_USED_MESSAGE != PLUGINS_UNSUPPORTED_MESSAGE
  {
    assert PLUGINS_UNSUPPORTED_MESSAGE[|PLUGINS_UNSUPPORTED_MESSAGE| - 1] == '.';
    assert NAME_USED_MESSAGE[|NAME_USED_MESSAGE| - 1] == '.';
    assert |PLUGINS_UNSUPPORTED_MESSAGE| != |NAME_USED_MESSAGE|;
  }

  lemma ServerNameErrorShape(v: FieldValidators, record: JObject, excludedName: Option<string>)
    ensures PlainMessage(ServerNameError(v, record, excludedName))
  {
    LabelMessages("Server Name");
  }

  lemma ShadowsocksChecksArePlain(v: FieldValidators, record: JObject, excludedName: Option<string>)
    ensures AllPlain(ShadowsocksFieldChecks(v, record, excludedName))
  {
    ServerNameErrorShape(v, record, excludedName);
    ShadowsocksFieldChecksLabelled(v, record, excludedName);
  }

  predicate AllPlain(checks: seq<string>)
  {
    forall i :: 0 <= i < |checks| ==> PlainMessage(checks[i])
  }

  lemma {:induction false} PlainMessagesOnly(checks: seq<string>, m: string)
    requires AllPlain(checks)
    requires !PlainMessage(m)
    ensures multiset(checks)[m] == 0
  {
    if checks != [] {
      assert checks == [checks[0]] + checks[1..];
      PlainMessagesOnly(checks[1..], m);
    }
  }

  /** getShadowsocksServerConfigErrors: the field checks, the plugin refusal, empty messages removed. */
  method ShadowsocksServerConfigErrors(v: FieldValidators, record: JObject, excludedName: Option<string>)
    returns (errors: seq<string>)
    ensures errors == ShadowsocksErrors(v, record, excludedName)
  {
    var all: seq<string> := [];
    var c0 := ServerNameError(v, record, excludedName);
    var c1 := StringConfigError(record, "serverAddr", "Server Address", [v.isIpAddrValid, v.isDomainNameValid], "");
    var c2 := NumericConfigError(record, "serverPort", "Server Port", 0, 65535);
    var c3 := StringConfigError(record, "encryption", "Security", [], "");
    var c4 := StringConfigError(record, "password", "Password", [], "");
    all := all + [c0];
    all := all + [c1];
    all := all + [c2];
    all := all + [c3];
    all := all + [c4];
    var fields := all;
    assert fields == ShadowsocksFieldChecks(v, record, excludedName);
    if "plugins" in record {
      all := all + [PLUGINS_UNSUPPORTED_MESSAGE];
    }
    assert all == fields + PluginChecks(record);
    errors := RemoveAll(all, "");
  }

  /**
    The plugins message is reported exactly once when the record has a
    "plugins" key and never otherwise; no reported message is empty.
  */
  lemma ShadowsocksPluginRefusal(v: FieldValidators, record: JObject, excludedName: Option<string>)
    ensures var errors := ShadowsocksErrors(v, record, excludedName);
      "" !in errors &&
      multiset(errors)[PLUGINS_UNSUPPORTED_MESSAGE] == (if "plugins" in record then 1 else 0)
  {
    var fields := ShadowsocksFieldChecks(v, record, excludedName);
    ShadowsocksChecksOmitRefusal(v, record, excludedName);
    PluginRefusalAfter(fields, record);
  }

  /** The non-empty field messages come first, in order, and the plugins message, if any, last. */
  lemma ShadowsocksRefusalLast(v: FieldValidators, record: JObject, excludedName: Option<string>)
    ensures ShadowsocksErrors(v, record, excludedName) ==
      RemoveAll(ShadowsocksFieldChecks(v, record, excludedName), "") + PluginChecks(record)
  {
    PluginRefusalAppended(ShadowsocksFieldChecks(v, record, excludedName), record);
  }

  /** None of the field checks produces the plugin refusal. */
  lemma ShadowsocksChecksOmitRefusal(v: FieldValidators, record: JObject, excludedName: Option<string>)
    ensures PLUGINS_UNSUPPORTED_MESSAGE !in ShadowsocksFieldChecks(v, record, excludedName)
  {
    var fields := ShadowsocksFieldChecks(v, record, excludedName);
    ShadowsocksChecksArePlain(v, record, excludedName);
    FixedMessagesDiffer();
    PlainMessagesOnly(fields, PLUGINS_UNSUPPORTED_MESSAGE);
  }

  /** Removing the empty messages never touches the plugins message appended after the others. */
  lemma PluginRefusalAppended(fields: seq<string>, record: JObject)
    ensures RemoveAll(fields + PluginChecks(record), "") == RemoveAll(fields, "") + PluginChecks(record)
  {
    if "plugins" in record {
      RemoveAllAppend(fields, [PLUGINS_UNSUPPORTED_MESSAGE], "");
      RemoveAllCons(PLUGINS_UNSUPPORTED_MESSAGE, [], "");
    } else {
      assert fields + PluginChecks(record) == fields;
    }
  }

  /** After checks that never produce it, the refusal is counted once exactly when the record has plugins. */
  lemma PluginRefusalAfter(fields: seq<string>, record: JObject)
    requires PLUGINS_UNSUPPORTED_MESSAGE !in fields
    ensures var errors := RemoveAll(fields + PluginChecks(record), "");
      "" !in errors &&
      multiset(errors)[PLUGINS_UNSUPPORTED_MESSAGE] == (if "plugins" in record then 1 else 0)
  {
    PluginRefusalAppended(fields, record);
  }

  // ---------------------------------------------------------------------
  // Properties of the checks

  /** Transport checks exist only for kcp, ws, http, domainsocket and quic. */
  lemma StreamChecksOnlyForTransports(v: FieldValidators, record: JObject, network: string)
    ensures |StreamSettingsChecks(v, record, network)| ==
      if network == "kcp" then 7
      else if network == "ws" || network == "http" then 2
      else if network == "domainsocket" then 1
      else if network == "quic" then 3
      else 0
  {
  }

  /**
    For kcp the MTU is held to [576, 1460] and the TTI to [10, 100], whether
    they are stored as numbers or as numeric text.
  */
  lemma KcpRanges(v: FieldValidators, record: JObject, mtu: int, tti: int)
    requires "kcpMtu" in record && ReadInt(record["kcpMtu"]) == Some(mtu)
    requires "kcpTti" in record && ReadInt(record["kcpTti"]) == Some(tti)
    ensures var checks := StreamSettingsChecks(v, record, "kcp");
      (checks[0] == "" <==> 576 <= mtu <= 1460) && (checks[1] == "" <==> 10 <= tti <= 100)
  {
  }

  /**
    Both protocols hold the port, a number or numeric text, to [0, 65535]
    and report one out-of-range message otherwise.
  */
  lemma PortRange(v: FieldValidators, record: JObject, excludedName: Option<string>, port: int)
    requires "serverPort" in record && ReadInt(record["serverPort"]) == Some(port)
    ensures V2RayFieldChecks(v, record, excludedName)[2] ==
      if 0 <= port <= 65535 then "" else OutOfRangeMessage("Server Port")
    ensures ShadowsocksFieldChecks(v, record, excludedName)[2] ==
      if 0 <= port <= 65535 then "" else OutOfRangeMessage("Server Port")
  {
  }

  /** A record without a name is never valid, whatever else it holds. */
  lemma MissingNameIsReported(v: FieldValidators, record: JObject, excludedName: Option<string>)
    requires "serverName" !in record
    ensures V2RayErrors(v, record, excludedName) != []
    ensures V2RayErrors(v, record, excludedName)[0] == RequiredMessage("Server Name")
    ensures ShadowsocksErrors(v, record, excludedName) != []
    ensures ShadowsocksErrors(v, record, excludedName)[0] == RequiredMessage("Server Name")
  {
    MissingNameError(v, record, excludedName);
    V2RayErrorsOrder(v, record, excludedName);
    ShadowsocksNameFirst(v, record, excludedName);
  }

  lemma MissingNameError(v: FieldValidators, record: JObject, excludedName: Option<string>)
    requires "serverName" !in record
    ensures ServerNameError(v, record, excludedName) == RequiredMessage("Server Name")
  {
  }

  /** A Shadowsocks name error, when there is one, is the first message. */
  lemma ShadowsocksNameFirst(v: FieldValidators, record: JObject, excludedName: Option<string>)
    ensures ServerNameError(v, record, excludedName) != "" ==>
      ShadowsocksErrors(v, record, excludedName) != [] &&
      ShadowsocksErrors(v, record, excludedName)[0] == ServerNameError(v, record, excludedName)
  {
    if ServerNameError(v, record, excludedName) != "" {
      RemoveAllHead(ShadowsocksFieldChecks(v, record, excludedName) + PluginChecks(record), "");
    }
  }

  /** Every message is empty or a captioned evaluator message. */
  predicate Labelled(checks: seq<string>)
  {
    forall i :: 0 <= i < |checks| ==> checks[i] == "" || IsLabelMessage(checks[i])
  }

  lemma LabelledExcludes(checks: seq<string>, m: string)
    requires Labelled(checks) && m != "" && !IsLabelMessage(m)
    ensures m !in checks
  {
  }

  lemma LabelledCons(checks: seq<string>)
    requires checks != [] && (checks[0] == "" || IsLabelMessage(checks[0])) && Labelled(checks[1..])
    ensures Labelled(checks)
  {
    assert forall i :: 1 <= i < |checks| ==> checks[i] == checks[1..][i - 1];
  }

  lemma LabelledAppend(a: seq<string>, b: seq<string>)
    requires Labelled(a) && Labelled(b)
    ensures Labelled(a + b)
  {
    assert forall i :: |a| <= i < |a + b| ==> (a + b)[i] == b[i - |a|];
  }

  /** Removing the empty messages cannot bring a message in. */
  lemma AbsentAfterRemoval(checks: seq<string>, m: string)
    requires m !in checks
    ensures m !in RemoveAll(checks, "")
  {
    assert multiset(RemoveAll(checks, ""))[m] == 0;
  }

  /**
    Re-validating a profile under its own unchanged name never reports the
    name as used, whichever names the profile store holds.
  */
  lemma OwnNameIsNotInUse(v: FieldValidators, record: JObject)
    ensures NAME_USED_MESSAGE !in V2RayErrors(v, record, Some(ServerName(record)))
    ensures NAME_USED_MESSAGE !in ShadowsocksErrors(v, record, Some(ServerName(record)))
  {
    FixedMessagesDiffer();
    OwnNameV2Ray(v, record);
    OwnNameShadowsocks(v, record);
  }

  lemma OwnNameV2Ray(v: FieldValidators, record: JObject)
    requires !IsLabelMessage(NAME_USED_MESSAGE)
    ensures NAME_USED_MESSAGE !in V2RayErrors(v, record, Some(ServerName(record)))
  {
    var fields := V2RayFieldChecks(v, record, Some(ServerName(record)));
    var stream := StreamSettingsChecks(v, record, ToString(Get(record, "network")));
    OwnNameLabelled(v, record);
    V2RayFieldChecksLabelled(v, record, Some(ServerName(record)));
    LabelledCons(fields);
    StreamChecksAreLabelled(v, record, ToString(Get(record, "network")));
    LabelledAppend(fields, stream);
    LabelledExcludes(fields + stream, NAME_USED_MESSAGE);
    AbsentAfterRemoval(fields + stream, NAME_USED_MESSAGE);
  }

  lemma OwnNameShadowsocks(v: FieldValidators, record: JObject)
    requires !IsLabelMessage(NAME_USED_MESSAGE) && NAME_USED_MESSAGE != PLUGINS_UNSUPPORTED_MESSAGE
    ensures NAME_USED_MESSAGE !in ShadowsocksErrors(v, record, Some(ServerName(record)))
  {
    var fields := ShadowsocksFieldChecks(v, record, Some(ServerName(record)));
    OwnNameLabelled(v, record);
    ShadowsocksFieldChecksLabelled(v, record, Some(ServerName(record)));
    LabelledCons(fields);
    LabelledExcludes(fields, NAME_USED_MESSAGE);
    AbsentAfterRemoval(fields + PluginChecks(record), NAME_USED_MESSAGE);
  }

  /** Under its own name a profile's name check is a plain required-field check. */
  lemma OwnNameLabelled(v: FieldValidators, record: JObject)
    ensures var m := ServerNameError(v, record, Some(ServerName(record))); m == "" || IsLabelMessage(m)
  {
    StringErrorShape(record, "serverName", "Server Name", []);
  }

  lemma V2RayFieldChecksLabelled(v: FieldValidators, record: JObject, excludedName: Option<string>)
    ensures Labelled(V2RayFieldChecks(v, record, excludedName)[1..])
  {
    StringErrorShape(record, "serverAddr", "Server Address", [v.isIpAddrValid, v.isDomainNameValid]);
    NumericErrorShape(record, "serverPort", "Server Port", 0, 65535);
    StringErrorShape(record, "id", "ID", []);
    NumericErrorShape(record, "alterId", "Alter ID", 0, 65535);
    StringErrorShape(record, "security", "Security", []);
    NumericErrorShape(record, "mux", "MUX", -1, 1024);
    StringErrorShape(record, "network", "Network", []);
    StringErrorShape(record, "networkSecurity", "Network Security", []);
  }

  lemma ShadowsocksFieldChecksLabelled(v: FieldValidators, record: JObject, excludedName: Option<string>)
    ensures Labelled(ShadowsocksFieldChecks(v, record, excludedName)[1..])
  {
    StringErrorShape(record, "serverAddr", "Server Address", [v.isIpAddrValid, v.isDomainNameValid]);
    NumericErrorShape(record, "serverPort", "Server Port", 0, 65535);
    StringErrorShape(record, "encryption", "Security", []);
    StringErrorShape(record, "password", "Password", []);
  }

  lemma StreamChecksAreLabelled(v: FieldValidators, record: JObject, network: string)
    ensures Labelled(StreamSettingsChecks(v, record, network))
  {
    if network == "kcp" {
      NumericErrorShape(record, "kcpMtu", "MTU", 576, 1460);
      NumericErrorShape(record, "kcpTti", "TTI", 10, 100);
      NumericErrorShape(record, "kcpUpLink", "Uplink Capacity", 0, NO_UPPER_BOUND);
      NumericErrorShape(record, "kcpDownLink", "Downlink Capacity", 0, NO_UPPER_BOUND);
      NumericErrorShape(record, "kcpReadBuffer", "Read Buffer Size", 0, NO_UPPER_BOUND);
      NumericErrorShape(record, "kcpWriteBuffer", "Write Buffer Size", 0, NO_UPPER_BOUND);
      StringErrorShape(record, "packetHeader", "Packet Header", []);
    } else if network == "ws" || network == "http" {
      StringErrorShape(record, "networkHost", "Host", [v.isDomainNameValid]);
      StringErrorShape(record, "networkPath", "Path", []);
    } else if network == "domainsocket" {
      StringErrorShape(record, "domainSocketFilePath", "Socket File Path", [v.isFileExists]);
    } else if network == "quic" {
      StringErrorShape(record, "quicSecurity", "QUIC Security", []);
      StringErrorShape(record, "packetHeader", "Packet Header", []);
      StringErrorShape(record, "quicKey", "QUIC Key", []);
    }
  }
}
