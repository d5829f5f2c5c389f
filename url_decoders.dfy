/**
  The share-URL decoders. A `vmess://` URL carries a base64-encoded JSON
  object; an `ss://` URL has the layout `B@A:P/?Q#N`, where B is the base64
  of `method:password`, A the address, P the port, Q a query holding the
  plugin options and N the percent-encoded name. The library decoders
  (base64, JSON, percent-encoding and the query parser's own recoding) are
  supplied by the caller as functions.
*/
module UrlDecoders {
  import opened Wrappers
  import opened QtString
  import opened QtJson

  /**
    The Qt library decoders the URL codecs call:
    - `fromBase64`: QByteArray::fromBase64 read back as UTF-8 text;
    - `jsonObject`: fromBase64, then QJsonDocument::fromJson(...).object()
      (the empty object for anything that is not a JSON object);
    - `fromPercentEncoding`, `toPercentEncoding`: QUrl's percent codecs;
    - `queryRecode`: how QUrlQuery recodes a key or a value it returns.
  */
  datatype QtCodecs = QtCodecs(
    fromBase64: string -> string,
    jsonObject: string -> JObject,
    fromPercentEncoding: string -> string,
    toPercentEncoding: string -> string,
    queryRecode: string -> string)

  // ---------------------------------------------------------------------
  // vmess://

  /** The "net" values a VMess link may name, and the network each stands for. */
  const NETWORK_MAPPER: map<string, string> :=
    map["tcp" := "tcp", "kcp" := "kcp", "ws" := "ws", "h2" := "http", "quic" := "quic"]

  /** The alter ID of a link: text is read with QString::toInt, anything else with toInt. */
  function LinkAlterId(raw: JObject): (r: int)
    ensures InInt32(r)
    ensures "aid" !in raw ==> r == 0
    ensures "aid" in raw && raw["aid"].Num? && InInt32(raw["aid"].n) ==> r == raw["aid"].n
    ensures "aid" in raw && raw["aid"].Str? ==> r == QStringToInt(raw["aid"].s)
  {
    if "aid" in raw then
      (if raw["aid"].Str? then QStringToInt(ToString(raw["aid"])) else ToInt(raw["aid"]))
    else 0
  }

  /**
    The port as getV2RayServerConfigFromUrl reads it, with QJsonValue::toInt:
    a port written as text reads as 0, so the record's port is "0".
  */
  function LinkPortAsWritten(raw: JObject): string
  {
    if "port" in raw then IntToString(ToInt(raw["port"])) else ""
  }

  /**
    The port read the way the alter ID is: text with QString::toInt,
    anything else with toInt. V2RayServerConfigFromUrlCorrected uses this
    reading.
  */
  function LinkPort(raw: JObject): string
  {
    if "port" in raw then
      IntToString(if raw["port"].Str? then QStringToInt(raw["port"].s) else ToInt(raw["port"]))
    else ""
  }

  /**
    With the corrected reading, a text port is kept as the number it holds,
    and a port that is not text is read exactly as written.
  */
  lemma LinkPortReadsText(raw: JObject)
    ensures "port" in raw && raw["port"].Str? ==>
      ParseInteger(LinkPort(raw)) == Some(QStringToInt(raw["port"].s))
    ensures !("port" in raw && raw["port"].Str?) ==> LinkPort(raw) == LinkPortAsWritten(raw)
  {
    if "port" in raw && raw["port"].Str? {
      ParseIntToString(QStringToInt(raw["port"].s));
    }
  }

  /** The text of a link field, "" when the link does not have it. */
  function LinkText(raw: JObject, key: string): string
  {
    if key in raw then ToString(raw[key]) else ""
  }

  /** getV2RayServerConfigFromUrl: the link after its 8-character scheme is decoded as JSON. */
  function V2RayServerConfigFromUrl(lib: QtCodecs, server: string, subscriptionUrl: string): JObject
  {
    var raw := lib.jsonObject(Mid(server, 8, -1));
    var network := if "net" in raw then ToString(raw["net"]) else "tcp";
    var serverAddr := LinkText(raw, "add");
    map[
      "autoConnect" := Bool(false),
      "serverName" := Str(if "ps" in raw then ToString(raw["ps"]) else serverAddr),
      "serverAddr" := Str(serverAddr),
      "serverPort" := Str(LinkPortAsWritten(raw)),
      "subscription" := Str(subscriptionUrl),
      "id" := Str(LinkText(raw, "id")),
      "alterId" := Num(LinkAlterId(raw)),
      "mux" := Num(-1),
      "security" := Str("auto"),
      "network" := Str(if network in NETWORK_MAPPER then NETWORK_MAPPER[network] else "tcp"),
      "networkHost" := Str(LinkText(raw, "host")),
      "networkPath" := Str(LinkText(raw, "path")),
      "tcpHeaderType" := Str(LinkText(raw, "type")),
      "networkSecurity" := Str(if "tls" in raw then "tls" else "none")]
  }

  /** The decoder with the corrected port reading; every other field is decoded as above. */
  function V2RayServerConfigFromUrlCorrected(lib: QtCodecs, server: string, subscriptionUrl: string): JObject
  {
    var raw := lib.jsonObject(Mid(server, 8, -1));
    V2RayServerConfigFromUrl(lib, server, subscriptionUrl)["serverPort" := Str(LinkPort(raw))]
  }

  /**
    A decoded VMess link always names one of the five networks: "h2" becomes
    "http", and a missing or unknown "net" becomes "tcp".
  */
  lemma V2RayUrlNetwork(lib: QtCodecs, server: string, subscriptionUrl: string)
    ensures var raw := lib.jsonObject(Mid(server, 8, -1));
      var network := Get(V2RayServerConfigFromUrl(lib, server, subscriptionUrl), "network");
      network in {Str("tcp"), Str("kcp"), Str("ws"), Str("http"), Str("quic")} &&
      ("net" !in raw ==> network == Str("tcp")) &&
      (Get(raw, "net") == Str("h2") ==> network == Str("http")) &&
      ("net" in raw && ToString(raw["net"]) !in NETWORK_MAPPER ==> network == Str("tcp"))
  {
  }

  /** TLS is on exactly when the link has a "tls" key, whatever its value. */
  lemma V2RayUrlTls(lib: QtCodecs, server: string, subscriptionUrl: string)
    ensures var raw := lib.jsonObject(Mid(server, 8, -1));
      Get(V2RayServerConfigFromUrl(lib, server, subscriptionUrl), "networkSecurity")
      == (if "tls" in raw then Str("tls") else Str("none"))
  {
  }

  /**
    The fixed defaults of a decoded VMess link: no auto-connect, no
    multiplexing, "auto" security, and the subscription it came from.
  */
  lemma V2RayUrlDefaults(lib: QtCodecs, server: string, subscriptionUrl: string)
    ensures var r := V2RayServerConfigFromUrl(lib, server, subscriptionUrl);
      Get(r, "autoConnect") == Bool(false) && Get(r, "mux") == Num(-1) &&
      Get(r, "security") == Str("auto") && Get(r, "subscription") == Str(subscriptionUrl) &&
      "serverAddr" in r && "serverPort" in r
  {
  }

  /** The user of a decoded VMess link: its id as text ("" when missing) and its alter ID. */
  lemma V2RayUrlUser(lib: QtCodecs, server: string, subscriptionUrl: string)
    ensures var raw := lib.jsonObject(Mid(server, 8, -1));
      var r := V2RayServerConfigFromUrl(lib, server, subscriptionUrl);
      Get(r, "id") == Str(if "id" in raw then ToString(raw["id"]) else "") &&
      Get(r, "alterId") == Num(LinkAlterId(raw))
  {
  }

  /** A link without a name ("ps") is named after its address. */
  lemma V2RayUrlName(lib: QtCodecs, server: string, subscriptionUrl: string)
    requires "ps" !in lib.jsonObject(Mid(server, 8, -1))
    ensures var r := V2RayServerConfigFromUrl(lib, server, subscriptionUrl);
      Get(r, "serverName") == Get(r, "serverAddr")
  {
  }

  /**
    The port is kept as decimal text. A 32-bit number reads back as itself,
    and a port written as text is read by QJsonValue::toInt as 0.
  */
  lemma V2RayUrlPort(lib: QtCodecs, server: string, subscriptionUrl: string)
    ensures var raw := lib.jsonObject(Mid(server, 8, -1));
      var port := Get(V2RayServerConfigFromUrl(lib, server, subscriptionUrl), "serverPort");
      port.Str? &&
      ("port" !in raw ==> port.s == "") &&
      ("port" in raw && raw["port"].Num? && InInt32(raw["port"].n) ==> ParseInteger(port.s) == Some(raw["port"].n)) &&
      ("port" in raw && raw["port"].Str? ==> port.s == "0")
  {
    var raw := lib.jsonObject(Mid(server, 8, -1));
    if "port" in raw && raw["port"].Num? && InInt32(raw["port"].n) {
      ParseIntToString(raw["port"].n);
    }
    assert NatToString(0) == "0";
  }

  /** A link whose JSON holds the port as the text "443", as v2rayN's ver-2 links do, decodes to port "0". */
  lemma TextPortAsWritten(lib: QtCodecs, server: string, subscriptionUrl: string)
    requires lib.jsonObject(Mid(server, 8, -1)) == map["port" := Str("443")]
    ensures Get(V2RayServerConfigFromUrl(lib, server, subscriptionUrl), "serverPort") == Str("0")
  {
    V2RayUrlPort(lib, server, subscriptionUrl);
  }

  /**
    The corrected decoder keeps a text port as the number it holds, and
    decodes every link without a text port exactly as the code does.
  */
  lemma V2RayUrlPortCorrected(lib: QtCodecs, server: string, subscriptionUrl: string)
    ensures var raw := lib.jsonObject(Mid(server, 8, -1));
      var corrected := V2RayServerConfigFromUrlCorrected(lib, server, subscriptionUrl);
      var port := Get(corrected, "serverPort");
      port.Str? &&
      ("port" in raw && raw["port"].Str? ==> ParseInteger(port.s) == Some(QStringToInt(raw["port"].s))) &&
      (!("port" in raw && raw["port"].Str?) ==> corrected == V2RayServerConfigFromUrl(lib, server, subscriptionUrl))
  {
    LinkPortReadsText(lib.jsonObject(Mid(server, 8, -1)));
  }

  /** With the corrected reading, the text port "443" decodes to text that reads as 443. */
  lemma TextPortCorrected(lib: QtCodecs, server: string, subscriptionUrl: string)
    requires lib.jsonObject(Mid(server, 8, -1)) == map["port" := Str("443")]
    ensures var port := Get(V2RayServerConfigFromUrlCorrected(lib, server, subscriptionUrl), "serverPort");
      port.Str? && ParseInteger(port.s) == Some(443)
  {
    var t := "443";
    assert t[..2] == "44" && "44"[..1] == "4" && "4"[..0] == "";
    assert DigitsValue("4") == 4;
    assert DigitsValue("44") == 44;
    assert DigitsValue(t) == 443;
    assert t[0] == '4' && AllDigits(t);
    V2RayUrlPortCorrected(lib, server, subscriptionUrl);
  }

  // ---------------------------------------------------------------------
  // The plugin query of an ss:// link

  /**
    The query items QUrlQuery finds: the '&'-separated pieces (a trailing
    empty piece is not an item), each split at its first '='; a piece
    without '=' has an empty value.
  */
  function QueryItems(lib: QtCodecs, query: string): seq<(string, string)>
  {
    var pieces := Split(query, '&');
    var kept := if pieces[|pieces| - 1] == "" then pieces[..|pieces| - 1] else pieces;
    seq(|kept|, i requires 0 <= i < |kept| => QueryItem(lib, kept[i]))
  }

  function QueryItem(lib: QtCodecs, piece: string): (string, string)
  {
    var k := IndexOf(piece, '=');
    if k < 0 then (lib.queryRecode(piece), "")
    else (lib.queryRecode(piece[..k]), lib.queryRecode(piece[k + 1..]))
  }

  /** The options of one "plugin" item: its decoded value split at ';'. */
  function PluginItemOptions(lib: QtCodecs, value: string): seq<string>
  {
    Split(lib.fromPercentEncoding(value), ';')
  }

  /** Only an option of the form `name=value` (exactly one '=') sets an entry. */
  predicate IsOptionPair(option: string)
  {
    |Split(option, '=')| == 2
  }

  /** The entries set by a list of options, later options overriding earlier ones. */
  function AddOptions(plugins: JObject, options: seq<string>): JObject
  {
    if options == [] then plugins
    else
      var before := AddOptions(plugins, options[..|options| - 1]);
      var t := Split(options[|options| - 1], '=');
      if |t| == 2 then before[t[0] := Str(t[1])] else before
  }

  /** The entries set by the "plugin" items among `items`, in order. */
  function AddItems(lib: QtCodecs, plugins: JObject, items: seq<(string, string)>): JObject
  {
    if items == [] then plugins
    else
      var before := AddItems(lib, plugins, items[..|items| - 1]);
      var item := items[|items| - 1];
      if item.0 == "plugin" then AddOptions(before, PluginItemOptions(lib, item.1)) else before
  }

  /** What getShadowsocksPlugins builds from a plugin query. */
  function PluginOptions(lib: QtCodecs, pluginString: string): JObject
  {
    AddItems(lib, map[], QueryItems(lib, pluginString))
  }

  /** getShadowsocksPlugins. */
  method ShadowsocksPlugins(lib: QtCodecs, pluginString: string) returns (plugins: JObject)
    ensures plugins == PluginOptions(lib, pluginString)
  {
    plugins := map[];
    var items := QueryItems(lib, pluginString);
    var i := 0;
    while i < |items|
      invariant 0 <= i <= |items|
      invariant plugins == AddItems(lib, map[], items[..i])
    {
      var p := items[i];
      if p.0 == "plugin" {
        plugins := AddPluginOptions(plugins, PluginItemOptions(lib, p.1));
      }
      assert items[..i + 1][..i] == items[..i];
      i := i + 1;
    }
    assert items[..i] == items;
  }

  /** The inner loop of getShadowsocksPlugins: each `name=value` option sets its entry. */
  method AddPluginOptions(start: JObject, options: seq<string>) returns (plugins: JObject)
    ensures plugins == AddOptions(start, options)
  {
    plugins := start;
    var j := 0;
    while j < |options|
      invariant 0 <= j <= |options|
      invariant plugins == AddOptions(start, options[..j])
    {
      var t := Split(options[j], '=');
      if |t| == 2 {
        plugins := plugins[t[0] := Str(t[1])];
      }
      assert options[..j + 1][..j] == options[..j];
      j := j + 1;
    }
    assert options[..j] == options;
  }

  /**
    The entries an option list adds are exactly the names of its
    `name=value` options, and every value is text.
  */
  lemma {:induction false} AddOptionsKeys(plugins: JObject, options: seq<string>, name: string)
    ensures name in AddOptions(plugins, options) <==>
      name in plugins || exists j :: 0 <= j < |options| && IsOptionPair(options[j]) && Split(options[j], '=')[0] == name
    ensures name in AddOptions(plugins, options) && name !in plugins ==> AddOptions(plugins, options)[name].Str?
  {
    if options != [] {
      var init := options[..|options| - 1];
      AddOptionsKeys(plugins, init, name);
      assert forall j :: 0 <= j < |init| ==> options[j] == init[j];
    }
  }

  /** The option is a `name=value` pair for the given name. */
  predicate SetsName(option: string, name: string)
  {
    IsOptionPair(option) && Split(option, '=')[0] == name
  }

  /**
    The entry of a name is the value of the last `name=value` option for
    it: later options override earlier ones.
  */
  lemma {:induction false} AddOptionsLastWins(plugins: JObject, options: seq<string>, name: string, j: int)
    requires 0 <= j < |options| && SetsName(options[j], name)
    requires forall k :: j < k < |options| ==> !SetsName(options[k], name)
    ensures name in AddOptions(plugins, options)
    ensures AddOptions(plugins, options)[name] == Str(Split(options[j], '=')[1])
    decreases |options|
  {
    var init := options[..|options| - 1];
    if j < |options| - 1 {
      assert forall k :: j < k < |init| ==> init[k] == options[k];
      AddOptionsLastWins(plugins, init, name, j);
      assert !SetsName(options[|options| - 1], name);
    }
  }

  /** A name no option sets keeps its entry, or its absence. */
  lemma {:induction false} AddOptionsUntouched(plugins: JObject, options: seq<string>, name: string)
    requires forall k :: 0 <= k < |options| ==> !SetsName(options[k], name)
    ensures name in AddOptions(plugins, options) <==> name in plugins
    ensures name in plugins ==> AddOptions(plugins, options)[name] == plugins[name]
    decreases |options|
  {
    if options != [] {
      var init := options[..|options| - 1];
      assert forall k :: 0 <= k < |init| ==> init[k] == options[k];
      AddOptionsUntouched(plugins, init, name);
      assert !SetsName(options[|options| - 1], name);
    }
  }

  /** Every entry is text, and neither its name nor its value holds '='. */
  predicate PlainEntries(plugins: JObject)
  {
    forall k :: k in plugins ==> '=' !in k && plugins[k].Str? && '=' !in plugins[k].s
  }

  /** Each entry an option sets is one side of a `name=value` option, so it holds no '='. */
  lemma {:induction false} AddOptionsPlain(plugins: JObject, options: seq<string>)
    requires PlainEntries(plugins)
    ensures PlainEntries(AddOptions(plugins, options))
  {
    if options != [] {
      var before := AddOptions(plugins, options[..|options| - 1]);
      AddOptionsPlain(plugins, options[..|options| - 1]);
      var t := Split(options[|options| - 1], '=');
      SplitParts(options[|options| - 1], '=');
      if |t| == 2 {
        assert '=' !in t[0] && '=' !in t[1];
        assert PlainEntries(before[t[0] := Str(t[1])]);
      }
    }
  }

  lemma {:induction false} AddItemsPlain(lib: QtCodecs, plugins: JObject, items: seq<(string, string)>)
    requires PlainEntries(plugins)
    ensures PlainEntries(AddItems(lib, plugins, items))
  {
    if items != [] {
      var before := AddItems(lib, plugins, items[..|items| - 1]);
      AddItemsPlain(lib, plugins, items[..|items| - 1]);
      AddOptionsPlain(before, PluginItemOptions(lib, items[|items| - 1].1));
    }
  }

  /** Every plugin entry is a text value, and neither its name nor its value holds '='. */
  lemma PluginOptionsShape(lib: QtCodecs, pluginString: string)
    ensures PlainEntries(PluginOptions(lib, pluginString))
  {
    AddItemsPlain(lib, map[], QueryItems(lib, pluginString));
  }

  /** Items other than "plugin" are ignored. */
  lemma {:induction false} AddItemsIgnoresOthers(lib: QtCodecs, plugins: JObject, items: seq<(string, string)>)
    requires forall i :: 0 <= i < |items| ==> items[i].0 != "plugin"
    ensures AddItems(lib, plugins, items) == plugins
  {
    if items != [] {
      AddItemsIgnoresOthers(lib, plugins, items[..|items| - 1]);
    }
  }

  // ---------------------------------------------------------------------
  // ss://

  /** The five pieces an ss:// link is cut into, before any decoding. */
  datatype SsPieces = SsPieces(credentials: string, serverAddr: string, serverPort: string,
                               pluginQuery: string, name: string)

  /**
    How the decoder cuts the link (the part after "ss://"): each piece lies
    between the first occurrences of two delimiters, found once, in the
    whole link.
  */
  function CutShadowsocksUrl(url: string): SsPieces
  {
    CutAt(url, IndexOf(url, '@'), IndexOf(url, ':'), IndexOf(url, '/'), IndexOf(url, '?'), IndexOf(url, '#'))
  }

  /** The pieces between the delimiter positions the decoder found. */
  function CutAt(url: string, atIndex: int, colonIndex: int, slashIndex: int, questionMarkIndex: int, sharpIndex: int): SsPieces
  {
    SsPieces(
      Left(url, atIndex),
      Mid(url, atIndex + 1, colonIndex - atIndex - 1),
      Mid(url, colonIndex + 1, slashIndex - colonIndex - 1),
      Mid(url, questionMarkIndex + 1, sharpIndex - questionMarkIndex - 1),
      Mid(url, sharpIndex + 1, -1))
  }

  /** The encryption method: the decoded credentials up to their first ':'. */
  function CredentialMethod(confidential: string): string
  {
    Left(confidential, IndexOf(confidential, ':'))
  }

  /** The password: the decoded credentials after their first ':'. */
  function CredentialPassword(confidential: string): string
  {
    Mid(confidential, IndexOf(confidential, ':') + 1, -1)
  }

  /** The record built from the pieces, before the plugins are added. */
  function ShadowsocksBaseRecord(lib: QtCodecs, pieces: SsPieces, subscriptionUrl: string): JObject
  {
    var confidential := lib.fromBase64(pieces.credentials);
    map[
      "serverName" := Str(lib.fromPercentEncoding(pieces.name)),
      "autoConnect" := Bool(false),
      "subscription" := Str(subscriptionUrl),
      "serverAddr" := Str(pieces.serverAddr),
      "serverPort" := Str(pieces.serverPort),
      "encryption" := Str(CredentialMethod(confidential)),
      "password" := Str(CredentialPassword(confidential))]
  }

  /** The "plugins" entry is added only when it would not be empty. */
  function WithPlugins(serverConfig: JObject, pluginOptions: JObject): JObject
  {
    if pluginOptions != map[] then serverConfig["plugins" := Obj(pluginOptions)] else serverConfig
  }

  /** getShadowsocksServerConfigFromUrl: the link after its 5-character scheme is cut and decoded. */
  function ShadowsocksServerConfigFromUrl(lib: QtCodecs, serverUrl: string, subscriptionUrl: string): JObject
  {
    var pieces := CutShadowsocksUrl(Mid(serverUrl, 5, -1));
    WithPlugins(ShadowsocksBaseRecord(lib, pieces, subscriptionUrl), PluginOptions(lib, pieces.pluginQuery))
  }

  /** Every decoded ss:// record has an address and a port, is not auto-connected and remembers its subscription. */
  lemma ShadowsocksUrlDefaults(lib: QtCodecs, serverUrl: string, subscriptionUrl: string)
    ensures var r := ShadowsocksServerConfigFromUrl(lib, serverUrl, subscriptionUrl);
      Get(r, "autoConnect") == Bool(false) && Get(r, "subscription") == Str(subscriptionUrl) &&
      "serverAddr" in r && "serverPort" in r
  {
    var pieces := CutShadowsocksUrl(Mid(serverUrl, 5, -1));
    ShadowsocksRecordAddress(lib, pieces, subscriptionUrl, PluginOptions(lib, pieces.pluginQuery));
    ShadowsocksRecordDefaults(lib, pieces, subscriptionUrl, PluginOptions(lib, pieces.pluginQuery));
  }

  /**
    A "plugins" entry is stored exactly when the plugin query yields an
    option, and it then holds those options.
  */
  lemma ShadowsocksUrlPlugins(lib: QtCodecs, serverUrl: string, subscriptionUrl: string)
    ensures var options := PluginOptions(lib, CutShadowsocksUrl(Mid(serverUrl, 5, -1)).pluginQuery);
      var r := ShadowsocksServerConfigFromUrl(lib, serverUrl, subscriptionUrl);
      ("plugins" in r <==> options != map[]) &&
      ("plugins" in r ==> r["plugins"] == Obj(options) && PlainEntries(options))
  {
    var pieces := CutShadowsocksUrl(Mid(serverUrl, 5, -1));
    ShadowsocksRecordPlugins(lib, pieces, subscriptionUrl, PluginOptions(lib, pieces.pluginQuery));
    PluginOptionsShape(lib, pieces.pluginQuery);
  }

  /**
    The credentials split at their first ':' into method and password; with
    no ':' both are the whole decoded text.
  */
  lemma ShadowsocksCredentials(confidential: string)
    ensures ':' in confidential ==>
      CredentialMethod(confidential) + ":" + CredentialPassword(confidential) == confidential &&
      ':' !in CredentialMethod(confidential)
    ensures ':' !in confidential ==>
      CredentialMethod(confidential) == confidential && CredentialPassword(confidential) == confidential
  {
    LeftMidAroundFirst(confidential, ':');
  }

  /** The delimiters of the ss:// layout. */
  predicate NoDelimiter(s: string)
  {
    '@' !in s && ':' !in s && '/' !in s && '?' !in s && '#' !in s
  }

  /**
    No piece holds a delimiter that the decoder would find before the one
    that ends the piece: B holds none, A no ':', '/', '?' or '#', P no '/',
    '?' or '#', and Q no '#'. The name N may hold anything.
  */
  predicate CuttablePieces(b: string, a: string, p: string, q: string)
  {
    NoDelimiter(b) &&
    ':' !in a && '/' !in a && '?' !in a && '#' !in a &&
    '/' !in p && '?' !in p && '#' !in p &&
    '#' !in q
  }

  /** The layout of an ss:// link after its scheme. */
  function ShadowsocksLink(b: string, a: string, p: string, q: string, n: string): string
  {
    b + "@" + a + ":" + p + "/?" + q + "#" + n
  }

  // Where the decoder finds each delimiter in a well-formed link, and the
  // pieces between them.

  lemma LinkAt(b: string, a: string, p: string, q: string, n: string)
    requires '@' !in b
    ensures IndexOf(ShadowsocksLink(b, a, p, q, n), '@') == |b|
  {
    assert ShadowsocksLink(b, a, p, q, n)[..|b|] == b;
    IndexOfIs(ShadowsocksLink(b, a, p, q, n), '@', |b|);
  }

  lemma LinkColon(b: string, a: string, p: string, q: string, n: string)
    requires ':' !in b && ':' !in a
    ensures IndexOf(ShadowsocksLink(b, a, p, q, n), ':') == |b| + |a| + 1
  {
    assert ShadowsocksLink(b, a, p, q, n)[..|b| + |a| + 1] == b + "@" + a;
    IndexOfIs(ShadowsocksLink(b, a, p, q, n), ':', |b| + |a| + 1);
  }

  lemma LinkSlash(b: string, a: string, p: string, q: string, n: string)
    requires '/' !in b && '/' !in a && '/' !in p
    ensures IndexOf(ShadowsocksLink(b, a, p, q, n), '/') == |b| + |a| + |p| + 2
  {
    assert ShadowsocksLink(b, a, p, q, n)[..|b| + |a| + |p| + 2] == b + "@" + a + ":" + p;
    IndexOfIs(ShadowsocksLink(b, a, p, q, n), '/', |b| + |a| + |p| + 2);
  }

  lemma LinkQuestionMark(b: string, a: string, p: string, q: string, n: string)
    requires '?' !in b && '?' !in a && '?' !in p
    ensures IndexOf(ShadowsocksLink(b, a, p, q, n), '?') == |b| + |a| + |p| + 3
  {
    assert ShadowsocksLink(b, a, p, q, n)[..|b| + |a| + |p| + 3] == b + "@" + a + ":" + p + "/";
    IndexOfIs(ShadowsocksLink(b, a, p, q, n), '?', |b| + |a| + |p| + 3);
  }

  lemma LinkSharp(b: string, a: string, p: string, q: string, n: string)
    requires '#' !in b && '#' !in a && '#' !in p && '#' !in q
    ensures IndexOf(ShadowsocksLink(b, a, p, q, n), '#') == |b| + |a| + |p| + |q| + 4
  {
    assert ShadowsocksLink(b, a, p, q, n)[..|b| + |a| + |p| + |q| + 4] == b + "@" + a + ":" + p + "/?" + q;
    IndexOfIs(ShadowsocksLink(b, a, p, q, n), '#', |b| + |a| + |p| + |q| + 4);
  }

  lemma LinkSlices(b: string, a: string, p: string, q: string, n: string)
    ensures var url := ShadowsocksLink(b, a, p, q, n);
      url[..|b|] == b && url[|b| + 1..|b| + |a| + 1] == a &&
      url[|b| + |a| + 2..|b| + |a| + |p| + 2] == p &&
      url[|b| + |a| + |p| + 4..|b| + |a| + |p| + |q| + 4] == q &&
      url[|b| + |a| + |p| + |q| + 5..] == n
  {
  }

  /** The cut taken at the delimiter positions of a well-formed link. */
  lemma CutAtIndices(url: string, b: string, a: string, p: string, q: string, n: string)
    requires |b| + |a| + |p| + |q| + 5 <= |url|
    requires url[..|b|] == b && url[|b| + 1..|b| + |a| + 1] == a
    requires url[|b| + |a| + 2..|b| + |a| + |p| + 2] == p
    requires url[|b| + |a| + |p| + 4..|b| + |a| + |p| + |q| + 4] == q
    requires url[|b| + |a| + |p| + |q| + 5..] == n
    ensures CutAt(url, |b|, |b| + |a| + 1, |b| + |a| + |p| + 2, |b| + |a| + |p| + 3, |b| + |a| + |p| + |q| + 4)
      == SsPieces(b, a, p, q, n)
  {
    var colonIndex := |b| + |a| + 1;
    var slashIndex := colonIndex + |p| + 1;
    var sharpIndex := slashIndex + |q| + 2;
    MidBetween(url, |b|, colonIndex);
    MidBetween(url, colonIndex, slashIndex);
    MidBetween(url, slashIndex + 1, sharpIndex);
    assert Left(url, |b|) == b;
    assert Mid(url, sharpIndex + 1, -1) == n;
  }

  /**
    A link `B@A:P/?Q#N` whose pieces hold no delimiter found too early is
    cut back into exactly those pieces.
  */
  lemma CutShadowsocksLayout(b: string, a: string, p: string, q: string, n: string)
    requires CuttablePieces(b, a, p, q)
    ensures CutShadowsocksUrl(ShadowsocksLink(b, a, p, q, n)) == SsPieces(b, a, p, q, n)
  {
    LinkAt(b, a, p, q, n);
    LinkColon(b, a, p, q, n);
    LinkSlash(b, a, p, q, n);
    LinkQuestionMark(b, a, p, q, n);
    LinkSharp(b, a, p, q, n);
    LinkSlices(b, a, p, q, n);
    CutAtFound(ShadowsocksLink(b, a, p, q, n), b, a, p, q, n);
  }

  /** The cut of a link whose delimiters are found where a well-formed link has them. */
  lemma CutAtFound(url: string, b: string, a: string, p: string, q: string, n: string)
    requires |b| + |a| + |p| + |q| + 5 <= |url|
    requires IndexOf(url, '@') == |b| && IndexOf(url, ':') == |b| + |a| + 1
    requires IndexOf(url, '/') == |b| + |a| + |p| + 2 && IndexOf(url, '?') == |b| + |a| + |p| + 3
    requires IndexOf(url, '#') == |b| + |a| + |p| + |q| + 4
    requires url[..|b|] == b && url[|b| + 1..|b| + |a| + 1] == a
    requires url[|b| + |a| + 2..|b| + |a| + |p| + 2] == p
    requires url[|b| + |a| + |p| + 4..|b| + |a| + |p| + |q| + 4] == q
    requires url[|b| + |a| + |p| + |q| + 5..] == n
    ensures CutShadowsocksUrl(url) == SsPieces(b, a, p, q, n)
  {
    CutFound(url, |b|, |b| + |a| + 1, |b| + |a| + |p| + 2, |b| + |a| + |p| + 3, |b| + |a| + |p| + |q| + 4);
    CutAtIndices(url, b, a, p, q, n);
  }

  lemma CutFound(url: string, atIndex: int, colonIndex: int, slashIndex: int, questionMarkIndex: int, sharpIndex: int)
    requires IndexOf(url, '@') == atIndex && IndexOf(url, ':') == colonIndex && IndexOf(url, '/') == slashIndex
    requires IndexOf(url, '?') == questionMarkIndex && IndexOf(url, '#') == sharpIndex
    ensures CutShadowsocksUrl(url) == CutAt(url, atIndex, colonIndex, slashIndex, questionMarkIndex, sharpIndex)
  {
  }

  lemma SchemeStripped(url: string)
    ensures Mid("ss://" + url, 5, -1) == url
  {
    assert ("ss://" + url)[5..] == url;
  }

  /** Adding the plugins leaves every other key as it was. */
  lemma WithPluginsKeeps(serverConfig: JObject, pluginOptions: JObject, key: string)
    requires key != "plugins"
    ensures var r := WithPlugins(serverConfig, pluginOptions);
      (key in r <==> key in serverConfig) && Get(r, key) == Get(serverConfig, key)
  {
  }

  lemma ShadowsocksRecordAddress(lib: QtCodecs, pieces: SsPieces, subscriptionUrl: string, options: JObject)
    ensures var r := WithPlugins(ShadowsocksBaseRecord(lib, pieces, subscriptionUrl), options);
      "serverAddr" in r && r["serverAddr"] == Str(pieces.serverAddr) &&
      "serverPort" in r && r["serverPort"] == Str(pieces.serverPort) &&
      Get(r, "serverName") == Str(lib.fromPercentEncoding(pieces.name))
  {
    var base := ShadowsocksBaseRecord(lib, pieces, subscriptionUrl);
    assert "serverAddr" in base && base["serverAddr"] == Str(pieces.serverAddr);
    assert "serverPort" in base && base["serverPort"] == Str(pieces.serverPort);
    assert Get(base, "serverName") == Str(lib.fromPercentEncoding(pieces.name));
    WithPluginsKeeps(base, options, "serverAddr");
    WithPluginsKeeps(base, options, "serverPort");
    WithPluginsKeeps(base, options, "serverName");
  }

  lemma ShadowsocksRecordCredentials(lib: QtCodecs, pieces: SsPieces, subscriptionUrl: string, options: JObject)
    ensures var r := WithPlugins(ShadowsocksBaseRecord(lib, pieces, subscriptionUrl), options);
      var confidential := lib.fromBase64(pieces.credentials);
      Get(r, "encryption") == Str(CredentialMethod(confidential)) &&
      Get(r, "password") == Str(CredentialPassword(confidential))
  {
    var base := ShadowsocksBaseRecord(lib, pieces, subscriptionUrl);
    var confidential := lib.fromBase64(pieces.credentials);
    assert Get(base, "encryption") == Str(CredentialMethod(confidential));
    assert Get(base, "password") == Str(CredentialPassword(confidential));
    WithPluginsKeeps(base, options, "encryption");
    WithPluginsKeeps(base, options, "password");
  }

  lemma ShadowsocksRecordDefaults(lib: QtCodecs, pieces: SsPieces, subscriptionUrl: string, options: JObject)
    ensures var r := WithPlugins(ShadowsocksBaseRecord(lib, pieces, subscriptionUrl), options);
      Get(r, "autoConnect") == Bool(false) && Get(r, "subscription") == Str(subscriptionUrl)
  {
    var base := ShadowsocksBaseRecord(lib, pieces, subscriptionUrl);
    assert Get(base, "autoConnect") == Bool(false) && Get(base, "subscription") == Str(subscriptionUrl);
    WithPluginsKeeps(base, options, "autoConnect");
    WithPluginsKeeps(base, options, "subscription");
  }

  lemma ShadowsocksRecordPlugins(lib: QtCodecs, pieces: SsPieces, subscriptionUrl: string, options: JObject)
    ensures var r := WithPlugins(ShadowsocksBaseRecord(lib, pieces, subscriptionUrl), options);
      (options != map[] <==> "plugins" in r) && ("plugins" in r ==> r["plugins"] == Obj(options))
  {
    var base := ShadowsocksBaseRecord(lib, pieces, subscriptionUrl);
    assert "plugins" !in base;
  }

  /**
    For a link `ss://B@A:P/?Q#N` whose pieces hold no delimiter found too
    early, the address is A, the port is P, the name is N decoded, the
    credentials are B decoded and the plugins are parsed from Q.
  */
  lemma ShadowsocksUrlLayout(lib: QtCodecs, b: string, a: string, p: string, q: string, n: string, subscriptionUrl: string)
    requires CuttablePieces(b, a, p, q)
    ensures var r := ShadowsocksServerConfigFromUrl(lib, "ss://" + ShadowsocksLink(b, a, p, q, n), subscriptionUrl);
      Get(r, "serverAddr") == Str(a) && Get(r, "serverPort") == Str(p) &&
      Get(r, "serverName") == Str(lib.fromPercentEncoding(n)) &&
      Get(r, "encryption") == Str(CredentialMethod(lib.fromBase64(b))) &&
      Get(r, "password") == Str(CredentialPassword(lib.fromBase64(b))) &&
      (PluginOptions(lib, q) != map[] <==> "plugins" in r)
  {
    SchemeStripped(ShadowsocksLink(b, a, p, q, n));
    CutShadowsocksLayout(b, a, p, q, n);
    var pieces := SsPieces(b, a, p, q, n);
    ShadowsocksRecordAddress(lib, pieces, subscriptionUrl, PluginOptions(lib, q));
    ShadowsocksRecordCredentials(lib, pieces, subscriptionUrl, PluginOptions(lib, q));
    ShadowsocksRecordPlugins(lib, pieces, subscriptionUrl, PluginOptions(lib, q));
  }
}
