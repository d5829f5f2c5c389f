# Server profile translation of V2Ray-Desktop, modelled in Dafny

V2Ray-Desktop keeps every proxy server as a flat *profile record*, a JSON
object with keys such as `serverName`, `serverAddr`, `serverPort`, `id`,
`network` and `kcpMtu`. `ServerConfigHelper` translates these records in
four directions:

- **validation**: a record becomes an ordered list of human-readable
  errors, and an empty list means the record is valid;
- **encoding**: a record becomes the outbound fragment of a V2Ray engine
  configuration (`vnext`/`servers`, `mux`, `streamSettings`). For TCP
  with HTTP camouflage, this includes a decoy request carrying 24 random
  User-Agent strings;
- **share-URL decoding**: `vmess://` (base64 JSON) and `ss://`
  (`B@A:P/?Q#N`, with plugin options) links become records;
- **import**: the `outbounds` of a V2Ray configuration, or the `configs`
  of a Shadowsocks-Qt5 configuration, become records.

A dispatcher chooses the codec from the protocol name: `vmess`/`v2ray`,
`shadowsocks`, or an unknown name.

The modules follow the layers of that code:

| file | module | what it holds |
|---|---|---|
| `qt_string.dfy` | `Wrappers`, `QtString` | `QString` operations used by the codecs: `indexOf`, `left`, `mid` (Qt's exact clamping), `split`, `toLower`, `toInt`, `QString::number`, `QStringList::removeAll` |
| `qt_json.dfy` | `QtJson` | `QJsonValue` as a datatype with `Undefined`; the const and non-const `operator[]`; `insert`, where storing `Undefined` removes the key; the `toString`/`toBool`/`toInt`/`toVariant().toInt()` conversions with their 32-bit truncation |
| `utility.dfy` | `Utility` | the constraint evaluator the validators call: required string fields with OR-ed validators, and numeric ranges with the "no upper bound" sentinel `-127` |
| `validation.dfy` | `Validation` | `getServerNameError` and the VMess, stream-settings and Shadowsocks error builders, as methods that append the checks one statement at a time, each with its specification function |
| `encoders.dfy` | `Encoders` | the random User-Agent generator, the `streamSettings` builder, `getPrettyV2RayConfig` and `getPrettyShadowsocksConfig` |
| `url_decoders.dfy` | `UrlDecoders` | the `vmess://` and `ss://` decoders, and the plugin-query parser with its two nested loops |
| `importers.dfy` | `Importers` | the V2Ray outbound import (the settings reader, the stream reader and the insert loop), and the Shadowsocks-Qt5 import |
| `round_trip.dfy` | `RoundTrip` | what the importer reads back from what the encoder writes |
| `facade.dfy` | `Facade` | `getProtocol` and the three dispatchers |

## Conventions

- **Record updates.** The code builds its records step by step, and so
  do the methods that model it:
  - the error builders, the `streamSettings` builder
    (`V2RayStreamSettingsConfig`) and the stream reader
    (`V2RayStreamSettingsFromConfig`) assign a local sequence or map
    statement by statement, as the code does;
  - `InsertAll`, the two import loops, the plugin parser and the
    User-Agent generator update theirs in a loop.

  Each method is proved equal to a specification function, and the
  properties are proved about that function.
- **Randomness.** `std::rand` becomes a parameter `rand: nat -> nat`: the
  k-th call returns `rand(k)`.
- **Qt library decoders.** The decoders the share-URL codecs call become
  the fields of a `QtCodecs` value: base64, JSON parsing, percent decoding
  and encoding, and the recoding `QUrlQuery` applies to each key and
  value.
- **Field validators.** The atomic validators become the fields of a
  `FieldValidators` value: IP literal, domain name, file existence, and
  name not used by another profile.

### Behaviour kept as the code has it

One might expect the transport importer to invert the encoder exactly.
The code does not, and the model follows the code:

- **Global transport wins.** `getServerConfigFromV2RayConfig` passes an
  outbound's own `streamSettings` as the *transport* argument and the
  global `transport` as the *stream settings* argument
  (`src/serverconfighelper.cpp:457-458` against `:507-508`). So a
  non-empty global `transport` replaces every outbound's own settings
  (`Importers.GlobalTransportWins`).
- **TCP header type.** The encoder writes the TCP header type as
  `tcpSettings.type` (`:148`). The importer reads `tcpSettings.header.type`
  (`:527-529`), so a re-imported TCP record always says `"none"`
  (`RoundTrip.StreamRoundTripTcp`).
- **HTTP/2 path.** The HTTP/2 path is written as an array (`:208`) but read
  with `toString` (`:568`), so it comes back empty
  (`RoundTrip.StreamRoundTripHttp`).
- **mKCP write buffer.** A missing `writeBufferSize` falls back to the
  *read*-buffer default (`:554`).
- **Imported mux.** A positive imported mux is stored as decimal text
  (`:471`). It still reads back as the number through
  `toVariant().toInt()` (`RoundTrip.MuxRoundTrip`).

## Model

| member | source | states |
|---|---|---|
| QtString.IndexOfFirst | src/serverconfighelper.cpp:349-353 | `indexOf` is -1 exactly when the character is absent; otherwise it is the index of its first occurrence |
| QtString.MidSlice | src/serverconfighelper.cpp:357-361 | `mid(position, n)` with both in range is the plain slice of n characters |
| QtString.LeftMidAroundFirst | src/serverconfighelper.cpp:365-367 | cutting at the first separator gives a left part without it and a rest that rebuild the text; without a separator, both parts are the whole text |
| QtString.SplitParts | src/serverconfighelper.cpp:390-392 | `split` yields one more part than there are separators, no part contains one, and joining the parts gives the text back |
| QtString.SplitInTwo | src/serverconfighelper.cpp:392-393 | an option splits into exactly two parts iff it holds exactly one `=` |
| QtString.ToLower | src/serverconfighelper.cpp:127 | lower-casing keeps the length and maps each character on its own |
| QtString.ToLowerIdempotent | src/serverconfighelper.cpp:141 | lower-casing twice is lower-casing once |
| QtString.QStringToInt | src/serverconfighelper.cpp:263 | `QString::toInt` always yields a 32-bit value (0 when the text does not parse or does not fit) |
| QtString.ParseIntToString | src/serverconfighelper.cpp:274 | the decimal text `QString::number` writes parses back to the same integer |
| QtString.RemoveAll | src/serverconfighelper.cpp:58-60 | `removeAll("")` removes every empty message and keeps every other one as often as before |
| QtString.RemoveAllAppend | src/serverconfighelper.cpp:58-60 | removal distributes over concatenation, so the order of the remaining messages is kept |
| QtJson.ToInt | src/serverconfighelper.cpp:264 | `QJsonValue::toInt` always yields a 32-bit value |
| QtJson.ToVariantInt | src/serverconfighelper.cpp:122 | `toVariant().toInt()` always yields a 32-bit value |
| QtJson.VariantIntOfNumberText | src/serverconfighelper.cpp:469-471 | a 32-bit number stored as decimal text reads back as itself through `toVariant().toInt()` |
| Utility.StringConfigError | src/serverconfighelper.cpp:36-41 | no message iff the field is a non-empty string that some validator accepts (or there are none); a missing field is "required"; a refused one gets the custom message if any, else "invalid" |
| Utility.NumericConfigError | src/serverconfighelper.cpp:42-43 | no message iff the field is present, numeric and in range; a missing field is "required"; otherwise "out of range" or "invalid" |
| Utility.SentinelHasNoUpperBound | src/serverconfighelper.cpp:72-79 | with the maximum -127, every number from 0 upwards is accepted |
| Validation.ServerNameError | src/serverconfighelper.cpp:17-30 | the profile's own unchanged name is never "used by another server"; any other name is refused exactly when empty or already in use |
| Validation.V2RayStreamSettingsErrors | src/serverconfighelper.cpp:64-101 | the step-by-step builder yields the transport checks of the network in order, and none for a network without a branch |
| Validation.V2RayServerConfigErrors | src/serverconfighelper.cpp:32-62 | the step-by-step builder yields the VMess errors: field checks then transport checks, empty messages removed |
| Validation.V2RayErrorsOrder | src/serverconfighelper.cpp:32-62 | no empty message; field errors come before transport errors in declaration order; a name error comes first |
| Validation.StreamChecksOnlyForTransports | src/serverconfighelper.cpp:64-99 | kcp has 7 checks, ws and http 2, domainsocket 1, quic 3, any other network none |
| Validation.KcpRanges | src/serverconfighelper.cpp:68-71 | an MTU or TTI stored as a number or numeric text passes iff 576..1460, resp. 10..100 |
| Validation.PortRange | src/serverconfighelper.cpp:42-43 | a port stored as a number or numeric text passes iff 0..65535, else "out of range", in both protocols |
| Validation.MissingNameError | src/serverconfighelper.cpp:19-29 | a record without a name gets "Server Name is required" whatever name is excluded |
| Validation.MissingNameIsReported | src/serverconfighelper.cpp:35 | a record without a name is invalid in both protocols, with the name error first |
| Validation.ShadowsocksNameFirst | src/serverconfighelper.cpp:303 | a Shadowsocks name error is the first error |
| Validation.OwnNameIsNotInUse | src/serverconfighelper.cpp:19-24 | re-validating a profile under its own name never reports the name as used, in either protocol |
| Validation.FixedMessagesDiffer | src/serverconfighelper.cpp:29 | the "name used" and "plugins unsupported" messages differ from each other and from the generated ones |
| Validation.ShadowsocksServerConfigErrors | src/serverconfighelper.cpp:300-324 | the step-by-step builder yields the Shadowsocks errors, empty messages removed |
| Validation.ShadowsocksPluginRefusal | src/serverconfighelper.cpp:316-323 | the plugins message appears exactly once iff the record has plugins, never otherwise; no empty message is reported |
| Validation.ShadowsocksRefusalLast | src/serverconfighelper.cpp:302-323 | the non-empty field messages come first, in their order, and the plugins message, if any, last |
| Validation.ShadowsocksChecksOmitRefusal | src/serverconfighelper.cpp:303-315 | no field check of a Shadowsocks record yields the plugins message |
| Validation.PluginRefusalAppended | src/serverconfighelper.cpp:316-323 | removing the empty messages leaves the appended plugins message in place, after the others |
| Encoders.Draw | src/serverconfighelper.cpp:232-235 | each agent draws an OS index below 3, Chrome major 50..79, build 1000..4999, patch below 100 |
| Encoders.UserAgents | src/serverconfighelper.cpp:226-244 | n agents are generated |
| Encoders.RandomUserAgents | src/serverconfighelper.cpp:226-244 | the loop appends the n agents drawn from the random stream, none for a negative n |
| Encoders.V2RayStreamSettingsConfig | src/serverconfighelper.cpp:136-224 | the step-by-step builder yields the stream-settings fragment |
| Encoders.StreamSettingsKeys | src/serverconfighelper.cpp:139-222 | the fragment holds security and tlsSettings, network when the record has one, and exactly the section of its network |
| Encoders.StreamSettingsHeader | src/serverconfighelper.cpp:139-144 | network copied as is, security lower-cased, allowInsecure carried over |
| Encoders.TransportSectionOf | src/serverconfighelper.cpp:183-222 | the section stored under the network's key is that network's section |
| Encoders.TcpSectionType | src/serverconfighelper.cpp:147-148 | the TCP section records the header type |
| Encoders.TcpSectionDecoy | src/serverconfighelper.cpp:149-181 | the decoy request and response are present iff the header type is `http` |
| Encoders.TcpSectionAgents | src/serverconfighelper.cpp:164 | the decoy request carries the 24 drawn agents, and the response is the fixed one |
| Encoders.DecoyRequestHeaders | src/serverconfighelper.cpp:156-164 | the request headers list the 12 decoy hosts and the agents |
| Encoders.PrettyV2RayConfig | src/serverconfighelper.cpp:103-134 | tagged `proxy-vmess`, protocol `vmess`, with a mux entry, the profile fields, the one-server vnext settings and the stream-settings fragment |
| Encoders.V2RayProfileFields | src/serverconfighelper.cpp:105-110 | auto-connect flag and name carried over, the subscription when present, else "" |
| Encoders.MuxSettings | src/serverconfighelper.cpp:112-116 | mux is enabled iff the stored mux is not -1, and the concurrency is the stored mux |
| Encoders.PrettyShadowsocksConfig | src/serverconfighelper.cpp:326-344 | tagged `proxy-shadowsocks`, protocol `shadowsocks`, transport forced to plain TCP, settings holding the one server entry |
| Encoders.ShadowsocksServerFields | src/serverconfighelper.cpp:335-341 | exactly one server: address and password as text, the port as a 32-bit integer, the method lower-cased |
| Encoders.ShadowsocksProfileFields | src/serverconfighelper.cpp:329-333 | auto-connect flag and name carried over, the subscription when present, else "" |
| Encoders.ShadowsocksIgnoresTransport | src/serverconfighelper.cpp:326-344 | fields other than the seven it reads, transport fields included, do not change the fragment |
| UrlDecoders.LinkAlterId | src/serverconfighelper.cpp:261-265 | a missing aid is 0, a number is itself, a text is read with `toInt` |
| UrlDecoders.V2RayUrlNetwork | src/serverconfighelper.cpp:250-283 | the network is one of five; `h2` becomes `http`; a missing or unknown tag becomes `tcp` |
| UrlDecoders.V2RayUrlTls | src/serverconfighelper.cpp:293 | security is `tls` iff the link has a `tls` key, else `none` |
| UrlDecoders.V2RayUrlDefaults | src/serverconfighelper.cpp:267-281 | not auto-connected, mux -1, security `auto`, the subscription kept, address and port present |
| UrlDecoders.V2RayUrlName | src/serverconfighelper.cpp:269-271 | without `ps`, the name is the address |
| UrlDecoders.V2RayUrlPort | src/serverconfighelper.cpp:273-275 | a 32-bit numeric port is stored as text that parses back to it, a port written as text is stored as "0", and no port gives "" |
| UrlDecoders.V2RayUrlUser | src/serverconfighelper.cpp:261-278 | the id is the link's id as text ("" when missing) and the alterId is the link's alter ID |
| UrlDecoders.LinkPortReadsText | src/serverconfighelper.cpp:273-275 | the corrected reading keeps a text port as its number and agrees with the code for any other port |
| UrlDecoders.TextPortAsWritten | src/serverconfighelper.cpp:246-298 | a link holding the text port "443" decodes to port "0" |
| UrlDecoders.V2RayUrlPortCorrected | src/serverconfighelper.cpp:273-275 | the corrected decoder stores a text port as text that reads as its number, and decodes every other link exactly as the code does |
| UrlDecoders.TextPortCorrected | src/serverconfighelper.cpp:273-275 | the corrected decoder stores the text port "443" as text that reads as 443 |
| UrlDecoders.ShadowsocksPlugins | src/serverconfighelper.cpp:384-400 | the nested loops yield the plugin options of the query |
| UrlDecoders.AddOptionsKeys | src/serverconfighelper.cpp:391-395 | a key is stored iff it was there or some option is a `key=value` pair, and a new value is a string |
| UrlDecoders.AddOptionsLastWins | src/serverconfighelper.cpp:391-395 | the entry of a name is the right-hand side of its last `name=value` option |
| UrlDecoders.AddOptionsUntouched | src/serverconfighelper.cpp:391-395 | a name no option sets keeps its entry, or stays absent |
| UrlDecoders.PluginOptionsShape | src/serverconfighelper.cpp:394 | every plugin option is a string |
| UrlDecoders.AddItemsIgnoresOthers | src/serverconfighelper.cpp:387-388 | query items not named `plugin` add nothing |
| UrlDecoders.ShadowsocksCredentials | src/serverconfighelper.cpp:365-367 | method and password split at the first colon and rebuild the credentials; without a colon, both are the whole text |
| UrlDecoders.SchemeStripped | src/serverconfighelper.cpp:348 | dropping five characters removes the `ss://` scheme |
| UrlDecoders.CutShadowsocksLayout | src/serverconfighelper.cpp:349-361 | for `B@A:P/?Q#N` where no piece holds a delimiter found before its own end (B none, A no `:/?#`, P no `/?#`, Q no `#`), the cut yields exactly B, A, P, Q and N |
| UrlDecoders.ShadowsocksRecordAddress | src/serverconfighelper.cpp:357-375 | the record holds the cut address and port and the percent-decoded name, plugins or not |
| UrlDecoders.ShadowsocksRecordCredentials | src/serverconfighelper.cpp:355-375 | the record holds the method and password split from the base64-decoded credentials |
| UrlDecoders.ShadowsocksRecordDefaults | src/serverconfighelper.cpp:369-371 | the record is not auto-connected and keeps its subscription |
| UrlDecoders.ShadowsocksRecordPlugins | src/serverconfighelper.cpp:377-380 | `plugins` is present iff the options are non-empty, and then holds them |
| UrlDecoders.WithPluginsKeeps | src/serverconfighelper.cpp:377-380 | adding the plugins changes no other key |
| UrlDecoders.ShadowsocksUrlLayout | src/serverconfighelper.cpp:346-382 | under the same condition on the pieces, decoding `ss://B@A:P/?Q#N` gives address A, port P, the decoded name N, the credentials of B, and plugins iff Q has options |
| UrlDecoders.ShadowsocksUrlDefaults | src/serverconfighelper.cpp:369-375 | not auto-connected, the subscription kept, address and port present |
| UrlDecoders.ShadowsocksUrlPlugins | src/serverconfighelper.cpp:377-380 | `plugins` is stored iff the options are non-empty, and then holds them |
| Importers.ServerSettingsFromConfig | src/serverconfighelper.cpp:484-505 | empty without vnext; otherwise the first server's address and port, the name `address:port`, and, iff there is a user, its id as text, its alterId as a 32-bit integer and its security, else `auto` |
| Importers.V2RayStreamSettingsFromConfig | src/serverconfighelper.cpp:507-584 | the step-by-step reader yields the imported stream settings of its source |
| Importers.ImportedStreamDefaults | src/serverconfighelper.cpp:509-520 | network `tcp`, security `none` and allowInsecure true when the source lacks them |
| Importers.ImportedTcpHeader | src/serverconfighelper.cpp:525-529 | the TCP header type is `tcpSettings.header.type`, else `none` |
| Importers.ImportedKcpDefaults | src/serverconfighelper.cpp:530-557 | empty mKCP settings give the default MTU, TTI, capacities and buffers (write from the read default), no congestion, header `none` |
| Importers.WithTransportKeeps | src/serverconfighelper.cpp:525-582 | the transport branch never changes network, networkSecurity or allowInsecure |
| Importers.ImportedStreamDefined | src/serverconfighelper.cpp:509-583 | the imported stream settings hold no undefined value |
| Importers.InsertAll | src/serverconfighelper.cpp:462-465 | the insert loop yields the target updated with every source entry |
| Importers.MergedPut | src/serverconfighelper.cpp:463-464 | inserting one more entry extends the merge by that entry |
| Importers.MergedIsUnion | src/serverconfighelper.cpp:462-465 | without undefined values, inserting is map union with the source winning |
| Importers.NoMuxBeforeMerge | src/serverconfighelper.cpp:474-477 | neither settings nor stream settings supply a mux |
| Importers.ImportOutboundKeeps | src/serverconfighelper.cpp:450-459 | an outbound yields a record iff its protocol is `vmess` and it has a vnext server |
| Importers.ImportedRecordFields | src/serverconfighelper.cpp:459-465 | a stream field wins over a settings field, and a settings field is kept otherwise |
| Importers.ImportedMux | src/serverconfighelper.cpp:466-477 | a positive concurrency is stored as its decimal text, else -1, and reads back as that number |
| Importers.GlobalTransportWins | src/serverconfighelper.cpp:457-458 | with a non-empty global transport, an outbound's own stream settings do not matter |
| Importers.OwnStreamWithoutTransport | src/serverconfighelper.cpp:509-514 | without a global transport, the network is read from the outbound's own stream settings |
| Importers.ServerConfigFromV2RayConfig | src/serverconfighelper.cpp:444-482 | the loop yields the imports of the outbounds, in order, skipping the unusable ones |
| Importers.ImportAllStep | src/serverconfighelper.cpp:448-480 | one more outbound adds its record, or nothing |
| Importers.ImportAllAppend | src/serverconfighelper.cpp:448-480 | importing two lists of outbounds is importing each and concatenating |
| Importers.ImportAllBound | src/serverconfighelper.cpp:448-480 | never more records than outbounds |
| Importers.ImportAllOnlyVmess | src/serverconfighelper.cpp:450-454 | outbounds without protocol `vmess` give no records |
| Importers.ServerConfigFromShadowsocksQt5Config | src/serverconfighelper.cpp:586-612 | the loop yields one record per config entry, in order |
| Importers.Qt5RecordPlugins | src/serverconfighelper.cpp:600-608 | plugins are stored iff `plugin_opts` is non-empty, and are the options parsed from the rebuilt query |
| Importers.Qt5RecordPort | src/serverconfighelper.cpp:596 | the port is stored as text that parses back to the number read |
| RoundTrip.StreamRoundTripBase | src/serverconfighelper.cpp:139-144 | re-import gives back the network, the lower-cased security and allowInsecure |
| RoundTrip.StreamRoundTripTcp | src/serverconfighelper.cpp:146-148 | a re-imported TCP record has header type `none` whatever was encoded |
| RoundTrip.StreamRoundTripKcp | src/serverconfighelper.cpp:183-196 | re-import gives back every mKCP number (as 32-bit), the congestion flag and the lower-cased header |
| RoundTrip.StreamRoundTripWs | src/serverconfighelper.cpp:197-202 | re-import gives back the WebSocket host and path |
| RoundTrip.StreamRoundTripHttp | src/serverconfighelper.cpp:203-208 | re-import gives back the HTTP/2 host, and an empty path |
| RoundTrip.StreamRoundTripDomainSocket | src/serverconfighelper.cpp:209-212 | re-import gives back the socket path |
| RoundTrip.StreamRoundTripQuic | src/serverconfighelper.cpp:213-221 | re-import gives back the lower-cased QUIC security and header and the key |
| RoundTrip.VnextRoundTrip | src/serverconfighelper.cpp:119-122 | re-import gives back the address and the 32-bit port, and names the server `address:port` |
| RoundTrip.UserRoundTrip | src/serverconfighelper.cpp:123-128 | re-import gives back the id, the alterId and the lower-cased security |
| RoundTrip.OutboundRoundTrip | src/serverconfighelper.cpp:103-134 | an encoded outbound is always imported, with the stream fields and then the settings fields it encodes |
| RoundTrip.MuxRoundTrip | src/serverconfighelper.cpp:112-116 | the mux reads back as itself when positive, else as -1 |
| Facade.GetProtocol | src/serverconfighelper.cpp:402-410 | VMess iff `vmess` or `v2ray`, Shadowsocks iff `shadowsocks`, unknown otherwise |
| Facade.ServerConfigErrors | src/serverconfighelper.cpp:412-422 | the chosen codec's errors; an unknown protocol gets exactly the one message |
| Facade.ErrorsForName | src/serverconfighelper.cpp:402-422 | no empty message for any name, and an unknown name is refused |
| Facade.PrettyServerConfig | src/serverconfighelper.cpp:424-432 | empty iff the protocol is unknown, otherwise tagged by its protocol |
| Facade.UrlRecordShape | src/serverconfighelper.cpp:434-442 | empty iff the protocol is unknown; otherwise a record with address and port, not auto-connected, keeping its subscription |

## Left out

- `src/appproxy.cpp` and `src/appproxy.h`: the UI glue that calls this code.
- Logging (`qDebug`, `qWarning`): it has no effect on results.
- `tr()`: messages are modelled untranslated.
- Qt library decoders: base64, JSON parsing, percent decoding and
  encoding, and `QUrlQuery`'s recoding of each key and value are
  parameters. What is modelled of `QUrlQuery`: splitting at `&`, dropping
  the last empty piece, and splitting each item at its first `=`.
- Field validators: IP literal, domain name, file existence and "name not
  used" are parameters. They use the network stack, the filesystem and the
  profile store.
- `utility.cpp` is not part of this model. `Utility.StringConfigError` and
  `Utility.NumericConfigError` assume this of its two evaluators:
  - a missing or refused field gets a message, and an accepted one gets
    none;
  - the string check passes when any of its validators accepts the
    value;
  - the numeric check is a range in which a negative maximum means no
    upper bound;
  - the message texts ("<caption> is required / is invalid / is out of
    range") are chosen;
  - a custom message is returned as given, with no `%1` substitution.
- `constants.h` is not part of this model. The `DEFAULT_V2RAY_KCP_*`
  values are V2Ray's documented mKCP defaults: MTU 1350, TTI 50, uplink 5,
  downlink 20, buffers 2.
- `std::rand` is a parameter. Its global state is not modelled, nor is
  any seeding.
- Floating-point JSON numbers: numbers are integers. Rounding a double in
  `toVariant().toInt()` is not modelled; 64-bit truncation then 32-bit
  wrap-around is.
- QtString.ToLower: lower-cases ASCII letters only. Unicode case mapping
  is not modelled.
- QtString.QStringToInt: does not skip surrounding whitespace, as
  `QString::toInt` does. It states only the 32-bit range of its result.
- Storing `Undefined` in an object removes the key, as Qt 5 does.
  Records handed to the codecs are JSON values, so they never hold an
  undefined value.
- Facade.ServerConfigFromUrl, UrlDecoders.V2RayServerConfigFromUrl and
  UrlDecoders.ShadowsocksServerConfigFromUrl: these carry no contract of
  their own. Their properties are the lemmas listed above
  (`Facade.UrlRecordShape` and the `V2RayUrl*` / `ShadowsocksUrl*`
  lemmas).

## Findings

| source | as written | input that shows it | evidently intended | confidence | as-written member | corrected member |
|---|---|---|---|---|---|---|
| src/serverconfighelper.cpp:273-275 | the `vmess://` port is read with `QJsonValue::toInt`, which gives 0 for text | a link whose JSON holds `"port": "443"` (v2rayN links of version 2 write their values as text) decodes to serverPort `"0"` | read a text port with `QString::toInt`, as the alter ID is read at :261-265 | medium, not executed | UrlDecoders.TextPortAsWritten | UrlDecoders.TextPortCorrected |

`UrlDecoders.V2RayServerConfigFromUrl` decodes as written: its port is
`UrlDecoders.LinkPortAsWritten`, and `Facade.ServerConfigFromUrl` uses
it. `UrlDecoders.LinkPort` is the corrected reading: a text port is read
as the number it holds, and any other port as the code does.
`UrlDecoders.V2RayServerConfigFromUrlCorrected` is the decoder with that
reading. `UrlDecoders.LinkPortReadsText` and
`UrlDecoders.V2RayUrlPortCorrected` prove it for every link.
