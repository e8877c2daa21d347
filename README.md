# Qlash configurator, modelled in Dafny

Qlash is a system-tray front end for the clash proxy core. Its `Configurator`
(`src/core/configurator.cpp`) reconciles three things: the user's persisted
overrides (a QSettings key/value store), the clash YAML configuration file,
and the list of subscriptions, which are alternative configuration sources.
It also remembers the proxy chosen for each proxy group of each configuration.

This project models that class in Dafny:

- `Configurator.Configurator` is a class holding the settings store (`settings: map<string, Value>`), the YAML document loaded last (`root`), the `isMixedPort` flag, the `proxyGroups` cache and the configuration directory (`configFiles`, the `<name>.yaml` files by name, in parsed form).
- Getters are functions of that state. They apply the original's precedence: the stored override, else the YAML field, else a fixed default.
- Setters, loading, and the subscription and rule updates are methods. Their `modifies` clauses name the fields they change, and their `ensures` give the new state.
- The store keys are exactly the ones the original uses. Getters require the YAML fields that the original converts with `as<T>()`, because yaml-cpp throws when such a field is missing.
- `QtText` models the QString conversions the original depends on: `QString::number`, `QString::toInt`, `split` and `toLower`. `SettingsStore` models the QVariant conversions `toString`, `toInt` and `toBool`.
- `ConfiguratorFindings` holds concrete scenarios that exhibit two discrepancies in the original (see "## Findings").

In two places the code does not do what its own readers expect. The model follows the code in both (see "## Findings"):

- `diffConfigs` reports `allow-lan` even when no override is stored.
- The HTTP port setter and the HTTP port getter use different store keys.

## Model

| member | source | states |
|---|---|---|
| `QtText.FormatInt` | src/core/configurator.cpp:286-289 | QString::number: a leading minus sign exactly for negative values, then decimal digits |
| `QtText.FormatNat` | src/core/configurator.cpp:286-289 | the digits of a non-negative number denote that number and have no leading zero |
| `QtText.ParseIntFormatInt` | src/core/configurator.cpp:348-351 | every 32-bit int written with QString::number reads back unchanged with QString::toInt |
| `QtText.Split` | src/core/configurator.cpp:348-351 | QString::split gives at least one piece, no piece contains the separator, and text containing the separator gives at least two pieces |
| `QtText.JoinSplit` | src/core/configurator.cpp:348-351 | splitting loses nothing: joining the pieces with the separator gives back the text |
| `QtText.SplitTwoPieces` | src/core/configurator.cpp:348-351 | `host:port` with no other colon splits into exactly `[host, port]` |
| `QtText.ParseInt` | src/core/configurator.cpp:348-351 | QString::toInt: the optionally signed decimal number left after trimming white space, or 0 when there is none or it does not fit an `int` |
| `QtText.ToLower` | src/core/configurator.cpp:358-361 | lower-cases each ASCII letter and keeps every other character, as toBool's text rule needs |
| `SettingsStore.LoadValue` | src/core/configurator.cpp:78-82 | QSettings::value: the stored value when the key was written, else the fallback |
| `SettingsStore.LoadAfterSave` | src/core/configurator.cpp:78-89 | a key reads back what was last saved under it; saving one key leaves every other key reading as before |
| `SettingsStore.Value.ToStr` | src/core/configurator.cpp:314-317 | QVariant::toString: text as is, an int as QString::number, a flag as "true" or "false" |
| `SettingsStore.Value.ToInt` | src/core/configurator.cpp:324-329 | QVariant::toInt: an int as is, a flag as 1 or 0, text through QString::toInt, so the decimal text of an int gives that int |
| `SettingsStore.Value.ToBool` | src/core/configurator.cpp:358-361 | QVariant::toBool: a flag as is, an int as non-zero, text as true unless it lower-cases to "", "0" or "false" |
| `SettingsStore.TextFormPreservesValue` | src/core/configurator.cpp:78-89 | an int or bool stored in the settings file as text converts back to the value written |
| `ClashModel.NamedSubscribe` | src/core/configurator.cpp:111-121 | `Subscribe(name)` has that name and no URL |
| `Configurator.RulesWithProxy` | src/core/configurator.cpp:179-189 | for any stored rules: after the update `rules[name][group] == proxy`; other configurations and other groups keep their entries; the only key that can be added is `name`, which starts out empty when it was missing |
| `Configurator.Configurator.constructor` | src/core/configurator.cpp:14-18 | the single instance starts with no document loaded, so no mixed port |
| `Configurator.Configurator.LoadClashConfig` | src/core/configurator.cpp:63-76 | loading succeeds iff `<name>.yaml` exists; on success `root` is that document and `isMixedPort` holds iff it has `mixed-port`; on BadFile nothing changes |
| `Configurator.Configurator.SaveValue` | src/core/configurator.cpp:84-89 | exactly one store entry is written |
| `Configurator.Configurator.GetSecret` | src/core/configurator.cpp:91-96 | the document's `secret`, or "" when absent |
| `Configurator.Configurator.GetMode` | src/core/configurator.cpp:314-317 | the "mode" override converted to text, else the YAML `mode` |
| `Configurator.Configurator.SetMode` | src/core/configurator.cpp:309-312 | stores "mode"; afterwards GetMode returns the new mode |
| `Configurator.Configurator.GetHttpPort` | src/core/configurator.cpp:324-329 | with a mixed port: the "mixed-port" override, else YAML `mixed-port`; otherwise: the "port" override, else YAML `port` |
| `Configurator.Configurator.SetHttpPort` | src/core/configurator.cpp:319-322 | stores "httpPort"; the effective HTTP port does not change |
| `Configurator.Configurator.SetHttpPortIntended` | src/core/configurator.cpp:319-329 | the corrected setter: stores "port", and without a mixed port GetHttpPort then returns the new port |
| `Configurator.Configurator.GetSocksPort` | src/core/configurator.cpp:336-341 | with a mixed port it equals GetHttpPort; otherwise: the "socksPort" override, else YAML `socks-port` |
| `Configurator.Configurator.SetSocksPort` | src/core/configurator.cpp:331-334 | stores "socksPort"; without a mixed port GetSocksPort then returns it; with a mixed port GetSocksPort does not change |
| `Configurator.Configurator.GetExternalControlPort` | src/core/configurator.cpp:348-351 | the "externalControlPort" override, else the number after the first ':' of `external-controller`, which must contain one |
| `Configurator.Configurator.SetExternalControlPort` | src/core/configurator.cpp:343-346 | stores "externalControlPort"; GetExternalControlPort then returns it |
| `Configurator.Configurator.GetAllowLan` | src/core/configurator.cpp:358-361 | the "allowLan" override as a flag, else YAML `allow-lan` |
| `Configurator.Configurator.SetAllowLan` | src/core/configurator.cpp:353-356 | stores "allowLan"; GetAllowLan then returns it |
| `Configurator.Configurator.GetLogLevel` | src/core/configurator.cpp:368-376 | the "logLevel" override, else YAML `log-level`, else "info" |
| `Configurator.Configurator.SetLogLevel` | src/core/configurator.cpp:363-366 | stores "logLevel"; GetLogLevel then returns it |
| `Configurator.Configurator.DiffConfigs` | src/core/configurator.cpp:277-307 | keys come only from {mode, port, socks-port, allow-lan, log-level}; mode and log-level appear iff the saved text is non-empty and differs from YAML; the ports appear iff the saved port is not -1 and differs; allow-lan appears iff the saved flag (false when absent) differs; each entry carries the saved value as text |
| `Configurator.Configurator.DiffOverrides` | src/core/configurator.cpp:296-299 | the corrected diff: allow-lan is reported only when an "allowLan" override is stored; all other entries are those of DiffConfigs |
| `Configurator.Configurator.GetSubscribes` | src/core/configurator.cpp:111-121 | never empty; the stored records in stored order, or only the reserved "config" subscription when none are stored |
| `Configurator.Configurator.SetSubscribes` | src/core/configurator.cpp:123-130 | stores the list; reading back gives the list, or `["config"]` for an empty list |
| `Configurator.Configurator.GetCurrentConfig` | src/core/configurator.cpp:132-139 | the stored current subscription, else the reserved "config" subscription |
| `Configurator.Configurator.SetCurrentConfig` | src/core/configurator.cpp:141-144 | stores the current subscription; GetCurrentConfig then returns it |
| `Configurator.Configurator.GetSubscribeByName` | src/core/configurator.cpp:146-154 | the first subscription with that name, else the reserved "config" subscription; it never fails |
| `Configurator.Configurator.DelSubscribeByIndex` | src/core/configurator.cpp:156-166 | for an index in range: returns the element at that index; stores the list with exactly that element removed and the others in order; removes `<name>.yaml` only if it exists |
| `Configurator.Configurator.GetUpdateTime` | src/core/configurator.cpp:98-109 | the update time of the first subscription not named "config", or the given current time when every entry is "config" |
| `Configurator.Configurator.GetProxyGroupsRule` | src/core/configurator.cpp:168-177 | caches the stored rules in `proxyGroups`; returns the groups stored for `name`, or an empty map |
| `Configurator.Configurator.SetProxyGroupsRule` | src/core/configurator.cpp:179-189 | the stored rules become RulesWithProxy of the old ones, including when a non-empty mapping has no entry for `name` |
| `Configurator.Configurator.IsStartAtLogin` | src/core/configurator.cpp:240-243 | the stored flag, false when absent |
| `Configurator.Configurator.SetStartAtLogin` | src/core/configurator.cpp:191-193 | stores the flag; IsStartAtLogin then returns it |
| `Configurator.Configurator.IsAutoUpdate` | src/core/configurator.cpp:250-253 | the stored flag, true when absent |
| `Configurator.Configurator.SetAutoUpdate` | src/core/configurator.cpp:245-248 | stores the flag; IsAutoUpdate then returns it |
| `Configurator.Configurator.IsSystemProxy` | src/core/configurator.cpp:272-275 | the stored flag, false when absent |
| `Configurator.Configurator.SetSystemProxy` | src/core/configurator.cpp:255-270 | stores the flag; when enabling, returns the effective HTTP and SOCKS ports handed to the system proxy, so it requires the YAML fields those getters convert |
| `Configurator.MixedPortSharedByBothGetters` | src/core/configurator.cpp:324-341 | after loading a document with `mixed-port`, both port getters are defined and equal, and they give the YAML `mixed-port` when no override exists |
| `Configurator.ExternalControlPortFromController` | src/core/configurator.cpp:348-351 | with `external-controller: host:port` and no override, the external control port is `port` |
| `Configurator.DiffOverridesAgreeWithGetters` | src/core/configurator.cpp:277-307 | without a mixed port, each entry of the corrected diff is the effective getter's value; a setting it omits is effectively the YAML value, unless its override is "" or -1 |
| `Configurator.NoOverridesNoDrift` | src/core/configurator.cpp:277-307 | with none of the five overrides stored, the corrected diff is empty |
| `ConfiguratorFindings.HttpPortOverrideIgnored` | src/core/configurator.cpp:319-329 | over `port: 7890`, setHttpPort(8080) leaves getHttpPort at 7890 and diffConfigs empty |
| `ConfiguratorFindings.HttpPortOverrideApplied` | src/core/configurator.cpp:319-329 | with the corrected setter, the port becomes 8080 and the diff is `{port: "8080"}` |
| `ConfiguratorFindings.AllowLanDriftWithoutOverride` | src/core/configurator.cpp:296-299 | with no override and `allow-lan: true`, diffConfigs reports `{allow-lan: "0"}` while getAllowLan is true |
| `ConfiguratorFindings.AllowLanNoDriftWithoutOverride` | src/core/configurator.cpp:296-299 | the same scenario with the corrected diff reports nothing |

## Findings

| source | as written | input that shows it | evidently intended | confidence | as-written member | corrected member |
|---|---|---|---|---|---|---|
| src/core/configurator.cpp:319-329 | `setHttpPort` stores the key "httpPort", but `getHttpPort` and `diffConfigs` read "port" | empty store; `config.yaml` has `port: 7890` and no `mixed-port`; `setHttpPort(8080)`; then `getHttpPort()` is 7890 | the setter stores the override under the key its readers use | medium, not executed | ConfiguratorFindings.HttpPortOverrideIgnored | Configurator.Configurator.SetHttpPortIntended |
| src/core/configurator.cpp:296-299 | `allowLan` is compared with the YAML value with a default of false and no check that an override exists | empty store; `config.yaml` has `allow-lan: true`; `diffConfigs()` is `{allow-lan: "0"}` | report allow-lan only when an override is stored, as for the other four settings | medium, not executed | ConfiguratorFindings.AllowLanDriftWithoutOverride | Configurator.Configurator.DiffOverrides |

## Left out

- `src/core/clashCore.cpp` is not part of this model. It only starts, waits for and kills the proxy-core process through QProcess, and seeds the configuration directory.
- `src/mainwindow.cpp` and `src/dialogs/subscribeDialog.cpp` are not part of this model. They build menus, the tray icon and a table dialog. The dialog's `QList<QStringList>` view of subscriptions is not reconciled with the `Subscribe` type.
- YAML parsing is abstract. A file is represented by the document it parses to. A field that is present but does not convert to the requested type is not modelled, and neither are parse errors other than a missing file. The `proxy-groups` field is not modelled.
- JSON (de)serialisation (`stringToJson`, `jsonToString`, `Subscribe::write`) is taken as a lossless round trip. Subscription records and proxy-group rules are stored in decoded form. A stored value of another type reads as no records or no rules. So does a JSON value in the rules that is not an object.
- `saveClashConfig` is not modelled: it is filesystem I/O. That covers the temporary-file-then-copy write, `Utility::isBase64` and base64 decoding.
- `getAppFilePath` and the path building in `getClashConfigPath` are left out. Configuration files are keyed by subscription name instead of by path.
- The operating-system side of `setStartAtLogin` (registry, autostart files) and of `setSystemProxy` (`NetworkProxyHelper`) is left out. Only the persisted flag is modelled. For `setSystemProxy`, the ports it would hand over are also modelled.
- `QDateTime::currentDateTime` is a parameter of `GetUpdateTime`.
- The static `instance()` singleton is a constructor that takes the initial store and directory. Initial field values are not given in any source file in this model, so the model starts with an empty document and `isMixedPort` false.
- `QSettings::sync` and write failures of the settings file are not modelled.
- QVariant and QString conversions are simplified in three ways:
  - Case folding and white-space trimming cover ASCII only.
  - A stored text that does not fit an `int` converts to 0. Qt 5's QVariant instead converts through a 64-bit value and truncates.
  - A single stored string is not read as a one-element subscription list.
- `find(name)` on a rule mapping without `name` follows Qt 5, which reads the value behind the end iterator as an empty object. Qt 6 reads past the end there; that behaviour is not modelled.
- The Windows build, where `setSystemProxy` sets only the HTTP proxy, is not modelled. The model follows the other platforms, which also read the SOCKS port.
