/** The Configurator: reconciles the persisted settings store with the YAML
    configuration of the proxy core, keeps the subscription list and the
    per-group proxy choices. */
module Configurator {
  import opened Options
  import opened QtText
  import opened ClashModel
  import opened SettingsStore

  /** yaml-cpp's BadFile exception: the configuration file could not be opened. */
  datatype LoadError = BadFile(name: string)

  /** The rules after `group` under configuration `name` is set to `proxy`. An
      empty mapping first gets an empty entry for `name`. A non-empty mapping
      without `name` is looked up through the past-the-end iterator of `find`,
      which Qt 5 reads as an empty object, so `name` is added with the one group. */
  function RulesWithProxy(rules: Rules, name: string, group: string, proxy: string): (r: Rules)
    ensures r.Keys == rules.Keys + {name}
    ensures group in r[name] && r[name][group] == proxy
    ensures forall n :: n in rules && n != name ==> r[n] == rules[n]
    ensures forall g :: g != group && g in r[name] ==> name in rules && g in rules[name] && r[name][g] == rules[name][g]
    ensures name in rules ==> forall g :: g in rules[name] ==> g in r[name]
  {
    var withName := if rules == map[] then map[name := map[]] else rules;
    var current := if name in withName then withName[name] else map[];
    withName[name := current[group := proxy]]
  }

  class Configurator {
    /** The persisted settings store (QSettings). */
    var settings: Store
    /** The YAML document loaded last. */
    var root: Document
    /** Whether `root` declares a mixed port. */
    var isMixedPort: bool
    /** The proxy-group rules as GetProxyGroupsRule last read them. */
    var proxyGroups: Rules
    /** The configuration directory: `<name>.yaml` by name, in parsed form. */
    var configFiles: map<string, Document>

    /** The mixed-port flag describes the document loaded last. */
    ghost predicate Valid()
      reads this
    {
      isMixedPort == root.mixedPort.Some?
    }

    constructor (store: Store, files: map<string, Document>)
      ensures Valid()
      ensures settings == store && configFiles == files
      ensures root == EmptyDocument && !isMixedPort && proxyGroups == map[]
    {
      settings := store;
      root := EmptyDocument;
      isMixedPort := false;
      proxyGroups := map[];
      configFiles := files;
    }

    /** Loads `<name>.yaml` as the current document and records whether it
        declares `mixed-port`. A missing file fails and leaves the state alone. */
    method LoadClashConfig(name: string) returns (r: Result<Document, LoadError>)
      modifies this`root, this`isMixedPort
      ensures r.Ok? <==> name in configFiles
      ensures r.Ok? ==> root == configFiles[name] && r.value == root
      ensures r.Ok? ==> (isMixedPort <==> root.mixedPort.Some?)
      ensures r.Err? ==> r.error == BadFile(name) && root == old(root) && isMixedPort == old(isMixedPort)
      ensures old(Valid()) ==> Valid()
    {
      if name !in configFiles {
        return Err(BadFile(name));
      }
      root := configFiles[name];
      if root.mixedPort.Some? {
        isMixedPort := true;
      } else {
        isMixedPort := false;
      }
      r := Ok(root);
    }

    /** Writes one entry of the settings store. */
    method SaveValue(key: string, value: Value)
      modifies this`settings
      ensures settings == old(settings)[key := value]
    {
      settings := settings[key := value];
    }

    /** The document's `secret`, or the empty string when it has none. */
    function GetSecret(): (r: string)
      reads this
      ensures root.secret.Some? ==> r == root.secret.value
      ensures root.secret.None? ==> r == ""
    {
      if root.secret.Some? then root.secret.value else ""
    }

    // ---------------------------------------------------------------------
    // Effective settings: the stored override, else the document's field.

    /** The "mode" override, else the document's `mode` (which must exist even
        when an override does, because the original converts it first). */
    function GetMode(): (r: string)
      reads this
      requires root.mode.Some?
      ensures "mode" in settings ==> r == settings["mode"].ToStr()
      ensures "mode" !in settings ==> r == root.mode.value
    {
      LoadValue(settings, "mode", Str(root.mode.value)).ToStr()
    }

    method SetMode(mode: string)
      modifies this`settings
      ensures settings == old(settings)["mode" := Str(mode)]
      ensures root.mode.Some? ==> GetMode() == mode
    {
      SaveValue("mode", Str(mode));
    }

    /** The document fields GetHttpPort and GetSocksPort convert. */
    predicate HttpPortReadable()
      reads this
    {
      if isMixedPort then root.mixedPort.Some? else root.port.Some?
    }

    predicate SocksPortReadable()
      reads this
    {
      if isMixedPort then root.mixedPort.Some? else root.socksPort.Some?
    }

    /** With a mixed port: the "mixed-port" override, else the document's
        `mixed-port`. Otherwise the "port" override, else the document's `port`. */
    function GetHttpPort(): (r: Int32)
      reads this
      requires HttpPortReadable()
      ensures isMixedPort && "mixed-port" in settings ==> r == settings["mixed-port"].ToInt()
      ensures isMixedPort && "mixed-port" !in settings ==> r == root.mixedPort.value
      ensures !isMixedPort && "port" in settings ==> r == settings["port"].ToInt()
      ensures !isMixedPort && "port" !in settings ==> r == root.port.value
    {
      if isMixedPort then LoadValue(settings, "mixed-port", Int(root.mixedPort.value)).ToInt()
      else LoadValue(settings, "port", Int(root.port.value)).ToInt()
    }

    /** Stores the override under "httpPort", a key that neither GetHttpPort
        nor DiffConfigs reads: the effective HTTP port does not change. */
    method SetHttpPort(port: Int32)
      modifies this`settings
      ensures settings == old(settings)["httpPort" := Int(port)]
      ensures HttpPortReadable() ==> GetHttpPort() == old(GetHttpPort())
    {
      SaveValue("httpPort", Int(port));
    }

    /** SetHttpPort storing the override under "port", the key GetHttpPort
        and DiffConfigs read. */
    method SetHttpPortIntended(port: Int32)
      modifies this`settings
      ensures settings == old(settings)["port" := Int(port)]
      ensures !isMixedPort && root.port.Some? ==> GetHttpPort() == port
    {
      SaveValue("port", Int(port));
    }

    /** Like GetHttpPort, with "socksPort" and `socks-port` for the separate
        case; with a mixed port both getters give the same port. */
    function GetSocksPort(): (r: Int32)
      reads this
      requires SocksPortReadable()
      ensures isMixedPort ==> HttpPortReadable() && r == GetHttpPort()
      ensures !isMixedPort && "socksPort" in settings ==> r == settings["socksPort"].ToInt()
      ensures !isMixedPort && "socksPort" !in settings ==> r == root.socksPort.value
    {
      if isMixedPort then LoadValue(settings, "mixed-port", Int(root.mixedPort.value)).ToInt()
      else LoadValue(settings, "socksPort", Int(root.socksPort.value)).ToInt()
    }

    /** Stores the "socksPort" override; with a mixed port it has no effect on
        the effective SOCKS port. */
    method SetSocksPort(port: Int32)
      modifies this`settings
      ensures settings == old(settings)["socksPort" := Int(port)]
      ensures !isMixedPort && root.socksPort.Some? ==> GetSocksPort() == port
      ensures isMixedPort && root.mixedPort.Some? ==> GetSocksPort() == old(GetSocksPort())
    {
      SaveValue("socksPort", Int(port));
    }

    /** The "externalControlPort" override, else the number after the first
        ':' of the document's `external-controller`. */
    function GetExternalControlPort(): (r: Int32)
      reads this
      requires root.externalController.Some? && ':' in root.externalController.value
      ensures "externalControlPort" in settings ==> r == settings["externalControlPort"].ToInt()
      ensures "externalControlPort" !in settings ==>
        r == ParseInt(Split(root.externalController.value, ':')[1])
    {
      LoadValue(settings, "externalControlPort",
        Int(ParseInt(Split(root.externalController.value, ':')[1]))).ToInt()
    }

    method SetExternalControlPort(port: Int32)
      modifies this`settings
      ensures settings == old(settings)["externalControlPort" := Int(port)]
      ensures root.externalController.Some? && ':' in root.externalController.value ==>
        GetExternalControlPort() == port
    {
      SaveValue("externalControlPort", Int(port));
    }

    /** The "allowLan" override, else the document's `allow-lan`. */
    function GetAllowLan(): (r: bool)
      reads this
      requires root.allowLan.Some?
      ensures "allowLan" in settings ==> r == settings["allowLan"].ToBool()
      ensures "allowLan" !in settings ==> r == root.allowLan.value
    {
      LoadValue(settings, "allowLan", Bool(root.allowLan.value)).ToBool()
    }

    method SetAllowLan(flag: bool)
      modifies this`settings
      ensures settings == old(settings)["allowLan" := Bool(flag)]
      ensures root.allowLan.Some? ==> GetAllowLan() == flag
    {
      SaveValue("allowLan", Bool(flag));
    }

    /** The "logLevel" override, else the document's `log-level`, else "info". */
    function GetLogLevel(): (r: string)
      reads this
      ensures "logLevel" in settings ==> r == settings["logLevel"].ToStr()
      ensures "logLevel" !in settings && root.logLevel.Some? ==> r == root.logLevel.value
      ensures "logLevel" !in settings && root.logLevel.None? ==> r == "info"
    {
      var level := if root.logLevel.None? then "info" else root.logLevel.value;
      LoadValue(settings, "logLevel", Str(level)).ToStr()
    }

    method SetLogLevel(level: string)
      modifies this`settings
      ensures settings == old(settings)["logLevel" := Str(level)]
      ensures GetLogLevel() == level
    {
      SaveValue("logLevel", Str(level));
    }

    // ---------------------------------------------------------------------
    // Drift between the stored overrides and the document.

    /** The document fields DiffConfigs converts. */
    predicate DiffReadable()
      reads this
    {
      root.mode.Some? && root.port.Some? && root.socksPort.Some? && root.allowLan.Some? && root.logLevel.Some?
    }

    /** A stored text setting, "" when absent. */
    function SavedText(key: string): string
      reads this
    {
      LoadValue(settings, key, Str("")).ToStr()
    }

    /** A stored port setting, -1 when absent. */
    function SavedPort(key: string): Int32
      reads this
    {
      LoadValue(settings, key, Int(-1)).ToInt()
    }

    /** The stored "allowLan" flag, false when absent. */
    function SavedAllowLan(): bool
      reads this
    {
      LoadValue(settings, "allowLan", Bool(false)).ToBool()
    }

    /** The settings whose stored value differs from the document, by YAML key,
        with the stored value as text. Text settings count only when the stored
        text is non-empty, ports only when the stored port is not -1; the
        allow-lan flag is compared with no existence check, an absent override
        counting as false. */
    function DiffConfigs(): (r: map<string, string>)
      reads this
      requires DiffReadable()
      ensures r.Keys <= {"mode", "port", "socks-port", "allow-lan", "log-level"}
      ensures "mode" in r <==> SavedText("mode") != "" && SavedText("mode") != root.mode.value
      ensures "mode" in r ==> r["mode"] == SavedText("mode")
      ensures "port" in r <==> SavedPort("port") != -1 && SavedPort("port") != root.port.value
      ensures "port" in r ==> r["port"] == FormatInt(SavedPort("port"))
      ensures "socks-port" in r <==> SavedPort("socksPort") != -1 && SavedPort("socksPort") != root.socksPort.value
      ensures "socks-port" in r ==> r["socks-port"] == FormatInt(SavedPort("socksPort"))
      ensures "allow-lan" in r <==> SavedAllowLan() != root.allowLan.value
      ensures "allow-lan" in r ==> r["allow-lan"] == if SavedAllowLan() then "1" else "0"
      ensures "log-level" in r <==> SavedText("logLevel") != "" && SavedText("logLevel") != root.logLevel.value
      ensures "log-level" in r ==> r["log-level"] == SavedText("logLevel")
    {
      var modeSaved := SavedText("mode");
      var withMode: map<string, string> :=
        if modeSaved != "" && modeSaved != root.mode.value then map["mode" := modeSaved] else map[];
      var httpPortSaved := SavedPort("port");
      var withPort :=
        if httpPortSaved != -1 && httpPortSaved != root.port.value
        then withMode["port" := FormatInt(httpPortSaved)] else withMode;
      var socksPortSaved := SavedPort("socksPort");
      var withSocks :=
        if socksPortSaved != -1 && socksPortSaved != root.socksPort.value
        then withPort["socks-port" := FormatInt(socksPortSaved)] else withPort;
      var allowLanSaved := SavedAllowLan();
      var withLan :=
        if allowLanSaved != root.allowLan.value
        then withSocks["allow-lan" := FormatInt(if allowLanSaved then 1 else 0)] else withSocks;
      var logLevelSaved := SavedText("logLevel");
      if logLevelSaved != "" && logLevelSaved != root.logLevel.value
      then withLan["log-level" := logLevelSaved] else withLan
    }

    /** DiffConfigs with the allow-lan flag compared only when an override is
        stored, like every other setting. */
    function DiffOverrides(): (r: map<string, string>)
      reads this
      requires DiffReadable()
      ensures "allow-lan" in r ==> "allowLan" in settings
      ensures forall k :: k in r && k != "allow-lan" ==> k in DiffConfigs() && r[k] == DiffConfigs()[k]
      ensures forall k :: k in DiffConfigs() && (k != "allow-lan" || "allowLan" in settings) ==> k in r
    {
      if "allowLan" in settings then DiffConfigs() else DiffConfigs() - {"allow-lan"}
    }

    // ---------------------------------------------------------------------
    // Subscriptions.

    /** The subscription records stored under "subscribes"; an absent or
        differently typed value holds none. */
    function StoredSubscribes(): seq<Subscribe>
      reads this
    {
      if "subscribes" in settings && settings["subscribes"].SubscribeList? then settings["subscribes"].subs else []
    }

    /** What GetSubscribes returns. */
    function Subscribes(): seq<Subscribe>
      reads this
    {
      if StoredSubscribes() == [] then [NamedSubscribe(DefaultConfigName)] else StoredSubscribes()
    }

    /** The stored subscriptions in stored order, or the single reserved
        "config" subscription when none is stored: never an empty list. */
    method GetSubscribes() returns (subscribes: seq<Subscribe>)
      ensures subscribes == Subscribes()
      ensures |subscribes| >= 1
      ensures StoredSubscribes() == [] ==> subscribes == [NamedSubscribe(DefaultConfigName)]
      ensures StoredSubscribes() != [] ==> subscribes == StoredSubscribes()
    {
      var data := StoredSubscribes();
      subscribes := [];
      if data == [] {
        subscribes := subscribes + [NamedSubscribe(DefaultConfigName)];
      }
      var i := 0;
      while i < |data|
        invariant 0 <= i <= |data|
        invariant data != [] ==> subscribes == data[..i]
        invariant data == [] ==> subscribes == [NamedSubscribe(DefaultConfigName)]
      {
        subscribes := subscribes + [data[i]];
        i := i + 1;
      }
    }

    /** Replaces the stored list; reading it back gives the list, or the
        reserved "config" subscription alone for an empty list. */
    method SetSubscribes(subscribes: seq<Subscribe>)
      modifies this`settings
      ensures settings == old(settings)["subscribes" := SubscribeList(subscribes)]
      ensures Subscribes() == if subscribes == [] then [NamedSubscribe(DefaultConfigName)] else subscribes
    {
      var data: seq<Subscribe> := [];
      var i := 0;
      while i < |subscribes|
        invariant 0 <= i <= |subscribes|
        invariant data == subscribes[..i]
      {
        data := data + [subscribes[i]];
        i := i + 1;
      }
      assert data == subscribes;
      SaveValue("subscribes", SubscribeList(data));
    }

    /** The stored "currentConfig" subscription, else the reserved "config". */
    function GetCurrentConfig(): (r: Subscribe)
      reads this
      ensures "currentConfig" in settings && settings["currentConfig"].SubscribeRecord? ==>
        r == settings["currentConfig"].sub
      ensures !("currentConfig" in settings && settings["currentConfig"].SubscribeRecord?) ==>
        r == NamedSubscribe(DefaultConfigName)
    {
      if "currentConfig" in settings && settings["currentConfig"].SubscribeRecord?
      then settings["currentConfig"].sub
      else NamedSubscribe(DefaultConfigName)
    }

    method SetCurrentConfig(subscribe: Subscribe)
      modifies this`settings
      ensures settings == old(settings)["currentConfig" := SubscribeRecord(subscribe)]
      ensures GetCurrentConfig() == subscribe
    {
      SaveValue("currentConfig", SubscribeRecord(subscribe));
    }

    /** The first subscription called `name`, or the reserved "config"
        subscription when there is none; it never fails. */
    method GetSubscribeByName(name: string) returns (subscribe: Subscribe)
      ensures forall k :: (0 <= k < |Subscribes()| && Subscribes()[k].name == name &&
        (forall j :: 0 <= j < k ==> Subscribes()[j].name != name)) ==> subscribe == Subscribes()[k]
      ensures (forall k :: 0 <= k < |Subscribes()| ==> Subscribes()[k].name != name) ==>
        subscribe == NamedSubscribe(DefaultConfigName)
    {
      var subscribes := GetSubscribes();
      var i := 0;
      while i < |subscribes|
        invariant 0 <= i <= |subscribes|
        invariant forall j :: 0 <= j < i ==> subscribes[j].name != name
      {
        if subscribes[i].name == name {
          return subscribes[i];
        }
        i := i + 1;
      }
      return NamedSubscribe(DefaultConfigName);
    }

    /** Removes the subscription at `index` and its `<name>.yaml`, when that
        file exists, and returns the removed subscription. */
    method DelSubscribeByIndex(index: int) returns (subscribe: Subscribe)
      requires 0 <= index < |Subscribes()|
      modifies this`settings, this`configFiles
      ensures subscribe == old(Subscribes())[index]
      ensures settings == old(settings)["subscribes" :=
        SubscribeList(old(Subscribes())[..index] + old(Subscribes())[index + 1..])]
      ensures subscribe.name in old(configFiles) ==> configFiles == old(configFiles) - {subscribe.name}
      ensures subscribe.name !in old(configFiles) ==> configFiles == old(configFiles)
    {
      var subscribes := GetSubscribes();
      subscribe := subscribes[index];
      if subscribe.name in configFiles {
        configFiles := configFiles - {subscribe.name};
      }
      subscribes := subscribes[..index] + subscribes[index + 1..];
      SetSubscribes(subscribes);
    }

    /** The update time of the first subscription not called "config", or
        `now` when every subscription is called "config". */
    method GetUpdateTime(now: DateTime) returns (time: DateTime)
      ensures (forall k :: 0 <= k < |Subscribes()| ==> Subscribes()[k].name == DefaultConfigName) ==> time == now
      ensures forall k :: (0 <= k < |Subscribes()| && Subscribes()[k].name != DefaultConfigName &&
        (forall j :: 0 <= j < k ==> Subscribes()[j].name == DefaultConfigName)) ==> time == Subscribes()[k].updateTime
    {
      var subscribes := GetSubscribes();
      time := now;
      var i := 0;
      while i < |subscribes|
        invariant 0 <= i <= |subscribes|
        invariant forall j :: 0 <= j < i ==> subscribes[j].name == DefaultConfigName
        invariant time == now
      {
        if subscribes[i].name != DefaultConfigName {
          time := subscribes[i].updateTime;
          break;
        }
        i := i + 1;
      }
    }

    // ---------------------------------------------------------------------
    // Proxy-group rules.

    /** The rules stored under "proxyGroupsRule"; absent or unreadable means none. */
    function StoredRules(): Rules
      reads this
    {
      if "proxyGroupsRule" in settings && settings["proxyGroupsRule"].RuleMap? then settings["proxyGroupsRule"].rules else map[]
    }

    /** Reads the stored rules into `proxyGroups` and returns the groups of
        configuration `name`, or none when it has no entry. */
    method GetProxyGroupsRule(name: string) returns (current: map<string, string>)
      modifies this`proxyGroups
      ensures proxyGroups == StoredRules()
      ensures name in StoredRules() ==> current == StoredRules()[name]
      ensures name !in StoredRules() ==> current == map[]
    {
      proxyGroups := StoredRules();
      current := map[];
      if proxyGroups != map[] {
        current := if name in proxyGroups then proxyGroups[name] else map[];
      }
    }

    /** Records `proxy` as the choice for `group` under configuration `name`. */
    method SetProxyGroupsRule(name: string, group: string, proxy: string)
      modifies this`settings
      ensures settings == old(settings)["proxyGroupsRule" := RuleMap(RulesWithProxy(old(StoredRules()), name, group, proxy))]
      ensures StoredRules() == RulesWithProxy(old(StoredRules()), name, group, proxy)
    {
      var oldRule := StoredRules();
      if oldRule == map[] {
        oldRule := oldRule[name := map[]];
      }
      // `find(name)` gives the end iterator when `name` is missing; Qt 5 reads
      // the value behind it as Undefined, whose toObject() is empty.
      var current := if name in oldRule then oldRule[name] else map[];
      current := current[group := proxy];
      oldRule := oldRule[name := current];
      SaveValue("proxyGroupsRule", RuleMap(oldRule));
    }

    // ---------------------------------------------------------------------
    // Persisted flags. The operating-system side of start-at-login and of the
    // system proxy is not part of this model.

    function IsStartAtLogin(): (r: bool)
      reads this
      ensures "startAtLogin" !in settings ==> !r
      ensures "startAtLogin" in settings ==> r == settings["startAtLogin"].ToBool()
    {
      LoadValue(settings, "startAtLogin", Bool(false)).ToBool()
    }

    method SetStartAtLogin(autoStart: bool)
      modifies this`settings
      ensures settings == old(settings)["startAtLogin" := Bool(autoStart)]
      ensures IsStartAtLogin() == autoStart
    {
      SaveValue("startAtLogin", Bool(autoStart));
    }

    function IsAutoUpdate(): (r: bool)
      reads this
      ensures "autoUpdate" !in settings ==> r
      ensures "autoUpdate" in settings ==> r == settings["autoUpdate"].ToBool()
    {
      LoadValue(settings, "autoUpdate", Bool(true)).ToBool()
    }

    method SetAutoUpdate(autoUpdate: bool)
      modifies this`settings
      ensures settings == old(settings)["autoUpdate" := Bool(autoUpdate)]
      ensures IsAutoUpdate() == autoUpdate
    {
      SaveValue("autoUpdate", Bool(autoUpdate));
    }

    function IsSystemProxy(): (r: bool)
      reads this
      ensures "systemProxy" !in settings ==> !r
      ensures "systemProxy" in settings ==> r == settings["systemProxy"].ToBool()
    {
      LoadValue(settings, "systemProxy", Bool(false)).ToBool()
    }

    /** Stores the flag. Enabling reads both effective ports, which the
        original hands to the operating system's proxy settings, so the
        document must have the port fields they convert. */
    method SetSystemProxy(flag: bool) returns (ports: Option<(Int32, Int32)>)
      requires flag ==> HttpPortReadable() && SocksPortReadable()
      modifies this`settings
      ensures settings == old(settings)["systemProxy" := Bool(flag)]
      ensures IsSystemProxy() == flag
      ensures flag ==> ports == Some((GetHttpPort(), GetSocksPort()))
      ensures !flag ==> ports == None
    {
      SaveValue("systemProxy", Bool(flag));
      if flag {
        var httpPort := GetHttpPort();
        var socksPort := GetSocksPort();
        ports := Some((httpPort, socksPort));
      } else {
        ports := None;
      }
    }
  }

  // -----------------------------------------------------------------------
  // Properties relating several operations.

  /** After a document is loaded, the two port getters agree exactly when it
      declares a mixed port, in which case both read "mixed-port". */
  lemma MixedPortSharedByBothGetters(c: Configurator)
    requires c.Valid() && c.root.mixedPort.Some?
    ensures c.HttpPortReadable() && c.SocksPortReadable()
    ensures c.GetHttpPort() == c.GetSocksPort()
    ensures "mixed-port" !in c.settings ==> c.GetHttpPort() == c.root.mixedPort.value
  {
  }

  /** With an `external-controller` of the form host:port and no override, the
      external control port is the port written after the colon. */
  lemma ExternalControlPortFromController(c: Configurator, host: string, port: Int32)
    requires c.root.externalController == Some(host + ":" + FormatInt(port))
    requires ':' !in host
    requires "externalControlPort" !in c.settings
    ensures ':' in c.root.externalController.value
    ensures c.GetExternalControlPort() == port
  {
    var text := FormatInt(port);
    assert ':' !in text;
    assert host + ":" + text == host + [':'] + text;
    SplitTwoPieces(host, text, ':');
    ParseIntFormatInt(port);
  }

  /** What DiffOverrides reports agrees with the effective getters: each entry
      carries the effective value, and a setting it leaves out is effectively
      the document's value, unless its override is the empty text or port -1. */
  lemma DiffOverridesAgreeWithGetters(c: Configurator)
    requires c.DiffReadable() && !c.isMixedPort
    ensures "mode" in c.DiffOverrides() ==> c.DiffOverrides()["mode"] == c.GetMode()
    ensures "mode" !in c.DiffOverrides() ==> c.GetMode() in {c.root.mode.value, ""}
    ensures "port" in c.DiffOverrides() ==> c.DiffOverrides()["port"] == FormatInt(c.GetHttpPort())
    ensures "port" !in c.DiffOverrides() ==> c.GetHttpPort() in {c.root.port.value, -1}
    ensures "socks-port" in c.DiffOverrides() ==> c.DiffOverrides()["socks-port"] == FormatInt(c.GetSocksPort())
    ensures "socks-port" !in c.DiffOverrides() ==> c.GetSocksPort() in {c.root.socksPort.value, -1}
    ensures "allow-lan" in c.DiffOverrides() ==> c.DiffOverrides()["allow-lan"] == (if c.GetAllowLan() then "1" else "0")
    ensures "allow-lan" !in c.DiffOverrides() ==> c.GetAllowLan() == c.root.allowLan.value
    ensures "log-level" in c.DiffOverrides() ==> c.DiffOverrides()["log-level"] == c.GetLogLevel()
    ensures "log-level" !in c.DiffOverrides() ==> c.GetLogLevel() in {c.root.logLevel.value, ""}
  {
  }

  /** With no override stored for any of the five settings, DiffOverrides
      reports nothing. */
  lemma NoOverridesNoDrift(c: Configurator)
    requires c.DiffReadable()
    requires forall key :: key in {"mode", "port", "socksPort", "allowLan", "logLevel"} ==> key !in c.settings
    ensures c.DiffOverrides() == map[]
  {
  }
}
