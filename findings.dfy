/** Concrete scenarios of the Configurator that exhibit two discrepancies in
    the original, each next to the same scenario with the corrected operation. */
module ConfiguratorFindings {
  import opened Options
  import opened QtText
  import opened ClashModel
  import opened SettingsStore
  import opened Configurator

  /** A configuration with separate HTTP and SOCKS ports and every field the
      getters convert. */
  function SeparatePortsDocument(allowLan: bool): (d: Document)
    ensures d.port == Some(7890) && d.mixedPort.None? && d.allowLan == Some(allowLan)
  {
    Document(Some("rule"), Some(7890), Some(7891), None, Some(allowLan), Some("info"), Some("127.0.0.1:9090"), None)
  }

  /** SetHttpPort(8080) over `port: 7890` with no overrides: the effective HTTP
      port stays 7890 and DiffConfigs reports no port drift. */
  method HttpPortOverrideIgnored() returns (port: Int32, drift: map<string, string>)
    ensures port == 7890
    ensures drift == map[]
  {
    var c := new Configurator(map[], map[DefaultConfigName := SeparatePortsDocument(false)]);
    var loaded := c.LoadClashConfig(DefaultConfigName);
    c.SetHttpPort(8080);
    port := c.GetHttpPort();
    drift := c.DiffConfigs();
  }

  /** The same scenario with SetHttpPortIntended: the override takes effect and is
      reported as drift. */
  method HttpPortOverrideApplied() returns (port: Int32, drift: map<string, string>)
    ensures port == 8080
    ensures drift == map["port" := "8080"]
  {
    var c := new Configurator(map[], map[DefaultConfigName := SeparatePortsDocument(false)]);
    var loaded := c.LoadClashConfig(DefaultConfigName);
    c.SetHttpPortIntended(8080);
    port := c.GetHttpPort();
    drift := c.DiffConfigs();
    assert FormatNat(8) == "8";
    assert FormatNat(80) == "80";
    assert FormatNat(808) == "808";
    assert FormatInt(8080) == "8080";
  }

  /** No override stored and `allow-lan: true`: DiffConfigs reports allow-lan
      as drifted to "0" although the effective flag is true. */
  method AllowLanDriftWithoutOverride() returns (allowLan: bool, drift: map<string, string>)
    ensures allowLan
    ensures drift == map["allow-lan" := "0"]
  {
    var c := new Configurator(map[], map[DefaultConfigName := SeparatePortsDocument(true)]);
    var loaded := c.LoadClashConfig(DefaultConfigName);
    allowLan := c.GetAllowLan();
    drift := c.DiffConfigs();
  }

  /** The same scenario with DiffOverrides: nothing is reported. */
  method AllowLanNoDriftWithoutOverride() returns (allowLan: bool, drift: map<string, string>)
    ensures allowLan
    ensures drift == map[]
  {
    var c := new Configurator(map[], map[DefaultConfigName := SeparatePortsDocument(true)]);
    var loaded := c.LoadClashConfig(DefaultConfigName);
    allowLan := c.GetAllowLan();
    drift := c.DiffOverrides();
  }
}
