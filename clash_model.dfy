/** The values the configurator works with: the parsed YAML configuration of
    the proxy core and the subscription records. */
module ClashModel {
  import opened Options
  import opened QtText

  /** The fields of a clash YAML document that the configurator reads. A field
      missing from the file is None; yaml-cpp throws when a missing field is
      converted with `as<T>()`. */
  datatype Document = Document(
    mode: Option<string>,
    port: Option<Int32>,
    socksPort: Option<Int32>,
    mixedPort: Option<Int32>,
    allowLan: Option<bool>,
    logLevel: Option<string>,
    externalController: Option<string>,
    secret: Option<string>)

  /** The value of a YAML node that was never loaded: every field is missing. */
  const EmptyDocument := Document(None, None, None, None, None, None, None, None)

  /** A QDateTime: the null date-time, or an instant in milliseconds since the epoch. */
  datatype DateTime = NullDateTime | At(msecsSinceEpoch: int)

  /** A subscription: a named configuration source, its URL and the time it
      was last fetched. */
  datatype Subscribe = Subscribe(name: string, url: string, updateTime: DateTime)

  /** The name reserved for the locally edited default configuration. */
  const DefaultConfigName := "config"

  /** The Subscribe(name) constructor: no URL and no update time. */
  function NamedSubscribe(name: string): (s: Subscribe)
    ensures s.name == name && s.url == ""
  {
    Subscribe(name, "", NullDateTime)
  }

  /** Proxy-group rules: configuration name -> group name -> selected proxy. */
  type Rules = map<string, map<string, string>>
}
