/** The persisted key/value settings store (QSettings) and the QVariant
    conversions the configurator applies to what it reads from it. */
module SettingsStore {
  import opened QtText
  import opened ClashModel

  /** A stored value. The subscription list, the current subscription and the
      proxy-group rules are stored by the original as JSON text; they are held
      here in decoded form, the JSON round trip being taken as lossless. */
  datatype Value =
    | Str(s: string)
    | Int(i: Int32)
    | Bool(b: bool)
    | SubscribeList(subs: seq<Subscribe>)
    | SubscribeRecord(sub: Subscribe)
    | RuleMap(rules: Rules)
  {
    /** QVariant::toString. */
    function ToStr(): (r: string)
      ensures Str? ==> r == s
      ensures Int? ==> r == FormatInt(i)
      ensures Bool? ==> (r == "true" <==> b) && (r == "false" <==> !b)
      ensures SubscribeList? || SubscribeRecord? || RuleMap? ==> r == ""
    {
      match this
      case Str(s) => s
      case Int(i) => FormatInt(i)
      case Bool(b) => if b then "true" else "false"
      case _ => ""
    }

    /** QVariant::toInt. */
    function ToInt(): (r: Int32)
      ensures Int? ==> r == i
      ensures Bool? ==> r == if b then 1 else 0
      ensures Str? ==> r == ParseInt(s)
      ensures Str? && (exists k: Int32 :: s == FormatInt(k)) ==> s == FormatInt(r)
      ensures SubscribeList? || SubscribeRecord? || RuleMap? ==> r == 0
    {
      match this
      case Int(i) => i
      case Bool(b) => if b then 1 else 0
      case Str(s) => ParseInt(s)
      case _ => 0
    }

    /** QVariant::toBool: text is true unless it is empty, "0" or "false" in any case. */
    function ToBool(): (r: bool)
      ensures Bool? ==> r == b
      ensures Int? ==> r == (i != 0)
      ensures Str? ==> (r <==> ToLower(s) !in {"", "0", "false"})
      ensures SubscribeList? || SubscribeRecord? || RuleMap? ==> !r
    {
      match this
      case Bool(b) => b
      case Int(i) => i != 0
      case Str(s) => var lower := ToLower(s); !(lower == "" || lower == "0" || lower == "false")
      case _ => false
    }
  }

  type Store = map<string, Value>

  /** QSettings::value(key, fallback): the stored value, or the fallback when
      the key was never written. */
  function LoadValue(store: Store, key: string, fallback: Value): (v: Value)
    ensures key in store ==> v == store[key]
    ensures key !in store ==> v == fallback
  {
    if key in store then store[key] else fallback
  }

  /** Reading a key gives what was last written under it, and writing one key
      leaves every other key reading as before. */
  lemma LoadAfterSave(store: Store, key: string, value: Value, other: string, fallback: Value)
    ensures LoadValue(store[key := value], key, fallback) == value
    ensures other != key ==> LoadValue(store[key := value], other, fallback) == LoadValue(store, other, fallback)
  {
  }

  /** A QSettings file keeps numbers and flags as text, so an `int` or a `bool`
      written by a setter is read back as a string after the store is reloaded.
      The conversion the getters apply still gives back the value written. */
  lemma {:induction false} TextFormPreservesValue(v: Value)
    ensures v.Int? ==> Str(v.ToStr()).ToInt() == v.ToInt()
    ensures v.Bool? ==> Str(v.ToStr()).ToBool() == v.ToBool()
    ensures v.Str? ==> Str(v.ToStr()) == v
  {
    match v
    case Int(i) => ParseIntFormatInt(i);
    case Bool(b) =>
      assert ToLower("true") == "true";
      assert ToLower("false") == "false";
    case _ =>
  }
}
