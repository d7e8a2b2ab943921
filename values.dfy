/** Values that cross the boundary between the backend and its providers. */
module Values {

  datatype Option<+T> = None | Some(value: T)

  /** A value read from a provider's loosely typed dictionary (yfinance `info`,
      a news item).  Numbers are opaque here: they are carried as the text
      Python prints for them, which is all the backend ever does with them. */
  datatype Value = Text(s: string) | Number(printed: string) | Flag(b: bool) | Null

  /** How an f-string renders a value: `None` for a missing one. */
  function Show(v: Value): string
  {
    match v
    case Text(s) => s
    case Number(p) => p
    case Flag(b) => if b then "True" else "False"
    case Null => "None"
  }

  /** How an f-string renders an optional string attribute. */
  function ShowOpt(o: Option<string>): string
  {
    match o
    case Some(s) => s
    case None => "None"
  }

  /** Python truthiness of an optional string: present and not empty. */
  predicate Truthy(o: Option<string>)
  {
    o.Some? && o.value != ""
  }

  /** `d.get(k)`: the stored value, or None when the key is absent. */
  function Get(d: map<string, Value>, k: string): Value
  {
    if k in d then d[k] else Null
  }

  /** `d.get(k, default)`. */
  function GetOr(d: map<string, Value>, k: string, default: Value): Value
  {
    if k in d then d[k] else default
  }
}
