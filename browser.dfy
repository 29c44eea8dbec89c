/**
 * Values the client reads back from cookies and `localStorage`. `JSON.parse` is outside
 * the model: a stored item is its text together with what `JSON.parse` makes of it.
 */
module Browser {
  import opened Wrappers

  /** The result of `JSON.parse`, as far as the modelled code inspects it: `null`, an object
      (its string-valued properties), or any other value (number, string, array, boolean). */
  datatype Json = JNull | JObject(props: map<string, string>) | JOther

  /** A stored item: its text, and `None` when `JSON.parse` throws on that text. */
  datatype Item = Item(text: string, parsed: Option<Json>)

  /** JavaScript truthiness of an optional string: absent and `""` are falsy. */
  predicate Truthy(s: Option<string>)
  {
    s.Some? && s.value != ""
  }

  predicate ItemTruthy(item: Option<Item>)
  {
    item.Some? && item.value.text != ""
  }

  /** `v[key]` for a non-null value: a string property, or `undefined` (None).
      Reading a property of `null` throws, so callers rule `JNull` out first. */
  function Prop(v: Json, key: string): (r: Option<string>)
    requires !v.JNull?
    ensures r.Some? <==> v.JObject? && key in v.props
    ensures r.Some? ==> r.value == v.props[key]
  {
    match v
    case JObject(props) => if key in props then Some(props[key]) else None
    case JOther => None
  }
}
