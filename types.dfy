/** The shapes of client/src/types.ts: an ad, a form field descriptor and a
    form configuration. */
module Types {
  import opened Js

  /** `keyof Ad`: the attributes a form field can name. */
  datatype Key = Id | Title | Publisher | Content | LandingUrl | Price | Clicked

  /** `number | string`: a bid price as it arrives from the server or the form. */
  datatype Price = Number(n: real) | Text(s: string)

  /** An ad. `id` is absent until the server assigns one; an absent `clicked`
      counts as 0 wherever it is read. */
  datatype Ad = Ad(
    id: Option<int>,
    title: string,
    publisher: string,
    content: string,
    landingUrl: string,
    price: Price,
    clicked: Option<int>)

  /** A declarative form field. An absent `required` is `false`; an absent
      `maxLength`, `pattern`, `placeholder` or `suffix` is None and disables
      the check or the decoration it would drive. `min` and `step` are
      presentation hints only. */
  datatype FormField = FormField(
    name: Key,
    labelText: string,
    fieldType: string,
    required: bool,
    placeholder: Option<string>,
    maxLength: Option<int>,
    min: Option<real>,
    step: Option<Value>,
    suffix: Option<string>,
    pattern: Option<string>)

  datatype FormConfig = FormConfig(fields: seq<FormField>)

  /** The form's working copy of an ad: a JavaScript object whose attributes
      hold whatever the inputs wrote into them. */
  type Record = map<Key, Value>

  /** `record[k]`, which is `undefined` for a missing attribute. */
  function Get(rec: Record, k: Key): Value
  {
    if k in rec then rec[k] else Undefined
  }
}
