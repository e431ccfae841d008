/**
 * The JavaScript values that travel through the forms: form data objects, error maps and
 * navigation state are plain objects, modelled as maps from keys to values.
 */
module JsValues {
  import FileUpload

  /**
   * A value held by a form field or passed in navigation state. `Price` stands for the
   * formatted amount `"$" + amount.toLocaleString()` the estimator produces (a non-empty string);
   * `Files` is the attachment list of the upload field.
   */
  datatype Value =
    | Null
    | Bool(b: bool)
    | Str(s: string)
    | Price(amount: int)
    | Strs(items: seq<string>)
    | Files(files: seq<FileUpload.Attachment>)
    | Obj(fields: map<string, Value>)

  /** A plain object; a missing key reads as `undefined`, which every reader here treats like `null`. */
  type Object = map<string, Value>

  /** JavaScript truthiness of a value. */
  predicate Truthy(v: Value)
  {
    match v
    case Null => false
    case Bool(b) => b
    case Str(s) => s != ""
    case _ => true
  }

  /** `o[key]`, with `undefined` read as `Null`. */
  function Get(o: Object, key: string): Value
  {
    if key in o then o[key] else Null
  }

  /** `v || fallback` */
  function Or(v: Value, fallback: Value): (r: Value)
    ensures Truthy(v) ==> r == v
    ensures !Truthy(v) ==> r == fallback
  {
    if Truthy(v) then v else fallback
  }

  /** The string a text field holds; `null` or a missing field reads as the empty string. */
  function Text(o: Object, key: string): string
  {
    if key in o && o[key].Str? then o[key].s else ""
  }

  /** The text fields the validators call `.trim()` on hold strings (or nothing), so no call can throw. */
  predicate TextFieldsWellTyped(o: Object)
  {
    forall k :: k in o && k in {"name", "email", "message"} ==> o[k].Str? || o[k].Null?
  }
}
