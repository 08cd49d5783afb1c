/**
  Dynamic values as the job service receives them (request bodies, spreadsheet cells),
  and the library behaviour the model does not define but takes as parameters.
 */
module Values {

  datatype Option<T> = None | Some(value: T)

  /** A JavaScript value as it arrives in a request body or a spreadsheet row:
      `Obj` keeps the own keys in `Object.keys` order. Numbers are finite. */
  datatype Value =
    | Undefined
    | Null
    | Bool(b: bool)
    | Number(x: real)
    | Text(s: string)
    | Arr(items: seq<Value>)
    | Obj(fields: seq<(string, Value)>)

  /** A date field of a request body once the schema's `date()` has accepted it: the
      timestamp `new Date(v)` gives, and whether the raw `v` is truthy. The number 0
      is accepted as the epoch yet is falsy, which the `v ? new Date(v) : ...`
      guards of the service tell apart from a date. */
  datatype BodyDate = BodyDate(time: int, truthy: bool)

  /** `v ? new Date(v) : null` on an optional date field. */
  function DateOrNull(v: Option<BodyDate>): (r: Option<int>)
    ensures r.Some? <==> v.Some? && v.value.truthy
    ensures r.Some? ==> r.value == v.value.time
  {
    if v.Some? && v.value.truthy then Some(v.value.time) else None
  }

  /** `value === undefined || value === null || value === ''` */
  predicate IsBlank(v: Value)
  {
    v.Undefined? || v.Null? || (v.Text? && v.s == "")
  }

  /** `value ?? fallback` */
  function OrElse(v: Value, fallback: Value): Value
  {
    if v.Undefined? || v.Null? then fallback else v
  }

  /** `Number.isInteger(x)` for a finite number. */
  predicate IsIntegral(x: real)
  {
    x.Floor as real == x
  }

  /** Library behaviour the service relies on but the model leaves abstract:
      - isUuid: uuid's `validate`
      - parseDate: `new Date(v).getTime()`, None when it is NaN (timestamps in milliseconds)
      - parseInt: `parseInt(s, 10)`, None when it is NaN
      - toNumber: `Number(s)`, None when it is NaN
      - parseJson: `JSON.parse(s)`, None when it throws
      - toText: `String(v)` for a value that is not already a string */
  datatype Platform = Platform(
    isUuid: string -> bool,
    parseDate: Value -> Option<int>,
    parseInt: string -> Option<int>,
    toNumber: string -> Option<real>,
    parseJson: string -> Option<Value>,
    toText: Value -> string
  )

  /** `String(v)`: the identity on strings, the platform's conversion otherwise. */
  function Str(p: Platform, v: Value): (r: string)
    ensures v.Text? ==> r == v.s
  {
    if v.Text? then v.s else p.toText(v)
  }
}
