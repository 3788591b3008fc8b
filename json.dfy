/**
 * A decoded JSON document, as the three services receive their request bodies
 * after `express.json()`, `json.NewDecoder(...).Decode` or `json.loads`.
 * A number is an exact real. Python's `json.loads` also accepts `NaN` and
 * `Infinity`, which this type does not represent; no check of the audit
 * service looks at a number.
 */
module Json {

  datatype Value =
    | Null
    | Bool(b: bool)
    | Number(n: real)
    | String(s: string)
    | Array(items: seq<Value>)
    | Object(fields: map<string, Value>)
}
