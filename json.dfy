/** JSON values as the services pass them around (`serde_json::Value` in the Tauri
    commands, `any` parameters in the TypeScript services). */
module Json {
  import opened Wrappers

  datatype JsonValue =
    | Null
    | Bool(b: bool)
    | Num(n: real)
    | Str(s: string)
    | Arr(items: seq<JsonValue>)
    | Obj(fields: map<string, JsonValue>)

  /** `value.get(key).and_then(|v| v.as_str())`: the string under `key` when the
      value is an object holding a string there. */
  function StringField(v: JsonValue, key: string): (r: Option<string>)
    ensures r.Some? <==> v.Obj? && key in v.fields && v.fields[key].Str?
    ensures r.Some? ==> v.fields[key] == Str(r.value)
  {
    if v.Obj? && key in v.fields && v.fields[key].Str? then Some(v.fields[key].s) else None
  }

  /** `option.unwrap_or(default)`. */
  function UnwrapOr(o: Option<string>, default: string): string {
    if o.Some? then o.value else default
  }
}
