/** The JavaScript values a Jingle session inspects: payloads are plain objects
    whose fields are tested for truthiness and read by name. */
module Values {

  datatype Option<+T> = None | Some(value: T)

  /** A JavaScript value, as far as the session looks into it. */
  datatype Value =
    | Undefined
    | Null
    | Bool(b: bool)
    | Num(n: int)
    | Str(s: string)
    | Obj(fields: map<string, Value>)
    | Arr(items: seq<Value>)

  /** An action payload (`changes` / `data`): a plain object. */
  type Payload = map<string, Value>

  /** JavaScript truthiness: `false`, `0`, `""`, `null` and `undefined` are falsy;
      every object and array is truthy. */
  predicate Truthy(v: Value)
  {
    match v
    case Undefined => false
    case Null => false
    case Bool(b) => b
    case Num(n) => n != 0
    case Str(s) => s != ""
    case Obj(_) => true
    case Arr(_) => true
  }

  /** Property access `p.key`; a missing key reads as `undefined`. */
  function Field(p: Payload, key: string): Value
  {
    if key in p then p[key] else Undefined
  }

  /** Property access on an arbitrary value; only objects carry named fields here. */
  function Member(v: Value, key: string): Value
  {
    if v.Obj? then Field(v.fields, key) else Undefined
  }

  /** The error object a handler passes to its completion callback:
      `{type?, condition, jingleCondition?}`. */
  datatype Error = Error(kind: Option<string>, condition: string, jingleCondition: Option<string>)

  /** `{condition: 'bad-request'}`: the reply to an action name outside the dispatch table. */
  const BadRequest: Error := Error(None, "bad-request", None)

  /** `{type: 'modify', condition: 'feature-not-implemented', jingleCondition: 'unsupported-info'}`. */
  const UnsupportedInfo: Error := Error(Some("modify"), "feature-not-implemented", Some("unsupported-info"))
}
