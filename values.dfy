/**
 * Property bags: the structured documents that the engine sends to a provider
 * and that a provider returns, after conversion to and from protobuf `Struct`.
 */
module PropertyValues {

  /** One structured value inside a property bag. */
  datatype Value =
    | Null
    | Bool(b: bool)
    | Number(n: real)
    | Str(s: string)
    | List(items: seq<Value>)
    | Object(fields: map<string, Value>)

  /** A resource's properties, keyed by property name. */
  type PropertyBag = map<string, Value>
}
