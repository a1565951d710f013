/** Types shared by every part of the access layer: the store's tagged
    attribute values, an item as a map from attribute name to value, the
    library's error type, and the usual Option/Result wrappers. */
module Attribute {

  datatype Option<+T> = None | Some(value: T)

  /** The store's wire value: exactly one of the typed members is populated. */
  datatype AttributeValue =
    | S(s: string)
    | N(n: string)
    | B(b: seq<bv8>)
    | BOOL(boolean: bool)
    | NULL
    | L(l: seq<AttributeValue>)
    | M(m: map<string, AttributeValue>)
    | SS(ss: seq<string>)
    | NS(ns: seq<string>)
    | BS(bs: seq<seq<bv8>>)

  /** One item as the store returns it: attribute name to value. */
  type Item = map<string, AttributeValue>

  /** The error cases the generated code can return. Transport failures are
      carried as they arrive from the client. */
  datatype RaidenError =
    | ResourceNotFound(message: string)
    | AttributeValueNotFoundError(attrName: string)
    | AttributeConvertError(attrName: string)
    | TransportError(detail: string)

  datatype Result<+T> = Ok(value: T) | Err(error: RaidenError)
}
