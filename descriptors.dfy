/**
 * Descriptors: the key/value metadata bags attached to management-interface
 * features, and the last-writer-wins operations of the descriptor bag builder
 * (`withField`, `withDescriptor`) that the parameter-info builder relies on.
 */
module Descriptors {

  /** A protocol-level open type, seen only through its identifying strings. */
  datatype OpenType = OpenType(className: string, typeName: string, description: string)

  /**
   * A descriptor field value. The bag is generic; the values the parameter-info
   * builder writes itself are an open type and a class name, and every other
   * object a caller stores is represented by an opaque identity.
   */
  datatype Value =
    | OpenTypeValue(openType: OpenType)
    | StringValue(text: string)
    | ObjectValue(id: nat)

  /** A descriptor: field name to field value. */
  type Descriptor = map<string, Value>

  /** Field holding the open type the mapper derived for a class. */
  const OpenTypeKey: string := "openType"

  /** Field holding the class name (`Class.getName`) of the described type. */
  const OriginalTypeKey: string := "originalType"

  /** Sets one field, replacing any earlier value of that field. */
  function WithField(bag: Descriptor, key: string, v: Value): (r: Descriptor)
    ensures key in r && r[key] == v
    ensures forall k :: k != key ==> (k in r <==> k in bag)
    ensures forall k :: k != key && k in bag ==> r[k] == bag[k]
  {
    bag[key := v]
  }

  /**
   * Merges every field of `d` into `bag`; a field of `d` replaces the field of
   * the same name already in the bag, every other field of the bag is kept.
   */
  function WithDescriptor(bag: Descriptor, d: Descriptor): (r: Descriptor)
    ensures forall k :: k in r <==> k in bag || k in d
    ensures forall k :: k in d ==> r[k] == d[k]
    ensures forall k :: k in bag && k !in d ==> r[k] == bag[k]
  {
    bag + d
  }
}
