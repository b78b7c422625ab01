/** Store values, read only through equality and (for patches) through their tree shape. */
module Values {
  import opened Names

  /** A store value. A number is kept as its IEEE 754 bit pattern, so that equality of values is the
      identity test `Object.is` on primitives. A store can be created holding undefined, but no later
      write puts undefined into one. */
  datatype Value =
    | Undefined
    | Null
    | Bool(flag: bool)
    | Number(bits: nat)
    | Text(text: Name)
    | List(items: seq<Value>)
    | Record(fields: map<Name, Value>)

  type Defined = v: Value | v != Undefined witness Null
}
