/** The value type shared by the wire protocol, the caches and the type checker. */
module Variants {

  datatype IntKind = Int32 | UInt32 | Int64 | UInt64

  /** A QVariant: a null value, a scalar, a list or a string-keyed map.  `Other` stands for
      every kind that neither the protocol nor the type checker treats specially. */
  datatype Variant =
    | Null
    | Bool(b: bool)
    | Integer(kind: IntKind, i: int)
    | Double(r: real)
    | String(s: string)
    | List(items: seq<Variant>)
    | Map(entries: map<string, Variant>)
    | Other(id: int)

  /** A value together with the time at which its provider set it. */
  datatype TimedValue = TimedValue(value: Variant, time: nat)

  /** The D-Bus form of a value: a list that is empty exactly for the null value. */
  function Pack(v: Variant): (vs: seq<Variant>)
    ensures Unpack(vs) == v
  {
    if v.Null? then [] else [v]
  }

  function Unpack(vs: seq<Variant>): Variant {
    if |vs| == 0 then Null else vs[0]
  }
}
