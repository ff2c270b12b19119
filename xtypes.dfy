/**
  The part of eprosima xtypes that the FMI signal mapping and the key filter need.

  An IDL struct instance is represented by the sequence of nodes that
  `DynamicData::for_each` visits (the root struct first, then its members,
  depth first).  Each node carries its structured name (as the FMI structured
  naming convention of the repository produces it), its type kind, whether it
  comes from a member annotated `@key`, and its current value.  The traversal
  itself and the naming are taken as given.
*/
module XTypes {
  import opened Wrappers

  /** The kinds of `eprosima::xtypes::TypeKind`. */
  datatype TypeKind =
    | BooleanType | ByteType | Char8Type | Char16Type | WideCharType
    | Int8Type | UInt8Type | Int16Type | UInt16Type | Int32Type | UInt32Type | Int64Type | UInt64Type
    | Float32Type | Float64Type | Float128Type
    | EnumerationType | BitmaskType
    | AliasType | ArrayType | SequenceType | StringType | WStringType | MapType
    | UnionType | StructureType | BitsetType | PairType

  /** xtypes' `is_primitive_type()`: the kinds carrying the primitive flag. */
  predicate IsPrimitive(k: TypeKind) {
    match k
    case BooleanType | ByteType | Char8Type | Char16Type | WideCharType
       | Int8Type | UInt8Type | Int16Type | UInt16Type | Int32Type | UInt32Type | Int64Type | UInt64Type
       | Float32Type | Float64Type | Float128Type => true
    case _ => false
  }

  /** xtypes' `is_enumerated_type()`. */
  predicate IsEnumerated(k: TypeKind) {
    k == EnumerationType || k == BitmaskType
  }

  /** The test every traversal callback of the core starts with: `is_leaf || is_string`. */
  predicate IsSignalLeaf(k: TypeKind) {
    IsPrimitive(k) || IsEnumerated(k) || k == StringType
  }

  /** The value held by one node of a DynamicData instance. */
  datatype Datum =
    | BoolVal(b: bool)
    | IntVal(i: int)
    | RealVal(r: real)
    | StrVal(s: string)
    | CharVal(c: char)
    | NoVal

  /** One node of the `for_each` traversal: structured name, kind, `@key` flag, value. */
  datatype Node = Node(name: string, kind: TypeKind, isKey: bool, data: Datum)

  /** A node that counts as a key member: a signal leaf reached from a member marked `@key`. */
  predicate IsKeyLeaf(n: Node) {
    IsSignalLeaf(n.kind) && n.isKey
  }

  /** The fixed-width integer types of C++ that the core converts between. */
  datatype IntWidth = I8 | U8 | I16 | U16 | I32 | U32 | I64 | U64 {

    function Modulus(): nat {
      match this
      case I8 | U8 => 0x100
      case I16 | U16 => 0x1_0000
      case I32 | U32 => 0x1_0000_0000
      case I64 | U64 => 0x1_0000_0000_0000_0000
    }

    predicate Signed() {
      this == I8 || this == I16 || this == I32 || this == I64
    }

    function Min(): int {
      if Signed() then -(Modulus() / 2) else 0
    }

    function Max(): int {
      if Signed() then Modulus() / 2 - 1 else Modulus() - 1
    }

    predicate Fits(i: int) {
      Min() <= i <= Max()
    }
  }

  /** `static_cast` of an integer to a width: reduction modulo 2^bits, two's complement for signed types. */
  function Cast(i: int, w: IntWidth): (r: int)
    ensures w.Fits(r)
  {
    var m := i % w.Modulus();
    if w.Signed() && m >= w.Modulus() / 2 then m - w.Modulus() else m
  }

  /** A cast to a width the value already fits in changes nothing. */
  lemma CastOfFitting(i: int, w: IntWidth)
    requires w.Fits(i)
    ensures Cast(i, w) == i
  {
    var n := w.Modulus();
    if i < 0 {
      assert (i + n) % n == i + n;
    }
  }

  /** The storage width of each integer kind (an enumeration is stored as uint32). */
  function WidthOf(k: TypeKind): Option<IntWidth> {
    match k
    case Int8Type => Some(I8)
    case UInt8Type => Some(U8)
    case Int16Type => Some(I16)
    case UInt16Type => Some(U16)
    case Int32Type => Some(I32)
    case UInt32Type => Some(U32)
    case Int64Type => Some(I64)
    case UInt64Type => Some(U64)
    case EnumerationType => Some(U32)
    case _ => None
  }

  /** The value of a node has the shape its kind prescribes. */
  predicate WellTyped(n: Node) {
    match n.kind
    case BooleanType => n.data.BoolVal?
    case Float32Type | Float64Type => n.data.RealVal?
    case StringType => n.data.StrVal?
    case Char8Type => n.data.CharVal?
    case _ =>
      WidthOf(n.kind).Some? ==> n.data.IntVal? && WidthOf(n.kind).value.Fits(n.data.i)
  }
}
