/**
 * The codec's data: the per-field layout `Tag`, the `TagCollection` of one
 * record type, and the explicit record value that stands in for a Go struct
 * inspected by reflection.
 */
module Types {
  import opened Pad

  /** Layout of one annotated field: its name, width and the three modifier flags. */
  datatype Tag = Tag(name: string, size: int, leftPad: bool, zeroFill: bool, noFloat: bool)

  /** Go's zero value `Tag{}`; the codec reads it as "this field has no slot". */
  const ZeroTag: Tag := Tag("", 0, false, false, false)

  /** The layout of one record type: its name and its tags in declaration order. */
  datatype TagCollection = TagCollection(name: string, tags: seq<Tag>)

  /**
   * A field's value, tagged with the kind the codec dispatches on. `Int`
   * stands for every signed integer kind, `Uint` for every unsigned one,
   * `Fixed2` for `float32`/`float64` holding a whole number of hundredths,
   * and `Other` for every kind the codec does not handle.
   */
  datatype Value =
    | Str(s: string)
    | Int(i: int)
    | Uint(u: nat)
    | Fixed2(hundredths: int)
    | Bool(b: bool)
    | Other

  datatype Kind = StringKind | IntKind | UintKind | FloatKind | BoolKind | OtherKind

  function KindOf(v: Value): Kind {
    match v
    case Str(_) => StringKind
    case Int(_) => IntKind
    case Uint(_) => UintKind
    case Fixed2(_) => FloatKind
    case Bool(_) => BoolKind
    case Other => OtherKind
  }

  /**
   * One struct field: its declared name, the text of its `positional`
   * struct tag ("" when the field has none) and its current value.
   */
  datatype Field = Field(name: string, annotation: string, value: Value)

  /** A struct value: its type's name and its fields in declaration order. */
  datatype Record = Record(typeName: string, fields: seq<Field>)

  /**
   * What can go wrong: a width that is not an integer, a padding failure, a
   * slot that does not parse as its field's kind, and a slot that lies
   * outside the line (a run-time panic in the Go code, see README).
   */
  datatype Error =
    | InvalidSize
    | PadFailed(cause: PadError)
    | InvalidNumber
    | InvalidBool
    | SlotOutOfRange

  /**
   * What Go guarantees of a struct type's named fields: names are non-empty
   * and distinct. Go also allows several blank `_` fields in one struct; a
   * record with two of them is not well formed here. The operations take any
   * record, but the lemmas that assume this predicate do not cover it.
   */
  predicate WellFormed(rec: Record) {
    && (forall i :: 0 <= i < |rec.fields| ==> rec.fields[i].name != "")
    && (forall i, j :: 0 <= i < j < |rec.fields| ==> rec.fields[i].name != rec.fields[j].name)
  }

  /** Two values of the same struct type: same field names, annotations and kinds, in the same order. */
  predicate SameShape(a: Record, b: Record) {
    && |a.fields| == |b.fields|
    && forall i :: 0 <= i < |a.fields| ==>
         && a.fields[i].name == b.fields[i].name
         && a.fields[i].annotation == b.fields[i].annotation
         && KindOf(a.fields[i].value) == KindOf(b.fields[i].value)
  }
}
