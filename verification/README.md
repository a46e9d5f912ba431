# positional_line in Dafny

A model of the Go package `positional_line`, a codec for fixed-width text
records. Each exported field of a struct carries a `positional` struct tag:
`"<size>[,zerofill][,leftpad][,nofloat]"`. The codec turns a struct into one
line:

- each annotated field's value becomes text (`Convert`);
- the text is cut to `size` characters or padded up to it by the `pad`
  package (`Right`, or `Left` with `leftpad`), with `0` under `zerofill` and
  spaces otherwise;
- the slots are laid end to end in field order (`ParseValue`).

`Marshal` does this for one struct, or for a slice of structs with a newline
between consecutive lines. `UnparseValue` goes the other way: it walks the
fields with a cursor, cuts each slot out of a line, trims it and parses it as
the field's kind (`Unconvert`).

The Dafny modules follow the Go files:

| module | file | what it holds |
|---|---|---|
| `Wrappers` | `wrappers.dfy` | `Option` and `Result` |
| `GoStrings` | `strings.dfy` | the `strings` functions the codec calls: `Repeat`, `TrimSpace`, `Split`, `Join`, `Index`, `Replace(s, ".", "", 1)` |
| `GoStrconv` | `strconv.dfy` | `FormatInt`/`FormatUint`, `ParseInt`/`ParseUint`/`Atoi`, `ParseBool`, `%.2f` and `ParseFloat` on two-decimal values |
| `Pad` | `pad.dfy` | package `pad`: `Right`, `Left` |
| `Types` | `types.dfy` | `Tag`, `TagCollection`, and the `Record`/`Field`/`Value` that stand for a struct seen through reflection |
| `Parsers` | `parsers.dfy` | `ParseTags`, `Tags`, `Convert`, `ParseValue`, `Unconvert`, `UnparseValue`, with their properties |
| `RoundTrip` | `roundtrip.dfy` | reading a rendered line back |
| `PositionalLine` | `positional_line.dfy` | `Marshal`, `marshalStruct`, the slice loop, the package-level round trip |
| `Fixtures` | `fixtures.dfy` | the repository's test tables, each restated as a lemma about the model |

A Go struct value inspected by reflection is modelled as a `Record`: its
type name and its fields in declaration order. Each field has a name, the
text of its `positional` tag (`""` when it has none) and a `Value` of one of
the kinds the codec tells apart: string, signed integer, unsigned integer,
float, bool, or any other kind. Go's `Tags(line)[name]` on a missing key gives
the zero `Tag{}`; the model's `Lookup` does the same, and "has a slot" means
"the looked-up tag is not the zero tag", as in the source.

Floats are modelled as a whole number of hundredths (`Fixed2`). Every value
the codec writes goes through `%.2f`, so a float that is a whole number of
hundredths is rendered exactly.

The central results:

- `RoundTrip.ValueRoundTrip` and `PositionalLine.MarshalRoundTrip`: a line
  read back into any value of the same struct type restores every annotated
  field whose slot is reversible, and leaves every other field as it was.
- `RoundTrip.NoFloatScales`: a `nofloat` float reads back as a hundred times
  its value.
- `Parsers.UnparseValueFirstError`: a failing read names the first failing
  field and leaves it, and every field after it, unchanged.
- `PositionalLine.MarshalLineCount`: a slice of `n` records gives exactly
  `n - 1` newlines, and the text splits back into the records' lines.

## Model

| member | source | states |
|---|---|---|
| Pad.Right | pad/pad.go:9-30 | Fails exactly when the size is negative or the pad is empty, and reports the negative size when both hold. Otherwise the result starts with the first min(size, len) characters of the text and is filled after them. With a one-character pad the result is exactly `size` long and every added character is the pad. |
| Pad.Left | pad/pad.go:33-54 | The same failures as `Right`. Otherwise the kept characters end the result and the fill comes before them; with a one-character pad the result is exactly `size` long. |
| Pad.Truncates | pad/pad.go:9-54 | A text longer than `size` is cut to its first `size` characters, on both sides, with no padding. |
| Pad.PadsShortText | pad/pad.go:9-54 | A text that fits is kept whole, followed (`Right`) or preceded (`Left`) by `size - len` copies of the pad. |
| Pad.Idempotent | pad/pad.go:9-54 | With a one-character pad, padding an already padded text to the same size changes nothing. |
| GoStrings.Repeat | pad/pad.go:29 | `n` copies of `s`: `n` times as long as `s`, and every character is the pad when the pad has one character. |
| GoStrings.Split | parsers.go:24 | The pieces hold no separator, there is at least one, and joining them with the separator gives the annotation back. |
| GoStrings.SplitJoin | parsers.go:24 | Splitting a join whose parts hold no separator gives the parts back (the inverse direction of `Split`). |
| GoStrings.TrimSpaceTrims | parsers.go:105 | `TrimSpace` removes only leading and trailing whitespace, and leaves no whitespace at either edge. |
| GoStrings.TrimUnique | parsers.go:105 | There is only one such trim, so `TrimSpace` is the trim. |
| GoStrings.RemoveFirstDeletes | parsers.go:198 | Deleting the first `.` removes exactly that character: the text before it and after it are kept, and a text without a point is unchanged. |
| GoStrings.JoinCount | positional_line.go:52-56 | Joining `n` newline-free lines with a newline gives exactly `n - 1` newlines. |
| GoStrconv.FormatNat | parsers.go:193 | The decimal text of a number is non-empty, all digits, denotes the number, and has no leading zero unless the number is zero. |
| GoStrconv.FormatIntParses | parsers.go:191 | The decimal text of an integer parses back to it, and has no whitespace at its edges and no newline. |
| GoStrconv.ParseUintFormat | parsers.go:115 | Unsigned parsing undoes unsigned formatting for every value. |
| GoStrconv.ParseIntLeadingZeros | parsers.go:107 | Zeros put in front of a non-negative number's text do not change the parsed value. |
| GoStrconv.FormatFixed2 | parsers.go:195 | The `%.2f` text has at least four characters: a point third from the end, then two digits. It starts with a minus sign exactly when the value is negative, and otherwise with a digit. |
| GoStrconv.FormatFixed2Parses | parsers.go:195-198 | The `%.2f` text of a float parses back to it. Without its point it parses to a hundred times the value. It has clean edges and no newline. |
| GoStrconv.ParseFixed2LeadingZeros | parsers.go:123 | Zeros in front of a non-negative float's text do not change the parsed value. |
| GoStrconv.ParseFixed2TrailingZeros | parsers.go:123 | Zeros after a float's two decimals do not change the parsed value. |
| Parsers.SetModifiers | parsers.go:32-50 | Each flag is set exactly when it was set before or its token is among the modifiers. The name and size are unchanged. |
| Parsers.ParseTag | parsers.go:24-58 | Fails with `ErrInvalidSize` exactly when the text before the first comma is not an integer. Otherwise the tag carries the field's name and that size, and each flag is set exactly when its token is among the later pieces. |
| Parsers.ParseFieldTags | parsers.go:15-61 | Fails with `ErrInvalidSize` exactly when some annotated field has a bad size. Otherwise there is one tag per annotated field, each named after one of the fields. |
| Parsers.ParseTags | parsers.go:12-69 | The same failure condition. On success the collection is named after the type and holds one tag per annotated field. |
| Parsers.ParseFieldTagsInOrder | parsers.go:15-61 | The k-th tag is the tag parsed from the k-th annotated field: declaration order is kept and unannotated fields are skipped. |
| Parsers.ParseTagsKeepsAnnotated | parsers.go:12-69 | The k-th tag of the collection belongs to the k-th annotated field, carries its name, and is what its annotation parses to. |
| Parsers.TagMap | parsers.go:215-223 | The map's keys are exactly the tags' names, and each name maps to the last tag that carries it. |
| Parsers.Tags | parsers.go:215-223 | The same, for a collection. |
| Parsers.ParseTagsOwnTags | parsers.go:12-69 | On a struct type (distinct, non-empty field names), looking up a field in the derived layout gives the tag of its own annotation. A field has a slot exactly when it is annotated. |
| Parsers.RenderField | parsers.go:158-176 | One slot fails exactly when the tag's size is negative, with the padding error. Otherwise the slot is exactly `size` characters long. |
| RoundTrip.RenderFieldShape | parsers.go:160-172 | A text that fits is never cut. It gets `0` fill under `zerofill` and spaces otherwise, in front of the text under `leftpad` and after it otherwise. |
| Parsers.Convert | parsers.go:184-213 | A string is its own text. A bool is the one character `1` or `0`, which `ParseBool` reads back as the bool. A kind the codec does not handle gives the empty text. Partners: `Parsers.ConvertParses`, `RoundTrip.ConvertReadsBack` and `RoundTrip.NoFloatScales`. |
| Parsers.ConvertParses | parsers.go:190-200 | An integer, unsigned or float text reads back through its `strconv` parser as the value. The exception is a `nofloat` float: its point is gone, so it reads back a hundred times larger. |
| RoundTrip.ConvertReadsBack | parsers.go:184-213 | A converted value has no whitespace at its edges and parses back as itself, unless it is a `nofloat` float or a string with edge whitespace. |
| Parsers.RenderFields | parsers.go:148-181 | Fails exactly when some field with a slot has a negative size. Otherwise the line is as long as all the slots together. |
| Parsers.ParseValue | parsers.go:143-182 | The same failure condition, and the same line length, for a record under a layout. |
| Parsers.RenderFieldsSlotAt | parsers.go:148-181 | Each slotted field's padded text sits in the line at the sum of the widths of the fields before it. |
| Parsers.ParseValueSlots | parsers.go:143-182 | The same, for `ParseValue`. |
| Parsers.ParseAs | parsers.go:103-138 | A string field takes the text as it is and never fails. An integer, unsigned, float or bool field fails exactly when that kind's `strconv` parser rejects the text, and otherwise holds the parsed value. A bad bool is `InvalidBool` and a bad number `InvalidNumber`. A kind the codec does not handle keeps its value. |
| Parsers.Unconvert | parsers.go:102-141 | The result keeps the field's kind and has the same error cases as `ParseAs`. A string field never fails and holds the slot text with its edge whitespace trimmed. |
| Parsers.UnconvertTrims | parsers.go:103-138 | Whitespace around a slot text with clean edges does not matter: the slot reads as that text would, whatever the field's kind. |
| Parsers.UnparseFields | parsers.go:76-97 | The cursor loop returns as many fields as it was given, with the same names, annotations and kinds. |
| Parsers.UnparseValue | parsers.go:71-100 | Reading a line keeps the record's type and shape. |
| Parsers.UnparseFieldsSlots | parsers.go:76-97 | An error-free read never runs past the line. Every slotted field is read from its own window, which starts at the sum of the widths before it, and every other field is unchanged. |
| Parsers.UnparseValueReads | parsers.go:71-100 | The same, for `UnparseValue` from cursor 0. |
| Parsers.FirstFailure | parsers.go:86-94 | A failed read has a first failing field: its window lies outside the line or does not parse, with the reported error. The fields before it are read and the fields from it on are untouched. |
| Parsers.UnparseValueFirstError | parsers.go:71-100 | The same, for `UnparseValue`. |
| Parsers.UnparseIgnoresTrailing | parsers.go:86-88 | Characters after the last slot never change an error-free read. |
| Parsers.UnparseValueIgnoresTrailing | parsers.go:71-100 | The same, for `UnparseValue`. |
| RoundTrip.SpaceSlotReadsBack | parsers.go:105 | A space-padded (or exactly full) slot of a reversible value trims and parses back to the value. |
| RoundTrip.ZeroSlotTrim | parsers.go:160-172 | Zero padding is never trimmed: the slot's text survives `TrimSpace` whole. |
| RoundTrip.ZeroSlotReadsBack | parsers.go:102-141 | A zero-padded slot with room to spare reads back as its value. This holds for numbers whose zeros land where they change nothing: in front of a non-negative integer, or after a float's decimals. |
| RoundTrip.FieldRoundTrip | parsers.go:102-141 | The slot of a reversible value, read into any value of the same kind, gives the value back. A kind the codec does not handle keeps the target's own value. |
| RoundTrip.NoFloatScales | parsers.go:197-198 | Under `nofloat` with space fill, a float reads back as a hundred times its value, because reading never puts the point back. |
| RoundTrip.ValueRoundTrip | parsers.go:71-100 | Provided every slotted field's slot is reversible, rendering a record and reading the line into any value of the same type (same names and kinds) gives no error, restores every slotted field, and leaves the others as they were. A reversible slot means: the size is not negative, the converted text fits, a string has no whitespace at its edges, a float is not under `nofloat`, and zero fill appears only where it cannot change the value (a full slot, zeros in front of a non-negative number, or zeros after a float's fraction digits). Outside this, the Go code can fail or change the value: a bool in a `3,zerofill` slot is written `100`, which `ParseBool` rejects, and a `nofloat` float comes back a hundred times larger. |
| RoundTrip.ValueRoundTripSelf | parsers.go:143-182 | Provided every slotted field's slot is reversible (as for `ValueRoundTrip`), reading a record's own line back into it gives the record and no error. |
| PositionalLine.MarshalStruct | positional_line.go:63-77 | A bad annotation gives `ErrInvalidSize` and no line. When the annotations parse, the call fails exactly when a slot of the type's layout has a negative size, and the error is the padding error. A line that comes back is as wide as the slots added up, and each slotted field's padded text sits at its offset. |
| Parsers.RenderFieldsLaidOut | parsers.go:148-181 | Every line the field loop produces is its fields laid out slot by slot: the right width, with each slotted field's text at its offset. |
| PositionalLine.MarshalStructWidth | positional_line.go:63-77 | When the annotations parse, the line fails exactly when an annotated field declares a negative width. Otherwise it is as long as the type's declared widths added up. |
| PositionalLine.CollectLines | positional_line.go:44-57 | The slice loop succeeds exactly when every element does, with their lines in order. Otherwise it reports the error of the first failing element, after only successful ones. |
| PositionalLine.MarshalAllLines | positional_line.go:44-57 | A slice marshals exactly when every element does, and line i is element i's line. |
| PositionalLine.MarshalAllFirstError | positional_line.go:46-50 | A failing slice reports the error of its first failing element. |
| PositionalLine.MarshalSlice | positional_line.go:44-60 | The loop that writes each line and a newline before the next succeeds exactly when every element does. It then returns the lines joined by newlines, with none at the end. Otherwise it returns the first failing element's error. |
| PositionalLine.Marshal | positional_line.go:30-61 | A struct gives its own line, or its error. A slice gives its elements' lines joined by newlines, or the first failing element's error. Any other kind gives the empty text. |
| PositionalLine.MarshalLineCount | positional_line.go:52-56 | When no string field holds a newline, a slice of `n` records gives a text with exactly `n - 1` newlines. Splitting that text at newlines gives back the records' lines, in order. |
| PositionalLine.MarshalRoundTrip | positional_line.go:63-77 | Provided the field names are distinct, every annotation parses, and every annotated field's own slot is reversible (as for `ValueRoundTrip`): the line `marshalStruct` makes, read back with `UnparseValue` into any value of the same struct type, gives no error. Each annotated field gets its value back and every unannotated field keeps its own. |
| PositionalLine.MarshalRoundTripSelf | positional_line.go:63-77 | Under the same conditions as `MarshalRoundTrip`, reading a struct's own line back into it gives the struct and no error. |
| Fixtures.LeftTable | pad/pad_test.go:9-35 | Every row of the `Left` table, including the two rejected ones. |
| Fixtures.RightTable | pad/pad_test.go:37-63 | Every row of the `Right` table, including the two rejected ones. |
| Fixtures.ParseTagsTable | parsers_test.go:11-45 | Two annotated fields and one bare field give exactly two tags, with the expected sizes and flags. |
| Fixtures.ParseValueHello | parsers_test.go:63 | The first `ParseValue` row renders to `"00000hello  12370      1"`. |
| Fixtures.ParseValueWorld | parsers_test.go:64 | The second row renders to `"00000world  45600      0"`. |
| Fixtures.PlainLayout | parsers_test.go:78-100 | Sizes only: each value at the start of its slot. |
| Fixtures.LeftPadLayout | parsers_test.go:102-124 | `leftpad`: each value at the end of its slot. |
| Fixtures.ZeroFillLayout | parsers_test.go:126-148 | `zerofill`: zeros after every value, strings included. |
| Fixtures.ZeroFillLeftPadLayout | parsers_test.go:150-172 | `zerofill,leftpad`: zeros in front of every value. |
| Fixtures.NoFloatLayout | parsers_test.go:174-196 | `nofloat`: the float loses its point. |
| Fixtures.NoFloatLeftPadLayout | parsers_test.go:198-220 | `nofloat,leftpad`. |
| Fixtures.AllModifiersLayout | parsers_test.go:222-244 | All three modifiers together. |
| Fixtures.ConvertTable | parsers_test.go:246-276 | `Convert` of 123, 123.70 (with and without `nofloat`), false and true. |
| Fixtures.TagsTable | parsers_test.go:278-313 | `Tags` maps each name to its tag, and to nothing else. |
| Fixtures.MarshalTable | positional_line_test.go:15-24 | The two-element slice gives `"hello     12300\n456        4500"`. |
| Fixtures.MarshalSingle | positional_line_test.go:25-32 | The single struct gives `"123.70         "`. |

## Left out

- Reflection is not modelled. A struct value is an explicit `Record`, and its
  type's annotations are the fields' `annotation` texts. Unexported and
  embedded fields are not distinguished. `Marshal`'s argument is one of
  struct, slice of structs, or a value that is neither a struct nor a slice
  (see below for slices of other elements).
- The model assumes that every field is exported, that string and bool fields
  have the unnamed types `string` and `bool`, and that a non-empty slice
  passed to `Marshal` holds structs. Outside these cases the Go code panics,
  and the model returns an ordinary result instead:
  - `Convert` asserts `v.Interface().(string)` and `v.Interface().(bool)`
    (parsers.go:189, parsers.go:203). Both panic for a field of a named type
    such as `type Code string`, and for any unexported field. The model
    renders such a field like any other `Str` or `Bool`.
  - `Unconvert` calls `SetString`, `SetInt`, `SetUint`, `SetFloat` and
    `SetBool` (parsers.go:105-137). Each panics on an unexported field,
    which the model's `UnparseValue` reads like any other.
  - A non-empty slice of non-structs reaches `marshalStruct`
    (positional_line.go:45) and panics at `t.NumField()` (parsers.go:15).
    `Input` has no constructor for such a slice. `OtherValue`, the kind that
    gives `""`, stands only for values that are neither structs nor slices.
- Floating point is not modelled. A float is a whole number of hundredths.
  `%.2f` of any other float rounds, and that rounding is not modelled.
- GoStrconv.ParseFixed2: accepts only plain decimal text with an
  optional sign: digits, an optional point and fraction digits, of which only
  the first two may be non-zero. It does not accept exponents, `inf`/`nan`,
  hex floats or underscores, and it reports every other text as an error.
- GoStrconv.ParseInt: integers are unbounded. The 64-bit range checks of
  `ParseInt`, `ParseUint` and `Atoi`, and the narrowing of `SetInt`/`SetUint`/`SetFloat` to the
  field's width, are not modelled.
- The model assumes single-byte (ASCII) characters throughout. It works on
  `seq<char>`, and one element is both one rune and one byte. In Go, `pad`
  counts runes (pad/pad.go:21-26) but `UnparseValue` slices bytes
  (parsers.go:86-88). A string field holding a multi-byte character, such as
  `"é"` in a 3-wide slot, is written as 3 runes, which is 4 bytes. The Go code
  then reads every later slot one byte off. On such content the round-trip
  lemmas (`RoundTrip.ValueRoundTrip`, `PositionalLine.MarshalRoundTrip`) and
  `PositionalLine.MarshalStructWidth` do not describe the Go code. The texts
  the codec builds itself (digits, signs, points, fill) are ASCII.
- Parsers.UnparseValue: on a line too short for a slot, or under a negative size,
  the source slices `content[start:end]` unchecked and panics. The model
  reports this as the error `SlotOutOfRange` instead.
- Error values are named (`InvalidSize`, `PadFailed`, `InvalidNumber`,
  `InvalidBool`). Only `ErrInvalidSize` is a value that callers can compare
  against; the others are the texts of `strconv` and `pad` errors.
- The source recomputes `Tags(line)` for every field. The model builds the
  map once per call, which gives the same map.
- Parsers.Unconvert: the tag parameter is unused in the source, and the model keeps it
  unused. This is why `nofloat` is not undone on reading (`NoFloatScales`).
- There is no decoding of a whole multi-line text back into a slice: the
  package has no such operation.
- A struct with more than one blank `_` field has repeated field names. Go
  allows this. The operations handle such a record as the Go code does: the
  fields share one entry of the layout map, and the last tag wins. The lemmas
  that assume `Types.WellFormed` (distinct names) do not cover it.
- The `positional` tag key, and `field.Tag.Get` returning `""` for a missing
  key, are folded into the annotation text.
