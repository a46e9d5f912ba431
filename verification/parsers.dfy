/**
 * The layout extractor and the value codec: parsing `positional` struct
 * tags into a `TagCollection`, rendering a record into one fixed-width line,
 * and reading the fields of a record back from such a line.
 */
module Parsers {
  import opened Wrappers
  import opened GoStrings
  import opened GoStrconv
  import opened Pad
  import opened Types

  // ================================================================ ParseTags

  /** The loop over the modifier tokens: each recognised token switches its flag on. */
  function SetModifiers(mods: seq<string>, t: Tag): (r: Tag)
    ensures r.name == t.name && r.size == t.size
    ensures r.zeroFill <==> t.zeroFill || "zerofill" in mods
    ensures r.leftPad <==> t.leftPad || "leftpad" in mods
    ensures r.noFloat <==> t.noFloat || "nofloat" in mods
  {
    if |mods| == 0 then t
    else
      var m := mods[0];
      assert mods == [m] + mods[1..];
      SetModifiers(mods[1..], t.(
        zeroFill := t.zeroFill || m == "zerofill",
        leftPad := t.leftPad || m == "leftpad",
        noFloat := t.noFloat || m == "nofloat"))
  }

  /** The size token of an annotation: the text before its first comma. */
  function SizeToken(annotation: string): string {
    Split(annotation, ',')[0]
  }

  /** The modifier tokens of an annotation: the comma-separated pieces after the first. */
  function Modifiers(annotation: string): seq<string> {
    Split(annotation, ',')[1..]
  }

  /** One field's annotation as a tag: the size token must be an integer, the modifiers are flags. */
  function ParseTag(name: string, annotation: string): (r: Result<Tag, Error>)
    ensures r.Failure? <==> ParseInt(SizeToken(annotation)).None?
    ensures r.Failure? ==> r.error == InvalidSize
    ensures r.Success? ==>
      && r.value.name == name
      && ParseInt(SizeToken(annotation)) == Some(r.value.size)
      && (r.value.zeroFill <==> "zerofill" in Modifiers(annotation))
      && (r.value.leftPad <==> "leftpad" in Modifiers(annotation))
      && (r.value.noFloat <==> "nofloat" in Modifiers(annotation))
  {
    match ParseInt(SizeToken(annotation))
    case None => Failure(InvalidSize)
    case Some(size) => Success(SetModifiers(Modifiers(annotation), Tag(name, size, false, false, false)))
  }

  /** A field whose annotation is present but whose size token is not an integer. */
  predicate BadAnnotation(f: Field) {
    f.annotation != "" && ParseTag(f.name, f.annotation).Failure?
  }

  /** How many of `fields` carry an annotation. */
  function CountAnnotated(fields: seq<Field>): nat {
    if |fields| == 0 then 0
    else (if fields[0].annotation != "" then 1 else 0) + CountAnnotated(fields[1..])
  }

  /** The loop of `ParseTags`: one tag per annotated field, in order; the first bad annotation aborts. */
  function ParseFieldTags(fields: seq<Field>): (r: Result<seq<Tag>, Error>)
    ensures r.Failure? <==> exists i :: 0 <= i < |fields| && BadAnnotation(fields[i])
    ensures r.Failure? ==> r.error == InvalidSize
    ensures r.Success? ==> |r.value| == CountAnnotated(fields)
    ensures r.Success? ==> forall k :: 0 <= k < |r.value| ==>
      exists i :: 0 <= i < |fields| && fields[i].name == r.value[k].name
  {
    if |fields| == 0 then Success([])
    else
      var f := fields[0];
      var rest := ParseFieldTags(fields[1..]);
      assert forall i :: 0 < i < |fields| ==> fields[i] == fields[1..][i - 1];
      if f.annotation == "" then rest
      else
        match ParseTag(f.name, f.annotation)
        case Failure(e) => Failure(e)
        case Success(t) =>
          match rest
          case Failure(e) => Failure(e)
          case Success(ts) => Success([t] + ts)
  }

  /** `ParseTags`: the layout of a record type, or `InvalidSize` and no layout at all. */
  function ParseTags(rec: Record): (r: Result<TagCollection, Error>)
    ensures r.Failure? <==> exists i :: 0 <= i < |rec.fields| && BadAnnotation(rec.fields[i])
    ensures r.Failure? ==> r.error == InvalidSize
    ensures r.Success? ==> r.value.name == rec.typeName && |r.value.tags| == CountAnnotated(rec.fields)
  {
    match ParseFieldTags(rec.fields)
    case Failure(e) => Failure(e)
    case Success(ts) => Success(TagCollection(rec.typeName, ts))
  }

  // ===================================================================== Tags

  /** No later tag has the same name as `tags[k]`. */
  predicate LastWithName(tags: seq<Tag>, k: int)
    requires 0 <= k < |tags|
  {
    forall j :: k < j < |tags| ==> tags[j].name != tags[k].name
  }

  /** The names the tags carry. */
  function TagNames(tags: seq<Tag>): set<string> {
    set k | 0 <= k < |tags| :: tags[k].name
  }

  lemma TagNamesCons(tags: seq<Tag>)
    requires |tags| > 0
    ensures TagNames(tags) == {tags[0].name} + TagNames(tags[1..])
  {
    forall n | n in TagNames(tags)
      ensures n in {tags[0].name} + TagNames(tags[1..])
    {
      var k :| 0 <= k < |tags| && tags[k].name == n;
      if k > 0 {
        assert tags[1..][k - 1].name == n;
      }
    }
    forall n | n in TagNames(tags[1..])
      ensures n in TagNames(tags)
    {
      var k :| 0 <= k < |tags| - 1 && tags[1..][k].name == n;
      assert tags[k + 1].name == n;
    }
  }

  /** The map the loop of `Tags` builds: each tag under its name, later tags overwriting earlier ones. */
  function TagMap(tags: seq<Tag>): (m: map<string, Tag>)
    ensures m.Keys == TagNames(tags)
    ensures forall k :: 0 <= k < |tags| && LastWithName(tags, k) ==> m[tags[k].name] == tags[k]
  {
    if |tags| == 0 then map[]
    else
      var rest := TagMap(tags[1..]);
      TagNamesCons(tags);
      assert forall k :: 0 < k < |tags| ==> tags[k] == tags[1..][k - 1];
      assert forall k :: 0 < k < |tags| && LastWithName(tags, k) ==> LastWithName(tags[1..], k - 1);
      assert LastWithName(tags, 0) ==> tags[0].name !in rest.Keys;
      map[tags[0].name := tags[0]] + rest
  }

  /** `Tags`: the tags of a collection keyed by field name. */
  function Tags(c: TagCollection): (m: map<string, Tag>)
    ensures m.Keys == TagNames(c.tags)
    ensures forall k :: 0 <= k < |c.tags| && LastWithName(c.tags, k) ==> m[c.tags[k].name] == c.tags[k]
  {
    TagMap(c.tags)
  }

  /** Go's `Tags(line)[name]`: the stored tag, or the zero `Tag{}` when the name is absent. */
  function Lookup(m: map<string, Tag>, name: string): Tag {
    if name in m then m[name] else ZeroTag
  }

  /** Whether the field called `name` occupies a slot: its looked-up tag is not the zero tag. */
  predicate HasSlot(m: map<string, Tag>, name: string) {
    Lookup(m, name) != ZeroTag
  }

  /** The number of characters the field occupies in a line. */
  function Width(m: map<string, Tag>, f: Field): int {
    if HasSlot(m, f.name) then Lookup(m, f.name).size else 0
  }

  /** The total width of the slots of `fields`, which is also where the slot after them starts. */
  function SlotWidth(fields: seq<Field>, m: map<string, Tag>): int {
    if |fields| == 0 then 0 else Width(m, fields[0]) + SlotWidth(fields[1..], m)
  }

  // ================================================================== Convert

  /**
   * `Convert`: a value's text before padding. A string is its own text, a
   * bool the one character `ParseBool` reads back, and a kind the codec does
   * not handle gives the empty text; `ConvertParses` says how the numeric
   * kinds read back.
   */
  function Convert(v: Value, t: Tag): (r: string)
    ensures v.Str? ==> r == v.s
    ensures v.Bool? ==> |r| == 1 && ParseBool(r) == Some(v.b)
    ensures v.Other? ==> r == ""
  {
    match v
    case Str(s) => s
    case Int(i) => FormatInt(i)
    case Uint(u) => FormatNat(u)
    case Fixed2(h) =>
      var text := FormatFixed2(h);
      if t.noFloat then RemoveFirst(text, '.') else text
    case Bool(b) => if b then "1" else "0"
    case Other => ""
  }

  /**
   * Every numeric text `Convert` writes is one its `strconv` parser reads
   * back as the value, except that a `nofloat` float, having lost its point,
   * reads back a hundred times larger.
   */
  lemma ConvertParses(v: Value, t: Tag)
    ensures v.Int? ==> ParseInt(Convert(v, t)) == Some(v.i)
    ensures v.Uint? ==> ParseUint(Convert(v, t)) == Some(v.u)
    ensures v.Fixed2? ==> ParseFixed2(Convert(v, t)) == Some(if t.noFloat then 100 * v.hundredths else v.hundredths)
  {
    match v
    case Int(i) => FormatIntParses(i);
    case Uint(u) => ParseUintFormat(u);
    case Fixed2(h) => FormatFixed2Parses(h);
    case _ =>
  }

  /** The fill character: `0` with `zerofill`, a space otherwise. */
  function Fill(t: Tag): string {
    if t.zeroFill then "0" else " "
  }

  /** One field's slot text: its converted value padded to the tag's size, on the left with `leftpad`. */
  function RenderField(t: Tag, v: Value): (r: Result<string, Error>)
    ensures r.Failure? <==> t.size < 0
    ensures r.Failure? ==> r.error == PadFailed(NegativeSize)
    ensures r.Success? ==> |r.value| == t.size
  {
    var padded := if t.leftPad then Left(Convert(v, t), t.size, Fill(t)) else Right(Convert(v, t), t.size, Fill(t));
    match padded
    case Failure(e) => Failure(PadFailed(e))
    case Success(s) => Success(s)
  }

  // =============================================================== ParseValue

  /** The loop of `ParseValue`: slot texts of the fields that have one, concatenated in field order. */
  function RenderFields(fields: seq<Field>, m: map<string, Tag>): (r: Result<string, Error>)
    ensures r.Failure? <==> exists i :: 0 <= i < |fields| && HasSlot(m, fields[i].name) && Lookup(m, fields[i].name).size < 0
    ensures r.Failure? ==> r.error == PadFailed(NegativeSize)
    ensures r.Success? ==> |r.value| == SlotWidth(fields, m)
  {
    if |fields| == 0 then Success("")
    else
      var f := fields[0];
      var rest := RenderFields(fields[1..], m);
      assert forall i :: 0 < i < |fields| ==> fields[i] == fields[1..][i - 1];
      if !HasSlot(m, f.name) then rest
      else
        match RenderField(Lookup(m, f.name), f.value)
        case Failure(e) => Failure(e)
        case Success(piece) =>
          match rest
          case Failure(e) => Failure(e)
          case Success(line) => Success(piece + line)
  }

  /** `ParseValue`: a record rendered as one line under a layout. */
  function ParseValue(rec: Record, c: TagCollection): (r: Result<string, Error>)
    ensures r.Failure? <==> exists i :: 0 <= i < |rec.fields| && HasSlot(Tags(c), rec.fields[i].name) && Lookup(Tags(c), rec.fields[i].name).size < 0
    ensures r.Success? ==> |r.value| == SlotWidth(rec.fields, Tags(c))
  {
    RenderFields(rec.fields, Tags(c))
  }

  // ================================================================ Unconvert

  /**
   * `Unconvert`: the value a slot holds, read as the kind of the field's
   * current value after trimming whitespace. The tag is not consulted, so
   * a point removed by `nofloat` is not put back; `Other` kinds are left as
   * they are.
   */
  function Unconvert(v: Value, t: Tag, content: string): (r: Result<Value, Error>)
    ensures r.Success? ==> KindOf(r.value) == KindOf(v)
    ensures r.Failure? ==> r.error == (if v.Bool? then InvalidBool else InvalidNumber)
    ensures v.Str? ==> r.Success? && IsTrimOf(r.value.s, content)
    ensures v.Other? ==> r == Success(v)
  {
    TrimSpaceTrims(content);
    ParseAs(v, TrimSpace(content))
  }

  /**
   * The per-kind parse of an already trimmed slot text: a string field takes
   * the text as it is and never fails; every other handled kind fails
   * exactly when its `strconv` parser rejects the text, and otherwise holds
   * what the parser returned.
   */
  function ParseAs(v: Value, s: string): (r: Result<Value, Error>)
    ensures r.Success? ==> KindOf(r.value) == KindOf(v)
    ensures r.Failure? ==> r.error == (if v.Bool? then InvalidBool else InvalidNumber)
    ensures v.Str? ==> r == Success(Str(s))
    ensures v.Int? ==> (r.Failure? <==> ParseInt(s).None?) && (r.Success? ==> r.value == Int(ParseInt(s).value))
    ensures v.Uint? ==> (r.Failure? <==> ParseUint(s).None?) && (r.Success? ==> r.value == Uint(ParseUint(s).value))
    ensures v.Fixed2? ==> (r.Failure? <==> ParseFixed2(s).None?) && (r.Success? ==> r.value == Fixed2(ParseFixed2(s).value))
    ensures v.Bool? ==> (r.Failure? <==> ParseBool(s).None?) && (r.Success? ==> r.value == Bool(ParseBool(s).value))
    ensures v.Other? ==> r == Success(v)
  {
    match v
    case Str(_) => Success(Str(s))
    case Int(_) =>
      (match ParseInt(s)
       case None => Failure(InvalidNumber)
       case Some(i) => Success(Int(i)))
    case Uint(_) =>
      (match ParseUint(s)
       case None => Failure(InvalidNumber)
       case Some(u) => Success(Uint(u)))
    case Fixed2(_) =>
      (match ParseFixed2(s)
       case None => Failure(InvalidNumber)
       case Some(h) => Success(Fixed2(h)))
    case Bool(_) =>
      (match ParseBool(s)
       case None => Failure(InvalidBool)
       case Some(b) => Success(Bool(b)))
    case Other => Success(v)
  }

  /**
   * `Unconvert` trims the slot before parsing: whitespace around a text with
   * clean edges is ignored, whichever kind the field has.
   */
  lemma UnconvertTrims(v: Value, t: Tag, before: string, s: string, after: string)
    requires AllSpace(before) && AllSpace(after) && NoEdgeSpace(s)
    ensures Unconvert(v, t, before + s + after) == ParseAs(v, s)
  {
    TrimPadded(before, s, after);
  }

  // ============================================================= UnparseValue

  /** Whether `[start, start + size)` lies inside `content`: the slice the Go code takes without checking. */
  predicate InLine(content: string, start: int, size: int) {
    0 <= start && 0 <= size && start + size <= |content|
  }

  /**
   * The loop of `UnparseValue` from cursor `start`: each field with a slot
   * is read from the next `size` characters. The fields come back updated up
   * to the first failure, and unchanged from there on.
   */
  function UnparseFields(fields: seq<Field>, m: map<string, Tag>, content: string, start: nat): (r: (seq<Field>, Option<Error>))
    ensures |r.0| == |fields|
    ensures forall i :: 0 <= i < |fields| ==>
      && r.0[i].name == fields[i].name
      && r.0[i].annotation == fields[i].annotation
      && KindOf(r.0[i].value) == KindOf(fields[i].value)
    decreases |fields|
  {
    if |fields| == 0 then ([], None)
    else
      var f := fields[0];
      var t := Lookup(m, f.name);
      if t == ZeroTag then
        var rest := UnparseFields(fields[1..], m, content, start);
        ([f] + rest.0, rest.1)
      else if !InLine(content, start, t.size) then (fields, Some(SlotOutOfRange))
      else
        match Unconvert(f.value, t, content[start..start + t.size])
        case Failure(e) => (fields, Some(e))
        case Success(v) =>
          var rest := UnparseFields(fields[1..], m, content, start + t.size);
          ([f.(value := v)] + rest.0, rest.1)
  }

  /** What `UnparseValue` leaves behind: the (possibly partly) updated record and the error, if any. */
  datatype Decoded = Decoded(record: Record, err: Option<Error>)

  /** `UnparseValue`: read the fields of `rec` from `content` under the layout `c`. */
  function UnparseValue(rec: Record, c: TagCollection, content: string): (d: Decoded)
    ensures SameShape(d.record, rec) && d.record.typeName == rec.typeName
  {
    var r := UnparseFields(rec.fields, Tags(c), content, 0);
    Decoded(Record(rec.typeName, r.0), r.1)
  }

  // ================================================================= Lemmas

  lemma PrefixTail<T>(s: seq<T>, i: int)
    requires 0 < i <= |s|
    ensures s[..i][1..] == s[1..][..i - 1] && s[..i][0] == s[0]
  {
  }

  /** The tag of the i-th field, when it is annotated, comes after the tags of the annotated fields before it. */
  lemma {:induction false} ParseFieldTagsAt(fields: seq<Field>, i: nat)
    requires ParseFieldTags(fields).Success? && i < |fields| && fields[i].annotation != ""
    ensures ParseTag(fields[i].name, fields[i].annotation).Success?
    ensures CountAnnotated(fields[..i]) < |ParseFieldTags(fields).value|
    ensures ParseFieldTags(fields).value[CountAnnotated(fields[..i])] == ParseTag(fields[i].name, fields[i].annotation).value
    decreases i
  {
    assert !BadAnnotation(fields[i]);
    var rest := fields[1..];
    assert ParseFieldTags(rest).Success?;
    if i == 0 {
      assert fields[..0] == [];
    } else {
      PrefixTail(fields, i);
      assert fields[i] == rest[i - 1];
      ParseFieldTagsAt(rest, i - 1);
    }
  }

  /** The k-th tag of a successful `ParseFieldTags` is the tag of the k-th annotated field. */
  lemma ParseFieldTagsInOrder(fields: seq<Field>)
    requires ParseFieldTags(fields).Success?
    ensures forall i :: 0 <= i < |fields| && fields[i].annotation != "" ==>
      && ParseTag(fields[i].name, fields[i].annotation).Success?
      && CountAnnotated(fields[..i]) < |ParseFieldTags(fields).value|
      && ParseFieldTags(fields).value[CountAnnotated(fields[..i])] == ParseTag(fields[i].name, fields[i].annotation).value
  {
    forall i | 0 <= i < |fields| && fields[i].annotation != ""
      ensures && ParseTag(fields[i].name, fields[i].annotation).Success?
              && CountAnnotated(fields[..i]) < |ParseFieldTags(fields).value|
              && ParseFieldTags(fields).value[CountAnnotated(fields[..i])] == ParseTag(fields[i].name, fields[i].annotation).value
    {
      ParseFieldTagsAt(fields, i);
    }
  }

  /** `ParseTags` keeps exactly the annotated fields, in declaration order, each named after its field. */
  lemma ParseTagsKeepsAnnotated(rec: Record)
    requires ParseTags(rec).Success?
    ensures var c := ParseTags(rec).value;
      && c.name == rec.typeName
      && |c.tags| == CountAnnotated(rec.fields)
      && forall i :: 0 <= i < |rec.fields| && rec.fields[i].annotation != "" ==>
           && CountAnnotated(rec.fields[..i]) < |c.tags|
           && c.tags[CountAnnotated(rec.fields[..i])].name == rec.fields[i].name
           && c.tags[CountAnnotated(rec.fields[..i])] == ParseTag(rec.fields[i].name, rec.fields[i].annotation).value
  {
    ParseFieldTagsInOrder(rec.fields);
  }

  /** The tag a field's own annotation gives it, or the zero tag when it has none (or a bad one). */
  function OwnTag(f: Field): Tag {
    if f.annotation == "" then ZeroTag
    else match ParseTag(f.name, f.annotation)
      case Success(t) => t
      case Failure(_) => ZeroTag
  }

  /** Field names are non-empty and pairwise distinct, as in any Go struct type. */
  predicate DistinctNames(fields: seq<Field>) {
    && (forall i :: 0 <= i < |fields| ==> fields[i].name != "")
    && (forall i, j :: 0 <= i < j < |fields| ==> fields[i].name != fields[j].name)
  }

  lemma DistinctNamesTail(fields: seq<Field>)
    requires |fields| > 0 && DistinctNames(fields)
    ensures DistinctNames(fields[1..])
    ensures forall i :: 0 <= i < |fields| - 1 ==> fields[1..][i].name != fields[0].name
  {
    assert forall i :: 0 <= i < |fields| - 1 ==> fields[1..][i] == fields[i + 1];
  }

  /** No tag of a successful `ParseFieldTags` is named after a field it was not given. */
  lemma TagNamesFromFields(fields: seq<Field>, name: string)
    requires ParseFieldTags(fields).Success?
    requires forall i :: 0 <= i < |fields| ==> fields[i].name != name
    ensures name !in TagNames(ParseFieldTags(fields).value)
  {
  }

  /**
   * In a struct type, looking field `i` up by name in the layout finds the
   * tag of its own annotation, or the zero tag when it has none.
   */
  lemma {:induction false} OwnTagLookupAt(fields: seq<Field>, i: int)
    requires DistinctNames(fields)
    requires ParseFieldTags(fields).Success?
    requires 0 <= i < |fields|
    ensures Lookup(TagMap(ParseFieldTags(fields).value), fields[i].name) == OwnTag(fields[i])
  {
    var f, rest := fields[0], fields[1..];
    DistinctNamesTail(fields);
    assert ParseFieldTags(rest).Success?;
    var ts := ParseFieldTags(rest).value;
    var tags := ParseFieldTags(fields).value;
    if i == 0 {
      TagNamesFromFields(rest, f.name);
      if f.annotation != "" {
        var t := ParseTag(f.name, f.annotation).value;
        assert tags == [t] + ts;
        LookupTagMapCons(t, ts, f.name);
      } else {
        assert tags == ts;
      }
    } else {
      OwnTagLookupAt(rest, i - 1);
      assert fields[i] == rest[i - 1];
      if f.annotation != "" {
        var t := ParseTag(f.name, f.annotation).value;
        assert tags == [t] + ts;
        assert fields[i].name != t.name;
        LookupTagMapCons(t, ts, fields[i].name);
      } else {
        assert tags == ts;
      }
    }
  }

  /**
   * A tag put in front of others is found under its own name when no later
   * tag carries that name, and leaves every other name's lookup as it was.
   */
  lemma LookupTagMapCons(t: Tag, ts: seq<Tag>, name: string)
    ensures name != t.name ==> Lookup(TagMap([t] + ts), name) == Lookup(TagMap(ts), name)
    ensures name == t.name && name !in TagNames(ts) ==> Lookup(TagMap([t] + ts), name) == t
  {
    assert ([t] + ts)[1..] == ts;
  }

  /** A field has a slot exactly when it carries an annotation. */
  lemma OwnTagSlot(f: Field)
    requires f.name != "" && !BadAnnotation(f)
    ensures OwnTag(f) != ZeroTag <==> f.annotation != ""
  {
  }

  /** On a well-formed record, the layout `ParseTags` derives gives every field its own annotation's tag. */
  lemma ParseTagsOwnTags(rec: Record)
    requires WellFormed(rec)
    requires ParseTags(rec).Success?
    ensures forall i :: 0 <= i < |rec.fields| ==>
      && Lookup(Tags(ParseTags(rec).value), rec.fields[i].name) == OwnTag(rec.fields[i])
      && (HasSlot(Tags(ParseTags(rec).value), rec.fields[i].name) <==> rec.fields[i].annotation != "")
  {
    forall i | 0 <= i < |rec.fields|
      ensures Lookup(Tags(ParseTags(rec).value), rec.fields[i].name) == OwnTag(rec.fields[i])
      ensures HasSlot(Tags(ParseTags(rec).value), rec.fields[i].name) <==> rec.fields[i].annotation != ""
    {
      OwnTagLookupAt(rec.fields, i);
      OwnTagSlot(rec.fields[i]);
    }
  }

  lemma SlotWidthPrefix(fields: seq<Field>, m: map<string, Tag>, i: int)
    requires 0 < i <= |fields|
    ensures SlotWidth(fields[..i], m) == Width(m, fields[0]) + SlotWidth(fields[1..][..i - 1], m)
  {
    PrefixTail(fields, i);
  }

  /** The rendered line is the first field's slot text, if it has a slot, followed by the rest of the line. */
  lemma {:induction false} RenderFieldsCons(fields: seq<Field>, m: map<string, Tag>)
    requires |fields| > 0 && RenderFields(fields, m).Success?
    ensures RenderFields(fields[1..], m).Success?
    ensures 0 <= Width(m, fields[0])
    ensures RenderFields(fields, m).value ==
      (if HasSlot(m, fields[0].name) then RenderField(Lookup(m, fields[0].name), fields[0].value).value else "")
      + RenderFields(fields[1..], m).value
  {
    var f := fields[0];
    if HasSlot(m, f.name) {
      assert RenderField(Lookup(m, f.name), f.value).Success?;
    }
  }

  /** `text` occurs in `line` starting at position `a`. */
  predicate TextAt(line: string, a: int, text: string) {
    0 <= a && a + |text| <= |line| && line[a..a + |text|] == text
  }

  /**
   * Field `i`'s slot text sits in the rendered line at the sum of the widths
   * of the fields before it: the line is the slots laid end to end.
   */
  lemma {:induction false} RenderFieldsSlotAt(fields: seq<Field>, m: map<string, Tag>, i: int)
    requires RenderFields(fields, m).Success?
    requires 0 <= i < |fields| && HasSlot(m, fields[i].name)
    ensures RenderField(Lookup(m, fields[i].name), fields[i].value).Success?
    ensures TextAt(RenderFields(fields, m).value, SlotWidth(fields[..i], m), RenderField(Lookup(m, fields[i].name), fields[i].value).value)
  {
    var f, rest := fields[0], fields[1..];
    RenderFieldsCons(fields, m);
    var line, restLine := RenderFields(fields, m).value, RenderFields(rest, m).value;
    var piece := if HasSlot(m, f.name) then RenderField(Lookup(m, f.name), f.value).value else "";
    assert line == piece + restLine;
    if i == 0 {
      assert fields[..0] == [];
      TextAtFront(piece, restLine);
    } else {
      assert fields[i] == rest[i - 1];
      var text := RenderField(Lookup(m, fields[i].name), fields[i].value).value;
      RenderFieldsSlotAt(rest, m, i - 1);
      var a' := SlotWidth(rest[..i - 1], m);
      assert SlotWidth(fields[..i], m) == |piece| + a' by {
        SlotWidthPrefix(fields, m, i);
      }
      TextAtShift(piece, restLine, a', text);
      assert TextAt(line, SlotWidth(fields[..i], m), text);
    }
  }

  lemma TextAtFront(p: string, q: string)
    ensures TextAt(p + q, 0, p)
  {
    assert (p + q)[..|p|] == p;
  }

  /** Text found in `q` is found in `p + q`, moved right by `|p|`. */
  lemma TextAtShift(p: string, q: string, a: int, text: string)
    requires TextAt(q, a, text)
    ensures TextAt(p + q, |p| + a, text)
  {
    assert (p + q)[|p| + a..|p| + a + |text|] == q[a..a + |text|];
  }

  /** Field `i` was read from its slot into `out[i]`, or it has no slot and is unchanged. */
  predicate ReadAt(fields: seq<Field>, m: map<string, Tag>, content: string, start: int, out: seq<Field>, i: int)
    requires |out| == |fields| && 0 <= i < |fields|
  {
    var t := Lookup(m, fields[i].name);
    var a := start + SlotWidth(fields[..i], m);
    if t == ZeroTag then out[i] == fields[i]
    else
      && InLine(content, a, t.size)
      && Unconvert(fields[i].value, t, content[a..a + t.size]) == Success(out[i].value)
      && out[i] == fields[i].(value := out[i].value)
  }

  /** Field `k` is the one whose slot could not be read, with error `e`. */
  predicate FailsAt(fields: seq<Field>, m: map<string, Tag>, content: string, start: int, k: int, e: Error)
    requires 0 <= k < |fields|
  {
    var t := Lookup(m, fields[k].name);
    var a := start + SlotWidth(fields[..k], m);
    && t != ZeroTag
    && if InLine(content, a, t.size) then Unconvert(fields[k].value, t, content[a..a + t.size]) == Failure(e)
       else e == SlotOutOfRange
  }

  /** Where the cursor stands after the first field: moved by its width when it has a slot. */
  function NextStart(fields: seq<Field>, m: map<string, Tag>, start: nat): int
    requires |fields| > 0
  {
    start + Width(m, fields[0])
  }

  /** The first field has no slot, or its slot lies inside the line and reads as the field's kind. */
  predicate HeadReads(fields: seq<Field>, m: map<string, Tag>, content: string, start: nat)
    requires |fields| > 0
  {
    var t := Lookup(m, fields[0].name);
    t == ZeroTag || (InLine(content, start, t.size) && Unconvert(fields[0].value, t, content[start..start + t.size]).Success?)
  }

  /** The first field as read from its slot, or unchanged when it has none. */
  function ReadHead(fields: seq<Field>, m: map<string, Tag>, content: string, start: nat): Field
    requires |fields| > 0 && HeadReads(fields, m, content, start)
  {
    var t := Lookup(m, fields[0].name);
    if t == ZeroTag then fields[0]
    else fields[0].(value := Unconvert(fields[0].value, t, content[start..start + t.size]).value)
  }

  /** When the first slot reads, the result is that field followed by the read of the rest from the next cursor. */
  lemma UnparseFieldsCons(fields: seq<Field>, m: map<string, Tag>, content: string, start: nat)
    requires |fields| > 0 && HeadReads(fields, m, content, start)
    ensures UnparseFields(fields, m, content, start) ==
      ([ReadHead(fields, m, content, start)] + UnparseFields(fields[1..], m, content, NextStart(fields, m, start)).0,
       UnparseFields(fields[1..], m, content, NextStart(fields, m, start)).1)
  {
    var t := Lookup(m, fields[0].name);
    if t == ZeroTag {
      assert NextStart(fields, m, start) == start;
    } else {
      assert NextStart(fields, m, start) == start + t.size;
      assert Unconvert(fields[0].value, t, content[start..start + t.size]).Success?;
    }
  }

  /** One step of an error-free read: the first field is read from its window and the rest from the next cursor. */
  lemma {:induction false} UnparseFieldsStep(fields: seq<Field>, m: map<string, Tag>, content: string, start: nat)
    requires |fields| > 0
    requires UnparseFields(fields, m, content, start).1 == None
    ensures HeadReads(fields, m, content, start)
    ensures 0 <= Width(m, fields[0])
    ensures UnparseFields(fields[1..], m, content, NextStart(fields, m, start)).1 == None
    ensures UnparseFields(fields, m, content, start).0[1..] == UnparseFields(fields[1..], m, content, NextStart(fields, m, start)).0
    ensures ReadAt(fields, m, content, start, UnparseFields(fields, m, content, start).0, 0)
  {
    assert HeadReads(fields, m, content, start);
    UnparseFieldsPasses(fields, m, content, start);
  }

  /** Field `k` of a record read from `out`, seen from the record's tail. */
  lemma ReadAtShift(fields: seq<Field>, m: map<string, Tag>, content: string, start: nat, out: seq<Field>, i: int)
    requires |out| == |fields| && 0 < i < |fields|
    ensures ReadAt(fields, m, content, start, out, i) == ReadAt(fields[1..], m, content, NextStart(fields, m, start), out[1..], i - 1)
  {
    SlotWidthPrefix(fields, m, i);
    assert fields[i] == fields[1..][i - 1];
    assert out[i] == out[1..][i - 1];
  }

  /**
   * A successful read takes field `i` from its own window: `start` plus the
   * widths of the fields before it, `size` characters long.
   */
  lemma {:induction false} UnparseFieldsReadAt(fields: seq<Field>, m: map<string, Tag>, content: string, start: nat, i: int)
    requires UnparseFields(fields, m, content, start).1 == None
    requires 0 <= i < |fields|
    ensures ReadAt(fields, m, content, start, UnparseFields(fields, m, content, start).0, i)
  {
    UnparseFieldsStep(fields, m, content, start);
    if i > 0 {
      UnparseFieldsReadAt(fields[1..], m, content, NextStart(fields, m, start), i - 1);
      ReadAtShift(fields, m, content, start, UnparseFields(fields, m, content, start).0, i);
    }
  }

  /** A successful read never runs past the line: the slots all fit in it. */
  lemma {:induction false} UnparseFieldsFits(fields: seq<Field>, m: map<string, Tag>, content: string, start: nat)
    requires UnparseFields(fields, m, content, start).1 == None
    requires start <= |content|
    ensures start + SlotWidth(fields, m) <= |content|
  {
    if |fields| > 0 {
      UnparseFieldsStep(fields, m, content, start);
      UnparseFieldsFits(fields[1..], m, content, NextStart(fields, m, start));
    }
  }

  /**
   * A successful read walks the slots in field order: every field with a
   * slot is read from exactly its window, every other field is unchanged,
   * and the line is long enough for all the slots.
   */
  lemma UnparseFieldsSlots(fields: seq<Field>, m: map<string, Tag>, content: string, start: nat)
    requires UnparseFields(fields, m, content, start).1 == None
    requires start <= |content|
    ensures start + SlotWidth(fields, m) <= |content|
    ensures forall i :: 0 <= i < |fields| ==> ReadAt(fields, m, content, start, UnparseFields(fields, m, content, start).0, i)
  {
    UnparseFieldsFits(fields, m, content, start);
    forall i | 0 <= i < |fields|
      ensures ReadAt(fields, m, content, start, UnparseFields(fields, m, content, start).0, i)
    {
      UnparseFieldsReadAt(fields, m, content, start, i);
    }
  }

  /** The first field's slot is the one that fails, so nothing at all is updated. */
  lemma UnparseFieldsStopsHere(fields: seq<Field>, m: map<string, Tag>, content: string, start: nat)
    requires |fields| > 0 && !HeadReads(fields, m, content, start)
    ensures UnparseFields(fields, m, content, start).0 == fields
    ensures UnparseFields(fields, m, content, start).1.Some?
    ensures FailsAt(fields, m, content, start, 0, UnparseFields(fields, m, content, start).1.value)
  {
    assert fields[..0] == [];
  }

  /** The first field's slot is read, so a failure comes from the rest, and the first field is updated. */
  lemma {:induction false} UnparseFieldsPasses(fields: seq<Field>, m: map<string, Tag>, content: string, start: nat)
    requires |fields| > 0 && HeadReads(fields, m, content, start)
    ensures 0 <= Width(m, fields[0])
    ensures UnparseFields(fields, m, content, start).0[1..] == UnparseFields(fields[1..], m, content, NextStart(fields, m, start)).0
    ensures UnparseFields(fields, m, content, start).1 == UnparseFields(fields[1..], m, content, NextStart(fields, m, start)).1
    ensures ReadAt(fields, m, content, start, UnparseFields(fields, m, content, start).0, 0)
  {
    assert fields[..0] == [];
    UnparseFieldsCons(fields, m, content, start);
    var rest := UnparseFields(fields[1..], m, content, NextStart(fields, m, start));
    assert ([ReadHead(fields, m, content, start)] + rest.0)[1..] == rest.0;
  }

  /** `FailsAt` of the tail, seen from the whole record. */
  lemma FailsAtShift(fields: seq<Field>, m: map<string, Tag>, content: string, start: nat, k: int, e: Error)
    requires 0 < k < |fields|
    requires FailsAt(fields[1..], m, content, NextStart(fields, m, start), k - 1, e)
    ensures FailsAt(fields, m, content, start, k, e)
  {
    var f := fields[k];
    assert f == fields[1..][k - 1];
    var t := Lookup(m, f.name);
    var a := start + SlotWidth(fields[..k], m);
    assert a == NextStart(fields, m, start) + SlotWidth(fields[1..][..k - 1], m) by {
      SlotWidthPrefix(fields, m, k);
    }
  }

  /** The position of the first failing field, with the error its slot gave. */
  function FirstFailure(fields: seq<Field>, m: map<string, Tag>, content: string, start: nat): (k: int)
    requires UnparseFields(fields, m, content, start).1.Some?
    ensures 0 <= k < |fields|
    ensures FailsAt(fields, m, content, start, k, UnparseFields(fields, m, content, start).1.value)
    ensures forall i :: 0 <= i < k ==> ReadAt(fields, m, content, start, UnparseFields(fields, m, content, start).0, i)
    ensures forall i :: k <= i < |fields| ==> UnparseFields(fields, m, content, start).0[i] == fields[i]
    decreases |fields|
  {
    if !HeadReads(fields, m, content, start) then
      UnparseFieldsStopsHere(fields, m, content, start);
      0
    else
      UnparseFieldsPasses(fields, m, content, start);
      var k := FirstFailure(fields[1..], m, content, NextStart(fields, m, start)) + 1;
      FailsAtShift(fields, m, content, start, k, UnparseFields(fields, m, content, start).1.value);
      ReadsBeforeShift(fields, m, content, start, k);
      UnchangedAfterShift(fields, m, content, start, k);
      k
  }

  /** The fields the tail read before position `k - 1` are, seen from the whole record, the fields read before `k`. */
  lemma ReadsBeforeShift(fields: seq<Field>, m: map<string, Tag>, content: string, start: nat, k: int)
    requires |fields| > 0 && HeadReads(fields, m, content, start)
    requires 0 < k <= |fields|
    requires forall i :: 0 <= i < k - 1 ==>
      ReadAt(fields[1..], m, content, NextStart(fields, m, start), UnparseFields(fields[1..], m, content, NextStart(fields, m, start)).0, i)
    ensures forall i :: 0 <= i < k ==> ReadAt(fields, m, content, start, UnparseFields(fields, m, content, start).0, i)
  {
    UnparseFieldsPasses(fields, m, content, start);
    forall i | 0 < i < k
      ensures ReadAt(fields, m, content, start, UnparseFields(fields, m, content, start).0, i)
    {
      ReadAtShift(fields, m, content, start, UnparseFields(fields, m, content, start).0, i);
    }
  }

  /** The fields the tail left unchanged from position `k - 1` on are, seen from the whole record, those from `k` on. */
  lemma UnchangedAfterShift(fields: seq<Field>, m: map<string, Tag>, content: string, start: nat, k: int)
    requires |fields| > 0 && HeadReads(fields, m, content, start)
    requires 0 < k <= |fields|
    requires forall i :: k - 1 <= i < |fields| - 1 ==>
      UnparseFields(fields[1..], m, content, NextStart(fields, m, start)).0[i] == fields[1..][i]
    ensures forall i :: k <= i < |fields| ==> UnparseFields(fields, m, content, start).0[i] == fields[i]
  {
    UnparseFieldsPasses(fields, m, content, start);
    var out := UnparseFields(fields, m, content, start).0;
    assert forall i :: k <= i < |fields| ==> out[i] == out[1..][i - 1] && fields[i] == fields[1..][i - 1];
  }

  /** Characters after the last slot are never looked at. */
  lemma {:induction false} UnparseIgnoresTrailing(fields: seq<Field>, m: map<string, Tag>, content: string, extra: string, start: nat)
    requires UnparseFields(fields, m, content, start).1 == None
    ensures UnparseFields(fields, m, content + extra, start) == UnparseFields(fields, m, content, start)
  {
    if |fields| > 0 {
      UnparseFieldsStep(fields, m, content, start);
      var t := Lookup(m, fields[0].name);
      if t != ZeroTag {
        assert (content + extra)[start..start + t.size] == content[start..start + t.size];
      }
      assert HeadReads(fields, m, content + extra, start);
      assert ReadHead(fields, m, content + extra, start) == ReadHead(fields, m, content, start);
      UnparseFieldsCons(fields, m, content, start);
      UnparseFieldsCons(fields, m, content + extra, start);
      UnparseIgnoresTrailing(fields[1..], m, content, extra, NextStart(fields, m, start));
    }
  }

  // ----------------------------------------------------- the record-level view

  /** `ParseValue` lays each slotted field's padded text at the sum of the widths before it. */
  lemma ParseValueSlots(rec: Record, c: TagCollection, i: int)
    requires ParseValue(rec, c).Success?
    requires 0 <= i < |rec.fields| && HasSlot(Tags(c), rec.fields[i].name)
    ensures RenderField(Lookup(Tags(c), rec.fields[i].name), rec.fields[i].value).Success?
    ensures TextAt(ParseValue(rec, c).value, SlotWidth(rec.fields[..i], Tags(c)), RenderField(Lookup(Tags(c), rec.fields[i].name), rec.fields[i].value).value)
  {
    RenderFieldsSlotAt(rec.fields, Tags(c), i);
  }

  /**
   * `line` is `fields` laid out under layout `m`: it is as long as the slots
   * added up, and every slotted field's padded text sits at the sum of the
   * widths of the fields before it.
   */
  predicate SlotsLaidOut(line: string, fields: seq<Field>, m: map<string, Tag>) {
    && |line| == SlotWidth(fields, m)
    && forall i :: 0 <= i < |fields| && HasSlot(m, fields[i].name) ==>
         && RenderField(Lookup(m, fields[i].name), fields[i].value).Success?
         && TextAt(line, SlotWidth(fields[..i], m), RenderField(Lookup(m, fields[i].name), fields[i].value).value)
  }

  /** A line `RenderFields` produces is its fields laid out slot by slot. */
  lemma RenderFieldsLaidOut(fields: seq<Field>, m: map<string, Tag>)
    ensures RenderFields(fields, m).Success? ==> SlotsLaidOut(RenderFields(fields, m).value, fields, m)
  {
    if RenderFields(fields, m).Success? {
      forall i | 0 <= i < |fields| && HasSlot(m, fields[i].name)
        ensures RenderField(Lookup(m, fields[i].name), fields[i].value).Success?
        ensures TextAt(RenderFields(fields, m).value, SlotWidth(fields[..i], m), RenderField(Lookup(m, fields[i].name), fields[i].value).value)
      {
        RenderFieldsSlotAt(fields, m, i);
      }
    }
  }

  /**
   * A successful `UnparseValue` reads every slotted field from its own
   * window of the line, leaves the other fields alone, and needs a line at
   * least as long as all the slots together.
   */
  lemma UnparseValueReads(rec: Record, c: TagCollection, content: string)
    requires UnparseValue(rec, c, content).err == None
    ensures SlotWidth(rec.fields, Tags(c)) <= |content|
    ensures forall i :: 0 <= i < |rec.fields| ==>
      ReadAt(rec.fields, Tags(c), content, 0, UnparseValue(rec, c, content).record.fields, i)
  {
    UnparseFieldsSlots(rec.fields, Tags(c), content, 0);
  }

  /**
   * A failed `UnparseValue` names the first field whose window is outside the
   * line or does not parse: the fields before it are already updated, it and
   * the fields after it keep their old values.
   */
  lemma UnparseValueFirstError(rec: Record, c: TagCollection, content: string)
    requires UnparseValue(rec, c, content).err.Some?
    ensures var d := UnparseValue(rec, c, content);
      exists k :: 0 <= k < |rec.fields|
        && FailsAt(rec.fields, Tags(c), content, 0, k, d.err.value)
        && (forall i :: 0 <= i < k ==> ReadAt(rec.fields, Tags(c), content, 0, d.record.fields, i))
        && (forall i :: k <= i < |rec.fields| ==> d.record.fields[i] == rec.fields[i])
  {
    var k := FirstFailure(rec.fields, Tags(c), content, 0);
  }

  /** Characters after the last slot do not change what `UnparseValue` reads. */
  lemma UnparseValueIgnoresTrailing(rec: Record, c: TagCollection, content: string, extra: string)
    requires UnparseValue(rec, c, content).err == None
    ensures UnparseValue(rec, c, content + extra) == UnparseValue(rec, c, content)
  {
    UnparseIgnoresTrailing(rec.fields, Tags(c), content, extra, 0);
  }
}
