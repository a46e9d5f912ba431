/**
 * The repository's own test tables, restated as facts about the model: each
 * lemma pins the model's output on one table of inputs to the text the
 * tests expect.
 */
module Fixtures {
  import opened Wrappers
  import opened GoStrings
  import opened GoStrconv
  import opened Pad
  import opened Types
  import opened Parsers
  import opened RoundTrip
  import opened PositionalLine

  /** The `Left` table: padding on the left, truncation, and both rejections. */
  lemma {:induction false} LeftTable()
    ensures Left("hello", 10, "*") == Success("*****hello")
    ensures Left("world", 5, "*") == Success("world")
    ensures Left("world", 6, "*") == Success("*world")
    ensures Left("", 5, "*") == Success("*****")
    ensures Left("longer string", 1, "*") == Success("l")
    ensures Left("teste error", -1, "*").Failure?
    ensures Left("teste error empty", 1, "").Failure?
  {
    PadTable();
  }

  /** The `Right` table: the same inputs, padded on the right. */
  lemma {:induction false} RightTable()
    ensures Right("hello", 10, "*") == Success("hello*****")
    ensures Right("world", 5, "*") == Success("world")
    ensures Right("world", 6, "*") == Success("world*")
    ensures Right("", 5, "*") == Success("*****")
    ensures Right("longer string", 1, "*") == Success("l")
    ensures Right("teste error", -1, "*").Failure?
    ensures Right("teste error empty", 1, "").Failure?
  {
    PadTable();
  }

  /** The rows the two padding tables share, on both sides. */
  lemma {:induction false} PadTable()
    ensures Left("hello", 10, "*") == Success("*****hello") && Right("hello", 10, "*") == Success("hello*****")
    ensures Left("world", 5, "*") == Success("world") && Right("world", 5, "*") == Success("world")
    ensures Left("world", 6, "*") == Success("*world") && Right("world", 6, "*") == Success("world*")
    ensures Left("", 5, "*") == Success("*****") && Right("", 5, "*") == Success("*****")
    ensures Left("longer string", 1, "*") == Success("l") && Right("longer string", 1, "*") == Success("l")
  {
    Stars();
    PadRow("hello", 10, "*", "*****", "*****hello", "hello*****");
    PadRow("world", 5, "*", "", "world", "world");
    PadRow("world", 6, "*", "*", "*world", "world*");
    PadRow("", 5, "*", "*****", "*****", "*****");
    Truncates("longer string", 1, "*");
    assert "longer string"[..1] == "l";
  }

  /** One row of a padding table: a text that fits, the fill it gets, and the two padded results. */
  lemma {:induction false} PadRow(str: string, size: int, pad: string, fill: string, left: string, right: string)
    requires |str| <= size && pad != "" && fill == Repeat(pad, size - |str|)
    requires left == fill + str && right == str + fill
    ensures Left(str, size, pad) == Success(left) && Right(str, size, pad) == Success(right)
  {
    PadsShortText(str, size, pad);
  }

  lemma {:induction false} Stars()
    ensures Repeat("*", 0) == "" && Repeat("*", 1) == "*" && Repeat("*", 5) == "*****"
  {
    assert Repeat("*", 1) == "*";
    assert Repeat("*", 3) == "***";
  }

  /** Converting without a tag and with `nofloat`: integers, 123.70 and booleans. */
  lemma {:induction false} ConvertTable()
    ensures Convert(Int(123), ZeroTag) == "123"
    ensures Convert(Fixed2(12370), ZeroTag) == "123.70"
    ensures Convert(Fixed2(12370), ZeroTag.(noFloat := true)) == "12370"
    ensures Convert(Bool(false), ZeroTag) == "0"
    ensures Convert(Bool(true), ZeroTag) == "1"
  {
    Nat123();
    Float12370(ZeroTag);
    Float12370(ZeroTag.(noFloat := true));
  }

  /** Comma-joined lists of two to four pieces, written out. */
  lemma {:induction false} JoinTwo(x0: string, x1: string)
    ensures Join([x0, x1], ",") == x0 + "," + x1
  {
    assert [x0, x1][1..] == [x1];
  }

  lemma {:induction false} JoinThree(x0: string, x1: string, x2: string)
    ensures Join([x0, x1, x2], ",") == x0 + "," + x1 + "," + x2
  {
    assert [x1, x2][1..] == [x2];
    assert Join([x1, x2], ",") == x1 + "," + x2;
    assert [x0, x1, x2][1..] == [x1, x2];
  }

  lemma {:induction false} JoinFour(x0: string, x1: string, x2: string, x3: string)
    ensures Join([x0, x1, x2, x3], ",") == x0 + "," + x1 + "," + x2 + "," + x3
  {
    assert [x2, x3][1..] == [x3];
    assert Join([x2, x3], ",") == x2 + "," + x3;
    assert [x1, x2, x3][1..] == [x2, x3];
    assert Join([x1, x2, x3], ",") == x1 + "," + x2 + "," + x3;
    assert [x0, x1, x2, x3][1..] == [x1, x2, x3];
  }

  /** An annotation given as its comma-separated pieces: the first is the size, the others set the flags they name. */
  lemma {:induction false} TagFromPieces(name: string, text: string, parts: seq<string>, size: int)
    requires |parts| >= 1 && forall k :: 0 <= k < |parts| ==> ',' !in parts[k]
    requires text == Join(parts, ",") && ParseInt(parts[0]) == Some(size)
    ensures ParseTag(name, text) == Success(Tag(name, size, "leftpad" in parts[1..], "zerofill" in parts[1..], "nofloat" in parts[1..]))
  {
    SplitJoin(parts, ',');
  }

  /**
   * An annotation of a size and up to three modifiers, written out: each flag
   * is set exactly when one of the modifiers names it.
   */
  lemma {:induction false} TagFromOne(name: string, s: string, size: int)
    requires ParseInt(s) == Some(size) && ',' !in s
    ensures ParseTag(name, s) == Success(Tag(name, size, false, false, false))
  {
    assert Join([s], ",") == s;
    TagFromPieces(name, s, [s], size);
    assert [s][1..] == [];
  }

  lemma {:induction false} TagFromTwo(name: string, s: string, m1: string, size: int)
    requires ParseInt(s) == Some(size) && ',' !in s && ',' !in m1
    ensures ParseTag(name, s + "," + m1) == Success(Tag(name, size, m1 == "leftpad", m1 == "zerofill", m1 == "nofloat"))
  {
    JoinTwo(s, m1);
    TagFromPieces(name, s + "," + m1, [s, m1], size);
    assert [s, m1][1..] == [m1];
  }

  lemma {:induction false} TagFromThree(name: string, s: string, m1: string, m2: string, size: int)
    requires ParseInt(s) == Some(size) && ',' !in s && ',' !in m1 && ',' !in m2
    ensures ParseTag(name, s + "," + m1 + "," + m2) == Success(Tag(name, size, m1 == "leftpad" || m2 == "leftpad", m1 == "zerofill" || m2 == "zerofill", m1 == "nofloat" || m2 == "nofloat"))
  {
    JoinThree(s, m1, m2);
    TagFromPieces(name, s + "," + m1 + "," + m2, [s, m1, m2], size);
    assert [s, m1, m2][1..] == [m1, m2];
  }

  lemma {:induction false} TagFromFour(name: string, s: string, m1: string, m2: string, m3: string, size: int)
    requires ParseInt(s) == Some(size) && ',' !in s && ',' !in m1 && ',' !in m2 && ',' !in m3
    ensures ParseTag(name, s + "," + m1 + "," + m2 + "," + m3) == Success(Tag(name, size, m1 == "leftpad" || m2 == "leftpad" || m3 == "leftpad", m1 == "zerofill" || m2 == "zerofill" || m3 == "zerofill", m1 == "nofloat" || m2 == "nofloat" || m3 == "nofloat"))
  {
    JoinFour(s, m1, m2, m3);
    TagFromPieces(name, s + "," + m1 + "," + m2 + "," + m3, [s, m1, m2, m3], size);
    assert [s, m1, m2, m3][1..] == [m1, m2, m3];
  }

  lemma {:induction false} TagOf10ZerofillLeftpad(name: string)
    ensures ParseTag(name, "10,zerofill,leftpad") == Success(Tag(name, 10, true, true, false))
  {
    Int10();
    assert "10" + "," + "zerofill" + "," + "leftpad" == "10,zerofill,leftpad";
    TagFromThree(name, "10", "zerofill", "leftpad", 10);
  }

  lemma {:induction false} TagOf7Nofloat(name: string)
    ensures ParseTag(name, "7,nofloat") == Success(Tag(name, 7, false, false, true))
  {
    assert ParseInt("7") == Some(7);
    assert "7" + "," + "nofloat" == "7,nofloat";
    TagFromTwo(name, "7", "nofloat", 7);
  }

  lemma {:induction false} Int10()
    ensures ParseInt("10") == Some(10)
  {
    assert FormatNat(10) == "10";
    ParseIntLeadingZeros("", 10);
    assert "" + "10" == "10";
  }

  /** The struct of the `ParseTags` test: two annotated fields and one without annotation. */
  const ParseTagsInput := Record("TestParseTagsStruct", [
    Field("Field1", "10,zerofill,leftpad", Str("123")),
    Field("Field2", "7,nofloat", Fixed2(45600)),
    Field("Field3", "", Bool(true))])

  /** A record whose first two fields carry good annotations and whose third has none keeps two tags. */
  lemma {:induction false} TwoTagsOneBare(rec: Record, t1: Tag, t2: Tag)
    requires |rec.fields| == 3
    requires rec.fields[0].annotation != "" && ParseTag(rec.fields[0].name, rec.fields[0].annotation) == Success(t1)
    requires rec.fields[1].annotation != "" && ParseTag(rec.fields[1].name, rec.fields[1].annotation) == Success(t2)
    requires rec.fields[2].annotation == ""
    ensures ParseTags(rec) == Success(TagCollection(rec.typeName, [t1, t2]))
  {
    var fs := rec.fields;
    assert fs[1..][0] == fs[1] && fs[1..][1..][0] == fs[2];
    assert fs[1..][1..][1..] == [];
    assert ParseFieldTags(fs[1..][1..]) == Success([]);
    assert [t2] + [] == [t2];
    assert ParseFieldTags(fs[1..]) == Success([t2]);
    assert [t1] + [t2] == [t1, t2];
  }

  /** `ParseTags` keeps one tag per annotated field, with its size and flags. */
  lemma {:induction false} ParseTagsTable()
    ensures ParseTags(ParseTagsInput) == Success(TagCollection("TestParseTagsStruct", [
      Tag("Field1", 10, true, true, false),
      Tag("Field2", 7, false, false, true)]))
  {
    TagOf10ZerofillLeftpad("Field1");
    TagOf7Nofloat("Field2");
    TwoTagsOneBare(ParseTagsInput, Tag("Field1", 10, true, true, false), Tag("Field2", 7, false, false, true));
  }

  /** The `Tags` table: each tag of a collection is found under its own name, and nothing else is. */
  lemma {:induction false} TagsTable()
    ensures Tags(TagCollection("", [Tag("Field1", 10, true, true, false), Tag("Field2", 5, false, false, true)]))
         == map["Field1" := Tag("Field1", 10, true, true, false), "Field2" := Tag("Field2", 5, false, false, true)]
    ensures Tags(TagCollection("", [Tag("Field3", 15, false, false, false)]))
         == map["Field3" := Tag("Field3", 15, false, false, false)]
  {
    var t1, t2, t3 := Tag("Field1", 10, true, true, false), Tag("Field2", 5, false, false, true), Tag("Field3", 15, false, false, false);
    assert [t1, t2][1..] == [t2] && [t2][1..] == [] && [t3][1..] == [];
  }

  /** The results of a slice of two records are the two records' results. */
  lemma {:induction false} ElementsOfTwo(a: Record, b: Record)
    ensures ElementResults([a, b]) == [MarshalStruct(a), MarshalStruct(b)]
  {
    var rs := ElementResults([a, b]);
    assert [a, b][0] == a && [a, b][1] == b;
    assert rs[0] == MarshalStruct(a) && rs[1] == MarshalStruct(b);
  }

  /** Two successful results collect to their two lines. */
  lemma {:induction false} CollectTwo(x: Result<string, Error>, y: Result<string, Error>)
    requires x.Success? && y.Success?
    ensures CollectLines([x, y]) == Success([x.value, y.value])
  {
    var r := CollectLines([x, y]);
    assert [x, y][0].Success? && [x, y][1].Success?;
    assert r.Success? && |r.value| == 2;
    assert r.value[0] == x.value && r.value[1] == y.value;
    assert r.value == [x.value, y.value];
  }

  /** Two lines joined by a newline. */
  lemma {:induction false} JoinLines(x: string, y: string)
    ensures Join([x, y], "\n") == x + "\n" + y
  {
    assert [x, y][1..] == [y];
  }

  /** The slice of the `Marshal` test: the two elements' lines joined by a newline, none at the end. */
  lemma {:induction false} MarshalTable()
    ensures MarshalAll([MarshalHelloInput, Marshal456Input]).Success?
    ensures Join(MarshalAll([MarshalHelloInput, Marshal456Input]).value, "\n") == "hello     12300\n456        4500"
  {
    MarshalHello();
    Marshal456();
    ElementsOfTwo(MarshalHelloInput, Marshal456Input);
    CollectTwo(Success("hello     12300"), Success("456        4500"));
    JoinLines("hello     12300", "456        4500");
    MarshalTableLine();
  }

  lemma {:induction false} MarshalTableLine()
    ensures "hello     12300" + "\n" + "456        4500" == "hello     12300\n456        4500"
  {
  }

  // ------------------------------------------------------- whole records

  /** The slot texts laid end to end. */
  function Concat(pieces: seq<string>): string {
    if |pieces| == 0 then "" else pieces[0] + Concat(pieces[1..])
  }

  /** Every field carries an annotation that parses to the matching tag. */
  predicate TaggedAs(fields: seq<Field>, tags: seq<Tag>) {
    && |fields| == |tags|
    && (|fields| > 0 ==>
         && fields[0].annotation != ""
         && ParseTag(fields[0].name, fields[0].annotation) == Success(tags[0])
         && TaggedAs(fields[1..], tags[1..]))
  }

  /** Fields tagged that way give exactly those tags, each named after its field. */
  lemma AllTagged(fields: seq<Field>, tags: seq<Tag>)
    requires TaggedAs(fields, tags)
    ensures ParseFieldTags(fields) == Success(tags)
    ensures forall i :: 0 <= i < |fields| ==> tags[i].name == fields[i].name
  {
    TaggedParses(fields, tags);
    TaggedNames(fields, tags);
  }

  lemma {:induction false} TaggedParses(fields: seq<Field>, tags: seq<Tag>)
    requires TaggedAs(fields, tags)
    ensures ParseFieldTags(fields) == Success(tags)
  {
    if |fields| > 0 {
      TaggedParses(fields[1..], tags[1..]);
      assert tags == [tags[0]] + tags[1..];
    }
  }

  lemma {:induction false} TaggedNames(fields: seq<Field>, tags: seq<Tag>)
    requires TaggedAs(fields, tags)
    ensures forall i :: 0 <= i < |fields| ==> tags[i].name == fields[i].name
  {
    if |fields| > 0 {
      TaggedNames(fields[1..], tags[1..]);
      forall i | 1 <= i < |fields|
        ensures tags[i].name == fields[i].name
      {
        assert fields[1..][i - 1] == fields[i] && tags[1..][i - 1] == tags[i];
      }
    }
  }

  /** With distinct names, every tag is found under its own name. */
  lemma DistinctLookup(tags: seq<Tag>, i: int)
    requires forall a, b :: 0 <= a < b < |tags| ==> tags[a].name != tags[b].name
    requires 0 <= i < |tags|
    ensures Lookup(TagMap(tags), tags[i].name) == tags[i]
  {
    assert LastWithName(tags, i);
  }

  /** Each field renders under the matching tag to the matching text. */
  predicate RenderedAs(fields: seq<Field>, tags: seq<Tag>, pieces: seq<string>) {
    && |fields| == |tags| == |pieces|
    && (|fields| > 0 ==>
         && RenderField(tags[0], fields[0].value) == Success(pieces[0])
         && RenderedAs(fields[1..], tags[1..], pieces[1..]))
  }

  /** When every field's slot is found under its name and renders to a known text, the line is those texts in order. */
  lemma {:induction false} RenderAll(fields: seq<Field>, tags: seq<Tag>, pieces: seq<string>, m: map<string, Tag>)
    requires RenderedAs(fields, tags, pieces)
    requires forall i :: 0 <= i < |fields| ==> Lookup(m, fields[i].name) == tags[i] && tags[i] != ZeroTag
    ensures RenderFields(fields, m) == Success(Concat(pieces))
  {
    if |fields| > 0 {
      assert forall i :: 1 <= i < |fields| ==> fields[1..][i - 1] == fields[i] && tags[1..][i - 1] == tags[i];
      RenderAll(fields[1..], tags[1..], pieces[1..], m);
      assert HasSlot(m, fields[0].name);
    }
  }

  /**
   * A record whose annotations parse to non-zero tags with distinct names,
   * each field rendering to a known text: its layout is those tags, and
   * `marshalStruct` gives the texts laid end to end.
   */
  lemma MarshalKnown(rec: Record, tags: seq<Tag>, pieces: seq<string>)
    requires TaggedAs(rec.fields, tags) && RenderedAs(rec.fields, tags, pieces)
    requires forall i :: 0 <= i < |tags| ==> tags[i] != ZeroTag
    requires forall a, b :: 0 <= a < b < |tags| ==> tags[a].name != tags[b].name
    ensures ParseTags(rec) == Success(TagCollection(rec.typeName, tags))
    ensures MarshalStruct(rec) == Success(Concat(pieces))
  {
    AllTagged(rec.fields, tags);
    var m := TagMap(tags);
    forall i | 0 <= i < |tags|
      ensures Lookup(m, rec.fields[i].name) == tags[i]
    {
      DistinctLookup(tags, i);
    }
    RenderAll(rec.fields, tags, pieces, m);
  }

  /** A value whose text fits its slot renders to that text and the fill characters, on the side the tag says. */
  lemma {:induction false} Slot(t: Tag, v: Value, text: string, pad: string, expected: string)
    requires Convert(v, t) == text && |text| + |pad| == t.size
    requires pad == seq(|pad|, _ => if t.zeroFill then '0' else ' ')
    requires expected == if t.leftPad then pad + text else text + pad
    ensures RenderField(t, v) == Success(expected)
  {
    RenderFieldShape(t, v);
    RepeatOne(if t.zeroFill then '0' else ' ', |pad|);
  }

  /** One annotated field, the tag its annotation parses to, and the slot text it renders to. */
  predicate LaidOut(f: Field, t: Tag, p: string) {
    && f.name != "" && f.annotation != ""
    && ParseTag(f.name, f.annotation) == Success(t)
    && RenderField(t, f.value) == Success(p)
  }

  /** No field of `fields` is called `name`. */
  predicate NotNamed(name: string, fields: seq<Field>) {
    |fields| == 0 || (fields[0].name != name && NotNamed(name, fields[1..]))
  }

  /** Fields with distinct names, each laid out as the matching tag and text. */
  predicate LaidOutAll(fields: seq<Field>, tags: seq<Tag>, pieces: seq<string>) {
    && |fields| == |tags| == |pieces|
    && (|fields| > 0 ==>
         && LaidOut(fields[0], tags[0], pieces[0])
         && NotNamed(fields[0].name, fields[1..])
         && LaidOutAll(fields[1..], tags[1..], pieces[1..]))
  }

  lemma {:induction false} NotNamedCons(name: string, g: Field, gs: seq<Field>)
    requires g.name != name && NotNamed(name, gs)
    ensures NotNamed(name, [g] + gs)
  {
    assert ([g] + gs)[1..] == gs;
  }

  /**
   * A laid-out field in front of laid-out fields that do not share its name.
   */
  lemma {:induction false} LaidOutCons(f: Field, t: Tag, p: string, fs: seq<Field>, ts: seq<Tag>, ps: seq<string>)
    requires LaidOut(f, t, p) && NotNamed(f.name, fs) && LaidOutAll(fs, ts, ps)
    ensures LaidOutAll([f] + fs, [t] + ts, [p] + ps)
    ensures Concat([p] + ps) == p + Concat(ps)
  {
    assert ([f] + fs)[1..] == fs && ([t] + ts)[1..] == ts && ([p] + ps)[1..] == ps;
  }

  lemma {:induction false} NotNamedAll(name: string, fields: seq<Field>)
    requires NotNamed(name, fields)
    ensures forall i :: 0 <= i < |fields| ==> fields[i].name != name
  {
    if |fields| > 0 {
      NotNamedAll(name, fields[1..]);
      assert forall i :: 1 <= i < |fields| ==> fields[i] == fields[1..][i - 1];
    }
  }

  /** Laid-out fields meet every demand of `MarshalKnown`. */
  lemma {:induction false} LaidOutParts(fields: seq<Field>, tags: seq<Tag>, pieces: seq<string>)
    requires LaidOutAll(fields, tags, pieces)
    ensures TaggedAs(fields, tags) && RenderedAs(fields, tags, pieces)
    ensures forall i :: 0 <= i < |tags| ==> tags[i].name == fields[i].name && tags[i] != ZeroTag
    ensures forall a, b :: 0 <= a < b < |tags| ==> tags[a].name != tags[b].name
  {
    if |fields| > 0 {
      LaidOutParts(fields[1..], tags[1..], pieces[1..]);
      NotNamedAll(fields[0].name, fields[1..]);
      assert forall i :: 1 <= i < |fields| ==> fields[i] == fields[1..][i - 1] && tags[i] == tags[1..][i - 1];
    }
  }

  /** Sequences built up by `LaidOutCons`, written out. */
  lemma ConsOne<T>(x0: T)
    ensures [x0] + [] == [x0]
  {
  }

  lemma ConsTwo<T>(x0: T, x1: T)
    ensures [x0] + [x1] == [x0, x1]
  {
  }

  lemma ConsThree<T>(x0: T, x1: T, x2: T)
    ensures [x0] + [x1, x2] == [x0, x1, x2]
  {
  }

  lemma ConsFour<T>(x0: T, x1: T, x2: T, x3: T)
    ensures [x0] + [x1, x2, x3] == [x0, x1, x2, x3]
  {
  }

  /** A record of laid-out fields: its layout is their tags, and its line their texts in order. */
  lemma {:induction false} MarshalLaidOut(rec: Record, tags: seq<Tag>, pieces: seq<string>)
    requires LaidOutAll(rec.fields, tags, pieces)
    ensures ParseTags(rec) == Success(TagCollection(rec.typeName, tags))
    ensures MarshalStruct(rec) == Success(Concat(pieces))
  {
    LaidOutParts(rec.fields, tags, pieces);
    MarshalKnown(rec, tags, pieces);
  }

  /** The line of a few fields is their texts in order. */
  lemma {:induction false} ConcatOne(x0: string)
    ensures Concat([x0]) == x0
  {
    assert Concat([]) == "";
    assert [x0][1..] == [];
    assert Concat([x0]) == x0;
  }

  lemma {:induction false} ConcatTwo(x0: string, x1: string)
    ensures Concat([x0, x1]) == x0 + x1
  {
    assert Concat([]) == "";
    assert [x1][1..] == [];
    assert Concat([x1]) == x1;
    assert [x0, x1][1..] == [x1];
    assert Concat([x0, x1]) == x0 + x1;
  }

  lemma {:induction false} ConcatThree(x0: string, x1: string, x2: string)
    ensures Concat([x0, x1, x2]) == x0 + x1 + x2
  {
    assert Concat([]) == "";
    assert [x2][1..] == [];
    assert Concat([x2]) == x2;
    assert [x1, x2][1..] == [x2];
    assert Concat([x1, x2]) == x1 + x2;
    assert [x0, x1, x2][1..] == [x1, x2];
    assert Concat([x0, x1, x2]) == x0 + x1 + x2;
  }

  lemma {:induction false} ConcatFour(x0: string, x1: string, x2: string, x3: string)
    ensures Concat([x0, x1, x2, x3]) == x0 + x1 + x2 + x3
  {
    assert Concat([]) == "";
    assert [x3][1..] == [];
    assert Concat([x3]) == x3;
    assert [x2, x3][1..] == [x3];
    assert Concat([x2, x3]) == x2 + x3;
    assert [x1, x2, x3][1..] == [x2, x3];
    assert Concat([x1, x2, x3]) == x1 + x2 + x3;
    assert [x0, x1, x2, x3][1..] == [x1, x2, x3];
    assert Concat([x0, x1, x2, x3]) == x0 + x1 + x2 + x3;
  }

  /** Laid-out fields with pairwise distinct names, listed. */
  lemma {:induction false} LaidOne(f0: Field, t0: Tag, p0: string)
    requires LaidOut(f0, t0, p0)
    ensures LaidOutAll([f0], [t0], [p0])
  {
    ConsOne(f0); ConsOne(t0); ConsOne(p0);
    LaidOutCons(f0, t0, p0, [], [], []);
  }

  lemma {:induction false} LaidTwo(f0: Field, f1: Field, t0: Tag, t1: Tag, p0: string, p1: string)
    requires LaidOut(f0, t0, p0)
      && LaidOut(f1, t1, p1)
      && f0.name != f1.name
    ensures LaidOutAll([f0, f1], [t0, t1], [p0, p1])
  {
    ConsTwo(f0, f1); ConsTwo(t0, t1); ConsTwo(p0, p1); ConsOne(f1);
    LaidOne(f1, t1, p1);
    NotNamedCons(f0.name, f1, []);
    LaidOutCons(f0, t0, p0, [f1], [t1], [p1]);
  }

  lemma {:induction false} LaidThree(f0: Field, f1: Field, f2: Field, t0: Tag, t1: Tag, t2: Tag, p0: string, p1: string, p2: string)
    requires LaidOut(f0, t0, p0)
      && LaidOut(f1, t1, p1)
      && LaidOut(f2, t2, p2)
      && f0.name != f1.name
      && f0.name != f2.name
      && f1.name != f2.name
    ensures LaidOutAll([f0, f1, f2], [t0, t1, t2], [p0, p1, p2])
  {
    ConsThree(f0, f1, f2); ConsThree(t0, t1, t2); ConsThree(p0, p1, p2); ConsTwo(f1, f2); ConsOne(f2);
    LaidTwo(f1, f2, t1, t2, p1, p2);
    NotNamedCons(f0.name, f2, []);
    NotNamedCons(f0.name, f1, [f2]);
    LaidOutCons(f0, t0, p0, [f1, f2], [t1, t2], [p1, p2]);
  }

  lemma {:induction false} LaidFour(f0: Field, f1: Field, f2: Field, f3: Field, t0: Tag, t1: Tag, t2: Tag, t3: Tag, p0: string, p1: string, p2: string, p3: string)
    requires LaidOut(f0, t0, p0)
      && LaidOut(f1, t1, p1)
      && LaidOut(f2, t2, p2)
      && LaidOut(f3, t3, p3)
      && f0.name != f1.name
      && f0.name != f2.name
      && f0.name != f3.name
      && f1.name != f2.name
      && f1.name != f3.name
      && f2.name != f3.name
    ensures LaidOutAll([f0, f1, f2, f3], [t0, t1, t2, t3], [p0, p1, p2, p3])
  {
    ConsFour(f0, f1, f2, f3); ConsFour(t0, t1, t2, t3); ConsFour(p0, p1, p2, p3);
    ConsThree(f1, f2, f3); ConsTwo(f2, f3); ConsOne(f3);
    LaidThree(f1, f2, f3, t1, t2, t3, p1, p2, p3);
    NotNamedCons(f0.name, f3, []);
    NotNamedCons(f0.name, f2, [f3]);
    NotNamedCons(f0.name, f1, [f2, f3]);
    LaidOutCons(f0, t0, p0, [f1, f2, f3], [t1, t2, t3], [p1, p2, p3]);
  }

  /**
   * A record of one field, each laid out as given: its layout is the tags and its
   * line the texts in order.
   */
  lemma {:induction false} OneField(rec: Record, t0: Tag, p0: string)
    requires |rec.fields| == 1
      && LaidOut(rec.fields[0], t0, p0)
    ensures ParseTags(rec) == Success(TagCollection(rec.typeName, [t0]))
    ensures MarshalStruct(rec) == Success(p0)
  {
    LaidOne(rec.fields[0], t0, p0);
    assert rec.fields == [rec.fields[0]];
    MarshalLaidOut(rec, [t0], [p0]);
    ConcatOne(p0);
  }

  /**
   * A record of two fields, each laid out as given: its layout is the tags and its
   * line the texts in order.
   */
  lemma {:induction false} TwoFields(rec: Record, t0: Tag, t1: Tag, p0: string, p1: string)
    requires |rec.fields| == 2
      && LaidOut(rec.fields[0], t0, p0)
      && LaidOut(rec.fields[1], t1, p1)
      && rec.fields[0].name != rec.fields[1].name
    ensures ParseTags(rec) == Success(TagCollection(rec.typeName, [t0, t1]))
    ensures MarshalStruct(rec) == Success(p0 + p1)
  {
    LaidTwo(rec.fields[0], rec.fields[1], t0, t1, p0, p1);
    assert rec.fields == [rec.fields[0], rec.fields[1]];
    MarshalLaidOut(rec, [t0, t1], [p0, p1]);
    ConcatTwo(p0, p1);
  }

  /**
   * A record of three fields, each laid out as given: its layout is the tags and its
   * line the texts in order.
   */
  lemma {:induction false} ThreeFields(rec: Record, t0: Tag, t1: Tag, t2: Tag, p0: string, p1: string, p2: string)
    requires |rec.fields| == 3
      && LaidOut(rec.fields[0], t0, p0)
      && LaidOut(rec.fields[1], t1, p1)
      && LaidOut(rec.fields[2], t2, p2)
      && rec.fields[0].name != rec.fields[1].name
      && rec.fields[0].name != rec.fields[2].name
      && rec.fields[1].name != rec.fields[2].name
    ensures ParseTags(rec) == Success(TagCollection(rec.typeName, [t0, t1, t2]))
    ensures MarshalStruct(rec) == Success(p0 + p1 + p2)
  {
    LaidThree(rec.fields[0], rec.fields[1], rec.fields[2], t0, t1, t2, p0, p1, p2);
    assert rec.fields == [rec.fields[0], rec.fields[1], rec.fields[2]];
    MarshalLaidOut(rec, [t0, t1, t2], [p0, p1, p2]);
    ConcatThree(p0, p1, p2);
  }

  /**
   * A record of four fields, each laid out as given: its layout is the tags and its
   * line the texts in order.
   */
  lemma {:induction false} FourFields(rec: Record, t0: Tag, t1: Tag, t2: Tag, t3: Tag, p0: string, p1: string, p2: string, p3: string)
    requires |rec.fields| == 4
      && LaidOut(rec.fields[0], t0, p0)
      && LaidOut(rec.fields[1], t1, p1)
      && LaidOut(rec.fields[2], t2, p2)
      && LaidOut(rec.fields[3], t3, p3)
      && rec.fields[0].name != rec.fields[1].name
      && rec.fields[0].name != rec.fields[2].name
      && rec.fields[0].name != rec.fields[3].name
      && rec.fields[1].name != rec.fields[2].name
      && rec.fields[1].name != rec.fields[3].name
      && rec.fields[2].name != rec.fields[3].name
    ensures ParseTags(rec) == Success(TagCollection(rec.typeName, [t0, t1, t2, t3]))
    ensures MarshalStruct(rec) == Success(p0 + p1 + p2 + p3)
  {
    LaidFour(rec.fields[0], rec.fields[1], rec.fields[2], rec.fields[3], t0, t1, t2, t3, p0, p1, p2, p3);
    assert rec.fields == [rec.fields[0], rec.fields[1], rec.fields[2], rec.fields[3]];
    MarshalLaidOut(rec, [t0, t1, t2, t3], [p0, p1, p2, p3]);
    ConcatFour(p0, p1, p2, p3);
  }

  /** A float of `h` hundredths converts to its whole part, the point unless `nofloat`, and its cents. */
  lemma {:induction false} FloatText(h: nat, t: Tag, whole: string, cents: string)
    requires FormatNat(h / 100) == whole && Cents(h) == cents
    ensures Convert(Fixed2(h), t) == if t.noFloat then whole + cents else whole + "." + cents
  {
    DigitsNoPoint(whole);
    IndexAfter(whole, '.', cents);
    assert FormatFixed2(h) == whole + "." + cents;
  }

  /** `Repeat` of one character, as a sequence of that character. */
  lemma {:induction false} RepeatOne(c: char, n: nat)
    ensures Repeat([c], n) == seq(n, _ => c)
  {
    if n > 0 {
      RepeatOne(c, n - 1);
    }
  }

  // ------------------------------------------------------- test tables

  lemma {:induction false} Int15()
    ensures ParseInt("15") == Some(15)
  {
    assert FormatNat(15) == "15";
    ParseIntLeadingZeros("", 15);
    assert "" + "15" == "15";
  }

  lemma {:induction false} TagOf7NofloatLeftpad(name: string)
    ensures ParseTag(name, "7,nofloat,leftpad") == Success(Tag(name, 7, true, false, true))
  {
    assert "7" + "," + "nofloat" + "," + "leftpad" == "7,nofloat,leftpad";
    assert ParseInt("7") == Some(7);
    TagFromThree(name, "7", "nofloat", "leftpad", 7);
  }

  lemma {:induction false} TagOf7Leftpad(name: string)
    ensures ParseTag(name, "7,leftpad") == Success(Tag(name, 7, true, false, false))
  {
    assert "7" + "," + "leftpad" == "7,leftpad";
    assert ParseInt("7") == Some(7);
    TagFromTwo(name, "7", "leftpad", 7);
  }

  lemma {:induction false} TagOf10(name: string)
    ensures ParseTag(name, "10") == Success(Tag(name, 10, false, false, false))
  {
    Int10();
    TagFromOne(name, "10", 10);
  }

  lemma {:induction false} TagOf1(name: string)
    ensures ParseTag(name, "1") == Success(Tag(name, 1, false, false, false))
  {
    assert ParseInt("1") == Some(1);
    TagFromOne(name, "1", 1);
  }

  lemma {:induction false} TagOf10Leftpad(name: string)
    ensures ParseTag(name, "10,leftpad") == Success(Tag(name, 10, true, false, false))
  {
    assert "10" + "," + "leftpad" == "10,leftpad";
    Int10();
    TagFromTwo(name, "10", "leftpad", 10);
  }

  lemma {:induction false} TagOf2Leftpad(name: string)
    ensures ParseTag(name, "2,leftpad") == Success(Tag(name, 2, true, false, false))
  {
    assert "2" + "," + "leftpad" == "2,leftpad";
    assert ParseInt("2") == Some(2);
    TagFromTwo(name, "2", "leftpad", 2);
  }

  lemma {:induction false} TagOf10Zerofill(name: string)
    ensures ParseTag(name, "10,zerofill") == Success(Tag(name, 10, false, true, false))
  {
    assert "10" + "," + "zerofill" == "10,zerofill";
    Int10();
    TagFromTwo(name, "10", "zerofill", 10);
  }

  lemma {:induction false} TagOf1Zerofill(name: string)
    ensures ParseTag(name, "1,zerofill") == Success(Tag(name, 1, false, true, false))
  {
    assert "1" + "," + "zerofill" == "1,zerofill";
    assert ParseInt("1") == Some(1);
    TagFromTwo(name, "1", "zerofill", 1);
  }

  lemma {:induction false} TagOf2ZerofillLeftpad(name: string)
    ensures ParseTag(name, "2,zerofill,leftpad") == Success(Tag(name, 2, true, true, false))
  {
    assert "2" + "," + "zerofill" + "," + "leftpad" == "2,zerofill,leftpad";
    assert ParseInt("2") == Some(2);
    TagFromThree(name, "2", "zerofill", "leftpad", 2);
  }

  lemma {:induction false} TagOf10Nofloat(name: string)
    ensures ParseTag(name, "10,nofloat") == Success(Tag(name, 10, false, false, true))
  {
    assert "10" + "," + "nofloat" == "10,nofloat";
    Int10();
    TagFromTwo(name, "10", "nofloat", 10);
  }

  lemma {:induction false} TagOf1Nofloat(name: string)
    ensures ParseTag(name, "1,nofloat") == Success(Tag(name, 1, false, false, true))
  {
    assert "1" + "," + "nofloat" == "1,nofloat";
    assert ParseInt("1") == Some(1);
    TagFromTwo(name, "1", "nofloat", 1);
  }

  lemma {:induction false} TagOf10NofloatLeftpad(name: string)
    ensures ParseTag(name, "10,nofloat,leftpad") == Success(Tag(name, 10, true, false, true))
  {
    assert "10" + "," + "nofloat" + "," + "leftpad" == "10,nofloat,leftpad";
    Int10();
    TagFromThree(name, "10", "nofloat", "leftpad", 10);
  }

  lemma {:induction false} TagOf2NofloatLeftpad(name: string)
    ensures ParseTag(name, "2,nofloat,leftpad") == Success(Tag(name, 2, true, false, true))
  {
    assert "2" + "," + "nofloat" + "," + "leftpad" == "2,nofloat,leftpad";
    assert ParseInt("2") == Some(2);
    TagFromThree(name, "2", "nofloat", "leftpad", 2);
  }

  lemma {:induction false} TagOf10NofloatLeftpadZerofill(name: string)
    ensures ParseTag(name, "10,nofloat,leftpad,zerofill") == Success(Tag(name, 10, true, true, true))
  {
    assert "10" + "," + "nofloat" + "," + "leftpad" + "," + "zerofill" == "10,nofloat,leftpad,zerofill";
    Int10();
    TagFromFour(name, "10", "nofloat", "leftpad", "zerofill", 10);
  }

  lemma {:induction false} TagOf2NofloatLeftpadZerofill(name: string)
    ensures ParseTag(name, "2,nofloat,leftpad,zerofill") == Success(Tag(name, 2, true, true, true))
  {
    assert "2" + "," + "nofloat" + "," + "leftpad" + "," + "zerofill" == "2,nofloat,leftpad,zerofill";
    assert ParseInt("2") == Some(2);
    TagFromFour(name, "2", "nofloat", "leftpad", "zerofill", 2);
  }

  lemma {:induction false} TagOf5NofloatLeftpad(name: string)
    ensures ParseTag(name, "5,nofloat,leftpad") == Success(Tag(name, 5, true, false, true))
  {
    assert "5" + "," + "nofloat" + "," + "leftpad" == "5,nofloat,leftpad";
    assert ParseInt("5") == Some(5);
    TagFromThree(name, "5", "nofloat", "leftpad", 5);
  }

  lemma {:induction false} TagOf15(name: string)
    ensures ParseTag(name, "15") == Success(Tag(name, 15, false, false, false))
  {
    Int15();
    TagFromOne(name, "15", 15);
  }

  lemma {:induction false} Nat45()
    ensures FormatNat(45) == "45"
  {
    assert FormatNat(4) == "4";
  }

  lemma {:induction false} Nat123()
    ensures FormatNat(123) == "123"
  {
    assert FormatNat(1) == "1";
    assert FormatNat(12) == "12";
  }

  lemma {:induction false} Nat456()
    ensures FormatNat(456) == "456"
  {
    assert FormatNat(4) == "4";
    assert FormatNat(45) == "45";
  }

  lemma {:induction false} Float4500(t: Tag)
    ensures Convert(Fixed2(4500), t) == if t.noFloat then "4500" else "45.00"
  {
    assert "45" + "." + "00" == "45.00" && "45" + "00" == "4500";
    Nat45();
    FloatText(4500, t, "45", "00");
  }

  lemma {:induction false} Float12300(t: Tag)
    ensures Convert(Fixed2(12300), t) == if t.noFloat then "12300" else "123.00"
  {
    assert "123" + "." + "00" == "123.00" && "123" + "00" == "12300";
    Nat123();
    FloatText(12300, t, "123", "00");
  }

  lemma {:induction false} Float12370(t: Tag)
    ensures Convert(Fixed2(12370), t) == if t.noFloat then "12370" else "123.70"
  {
    assert "123" + "." + "70" == "123.70" && "123" + "70" == "12370";
    Nat123();
    FloatText(12370, t, "123", "70");
  }

  lemma {:induction false} Float45600(t: Tag)
    ensures Convert(Fixed2(45600), t) == if t.noFloat then "45600" else "456.00"
  {
    assert "456" + "." + "00" == "456.00" && "456" + "00" == "45600";
    Nat456();
    FloatText(45600, t, "456", "00");
  }

  lemma {:induction false} Slot10ZerofillLeftpadTextHello(name: string)
    ensures RenderField(Tag(name, 10, true, true, false), Str("hello")) == Success("00000hello")
  {
    Slot(Tag(name, 10, true, true, false), Str("hello"), "hello", "00000", "00000hello");
  }

  lemma {:induction false} Slot7NofloatLeftpadFloat12370(name: string)
    ensures RenderField(Tag(name, 7, true, false, true), Fixed2(12370)) == Success("  12370")
  {
    Float12370(Tag(name, 7, true, false, true));
    Slot(Tag(name, 7, true, false, true), Fixed2(12370), "12370", "  ", "  12370");
  }

  lemma {:induction false} Slot7LeftpadTrue(name: string)
    ensures RenderField(Tag(name, 7, true, false, false), Bool(true)) == Success("      1")
  {
    Slot(Tag(name, 7, true, false, false), Bool(true), "1", "      ", "      1");
  }

  lemma {:induction false} Slot10ZerofillLeftpadTextWorld(name: string)
    ensures RenderField(Tag(name, 10, true, true, false), Str("world")) == Success("00000world")
  {
    Slot(Tag(name, 10, true, true, false), Str("world"), "world", "00000", "00000world");
  }

  lemma {:induction false} Slot7NofloatLeftpadFloat45600(name: string)
    ensures RenderField(Tag(name, 7, true, false, true), Fixed2(45600)) == Success("  45600")
  {
    Float45600(Tag(name, 7, true, false, true));
    Slot(Tag(name, 7, true, false, true), Fixed2(45600), "45600", "  ", "  45600");
  }

  lemma {:induction false} Slot7LeftpadFalse(name: string)
    ensures RenderField(Tag(name, 7, true, false, false), Bool(false)) == Success("      0")
  {
    Slot(Tag(name, 7, true, false, false), Bool(false), "0", "      ", "      0");
  }

  lemma {:induction false} Slot10Int123(name: string)
    ensures RenderField(Tag(name, 10, false, false, false), Int(123)) == Success("123       ")
  {
    Nat123();
    Slot(Tag(name, 10, false, false, false), Int(123), "123", "       ", "123       ");
  }

  lemma {:induction false} Slot10Float12370(name: string)
    ensures RenderField(Tag(name, 10, false, false, false), Fixed2(12370)) == Success("123.70    ")
  {
    Float12370(Tag(name, 10, false, false, false));
    Slot(Tag(name, 10, false, false, false), Fixed2(12370), "123.70", "    ", "123.70    ");
  }

  lemma {:induction false} Slot10TextHello(name: string)
    ensures RenderField(Tag(name, 10, false, false, false), Str("hello")) == Success("hello     ")
  {
    Slot(Tag(name, 10, false, false, false), Str("hello"), "hello", "     ", "hello     ");
  }

  lemma {:induction false} Slot1True(name: string)
    ensures RenderField(Tag(name, 1, false, false, false), Bool(true)) == Success("1")
  {
    Slot(Tag(name, 1, false, false, false), Bool(true), "1", "", "1");
  }

  lemma {:induction false} Slot10LeftpadInt123(name: string)
    ensures RenderField(Tag(name, 10, true, false, false), Int(123)) == Success("       123")
  {
    Nat123();
    Slot(Tag(name, 10, true, false, false), Int(123), "123", "       ", "       123");
  }

  lemma {:induction false} Slot10LeftpadFloat12370(name: string)
    ensures RenderField(Tag(name, 10, true, false, false), Fixed2(12370)) == Success("    123.70")
  {
    Float12370(Tag(name, 10, true, false, false));
    Slot(Tag(name, 10, true, false, false), Fixed2(12370), "123.70", "    ", "    123.70");
  }

  lemma {:induction false} Slot10LeftpadTextHello(name: string)
    ensures RenderField(Tag(name, 10, true, false, false), Str("hello")) == Success("     hello")
  {
    Slot(Tag(name, 10, true, false, false), Str("hello"), "hello", "     ", "     hello");
  }

  lemma {:induction false} Slot2LeftpadTrue(name: string)
    ensures RenderField(Tag(name, 2, true, false, false), Bool(true)) == Success(" 1")
  {
    Slot(Tag(name, 2, true, false, false), Bool(true), "1", " ", " 1");
  }

  lemma {:induction false} Slot10ZerofillInt123(name: string)
    ensures RenderField(Tag(name, 10, false, true, false), Int(123)) == Success("1230000000")
  {
    Nat123();
    Slot(Tag(name, 10, false, true, false), Int(123), "123", "0000000", "1230000000");
  }

  lemma {:induction false} Slot10ZerofillFloat12370(name: string)
    ensures RenderField(Tag(name, 10, false, true, false), Fixed2(12370)) == Success("123.700000")
  {
    Float12370(Tag(name, 10, false, true, false));
    Slot(Tag(name, 10, false, true, false), Fixed2(12370), "123.70", "0000", "123.700000");
  }

  lemma {:induction false} Slot10ZerofillTextHello(name: string)
    ensures RenderField(Tag(name, 10, false, true, false), Str("hello")) == Success("hello00000")
  {
    Slot(Tag(name, 10, false, true, false), Str("hello"), "hello", "00000", "hello00000");
  }

  lemma {:induction false} Slot1ZerofillTrue(name: string)
    ensures RenderField(Tag(name, 1, false, true, false), Bool(true)) == Success("1")
  {
    Slot(Tag(name, 1, false, true, false), Bool(true), "1", "", "1");
  }

  lemma {:induction false} Slot10ZerofillLeftpadInt123(name: string)
    ensures RenderField(Tag(name, 10, true, true, false), Int(123)) == Success("0000000123")
  {
    Nat123();
    Slot(Tag(name, 10, true, true, false), Int(123), "123", "0000000", "0000000123");
  }

  lemma {:induction false} Slot10ZerofillLeftpadFloat12370(name: string)
    ensures RenderField(Tag(name, 10, true, true, false), Fixed2(12370)) == Success("0000123.70")
  {
    Float12370(Tag(name, 10, true, true, false));
    Slot(Tag(name, 10, true, true, false), Fixed2(12370), "123.70", "0000", "0000123.70");
  }

  lemma {:induction false} Slot2ZerofillLeftpadTrue(name: string)
    ensures RenderField(Tag(name, 2, true, true, false), Bool(true)) == Success("01")
  {
    Slot(Tag(name, 2, true, true, false), Bool(true), "1", "0", "01");
  }

  lemma {:induction false} Slot10NofloatInt123(name: string)
    ensures RenderField(Tag(name, 10, false, false, true), Int(123)) == Success("123       ")
  {
    Nat123();
    Slot(Tag(name, 10, false, false, true), Int(123), "123", "       ", "123       ");
  }

  lemma {:induction false} Slot10NofloatFloat12370(name: string)
    ensures RenderField(Tag(name, 10, false, false, true), Fixed2(12370)) == Success("12370     ")
  {
    Float12370(Tag(name, 10, false, false, true));
    Slot(Tag(name, 10, false, false, true), Fixed2(12370), "12370", "     ", "12370     ");
  }

  lemma {:induction false} Slot10NofloatTextHello(name: string)
    ensures RenderField(Tag(name, 10, false, false, true), Str("hello")) == Success("hello     ")
  {
    Slot(Tag(name, 10, false, false, true), Str("hello"), "hello", "     ", "hello     ");
  }

  lemma {:induction false} Slot1NofloatTrue(name: string)
    ensures RenderField(Tag(name, 1, false, false, true), Bool(true)) == Success("1")
  {
    Slot(Tag(name, 1, false, false, true), Bool(true), "1", "", "1");
  }

  lemma {:induction false} Slot10NofloatLeftpadInt123(name: string)
    ensures RenderField(Tag(name, 10, true, false, true), Int(123)) == Success("       123")
  {
    Nat123();
    Slot(Tag(name, 10, true, false, true), Int(123), "123", "       ", "       123");
  }

  lemma {:induction false} Slot10NofloatLeftpadFloat12370(name: string)
    ensures RenderField(Tag(name, 10, true, false, true), Fixed2(12370)) == Success("     12370")
  {
    Float12370(Tag(name, 10, true, false, true));
    Slot(Tag(name, 10, true, false, true), Fixed2(12370), "12370", "     ", "     12370");
  }

  lemma {:induction false} Slot10NofloatLeftpadTextHello(name: string)
    ensures RenderField(Tag(name, 10, true, false, true), Str("hello")) == Success("     hello")
  {
    Slot(Tag(name, 10, true, false, true), Str("hello"), "hello", "     ", "     hello");
  }

  lemma {:induction false} Slot2NofloatLeftpadTrue(name: string)
    ensures RenderField(Tag(name, 2, true, false, true), Bool(true)) == Success(" 1")
  {
    Slot(Tag(name, 2, true, false, true), Bool(true), "1", " ", " 1");
  }

  lemma {:induction false} Slot10NofloatLeftpadZerofillInt123(name: string)
    ensures RenderField(Tag(name, 10, true, true, true), Int(123)) == Success("0000000123")
  {
    Nat123();
    Slot(Tag(name, 10, true, true, true), Int(123), "123", "0000000", "0000000123");
  }

  lemma {:induction false} Slot10NofloatLeftpadZerofillFloat12370(name: string)
    ensures RenderField(Tag(name, 10, true, true, true), Fixed2(12370)) == Success("0000012370")
  {
    Float12370(Tag(name, 10, true, true, true));
    Slot(Tag(name, 10, true, true, true), Fixed2(12370), "12370", "00000", "0000012370");
  }

  lemma {:induction false} Slot10NofloatLeftpadZerofillTextHello(name: string)
    ensures RenderField(Tag(name, 10, true, true, true), Str("hello")) == Success("00000hello")
  {
    Slot(Tag(name, 10, true, true, true), Str("hello"), "hello", "00000", "00000hello");
  }

  lemma {:induction false} Slot2NofloatLeftpadZerofillTrue(name: string)
    ensures RenderField(Tag(name, 2, true, true, true), Bool(true)) == Success("01")
  {
    Slot(Tag(name, 2, true, true, true), Bool(true), "1", "0", "01");
  }

  lemma {:induction false} Slot5NofloatLeftpadFloat12300(name: string)
    ensures RenderField(Tag(name, 5, true, false, true), Fixed2(12300)) == Success("12300")
  {
    Float12300(Tag(name, 5, true, false, true));
    Slot(Tag(name, 5, true, false, true), Fixed2(12300), "12300", "", "12300");
  }

  lemma {:induction false} Slot10Text456(name: string)
    ensures RenderField(Tag(name, 10, false, false, false), Str("456")) == Success("456       ")
  {
    Slot(Tag(name, 10, false, false, false), Str("456"), "456", "       ", "456       ");
  }

  lemma {:induction false} Slot5NofloatLeftpadFloat4500(name: string)
    ensures RenderField(Tag(name, 5, true, false, true), Fixed2(4500)) == Success(" 4500")
  {
    Float4500(Tag(name, 5, true, false, true));
    Slot(Tag(name, 5, true, false, true), Fixed2(4500), "4500", " ", " 4500");
  }

  lemma {:induction false} Slot15Float12370(name: string)
    ensures RenderField(Tag(name, 15, false, false, false), Fixed2(12370)) == Success("123.70         ")
  {
    Float12370(Tag(name, 15, false, false, false));
    Slot(Tag(name, 15, false, false, false), Fixed2(12370), "123.70", "         ", "123.70         ");
  }

  const ParseValueHelloInput := Record("TestStruct", [
    Field("Field1", "10,zerofill,leftpad", Str("hello")),
    Field("Field2", "7,nofloat,leftpad", Fixed2(12370)),
    Field("Field3", "7,leftpad", Bool(true))])

  lemma {:induction false} ParseValueHelloField0()
    ensures LaidOut(ParseValueHelloInput.fields[0], Tag("Field1", 10, true, true, false), "00000hello")
  {
    TagOf10ZerofillLeftpad("Field1");
    Slot10ZerofillLeftpadTextHello("Field1");
  }

  lemma {:induction false} ParseValueHelloField1()
    ensures LaidOut(ParseValueHelloInput.fields[1], Tag("Field2", 7, true, false, true), "  12370")
  {
    TagOf7NofloatLeftpad("Field2");
    Slot7NofloatLeftpadFloat12370("Field2");
  }

  lemma {:induction false} ParseValueHelloField2()
    ensures LaidOut(ParseValueHelloInput.fields[2], Tag("Field3", 7, true, false, false), "      1")
  {
    TagOf7Leftpad("Field3");
    Slot7LeftpadTrue("Field3");
  }

  lemma {:induction false} ParseValueHelloLine()
    ensures "00000hello" + "  12370" + "      1" == "00000hello  12370      1"
  {
  }

  /** The first row of the `ParseValue` table: zero-filled text on the right of its slot, a `nofloat` float and a boolean. */
  lemma {:induction false} ParseValueHello()
    ensures ParseTags(ParseValueHelloInput) == Success(TagCollection("TestStruct", [
      Tag("Field1", 10, true, true, false),
      Tag("Field2", 7, true, false, true),
      Tag("Field3", 7, true, false, false)]))
    ensures MarshalStruct(ParseValueHelloInput) == Success("00000hello  12370      1")
  {
    ParseValueHelloField0();
    ParseValueHelloField1();
    ParseValueHelloField2();
    ThreeFields(ParseValueHelloInput, Tag("Field1", 10, true, true, false), Tag("Field2", 7, true, false, true), Tag("Field3", 7, true, false, false), "00000hello", "  12370", "      1");
    ParseValueHelloLine();
  }

  const ParseValueWorldInput := Record("TestStruct", [
    Field("Field1", "10,zerofill,leftpad", Str("world")),
    Field("Field2", "7,nofloat,leftpad", Fixed2(45600)),
    Field("Field3", "7,leftpad", Bool(false))])

  lemma {:induction false} ParseValueWorldField0()
    ensures LaidOut(ParseValueWorldInput.fields[0], Tag("Field1", 10, true, true, false), "00000world")
  {
    TagOf10ZerofillLeftpad("Field1");
    Slot10ZerofillLeftpadTextWorld("Field1");
  }

  lemma {:induction false} ParseValueWorldField1()
    ensures LaidOut(ParseValueWorldInput.fields[1], Tag("Field2", 7, true, false, true), "  45600")
  {
    TagOf7NofloatLeftpad("Field2");
    Slot7NofloatLeftpadFloat45600("Field2");
  }

  lemma {:induction false} ParseValueWorldField2()
    ensures LaidOut(ParseValueWorldInput.fields[2], Tag("Field3", 7, true, false, false), "      0")
  {
    TagOf7Leftpad("Field3");
    Slot7LeftpadFalse("Field3");
  }

  lemma {:induction false} ParseValueWorldLine()
    ensures "00000world" + "  45600" + "      0" == "00000world  45600      0"
  {
  }

  /** The second row of the `ParseValue` table. */
  lemma {:induction false} ParseValueWorld()
    ensures ParseTags(ParseValueWorldInput) == Success(TagCollection("TestStruct", [
      Tag("Field1", 10, true, true, false),
      Tag("Field2", 7, true, false, true),
      Tag("Field3", 7, true, false, false)]))
    ensures MarshalStruct(ParseValueWorldInput) == Success("00000world  45600      0")
  {
    ParseValueWorldField0();
    ParseValueWorldField1();
    ParseValueWorldField2();
    ThreeFields(ParseValueWorldInput, Tag("Field1", 10, true, true, false), Tag("Field2", 7, true, false, true), Tag("Field3", 7, true, false, false), "00000world", "  45600", "      0");
    ParseValueWorldLine();
  }

  const PlainLayoutInput := Record("TestStruct1", [
    Field("FieldInt", "10", Int(123)),
    Field("FieldFloat", "10", Fixed2(12370)),
    Field("FieldString", "10", Str("hello")),
    Field("FieldBool", "1", Bool(true))])

  lemma {:induction false} PlainLayoutField0()
    ensures LaidOut(PlainLayoutInput.fields[0], Tag("FieldInt", 10, false, false, false), "123       ")
  {
    TagOf10("FieldInt");
    Slot10Int123("FieldInt");
  }

  lemma {:induction false} PlainLayoutField1()
    ensures LaidOut(PlainLayoutInput.fields[1], Tag("FieldFloat", 10, false, false, false), "123.70    ")
  {
    TagOf10("FieldFloat");
    Slot10Float12370("FieldFloat");
  }

  lemma {:induction false} PlainLayoutField2()
    ensures LaidOut(PlainLayoutInput.fields[2], Tag("FieldString", 10, false, false, false), "hello     ")
  {
    TagOf10("FieldString");
    Slot10TextHello("FieldString");
  }

  lemma {:induction false} PlainLayoutField3()
    ensures LaidOut(PlainLayoutInput.fields[3], Tag("FieldBool", 1, false, false, false), "1")
  {
    TagOf1("FieldBool");
    Slot1True("FieldBool");
  }

  lemma {:induction false} PlainLayoutLine()
    ensures "123       " + "123.70    " + "hello     " + "1" == "123       123.70    hello     1"
  {
  }

  /** Sizes only: every value at the start of its slot, followed by spaces. */
  lemma {:induction false} PlainLayout()
    ensures ParseTags(PlainLayoutInput) == Success(TagCollection("TestStruct1", [
      Tag("FieldInt", 10, false, false, false),
      Tag("FieldFloat", 10, false, false, false),
      Tag("FieldString", 10, false, false, false),
      Tag("FieldBool", 1, false, false, false)]))
    ensures MarshalStruct(PlainLayoutInput) == Success("123       123.70    hello     1")
  {
    PlainLayoutField0();
    PlainLayoutField1();
    PlainLayoutField2();
    PlainLayoutField3();
    FourFields(PlainLayoutInput, Tag("FieldInt", 10, false, false, false), Tag("FieldFloat", 10, false, false, false), Tag("FieldString", 10, false, false, false), Tag("FieldBool", 1, false, false, false), "123       ", "123.70    ", "hello     ", "1");
    PlainLayoutLine();
  }

  const LeftPadLayoutInput := Record("TestStruct1", [
    Field("FieldInt", "10,leftpad", Int(123)),
    Field("FieldFloat", "10,leftpad", Fixed2(12370)),
    Field("FieldString", "10,leftpad", Str("hello")),
    Field("FieldBool", "2,leftpad", Bool(true))])

  lemma {:induction false} LeftPadLayoutField0()
    ensures LaidOut(LeftPadLayoutInput.fields[0], Tag("FieldInt", 10, true, false, false), "       123")
  {
    TagOf10Leftpad("FieldInt");
    Slot10LeftpadInt123("FieldInt");
  }

  lemma {:induction false} LeftPadLayoutField1()
    ensures LaidOut(LeftPadLayoutInput.fields[1], Tag("FieldFloat", 10, true, false, false), "    123.70")
  {
    TagOf10Leftpad("FieldFloat");
    Slot10LeftpadFloat12370("FieldFloat");
  }

  lemma {:induction false} LeftPadLayoutField2()
    ensures LaidOut(LeftPadLayoutInput.fields[2], Tag("FieldString", 10, true, false, false), "     hello")
  {
    TagOf10Leftpad("FieldString");
    Slot10LeftpadTextHello("FieldString");
  }

  lemma {:induction false} LeftPadLayoutField3()
    ensures LaidOut(LeftPadLayoutInput.fields[3], Tag("FieldBool", 2, true, false, false), " 1")
  {
    TagOf2Leftpad("FieldBool");
    Slot2LeftpadTrue("FieldBool");
  }

  lemma {:induction false} LeftPadLayoutLine()
    ensures "       123" + "    123.70" + "     hello" + " 1" == "       123    123.70     hello 1"
  {
  }

  /** With `leftpad`: every value at the end of its slot. */
  lemma {:induction false} LeftPadLayout()
    ensures ParseTags(LeftPadLayoutInput) == Success(TagCollection("TestStruct1", [
      Tag("FieldInt", 10, true, false, false),
      Tag("FieldFloat", 10, true, false, false),
      Tag("FieldString", 10, true, false, false),
      Tag("FieldBool", 2, true, false, false)]))
    ensures MarshalStruct(LeftPadLayoutInput) == Success("       123    123.70     hello 1")
  {
    LeftPadLayoutField0();
    LeftPadLayoutField1();
    LeftPadLayoutField2();
    LeftPadLayoutField3();
    FourFields(LeftPadLayoutInput, Tag("FieldInt", 10, true, false, false), Tag("FieldFloat", 10, true, false, false), Tag("FieldString", 10, true, false, false), Tag("FieldBool", 2, true, false, false), "       123", "    123.70", "     hello", " 1");
    LeftPadLayoutLine();
  }

  const ZeroFillLayoutInput := Record("TestStruct1", [
    Field("FieldInt", "10,zerofill", Int(123)),
    Field("FieldFloat", "10,zerofill", Fixed2(12370)),
    Field("FieldString", "10,zerofill", Str("hello")),
    Field("FieldBool", "1,zerofill", Bool(true))])

  lemma {:induction false} ZeroFillLayoutField0()
    ensures LaidOut(ZeroFillLayoutInput.fields[0], Tag("FieldInt", 10, false, true, false), "1230000000")
  {
    TagOf10Zerofill("FieldInt");
    Slot10ZerofillInt123("FieldInt");
  }

  lemma {:induction false} ZeroFillLayoutField1()
    ensures LaidOut(ZeroFillLayoutInput.fields[1], Tag("FieldFloat", 10, false, true, false), "123.700000")
  {
    TagOf10Zerofill("FieldFloat");
    Slot10ZerofillFloat12370("FieldFloat");
  }

  lemma {:induction false} ZeroFillLayoutField2()
    ensures LaidOut(ZeroFillLayoutInput.fields[2], Tag("FieldString", 10, false, true, false), "hello00000")
  {
    TagOf10Zerofill("FieldString");
    Slot10ZerofillTextHello("FieldString");
  }

  lemma {:induction false} ZeroFillLayoutField3()
    ensures LaidOut(ZeroFillLayoutInput.fields[3], Tag("FieldBool", 1, false, true, false), "1")
  {
    TagOf1Zerofill("FieldBool");
    Slot1ZerofillTrue("FieldBool");
  }

  lemma {:induction false} ZeroFillLayoutLine()
    ensures "1230000000" + "123.700000" + "hello00000" + "1" == "1230000000123.700000hello000001"
  {
  }

  /** With `zerofill`: zeros after every value, text included. */
  lemma {:induction false} ZeroFillLayout()
    ensures ParseTags(ZeroFillLayoutInput) == Success(TagCollection("TestStruct1", [
      Tag("FieldInt", 10, false, true, false),
      Tag("FieldFloat", 10, false, true, false),
      Tag("FieldString", 10, false, true, false),
      Tag("FieldBool", 1, false, true, false)]))
    ensures MarshalStruct(ZeroFillLayoutInput) == Success("1230000000123.700000hello000001")
  {
    ZeroFillLayoutField0();
    ZeroFillLayoutField1();
    ZeroFillLayoutField2();
    ZeroFillLayoutField3();
    FourFields(ZeroFillLayoutInput, Tag("FieldInt", 10, false, true, false), Tag("FieldFloat", 10, false, true, false), Tag("FieldString", 10, false, true, false), Tag("FieldBool", 1, false, true, false), "1230000000", "123.700000", "hello00000", "1");
    ZeroFillLayoutLine();
  }

  const ZeroFillLeftPadLayoutInput := Record("TestStruct1", [
    Field("FieldInt", "10,zerofill,leftpad", Int(123)),
    Field("FieldFloat", "10,zerofill,leftpad", Fixed2(12370)),
    Field("FieldString", "10,zerofill,leftpad", Str("hello")),
    Field("FieldBool", "2,zerofill,leftpad", Bool(true))])

  lemma {:induction false} ZeroFillLeftPadLayoutField0()
    ensures LaidOut(ZeroFillLeftPadLayoutInput.fields[0], Tag("FieldInt", 10, true, true, false), "0000000123")
  {
    TagOf10ZerofillLeftpad("FieldInt");
    Slot10ZerofillLeftpadInt123("FieldInt");
  }

  lemma {:induction false} ZeroFillLeftPadLayoutField1()
    ensures LaidOut(ZeroFillLeftPadLayoutInput.fields[1], Tag("FieldFloat", 10, true, true, false), "0000123.70")
  {
    TagOf10ZerofillLeftpad("FieldFloat");
    Slot10ZerofillLeftpadFloat12370("FieldFloat");
  }

  lemma {:induction false} ZeroFillLeftPadLayoutField2()
    ensures LaidOut(ZeroFillLeftPadLayoutInput.fields[2], Tag("FieldString", 10, true, true, false), "00000hello")
  {
    TagOf10ZerofillLeftpad("FieldString");
    Slot10ZerofillLeftpadTextHello("FieldString");
  }

  lemma {:induction false} ZeroFillLeftPadLayoutField3()
    ensures LaidOut(ZeroFillLeftPadLayoutInput.fields[3], Tag("FieldBool", 2, true, true, false), "01")
  {
    TagOf2ZerofillLeftpad("FieldBool");
    Slot2ZerofillLeftpadTrue("FieldBool");
  }

  lemma {:induction false} ZeroFillLeftPadLayoutLine()
    ensures "0000000123" + "0000123.70" + "00000hello" + "01" == "00000001230000123.7000000hello01"
  {
  }

  /** With `zerofill` and `leftpad`: zeros before every value. */
  lemma {:induction false} ZeroFillLeftPadLayout()
    ensures ParseTags(ZeroFillLeftPadLayoutInput) == Success(TagCollection("TestStruct1", [
      Tag("FieldInt", 10, true, true, false),
      Tag("FieldFloat", 10, true, true, false),
      Tag("FieldString", 10, true, true, false),
      Tag("FieldBool", 2, true, true, false)]))
    ensures MarshalStruct(ZeroFillLeftPadLayoutInput) == Success("00000001230000123.7000000hello01")
  {
    ZeroFillLeftPadLayoutField0();
    ZeroFillLeftPadLayoutField1();
    ZeroFillLeftPadLayoutField2();
    ZeroFillLeftPadLayoutField3();
    FourFields(ZeroFillLeftPadLayoutInput, Tag("FieldInt", 10, true, true, false), Tag("FieldFloat", 10, true, true, false), Tag("FieldString", 10, true, true, false), Tag("FieldBool", 2, true, true, false), "0000000123", "0000123.70", "00000hello", "01");
    ZeroFillLeftPadLayoutLine();
  }

  const NoFloatLayoutInput := Record("TestStruct1", [
    Field("FieldInt", "10,nofloat", Int(123)),
    Field("FieldFloat", "10,nofloat", Fixed2(12370)),
    Field("FieldString", "10,nofloat", Str("hello")),
    Field("FieldBool", "1,nofloat", Bool(true))])

  lemma {:induction false} NoFloatLayoutField0()
    ensures LaidOut(NoFloatLayoutInput.fields[0], Tag("FieldInt", 10, false, false, true), "123       ")
  {
    TagOf10Nofloat("FieldInt");
    Slot10NofloatInt123("FieldInt");
  }

  lemma {:induction false} NoFloatLayoutField1()
    ensures LaidOut(NoFloatLayoutInput.fields[1], Tag("FieldFloat", 10, false, false, true), "12370     ")
  {
    TagOf10Nofloat("FieldFloat");
    Slot10NofloatFloat12370("FieldFloat");
  }

  lemma {:induction false} NoFloatLayoutField2()
    ensures LaidOut(NoFloatLayoutInput.fields[2], Tag("FieldString", 10, false, false, true), "hello     ")
  {
    TagOf10Nofloat("FieldString");
    Slot10NofloatTextHello("FieldString");
  }

  lemma {:induction false} NoFloatLayoutField3()
    ensures LaidOut(NoFloatLayoutInput.fields[3], Tag("FieldBool", 1, false, false, true), "1")
  {
    TagOf1Nofloat("FieldBool");
    Slot1NofloatTrue("FieldBool");
  }

  lemma {:induction false} NoFloatLayoutLine()
    ensures "123       " + "12370     " + "hello     " + "1" == "123       12370     hello     1"
  {
  }

  /** With `nofloat`: the float loses its point; the other kinds are unaffected. */
  lemma {:induction false} NoFloatLayout()
    ensures ParseTags(NoFloatLayoutInput) == Success(TagCollection("TestStruct1", [
      Tag("FieldInt", 10, false, false, true),
      Tag("FieldFloat", 10, false, false, true),
      Tag("FieldString", 10, false, false, true),
      Tag("FieldBool", 1, false, false, true)]))
    ensures MarshalStruct(NoFloatLayoutInput) == Success("123       12370     hello     1")
  {
    NoFloatLayoutField0();
    NoFloatLayoutField1();
    NoFloatLayoutField2();
    NoFloatLayoutField3();
    FourFields(NoFloatLayoutInput, Tag("FieldInt", 10, false, false, true), Tag("FieldFloat", 10, false, false, true), Tag("FieldString", 10, false, false, true), Tag("FieldBool", 1, false, false, true), "123       ", "12370     ", "hello     ", "1");
    NoFloatLayoutLine();
  }

  const NoFloatLeftPadLayoutInput := Record("TestStruct1", [
    Field("FieldInt", "10,nofloat,leftpad", Int(123)),
    Field("FieldFloat", "10,nofloat,leftpad", Fixed2(12370)),
    Field("FieldString", "10,nofloat,leftpad", Str("hello")),
    Field("FieldBool", "2,nofloat,leftpad", Bool(true))])

  lemma {:induction false} NoFloatLeftPadLayoutField0()
    ensures LaidOut(NoFloatLeftPadLayoutInput.fields[0], Tag("FieldInt", 10, true, false, true), "       123")
  {
    TagOf10NofloatLeftpad("FieldInt");
    Slot10NofloatLeftpadInt123("FieldInt");
  }

  lemma {:induction false} NoFloatLeftPadLayoutField1()
    ensures LaidOut(NoFloatLeftPadLayoutInput.fields[1], Tag("FieldFloat", 10, true, false, true), "     12370")
  {
    TagOf10NofloatLeftpad("FieldFloat");
    Slot10NofloatLeftpadFloat12370("FieldFloat");
  }

  lemma {:induction false} NoFloatLeftPadLayoutField2()
    ensures LaidOut(NoFloatLeftPadLayoutInput.fields[2], Tag("FieldString", 10, true, false, true), "     hello")
  {
    TagOf10NofloatLeftpad("FieldString");
    Slot10NofloatLeftpadTextHello("FieldString");
  }

  lemma {:induction false} NoFloatLeftPadLayoutField3()
    ensures LaidOut(NoFloatLeftPadLayoutInput.fields[3], Tag("FieldBool", 2, true, false, true), " 1")
  {
    TagOf2NofloatLeftpad("FieldBool");
    Slot2NofloatLeftpadTrue("FieldBool");
  }

  lemma {:induction false} NoFloatLeftPadLayoutLine()
    ensures "       123" + "     12370" + "     hello" + " 1" == "       123     12370     hello 1"
  {
  }

  /** With `nofloat` and `leftpad`. */
  lemma {:induction false} NoFloatLeftPadLayout()
    ensures ParseTags(NoFloatLeftPadLayoutInput) == Success(TagCollection("TestStruct1", [
      Tag("FieldInt", 10, true, false, true),
      Tag("FieldFloat", 10, true, false, true),
      Tag("FieldString", 10, true, false, true),
      Tag("FieldBool", 2, true, false, true)]))
    ensures MarshalStruct(NoFloatLeftPadLayoutInput) == Success("       123     12370     hello 1")
  {
    NoFloatLeftPadLayoutField0();
    NoFloatLeftPadLayoutField1();
    NoFloatLeftPadLayoutField2();
    NoFloatLeftPadLayoutField3();
    FourFields(NoFloatLeftPadLayoutInput, Tag("FieldInt", 10, true, false, true), Tag("FieldFloat", 10, true, false, true), Tag("FieldString", 10, true, false, true), Tag("FieldBool", 2, true, false, true), "       123", "     12370", "     hello", " 1");
    NoFloatLeftPadLayoutLine();
  }

  const AllModifiersLayoutInput := Record("TestStruct1", [
    Field("FieldInt", "10,nofloat,leftpad,zerofill", Int(123)),
    Field("FieldFloat", "10,nofloat,leftpad,zerofill", Fixed2(12370)),
    Field("FieldString", "10,nofloat,leftpad,zerofill", Str("hello")),
    Field("FieldBool", "2,nofloat,leftpad,zerofill", Bool(true))])

  lemma {:induction false} AllModifiersLayoutField0()
    ensures LaidOut(AllModifiersLayoutInput.fields[0], Tag("FieldInt", 10, true, true, true), "0000000123")
  {
    TagOf10NofloatLeftpadZerofill("FieldInt");
    Slot10NofloatLeftpadZerofillInt123("FieldInt");
  }

  lemma {:induction false} AllModifiersLayoutField1()
    ensures LaidOut(AllModifiersLayoutInput.fields[1], Tag("FieldFloat", 10, true, true, true), "0000012370")
  {
    TagOf10NofloatLeftpadZerofill("FieldFloat");
    Slot10NofloatLeftpadZerofillFloat12370("FieldFloat");
  }

  lemma {:induction false} AllModifiersLayoutField2()
    ensures LaidOut(AllModifiersLayoutInput.fields[2], Tag("FieldString", 10, true, true, true), "00000hello")
  {
    TagOf10NofloatLeftpadZerofill("FieldString");
    Slot10NofloatLeftpadZerofillTextHello("FieldString");
  }

  lemma {:induction false} AllModifiersLayoutField3()
    ensures LaidOut(AllModifiersLayoutInput.fields[3], Tag("FieldBool", 2, true, true, true), "01")
  {
    TagOf2NofloatLeftpadZerofill("FieldBool");
    Slot2NofloatLeftpadZerofillTrue("FieldBool");
  }

  lemma {:induction false} AllModifiersLayoutLine()
    ensures "0000000123" + "0000012370" + "00000hello" + "01" == "0000000123000001237000000hello01"
  {
  }

  /** With all three modifiers. */
  lemma {:induction false} AllModifiersLayout()
    ensures ParseTags(AllModifiersLayoutInput) == Success(TagCollection("TestStruct1", [
      Tag("FieldInt", 10, true, true, true),
      Tag("FieldFloat", 10, true, true, true),
      Tag("FieldString", 10, true, true, true),
      Tag("FieldBool", 2, true, true, true)]))
    ensures MarshalStruct(AllModifiersLayoutInput) == Success("0000000123000001237000000hello01")
  {
    AllModifiersLayoutField0();
    AllModifiersLayoutField1();
    AllModifiersLayoutField2();
    AllModifiersLayoutField3();
    FourFields(AllModifiersLayoutInput, Tag("FieldInt", 10, true, true, true), Tag("FieldFloat", 10, true, true, true), Tag("FieldString", 10, true, true, true), Tag("FieldBool", 2, true, true, true), "0000000123", "0000012370", "00000hello", "01");
    AllModifiersLayoutLine();
  }

  const MarshalHelloInput := Record("", [
    Field("Field1", "10", Str("hello")),
    Field("Field2", "5,nofloat,leftpad", Fixed2(12300))])

  lemma {:induction false} MarshalHelloField0()
    ensures LaidOut(MarshalHelloInput.fields[0], Tag("Field1", 10, false, false, false), "hello     ")
  {
    TagOf10("Field1");
    Slot10TextHello("Field1");
  }

  lemma {:induction false} MarshalHelloField1()
    ensures LaidOut(MarshalHelloInput.fields[1], Tag("Field2", 5, true, false, true), "12300")
  {
    TagOf5NofloatLeftpad("Field2");
    Slot5NofloatLeftpadFloat12300("Field2");
  }

  lemma {:induction false} MarshalHelloLine()
    ensures "hello     " + "12300" == "hello     12300"
  {
  }

  /** The first element of the `Marshal` slice, of an anonymous struct type (its name is empty). */
  lemma {:induction false} MarshalHello()
    ensures ParseTags(MarshalHelloInput) == Success(TagCollection("", [
      Tag("Field1", 10, false, false, false),
      Tag("Field2", 5, true, false, true)]))
    ensures MarshalStruct(MarshalHelloInput) == Success("hello     12300")
  {
    MarshalHelloField0();
    MarshalHelloField1();
    TwoFields(MarshalHelloInput, Tag("Field1", 10, false, false, false), Tag("Field2", 5, true, false, true), "hello     ", "12300");
    MarshalHelloLine();
  }

  const Marshal456Input := Record("", [
    Field("Field1", "10", Str("456")),
    Field("Field2", "5,nofloat,leftpad", Fixed2(4500))])

  lemma {:induction false} Marshal456Field0()
    ensures LaidOut(Marshal456Input.fields[0], Tag("Field1", 10, false, false, false), "456       ")
  {
    TagOf10("Field1");
    Slot10Text456("Field1");
  }

  lemma {:induction false} Marshal456Field1()
    ensures LaidOut(Marshal456Input.fields[1], Tag("Field2", 5, true, false, true), " 4500")
  {
    TagOf5NofloatLeftpad("Field2");
    Slot5NofloatLeftpadFloat4500("Field2");
  }

  lemma {:induction false} Marshal456Line()
    ensures "456       " + " 4500" == "456        4500"
  {
  }

  /** The second element of the `Marshal` slice, of the same anonymous type. */
  lemma {:induction false} Marshal456()
    ensures ParseTags(Marshal456Input) == Success(TagCollection("", [
      Tag("Field1", 10, false, false, false),
      Tag("Field2", 5, true, false, true)]))
    ensures MarshalStruct(Marshal456Input) == Success("456        4500")
  {
    Marshal456Field0();
    Marshal456Field1();
    TwoFields(Marshal456Input, Tag("Field1", 10, false, false, false), Tag("Field2", 5, true, false, true), "456       ", " 4500");
    Marshal456Line();
  }

  const MarshalSingleInput := Record("", [
    Field("Field3", "15", Fixed2(12370))])

  lemma {:induction false} MarshalSingleField0()
    ensures LaidOut(MarshalSingleInput.fields[0], Tag("Field3", 15, false, false, false), "123.70         ")
  {
    TagOf15("Field3");
    Slot15Float12370("Field3");
  }

  /** The single struct of the `Marshal` test, of an anonymous type: a float with its two decimals, followed by spaces. */
  lemma {:induction false} MarshalSingle()
    ensures ParseTags(MarshalSingleInput) == Success(TagCollection("", [
      Tag("Field3", 15, false, false, false)]))
    ensures MarshalStruct(MarshalSingleInput) == Success("123.70         ")
  {
    MarshalSingleField0();
    OneField(MarshalSingleInput, Tag("Field3", 15, false, false, false), "123.70         ");
  }
}
