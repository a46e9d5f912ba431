/**
 * The package's entry point: `Marshal` renders a struct value as one line,
 * or a slice of struct values as lines joined by newlines, each line laid
 * out by the struct type's own `positional` annotations.
 */
module PositionalLine {
  import opened Wrappers
  import opened GoStrings
  import opened GoStrconv
  import opened Pad
  import opened Types
  import opened Parsers
  import opened RoundTrip

  /** The kinds of value `Marshal` tells apart; every other kind (pointers, maps, arrays, ...) is `OtherValue`. */
  datatype Input =
    | StructValue(rec: Record)
    | SliceValue(elems: seq<Record>)
    | OtherValue

  /** The width a record type declares: the sizes of its annotated fields added up. */
  function OwnWidth(fields: seq<Field>): int {
    if |fields| == 0 then 0 else OwnTag(fields[0]).size + OwnWidth(fields[1..])
  }

  /** A field whose annotation declares a negative width. */
  predicate NegativeWidth(f: Field) {
    f.annotation != "" && OwnTag(f).size < 0
  }

  /** With each field's width taken from its own tag, the slots add up to the declared width. */
  lemma {:induction false} SlotWidthOwn(fields: seq<Field>, m: map<string, Tag>)
    requires forall i :: 0 <= i < |fields| ==> Width(m, fields[i]) == OwnTag(fields[i]).size
    ensures SlotWidth(fields, m) == OwnWidth(fields)
  {
    if |fields| > 0 {
      assert forall i :: 0 < i < |fields| ==> fields[1..][i - 1] == fields[i];
      SlotWidthOwn(fields[1..], m);
      assert Width(m, fields[0]) == OwnTag(fields[0]).size;
    }
  }

  /** Under the layout of its own type, a record's slots are its annotated fields with their own tags. */
  lemma OwnLayout(rec: Record)
    requires WellFormed(rec) && ParseTags(rec).Success?
    ensures var m := Tags(ParseTags(rec).value);
      && SlotWidth(rec.fields, m) == OwnWidth(rec.fields)
      && ((exists i :: 0 <= i < |rec.fields| && HasSlot(m, rec.fields[i].name) && Lookup(m, rec.fields[i].name).size < 0)
          <==> (exists i :: 0 <= i < |rec.fields| && NegativeWidth(rec.fields[i])))
  {
    var m := Tags(ParseTags(rec).value);
    ParseTagsOwnTags(rec);
    assert forall i :: 0 <= i < |rec.fields| ==> Width(m, rec.fields[i]) == OwnTag(rec.fields[i]).size;
    SlotWidthOwn(rec.fields, m);
  }

  /**
   * `marshalStruct`: derive the layout of the record's type, then render the
   * record under it. An annotation that does not parse gives
   * `ErrInvalidSize` and no line; otherwise the line fails exactly when a
   * slot of the layout is negative, and a line that comes back holds every
   * slotted field's padded text at its offset.
   */
  function MarshalStruct(rec: Record): (r: Result<string, Error>)
    ensures (exists i :: 0 <= i < |rec.fields| && BadAnnotation(rec.fields[i])) ==> r == Failure(InvalidSize)
    ensures ParseTags(rec).Success? ==>
      && (r.Failure? <==> exists i :: 0 <= i < |rec.fields| && HasSlot(Tags(ParseTags(rec).value), rec.fields[i].name) && Lookup(Tags(ParseTags(rec).value), rec.fields[i].name).size < 0)
      && (r.Failure? ==> r.error == PadFailed(NegativeSize))
    ensures r.Success? ==> ParseTags(rec).Success? && SlotsLaidOut(r.value, rec.fields, Tags(ParseTags(rec).value))
  {
    match ParseTags(rec)
    case Failure(e) => Failure(e)
    case Success(c) =>
      RenderFieldsLaidOut(rec.fields, Tags(c));
      ParseValue(rec, c)
  }

  /**
   * On a struct type whose annotations all parse, the line fails exactly
   * when an annotated field declares a negative width, and otherwise has
   * the width the type declares.
   */
  lemma MarshalStructWidth(rec: Record)
    requires WellFormed(rec) && ParseTags(rec).Success?
    ensures MarshalStruct(rec).Failure? <==> exists i :: 0 <= i < |rec.fields| && NegativeWidth(rec.fields[i])
    ensures MarshalStruct(rec).Failure? ==> MarshalStruct(rec).error == PadFailed(NegativeSize)
    ensures MarshalStruct(rec).Success? ==> |MarshalStruct(rec).value| == OwnWidth(rec.fields)
  {
    OwnLayout(rec);
  }

  /**
   * The loop over a slice, on the elements' results: every line in order,
   * or the error of the first element that failed.
   */
  function CollectLines(results: seq<Result<string, Error>>): (r: Result<seq<string>, Error>)
    ensures r.Success? <==> forall i :: 0 <= i < |results| ==> results[i].Success?
    ensures r.Success? ==> |r.value| == |results| && forall i :: 0 <= i < |results| ==> r.value[i] == results[i].value
    ensures r.Failure? ==>
      exists k :: 0 <= k < |results| && results[k] == Failure(r.error)
        && forall i :: 0 <= i < k ==> results[i].Success?
  {
    if |results| == 0 then Success([])
    else
      var init, last := results[..|results| - 1], results[|results| - 1];
      assert forall i :: 0 <= i < |results| - 1 ==> init[i] == results[i];
      match CollectLines(init)
      case Failure(e) => Failure(e)
      case Success(ls) =>
        match last
        case Failure(e) => Failure(e)
        case Success(l) => Success(ls + [l])
  }

  /** A failure in a prefix of the results is the failure of all of them. */
  lemma {:induction false} CollectLinesPrefix(results: seq<Result<string, Error>>, n: nat)
    requires n <= |results| && CollectLines(results[..n]).Failure?
    ensures CollectLines(results) == CollectLines(results[..n])
    decreases |results| - n
  {
    if n < |results| {
      assert results[..n + 1][..n] == results[..n];
      CollectLinesPrefix(results, n + 1);
    } else {
      assert results[..n] == results;
    }
  }

  /** The first failing result, after successful ones, is the failure of all of them. */
  lemma CollectLinesFails(results: seq<Result<string, Error>>, n: nat)
    requires n < |results| && CollectLines(results[..n]).Success? && results[n].Failure?
    ensures CollectLines(results) == Failure(results[n].error)
  {
    assert results[..n + 1][..n] == results[..n];
    CollectLinesPrefix(results, n + 1);
  }

  /** One more successful result adds its line at the end. */
  lemma {:induction false} CollectLinesSnoc(results: seq<Result<string, Error>>, n: nat)
    requires n < |results| && CollectLines(results[..n]).Success? && results[n].Success?
    ensures CollectLines(results[..n + 1]) == Success(CollectLines(results[..n]).value + [results[n].value])
  {
    assert results[..n + 1][..n] == results[..n];
  }

  /** What `marshalStruct` gives for each element of a slice, in order. */
  function ElementResults(elems: seq<Record>): (rs: seq<Result<string, Error>>)
    ensures |rs| == |elems| && forall i :: 0 <= i < |elems| ==> rs[i] == MarshalStruct(elems[i])
  {
    seq(|elems|, i requires 0 <= i < |elems| => MarshalStruct(elems[i]))
  }

  /** The loop over a slice: every element's line in order, or the error of the first element that fails. */
  function MarshalAll(elems: seq<Record>): Result<seq<string>, Error> {
    CollectLines(ElementResults(elems))
  }

  /**
   * `Marshal`: a struct value gives its line; a slice gives its elements'
   * lines, with a newline between consecutive ones and none at the end, or
   * the first failing element's error; any other kind of value gives the
   * empty text.
   */
  method Marshal(v: Input) returns (r: Result<string, Error>)
    ensures v.OtherValue? ==> r == Success("")
    ensures v.StructValue? ==> r == MarshalStruct(v.rec)
    ensures v.SliceValue? ==> (r.Success? <==> MarshalAll(v.elems).Success?)
    ensures v.SliceValue? && r.Failure? ==> r.error == MarshalAll(v.elems).error
    ensures v.SliceValue? && r.Success? ==> r.value == Join(MarshalAll(v.elems).value, "\n")
  {
    match v
    case OtherValue =>
      r := Success("");
    case StructValue(rec) =>
      r := MarshalStruct(rec);
    case SliceValue(elems) =>
      r := MarshalSlice(elems);
  }

  /** The slice branch of `Marshal`: the loop that renders each element and joins the lines as it goes. */
  method MarshalSlice(elems: seq<Record>) returns (r: Result<string, Error>)
    ensures r.Success? <==> MarshalAll(elems).Success?
    ensures r.Failure? ==> r.error == MarshalAll(elems).error
    ensures r.Success? ==> r.value == Join(MarshalAll(elems).value, "\n")
  {
    ghost var results := ElementResults(elems);
    var out := "";
    var i := 0;
    ghost var lines: seq<string> := [];
    while i < |elems|
      invariant 0 <= i <= |elems|
      invariant CollectLines(results[..i]) == Success(lines)
      invariant out == Join(lines, "\n") + (if 0 < i < |elems| then "\n" else "")
    {
      var l := MarshalStruct(elems[i]);
      assert l == results[i];
      if l.Failure? {
        CollectLinesFails(results, i);
        return Failure(l.error);
      }
      CollectLinesSnoc(results, i);
      ghost var joined := Join(lines + [l.value], "\n");
      assert joined == out + l.value by {
        if i > 0 {
          JoinSnoc(lines, l.value, "\n");
        } else {
          assert lines + [l.value] == [l.value];
        }
      }
      var sep := if i != |elems| - 1 then "\n" else "";
      out := out + l.value + sep;
      assert out == joined + sep;
      lines := lines + [l.value];
      i := i + 1;
    }
    assert results[..i] == results;
    r := Success(out);
  }

  /** A slice marshals exactly when every element does; its lines are the elements' lines in order. */
  lemma MarshalAllLines(elems: seq<Record>)
    ensures MarshalAll(elems).Success? <==> forall i :: 0 <= i < |elems| ==> MarshalStruct(elems[i]).Success?
    ensures MarshalAll(elems).Success? ==>
      |MarshalAll(elems).value| == |elems| && forall i :: 0 <= i < |elems| ==> MarshalAll(elems).value[i] == MarshalStruct(elems[i]).value
  {
  }

  /** A slice that does not marshal reports the error of its first failing element. */
  lemma MarshalAllFirstError(elems: seq<Record>)
    requires MarshalAll(elems).Failure?
    ensures exists k ::
      && 0 <= k < |elems|
      && MarshalStruct(elems[k]) == Failure(MarshalAll(elems).error)
      && forall i :: 0 <= i < k ==> MarshalStruct(elems[i]).Success?
  {
  }

  // ================================================================= newlines

  /** No string field of the record holds a newline. */
  predicate NoNewlineText(rec: Record) {
    forall j :: 0 <= j < |rec.fields| && rec.fields[j].value.Str? ==> '\n' !in rec.fields[j].value.s
  }

  /** Converted values hold no newline unless the value is a text holding one. */
  lemma ConvertNoNewline(v: Value, t: Tag)
    requires v.Str? ==> '\n' !in v.s
    ensures '\n' !in Convert(v, t)
  {
    match v
    case Str(_) =>
    case Int(i) => FormatIntParses(i);
    case Uint(u) => DigitsNoPoint(FormatNat(u));
    case Fixed2(h) =>
      FormatFixed2Parses(h);
      PointlessNoNewline(h);
    case Bool(_) =>
    case Other =>
  }

  /** Deleting the point from a `%.2f` text adds no newline. */
  lemma PointlessNoNewline(h: int)
    ensures '\n' !in RemoveFirst(FormatFixed2(h), '.')
  {
    FormatFixed2Parses(h);
    RemoveFirstDeletes(FormatFixed2(h), '.');
    assert multiset(RemoveFirst(FormatFixed2(h), '.'))['\n'] <= multiset(FormatFixed2(h))['\n'];
  }

  /** Padding adds only spaces or zeros, and cutting keeps a prefix: a slot holds no new newline. */
  lemma RenderFieldNoNewline(t: Tag, v: Value)
    requires RenderField(t, v).Success? && (v.Str? ==> '\n' !in v.s)
    ensures '\n' !in RenderField(t, v).value
  {
    var text := Convert(v, t);
    ConvertNoNewline(v, t);
    var kept := Kept(text, t.size);
    var pad := Repeat(Fill(t), t.size - kept);
    assert '\n' !in text[..kept] by {
      assert forall k :: 0 <= k < kept ==> text[..kept][k] == text[k];
    }
    assert '\n' !in pad;
    var slot := if t.leftPad then pad + text[..kept] else text[..kept] + pad;
    assert RenderField(t, v).value == slot by {
      if |text| > t.size {
        assert text[..t.size] == text[..kept];
      }
    }
  }

  /** The rendered fields hold no newline when no string field does. */
  lemma {:induction false} RenderFieldsNoNewline(fields: seq<Field>, m: map<string, Tag>)
    requires RenderFields(fields, m).Success?
    requires forall j :: 0 <= j < |fields| && fields[j].value.Str? ==> '\n' !in fields[j].value.s
    ensures '\n' !in RenderFields(fields, m).value
  {
    if |fields| > 0 {
      RenderFieldsCons(fields, m);
      assert forall j :: 0 < j < |fields| ==> fields[1..][j - 1] == fields[j];
      RenderFieldsNoNewline(fields[1..], m);
      if HasSlot(m, fields[0].name) {
        RenderFieldNoNewline(Lookup(m, fields[0].name), fields[0].value);
      }
    }
  }

  /**
   * When no string field holds a newline, the text `Marshal` produces for a
   * slice of `n` records holds exactly `n - 1` newlines, one per line break,
   * and splitting it at newlines gives back the records' lines in order.
   */
  lemma MarshalLineCount(elems: seq<Record>)
    requires |elems| >= 1 && MarshalAll(elems).Success?
    requires forall i :: 0 <= i < |elems| ==> NoNewlineText(elems[i])
    ensures multiset(Join(MarshalAll(elems).value, "\n"))['\n'] == |elems| - 1
    ensures Split(Join(MarshalAll(elems).value, "\n"), '\n') == MarshalAll(elems).value
  {
    var lines := MarshalAll(elems).value;
    MarshalAllLines(elems);
    forall k | 0 <= k < |lines|
      ensures '\n' !in lines[k]
    {
      var rec := elems[k];
      assert ParseTags(rec).Success?;
      RenderFieldsNoNewline(rec.fields, Tags(ParseTags(rec).value));
    }
    JoinCount(lines, '\n');
    SplitJoin(lines, '\n');
  }

  // =============================================================== round trip

  /** Every annotated field holds a value that its own slot reads back. */
  predicate OwnReversible(rec: Record) {
    forall i :: 0 <= i < |rec.fields| && rec.fields[i].annotation != "" ==> Reversible(OwnTag(rec.fields[i]), rec.fields[i].value)
  }

  /**
   * The round trip of the package: the line `marshalStruct` makes of a
   * record, read back with `UnparseValue` into any value of the same struct
   * type, restores every annotated field (the slot of an unhandled kind is
   * not read) and leaves every other field as it was.
   */
  lemma MarshalRoundTrip(rec: Record, target: Record)
    requires WellFormed(rec) && ParseTags(rec).Success?
    requires SameShape(rec, target) && OwnReversible(rec)
    ensures MarshalStruct(rec).Success?
    ensures var d := UnparseValue(target, ParseTags(rec).value, MarshalStruct(rec).value);
      && d.err == None
      && d.record.typeName == target.typeName
      && forall i :: 0 <= i < |rec.fields| ==>
           d.record.fields[i] ==
             if rec.fields[i].annotation != "" && !rec.fields[i].value.Other?
             then target.fields[i].(value := rec.fields[i].value)
             else target.fields[i]
  {
    var c := ParseTags(rec).value;
    var m := Tags(c);
    assert MarshalStruct(rec) == ParseValue(rec, c);
    ParseTagsOwnTags(rec);
    assert AllReversible(rec.fields, m);
    assert SameKinds(rec.fields, target.fields);
    ValueRoundTrip(rec, target, c);
    RestoreAnnotated(rec.fields, target.fields, m);
  }

  /** The fields restored under a layout whose slots are exactly the annotated fields. */
  lemma RestoreAnnotated(fields: seq<Field>, target: seq<Field>, m: map<string, Tag>)
    requires SameKinds(fields, target)
    requires forall i :: 0 <= i < |fields| ==> (HasSlot(m, fields[i].name) <==> fields[i].annotation != "")
    ensures forall i :: 0 <= i < |fields| ==>
      Restore(fields, target, m)[i] ==
        if fields[i].annotation != "" && !fields[i].value.Other? then target[i].(value := fields[i].value) else target[i]
  {
    forall i | 0 <= i < |fields|
      ensures Restore(fields, target, m)[i] ==
        if fields[i].annotation != "" && !fields[i].value.Other? then target[i].(value := fields[i].value) else target[i]
    {
      RestoreAt(fields, target, m, i);
    }
  }

  /** In particular, reading a record's line back into the record itself gives the record, and no error. */
  lemma MarshalRoundTripSelf(rec: Record)
    requires WellFormed(rec) && ParseTags(rec).Success? && OwnReversible(rec)
    ensures MarshalStruct(rec).Success?
    ensures UnparseValue(rec, ParseTags(rec).value, MarshalStruct(rec).value) == Decoded(rec, None)
  {
    var m := Tags(ParseTags(rec).value);
    ParseTagsOwnTags(rec);
    assert AllReversible(rec.fields, m);
    ValueRoundTripSelf(rec, ParseTags(rec).value);
  }
}
