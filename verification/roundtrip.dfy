/**
 * When a slot reads back what was written into it: the conditions under
 * which rendering a record and reading the line back restores its fields,
 * and the one deliberate exception, a float written with `nofloat`.
 */
module RoundTrip {
  import opened Wrappers
  import opened GoStrings
  import opened GoStrconv
  import opened Pad
  import opened Types
  import opened Parsers

  /**
   * A tag and value whose slot text reads back as the value. The text must
   * fit the width (longer texts are cut). Reading trims whitespace, so space
   * padding is harmless for any text without whitespace at its edges; zero
   * padding is harmless only in front of a non-negative number, or after the
   * fraction digits of a float. `nofloat` never reads back.
   */
  predicate Reversible(t: Tag, v: Value) {
    && t.size >= 0
    && |Convert(v, t)| <= t.size
    && var exact := |Convert(v, t)| == t.size;
       match v
       case Str(s) => NoEdgeSpace(s) && (t.zeroFill ==> exact)
       case Int(i) => t.zeroFill ==> exact || (t.leftPad && i >= 0)
       case Uint(_) => t.zeroFill ==> exact || t.leftPad
       case Fixed2(h) => !t.noFloat && (t.zeroFill && t.leftPad ==> exact || h >= 0)
       case Bool(_) => t.zeroFill ==> exact
       case Other => true
  }

  /** The fill characters that bring a fitting text up to the tag's size. */
  function PadOf(t: Tag, v: Value): (pad: string)
    requires |Convert(v, t)| <= t.size
    ensures |pad| == t.size - |Convert(v, t)|
  {
    Repeat(Fill(t), t.size - |Convert(v, t)|)
  }

  /** A text that fits is padded, never cut: fill characters before it (`leftpad`) or after it. */
  lemma RenderFieldShape(t: Tag, v: Value)
    requires t.size >= 0 && |Convert(v, t)| <= t.size
    ensures RenderField(t, v) == Success(if t.leftPad then PadOf(t, v) + Convert(v, t) else Convert(v, t) + PadOf(t, v))
  {
    PadsShortText(Convert(v, t), t.size, Fill(t));
  }

  /** Every converted value has clean edges and parses back as itself, except a `nofloat` float. */
  lemma ConvertReadsBack(v: Value, t: Tag)
    requires v.Str? ==> NoEdgeSpace(v.s)
    requires v.Fixed2? ==> !t.noFloat
    ensures NoEdgeSpace(Convert(v, t))
    ensures ParseAs(v, Convert(v, t)) == Success(v)
  {
    match v
    case Str(_) =>
    case Int(i) => FormatIntParses(i);
    case Uint(u) =>
      ParseUintFormat(u);
      DigitsNoEdgeSpace(FormatNat(u));
    case Fixed2(h) => FormatFixed2Parses(h);
    case Bool(_) =>
    case Other =>
  }

  /** Reading depends only on the kind of the value being read into, except that `Other` is kept. */
  lemma ParseAsKind(v: Value, w: Value, s: string)
    requires KindOf(v) == KindOf(w) && !v.Other?
    ensures ParseAs(w, s) == ParseAs(v, s)
  {
  }

  /** A text padded with spaces, or not padded at all, trims back to the text. */
  lemma SpacePaddingTrims(text: string, pad: string, leftPad: bool)
    requires NoEdgeSpace(text) && AllSpace(pad)
    ensures TrimSpace(if leftPad then pad + text else text + pad) == text
  {
    if leftPad {
      TrimPadded(pad, text, "");
      assert pad + text + "" == pad + text;
    } else {
      TrimPadded("", text, pad);
      assert "" + text + pad == text + pad;
    }
  }

  /** Zeros are not whitespace, so a zero-padded text with clean edges is left alone by trimming. */
  lemma ZeroPaddingKept(text: string, pad: string, leftPad: bool)
    requires NoEdgeSpace(text) && AllZeros(pad)
    ensures TrimSpace(if leftPad then pad + text else text + pad) == (if leftPad then pad + text else text + pad)
  {
    assert NoEdgeSpace(pad);
    var slot := if leftPad then pad + text else text + pad;
    if leftPad {
      NoEdgeSpaceConcat(pad, text);
    } else {
      NoEdgeSpaceConcat(text, pad);
    }
    TrimPadded("", slot, "");
    assert "" + slot + "" == slot;
  }

  /** A slot padded with spaces, or not padded at all, reads back as its value. */
  lemma SpaceSlotReadsBack(t: Tag, v: Value)
    requires Reversible(t, v) && !v.Other?
    requires !t.zeroFill || |Convert(v, t)| == t.size
    ensures RenderField(t, v).Success?
    ensures ParseAs(v, TrimSpace(RenderField(t, v).value)) == Success(v)
  {
    RenderFieldShape(t, v);
    ConvertReadsBack(v, t);
    assert AllSpace(PadOf(t, v));
    SpacePaddingTrims(Convert(v, t), PadOf(t, v), t.leftPad);
  }

  /** A zero-padded slot is never trimmed: it reads back only as a number the zeros do not change. */
  lemma ZeroSlotTrim(t: Tag, v: Value)
    requires Reversible(t, v) && !v.Other? && t.zeroFill
    ensures AllZeros(PadOf(t, v))
    ensures RenderField(t, v) == Success(if t.leftPad then PadOf(t, v) + Convert(v, t) else Convert(v, t) + PadOf(t, v))
    ensures TrimSpace(RenderField(t, v).value) == RenderField(t, v).value
  {
    RenderFieldShape(t, v);
    ConvertReadsBack(v, t);
    assert AllZeros(PadOf(t, v));
    ZeroPaddingKept(Convert(v, t), PadOf(t, v), t.leftPad);
  }

  /** A zero-padded slot that is not exactly full reads back as its value: only numbers get here. */
  lemma ZeroSlotReadsBack(t: Tag, v: Value)
    requires Reversible(t, v) && !v.Other? && t.zeroFill && |Convert(v, t)| < t.size
    ensures RenderField(t, v).Success?
    ensures ParseAs(v, TrimSpace(RenderField(t, v).value)) == Success(v)
  {
    var pad := PadOf(t, v);
    ZeroSlotTrim(t, v);
    match v
    case Int(i) =>
      ParseIntLeadingZeros(pad, i);
    case Uint(u) =>
      ParseIntLeadingZeros(pad, u);
    case Fixed2(h) =>
      if t.leftPad {
        ParseFixed2LeadingZeros(pad, h);
      } else {
        ParseFixed2TrailingZeros(h, pad);
      }
  }

  /**
   * One slot round trip: the slot text of a reversible value, read into a
   * value of the same kind, gives back the value (an `Other` value is never
   * read, so the target keeps its own).
   */
  lemma FieldRoundTrip(t: Tag, v: Value, w: Value)
    requires Reversible(t, v) && KindOf(w) == KindOf(v)
    ensures RenderField(t, v).Success?
    ensures Unconvert(w, t, RenderField(t, v).value) == Success(if v.Other? then w else v)
  {
    if !v.Other? {
      if !t.zeroFill || |Convert(v, t)| == t.size {
        SpaceSlotReadsBack(t, v);
      } else {
        ZeroSlotReadsBack(t, v);
      }
      ParseAsKind(v, w, TrimSpace(RenderField(t, v).value));
    }
  }

  /** A float converted without its point has no space at either end. */
  lemma NoFloatTextNoEdgeSpace(h: int, t: Tag)
    requires t.noFloat
    ensures NoEdgeSpace(Convert(Fixed2(h), t))
  {
    var text := Convert(Fixed2(h), t);
    FormatFixed2Parses(h);
    var n := Abs(h);
    var sign := if h < 0 then "-" else "";
    DigitsNoPoint(Whole(n));
    SignedRemovePoint(sign, Whole(n), Cents(n));
    CentsValue(Whole(n), n);
    DigitsNoEdgeSpace(Whole(n) + Cents(n));
    assert sign + (Whole(n) + Cents(n)) == text;
    if sign == "-" {
      assert NoEdgeSpace(sign);
      NoEdgeSpaceConcat(sign, Whole(n) + Cents(n));
    } else {
      assert text == Whole(n) + Cents(n);
    }
  }

  /**
   * The one intended loss: a float written with `nofloat` and space padding
   * reads back as a hundred times its value, because reading does not look
   * at the tag and never puts the point back.
   */
  lemma NoFloatScales(t: Tag, h: int, w: Value)
    requires t.noFloat && !t.zeroFill && w.Fixed2?
    requires 0 <= |Convert(Fixed2(h), t)| <= t.size
    ensures RenderField(t, Fixed2(h)).Success?
    ensures Unconvert(w, t, RenderField(t, Fixed2(h)).value) == Success(Fixed2(100 * h))
  {
    RenderFieldShape(t, Fixed2(h));
    FormatFixed2Parses(h);
    NoFloatTextNoEdgeSpace(h, t);
    assert AllSpace(PadOf(t, Fixed2(h)));
    SpacePaddingTrims(Convert(Fixed2(h), t), PadOf(t, Fixed2(h)), t.leftPad);
  }

  // ============================================================ whole records

  /** What reading field `g` back gives when `f` was written: `f`'s value if `g` has a slot it reads. */
  function RestoreOne(f: Field, g: Field, m: map<string, Tag>): Field {
    if HasSlot(m, g.name) && !g.value.Other? then g.(value := f.value) else g
  }

  /** `RestoreOne` field by field. */
  function Restore(fields: seq<Field>, target: seq<Field>, m: map<string, Tag>): (r: seq<Field>)
    requires |fields| == |target|
    ensures |r| == |target|
  {
    if |target| == 0 then []
    else
      var rest := Restore(fields[1..], target[1..], m);
      [RestoreOne(fields[0], target[0], m)] + rest
  }

  /** Field `i` of the restored record: the target's field, with the written value if its slot is read. */
  lemma {:induction false} RestoreAt(fields: seq<Field>, target: seq<Field>, m: map<string, Tag>, i: int)
    requires |fields| == |target| && 0 <= i < |target|
    ensures Restore(fields, target, m)[i] == RestoreOne(fields[i], target[i], m)
  {
    if i > 0 {
      RestoreAt(fields[1..], target[1..], m, i - 1);
    }
  }

  /** Reading a record's own line back into the record itself changes nothing. */
  lemma {:induction false} RestoreSelf(fields: seq<Field>, m: map<string, Tag>)
    ensures Restore(fields, fields, m) == fields
  {
    if |fields| > 0 {
      RestoreSelf(fields[1..], m);
    }
  }

  /** `target` is a value of the same struct type as `fields`: same names and kinds, field by field. */
  predicate SameKinds(fields: seq<Field>, target: seq<Field>) {
    && |fields| == |target|
    && forall i :: 0 <= i < |fields| ==>
         fields[i].name == target[i].name && KindOf(fields[i].value) == KindOf(target[i].value)
  }

  /** Every field with a slot under `m` holds a value its slot reads back. */
  predicate AllReversible(fields: seq<Field>, m: map<string, Tag>) {
    forall i :: 0 <= i < |fields| && HasSlot(m, fields[i].name) ==> Reversible(Lookup(m, fields[i].name), fields[i].value)
  }

  lemma SameKindsTail(fields: seq<Field>, target: seq<Field>, m: map<string, Tag>)
    requires |fields| > 0 && SameKinds(fields, target) && AllReversible(fields, m)
    ensures SameKinds(fields[1..], target[1..]) && AllReversible(fields[1..], m)
  {
    assert forall i :: 0 <= i < |fields| - 1 ==> fields[1..][i] == fields[i + 1] && target[1..][i] == target[i + 1];
  }

  /** A window holding `p + q` holds `p` at its start and `q` right after. */
  lemma WindowSplit(content: string, start: nat, p: string, q: string)
    requires start + |p| + |q| <= |content|
    requires content[start..start + |p + q|] == p + q
    ensures content[start..start + |p|] == p
    ensures content[start + |p|..start + |p| + |q|] == q
  {
    assert content[start..start + |p + q|][..|p|] == p;
    assert content[start..start + |p + q|][|p|..] == q;
  }

  /** The slot of `f` under `m`, if it has one, lies at `start` in `content` and holds the text `f` renders to. */
  predicate SlotHolds(m: map<string, Tag>, f: Field, content: string, start: nat) {
    var t := Lookup(m, f.name);
    t != ZeroTag ==>
      && t.size >= 0 && start + t.size <= |content|
      && RenderField(t, f.value).Success? && content[start..start + t.size] == RenderField(t, f.value).value
  }

  /** The slot of `g` under `m`, if it has one, lies at `start` in `content` and reads as `v`. */
  predicate SlotReadsAs(m: map<string, Tag>, g: Field, content: string, start: nat, v: Value) {
    var t := Lookup(m, g.name);
    t != ZeroTag ==> InLine(content, start, t.size) && Unconvert(g.value, t, content[start..start + t.size]) == Success(v)
  }

  /** When the first field's slot reads as `v`, the read continues with the rest from the next cursor. */
  lemma UnparseHead(target: seq<Field>, m: map<string, Tag>, content: string, start: nat, v: Value)
    requires |target| > 0 && SlotReadsAs(m, target[0], content, start, v)
    ensures UnparseFields(target, m, content, start).0
      == [if HasSlot(m, target[0].name) then target[0].(value := v) else target[0]]
         + UnparseFields(target[1..], m, content, NextStart(target, m, start)).0
    ensures UnparseFields(target, m, content, start).1 == UnparseFields(target[1..], m, content, NextStart(target, m, start)).1
  {
    assert HeadReads(target, m, content, start);
    assert ReadHead(target, m, content, start) == if HasSlot(m, target[0].name) then target[0].(value := v) else target[0];
    UnparseFieldsCons(target, m, content, start);
  }

  /** The rest of the line follows the window of the first field. */
  lemma {:induction false} RoundTripWindows(fields: seq<Field>, m: map<string, Tag>, content: string, start: nat)
    requires |fields| > 0 && RenderFields(fields, m).Success?
    requires TextAt(content, start, RenderFields(fields, m).value)
    ensures RenderFields(fields[1..], m).Success?
    ensures 0 <= Width(m, fields[0])
    ensures TextAt(content, start + Width(m, fields[0]), RenderFields(fields[1..], m).value)
  {
    RenderFieldsCons(fields, m);
    HeadWindows(m, fields[0], content, start,
      if HasSlot(m, fields[0].name) then RenderField(Lookup(m, fields[0].name), fields[0].value).value else "",
      RenderFields(fields[1..], m).value);
  }

  /** The window of the first field holds its slot text. */
  lemma {:induction false} HeadHolds(fields: seq<Field>, m: map<string, Tag>, content: string, start: nat)
    requires |fields| > 0 && RenderFields(fields, m).Success?
    requires TextAt(content, start, RenderFields(fields, m).value)
    ensures SlotHolds(m, fields[0], content, start)
  {
    RenderFieldsCons(fields, m);
    HeadWindows(m, fields[0], content, start,
      if HasSlot(m, fields[0].name) then RenderField(Lookup(m, fields[0].name), fields[0].value).value else "",
      RenderFields(fields[1..], m).value);
  }

  /**
   * A line that starts with the first field's slot text `piece` and goes on
   * with `rest`, found at `start`: the slot holds `piece` and `rest` follows it.
   */
  lemma HeadWindows(m: map<string, Tag>, f: Field, content: string, start: nat, piece: string, rest: string)
    requires HasSlot(m, f.name) ==> RenderField(Lookup(m, f.name), f.value).Success?
    requires piece == if HasSlot(m, f.name) then RenderField(Lookup(m, f.name), f.value).value else ""
    requires TextAt(content, start, piece + rest)
    ensures 0 <= Width(m, f)
    ensures TextAt(content, start + Width(m, f), rest)
    ensures SlotHolds(m, f, content, start)
  {
    WindowSplit(content, start, piece, rest);
  }

  /** The first field's slot reads back: the step of the round trip. */
  lemma RoundTripHead(f: Field, g: Field, m: map<string, Tag>, content: string, start: nat)
    requires f.name == g.name && KindOf(f.value) == KindOf(g.value)
    requires HasSlot(m, f.name) ==> Reversible(Lookup(m, f.name), f.value)
    requires SlotHolds(m, f, content, start)
    ensures SlotReadsAs(m, g, content, start, RestoreOne(f, g, m).value)
  {
    var t := Lookup(m, g.name);
    if t != ZeroTag {
      FieldRoundTrip(t, f.value, g.value);
      var v := RestoreOne(f, g, m).value;
      assert v == if f.value.Other? then g.value else f.value;
      assert InLine(content, start, t.size);
      assert content[start..start + t.size] == RenderField(t, f.value).value;
      assert Unconvert(g.value, t, content[start..start + t.size]) == Success(v);
    }
  }

  /** The first step of reading back: the first field is restored and the read goes on after its slot. */
  lemma HeadStep(f: Field, target: seq<Field>, m: map<string, Tag>, content: string, start: nat, next: nat)
    requires |target| > 0 && f.name == target[0].name && KindOf(f.value) == KindOf(target[0].value)
    requires HasSlot(m, f.name) ==> Reversible(Lookup(m, f.name), f.value)
    requires SlotHolds(m, f, content, start) && next == start + Width(m, f)
    ensures UnparseFields(target, m, content, start).0 == [RestoreOne(f, target[0], m)] + UnparseFields(target[1..], m, content, next).0
    ensures UnparseFields(target, m, content, start).1 == UnparseFields(target[1..], m, content, next).1
  {
    RoundTripHead(f, target[0], m, content, start);
    UnparseHead(target, m, content, start, RestoreOne(f, target[0], m).value);
    assert NextStart(target, m, start) == next;
  }

  /**
   * The round trip over a window of a longer line: if the rendered fields
   * sit at `start` in `content`, reading `target` from there restores every
   * field with a slot and reports no error.
   */
  lemma {:induction false} FieldsRoundTrip(fields: seq<Field>, target: seq<Field>, m: map<string, Tag>, content: string, start: nat)
    requires SameKinds(fields, target) && AllReversible(fields, m)
    requires RenderFields(fields, m).Success?
    requires TextAt(content, start, RenderFields(fields, m).value)
    ensures UnparseFields(target, m, content, start) == (Restore(fields, target, m), None)
  {
    if |fields| > 0 {
      var f, g := fields[0], target[0];
      SameKindsTail(fields, target, m);
      RoundTripWindows(fields, m, content, start);
      HeadHolds(fields, m, content, start);
      var start' := start + Width(m, f);
      FieldsRoundTrip(fields[1..], target[1..], m, content, start');
      assert f.name == g.name && KindOf(f.value) == KindOf(g.value);
      assert HasSlot(m, f.name) ==> Reversible(Lookup(m, f.name), f.value);
      HeadStep(f, target, m, content, start, start');
      assert Restore(fields, target, m) == [RestoreOne(f, g, m)] + Restore(fields[1..], target[1..], m);
    }
  }

  /**
   * The record round trip: rendering `rec` under a layout and reading the
   * line into any value of the same type restores every field with a
   * reversible slot, leaves the others alone, and reports no error.
   */
  lemma ValueRoundTrip(rec: Record, target: Record, c: TagCollection)
    requires SameKinds(rec.fields, target.fields) && AllReversible(rec.fields, Tags(c))
    ensures ParseValue(rec, c).Success?
    ensures UnparseValue(target, c, ParseValue(rec, c).value)
         == Decoded(Record(target.typeName, Restore(rec.fields, target.fields, Tags(c))), None)
  {
    var line := ParseValue(rec, c).value;
    assert line[0..|line|] == line;
    FieldsRoundTrip(rec.fields, target.fields, Tags(c), line, 0);
  }

  /** In particular, reading a record's line back into the record gives the record back. */
  lemma ValueRoundTripSelf(rec: Record, c: TagCollection)
    requires AllReversible(rec.fields, Tags(c))
    ensures ParseValue(rec, c).Success?
    ensures UnparseValue(rec, c, ParseValue(rec, c).value) == Decoded(rec, None)
  {
    ValueRoundTrip(rec, rec, c);
    RestoreSelf(rec.fields, Tags(c));
  }
}
