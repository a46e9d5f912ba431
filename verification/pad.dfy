/**
 * The padding primitive (package `pad`): fit a text to a width by keeping its
 * first `size` characters and filling the rest with copies of a pad string,
 * on the right (`Right`) or on the left (`Left`).
 */
module Pad {
  import opened Wrappers
  import opened GoStrings

  /** The two ways the primitive rejects its arguments. */
  datatype PadError = NegativeSize | EmptyPad

  /** How many characters of `str` survive truncation to `size`. */
  function Kept(str: string, size: nat): nat {
    if |str| > size then size else |str|
  }

  /** The error, if any: a negative size is reported before an empty pad. */
  function Check(size: int, pad: string): Option<PadError> {
    if size < 0 then Some(NegativeSize)
    else if pad == "" then Some(EmptyPad)
    else None
  }

  /** `pad.Right`: the kept prefix of `str`, then `size - kept` copies of `pad`. */
  function Right(str: string, size: int, pad: string): (r: Result<string, PadError>)
    ensures r.Failure? <==> size < 0 || pad == ""
    ensures r.Failure? ==> Check(size, pad) == Some(r.error)
    ensures r.Success? ==>
      var kept := Kept(str, size);
      && |r.value| == kept + (size - kept) * |pad|
      && r.value[..kept] == str[..kept]
      && (|pad| == 1 ==> |r.value| == size && forall k :: kept <= k < size ==> r.value[k] == pad[0])
  {
    if size < 0 then Failure(NegativeSize)
    else if pad == "" then Failure(EmptyPad)
    else
      var content := if |str| > size then str[..size] else str;
      Success(content + Repeat(pad, size - |content|))
  }

  /** `pad.Left`: `size - kept` copies of `pad`, then the kept prefix of `str`. */
  function Left(str: string, size: int, pad: string): (r: Result<string, PadError>)
    ensures r.Failure? <==> size < 0 || pad == ""
    ensures r.Failure? ==> Check(size, pad) == Some(r.error)
    ensures r.Success? ==>
      var kept := Kept(str, size);
      && |r.value| == kept + (size - kept) * |pad|
      && r.value[|r.value| - kept..] == str[..kept]
      && (|pad| == 1 ==> |r.value| == size && forall k :: 0 <= k < size - kept ==> r.value[k] == pad[0])
  {
    if size < 0 then Failure(NegativeSize)
    else if pad == "" then Failure(EmptyPad)
    else
      var content := if |str| > size then str[..size] else str;
      Success(Repeat(pad, size - |content|) + content)
  }

  /** Too long a text is cut to its first `size` characters, whichever side would be padded. */
  lemma Truncates(str: string, size: int, pad: string)
    requires 0 <= size < |str| && pad != ""
    ensures Right(str, size, pad) == Success(str[..size])
    ensures Left(str, size, pad) == Success(str[..size])
  {
    assert str[..size] + Repeat(pad, 0) == str[..size];
    assert Repeat(pad, 0) + str[..size] == str[..size];
  }

  /** A text that fits is kept whole: only pad copies follow it (`Right`) or precede it (`Left`). */
  lemma PadsShortText(str: string, size: int, pad: string)
    requires |str| <= size && pad != ""
    ensures Right(str, size, pad) == Success(str + Repeat(pad, size - |str|))
    ensures Left(str, size, pad) == Success(Repeat(pad, size - |str|) + str)
  {
  }

  /** With a one-character pad, padding an already padded text changes nothing. */
  lemma {:induction false} Idempotent(str: string, size: int, c: char)
    requires size >= 0
    ensures Right(Right(str, size, [c]).value, size, [c]) == Right(str, size, [c])
    ensures Left(Left(str, size, [c]).value, size, [c]) == Left(str, size, [c])
  {
    var r := Right(str, size, [c]).value;
    assert r + Repeat([c], 0) == r;
    var l := Left(str, size, [c]).value;
    assert Repeat([c], 0) + l == l;
  }
}
