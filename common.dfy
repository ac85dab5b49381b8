// Helpers shared by the whole crate: C-string conversion of name lists and
// the sRGB / linear classification of formats.
module Common {
  import opened Wrappers
  import opened VkTypes

  /** `s` occurs in `text` as a contiguous substring (`str::contains`). */
  predicate Substring(s: string, text: string)
    decreases |text|
  {
    |s| <= |text| && (text[..|s|] == s || Substring(s, text[1..]))
  }

  /** `s` occurs in `text` starting at index `i`. */
  predicate OccursAt(s: string, text: string, i: nat) {
    i + |s| <= |text| && text[i..i + |s|] == s
  }

  /** `Substring` agrees with its reference definition: `s` starts at some index of `text`. */
  lemma {:induction false} SubstringOccurs(s: string, text: string)
    ensures Substring(s, text) <==> exists i: nat :: OccursAt(s, text, i)
    decreases |text|
  {
    if |s| <= |text| && text[..|s|] != s {
      SubstringOccurs(s, text[1..]);
      if exists i: nat :: OccursAt(s, text, i) {
        var i: nat :| OccursAt(s, text, i);
        assert i != 0;
        assert text[1..][i - 1..i - 1 + |s|] == text[i..i + |s|];
        assert OccursAt(s, text[1..], i - 1);
      }
      if Substring(s, text[1..]) {
        var i: nat :| OccursAt(s, text[1..], i);
        assert text[i + 1..i + 1 + |s|] == text[1..][i..i + |s|];
        assert OccursAt(s, text, i + 1);
      }
    } else if |s| <= |text| {
      assert OccursAt(s, text, 0);
    }
  }

  /** `is_format_srgb`: the format's debug name contains "SRGB". */
  predicate IsFormatSrgb(format: Format) {
    Substring("SRGB", format.name)
  }

  /** A format is sRGB exactly when "SRGB" starts at some index of its name. */
  lemma IsFormatSrgbOccurs(format: Format)
    ensures IsFormatSrgb(format) <==> exists i: nat :: OccursAt("SRGB", format.name, i)
  {
    SubstringOccurs("SRGB", format.name);
  }

  /** `is_format_linear` */
  predicate IsFormatLinear(format: Format) {
    !IsFormatSrgb(format)
  }

  lemma LinearIsNotSrgb(format: Format)
    ensures IsFormatLinear(format) != IsFormatSrgb(format)
  {
  }

  /**
   * `std::str::Utf8Error`: how many leading bytes were valid. The UTF-8
   * check of `c_string_to_string` itself is library code; the model receives
   * its outcome.
   */
  datatype Utf8Error = Utf8Error(validUpTo: nat)

  /** `std::ffi::NulError`: the position of the first NUL and the rejected bytes. */
  datatype NulError = NulError(position: nat, bytes: string)

  /** The first NUL character of `s`, if any. */
  function FirstNul(s: string): (r: Option<nat>)
    ensures r.None? <==> '\0' !in s
    ensures r.Some? ==> r.value < |s| && s[r.value] == '\0' && '\0' !in s[..r.value]
  {
    if |s| == 0 then None
    else if s[0] == '\0' then Some(0)
    else match FirstNul(s[1..])
      case None => None
      case Some(k) => assert s[..k + 1] == [s[0]] + s[1..][..k]; Some(k + 1)
  }

  /** `CString::new`, with a C string modelled by its bytes before the terminator. */
  function CStringNew(s: string): (r: Result<string, NulError>)
    ensures r.Ok? <==> '\0' !in s
    ensures r.Ok? ==> r.value == s
    ensures r.Err? ==> r.error.bytes == s && r.error.position < |s| && s[r.error.position] == '\0'
    ensures r.Err? ==> '\0' !in s[..r.error.position]
  {
    match FirstNul(s)
    case None => Ok(s)
    case Some(p) => Err(NulError(p, s))
  }

  /** `string_to_c_string_vec` (bort-vk/src/common.rs:8-18): convert in order, stop at the first failure. */
  function StringToCStringVec(source: seq<string>): (r: Result<seq<string>, NulError>)
    ensures r.Ok? ==> |r.value| == |source|
    decreases |source|
  {
    if |source| == 0 then Ok([])
    else match CStringNew(source[0])
      case Err(e) => Err(e)
      case Ok(c) =>
        match StringToCStringVec(source[1..])
        case Err(e) => Err(e)
        case Ok(rest) => Ok([c] + rest)
  }

  /** The index of the first name with an interior NUL. */
  function FirstWithNul(source: seq<string>): (r: Option<nat>)
    ensures r.None? <==> forall i :: 0 <= i < |source| ==> '\0' !in source[i]
    ensures r.Some? ==> r.value < |source| && '\0' in source[r.value]
    ensures r.Some? ==> forall j :: 0 <= j < r.value ==> '\0' !in source[j]
  {
    if |source| == 0 then None
    else if '\0' in source[0] then Some(0)
    else match FirstWithNul(source[1..])
      case None => None
      case Some(k) => Some(k + 1)
  }

  /**
   * Success exactly when no name holds a NUL, and then the output is the
   * input, one C string per name; otherwise the error is that of the first
   * offending name.
   */
  lemma {:induction false} StringToCStringVecSpec(source: seq<string>)
    ensures StringToCStringVec(source).Ok? <==> FirstWithNul(source).None?
    ensures StringToCStringVec(source).Ok? ==> StringToCStringVec(source).value == source
    ensures StringToCStringVec(source).Err? ==>
      FirstWithNul(source).Some? &&
      StringToCStringVec(source).error == CStringNew(source[FirstWithNul(source).value]).error
    decreases |source|
  {
    if |source| != 0 && '\0' !in source[0] {
      StringToCStringVecSpec(source[1..]);
      assert [source[0]] + source[1..] == source;
    }
  }
}
