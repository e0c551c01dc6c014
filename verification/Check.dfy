/** The argument guard `Check.NotNullOrWhiteSpace(value, name, maxLength)` of
    the application framework, used by every validated text field. */
module Check {
  import opened Foundation

  /** `char.IsWhiteSpace`: the Unicode space, line and paragraph separators,
      the controls U+0009 to U+000D, U+0085 and U+00A0. */
  predicate IsWhiteSpace(c: char) {
    || c == ' '
    || ('\t' <= c <= '\r')
    || c == '\U{0085}' || c == '\U{00A0}' || c == '\U{1680}'
    || ('\U{2000}' <= c <= '\U{200A}')
    || c == '\U{2028}' || c == '\U{2029}' || c == '\U{202F}' || c == '\U{205F}' || c == '\U{3000}'
  }

  /** `string.IsNullOrWhiteSpace`: null, empty, or white space only. */
  predicate IsNullOrWhiteSpace(value: Option<string>) {
    value.None? || forall i :: 0 <= i < |value.value| ==> IsWhiteSpace(value.value[i])
  }

  /** A character outside the Basic Multilingual Plane, which a .NET string
      stores as a surrogate pair. */
  predicate IsSupplementary(c: char) {
    c >= '\U{10000}'
  }

  /** `string.Length`: the number of UTF-16 code units, two for each
      supplementary character and one for every other. */
  function Utf16Length(s: string): (n: nat)
    ensures |s| <= n <= 2 * |s|
  {
    if |s| == 0 then 0
    else (if IsSupplementary(s[0]) then 2 else 1) + Utf16Length(s[1..])
  }

  /** Without supplementary characters, the length is the character count. */
  lemma {:induction false} BasicPlaneLength(s: string)
    requires forall i :: 0 <= i < |s| ==> !IsSupplementary(s[i])
    ensures Utf16Length(s) == |s|
  {
    if |s| > 0 {
      assert forall i :: 0 <= i < |s| - 1 ==> s[1..][i] == s[i + 1];
      BasicPlaneLength(s[1..]);
    }
  }

  /** Supplementary characters only: two code units each. */
  lemma {:induction false} SupplementaryLength(s: string)
    requires forall i :: 0 <= i < |s| ==> IsSupplementary(s[i])
    ensures Utf16Length(s) == 2 * |s|
  {
    if |s| > 0 {
      assert forall i :: 0 <= i < |s| - 1 ==> s[1..][i] == s[i + 1];
      SupplementaryLength(s[1..]);
    }
  }

  /** Returns the value unchanged when it has a character that is not white
      space and is at most `maxLength` UTF-16 code units long; throws an
      argument error otherwise. */
  function NotNullOrWhiteSpace(value: Option<string>, field: Field, maxLength: nat): (r: Result<string>)
    ensures r.Ok? <==> value.Some? && Utf16Length(value.value) <= maxLength &&
                       exists i :: 0 <= i < |value.value| && !IsWhiteSpace(value.value[i])
    ensures r.Ok? ==> r.value == value.value
    ensures r.Err? ==> r.error == ArgumentInvalid(field)
  {
    if IsNullOrWhiteSpace(value) then Err(ArgumentInvalid(field))
    else if Utf16Length(value.value) > maxLength then Err(ArgumentInvalid(field))
    else Ok(value.value)
  }

  /** A text that starts with a visible character and is at most half the
      limit long passes, whatever characters follow. */
  lemma ShortVisibleTextPasses(s: string, field: Field, maxLength: nat)
    requires |s| > 0 && !IsWhiteSpace(s[0]) && 2 * |s| <= maxLength
    ensures NotNullOrWhiteSpace(Some(s), field, maxLength) == Ok(s)
  {
    assert !IsNullOrWhiteSpace(Some(s));
  }

  /** The limit counts UTF-16 code units: `n` supplementary characters (an
      emoji, say) use up `2 * n` of it, so 300 of them exceed a limit of 500. */
  lemma SupplementaryCharactersCountTwice(n: nat, maxLength: nat, field: Field)
    requires maxLength < 2 * n
    ensures NotNullOrWhiteSpace(Some(seq(n, _ => '\U{1F600}')), field, maxLength).Err?
  {
    var s := seq(n, _ => '\U{1F600}');
    SupplementaryLength(s);
  }

  /** The empty string and a string of blanks are rejected; one visible
      character within the length limit is accepted. */
  lemma BlankIsRejected(n: nat, maxLength: nat, field: Field)
    ensures NotNullOrWhiteSpace(Some(""), field, maxLength).Err?
    ensures NotNullOrWhiteSpace(Some(seq(n, _ => ' ')), field, maxLength).Err?
    ensures NotNullOrWhiteSpace(None, field, maxLength).Err?
    ensures 1 <= maxLength ==> NotNullOrWhiteSpace(Some("x"), field, maxLength) == Ok("x")
  {
    assert !IsWhiteSpace("x"[0]);
  }
}
