/**
 * The validated user name: not blank, at most 256 graphemes, and free of the
 * characters / ( ) " < > \ { }.
 */
module UserNames {
  import opened Wrappers

  const MaxGraphemes: nat := 256
  const Forbidden: seq<char> := ['/', '(', ')', '"', '<', '>', '\\', '{', '}']
  const InvalidDescription := "Invalid username"

  /** A name that passed `Parse`; the text is kept exactly as given. */
  datatype UserName = UserName(text: string)

  datatype Error = InvalidUsername(description: string)

  /** The Unicode White_Space property, which is what trimming strips. */
  predicate IsWhitespace(c: char)
  {
    ('\U{0009}' <= c <= '\U{000D}') || c == '\U{0020}' || c == '\U{0085}' || c == '\U{00A0}' || c == '\U{1680}'
    || ('\U{2000}' <= c <= '\U{200A}') || c == '\U{2028}' || c == '\U{2029}' || c == '\U{202F}'
    || c == '\U{205F}' || c == '\U{3000}'
  }

  /** Every character is white space (the empty string included). */
  predicate Blank(s: string)
  {
    forall i :: 0 <= i < |s| ==> IsWhitespace(s[i])
  }

  /** The first position at or after `i` that does not hold white space, or the end. */
  function SkipBlank(s: string, i: nat): (k: nat)
    requires i <= |s|
    ensures i <= k <= |s|
    ensures forall j :: i <= j < k ==> IsWhitespace(s[j])
    ensures k == |s| || !IsWhitespace(s[k])
    decreases |s| - i
  {
    if i < |s| && IsWhitespace(s[i]) then SkipBlank(s, i + 1) else i
  }

  /** The position just after the last character, up to `j`, that is not white space, or 0. */
  function SkipBlankBack(s: string, j: nat): (k: nat)
    requires j <= |s|
    ensures k <= j
    ensures forall i :: k <= i < j ==> IsWhitespace(s[i])
    ensures k == 0 || !IsWhitespace(s[k - 1])
  {
    if j > 0 && IsWhitespace(s[j - 1]) then SkipBlankBack(s, j - 1) else j
  }

  /** Leading white space removed. */
  function TrimStart(s: string): (r: string)
    ensures |r| <= |s| && r == s[|s| - |r|..]
    ensures Blank(s[..|s| - |r|])
    ensures r == [] || !IsWhitespace(r[0])
  {
    var k := SkipBlank(s, 0);
    assert forall i :: 0 <= i < k ==> s[..k][i] == s[i];
    s[k..]
  }

  /** Trailing white space removed. */
  function TrimEnd(s: string): (r: string)
    ensures |r| <= |s| && r == s[..|r|]
    ensures Blank(s[|r|..])
    ensures r == [] || !IsWhitespace(r[|r| - 1])
  {
    var k := SkipBlankBack(s, |s|);
    assert forall i :: 0 <= i < |s| - k ==> s[k..][i] == s[k + i];
    s[..k]
  }

  /** `str::trim`: white space removed from both ends. */
  function Trim(s: string): (r: string)
  {
    TrimEnd(TrimStart(s))
  }

  /** Trimming leaves nothing exactly when the string is blank. */
  lemma TrimEmptyIffBlank(s: string)
    ensures Trim(s) == [] <==> Blank(s)
  {
    var t := TrimStart(s);
    if !Blank(s) {
      var i :| 0 <= i < |s| && !IsWhitespace(s[i]);
      assert t[i - (|s| - |t|)] == s[i];
    }
  }

  predicate HasForbidden(s: string)
  {
    exists i :: 0 <= i < |s| && s[i] in Forbidden
  }

  /**
   * `UserName::parse`. `graphemes` is the number of extended grapheme
   * clusters of `s`, which the caller supplies.
   */
  function Parse(s: string, graphemes: nat): (r: Result<UserName, Error>)
    ensures r.Ok? <==> !Blank(s) && graphemes <= MaxGraphemes && !HasForbidden(s)
    ensures r.Ok? ==> r.value.text == s
    ensures r.Err? ==> r.error == InvalidUsername(InvalidDescription)
  {
    TrimEmptyIffBlank(s);
    var emptyOrWhitespace := Trim(s) == [];
    var tooLong := graphemes > MaxGraphemes;
    if emptyOrWhitespace || tooLong || HasForbidden(s) then Err(InvalidUsername(InvalidDescription))
    else Ok(UserName(s))
  }

  /** `as_ref`: the stored text. */
  function AsRef(n: UserName): (r: string)
  {
    n.text
  }

  /** An accepted name reads back through `as_ref` exactly as it was given. */
  lemma ParseThenAsRef(s: string, graphemes: nat)
    requires Parse(s, graphemes).Ok?
    ensures AsRef(Parse(s, graphemes).value) == s
  {
  }

  function Repeat(c: char, n: nat): (r: string)
    ensures |r| == n
    ensures forall i :: 0 <= i < n ==> r[i] == c
  {
    if n == 0 then [] else [c] + Repeat(c, n - 1)
  }

  /** 256 copies of the one-grapheme letter ё are accepted. */
  lemma LongestNameAccepted()
    ensures Parse(Repeat('\U{0451}', 256), 256).Ok?
  {
    var s := Repeat('\U{0451}', 256);
    assert !IsWhitespace(s[0]);
  }

  /** 257 copies of `a` are rejected. */
  lemma TooLongNameRejected()
    ensures Parse(Repeat('a', 257), 257).Err?
  {
  }

  /** A single space and the empty string are rejected. */
  lemma BlankNamesRejected()
    ensures Parse(" ", 1).Err?
    ensures Parse("", 0).Err?
  {
  }

  /** Each forbidden character on its own is rejected. */
  lemma ForbiddenCharactersRejected(c: char)
    requires c in Forbidden
    ensures Parse([c], 1).Err?
  {
    assert [c][0] == c;
  }

  /** "Bruce Wayne" is accepted. */
  lemma PlainNameAccepted()
    ensures Parse("Bruce Wayne", 11).Ok?
  {
    var s := "Bruce Wayne";
    assert !IsWhitespace(s[0]);
  }
}
