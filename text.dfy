/** The few Python string operations the orchestrator relies on: `startswith`,
    `endswith`, `removesuffix`, `strip` (on `str` and on `bytes`) and the decimal
    rendering `f"{n}"` of an integer. */
module Text {

  /** Python's `s.startswith(prefix)`. */
  predicate StartsWith(s: string, prefix: string) {
    |prefix| <= |s| && s[..|prefix|] == prefix
  }

  /** Python's `s.endswith(suffix)`. */
  predicate EndsWith(s: string, suffix: string) {
    |suffix| <= |s| && s[|s| - |suffix|..] == suffix
  }

  /** A string keeps every prefix of its beginning when more is appended. */
  lemma StartsWithConcat(p: string, rest: string, q: string)
    requires StartsWith(p, q)
    ensures StartsWith(p + rest, q)
  {
    assert (p + rest)[..|q|] == p[..|q|];
  }

  /** A string whose beginning differs from `q` at some position does not start with `q`. */
  lemma MismatchConcat(p: string, rest: string, q: string, k: int)
    requires 0 <= k < |p| && k < |q| && p[k] != q[k]
    ensures !StartsWith(p + rest, q)
  {
    assert (p + rest)[k] == p[k];
  }

  /** Python's `s.removesuffix(suffix)`: drops one occurrence of a non-empty
      suffix at the end, and otherwise returns `s` itself. */
  function RemoveSuffix(s: string, suffix: string): (r: string)
    ensures EndsWith(s, suffix) ==> r + suffix == s
    ensures !EndsWith(s, suffix) ==> r == s
  {
    if suffix != "" && EndsWith(s, suffix) then s[..|s| - |suffix|] else s
  }

  /** The characters `str.strip()` removes (exactly those for which Python's
      `str.isspace()` holds), or, on `bytes`, the six ASCII whitespace bytes that
      `bytes.strip()` removes. */
  predicate IsSpace(c: char, bytesMode: bool) {
    if bytesMode then
      c == ' ' || '\t' <= c <= '\r'
    else
      ('\t' <= c <= '\r') || ('\U{1C}' <= c <= '\U{1F}') || c == ' '
      || c == '\U{85}' || c == '\U{A0}' || c == '\U{1680}'
      || ('\U{2000}' <= c <= '\U{200A}') || c == '\U{2028}' || c == '\U{2029}'
      || c == '\U{202F}' || c == '\U{205F}' || c == '\U{3000}'
  }

  /** Removes the leading characters of `s` for which `space` holds. */
  function StripStart(s: string, space: char -> bool): string {
    if s != [] && space(s[0]) then StripStart(s[1..], space) else s
  }

  /** What `StripStart` keeps is a suffix of `s` not starting with a space,
      and all it drops is spaces. */
  lemma {:induction false} StripStartFacts(s: string, space: char -> bool)
    ensures var r := StripStart(s, space);
      && |r| <= |s| && r == s[|s| - |r|..]
      && (r == [] || !space(r[0]))
      && (forall i :: 0 <= i < |s| - |r| ==> space(s[i]))
  {
    if s != [] && space(s[0]) {
      StripStartFacts(s[1..], space);
      var r := StripStart(s, space);
      forall i | 0 <= i < |s| - |r|
        ensures space(s[i])
      {
        if i > 0 {
          assert s[i] == s[1..][i - 1];
        }
      }
    }
  }

  /** Removes the trailing characters of `s` for which `space` holds. */
  function StripEnd(s: string, space: char -> bool): string {
    if s != [] && space(s[|s| - 1]) then StripEnd(s[..|s| - 1], space) else s
  }

  /** What `StripEnd` keeps is a prefix of `s` not ending with a space, and all
      it drops is spaces. */
  lemma {:induction false} StripEndFacts(s: string, space: char -> bool)
    ensures var r := StripEnd(s, space);
      && |r| <= |s| && r == s[..|r|]
      && (r == [] || !space(r[|r| - 1]))
      && (forall i :: |r| <= i < |s| ==> space(s[i]))
  {
    if s != [] && space(s[|s| - 1]) {
      StripEndFacts(s[..|s| - 1], space);
      var r := StripEnd(s, space);
      forall i | |r| <= i < |s|
        ensures space(s[i])
      {
        if i < |s| - 1 {
          assert s[i] == s[..|s| - 1][i];
        }
      }
    }
  }

  function StripWith(s: string, space: char -> bool): string {
    StripEnd(StripStart(s, space), space)
  }

  /** Python's `s.strip()` with no argument: whitespace removed at both ends. */
  function Strip(s: string, bytesMode: bool): string {
    StripWith(s, c => IsSpace(c, bytesMode))
  }

  /** `r` is the slice of `s` starting at `i`, and everything of `s` around it is whitespace. */
  ghost predicate CutAt(s: string, r: string, i: int, space: char -> bool) {
    0 <= i <= |s| - |r| && s[i..i + |r|] == r
    && (forall j :: 0 <= j < i ==> space(s[j]))
    && (forall j :: i + |r| <= j < |s| ==> space(s[j]))
  }

  /** `r` is `s` with some whitespace cut at both ends and none left at either end. */
  ghost predicate IsStrippedForm(s: string, r: string, space: char -> bool) {
    (r == [] || (!space(r[0]) && !space(r[|r| - 1])))
    && exists i :: CutAt(s, r, i, space)
  }

  /** Stripping keeps the one slice of `s` that starts and ends with a
      non-whitespace character and cuts only whitespace around it. */
  lemma StripIsStrippedForm(s: string, space: char -> bool)
    ensures IsStrippedForm(s, StripWith(s, space), space)
  {
    var t := StripStart(s, space);
    var r := StripEnd(t, space);
    StripStartFacts(s, space);
    StripEndFacts(t, space);
    var i := |s| - |t|;
    assert s[i..i + |r|] == r by {
      assert s[i..] == t;
      assert t[..|r|] == r;
      assert s[i..][..|r|] == s[i..i + |r|];
    }
    forall j | i + |r| <= j < |s|
      ensures space(s[j])
    {
      assert s[j] == t[j - i];
    }
    assert CutAt(s, r, i, space);
    assert r != [] ==> r[0] == t[0];
  }

  /** A non-whitespace character of `s` lies inside every slice that cuts only whitespace. */
  lemma NonSpaceInside(s: string, r: string, i: int, space: char -> bool, k: int)
    requires CutAt(s, r, i, space)
    requires 0 <= k < |s| && !space(s[k])
    ensures i <= k < i + |r|
  {
  }

  /** Two slices of that shape are the same slice. */
  lemma CutsAgree(s: string, r: string, i: int, r': string, i': int, space: char -> bool)
    requires CutAt(s, r, i, space) && (r == [] || (!space(r[0]) && !space(r[|r| - 1])))
    requires CutAt(s, r', i', space) && (r' == [] || (!space(r'[0]) && !space(r'[|r'| - 1])))
    ensures r == r'
  {
    if r != [] {
      assert s[i] == r[0] && s[i + |r| - 1] == r[|r| - 1];
      NonSpaceInside(s, r', i', space, i);
      NonSpaceInside(s, r', i', space, i + |r| - 1);
    }
    if r' != [] {
      assert s[i'] == r'[0] && s[i' + |r'| - 1] == r'[|r'| - 1];
      NonSpaceInside(s, r, i, space, i');
      NonSpaceInside(s, r, i, space, i' + |r'| - 1);
    }
  }

  /** Only one slice has that shape, so stripping is characterised by it. */
  lemma StrippedFormUnique(s: string, r: string, space: char -> bool)
    requires IsStrippedForm(s, r, space)
    ensures r == StripWith(s, space)
  {
    var i :| CutAt(s, r, i, space);
    StripIsStrippedForm(s, space);
    var r' := StripWith(s, space);
    var i' :| CutAt(s, r', i', space);
    CutsAgree(s, r, i, r', i', space);
  }

  /** Stripping twice is stripping once. */
  lemma StripIdempotent(s: string, space: char -> bool)
    ensures StripWith(StripWith(s, space), space) == StripWith(s, space)
  {
    var t := StripStart(s, space);
    var r := StripWith(s, space);
    StripStartFacts(s, space);
    StripEndFacts(t, space);
    assert r != [] ==> r[0] == t[0];
    assert StripStart(r, space) == r;
  }

  function DigitChar(d: nat): (c: char)
    requires d < 10
  {
    "0123456789"[d]
  }

  function DigitValue(c: char): nat {
    if '0' <= c <= '9' then (c as int - '0' as int) as nat else 0
  }

  predicate IsDigits(s: string) {
    s != [] && forall i :: 0 <= i < |s| ==> '0' <= s[i] <= '9'
  }

  /** Decimal digits of `n`, most significant first, as `str(n)` writes them. */
  function NatToString(n: nat): (r: string)
    ensures IsDigits(r)
    ensures r[0] == '0' ==> n == 0
  {
    if n < 10 then [DigitChar(n)] else NatToString(n / 10) + [DigitChar(n % 10)]
  }

  /** Python's `f"{n}"` for an `int`: a minus sign before the digits of a negative number. */
  function IntToString(n: int): string {
    if n < 0 then "-" + NatToString(-n) else NatToString(n)
  }

  /** Reads a string of decimal digits back as a number. */
  function ParseNat(s: string): nat {
    if s == [] then 0 else 10 * ParseNat(s[..|s| - 1]) + DigitValue(s[|s| - 1])
  }

  /** Reading the decimal rendering back gives the number again. */
  lemma {:induction false} ParseNatToString(n: nat)
    ensures ParseNat(NatToString(n)) == n
  {
    var s := NatToString(n);
    if n >= 10 {
      ParseNatToString(n / 10);
      assert s[..|s| - 1] == NatToString(n / 10);
    }
  }

  /** Distinct numbers render to distinct strings, so the rendering can be read back. */
  lemma IntToStringInjective(m: int, n: int)
    requires IntToString(m) == IntToString(n)
    ensures m == n
  {
    var a, b := IntToString(m), IntToString(n);
    assert a[0] == '-' <==> m < 0;
    assert b[0] == '-' <==> n < 0;
    var am := if m < 0 then a[1..] else a;
    var bn := if n < 0 then b[1..] else b;
    assert am == NatToString(if m < 0 then -m else m);
    assert bn == NatToString(if n < 0 then -n else n);
    ParseNatToString(if m < 0 then -m else m);
    ParseNatToString(if n < 0 then -n else n);
  }
}
