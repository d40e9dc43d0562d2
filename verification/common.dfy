/** Values shared by every module of the model: optional values, results
    that carry a raised Python exception, Python truthiness of strings, and
    the string operations the request path uses (`str.strip`, `str.upper`,
    the `in` substring test). */
module Common {

  datatype Option<+T> = None | Some(value: T)

  /** The outcome of a Python call: a value, or the exception it raised. */
  datatype Result<+T, +E> = Ok(value: T) | Err(error: E)

  /** The exception classes the core raises, catches or re-raises. */
  datatype ExcKind =
    | ValueError
    | RuntimeError
    | AttributeError
    | KeyError
    | OSError
    | RequestException
    | ZeroDivisionError
    | TypeError
    | UnboundLocalError
    | PydanticUserError
    | OtherException

  /** A raised exception: its class and `str(e)`. */
  datatype Exc = Exc(kind: ExcKind, message: string)

  /** `str(e)` of a Python `ValueError(text)`. */
  function ValueErr(text: string): (e: Exc)
    ensures e.kind == ValueError && e.message == text
  {
    Exc(ValueError, text)
  }

  /** `repr(text)` for text without backslashes or unprintable characters: in single
      quotes, unless the text holds a single quote and no double quote. */
  function Repr(text: string): (q: string)
    ensures |q| == |text| + 2 && q[1..|q| - 1] == text
    ensures q[0] == q[|q| - 1] == if '\'' in text && '"' !in text then '"' else '\''
  {
    var quote := if '\'' in text && '"' !in text then '"' else '\'';
    [quote] + text + [quote]
  }

  /** The handler `except OSError as e: raise ValueError(prefix + str(e))`: an `OSError`
      becomes a `ValueError` carrying the prefix, and any other exception escapes unchanged. */
  function CatchOsError(e: Exc, prefix: string): (r: Exc)
    ensures e.kind == OSError ==> r == ValueErr(prefix + e.message)
    ensures e.kind != OSError ==> r == e
  {
    if e.kind == OSError then ValueErr(prefix + e.message) else e
  }

  /** Python truthiness of an optional string (`if value:`): present and non-empty. */
  predicate Truthy(o: Option<string>)
  {
    o.Some? && o.value != ""
  }

  /** Characters for which Python's `str.isspace()` holds. */
  predicate IsSpace(c: char)
  {
    c == ' ' || ('\t' <= c <= '\r') || ('\U{1C}' <= c <= '\U{1F}')
    || c == '\U{85}' || c == '\U{A0}' || c == '\U{1680}'
    || ('\U{2000}' <= c <= '\U{200A}') || c == '\U{2028}' || c == '\U{2029}'
    || c == '\U{202F}' || c == '\U{205F}' || c == '\U{3000}'
  }

  /** `s.lstrip()` */
  function StripLeft(s: string): (r: string)
    ensures |r| <= |s| && r == s[|s| - |r|..]
    ensures r == [] || !IsSpace(r[0])
    ensures forall i :: 0 <= i < |s| - |r| ==> IsSpace(s[i])
  {
    if s != [] && IsSpace(s[0]) then
      var r := StripLeft(s[1..]);
      assert forall i :: 1 <= i < |s| - |r| ==> s[1..][i - 1] == s[i];
      r
    else s
  }

  /** `s.rstrip()` */
  function StripRight(s: string): (r: string)
    ensures |r| <= |s| && r == s[..|r|]
    ensures r == [] || !IsSpace(r[|r| - 1])
    ensures forall i :: |r| <= i < |s| ==> IsSpace(s[i])
  {
    if s != [] && IsSpace(s[|s| - 1]) then StripRight(s[..|s| - 1]) else s
  }

  /** `s.strip()`: the longest infix of `s` that neither starts nor ends with whitespace. */
  function Strip(s: string): (r: string)
    ensures |r| <= |s| && |s| - |StripLeft(s)| + |r| <= |s|
    ensures r == s[|s| - |StripLeft(s)|..|s| - |StripLeft(s)| + |r|]
    ensures forall i :: 0 <= i < |s| - |StripLeft(s)| || |s| - |StripLeft(s)| + |r| <= i < |s| ==> IsSpace(s[i])
    ensures r == [] || (!IsSpace(r[0]) && !IsSpace(r[|r| - 1]))
  {
    var l := StripLeft(s);
    var r := StripRight(l);
    StripInfix(s, l, r);
    r
  }

  /** The right strip of the left strip lies inside `s`, with whitespace on either side. */
  lemma StripInfix(s: string, l: string, r: string)
    requires |l| <= |s| && l == s[|s| - |l|..]
    requires forall i :: 0 <= i < |s| - |l| ==> IsSpace(s[i])
    requires |r| <= |l| && r == l[..|r|]
    requires forall i :: |r| <= i < |l| ==> IsSpace(l[i])
    ensures r == s[|s| - |l|..|s| - |l| + |r|]
    ensures forall i :: 0 <= i < |s| - |l| || |s| - |l| + |r| <= i < |s| ==> IsSpace(s[i])
  {
    var k := |s| - |l|;
    forall i | k + |r| <= i < |s|
      ensures IsSpace(s[i])
    {
      assert l[i - k] == s[i];
    }
  }

  /** The stripped text is empty exactly when every character is whitespace. */
  lemma StripEmptyIff(s: string)
    ensures Strip(s) == [] <==> forall i :: 0 <= i < |s| ==> IsSpace(s[i])
  {
    var l := StripLeft(s);
    if Strip(s) == [] {
      assert StripRight(l) == [];
    } else {
      assert !IsSpace(l[0]);
      assert s[|s| - |l|] == l[0];
    }
  }

  /** Stripping twice is stripping once. */
  lemma StripIdempotent(s: string)
    ensures Strip(Strip(s)) == Strip(s)
  {
    var r := Strip(s);
    assert r == [] || !IsSpace(r[0]);
    assert StripLeft(r) == r;
    assert r == [] || !IsSpace(r[|r| - 1]);
  }

  /** `c.upper()` on ASCII: a lower-case letter becomes its capital, anything else is kept.
      Python also upper-cases non-ASCII letters, which this model does not. */
  function UpperChar(c: char): (u: char)
    ensures 'a' <= c <= 'z' ==> u as int == c as int - 32
    ensures !('a' <= c <= 'z') ==> u == c
  {
    if 'a' <= c <= 'z' then (c as int - 32) as char else c
  }

  /** `s.upper()`, character by character. */
  function Upper(s: string): (r: string)
    ensures |r| == |s|
    ensures forall i :: 0 <= i < |s| ==> r[i] == UpperChar(s[i])
  {
    if s == [] then [] else [UpperChar(s[0])] + Upper(s[1..])
  }

  /** Python's `sub in s`: `sub` occurs in `s` at some position. */
  predicate Contains(s: string, sub: string)
  {
    exists i :: 0 <= i <= |s| && sub <= s[i..]
  }

  /** A text whose characters never include the first character of `sub` does not contain `sub`. */
  lemma NotContainsWithoutFirstChar(s: string, sub: string)
    requires sub != [] && sub[0] !in s
    ensures !Contains(s, sub)
  {
    forall i | 0 <= i <= |s|
      ensures !(sub <= s[i..])
    {
      if i < |s| {
        assert s[i] in s;
        assert s[i..][0] == s[i];
      }
    }
  }

  /** A text contains every piece it is assembled from. */
  lemma ContainsPiece(a: string, b: string, c: string)
    ensures Contains(a + b + c, b)
  {
    var s := a + b + c;
    assert s[|a|..][..|b|] == b;
  }

  /** A text that starts with `sub` contains it. */
  lemma ContainsPrefix(sub: string, rest: string)
    ensures Contains(sub + rest, sub)
  {
    assert (sub + rest)[0..] == sub + rest;
  }

  /** A text contains whatever a piece of it contains. */
  lemma ContainsWithin(a: string, b: string, c: string, sub: string)
    requires Contains(b, sub)
    ensures Contains(a + b + c, sub)
  {
    var i :| 0 <= i <= |b| && sub <= b[i..];
    var s := a + b + c;
    assert s[|a| + i..][..|sub|] == b[i..][..|sub|];
  }
}
