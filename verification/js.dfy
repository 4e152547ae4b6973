/** The few pieces of JavaScript semantics the client leans on everywhere:
    optional (`null`/`undefined`) values, truthiness of strings, and the
    String methods `startsWith`, `includes` and `trim`. */
module Js {

  datatype Option<+T> = None | Some(value: T)

  /** `if (s)` on a `string | null | undefined`: absent and "" are falsy. */
  predicate Truthy(s: Option<string>) {
    s.Some? && s.value != ""
  }

  /** `s.startsWith(prefix)` */
  predicate StartsWith(s: string, prefix: string) {
    |prefix| <= |s| && s[..|prefix|] == prefix
  }

  /** `s.includes(sub)`: some position of `s` starts an occurrence of `sub`. */
  predicate Includes(s: string, sub: string)
    decreases |s|
  {
    StartsWith(s, sub) || (s != [] && Includes(s[1..], sub))
  }

  /** Every character of an included string occurs in the string. */
  lemma {:induction false} IncludedCharOccurs(s: string, sub: string, c: char)
    requires Includes(s, sub) && c in sub
    ensures c in s
    decreases |s|
  {
    if StartsWith(s, sub) {
      assert c in s[..|sub|];
    } else {
      IncludedCharOccurs(s[1..], sub, c);
    }
  }

  /** A string that includes `sub` includes every prefix of `sub`. */
  lemma {:induction false} IncludesPrefix(s: string, sub: string, pre: string)
    requires Includes(s, sub) && StartsWith(sub, pre)
    ensures Includes(s, pre)
    decreases |s|
  {
    if StartsWith(s, sub) {
      assert s[..|pre|] == s[..|sub|][..|pre|];
    } else {
      IncludesPrefix(s[1..], sub, pre);
    }
  }

  /** `s.includes(sub)` holds exactly when `sub` occurs at some offset of `s`. */
  lemma {:induction false} IncludesAt(s: string, sub: string, i: nat)
    requires i + |sub| <= |s| && s[i..i + |sub|] == sub
    ensures Includes(s, sub)
    decreases i
  {
    if i == 0 {
      assert s[..|sub|] == s[0..|sub|];
    } else {
      assert s[1..][i - 1..i - 1 + |sub|] == s[i..i + |sub|];
      IncludesAt(s[1..], sub, i - 1);
    }
  }

  /** The characters `String.prototype.trim` removes: the WhiteSpace and
      LineTerminator code points of ECMAScript (section 12.2 and 12.3 of
      ECMA-262), the Unicode space separators included. */
  predicate IsJsWhitespace(c: char) {
    c == ' ' || c == '\t' || c == '\n' || c == '\r' || c == '\U{B}' || c == '\U{C}'
    || c == '\U{A0}' || c == '\U{1680}' || ('\U{2000}' <= c <= '\U{200A}')
    || c == '\U{2028}' || c == '\U{2029}' || c == '\U{202F}' || c == '\U{205F}'
    || c == '\U{3000}' || c == '\U{FEFF}'
  }

  /** Every character of `s` is whitespace (the empty string included). */
  predicate IsBlank(s: string) {
    forall i | 0 <= i < |s| :: IsJsWhitespace(s[i])
  }

  function TrimStart(s: string): (r: string)
    ensures |r| <= |s| && r == s[|s| - |r|..]
    ensures r == [] || !IsJsWhitespace(r[0])
    ensures IsBlank(s[..|s| - |r|])
  {
    if s != [] && IsJsWhitespace(s[0]) then TrimStart(s[1..]) else s
  }

  function TrimEnd(s: string): (r: string)
    ensures |r| <= |s| && r == s[..|r|]
    ensures r == [] || !IsJsWhitespace(r[|r| - 1])
    ensures IsBlank(s[|r|..])
  {
    if s != [] && IsJsWhitespace(s[|s| - 1]) then TrimEnd(s[..|s| - 1]) else s
  }

  /** `s.trim()`: the infix of `s` left after dropping leading and trailing
      whitespace. */
  function Trim(s: string): (r: string)
    ensures |r| <= |TrimEnd(s)| && r == s[|TrimEnd(s)| - |r|..|TrimEnd(s)|]
    ensures r == [] || (!IsJsWhitespace(r[0]) && !IsJsWhitespace(r[|r| - 1]))
    ensures IsBlank(s[..|TrimEnd(s)| - |r|]) && IsBlank(s[|TrimEnd(s)|..])
  {
    var e := TrimEnd(s);
    var r := TrimStart(e);
    assert r == s[|e| - |r|..|e|];
    assert s[..|e| - |r|] == e[..|e| - |r|];
    r
  }

  /** A blank trim comes from a blank string: the end-trimmed part is empty,
      and what `TrimEnd` dropped is all whitespace. */
  lemma TrimEmptyOnlyIfBlank(s: string)
    requires Trim(s) == []
    ensures IsBlank(s)
  {
    var e := TrimEnd(s);
    var r := TrimStart(e);
    assert r == Trim(s) == [];
    assert IsBlank(e[..|e| - |r|]);
    assert e[..|e| - |r|] == e;
    assert e == [];
    assert IsBlank(s[|e|..]);
    assert s[|e|..] == s;
  }

  /** A non-blank trim keeps a character of `s` that is not whitespace. */
  lemma TrimNonEmptyOnlyIfNotBlank(s: string)
    requires Trim(s) != []
    ensures !IsBlank(s)
  {
    var e := TrimEnd(s);
    var r := Trim(s);
    assert r[0] == s[|e| - |r|];
  }

  /** `s.trim()` is empty exactly when `s` is blank: the test behind every
      "ignore whitespace-only input" guard of the client. */
  lemma TrimEmptyIffBlank(s: string)
    ensures Trim(s) == [] <==> IsBlank(s)
  {
    if Trim(s) == [] {
      TrimEmptyOnlyIfBlank(s);
    } else {
      TrimNonEmptyOnlyIfNotBlank(s);
    }
  }

  /** `s.trim()` leaves a string without surrounding whitespace unchanged. */
  lemma TrimOfTrimmed(s: string)
    requires s == [] || (!IsJsWhitespace(s[0]) && !IsJsWhitespace(s[|s| - 1]))
    ensures Trim(s) == s
  {
  }
}
