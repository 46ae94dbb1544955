/** Optional values, string helpers shared by every layer: Python's `str.lower`,
    `str.strip`, `in` on strings, `", ".join`, slicing and decimal rendering of
    integers (`str(n)` / `int(s)`). */
module Text {

  datatype Option<+T> = None | Some(value: T)

  /** Python truthiness of an optional string: present and non-empty. */
  predicate Truthy(s: Option<string>) {
    s.Some? && s.value != ""
  }

  /** Whitespace as Python's `\s` and `str.isspace` see it. */
  predicate IsSpace(c: char) {
    c == ' ' || c == '\t' || c == '\n' || c == '\r' || c == '\U{0B}' || c == '\U{0C}'
    || ('\U{1C}' <= c <= '\U{1F}') || c == '\U{85}' || c == '\U{A0}' || c == '\U{1680}'
    || ('\U{2000}' <= c <= '\U{200A}') || c == '\U{2028}' || c == '\U{2029}'
    || c == '\U{202F}' || c == '\U{205F}' || c == '\U{3000}'
  }

  predicate IsDigit(c: char) {
    '0' <= c <= '9'
  }

  predicate IsLetter(c: char) {
    ('a' <= c <= 'z') || ('A' <= c <= 'Z')
    || c == 'ª' || c == 'µ' || c == 'º'
    || ('À' <= c <= 'ÿ' && c != '×' && c != '÷')
  }

  /** Regex `\w`: letters, digits and underscore. */
  predicate IsWordChar(c: char) {
    IsLetter(c) || IsDigit(c) || c == '_'
  }

  /** `str.lower` on one character: ASCII and Latin-1 capitals. */
  function LowerChar(c: char): (r: char)
    ensures IsLetter(c) <==> IsLetter(r)
    ensures IsSpace(c) <==> IsSpace(r)
    ensures IsDigit(c) <==> IsDigit(r)
    ensures !('A' <= r <= 'Z')
  {
    if 'A' <= c <= 'Z' || ('À' <= c <= 'Þ' && c != '×') then
      (c as int + 32) as char
    else c
  }

  function Lower(s: string): (r: string)
    ensures |r| == |s|
    ensures forall i :: 0 <= i < |s| ==> r[i] == LowerChar(s[i])
  {
    if s == [] then [] else [LowerChar(s[0])] + Lower(s[1..])
  }

  lemma LowerIdempotent(s: string)
    ensures Lower(Lower(s)) == Lower(s)
  {
    assert forall i :: 0 <= i < |s| ==> LowerChar(LowerChar(s[i])) == LowerChar(s[i]);
  }

  /** `sub in s` for strings. */
  predicate Contains(s: string, sub: string)
    decreases |s|
  {
    sub <= s || (s != [] && Contains(s[1..], sub))
  }

  lemma AppendAssociates(a: string, b: string, c: string)
    ensures a + b + c == a + (b + c)
  {
  }

  lemma {:induction false} ContainsAt(s: string, sub: string, i: nat)
    requires i + |sub| <= |s| && s[i..i + |sub|] == sub
    ensures Contains(s, sub)
    decreases i
  {
    if i == 0 {
      assert sub <= s;
    } else {
      assert s[1..][i - 1..i - 1 + |sub|] == sub;
      ContainsAt(s[1..], sub, i - 1);
    }
  }

  lemma ContainsSuffix(a: string, b: string)
    ensures Contains(a + b, b)
  {
    assert (a + b)[|a|..|a| + |b|] == b;
    ContainsAt(a + b, b, |a|);
  }

  lemma ContainsPrefix(a: string, b: string)
    ensures Contains(a + b, a)
  {
    assert (a + b)[0..|a|] == a;
    ContainsAt(a + b, a, 0);
  }

  /** Whatever contains `a + b` contains `a`. */
  lemma {:induction false} ContainsShorter(s: string, a: string, b: string)
    requires Contains(s, a + b)
    ensures Contains(s, a)
    decreases |s|
  {
    if !(a + b <= s) {
      ContainsShorter(s[1..], a, b);
    } else {
      assert (a + b)[..|a|] == a;
    }
  }

  /** Whatever contains `a + b` contains `b`. */
  lemma {:induction false} ContainsMiddle(s: string, a: string, b: string)
    requires Contains(s, a + b)
    ensures Contains(s, b)
    decreases |s|
  {
    if a + b <= s {
      assert s[|a|..|a| + |b|] == (a + b)[|a|..];
      ContainsAt(s, b, |a|);
    } else {
      ContainsMiddle(s[1..], a, b);
      ContainsGrow([s[0]], s[1..], [], b);
      assert [s[0]] + s[1..] + [] == s;
    }
  }

  lemma {:induction false} ContainsGrow(a: string, b: string, c: string, sub: string)
    requires Contains(b, sub)
    ensures Contains(a + b + c, sub)
    decreases |b|
  {
    if sub <= b {
      assert (a + b + c)[|a|..|a| + |sub|] == b[..|sub|];
      ContainsAt(a + b + c, sub, |a|);
    } else {
      assert b != [] && Contains(b[1..], sub);
      ContainsGrow(a + [b[0]], b[1..], c, sub);
      assert a + [b[0]] + b[1..] + c == a + b + c;
    }
  }

  function DropLeadingSpace(s: string): (r: string)
    ensures |r| <= |s|
    ensures r == [] || !IsSpace(r[0])
  {
    if s != [] && IsSpace(s[0]) then DropLeadingSpace(s[1..]) else s
  }

  /** What `lstrip` removes is a run of whitespace at the front. */
  lemma {:induction false} DropLeadingSpaceShape(s: string)
    ensures var r := DropLeadingSpace(s);
      r == s[|s| - |r|..] && forall i :: 0 <= i < |s| - |r| ==> IsSpace(s[i])
  {
    if s != [] && IsSpace(s[0]) {
      DropLeadingSpaceShape(s[1..]);
    }
  }

  function DropTrailingSpace(s: string): (r: string)
    ensures |r| <= |s|
    ensures r == [] || !IsSpace(r[|r| - 1])
  {
    if s != [] && IsSpace(s[|s| - 1]) then DropTrailingSpace(s[..|s| - 1]) else s
  }

  /** What `rstrip` removes is a run of whitespace at the back. */
  lemma {:induction false} DropTrailingSpaceShape(s: string)
    ensures var r := DropTrailingSpace(s);
      r == s[..|r|] && forall i :: |r| <= i < |s| ==> IsSpace(s[i])
  {
    if s != [] && IsSpace(s[|s| - 1]) {
      DropTrailingSpaceShape(s[..|s| - 1]);
    }
  }

  /** `str.strip()`: the result neither starts nor ends with whitespace. */
  function Strip(s: string): (r: string)
    ensures r == [] || (!IsSpace(r[0]) && !IsSpace(r[|r| - 1]))
    ensures |r| <= |s|
  {
    DropTrailingSpaceShape(DropLeadingSpace(s));
    DropTrailingSpace(DropLeadingSpace(s))
  }

  /** What `str.strip()` keeps is a contiguous part of its input. */
  lemma StripIsSlice(s: string)
    ensures var a := |s| - |DropLeadingSpace(s)|;
      a + |Strip(s)| <= |s| && Strip(s) == s[a..a + |Strip(s)|]
  {
    var t := DropLeadingSpace(s);
    var a := |s| - |t|;
    DropLeadingSpaceShape(s);
    DropTrailingSpaceShape(t);
    assert Strip(s) == t[..|Strip(s)|];
    assert t == s[a..];
  }

  /** `s[:n]` */
  function Take<T>(s: seq<T>, n: nat): (r: seq<T>)
    ensures |r| == if |s| <= n then |s| else n
    ensures r <= s
  {
    if |s| <= n then s else s[..n]
  }

  /** `sep.join(parts)` */
  function Join(sep: string, parts: seq<string>): string
  {
    if |parts| == 0 then ""
    else if |parts| == 1 then parts[0]
    else parts[0] + sep + Join(sep, parts[1..])
  }

  lemma JoinStartsWith(sep: string, parts: seq<string>)
    requires |parts| >= 2
    ensures Join(sep, parts) == parts[0] + sep + Join(sep, parts[1..])
  {
  }

  /** Join ends with its last part. */
  lemma {:induction false} JoinEndsWith(sep: string, parts: seq<string>)
    requires |parts| >= 1
    ensures |Join(sep, parts)| >= |parts[|parts| - 1]|
    ensures Join(sep, parts)[|Join(sep, parts)| - |parts[|parts| - 1]|..] == parts[|parts| - 1]
    decreases |parts|
  {
    if |parts| > 1 {
      JoinEndsWith(sep, parts[1..]);
      var j := Join(sep, parts[1..]);
      assert Join(sep, parts) == (parts[0] + sep) + j;
    }
  }

  lemma {:induction false} JoinContainsPart(sep: string, parts: seq<string>, i: nat)
    requires i < |parts|
    ensures Contains(Join(sep, parts), parts[i])
    decreases |parts|
  {
    if |parts| == 1 {
      assert Join(sep, parts) == [] + parts[0] + [];
      ContainsPrefix(parts[0], []);
    } else if i == 0 {
      ContainsPrefix(parts[0], sep + Join(sep, parts[1..]));
      assert Join(sep, parts) == parts[0] + (sep + Join(sep, parts[1..]));
    } else {
      JoinContainsPart(sep, parts[1..], i - 1);
      ContainsGrow(parts[0] + sep, Join(sep, parts[1..]), [], parts[i]);
      assert parts[0] + sep + Join(sep, parts[1..]) + [] == Join(sep, parts);
    }
  }

  /** End of the run of whitespace starting at `p`. */
  function SpaceRunEnd(s: string, p: nat): (e: nat)
    requires p <= |s|
    ensures p <= e <= |s|
    ensures forall i :: p <= i < e ==> IsSpace(s[i])
    ensures e == |s| || !IsSpace(s[e])
    decreases |s| - p
  {
    if p < |s| && IsSpace(s[p]) then SpaceRunEnd(s, p + 1) else p
  }

  /** Text without capitals is its own lower-case form. */
  lemma LowerOfLowercase(s: string)
    requires forall i :: 0 <= i < |s| ==> !('A' <= s[i] <= 'Z') && !('À' <= s[i] <= 'Þ')
    ensures Lower(s) == s
  {
  }

  // ---- decimal rendering and parsing ------------------------------------------------

  function DigitChar(d: nat): (c: char)
    requires d < 10
    ensures IsDigit(c)
  {
    ('0' as int + d) as char
  }

  function DigitValue(c: char): nat
    requires IsDigit(c)
  {
    c as int - '0' as int
  }

  predicate AllDigits(s: string) {
    forall i :: 0 <= i < |s| ==> IsDigit(s[i])
  }

  /** `str(n)` for a natural number. */
  function NatToString(n: nat): (r: string)
    ensures |r| >= 1 && AllDigits(r)
    ensures r[0] != '-'
  {
    if n < 10 then [DigitChar(n)] else NatToString(n / 10) + [DigitChar(n % 10)]
  }

  /** `str(n)` for any integer. */
  function IntToString(n: int): string
  {
    if n < 0 then "-" + NatToString(-n) else NatToString(n)
  }

  /** `int(s)` for a string of decimal digits. */
  function ParseNat(s: string): nat
    requires AllDigits(s)
  {
    if s == [] then 0 else ParseNat(s[..|s| - 1]) * 10 + DigitValue(s[|s| - 1])
  }

  /** Reading back what `str(n)` wrote gives `n`. */
  lemma {:induction false} ParseNatToString(n: nat)
    ensures ParseNat(NatToString(n)) == n
  {
    if n >= 10 {
      var s := NatToString(n);
      ParseNatToString(n / 10);
      assert s[..|s| - 1] == NatToString(n / 10);
    }
  }

  lemma NatToStringInjective(a: nat, b: nat)
    ensures NatToString(a) == NatToString(b) <==> a == b
  {
    if NatToString(a) == NatToString(b) {
      ParseNatToString(a);
      ParseNatToString(b);
    }
  }

  lemma IntToStringInjective(a: int, b: int)
    ensures IntToString(a) == IntToString(b) <==> a == b
  {
    if IntToString(a) == IntToString(b) {
      if a < 0 && b < 0 {
        assert NatToString(-a) == IntToString(a)[1..];
        NatToStringInjective(-a, -b);
      } else if a >= 0 && b >= 0 {
        NatToStringInjective(a, b);
      }
    }
  }
}
