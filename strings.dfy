/**
 * The parts of Go's `strings` package that the matching engine relies on,
 * over `string` = `seq<char>`. `ToLower` is ASCII lowercasing; `TrimSpace`
 * trims the characters Go's `unicode.IsSpace` reports as white space.
 */
module GoStrings {

  /** ASCII lowercasing of one character. */
  function LowerChar(c: char): char {
    if 'A' <= c <= 'Z' then (c as int + 32) as char else c
  }

  /** `strings.ToLower`, restricted to ASCII case mapping. */
  function ToLower(s: string): (r: string)
    ensures |r| == |s|
  {
    seq(|s|, i requires 0 <= i < |s| => LowerChar(s[i]))
  }

  predicate HasPrefix(s: string, p: string) {
    |p| <= |s| && s[..|p|] == p
  }

  /** `strings.Contains(s, sub)`: `sub` occurs somewhere in `s` (the empty string occurs everywhere). */
  predicate Contains(s: string, sub: string)
    decreases |s|
  {
    HasPrefix(s, sub) || (|s| > 0 && Contains(s[1..], sub))
  }

  /** `sub` occurs in any string that has it in the middle. */
  lemma {:induction false} ContainsInfix(a: string, sub: string, b: string)
    ensures Contains(a + sub + b, sub)
  {
    if a == [] {
      assert (a + sub + b)[..|sub|] == sub;
    } else {
      assert (a + sub + b)[1..] == a[1..] + sub + b;
      ContainsInfix(a[1..], sub, b);
    }
  }

  /** `strings.Count(s, string(c))`: the number of occurrences of one character. */
  function Count(s: string, c: char): nat {
    if s == [] then 0 else (if s[0] == c then 1 else 0) + Count(s[1..], c)
  }

  /** `strings.Split(s, string(d))` for a one-character separator. */
  function Split(s: string, d: char): (parts: seq<string>)
    ensures |parts| >= 1
  {
    if s == [] then [""]
    else
      var rest := Split(s[1..], d);
      if s[0] == d then [""] + rest else [[s[0]] + rest[0]] + rest[1..]
  }

  /** Joins pieces with a one-character separator; the inverse of `Split`. */
  function Join(parts: seq<string>, d: char): string
    requires |parts| >= 1
  {
    if |parts| == 1 then parts[0] else parts[0] + [d] + Join(parts[1..], d)
  }

  /** Text before an occurrence keeps it. */
  lemma {:induction false} ContainsPrepend(a: string, b: string, sub: string)
    requires Contains(b, sub)
    ensures Contains(a + b, sub)
    decreases |a|
  {
    if a == [] {
      assert a + b == b;
    } else {
      ContainsPrepend(a[1..], b, sub);
      assert (a + b)[1..] == a[1..] + b;
    }
  }

  /** Text after an occurrence keeps it. */
  lemma {:induction false} ContainsAppend(b: string, c: string, sub: string)
    requires Contains(b, sub)
    ensures Contains(b + c, sub)
    decreases |b|
  {
    if HasPrefix(b, sub) {
      assert (b + c)[..|sub|] == b[..|sub|];
    } else {
      ContainsAppend(b[1..], c, sub);
      assert (b + c)[1..] == b[1..] + c;
    }
  }

  /** Every piece occurs in the joined string. */
  lemma {:induction false} JoinContainsPieces(parts: seq<string>, d: char, i: int)
    requires |parts| >= 1 && 0 <= i < |parts|
    ensures Contains(Join(parts, d), parts[i])
    decreases |parts|
  {
    if |parts| == 1 {
      ContainsInfix("", parts[0], "");
      assert "" + parts[0] + "" == parts[0];
    } else if i == 0 {
      ContainsInfix("", parts[0], [d] + Join(parts[1..], d));
      assert "" + parts[0] + ([d] + Join(parts[1..], d)) == Join(parts, d);
    } else {
      JoinContainsPieces(parts[1..], d, i - 1);
      ContainsPrepend(parts[0] + [d], Join(parts[1..], d), parts[i]);
      assert (parts[0] + [d]) + Join(parts[1..], d) == Join(parts, d);
    }
  }

  /** There is one more piece than separators, no piece holds the separator, and joining gives `s` back. */
  lemma {:induction false} SplitProperties(s: string, d: char)
    ensures |Split(s, d)| == Count(s, d) + 1
    ensures forall p :: p in Split(s, d) ==> d !in p
    ensures Join(Split(s, d), d) == s
  {
    if s != [] {
      SplitProperties(s[1..], d);
      var rest := Split(s[1..], d);
      if s[0] == d {
        assert Split(s, d)[1..] == rest;
      } else {
        var parts := Split(s, d);
        assert parts[1..] == rest[1..];
        assert forall p :: p in parts ==> p == [s[0]] + rest[0] || p in rest;
        if |rest| > 1 {
          assert rest == [rest[0]] + rest[1..];
          assert Join(rest, d) == rest[0] + [d] + Join(rest[1..], d);
        }
        assert s == [s[0]] + s[1..];
      }
    }
  }

  /** A string without the separator splits into itself. */
  lemma {:induction false} SplitNoSeparator(s: string, d: char)
    requires d !in s
    ensures Split(s, d) == [s]
  {
    if s != [] {
      SplitNoSeparator(s[1..], d);
      assert [s[0]] + s[1..] == s;
    }
  }

  /** Splitting `a + [d] + b` where `a` has no separator yields `a` followed by the pieces of `b`. */
  lemma {:induction false} SplitAfterFirst(a: string, d: char, b: string)
    requires d !in a
    ensures Split(a + [d] + b, d) == [a] + Split(b, d)
  {
    if a == [] {
      assert (a + [d] + b)[1..] == b;
    } else {
      assert (a + [d] + b)[1..] == a[1..] + [d] + b;
      SplitAfterFirst(a[1..], d, b);
      assert [a[0]] + a[1..] == a;
    }
  }

  /** `unicode.IsSpace`: the Latin-1 spaces and the other Unicode White_Space characters. */
  predicate IsSpace(c: char) {
    || c == '\t' || c == '\n' || c == '\U{000B}' || c == '\U{000C}' || c == '\r' || c == ' '
    || c == '\U{0085}' || c == '\U{00A0}' || c == '\U{1680}'
    || ('\U{2000}' <= c <= '\U{200A}')
    || c == '\U{2028}' || c == '\U{2029}' || c == '\U{202F}' || c == '\U{205F}' || c == '\U{3000}'
  }

  function TrimLeft(s: string): (r: string)
    ensures |r| <= |s|
  {
    if s != [] && IsSpace(s[0]) then TrimLeft(s[1..]) else s
  }

  function TrimRight(s: string): (r: string)
    ensures |r| <= |s|
  {
    if s != [] && IsSpace(s[|s| - 1]) then TrimRight(s[..|s| - 1]) else s
  }

  /** `strings.TrimSpace`: drops leading and trailing white space. */
  function TrimSpace(s: string): string {
    TrimRight(TrimLeft(s))
  }

  /** A string with no white space at either end is left unchanged by `TrimSpace`. */
  lemma TrimSpaceUnchanged(s: string)
    requires s == [] || (!IsSpace(s[0]) && !IsSpace(s[|s| - 1]))
    ensures TrimSpace(s) == s
  {
  }

  /** Decimal rendering of a natural number, as `fmt`'s `%d` prints it. */
  function NatToString(n: nat): (r: string)
    ensures |r| >= 1
    ensures forall c :: c in r ==> '0' <= c <= '9'
  {
    if n < 10 then [DigitChar(n)] else NatToString(n / 10) + [DigitChar(n % 10)]
  }

  function DigitChar(d: nat): (c: char)
    requires d < 10
    ensures '0' <= c <= '9'
  {
    ('0' as int + d) as char
  }
}
