/**
 * String helpers shared by the backend and the frontend model: decimal
 * rendering of integers (JavaScript's `String(n)` for integral numbers),
 * ASCII lower-casing, substring search and whitespace trimming.
 */
module Text {

  predicate IsDigit(c: char) {
    '0' <= c <= '9'
  }

  function DigitChar(d: nat): (c: char)
    requires d < 10
    ensures IsDigit(c) && (c as int) - ('0' as int) == d
  {
    ('0' as int + d) as char
  }

  /** Decimal digits of `n`, most significant first, no leading zeros. */
  function Digits(n: nat): (s: string)
    ensures |s| >= 1
    ensures forall i :: 0 <= i < |s| ==> IsDigit(s[i])
    decreases n
  {
    if n < 10 then [DigitChar(n)] else Digits(n / 10) + [DigitChar(n % 10)]
  }

  /** JavaScript's `String(i)` for an integer of moderate size. */
  function IntToString(i: int): string {
    if i < 0 then "-" + Digits(-i) else Digits(i)
  }

  /** The value of a string of decimal digits (the inverse of Digits). */
  function ParseDigits(s: string): nat
    requires forall i :: 0 <= i < |s| ==> IsDigit(s[i])
    decreases |s|
  {
    if s == [] then 0
    else
      var last := s[|s| - 1];
      assert IsDigit(last);
      10 * ParseDigits(s[..|s| - 1]) + ((last as int) - ('0' as int))
  }

  lemma {:induction false} ParseDigitsOfDigits(n: nat)
    ensures ParseDigits(Digits(n)) == n
    decreases n
  {
    if n >= 10 {
      var s := Digits(n);
      assert s[..|s| - 1] == Digits(n / 10);
      ParseDigitsOfDigits(n / 10);
    }
  }

  /** Different numbers are rendered differently. */
  lemma DigitsInjective(a: nat, b: nat)
    ensures Digits(a) == Digits(b) <==> a == b
  {
    if Digits(a) == Digits(b) {
      ParseDigitsOfDigits(a);
      ParseDigitsOfDigits(b);
    }
  }

  lemma IntToStringInjective(a: int, b: int)
    ensures IntToString(a) == IntToString(b) <==> a == b
  {
    if (a < 0) != (b < 0) {
      // one rendering starts with '-', the other with a digit
      assert IntToString(a)[0] != IntToString(b)[0];
    } else if a < 0 {
      if IntToString(a) == IntToString(b) {
        assert Digits(-a) == IntToString(a)[1..];
        assert Digits(-b) == IntToString(b)[1..];
        DigitsInjective(-a, -b);
      }
    } else {
      DigitsInjective(a, b);
    }
  }

  /** `String.prototype.toLowerCase`, for the ASCII letters. */
  function LowerChar(c: char): char {
    if 'A' <= c <= 'Z' then (c as int + 32) as char else c
  }

  function Lower(s: string): (r: string)
    ensures |r| == |s|
    ensures forall i :: 0 <= i < |s| ==> r[i] == LowerChar(s[i])
  {
    seq(|s|, i requires 0 <= i < |s| => LowerChar(s[i]))
  }

  /** `sub` occurs in `text` starting at index `i`. */
  predicate OccursAt(text: string, sub: string, i: int) {
    0 <= i <= |text| - |sub| && text[i..i + |sub|] == sub
  }

  /** `text.includes(sub)`. */
  predicate Contains(text: string, sub: string) {
    exists i | 0 <= i <= |text| - |sub| :: OccursAt(text, sub, i)
  }

  /** The characters `String.prototype.trim` strips, restricted to ASCII. */
  predicate IsSpace(c: char) {
    c == ' ' || c == '\t' || c == '\n' || c == '\r' || c == '\U{B}' || c == '\U{C}'
  }

  function TrimStart(s: string): (r: string)
    ensures |r| <= |s| && r == s[|s| - |r|..]
    ensures r == [] || !IsSpace(r[0])
  {
    if s != [] && IsSpace(s[0]) then TrimStart(s[1..]) else s
  }

  function TrimEnd(s: string): (r: string)
    ensures |r| <= |s| && r == s[..|r|]
    ensures r == [] || !IsSpace(r[|r| - 1])
  {
    if s != [] && IsSpace(s[|s| - 1]) then TrimEnd(s[..|s| - 1]) else s
  }

  /** `String.prototype.trim`: a slice of `s` with no surrounding whitespace. */
  function Trim(s: string): (r: string)
    ensures |r| <= |s|
    ensures Contains(s, r)
    ensures r == [] || (!IsSpace(r[0]) && !IsSpace(r[|r| - 1]))
  {
    var t := TrimStart(s);
    var r := TrimEnd(t);
    assert OccursAt(s, r, |s| - |t|);
    r
  }
}
