/**
 * Character strings as the integration uses them: Python's substring test,
 * the decimal digits of a label, `str(int)`, `int(str)`, `str.split` and the
 * lower-case slug of a display name.
 */
module Text {
  import opened Wrappers

  /** `p` is a prefix of `s`. */
  predicate IsPrefix(p: string, s: string)
  {
    |p| <= |s| && s[..|p|] == p
  }

  /** Python's `sub in s` on strings; the empty string occurs in every string. */
  predicate Contains(s: string, sub: string)
    decreases |s|
  {
    IsPrefix(sub, s) || (|s| > 0 && Contains(s[1..], sub))
  }

  /** `sub` occurs in `s` starting at position `i`. */
  predicate OccursAt(s: string, sub: string, i: int)
  {
    0 <= i <= |s| - |sub| && s[i..i + |sub|] == sub
  }

  /** Contains agrees with the positional definition of a substring. */
  lemma {:induction false} ContainsIffOccurs(s: string, sub: string)
    ensures Contains(s, sub) <==> exists i :: OccursAt(s, sub, i)
    decreases |s|
  {
    if IsPrefix(sub, s) {
      assert OccursAt(s, sub, 0);
    } else if |s| > 0 {
      ContainsIffOccurs(s[1..], sub);
      if Contains(s[1..], sub) {
        var i :| OccursAt(s[1..], sub, i);
        assert s[i + 1..i + 1 + |sub|] == s[1..][i..i + |sub|];
        assert OccursAt(s, sub, i + 1);
      }
      if i :| OccursAt(s, sub, i) {
        assert i != 0;
        assert s[1..][i - 1..i - 1 + |sub|] == s[i..i + |sub|];
        assert OccursAt(s[1..], sub, i - 1);
      }
    } else {
      assert !exists i :: OccursAt(s, sub, i);
    }
  }

  /** Every character of a contained string occurs in the containing one. */
  lemma {:induction false} ContainsKeepsChars(s: string, sub: string, c: char)
    requires Contains(s, sub) && c in sub
    ensures c in s
    decreases |s|
  {
    if IsPrefix(sub, s) {
      var k :| 0 <= k < |sub| && sub[k] == c;
      assert s[k] == c;
    } else {
      ContainsKeepsChars(s[1..], sub, c);
    }
  }

  /** A string never contains a longer one. */
  lemma {:induction false} LongerNotContained(s: string, sub: string)
    requires |sub| > |s|
    ensures !Contains(s, sub)
    decreases |s|
  {
    if |s| > 0 {
      LongerNotContained(s[1..], sub);
    }
  }

  /** A string contains each of its prefixes. */
  lemma PrefixContained(p: string, rest: string)
    ensures Contains(p + rest, p)
  {
    assert (p + rest)[..|p|] == p;
  }

  predicate IsDigit(c: char)
  {
    '0' <= c <= '9'
  }

  function DigitValue(c: char): (v: nat)
    requires IsDigit(c)
    ensures v <= 9
  {
    c as int - '0' as int
  }

  function DigitChar(d: nat): (c: char)
    requires d <= 9
    ensures IsDigit(c) && DigitValue(c) == d
  {
    ('0' as int + d) as char
  }

  predicate AllDigits(s: string)
  {
    forall i :: 0 <= i < |s| ==> IsDigit(s[i])
  }

  /** The decimal digits of `s`, in order (`''.join(re.findall(r'\d', s))` on ASCII text). */
  function Digits(s: string): (r: string)
    ensures |r| <= |s|
    ensures AllDigits(r)
    decreases |s|
  {
    if s == [] then []
    else (if IsDigit(s[0]) then [s[0]] else []) + Digits(s[1..])
  }

  /** The digit string holds exactly the digits of `s`. */
  lemma {:induction false} DigitsMembers(s: string, c: char)
    ensures c in Digits(s) <==> c in s && IsDigit(c)
    decreases |s|
  {
    if s != [] {
      DigitsMembers(s[1..], c);
      assert s == [s[0]] + s[1..];
    }
  }

  /** A string without a decimal digit has an empty digit string. */
  lemma NoDigits(s: string)
    requires forall c :: c in s ==> !IsDigit(c)
    ensures Digits(s) == []
  {
    if Digits(s) != [] {
      DigitsMembers(s, Digits(s)[0]);
    }
  }

  lemma {:induction false} DigitsAppend(a: string, b: string)
    ensures Digits(a + b) == Digits(a) + Digits(b)
    decreases |a|
  {
    if a == [] {
      assert a + b == b;
    } else {
      var head := if IsDigit(a[0]) then [a[0]] else [];
      assert (a + b)[0] == a[0];
      assert (a + b)[1..] == a[1..] + b;
      DigitsAppend(a[1..], b);
      calc {
        Digits(a + b);
        head + Digits(a[1..] + b);
        head + (Digits(a[1..]) + Digits(b));
        (head + Digits(a[1..])) + Digits(b);
        Digits(a) + Digits(b);
      }
    }
  }

  lemma {:induction false} DigitsOfDigits(s: string)
    requires AllDigits(s)
    ensures Digits(s) == s
    decreases |s|
  {
    if s != [] {
      DigitsOfDigits(s[1..]);
    }
  }

  /** The digit string of `s` starts with the first digit of `s`. */
  lemma {:induction false} DigitsHead(s: string, k: nat)
    requires k < |s| && IsDigit(s[k])
    requires forall j :: 0 <= j < k ==> !IsDigit(s[j])
    ensures Digits(s) != [] && Digits(s)[0] == s[k]
    decreases k
  {
    if k > 0 {
      DigitsHead(s[1..], k - 1);
    }
  }

  /** Decimal digits of a natural number, without leading zeros (Python's `str` on a non-negative int). */
  function NatToString(n: nat): (r: string)
    ensures |r| >= 1 && AllDigits(r)
    decreases n
  {
    if n < 10 then [DigitChar(n)] else NatToString(n / 10) + [DigitChar(n % 10)]
  }

  predicate IsNumeral(c: char)
  {
    IsDigit(c) || c == '-'
  }

  /** Python's `str` on an int. */
  function IntToString(n: int): (r: string)
    ensures |r| >= 1
    ensures forall i :: 0 <= i < |r| ==> IsNumeral(r[i])
  {
    if n < 0 then "-" + NatToString(-n) else NatToString(n)
  }

  /** Value of a run of decimal digits. */
  function DigitsValue(s: string): nat
    requires AllDigits(s)
    decreases |s|
  {
    if s == [] then 0 else DigitsValue(s[..|s| - 1]) * 10 + DigitValue(s[|s| - 1])
  }

  /** Python's `int` on an optionally signed run of ASCII digits; `None` where `int` raises. */
  function ParseInt(s: string): Option<int>
  {
    if |s| > 0 && (s[0] == '-' || s[0] == '+') then
      if |s| > 1 && AllDigits(s[1..]) then
        Some(if s[0] == '-' then 0 - DigitsValue(s[1..]) as int else DigitsValue(s[1..]))
      else None
    else if |s| > 0 && AllDigits(s) then Some(DigitsValue(s))
    else None
  }

  lemma {:induction false} NatToStringValue(n: nat)
    ensures DigitsValue(NatToString(n)) == n
    decreases n
  {
    if n >= 10 {
      var r := NatToString(n);
      assert r[..|r| - 1] == NatToString(n / 10);
      NatToStringValue(n / 10);
    }
  }

  /** Formatting an int and parsing it back gives the int. */
  lemma IntToStringRoundTrip(n: int)
    ensures ParseInt(IntToString(n)) == Some(n)
  {
    if n < 0 {
      assert IntToString(n)[1..] == NatToString(-n);
      NatToStringValue(-n);
    } else {
      NatToStringValue(n);
      assert IntToString(n)[0] != '-' && IntToString(n)[0] != '+';
    }
  }

  /** Distinct ints have distinct decimal forms. */
  lemma IntToStringInjective(a: int, b: int)
    requires IntToString(a) == IntToString(b)
    ensures a == b
  {
    IntToStringRoundTrip(a);
    IntToStringRoundTrip(b);
  }

  /** Shape of the decimal form for the ids AmpliPi gives its streams. */
  lemma NatToStringShape(n: nat)
    ensures 1 <= n <= 9 ==> NatToString(n) == [DigitChar(n)]
    ensures 900 <= n <= 999 ==> |NatToString(n)| == 3 && NatToString(n)[0] == '9'
    ensures 1000 <= n <= 1999 ==> |NatToString(n)| == 4 && NatToString(n)[0] == '1'
  {
    if 900 <= n <= 999 {
      assert NatToString(n / 10 / 10) == ['9'];
    }
    if 1000 <= n <= 1999 {
      assert NatToString(n / 10 / 10 / 10) == ['1'];
    }
  }

  /** Index of the first `c` in `s`, or `|s|` when there is none. */
  function IndexOf(s: string, c: char): (r: nat)
    ensures r <= |s|
    ensures r < |s| ==> s[r] == c
    ensures forall j :: 0 <= j < r ==> s[j] != c
    decreases |s|
  {
    if s == [] then 0 else if s[0] == c then 0 else 1 + IndexOf(s[1..], c)
  }

  /** Python's `s.split(c)[1]`: the text between the first `c` and the next one (or the end). */
  function SplitSecond(s: string, c: char): (r: string)
    requires c in s
    ensures c !in r
  {
    var i := IndexOf(s, c);
    assert i < |s|;
    var rest := s[i + 1..];
    rest[..IndexOf(rest, c)]
  }

  function LowerAscii(c: char): char
  {
    if 'A' <= c <= 'Z' then (c as int + 32) as char else c
  }

  /** `str(name).replace(' ', '_').lower()` on ASCII text: the entity-id form of a display name. */
  function Slug(name: string): (r: string)
    ensures |r| == |name|
    ensures forall i :: 0 <= i < |r| ==> r[i] != ' ' && !('A' <= r[i] <= 'Z')
    ensures forall i :: 0 <= i < |r| && name[i] != ' ' && !('A' <= name[i] <= 'Z') ==> r[i] == name[i]
    ensures forall i :: 0 <= i < |r| && name[i] == ' ' ==> r[i] == '_'
    ensures forall i :: 0 <= i < |r| && 'A' <= name[i] <= 'Z' ==> r[i] == LowerAscii(name[i]) && 'a' <= r[i] <= 'z'
  {
    seq(|name|, i requires 0 <= i < |name| => if name[i] == ' ' then '_' else LowerAscii(name[i]))
  }

  /** A slug is its own slug. */
  lemma SlugIdempotent(name: string)
    ensures Slug(Slug(name)) == Slug(name)
  {
  }
}
