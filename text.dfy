/**
 * The few java.lang.String, Character and Integer operations the core relies on,
 * written out over `string` (a sequence of characters).
 */
module Text {

  /** `\d` of java.util.regex without UNICODE_CHARACTER_CLASS: an ASCII digit. */
  predicate IsDigit(c: char)
  {
    '0' <= c <= '9'
  }

  predicate AllDigits(s: string)
  {
    forall i :: 0 <= i < |s| ==> IsDigit(s[i])
  }

  /** The character class `[a-zA-Z0-9]`. */
  predicate IsAlphanumeric(c: char)
  {
    'a' <= c <= 'z' || 'A' <= c <= 'Z' || IsDigit(c)
  }

  /** Character.getNumericValue on an ASCII digit. */
  function DigitValue(c: char): (d: int)
    requires IsDigit(c)
    ensures 0 <= d <= 9
  {
    c as int - '0' as int
  }

  /** Character.forDigit(d, 10): the digit character, or the null character out of range. */
  function ForDigit(d: int): (c: char)
    ensures 0 <= d <= 9 ==> IsDigit(c) && DigitValue(c) == d
    ensures !(0 <= d <= 9) ==> !IsDigit(c)
  {
    if 0 <= d <= 9 then ('0' as int + d) as char else 0 as char
  }

  /** String.contains: some position of `s` starts with `sub`. */
  function Contains(s: string, sub: string): bool
    decreases |s|
  {
    if |sub| > |s| then false
    else if s[..|sub|] == sub then true
    else Contains(s[1..], sub)
  }

  /** Looking for a one-character text is looking for that character. */
  lemma {:induction false} ContainsChar(s: string, c: char)
    ensures Contains(s, [c]) <==> c in s
    decreases |s|
  {
    if |s| > 0 {
      if s[..1] == [c] {
        assert s[0] == c;
      } else {
        assert s[0] != c by { assert s[..1] == [s[0]]; }
        ContainsChar(s[1..], c);
        assert s == [s[0]] + s[1..];
      }
    }
  }

  /** String.trim removes every leading and trailing character up to U+0020. */
  predicate IsTrimmable(c: char)
  {
    c <= ' '
  }

  function TrimStart(s: string): string
    decreases |s|
  {
    if |s| > 0 && IsTrimmable(s[0]) then TrimStart(s[1..]) else s
  }

  function TrimEnd(s: string): string
    decreases |s|
  {
    if |s| > 0 && IsTrimmable(s[|s| - 1]) then TrimEnd(s[..|s| - 1]) else s
  }

  function Trim(s: string): string
  {
    TrimEnd(TrimStart(s))
  }

  predicate AllTrimmable(s: string)
  {
    forall i :: 0 <= i < |s| ==> IsTrimmable(s[i])
  }

  lemma {:induction false} TrimStartPrefix(pad: string, s: string)
    requires AllTrimmable(pad)
    ensures TrimStart(pad + s) == TrimStart(s)
    decreases |pad|
  {
    if |pad| > 0 {
      assert (pad + s)[1..] == pad[1..] + s;
      TrimStartPrefix(pad[1..], s);
    } else {
      assert pad + s == s;
    }
  }

  lemma {:induction false} TrimEndSuffix(s: string, pad: string)
    requires AllTrimmable(pad)
    ensures TrimEnd(s + pad) == TrimEnd(s)
    decreases |pad|
  {
    if |pad| > 0 {
      assert (s + pad)[..|s + pad| - 1] == s + pad[..|pad| - 1];
      TrimEndSuffix(s, pad[..|pad| - 1]);
    } else {
      assert s + pad == s;
    }
  }

  /** Either trimming the start leaves nothing but padding, or the tail is kept whole. */
  lemma {:induction false} TrimStartAppend(s: string, pad: string)
    requires AllTrimmable(pad)
    ensures TrimStart(s + pad) == (if AllTrimmable(s) then TrimStart(pad) else TrimStart(s) + pad)
    decreases |s|
  {
    if |s| == 0 {
      assert s + pad == pad;
    } else {
      assert (s + pad)[0] == s[0];
      assert (s + pad)[1..] == s[1..] + pad;
      if IsTrimmable(s[0]) {
        TrimStartAppend(s[1..], pad);
        assert AllTrimmable(s) <==> AllTrimmable(s[1..]) by {
          if AllTrimmable(s[1..]) {
            forall i | 0 <= i < |s| ensures IsTrimmable(s[i]) {
              if i > 0 { assert s[i] == s[1..][i - 1]; }
            }
          }
        }
      }
    }
  }

  lemma {:induction false} TrimStartAllTrimmable(s: string)
    requires AllTrimmable(s)
    ensures TrimStart(s) == []
    decreases |s|
  {
    if |s| > 0 {
      TrimStartAllTrimmable(s[1..]);
    }
  }

  lemma {:induction false} TrimStartKeepsLast(s: string)
    requires !AllTrimmable(s)
    ensures |TrimStart(s)| > 0 && !IsTrimmable(TrimStart(s)[0])
    decreases |s|
  {
    if IsTrimmable(s[0]) {
      assert !AllTrimmable(s[1..]) by {
        var i :| 0 <= i < |s| && !IsTrimmable(s[i]);
        assert s[1..][i - 1] == s[i];
      }
      TrimStartKeepsLast(s[1..]);
    }
  }

  /**
   * Padding a text on both sides with characters up to U+0020 does not change
   * what String.trim returns.
   */
  lemma TrimIgnoresPadding(before: string, s: string, after: string)
    requires AllTrimmable(before) && AllTrimmable(after)
    ensures Trim(before + s + after) == Trim(s)
  {
    assert before + s + after == before + (s + after);
    TrimStartPrefix(before, s + after);
    TrimStartAppend(s, after);
    if AllTrimmable(s) {
      TrimStartAllTrimmable(after);
      TrimStartAllTrimmable(s);
    } else {
      TrimEndSuffix(TrimStart(s), after);
    }
  }

  /** A text that starts and ends with characters above U+0020 is its own trim. */
  lemma TrimOfTrimmed(s: string)
    requires |s| > 0 && !IsTrimmable(s[0]) && !IsTrimmable(s[|s| - 1])
    ensures Trim(s) == s
  {
  }

  /** String.toUpperCase on the ASCII letters; every other character is kept. */
  function UpperChar(c: char): char
  {
    if 'a' <= c <= 'z' then (c as int - 32) as char else c
  }

  function ToUpper(s: string): (r: string)
    ensures |r| == |s|
    ensures forall i :: 0 <= i < |s| ==> r[i] == UpperChar(s[i])
  {
    seq(|s|, i requires 0 <= i < |s| => UpperChar(s[i]))
  }

  /** Ten to the power k. */
  function Pow10(k: nat): (p: nat)
    ensures p >= 1
  {
    if k == 0 then 1 else 10 * Pow10(k - 1)
  }

  /** Integer.toString of a non-negative number: its decimal digits, no leading zero. */
  function NaturalToString(n: nat): (s: string)
    decreases n
  {
    if n < 10 then [ForDigit(n)] else NaturalToString(n / 10) + [ForDigit(n % 10)]
  }

  /** Integer.toString: a minus sign for a negative number, then the digits. */
  function IntToString(n: int): string
  {
    if n < 0 then "-" + NaturalToString(-n) else NaturalToString(n)
  }

  lemma {:induction false} NaturalToStringDigits(n: nat)
    ensures |NaturalToString(n)| >= 1 && AllDigits(NaturalToString(n))
    decreases n
  {
    if n >= 10 {
      NaturalToStringDigits(n / 10);
    }
  }

  /** A non-negative number has at most k digits exactly when it is below 10^k. */
  lemma {:induction false} NaturalToStringLength(n: nat, k: nat)
    requires k >= 1
    ensures |NaturalToString(n)| <= k <==> n < Pow10(k)
    decreases n
  {
    if n >= 10 {
      NaturalToStringDigits(n / 10);
      if k == 1 {
        assert Pow10(1) == 10;
      } else {
        NaturalToStringLength(n / 10, k - 1);
        assert n / 10 < Pow10(k - 1) <==> n < 10 * Pow10(k - 1);
      }
    } else {
      assert Pow10(k) >= 10 by {
        assert Pow10(k) == 10 * Pow10(k - 1);
      }
    }
  }

  /**
   * Integer.toString(n) has at most k characters exactly when
   * -10^(k-1) < n < 10^k: the minus sign takes one of the k places.
   */
  lemma IntToStringLength(n: int, k: nat)
    requires k >= 1
    ensures |IntToString(n)| <= k <==> -(Pow10(k - 1) as int) < n < Pow10(k)
  {
    if n < 0 {
      NaturalToStringDigits(-n);
      if k > 1 {
        NaturalToStringLength(-n, k - 1);
      }
    } else {
      NaturalToStringLength(n, k);
      assert Pow10(k) == 10 * Pow10(k - 1);
    }
  }
}
