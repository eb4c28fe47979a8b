/** The string operations the progress model relies on, written out on
    `seq<char>`: whitespace trimming, first-occurrence replacement, decimal
    formatting, left padding, repetition and truncation. */
module Text {

  /** The characters Go's `unicode.IsSpace` accepts: the Latin-1 whitespace
      characters and the Unicode White_Space characters above Latin-1. */
  predicate IsSpace(c: char) {
    var k := c as int;
    k == 0x09 || k == 0x0A || k == 0x0B || k == 0x0C || k == 0x0D || k == 0x20 ||
    k == 0x85 || k == 0xA0 || k == 0x1680 || (0x2000 <= k <= 0x200A) ||
    k == 0x2028 || k == 0x2029 || k == 0x202F || k == 0x205F || k == 0x3000
  }

  predicate AllSpace(s: string) {
    forall k :: 0 <= k < |s| ==> IsSpace(s[k])
  }

  /** Neither the first nor the last character is whitespace. */
  predicate NoEdgeSpace(s: string) {
    s == [] || (!IsSpace(s[0]) && !IsSpace(s[|s| - 1]))
  }

  /** The number of whitespace characters `s` starts with. */
  function LeadingSpaces(s: string): (n: nat)
    ensures n <= |s|
    ensures forall k :: 0 <= k < n ==> IsSpace(s[k])
    ensures n < |s| ==> !IsSpace(s[n])
  {
    if s != [] && IsSpace(s[0]) then 1 + LeadingSpaces(s[1..]) else 0
  }

  /** The number of whitespace characters `s` ends with. */
  function TrailingSpaces(s: string): (n: nat)
    ensures n <= |s|
    ensures forall k :: |s| - n <= k < |s| ==> IsSpace(s[k])
    ensures n < |s| ==> !IsSpace(s[|s| - 1 - n])
  {
    if s != [] && IsSpace(s[|s| - 1]) then 1 + TrailingSpaces(s[..|s| - 1]) else 0
  }

  /** Go's `strings.TrimSpace`: no whitespace at either end of the result, and
      a string without whitespace at its ends is returned unchanged. */
  function TrimSpace(s: string): (r: string)
    ensures NoEdgeSpace(r)
    ensures |r| <= |s|
    ensures NoEdgeSpace(s) ==> r == s
  {
    var i := LeadingSpaces(s);
    var j := |s| - TrailingSpaces(s[i..]);
    assert j > i ==> s[j - 1] == s[i..][|s[i..]| - 1 - TrailingSpaces(s[i..])];
    s[i..j]
  }

  /** What TrimSpace removes is whitespace on both sides of an unchanged slice
      of the input. */
  lemma TrimSpaceSlices(s: string) returns (i: nat, j: nat)
    ensures i <= j <= |s| && TrimSpace(s) == s[i..j]
    ensures AllSpace(s[..i]) && AllSpace(s[j..])
  {
    i := LeadingSpaces(s);
    var t := s[i..];
    j := |s| - TrailingSpaces(t);
    forall k | 0 <= k < |s| - j
      ensures IsSpace(s[j..][k])
    {
      assert s[j..][k] == t[j - i + k];
    }
  }

  /** Trimming twice is trimming once. */
  lemma TrimSpaceIdempotent(s: string)
    ensures TrimSpace(TrimSpace(s)) == TrimSpace(s)
  {
  }

  /** The position of the first `c` in `s`. */
  function IndexOf(s: string, c: char): (i: nat)
    requires c in s
    ensures i < |s| && s[i] == c && c !in s[..i]
  {
    if s[0] == c then 0 else 1 + IndexOf(s[1..], c)
  }

  /** Go's `strings.Replace(s, "~", home, 1)`. */
  function ReplaceFirstTilde(s: string, home: string): string {
    if s == [] then []
    else if s[0] == '~' then home + s[1..]
    else [s[0]] + ReplaceFirstTilde(s[1..], home)
  }

  /** The first `~`, wherever it stands, is replaced by `home`, and the rest
      is kept; a string without `~` is unchanged. */
  lemma {:induction false} ReplaceFirstTildeSpec(s: string, home: string)
    ensures '~' !in s ==> ReplaceFirstTilde(s, home) == s
    ensures '~' in s ==>
      ReplaceFirstTilde(s, home) == s[..IndexOf(s, '~')] + home + s[IndexOf(s, '~') + 1..]
  {
    if s != [] && s[0] != '~' {
      ReplaceFirstTildeSpec(s[1..], home);
      assert s == [s[0]] + s[1..];
      assert ('~' in s) == ('~' in s[1..]);
      if '~' in s {
        var i := IndexOf(s[1..], '~');
        assert IndexOf(s, '~') == i + 1;
        assert s[..i + 1] == [s[0]] + s[1..][..i];
        assert s[i + 2..] == s[1..][i + 1..];
      }
    }
  }

  /** Only the first `~` is replaced: when the home directory has no `~`, the
      result has exactly one `~` fewer. */
  lemma {:induction false} ReplaceFirstTildeCount(s: string, home: string)
    requires '~' !in home
    ensures Count(ReplaceFirstTilde(s, home), '~') ==
            if '~' in s then Count(s, '~') - 1 else Count(s, '~')
  {
    if s != [] {
      if s[0] == '~' {
        CountAppend(home, s[1..], '~');
        CountAbsent(home, '~');
      } else {
        ReplaceFirstTildeCount(s[1..], home);
        assert ReplaceFirstTilde(s, home) == [s[0]] + ReplaceFirstTilde(s[1..], home);
        assert ('~' in s) == ('~' in s[1..]);
      }
    }
  }

  /** Number of occurrences of `c` in `s`. */
  function Count(s: string, c: char): nat {
    if s == [] then 0 else (if s[0] == c then 1 else 0) + Count(s[1..], c)
  }

  lemma {:induction false} CountAppend(a: string, b: string, c: char)
    ensures Count(a + b, c) == Count(a, c) + Count(b, c)
  {
    if a != [] {
      assert (a + b)[0] == a[0];
      assert (a + b)[1..] == a[1..] + b;
      CountAppend(a[1..], b, c);
    } else {
      assert a + b == b;
    }
  }

  lemma {:induction false} CountAbsent(a: string, c: char)
    requires c !in a
    ensures Count(a, c) == 0
  {
    if a != [] {
      CountAbsent(a[1..], c);
    }
  }

  predicate IsDigit(c: char) {
    '0' <= c <= '9'
  }

  predicate AllDigits(s: string) {
    forall k :: 0 <= k < |s| ==> IsDigit(s[k])
  }

  function DigitChar(d: nat): (c: char)
    requires d < 10
    ensures IsDigit(c) && c as int - '0' as int == d
  {
    ('0' as int + d) as char
  }

  /** Go's `fmt.Sprintf("%d", n)` for a non-negative `n`: decimal digits
      without leading zeros. */
  function Decimal(n: nat): (r: string)
    ensures |r| >= 1 && AllDigits(r)
    ensures |r| == 1 || r[0] != '0'
    decreases n
  {
    if n < 10 then [DigitChar(n)] else Decimal(n / 10) + [DigitChar(n % 10)]
  }

  /** The number a string of decimal digits denotes. */
  function DigitsValue(s: string): nat
    requires AllDigits(s)
  {
    if s == [] then 0
    else DigitsValue(s[..|s| - 1]) * 10 + (s[|s| - 1] as int - '0' as int)
  }

  /** Decimal denotes its argument. */
  lemma {:induction false} DecimalValue(n: nat)
    ensures DigitsValue(Decimal(n)) == n
    decreases n
  {
    if n >= 10 {
      DecimalValue(n / 10);
      var r := Decimal(n);
      assert r[..|r| - 1] == Decimal(n / 10);
    }
  }

  /** A larger number never has fewer digits. */
  lemma {:induction false} DecimalWidthMonotone(a: nat, b: nat)
    requires a <= b
    ensures |Decimal(a)| <= |Decimal(b)|
    decreases b
  {
    if a >= 10 {
      DecimalWidthMonotone(a / 10, b / 10);
    }
  }

  /** Go's `strings.Repeat(" ", n)`. */
  function Spaces(n: nat): (r: string)
    ensures |r| == n
    ensures forall k :: 0 <= k < n ==> r[k] == ' '
  {
    if n == 0 then [] else [' '] + Spaces(n - 1)
  }

  /** Go's `%*d` width handling: `s` right-aligned in a field of `w` cells,
      filled with spaces on the left; a longer `s` is kept whole. */
  function PadLeft(s: string, w: nat): (r: string)
    ensures |r| == if |s| < w then w else |s|
    ensures r[|r| - |s|..] == s
    ensures forall k :: 0 <= k < |r| - |s| ==> r[k] == ' '
  {
    if |s| < w then Spaces(w - |s|) + s else s
  }

  /** Keeps at most the first `n` characters of `s`. */
  function Truncate(s: string, n: nat): (r: string)
    ensures |r| <= n && r <= s
    ensures |s| <= n ==> r == s
    ensures n < |s| ==> |r| == n
  {
    if |s| <= n then s else s[..n]
  }

  /** The `MaxWidth(n)` style as the styling library applies it: a limit of 0
      means "no limit", so the string is returned whole. */
  function LipglossMaxWidth(s: string, n: nat): (r: string)
    ensures r <= s
    ensures n > 0 ==> |r| <= n && r == Truncate(s, n)
    ensures n == 0 ==> r == s
  {
    if n > 0 then Truncate(s, n) else s
  }
}
