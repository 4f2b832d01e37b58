/**
 Text handling of the services: trimming, UTF-8 length and the two decimal
 formats that feed the hashes (unsigned integers and six decimals).
 */
module Text {

  const NUL: char := '\0'

  // White_Space code points, as trimmed by strings.TrimSpace.
  predicate IsSpace(c: char) {
    var n := c as int;
    || 0x09 <= n <= 0x0d || n == 0x20 || n == 0x85 || n == 0xa0 || n == 0x1680
    || 0x2000 <= n <= 0x200a || n == 0x2028 || n == 0x2029 || n == 0x202f
    || n == 0x205f || n == 0x3000
  }

  function TrimLeft(s: string): string {
    if s != "" && IsSpace(s[0]) then TrimLeft(s[1..]) else s
  }

  function TrimRight(s: string): string {
    if s != "" && IsSpace(s[|s| - 1]) then TrimRight(s[..|s| - 1]) else s
  }

  function TrimSpace(s: string): string {
    TrimRight(TrimLeft(s))
  }

  predicate Blank(s: string) {
    TrimSpace(s) == ""
  }

  // Bytes taken by a character in UTF-8 (section 3 of RFC 3629).
  function Utf8Length(s: string): nat {
    if s == "" then 0
    else
      var n := s[0] as int;
      (if n < 0x80 then 1 else if n < 0x800 then 2 else if n < 0x10000 then 3 else 4) + Utf8Length(s[1..])
  }

  lemma {:induction false} TrimRightKeepsFront(s: string)
    requires s != "" && !IsSpace(s[0])
    ensures TrimRight(s) != "" && TrimRight(s)[0] == s[0]
  {
    if IsSpace(s[|s| - 1]) {
      TrimRightKeepsFront(s[..|s| - 1]);
    }
  }

  lemma {:induction false} TrimLeftFront(s: string)
    ensures TrimLeft(s) == "" || !IsSpace(TrimLeft(s)[0])
  {
    if s != "" && IsSpace(s[0]) {
      TrimLeftFront(s[1..]);
    }
  }

  lemma {:induction false} TrimRightBack(s: string)
    ensures TrimRight(s) == "" || !IsSpace(TrimRight(s)[|TrimRight(s)| - 1])
  {
    if s != "" && IsSpace(s[|s| - 1]) {
      TrimRightBack(s[..|s| - 1]);
    }
  }

  // A trimmed key is a fixed point: storing it and trimming it again names the same record.
  lemma TrimSpaceIdempotent(s: string)
    ensures TrimSpace(TrimSpace(s)) == TrimSpace(s)
  {
    var left := TrimLeft(s);
    TrimLeftFront(s);
    TrimRightBack(left);
    if left != "" {
      TrimRightKeepsFront(left);
    }
  }

  ghost predicate AllSpace(s: string) {
    forall i :: 0 <= i < |s| ==> IsSpace(s[i])
  }

  // The text between the longest runs of white space at both ends.
  ghost predicate Between(s: string, t: string, i: nat, j: nat) {
    && i <= j <= |s| && t == s[i..j] && AllSpace(s[..i]) && AllSpace(s[j..])
    && (i < j ==> !IsSpace(s[i]) && !IsSpace(s[j - 1]))
  }

  lemma {:induction false} TrimLeftDrops(s: string)
    ensures |TrimLeft(s)| <= |s| && TrimLeft(s) == s[|s| - |TrimLeft(s)|..] && AllSpace(s[..|s| - |TrimLeft(s)|])
  {
    if s != "" && IsSpace(s[0]) {
      TrimLeftDrops(s[1..]);
      var k := |s| - |TrimLeft(s)|;
      assert s[1..][..k - 1] == s[1..k];
      forall i | 0 <= i < k ensures IsSpace(s[..k][i]) {
        if i > 0 {
          assert s[..k][i] == s[1..k][i - 1];
        }
      }
    }
  }

  lemma {:induction false} TrimRightDrops(s: string)
    ensures TrimRight(s) <= s && AllSpace(s[|TrimRight(s)|..])
  {
    if s != "" && IsSpace(s[|s| - 1]) {
      var front := s[..|s| - 1];
      TrimRightDrops(front);
      var k := |TrimRight(s)|;
      forall i | 0 <= i < |s[k..]| ensures IsSpace(s[k..][i]) {
        if k + i < |front| {
          assert front[k..][i] == s[k..][i];
        }
      }
    }
  }

  /** Trimming drops the longest runs of white space at both ends, and no more. */
  lemma TrimSpaceDropsTheEnds(s: string)
    ensures exists i, j :: Between(s, TrimSpace(s), i, j)
    ensures Blank(s) <==> AllSpace(s)
  {
    var left, t := TrimLeft(s), TrimSpace(s);
    TrimLeftDrops(s);
    TrimLeftFront(s);
    TrimRightDrops(left);
    TrimRightBack(left);
    if left != "" {
      TrimRightKeepsFront(left);
    }
    var i := |s| - |left|;
    var j := i + |t|;
    assert s[j..] == left[|t|..] && s[i..j] == left[..|t|];
    assert Between(s, t, i, j);
    if t == "" {
      assert s == s[..i] + s[i..];
    } else {
      assert !IsSpace(s[i]);
    }
  }

  lemma {:induction false} Utf8Adds(s: string, t: string)
    ensures Utf8Length(s + t) == Utf8Length(s) + Utf8Length(t)
  {
    if s == "" {
      assert s + t == t;
    } else {
      Utf8Adds(s[1..], t);
      assert (s + t)[1..] == s[1..] + t;
    }
  }

  ghost predicate Ascii(s: string) {
    forall i :: 0 <= i < |s| ==> s[i] as int < 0x80
  }

  // Only ASCII texts are as long in bytes as in characters.
  lemma {:induction false} Utf8Bounds(s: string)
    ensures |s| <= Utf8Length(s) <= 4 * |s| && (Utf8Length(s) == |s| <==> Ascii(s))
  {
    if s != "" {
      Utf8Bounds(s[1..]);
      assert s == [s[0]] + s[1..];
    }
  }

  function Digit(d: nat): char
    requires d < 10
  {
    ('0' as int + d) as char
  }

  // strconv.FormatUint(n, 10)
  function Decimal(n: nat): string {
    if n < 10 then [Digit(n)] else Decimal(n / 10) + [Digit(n % 10)]
  }

  // Exactly `width` digits, most significant first.
  function Padded(n: nat, width: nat): string {
    if width == 0 then "" else Padded(n / 10, width - 1) + [Digit(n % 10)]
  }

  function Pow10(k: nat): nat {
    if k == 0 then 1 else 10 * Pow10(k - 1)
  }

  // fmt.Sprintf("%.6f", m) for a length of `micro` millionths of a metre.
  function SixDecimals(micro: nat): string {
    Decimal(micro / 1000000) + "." + Padded(micro % 1000000, 6)
  }

  function Reading(s: string): int {
    if s == "" then 0 else 10 * Reading(s[..|s| - 1]) + (s[|s| - 1] as int - '0' as int)
  }

  predicate NulFree(s: string) {
    NUL !in s
  }

  lemma {:induction false} DecimalReads(n: nat)
    ensures Reading(Decimal(n)) == n && NulFree(Decimal(n)) && Decimal(n) != ""
  {
    if n < 10 {
      var s := Decimal(n);
      assert s[..|s| - 1] == "";
    } else {
      DecimalReads(n / 10);
      var s := Decimal(n);
      assert s[..|s| - 1] == Decimal(n / 10);
    }
  }

  lemma {:induction false} PaddedReads(n: nat, width: nat)
    requires n < Pow10(width)
    ensures |Padded(n, width)| == width && Reading(Padded(n, width)) == n && NulFree(Padded(n, width))
  {
    if width > 0 {
      PaddedReads(n / 10, width - 1);
      var s := Padded(n, width);
      assert s[..|s| - 1] == Padded(n / 10, width - 1);
    }
  }

  lemma DecimalInjective(m: nat, n: nat)
    requires Decimal(m) == Decimal(n)
    ensures m == n
  {
    DecimalReads(m);
    DecimalReads(n);
  }

  lemma SixDecimalsParts(micro: nat)
    ensures |SixDecimals(micro)| == |Decimal(micro / 1000000)| + 7
    ensures NulFree(SixDecimals(micro))
    ensures Reading(Padded(micro % 1000000, 6)) == micro % 1000000
    ensures |Padded(micro % 1000000, 6)| == 6
  {
    assert Pow10(6) == 1000000 by {
      assert Pow10(1) == 10 && Pow10(2) == 100 && Pow10(3) == 1000 && Pow10(4) == 10000 && Pow10(5) == 100000;
    }
    PaddedReads(micro % 1000000, 6);
    DecimalReads(micro / 1000000);
  }

  lemma SixDecimalsInjective(m: nat, n: nat)
    requires SixDecimals(m) == SixDecimals(n)
    ensures m == n
  {
    SixDecimalsParts(m);
    SixDecimalsParts(n);
    var k := |Decimal(m / 1000000)|;
    assert SixDecimals(m)[..k] == Decimal(m / 1000000) && SixDecimals(n)[..k] == Decimal(n / 1000000);
    assert SixDecimals(m)[k + 1..] == Padded(m % 1000000, 6) && SixDecimals(n)[k + 1..] == Padded(n % 1000000, 6);
    DecimalInjective(m / 1000000, n / 1000000);
  }
}
