// BASE-62 key generation.

module UrlKey {

  const NUMERALS: string := "0123456789"
  const LOWER: string := "abcdefghijklmnopqrstuvwxyz"
  const UPPER: string := "ABCDEFGHIJKLMNOPQRSTUVWXYZ"
  const KEY_CHAR: string := NUMERALS + LOWER + UPPER

  const BASE: nat := 62

  // Largest value of a 64-bit Go int, plus one.
  const INT_LIMIT: int := 0x8000_0000_0000_0000

  predicate IsDigit(c: char) { '0' <= c <= '9' || 'a' <= c <= 'z' || 'A' <= c <= 'Z' }

  // The place of a character in KEY_CHAR, from its code alone.
  function ValueOf(c: char): (d: nat)
    requires IsDigit(c)
    ensures d < BASE
  {
    if c <= '9' then (c - '0') as int
    else if c <= 'Z' then 36 + (c - 'A') as int
    else 10 + (c - 'a') as int
  }

  lemma NumeralsInOrder(d: nat)
    requires d < 10
    ensures |NUMERALS| == 10 && NUMERALS[d] == '0' + d as char
  {
  }

  lemma LowerInOrder(d: nat)
    requires d < 26
    ensures |LOWER| == 26 && LOWER[d] == 'a' + d as char
  {
  }

  lemma UpperInOrder(d: nat)
    requires d < 26
    ensures |UPPER| == 26 && UPPER[d] == 'A' + d as char
  {
  }

  lemma KeyCharIsTheAlphabet(d: nat)
    requires d < BASE
    ensures |KEY_CHAR| == BASE && IsDigit(KEY_CHAR[d]) && ValueOf(KEY_CHAR[d]) == d
  {
    NumeralsInOrder(if d < 10 then d else 0);
    LowerInOrder(if 10 <= d < 36 then d - 10 else 0);
    UpperInOrder(if 36 <= d then d - 36 else 0);
  }

  function KeyCharAt(d: nat): (c: char)
    requires d < BASE
    ensures IsDigit(c) && ValueOf(c) == d
  {
    KeyCharIsTheAlphabet(d);
    KEY_CHAR[d]
  }

  // Digits without padding; nothing for 0.
  function Digits(n: nat): string {
    if n == 0 then "" else Digits(n / BASE) + [KeyCharAt(n % BASE)]
  }

  function KeyOf(n: nat): string { if n == 0 then [KeyCharAt(0)] else Digits(n) }

  predicate AllDigits(s: string) { forall i :: 0 <= i < |s| ==> IsDigit(s[i]) }

  function Decode(s: string): nat
    requires AllDigits(s)
  {
    if s == "" then 0 else Decode(s[..|s| - 1]) * BASE + ValueOf(s[|s| - 1])
  }

  // A key with no leading zero, except that of 0 itself.
  predicate Canonical(s: string) {
    s != "" && AllDigits(s) && (|s| > 1 ==> ValueOf(s[0]) != 0)
  }

  function Power(k: nat): (p: nat)
    ensures p >= 1
  {
    if k == 0 then 1 else BASE * Power(k - 1)
  }

  lemma {:induction false} DigitsDecode(n: nat)
    ensures AllDigits(Digits(n)) && Decode(Digits(n)) == n
    ensures n > 0 ==> Digits(n) != "" && ValueOf(Digits(n)[0]) != 0
  {
    if n > 0 {
      DigitsDecode(n / BASE);
      var d := Digits(n);
      assert d[..|d| - 1] == Digits(n / BASE);
    }
  }

  lemma {:induction false} DecodeDigits(s: string)
    requires AllDigits(s) && (s != "" ==> ValueOf(s[0]) != 0)
    ensures Digits(Decode(s)) == s
  {
    if s != "" {
      var front, last := s[..|s| - 1], s[|s| - 1];
      DecodeDigits(front);
      if front == "" {
        assert s == [last];
      } else {
        assert Decode(front) > 0 by { DecodePositive(front); }
      }
      assert Decode(s) / BASE == Decode(front) && Decode(s) % BASE == ValueOf(last);
      SameValueSameDigit(last, KeyCharAt(ValueOf(last)));
      assert s == front + [last];
    }
  }

  lemma {:induction false} DecodePositive(s: string)
    requires AllDigits(s) && s != "" && ValueOf(s[0]) != 0
    ensures Decode(s) > 0
  {
    if |s| > 1 {
      DecodePositive(s[..|s| - 1]);
    }
  }

  lemma SameValueSameDigit(c: char, d: char)
    requires IsDigit(c) && IsDigit(d) && ValueOf(c) == ValueOf(d)
    ensures c == d
  {
  }

  // Numbers below 62^k are exactly those with at most k digits.
  lemma {:induction false} DigitCount(n: nat, k: nat)
    ensures n < Power(k) <==> |Digits(n)| <= k
    decreases k
  {
    if n > 0 && k > 0 {
      DigitCount(n / BASE, k - 1);
    }
  }

  // Keys and numbers correspond one to one: decoding undoes genKey, and every canonical
  // string is the key of exactly one number; k digits reach up to 62^k, for any k such as 20.
  lemma KeyRoundTrip(n: nat, k: nat)
    ensures Canonical(KeyOf(n)) && Decode(KeyOf(n)) == n
    ensures k > 0 ==> (n < Power(k) <==> |KeyOf(n)| <= k)
  {
    DigitsDecode(n);
    DigitCount(n, k);
    if n == 0 {
      assert [KeyCharAt(0)][..0] == "";
    }
  }

  lemma StringRoundTrip(s: string)
    requires Canonical(s)
    ensures KeyOf(Decode(s)) == s
  {
    if ValueOf(s[0]) == 0 {
      assert s == [s[0]] && s[..0] == "" && Decode("") == 0;
      SameValueSameDigit(s[0], KeyCharAt(0));
    } else {
      DecodeDigits(s);
      DecodePositive(s);
    }
  }

  lemma KeysDiffer(m: nat, n: nat)
    requires m != n
    ensures KeyOf(m) != KeyOf(n)
  {
    KeyRoundTrip(m, 1);
    KeyRoundTrip(n, 1);
  }

  lemma ElevenDigitsSuffice()
    ensures Power(10) < INT_LIMIT < Power(11)
  {
    assert Power(2) == 3844;
    assert Power(4) == 3844 * 3844;
    assert Power(6) == 3844 * Power(4);
    assert Power(8) == 3844 * Power(6);
    assert Power(10) == 3844 * Power(8);
  }

  lemma ElevenDigits(n: nat)
    requires n < INT_LIMIT
    ensures |Digits(n)| <= 11 && |KeyOf(n)| <= 11
  {
    ElevenDigitsSuffice();
    DigitCount(n, 11);
  }

  lemma LastDigit(n: nat, tail: string, j: nat, q: int)
    requires n > 0 && j == n % BASE && q == (n - j) / BASE
    ensures 0 <= q < n && |Digits(q)| == |Digits(n)| - 1
    ensures Digits(n) + tail == Digits(q) + ([KeyCharAt(j)] + tail)
  {
  }

  // genKey, filling its 20-byte buffer from the back; a negative argument yields the
  // empty string. More than 20 digits would leave the buffer, but every 64-bit Go int
  // has at most 11 (ElevenDigits).
  method GenKey(m: int) returns (key: string)
    requires m > 0 ==> |Digits(m)| <= 20
    ensures key == if m < 0 then "" else KeyOf(m)
  {
    if m == 0 {
      return [KeyCharAt(0)];
    }
    var s := new char[20];
    var i := s.Length;
    var n := m;
    while n > 0 && i >= 0
      invariant 0 <= i <= 20
      invariant m < 0 ==> n == m && i == 20
      invariant m > 0 ==> 0 <= n && |Digits(n)| <= i && Digits(m) == Digits(n) + s[i..]
    {
      ghost var tail := s[i..];
      i := i - 1;
      var j := n % BASE;
      LastDigit(n, tail, j, (n - j) / BASE);
      n := (n - j) / BASE;
      s[i] := KeyCharAt(j);
      assert s[i..] == [KeyCharAt(j)] + tail;
    }
    return s[i..];
  }
}
