/** Numbers as text: the digit string of itoa and what it denotes. */
module Numbers {

  const SCRATCH: nat := 66
  const U64: nat := 0x1_0000_0000_0000_0000

  const LOWER: string := "0123456789abcdef"
  const UPPER: string := "0123456789ABCDEF"

  function Digit(d: nat, upper: bool): (c: char)
    requires d < 16
  {
    if upper then UPPER[d] else LOWER[d]
  }

  /** What a digit counts; case does not matter. */
  function Worth(c: char): (n: nat) {
    if '0' <= c <= '9' then (c - '0') as nat
    else if 'a' <= c <= 'f' then (c - 'a') as nat + 10
    else if 'A' <= c <= 'F' then (c - 'A') as nat + 10
    else 0
  }

  lemma DigitWorth(d: nat, upper: bool)
    requires d < 16
    ensures Worth(Digit(d, upper)) == d && Digit(d, upper) != '-' && Digit(d, upper) != '\0'
  {
    assert UPPER[d] == "0123456789ABCDEF"[d] && LOWER[d] == "0123456789abcdef"[d];
  }

  /** The number a digit string denotes. */
  function Evaluate(s: string, base: nat): (n: nat) {
    if s == "" then 0 else Evaluate(s[..|s| - 1], base) * base + Worth(s[|s| - 1])
  }

  /** The shortest digit string of a number, "0" for zero. */
  function Digits(num: nat, base: nat, upper: bool): (s: string)
    requires 2 <= base <= 16
    ensures |s| > 0
    decreases num
  {
    if num < base then [Digit(num, upper)] else Digits(num / base, base, upper) + [Digit(num % base, upper)]
  }

  lemma DivMod(num: nat, base: nat)
    requires base > 0
    ensures num / base * base + num % base == num && num % base < base
  {
  }

  lemma EvaluateAppend(s: string, c: char, base: nat)
    ensures Evaluate([c], base) == Worth(c)
    ensures Evaluate(s + [c], base) == Evaluate(s, base) * base + Worth(c)
  {
    assert [c][..0] == "";
    assert (s + [c])[..|s|] == s;
  }

  lemma DigitsStep(num: nat, base: nat, upper: bool)
    requires 2 <= base <= 16
    ensures Digits(num, base, upper)
      == if num < base then [Digit(num, upper)] else Digits(num / base, base, upper) + [Digit(num % base, upper)]
  {
  }

  /** The digit string evaluates back to its number. */
  lemma {:induction false} DigitsEvaluate(num: nat, base: nat, upper: bool)
    requires 2 <= base <= 16
    ensures Evaluate(Digits(num, base, upper), base) == num
    decreases num
  {
    hide Digits, Evaluate, Digit, Worth;
    DigitsStep(num, base, upper);
    DivMod(num, base);
    DigitWorth(num % base, upper);
    if num < base {
      SmallMod(num, base);
      EvaluateAppend("", Digit(num, upper), base);
    } else {
      Smaller(num, base);
      DigitsEvaluate(num / base, base, upper);
      EvaluateAppend(Digits(num / base, base, upper), Digit(num % base, upper), base);
    }
  }

  lemma SmallMod(num: nat, base: nat)
    requires num < base
    ensures num % base == num
  {
  }

  lemma Smaller(num: nat, base: nat)
    requires num >= base >= 2
    ensures 0 < num / base < num
  {
  }

  function Pow2(k: nat): (p: nat)
    ensures p > 0
  {
    if k == 0 then 1 else 2 * Pow2(k - 1)
  }

  /** A number below 2^k has at most k digits in any base. */
  lemma {:induction false} FewDigits(num: nat, base: nat, upper: bool, k: nat)
    requires 2 <= base <= 16 && k > 0 && num < Pow2(k)
    ensures |Digits(num, base, upper)| <= k
    decreases k
  {
    if num >= base {
      Halved(num, base);
      assert k > 1 by {
        assert Pow2(1) == 2 * Pow2(0);
      }
      FewDigits(num / base, base, upper, k - 1);
    }
  }

  lemma Halved(num: nat, base: nat)
    requires base >= 2
    ensures num / base <= num / 2
  {
    assert num == base * (num / base) + num % base;
    assert 2 * (num / base) <= base * (num / base);
  }

  lemma Pow64()
    ensures Pow2(64) == U64
  {
    assert Pow2(8) == 256;
    Pow2Add(8, 8);
    Pow2Add(16, 16);
    Pow2Add(32, 32);
  }

  lemma {:induction false} Pow2Add(a: nat, b: nat)
    ensures Pow2(a + b) == Pow2(a) * Pow2(b)
    decreases b
  {
    if b > 0 {
      Pow2Add(a, b - 1);
    }
  }

  /** At most 64 digits, so that sign, digits and terminator fit the 66-byte buffer. */
  lemma AtMost64Digits(num: nat, base: nat, upper: bool)
    requires 2 <= base <= 16 && num < U64
    ensures |Digits(num, base, upper)| <= 64
  {
    Pow64();
    FewDigits(num, base, upper, 64);
  }

  function Repeat(c: char, n: nat): (s: string)
    ensures |s| == n && forall k :: 0 <= k < n ==> s[k] == c
  {
    seq(n, _ => c)
  }

  /** The sign, the zeros that fill up to `pad` characters in all, the digits. */
  function Number(num: nat, base: nat, negative: bool, upper: bool, pad: nat): (s: string)
    requires 2 <= base <= 16
  {
    var digits := Digits(num, base, upper);
    var len := |digits| + if negative then 1 else 0;
    (if negative then "-" else "") + Repeat('0', if pad > len then pad - len else 0) + digits
  }

  lemma NumberLength(num: nat, base: nat, negative: bool, upper: bool, pad: nat)
    requires 2 <= base <= 16
    ensures var len := |Digits(num, base, upper)| + if negative then 1 else 0;
      |Number(num, base, negative, upper, pad)| == if pad > len then pad else len
  {
  }

  /** The signed number a text denotes. */
  function Denotes(s: string, base: nat): (n: int) {
    if s != "" && s[0] == '-' then 0 - Evaluate(s[1..], base) else Evaluate(s, base)
  }

  lemma {:induction false} ZerosAddNothing(n: nat, s: string, base: nat)
    ensures Evaluate(Repeat('0', n) + s, base) == Evaluate(s, base)
    decreases |s|, n
  {
    var t := Repeat('0', n) + s;
    if s == "" {
      if n > 0 {
        assert t[..|t| - 1] == Repeat('0', n - 1) + "";
        ZerosAddNothing(n - 1, "", base);
      } else {
        assert t == "";
      }
    } else {
      assert t[..|t| - 1] == Repeat('0', n) + s[..|s| - 1];
      ZerosAddNothing(n, s[..|s| - 1], base);
    }
  }

  /** Sign, padding and digits together denote the number printed. */
  lemma NumberDenotes(num: nat, base: nat, negative: bool, upper: bool, pad: nat)
    requires 2 <= base <= 16
    ensures Denotes(Number(num, base, negative, upper, pad), base) == if negative then 0 - num else num
  {
    hide Digits, Evaluate, Repeat;
    var digits := Digits(num, base, upper);
    var len := |digits| + if negative then 1 else 0;
    var n := if pad > len then pad - len else 0;
    var body := Repeat('0', n) + digits;
    DigitsEvaluate(num, base, upper);
    ZerosAddNothing(n, digits, base);
    RepeatHas('0', n);
    NoSign(num, base, upper);
    var s := Number(num, base, negative, upper, pad);
    if negative {
      assert s == "-" + body && s[1..] == body;
    } else {
      assert s == body;
      assert s[0] == if n > 0 then '0' else digits[0];
    }
  }

  lemma RepeatHas(c: char, n: nat)
    ensures |Repeat(c, n)| == n && forall k :: 0 <= k < n ==> Repeat(c, n)[k] == c
  {
  }

  lemma {:induction false} NoSign(num: nat, base: nat, upper: bool)
    requires 2 <= base <= 16
    ensures Digits(num, base, upper)[0] != '-'
    decreases num
  {
    if num < base {
      DigitWorth(num, upper);
    } else {
      NoSign(num / base, base, upper);
    }
  }

  // ----- the one way to spell a number

  /** A digit of that base, in that case. */
  predicate IsNumeral(c: char, base: nat, upper: bool) {
    || ('0' <= c <= '9' && (c - '0') as nat < base)
    || (!upper && 'a' <= c <= 'f' && (c - 'a') as nat + 10 < base)
    || (upper && 'A' <= c <= 'F' && (c - 'A') as nat + 10 < base)
  }

  /** Only digits, no zero in front of others, and the value is `num`. */
  ghost predicate Shortest(s: string, num: nat, base: nat, upper: bool) {
    && s != "" && (forall k :: 0 <= k < |s| ==> IsNumeral(s[k], base, upper))
    && (|s| > 1 ==> s[0] != '0') && Evaluate(s, base) == num
  }

  /** A minus sign for a negative number, `zeros` zeros, the shortest spelling of its magnitude. */
  ghost predicate SpelledWith(s: string, v: int, base: nat, upper: bool, zeros: nat) {
    var start := zeros + if v < 0 then 1 else 0;
    && start <= |s| && (v < 0 ==> s[0] == '-')
    && (forall k :: start - zeros <= k < start ==> s[k] == '0')
    && Shortest(s[start..], if v < 0 then 0 - v else v, base, upper)
  }

  /** Zeros fill the text up to `filled` characters, if it is not as long without them. */
  ghost predicate Spelled(s: string, v: int, base: nat, upper: bool, filled: nat) {
    |s| >= filled && exists zeros: nat :: SpelledWith(s, v, base, upper, zeros) && (zeros > 0 ==> |s| == filled)
  }

  lemma DigitIsNumeral(d: nat, base: nat, upper: bool)
    requires d < base <= 16
    ensures IsNumeral(Digit(d, upper), base, upper) && (Digit(d, upper) == '0' <==> d == 0)
  {
    assert UPPER[d] == "0123456789ABCDEF"[d] && LOWER[d] == "0123456789abcdef"[d];
  }

  lemma {:induction false} DigitsAreShortest(num: nat, base: nat, upper: bool)
    requires 2 <= base <= 16
    ensures Shortest(Digits(num, base, upper), num, base, upper)
    ensures num > 0 ==> Digits(num, base, upper)[0] != '0'
    decreases num
  {
    hide Digits, Evaluate, Digit, IsNumeral;
    DigitsStep(num, base, upper);
    DivMod(num, base);
    DigitIsNumeral(num % base, base, upper);
    DigitsEvaluate(num, base, upper);
    if num < base {
      SmallMod(num, base);
    } else {
      Smaller(num, base);
      DigitsAreShortest(num / base, base, upper);
    }
  }

  /** There is no other shortest spelling. */
  lemma {:induction false} ShortestOnce(s: string, t: string, num: nat, base: nat, upper: bool)
    requires 2 <= base <= 16 && Shortest(s, num, base, upper) && Shortest(t, num, base, upper)
    ensures s == t
    decreases |s|
  {
    hide Evaluate, IsNumeral, Worth;
    var s0, t0 := s[..|s| - 1], t[..|t| - 1];
    var c, d := s[|s| - 1], t[|t| - 1];
    LastDigit(s, num, base, upper);
    LastDigit(t, num, base, upper);
    SameDigit(c, d, base, upper);
    if num >= base {
      ShortestOnce(s0, t0, num / base, base, upper);
    }
    assert s == s0 + [c] && t == t0 + [d];
  }

  /** The last digit is the remainder, what is before it spells the quotient. */
  lemma LastDigit(s: string, num: nat, base: nat, upper: bool)
    requires 2 <= base <= 16 && Shortest(s, num, base, upper)
    ensures IsNumeral(s[|s| - 1], base, upper) && Worth(s[|s| - 1]) == num % base
    ensures if num < base then s[..|s| - 1] == "" else Shortest(s[..|s| - 1], num / base, base, upper)
  {
    hide IsNumeral, Worth, Evaluate;
    var rest, c := s[..|s| - 1], s[|s| - 1];
    assert s == rest + [c];
    EvaluateAppend(rest, c, base);
    NumeralWorth(c, base, upper);
    Quotient(Evaluate(rest, base), Worth(c), base);
    if rest == "" {
      NothingIsZero(base);
    } else {
      LeadingCounts(rest, base, upper);
    }
  }

  lemma NothingIsZero(base: nat)
    ensures Evaluate("", base) == 0
  {
  }

  lemma Quotient(q: nat, r: nat, base: nat)
    requires r < base
    ensures (q * base + r) / base == q && (q * base + r) % base == r && (q > 0 ==> q * base + r >= base)
  {
    var x := q * base + r;
    DivMod(x, base);
    OneQuotient(q, r, x / base, x % base, base);
    if q > 0 {
      Multiple(q, base);
    }
  }

  /** Quotient and remainder are determined. */
  lemma OneQuotient(q: int, r: int, k: int, m: int, base: int)
    requires 0 <= r < base && 0 <= m < base && q * base + r == k * base + m
    ensures q == k && r == m
  {
    assert (q - k) * base == m - r;
    if q > k {
      Multiple(q - k, base);
    } else if k > q {
      Multiple(k - q, base);
    }
  }

  lemma Multiple(n: int, base: int)
    requires n > 0 && base > 0
    ensures n * base >= base
  {
  }

  lemma NumeralWorth(c: char, base: nat, upper: bool)
    requires IsNumeral(c, base, upper)
    ensures Worth(c) < base && (Worth(c) == 0 <==> c == '0')
  {
  }

  lemma SameDigit(c: char, d: char, base: nat, upper: bool)
    requires IsNumeral(c, base, upper) && IsNumeral(d, base, upper) && Worth(c) == Worth(d)
    ensures c == d
  {
  }

  /** Digits that do not start with zero are worth something. */
  lemma {:induction false} LeadingCounts(s: string, base: nat, upper: bool)
    requires base >= 2 && s != "" && s[0] != '0' && forall k :: 0 <= k < |s| ==> IsNumeral(s[k], base, upper)
    ensures Evaluate(s, base) > 0
    decreases |s|
  {
    hide IsNumeral, Worth;
    NumeralWorth(s[0], base, upper);
    if |s| > 1 {
      LeadingCounts(s[..|s| - 1], base, upper);
      Grows(Evaluate(s[..|s| - 1], base), base);
    } else {
      NothingIsZero(base);
    }
  }

  lemma Grows(q: nat, base: nat)
    requires q > 0 && base >= 2
    ensures q * base > 0
  {
  }

  lemma NumberSpelled(num: nat, base: nat, negative: bool, upper: bool, pad: nat)
    requires 2 <= base <= 16 && (negative ==> num > 0)
    ensures Spelled(Number(num, base, negative, upper, pad), if negative then 0 - num else num, base, upper, pad)
  {
    hide Digits, Shortest, Repeat;
    var digits := Digits(num, base, upper);
    var len := |digits| + if negative then 1 else 0;
    var zeros := if pad > len then pad - len else 0;
    var s := Number(num, base, negative, upper, pad);
    RepeatHas('0', zeros);
    DigitsAreShortest(num, base, upper);
    assert s[zeros + (if negative then 1 else 0)..] == digits;
    assert SpelledWith(s, if negative then 0 - num else num, base, upper, zeros);
  }

  function Reversed(s: string): (r: string)
    ensures |r| == |s| && forall k :: 0 <= k < |s| ==> r[k] == s[|s| - 1 - k]
  {
    seq(|s|, (k: int) requires 0 <= k < |s| => s[|s| - 1 - k])
  }

  /** The digits from the last to the first, as the division loop finds them. */
  lemma ReversedDigits(num: nat, base: nat, upper: bool)
    requires 2 <= base <= 16
    ensures num > 0 ==> num / base < num
    ensures num >= base ==> num / base > 0
    ensures num >= base ==>
      Reversed(Digits(num, base, upper)) == [Digit(num % base, upper)] + Reversed(Digits(num / base, base, upper))
    ensures num < base ==> num / base == 0 && num % base == num
    ensures num < base ==> Reversed(Digits(num, base, upper)) == [Digit(num, upper)]
  {
    hide Digits, Digit;
    DigitsStep(num, base, upper);
    if num < base {
      SmallMod(num, base);
    } else {
      Smaller(num, base);
      ReversedAppend(Digits(num / base, base, upper), Digit(num % base, upper));
    }
  }

  lemma ReversedAppend(s: string, c: char)
    ensures Reversed(s + [c]) == [c] + Reversed(s)
  {
  }

  /** The division loop of itoa: the digits of `num`, last one first, into `buffer`. */
  method DivideOut(buffer: array<char>, base: nat, num: nat, upper: bool) returns (index: nat)
    requires 2 <= base <= 16 && num < U64 && buffer.Length == SCRATCH
    modifies buffer
    ensures index == |Digits(num, base, upper)| <= 64
    ensures buffer[..index] == Reversed(Digits(num, base, upper))
  {
    hide Digits, Digit;
    AtMost64Digits(num, base, upper);
    index := 0;
    if num == 0 {
      buffer[0] := '0';
      index := 1;
      DigitZero(upper);
      ReversedDigits(0, base, upper);
      assert buffer[..1] == [Digit(0, upper)];
      return;
    }
    ghost var all := Reversed(Digits(num, base, upper));
    var left: nat := num;
    while left > 0
      invariant index <= 64
      invariant left > 0 ==> all == buffer[..index] + Reversed(Digits(left, base, upper))
      invariant left == 0 ==> all == buffer[..index]
      decreases left
    {
      ReversedDigits(left, base, upper);
      ghost var was := buffer[..index];
      buffer[index] := Digit(left % base, upper);
      assert buffer[..index + 1] == was + [Digit(left % base, upper)];
      index := index + 1;
      left := left / base;
    }
    assert |all| == |Digits(num, base, upper)|;
  }

  lemma DigitZero(upper: bool)
    ensures Digit(0, upper) == '0'
  {
    assert UPPER[0] == '0' && LOWER[0] == '0';
  }

  /** Sixty-six characters are room for every number that is not padded beyond sixty-five. */
  lemma ScratchIsEnough(num: nat, base: nat, negative: bool, upper: bool, zeroPad: nat)
    requires num < U64 && 2 <= base <= 16
    ensures |Number(num, base, negative, upper, zeroPad)| < 66 <==> zeroPad < 66
  {
    hide Digits;
    NumberLength(num, base, negative, upper, zeroPad);
    AtMost64Digits(num, base, upper);
  }

  /** itoa: the text and its terminator, for which the caller has room; nothing for a base it does
      not know. */
  method Itoa(out: array<char>, base: nat, num: nat, negative: bool, upper: bool, zeroPad: nat) returns (len: nat)
    requires num < U64
    requires 2 <= base <= 16 ==> |Number(num, base, negative, upper, zeroPad)| < out.Length
    modifies out
    ensures !(2 <= base <= 16) ==> len == 0 && out[..] == old(out[..])
    ensures 2 <= base <= 16 ==> len == |Number(num, base, negative, upper, zeroPad)|
    ensures 2 <= base <= 16 ==> out[..len] == Number(num, base, negative, upper, zeroPad) && out[len] == '\0'
  {
    hide Digits, Digit;
    if base < 2 || base > 16 {
      return 0;
    }
    var buffer := new char[SCRATCH];
    var index := DivideOut(buffer, base, num, upper);
    NumberLength(num, base, negative, upper, zeroPad);
    ghost var digits, sign := Digits(num, base, upper), if negative then "-" else "";
    var length := if negative then index + 1 else index;
    var padding := if zeroPad > length then zeroPad - length else 0;
    var pos := 0;
    if negative {
      out[0] := '-';
      pos := 1;
    }
    assert out[..pos] == sign;
    PutZeros(out, pos, padding);
    pos := pos + padding;
    PutReversed(out, pos, buffer, index, digits);
    pos := pos + index;
    out[pos] := '\0';
    assert out[..pos] == sign + Repeat('0', padding) + digits;
    return pos;
  }

  /** The padding loop of itoa. */
  method PutZeros(out: array<char>, at: nat, n: nat)
    requires at + n <= out.Length
    modifies out
    ensures out[..at + n] == old(out[..at]) + Repeat('0', n)
  {
    var i := 0;
    while i < n
      invariant 0 <= i <= n && out[..at + i] == old(out[..at]) + Repeat('0', i)
    {
      out[at + i] := '0';
      assert out[..at + i + 1] == out[..at + i] + ['0'];
      i := i + 1;
    }
  }

  /** The loop of itoa that copies the digits, first one first. */
  method PutReversed(out: array<char>, at: nat, buffer: array<char>, index: nat, ghost digits: string)
    requires at + index <= out.Length && index <= buffer.Length && out != buffer && buffer[..index] == Reversed(digits)
    modifies out
    ensures out[..at + index] == old(out[..at]) + digits
  {
    var pos, j := at, index - 1;
    while j >= 0
      invariant -1 <= j < index && pos == at + index - 1 - j
      invariant out[..pos] == old(out[..at]) + digits[..index - 1 - j]
    {
      assert buffer[j] == buffer[..index][j] == digits[index - 1 - j];
      out[pos] := buffer[j];
      assert out[..pos + 1] == out[..pos] + [digits[index - 1 - j]];
      pos := pos + 1;
      j := j - 1;
    }
    assert digits[..index] == digits;
  }
}
