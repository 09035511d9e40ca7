/**
  Formatted output into a bounded buffer, against a pure rendering of the whole text.
*/
module Printf {
  import opened Common
  import opened Numbers

  const U32_MAX: nat := 0xFFFF_FFFF
  const INT_LIMIT: nat := 0x8000_0000

  /** The variable arguments as the stack holds them, word by word, and the text behind a pointer. */
  datatype Args = Args(words: nat -> u32, strings: u32 -> string)

  datatype Size = Normal | Half | Byte | Long | LongLong

  /** A conversion up to its letter: zero flag, width, size, and where the letter is. */
  datatype Spec = Spec(zero: bool, width: nat, size: Size, at: nat)

  // ----- reading a conversion

  /** The character at `i`; the terminator lies at the end. */
  function Cur(format: string, i: nat): (c: char) {
    if i < |format| then format[i] else '\0'
  }

  predicate IsDigit(c: char) {
    '0' <= c <= '9'
  }

  function WidthStep(width: nat, c: char): (n: nat)
    requires IsDigit(c)
  {
    var digit := (c - '0') as nat;
    if width <= (U32_MAX - digit) / 10 then width * 10 + digit else U32_MAX
  }

  /** The width read on from `i`, and where its digits end. */
  function Width(format: string, i: nat, width: nat): (r: (nat, nat))
    ensures r.1 >= i
    decreases |format| - i
  {
    if i < |format| && IsDigit(format[i]) then Width(format, i + 1, WidthStep(width, format[i])) else (width, i)
  }

  function SizeAt(format: string, i: nat): (r: (Size, nat))
    ensures r.1 >= i
  {
    if Cur(format, i) == 'h' then (if Cur(format, i + 1) == 'h' then (Byte, i + 2) else (Half, i + 1))
    else if Cur(format, i) == 'l' then (if Cur(format, i + 1) == 'l' then (LongLong, i + 2) else (Long, i + 1))
    else (Normal, i)
  }

  function SpecAt(format: string, i: nat): (spec: Spec)
    ensures spec.at >= i
  {
    var zero := Cur(format, i) == '0';
    var (width, j) := Width(format, if zero then i + 1 else i, 0);
    var (size, k) := SizeAt(format, j);
    Spec(zero, width, size, k)
  }

  /** The digits from `i` up to `j` as a number. */
  function DecimalFrom(format: string, i: nat, j: nat): (n: nat)
    requires i <= j <= |format| && forall k :: i <= k < j ==> IsDigit(format[k])
    decreases j
  {
    if i == j then 0
    else
      assert IsDigit(format[j - 1]);
      DecimalFrom(format, i, j - 1) * 10 + (format[j - 1] - '0') as nat
  }

  function Capped(n: nat): (width: nat) {
    if n < U32_MAX then n else U32_MAX
  }

  lemma WidthStepCaps(n: nat, c: char)
    requires IsDigit(c)
    ensures WidthStep(Capped(n), c) == Capped(n * 10 + (c - '0') as nat)
  {
  }

  lemma {:induction false} WidthCaps(format: string, start: nat, i: nat)
    requires start <= i <= |format| && forall k :: start <= k < i ==> IsDigit(format[k])
    ensures var j := Width(format, i, 0).1;
      && i <= j <= |format| && (forall k :: start <= k < j ==> IsDigit(format[k])) && !IsDigit(Cur(format, j))
      && Width(format, i, Capped(DecimalFrom(format, start, i))) == (Capped(DecimalFrom(format, start, j)), j)
    decreases |format| - i
  {
    WidthEnd(format, i, 0, Capped(DecimalFrom(format, start, i)));
    if i < |format| && IsDigit(format[i]) {
      WidthStepCaps(DecimalFrom(format, start, i), format[i]);
      WidthEnd(format, i + 1, 0, WidthStep(0, format[i]));
      WidthCaps(format, start, i + 1);
    }
  }

  /** Where the digits end does not depend on the width so far. */
  lemma {:induction false} WidthEnd(format: string, i: nat, v: nat, w: nat)
    ensures Width(format, i, v).1 == Width(format, i, w).1
    decreases |format| - i
  {
    if i < |format| && IsDigit(format[i]) {
      WidthEnd(format, i + 1, WidthStep(v, format[i]), WidthStep(w, format[i]));
    }
  }

  /** The width is the decimal number written there, or 2^32 - 1 if it is larger. */
  lemma WidthIsDecimal(format: string, i: nat)
    requires i <= |format|
    ensures var (w, j) := Width(format, i, 0);
      && i <= j <= |format| && (forall k :: i <= k < j ==> IsDigit(format[k])) && !IsDigit(Cur(format, j))
      && w == Capped(DecimalFrom(format, i, j))
  {
    WidthCaps(format, i, i);
  }

  // ----- what a conversion prints

  /** The low `modulus` of a word, as a two's complement number. */
  function SignedOf(w: nat, modulus: nat): (n: int)
    requires modulus > 0
  {
    if w % modulus < modulus / 2 then w % modulus else w % modulus - modulus
  }

  function Wide(args: Args, ap: nat): (n: nat) {
    args.words(ap) + args.words(ap + 1) * WORD
  }

  function SignedArg(size: Size, args: Args, ap: nat): (n: int) {
    match size
    case Byte => SignedOf(args.words(ap), 0x100)
    case Half => SignedOf(args.words(ap), 0x1_0000)
    case LongLong => SignedOf(Wide(args, ap), U64)
    case _ => SignedOf(args.words(ap), WORD)
  }

  function UnsignedArg(size: Size, args: Args, ap: nat): (n: nat) {
    match size
    case Byte => args.words(ap) % 0x100
    case Half => args.words(ap) % 0x1_0000
    case LongLong => Wide(args, ap)
    case _ => args.words(ap)
  }

  function Magnitude(v: int): (m: nat)
    ensures m == if v < 0 then -v else v
  {
    if v < 0 then -(v + 1) + 1 else v
  }

  /** The digits a zero-padded number is filled up to; sign and prefix are deducted here, and the
      sign once more inside Number. */
  function DigitWidth(spec: Spec, negative: bool, prefix: bool): (n: nat) {
    var extra := (if negative then 1 else 0) + (if prefix then 2 else 0);
    if spec.zero && spec.width > extra then spec.width - extra else 0
  }

  predicate IsSigned(c: char) {
    c == 'd' || c == 'i'
  }

  predicate IsUnsigned(c: char) {
    c == 'u' || c == 'x' || c == 'X' || c == 'o'
  }

  function BaseOf(c: char): (base: nat)
    ensures 2 <= base <= 16
  {
    if c == 'x' || c == 'X' || c == 'p' then 16 else if c == 'o' then 8 else 10
  }

  /** How many argument words a conversion takes. */
  function Taken(c: char, size: Size): (n: nat) {
    if IsSigned(c) || IsUnsigned(c) then (if size == LongLong then 2 else 1)
    else if c == 'c' || c == 's' || c == 'p' then 1
    else 0
  }

  /** The padding of the number a conversion prints, if it prints one. */
  function Pad(spec: Spec, c: char, args: Args, ap: nat): (n: nat) {
    if IsSigned(c) then DigitWidth(spec, SignedArg(spec.size, args, ap) < 0, false)
    else if IsUnsigned(c) then DigitWidth(spec, false, false)
    else if c == 'p' then DigitWidth(spec, false, true)
    else 0
  }

  function Piece(spec: Spec, c: char, args: Args, ap: nat): (text: string) {
    if c == '%' then "%"
    else if c == 'c' then [(args.words(ap) % 0x100) as char]
    else if c == 's' then (if args.words(ap) == 0 then "(null)" else args.strings(args.words(ap)))
    else if c == 'p' then "0x" + Number(args.words(ap), 16, false, false, Pad(spec, c, args, ap))
    else if IsSigned(c) then
      var v := SignedArg(spec.size, args, ap);
      Number(Magnitude(v), 10, v < 0, false, Pad(spec, c, args, ap))
    else if IsUnsigned(c) then
      Number(UnsignedArg(spec.size, args, ap), BaseOf(c), false, c == 'X', Pad(spec, c, args, ap))
    else "%" + [c]
  }

  /** A zero-padded signed number fills its width unless it is negative and shorter than that: its
      sign is deducted twice, and the field comes out one character short. */
  lemma ZeroPaddingFillsExactly(spec: Spec, c: char, args: Args, ap: nat)
    requires IsSigned(c) && spec.zero
    ensures var v := SignedArg(spec.size, args, ap);
      var len := |Digits(Magnitude(v), 10, false)| + if v < 0 then 1 else 0;
      && (|Piece(spec, c, args, ap)| >= spec.width <==> !(v < 0 && len < spec.width))
      && (v < 0 && len < spec.width ==> |Piece(spec, c, args, ap)| == spec.width - 1)
  {
    hide SignedArg, Digits;
    var v := SignedArg(spec.size, args, ap);
    NumberLength(Magnitude(v), 10, v < 0, false, Pad(spec, c, args, ap));
  }

  /** A signed conversion prints the number it was given. */
  lemma SignedPieceDenotes(spec: Spec, c: char, args: Args, ap: nat)
    requires IsSigned(c)
    ensures Denotes(Piece(spec, c, args, ap), 10) == SignedArg(spec.size, args, ap)
  {
    hide SignedArg, Digits, Number;
    var v := SignedArg(spec.size, args, ap);
    NumberDenotes(Magnitude(v), 10, v < 0, false, Pad(spec, c, args, ap));
  }

  /** An unsigned conversion prints the number it was given in its base, and zero padding fills the
      width exactly. */
  lemma UnsignedPieceDenotes(spec: Spec, c: char, args: Args, ap: nat)
    requires IsUnsigned(c)
    ensures Denotes(Piece(spec, c, args, ap), BaseOf(c)) == UnsignedArg(spec.size, args, ap)
    ensures spec.zero ==>
      |Piece(spec, c, args, ap)| == Max(spec.width, |Digits(UnsignedArg(spec.size, args, ap), BaseOf(c), c == 'X')|)
  {
    hide UnsignedArg, Digits, Number, BaseOf;
    var v := UnsignedArg(spec.size, args, ap);
    NumberDenotes(v, BaseOf(c), false, c == 'X', Pad(spec, c, args, ap));
    NumberLength(v, BaseOf(c), false, c == 'X', Pad(spec, c, args, ap));
  }

  /** A pointer comes out as 0x and its value in hexadecimal; the prefix counts towards the width. */
  lemma PointerPieceDenotes(spec: Spec, args: Args, ap: nat)
    ensures var text := Piece(spec, 'p', args, ap);
      && |text| > 2 && text[..2] == "0x" && Denotes(text[2..], 16) == args.words(ap)
      && (spec.zero ==> |text| == Max(spec.width, 2 + |Digits(args.words(ap), 16, false)|))
  {
    hide Digits, Number;
    var number := Number(args.words(ap), 16, false, false, Pad(spec, 'p', args, ap));
    assert Piece(spec, 'p', args, ap) == "0x" + number;
    NumberDenotes(args.words(ap), 16, false, false, Pad(spec, 'p', args, ap));
    NumberLength(args.words(ap), 16, false, false, Pad(spec, 'p', args, ap));
    SomeDigits(args.words(ap), 16, false);
  }

  lemma SomeDigits(num: nat, base: nat, upper: bool)
    requires 2 <= base <= 16
    ensures |Digits(num, base, upper)| > 0
  {
  }

  /** The whole text of `format` from `i` on, with the arguments from word `ap` on. */
  function Render(format: string, i: nat, args: Args, ap: nat): (text: string)
    decreases |format| - i
  {
    if i >= |format| then ""
    else if format[i] != '%' then [format[i]] + Render(format, i + 1, args, ap)
    else
      var spec := SpecAt(format, i + 1);
      if spec.at >= |format| then ""
      else
        var c := format[spec.at];
        Piece(spec, c, args, ap) + Render(format, spec.at + 1, args, ap + Taken(c, spec.size))
  }

  /** No number is padded beyond what the 66-byte scratch buffer of put_number holds. */
  predicate WidthsFit(format: string, i: nat, args: Args, ap: nat)
    decreases |format| - i
  {
    if i >= |format| then true
    else if format[i] != '%' then WidthsFit(format, i + 1, args, ap)
    else
      var spec := SpecAt(format, i + 1);
      if spec.at >= |format| then true
      else
        var c := format[spec.at];
        Pad(spec, c, args, ap) < SCRATCH && WidthsFit(format, spec.at + 1, args, ap + Taken(c, spec.size))
  }

  lemma RenderStep(format: string, i: nat, args: Args, ap: nat)
    ensures i >= |format| ==> Render(format, i, args, ap) == ""
    ensures i < |format| && format[i] != '%' ==>
      Render(format, i, args, ap) == [format[i]] + Render(format, i + 1, args, ap)
    ensures i < |format| && format[i] != '%' && WidthsFit(format, i, args, ap) ==> WidthsFit(format, i + 1, args, ap)
  {
  }

  lemma RenderSpec(format: string, i: nat, args: Args, ap: nat)
    requires i < |format| && format[i] == '%'
    ensures var spec := SpecAt(format, i + 1);
      if spec.at >= |format| then Render(format, i, args, ap) == ""
      else
        var c := format[spec.at];
        && Render(format, i, args, ap)
           == Piece(spec, c, args, ap) + Render(format, spec.at + 1, args, ap + Taken(c, spec.size))
        && (WidthsFit(format, i, args, ap) ==>
              Pad(spec, c, args, ap) < SCRATCH && WidthsFit(format, spec.at + 1, args, ap + Taken(c, spec.size)))
  {
  }

  // ----- the bounded buffer

  /** struct string_formatter. `text` is everything put so far, whether it fitted or not. */
  class Formatter {
    const out: array?<char>
    const limit: nat
    var index: nat
    ghost var text: string
    ghost const was: seq<char>

    ghost predicate Valid()
      reads this, out
    {
      && index == |text|
      && (out != null ==> limit <= out.Length && |was| == out.Length)
      && (out != null && limit > 0 ==>
            var m := Min(index, limit - 1); out[..m] == text[..m] && out[m..] == was[m..])
      && (out != null && limit == 0 ==> out[..] == was)
    }

    constructor (out: array?<char>, limit: nat)
      requires out != null ==> limit <= out.Length
      ensures Valid() && this.out == out && this.limit == limit && text == ""
      ensures out != null ==> was == out[..]
    {
      this.out := out;
      this.limit := limit;
      index := 0;
      text := "";
      was := if out == null then [] else out[..];
    }

    method PutChar(c: char)
      requires Valid()
      modifies this, out
      ensures Valid() && text == old(text) + [c]
    {
      if out != null && limit > 0 && index < limit - 1 {
        out[index] := c;
      }
      index := index + 1;
      text := text + [c];
    }

    /** put_string on a text of known length. */
    method PutString(s: string)
      requires Valid()
      modifies this, out
      ensures Valid() && text == old(text) + s
    {
      var i := 0;
      while i < |s|
        invariant 0 <= i <= |s| && Valid() && text == old(text) + s[..i]
      {
        PutChar(s[i]);
        assert s[..i + 1] == s[..i] + [s[i]];
        i := i + 1;
      }
      assert s[..|s|] == s;
    }

    /** put_number */
    method PutNumber(base: nat, num: nat, negative: bool, upper: bool, zeroPad: nat)
      requires Valid() && 2 <= base <= 16 && num < U64 && zeroPad < SCRATCH
      modifies this, out
      ensures Valid() && text == old(text) + Number(num, base, negative, upper, zeroPad)
    {
      hide Number;
      var buffer := new char[SCRATCH];
      ScratchIsEnough(num, base, negative, upper, zeroPad);
      var len := Itoa(buffer, base, num, negative, upper, zeroPad);
      PutString(buffer[..len]);
    }

    /** One conversion, once it has been read. */
    method PutPiece(spec: Spec, c: char, args: Args, ap: nat)
      requires Valid() && Pad(spec, c, args, ap) < SCRATCH
      modifies this, out
      ensures Valid() && text == old(text) + Piece(spec, c, args, ap)
    {
      hide Number, SignedArg, UnsignedArg, DigitWidth;
      match c {
        case '%' =>
          PutChar('%');
        case 'c' =>
          PutChar((args.words(ap) % 0x100) as char);
        case 's' =>
          PutString(if args.words(ap) == 0 then "(null)" else args.strings(args.words(ap)));
        case 'p' =>
          PutChar('0');
          PutChar('x');
          PutNumber(16, args.words(ap), false, false, DigitWidth(spec, false, true));
        case _ =>
          if IsSigned(c) {
            var value := SignedArg(spec.size, args, ap);
            SignedFits(spec.size, args, ap);
            PutNumber(10, Magnitude(value), value < 0, false, DigitWidth(spec, value < 0, false));
          } else if IsUnsigned(c) {
            UnsignedFits(spec.size, args, ap);
            PutNumber(BaseOf(c), UnsignedArg(spec.size, args, ap), false, c == 'X', DigitWidth(spec, false, false));
          } else {
            PutChar('%');
            PutChar(c);
          }
      }
    }
  }

  lemma SignedFits(size: Size, args: Args, ap: nat)
    ensures Magnitude(SignedArg(size, args, ap)) < U64
  {
  }

  lemma UnsignedFits(size: Size, args: Args, ap: nat)
    ensures UnsignedArg(size, args, ap) < U64
  {
  }

  /** The loop of vsnprintf over the digits of a width. */
  method ReadWidth(format: string, start: nat) returns (width: nat, i: nat)
    ensures (width, i) == Width(format, start, 0)
  {
    width, i := 0, start;
    while i < |format| && IsDigit(format[i])
      invariant Width(format, i, width) == Width(format, start, 0)
      decreases |format| - i
    {
      width := WidthStep(width, format[i]);
      i := i + 1;
    }
  }

  /** The part of vsnprintf that reads a conversion up to its letter. */
  method ReadSpec(format: string, start: nat) returns (spec: Spec)
    ensures spec == SpecAt(format, start)
  {
    var i := start;
    var zero := false;
    if Cur(format, i) == '0' {
      zero := true;
      i := i + 1;
    }
    var width;
    width, i := ReadWidth(format, i);
    var size := Normal;
    if Cur(format, i) == 'h' {
      size := Half;
      i := i + 1;
      if Cur(format, i) == 'h' {
        size := Byte;
        i := i + 1;
      }
    } else if Cur(format, i) == 'l' {
      size := Long;
      i := i + 1;
      if Cur(format, i) == 'l' {
        size := LongLong;
        i := i + 1;
      }
    }
    return Spec(zero, width, size, i);
  }

  /** vsnprintf. The result is the length of the whole text whatever the size of the buffer; the
      buffer gets as much of it as fits, a terminator behind it, and is not touched further on. */
  method Vsnprintf(s: array?<char>, n: nat, format: Option<string>, args: Args) returns (r: int)
    requires s != null ==> n <= s.Length
    requires format.Some? ==> WidthsFit(format.value, 0, args, 0) && |Render(format.value, 0, args, 0)| < INT_LIMIT
    modifies s
    ensures format.None? || (s == null && n != 0) ==> r == -1 && (s != null ==> s[..] == old(s[..]))
    ensures format.Some? && (s != null || n == 0) ==> r == |Render(format.value, 0, args, 0)|
    ensures format.Some? && s != null && n > 0 ==>
      var text := Render(format.value, 0, args, 0);
      var m := Min(|text|, n - 1);
      s[..m] == text[..m] && s[m] == '\0' && s[m + 1..] == old(s[m + 1..])
    ensures s != null && n == 0 ==> s[..] == old(s[..])
  {
    hide Render, WidthsFit, Piece, Pad, SpecAt, Taken;
    if format.None? || (s == null && n != 0) {
      return -1;
    }
    var fmt := format.value;
    ghost var all := Render(fmt, 0, args, 0);
    var f := new Formatter(s, n);
    var i, ap := 0, 0;
    while i < |fmt|
      invariant f.Valid() && f.out == s && f.limit == n && fresh(f) && (s != null ==> f.was == old(s[..]))
      invariant i >= 0 && ap >= 0 && f.text + Render(fmt, i, args, ap) == all && WidthsFit(fmt, i, args, ap)
      decreases |fmt| - i
    {
      RenderStep(fmt, i, args, ap);
      if fmt[i] != '%' {
        f.PutChar(fmt[i]);
        i := i + 1;
        continue;
      }
      RenderSpec(fmt, i, args, ap);
      var spec := ReadSpec(fmt, i + 1);
      if spec.at >= |fmt| {
        break;
      }
      var c := fmt[spec.at];
      f.PutPiece(spec, c, args, ap);
      ap := ap + Taken(c, spec.size);
      i := spec.at + 1;
    }
    RenderStep(fmt, i, args, ap);
    assert f.text == all;
    if s != null && n > 0 {
      s[if f.index < n then f.index else n - 1] := '\0';
    }
    return f.index;
  }
}
