/**
  What a format string means, said without the code that reads it: a list of directives, how each
  is written, and what its output must look like. The rendering of the string written for a list
  is what the list means.
*/
module Directives {
  import opened Common
  import opened Numbers
  import opened Printf

  /** A character to copy, or a conversion: zero flag, digits of the width, size, letter. */
  datatype Directive = Text(c: char) | Conversion(zero: bool, width: string, size: Size, letter: char)

  /** It can be written so that it reads back: the width has no zero in front that would be taken for
      the flag, and the letter is none that would be taken for a part of width or size. */
  ghost predicate Proper(d: Directive) {
    match d
    case Text(c) => c != '%'
    case Conversion(zero, width, size, letter) =>
      && (forall k :: 0 <= k < |width| ==> IsDigit(width[k])) && (width != "" && !zero ==> width[0] != '0')
      && !IsDigit(letter) && letter != 'h' && letter != 'l'
  }

  function Letters(size: Size): (s: string) {
    match size
    case Normal => ""
    case Half => "h"
    case Byte => "hh"
    case Long => "l"
    case LongLong => "ll"
  }

  function Written(d: Directive): (s: string)
    ensures s != ""
  {
    match d
    case Text(c) => [c]
    case Conversion(zero, width, size, letter) =>
      "%" + (if zero then "0" else "") + width + Letters(size) + [letter]
  }

  function Format(ds: seq<Directive>): (s: string) {
    if ds == [] then "" else Written(ds[0]) + Format(ds[1..])
  }

  // ----- what a directive prints

  /** The number behind the argument words at `ap`: 8, 16, 32 or 64 bits of them, as two's complement. */
  predicate IsSignedArg(v: int, size: Size, args: Args, ap: nat) {
    match size
    case Byte => -128 <= v < 128 && (v - args.words(ap)) % 256 == 0
    case Half => -32768 <= v < 32768 && (v - args.words(ap)) % 65536 == 0
    case LongLong =>
      && -0x8000_0000_0000_0000 <= v < 0x8000_0000_0000_0000
      && (v - args.words(ap) - 0x1_0000_0000 * args.words(ap + 1)) % 0x1_0000_0000_0000_0000 == 0
    case _ => -0x8000_0000 <= v < 0x8000_0000 && (v - args.words(ap)) % 0x1_0000_0000 == 0
  }

  predicate IsUnsignedArg(v: nat, size: Size, args: Args, ap: nat) {
    match size
    case Byte => v < 256 && (args.words(ap) - v) % 256 == 0
    case Half => v < 65536 && (args.words(ap) - v) % 65536 == 0
    case LongLong => v == args.words(ap) + 0x1_0000_0000 * args.words(ap + 1)
    case _ => v == args.words(ap)
  }

  /** The decimal number of a width, or 2^32 - 1 if that is smaller. */
  ghost function WidthOf(width: string): (n: nat) {
    Min(Evaluate(width, 10), 0xFFFF_FFFF)
  }

  function WordsOf(size: Size): (n: nat) {
    if size == LongLong then 2 else 1
  }

  /** `text` is an unsigned number in that base; zeros fill it up to the width if they are asked for. */
  ghost predicate PrintsUnsigned(text: string, size: Size, args: Args, ap: nat, base: nat, upper: bool, filled: nat) {
    exists v: nat :: IsUnsignedArg(v, size, args, ap) && Spelled(text, v, base, upper, filled)
  }

  /** The zeros in front of a negative number fill it up to one character less than the width. */
  ghost predicate PrintsSigned(text: string, size: Size, args: Args, ap: nat, filled: nat) {
    exists v: int :: IsSignedArg(v, size, args, ap)
      && Spelled(text, v, 10, false, if v < 0 && filled > 0 then filled - 1 else filled)
  }

  /** Directive `d` prints `text` from the arguments at `ap` on and leaves those at `next`. */
  ghost predicate Prints(text: string, d: Directive, args: Args, ap: nat, next: nat) {
    match d
    case Text(c) => text == [c] && next == ap
    case Conversion(zero, width, size, letter) =>
      var filled := if zero then WidthOf(width) else 0;
      match letter
      case '%' => text == "%" && next == ap
      case 'c' => |text| == 1 && text[0] as int == args.words(ap) % 256 && next == ap + 1
      case 's' => text == (if args.words(ap) == 0 then "(null)" else args.strings(args.words(ap))) && next == ap + 1
      case 'p' =>
        && |text| > 2 && text[0] == '0' && text[1] == 'x' && next == ap + 1
        && Spelled(text[2..], args.words(ap), 16, false, if filled > 2 then filled - 2 else 0)
      case 'd' => PrintsSigned(text, size, args, ap, filled) && next == ap + WordsOf(size)
      case 'i' => PrintsSigned(text, size, args, ap, filled) && next == ap + WordsOf(size)
      case 'u' => PrintsUnsigned(text, size, args, ap, 10, false, filled) && next == ap + WordsOf(size)
      case 'o' => PrintsUnsigned(text, size, args, ap, 8, false, filled) && next == ap + WordsOf(size)
      case 'x' => PrintsUnsigned(text, size, args, ap, 16, false, filled) && next == ap + WordsOf(size)
      case 'X' => PrintsUnsigned(text, size, args, ap, 16, true, filled) && next == ap + WordsOf(size)
      case _ => text == ['%', letter] && next == ap
  }

  ghost predicate PrintsAll(text: string, ds: seq<Directive>, args: Args, ap: nat) {
    if ds == [] then text == ""
    else exists k, next ::
      0 <= k <= |text| && Prints(text[..k], ds[0], args, ap, next) && PrintsAll(text[k..], ds[1..], args, next)
  }

  // ----- the conversions one by one

  lemma SignedIs(size: Size, args: Args, ap: nat)
    ensures IsSignedArg(SignedArg(size, args, ap), size, args, ap)
  {
    var w, x := args.words(ap), args.words(ap + 1);
    match size
    case Byte => Congruent(w, 256);
    case Half => Congruent(w, 65536);
    case LongLong => Congruent(w + x * WORD, U64);
    case _ => Congruent(w, WORD);
  }

  /** The two's complement number is congruent to what it was read from. */
  lemma Congruent(w: nat, modulus: nat)
    requires modulus in {256, 65536, 0x1_0000_0000, 0x1_0000_0000_0000_0000}
    ensures (SignedOf(w, modulus) - w) % modulus == 0
    ensures -(modulus / 2) <= SignedOf(w, modulus) < modulus / 2
  {
  }

  lemma UnsignedIs(size: Size, args: Args, ap: nat)
    ensures IsUnsignedArg(UnsignedArg(size, args, ap), size, args, ap)
  {
    var w := args.words(ap);
    match size
    case Byte => Remainder(w, 256);
    case Half => Remainder(w, 65536);
    case _ =>
  }

  lemma Remainder(w: nat, modulus: nat)
    requires modulus in {256, 65536}
    ensures w % modulus < modulus && (w - w % modulus) % modulus == 0
  {
  }

  /** What one conversion prints and takes. */
  lemma PiecePrints(spec: Spec, d: Directive, args: Args, ap: nat)
    requires Proper(d) && d.Conversion? && spec.zero == d.zero && spec.width == WidthOf(d.width) && spec.size == d.size
    ensures Prints(Piece(spec, d.letter, args, ap), d, args, ap, ap + Taken(d.letter, d.size))
  {
    hide SignedArg, UnsignedArg, Number, Spelled, IsSignedArg, IsUnsignedArg, WidthOf, Evaluate;
    var v, u, filled := SignedArg(d.size, args, ap), UnsignedArg(d.size, args, ap), if d.zero then spec.width else 0;
    SignedIs(d.size, args, ap);
    UnsignedIs(d.size, args, ap);
    if d.letter == 'p' {
      var number := Number(args.words(ap), 16, false, false, Pad(spec, 'p', args, ap));
      NumberSpelled(args.words(ap), 16, false, false, Pad(spec, 'p', args, ap));
      PointerLength(args.words(ap), Pad(spec, 'p', args, ap));
      assert ("0x" + number)[2..] == number;
    } else if IsSigned(d.letter) {
      NumberSpelled(Magnitude(v), 10, v < 0, false, Pad(spec, d.letter, args, ap));
    } else if IsUnsigned(d.letter) {
      NumberSpelled(u, BaseOf(d.letter), false, d.letter == 'X', Pad(spec, d.letter, args, ap));
    }
  }

  lemma PointerLength(w: nat, pad: nat)
    ensures |Number(w, 16, false, false, pad)| > 0
  {
    NumberLength(w, 16, false, false, pad);
  }

  // ----- reading a conversion

  lemma {:induction false} DecimalEvaluates(format: string, i: nat, j: nat)
    requires i <= j <= |format| && forall k :: i <= k < j ==> IsDigit(format[k])
    ensures DecimalFrom(format, i, j) == Evaluate(format[i..j], 10)
    decreases j
  {
    if i < j {
      DecimalEvaluates(format, i, j - 1);
      EvaluateAppend(format[i..j - 1], format[j - 1], 10);
      assert format[i..j] == format[i..j - 1] + [format[j - 1]];
    }
  }

  /** The digits of the width, wherever they stand. */
  lemma WidthReads(format: string, b: nat, width: string)
    requires b + |width| <= |format| && format[b..b + |width|] == width
    requires (forall k :: 0 <= k < |width| ==> IsDigit(width[k])) && !IsDigit(Cur(format, b + |width|))
    ensures Width(format, b, 0) == (WidthOf(width), b + |width|)
  {
    hide Width, Evaluate;
    WidthIsDecimal(format, b);
    var j := Width(format, b, 0).1;
    forall k | b <= k < b + |width| ensures IsDigit(format[k]) {
      assert format[k] == width[k - b];
    }
    assert j == b + |width|;
    DecimalEvaluates(format, b, j);
  }

  /** Where the parts of a written conversion stand. */
  lemma PartsOf(format: string, i: nat, d: Directive, rest: string)
    requires d.Conversion? && i <= |format| && format[i..] == Written(d) + rest
    ensures var b := i + if d.zero then 2 else 1;
      var e := b + |d.width|;
      var p := e + |Letters(d.size)|;
      && p + 1 == i + |Written(d)| <= |format| && format[i] == '%' && (d.zero ==> format[i + 1] == '0')
      && format[b..e] == d.width && format[e..p] == Letters(d.size) && format[p] == d.letter
      && format[p + 1..] == rest
  {
    hide Written, Letters;
    PartsInside(d, rest);
    var b := if d.zero then 2 else 1;
    var e := b + |d.width|;
    var p := e + |Letters(d.size)|;
    var w := Written(d) + rest;
    SliceOf(format, i, b, e);
    SliceOf(format, i, e, p);
    SliceOf(format, i, p + 1, |w|);
    assert format[i..][0] == format[i] && format[i..][1] == format[i + 1] && format[i..][p] == format[i + p];
    assert w[p + 1..] == w[p + 1..|w|];
  }

  lemma SliceOf(format: string, i: nat, a: nat, b: nat)
    requires i + b <= |format| && a <= b
    ensures format[i..][a..b] == format[i + a..i + b]
  {
  }

  lemma PartsInside(d: Directive, rest: string)
    requires d.Conversion?
    ensures var w := Written(d) + rest;
      var b := if d.zero then 2 else 1;
      var e := b + |d.width|;
      var p := e + |Letters(d.size)|;
      && p + 1 == |Written(d)| && w[0] == '%' && (d.zero ==> w[1] == '0')
      && w[b..e] == d.width && w[e..p] == Letters(d.size) && w[p] == d.letter && w[p + 1..] == rest
  {
    hide Letters;
    FourPieces("%" + if d.zero then "0" else "", d.width, Letters(d.size), d.letter, rest);
  }

  lemma FourPieces(a: string, b: string, c: string, x: char, rest: string)
    ensures var w := a + b + c + [x] + rest;
      && w[..|a|] == a && w[|a|..|a| + |b|] == b && w[|a| + |b|..|a| + |b| + |c|] == c
      && w[|a| + |b| + |c|] == x && w[|a| + |b| + |c| + 1..] == rest
  {
    var w := a + b + c + [x] + rest;
    assert w == a + (b + (c + ([x] + rest)));
    assert w[|a|..] == b + (c + ([x] + rest));
    assert w[|a| + |b|..] == c + ([x] + rest);
    assert w[|a| + |b| + |c|..] == [x] + rest;
  }

  lemma SizeReads(format: string, e: nat, size: Size)
    requires e + |Letters(size)| < |format| && format[e..e + |Letters(size)|] == Letters(size)
    requires format[e + |Letters(size)|] != 'h' && format[e + |Letters(size)|] != 'l'
    ensures SizeAt(format, e) == (size, e + |Letters(size)|)
  {
    assert forall k :: 0 <= k < |Letters(size)| ==> format[e + k] == Letters(size)[k];
  }

  /** A conversion that was written is read back. */
  lemma SpecReads(format: string, i: nat, d: Directive, rest: string)
    requires Proper(d) && d.Conversion? && i <= |format| && format[i..] == Written(d) + rest
    ensures |format| >= i + |Written(d)|
    ensures SpecAt(format, i + 1) == Spec(d.zero, WidthOf(d.width), d.size, i + |Written(d)| - 1)
  {
    hide Written, Width, WidthOf, SizeAt;
    PartsOf(format, i, d, rest);
    var b := i + if d.zero then 2 else 1;
    var e := b + |d.width|;
    assert !IsDigit(format[e]) by {
      assert Letters(d.size) != "" ==> format[e] == format[e..e + |Letters(d.size)|][0];
    }
    assert !d.zero && d.width != "" ==> format[b] == format[b..e][0] == d.width[0];
    WidthReads(format, b, d.width);
    SizeReads(format, e, d.size);
  }

  // ----- the whole format

  /** The end of a format: nothing, or a conversion that lacks its letter. */
  ghost predicate Unfinished(tail: string) {
    tail == "" || exists d: Directive :: Proper(d) && d.Conversion? && tail + [d.letter] == Written(d)
  }

  /** From wherever the writing of `ds` stands in a format, the rendering is what `ds` means; an
      unfinished conversion at the end prints nothing. */
  lemma {:induction false} RendersFrom(format: string, i: nat, ds: seq<Directive>, tail: string, args: Args, ap: nat)
    requires (forall d :: d in ds ==> Proper(d)) && i <= |format| && format[i..] == Format(ds) + tail
    requires Unfinished(tail)
    ensures PrintsAll(Render(format, i, args, ap), ds, args, ap)
    decreases |ds|
  {
    hide Prints, PrintsAll, Piece, SpecAt, Written, Proper, Unfinished, Render;
    if ds == [] {
      UnfinishedPrintsNothing(format, i, tail, args, ap);
      NothingPrinted(args, ap);
    } else {
      var d, rest := ds[0], Format(ds[1..]) + tail;
      var n := i + |Written(d)|;
      var text := Render(format, i, args, ap);
      assert format[i..] == Written(d) + rest;
      Behind(format, i, Written(d), rest);
      if d.Text? {
        TextReads(format, i, d, rest);
        RendersFrom(format, n, ds[1..], tail, args, ap);
        TextPrints(d, args, ap);
        RenderStep(format, i, args, ap);
        PrintsMore([d.c], Render(format, n, args, ap), ds, args, ap, ap);
      } else {
        PartsOf(format, i, d, rest);
        SpecReads(format, i, d, rest);
        var spec, next := SpecAt(format, i + 1), ap + Taken(d.letter, d.size);
        PiecePrints(spec, d, args, ap);
        RendersFrom(format, n, ds[1..], tail, args, next);
        RenderSpec(format, i, args, ap);
        PrintsMore(Piece(spec, d.letter, args, ap), Render(format, n, args, next), ds, args, ap, next);
      }
    }
  }

  lemma Behind(format: string, i: nat, a: string, b: string)
    requires i <= |format| && format[i..] == a + b
    ensures i + |a| <= |format| && format[i + |a|..] == b
  {
    assert format[i + |a|..] == format[i..][|a|..];
  }

  lemma NothingPrinted(args: Args, ap: nat)
    ensures PrintsAll("", [], args, ap)
  {
  }

  lemma PrintsMore(piece: string, text: string, ds: seq<Directive>, args: Args, ap: nat, next: nat)
    requires ds != [] && Prints(piece, ds[0], args, ap, next) && PrintsAll(text, ds[1..], args, next)
    ensures PrintsAll(piece + text, ds, args, ap)
  {
    hide Prints;
    var all := piece + text;
    assert all[..|piece|] == piece && all[|piece|..] == text;
  }

  lemma UnfinishedPrintsNothing(format: string, i: nat, tail: string, args: Args, ap: nat)
    requires i <= |format| && format[i..] == tail && Unfinished(tail)
    ensures Render(format, i, args, ap) == ""
  {
    hide Written, Proper, SpecAt, Piece;
    if tail != "" {
      var d: Directive :| Proper(d) && d.Conversion? && tail + [d.letter] == Written(d);
      TailReads(format, i, tail, d);
      RenderSpec(format, i, args, ap);
    }
  }

  /** Without its letter a conversion reads to the end of the format. */
  lemma TailReads(format: string, i: nat, tail: string, d: Directive)
    requires Proper(d) && d.Conversion? && tail != "" && tail + [d.letter] == Written(d)
    requires i <= |format| && format[i..] == tail
    ensures i < |format| && format[i] == '%' && SpecAt(format, i + 1).at >= |format|
  {
    hide Written, Width, WidthOf, Letters;
    PartsInside(d, "");
    assert Written(d) + "" == Written(d);
    var b := i + if d.zero then 2 else 1;
    var e := b + |d.width|;
    assert |format| == e + |Letters(d.size)|;
    InsideTail(format, i, tail, d.letter, b - i, e - i);
    InsideTail(format, i, tail, d.letter, e - i, |tail|);
    assert format[e..] == format[e..|format|];
    assert tail[0] == Written(d)[0] && (d.zero ==> tail[1] == Written(d)[1]);
    assert format[i..][0] == format[i] && (d.zero ==> format[i..][1] == format[i + 1]);
    assert !d.zero && d.width != "" ==> format[b] == format[b..e][0] == d.width[0];
    LettersAtEnd(format, e, d.size);
    WidthReads(format, b, d.width);
  }

  lemma InsideTail(format: string, i: nat, tail: string, c: char, x: nat, y: nat)
    requires i <= |format| && format[i..] == tail && x <= y <= |tail|
    ensures format[i + x..i + y] == (tail + [c])[x..y]
  {
    SliceOf(format, i, x, y);
    assert (tail + [c])[x..y] == tail[x..y];
  }

  lemma LettersAtEnd(format: string, e: nat, size: Size)
    requires e <= |format| && format[e..] == Letters(size)
    ensures SizeAt(format, e).1 >= |format| && !IsDigit(Cur(format, e)) && Cur(format, e) != '0'
  {
    assert forall k :: 0 <= k < |Letters(size)| ==> format[e + k] == Letters(size)[k];
  }

  lemma TextReads(format: string, i: nat, d: Directive, rest: string)
    requires Proper(d) && d.Text? && i <= |format| && format[i..] == Written(d) + rest
    ensures |Written(d)| == 1 && i < |format| && format[i] == d.c && format[i] != '%'
  {
    assert format[i] == format[i..][0];
  }

  lemma TextPrints(d: Directive, args: Args, ap: nat)
    requires d.Text?
    ensures Prints([d.c], d, args, ap, ap)
  {
  }

  /** The format string written for a list of directives renders as what they mean, whatever
      unfinished conversion follows. */
  lemma FormatsMeanWhatTheySay(ds: seq<Directive>, tail: string, args: Args)
    requires (forall d :: d in ds ==> Proper(d)) && Unfinished(tail)
    ensures PrintsAll(Render(Format(ds) + tail, 0, args, 0), ds, args, 0)
  {
    hide PrintsAll, Render, Format, Unfinished;
    assert (Format(ds) + tail)[0..] == Format(ds) + tail;
    RendersFrom(Format(ds) + tail, 0, ds, tail, args, 0);
  }
}
