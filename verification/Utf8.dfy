/** UTF-8 (sections 3 and 4 of RFC 3629), with Go's treatment of malformed bytes. */
module Utf8 {
  type Byte = b: int | 0 <= b < 256

  /** A Unicode scalar value. */
  type Rune = r: int | 0 <= r < 0xD800 || 0xE000 <= r < 0x110000

  /** What a malformed byte reads as. */
  const REPLACEMENT: Rune := 0xFFFD

  function Encode(r: Rune): (b: seq<Byte>)
    ensures 1 <= |b| <= 4
    ensures r < 0x80 ==> b == [r]
    ensures r >= 0x80 ==> b[0] >= 0xC2 && forall i :: 0 < i < |b| ==> Continues(b[i])
  {
    if r < 0x80 then [r]
    else if r < 0x800 then [0xC0 + r / 0x40, 0x80 + r % 0x40]
    else if r < 0x10000 then [0xE0 + r / 0x1000, 0x80 + r / 0x40 % 0x40, 0x80 + r % 0x40]
    else [0xF0 + r / 0x40000, 0x80 + r / 0x1000 % 0x40, 0x80 + r / 0x40 % 0x40, 0x80 + r % 0x40]
  }

  predicate Continues(b: Byte) {
    0x80 <= b < 0xC0
  }

  /**
   Which second bytes a lead byte admits: the narrow ranges exclude overlong forms, surrogates and
   values past U+10FFFF.
   */
  predicate SecondOk(lead: Byte, b: Byte) {
    match lead
    case 0xE0 => 0xA0 <= b < 0xC0
    case 0xED => 0x80 <= b < 0xA0
    case 0xF0 => 0x90 <= b < 0xC0
    case 0xF4 => 0x80 <= b < 0x90
    case _ => Continues(b)
  }

  /** The first rune of `b` and its width; a malformed byte is replaced on its own. */
  function DecodeFirst(b: seq<Byte>): (r: (Rune, nat))
    requires b != []
    ensures 1 <= r.1 <= |b|
  {
    if b[0] < 0x80 then (b[0], 1)
    else if 0xC2 <= b[0] < 0xE0 && |b| >= 2 && SecondOk(b[0], b[1]) then
      ((b[0] as int - 0xC0) * 0x40 + (b[1] as int - 0x80), 2)
    else if 0xE0 <= b[0] < 0xF0 && |b| >= 3 && SecondOk(b[0], b[1]) && Continues(b[2]) then
      ((b[0] as int - 0xE0) * 0x1000 + (b[1] as int - 0x80) * 0x40 + (b[2] as int - 0x80), 3)
    else if 0xF0 <= b[0] < 0xF5 && |b| >= 4 && SecondOk(b[0], b[1]) && Continues(b[2]) && Continues(b[3]) then
      ((b[0] as int - 0xF0) * 0x40000 + (b[1] as int - 0x80) * 0x1000
       + (b[2] as int - 0x80) * 0x40 + (b[3] as int - 0x80), 4)
    else (REPLACEMENT, 1)
  }

  function EncodeAll(runes: seq<Rune>): (b: seq<Byte>) {
    if runes == [] then [] else Encode(runes[0]) + EncodeAll(runes[1..])
  }

  function DecodeAll(b: seq<Byte>): (runes: seq<Rune>)
    decreases |b|
  {
    if b == [] then []
    else
      var (r, width) := DecodeFirst(b);
      [r] + DecodeAll(b[width..])
  }

  // ---------------------------------------------------------------- round trip

  lemma DivideTwice(r: nat)
    ensures r / 0x1000 == r / 0x40 / 0x40
  {
    var q := r / 0x40;
    var p := q / 0x40;
    assert r == p * 0x1000 + q % 0x40 * 0x40 + r % 0x40;
    assert 0 <= q % 0x40 * 0x40 + r % 0x40 < 0x1000;
  }

  /** The base-64 digits of a rune, as two, three or four bytes carry them. */
  lemma Digits(r: nat)
    ensures r == r / 0x40 * 0x40 + r % 0x40
    ensures r == r / 0x1000 * 0x1000 + r / 0x40 % 0x40 * 0x40 + r % 0x40
    ensures r == r / 0x40000 * 0x40000 + r / 0x1000 % 0x40 * 0x1000 + r / 0x40 % 0x40 * 0x40 + r % 0x40
  {
    DivideTwice(r);
    DivideTwice(r / 0x40);
    assert r / 0x40000 == r / 0x40 / 0x1000;
  }

  lemma DecodesWhatWasEncoded(r: Rune, rest: seq<Byte>)
    ensures DecodeFirst(Encode(r) + rest) == (r, |Encode(r)|)
  {
    var b, e := Encode(r) + rest, Encode(r);
    assert forall i :: 0 <= i < |e| ==> b[i] == e[i];
    Digits(r);
  }

  lemma DecodeStep(first: seq<Byte>, more: seq<Byte>, r: Rune)
    requires first != [] && DecodeFirst(first + more) == (r, |first|)
    ensures DecodeAll(first + more) == [r] + DecodeAll(more)
  {
    hide DecodeFirst;
    assert (first + more)[|first|..] == more;
  }

  lemma EncodeHead(runes: seq<Rune>, rest: seq<Byte>)
    requires runes != []
    ensures EncodeAll(runes) + rest == Encode(runes[0]) + (EncodeAll(runes[1..]) + rest)
  {
    hide Encode;
  }

  lemma HeadAndTail<T>(s: seq<T>, t: seq<T>)
    requires s != []
    ensures [s[0]] + (s[1..] + t) == s + t
  {
    assert s == [s[0]] + s[1..];
  }

  /** Whatever follows, encoded runes are read back. */
  lemma {:induction false} RoundTrip(runes: seq<Rune>, rest: seq<Byte>)
    ensures DecodeAll(EncodeAll(runes) + rest) == runes + DecodeAll(rest)
  {
    hide Encode, DecodeFirst, DecodeAll;
    if runes == [] {
      assert EncodeAll(runes) + rest == rest;
      assert runes + DecodeAll(rest) == DecodeAll(rest);
    } else {
      var first, more := Encode(runes[0]), EncodeAll(runes[1..]) + rest;
      EncodeHead(runes, rest);
      DecodesWhatWasEncoded(runes[0], more);
      DecodeStep(first, more, runes[0]);
      RoundTrip(runes[1..], rest);
      HeadAndTail(runes, DecodeAll(rest));
    }
  }

  lemma {:induction false} EncodeAppend(a: seq<Rune>, b: seq<Rune>)
    ensures EncodeAll(a + b) == EncodeAll(a) + EncodeAll(b)
  {
    if a == [] {
      assert a + b == b;
    } else {
      assert (a + b)[1..] == a[1..] + b;
      EncodeAppend(a[1..], b);
    }
  }

  /** An ASCII byte ends whatever came before it: malformed input cannot swallow it. */
  lemma AsciiStopsDecode(b: seq<Byte>, c: Byte, rest: seq<Byte>)
    requires b != [] && c < 0x80
    ensures DecodeFirst(b + [c] + rest) == DecodeFirst(b)
  {
  }

  lemma {:induction false} DecodeAroundAscii(b: seq<Byte>, c: Byte, rest: seq<Byte>)
    requires c < 0x80
    ensures DecodeAll(b + [c] + rest) == DecodeAll(b) + [c] + DecodeAll(rest)
    decreases |b|
  {
    var all := b + [c] + rest;
    if b == [] {
      assert all == [c] + rest;
      assert all[1..] == rest;
    } else {
      AsciiStopsDecode(b, c, rest);
      var width := DecodeFirst(b).1;
      assert all[width..] == b[width..] + [c] + rest;
      hide DecodeFirst;
      DecodeAroundAscii(b[width..], c, rest);
    }
  }

  // ---------------------------------------------------------------- a rune cut short

  /** The first byte of a rune that was cut short reads as malformed. */
  lemma CutRuneIsMalformed(r: Rune, k: nat, rest: seq<Byte>)
    requires 0 < k < |Encode(r)| && (rest != [] ==> !Continues(rest[0]))
    ensures DecodeFirst(Encode(r)[..k] + rest) == (REPLACEMENT, 1)
  {
    var b := Encode(r)[..k] + rest;
    assert b[0] == Encode(r)[0];
    if rest != [] {
      assert b[k] == rest[0];
    }
  }

  lemma StrayContinuation(b: seq<Byte>)
    requires b != [] && Continues(b[0])
    ensures DecodeFirst(b) == (REPLACEMENT, 1)
  {
  }

  function Replacements(k: nat): (runes: seq<Rune>)
    ensures |runes| == k && forall i :: 0 <= i < k ==> runes[i] == REPLACEMENT
  {
    if k == 0 then [] else [REPLACEMENT] + Replacements(k - 1)
  }

  lemma DropHead(b: seq<Byte>, rest: seq<Byte>)
    requires b != []
    ensures (b + rest)[1..] == b[1..] + rest
  {
  }

  lemma MalformedStep(b: seq<Byte>, rest: seq<Byte>)
    requires b != [] && DecodeFirst(b + rest) == (REPLACEMENT, 1)
    ensures DecodeAll(b + rest) == [REPLACEMENT] + DecodeAll(b[1..] + rest)
  {
    hide DecodeFirst;
    DropHead(b, rest);
  }

  lemma OneMore(k: nat, t: seq<Rune>)
    ensures [REPLACEMENT] + (Replacements(k) + t) == Replacements(k + 1) + t
  {
  }

  lemma {:induction false} StrayContinuations(b: seq<Byte>, rest: seq<Byte>)
    requires forall i :: 0 <= i < |b| ==> Continues(b[i])
    ensures DecodeAll(b + rest) == Replacements(|b|) + DecodeAll(rest)
  {
    hide DecodeFirst, DecodeAll, Replacements;
    if b == [] {
      assert b + rest == rest;
      assert Replacements(0) + DecodeAll(rest) == DecodeAll(rest);
    } else {
      StrayContinuation(b + rest);
      MalformedStep(b, rest);
      StrayContinuations(b[1..], rest);
      OneMore(|b| - 1, DecodeAll(rest));
    }
  }

  lemma CutTailContinues(r: Rune, k: nat)
    requires 0 < k < |Encode(r)|
    ensures forall i :: 0 <= i < k - 1 ==> Continues(Encode(r)[..k][1..][i])
  {
  }

  /** Each byte left of a rune that was cut short reads as a replacement character. */
  lemma CutRuneReads(r: Rune, k: nat, rest: seq<Byte>)
    requires k < |Encode(r)| && (rest != [] ==> !Continues(rest[0]))
    ensures DecodeAll(Encode(r)[..k] + rest) == Replacements(k) + DecodeAll(rest)
  {
    var cut := Encode(r)[..k];
    hide Encode, DecodeFirst, DecodeAll, Replacements, Continues;
    if k == 0 {
      assert cut + rest == rest;
      assert Replacements(0) + DecodeAll(rest) == DecodeAll(rest);
    } else {
      CutRuneIsMalformed(r, k, rest);
      CutTailContinues(r, k);
      MalformedStep(cut, rest);
      StrayContinuations(cut[1..], rest);
      OneMore(k - 1, DecodeAll(rest));
    }
  }
}
