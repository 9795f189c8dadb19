/** Messages made safe for Events and annotations (internal/status/reporter.go). */
module Sanitize {
  import opened Utf8

  const MAX_EVENT_MESSAGE: nat := 512

  /** "…", U+2026. */
  const ELLIPSIS: Rune := 0x2026

  const SEPARATOR: seq<Rune> := [0x20, 0x7C, 0x20]

  predicate LineBreak(r: Rune) {
    r == 0x0A || r == 0x0D
  }

  predicate Control(r: Rune) {
    r < 0x20 || r == 0x7F
  }

  function CleanRune(r: Rune): seq<Rune> {
    if LineBreak(r) then SEPARATOR else if Control(r) then [] else [r]
  }

  function Clean(runes: seq<Rune>): seq<Rune> {
    if runes == [] then [] else CleanRune(runes[0]) + Clean(runes[1..])
  }

  /** The message before it is cut. */
  function Full(msg: seq<Byte>): seq<Byte> {
    EncodeAll(Clean(DecodeAll(msg)))
  }

  function Truncate(b: seq<Byte>): seq<Byte> {
    if |b| > MAX_EVENT_MESSAGE then b[..MAX_EVENT_MESSAGE] + Encode(ELLIPSIS) else b
  }

  /** Build the output rune by rune, then cut it. */
  method SanitizeMessage(msg: seq<Byte>) returns (r: seq<Byte>)
    ensures r == Truncate(Full(msg))
  {
    hide Encode, DecodeFirst, Full, EncodeAll;
    var out: seq<Byte> := [];
    var rest := msg;
    while rest != []
      invariant out + Full(rest) == Full(msg)
      decreases |rest|
    {
      var (r, width) := DecodeFirst(rest);
      FullStep(rest);
      Associative(out, EncodeAll(CleanRune(r)), Full(rest[width..]));
      if LineBreak(r) {
        out := out + EncodeAll(SEPARATOR);
      } else if !Control(r) {
        EncodeOne(r);
        out := out + Encode(r);
      } else {
        EncodeNone();
        assert out + [] == out;
      }
      rest := rest[width..];
    }
    FullOfNothing();
    assert out + [] == out;
    r := if |out| > MAX_EVENT_MESSAGE then out[..MAX_EVENT_MESSAGE] + Encode(ELLIPSIS) else out;
  }

  lemma Associative<T>(a: seq<T>, b: seq<T>, c: seq<T>)
    ensures a + (b + c) == a + b + c
  {
  }

  lemma EncodeOne(r: Rune)
    ensures EncodeAll([r]) == Encode(r)
  {
    hide Encode;
    assert [r][1..] == [];
    assert Encode(r) + [] == Encode(r);
  }

  lemma EncodeNone()
    ensures EncodeAll([]) == []
  {
  }

  lemma FullOfNothing()
    ensures Full([]) == []
  {
  }

  lemma CleanHead(r: Rune, more: seq<Rune>)
    ensures Clean([r] + more) == CleanRune(r) + Clean(more)
  {
    assert ([r] + more)[1..] == more;
  }

  lemma FullStep(b: seq<Byte>)
    requires b != []
    ensures var (r, width) := DecodeFirst(b);
            Full(b) == EncodeAll(CleanRune(r)) + Full(b[width..])
  {
    hide DecodeFirst, EncodeAll, Clean, CleanRune;
    var (r, width) := DecodeFirst(b);
    CleanHead(r, DecodeAll(b[width..]));
    EncodeAppend(CleanRune(r), Clean(DecodeAll(b[width..])));
  }

  // ---------------------------------------------------------------- safe and short

  predicate Safe(b: seq<Byte>) {
    forall i :: 0 <= i < |b| ==> b[i] >= 0x20 && b[i] != 0x7F
  }

  predicate Printable(runes: seq<Rune>) {
    forall i :: 0 <= i < |runes| ==> !Control(runes[i])
  }

  lemma {:induction false} CleanIsPrintable(runes: seq<Rune>)
    ensures Printable(Clean(runes))
  {
    if runes != [] {
      CleanIsPrintable(runes[1..]);
    }
  }

  lemma {:induction false} PrintableIsSafe(runes: seq<Rune>)
    requires Printable(runes)
    ensures Safe(EncodeAll(runes))
  {
    if runes != [] {
      PrintableIsSafe(runes[1..]);
      assert Safe(Encode(runes[0]));
      hide Encode;
    }
  }

  /** At most 515 bytes and no control byte among them, even where the cut splits a rune. */
  lemma SanitizedIsSafe(msg: seq<Byte>)
    ensures |Truncate(Full(msg))| <= 515 && Safe(Truncate(Full(msg)))
  {
    CleanIsPrintable(DecodeAll(msg));
    PrintableIsSafe(Clean(DecodeAll(msg)));
    assert |Encode(ELLIPSIS)| == 3;
    hide Encode, DecodeAll, EncodeAll, Clean;
  }

  // ---------------------------------------------------------------- what is kept

  lemma {:induction false} CleanAppend(a: seq<Rune>, b: seq<Rune>)
    ensures Clean(a + b) == Clean(a) + Clean(b)
  {
    hide CleanRune;
    if a == [] {
      assert a + b == b;
    } else {
      assert (a + b)[1..] == a[1..] + b;
      CleanAppend(a[1..], b);
    }
  }

  lemma {:induction false} PrintableStays(runes: seq<Rune>)
    requires Printable(runes)
    ensures Clean(runes) == runes
  {
    if runes != [] {
      PrintableStays(runes[1..]);
      assert runes == [runes[0]] + runes[1..];
    }
  }

  /** Read back, the uncut output is the message without its control characters. */
  lemma FullReadsAsClean(msg: seq<Byte>)
    ensures DecodeAll(Full(msg)) == Clean(DecodeAll(msg))
  {
    var clean := Clean(DecodeAll(msg));
    RoundTrip(clean, []);
    assert EncodeAll(clean) + [] == EncodeAll(clean);
  }

  lemma CleanAround(a: seq<Rune>, c: Rune, b: seq<Rune>)
    ensures Clean(a + [c] + b) == Clean(a) + CleanRune(c) + Clean(b)
  {
    hide Clean, CleanRune;
    Associative(a, [c], b);
    CleanAppend(a, [c] + b);
    CleanHead(c, b);
    Associative(Clean(a), CleanRune(c), Clean(b));
  }

  lemma EncodeThree(a: seq<Rune>, b: seq<Rune>, c: seq<Rune>)
    ensures EncodeAll(a + b + c) == EncodeAll(a) + EncodeAll(b) + EncodeAll(c)
  {
    hide EncodeAll;
    EncodeAppend(a + b, c);
    EncodeAppend(a, b);
  }

  /**
   Wherever an ASCII character stands, even behind malformed bytes: a line break becomes
   " | " in its place, another control character vanishes, everything else stays.
   */
  lemma AsciiIsCleanedInPlace(a: seq<Byte>, c: Byte, b: seq<Byte>)
    requires c < 0x80
    ensures Full(a + [c] + b) == Full(a) + Replaced(c) + Full(b)
  {
    hide DecodeAll, EncodeAll, Clean, CleanRune, Replaced;
    DecodeAroundAscii(a, c, b);
    CleanAround(DecodeAll(a), c, DecodeAll(b));
    EncodeThree(Clean(DecodeAll(a)), CleanRune(c), Clean(DecodeAll(b)));
    ReplacedIsEncoded(c);
  }

  function Replaced(c: Byte): seq<Byte> {
    if c == 0x0A || c == 0x0D then [0x20, 0x7C, 0x20] else if c < 0x20 || c == 0x7F then [] else [c]
  }

  lemma ReplacedIsEncoded(c: Byte)
    requires c < 0x80
    ensures EncodeAll(CleanRune(c)) == Replaced(c)
  {
    if LineBreak(c) {
      assert SEPARATOR[1..] == [0x7C, 0x20] && SEPARATOR[2..] == [0x20];
    } else if !Control(c) {
      EncodeOne(c);
    }
  }

  // ---------------------------------------------------------------- sanitizing twice

  /** How many runes fit into `room` bytes. */
  function Fit(runes: seq<Rune>, room: nat): (n: nat)
    ensures n <= |runes|
  {
    if runes == [] || |Encode(runes[0])| > room then 0 else 1 + Fit(runes[1..], room - |Encode(runes[0])|)
  }

  /** The bytes before the cut of the rune that it splits; none on a rune boundary. */
  function Remnant(runes: seq<Rune>, room: nat): seq<Byte> {
    if runes == [] then []
    else if |Encode(runes[0])| > room then Encode(runes[0])[..room]
    else Remnant(runes[1..], room - |Encode(runes[0])|)
  }

  ghost predicate CutRune(b: seq<Byte>) {
    exists r: Rune :: |b| < |Encode(r)| && b == Encode(r)[..|b|]
  }

  lemma {:induction false} CutShape(runes: seq<Rune>, room: nat)
    requires |EncodeAll(runes)| > room
    ensures EncodeAll(runes)[..room] == EncodeAll(runes[..Fit(runes, room)]) + Remnant(runes, room)
    ensures CutRune(Remnant(runes, room))
  {
    hide Encode;
    var first, n := Encode(runes[0]), Fit(runes, room);
    if |first| <= room {
      CutShape(runes[1..], room - |first|);
      assert runes[..n][1..] == runes[1..][..n - 1];
      assert EncodeAll(runes[..n]) == first + EncodeAll(runes[1..][..n - 1]);
      assert EncodeAll(runes)[..room] == first + EncodeAll(runes[1..])[..room - |first|];
    } else {
      assert runes[..0] == [];
      assert EncodeAll(runes)[..room] == first[..room];
      assert [] + first[..room] == first[..room];
    }
  }

  lemma DotsRead()
    ensures Encode(ELLIPSIS) == [0xE2, 0x80, 0xA6] && DecodeAll(Encode(ELLIPSIS)) == [ELLIPSIS]
  {
    DecodesWhatWasEncoded(ELLIPSIS, []);
    assert Encode(ELLIPSIS) + [] == Encode(ELLIPSIS);
    assert DecodeAll([]) == [];
  }

  lemma CutThenDots(cut: seq<Byte>)
    requires CutRune(cut)
    ensures DecodeAll(cut + Encode(ELLIPSIS)) == Replacements(|cut|) + [ELLIPSIS]
  {
    hide DecodeAll;
    DotsRead();
    hide Encode;
    var r: Rune :| |cut| < |Encode(r)| && cut == Encode(r)[..|cut|];
    CutRuneReads(r, |cut|, Encode(ELLIPSIS));
  }

  /**
   A message that was cut reads as the runes that fitted, one replacement per byte of the split rune,
   and the ellipsis.
   */
  lemma CutReads(kept: seq<Rune>, cut: seq<Byte>)
    requires CutRune(cut)
    ensures DecodeAll(EncodeAll(kept) + cut + Encode(ELLIPSIS)) == kept + Replacements(|cut|) + [ELLIPSIS]
  {
    hide Encode, DecodeAll, EncodeAll, CutRune;
    CutThenDots(cut);
    RoundTrip(kept, cut + Encode(ELLIPSIS));
    Associative(EncodeAll(kept), cut, Encode(ELLIPSIS));
    Associative(kept, Replacements(|cut|), [ELLIPSIS]);
  }

  lemma {:induction false} EncodedReplacements(k: nat)
    ensures |EncodeAll(Replacements(k))| == 3 * k
    ensures k > 0 ==> Encode(REPLACEMENT) <= EncodeAll(Replacements(k))
  {
    assert |Encode(REPLACEMENT)| == 3;
    hide Encode;
    if k > 0 {
      EncodedReplacements(k - 1);
      assert Replacements(k)[1..] == Replacements(k - 1);
    }
  }

  lemma FullOfCut(kept: seq<Rune>, cut: seq<Byte>)
    requires Printable(kept) && CutRune(cut)
    ensures Full(EncodeAll(kept) + cut + Encode(ELLIPSIS)) ==
            EncodeAll(kept) + EncodeAll(Replacements(|cut|)) + Encode(ELLIPSIS)
  {
    CutReads(kept, cut);
    hide Encode, EncodeAll, DecodeAll, Clean;
    PrintableStays(kept + Replacements(|cut|) + [ELLIPSIS]);
    EncodeAppend(kept + Replacements(|cut|), [ELLIPSIS]);
    EncodeAppend(kept, Replacements(|cut|));
    EncodeOne(ELLIPSIS);
  }

  lemma CutPrefix(p: seq<Byte>, q: seq<Byte>, d: seq<Byte>, k: nat)
    requires |p| + k == MAX_EVENT_MESSAGE && k <= 3 && |q| == 3 * k && |d| == 3
    ensures |p + q + d| > MAX_EVENT_MESSAGE && (p + q + d)[..MAX_EVENT_MESSAGE] == p + q[..k]
  {
  }

  /** Sanitizing what was cut spells the split rune's bytes as replacements, and cuts again at the same place. */
  lemma CutTwice(kept: seq<Rune>, cut: seq<Byte>)
    requires Printable(kept) && CutRune(cut) && |EncodeAll(kept) + cut| == MAX_EVENT_MESSAGE
    ensures |cut| <= 3 == |Encode(REPLACEMENT)|
    ensures Truncate(Full(EncodeAll(kept) + cut + Encode(ELLIPSIS))) ==
            EncodeAll(kept) + Encode(REPLACEMENT)[..|cut|] + Encode(ELLIPSIS)
  {
    DotsRead();
    assert |Encode(REPLACEMENT)| == 3;
    hide Encode, EncodeAll, Full;
    FullOfCut(kept, cut);
    EncodedReplacements(|cut|);
    var q := EncodeAll(Replacements(|cut|));
    assert q[..|cut|] == Encode(REPLACEMENT)[..|cut|];
    CutPrefix(EncodeAll(kept), q, Encode(ELLIPSIS), |cut|);
  }

  /**
   Sanitizing twice changes nothing exactly when nothing was cut, the cut fell between two
   runes, or what it left of a rune happens to be the start of a replacement character.
   */
  lemma IdempotentExactlyWhen(msg: seq<Byte>)
    ensures var once := Truncate(Full(msg));
            Truncate(Full(once)) == once <==>
            || |Full(msg)| <= MAX_EVENT_MESSAGE
            || Remnant(Clean(DecodeAll(msg)), MAX_EVENT_MESSAGE) <= Encode(REPLACEMENT)
  {
    var clean, once := Clean(DecodeAll(msg)), Truncate(Full(msg));
    CleanIsPrintable(DecodeAll(msg));
    hide Encode, EncodeAll, DecodeAll, Clean, Fit, Remnant, CutRune;
    if |Full(msg)| <= MAX_EVENT_MESSAGE {
      FullReadsAsClean(msg);
      PrintableStays(clean);
    } else {
      CutShape(clean, MAX_EVENT_MESSAGE);
      var kept, cut := clean[..Fit(clean, MAX_EVENT_MESSAGE)], Remnant(clean, MAX_EVENT_MESSAGE);
      CutTwice(kept, cut);
      SameMiddle(EncodeAll(kept), cut, Encode(REPLACEMENT)[..|cut|], Encode(ELLIPSIS));
    }
  }

  lemma SameMiddle(a: seq<Byte>, b: seq<Byte>, c: seq<Byte>, d: seq<Byte>)
    requires |b| == |c|
    ensures a + b + d == a + c + d <==> b == c
  {
    assert (a + b + d)[|a|..|a| + |b|] == b;
    assert (a + c + d)[|a|..|a| + |b|] == c;
  }

  function Letters(n: nat): (runes: seq<Rune>)
    ensures |runes| == n && forall i :: 0 <= i < n ==> runes[i] == 0x61
  {
    if n == 0 then [] else [0x61] + Letters(n - 1)
  }

  lemma {:induction false} LettersThenAccent(n: nat)
    ensures |EncodeAll(Letters(n) + [0xE9])| == n + 2
    ensures Remnant(Letters(n) + [0xE9], n + 1) == [0xC3]
  {
    var runes := Letters(n) + [0xE9];
    assert Encode(0xE9) == [0xC3, 0xA9];
    if n == 0 {
      assert runes == [0xE9];
      EncodeOne(0xE9);
      assert [0xC3, 0xA9][..1] == [0xC3];
    } else {
      LettersThenAccent(n - 1);
      assert runes[1..] == Letters(n - 1) + [0xE9];
      assert |Encode(runes[0])| == 1;
    }
  }

  /** 511 letters and an accented one: the cut leaves half of the latter, and a second pass changes it. */
  lemma NotAlwaysIdempotent()
    ensures var once := Truncate(Full(EncodeAll(Letters(511) + [0xE9])));
            Truncate(Full(once)) != once
  {
    var runes := Letters(511) + [0xE9];
    var msg := EncodeAll(runes);
    LettersThenAccent(511);
    assert !([0xC3] <= Encode(REPLACEMENT));
    hide Encode, EncodeAll, DecodeAll, Clean, Remnant, Letters;
    RoundTrip(runes, []);
    NothingDecoded();
    assert msg + [] == msg;
    assert runes + [] == runes;
    PrintableStays(runes);
    IdempotentExactlyWhen(msg);
  }

  lemma NothingDecoded()
    ensures DecodeAll([]) == []
  {
  }
}
