/** The base32 code of section 6 of RFC 4648, without padding, as the authenticator secrets use
    it. The accumulator is a 32-bit word that is never masked. */
module Base32 {
  import opened Wrappers
  import opened Sequences

  type Octet = n: nat | n < 256

  type Quintet = n: nat | n < 32

  /** The accumulator is a word of 32 bits. */
  const WORD_BITS: nat := 32

  function Pow2(n: nat): nat { if n == 0 then 1 else 2 * Pow2(n - 1) }

  function ShiftLeft(v: nat, n: nat): nat { if n == 0 then v else 2 * ShiftLeft(v, n - 1) }

  function ShiftRight(v: nat, n: nat): nat { if n == 0 then v else ShiftRight(v / 2, n - 1) }

  /** The lowest n bits of a number as a number. */
  function Mask(v: nat, n: nat): (m: nat)
    ensures m < Pow2(n)
  {
    if n == 0 then 0 else 2 * Mask(v / 2, n - 1) + v % 2
  }

  /** A to Z stand for 0 to 25 and 2 to 7 for 26 to 31. */
  function Symbol(q: Quintet): char {
    if q < 26 then 'A' + q as char else '2' + (q - 26) as char
  }

  function Index(c: char): Option<Quintet> {
    if 'A' <= c <= 'Z' then Some((c - 'A') as int)
    else if '2' <= c <= '7' then Some(26 + (c - '2') as int)
    else None
  }

  /** The upper case of the ASCII letters. */
  function Upper(c: char): char { if 'a' <= c <= 'z' then c - 'a' + 'A' else c }

  function UpperCase(s: string): string { seq(|s|, i requires 0 <= i < |s| => Upper(s[i])) }

  function StripPadding(s: string): string {
    if s != [] && s[|s| - 1] == '=' then StripPadding(s[..|s| - 1]) else s
  }

  // ----- Reference: regrouping bits -----

  /** The lowest n bits of a number, the most significant first. */
  function LowBits(v: nat, n: nat): seq<bool> {
    if n == 0 then [] else LowBits(v / 2, n - 1) + [v % 2 == 1]
  }

  function Number(bits: seq<bool>): nat {
    if bits == [] then 0 else 2 * Number(bits[..|bits| - 1]) + if bits[|bits| - 1] then 1 else 0
  }

  function BitsOf(parts: seq<nat>, width: nat): seq<bool> {
    if parts == [] then [] else BitsOf(parts[..|parts| - 1], width) + LowBits(parts[|parts| - 1], width)
  }

  predicate Fits(parts: seq<nat>, width: nat) { forall k: nat :: k < |parts| ==> parts[k] < Pow2(width) }

  lemma {:induction false} NumberLowBits(v: nat, n: nat)
    ensures |LowBits(v, n)| == n && (v < Pow2(n) ==> Number(LowBits(v, n)) == v)
  {
    if n > 0 {
      NumberLowBits(v / 2, n - 1);
      assert LowBits(v, n)[..n - 1] == LowBits(v / 2, n - 1);
    }
  }

  lemma {:induction false} LowBitsNumber(bits: seq<bool>)
    ensures Number(bits) < Pow2(|bits|) && LowBits(Number(bits), |bits|) == bits
  {
    if bits != [] {
      LowBitsNumber(bits[..|bits| - 1]);
      assert bits == bits[..|bits| - 1] + [bits[|bits| - 1]];
    }
  }

  /** Bits in whole groups of a width, what is left over dropped. */
  function Groups(bits: seq<bool>, width: nat): (g: seq<nat>)
    requires 0 < width
    ensures Fits(g, width)
  {
    if |bits| < width then []
    else
      LowBitsNumber(bits[..width]);
      [Number(bits[..width])] + Groups(bits[width..], width)
  }

  function Zeros(n: nat): seq<bool> { seq(n, i => false) }

  /** How many zeros complete the last group of five. */
  function Padding(length: nat): nat { (5 - length % 5) % 5 }

  function Quintets(bits: seq<bool>): seq<Quintet> {
    assert Pow2(5) == 32;
    var g := Groups(bits + Zeros(Padding(|bits|)), 5);
    assert forall k: nat :: k < |g| ==> g[k] < 32;
    g
  }

  function Octets(bits: seq<bool>): seq<Octet> {
    assert Pow2(8) == 256;
    var g := Groups(bits, 8);
    assert forall k: nat :: k < |g| ==> g[k] < 256;
    g
  }

  function Symbols(q: seq<Quintet>): string { seq(|q|, i requires 0 <= i < |q| => Symbol(q[i])) }

  function Encode(input: seq<Octet>): string { Symbols(Quintets(BitsOf(input, 8))) }

  function Indices(s: string): Result<seq<Quintet>> {
    if s == [] then Ok([])
    else
      var before :- Indices(s[..|s| - 1]);
      if Index(s[|s| - 1]).None? then Err(BadRequest) else Ok(before + [Index(s[|s| - 1]).value])
  }

  function Decode(input: string): Result<seq<Octet>> {
    var q :- Indices(StripPadding(UpperCase(input)));
    Ok(Octets(BitsOf(q, 5)))
  }

  // ----- What the shifts do to the bits -----

  lemma {:induction false} MaskFits(v: nat, n: nat)
    requires v < Pow2(n)
    ensures Mask(v, n) == v
  {
    if n > 0 { MaskFits(v / 2, n - 1); }
  }

  lemma {:induction false} MaskKeeps(v: nat, n: nat, k: nat)
    requires n <= k
    ensures LowBits(Mask(v, k), n) == LowBits(v, n)
  {
    if n > 0 { MaskKeeps(v / 2, n - 1, k - 1); }
  }

  lemma {:induction false} Join(a: nat, b: nat, n: nat, k: nat)
    requires b < Pow2(k)
    ensures LowBits(ShiftLeft(a, k) + b, n + k) == LowBits(a, n) + LowBits(b, k)
  {
    if k == 0 {
      assert LowBits(a, n) + [] == LowBits(a, n);
    } else {
      Join(a, b / 2, n, k - 1);
      assert n + k - 1 == n + (k - 1);
      assert LowBits(a, n) + LowBits(b / 2, k - 1) + [b % 2 == 1] == LowBits(a, n) + LowBits(b, k);
    }
  }

  lemma {:induction false} Split(v: nat, rest: nat, width: nat)
    ensures LowBits(v, rest + width) == LowBits(ShiftRight(v, rest), width) + LowBits(v, rest)
  {
    if rest == 0 {
      assert LowBits(v, width) + [] == LowBits(v, width);
    } else {
      Split(v / 2, rest - 1, width);
      assert rest + width - 1 == (rest - 1) + width;
      assert LowBits(ShiftRight(v, rest), width) + LowBits(v / 2, rest - 1) + [v % 2 == 1]
          == LowBits(ShiftRight(v, rest), width) + LowBits(v, rest);
    }
  }

  lemma AddPart(parts: seq<nat>, part: nat, width: nat)
    ensures BitsOf(parts + [part], width) == BitsOf(parts, width) + LowBits(part, width)
  {
    assert (parts + [part])[..|parts|] == parts;
  }

  /** Shifting a part into the word keeps the bits still needed, although the word wraps. */
  lemma Absorb(parts: seq<nat>, part: nat, width: nat, front: seq<bool>, value: nat, held: nat)
    requires BitsOf(parts, width) == front + LowBits(value, held)
    requires part < Pow2(width) && held + width <= WORD_BITS
    ensures BitsOf(parts + [part], width)
        == front + LowBits(Mask(ShiftLeft(value, width) + part, WORD_BITS), held + width)
  {
    AddPart(parts, part, width);
    MaskKeeps(ShiftLeft(value, width) + part, held + width, WORD_BITS);
    Join(value, part, held, width);
    assert front + LowBits(value, held) + LowBits(part, width) == front + (LowBits(value, held) + LowBits(part, width));
  }

  /** Taking the top part out of the bits held leaves the rest. */
  lemma Emit(parts: seq<nat>, width: nat, value: nat, rest: nat)
    ensures BitsOf(parts, width) + LowBits(value, rest + width)
         == BitsOf(parts + [Mask(ShiftRight(value, rest), width)], width) + LowBits(value, rest)
  {
    var top := ShiftRight(value, rest);
    var front, middle, low := BitsOf(parts, width), LowBits(top, width), LowBits(value, rest);
    assert LowBits(value, rest + width) == middle + low by { Split(value, rest, width); }
    assert BitsOf(parts + [Mask(top, width)], width) == front + middle by {
      AddPart(parts, Mask(top, width), width);
      MaskKeeps(top, width, width);
    }
    Regroup(front, middle, low);
  }

  lemma {:induction false} ZeroBits(n: nat)
    ensures LowBits(0, n) == Zeros(n)
  {
    if n > 0 {
      ZeroBits(n - 1);
      assert Zeros(n - 1) + [false] == Zeros(n);
    }
  }

  // ----- Groups -----

  lemma FirstGroup(part: nat, width: nat, rest: seq<bool>)
    requires 0 < width && part < Pow2(width)
    ensures Groups(LowBits(part, width) + rest, width) == [part] + Groups(rest, width)
  {
    var bits := LowBits(part, width);
    NumberLowBits(part, width);
    assert (bits + rest)[..width] == bits && (bits + rest)[width..] == rest;
  }

  lemma {:induction false} GroupsOf(parts: seq<nat>, width: nat, rest: seq<bool>)
    requires 0 < width && Fits(parts, width)
    ensures Groups(BitsOf(parts, width) + rest, width) == parts + Groups(rest, width)
  {
    if parts == [] {
      assert [] + rest == rest && [] + Groups(rest, width) == Groups(rest, width);
    } else {
      var front, part := parts[..|parts| - 1], parts[|parts| - 1];
      var last := LowBits(part, width);
      assert parts == front + [part];
      assert BitsOf(parts, width) + rest == BitsOf(front, width) + (last + rest) by {
        Regroup(BitsOf(front, width), last, rest);
      }
      assert Groups(last + rest, width) == [part] + Groups(rest, width) by { FirstGroup(part, width, rest); }
      GroupsOf(front, width, last + rest);
      Regroup(front, [part], Groups(rest, width));
    }
  }

  function Times(width: nat, count: nat): nat { if count == 0 then 0 else width + Times(width, count - 1) }

  lemma {:induction false} TimesIs(width: nat, count: nat)
    ensures Times(width, count) == width * count
  {
    if count > 0 {
      TimesIs(width, count - 1);
      assert width * count == width * (count - 1) + width;
    }
  }

  lemma FirstBack(bits: seq<bool>, width: nat)
    requires 0 < width <= |bits|
    ensures LowBits(Number(bits[..width]), width) + bits[width..] == bits
  {
    Whole(bits[..width], width);
    assert bits[..width] + bits[width..] == bits;
  }

  lemma Whole(bits: seq<bool>, width: nat)
    requires |bits| == width
    ensures LowBits(Number(bits), width) == bits
  {
    LowBitsNumber(bits);
  }

  /** Bits that make whole groups come back from them. */
  lemma {:induction false} BitsOfGroups(bits: seq<bool>, width: nat, count: nat)
    requires 0 < width && |bits| == Times(width, count)
    ensures BitsOf(Groups(bits, width), width) == bits && |Groups(bits, width)| == count
    decreases count
  {
    if count > 0 {
      FirstBack(bits, width);
      BitsOfGroups(bits[width..], width, count - 1);
      BitsOfCons(Number(bits[..width]), Groups(bits[width..], width), width);
    }
  }

  lemma {:induction false} BitsOfCons(first: nat, rest: seq<nat>, width: nat)
    ensures BitsOf([first] + rest, width) == LowBits(first, width) + BitsOf(rest, width)
  {
    if rest == [] {
      assert [first] + rest == [first] && [first][..0] == [];
      assert [] + LowBits(first, width) == LowBits(first, width) + [];
    } else {
      var n := |rest| - 1;
      BitsOfCons(first, rest[..n], width);
      assert ([first] + rest)[..n + 1] == [first] + rest[..n];
      assert LowBits(first, width) + BitsOf(rest[..n], width) + LowBits(rest[n], width)
          == LowBits(first, width) + (BitsOf(rest[..n], width) + LowBits(rest[n], width));
    }
  }

  lemma {:induction false} BitsLength(parts: seq<nat>, width: nat)
    ensures |BitsOf(parts, width)| == Times(width, |parts|)
  {
    if parts != [] {
      BitsLength(parts[..|parts| - 1], width);
      NumberLowBits(parts[|parts| - 1], width);
    }
  }

  // ----- The shifting accumulator -----

  /** Writes out every whole symbol held. */
  method Drain(value: nat, held: nat, written: string, ghost before: seq<Quintet>, ghost all: seq<bool>)
    returns (bits: nat, output: string, ghost q: seq<Quintet>)
    requires all == BitsOf(before, 5) + LowBits(value, held) && written == Symbols(before)
    ensures bits < 5 && all == BitsOf(q, 5) + LowBits(value, bits) && output == Symbols(q)
  {
    assert Pow2(5) == 32;
    bits, output, q := held, written, before;
    while bits >= 5
      invariant all == BitsOf(q, 5) + LowBits(value, bits) && output == Symbols(q)
    {
      Emit(q, 5, value, bits - 5);
      var symbol: Quintet := Mask(ShiftRight(value, bits - 5), 5);
      q := q + [symbol];
      output := output + [Symbol(symbol)];
      bits := bits - 5;
    }
  }

  /** Shifts one octet into the accumulator. */
  method TakeOctet(value: nat, bits: nat, octet: Octet, ghost earlier: seq<Octet>, ghost q: seq<Quintet>)
    returns (next: nat)
    requires bits < 5 && BitsOf(earlier, 8) == BitsOf(q, 5) + LowBits(value, bits)
    ensures BitsOf(earlier + [octet], 8) == BitsOf(q, 5) + LowBits(next, bits + 8)
  {
    assert Pow2(8) == 256;
    Absorb(earlier, octet, 8, BitsOf(q, 5), value, bits);
    next := Mask(ShiftLeft(value, 8) + octet, WORD_BITS);
  }

  /** The symbol for the bits held at the end, when there are any. */
  method LastOutput(value: nat, bits: nat, written: string, ghost input: seq<Octet>, ghost q: seq<Quintet>)
    returns (output: string)
    requires Encoding(input, value, bits, written, q)
    ensures output == Encode(input)
  {
    Finish(q, value, bits, BitsOf(input, 8));
    output := written;
    if bits > 0 {
      assert Pow2(5) == 32;
      var symbol: Quintet := Mask(Mask(ShiftLeft(value, 5 - bits), WORD_BITS), 5);
      output := output + [Symbol(symbol)];
    }
  }

  /** What holds after some octets: their bits are those of the symbols written and the bits held. */
  ghost predicate Encoding(earlier: seq<Octet>, value: nat, bits: nat, output: string, q: seq<Quintet>) {
    bits < 5 && BitsOf(earlier, 8) == BitsOf(q, 5) + LowBits(value, bits) && output == Symbols(q)
  }

  method EncodeOctet(value: nat, bits: nat, octet: Octet, written: string, ghost earlier: seq<Octet>,
      ghost before: seq<Quintet>)
    returns (next: nat, held: nat, output: string, ghost q: seq<Quintet>)
    requires Encoding(earlier, value, bits, written, before)
    ensures Encoding(earlier + [octet], next, held, output, q)
  {
    next := TakeOctet(value, bits, octet, earlier, before);
    held, output, q := Drain(next, bits + 8, written, before, BitsOf(earlier + [octet], 8));
  }

  method Base32Encode(input: seq<Octet>) returns (output: string)
    ensures output == Encode(input)
  {
    var bits, value := 0, 0;
    ghost var done: seq<Octet>, q: seq<Quintet> := [], [];
    output := "";
    for k := 0 to |input|
      invariant done == input[..k] && Encoding(done, value, bits, output, q)
    {
      value, bits, output, q := EncodeOctet(value, bits, input[k], output, done, q);
      done := done + [input[k]];
    }
    assert done == input;
    output := LastOutput(value, bits, output, input, q);
  }

  lemma PaddingOf(count: nat, bits: nat)
    requires bits < 5
    ensures Padding(5 * count + bits) == if bits > 0 then 5 - bits else 0
  {
    assert (5 * count + bits) % 5 == bits;
  }

  lemma PaddedLength(length: nat)
    ensures length + Padding(length) == 5 * ((length + 4) / 5)
  {
    var count, bits := length / 5, length % 5;
    PaddingOf(count, bits);
  }

  /** The bits still held at the end make one more symbol, filled up with zeros. */
  lemma Finish(whole: seq<Quintet>, value: nat, bits: nat, all: seq<bool>)
    requires bits < 5 && all == BitsOf(whole, 5) + LowBits(value, bits)
    ensures Quintets(all) == whole + if bits > 0 then [Mask(Mask(ShiftLeft(value, 5 - bits), WORD_BITS), 5)] else []
  {
    NumberLowBits(value, bits);
    BitsLength(whole, 5);
    TimesIs(5, |whole|);
    PaddingOf(|whole|, bits);
    var pad := Padding(|all|);
    var rest := LowBits(value, bits) + Zeros(pad);
    assert all + Zeros(pad) == BitsOf(whole, 5) + rest;
    assert Pow2(5) == 32;
    GroupsOf(whole, 5, rest);
    if bits > 0 { LastGroup(value, bits, pad, 5); }
  }

  lemma LastGroup(value: nat, bits: nat, pad: nat, width: nat)
    requires 0 < bits && bits + pad == width <= WORD_BITS
    ensures Groups(LowBits(value, bits) + Zeros(pad), width) == [Mask(Mask(ShiftLeft(value, pad), WORD_BITS), width)]
  {
    var v := ShiftLeft(value, pad);
    var w := Mask(v, WORD_BITS);
    PowPositive(pad);
    Join(value, 0, bits, pad);
    ZeroBits(pad);
    MaskKeeps(v, width, WORD_BITS);
    MaskKeeps(w, width, width);
    NumberLowBits(Mask(w, width), width);
    var g := LowBits(Mask(w, width), width);
    assert g == LowBits(value, bits) + Zeros(pad) && g[..width] == g;
  }

  lemma {:induction false} PowPositive(n: nat)
    ensures 0 < Pow2(n)
  {
    if n > 0 { PowPositive(n - 1); }
  }

  /** What holds after some symbols: their bits are those of the octets written and the bits held. */
  ghost predicate Decoding(earlier: seq<Quintet>, value: nat, bits: nat, output: seq<Octet>) {
    bits < 8 && BitsOf(earlier, 5) == BitsOf(output, 8) + LowBits(value, bits)
  }

  lemma Powers()
    ensures Pow2(5) == 32 && Pow2(8) == 256
  {
  }

  lemma AbsorbSymbol(earlier: seq<Quintet>, index: Quintet, value: nat, bits: nat, written: seq<Octet>)
    requires Decoding(earlier, value, bits, written)
    ensures BitsOf(earlier + [index], 5)
         == BitsOf(written, 8) + LowBits(Mask(ShiftLeft(value, 5) + index, WORD_BITS), bits + 5)
  {
    Powers();
    Absorb(earlier, index, 5, BitsOf(written, 8), value, bits);
  }

  lemma EmitOctet(output: seq<Octet>, value: nat, held: nat)
    requires 8 <= held
    ensures Mask(ShiftRight(value, held - 8), 8) < 256
    ensures BitsOf(output, 8) + LowBits(value, held)
         == BitsOf(output + [Mask(ShiftRight(value, held - 8), 8)], 8) + LowBits(value, held - 8)
  {
    Powers();
    Emit(output, 8, value, held - 8);
  }

  /** Shifts one symbol in and writes out an octet when eight bits are held. */
  method TakeSymbol(value: nat, bits: nat, index: Quintet, written: seq<Octet>, ghost earlier: seq<Quintet>)
    returns (next: nat, held: nat, output: seq<Octet>)
    requires Decoding(earlier, value, bits, written)
    ensures Decoding(earlier + [index], next, held, output)
  {
    next := Mask(ShiftLeft(value, 5) + index, WORD_BITS);
    held, output := bits + 5, written;
    AbsorbSymbol(earlier, index, value, bits, written);
    if held >= 8 {
      EmitOctet(output, next, held);
      output := output + [Mask(ShiftRight(next, held - 8), 8)];
      held := held - 8;
    }
  }

  lemma OctetsDone(earlier: seq<Quintet>, value: nat, bits: nat, output: seq<Octet>)
    requires Decoding(earlier, value, bits, output)
    ensures Octets(BitsOf(earlier, 5)) == output
  {
    assert Pow2(8) == 256;
    GroupsOf(output, 8, LowBits(value, bits));
    NumberLowBits(value, bits);
    assert output + [] == output;
  }

  method Base32Decode(input: string) returns (r: Result<seq<Octet>>)
    ensures r == Decode(input)
  {
    var text := StripPadding(UpperCase(input));
    var bits, value := 0, 0;
    var output: seq<Octet> := [];
    ghost var q: seq<Quintet> := [];
    for k := 0 to |text|
      invariant Indices(text[..k]) == Ok(q) && Decoding(q, value, bits, output)
    {
      assert text[..k + 1][..k] == text[..k];
      var index := Index(text[k]);
      IndicesFailOnward(text, k + 1);
      if index.None? { return Err(BadRequest); }
      value, bits, output := TakeSymbol(value, bits, index.value, output, q);
      q := q + [index.value];
    }
    assert text[..|text|] == text;
    OctetsDone(q, value, bits, output);
    return Ok(output);
  }

  lemma {:induction false} IndicesFailOnward(s: string, n: nat)
    requires n <= |s|
    ensures Indices(s[..n]).Err? ==> Indices(s) == Err(BadRequest)
    decreases |s| - n
  {
    if n < |s| {
      assert s[..n + 1][..n] == s[..n];
      IndicesFailOnward(s, n + 1);
    } else {
      assert s[..n] == s;
      IndicesError(s);
    }
  }

  lemma {:induction false} IndicesError(s: string)
    ensures Indices(s).Err? ==> Indices(s) == Err(BadRequest)
  {
    if s != [] {
      IndicesError(s[..|s| - 1]);
    }
  }

  // ----- Round trip -----

  lemma EncodedBits(input: seq<Octet>)
    ensures var bits := BitsOf(input, 8);
            BitsOf(Quintets(bits), 5) == bits + Zeros(Padding(|bits|)) && |Quintets(bits)| == (8 * |input| + 4) / 5
  {
    var bits := BitsOf(input, 8);
    BitsLength(input, 8);
    TimesIs(8, |input|);
    var padded := bits + Zeros(Padding(|bits|));
    var count := (8 * |input| + 4) / 5;
    PaddedLength(|bits|);
    TimesIs(5, count);
    BitsOfGroups(padded, 5, count);
  }

  /** Every eight bits cost one symbol of five, the last one filled up. */
  lemma EncodedLength(input: seq<Octet>)
    ensures |Encode(input)| == (8 * |input| + 4) / 5
  {
    EncodedBits(input);
  }

  lemma {:induction false} IndicesOfSymbols(q: seq<Quintet>)
    ensures Indices(Symbols(q)) == Ok(q)
  {
    if q != [] {
      var n := |q| - 1;
      IndicesOfSymbols(q[..n]);
      assert Symbols(q)[..n] == Symbols(q[..n]);
      assert q == q[..n] + [q[n]];
    }
  }

  function Equals(padding: nat): string { seq(padding, i => '=') }

  lemma {:induction false} StripEquals(s: string, padding: nat)
    requires s == [] || s[|s| - 1] != '='
    ensures StripPadding(s + Equals(padding)) == s
  {
    var text := s + Equals(padding);
    if padding == 0 {
      assert text == s;
    } else {
      StripEquals(s, padding - 1);
      assert text[..|text| - 1] == s + Equals(padding - 1);
    }
  }

  /** Decoding an encoded secret gives back its bytes, in either case and with any padding. */
  lemma RoundTrip(input: seq<Octet>, text: string, padding: nat)
    requires UpperCase(text) == Encode(input)
    ensures Decode(text + Equals(padding)) == Ok(input)
  {
    var bits := BitsOf(input, 8);
    var q, encoded := Quintets(bits), Encode(input);
    assert UpperCase(text + Equals(padding)) == encoded + Equals(padding);
    if encoded != [] { assert encoded[|encoded| - 1] == Symbol(q[|q| - 1]); }
    StripEquals(encoded, padding);
    IndicesOfSymbols(q);
    EncodedBits(input);
    assert Pow2(8) == 256;
    GroupsOf(input, 8, Zeros(Padding(|bits|)));
    assert input + [] == input;
  }
}
