/**
 * The base 32 encoding of section 6 of RFC 4648, as generate_short_uuid uses
 * it: the bytes are read as a bit string, cut into 5-bit groups (the last one
 * padded with zero bits), each group written as a symbol of the alphabet
 * A-Z 2-7, and the text padded with '=' to a multiple of 8 symbols.  The store
 * id strips the padding and lower-cases the text.
 */
module Base32 {
  import Text

  type Byte = b: int | 0 <= b < 256

  function Pow2(w: nat): nat
  {
    if w == 0 then 1 else 2 * Pow2(w - 1)
  }

  /** The low w bits of v, most significant first. */
  function Bits(v: nat, w: nat): (r: seq<bool>)
    ensures |r| == w
  {
    if w == 0 then [] else Bits(v / 2, w - 1) + [v % 2 == 1]
  }

  /** The value of a bit string read most significant first. */
  function Value(bits: seq<bool>): nat
  {
    if bits == [] then 0 else 2 * Value(bits[..|bits| - 1]) + (if bits[|bits| - 1] then 1 else 0)
  }

  lemma {:induction false} ValueBound(bits: seq<bool>)
    ensures Value(bits) < Pow2(|bits|)
  {
    if bits != [] {
      ValueBound(bits[..|bits| - 1]);
    }
  }

  /** Reading back the w bits of a value below 2^w gives the value. */
  lemma {:induction false} ValueOfBits(v: nat, w: nat)
    requires v < Pow2(w)
    ensures Value(Bits(v, w)) == v
  {
    if w > 0 {
      ValueOfBits(v / 2, w - 1);
      var b := Bits(v, w);
      assert b[..|b| - 1] == Bits(v / 2, w - 1);
    }
  }

  /** Writing the value of a bit string in as many bits gives the string back. */
  lemma {:induction false} BitsOfValue(bits: seq<bool>)
    ensures Bits(Value(bits), |bits|) == bits
  {
    if bits != [] {
      var init := bits[..|bits| - 1];
      BitsOfValue(init);
      var v := Value(bits);
      assert v / 2 == Value(init) && (v % 2 == 1 <==> bits[|bits| - 1]);
      assert bits == init + [bits[|bits| - 1]];
    }
  }

  function Zeros(n: nat): (r: seq<bool>)
    ensures |r| == n && forall i :: 0 <= i < n ==> !r[i]
  {
    if n == 0 then [] else Zeros(n - 1) + [false]
  }

  /** The bit string of a byte string, 8 bits per byte. */
  function BytesToBits(bs: seq<Byte>): (r: seq<bool>)
    ensures |r| == 8 * |bs|
  {
    if bs == [] then [] else Bits(bs[0], 8) + BytesToBits(bs[1..])
  }

  /** The byte string of a bit string whose length is a multiple of 8. */
  function BitsToBytes(bits: seq<bool>): seq<Byte>
    requires |bits| % 8 == 0
    decreases |bits|
  {
    if bits == [] then []
    else
      ValueBound(bits[..8]);
      [Value(bits[..8])] + BitsToBytes(bits[8..])
  }

  lemma {:induction false} BytesRoundTrip(bs: seq<Byte>)
    ensures BitsToBytes(BytesToBits(bs)) == bs
  {
    if bs != [] {
      var bits := BytesToBits(bs);
      assert bits[..8] == Bits(bs[0], 8) && bits[8..] == BytesToBits(bs[1..]);
      ValueOfBits(bs[0], 8);
      BytesRoundTrip(bs[1..]);
    }
  }

  /** The zero bits that fill the last 5-bit group. */
  function Pad5(n: nat): nat
  {
    (5 - n % 5) % 5
  }

  /** The 5-bit groups of a bit string, the last one filled with zero bits. */
  function Quintets(bits: seq<bool>): (qs: seq<nat>)
    ensures forall i :: 0 <= i < |qs| ==> qs[i] < 32
    ensures 5 * |qs| == |bits| + Pad5(|bits|)
    decreases |bits|
  {
    if bits == [] then []
    else if |bits| < 5 then
      var group := bits + Zeros(5 - |bits|);
      ValueBound(group);
      Pad5Short(|bits|);
      [Value(group)]
    else
      ValueBound(bits[..5]);
      Pad5Shift(|bits| - 5);
      [Value(bits[..5])] + Quintets(bits[5..])
  }

  /** The bits of a list of 5-bit groups. */
  function Unquintet(qs: seq<nat>): (r: seq<bool>)
    ensures |r| == 5 * |qs|
  {
    if qs == [] then [] else Bits(qs[0], 5) + Unquintet(qs[1..])
  }

  /** The groups hold exactly the input bits followed by the zero fill. */
  lemma {:induction false} QuintetsRoundTrip(bits: seq<bool>)
    ensures Unquintet(Quintets(bits)) == bits + Zeros(Pad5(|bits|))
    decreases |bits|
  {
    if bits == [] {
    } else if |bits| < 5 {
      ShortQuintet(bits);
    } else {
      QuintetsFirst(bits);
      BitsOfValue(bits[..5]);
      QuintetsRoundTrip(bits[5..]);
      Pad5Shift(|bits[5..]|);
      var fill := Zeros(Pad5(|bits|));
      assert bits[..5] + (bits[5..] + fill) == (bits[..5] + bits[5..]) + fill;
      assert bits[..5] + bits[5..] == bits;
    }
  }

  /** A bit string of at least 5 bits: its first group's bits, then the groups of the rest. */
  lemma QuintetsFirst(bits: seq<bool>)
    requires |bits| >= 5
    ensures Unquintet(Quintets(bits)) == Bits(Value(bits[..5]), 5) + Unquintet(Quintets(bits[5..]))
  {
    var qs := Quintets(bits);
    assert qs[0] == Value(bits[..5]) && qs[1..] == Quintets(bits[5..]);
  }

  /** Five more bits need the same fill. */
  lemma Pad5Shift(n: nat)
    ensures Pad5(n + 5) == Pad5(n)
  {
    assert (n + 5) % 5 == n % 5;
  }

  /** A tail of n < 5 bits needs 5 - n zero bits. */
  lemma Pad5Short(n: nat)
    requires 0 < n < 5
    ensures Pad5(n) == 5 - n
  {
    assert n % 5 == n;
  }

  /** A short tail becomes one group holding its bits and the zero fill. */
  lemma ShortQuintet(bits: seq<bool>)
    requires 0 < |bits| < 5
    ensures Unquintet(Quintets(bits)) == bits + Zeros(Pad5(|bits|))
  {
    var group := bits + Zeros(5 - |bits|);
    Pad5Short(|bits|);
    var qs := Quintets(bits);
    assert qs == [Value(group)];
    assert Unquintet(qs) == Bits(qs[0], 5) + Unquintet(qs[1..]);
    assert qs[1..] == [];
    BitsOfValue(group);
  }

  /** The symbol of a 5-bit group: A-Z for 0..25, 2-7 for 26..31. */
  function Symbol(q: nat): char
    requires q < 32
  {
    if q < 26 then ('A' as int + q) as char else ('2' as int + (q - 26)) as char
  }

  /** The symbol after lower-casing: a-z for 0..25, 2-7 for 26..31. */
  function LowerSymbol(q: nat): (c: char)
    requires q < 32
    ensures ('a' <= c <= 'z') || ('2' <= c <= '7')
  {
    if q < 26 then ('a' as int + q) as char else ('2' as int + (q - 26)) as char
  }

  /** Which group a lower-case symbol stands for. */
  function SymbolValue(c: char): nat
  {
    if 'a' <= c <= 'z' then c as int - 'a' as int
    else if '2' <= c <= '7' then c as int - '2' as int + 26
    else 0
  }

  function Repeat(c: char, n: nat): (r: string)
    ensures |r| == n && forall i :: 0 <= i < n ==> r[i] == c
  {
    if n == 0 then [] else Repeat(c, n - 1) + [c]
  }

  /** The upper-case symbols of a list of groups. */
  function Symbols(qs: seq<nat>): (r: string)
    requires forall i :: 0 <= i < |qs| ==> qs[i] < 32
    ensures |r| == |qs| && forall i :: 0 <= i < |qs| ==> r[i] == Symbol(qs[i])
  {
    if qs == [] then [] else [Symbol(qs[0])] + Symbols(qs[1..])
  }

  /** base64.b32encode: the symbols, padded with '=' to a multiple of 8. */
  function Encode(bs: seq<Byte>): string
  {
    var qs := Quintets(BytesToBits(bs));
    Symbols(qs) + Repeat('=', (8 - |qs| % 8) % 8)
  }

  /** generate_short_uuid's text for the given uuid bytes: padding stripped, lower-cased. */
  function ShortId(bs: seq<Byte>): (r: string)
    ensures var qs := Quintets(BytesToBits(bs));
      |r| == |qs| && forall i :: 0 <= i < |qs| ==> r[i] == LowerSymbol(qs[i])
  {
    LowerUnpadded(bs);
    Text.Lower(Text.StripTrailing(Encode(bs), '='))
  }

  /** The encoding without its padding, lower-cased: one lower-case symbol per 5-bit group. */
  lemma LowerUnpadded(bs: seq<Byte>)
    ensures var qs := Quintets(BytesToBits(bs)); var id := Text.Lower(Text.StripTrailing(Encode(bs), '='));
      |id| == |qs| && forall i :: 0 <= i < |qs| ==> id[i] == LowerSymbol(qs[i])
  {
    var qs := Quintets(BytesToBits(bs));
    var pad := (8 - |qs| % 8) % 8;
    assert Encode(bs) == Symbols(qs) + Repeat('=', pad);
    EncodeStripped(qs, pad);
    LowerSymbols(qs);
  }

  /** The groups a lower-case, unpadded base 32 text stands for. */
  function SymbolValues(id: string): (r: seq<nat>)
    ensures |r| == |id| && forall i :: 0 <= i < |id| ==> r[i] == SymbolValue(id[i])
  {
    if id == [] then [] else [SymbolValue(id[0])] + SymbolValues(id[1..])
  }

  /** The bytes a lower-case, unpadded base 32 text stands for (the zero fill dropped). */
  function Decode(id: string): seq<Byte>
  {
    var bits := Unquintet(SymbolValues(id));
    BitsToBytes(bits[..|bits| / 8 * 8])
  }

  lemma {:induction false} StripPadding(s: string, n: nat)
    requires s == [] || s[|s| - 1] != '='
    ensures Text.StripTrailing(s + Repeat('=', n), '=') == s
  {
    if n > 0 {
      var t := s + Repeat('=', n);
      assert t[..|t| - 1] == s + Repeat('=', n - 1);
      StripPadding(s, n - 1);
    }
  }

  /** Stripping the padding leaves the symbols. */
  lemma EncodeStripped(qs: seq<nat>, n: nat)
    requires forall i :: 0 <= i < |qs| ==> qs[i] < 32
    ensures Text.StripTrailing(Symbols(qs) + Repeat('=', n), '=') == Symbols(qs)
  {
    var syms := Symbols(qs);
    if syms != [] {
      assert syms[|syms| - 1] == Symbol(qs[|qs| - 1]);
    }
    StripPadding(syms, n);
  }

  /** Lower-casing the symbols gives the lower-case symbols, which read back as the groups. */
  lemma LowerSymbols(qs: seq<nat>)
    requires forall i :: 0 <= i < |qs| ==> qs[i] < 32
    ensures var id := Text.Lower(Symbols(qs));
      |id| == |qs| && (forall i :: 0 <= i < |qs| ==> id[i] == LowerSymbol(qs[i])) &&
      SymbolValues(id) == qs
  {
    var id := Text.Lower(Symbols(qs));
    forall i | 0 <= i < |qs| ensures id[i] == LowerSymbol(qs[i]) && SymbolValue(id[i]) == qs[i] {
      assert id[i] == Text.LowerChar(Symbol(qs[i]));
    }
  }

  /** The store id is one lower-case symbol per 5-bit group, and the symbols read back as the groups. */
  lemma ShortIdSymbols(bs: seq<Byte>)
    ensures var qs := Quintets(BytesToBits(bs));
      |ShortId(bs)| == |qs| &&
      (forall i :: 0 <= i < |qs| ==> ShortId(bs)[i] == LowerSymbol(qs[i])) &&
      SymbolValues(ShortId(bs)) == qs
  {
    var qs := Quintets(BytesToBits(bs));
    var pad := (8 - |qs| % 8) % 8;
    assert Encode(bs) == Symbols(qs) + Repeat('=', pad);
    EncodeStripped(qs, pad);
    assert ShortId(bs) == Text.Lower(Symbols(qs));
    LowerSymbols(qs);
  }

  /**
   * A uuid's 16 bytes give a store id of 26 characters, each a lower-case letter or a digit
   * 2-7, so the store name "lp" + id has 28 characters.
   */
  lemma ShortIdShape(bs: seq<Byte>)
    requires |bs| == 16
    ensures |ShortId(bs)| == 26 && |"lp" + ShortId(bs)| == 28
    ensures forall i :: 0 <= i < |ShortId(bs)| ==> ('a' <= ShortId(bs)[i] <= 'z') || ('2' <= ShortId(bs)[i] <= '7')
  {
    var bits := BytesToBits(bs);
    assert |bits| == 128;
    var qs := Quintets(bits);
    assert 5 * |qs| == 130;
    var id := ShortId(bs);
    forall i | 0 <= i < |id| ensures ('a' <= id[i] <= 'z') || ('2' <= id[i] <= '7') {
      assert id[i] == LowerSymbol(qs[i]);
    }
  }

  /** A multiple of 8 leaves no remainder and divides back to its factor. */
  lemma {:induction false} Whole(n: nat)
    ensures (8 * n) % 8 == 0 && (8 * n) / 8 == n
  {
    if n > 0 {
      Whole(n - 1);
    }
  }

  /** Fewer than 8 fill bits do not reach another whole byte. */
  lemma DropFill(n: nat, fill: nat)
    requires fill < 8
    ensures (8 * n + fill) / 8 * 8 == 8 * n
  {
  }

  /** A text whose symbols are the groups of a whole number of bytes decodes to those bits. */
  lemma DecodeGroups(id: string, bits: seq<bool>)
    requires |bits| % 8 == 0 && SymbolValues(id) == Quintets(bits)
    ensures Decode(id) == BitsToBytes(bits)
  {
    QuintetsRoundTrip(bits);
    var all := Unquintet(Quintets(bits));
    assert all == bits + Zeros(Pad5(|bits|));
    DropFill(|bits| / 8, Pad5(|bits|));
    assert all[..|all| / 8 * 8] == bits;
  }

  /** Decoding the store id gives back the uuid bytes, for a byte string of any length. */
  lemma ShortIdRoundTrip(bs: seq<Byte>)
    ensures Decode(ShortId(bs)) == bs
  {
    var bits := BytesToBits(bs);
    Whole(|bs|);
    assert |bits| % 8 == 0;
    ShortIdSymbols(bs);
    DecodeGroups(ShortId(bs), bits);
    BytesRoundTrip(bs);
  }

  /** Distinct uuids give distinct store ids. */
  lemma ShortIdInjective(a: seq<Byte>, b: seq<Byte>)
    requires ShortId(a) == ShortId(b)
    ensures a == b
  {
    ShortIdRoundTrip(a);
    ShortIdRoundTrip(b);
  }
}
