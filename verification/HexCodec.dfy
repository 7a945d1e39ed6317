/** The hexadecimal parsers and the hexadecimal printer of the ntapi layer. */
module HexCodec {

  newtype byte = x: int | 0 <= x < 256

  datatype Status = Success | IllegalCharacter

  /** What the callers pass as `key`: a place for the result. */
  class Out {
    var value: nat
    constructor () { value := 0; }
  }

  // ----- digits -----

  predicate IsHex(c: byte) {
    97 <= c <= 102 || 65 <= c <= 70 || 48 <= c <= 57
  }

  predicate AllHex(s: seq<byte>) {
    forall i :: 0 <= i < |s| ==> IsHex(s[i])
  }

  function DigitValue(c: byte): nat
    requires IsHex(c)
  {
    if c >= 97 then c as int - 87 else if c >= 65 then c as int - 55 else c as int - 48
  }

  /** The digit the printer writes: upper case. */
  function Digit(d: nat): byte
    requires d < 16
  {
    if d < 10 then (48 + d) as byte else (55 + d) as byte
  }

  function Upper(c: byte): byte {
    if 97 <= c <= 102 then c - 32 else c
  }

  function UpperAll(s: seq<byte>): (r: seq<byte>)
    ensures |r| == |s| && forall i :: 0 <= i < |s| ==> r[i] == Upper(s[i])
  {
    seq(|s|, i requires 0 <= i < |s| => Upper(s[i]))
  }

  // ----- numerals: most significant digit first -----

  function Pow16(n: nat): (r: nat)
    ensures r > 0
  {
    if n == 0 then 1 else 16 * Pow16(n - 1)
  }

  function Value(s: seq<byte>): nat
    requires AllHex(s)
  {
    if s == [] then 0 else 16 * Value(s[..|s| - 1]) + DigitValue(s[|s| - 1])
  }

  function Numeral(x: nat, n: nat): (r: seq<byte>)
    ensures |r| == n && AllHex(r)
  {
    if n == 0 then [] else Numeral(x / 16, n - 1) + [Digit(x % 16)]
  }

  /** Printing then parsing gives the number back, for any number of digits. */
  lemma {:induction false} ParsePrint(x: nat, n: nat)
    requires x < Pow16(n)
    ensures Value(Numeral(x, n)) == x
  {
    if n > 0 {
      ParsePrint(x / 16, n - 1);
      assert Numeral(x, n)[..n - 1] == Numeral(x / 16, n - 1);
      assert DigitValue(Digit(x % 16)) == x % 16;
    }
  }

  /** Parsing then printing gives the numeral back in upper case. */
  lemma {:induction false} PrintParse(s: seq<byte>)
    requires AllHex(s)
    ensures Value(s) < Pow16(|s|)
    ensures Numeral(Value(s), |s|) == UpperAll(s)
  {
    if s != [] {
      var t, c := s[..|s| - 1], s[|s| - 1];
      PrintParse(t);
      assert Value(s) / 16 == Value(t) && Value(s) % 16 == DigitValue(c);
      assert Digit(DigitValue(c)) == Upper(c);
      assert UpperAll(s) == UpperAll(t) + [Upper(c)];
    }
  }

  // ----- what the characters stand for -----

  /** The character is the digit `d`, in either case. */
  predicate Stands(c: byte, d: nat) {
    d < 16 && (c as int == "0123456789ABCDEF"[d] as int || c as int == "0123456789abcdef"[d] as int)
  }

  /** The text spells these digits, the most significant first. */
  ghost predicate Spells(s: seq<byte>, ds: seq<nat>) {
    |s| == |ds| && forall i :: 0 <= i < |s| ==> Stands(s[i], ds[i])
  }

  /** What the digits amount to, each by its place. */
  function Positional(ds: seq<nat>): nat {
    if ds == [] then 0 else ds[0] * Pow16(|ds| - 1) + Positional(ds[1..])
  }

  lemma PowersOf16(m: nat, n: nat)
    ensures Pow16(0) == 1 && Pow16(1) == 16 && Pow16(m + n) == Pow16(m) * Pow16(n)
  {
    if n > 0 {
      PowersOf16(m, n - 1);
    }
  }

  /** Accepted are exactly the twenty-two characters. */
  lemma HexCharacters(c: byte)
    ensures IsHex(c) <==> exists d :: Stands(c, d)
  {
    if IsHex(c) {
      assert Stands(c, DigitValue(c));
    }
  }

  lemma StandsFor(c: byte, d: nat)
    requires Stands(c, d)
    ensures IsHex(c) && DigitValue(c) == d
    ensures 48 <= c <= 57 ==> d == c as int - 48
    ensures 65 <= c <= 70 ==> d == c as int - 55
    ensures 97 <= c <= 102 ==> d == c as int - 87
  {
  }

  lemma {:induction false} PositionalLast(ds: seq<nat>, d: nat)
    ensures Positional(ds + [d]) == 16 * Positional(ds) + d
  {
    if ds == [] {
      assert Positional([d][1..]) == 0;
    } else {
      PositionalLast(ds[1..], d);
      assert (ds + [d])[1..] == ds[1..] + [d];
      assert Pow16(|ds|) == 16 * Pow16(|ds| - 1);
      assert ds[0] * (16 * Pow16(|ds| - 1)) == 16 * (ds[0] * Pow16(|ds| - 1));
    }
  }

  /** The value of a text is that of the digits it spells, each times its power of 16. */
  lemma {:induction false} ValueOfDigits(s: seq<byte>, ds: seq<nat>)
    requires Spells(s, ds)
    ensures AllHex(s) && Value(s) == Positional(ds)
  {
    forall i | 0 <= i < |s| ensures IsHex(s[i]) {
      StandsFor(s[i], ds[i]);
    }
    if s != [] {
      var k := |s| - 1;
      ValueOfDigits(s[..k], ds[..k]);
      StandsFor(s[k], ds[k]);
      PositionalLast(ds[..k], ds[k]);
      assert ds == ds[..k] + [ds[k]];
    }
  }

  lemma SpelledValue(s: seq<byte>)
    ensures forall ds :: Spells(s, ds) ==> AllHex(s) && Value(s) == Positional(ds)
  {
    forall ds | Spells(s, ds) ensures AllHex(s) && Value(s) == Positional(ds) {
      ValueOfDigits(s, ds);
    }
  }

  /** Every text that is accepted spells some digits. */
  lemma {:induction false} SpelledDigits(s: seq<byte>) returns (ds: seq<nat>)
    requires AllHex(s)
    ensures Spells(s, ds)
  {
    ds := seq(|s|, i requires 0 <= i < |s| => DigitValue(s[i]));
    forall i | 0 <= i < |s| ensures Stands(s[i], ds[i]) {
      HexCharacters(s[i]);
      var d :| Stands(s[i], d);
      StandsFor(s[i], d);
    }
  }

  lemma Quotient(x: nat, p: nat, q: nat, r: nat)
    requires x == p * q + r && r < p
    ensures x / p == q
  {
    var d: int := x / p - q;
    assert x == p * (x / p) + x % p;
    assert p * (x / p) - p * q == p * d;
    assert d >= 1 ==> p * d >= p;
    assert d <= -1 ==> p * d + p <= 0;
  }

  lemma DivideTwice(x: nat, p: nat)
    requires p > 0
    ensures x / 16 / p == x / (16 * p)
  {
    var q, r := x / 16 / p, x / 16 % p;
    assert x == 16 * (p * q + r) + x % 16;
    assert 16 * (p * q) == (16 * p) * q;
    Quotient(x, 16 * p, q, 16 * r + x % 16);
  }

  /** A number is printed as the digit of each power of 16 in it, in upper case. */
  lemma {:induction false} PrintedDigits(x: nat, n: nat, i: nat)
    requires i < n
    ensures Numeral(x, n)[n - 1 - i] as int == "0123456789ABCDEF"[x / Pow16(i) % 16] as int
  {
    if i > 0 {
      PrintedDigits(x / 16, n - 1, i - 1);
      DivideTwice(x, Pow16(i - 1));
    } else {
      assert x / 1 == x;
      assert Digit(x % 16) as int == "0123456789ABCDEF"[x % 16] as int;
    }
  }

  /** `v` followed by `n` more digits, all zero. */
  function Shift(v: nat, n: nat): nat {
    if n == 0 then v else 16 * Shift(v, n - 1)
  }

  lemma ShiftBy248(v: nat)
    ensures Shift(v, 2) == 0x100 * v && Shift(v, 4) == 0x1_0000 * v && Shift(v, 8) == 0x1_0000_0000 * v
  {
    assert Shift(v, 2) == 16 * Shift(v, 1);
    assert Shift(v, 4) == 16 * Shift(v, 3) == 0x100 * Shift(v, 2);
    assert Shift(v, 6) == 16 * Shift(v, 5) == 0x100 * Shift(v, 4);
    assert Shift(v, 8) == 16 * Shift(v, 7) == 0x100 * Shift(v, 6);
  }

  lemma {:induction false} ValueConcat(a: seq<byte>, b: seq<byte>)
    requires AllHex(a) && AllHex(b)
    ensures Value(a + b) == Shift(Value(a), |b|) + Value(b)
  {
    if b == [] {
      assert a + b == a;
    } else {
      var k := |b| - 1;
      var t := a + b;
      ValueConcat(a, b[..k]);
      assert t[|t| - 1] == b[k];
      assert t[..|t| - 1] == a + b[..k];
      assert Value(t) == 16 * Value(t[..|t| - 1]) + DigitValue(b[k]);
    }
  }

  lemma ValuePair(h: byte, l: byte)
    requires IsHex(h) && IsHex(l)
    ensures Value([h, l]) == 16 * DigitValue(h) + DigitValue(l)
  {
    assert [h, l][..1] == [h];
    assert Value([h]) == DigitValue(h) by {
      assert [h][..0] == [];
    }
  }

  // ----- bytes in memory: least significant first -----

  function LittleEndian(x: nat, n: nat): (r: seq<byte>)
    ensures |r| == n
  {
    if n == 0 then [] else [(x % 256) as byte] + LittleEndian(x / 256, n - 1)
  }

  lemma ByteDigits(x: nat)
    ensures x / 16 / 16 == x / 256 && x % 256 / 16 == x / 16 % 16 && x % 256 % 16 == x % 16
  {
  }

  lemma TwoDigits(x: nat, n: nat)
    ensures Numeral(x, n + 2) == Numeral(x / 256, n) + [Digit(x % 256 / 16), Digit(x % 256 % 16)]
  {
    ByteDigits(x);
    assert Numeral(x / 16, n + 1) == Numeral(x / 256, n) + [Digit(x / 16 % 16)];
  }

  /** Byte i of the number is the i-th pair of digits from the right. */
  lemma {:induction false} DigitsOfByte(x: nat, n: nat, i: nat)
    requires i < n
    ensures var b := LittleEndian(x, n)[i] as int;
            && Numeral(x, 2 * n)[2 * n - 1 - 2 * i] == Digit(b % 16)
            && Numeral(x, 2 * n)[2 * n - 2 - 2 * i] == Digit(b / 16)
  {
    TwoDigits(x, 2 * (n - 1));
    if i > 0 {
      DigitsOfByte(x / 256, n - 1, i - 1);
    }
  }

  // ----- the printer -----

  /** The digit table is kept in four words, read as sixteen bytes. */
  const HEX_WORDS: seq<nat> := [0x33323130, 0x37363534, 0x42413938, 0x46454443]

  function WordByte(word: nat, k: nat): byte
    requires k < 4
  {
    match k
    case 0 => (word % 256) as byte
    case 1 => (word / 256 % 256) as byte
    case 2 => (word / 65536 % 256) as byte
    case 3 => (word / 16777216 % 256) as byte
  }

  lemma WordDigits(w: nat, k: nat)
    requires w < 4 && k < 4
    ensures WordByte(HEX_WORDS[w], k) == Digit(4 * w + k)
  {
    assert k == 0 || k == 1 || k == 2 || k == 3;
    assert w == 0 || w == 1 || w == 2 || w == 3;
  }

  function HexChar(d: nat): byte
    requires d < 16
    ensures HexChar(d) == Digit(d)
  {
    WordDigits(d / 4, d % 4);
    WordByte(HEX_WORDS[d / 4], d % 4)
  }

  /** __ntapi_tt_uint_to_hex_utf8, for any number of bytes. */
  method PrintUint(key: nat, keyFormatted: array<byte>, bits: nat)
    requires bits % 8 == 0 && keyFormatted.Length >= bits / 4
    modifies keyFormatted
    ensures keyFormatted[..bits / 4] == Numeral(key, bits / 4)
    ensures forall i :: 0 <= i < bits / 4 ==>
              keyFormatted[bits / 4 - 1 - i] as int == "0123456789ABCDEF"[key / Pow16(i) % 16] as int
    ensures keyFormatted[bits / 4..] == old(keyFormatted[bits / 4..])
  {
    var bytes := bits / 8;
    var offset := bits / 4;
    var uch := LittleEndian(key, bytes);
    var i := 0;
    while i < bytes
      invariant 0 <= i <= bytes
      invariant forall k :: offset - 2 * i <= k < offset ==> keyFormatted[k] == Numeral(key, offset)[k]
      invariant keyFormatted[offset..] == old(keyFormatted[offset..])
    {
      keyFormatted[offset - 1 - i * 2] := HexChar(uch[i] as nat % 16);
      keyFormatted[offset - 2 - i * 2] := HexChar(uch[i] as nat / 16);
      DigitsOfByte(key, bytes, i);
      i := i + 1;
    }
    forall k | 0 <= k < offset
      ensures keyFormatted[offset - 1 - k] as int == "0123456789ABCDEF"[key / Pow16(k) % 16] as int
    {
      PrintedDigits(key, offset, k);
    }
  }

  // ----- the parsers -----

  lemma AppendPair(a: seq<byte>, h: byte, l: byte)
    requires AllHex(a) && IsHex(h) && IsHex(l)
    ensures Value(a + [h, l]) == 256 * Value(a) + 16 * DigitValue(h) + DigitValue(l)
  {
    ValueConcat(a, [h, l]);
    ValuePair(h, l);
    ShiftBy248(Value(a));
  }

  function Joined(s: seq<byte>, i: nat): nat
    requires i + 2 <= |s| && AllHex(s)
  {
    16 * DigitValue(s[i]) + DigitValue(s[i + 1])
  }

  /** Eight digits as four bytes, least significant first. */
  lemma EightDigits(s: seq<byte>)
    requires |s| == 8 && AllHex(s)
    ensures Value(s) == Joined(s, 6) + 256 * (Joined(s, 4) + 256 * (Joined(s, 2) + 256 * Joined(s, 0)))
  {
    ValuePair(s[0], s[1]);
    AppendPair([s[0], s[1]], s[2], s[3]);
    AppendPair([s[0], s[1]] + [s[2], s[3]], s[4], s[5]);
    AppendPair([s[0], s[1]] + [s[2], s[3]] + [s[4], s[5]], s[6], s[7]);
    assert s == [s[0], s[1]] + [s[2], s[3]] + [s[4], s[5]] + [s[6], s[7]];
  }

  /** The conversion loop over the intermediate buffer. */
  method ConvertDigits(uch: array<byte>)
    requires AllHex(uch[..])
    modifies uch
    ensures forall k :: 0 <= k < uch.Length ==> uch[k] as int == DigitValue(old(uch[k]))
  {
    var i := 0;
    while i < uch.Length
      invariant 0 <= i <= uch.Length
      invariant forall k :: 0 <= k < i ==> IsHex(old(uch[k])) && uch[k] as int == DigitValue(old(uch[k]))
      invariant forall k :: i <= k < uch.Length ==> uch[k] == old(uch[k])
    {
      assert IsHex(old(uch[..])[i]);
      // lower case, upper case, digits
      if uch[i] >= 97 {
        uch[i] := uch[i] - (97 - 0x0a);
      } else if uch[i] >= 65 {
        uch[i] := uch[i] - (65 - 0x0a);
      } else {
        uch[i] := uch[i] - 48;
      }
      i := i + 1;
    }
  }

  /** The input validation loop. */
  method Validate(hex: array<byte>, from: nat) returns (valid: bool)
    requires from + 8 <= hex.Length
    ensures valid <==> AllHex(hex[from..from + 8])
  {
    var i := 0;
    while i < 8
      invariant 0 <= i <= 8
      invariant AllHex(hex[from..from + i])
    {
      if !IsHex(hex[from + i]) {
        assert hex[from..from + 8][i] == hex[from + i];
        return false;
      }
      i := i + 1;
    }
    valid := true;
  }

  /** The intermediate step: digit pairs in little endian byte order, then as values. */
  method ReorderDigits(hex: array<byte>, from: nat) returns (uch: array<byte>)
    requires from + 8 <= hex.Length && AllHex(hex[from..from + 8])
    ensures fresh(uch) && uch.Length == 8
    ensures var s := hex[from..from + 8];
            && uch[0] as int == DigitValue(s[6]) && uch[1] as int == DigitValue(s[7])
            && uch[2] as int == DigitValue(s[4]) && uch[3] as int == DigitValue(s[5])
            && uch[4] as int == DigitValue(s[2]) && uch[5] as int == DigitValue(s[3])
            && uch[6] as int == DigitValue(s[0]) && uch[7] as int == DigitValue(s[1])
  {
    uch := new byte[8](_ => 0);
    ghost var s := hex[from..from + 8];
    uch[0] := hex[from + 6];
    uch[1] := hex[from + 7];
    uch[2] := hex[from + 4];
    uch[3] := hex[from + 5];
    uch[4] := hex[from + 2];
    uch[5] := hex[from + 3];
    uch[6] := hex[from];
    uch[7] := hex[from + 1];
    assert uch[..] == [s[6], s[7], s[4], s[5], s[2], s[3], s[0], s[1]];
    ConvertDigits(uch);
  }

  /** __ntapi_tt_hex_utf8_to_uint32 on the eight characters from `from`. */
  method ParseUint32(hex: array<byte>, from: nat, key: Out) returns (ret: Status)
    requires from + 8 <= hex.Length
    modifies key
    ensures ret.IllegalCharacter? <==> !AllHex(hex[from..from + 8])
    ensures ret.IllegalCharacter? ==> key.value == old(key.value)
    ensures ret.Success? ==> key.value == Value(hex[from..from + 8]) < 0x1_0000_0000
    ensures forall ds :: Spells(hex[from..from + 8], ds) ==> ret.Success? && key.value == Positional(ds)
  {
    SpelledValue(hex[from..from + 8]);
    var valid := Validate(hex, from);
    if !valid {
      return IllegalCharacter;
    }
    var uch := ReorderDigits(hex, from);
    var ubytes := new byte[4](_ => 0);
    ubytes[0] := uch[0] * 0x10 + uch[1];
    ubytes[1] := uch[2] * 0x10 + uch[3];
    ubytes[2] := uch[4] * 0x10 + uch[5];
    ubytes[3] := uch[6] * 0x10 + uch[7];
    EightDigits(hex[from..from + 8]);
    PrintParse(hex[from..from + 8]);
    assert Pow16(8) == 0x1_0000_0000;
    key.value := ubytes[0] as int + 256 * (ubytes[1] as int + 256 * (ubytes[2] as int + 256 * ubytes[3] as int));
    ret := Success;
  }

  /** __ntapi_tt_hex_utf8_to_uint64: the high half is parsed first. */
  method ParseUint64(hex: array<byte>, key: Out) returns (ret: Status)
    requires hex.Length >= 16
    modifies key
    ensures ret.IllegalCharacter? <==> !AllHex(hex[..16])
    ensures ret.IllegalCharacter? ==> key.value == old(key.value)
    ensures ret.Success? ==> key.value == Value(hex[..16])
    ensures forall ds :: Spells(hex[..16], ds) ==> ret.Success? && key.value == Positional(ds)
  {
    var high := new Out();
    var low := new Out();
    ghost var s := hex[..16];
    assert s == hex[0..8] + hex[8..16];
    SpelledValue(s);
    ret := ParseUint32(hex, 0, high);
    if !ret.Success? {
      assert exists k :: 0 <= k < 8 && !IsHex(s[k]);
      return;
    }
    ret := ParseUint32(hex, 8, low);
    if !ret.Success? {
      assert exists k :: 0 <= k < 8 && !IsHex(hex[8..16][k]);
      return;
    }
    ValueConcat(hex[0..8], hex[8..16]);
    ShiftBy248(high.value);
    key.value := low.value + 0x1_0000_0000 * high.value;
  }

  const ZEROS: seq<byte> := [48, 48, 48, 48]

  lemma ValueZeros()
    ensures Value(ZEROS) == 0
  {
    assert ZEROS[..3] == [48, 48, 48 as byte];
    assert [48, 48, 48][..2] == [48, 48 as byte];
    ValuePair(48, 48);
  }

  /** Four zeros in front of four characters. */
  lemma Padded(s: seq<byte>)
    requires |s| == 4
    ensures AllHex(ZEROS + s) <==> AllHex(s)
    ensures AllHex(s) ==> Value(ZEROS + s) == Value(s) < 0x1_0000
  {
    assert AllHex(ZEROS + s) ==> forall k :: 0 <= k < 4 ==> s[k] == (ZEROS + s)[k + 4];
    if AllHex(s) {
      ValueConcat(ZEROS, s);
      ValueZeros();
      ShiftBy248(0);
      PrintParse(s);
      assert Pow16(4) == 0x1_0000;
    }
  }

  /** __ntapi_tt_hex_utf8_to_uint16: padded with zeros and parsed as 32 bits. */
  method ParseUint16(hex: array<byte>, key: Out) returns (ret: Status)
    requires hex.Length >= 4
    modifies key
    ensures ret.IllegalCharacter? <==> !AllHex(hex[..4])
    ensures ret.IllegalCharacter? ==> key.value == old(key.value)
    ensures ret.Success? ==> key.value == Value(hex[..4])
    ensures forall ds :: Spells(hex[..4], ds) ==> ret.Success? && key.value == Positional(ds)
  {
    var hexBuf := new byte[8](_ => 48);
    hexBuf[4] := hex[0];
    hexBuf[5] := hex[1];
    hexBuf[6] := hex[2];
    hexBuf[7] := hex[3];
    assert hexBuf[0..8] == ZEROS + hex[..4];
    Padded(hex[..4]);
    SpelledValue(hex[..4]);
    var dword := new Out();
    ret := ParseUint32(hexBuf, 0, dword);
    if ret.Success? {
      key.value := dword.value % 0x1_0000;
    }
  }

  // ----- the round trips, through the methods -----

  /** Printing a number that fits and parsing the text back gives the number. */
  method PrintThenParse32(x: nat) returns (y: nat)
    requires x < 0x1_0000_0000
    ensures y == x
  {
    var text := new byte[8](_ => 0);
    PrintUint(x, text, 32);
    var key := new Out();
    assert text[0..8] == text[..8];
    var ret := ParseUint32(text, 0, key);
    assert Pow16(8) == 0x1_0000_0000;
    ParsePrint(x, 8);
    y := key.value;
  }

  method PrintThenParse16(x: nat) returns (y: nat)
    requires x < 0x1_0000
    ensures y == x
  {
    var text := new byte[4](_ => 0);
    PrintUint(x, text, 16);
    var key := new Out();
    var ret := ParseUint16(text, key);
    assert Pow16(4) == 0x1_0000;
    ParsePrint(x, 4);
    y := key.value;
  }

  lemma SixteenDigits()
    ensures Pow16(16) == 0x1_0000_0000_0000_0000
  {
    assert Pow16(8) == 0x1_0000_0000;
    assert Pow16(12) == 0x1_0000 * Pow16(8);
    assert Pow16(16) == 0x1_0000 * Pow16(12);
  }

  method PrintThenParse64(x: nat) returns (y: nat)
    requires x < 0x1_0000_0000_0000_0000
    ensures y == x
  {
    var text := new byte[16](_ => 0);
    PrintUint(x, text, 64);
    var key := new Out();
    var ret := ParseUint64(text, key);
    SixteenDigits();
    ParsePrint(x, 16);
    y := key.value;
  }

  /** Parsing valid text and printing the number gives the text in upper case. */
  method ParseThenPrint64(text: array<byte>) returns (ok: bool, again: array<byte>)
    requires text.Length == 16
    ensures ok <==> AllHex(text[..])
    ensures fresh(again) && again.Length == 16
    ensures ok ==> again[..] == UpperAll(text[..])
  {
    again := new byte[16](_ => 0);
    var key := new Out();
    assert text[..16] == text[..];
    var ret := ParseUint64(text, key);
    ok := ret.Success?;
    if ok {
      PrintUint(key.value, again, 64);
      PrintParse(text[..]);
      assert again[..16] == again[..];
    }
  }
}
