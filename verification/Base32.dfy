/**
 * Base32 (section 6 of RFC 4648, without padding characters) as the one-time-password secrets use it:
 * an accumulator of 32 bits is shifted and never masked, so its high bits are lost as it goes.
 */
module Base32 {
  import opened Bytes

  const ALPHABET := "ABCDEFGHIJKLMNOPQRSTUVWXYZ234567"
  const WORD := 0x1_0000_0000

  predicate InAlphabet(c: char) {
    'A' <= c <= 'Z' || '2' <= c <= '7'
  }

  /** `BASE32.indexOf(c)`. */
  function IndexOf(c: char): int {
    if 'A' <= c <= 'Z' then c as int - 'A' as int
    else if '2' <= c <= '7' then c as int - '2' as int + 26
    else -1
  }

  function Symbol(x: nat): char
    requires x < 32
  {
    ALPHABET[x]
  }

  lemma AlphabetIsIndexed(i: nat)
    requires i < |ALPHABET|
    ensures ALPHABET[i] == if i < 26 then ('A' as int + i) as char else ('2' as int + i - 26) as char
  {
  }

  /** Every five-bit value has its own symbol, and looking the symbol up gives the value back. */
  lemma SymbolIndex(x: nat)
    requires x < 32
    ensures InAlphabet(Symbol(x)) && IndexOf(Symbol(x)) == x
  {
    AlphabetIsIndexed(x);
  }

  /** `IndexOf` is the position in the alphabet string. */
  lemma IndexOfIsPosition(c: char)
    ensures InAlphabet(c) <==> c in ALPHABET
    ensures InAlphabet(c) ==> 0 <= IndexOf(c) < |ALPHABET| && ALPHABET[IndexOf(c)] == c
    ensures forall i :: 0 <= i < |ALPHABET| && ALPHABET[i] == c ==> IndexOf(c) == i
  {
    forall i | 0 <= i < |ALPHABET|
      ensures IndexOf(ALPHABET[i]) == i && InAlphabet(ALPHABET[i])
    {
      AlphabetIsIndexed(i);
    }
    if InAlphabet(c) {
      AlphabetIsIndexed(IndexOf(c));
    }
  }

  // ---- The 32-bit accumulator ----

  /** `m * 2 ** n`. */
  function Up(m: nat, n: nat): nat {
    if n == 0 then m else 2 * Up(m, n - 1)
  }

  /** `m >>> n`. */
  function Down(m: nat, n: nat): nat {
    if n == 0 then m else Down(m / 2, n - 1)
  }

  /** `(value << k) | x` on 32 bits: the shift wraps, and `x` fills the freed low bits. */
  function ShiftIn(value: nat, k: nat, x: nat): nat {
    Up(value, k) % WORD + x
  }

  /** The number in the `n` low bits: what is still queued in the accumulator. */
  function Queued(value: nat, n: nat): nat {
    if n == 0 then 0 else 2 * Queued(value / 2, n - 1) + value % 2
  }

  lemma {:induction false} UpAdds(a: nat, b: nat, n: nat)
    ensures Up(a + b, n) == Up(a, n) + Up(b, n)
  {
    if n > 0 {
      UpAdds(a, b, n - 1);
    }
  }

  lemma {:induction false} UpTwice(m: nat, j: nat, k: nat)
    ensures Up(Up(m, j), k) == Up(m, j + k)
  {
    if k > 0 {
      UpTwice(m, j, k - 1);
    }
  }

  lemma {:induction false} DownUndoesUp(m: nat, r: nat, n: nat)
    requires r < Up(1, n)
    ensures Down(Up(m, n) + r, n) == m
  {
    if n > 0 {
      assert (Up(m, n) + r) / 2 == Up(m, n - 1) + r / 2;
      DownUndoesUp(m, r / 2, n - 1);
    }
  }

  lemma {:induction false} QueuedBound(value: nat, n: nat)
    ensures Queued(value, n) < Up(1, n)
  {
    if n > 0 {
      QueuedBound(value / 2, n - 1);
    }
  }

  /** Shifting right by `n` exposes the `k` bits queued before the last `n`. */
  lemma {:induction false} PopBits(value: nat, n: nat, k: nat)
    ensures Queued(value, n + k) == Up(Queued(Down(value, n), k), n) + Queued(value, n)
  {
    if n > 0 {
      PopBits(value / 2, n - 1, k);
    }
  }

  lemma {:induction false} QueuedIsRemainder(value: nat, n: nat)
    ensures Up(1, n) > 0 && Queued(value, n) == value % Up(1, n)
  {
    if n > 0 {
      QueuedIsRemainder(value / 2, n - 1);
      HalveRemainder(value, Up(1, n - 1));
    }
  }

  lemma {:induction false} QueuedRest(m: nat, x: nat, k: nat)
    requires x < Up(1, k)
    ensures Queued(Up(m, k) + x, k) == x
  {
    if k > 0 {
      assert (Up(m, k) + x) / 2 == Up(m, k - 1) + x / 2;
      QueuedRest(m, x / 2, k - 1);
    }
  }

  /** The wrap-around at `2 ** m` leaves every lower bit in place. */
  lemma {:induction false} WrapKeepsQueue(value: nat, m: nat, n: nat)
    requires n <= m
    ensures Up(1, m) > 0 && Queued(value % Up(1, m), n) == Queued(value, n)
  {
    UpPositive(m);
    if n > 0 {
      UpPositive(m - 1);
      HalveRemainder(value, Up(1, m - 1));
      WrapKeepsQueue(value / 2, m - 1, n - 1);
    }
  }

  lemma {:induction false} UpPositive(n: nat)
    ensures Up(1, n) > 0
  {
    if n > 0 {
      UpPositive(n - 1);
    }
  }

  lemma HalveRemainder(n: nat, d: nat)
    requires d > 0
    ensures n % (2 * d) / 2 == n / 2 % d && n % (2 * d) % 2 == n % 2
  {
    var q, r := n / 2 / d, n / 2 % d;
    assert n == 2 * (q * d + r) + n % 2;
    assert 2 * (q * d) == q * (2 * d);
    RemainderIs(n, 2 * d, q, 2 * r + n % 2);
  }

  lemma RemainderIs(n: nat, d: nat, q: nat, r: nat)
    requires d > 0 && n == q * d + r && r < d
    ensures n / d == q && n % d == r
  {
    QuotientIs(n, d, q);
  }

  lemma {:induction false} WrapUp(value: nat, k: nat, m: nat)
    requires k <= m
    ensures Up(1, m) > 0 && Up(1, m - k) > 0 && Up(value, k) % Up(1, m) == Up(value % Up(1, m - k), k)
  {
    UpPositive(m);
    UpPositive(m - k);
    if k > 0 {
      WrapUp(value, k - 1, m - 1);
      HalveRemainder(Up(value, k), Up(1, m - 1));
    }
  }

  lemma Widths(m: nat)
    ensures Up(m, 5) == 32 * m && Up(m, 8) == 256 * m && Up(1, 32) == WORD
  {
    UpTwice(m, 5, 3);
    assert Up(m, 5) == 4 * Up(m, 3) == 16 * Up(m, 1);
    assert Up(32 * m, 3) == 4 * Up(32 * m, 1);
    WordIs();
  }

  lemma WordIs()
    ensures Up(1, 32) == WORD
  {
    assert Up(1, 4) == 16;
    UpTwice(1, 4, 4);
    assert Up(16, 4) == 2 * Up(16, 3) == 4 * Up(16, 2) == 256;
    UpTwice(1, 8, 4);
    assert Up(256, 4) == 2 * Up(256, 3) == 4 * Up(256, 2) == 4096;
    UpTwice(1, 12, 4);
    assert Up(4096, 4) == 2 * Up(4096, 3) == 4 * Up(4096, 2) == 0x1_0000;
    UpTwice(1, 16, 16);
    UpTwice(0x1_0000, 4, 12);
    assert Up(0x1_0000, 4) == 2 * Up(0x1_0000, 3) == 4 * Up(0x1_0000, 2) == 0x10_0000;
    UpTwice(0x10_0000, 4, 8);
    assert Up(0x10_0000, 4) == 2 * Up(0x10_0000, 3) == 4 * Up(0x10_0000, 2) == 0x100_0000;
    UpTwice(0x100_0000, 4, 4);
    assert Up(0x100_0000, 4) == 2 * Up(0x100_0000, 3) == 4 * Up(0x100_0000, 2) == 0x1000_0000;
    assert Up(0x1000_0000, 4) == 2 * Up(0x1000_0000, 3) == 4 * Up(0x1000_0000, 2) == WORD;
  }

  /** What falls off the top of the accumulator was no longer queued. */
  lemma ShiftInQueues(value: nat, n: nat, k: nat, x: nat)
    requires n + k <= 32 && x < Up(1, k)
    ensures Queued(ShiftIn(value, k, x), n + k) == Up(Queued(value, n), k) + x
  {
    WordIs();
    WrapUp(value, k, 32);
    var u := value % Up(1, 32 - k);
    PopBits(ShiftIn(value, k, x), k, n);
    DownUndoesUp(u, x, k);
    QueuedRest(u, x, k);
    WrapKeepsQueue(value, 32 - k, n);
  }

  /** `(value >>> n) & 31` and `(value >>> n) & 255`. */
  lemma ExtractPops(value: nat, n: nat)
    ensures Queued(value, n + 5) == Up(Down(value, n) % 32, n) + Queued(value, n)
    ensures Queued(value, n + 8) == Up(Down(value, n) % 256, n) + Queued(value, n)
  {
    PopBits(value, n, 5);
    PopBits(value, n, 8);
    QueuedIsRemainder(Down(value, n), 5);
    QueuedIsRemainder(Down(value, n), 8);
    Widths(1);
  }

  /** The final character holds the leftover bits at the top of its five, zeros below. */
  lemma PadShifts(value: nat, bits: nat)
    requires bits <= 5
    ensures ShiftIn(value, 5 - bits, 0) % 32 == Up(Queued(value, bits), 5 - bits)
  {
    UpPositive(5 - bits);
    ShiftInQueues(value, bits, 5 - bits, 0);
    QueuedIsRemainder(ShiftIn(value, 5 - bits, 0), 5);
    Widths(1);
  }

  // ---- Byte strings and symbol strings as numbers, most significant first ----

  /** The number the first `n` bytes spell. */
  function ByteNumber(bytes: Bytes, n: nat): nat
    requires n <= |bytes|
  {
    if n == 0 then 0 else ByteNumber(bytes, n - 1) * 256 + bytes[n - 1] as nat
  }

  predicate Wellformed(s: string) {
    forall i :: 0 <= i < |s| ==> InAlphabet(s[i])
  }

  /** The number the first `n` symbols spell. */
  function SymbolNumber(s: string, n: nat): nat
    requires Wellformed(s) && n <= |s|
  {
    if n == 0 then 0 else SymbolNumber(s, n - 1) * 32 + IndexOf(s[n - 1])
  }

  lemma {:induction false} ByteNumberPrefix(bytes: Bytes, b: byte, n: nat)
    requires n <= |bytes|
    ensures ByteNumber(bytes + [b], n) == ByteNumber(bytes, n)
  {
    if n > 0 {
      ByteNumberPrefix(bytes, b, n - 1);
    }
  }

  lemma {:induction false} SymbolNumberPrefix(s: string, x: nat, n: nat)
    requires Wellformed(s) && x < 32 && n <= |s|
    ensures Wellformed(s + [Symbol(x)]) && IndexOf(Symbol(x)) == x
    ensures SymbolNumber(s + [Symbol(x)], n) == SymbolNumber(s, n)
  {
    SymbolIndex(x);
    if n > 0 {
      SymbolNumberPrefix(s, x, n - 1);
    }
  }

  lemma AppendSymbol(s: string, x: nat)
    requires Wellformed(s) && x < 32
    ensures var t := s + [Symbol(x)]; Wellformed(t) && SymbolNumber(t, |t|) == SymbolNumber(s, |s|) * 32 + x
  {
    SymbolNumberPrefix(s, x, |s|);
  }

  lemma AppendByte(bytes: Bytes, b: byte)
    ensures var t := bytes + [b]; ByteNumber(t, |t|) == ByteNumber(bytes, |bytes|) * 256 + b as nat
  {
    ByteNumberPrefix(bytes, b, |bytes|);
  }

  /** Byte strings of one length are equal when their numbers are. */
  lemma {:induction false} BytesFromNumber(a: Bytes, b: Bytes, n: nat)
    requires n <= |a| && n <= |b| && ByteNumber(a, n) == ByteNumber(b, n)
    ensures a[..n] == b[..n]
  {
    if n > 0 {
      BytesFromNumber(a, b, n - 1);
      assert a[..n] == a[..n - 1] + [a[n - 1]] && b[..n] == b[..n - 1] + [b[n - 1]];
    }
  }

  // ---- The two conversions ----

  /** The symbols written so far, then the bits still queued, are the `n` bytes read. */
  predicate Encoding(bytes: Bytes, n: nat, output: string, value: nat, bits: nat) {
    && n <= |bytes|
    && Wellformed(output)
    && 8 * n == 5 * |output| + bits
    && ByteNumber(bytes, n) == Up(SymbolNumber(output, |output|), bits) + Queued(value, bits)
  }

  lemma ReadByte(bytes: Bytes, n: nat, output: string, value: nat, bits: nat)
    requires n < |bytes| && bits <= 4 && Encoding(bytes, n, output, value, bits)
    ensures Encoding(bytes, n + 1, output, ShiftIn(value, 8, bytes[n] as nat), bits + 8)
  {
    var m, q := SymbolNumber(output, |output|), Queued(value, bits);
    Widths(1);
    ShiftInQueues(value, bits, 8, bytes[n] as nat);
    Widths(ByteNumber(bytes, n));
    UpAdds(Up(m, bits), q, 8);
    UpTwice(m, bits, 8);
  }

  lemma WriteSymbol(bytes: Bytes, n: nat, output: string, value: nat, bits: nat)
    requires Encoding(bytes, n, output, value, bits + 5)
    ensures Encoding(bytes, n, output + [Symbol(Down(value, bits) % 32)], value, bits)
  {
    var x, m := Down(value, bits) % 32, SymbolNumber(output, |output|);
    ExtractPops(value, bits);
    AppendSymbol(output, x);
    Widths(m);
    UpTwice(m, 5, bits);
    UpAdds(32 * m, x, bits);
  }

  lemma PadNumber(m: nat, q: nat, bits: nat)
    requires bits <= 5
    ensures m * 32 + Up(q, 5 - bits) == Up(Up(m, bits) + q, 5 - bits)
  {
    Widths(m);
    UpAdds(Up(m, bits), q, 5 - bits);
    UpTwice(m, bits, 5 - bits);
  }

  lemma WriteLastSymbol(bytes: Bytes, n: nat, output: string, value: nat, bits: nat, x: nat)
    requires 1 <= bits <= 4 && Encoding(bytes, n, output, value, bits)
    requires x < 32 && x == Up(Queued(value, bits), 5 - bits)
    ensures Spells(output + [Symbol(x)], bytes, n)
  {
    AppendSymbol(output, x);
    PadNumber(SymbolNumber(output, |output|), Queued(value, bits), bits);
  }

  /** `s` spells the number of the first `n` bytes followed by fewer than five zero bits. */
  predicate Spells(s: string, bytes: Bytes, n: nat) {
    && n <= |bytes|
    && Wellformed(s)
    && 8 * n <= 5 * |s| < 8 * n + 5
    && SymbolNumber(s, |s|) == Up(ByteNumber(bytes, n), 5 * |s| - 8 * n)
  }

  /** The conversion of section 6 of RFC 4648. */
  method EncodeBase32(bytes: Bytes) returns (output: string)
    ensures Spells(output, bytes, |bytes|)
  {
    var bits: nat, value: nat := 0, 0;
    output := "";
    var i := 0;
    while i < |bytes|
      invariant 0 <= i <= |bytes| && bits <= 4
      invariant Encoding(bytes, i, output, value, bits)
    {
      ReadByte(bytes, i, output, value, bits);
      value := ShiftIn(value, 8, bytes[i] as nat);
      bits := bits + 8;
      i := i + 1;
      while bits >= 5
        invariant Encoding(bytes, i, output, value, bits)
      {
        bits := bits - 5;
        WriteSymbol(bytes, i, output, value, bits);
        output := output + [Symbol(Down(value, bits) % 32)];
      }
    }
    if bits > 0 {
      PadShifts(value, bits);
      WriteLastSymbol(bytes, i, output, value, bits, ShiftIn(value, 5 - bits, 0) % 32);
      output := output + [Symbol(ShiftIn(value, 5 - bits, 0) % 32)];
    }
  }

  /** The bytes written so far, then the bits still queued, are the `n` symbols read. */
  predicate Decoding(s: string, n: nat, bytes: Bytes, value: nat, bits: nat) {
    && n <= |s|
    && Wellformed(s)
    && 5 * n == 8 * |bytes| + bits
    && SymbolNumber(s, n) == Up(ByteNumber(bytes, |bytes|), bits) + Queued(value, bits)
  }

  lemma ReadSymbol(s: string, n: nat, bytes: Bytes, value: nat, bits: nat)
    requires n < |s| && bits <= 7 && Decoding(s, n, bytes, value, bits)
    ensures 0 <= IndexOf(s[n]) < 32
    ensures Decoding(s, n + 1, bytes, ShiftIn(value, 5, IndexOf(s[n])), bits + 5)
  {
    var m, q := ByteNumber(bytes, |bytes|), Queued(value, bits);
    Widths(1);
    ShiftInQueues(value, bits, 5, IndexOf(s[n]));
    Widths(SymbolNumber(s, n));
    UpAdds(Up(m, bits), q, 5);
    UpTwice(m, bits, 5);
  }

  lemma WriteByte(s: string, n: nat, bytes: Bytes, value: nat, bits: nat)
    requires Decoding(s, n, bytes, value, bits + 8)
    ensures Decoding(s, n, bytes + [Down(value, bits) % 256], value, bits)
  {
    var x, m := Down(value, bits) % 256, ByteNumber(bytes, |bytes|);
    ExtractPops(value, bits);
    AppendByte(bytes, x);
    Widths(m);
    UpTwice(m, 8, bits);
    UpAdds(256 * m, x, bits);
  }

  lemma WholeBytes(s: string, bytes: Bytes, value: nat, bits: nat)
    requires bits <= 7 && Decoding(s, |s|, bytes, value, bits)
    ensures SpelledBy(bytes, s)
  {
    QueuedBound(value, bits);
    DownUndoesUp(ByteNumber(bytes, |bytes|), Queued(value, bits), bits);
  }

  /** `bytes` are the whole bytes of the number `s` spells; its last `5 * |s| % 8` bits are dropped unread. */
  predicate SpelledBy(bytes: Bytes, s: string) {
    && Wellformed(s)
    && |bytes| == 5 * |s| / 8
    && ByteNumber(bytes, |bytes|) == Down(SymbolNumber(s, |s|), 5 * |s| % 8)
  }

  /** `None`, the thrown error, for the empty string and for anything outside the alphabet. */
  method DecodeBase32(secret: string) returns (r: Option<Bytes>)
    ensures r.None? <==> secret == "" || !Wellformed(secret)
    ensures r.Some? ==> SpelledBy(r.value, secret)
  {
    if secret == "" || !Wellformed(secret) {
      return None;
    }
    var bytes: Bytes := [];
    var bits: nat, value: nat := 0, 0;
    var i := 0;
    while i < |secret|
      invariant 0 <= i <= |secret| && bits <= 7
      invariant Decoding(secret, i, bytes, value, bits)
    {
      ReadSymbol(secret, i, bytes, value, bits);
      value := ShiftIn(value, 5, IndexOf(secret[i]));
      bits := bits + 5;
      i := i + 1;
      if bits >= 8 {
        bits := bits - 8;
        WriteByte(secret, i, bytes, value, bits);
        bytes := bytes + [Down(value, bits) % 256];
      }
    }
    WholeBytes(secret, bytes, value, bits);
    r := Some(bytes);
  }

  /** What spells the bytes spells nothing else: reading it back gives the bytes. */
  lemma RoundTrip(bytes: Bytes, encoded: string, decoded: Bytes)
    requires Spells(encoded, bytes, |bytes|) && SpelledBy(decoded, encoded)
    ensures decoded == bytes
  {
    var pad := 5 * |encoded| - 8 * |bytes|;
    UpPositive(pad);
    DownUndoesUp(ByteNumber(bytes, |bytes|), 0, pad);
    BytesFromNumber(decoded, bytes, |bytes|);
  }

  /** A generated secret, encoded and later decoded: the bytes themselves, unless there are none. */
  method EncodeThenDecode(bytes: Bytes) returns (decoded: Option<Bytes>)
    ensures decoded == if bytes == [] then None else Some(bytes)
  {
    var encoded := EncodeBase32(bytes);
    decoded := DecodeBase32(encoded);
    if decoded.Some? {
      RoundTrip(bytes, encoded, decoded.value);
    }
  }
}
