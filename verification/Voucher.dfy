/** The bytes a voucher signature is made over, and the order of vouchers. */
module Voucher {
  import opened Base
  import opened Arithmetic

  type byte = b: int | 0 <= b < 0x100
  type Bytes = seq<byte>
  type Digest = s: Bytes | |s| == 32 witness seq(32, _ => 0)

  // "STELLARAGENT-VOUCHER-V1"
  const DOMAIN_TAG: Bytes :=
    [83, 84, 69, 76, 76, 65, 82, 65, 71, 69, 78, 84, 45, 86, 79, 85, 67, 72, 69, 82, 45, 86, 49]
  const PREIMAGE_LEN := 151

  /** What one signature commits to; addresses enter as digests. */
  datatype Claim = Claim(network: Digest, contractDomain: Digest, recipientDomain: Digest,
                         channel: u64, sequence: u64, amount: i128)

  /** Everything a contract instance knows without reading channel state, with
      SHA-256 of an address's XDR and the Ed25519 check as uninterpreted functions. */
  datatype Env = Env(self: Address, network: Digest, digest: Address -> Digest,
                     verify: (Bytes, Bytes, Bytes) -> bool)

  function ClaimOf(env: Env, channel: u64, recipient: Address, sequence: u64, amount: i128): Claim {
    Claim(env.network, env.digest(env.self), env.digest(recipient), channel, sequence, amount)
  }

  function Pow256(width: nat): nat {
    if width == 0 then 1 else 256 * Pow256(width - 1)
  }

  function BigEndian(n: nat, width: nat): (s: Bytes)
    ensures |s| == width
  {
    if width == 0 then [] else BigEndian(n / 256, width - 1) + [n % 256]
  }

  function FromBigEndian(s: Bytes): (n: nat)
    ensures n < Pow256(|s|)
  {
    if s == [] then 0 else 256 * FromBigEndian(s[..|s| - 1]) + s[|s| - 1]
  }

  lemma {:induction false} BigEndianRoundTrip(n: nat, width: nat)
    requires n < Pow256(width)
    ensures FromBigEndian(BigEndian(n, width)) == n
  {
    if width > 0 {
      BigEndianRoundTrip(n / 256, width - 1);
      assert BigEndian(n, width)[..width - 1] == BigEndian(n / 256, width - 1);
    }
  }

  lemma {:induction false} BigEndianOnto(s: Bytes)
    ensures BigEndian(FromBigEndian(s), |s|) == s
  {
    if s != [] {
      BigEndianOnto(s[..|s| - 1]);
      var high, low := FromBigEndian(s[..|s| - 1]), s[|s| - 1];
      assert (256 * high + low) / 256 == high && (256 * high + low) % 256 == low;
      assert s == s[..|s| - 1] + [low];
    }
  }

  function TwosComplement(x: i128): nat {
    if x < 0 then x + 2 * (I128_MAX + 1) else x
  }

  function FromTwosComplement(n: nat): i128
    requires n < 2 * (I128_MAX + 1)
  {
    if n > I128_MAX then n - 2 * (I128_MAX + 1) else n
  }

  lemma Widths()
    ensures Pow256(8) == U64_MAX + 1
    ensures Pow256(16) == 2 * (I128_MAX + 1)
  {
    assert Pow256(4) == 0x1_0000_0000;
    assert Pow256(8) == 0x1_0000_0000_0000_0000;
    assert Pow256(12) == 0x1_0000_0000_0000_0000_0000_0000;
  }

  function Encode(c: Claim): (s: Bytes)
    ensures |s| == PREIMAGE_LEN
  {
    DOMAIN_TAG + c.network + c.contractDomain + c.recipientDomain
    + BigEndian(c.channel, 8) + BigEndian(c.sequence, 8) + BigEndian(TwosComplement(c.amount), 16)
  }

  /** Reads every field back at its fixed offset. */
  function Decode(s: Bytes): Option<Claim> {
    if |s| != PREIMAGE_LEN || s[..23] != DOMAIN_TAG then None
    else
      Widths();
      Some(Claim(s[23..55], s[55..87], s[87..119],
                 FromBigEndian(s[119..127]), FromBigEndian(s[127..135]),
                 FromTwosComplement(FromBigEndian(s[135..151]))))
  }

  /** A field written after `front`, and everything before it. */
  lemma Split(front: Bytes, field: Bytes)
    ensures (front + field)[..|front|] == front && (front + field)[|front|..] == field
  {}

  /** Reading a field of a prefix reads it of the whole. */
  lemma Within(s: Bytes, i: nat, j: nat, k: nat)
    requires i <= j <= k <= |s|
    ensures s[..k][i..j] == s[i..j] && s[..k][..j] == s[..j] && s[..j] == s[..i] + s[i..j]
  {}

  /** Encoding loses nothing: the fixed-offset decoder recovers every claim. */
  lemma DecodeInvertsEncode(c: Claim)
    ensures Decode(Encode(c)) == Some(c)
  {
    Widths();
    BigEndianRoundTrip(c.channel, 8);
    BigEndianRoundTrip(c.sequence, 8);
    BigEndianRoundTrip(TwosComplement(c.amount), 16);
    FieldsAreInPlace(c);
  }

  lemma FieldsAreInPlace(c: Claim)
    ensures var s := Encode(c);
            && s[..23] == DOMAIN_TAG && s[23..55] == c.network && s[55..87] == c.contractDomain && s[87..119] == c.recipientDomain
            && s[119..127] == BigEndian(c.channel, 8) && s[127..135] == BigEndian(c.sequence, 8)
            && s[135..151] == BigEndian(TwosComplement(c.amount), 16)
  {
    hide BigEndian, TwosComplement;
    var channel, sequence, amount := BigEndian(c.channel, 8), BigEndian(c.sequence, 8), BigEndian(TwosComplement(c.amount), 16);
    var p1 := DOMAIN_TAG + c.network;
    var p2 := p1 + c.contractDomain;
    var p3 := p2 + c.recipientDomain;
    var p4 := p3 + channel;
    var p5 := p4 + sequence;
    var s := p5 + amount;
    assert |p1| == 55 && |p2| == 87 && |p3| == 119 && |p4| == 127 && |p5| == 135;
    Split(p5, amount);
    Split(p4, sequence);
    Split(p3, channel);
    Split(p2, c.recipientDomain);
    Split(p1, c.contractDomain);
    Split(DOMAIN_TAG, c.network);
    Within(s, 127, 135, 135);
    Within(s, 119, 127, 135);
    Within(s, 87, 119, 127);
    Within(s, 55, 87, 119);
    Within(s, 23, 55, 87);
    Within(s, 0, 23, 55);
  }

  /** Nothing else decodes: every byte string the decoder accepts is the encoding
      of what it reads there. */
  lemma EncodeInvertsDecode(s: Bytes)
    requires Decode(s).Some?
    ensures Encode(Decode(s).value) == s
  {
    var c := Decode(s).value;
    Widths();
    BigEndianOnto(s[119..127]);
    BigEndianOnto(s[127..135]);
    BigEndianOnto(s[135..151]);
    assert TwosComplement(c.amount) == FromBigEndian(s[135..151]);
    hide BigEndian, FromBigEndian, TwosComplement, FromTwosComplement;
    Within(s, 23, 55, 151);
    Within(s, 55, 87, 151);
    Within(s, 87, 119, 151);
    Within(s, 119, 127, 151);
    Within(s, 127, 135, 151);
    Within(s, 135, 151, 151);
  }

  // ---- The layout, field by field ----

  /** The byte at position `i` of an unsigned big-endian number of `width` bytes. */
  function Digit(n: nat, width: nat, i: nat): int
    requires i < width
  {
    PowersArePositive(width - 1 - i);
    n / Pow256(width - 1 - i) % 256
  }

  lemma {:induction false} PowersArePositive(k: nat)
    ensures 0 < Pow256(k)
  {
    if k > 0 {
      PowersArePositive(k - 1);
    }
  }

  /** From `at` on stands `n`, big-endian, in `width` bytes. */
  ghost predicate DigitsAt(bytes: Bytes, at: nat, width: nat, n: nat) {
    at + width <= |bytes| && forall i | at <= i < at + width :: bytes[i] == Digit(n, width, i - at)
  }

  /** The bytes a voucher is signed over: tag, network, this contract, recipient,
      channel, sequence and two's-complement amount, at their offsets. */
  ghost predicate IsPreimage(env: Env, channel: u64, recipient: Address, sequence: u64, amount: i128, bytes: Bytes) {
    && |bytes| == 151
    && (forall i | 0 <= i < 23 :: bytes[i] == "STELLARAGENT-VOUCHER-V1"[i] as int)
    && bytes[23..55] == env.network && bytes[55..87] == env.digest(env.self) && bytes[87..119] == env.digest(recipient)
    && DigitsAt(bytes, 119, 8, channel) && DigitsAt(bytes, 127, 8, sequence)
    && DigitsAt(bytes, 135, 16, if amount < 0 then amount + 0x1_0000_0000_0000_0000_0000_0000_0000_0000 else amount)
  }

  lemma {:induction false} DigitsOf(n: nat, width: nat, i: nat)
    requires i < width
    ensures BigEndian(n, width)[i] == Digit(n, width, i)
  {
    if i < width - 1 {
      DigitsOf(n / 256, width - 1, i);
      PowersArePositive(width - 2 - i);
      DivDiv(n, 256, Pow256(width - 2 - i));
    }
  }

  lemma DivDiv(n: nat, a: nat, b: nat)
    requires 0 < a && 0 < b
    ensures 0 < a * b && n / a / b == n / (a * b)
  {
    var q := n / a / b;
    assert q * b <= n / a < q * b + b;
    assert n / a * a <= n < n / a * a + a;
    MulLe(q * b, n / a, a);
    MulLe(n / a + 1, q * b + b, a);
    assert q * b * a == q * (a * b) && (q * b + b) * a == q * (a * b) + a * b;
    DivUnique(n, a * b, q);
  }

  lemma TagIsAscii()
    ensures |DOMAIN_TAG| == 23 && forall i | 0 <= i < 23 :: DOMAIN_TAG[i] == "STELLARAGENT-VOUCHER-V1"[i] as int
  {}

  lemma FieldDigits(s: Bytes, at: nat, width: nat, n: nat)
    requires at + width <= |s| && s[at..at + width] == BigEndian(n, width)
    ensures DigitsAt(s, at, width, n)
  {
    hide BigEndian, Digit;
    forall i | at <= i < at + width
      ensures s[i] == Digit(n, width, i - at)
    {
      DigitsOf(n, width, i - at);
      assert s[at..at + width][i - at] == s[i];
    }
  }

  lemma EncodeHasTheLayout(env: Env, channel: u64, recipient: Address, sequence: u64, amount: i128)
    ensures IsPreimage(env, channel, recipient, sequence, amount, Encode(ClaimOf(env, channel, recipient, sequence, amount)))
  {
    var c := ClaimOf(env, channel, recipient, sequence, amount);
    var s := Encode(c);
    FieldsAreInPlace(c);
    TagIsAscii();
    hide BigEndian, Encode, DigitsAt;
    FieldDigits(s, 119, 8, channel);
    FieldDigits(s, 127, 8, sequence);
    FieldDigits(s, 135, 16, TwosComplement(amount));
    forall i | 0 <= i < 23
      ensures s[i] == DOMAIN_TAG[i]
    {
      assert s[..23][i] == s[i];
    }
  }

  /** The encoding has exactly this layout, and nothing else has it. */
  lemma EncodeIsThePreimage(env: Env, channel: u64, recipient: Address, sequence: u64, amount: i128, bytes: Bytes)
    ensures IsPreimage(env, channel, recipient, sequence, amount, bytes)
            <==> bytes == Encode(ClaimOf(env, channel, recipient, sequence, amount))
  {
    hide Encode, Digit;
    EncodeHasTheLayout(env, channel, recipient, sequence, amount);
    var s := Encode(ClaimOf(env, channel, recipient, sequence, amount));
    if IsPreimage(env, channel, recipient, sequence, amount, bytes) {
      forall i | 0 <= i < 151
        ensures bytes[i] == s[i]
      {
        if 23 <= i < 55 { assert bytes[23..55][i - 23] == s[23..55][i - 23]; }
        if 55 <= i < 87 { assert bytes[55..87][i - 55] == s[55..87][i - 55]; }
        if 87 <= i < 119 { assert bytes[87..119][i - 87] == s[87..119][i - 87]; }
      }
    }
  }

  /** A signature made for one voucher is a signature for no other: equal
      preimages mean the same network, contract digest, recipient digest,
      channel, sequence and amount. */
  lemma PreimageInjective(a: Env, b: Env, channelA: u64, channelB: u64, recipientA: Address, recipientB: Address,
                          sequenceA: u64, sequenceB: u64, amountA: i128, amountB: i128)
    requires Encode(ClaimOf(a, channelA, recipientA, sequenceA, amountA))
          == Encode(ClaimOf(b, channelB, recipientB, sequenceB, amountB))
    ensures a.network == b.network && a.digest(a.self) == b.digest(b.self)
    ensures a.digest(recipientA) == b.digest(recipientB)
    ensures channelA == channelB && sequenceA == sequenceB && amountA == amountB
  {
    DecodeInvertsEncode(ClaimOf(a, channelA, recipientA, sequenceA, amountA));
    DecodeInvertsEncode(ClaimOf(b, channelB, recipientB, sequenceB, amountB));
  }

  /** Builds the preimage by appending to one buffer. */
  method Preimage(env: Env, channel: u64, recipient: Address, sequence: u64, amount: i128) returns (bytes: Bytes)
    ensures |bytes| == PREIMAGE_LEN
    ensures Decode(bytes) == Some(ClaimOf(env, channel, recipient, sequence, amount))
    ensures bytes == Encode(ClaimOf(env, channel, recipient, sequence, amount))
    ensures IsPreimage(env, channel, recipient, sequence, amount, bytes)
  {
    bytes := [];
    bytes := bytes + DOMAIN_TAG;
    bytes := bytes + env.network;
    bytes := bytes + env.digest(env.self);
    bytes := bytes + env.digest(recipient);
    bytes := bytes + BigEndian(channel, 8);
    bytes := bytes + BigEndian(sequence, 8);
    bytes := bytes + BigEndian(TwosComplement(amount), 16);
    assert bytes == Encode(ClaimOf(env, channel, recipient, sequence, amount));
    EncodeIsThePreimage(env, channel, recipient, sequence, amount, bytes);
    DecodeInvertsEncode(ClaimOf(env, channel, recipient, sequence, amount));
  }

  /** Whether `candidate` replaces `best`: strictly larger, whatever the sequence numbers. */
  predicate Supersedes(candidate: int, best: int) {
    candidate > best
  }
}
