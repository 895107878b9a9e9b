/** The byte string a certificate pair is identified by (tls.go). */
module TlsKey {
  type Bytes = seq<int>

  const WORD: int := 0x1_0000_0000_0000_0000

  /** The last `n` base-256 digits of `v`, most significant first. */
  function Digits(v: nat, n: nat): (r: Bytes)
    ensures |r| == n
  {
    if n == 0 then [] else Digits(v / 256, n - 1) + [v % 256]
  }

  function Value(b: Bytes): int {
    if b == [] then 0 else 256 * Value(b[..|b| - 1]) + b[|b| - 1]
  }

  function Pow256(n: nat): nat {
    if n == 0 then 1 else 256 * Pow256(n - 1)
  }

  lemma {:induction false} ValueOfDigits(v: nat, n: nat)
    requires v < Pow256(n)
    ensures Value(Digits(v, n)) == v
  {
    if n > 0 {
      ValueOfDigits(v / 256, n - 1);
      assert Digits(v, n)[..n - 1] == Digits(v / 256, n - 1);
    }
  }

  function Length(v: nat): Bytes {
    Digits(v, 8)
  }

  /** The shifts of the source write exactly the eight digits. */
  method PutUint64BE(dst: array<int>, v: nat)
    requires dst.Length >= 8 && v < WORD
    modifies dst
    ensures dst[..8] == Length(v)
    ensures dst[8..] == old(dst[8..])
  {
    dst[0] := v / 0x100_0000_0000_0000 % 256;
    dst[1] := v / 0x1_0000_0000_0000 % 256;
    dst[2] := v / 0x100_0000_0000 % 256;
    dst[3] := v / 0x1_0000_0000 % 256;
    dst[4] := v / 0x100_0000 % 256;
    dst[5] := v / 0x1_0000 % 256;
    dst[6] := v / 0x100 % 256;
    dst[7] := v % 256;
    ShiftsAreDigits(v);
  }

  /** Four digits, and the number left in front of them. */
  lemma FourDigits(v: nat, n: nat)
    requires n >= 4
    ensures Digits(v, n) == Digits(v / 0x1_0000_0000, n - 4) + [v / 0x100_0000 % 256, v / 0x1_0000 % 256, v / 0x100 % 256, v % 256]
  {
    var v1 := v / 256;
    var v2 := v1 / 256;
    var v3 := v2 / 256;
    assert v2 == v / 0x1_0000 && v3 == v / 0x100_0000 && v3 / 256 == v / 0x1_0000_0000;
    assert Digits(v2, n - 2) == Digits(v3 / 256, n - 4) + [v3 % 256] + [v2 % 256];
    assert Digits(v, n) == Digits(v2, n - 2) + [v1 % 256] + [v % 256];
  }

  lemma ShiftsAreDigits(v: nat)
    ensures Length(v) == [v / 0x100_0000_0000_0000 % 256, v / 0x1_0000_0000_0000 % 256, v / 0x100_0000_0000 % 256,
                          v / 0x1_0000_0000 % 256, v / 0x100_0000 % 256, v / 0x1_0000 % 256, v / 0x100 % 256, v % 256]
  {
    var w := v / 0x1_0000_0000;
    FourDigits(v, 8);
    FourDigits(w, 4);
    assert w / 0x100_0000 == v / 0x100_0000_0000_0000;
    assert w / 0x1_0000 == v / 0x1_0000_0000_0000;
    assert w / 0x100 == v / 0x100_0000_0000;
  }

  /** What ckpairKey hashes. */
  function Encode(cert: Bytes, key: Bytes): Bytes {
    Length(|cert|) + cert + Length(|key|) + key
  }

  lemma LengthInjective(m: nat, n: nat)
    requires m < WORD && n < WORD && Length(m) == Length(n)
    ensures m == n
  {
    assert Pow256(8) == WORD;
    ValueOfDigits(m, 8);
    ValueOfDigits(n, 8);
  }

  /** Different (cert, key) pairs are hashed as different byte strings, however
      the bytes are split between the two fields. */
  lemma EncodeInjective(c1: Bytes, k1: Bytes, c2: Bytes, k2: Bytes)
    requires |c1| < WORD && |c2| < WORD
    ensures Encode(c1, k1) == Encode(c2, k2) <==> c1 == c2 && k1 == k2
  {
    if Encode(c1, k1) == Encode(c2, k2) {
      var e := Encode(c1, k1);
      assert e[..8] == Length(|c1|) && e[..8] == Length(|c2|);
      LengthInjective(|c1|, |c2|);
      var n := |c1|;
      assert e[8..8 + n] == c1 && e[8..8 + n] == c2;
      assert e[16 + n..] == k1 && e[16 + n..] == k2;
    }
  }
}
