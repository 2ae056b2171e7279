/** The bytes a simulated transaction id is hashed from: the string
    `format!("{}::{}", block_height, vtxindex)`, whose UTF-8 encoding is the
    ASCII decimal digits of the height, two colons, and the ASCII decimal
    digits of the index. */
module TxidDerivation {

  import opened Hashes

  const Colon: byte := 0x3A
  const Separator: Bytes := [Colon, Colon]

  predicate IsDigit(b: byte) {
    0x30 <= b <= 0x39
  }

  predicate AllDigits(s: Bytes) {
    forall i | 0 <= i < |s| :: IsDigit(s[i])
  }

  /** The decimal rendering of `n` as Rust's `{}` formats an unsigned
      integer: most significant digit first, no leading zeros, "0" for 0. */
  function DecimalDigits(n: nat): (r: Bytes)
    ensures |r| >= 1 && AllDigits(r)
    ensures r[0] == 0x30 ==> r == [0x30]
    decreases n
  {
    if n < 10 then [(0x30 + n) as byte]
    else DecimalDigits(n / 10) + [(0x30 + n % 10) as byte]
  }

  /** The number a string of decimal digits denotes. */
  function DecimalValue(s: Bytes): nat
    requires AllDigits(s)
  {
    if s == [] then 0
    else DecimalValue(s[..|s| - 1]) * 10 + (s[|s| - 1] as int - 0x30)
  }

  /** Reading back a rendered number gives the number. */
  lemma {:induction false} DecimalRoundTrip(n: nat)
    ensures DecimalValue(DecimalDigits(n)) == n
    decreases n
  {
    var r := DecimalDigits(n);
    if n >= 10 {
      DecimalRoundTrip(n / 10);
      assert r[..|r| - 1] == DecimalDigits(n / 10);
    } else {
      assert r[..|r| - 1] == [];
    }
  }

  /** Distinct numbers render to distinct strings. */
  lemma DecimalDigitsInjective(m: nat, n: nat)
    ensures DecimalDigits(m) == DecimalDigits(n) <==> m == n
  {
    if DecimalDigits(m) == DecimalDigits(n) {
      DecimalRoundTrip(m);
      DecimalRoundTrip(n);
    }
  }

  /** The preimage of the txid of the operation at position `vtxindex` of
      the block at height `blockHeight`. */
  function TxidPreimage(blockHeight: nat, vtxindex: nat): Bytes {
    DecimalDigits(blockHeight) + Separator + DecimalDigits(vtxindex)
  }

  /** `Txid(Sha256Sum::from_data(format!("{}::{}", height, vtxindex).as_bytes()).0)`. */
  function TxidFor(sha256: Sha256, blockHeight: nat, vtxindex: nat): Txid {
    Txid(sha256(TxidPreimage(blockHeight, vtxindex)))
  }

  /** Two digit strings joined by "::" can be split back apart: the
      separator is found at the first colon. */
  lemma {:induction false} SplitAtSeparator(a: Bytes, b: Bytes, c: Bytes, d: Bytes)
    requires AllDigits(a) && AllDigits(c)
    requires a + Separator + b == c + Separator + d
    ensures a == c && b == d
  {
    var s := a + Separator + b;
    assert |a| == |c| by {
      assert forall i | 0 <= i < |a| :: s[i] == a[i] && s[i] != Colon;
      assert forall i | 0 <= i < |c| :: s[i] == c[i] && s[i] != Colon;
      assert s[|a|] == Colon && s[|c|] == Colon;
    }
    assert a == s[..|a|] == c;
    assert b == s[|a| + 2..] == d;
  }

  /** The preimage determines the height and the index, and conversely:
      the "{}::{}" rendering is collision-free. */
  lemma TxidPreimageInjective(h1: nat, v1: nat, h2: nat, v2: nat)
    ensures TxidPreimage(h1, v1) == TxidPreimage(h2, v2) <==> h1 == h2 && v1 == v2
  {
    if TxidPreimage(h1, v1) == TxidPreimage(h2, v2) {
      SplitAtSeparator(DecimalDigits(h1), DecimalDigits(v1), DecimalDigits(h2), DecimalDigits(v2));
      DecimalDigitsInjective(h1, h2);
      DecimalDigitsInjective(v1, v2);
    }
  }
}
