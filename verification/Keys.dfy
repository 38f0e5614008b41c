/** persistence/db/db.go: uint64 identifiers as 8-byte big-endian Bolt keys. */
module Keys {
  import opened Bytes

  const TWO_TO_64 := 0x1_0000_0000_0000_0000
  const MAX_UINT64 := TWO_TO_64 - 1

  type uint64 = n: int | 0 <= n < TWO_TO_64

  function Pow256(w: nat): (p: nat)
    ensures p > 0
  {
    if w == 0 then 1 else 256 * Pow256(w - 1)
  }

  /** The last w bytes of n, most significant first. */
  function BigEndian(n: nat, w: nat): (b: Text)
    ensures |b| == w
  {
    if w == 0 then [] else BigEndian(n / 256, w - 1) + [(n % 256) as byte]
  }

  function FromBigEndian(b: Text): nat {
    if b == [] then 0 else 256 * FromBigEndian(b[..|b| - 1]) + b[|b| - 1] as int
  }

  /** binary.BigEndian.PutUint64: byte i is id shifted right by 56 - 8*i bits. */
  function IDToBytes(id: uint64): (b: Text)
    ensures |b| == 8
  {
    seq(8, i requires 0 <= i < 8 => ((id / Pow256(7 - i)) % 256) as byte)
  }

  /** Reads the first eight bytes; the original panics on fewer. */
  function IDFromBytes(key: Text): uint64
    requires |key| >= 8
  {
    FromBigEndianBound(key[..8]);
    FromBigEndian(key[..8])
  }

  lemma {:induction false} FromBigEndianBound(b: Text)
    ensures FromBigEndian(b) < Pow256(|b|)
    ensures |b| == 8 ==> FromBigEndian(b) < TWO_TO_64
  {
    if b != [] {
      FromBigEndianBound(b[..|b| - 1]);
    }
    Pow256Of8();
  }

  lemma ByteSplit(n: nat, p: nat)
    requires n < 256 * p
    ensures n / 256 < p && n == (n / 256) * 256 + n % 256 && 0 <= n % 256 < 256
  {
  }

  lemma DecodeSnoc(b: Text, c: byte)
    ensures FromBigEndian(b + [c]) == FromBigEndian(b) * 256 + c as int
  {
    assert (b + [c])[..|b|] == b;
  }

  lemma {:induction false} DecodeEncode(n: nat, w: nat)
    requires n < Pow256(w)
    ensures FromBigEndian(BigEndian(n, w)) == n
  {
    if w > 0 {
      ByteSplit(n, Pow256(w - 1));
      hide FromBigEndian;
      DecodeEncode(n / 256, w - 1);
      DecodeSnoc(BigEndian(n / 256, w - 1), (n % 256) as byte);
    } else {
      assert BigEndian(n, 0) == [];
    }
  }

  lemma {:induction false} EncodeDecode(b: Text)
    ensures BigEndian(FromBigEndian(b), |b|) == b
  {
    if b != [] {
      EncodeDecode(b[..|b| - 1]);
      assert b == b[..|b| - 1] + [b[|b| - 1]];
    }
  }

  /** Byte order on keys is numeric order on the numbers, at every width. */
  lemma {:induction false} BigEndianOrder(m: nat, n: nat, w: nat)
    requires m < Pow256(w) && n < Pow256(w)
    ensures Less(BigEndian(m, w), BigEndian(n, w)) <==> m < n
  {
    if w > 0 {
      var a, b := BigEndian(m / 256, w - 1), BigEndian(n / 256, w - 1);
      BigEndianOrder(m / 256, n / 256, w - 1);
      LessSnoc(a, (m % 256) as byte, b, (n % 256) as byte);
      if a == b {
        DecodeEncode(m / 256, w - 1);
        DecodeEncode(n / 256, w - 1);
      }
    }
  }

  lemma {:induction false} BigEndianAt(n: nat, w: nat, i: nat)
    requires i < w
    ensures BigEndian(n, w)[i] as int == (n / Pow256(w - 1 - i)) % 256
  {
    if i == w - 1 {
      assert Pow256(0) == 1;
    } else {
      BigEndianAt(n / 256, w - 1, i);
      var p := Pow256(w - 2 - i);
      assert Pow256(w - 1 - i) == 256 * p;
      DivDiv(n, 256, p);
    }
  }

  lemma DivDiv(n: nat, a: nat, b: nat)
    requires a > 0 && b > 0
    ensures a * b > 0 && n / (a * b) == n / a / b
  {
    var m, s := n / a, n % a;
    DivisionSplit(n, a);
    DivisionSplit(m, b);
    var q, r := m / b, m % b;
    DigitsBelow(a, b, r, s);
    Regroup(q, b, r, a);
    QuotientUnique(n, a * b, q, r * a + s);
  }

  lemma DivisionSplit(n: nat, d: nat)
    requires d > 0
    ensures n == (n / d) * d + n % d && 0 <= n % d < d
  {
  }

  lemma DigitsBelow(a: nat, b: nat, r: nat, s: nat)
    requires r < b && s < a
    ensures 0 <= r * a + s < a * b
  {
    assert r * a <= (b - 1) * a;
    assert (b - 1) * a == a * b - a;
  }

  lemma Regroup(q: nat, b: nat, r: nat, a: nat)
    ensures (q * b + r) * a == q * (a * b) + r * a
  {
    assert (q * b) * a == q * (b * a);
  }

  lemma QuotientUnique(n: int, d: int, q: int, r: int)
    requires d > 0 && 0 <= r < d && n == q * d + r
    ensures n / d == q
  {
    var e := n / d - q;
    assert n == (n / d) * d + n % d;
    assert e * d == r - n % d;
    MultipleGrows(e, d);
  }

  lemma MultipleGrows(e: int, d: int)
    requires d > 0
    ensures e >= 1 ==> e * d >= d
    ensures e <= -1 ==> e * d <= -d
  {
  }

  lemma IDToBytesIsBigEndian(id: uint64)
    ensures IDToBytes(id) == BigEndian(id, 8)
  {
    forall i | 0 <= i < 8 ensures IDToBytes(id)[i] == BigEndian(id, 8)[i] {
      BigEndianAt(id, 8, i);
    }
  }

  lemma Pow256Of8()
    ensures Pow256(8) == TWO_TO_64
  {
    assert Pow256(4) == 0x1_0000_0000;
  }

  /** The encoding is a bijection between uint64 and the 8-byte keys. */
  lemma IDRoundTrip(id: uint64)
    ensures IDFromBytes(IDToBytes(id)) == id
  {
    Pow256Of8();
    IDToBytesIsBigEndian(id);
    DecodeEncode(id, 8);
    assert IDToBytes(id)[..8] == IDToBytes(id);
  }

  lemma KeyRoundTrip(key: Text)
    requires |key| == 8
    ensures IDToBytes(IDFromBytes(key)) == key
  {
    assert key[..8] == key;
    EncodeDecode(key);
    IDToBytesIsBigEndian(IDFromBytes(key));
  }

  /** The encoding keeps the order, so that a cursor visits identifiers in numeric order. */
  lemma IDOrder(a: uint64, b: uint64)
    ensures Less(IDToBytes(a), IDToBytes(b)) <==> a < b
  {
    Pow256Of8();
    IDToBytesIsBigEndian(a);
    IDToBytesIsBigEndian(b);
    BigEndianOrder(a, b, 8);
  }

  lemma IDsApart()
    ensures forall i: uint64, j: uint64 :: IDToBytes(i) == IDToBytes(j) ==> i == j
  {
    forall i: uint64, j: uint64 | IDToBytes(i) == IDToBytes(j) ensures i == j {
      IDRoundTrip(i);
      IDRoundTrip(j);
    }
  }
}
