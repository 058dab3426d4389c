/** Bytes and little-endian integers, as BinaryWriter writes them and
    BitConverter (on a little-endian host) reads them. */
module LittleEndian {
  import opened Errors

  type byte = b: int | 0 <= b < 256
  type uint32 = x: int | 0 <= x < 0x1_0000_0000

  function Pow256(n: nat): (r: nat)
    ensures r >= 1
  {
    if n == 0 then 1 else 256 * Pow256(n - 1)
  }

  /** The unsigned value whose little-endian bytes are `s`. */
  function FromLE(s: seq<byte>): (r: nat)
    ensures r < Pow256(|s|)
  {
    if |s| == 0 then 0 else s[0] + 256 * FromLE(s[1..])
  }

  /** The `n` low-order bytes of `v`, least significant first: an unsigned
      value of `n` bytes written out, wrapping modulo 256^n. */
  function ToLE(v: nat, n: nat): (r: seq<byte>)
    ensures |r| == n
  {
    if n == 0 then [] else [v % 256] + ToLE(v / 256, n - 1)
  }

  lemma DivModUnique(v: nat, m: nat, q: nat, t: nat)
    requires m > 0 && t < m && v == q * m + t
    ensures v / m == q && v % m == t
  {
    var q', t' := v / m, v % m;
    assert v == q' * m + t';
    if q' < q {
      assert q' * m + m <= q * m by { MulMono(q' + 1, q, m); }
    } else if q' > q {
      assert q * m + m <= q' * m by { MulMono(q + 1, q', m); }
    }
  }

  lemma ModSmall(v: nat, m: nat)
    requires v < m
    ensures v % m == v && v / m == 0
  {
    DivModUnique(v, m, 0, v);
  }

  lemma MulMono(a: nat, b: nat, m: nat)
    requires a <= b
    ensures a * m <= b * m
  {
  }

  /** The quotient of naturals is a natural. Stated apart from its uses, where
      the surrounding nonlinear terms make the solver lose this fact. */
  lemma DivNat(a: nat, d: nat)
    requires d > 0
    ensures a / d >= 0
  {
  }

  lemma ModSplit(v: nat, p: nat)
    requires p > 0
    ensures v % (256 * p) == v % 256 + 256 * ((v / 256) % p)
  {
    var w, r := v / 256, v % 256;
    var q, b := w / p, w % p;
    assert w == q * p + b;
    assert v == 256 * w + r;
    assert 256 * w == q * (256 * p) + 256 * b by {
      assert 256 * (q * p) == q * (256 * p);
    }
    assert 256 * b + r < 256 * p by {
      MulMono(b + 1, p, 256);
    }
    DivModUnique(v, 256 * p, q, 256 * b + r);
  }

  lemma {:induction false} FromToLE(v: nat, n: nat)
    ensures FromLE(ToLE(v, n)) == v % Pow256(n)
  {
    if n > 0 {
      var s := ToLE(v, n);
      assert s[1..] == ToLE(v / 256, n - 1);
      FromToLE(v / 256, n - 1);
      ModSplit(v, Pow256(n - 1));
    }
  }

  /** Writing a value that fits in `n` bytes and reading it back gives it unchanged. */
  lemma LEIdentity(v: nat, n: nat)
    requires v < Pow256(n)
    ensures FromLE(ToLE(v, n)) == v
  {
    FromToLE(v, n);
  }

  lemma {:induction false} ToFromLE(s: seq<byte>)
    ensures ToLE(FromLE(s), |s|) == s
  {
    if |s| > 0 {
      var v := FromLE(s);
      DivModUnique(v, 256, FromLE(s[1..]), s[0]);
      ToFromLE(s[1..]);
    }
  }

  lemma FromLE2(s: seq<byte>)
    requires |s| == 2
    ensures FromLE(s) == s[0] as int + s[1] as int * 0x100
  {
    assert s[1..][1..] == [];
  }

  lemma FromLE4(s: seq<byte>)
    requires |s| == 4
    ensures FromLE(s) == s[0] as int + s[1] as int * 0x100 + s[2] as int * 0x10000 + s[3] as int * 0x1000000
  {
    assert s[1..][1..] == s[2..];
    FromLE2(s[2..]);
    assert FromLE(s[1..]) == s[1] as int + 256 * FromLE(s[2..]);
  }

  lemma Pow256Values()
    ensures Pow256(1) == 0x100 && Pow256(2) == 0x1_0000 && Pow256(3) == 0x100_0000
    ensures Pow256(4) == 0x1_0000_0000
  {
  }

  /** BitConverter.ToUInt16(s, i): fails unless two bytes exist at `i`. */
  function U16At(s: seq<byte>, i: int): (r: Result<nat>)
    ensures r.Ok? <==> 0 <= i && i + 2 <= |s|
    ensures r.Ok? ==> r.value == FromLE(s[i..i + 2]) && r.value < 0x1_0000
  {
    Pow256Values();
    if i < 0 || i + 2 > |s| then Err(OutOfRange) else Ok(FromLE(s[i..i + 2]))
  }

  /** BitConverter.ToUInt32(s, i): fails unless four bytes exist at `i`. */
  function U32At(s: seq<byte>, i: int): (r: Result<nat>)
    ensures r.Ok? <==> 0 <= i && i + 4 <= |s|
    ensures r.Ok? ==> r.value == FromLE(s[i..i + 4]) && r.value < 0x1_0000_0000
  {
    Pow256Values();
    if i < 0 || i + 4 > |s| then Err(OutOfRange) else Ok(FromLE(s[i..i + 4]))
  }

  /** Indexing a byte array: fails outside it. */
  function ByteAt(s: seq<byte>, i: int): (r: Result<byte>)
    ensures r.Ok? <==> 0 <= i < |s|
    ensures r.Ok? ==> r.value == s[i]
  {
    if 0 <= i < |s| then Ok(s[i]) else Err(OutOfRange)
  }
}
