/** The compile-time string hash of Hash.hpp: a polynomial hash over the
 *  string's chars, `hash = 31u * hash + c` in 32-bit unsigned arithmetic,
 *  started at `HashOffset`, with a resumable `ContinueHash`. */
module Hash {

  /** HashedName is std::uint32_t. */
  newtype HashedName = x: int | 0 <= x < 0x1_0000_0000

  /** A C++ `char`, signed 8-bit on the targets the library is built for. */
  newtype Char = x: int | -128 <= x < 128

  const Modulus: int := 0x1_0000_0000

  const HashOffset: HashedName := 4294967291

  /** One step of the loop body `hash = 31u * hash + str[i]`: the char is
   *  promoted to int and converted to unsigned, so a negative char adds
   *  `c + 2^32`; everything wraps modulo 2^32. */
  function Step(hash: HashedName, c: Char): HashedName {
    ((31 * hash as int + c as int) % Modulus) as HashedName
  }

  /** The hash of `s` resumed from `hash`: the left fold of Step. */
  function Fold(hash: HashedName, s: seq<Char>): HashedName
    decreases |s|
  {
    if s == [] then hash else Fold(Step(hash, s[0]), s[1..])
  }

  /** Composition: hashing `s + t` is hashing `t` resumed from the hash of `s`. */
  lemma {:induction false} FoldAppend(hash: HashedName, s: seq<Char>, t: seq<Char>)
    ensures Fold(hash, s + t) == Fold(Fold(hash, s), t)
    decreases |s|
  {
    if s == [] {
      assert s + t == t;
    } else {
      assert (s + t)[0] == s[0];
      assert (s + t)[1..] == s[1..] + t;
      FoldAppend(Step(hash, s[0]), s[1..], t);
    }
  }

  /** Hashing one more char is one more Step. */
  lemma FoldSnoc(hash: HashedName, s: seq<Char>, c: Char)
    ensures Fold(hash, s + [c]) == Step(Fold(hash, s), c)
  {
    FoldAppend(hash, s, [c]);
  }

  /** `Hash(str, len)`: the loop over the first `len` chars, from HashOffset. */
  method HashString(str: seq<Char>, len: nat) returns (hash: HashedName)
    requires len <= |str|
    ensures hash == Fold(HashOffset, str[..len])
    ensures len == 0 ==> hash == HashOffset
  {
    hash := HashOffset;
    var i := 0;
    while i < len
      invariant 0 <= i <= len
      invariant hash == Fold(HashOffset, str[..i])
    {
      assert str[..i + 1] == str[..i] + [str[i]];
      FoldSnoc(HashOffset, str[..i], str[i]);
      hash := Step(hash, str[i]);
      i := i + 1;
    }
  }

  /** `Hash(char)`: the single expression `31u * HashOffset + c`. */
  function HashChar(c: Char): (r: HashedName)
    ensures r == Fold(HashOffset, [c])
  {
    ((31 * HashOffset as int + c as int) % Modulus) as HashedName
  }

  /** `Hash(string_view)`: `Hash(view.data(), view.length())`. */
  method HashView(view: seq<Char>) returns (hash: HashedName)
    ensures hash == Fold(HashOffset, view)
  {
    hash := HashString(view, |view|);
    assert view[..|view|] == view;
  }

  /** `ContinueHash(hash, str, len)`: the same loop, resumed from `hash`. */
  method ContinueHashString(hash: HashedName, str: seq<Char>, len: nat) returns (r: HashedName)
    requires len <= |str|
    ensures r == Fold(hash, str[..len])
    ensures len == 0 ==> r == hash
  {
    r := hash;
    var i := 0;
    while i < len
      invariant 0 <= i <= len
      invariant r == Fold(hash, str[..i])
    {
      assert str[..i + 1] == str[..i] + [str[i]];
      FoldSnoc(hash, str[..i], str[i]);
      r := Step(r, str[i]);
      i := i + 1;
    }
  }

  /** `ContinueHash(hash, char)`: the single expression `31u * hash + c`. */
  function ContinueHashChar(hash: HashedName, c: Char): (r: HashedName)
    ensures r == Fold(hash, [c])
  {
    ((31 * hash as int + c as int) % Modulus) as HashedName
  }

  /** `ContinueHash(hash, string_view)`. */
  method ContinueHashView(hash: HashedName, view: seq<Char>) returns (r: HashedName)
    ensures r == Fold(hash, view)
  {
    r := ContinueHashString(hash, view, |view|);
    assert view[..|view|] == view;
  }

  /** The `""_hash == HashOffset` static assertion, through the literal
   *  operator `operator ""_hash(str, len) = Hash(str, len)`. */
  method EmptyLiteralHash() returns (hash: HashedName)
    ensures hash == HashOffset
  {
    hash := HashString([], 0);
  }

  /** The chars '1', '2', '3', '4'. */
  const Digits1234: seq<Char> := [49, 50, 51, 52]

  /** The static assertion
   *  `Hash("1234") == ContinueHash(ContinueHash(Hash('1'), "2"), "34")`. */
  lemma {:induction false} Hash1234Composes()
    ensures Fold(HashOffset, Digits1234)
         == Fold(Fold(HashChar(49), [50]), [51, 52])
  {
    assert Digits1234 == [49] + [50] + [51, 52];
    FoldAppend(HashOffset, [49] + [50], [51, 52]);
    FoldAppend(HashOffset, [49], [50]);
  }

  /** 31 to the power n. */
  function Pow31(n: nat): (r: nat)
    ensures r > 0
  {
    if n == 0 then 1 else 31 * Pow31(n - 1)
  }

  /** The polynomial value of a string, `sum of c_i * 31^(n-1-i)`, over the integers. */
  function Poly(s: seq<Char>): int
    decreases |s|
  {
    if s == [] then 0 else Poly(s[..|s| - 1]) * 31 + s[|s| - 1] as int
  }

  /** Reducing modulo 2^32 before or after one step gives the same value. */
  lemma ModStep(x: int, c: int)
    ensures (31 * (x % Modulus) + c) % Modulus == (31 * x + c) % Modulus
  {
    var q := x / Modulus;
    assert x == q * Modulus + x % Modulus;
    assert 31 * x + c == (31 * q) * Modulus + (31 * (x % Modulus) + c);
    MultiplesVanish(31 * q, 31 * (x % Modulus) + c);
  }

  lemma MultiplesVanish(k: int, b: int)
    ensures (k * Modulus + b) % Modulus == b % Modulus
  {
    var r := b % Modulus;
    var d := b / Modulus;
    assert b == d * Modulus + r;
    assert k * Modulus + b == (k + d) * Modulus + r;
  }

  lemma Distribute(h: int, p: int, q: int, c: int)
    ensures 31 * (h * p + q) + c == h * (31 * p) + (q * 31 + c)
  {
  }

  /** The loop computes the polynomial hash
   *  `(hash * 31^n + sum of c_i * 31^(n-1-i)) mod 2^32`. */
  lemma {:induction false} FoldIsPolynomial(hash: HashedName, s: seq<Char>)
    ensures Fold(hash, s) as int == (hash as int * Pow31(|s|) + Poly(s)) % Modulus
    decreases |s|
  {
    if s == [] {
      assert (hash as int * 1 + 0) % Modulus == hash as int;
    } else {
      var p, c := s[..|s| - 1], s[|s| - 1];
      assert s == p + [c];
      FoldSnoc(hash, p, c);
      FoldIsPolynomial(hash, p);
      var x := hash as int * Pow31(|p|) + Poly(p);
      var f := Fold(hash, p) as int;
      assert f == x % Modulus;
      assert Fold(hash, s) as int == (31 * f + c as int) % Modulus;
      ModStep(x, c as int);
      assert Pow31(|s|) == 31 * Pow31(|p|);
      assert s[..|s| - 1] == p;
      assert Poly(s) == Poly(p) * 31 + c as int;
      Distribute(hash as int, Pow31(|p|), Poly(p), c as int);
    }
  }
}
