/** Raw RSA (RSAEP and RSADP of section 5.1 of RFC 8017) as the Shor add-on implements it. */
module Rsa {
  import opened Wrappers
  import opened NumberTheory

  datatype RsaError =
    | NoInverse
    | ZeroModulus
    | NegativeInput
    | InputTooLarge
    | BadParameters
    | DrawsExhausted

  datatype KeyPair = KeyPair(p: int, q: int, N: int, phi: int, e: int, d: int)

  /** modinv; Python's x % 0 raises, so a zero modulus is an error even when the gcd is 1. */
  function Modinv(a: int, m: int): Result<int, RsaError> {
    var (g, x, _) := Egcd(a, m);
    if g != 1 then Err(NoInverse)
    else if m == 0 then Err(ZeroModulus)
    else Ok(FloorMod(x, m))
  }

  /**
   modinv, for all integers: it succeeds exactly on coprime arguments with a modulus other
   than 0, and then returns the inverse among the residues that have the modulus's sign.
   */
  lemma ModinvExact(a: int, m: int)
    ensures Modinv(a, m).Ok? <==> Gcd(a, m) == 1 && m != 0
    ensures Modinv(a, m).Ok? ==> var d := Modinv(a, m).value;
                                 (if m > 0 then 0 <= d < m else m < d <= 0) && Divides(m, a * d - 1)
  {
    EgcdBezout(a, m);
    var (g, x, y) := Egcd(a, m);
    if g == 1 && m != 0 {
      InverseOffset(a, m, x, y, FloorDiv(x, m), FloorMod(x, m));
    }
  }

  /** For a positive modulus the inverse is below it, and a product congruent to 1. */
  lemma ModinvCorrect(a: int, m: int)
    requires m > 0
    ensures Modinv(a, m).Ok? <==> Gcd(a, m) == 1
    ensures Modinv(a, m).Ok? ==> 0 <= Modinv(a, m).value < m && (a * Modinv(a, m).value) % m == 1 % m
  {
    ModinvExact(a, m);
    if Modinv(a, m).Ok? {
      var k :| a * Modinv(a, m).value - 1 == m * k;
      CongOffset(1, m, k);
    }
  }

  lemma InverseOffset(a: int, m: int, x: int, y: int, k: int, d: int)
    requires a * x + m * y == 1 && x == k * m + d
    ensures a * d == 1 + m * (-(a * k) - y)
  {
    assert a * x == a * (k * m) + a * d;
    assert a * (k * m) == m * (a * k);
    assert m * (-(a * k) - y) == -(m * (a * k)) - m * y;
  }

  /** Python's pow(b, e, n): a negative exponent first inverts the base and fails when it has no inverse. */
  function PyPow(b: int, e: int, n: int): Result<int, RsaError>
    requires n > 0
  {
    if e >= 0 then Ok(ModPow(b, e, n))
    else
      match Modinv(b, n)
      case Ok(i) => Ok(ModPow(i, -e, n))
      case Err(err) => Err(err)
  }

  function Encrypt(m: int, N: int, e: int): Result<int, RsaError> {
    if m < 0 then Err(NegativeInput)
    else if m >= N then Err(InputTooLarge)
    else PyPow(m, e, N)
  }

  function Decrypt(c: int, N: int, d: int): Result<int, RsaError> {
    if c < 0 then Err(NegativeInput)
    else if c >= N then Err(InputTooLarge)
    else PyPow(c, d, N)
  }

  // ---------- What encryption computes ----------

  lemma ModTimes(b: int, x: int, n: int)
    requires n > 0
    ensures (b * (x % n)) % n == (b * x) % n
  {
    DivModUnique(x % n, n, 0, x % n);
    CongMul(b, b, x % n, x, n);
  }

  lemma ModPowNext(b: int, e: nat, n: int)
    requires n > 0
    ensures ModPow(b, 0, n) == 1 % n
    ensures ModPow(b, e + 1, n) == (b * ModPow(b, e, n)) % n
  {
    assert Pow(b, e + 1) == b * Pow(b, e);
    ModTimes(b, Pow(b, e), n);
  }

  /**
   Encryption, without naming a power: exponent 0 gives 1, and each further unit of the
   exponent multiplies by the plaintext modulo N; plaintexts outside [0, N) are refused.
   */
  lemma EncryptComputes(m: int, N: int, e: nat)
    ensures m < 0 <==> Encrypt(m, N, e) == Err(NegativeInput)
    ensures m >= 0 && m >= N <==> Encrypt(m, N, e) == Err(InputTooLarge)
    ensures 0 <= m < N ==> Encrypt(m, N, 0) == Ok(1 % N)
    ensures 0 <= m < N ==> Encrypt(m, N, e).Ok? && Encrypt(m, N, e + 1) == Ok((m * Encrypt(m, N, e).value) % N)
  {
    if 0 <= m < N {
      ModPowNext(m, e, N);
    }
  }

  /** Decryption computes the same, on ciphertexts. */
  lemma DecryptComputes(c: int, N: int, d: nat)
    ensures c < 0 <==> Decrypt(c, N, d) == Err(NegativeInput)
    ensures c >= 0 && c >= N <==> Decrypt(c, N, d) == Err(InputTooLarge)
    ensures 0 <= c < N ==> Decrypt(c, N, 0) == Ok(1 % N)
    ensures 0 <= c < N ==> Decrypt(c, N, d).Ok? && Decrypt(c, N, d + 1) == Ok((c * Decrypt(c, N, d).value) % N)
  {
    if 0 <= c < N {
      ModPowNext(c, d, N);
    }
  }

  /**
   With a negative exponent both compute the inverse of the power with the opposite one, and
   fail exactly when there is none.
   */
  lemma NegativeExponent(m: int, N: int, e: int)
    requires e > 0 && 0 <= m < N
    ensures Encrypt(m, N, -e) == Decrypt(m, N, -e)
    ensures Gcd(m, N) == 1 ==> Encrypt(m, N, -e).Ok? && Encrypt(m, N, e).Ok?
                               && (Encrypt(m, N, -e).value * Encrypt(m, N, e).value) % N == 1 % N
    ensures Gcd(m, N) != 1 ==> Encrypt(m, N, -e) == Err(NoInverse)
  {
    ModinvCorrect(m, N);
    if Gcd(m, N) == 1 {
      InversePowers(m, Modinv(m, N).value, e, N);
    }
  }

  lemma {:induction false} InversePowers(a: int, b: int, e: nat, n: int)
    requires n > 0 && (a * b) % n == 1 % n
    ensures (ModPow(b, e, n) * ModPow(a, e, n)) % n == 1 % n
  {
    var x, y := Pow(b, e), Pow(a, e);
    ModTimes(x % n, y, n);
    ModTimes(y, x, n);
    assert (x % n) * y == y * (x % n) && y * x == x * y;
    PowersMultiply(a, b, e);
    CongPow(a * b, 1, e, n);
    PowOfOne(e);
  }

  lemma {:induction false} PowersMultiply(a: int, b: int, e: nat)
    ensures Pow(b, e) * Pow(a, e) == Pow(a * b, e)
  {
    if e > 0 {
      PowersMultiply(a, b, e - 1);
      var x, y := Pow(b, e - 1), Pow(a, e - 1);
      Interchange(a, b, x, y);
    }
  }

  lemma Interchange(a: int, b: int, x: int, y: int)
    ensures (b * x) * (a * y) == (a * b) * (x * y)
  {
  }

  // ---------- Round trip ----------

  /** m^(1 + k(p-1)) = m modulo a prime p, also when p divides m. */
  lemma ExponentCyclesModPrime(p: int, m: nat, k: nat)
    requires IsPrime(p)
    ensures k * (p - 1) >= 0
    ensures Cong(Pow(m, 1 + k * (p - 1)), m, p)
  {
    PowMul(m, p - 1, k);
    assert (p - 1) * k == k * (p - 1);
    var t := Pow(m, k * (p - 1));
    assert Pow(m, 1 + k * (p - 1)) == m * t;
    if m % p == 0 {
      CongMul(m, 0, t, t, p);
    } else {
      Fermat(p, m);
      CongPow(Pow(m, p - 1), 1, k, p);
      PowOfOne(k);
      CongMul(m, m, t, 1, p);
    }
  }

  /** Chinese remainder step: divisible by two distinct primes means divisible by the product. */
  lemma DistinctPrimesDivideProduct(p: int, q: int, a: int)
    requires IsPrime(p) && IsPrime(q) && p != q && a % p == 0 && a % q == 0
    ensures p * q > 0 && a % (p * q) == 0
  {
    var k := a / p;
    assert a == p * k;
    assert p % q != 0 by { PrimeNotDividedByOther(p, q); }
    EuclidLemma(q, p, k);
    var l := k / q;
    assert k == q * l;
    assert a == (p * q) * l by { assert p * (q * l) == (p * q) * l; }
    MulAtLeast(p, q);
    MultipleModZero(p * q, l);
  }

  lemma PrimeNotDividedByOther(p: int, q: int)
    requires IsPrime(p) && IsPrime(q) && p != q
    ensures p % q != 0
  {
    if p < q {
      assert p % q == p by { DivModUnique(p, q, 0, p); }
    }
  }

  lemma CongProduct(p: int, q: int, a: int, b: int)
    requires IsPrime(p) && IsPrime(q) && p != q && Cong(a, b, p) && Cong(a, b, q)
    ensures p * q > 0 && Cong(a, b, p * q)
  {
    CongIffDivides(a, b, p);
    CongIffDivides(a, b, q);
    DistinctPrimesDivideProduct(p, q, a - b);
    CongIffDivides(a, b, p * q);
  }

  /** If e*d = 1 modulo phi then raising to e*d fixes every residue of N, coprime or not. */
  lemma ExponentsInvert(p: int, q: int, e: nat, d: nat, m: nat)
    requires IsPrime(p) && IsPrime(q) && p != q
    requires (p - 1) * (q - 1) > 1 && (e * d) % ((p - 1) * (q - 1)) == 1
    ensures e * d >= 0 && p * q > 0 && Cong(Pow(m, e * d), m, p * q)
  {
    var phi := (p - 1) * (q - 1);
    MulNonNegative(e, d);
    QuotientExponents(p - 1, q - 1, e * d);
    var k := (e * d) / phi;
    ExponentCyclesModPrime(p, m, k * (q - 1));
    ExponentCyclesModPrime(q, m, k * (p - 1));
    CongProduct(p, q, Pow(m, e * d), m);
  }

  lemma MulNonNegative(a: int, b: int)
    requires a >= 0 && b >= 0
    ensures a * b >= 0
  {
  }

  /** n = 1 modulo a*b makes n one more than a multiple of a, and of b. */
  lemma QuotientExponents(a: int, b: int, n: int)
    requires a > 0 && b > 0 && a * b > 1 && n >= 0 && n % (a * b) == 1
    ensures var k := n / (a * b);
            && k * b >= 0 && n == 1 + (k * b) * a
            && k * a >= 0 && n == 1 + (k * a) * b
  {
    var c := a * b;
    var k := n / c;
    assert n == c * k + 1;
    if k < 0 {
      MulAtLeast(c, -k);
    }
    MulNonNegative(k, a);
    MulNonNegative(k, b);
    assert c * k == (k * b) * a by { Reorder(a, b, k); }
    assert c * k == (k * a) * b by { Reorder(a, b, k); }
  }

  lemma Reorder(a: int, b: int, k: int)
    ensures (a * b) * k == (k * b) * a && (a * b) * k == (k * a) * b
  {
  }

  lemma PhiAtLeastTwo(p: int, q: int)
    requires IsPrime(p) && IsPrime(q) && p != q
    ensures (p - 1) * (q - 1) >= 2
  {
    if p == 2 {
      assert (p - 1) * (q - 1) == q - 1;
    } else {
      assert (p - 1) * (q - 1) == (p - 2) * (q - 1) + (q - 1);
      MulAtLeast(p - 2, q - 1);
    }
  }

  /**
   RSA round trip: for distinct primes p and q, every public exponent coprime to phi
   and every plaintext below N = p*q (including those sharing a factor with N),
   decrypting with modinv(e, phi) what was encrypted with e gives the plaintext back.
   */
  lemma RoundTrip(p: int, q: int, e: int, m: int)
    requires IsPrime(p) && IsPrime(q) && p != q
    requires e >= 1 && Gcd(e, (p - 1) * (q - 1)) == 1
    requires 0 <= m < p * q
    ensures Encrypt(m, p * q, e).Ok? && Modinv(e, (p - 1) * (q - 1)).Ok?
    ensures Decrypt(Encrypt(m, p * q, e).value, p * q, Modinv(e, (p - 1) * (q - 1)).value) == Ok(m)
  {
    var N, phi := p * q, (p - 1) * (q - 1);
    PhiAtLeastTwo(p, q);
    InverseAbove(e, phi);
    var d := Modinv(e, phi).value;
    ExponentsInvert(p, q, e, d, m);
    DecryptUndoes(N, e, d, m);
  }

  lemma InverseAbove(e: int, phi: int)
    requires phi >= 2 && e >= 1 && Gcd(e, phi) == 1
    ensures Modinv(e, phi).Ok? && Modinv(e, phi).value >= 0
    ensures e * Modinv(e, phi).value >= 0 && (e * Modinv(e, phi).value) % phi == 1
  {
    ModinvCorrect(e, phi);
    assert 1 % phi == 1 by { DivModUnique(1, phi, 0, 1); }
    MulNonNegative(e, Modinv(e, phi).value);
  }

  /** Raising to e and then to d is raising to e*d. */
  lemma DecryptUndoes(N: int, e: nat, d: nat, m: nat)
    requires 0 <= m < N && e * d >= 0 && Cong(Pow(m, e * d), m, N)
    ensures Encrypt(m, N, e).Ok? && Decrypt(Encrypt(m, N, e).value, N, d) == Ok(m)
  {
    var c := Encrypt(m, N, e).value;
    assert c == Pow(m, e) % N;
    ModPowCong(c, Pow(m, e), d, N) by { DivModUnique(c, N, 0, c); }
    PowMul(m, e, d);
    DivModUnique(m, N, 0, m);
  }

  ghost predicate WellFormedKey(k: KeyPair) {
    && k.p != k.q
    && k.N == k.p * k.q
    && k.phi == (k.p - 1) * (k.q - 1)
    && k.e > 1
    && Gcd(k.e, k.phi) == 1
    && Modinv(k.e, k.phi) == Ok(k.d)
  }

  /**
   generate_rsa_keypair with the pairs of generated primes as input, in draw order.
   The key comes from the first acceptable pair; the original keeps drawing when none is.
   */
  method GenerateKeypair(primeBits: int, e: int, draws: seq<(int, int)>) returns (r: Result<KeyPair, RsaError>)
    requires forall i :: 0 <= i < |draws| ==> draws[i].0 >= 2 && draws[i].1 >= 2
    ensures (primeBits < 4 || e <= 1) <==> r == Err(BadParameters)
    ensures r.Ok? ==> WellFormedKey(r.value) && r.value.e == e
    ensures r.Ok? ==> exists i :: 0 <= i < |draws| && draws[i] == (r.value.p, r.value.q)
                                  && forall j :: 0 <= j < i ==> !Acceptable(draws[j], e)
    ensures r == Err(DrawsExhausted) <==>
              primeBits >= 4 && e > 1
              && forall j :: 0 <= j < |draws| ==>
                   draws[j].0 == draws[j].1 || Gcd(e, (draws[j].0 - 1) * (draws[j].1 - 1)) != 1
    ensures r.Err? ==> r.error == BadParameters || r.error == DrawsExhausted
  {
    if primeBits < 4 || e <= 1 {
      return Err(BadParameters);
    }
    var i := 0;
    while i < |draws|
      invariant 0 <= i <= |draws|
      invariant forall j :: 0 <= j < i ==> !Acceptable(draws[j], e)
    {
      var (p, q) := draws[i];
      var phi := (p - 1) * (q - 1);
      MulAtLeast(p - 1, q - 1);
      if p != q && Egcd(e, phi).0 == 1 {
        ModinvCorrect(e, phi);
        assert draws[i] == (p, q);
        return Ok(KeyPair(p, q, p * q, phi, e, Modinv(e, phi).value));
      }
      i := i + 1;
    }
    return Err(DrawsExhausted);
  }

  /** Distinct primes whose phi is coprime to e. */
  predicate Acceptable(draw: (int, int), e: int) {
    draw.0 != draw.1 && Egcd(e, (draw.0 - 1) * (draw.1 - 1)).0 == 1
  }

  /** Every key built from real primes decrypts what it encrypts. */
  lemma KeyRoundTrip(k: KeyPair, m: int)
    requires WellFormedKey(k) && IsPrime(k.p) && IsPrime(k.q) && 0 <= m < k.N
    ensures Encrypt(m, k.N, k.e).Ok?
    ensures Decrypt(Encrypt(m, k.N, k.e).value, k.N, k.d) == Ok(m)
  {
    RoundTrip(k.p, k.q, k.e, m);
  }

  /** Encryption is injective on [0, N), so no two plaintexts share a ciphertext. */
  lemma EncryptInjective(p: int, q: int, e: int, m1: int, m2: int)
    requires IsPrime(p) && IsPrime(q) && p != q
    requires e >= 1 && Gcd(e, (p - 1) * (q - 1)) == 1
    requires 0 <= m1 < p * q && 0 <= m2 < p * q
    requires Encrypt(m1, p * q, e) == Encrypt(m2, p * q, e)
    ensures m1 == m2
  {
    RoundTrip(p, q, e, m1);
    RoundTrip(p, q, e, m2);
  }
}
