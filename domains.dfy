// Evaluation domains of kimchi: four radix-2 multiplicative subgroups of
// sizes n', 2n', 4n' and 8n', where n' is the requested size rounded up to
// a power of two.
//
// The field is abstracted by its two-adicity `twoAdicity` (A): the field
// holds a primitive 2^A-th root of unity w, and every radix-2 domain lives
// inside the group <w>.  An element w^e of that group is represented by its
// exponent e taken modulo 2^A, so the identity is exponent 0, squaring
// doubles the exponent and raising to the power k multiplies it by k.
module Domains {
  import opened Wrappers

  /** 2^k */
  function Pow2(k: nat): (r: nat)
    ensures r >= 1
  {
    if k == 0 then 1 else 2 * Pow2(k - 1)
  }

  lemma {:induction false} Pow2Add(a: nat, b: nat)
    ensures Pow2(a + b) == Pow2(a) * Pow2(b)
  {
    if b > 0 {
      Pow2Add(a, b - 1);
      assert Pow2(a + b) == 2 * Pow2(a + b - 1);
    }
  }

  lemma {:induction false} Pow2Monotonic(a: nat, b: nat)
    requires a < b
    ensures Pow2(a) < Pow2(b)
  {
    if a + 1 < b {
      Pow2Monotonic(a, b - 1);
    }
  }

  lemma Pow2MonotonicLe(a: nat, b: nat)
    requires a <= b
    ensures Pow2(a) <= Pow2(b)
  {
    if a < b {
      Pow2Monotonic(a, b);
    }
  }

  /** The number of bits needed to index n slots: the least k with n <= 2^k. */
  function CeilLog2(n: nat): (k: nat)
    ensures n <= Pow2(k)
    ensures k == 0 || Pow2(k - 1) < n
  {
    if n <= 1 then 0 else 1 + CeilLog2((n + 1) / 2)
  }

  lemma {:induction false} CeilLog2OfPow2(j: nat)
    ensures CeilLog2(Pow2(j)) == j
  {
    if j > 0 {
      CeilLog2OfPow2(j - 1);
      assert (Pow2(j) + 1) / 2 == Pow2(j - 1);
    }
  }

  /** CeilLog2 picks the least admissible exponent: no smaller power of two holds n. */
  lemma CeilLog2Least(n: nat, k: nat)
    requires n <= Pow2(k)
    ensures CeilLog2(n) <= k
  {
    var c := CeilLog2(n);
    if k < c {
      Pow2MonotonicLe(k, c - 1);
      assert false;
    }
  }

  /**
   * `compute_size_of_domain`: the next power of two at or above n (1 for
   * n = 0), unless that power exceeds the two-adicity of the field.
   */
  function ComputeSizeOfDomain(twoAdicity: nat, n: nat): (r: Option<nat>)
    ensures r.Some? <==> CeilLog2(n) <= twoAdicity
    ensures r.Some? ==> r.value == Pow2(CeilLog2(n)) && n <= r.value
  {
    var k := CeilLog2(n);
    if k > twoAdicity then None else Some(Pow2(k))
  }

  /** A radix-2 domain: the subgroup of order size = 2^logSize, generated by w^groupGen. */
  datatype Radix2Domain = Radix2Domain(size: nat, logSize: nat, groupGen: nat)

  /** Exponent of the chosen generator of the subgroup of order 2^k: w^(2^(A-k)), and 1 for k = 0. */
  function RootOfUnity(twoAdicity: nat, k: nat): (g: nat)
    requires k <= twoAdicity
    ensures g < Pow2(twoAdicity)
  {
    if k == 0 then 0
    else
      Pow2Monotonic(twoAdicity - k, twoAdicity);
      Pow2(twoAdicity - k)
  }

  /** Reducing a power of two no larger than 2^A modulo 2^A. */
  lemma Pow2Mod(a: nat, twoAdicity: nat)
    requires a <= twoAdicity
    ensures Pow2(a) % Pow2(twoAdicity) == if a == twoAdicity then 0 else Pow2(a)
  {
    if a < twoAdicity {
      Pow2Monotonic(a, twoAdicity);
      ModBelow(Pow2(a), Pow2(twoAdicity));
    } else {
      ModSelf(Pow2(a));
    }
  }

  lemma ModBelow(x: nat, m: nat)
    requires x < m
    ensures x % m == x
  {
  }

  lemma ModSelf(m: nat)
    requires m > 0
    ensures m % m == 0
  {
  }

  /** (w^g)^e, as an exponent. */
  function Power(twoAdicity: nat, g: nat, e: nat): (r: nat)
    ensures r < Pow2(twoAdicity)
  {
    (g * e) % Pow2(twoAdicity)
  }

  /** (w^g)^2, as an exponent. */
  function Square(twoAdicity: nat, g: nat): (r: nat)
    ensures r < Pow2(twoAdicity)
  {
    Power(twoAdicity, g, 2)
  }

  /**
   * `Radix2EvaluationDomain::new`: a domain large enough for `numCoeffs`
   * coefficients, or None when no subgroup of that order exists.
   */
  function NewDomain(twoAdicity: nat, numCoeffs: nat): (r: Option<Radix2Domain>)
    ensures r.Some? <==> ComputeSizeOfDomain(twoAdicity, numCoeffs).Some?
    ensures r.Some? ==>
      (&& r.value.size == ComputeSizeOfDomain(twoAdicity, numCoeffs).value
       && r.value.size == Pow2(r.value.logSize)
       && r.value.logSize <= twoAdicity)
  {
    match ComputeSizeOfDomain(twoAdicity, numCoeffs)
    case None => None
    case Some(size) =>
      var k := CeilLog2(numCoeffs);
      Some(Radix2Domain(size, k, RootOfUnity(twoAdicity, k)))
  }

  /** A power of two up to 2^A is a domain of exactly that size. */
  lemma NewDomainOfPow2(twoAdicity: nat, k: nat)
    ensures NewDomain(twoAdicity, Pow2(k)).Some? <==> k <= twoAdicity
    ensures k <= twoAdicity ==>
      NewDomain(twoAdicity, Pow2(k)) == Some(Radix2Domain(Pow2(k), k, RootOfUnity(twoAdicity, k)))
  {
    CeilLog2OfPow2(k);
  }

  datatype DomainCreationError =
    | DomainSizeFailed(requested: nat)
    | DomainConstructionFailed(domain: string, size: nat)

  datatype EvaluationDomains = EvaluationDomains(
    d1: Radix2Domain, d2: Radix2Domain, d4: Radix2Domain, d8: Radix2Domain)

  /** The three squaring relations `create` asserts before returning. */
  predicate SquaringChain(twoAdicity: nat, e: EvaluationDomains)
  {
    && Square(twoAdicity, e.d2.groupGen) == e.d1.groupGen
    && Square(twoAdicity, e.d4.groupGen) == e.d2.groupGen
    && Square(twoAdicity, e.d8.groupGen) == e.d4.groupGen
  }

  /** Raising the generator of order 2^k to the power 2^j gives the generator of order 2^(k-j). */
  lemma {:induction false} PowerOfRoot(twoAdicity: nat, k: nat, j: nat)
    requires j <= k <= twoAdicity
    ensures Power(twoAdicity, RootOfUnity(twoAdicity, k), Pow2(j)) == RootOfUnity(twoAdicity, k - j)
  {
    if k == 0 {
      PowerOfZero(twoAdicity, Pow2(j));
    } else {
      var a := twoAdicity - k;
      assert RootOfUnity(twoAdicity, k) == Pow2(a);
      PowerOfPow2(twoAdicity, a, j);
      Pow2Mod(a + j, twoAdicity);
      if j < k {
        assert twoAdicity - (k - j) == a + j;
      }
    }
  }

  lemma PowerOfZero(twoAdicity: nat, e: nat)
    ensures Power(twoAdicity, 0, e) == 0
  {
    var m := Pow2(twoAdicity);
    assert 0 * e == 0;
    assert 0 % m == 0;
  }

  lemma PowerOfPow2(twoAdicity: nat, a: nat, j: nat)
    ensures Power(twoAdicity, Pow2(a), Pow2(j)) == Pow2(a + j) % Pow2(twoAdicity)
  {
    Pow2Add(a, j);
  }

  lemma SmallPow2()
    ensures Pow2(1) == 2 && Pow2(2) == 4 && Pow2(3) == 8
  {
  }

  /** Squaring the generator of the order-2^(k+1) subgroup gives that of order 2^k. */
  lemma SquareRootOfUnity(twoAdicity: nat, k: nat)
    requires k + 1 <= twoAdicity
    ensures Square(twoAdicity, RootOfUnity(twoAdicity, k + 1)) == RootOfUnity(twoAdicity, k)
  {
    SmallPow2();
    PowerOfRoot(twoAdicity, k + 1, 1);
  }

  /**
   * `EvaluationDomains::create`: round n up to a domain size n', then build
   * the domains of sizes n', 2n', 4n' and 8n' in that order, stopping at the
   * first one that cannot be built; on success the squaring chain holds.
   */
  function Create(twoAdicity: nat, n: nat): (r: Result<EvaluationDomains, DomainCreationError>)
    ensures r.Ok? ==> SquaringChain(twoAdicity, r.value)
  {
    match ComputeSizeOfDomain(twoAdicity, n)
    case None => Err(DomainSizeFailed(n))
    case Some(size) =>
      match NewDomain(twoAdicity, size)
      case None => Err(DomainConstructionFailed("d1", size))
      case Some(d1) =>
        match NewDomain(twoAdicity, 2 * size)
        case None => Err(DomainConstructionFailed("d2", 2 * size))
        case Some(d2) =>
          match NewDomain(twoAdicity, 4 * size)
          case None => Err(DomainConstructionFailed("d4", 4 * size))
          case Some(d4) =>
            match NewDomain(twoAdicity, 8 * size)
            case None => Err(DomainConstructionFailed("d8", 8 * size))
            case Some(d8) =>
              var e := EvaluationDomains(d1, d2, d4, d8);
              CreateChain(twoAdicity, n, e);
              Ok(e)
  }

  /** The domains `Create` builds from a rounded size 2^k, whenever k + 3 <= A. */
  function Expected(twoAdicity: nat, k: nat): EvaluationDomains
    requires k + 3 <= twoAdicity
  {
    EvaluationDomains(
      Radix2Domain(Pow2(k), k, RootOfUnity(twoAdicity, k)),
      Radix2Domain(Pow2(k + 1), k + 1, RootOfUnity(twoAdicity, k + 1)),
      Radix2Domain(Pow2(k + 2), k + 2, RootOfUnity(twoAdicity, k + 2)),
      Radix2Domain(Pow2(k + 3), k + 3, RootOfUnity(twoAdicity, k + 3)))
  }

  lemma ScaledPow2(k: nat)
    ensures 2 * Pow2(k) == Pow2(k + 1)
    ensures 4 * Pow2(k) == Pow2(k + 2)
    ensures 8 * Pow2(k) == Pow2(k + 3)
  {
    assert Pow2(k + 2) == 2 * Pow2(k + 1);
    assert Pow2(k + 3) == 2 * Pow2(k + 2);
  }

  /** Helper for `Create`: once all four domains exist they are `Expected`, so the chain holds. */
  lemma CreateChain(twoAdicity: nat, n: nat, e: EvaluationDomains)
    requires ComputeSizeOfDomain(twoAdicity, n).Some?
    requires var size := ComputeSizeOfDomain(twoAdicity, n).value;
      && NewDomain(twoAdicity, size) == Some(e.d1)
      && NewDomain(twoAdicity, 2 * size) == Some(e.d2)
      && NewDomain(twoAdicity, 4 * size) == Some(e.d4)
      && NewDomain(twoAdicity, 8 * size) == Some(e.d8)
    ensures CeilLog2(n) + 3 <= twoAdicity && e == Expected(twoAdicity, CeilLog2(n))
    ensures SquaringChain(twoAdicity, e)
  {
    var k := CeilLog2(n);
    assert ComputeSizeOfDomain(twoAdicity, n).value == Pow2(k);
    EightfoldFits(twoAdicity, k);
    DomainsOfPow2(twoAdicity, k);
    ExpectedChain(twoAdicity, k);
  }

  lemma EightfoldFits(twoAdicity: nat, k: nat)
    requires NewDomain(twoAdicity, 8 * Pow2(k)).Some?
    ensures k + 3 <= twoAdicity
  {
    var s8 := Pow2(k + 3);
    ScaledPow2(k);
    assert NewDomain(twoAdicity, s8).Some?;
    NewDomainOfPow2(twoAdicity, k + 3);
  }

  /** The domains built from 2^k satisfy the squaring chain. */
  lemma ExpectedChain(twoAdicity: nat, k: nat)
    requires k + 3 <= twoAdicity
    ensures SquaringChain(twoAdicity, Expected(twoAdicity, k))
  {
    SquareRootOfUnity(twoAdicity, k);
    SquareRootOfUnity(twoAdicity, k + 1);
    SquareRootOfUnity(twoAdicity, k + 2);
  }

  /**
   * The outcome of `Create` for every request n, with n' = 2^k the next power
   * of two at or above n: the size error carries n itself; d1 never fails;
   * d2, d4 and d8 fail exactly when 2n', 4n' or 8n' exceeds 2^A, each
   * reported with the size that was attempted; otherwise the four domains
   * have sizes n', 2n', 4n', 8n'.
   */
  lemma CreateOutcome(twoAdicity: nat, n: nat)
    ensures var k := CeilLog2(n);
      && (k > twoAdicity ==> Create(twoAdicity, n) == Err(DomainSizeFailed(n)))
      && (k == twoAdicity ==>
            Create(twoAdicity, n) == Err(DomainConstructionFailed("d2", 2 * Pow2(k))))
      && (k + 1 == twoAdicity ==>
            Create(twoAdicity, n) == Err(DomainConstructionFailed("d4", 4 * Pow2(k))))
      && (k + 2 == twoAdicity ==>
            Create(twoAdicity, n) == Err(DomainConstructionFailed("d8", 8 * Pow2(k))))
      && (k + 3 <= twoAdicity ==> Create(twoAdicity, n) == Ok(Expected(twoAdicity, k)))
  {
    var k := CeilLog2(n);
    if k == twoAdicity {
      CreateFailsAtD2(twoAdicity, n);
    } else if k + 1 == twoAdicity {
      CreateFailsAtD4(twoAdicity, n);
    } else if k + 2 == twoAdicity {
      CreateFailsAtD8(twoAdicity, n);
    } else if k + 3 <= twoAdicity {
      CreateBuildsAll(twoAdicity, n);
    }
  }

  lemma CreateFailsAtD2(twoAdicity: nat, n: nat)
    requires CeilLog2(n) == twoAdicity
    ensures Create(twoAdicity, n) == Err(DomainConstructionFailed("d2", 2 * Pow2(CeilLog2(n))))
  {
    var k := CeilLog2(n);
    var size := Pow2(k);
    assert ComputeSizeOfDomain(twoAdicity, n) == Some(size);
    ScaledPow2(k);
    NewDomainAt(twoAdicity, size, k);
    NewDomainNoneAt(twoAdicity, 2 * size, k + 1);
  }

  lemma CreateFailsAtD4(twoAdicity: nat, n: nat)
    requires CeilLog2(n) + 1 == twoAdicity
    ensures Create(twoAdicity, n) == Err(DomainConstructionFailed("d4", 4 * Pow2(CeilLog2(n))))
  {
    var k := CeilLog2(n);
    var size := Pow2(k);
    assert ComputeSizeOfDomain(twoAdicity, n) == Some(size);
    ScaledPow2(k);
    NewDomainAt(twoAdicity, size, k);
    NewDomainAt(twoAdicity, 2 * size, k + 1);
    NewDomainNoneAt(twoAdicity, 4 * size, k + 2);
  }

  lemma CreateFailsAtD8(twoAdicity: nat, n: nat)
    requires CeilLog2(n) + 2 == twoAdicity
    ensures Create(twoAdicity, n) == Err(DomainConstructionFailed("d8", 8 * Pow2(CeilLog2(n))))
  {
    var k := CeilLog2(n);
    var size := Pow2(k);
    assert ComputeSizeOfDomain(twoAdicity, n) == Some(size);
    ScaledPow2(k);
    NewDomainAt(twoAdicity, size, k);
    NewDomainAt(twoAdicity, 2 * size, k + 1);
    NewDomainAt(twoAdicity, 4 * size, k + 2);
    NewDomainNoneAt(twoAdicity, 8 * size, k + 3);
  }

  /** The four domains built from a rounded size 2^k with k + 3 <= A. */
  lemma DomainsOfPow2(twoAdicity: nat, k: nat)
    requires k + 3 <= twoAdicity
    ensures var e := Expected(twoAdicity, k);
      && NewDomain(twoAdicity, Pow2(k)) == Some(e.d1)
      && NewDomain(twoAdicity, 2 * Pow2(k)) == Some(e.d2)
      && NewDomain(twoAdicity, 4 * Pow2(k)) == Some(e.d4)
      && NewDomain(twoAdicity, 8 * Pow2(k)) == Some(e.d8)
  {
    ScaledPow2(k);
    NewDomainAt(twoAdicity, Pow2(k), k);
    NewDomainAt(twoAdicity, 2 * Pow2(k), k + 1);
    NewDomainAt(twoAdicity, 4 * Pow2(k), k + 2);
    NewDomainAt(twoAdicity, 8 * Pow2(k), k + 3);
  }

  lemma NewDomainNoneAt(twoAdicity: nat, size: nat, j: nat)
    requires size == Pow2(j) && twoAdicity < j
    ensures NewDomain(twoAdicity, size) == None
  {
    NewDomainOfPow2(twoAdicity, j);
  }

  lemma NewDomainAt(twoAdicity: nat, size: nat, j: nat)
    requires size == Pow2(j) && j <= twoAdicity
    ensures NewDomain(twoAdicity, size) == Some(Radix2Domain(Pow2(j), j, RootOfUnity(twoAdicity, j)))
  {
    NewDomainOfPow2(twoAdicity, j);
  }

  lemma CreateBuildsAll(twoAdicity: nat, n: nat)
    requires CeilLog2(n) + 3 <= twoAdicity
    ensures Create(twoAdicity, n) == Ok(Expected(twoAdicity, CeilLog2(n)))
  {
    var k := CeilLog2(n);
    var size := Pow2(k);
    assert ComputeSizeOfDomain(twoAdicity, n) == Some(size);
    DomainsOfPow2(twoAdicity, k);
  }

  /** `create` succeeds exactly when 8n' fits the two-adic subgroup: n <= 2^(A-3). */
  lemma CreateSucceedsIff(twoAdicity: nat, n: nat)
    ensures Create(twoAdicity, n).Ok? <==> twoAdicity >= 3 && n <= Pow2(twoAdicity - 3)
  {
    var k := CeilLog2(n);
    if Create(twoAdicity, n).Ok? {
      CreateOkBound(twoAdicity, n);
      Pow2MonotonicLe(k, twoAdicity - 3);
    }
    if twoAdicity >= 3 && n <= Pow2(twoAdicity - 3) {
      CeilLog2Least(n, twoAdicity - 3);
      CreateBuildsAll(twoAdicity, n);
    }
  }

  /** Success means the eightfold domain fits: CeilLog2(n) + 3 <= A. */
  lemma CreateOkBound(twoAdicity: nat, n: nat)
    requires Create(twoAdicity, n).Ok?
    ensures CeilLog2(n) + 3 <= twoAdicity
  {
    var size := Pow2(CeilLog2(n));
    assert ComputeSizeOfDomain(twoAdicity, n) == Some(size);
    assert NewDomain(twoAdicity, 8 * size).Some?;
    EightfoldFits(twoAdicity, CeilLog2(n));
  }

  /** The label of a construction error is never "d1": a rounded size always yields d1. */
  lemma CreateNeverFailsAtD1(twoAdicity: nat, n: nat)
    ensures Create(twoAdicity, n).Err? && Create(twoAdicity, n).error.DomainConstructionFailed?
      ==> Create(twoAdicity, n).error.domain != "d1"
  {
    CreateOutcome(twoAdicity, n);
  }

  /**
   * On success the domains have sizes n', 2n', 4n', 8n' with n <= n' < 2n
   * (or n' = 1), and each size is a power of two.
   */
  lemma CreateSizes(twoAdicity: nat, n: nat)
    requires Create(twoAdicity, n).Ok?
    ensures var e := Create(twoAdicity, n).value;
      && n <= e.d1.size && (e.d1.size == 1 || e.d1.size < 2 * n)
      && e.d2.size == 2 * e.d1.size
      && e.d4.size == 4 * e.d1.size
      && e.d8.size == 8 * e.d1.size
      && e.d1.size == Pow2(e.d1.logSize)
      && e.d8.size == Pow2(e.d8.logSize)
  {
    CreateOkBound(twoAdicity, n);
    CreateBuildsAll(twoAdicity, n);
    var k := CeilLog2(n);
    ScaledPow2(k);
    if k > 0 {
      assert Pow2(k) == 2 * Pow2(k - 1);
    }
  }

  /** The composed relations of the doc comment and the test: g8^8 = g1, g4^4 = g1, g8^2 = g4. */
  lemma CreateGeneratorPowers(twoAdicity: nat, n: nat)
    requires Create(twoAdicity, n).Ok?
    ensures var e := Create(twoAdicity, n).value;
      && Power(twoAdicity, e.d8.groupGen, 8) == e.d1.groupGen
      && Power(twoAdicity, e.d4.groupGen, 4) == e.d1.groupGen
      && Power(twoAdicity, e.d8.groupGen, 2) == e.d4.groupGen
  {
    CreateOkBound(twoAdicity, n);
    CreateBuildsAll(twoAdicity, n);
    var k := CeilLog2(n);
    SmallPow2();
    PowerOfRoot(twoAdicity, k + 3, 3);
    PowerOfRoot(twoAdicity, k + 2, 2);
    PowerOfRoot(twoAdicity, k + 3, 1);
  }

  /** The generator of a domain of size 2^k has multiplicative order exactly 2^k. */
  lemma RootOfUnityOrder(twoAdicity: nat, k: nat, j: nat)
    requires k <= twoAdicity
    ensures Power(twoAdicity, RootOfUnity(twoAdicity, k), Pow2(k)) == 0
    ensures 0 < j < Pow2(k) ==> Power(twoAdicity, RootOfUnity(twoAdicity, k), j) != 0
  {
    PowerOfRoot(twoAdicity, k, k);
    if 0 < j < Pow2(k) {
      var step := Pow2(twoAdicity - k);
      Pow2Add(twoAdicity - k, k);
      MulBelow(step, j, Pow2(k));
      assert RootOfUnity(twoAdicity, k) * j == step * j;
      ModBelow(step * j, Pow2(twoAdicity));
    }
  }

  lemma MulBelow(a: nat, j: nat, b: nat)
    requires a > 0 && 0 < j < b
    ensures 0 < a * j < a * b
  {
  }

  /** d.groupGen has multiplicative order exactly d.size. */
  predicate PrimitiveRoot(twoAdicity: nat, d: Radix2Domain)
  {
    && Power(twoAdicity, d.groupGen, d.size) == 0
    && forall j :: 0 < j < d.size ==> Power(twoAdicity, d.groupGen, j) != 0
  }

  lemma ExpectedPrimitive(twoAdicity: nat, k: nat, i: nat)
    requires i <= 3 && k + 3 <= twoAdicity
    ensures PrimitiveRoot(twoAdicity, Radix2Domain(Pow2(k + i), k + i, RootOfUnity(twoAdicity, k + i)))
  {
    var c := k + i;
    RootOfUnityOrder(twoAdicity, c, 0);
    forall j | 0 < j < Pow2(c)
      ensures Power(twoAdicity, RootOfUnity(twoAdicity, c), j) != 0
    {
      RootOfUnityOrder(twoAdicity, c, j);
    }
  }

  /** Every domain `Create` returns is generated by a primitive root of its own order. */
  lemma CreatePrimitiveRoots(twoAdicity: nat, n: nat)
    requires Create(twoAdicity, n).Ok?
    ensures var e := Create(twoAdicity, n).value;
      && PrimitiveRoot(twoAdicity, e.d1)
      && PrimitiveRoot(twoAdicity, e.d2)
      && PrimitiveRoot(twoAdicity, e.d4)
      && PrimitiveRoot(twoAdicity, e.d8)
  {
    CreateOkBound(twoAdicity, n);
    CreateBuildsAll(twoAdicity, n);
    ExpectedAllPrimitive(twoAdicity, CeilLog2(n));
  }

  lemma ExpectedAllPrimitive(twoAdicity: nat, k: nat)
    requires k + 3 <= twoAdicity
    ensures var e := Expected(twoAdicity, k);
      && PrimitiveRoot(twoAdicity, e.d1)
      && PrimitiveRoot(twoAdicity, e.d2)
      && PrimitiveRoot(twoAdicity, e.d4)
      && PrimitiveRoot(twoAdicity, e.d8)
  {
    ExpectedPrimitive(twoAdicity, k, 0);
    ExpectedPrimitive(twoAdicity, k, 1);
    ExpectedPrimitive(twoAdicity, k, 2);
    ExpectedPrimitive(twoAdicity, k, 3);
  }
}
