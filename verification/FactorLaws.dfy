/** Over exact kernels the tiles that any schedule leaves are a Cholesky factor of the input. */
module FactorLaws {
  import opened TileDataflow
  import opened TaskGraph

  /** Tile arithmetic; `mulT(Y, Z)` is the product of Y and the transpose of Z. */
  datatype Algebra<!T> = Algebra(add: (T, T) -> T, sub: (T, T) -> T, mulT: (T, T) -> T)

  /** Addition is commutative and associative, and subtraction undoes it. */
  ghost predicate SumLaws<T(!new)>(al: Algebra<T>) {
    && (forall x: T, y: T :: al.add(al.sub(x, y), y) == x)
    && (forall x: T, y: T :: al.add(x, y) == al.add(y, x))
    && (forall x: T, y: T, z: T :: al.add(al.add(x, y), z) == al.add(x, al.add(y, z)))
  }

  ghost predicate UpdateLaws<T(!new)>(al: Algebra<T>, ks: Kernels<T>) {
    && (forall x: T, y: T :: ks.syrk(x, y) == al.sub(x, al.mulT(y, y)))
    && (forall x: T, y: T, z: T :: ks.gemm(x, y, z) == al.sub(x, al.mulT(y, z)))
  }

  // Moving one product from the updated tile into the sum.
  ghost predicate MoveLaw<T(!new)>(al: Algebra<T>) {
    && (forall x: T, p: T :: x == al.add(p, al.sub(x, p)))
    && (forall s: T, x: T, p: T :: al.add(s, x) == al.add(al.add(s, p), al.sub(x, p)))
  }

  lemma SumLawsMove<T(!new)>(al: Algebra<T>)
    requires SumLaws(al)
    ensures MoveLaw(al)
  {
    forall s: T, x: T, p: T ensures al.add(s, x) == al.add(al.add(s, p), al.sub(x, p)) {
      assert al.add(p, al.sub(x, p)) == x;
    }
  }

  /** potrf and trsm succeed on the tiles they are given: T.T' = X and Y.T' = X. Nothing is asked of
      them on other tiles, since potrf has no answer for a tile that is not positive definite. */
  ghost predicate PanelLaws<T>(al: Algebra<T>, ks: Kernels<T>, a: Tiles<T>, nt: nat)
    requires HasLower(a, nt)
  {
    forall m: nat, n: nat :: n <= m < nt ==>
      var x := Stage(ks, a, nt, m, n, n);
      if m == n then al.mulT(ks.potrf(x), ks.potrf(x)) == x
      else var t := Final(ks, a, nt, n, n); al.mulT(ks.trsm(x, t), t) == x
  }

  /** The sum over k <= last of r(m,k) . r(n,k)'. */
  ghost function SumOfProducts<T>(al: Algebra<T>, r: Tiles<T>, nt: nat, m: nat, n: nat, last: nat): T
    requires HasLower(r, nt) && last <= n <= m < nt
  {
    var p := al.mulT(r[(m, last)], r[(n, last)]);
    if last == 0 then p else al.add(SumOfProducts(al, r, nt, m, n, last - 1), p)
  }

  lemma {:induction false} PartialFactor<T(!new)>(al: Algebra<T>, ks: Kernels<T>, a: Tiles<T>, nt: nat, m: nat, n: nat, j: nat)
    requires HasLower(a, nt) && MoveLaw(al) && UpdateLaws(al, ks) && 1 <= j <= n <= m < nt
    ensures a[(m, n)] == al.add(SumOfProducts(al, Factor(ks, a, nt), nt, m, n, j - 1), Stage(ks, a, nt, m, n, j))
    decreases j
  {
    var r := Factor(ks, a, nt);
    var x, y := Stage(ks, a, nt, m, n, j - 1), Stage(ks, a, nt, m, n, j);
    var p := al.mulT(r[(m, j - 1)], r[(n, j - 1)]);
    assert y == al.sub(x, p);
    if j > 1 {
      PartialFactor(al, ks, a, nt, m, n, j - 1);
    }
  }

  lemma FactorIsCholesky<T(!new)>(al: Algebra<T>, ks: Kernels<T>, a: Tiles<T>, nt: nat, m: nat, n: nat)
    requires HasLower(a, nt) && SumLaws(al) && UpdateLaws(al, ks) && PanelLaws(al, ks, a, nt) && n <= m < nt
    ensures a[(m, n)] == SumOfProducts(al, Factor(ks, a, nt), nt, m, n, n)
  {
    var x := Stage(ks, a, nt, m, n, n);
    assert x == al.mulT(Final(ks, a, nt, m, n), Final(ks, a, nt, n, n));
    SumLawsMove(al);
    if n > 0 {
      PartialFactor(al, ks, a, nt, m, n, n);
    }
  }

  /** For every schedule and every lookahead: A(m,n) is the sum over k <= n of L(m,k) . L(n,k)'. */
  lemma ScheduleFactorises<T(!new)>(al: Algebra<T>, ks: Kernels<T>, a: Tiles<T>, s: seq<Op>, nt: nat, la: nat)
    requires HasLower(a, nt) && IsSchedule(s, nt, la)
    requires SumLaws(al) && UpdateLaws(al, ks) && PanelLaws(al, ks, a, nt)
    ensures forall m: nat, n: nat :: n <= m < nt ==>
      a[(m, n)] == SumOfProducts(al, Exec(ks, s, nt, a), nt, m, n, n)
  {
    ScheduleIndependence(ks, a, s, nt, la);
    forall m: nat, n: nat | n <= m < nt
      ensures a[(m, n)] == SumOfProducts(al, Factor(ks, a, nt), nt, m, n, n)
    {
      FactorIsCholesky(al, ks, a, nt, m, n);
    }
  }
}
