/** The matrix of tiles, its views, and `potrf` run in place by one thread, every task executed
    where it is created. It leaves the factor, whatever the lookahead and the trailing update. */
module TiledMatrix {
  import opened TileDataflow
  import opened TaskGraph

  // ----- the calls made so far, in program order -----

  /** The diagonal tiles from column n on are updated first. */
  ghost function UpToNested(nt: nat, k: nat, n: nat, m: nat, from: nat, to: nat): iset<Op> {
    UpTo(nt, k, n, m) + iset o | IsOp(o, nt) && o.Syrk? && o.k == k && from <= o.n < to
  }

  lemma NextDiagonal(nt: nat, k: nat, off: nat, n: nat)
    requires k < off <= n < nt
    ensures Ready(Syrk(n, k), UpToNested(nt, k, off, off, off, n), nt)
    ensures UpToNested(nt, k, off, off, off, n) + iset{Syrk(n, k)} == UpToNested(nt, k, off, off, off, n + 1)
  {
    forall j: nat | k <= j <= n ensures OpAt(n, n, j) !in UpToNested(nt, k, off, off, off, n) {}
  }

  lemma NextNestedRow(nt: nat, k: nat, n: nat, m: nat)
    requires k < n < m < nt
    ensures Ready(Gemm(m, n, k), UpToNested(nt, k, n, m, n, nt), nt)
    ensures UpToNested(nt, k, n, m, n, nt) + iset{Gemm(m, n, k)} == UpToNested(nt, k, n, m + 1, n, nt)
  {
    NextRow(nt, k, n, m);
    assert Ready(Gemm(m, n, k), UpTo(nt, k, n, m), nt);
  }

  lemma NestedColumns(nt: nat, k: nat, n: nat)
    requires k < n < nt
    ensures UpToNested(nt, k, n, n, n, nt) == UpToNested(nt, k, n, n + 1, n, nt)
    ensures UpToNested(nt, k, n, nt, n, nt) == UpToNested(nt, k, n + 1, n + 1, n + 1, nt)
    ensures UpToNested(nt, k, n, n, n, n) == UpTo(nt, k, n, n)
    ensures UpToNested(nt, k, nt, nt, nt, nt) == UpTo(nt, k, nt, nt)
  {
    forall o | IsOp(o, nt) ensures o.k <= o.Target().1 <= o.Target().0 < nt {
      OpIsOpAt(o, nt);
    }
    NextColumn(nt, k, n);
  }

  // ----- the matrix -----

  /** The tile map that a matrix shares with all its views. */
  class TileStore<T> {
    const ks: Kernels<T>
    ghost const nt: nat
    ghost const input: Tiles<T>
    var tiles: Tiles<T>
    ghost var done: iset<Op>

    ghost predicate Valid()
      reads this
    {
      HasLower(input, nt) && tiles == TilesAt(ks, input, nt, done)
    }

    constructor (ks: Kernels<T>, tiles: Tiles<T>, ghost nt: nat)
      requires HasLower(tiles, nt)
      ensures Valid() && done == iset{} && this.nt == nt && this.ks == ks
      ensures this.tiles == input == tiles
    {
      this.ks, this.tiles, this.nt := ks, tiles, nt;
      input, done := tiles, iset{};
      TilesAtEnds(ks, tiles, nt, iset{});
    }

    /** One kernel overwrites its target tile in place. */
    method Call(o: Op)
      requires Valid() && IsOp(o, nt) && Ready(o, done, nt)
      modifies this
      ensures Valid() && done == old(done) + iset{o}
    {
      ReadyStep(ks, input, nt, done, o);
      match o {
        case Potrf(k) =>
          tiles := tiles[(k, k) := ks.potrf(tiles[(k, k)])];
        case Trsm(m, k) =>
          tiles := tiles[(m, k) := ks.trsm(tiles[(m, k)], tiles[(k, k)])];
        case Syrk(n, k) =>
          tiles := tiles[(n, n) := ks.syrk(tiles[(n, n)], tiles[(n, k)])];
        case Gemm(m, n, k) =>
          tiles := tiles[(m, n) := ks.gemm(tiles[(m, n)], tiles[(m, k)], tiles[(n, k)])];
      }
      done := done + iset{o};
    }

    /** The next call in program order. */
    method Next(o: Op)
      requires Valid() && IsOp(o, nt) && done == UpTo(nt, o.k, o.Target().1, o.Target().0)
      modifies this
      ensures Valid() && done == UpTo(nt, o.k, o.Target().1, o.Target().0 + 1)
    {
      OpIsOpAt(o, nt);
      NextRow(nt, o.k, o.Target().1, o.Target().0);
      Call(o);
    }

    /** The next gemm when the diagonal tiles of the step are already updated. */
    method NextNested(m: nat, n: nat, k: nat)
      requires Valid() && k < n < m < nt && done == UpToNested(nt, k, n, m, n, nt)
      modifies this
      ensures Valid() && done == UpToNested(nt, k, n, m + 1, n, nt)
    {
      NextNestedRow(nt, k, n, m);
      Call(Gemm(m, n, k));
    }

    /** The next syrk when all diagonal tiles of the step are updated first. */
    method NextOnDiagonal(n: nat, k: nat, off: nat)
      requires Valid() && k < off <= n < nt && done == UpToNested(nt, k, off, off, off, n)
      modifies this
      ensures Valid() && done == UpToNested(nt, k, off, off, off, n + 1)
    {
      NextDiagonal(nt, k, off, n);
      Call(Syrk(n, k));
    }
  }

  /** A rectangular view: rows it .. it + mt and columns jt .. jt + nt of the tiles. */
  class Matrix<T> {
    const store: TileStore<T>
    const it: nat
    const jt: nat
    const mt: nat
    const nt: nat

    constructor (store: TileStore<T>, n: nat)
      ensures this.store == store && it == jt == 0 && mt == nt == n
    {
      this.store, it, jt, mt, nt := store, 0, 0, n, n;
    }

    constructor View(a: Matrix<T>, it: nat, jt: nat, mt: nat, nt: nat)
      requires it + mt <= a.mt && jt + nt <= a.nt
      ensures store == a.store && this.it == a.it + it && this.jt == a.jt + jt && this.mt == mt && this.nt == nt
    {
      store := a.store;
      this.it, this.jt, this.mt, this.nt := a.it + it, a.jt + jt, mt, nt;
    }

    /** Step k updates column n of this square view with the panel column of `a`. */
    method UpdateColumn(a: Matrix<T>, n: nat)
      requires it == jt == a.it && mt == nt == store.nt - it && n < nt && a.jt < jt + n
      requires store.Valid() && store.done == UpTo(store.nt, a.jt, jt + n, jt + n)
      modifies store
      ensures store.Valid() && store.done == UpTo(store.nt, a.jt, jt + n + 1, jt + n + 1)
    {
      store.Next(Syrk(it + n, a.jt));
      for m := n + 1 to mt
        invariant store.Valid() && store.done == UpTo(store.nt, a.jt, jt + n, it + m)
      {
        store.Next(Gemm(it + m, jt + n, a.jt));
      }
      NextColumn(store.nt, a.jt, jt + n);
    }

    /** The trailing update, column by column. */
    method SyrkTask(a: Matrix<T>)
      requires it == jt == a.it && mt == nt == store.nt - it && a.jt < it
      requires store.Valid() && store.done == UpTo(store.nt, a.jt, it, it)
      modifies store
      ensures store.Valid() && store.done == UpTo(store.nt, a.jt, store.nt, store.nt)
    {
      for n := 0 to nt
        invariant store.Valid() && store.done == UpTo(store.nt, a.jt, jt + n, jt + n)
      {
        UpdateColumn(a, n);
      }
    }

    /** The trailing update, all diagonal tiles first and then one loop over all positions. */
    method SyrkNest(a: Matrix<T>)
      requires it == jt == a.it && mt == nt == store.nt - it && a.jt < it < store.nt
      requires store.Valid() && store.done == UpTo(store.nt, a.jt, it, it)
      modifies store
      ensures store.Valid() && store.done == UpTo(store.nt, a.jt, store.nt, store.nt)
    {
      NestedColumns(store.nt, a.jt, jt);
      NestedDiagonals(a);
      for n := 0 to nt
        invariant store.Valid() && store.done == UpToNested(store.nt, a.jt, jt + n, jt + n, jt + n, store.nt)
      {
        NestedColumn(a, n);
      }
      NestedColumns(store.nt, a.jt, jt);
    }

    method NestedDiagonals(a: Matrix<T>)
      requires it == jt == a.it && mt == nt == store.nt - it && a.jt < it < store.nt
      requires store.Valid() && store.done == UpToNested(store.nt, a.jt, jt, jt, jt, jt)
      modifies store
      ensures store.Valid() && store.done == UpToNested(store.nt, a.jt, jt, jt, jt, store.nt)
    {
      for n := 0 to nt
        invariant store.Valid() && store.done == UpToNested(store.nt, a.jt, jt, jt, jt, jt + n)
      {
        store.NextOnDiagonal(it + n, a.jt, jt);
      }
    }

    method NestedColumn(a: Matrix<T>, n: nat)
      requires it == jt == a.it && mt == nt == store.nt - it && n < nt && a.jt < it
      requires store.Valid() && store.done == UpToNested(store.nt, a.jt, jt + n, jt + n, jt + n, store.nt)
      modifies store
      ensures store.Valid() && store.done == UpToNested(store.nt, a.jt, jt + n + 1, jt + n + 1, jt + n + 1, store.nt)
    {
      NestedColumns(store.nt, a.jt, jt + n);
      for m := 0 to mt
        invariant store.Valid()
        invariant store.done == UpToNested(store.nt, a.jt, jt + n, it + if m <= n then n + 1 else m, jt + n, store.nt)
      {
        if m >= n + 1 {
          store.NextNested(it + m, jt + n, a.jt);
        }
      }
    }

    /** The body of a panel task. */
    method FactorPanel(k: nat)
      requires it == jt == 0 && mt == nt == store.nt && k < nt
      requires store.Valid() && store.done == UpTo(nt, k, k, k)
      modifies store
      ensures store.Valid() && store.done == UpTo(nt, k, k + 1, k + 1)
    {
      store.Next(Op.Potrf(k));
      for m := k + 1 to nt
        invariant store.Valid() && store.done == UpTo(nt, k, k, m)
      {
        store.Next(Trsm(m, k));
      }
      NextColumn(nt, k, k);
    }

    method Potrf(lookahead: nat, nest: bool)
      requires it == jt == 0 && mt == nt == store.nt
      requires store.Valid() && store.done == iset{} && store.tiles == store.input
      modifies store
      ensures store.tiles == Factor(store.ks, old(store.tiles), nt)
    {
      assert UpTo(nt, 0, 0, 0) == iset{};
      for k := 0 to nt
        invariant store.Valid() && store.done == UpTo(nt, k, k, k)
      {
        FactorPanel(k);
        UpdateTrailing(k, lookahead, nest);
        NextColumn(nt, k, k);
      }
      TilesAtEnds(store.ks, store.input, nt, store.done);
    }

    /** The look-ahead and trailing tasks of step k. */
    method UpdateTrailing(k: nat, lookahead: nat, nest: bool)
      requires it == jt == 0 && mt == nt == store.nt && k < nt
      requires store.Valid() && store.done == UpTo(nt, k, k + 1, k + 1)
      modifies store
      ensures store.Valid() && store.done == UpTo(nt, k, nt, nt)
    {
      var panel := new Matrix.View(this, 0, k, nt, 1);
      var n := k + 1;
      while n < k + 1 + lookahead && n < nt
        invariant k + 1 <= n <= nt && n <= k + 1 + lookahead
        invariant store.Valid() && store.done == UpTo(nt, k, n, n)
      {
        UpdateColumn(panel, n);
        n := n + 1;
      }
      if k + 1 + lookahead < nt {
        var c := new Matrix.View(this, k + 1 + lookahead, k + 1 + lookahead, nt - 1 - k - lookahead, nt - 1 - k - lookahead);
        var a := new Matrix.View(this, k + 1 + lookahead, k, nt - 1 - k - lookahead, 1);
        if nest {
          c.SyrkNest(a);
        } else {
          c.SyrkTask(a);
        }
      }
    }
  }
}
