/** The tile operations of the tiled Cholesky factorisation and the values they produce,
    with the four tile kernels left uninterpreted: nothing here depends on what a kernel
    computes, so the results cover floating point arithmetic as well. */
module TileDataflow {

  // A tile position: row of tiles, column of tiles.
  type Pos = (nat, nat)

  /** potrf(X), trsm(X, T), syrk(X, Y) and gemm(X, Y, Z): X is the tile that is overwritten. */
  datatype Kernels<!T> = Kernels(potrf: T -> T, trsm: (T, T) -> T, syrk: (T, T) -> T, gemm: (T, T, T) -> T)

  /** One kernel call on tiles of the lower triangle; `k` is the elimination step it belongs to. */
  datatype Op =
    | Potrf(k: nat)
    | Trsm(m: nat, k: nat)
    | Syrk(n: nat, k: nat)
    | Gemm(m: nat, n: nat, k: nat)
  {
    /** The tile the kernel overwrites (and reads). */
    function Target(): Pos {
      match this
      case Potrf(k) => (k, k)
      case Trsm(m, k) => (m, k)
      case Syrk(n, k) => (n, n)
      case Gemm(m, n, k) => (m, n)
    }

    /** The other tiles the kernel reads. */
    function Sources(): set<Pos> {
      match this
      case Potrf(k) => {}
      case Trsm(m, k) => {(k, k)}
      case Syrk(n, k) => {(n, k)}
      case Gemm(m, n, k) => {(m, k), (n, k)}
    }
  }

  predicate IsOp(o: Op, nt: nat) {
    match o
    case Potrf(k) => k < nt
    case Trsm(m, k) => k < m < nt
    case Syrk(n, k) => k < n < nt
    case Gemm(m, n, k) => k < n < m < nt
  }

  predicate InLower(p: Pos, nt: nat) {
    p.1 <= p.0 < nt
  }

  /** The operation that overwrites tile (m, n) in step k; step n is the one of the tile's own panel. */
  function OpAt(m: nat, n: nat, k: nat): (o: Op)
    requires k <= n <= m
    ensures o.Target() == (m, n) && o.k == k
    ensures forall nt: nat :: m < nt ==> IsOp(o, nt)
  {
    if k == n then (if m == n then Potrf(n) else Trsm(m, n))
    else if m == n then Syrk(n, k) else Gemm(m, n, k)
  }

  /** Every operation is the one of its target tile and its step, so a tile is overwritten once a step. */
  lemma OpIsOpAt(o: Op, nt: nat)
    requires IsOp(o, nt)
    ensures InLower(o.Target(), nt) && o.k <= o.Target().1
    ensures o == OpAt(o.Target().0, o.Target().1, o.k)
    ensures forall p :: p in o.Sources() ==> InLower(p, nt) && p.1 == o.k && p != o.Target()
  {
  }

  /** Program order: by step, then by column, then by row. */
  predicate Earlier(o: Op, k: nat, n: nat, m: nat) {
    var (row, col) := o.Target();
    o.k < k || (o.k == k && (col < n || (col == n && row < m)))
  }

  type Tiles<T> = map<Pos, T>

  predicate HasLower<T>(a: Tiles<T>, nt: nat) {
    forall m: nat, n: nat :: n <= m < nt ==> (m, n) in a
  }

  function Apply<T>(ks: Kernels<T>, o: Op, a: Tiles<T>): Tiles<T>
    requires o.Target() in a && o.Sources() <= a.Keys
  {
    match o
    case Potrf(k) => a[(k, k) := ks.potrf(a[(k, k)])]
    case Trsm(m, k) => a[(m, k) := ks.trsm(a[(m, k)], a[(k, k)])]
    case Syrk(n, k) => a[(n, n) := ks.syrk(a[(n, n)], a[(n, k)])]
    case Gemm(m, n, k) => a[(m, n) := ks.gemm(a[(m, n)], a[(m, k)], a[(n, k)])]
  }

  /** Operations executed one after the other. */
  function Exec<T>(ks: Kernels<T>, s: seq<Op>, nt: nat, a: Tiles<T>): (r: Tiles<T>)
    requires HasLower(a, nt) && forall o :: o in s ==> IsOp(o, nt)
    ensures r.Keys == a.Keys
    decreases |s|
  {
    if s == [] then a
    else
      var before := Exec(ks, s[..|s| - 1], nt, a);
      assert s[|s| - 1] in s;
      OpIsOpAt(s[|s| - 1], nt);
      Apply(ks, s[|s| - 1], before)
  }

  ghost function Made(s: seq<Op>): iset<Op> {
    iset o | o in s
  }

  /** One more ready call. */
  lemma ExecStep<T>(ks: Kernels<T>, a: Tiles<T>, nt: nat, s: seq<Op>, o: Op)
    requires HasLower(a, nt) && (forall x :: x in s ==> IsOp(x, nt)) && IsOp(o, nt)
    requires Ready(o, Made(s), nt)
    requires Exec(ks, s, nt, a) == TilesAt(ks, a, nt, Made(s))
    ensures Exec(ks, s + [o], nt, a) == TilesAt(ks, a, nt, Made(s + [o]))
  {
    ReadyStep(ks, a, nt, Made(s), o);
    assert (s + [o])[..|s + [o]| - 1] == s;
    assert Made(s + [o]) == Made(s) + iset{o};
  }

  /** The value of tile (m, n) after its operations of steps 0, ..., j - 1, by dataflow alone. */
  ghost function Stage<T>(ks: Kernels<T>, a: Tiles<T>, nt: nat, m: nat, n: nat, j: nat): T
    requires HasLower(a, nt) && n <= m < nt && j <= n + 1
    decreases n, j, m, 0
  {
    if j == 0 then a[(m, n)]
    else
      var x := Stage(ks, a, nt, m, n, j - 1);
      var k := j - 1;
      if k == n then (if m == n then ks.potrf(x) else ks.trsm(x, Final(ks, a, nt, n, n)))
      else if m == n then ks.syrk(x, Final(ks, a, nt, n, k))
      else ks.gemm(x, Final(ks, a, nt, m, k), Final(ks, a, nt, n, k))
  }

  ghost function Final<T>(ks: Kernels<T>, a: Tiles<T>, nt: nat, m: nat, n: nat): T
    requires HasLower(a, nt) && n <= m < nt
    decreases n, n + 1, m, 1
  {
    Stage(ks, a, nt, m, n, n + 1)
  }

  /** How far tile (m, n) has come when exactly the operations in `done` have been executed. */
  ghost function Progress(done: iset<Op>, m: nat, n: nat, j: nat): (r: nat)
    requires j <= n + 1 && n <= m
    ensures j <= r <= n + 1
    ensures forall k :: j <= k < r ==> OpAt(m, n, k) in done
    ensures r <= n ==> OpAt(m, n, r) !in done
    decreases n + 1 - j
  {
    if j <= n && OpAt(m, n, j) in done then Progress(done, m, n, j + 1) else j
  }

  /** The tiles after the operations in `done`, in whatever order they ran. */
  ghost function TilesAt<T>(ks: Kernels<T>, a: Tiles<T>, nt: nat, done: iset<Op>): (r: Tiles<T>)
    requires HasLower(a, nt)
    ensures r.Keys == a.Keys
  {
    map p | p in a :: if InLower(p, nt) then Stage(ks, a, nt, p.0, p.1, Progress(done, p.0, p.1, 0)) else a[p]
  }

  /** The factor: every lower tile after its whole chain of operations, every other tile untouched. */
  ghost function Factor<T>(ks: Kernels<T>, a: Tiles<T>, nt: nat): (r: Tiles<T>)
    requires HasLower(a, nt)
    ensures r.Keys == a.Keys
  {
    map p | p in a :: if InLower(p, nt) then Final(ks, a, nt, p.0, p.1) else a[p]
  }

  ghost predicate Finished(done: iset<Op>, p: Pos)
    requires p.1 <= p.0
  {
    forall k: nat :: k <= p.1 ==> OpAt(p.0, p.1, k) in done
  }

  /** Operation `o` finds its operands as the dataflow prescribes: the earlier steps of its target
      are done, the later ones are not, and the tiles it reads are finished. */
  ghost predicate Ready(o: Op, done: iset<Op>, nt: nat)
    requires IsOp(o, nt)
  {
    OpIsOpAt(o, nt);
    var (m, n) := o.Target();
    && (forall k: nat :: k < o.k ==> OpAt(m, n, k) in done)
    && (forall k: nat :: o.k <= k <= n ==> OpAt(m, n, k) !in done)
    && (forall p :: p in o.Sources() ==> Finished(done, p))
  }

  lemma ProgressIs(done: iset<Op>, m: nat, n: nat, r: nat)
    requires n <= m && r <= n + 1
    requires forall k: nat :: k < r ==> OpAt(m, n, k) in done
    requires r <= n ==> OpAt(m, n, r) !in done
    ensures Progress(done, m, n, 0) == r
  {
  }

  /** A ready operation takes the tiles of `done` to the tiles of `done + iset{o}`. */
  lemma ReadyStep<T>(ks: Kernels<T>, a: Tiles<T>, nt: nat, done: iset<Op>, o: Op)
    requires HasLower(a, nt) && IsOp(o, nt) && Ready(o, done, nt)
    ensures o.Target() in a && o.Sources() <= a.Keys
    ensures Apply(ks, o, TilesAt(ks, a, nt, done)) == TilesAt(ks, a, nt, done + iset{o})
  {
    OpIsOpAt(o, nt);
    var (m, n) := o.Target();
    var now, next := TilesAt(ks, a, nt, done), TilesAt(ks, a, nt, done + iset{o});
    forall p | p in o.Sources() ensures p in a && now[p] == Final(ks, a, nt, p.0, p.1) {
      ProgressIs(done, p.0, p.1, p.1 + 1);
    }
    ProgressIs(done, m, n, o.k);
    ProgressIs(done + iset{o}, m, n, o.k + 1);
    forall p | p in a && p != (m, n) ensures now[p] == next[p] {
      if InLower(p, nt) {
        forall k: nat | k <= p.1 ensures OpAt(p.0, p.1, k) != o {}
        ProgressIs(done + iset{o}, p.0, p.1, Progress(done, p.0, p.1, 0));
      }
    }
  }

  /** When every operation is done the tiles are the factor; when none is, they are the input. */
  lemma TilesAtEnds<T>(ks: Kernels<T>, a: Tiles<T>, nt: nat, done: iset<Op>)
    requires HasLower(a, nt)
    ensures (forall o :: o in done <==> IsOp(o, nt)) ==> TilesAt(ks, a, nt, done) == Factor(ks, a, nt)
    ensures TilesAt(ks, a, nt, iset{}) == a
  {
    if forall o :: o in done <==> IsOp(o, nt) {
      forall p | p in a && InLower(p, nt)
        ensures TilesAt(ks, a, nt, done)[p] == Final(ks, a, nt, p.0, p.1)
      {
        ProgressIs(done, p.0, p.1, p.1 + 1);
      }
    }
  }

  // ----- the calls before a point of the program order -----

  ghost function UpTo(nt: nat, k: nat, n: nat, m: nat): iset<Op> {
    iset o | IsOp(o, nt) && Earlier(o, k, n, m)
  }

  lemma NextRow(nt: nat, k: nat, n: nat, m: nat)
    requires k <= n <= m < nt
    ensures Ready(OpAt(m, n, k), UpTo(nt, k, n, m), nt)
    ensures UpTo(nt, k, n, m) + iset{OpAt(m, n, k)} == UpTo(nt, k, n, m + 1)
  {
    forall o | IsOp(o, nt) && o.Target() == (m, n) && o.k == k ensures o == OpAt(m, n, k) {
      OpIsOpAt(o, nt);
    }
    OpIsOpAt(OpAt(m, n, k), nt);
  }

  lemma NextColumn(nt: nat, k: nat, n: nat)
    requires k <= n < nt
    ensures UpTo(nt, k, n, nt) == UpTo(nt, k, n + 1, n + 1)
    ensures UpTo(nt, k, nt, nt) == UpTo(nt, k + 1, k + 1, k + 1)
  {
    forall o | IsOp(o, nt) ensures o.k <= o.Target().1 <= o.Target().0 < nt {
      OpIsOpAt(o, nt);
    }
  }
}
