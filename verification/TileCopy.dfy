/** Copying the lower tiles of a column-major matrix into tiles of their own and back, for any tile sizes,
    ragged edges and leading dimension. */
module TileCopy {

  /** Where the element of row r and column c is in an array with leading dimension ld. */
  function Idx(ld: int, r: int, c: int): int {
    c * ld + r
  }

  /** The elements of h rows from row i on, in one column. */
  lemma ColumnRange(ld: int, c: int, i: int, h: int, r': int, c': int)
    requires 0 <= i && i + h <= ld && 0 <= r' < ld
    ensures Idx(ld, i, c) <= Idx(ld, r', c') < Idx(ld, i, c) + h <==> c' == c && i <= r' < i + h
  {
    if c' < c {
      assert (c' + 1) * ld <= c * ld;
    } else if c < c' {
      assert (c + 1) * ld <= c' * ld;
    }
  }

  lemma ColumnBound(ld: int, r: int, c: int, w: int)
    requires 0 <= r < ld && 0 <= c < w
    ensures 0 <= Idx(ld, r, c) < w * ld
  {
    assert (c + 1) * ld <= w * ld;
  }

  /** A column segment inside a block that ends within the array. */
  lemma SegmentBound(ld: int, i: int, h: int, c: int, last: int, len: int)
    requires 0 <= i && 0 <= h && 0 <= c <= last && 0 <= ld && Idx(ld, i + h, last) <= len
    ensures 0 <= Idx(ld, i, c) && Idx(ld, i, c) + h <= len
  {
    assert c * ld <= last * ld;
  }

  lemma BlockBound(ld: int, i: int, h: int, j: int, w: int, len: int)
    requires 0 <= i && 0 <= h && 0 <= j && 0 < w && i + h <= ld && Idx(ld, i + h, j + w - 1) <= len
    ensures forall r, c :: i <= r < i + h && j <= c < j + w ==> 0 <= Idx(ld, r, c) < len
  {
    forall r, c | i <= r < i + h && j <= c < j + w ensures 0 <= Idx(ld, r, c) < len {
      SegmentBound(ld, i, h, c, j + w - 1, len);
    }
  }

  class Tile<T(0)> {
    const mb: nat
    const nb: nat
    const data: array<T>

    ghost predicate Valid()
    {
      data.Length == mb * nb
    }

    /** The element of row r and column c. */
    ghost function At(r: int, c: int): T
      requires Valid() && 0 <= r < mb && 0 <= c < nb
      reads data
    {
      ColumnBound(mb, r, c, nb);
      data[Idx(mb, r, c)]
    }

    constructor (mb: nat, nb: nat)
      ensures Valid() && this.mb == mb && this.nb == nb && fresh(data)
    {
      this.mb, this.nb := mb, nb;
      data := new T[mb * nb];
    }

    /** Fills the tile from the block of `a` whose first element is at row i and column j. */
    method CopyTo(a: array<T>, ld: int, i: int, j: int)
      requires Valid() && a != data && 0 <= i && 0 <= j && i + mb <= ld && nb > 0
      requires Idx(ld, i + mb, j + nb - 1) <= a.Length
      modifies data
      ensures forall r, c :: i <= r < i + mb && j <= c < j + nb ==>
        0 <= Idx(ld, r, c) < a.Length && At(r - i, c - j) == a[Idx(ld, r, c)]
    {
      BlockBound(ld, i, mb, j, nb, a.Length);
      for n := 0 to nb
        invariant forall r, c :: i <= r < i + mb && j <= c < j + n ==> At(r - i, c - j) == a[Idx(ld, r, c)]
      {
        SegmentBound(ld, i, mb, j + n, j + nb - 1, a.Length);
        CopyColumn(a, Idx(ld, i, j + n), n);
        forall r, c | i <= r < i + mb && j <= c < j + n + 1 ensures At(r - i, c - j) == a[Idx(ld, r, c)] {
          if c == j + n {
            assert Idx(ld, i, c) + (r - i) == Idx(ld, r, c);
          }
        }
      }
    }

    /** One memcpy of copyTo. */
    method CopyColumn(a: array<T>, at: int, n: nat)
      requires Valid() && a != data && n < nb && 0 <= at && at + mb <= a.Length
      modifies data
      ensures forall r, c :: 0 <= r < mb && 0 <= c < nb ==> At(r, c) == if c == n then a[at + r] else old(At(r, c))
    {
      SegmentBound(mb, 0, mb, n, nb - 1, data.Length);
      forall x | 0 <= x < mb {
        data[Idx(mb, 0, n) + x] := a[at + x];
      }
      forall r, c | 0 <= r < mb && 0 <= c < nb ensures At(r, c) == if c == n then a[at + r] else old(At(r, c)) {
        ColumnRange(mb, n, 0, mb, r, c);
        ColumnBound(mb, r, c, nb);
      }
    }

    /** Writes the tile over the block of `a` whose first element is at row i and column j. */
    method CopyFrom(a: array<T>, ld: int, i: int, j: int)
      requires Valid() && a != data && 0 <= i && 0 <= j && i + mb <= ld && nb > 0
      requires Idx(ld, i + mb, j + nb - 1) <= a.Length
      modifies a
      ensures forall r, c :: 0 <= r < ld && 0 <= Idx(ld, r, c) < a.Length ==>
        a[Idx(ld, r, c)] ==
          if i <= r < i + mb && j <= c < j + nb then At(r - i, c - j) else old(a[Idx(ld, r, c)])
    {
      for n := 0 to nb
        invariant forall r, c :: 0 <= r < ld && 0 <= Idx(ld, r, c) < a.Length ==>
          a[Idx(ld, r, c)] ==
            if i <= r < i + mb && j <= c < j + n then At(r - i, c - j) else old(a[Idx(ld, r, c)])
      {
        SegmentBound(ld, i, mb, j + n, j + nb - 1, a.Length);
        WriteColumn(a, ld, i, j + n, n);
      }
    }

    /** One memcpy of copyFrom. */
    method WriteColumn(a: array<T>, ld: int, i: int, j: int, n: nat)
      requires Valid() && a != data && n < nb && 0 <= i && i + mb <= ld
      requires 0 <= Idx(ld, i, j) && Idx(ld, i, j) + mb <= a.Length
      modifies a
      ensures forall r, c :: 0 <= r < ld && 0 <= Idx(ld, r, c) < a.Length ==>
        a[Idx(ld, r, c)] == if i <= r < i + mb && c == j then At(r - i, n) else old(a[Idx(ld, r, c)])
    {
      SegmentBound(mb, 0, mb, n, nb - 1, data.Length);
      forall x | 0 <= x < mb {
        a[Idx(ld, i, j) + x] := data[Idx(mb, 0, n) + x];
      }
      forall r, c | 0 <= r < ld && 0 <= Idx(ld, r, c) < a.Length
        ensures a[Idx(ld, r, c)] == if i <= r < i + mb && c == j then At(r - i, n) else old(a[Idx(ld, r, c)])
      {
        ColumnRange(ld, j, i, mb, r, c);
      }
    }
  }

  // ----- all tiles -----

  function Min(a: int, b: int): int {
    if a < b then a else b
  }

  /** The first row (or column) of the tile that holds row r. */
  function Start(r: int, b: int): int
    requires b > 0
  {
    r / b * b
  }

  /** The number of tile rows, as the constructor computes it. */
  function TileCount(m: int, mb: int): int
    requires mb > 0
  {
    if m % mb == 0 then m / mb else m / mb + 1
  }

  lemma StartIs(r: int, t: int, b: int)
    requires b > 0
    ensures t * b <= r < (t + 1) * b <==> r / b == t
    ensures r < t * b <==> r / b < t
  {
    if r / b < t {
      assert (r / b + 1) * b <= t * b;
    } else if r / b > t {
      assert (t + 1) * b <= r / b * b;
    }
  }

  lemma NextMultiple(t: int, b: int)
    ensures (t + 1) * b == t * b + b
  {
  }

  /** The loop over i = 0, mb, 2 mb, ... below m passes exactly the tile rows. */
  lemma TileRows(m: int, mb: int, t: int)
    requires m > 0 && mb > 0 && t >= 0
    ensures t * mb < m <==> t < TileCount(m, mb)
  {
    StartIs(m, t, mb);
    StartIs(m - 1, t, mb);
    StartIs(m - 1, TileCount(m, mb), mb);
    assert m == m / mb * mb + m % mb;
    if m % mb == 0 {
      StartIs(m - 1, m / mb - 1, mb);
    } else {
      StartIs(m - 1, m / mb, mb);
    }
  }

  class Matrix<T(0)> {
    const m: int
    const n: int
    const mb: int
    const nb: int
    var tiles: map<(int, int), Tile<T>>

    ghost predicate Valid()
    {
      m > 0 && n > 0 && mb > 0 && nb > 0
    }

    /** The tile of a position in the lower part of the grid of tiles. */
    ghost predicate HasTile(ti: int, tj: int)
      reads this
      requires Valid()
    {
      (ti, tj) in tiles && tiles[(ti, tj)].Valid() &&
      tiles[(ti, tj)].mb == Min(mb, m - ti * mb) && tiles[(ti, tj)].nb == Min(nb, n - tj * nb)
    }

    /** Element (r, c) is in a tile that is kept: its tile begins on or below the diagonal. */
    ghost predicate Kept(r: int, c: int)
      requires Valid()
    {
      0 <= r < m && 0 <= c < n && Start(c, nb) <= Start(r, mb)
    }

    /** The value that the tiles hold for an element. */
    ghost predicate Holds(r: int, c: int, v: T)
      requires Valid() && Kept(r, c)
      reads this, set k | k in tiles :: tiles[k].data
    {
      HasTile(r / mb, c / nb) &&
      var t := tiles[(r / mb, c / nb)];
      var (x, y) := (r - Start(r, mb), c - Start(c, nb));
      0 <= x < t.mb && 0 <= y < t.nb && t.At(x, y) == v
    }

    constructor (m: int, n: int, mb: int, nb: int)
      requires m > 0 && n > 0 && mb > 0 && nb > 0
      ensures Valid() && this.m == m && this.n == n && this.mb == mb && this.nb == nb && tiles == map[]
    {
      this.m, this.n, this.mb, this.nb, tiles := m, n, mb, nb, map[];
    }

    lemma InTile(ti: int, tj: int, r: int, c: int)
      requires Valid() && 0 <= ti && 0 <= tj && Kept(r, c)
      ensures (r / mb == ti && c / nb == tj) <==>
        ti * mb <= r < ti * mb + Min(mb, m - ti * mb) && tj * nb <= c < tj * nb + Min(nb, n - tj * nb)
    {
      StartIs(r, ti, mb);
      StartIs(c, tj, nb);
    }

    lemma AllRows(ti: int)
      requires Valid() && m <= ti * mb
      ensures forall r, c {:trigger Kept(r, c)} :: Kept(r, c) ==> r / mb < ti
    {
      forall r, c | Kept(r, c) ensures r / mb < ti {
        StartIs(r, ti, mb);
      }
    }

    lemma AllColumns(tj: int)
      requires Valid() && n <= tj * nb
      ensures forall r, c {:trigger Kept(r, c)} :: Kept(r, c) ==> c / nb < tj
    {
      forall r, c | Kept(r, c) ensures c / nb < tj {
        StartIs(c, tj, nb);
      }
    }

    /** One tile of copyTo. */
    method AddTile(a: array<T>, ld: int, ti: int, tj: int)
      requires Valid() && 0 <= ti && 0 <= tj && ti * mb < m && tj * nb < n && m <= ld && Idx(ld, m, n - 1) <= a.Length
      modifies `tiles
      ensures (ti, tj) in tiles && tiles == old(tiles)[(ti, tj) := tiles[(ti, tj)]] && fresh(tiles[(ti, tj)].data)
      ensures HasTile(ti, tj)
      ensures forall r, c {:trigger Kept(r, c)} :: Kept(r, c) && r / mb == ti && c / nb == tj ==> 0 <= Idx(ld, r, c) < a.Length && Holds(r, c, a[Idx(ld, r, c)])
    {
      var (i, j) := (ti * mb, tj * nb);
      var (h, w) := (Min(mb, m - i), Min(nb, n - j));
      var t := new Tile<T>(h, w);
      SegmentBound(ld, i, h, j + w - 1, n - 1, Idx(ld, m, n - 1));
      t.CopyTo(a, ld, i, j);
      tiles := tiles[(ti, tj) := t];
      forall r, c | Kept(r, c) && r / mb == ti && c / nb == tj
        ensures 0 <= Idx(ld, r, c) < a.Length && Holds(r, c, a[Idx(ld, r, c)])
      {
        InTile(ti, tj, r, c);
      }
    }

    /** The inner loop of copyTo: the tiles of one row of tiles that begin on or below the diagonal. */
    method CopyRowTo(a: array<T>, ld: int, i: int, ghost ti: int)
      requires Valid() && 0 <= ti && i == ti * mb < m && m <= ld && Idx(ld, m, n - 1) <= a.Length
      modifies `tiles
      ensures forall k :: k in old(tiles) && k.0 != ti ==> k in tiles && tiles[k] == old(tiles)[k]
      ensures forall k :: k in tiles ==> (k in old(tiles) && tiles[k] == old(tiles)[k]) || fresh(tiles[k].data)
      ensures forall r, c {:trigger Kept(r, c)} :: Kept(r, c) && r / mb == ti ==> 0 <= Idx(ld, r, c) < a.Length && Holds(r, c, a[Idx(ld, r, c)])
    {
      var j := 0;
      ghost var tj := 0;
      StartIs(i, ti, mb);
      while j < n
        invariant 0 <= tj && j == tj * nb
        invariant forall k :: k in old(tiles) && k.0 != ti ==> k in tiles && tiles[k] == old(tiles)[k]
        invariant forall k :: k in tiles ==> (k in old(tiles) && tiles[k] == old(tiles)[k]) || fresh(tiles[k].data)
        invariant forall r, c {:trigger Kept(r, c)} :: Kept(r, c) && r / mb == ti && c / nb < tj ==>
          0 <= Idx(ld, r, c) < a.Length && Holds(r, c, a[Idx(ld, r, c)])
      {
        StartIs(j, tj, nb);
        if j <= i {
          AddTile(a, ld, i / mb, j / nb);
        }
        NextMultiple(tj, nb);
        j := j + nb;
        tj := tj + 1;
      }
      AllColumns(tj);
    }

    method CopyTo(a: array<T>, ld: int)
      requires Valid() && m <= ld && Idx(ld, m, n - 1) <= a.Length
      modifies `tiles
      ensures forall k :: k in tiles ==> fresh(tiles[k].data)
      ensures forall r, c {:trigger Kept(r, c)} :: Kept(r, c) ==> 0 <= Idx(ld, r, c) < a.Length && Holds(r, c, a[Idx(ld, r, c)])
    {
      tiles := map[];
      var i := 0;
      ghost var ti := 0;
      while i < m
        invariant 0 <= ti && i == ti * mb
        invariant forall k :: k in tiles ==> fresh(tiles[k].data)
        invariant forall r, c {:trigger Kept(r, c)} :: Kept(r, c) && r / mb < ti ==> 0 <= Idx(ld, r, c) < a.Length && Holds(r, c, a[Idx(ld, r, c)])
      {
        CopyRowTo(a, ld, i, ti);
        NextMultiple(ti, mb);
        i := i + mb;
        ti := ti + 1;
      }
      AllRows(ti);
    }

    /** One tile of copyFrom. */
    method WriteTile(a: array<T>, ld: int, ti: int, tj: int)
      requires Valid() && 0 <= ti && 0 <= tj && ti * mb < m && tj * nb < n && m <= ld && Idx(ld, m, n - 1) <= a.Length
      requires HasTile(ti, tj) && tj * nb <= ti * mb && forall k :: k in tiles ==> tiles[k].data != a
      modifies a
      ensures forall r, c :: 0 <= r < ld && 0 <= Idx(ld, r, c) < a.Length ==>
        if Kept(r, c) && r / mb == ti && c / nb == tj then Holds(r, c, a[Idx(ld, r, c)])
        else a[Idx(ld, r, c)] == old(a[Idx(ld, r, c)])
    {
      var (i, j) := (ti * mb, tj * nb);
      var t := tiles[(ti, tj)];
      SegmentBound(ld, i, t.mb, j + t.nb - 1, n - 1, Idx(ld, m, n - 1));
      t.CopyFrom(a, ld, i, j);
      forall r, c | 0 <= r < ld && 0 <= Idx(ld, r, c) < a.Length
        ensures if Kept(r, c) && r / mb == ti && c / nb == tj then Holds(r, c, a[Idx(ld, r, c)])
                else a[Idx(ld, r, c)] == old(a[Idx(ld, r, c)])
      {
        if i <= r < i + t.mb && j <= c < j + t.nb {
          StartIs(r, ti, mb);
          StartIs(c, tj, nb);
        }
        if Kept(r, c) {
          InTile(ti, tj, r, c);
        }
      }
    }

    /** The inner loop of copyFrom. */
    method CopyRowFrom(a: array<T>, ld: int, i: int, ghost ti: int)
      requires Valid() && 0 <= ti && i == ti * mb < m && m <= ld && Idx(ld, m, n - 1) <= a.Length
      requires forall k :: k in tiles ==> tiles[k].data != a
      requires forall tj :: 0 <= tj && tj * nb < n && tj * nb <= i ==> HasTile(ti, tj)
      modifies a
      ensures forall r, c :: 0 <= r < ld && 0 <= Idx(ld, r, c) < a.Length ==>
        if Kept(r, c) && r / mb == ti then Holds(r, c, a[Idx(ld, r, c)]) else a[Idx(ld, r, c)] == old(a[Idx(ld, r, c)])
    {
      var j := 0;
      ghost var tj := 0;
      StartIs(i, ti, mb);
      while j < n
        invariant 0 <= tj && j == tj * nb
        invariant forall r, c :: 0 <= r < ld && 0 <= Idx(ld, r, c) < a.Length ==>
          if Kept(r, c) && r / mb == ti && c / nb < tj then Holds(r, c, a[Idx(ld, r, c)])
          else a[Idx(ld, r, c)] == old(a[Idx(ld, r, c)])
      {
        StartIs(j, tj, nb);
        if j <= i {
          WriteTile(a, ld, i / mb, j / nb);
        }
        NextMultiple(tj, nb);
        j := j + nb;
        tj := tj + 1;
      }
      AllColumns(tj);
    }

    method CopyFrom(a: array<T>, ld: int)
      requires Valid() && m <= ld && Idx(ld, m, n - 1) <= a.Length
      requires forall k :: k in tiles ==> tiles[k].data != a
      requires forall ti, tj :: 0 <= ti && 0 <= tj && ti * mb < m && tj * nb < n && tj * nb <= ti * mb ==> HasTile(ti, tj)
      modifies a
      ensures forall r, c :: 0 <= r < ld && 0 <= Idx(ld, r, c) < a.Length ==>
        if Kept(r, c) then Holds(r, c, a[Idx(ld, r, c)]) else a[Idx(ld, r, c)] == old(a[Idx(ld, r, c)])
    {
      var i := 0;
      ghost var ti := 0;
      while i < m
        invariant 0 <= ti && i == ti * mb
        invariant forall r, c :: 0 <= r < ld && 0 <= Idx(ld, r, c) < a.Length ==>
          if Kept(r, c) && r / mb < ti then Holds(r, c, a[Idx(ld, r, c)]) else a[Idx(ld, r, c)] == old(a[Idx(ld, r, c)])
      {
        CopyRowFrom(a, ld, i, ti);
        NextMultiple(ti, mb);
        i := i + mb;
        ti := ti + 1;
      }
      AllRows(ti);
    }

    /** Copying a matrix into tiles and then out to `b`: the elements of the tiles that begin on or below
        the diagonal are those of `a`, and no other element of `b` has changed. */
    method RoundTrip(a: array<T>, b: array<T>, lda: int, ldb: int)
      requires Valid() && m <= lda && m <= ldb && Idx(lda, m, n - 1) <= a.Length && Idx(ldb, m, n - 1) <= b.Length
      modifies `tiles, b
      ensures forall r, c :: 0 <= r < ldb && 0 <= Idx(ldb, r, c) < b.Length ==>
        if Kept(r, c) then 0 <= Idx(lda, r, c) < a.Length && b[Idx(ldb, r, c)] == old(a[Idx(lda, r, c)])
        else b[Idx(ldb, r, c)] == old(b[Idx(ldb, r, c)])
    {
      CopyTo(a, lda);
      forall ti, tj | 0 <= ti && 0 <= tj && ti * mb < m && tj * nb < n && tj * nb <= ti * mb ensures HasTile(ti, tj) {
        StartIs(ti * mb, ti, mb);
        StartIs(tj * nb, tj, nb);
        assert Kept(ti * mb, tj * nb);
      }
      CopyFrom(b, ldb);
      forall r, c | 0 <= r < ldb && 0 <= Idx(ldb, r, c) < b.Length && Kept(r, c)
        ensures 0 <= Idx(lda, r, c) < a.Length && b[Idx(ldb, r, c)] == old(a[Idx(lda, r, c)])
      {
        assert Holds(r, c, b[Idx(ldb, r, c)]);
        assert Holds(r, c, old(a[Idx(lda, r, c)]));
      }
    }
  }
}
