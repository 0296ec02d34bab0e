/** The parallel Jacobi stencil: one ULT per block of cells, each reading its neighbours' cells, raising
    flags for them, waiting for theirs, and then overwriting its own cells in place. */
module StencilProgram {

  type Cell = (int, int)
  type Block = (int, int)      // column and row of the block, from 0

  /** A flag and its condition: side d of a cell. The neighbour to the right raises side 0 of a cell, the
      one to the left side 1, the one below side 2 and the one above side 3. */
  datatype Coord = Coord(c: Cell, d: nat)

  /** nBlocks, blockSize, and the average of four values (any function: nothing is reassociated). */
  datatype Stencil<!V> = Stencil(blocks: nat, size: nat, avg: (V, V, V, V) -> V, zero: V)

  datatype Op = Compute(c: Cell) | Signal(q: Coord) | Wait(q: Coord) | Write(c: Cell)

  /** firstX or firstY of a block. */
  function First<V>(p: Stencil<V>, i: int): int {
    1 + i * p.size
  }

  predicate IsBlock<V>(p: Stencil<V>, b: Block) {
    0 <= b.0 < p.blocks && 0 <= b.1 < p.blocks
  }

  predicate InBlock<V>(p: Stencil<V>, b: Block, c: Cell) {
    First(p, b.0) <= c.0 < First(p, b.0) + p.size && First(p, b.1) <= c.1 < First(p, b.1) + p.size
  }

  function Left(c: Cell): Cell { (c.0 - 1, c.1) }

  function Right(c: Cell): Cell { (c.0 + 1, c.1) }

  function Up(c: Cell): Cell { (c.0, c.1 - 1) }

  function Down(c: Cell): Cell { (c.0, c.1 + 1) }

  // ----- the code of one ULT -----

  function Column(c: Cell, n: nat): seq<Cell>
    decreases n
  {
    if n == 0 then [] else [c] + Column(Down(c), n - 1)
  }

  function Row(c: Cell, n: nat): seq<Cell>
    decreases n
  {
    if n == 0 then [] else [c] + Row(Right(c), n - 1)
  }

  /** The cells of the double loop, x outside and y inside. */
  function Area(c: Cell, w: nat, h: nat): seq<Cell>
    decreases w
  {
    if w == 0 then [] else Column(c, h) + Area(Right(c), w - 1, h)
  }

  function Cells<V>(p: Stencil<V>, b: Block): seq<Cell> {
    Area((First(p, b.0), First(p, b.1)), p.size, p.size)
  }

  /** The cells at the left, right, upper and lower edge of a block, if it has a neighbour there. */
  function Edge<V>(p: Stencil<V>, b: Block, side: nat): seq<Cell> {
    var (x, y, n) := (First(p, b.0), First(p, b.1), p.size);
    if side == 0 then (if x > 1 then Column((x, y), n) else [])
    else if side == 1 then (if x + n - 1 < p.blocks * n then Column((x + n - 1, y), n) else [])
    else if side == 2 then (if y > 1 then Row((x, y), n) else [])
    else (if y + n - 1 < p.blocks * n then Row((x, y + n - 1), n) else [])
  }

  function Opposite(side: nat): nat {
    if side == 0 then 1 else if side == 1 then 0 else if side == 2 then 3 else 2
  }

  function Beside(c: Cell, side: nat): Cell {
    if side == 0 then Left(c) else if side == 1 then Right(c) else if side == 2 then Up(c) else Down(c)
  }

  /** The cell whose computation reads this one over that side, and so raises its flag. */
  function Reader(q: Coord): Cell {
    Beside(q.c, Opposite(q.d))
  }

  function Computes(cs: seq<Cell>): seq<Op> {
    seq(|cs|, i requires 0 <= i < |cs| => Compute(cs[i]))
  }

  function Writes(cs: seq<Cell>): seq<Op> {
    seq(|cs|, i requires 0 <= i < |cs| => Write(cs[i]))
  }

  function Signals(cs: seq<Cell>, side: nat): seq<Op> {
    seq(|cs|, i requires 0 <= i < |cs| => Signal(Coord(Beside(cs[i], side), side)))
  }

  function Waits(cs: seq<Cell>, side: nat): seq<Op> {
    seq(|cs|, i requires 0 <= i < |cs| => Wait(Coord(cs[i], side)))
  }

  function AllSignals<V>(p: Stencil<V>, b: Block): seq<Op> {
    Signals(Edge(p, b, 0), 0) + Signals(Edge(p, b, 1), 1) + Signals(Edge(p, b, 2), 2) + Signals(Edge(p, b, 3), 3)
  }

  function AllWaits<V>(p: Stencil<V>, b: Block): seq<Op> {
    Waits(Edge(p, b, 0), 1) + Waits(Edge(p, b, 1), 0) + Waits(Edge(p, b, 2), 3) + Waits(Edge(p, b, 3), 2)
  }

  function Program<V>(p: Stencil<V>, b: Block): seq<Op> {
    Computes(Cells(p, b)) + AllSignals(p, b) + (AllWaits(p, b) + Writes(Cells(p, b)))
  }

  /** The phase of an operation in the program. */
  function Phase(o: Op): nat {
    match o
    case Compute(_) => 0
    case Signal(_) => 1
    case Wait(_) => 2
    case Write(_) => 3
  }

  // ----- what is in the program, and in what order -----

  lemma {:induction false} InColumn(c: Cell, n: nat, d: Cell)
    ensures d in Column(c, n) <==> d.0 == c.0 && c.1 <= d.1 < c.1 + n
    decreases n
  {
    if n > 0 {
      InColumn(Down(c), n - 1, d);
    }
  }

  lemma {:induction false} InRow(c: Cell, n: nat, d: Cell)
    ensures d in Row(c, n) <==> d.1 == c.1 && c.0 <= d.0 < c.0 + n
    decreases n
  {
    if n > 0 {
      InRow(Right(c), n - 1, d);
    }
  }

  lemma {:induction false} InArea(c: Cell, w: nat, h: nat, d: Cell)
    ensures d in Area(c, w, h) <==> c.0 <= d.0 < c.0 + w && c.1 <= d.1 < c.1 + h
    decreases w
  {
    if w > 0 {
      InColumn(c, h, d);
      InArea(Right(c), w - 1, h, d);
    }
  }

  lemma InSignals(cs: seq<Cell>, side: nat, q: Coord)
    requires side < 4
    ensures Signal(q) in Signals(cs, side) <==> q.d == side && Reader(q) in cs
  {
    var ops := Signals(cs, side);
    if q.d == side && Reader(q) in cs {
      var i :| 0 <= i < |cs| && cs[i] == Reader(q);
      assert ops[i] == Signal(q);
    }
  }

  lemma InWaits(cs: seq<Cell>, side: nat, q: Coord)
    ensures Wait(q) in Waits(cs, side) <==> q.d == side && q.c in cs
  {
    var ops := Waits(cs, side);
    if q.d == side && q.c in cs {
      var i :| 0 <= i < |cs| && cs[i] == q.c;
      assert ops[i] == Wait(q);
    }
  }

  /** Concatenating parts of growing phase gives a sequence of growing phase. */
  ghost predicate Ordered(ops: seq<Op>) {
    forall i, j :: 0 <= i < j < |ops| ==> Phase(ops[i]) <= Phase(ops[j])
  }

  lemma OrderedAppend(a: seq<Op>, b: seq<Op>, f: nat)
    requires Ordered(a) && Ordered(b)
    requires (forall i :: 0 <= i < |a| ==> Phase(a[i]) <= f) && (forall i :: 0 <= i < |b| ==> Phase(b[i]) >= f)
    ensures Ordered(a + b)
  {
  }

  ghost predicate AllPhase(ops: seq<Op>, f: nat) {
    forall i :: 0 <= i < |ops| ==> Phase(ops[i]) == f
  }

  lemma AllPhaseAppend(a: seq<Op>, b: seq<Op>, f: nat)
    requires AllPhase(a, f) && AllPhase(b, f)
    ensures AllPhase(a + b, f)
  {
  }

  lemma PartPhases<V>(p: Stencil<V>, b: Block)
    ensures AllPhase(AllSignals(p, b), 1) && AllPhase(AllWaits(p, b), 2)
  {
    var (s0, s1, s2, s3) :=
      (Signals(Edge(p, b, 0), 0), Signals(Edge(p, b, 1), 1), Signals(Edge(p, b, 2), 2), Signals(Edge(p, b, 3), 3));
    AllPhaseAppend(s0, s1, 1);
    AllPhaseAppend(s0 + s1, s2, 1);
    AllPhaseAppend(s0 + s1 + s2, s3, 1);
    var (w0, w1, w2, w3) :=
      (Waits(Edge(p, b, 0), 1), Waits(Edge(p, b, 1), 0), Waits(Edge(p, b, 2), 3), Waits(Edge(p, b, 3), 2));
    AllPhaseAppend(w0, w1, 2);
    AllPhaseAppend(w0 + w1, w2, 2);
    AllPhaseAppend(w0 + w1 + w2, w3, 2);
  }

  lemma ProgramOrdered<V>(p: Stencil<V>, b: Block)
    ensures Ordered(Program(p, b))
  {
    PartPhases(p, b);
    var (c, s, w, r) := (Computes(Cells(p, b)), AllSignals(p, b), AllWaits(p, b), Writes(Cells(p, b)));
    OrderedAppend(c, s, 1);
    OrderedAppend(w, r, 3);
    assert forall i :: 0 <= i < |c + s| ==> Phase((c + s)[i]) <= 2;
    assert forall i :: 0 <= i < |w + r| ==> Phase((w + r)[i]) >= 2;
    OrderedAppend(c + s, w + r, 2);
  }

  lemma NotInOthers(cs: seq<Cell>, side: nat, o: Op)
    ensures !o.Compute? ==> o !in Computes(cs)
    ensures !o.Write? ==> o !in Writes(cs)
    ensures !o.Signal? ==> o !in Signals(cs, side)
    ensures !o.Wait? ==> o !in Waits(cs, side)
  {
  }

  lemma CellOps(cs: seq<Cell>, c: Cell)
    ensures Compute(c) in Computes(cs) <==> c in cs
    ensures Write(c) in Writes(cs) <==> c in cs
  {
    if c in cs {
      var i :| 0 <= i < |cs| && cs[i] == c;
      assert Computes(cs)[i] == Compute(c) && Writes(cs)[i] == Write(c);
    }
  }

  lemma InParts<V>(p: Stencil<V>, b: Block, o: Op)
    ensures o in AllSignals(p, b) <==> o.Signal? && o.q.d < 4 && Reader(o.q) in Edge(p, b, o.q.d)
    ensures o in AllWaits(p, b) <==> o.Wait? && o.q.d < 4 && o.q.c in Edge(p, b, Opposite(o.q.d))
  {
    if o.Signal? {
      InSignals(Edge(p, b, 0), 0, o.q);
      InSignals(Edge(p, b, 1), 1, o.q);
      InSignals(Edge(p, b, 2), 2, o.q);
      InSignals(Edge(p, b, 3), 3, o.q);
    } else if o.Wait? {
      InWaits(Edge(p, b, 0), 1, o.q);
      InWaits(Edge(p, b, 1), 0, o.q);
      InWaits(Edge(p, b, 2), 3, o.q);
      InWaits(Edge(p, b, 3), 2, o.q);
    }
  }

  /** A ULT computes and writes the cells of its block, raises the flag of every cell that it reads over an
      edge, and waits for the flags of its own edge cells. */
  lemma InProgram<V>(p: Stencil<V>, b: Block, o: Op)
    ensures o in Program(p, b) <==>
      match o
      case Compute(c) => InBlock(p, b, c)
      case Write(c) => InBlock(p, b, c)
      case Signal(q) => q.d < 4 && Reader(q) in Edge(p, b, q.d)
      case Wait(q) => q.d < 4 && q.c in Edge(p, b, Opposite(q.d))
  {
    InParts(p, b, o);
    NotInOthers(Cells(p, b), 0, o);
    if o.Compute? || o.Write? {
      InArea((First(p, b.0), First(p, b.1)), p.size, p.size, o.c);
      CellOps(Cells(p, b), o.c);
    }
  }

  // ----- neighbours -----

  /** The block next to b over one of its sides. */
  function NextBlock(b: Block, side: nat): Block {
    Beside(b, side)
  }

  lemma NextFirst<V>(p: Stencil<V>, i: int)
    ensures First(p, i + 1) == First(p, i) + p.size
  {
  }

  lemma FirstMonotone<V>(p: Stencil<V>, i: int, j: int)
    requires i <= j
    ensures First(p, i) <= First(p, j)
  {
    assert i * p.size <= j * p.size;
  }

  /** The edge towards a side: there is a neighbour, and the cell beside is in it and not in the block. */
  lemma EdgeMeaning<V>(p: Stencil<V>, b: Block, side: nat, c: Cell)
    requires IsBlock(p, b) && side < 4
    ensures c in Edge(p, b, side) <==>
      InBlock(p, b, c) && !InBlock(p, b, Beside(c, side)) && IsBlock(p, NextBlock(b, side))
  {
    var (x, y, n) := (First(p, b.0), First(p, b.1), p.size);
    InColumn((x, y), n, c);
    InColumn((x + n - 1, y), n, c);
    InRow((x, y), n, c);
    InRow((x, y + n - 1), n, c);
    if n > 0 {
      FirstSign(p, b.0);
      FirstSign(p, b.1);
    }
  }

  /** A block has one before it exactly when it does not begin at 1, and one after it when it does not end at ncells. */
  lemma FirstSign<V>(p: Stencil<V>, i: int)
    requires 0 <= i < p.blocks && p.size > 0
    ensures First(p, i) > 1 <==> i > 0
    ensures First(p, i) + p.size - 1 < p.blocks * p.size <==> i + 1 < p.blocks
  {
    NextFirst(p, i);
    if i > 0 {
      FirstMonotone(p, 1, i);
    }
    if i + 1 < p.blocks {
      FirstMonotone(p, i + 2, p.blocks);
      NextFirst(p, i + 1);
    } else {
      assert i + 1 == p.blocks;
    }
  }

  lemma BesideBlock<V>(p: Stencil<V>, b: Block, side: nat, c: Cell)
    requires side < 4 && InBlock(p, b, c) && !InBlock(p, b, Beside(c, side))
    ensures InBlock(p, NextBlock(b, side), Beside(c, side))
    ensures !InBlock(p, NextBlock(b, side), c)
  {
    NextFirst(p, b.0);
    NextFirst(p, b.1);
    NextFirst(p, b.0 - 1);
    NextFirst(p, b.1 - 1);
  }

  lemma OneBlock<V>(p: Stencil<V>, b: Block, d: Block, c: Cell)
    requires InBlock(p, b, c) && InBlock(p, d, c)
    ensures b == d
  {
    if b.0 < d.0 {
      NextFirst(p, b.0);
      FirstMonotone(p, b.0 + 1, d.0);
    } else if d.0 < b.0 {
      NextFirst(p, d.0);
      FirstMonotone(p, d.0 + 1, b.0);
    }
    if b.1 < d.1 {
      NextFirst(p, b.1);
      FirstMonotone(p, b.1 + 1, d.1);
    } else if d.1 < b.1 {
      NextFirst(p, d.1);
      FirstMonotone(p, d.1 + 1, b.1);
    }
  }

  lemma OppositeBeside(c: Cell, side: nat)
    requires side < 4
    ensures Beside(Beside(c, side), Opposite(side)) == c && Beside(Beside(c, Opposite(side)), side) == c
    ensures Opposite(side) < 4 && Opposite(Opposite(side)) == side
  {
  }

  /** The flag that a ULT waits for is raised by the neighbour that reads the cell, and by nobody else. */
  lemma WhoSignals<V>(p: Stencil<V>, d: Block, q: Coord) returns (b: Block)
    requires IsBlock(p, d) && Wait(q) in Program(p, d)
    ensures IsBlock(p, b) && Signal(q) in Program(p, b)
  {
    InProgram(p, d, Wait(q));
    var side := Opposite(q.d);
    b := NextBlock(d, side);
    EdgeMeaning(p, d, side, q.c);
    BesideBlock(p, d, side, q.c);
    OppositeBeside(q.c, q.d);
    OppositeBeside(d, q.d);
    EdgeMeaning(p, b, q.d, Reader(q));
    InProgram(p, b, Signal(q));
  }

  /** A cell that the computation of c reads in another block: its flag for that side is waited for by the
      ULT of that block, and raised by the ULT of c only. */
  lemma ReadOver<V>(p: Stencil<V>, b: Block, d: Block, c: Cell, side: nat)
    requires IsBlock(p, b) && IsBlock(p, d) && side < 4 && InBlock(p, b, c) && InBlock(p, d, Beside(c, side)) && b != d
    ensures Wait(Coord(Beside(c, side), side)) in Program(p, d)
    ensures forall e :: IsBlock(p, e) && Signal(Coord(Beside(c, side), side)) in Program(p, e) ==> e == b
  {
    var q := Coord(Beside(c, side), side);
    OppositeBeside(c, side);
    OppositeBeside(b, side);
    if InBlock(p, b, Beside(c, side)) {
      OneBlock(p, b, d, Beside(c, side));
    }
    BesideBlock(p, b, side, c);
    OneBlock(p, NextBlock(b, side), d, Beside(c, side));
    EdgeMeaning(p, d, Opposite(side), q.c);
    InProgram(p, d, Wait(q));
    forall e | IsBlock(p, e) && Signal(q) in Program(p, e) ensures e == b {
      InProgram(p, e, Signal(q));
      EdgeMeaning(p, e, side, c);
      OneBlock(p, e, b, c);
    }
  }

  /** The index of a flag in the array `ready`, whose rows have ncells + 2 cells. */
  function Index<V>(p: Stencil<V>, q: Coord): int {
    (q.c.0 * (p.blocks * p.size + 2) + q.c.1) * 4 + q.d
  }

  lemma LaterRow(x: int, y: int, z: int, w: int, n: int)
    requires x < z && 0 <= y < n && 0 <= w
    ensures x * n + y < z * n + w
  {
    assert (x + 1) * n <= z * n;
  }

  /** Different flags have different indices. */
  lemma IndexInjective<V>(p: Stencil<V>, q: Coord, r: Coord)
    requires q.d < 4 && r.d < 4 && q != r
    requires 0 <= q.c.1 < p.blocks * p.size + 2 && 0 <= r.c.1 < p.blocks * p.size + 2
    ensures Index(p, q) != Index(p, r)
  {
    var n := p.blocks * p.size + 2;
    if q.c.0 < r.c.0 {
      LaterRow(q.c.0, q.c.1, r.c.0, r.c.1, n);
    } else if r.c.0 < q.c.0 {
      LaterRow(r.c.0, r.c.1, q.c.0, q.c.1, n);
    }
  }
}
