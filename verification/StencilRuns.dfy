/** Runs of the stencil: the ULTs of one iteration in any interleaving of their single operations, and
    any number of iterations. */
module StencilRuns {
  import opened Basics
  import opened StencilProgram

  type Grid<V> = map<Cell, V>

  /** pc: how far each ULT has come in its program; asleep: the flags on whose condition one waits; woken:
      those whose waiter has been signalled and not gone on yet. */
  datatype State<V> = State(
    pc: map<Block, nat>,
    values: Grid<V>,
    results: Grid<V>,
    ready: set<Coord>,
    asleep: set<Coord>,
    woken: set<Coord>
  )

  function Val<V>(p: Stencil<V>, g: Grid<V>, c: Cell): V {
    if c in g then g[c] else p.zero
  }

  /** The average of the four neighbours of a cell. */
  function Average<V>(p: Stencil<V>, g: Grid<V>, c: Cell): V {
    p.avg(Val(p, g, Left(c)), Val(p, g, Right(c)), Val(p, g, Up(c)), Val(p, g, Down(c)))
  }

  function Pc<V>(s: State<V>, b: Block): nat {
    if b in s.pc then s.pc[b] else 0
  }

  predicate Unfinished<V>(p: Stencil<V>, s: State<V>, b: Block) {
    IsBlock(p, b) && Pc(s, b) < |Program(p, b)|
  }

  function Next<V>(p: Stencil<V>, s: State<V>, b: Block): Op
    requires Unfinished(p, s, b)
  {
    Program(p, b)[Pc(s, b)]
  }

  /** A ULT can take its next operation unless it sleeps in a wait. */
  predicate Enabled<V>(p: Stencil<V>, s: State<V>, b: Block) {
    Unfinished(p, s, b) && (Next(p, s, b).Wait? ==> Next(p, s, b).q !in s.asleep)
  }

  function Advance<V>(s: State<V>, b: Block): State<V> {
    s.(pc := s.pc[b := Pc(s, b) + 1])
  }

  /** One operation. Raising a flag also wakes the ULT that sleeps for it; that one goes on without
      looking at the flag again. */
  function Do<V>(p: Stencil<V>, s: State<V>, b: Block): State<V>
    requires Enabled(p, s, b)
  {
    match Next(p, s, b)
    case Compute(c) => Advance(s, b).(results := s.results[c := Average(p, s.values, c)])
    case Signal(q) =>
      Advance(s, b).(ready := s.ready + {q}, asleep := s.asleep - {q}, woken := s.woken + (s.asleep * {q}))
    case Wait(q) =>
      if q in s.woken then Advance(s, b).(woken := s.woken - {q})
      else if q in s.ready then Advance(s, b)
      else s.(asleep := s.asleep + {q})
    case Write(c) => Advance(s, b).(values := s.values[c := Val(p, s.results, c)])
  }

  /** o is one of the first n operations. */
  ghost predicate Among(ops: seq<Op>, n: nat, o: Op) {
    exists i :: 0 <= i < n && i < |ops| && ops[i] == o
  }

  /** The ULT has carried out this operation. */
  ghost predicate Done<V>(p: Stencil<V>, s: State<V>, b: Block, o: Op) {
    IsBlock(p, b) && Among(Program(p, b), Pc(s, b), o)
  }

  // ----- the invariant, for the values v that the iteration starts with -----

  ghost predicate BlockInv<V>(p: Stencil<V>, s: State<V>, b: Block) {
    Pc(s, b) <= |Program(p, b)|
  }

  ghost predicate CellInv<V>(p: Stencil<V>, v: Grid<V>, s: State<V>, b: Block, c: Cell) {
    && (Done(p, s, b, Compute(c)) ==> Val(p, s.results, c) == Average(p, v, c))
    && (InBlock(p, b, c) ==> Val(p, s.values, c) == if Done(p, s, b, Write(c)) then Average(p, v, c) else Val(p, v, c))
  }

  ghost predicate OutsideInv<V>(p: Stencil<V>, v: Grid<V>, s: State<V>, c: Cell) {
    (forall b :: IsBlock(p, b) ==> !InBlock(p, b, c)) ==> Val(p, s.values, c) == Val(p, v, c)
  }

  ghost predicate Raised<V>(p: Stencil<V>, s: State<V>, q: Coord) {
    exists b :: IsBlock(p, b) && Done(p, s, b, Signal(q))
  }

  ghost predicate FlagInv<V>(p: Stencil<V>, s: State<V>, q: Coord) {
    && (q in s.ready <==> Raised(p, s, q))
    && (q in s.asleep ==> q !in s.ready)
    && (q in s.woken ==> q in s.ready)
  }

  ghost predicate WaitInv<V>(p: Stencil<V>, s: State<V>, b: Block, q: Coord) {
    Done(p, s, b, Wait(q)) ==> q in s.ready
  }

  ghost predicate Inv<V>(p: Stencil<V>, v: Grid<V>, s: State<V>) {
    && (forall b :: IsBlock(p, b) ==> BlockInv(p, s, b))
    && (forall b, c :: IsBlock(p, b) ==> CellInv(p, v, s, b, c))
    && (forall c :: OutsideInv(p, v, s, c))
    && (forall q :: FlagInv(p, s, q))
    && (forall b, q :: IsBlock(p, b) ==> WaitInv(p, s, b, q))
  }

  // ----- what one step changes -----

  lemma AmongNext(ops: seq<Op>, n: nat, o: Op)
    requires n < |ops|
    ensures Among(ops, n + 1, o) <==> Among(ops, n, o) || ops[n] == o
  {
  }

  lemma DoneAfter<V>(p: Stencil<V>, s: State<V>, s': State<V>, b: Block, d: Block, o: Op)
    requires Unfinished(p, s, b) && s'.pc == s.pc[b := Pc(s, b) + 1]
    ensures Done(p, s', d, o) <==> Done(p, s, d, o) || (d == b && o == Next(p, s, b))
  {
    AmongNext(Program(p, b), Pc(s, b), o);
  }

  lemma DoneSame<V>(p: Stencil<V>, s: State<V>, s': State<V>, d: Block, o: Op)
    requires s'.pc == s.pc
    ensures Done(p, s', d, o) <==> Done(p, s, d, o)
  {
  }

  /** Operations of an earlier phase than the next one are done, those of a later phase are not. */
  lemma ByPhase<V>(p: Stencil<V>, s: State<V>, b: Block, o: Op)
    requires Unfinished(p, s, b)
    ensures Done(p, s, b, o) ==> o in Program(p, b) && Phase(o) <= Phase(Next(p, s, b))
    ensures o in Program(p, b) && Phase(o) < Phase(Next(p, s, b)) ==> Done(p, s, b, o)
  {
    ProgramOrdered(p, b);
    if o in Program(p, b) && Phase(o) < Phase(Next(p, s, b)) {
      var i :| 0 <= i < |Program(p, b)| && Program(p, b)[i] == o;
    }
  }

  /** A later operation that is done has all of the earlier phases before it. */
  lemma DonePhases<V>(p: Stencil<V>, s: State<V>, b: Block, o: Op, o': Op)
    requires Done(p, s, b, o') && BlockInv(p, s, b) && o in Program(p, b) && Phase(o) < Phase(o')
    ensures Done(p, s, b, o)
  {
    ProgramOrdered(p, b);
    var j :| 0 <= j < Pc(s, b) && j < |Program(p, b)| && Program(p, b)[j] == o';
    var i :| 0 <= i < |Program(p, b)| && Program(p, b)[i] == o;
  }

  /** A ULT that still computes has not raised the flag for the cell it reads, and nobody else raises it. */
  lemma NotRaised<V>(p: Stencil<V>, s: State<V>, b: Block, d: Block, side: nat)
    requires Unfinished(p, s, b) && Next(p, s, b).Compute? && side < 4
    requires IsBlock(p, d) && d != b && InBlock(p, d, Beside(Next(p, s, b).c, side))
    ensures var q := Coord(Beside(Next(p, s, b).c, side), side); !Raised(p, s, q) && Wait(q) in Program(p, d)
  {
    var c := Next(p, s, b).c;
    var q := Coord(Beside(c, side), side);
    InProgram(p, b, Next(p, s, b));
    ReadOver(p, b, d, c, side);
    ByPhase(p, s, b, Signal(q));
    forall e | IsBlock(p, e) && Done(p, s, e, Signal(q)) ensures e == b {
      assert Signal(q) in Program(p, e);
    }
  }

  /** A ULT that has begun to overwrite its block has waited for every flag, so the ULT that raises one of
      them is past its computations. */
  lemma NotYetWritten<V>(p: Stencil<V>, v: Grid<V>, s: State<V>, b: Block, d: Block, side: nat)
    requires Inv(p, v, s) && Unfinished(p, s, b) && Next(p, s, b).Compute? && side < 4
    requires IsBlock(p, d) && d != b && InBlock(p, d, Beside(Next(p, s, b).c, side))
    ensures !Done(p, s, d, Write(Beside(Next(p, s, b).c, side)))
  {
    var q := Coord(Beside(Next(p, s, b).c, side), side);
    NotRaised(p, s, b, d, side);
    assert BlockInv(p, s, d) && WaitInv(p, s, d, q) && FlagInv(p, s, q);
    if Done(p, s, d, Write(q.c)) {
      DonePhases(p, s, d, Wait(q), Write(q.c));
    }
  }

  /** While a ULT computes a cell, nobody has overwritten a cell that it reads. */
  lemma NotOverwritten<V>(p: Stencil<V>, v: Grid<V>, s: State<V>, b: Block, side: nat)
    requires Inv(p, v, s) && Unfinished(p, s, b) && Next(p, s, b).Compute? && side < 4
    ensures Val(p, s.values, Beside(Next(p, s, b).c, side)) == Val(p, v, Beside(Next(p, s, b).c, side))
  {
    var n := Beside(Next(p, s, b).c, side);
    if d :| IsBlock(p, d) && InBlock(p, d, n) {
      assert CellInv(p, v, s, d, n);
      if d == b {
        ByPhase(p, s, b, Write(n));
      } else {
        NotYetWritten(p, v, s, b, d, side);
      }
    } else {
      assert OutsideInv(p, v, s, n);
    }
  }

  lemma ComputesRight<V>(p: Stencil<V>, v: Grid<V>, s: State<V>, b: Block)
    requires Inv(p, v, s) && Unfinished(p, s, b) && Next(p, s, b).Compute?
    ensures Average(p, s.values, Next(p, s, b).c) == Average(p, v, Next(p, s, b).c)
  {
    NotOverwritten(p, v, s, b, 0);
    NotOverwritten(p, v, s, b, 1);
    NotOverwritten(p, v, s, b, 2);
    NotOverwritten(p, v, s, b, 3);
  }

  /** What a step does to the operations that are done. */
  lemma DoneStep<V>(p: Stencil<V>, s: State<V>, b: Block, d: Block, o: Op)
    requires Enabled(p, s, b)
    ensures Done(p, Do(p, s, b), d, o) <==>
      Done(p, s, d, o) || (d == b && o == Next(p, s, b) && (o.Wait? ==> o.q in s.ready || o.q in s.woken))
  {
    if Next(p, s, b).Wait? && Next(p, s, b).q !in s.ready && Next(p, s, b).q !in s.woken {
      DoneSame(p, s, Do(p, s, b), d, o);
    } else {
      DoneAfter(p, s, Do(p, s, b), b, d, o);
    }
  }

  lemma WritesRight<V>(p: Stencil<V>, v: Grid<V>, s: State<V>, b: Block)
    requires Inv(p, v, s) && Unfinished(p, s, b) && Next(p, s, b).Write?
    ensures Val(p, s.results, Next(p, s, b).c) == Average(p, v, Next(p, s, b).c) && InBlock(p, b, Next(p, s, b).c)
  {
    var c := Next(p, s, b).c;
    InProgram(p, b, Write(c));
    InProgram(p, b, Compute(c));
    ByPhase(p, s, b, Compute(c));
    assert CellInv(p, v, s, b, c);
  }

  lemma GridsAfter<V>(p: Stencil<V>, s: State<V>, b: Block)
    requires Enabled(p, s, b)
    ensures Do(p, s, b).results ==
      if Next(p, s, b).Compute? then s.results[Next(p, s, b).c := Average(p, s.values, Next(p, s, b).c)] else s.results
    ensures Do(p, s, b).values ==
      if Next(p, s, b).Write? then s.values[Next(p, s, b).c := Val(p, s.results, Next(p, s, b).c)] else s.values
  {
    match Next(p, s, b)
    case Compute(_) =>
    case Signal(_) =>
    case Wait(_) =>
    case Write(_) =>
  }

  lemma CellStays<V>(p: Stencil<V>, v: Grid<V>, s: State<V>, b: Block, d: Block, c: Cell)
    requires CellInv(p, v, s, d, c) && Enabled(p, s, b) && IsBlock(p, d)
    requires Next(p, s, b).Compute? ==> Average(p, s.values, Next(p, s, b).c) == Average(p, v, Next(p, s, b).c)
    requires Next(p, s, b).Write? ==>
      Val(p, s.results, Next(p, s, b).c) == Average(p, v, Next(p, s, b).c) && InBlock(p, b, Next(p, s, b).c)
    ensures CellInv(p, v, Do(p, s, b), d, c)
  {
    GridsAfter(p, s, b);
    DoneStep(p, s, b, d, Compute(c));
    DoneStep(p, s, b, d, Write(c));
    if Next(p, s, b).Write? && InBlock(p, d, Next(p, s, b).c) {
      OneBlock(p, b, d, Next(p, s, b).c);
    }
  }

  lemma OutsideStays<V>(p: Stencil<V>, v: Grid<V>, s: State<V>, b: Block, c: Cell)
    requires Inv(p, v, s) && Enabled(p, s, b)
    ensures OutsideInv(p, v, Do(p, s, b), c)
  {
    assert OutsideInv(p, v, s, c);
    InProgram(p, b, Next(p, s, b));
  }

  lemma RaisedStep<V>(p: Stencil<V>, s: State<V>, b: Block, q: Coord)
    requires Enabled(p, s, b)
    ensures Raised(p, Do(p, s, b), q) <==> Raised(p, s, q) || Next(p, s, b) == Signal(q)
  {
    forall d ensures Done(p, Do(p, s, b), d, Signal(q)) <==> Done(p, s, d, Signal(q)) || (d == b && Signal(q) == Next(p, s, b)) {
      DoneStep(p, s, b, d, Signal(q));
    }
  }

  lemma FlagsAfter<V>(p: Stencil<V>, s: State<V>, b: Block, q: Coord)
    requires Enabled(p, s, b)
    ensures q in Do(p, s, b).ready <==> q in s.ready || Next(p, s, b) == Signal(q)
    ensures q in Do(p, s, b).asleep ==> Next(p, s, b) != Signal(q) && (q in s.asleep || q !in s.ready)
    ensures q in Do(p, s, b).woken ==> q in s.woken || Next(p, s, b) == Signal(q)
  {
    match Next(p, s, b)
    case Compute(_) =>
    case Signal(_) =>
    case Wait(_) =>
    case Write(_) =>
  }

  lemma FlagStays<V>(p: Stencil<V>, v: Grid<V>, s: State<V>, b: Block, q: Coord)
    requires FlagInv(p, s, q) && Enabled(p, s, b)
    ensures FlagInv(p, Do(p, s, b), q)
  {
    FlagsAfter(p, s, b, q);
    RaisedStep(p, s, b, q);
  }

  lemma WaitStays<V>(p: Stencil<V>, v: Grid<V>, s: State<V>, b: Block, d: Block, q: Coord)
    requires Inv(p, v, s) && Enabled(p, s, b) && IsBlock(p, d)
    ensures WaitInv(p, Do(p, s, b), d, q)
  {
    assert WaitInv(p, s, d, q) && FlagInv(p, s, q);
    DoneStep(p, s, b, d, Wait(q));
  }

  lemma CellsStay<V>(p: Stencil<V>, v: Grid<V>, s: State<V>, b: Block)
    requires Inv(p, v, s) && Enabled(p, s, b)
    ensures forall d, c :: IsBlock(p, d) ==> CellInv(p, v, Do(p, s, b), d, c)
    ensures forall c :: OutsideInv(p, v, Do(p, s, b), c)
  {
    if Next(p, s, b).Compute? {
      ComputesRight(p, v, s, b);
    } else if Next(p, s, b).Write? {
      WritesRight(p, v, s, b);
    }
    forall d, c | IsBlock(p, d) ensures CellInv(p, v, Do(p, s, b), d, c) {
      assert CellInv(p, v, s, d, c);
      CellStays(p, v, s, b, d, c);
    }
    forall c ensures OutsideInv(p, v, Do(p, s, b), c) {
      OutsideStays(p, v, s, b, c);
    }
  }

  lemma FlagsStay<V>(p: Stencil<V>, v: Grid<V>, s: State<V>, b: Block)
    requires Inv(p, v, s) && Enabled(p, s, b)
    ensures forall q :: FlagInv(p, Do(p, s, b), q)
    ensures forall d, q :: IsBlock(p, d) ==> WaitInv(p, Do(p, s, b), d, q)
  {
    forall q ensures FlagInv(p, Do(p, s, b), q) {
      assert FlagInv(p, s, q);
      FlagStays(p, v, s, b, q);
    }
    forall d, q | IsBlock(p, d) ensures WaitInv(p, Do(p, s, b), d, q) {
      WaitStays(p, v, s, b, d, q);
    }
  }

  lemma PcAfter<V>(p: Stencil<V>, s: State<V>, b: Block)
    requires Enabled(p, s, b)
    ensures Do(p, s, b).pc == s.pc || Do(p, s, b).pc == s.pc[b := Pc(s, b) + 1]
  {
    match Next(p, s, b)
    case Compute(_) =>
    case Signal(_) =>
    case Wait(_) =>
    case Write(_) =>
  }

  lemma BlockStays<V>(p: Stencil<V>, s: State<V>, b: Block, d: Block)
    requires BlockInv(p, s, d) && Enabled(p, s, b)
    ensures BlockInv(p, Do(p, s, b), d)
  {
    PcAfter(p, s, b);
  }

  lemma BlocksStay<V>(p: Stencil<V>, v: Grid<V>, s: State<V>, b: Block)
    requires Inv(p, v, s) && Enabled(p, s, b)
    ensures forall d :: IsBlock(p, d) ==> BlockInv(p, Do(p, s, b), d)
  {
    forall d | IsBlock(p, d) ensures BlockInv(p, Do(p, s, b), d) {
      assert BlockInv(p, s, d);
      BlockStays(p, s, b, d);
    }
  }

  lemma StepKeeps<V>(p: Stencil<V>, v: Grid<V>, s: State<V>, b: Block)
    requires Inv(p, v, s) && Enabled(p, s, b)
    ensures Inv(p, v, Do(p, s, b))
  {
    CellsStay(p, v, s, b);
    FlagsStay(p, v, s, b);
    BlocksStay(p, v, s, b);
  }

  // ----- one iteration -----

  /** All ULTs created, the flags cleared; `results` holds whatever it held. */
  ghost predicate IsStart<V>(p: Stencil<V>, v: Grid<V>, s: State<V>) {
    s.values == v && s.ready == {} && s.asleep == {} && s.woken == {} && forall b :: IsBlock(p, b) ==> Pc(s, b) == 0
  }

  /** Any interleaving: the ULTs that take a step, one after the other. */
  function Run<V>(p: Stencil<V>, s: State<V>, acts: seq<Block>): Option<State<V>> {
    if acts == [] then Some(s)
    else
      match Run(p, s, acts[..|acts| - 1])
      case None => None
      case Some(t) => if Enabled(p, t, acts[|acts| - 1]) then Some(Do(p, t, acts[|acts| - 1])) else None
  }

  lemma {:induction false} RunKeeps<V>(p: Stencil<V>, v: Grid<V>, s: State<V>, acts: seq<Block>)
    requires IsStart(p, v, s) && Run(p, s, acts).Some?
    ensures Inv(p, v, Run(p, s, acts).value)
  {
    if acts != [] {
      RunKeeps(p, v, s, acts[..|acts| - 1]);
      StepKeeps(p, v, Run(p, s, acts[..|acts| - 1]).value, acts[|acts| - 1]);
    }
  }

  ghost predicate Finished<V>(p: Stencil<V>, s: State<V>) {
    forall b :: IsBlock(p, b) ==> !Unfinished(p, s, b)
  }

  predicate Interior<V>(p: Stencil<V>, c: Cell) {
    1 <= c.0 < 1 + p.blocks * p.size && 1 <= c.1 < 1 + p.blocks * p.size
  }

  lemma BlockOf<V>(p: Stencil<V>, x: int) returns (i: int)
    requires 1 <= x < 1 + p.blocks * p.size
    ensures 0 <= i < p.blocks && First(p, i) <= x < First(p, i) + p.size
  {
    i := 0;
    while First(p, i) + p.size <= x
      invariant 0 <= i < p.blocks && First(p, i) <= x
    {
      NextFirst(p, i);
      if i + 1 >= p.blocks {
        FirstMonotone(p, p.blocks, i + 1);
      }
      i := i + 1;
    }
  }

  /** One iteration, however its ULTs interleave, replaces every interior cell by the average of the old
      values of its neighbours and changes no other cell. */
  lemma IterationIsJacobi<V>(p: Stencil<V>, v: Grid<V>, s: State<V>, acts: seq<Block>, c: Cell)
    requires IsStart(p, v, s) && Run(p, s, acts).Some? && Finished(p, Run(p, s, acts).value)
    ensures Val(p, Run(p, s, acts).value.values, c) == if Interior(p, c) then Average(p, v, c) else Val(p, v, c)
  {
    RunKeeps(p, v, s, acts);
    var t := Run(p, s, acts).value;
    if Interior(p, c) {
      var i := BlockOf(p, c.0);
      var j := BlockOf(p, c.1);
      var b := (i, j);
      InProgram(p, b, Write(c));
      assert CellInv(p, v, t, b, c) && BlockInv(p, t, b) && !Unfinished(p, t, b);
      var k :| 0 <= k < |Program(p, b)| && Program(p, b)[k] == Write(c);
      assert Among(Program(p, b), Pc(t, b), Write(c));
    } else {
      forall b | IsBlock(p, b) ensures !InBlock(p, b, c) {
        InteriorBlock(p, b);
      }
      assert OutsideInv(p, v, t, c);
    }
  }

  lemma InteriorBlock<V>(p: Stencil<V>, b: Block)
    requires IsBlock(p, b)
    ensures First(p, b.0) >= 1 && First(p, b.0) + p.size <= 1 + p.blocks * p.size
    ensures First(p, b.1) >= 1 && First(p, b.1) + p.size <= 1 + p.blocks * p.size
  {
    NextFirst(p, b.0);
    NextFirst(p, b.1);
    FirstMonotone(p, b.0 + 1, p.blocks);
    FirstMonotone(p, b.1 + 1, p.blocks);
    FirstMonotone(p, 0, b.0);
    FirstMonotone(p, 0, b.1);
  }

  lemma NotDoneUnfinished<V>(p: Stencil<V>, s: State<V>, b: Block, o: Op)
    requires IsBlock(p, b) && o in Program(p, b) && !Done(p, s, b, o)
    ensures Unfinished(p, s, b) && Phase(Next(p, s, b)) <= Phase(o)
  {
    var k :| 0 <= k < |Program(p, b)| && Program(p, b)[k] == o;
    assert Unfinished(p, s, b);
    ByPhase(p, s, b, o);
  }

  /** No ULT can be stuck at a wait: while one is unfinished, some ULT can take a step. */
  lemma NeverStuck<V>(p: Stencil<V>, v: Grid<V>, s: State<V>, acts: seq<Block>, b: Block) returns (d: Block)
    requires IsStart(p, v, s) && Run(p, s, acts).Some? && Unfinished(p, Run(p, s, acts).value, b)
    ensures Enabled(p, Run(p, s, acts).value, d)
  {
    RunKeeps(p, v, s, acts);
    var t := Run(p, s, acts).value;
    if Enabled(p, t, b) {
      d := b;
    } else {
      var q := Next(p, t, b).q;
      d := WhoSignals(p, b, q);
      assert FlagInv(p, t, q);
      NotDoneUnfinished(p, t, d, Signal(q));
    }
  }

  // ----- any number of iterations -----

  /** The sequential program: the value of a cell after n steps, each of which replaces every interior cell
      by the average of its neighbours. */
  function Iterated<V>(p: Stencil<V>, v: Grid<V>, n: nat, c: Cell): V
    decreases n
  {
    if n == 0 then Val(p, v, c)
    else if !Interior(p, c) then Iterated(p, v, n - 1, c)
    else p.avg(Iterated(p, v, n - 1, Left(c)), Iterated(p, v, n - 1, Right(c)),
               Iterated(p, v, n - 1, Up(c)), Iterated(p, v, n - 1, Down(c)))
  }

  /** run(): each iteration starts from the grid that the one before left, with the flags cleared, and
      ends when all ULTs are joined. */
  ghost predicate Iterations<V>(p: Stencil<V>, starts: seq<State<V>>, runs: seq<seq<Block>>, v: Grid<V>, v': Grid<V>) {
    |starts| == |runs| &&
    if runs == [] then v' == v
    else
      var n := |runs| - 1;
      IsStart(p, starts[n].values, starts[n]) && Run(p, starts[n], runs[n]).Some? &&
      Finished(p, Run(p, starts[n], runs[n]).value) && Run(p, starts[n], runs[n]).value.values == v' &&
      Iterations(p, starts[..n], runs[..n], v, starts[n].values)
  }

  /** After niterations the grid is that of the sequential program, for every interleaving of every iteration. */
  lemma {:induction false} RunIsSequential<V>(p: Stencil<V>, starts: seq<State<V>>, runs: seq<seq<Block>>, v: Grid<V>, v': Grid<V>, c: Cell)
    requires Iterations(p, starts, runs, v, v')
    ensures Val(p, v', c) == Iterated(p, v, |runs|, c)
    decreases |runs|
  {
    if runs != [] {
      var n := |runs| - 1;
      IterationIsJacobi(p, starts[n].values, starts[n], runs[n], c);
      RunIsSequential(p, starts[..n], runs[..n], v, starts[n].values, c);
      RunIsSequential(p, starts[..n], runs[..n], v, starts[n].values, Left(c));
      RunIsSequential(p, starts[..n], runs[..n], v, starts[n].values, Right(c));
      RunIsSequential(p, starts[..n], runs[..n], v, starts[n].values, Up(c));
      RunIsSequential(p, starts[..n], runs[..n], v, starts[n].values, Down(c));
    }
  }
}
