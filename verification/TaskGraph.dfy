/** The OpenMP task graph that `potrf` submits, and why its sparse set of `depend` tokens
    is enough: every execution order it allows leaves the same tiles. */
module TaskGraph {
  import opened TileDataflow

  datatype Task = Panel(k: nat) | Look(k: nat, n: nat) | Trail(k: nat)

  predicate IsTask(t: Task, nt: nat, la: nat) {
    match t
    case Panel(k) => k < nt
    case Look(k, n) => k < n < nt && n < k + 1 + la
    case Trail(k) => k + 1 + la < nt
  }

  /** The elements of `column` a task names in a depend(in:...) clause. */
  function In(t: Task): set<nat> {
    match t
    case Panel(k) => {}
    case Look(k, n) => {k}
    case Trail(k) => {k}
  }

  /** The elements of `column` a task names in a depend(inout:...) clause. Trail writes a whole
      range of columns but names only the first and the last. */
  function InOut(t: Task, nt: nat, la: nat): set<nat>
    requires IsTask(t, nt, la)
  {
    match t
    case Panel(k) => {k}
    case Look(k, n) => {n}
    case Trail(k) => {k + 1 + la, nt - 1}
  }

  predicate CreatedBefore(a: Task, b: Task) {
    a.k < b.k || (a.k == b.k && !b.Panel? && (a.Panel? || (a.Look? && (b.Trail? || a.n < b.n))))
  }

  /** Section 2.13.9 of OpenMP 4.5: `b` waits for the earlier sibling `a`. */
  predicate DependsOn(b: Task, a: Task, nt: nat, la: nat)
    requires IsTask(a, nt, la) && IsTask(b, nt, la)
  {
    && CreatedBefore(a, b)
    && (InOut(a, nt, la) * (In(b) + InOut(b, nt, la)) != {} || In(a) * InOut(b, nt, la) != {})
  }

  /** What the master thread's loop submits, in this order. */
  ghost predicate IsSubmission(tasks: seq<Task>, nt: nat, la: nat) {
    && (forall t :: t in tasks <==> IsTask(t, nt, la))
    && forall i, j :: 0 <= i < j < |tasks| ==> CreatedBefore(tasks[i], tasks[j])
  }

  method SubmitTasks(nt: nat, la: nat) returns (tasks: seq<Task>)
    ensures IsSubmission(tasks, nt, la)
  {
    tasks := [];
    var k := 0;
    while k < nt
      invariant 0 <= k <= nt
      invariant forall t :: t in tasks <==> IsTask(t, nt, la) && t.k < k
      invariant forall i, j :: 0 <= i < j < |tasks| ==> CreatedBefore(tasks[i], tasks[j])
    {
      tasks := tasks + [Panel(k)];
      var n := k + 1;
      while n < k + 1 + la && n < nt
        invariant k + 1 <= n <= nt && n <= k + 1 + la
        invariant forall t :: t in tasks <==>
          IsTask(t, nt, la) && (t.k < k || (t.k == k && (t.Panel? || (t.Look? && t.n < n))))
        invariant forall i, j :: 0 <= i < j < |tasks| ==> CreatedBefore(tasks[i], tasks[j])
      {
        tasks := tasks + [Look(k, n)];
        n := n + 1;
      }
      if k + 1 + la < nt {
        tasks := tasks + [Trail(k)];
      }
      k := k + 1;
    }
  }

  /** The task whose body, or whose child task, makes the kernel call. */
  function TaskOf(o: Op, la: nat): (t: Task)
    ensures t.k == o.k
    ensures forall nt: nat :: IsOp(o, nt) ==> IsTask(t, nt, la)
  {
    match o
    case Potrf(k) => Panel(k)
    case Trsm(m, k) => Panel(k)
    case Syrk(n, k) => if n < k + 1 + la then Look(k, n) else Trail(k)
    case Gemm(m, n, k) => if n < k + 1 + la then Look(k, n) else Trail(k)
  }

  /** `a` must have run before `b` may start: either `a` is the panel's own potrf, made before its
      trsm children are created, or the task of `b` waits for the task of `a`. A task ends only
      after its children (each body ends in a taskwait), so the order covers all their calls. */
  predicate Before(a: Op, b: Op, nt: nat, la: nat)
    requires IsOp(a, nt) && IsOp(b, nt)
  {
    || (a.Potrf? && b.Trsm? && a.k == b.k)
    || DependsOn(TaskOf(b, la), TaskOf(a, la), nt, la)
  }

  /** No call is made twice, and none before one it must wait for. */
  ghost predicate IsRun(s: seq<Op>, nt: nat, la: nat) {
    && (forall o :: o in s ==> IsOp(o, nt))
    && forall i, j :: 0 <= i < j < |s| ==> s[i] != s[j] && !Before(s[j], s[i], nt, la)
  }

  /** An execution order the runtime may choose: all calls, interleaved across tasks at will. */
  ghost predicate IsSchedule(s: seq<Op>, nt: nat, la: nat) {
    IsRun(s, nt, la) && forall o :: IsOp(o, nt) ==> o in s
  }

  /** Consecutive overwrites of a tile are ordered by one token (five cases, one of them the hand-over
      of column k + 1 + la from the trailing update to the look-ahead). */
  lemma OverwritesOrdered(m: nat, n: nat, k: nat, nt: nat, la: nat)
    requires k < n <= m < nt
    ensures Before(OpAt(m, n, k), OpAt(m, n, k + 1), nt, la)
  {
    var ta, tb := TaskOf(OpAt(m, n, k), la), TaskOf(OpAt(m, n, k + 1), la);
    if ta.Look? || n == k + 1 + la {
      assert n in InOut(ta, nt, la) * InOut(tb, nt, la);
    } else {
      assert nt - 1 in InOut(ta, nt, la) * InOut(tb, nt, la);
    }
  }

  /** A tile is read only after its own panel has finished it: the in-token of the panel's column. */
  lemma SourcesOrdered(o: Op, p: Pos, nt: nat, la: nat)
    requires IsOp(o, nt) && p in o.Sources()
    ensures InLower(p, nt) && Before(OpAt(p.0, p.1, p.1), o, nt, la)
  {
    OpIsOpAt(o, nt);
    if !o.Trsm? {
      assert o.k in InOut(Panel(o.k), nt, la) * In(TaskOf(o, la));
    }
  }

  // ----- schedules exist: the program order, with any lookahead -----

  function ProgramOrder(nt: nat, k: nat, n: nat, m: nat): seq<Op>
    requires k <= n <= m <= nt
    decreases k, n, m
  {
    if n < m then ProgramOrder(nt, k, n, m - 1) + [OpAt(m - 1, n, k)]
    else if k < n then ProgramOrder(nt, k, n - 1, nt)
    else if 0 < k then ProgramOrder(nt, k - 1, nt, nt)
    else []
  }

  lemma {:induction false} MadeInProgramOrder(nt: nat, k: nat, n: nat, m: nat)
    requires k <= n <= m <= nt
    ensures Made(ProgramOrder(nt, k, n, m)) == UpTo(nt, k, n, m)
    decreases k, n, m
  {
    if n < m {
      MadeInProgramOrder(nt, k, n, m - 1);
      NextRow(nt, k, n, m - 1);
      var s, o := ProgramOrder(nt, k, n, m - 1), OpAt(m - 1, n, k);
      assert Made(s + [o]) == Made(s) + iset{o};
    } else if k < n {
      MadeInProgramOrder(nt, k, n - 1, nt);
      NextColumn(nt, k, n - 1);
    } else if 0 < k {
      MadeInProgramOrder(nt, k - 1, nt, nt);
      NextColumn(nt, k - 1, k - 1);
    }
  }

  lemma AppendRun(s: seq<Op>, o: Op, nt: nat, la: nat)
    requires IsRun(s, nt, la) && IsOp(o, nt)
    requires forall x :: x in s ==> IsOp(x, nt) && Earlier(x, o.k, o.Target().1, o.Target().0)
    ensures IsRun(s + [o], nt, la)
  {
    var t := s + [o];
    forall i, j | 0 <= i < j < |t| ensures t[i] != t[j] && !Before(t[j], t[i], nt, la) {
      if j == |s| {
        assert t[i] in s;
        assert !CreatedBefore(TaskOf(o, la), TaskOf(t[i], la));
      }
    }
  }

  lemma {:induction false} ProgramOrderRuns(nt: nat, la: nat, k: nat, n: nat, m: nat)
    requires k <= n <= m <= nt
    ensures IsRun(ProgramOrder(nt, k, n, m), nt, la)
    decreases k, n, m
  {
    if n < m {
      ProgramOrderRuns(nt, la, k, n, m - 1);
      MadeInProgramOrder(nt, k, n, m - 1);
      var s := ProgramOrder(nt, k, n, m - 1);
      forall x | x in s ensures IsOp(x, nt) && Earlier(x, k, n, m - 1) {
        assert x in Made(s);
      }
      AppendRun(s, OpAt(m - 1, n, k), nt, la);
    } else if k < n {
      ProgramOrderRuns(nt, la, k, n - 1, nt);
    } else if 0 < k {
      ProgramOrderRuns(nt, la, k - 1, nt, nt);
    }
  }

  lemma SerialSchedule(nt: nat, la: nat)
    ensures IsSchedule(ProgramOrder(nt, nt, nt, nt), nt, la)
  {
    ProgramOrderRuns(nt, la, nt, nt, nt);
    MadeInProgramOrder(nt, nt, nt, nt);
    forall o | IsOp(o, nt) ensures o in Made(ProgramOrder(nt, nt, nt, nt)) {
      OpIsOpAt(o, nt);
    }
  }

  // ----- every conflicting pair is ordered -----

  /** The two calls touch a common tile and at least one of them overwrites it. */
  predicate Conflict(a: Op, b: Op) {
    a != b && (a.Target() == b.Target() || a.Target() in b.Sources() || b.Target() in a.Sources())
  }

  ghost predicate Chain(p: seq<Op>, nt: nat, la: nat) {
    && |p| >= 2
    && (forall i :: 0 <= i < |p| ==> IsOp(p[i], nt))
    && forall i :: 0 <= i < |p| - 1 ==> Before(p[i], p[i + 1], nt, la)
  }

  ghost predicate HappensBefore(a: Op, b: Op, nt: nat, la: nat) {
    exists p :: Chain(p, nt, la) && p[0] == a && p[|p| - 1] == b
  }

  lemma ExtendChain(a: Op, b: Op, c: Op, nt: nat, la: nat)
    requires IsOp(a, nt) && IsOp(b, nt) && IsOp(c, nt) && Before(b, c, nt, la)
    requires a == b || HappensBefore(a, b, nt, la)
    ensures HappensBefore(a, c, nt, la)
  {
    if a == b {
      assert Chain([a, c], nt, la);
    } else {
      var p :| Chain(p, nt, la) && p[0] == a && p[|p| - 1] == b;
      assert Chain(p + [c], nt, la);
    }
  }

  lemma {:induction false} OverwriteChain(m: nat, n: nat, k: nat, l: nat, nt: nat, la: nat)
    requires k < l <= n <= m < nt
    ensures HappensBefore(OpAt(m, n, k), OpAt(m, n, l), nt, la)
    decreases l
  {
    if k + 1 < l {
      OverwriteChain(m, n, k, l - 1, nt, la);
    }
    OverwritesOrdered(m, n, l - 1, nt, la);
    ExtendChain(OpAt(m, n, k), OpAt(m, n, l - 1), OpAt(m, n, l), nt, la);
  }

  lemma OverwriteThenRead(a: Op, b: Op, nt: nat, la: nat)
    requires IsOp(a, nt) && IsOp(b, nt) && a.Target() in b.Sources()
    ensures HappensBefore(a, b, nt, la)
  {
    OpIsOpAt(a, nt);
    OpIsOpAt(b, nt);
    var p := a.Target();
    SourcesOrdered(b, p, nt, la);
    if a.k < p.1 {
      OverwriteChain(p.0, p.1, a.k, p.1, nt, la);
    }
    ExtendChain(a, OpAt(p.0, p.1, p.1), b, nt, la);
  }

  /** No data race, for every number of tiles and every lookahead. */
  lemma ConflictsOrdered(a: Op, b: Op, nt: nat, la: nat)
    requires IsOp(a, nt) && IsOp(b, nt) && Conflict(a, b)
    ensures HappensBefore(a, b, nt, la) || HappensBefore(b, a, nt, la)
  {
    OpIsOpAt(a, nt);
    OpIsOpAt(b, nt);
    var p := a.Target();
    if p in b.Sources() {
      OverwriteThenRead(a, b, nt, la);
    } else if b.Target() in a.Sources() {
      OverwriteThenRead(b, a, nt, la);
    } else if a.k < b.k {
      OverwriteChain(p.0, p.1, a.k, b.k, nt, la);
    } else {
      OverwriteChain(p.0, p.1, b.k, a.k, nt, la);
    }
  }

  // ----- every schedule leaves the factor -----

  // ----- and no more than needed -----

  /** The place of a kernel within its step: the diagonal tile, the solves, the updates. */
  function Rank(o: Op): nat {
    if o.Potrf? then 0 else if o.Trsm? then 1 else 2
  }

  lemma BeforeRises(a: Op, b: Op, nt: nat, la: nat)
    requires IsOp(a, nt) && IsOp(b, nt) && Before(a, b, nt, la)
    ensures a.k < b.k || (a.k == b.k && Rank(a) < Rank(b))
  {
  }

  lemma ChainTail(p: seq<Op>, nt: nat, la: nat)
    requires Chain(p, nt, la) && |p| > 2
    ensures Chain(p[1..], nt, la)
  {
    var q := p[1..];
    forall i | 0 <= i < |q| ensures IsOp(q[i], nt) {
      assert q[i] == p[i + 1];
    }
    forall i | 0 <= i < |q| - 1 ensures Before(q[i], q[i + 1], nt, la) {
      assert Before(p[i + 1], p[i + 2], nt, la);
    }
  }

  lemma {:induction false} ChainRises(p: seq<Op>, nt: nat, la: nat)
    requires Chain(p, nt, la)
    ensures p[0].k < p[|p| - 1].k || (p[0].k == p[|p| - 1].k && Rank(p[0]) < Rank(p[|p| - 1]))
    decreases |p|
  {
    BeforeRises(p[0], p[1], nt, la);
    if |p| > 2 {
      ChainTail(p, nt, la);
      ChainRises(p[1..], nt, la);
    }
  }

  /** Within one step only the panel is ordered before the rest, and in the panel the diagonal tile before
      the solves: no two solves and no two updates are, be they of look-ahead columns or of the trailing part. */
  lemma SameStepOrder(a: Op, b: Op, nt: nat, la: nat)
    requires IsOp(a, nt) && IsOp(b, nt) && a.k == b.k
    ensures HappensBefore(a, b, nt, la) <==> Rank(a) < Rank(b)
  {
    if HappensBefore(a, b, nt, la) {
      var p :| Chain(p, nt, la) && p[0] == a && p[|p| - 1] == b;
      ChainRises(p, nt, la);
    }
    if Rank(a) < Rank(b) {
      assert Before(a, b, nt, la);
      ExtendChain(a, a, b, nt, la);
    }
  }

  /** What depends on a kernel behind the look-ahead of step k is behind it, too. */
  lemma LateStays(a: Op, b: Op, k: nat, nt: nat, la: nat)
    requires IsOp(a, nt) && IsOp(b, nt) && Before(a, b, nt, la) && k <= a.k && k + la < a.Target().1
    ensures k <= b.k && k + la < b.Target().1
  {
    BeforeRises(a, b, nt, la);
  }

  lemma {:induction false} LateChain(p: seq<Op>, k: nat, nt: nat, la: nat)
    requires Chain(p, nt, la) && k <= p[0].k && k + la < p[0].Target().1
    ensures k + la < p[|p| - 1].Target().1
    decreases |p|
  {
    LateStays(p[0], p[1], k, nt, la);
    if |p| > 2 {
      ChainTail(p, nt, la);
      LateChain(p[1..], k, nt, la);
    }
  }

  /** What the look-ahead is for: the trailing update of a step holds up no later kernel on the columns within
      the look-ahead, the panels of the next steps included. */
  lemma LookaheadOverlaps(a: Op, b: Op, nt: nat, la: nat)
    requires IsOp(a, nt) && IsOp(b, nt) && TaskOf(a, la).Trail? && a.k < b.k && b.Target().1 <= a.k + la
    ensures !HappensBefore(a, b, nt, la) && !HappensBefore(b, a, nt, la)
  {
    if p :| Chain(p, nt, la) && p[0] == a && p[|p| - 1] == b {
      LateChain(p, a.k, nt, la);
    }
    if p :| Chain(p, nt, la) && p[0] == b && p[|p| - 1] == a {
      ChainRises(p, nt, la);
    }
  }

  lemma {:induction false} StepsInOrder(s: seq<Op>, i: nat, m: nat, n: nat, k: nat, nt: nat, la: nat)
    requires IsSchedule(s, nt, la) && i < |s| && n <= m < nt && k <= n
    requires s[i] == OpAt(m, n, k)
    ensures forall l: nat :: l < k ==> OpAt(m, n, l) in s[..i]
  {
    if k > 0 {
      var o := OpAt(m, n, k - 1);
      OverwritesOrdered(m, n, k - 1, nt, la);
      assert o in s;
      var j :| 0 <= j < |s| && s[j] == o;
      StepsInOrder(s, j, m, n, k - 1, nt, la);
      assert forall x :: x in s[..j] ==> x in s[..i];
      assert s[..i][j] == o;
    }
  }

  lemma NextIsReady(s: seq<Op>, i: nat, nt: nat, la: nat)
    requires IsSchedule(s, nt, la) && i < |s|
    ensures s[i] in s && Ready(s[i], Made(s[..i]), nt)
  {
    var done := Made(s[..i]);
    var o := s[i];
    assert o in s;
    OpIsOpAt(o, nt);
    var (m, n) := o.Target();
    StepsInOrder(s, i, m, n, o.k, nt, la);
    forall k: nat | o.k < k <= n ensures OpAt(m, n, k) !in done {
      if OpAt(m, n, k) in done {
        var j :| 0 <= j < i && s[j] == OpAt(m, n, k);
        StepsInOrder(s, j, m, n, k, nt, la);
      }
    }
    forall p | p in o.Sources() ensures Finished(done, p) {
      SourcesOrdered(o, p, nt, la);
      var q := OpAt(p.0, p.1, p.1);
      assert q in s;
      var j :| 0 <= j < |s| && s[j] == q;
      StepsInOrder(s, j, p.0, p.1, p.1, nt, la);
      assert s[..i][j] == q;
      assert forall x :: x in s[..j] ==> x in s[..i];
    }
  }

  ghost predicate PrefixOps(p: seq<Op>, nt: nat) {
    forall o :: o in p ==> IsOp(o, nt)
  }

  lemma PrefixStep<T>(ks: Kernels<T>, a: Tiles<T>, q: seq<Op>, o: Op, s: seq<Op>, nt: nat, la: nat)
    requires HasLower(a, nt) && IsSchedule(s, nt, la) && q + [o] <= s
    requires PrefixOps(q, nt) && Exec(ks, q, nt, a) == TilesAt(ks, a, nt, Made(q))
    ensures PrefixOps(q + [o], nt) && Exec(ks, q + [o], nt, a) == TilesAt(ks, a, nt, Made(q + [o]))
  {
    assert q == s[..|q|] && o == s[|q|];
    NextIsReady(s, |q|, nt, la);
    ExecStep(ks, a, nt, q, o);
  }

  lemma {:induction false} PrefixTiles<T>(ks: Kernels<T>, a: Tiles<T>, p: seq<Op>, s: seq<Op>, nt: nat, la: nat)
    requires HasLower(a, nt) && IsSchedule(s, nt, la) && p <= s
    ensures PrefixOps(p, nt) && Exec(ks, p, nt, a) == TilesAt(ks, a, nt, Made(p))
    decreases |p|
  {
    if p == [] {
      TilesAtEnds(ks, a, nt, iset{});
      assert Made(p) == iset{};
    } else {
      var q, o := p[..|p| - 1], p[|p| - 1];
      assert p == q + [o];
      PrefixTiles(ks, a, q, s, nt, la);
      PrefixStep(ks, a, q, o, s, nt, la);
    }
  }

  /** The main theorem: any execution order allowed by the tokens, for any lookahead, any tile count
      and any kernels, leaves exactly the dataflow factor. */
  lemma ScheduleIndependence<T>(ks: Kernels<T>, a: Tiles<T>, s: seq<Op>, nt: nat, la: nat)
    requires HasLower(a, nt) && IsSchedule(s, nt, la)
    ensures Exec(ks, s, nt, a) == Factor(ks, a, nt)
  {
    PrefixTiles(ks, a, s, s, nt, la);
    TilesAtEnds(ks, a, nt, Made(s));
  }
}
