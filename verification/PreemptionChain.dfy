/** The chain of preemption signals in a group of ESs that share one timer: each handler passes the signal
    on to the next preemptive ES, around the circle. Handlers are atomic. */
module PreemptionChain {
  import opened Basics

  /** index_next (-1 is none), index_until and in_chain of a preemption group. */
  datatype State = State(next: int, until: int, inChain: bool)

  /** The preemptive ESs of the group, by index. */
  type Flags = seq<bool>

  function Succ(i: nat, n: nat): nat
    requires n > 0
  {
    (i + 1) % n
  }

  lemma SuccIs(i: nat, n: nat)
    requires i < n
    ensures Succ(i, n) == if i + 1 < n then i + 1 else 0
  {
  }

  /** The next preemptive ES from k on around the circle, before `until`. */
  function Search(f: Flags, k: nat, until: nat, steps: nat): Option<nat>
    requires k < |f| && until < |f|
    decreases steps
  {
    if k == until || steps == 0 then None
    else if f[k] then Some(k)
    else Search(f, Succ(k, |f|), until, steps - 1)
  }

  /** preempt_another, on the ES of index i: the new state, and the ES to signal. */
  function Handle(f: Flags, s: State, i: nat): (State, Option<nat>)
    requires i < |f| && (s.inChain ==> 0 <= s.until < |f|)
  {
    if s.next != -1 && s.next != i then (State(-1, s.until, false), None)
    else
      var until := if s.inChain then s.until else i;
      match Search(f, Succ(i, |f|), until, |f|)
      case None => (State(-1, until, false), None)
      case Some(j) => (State(j, until, true), Some(j))
  }

  /** preempt_first, on the dedicated timer. */
  function First(f: Flags, k: nat): Option<nat>
    requires k <= |f|
    decreases |f| - k
  {
    if k == |f| then None else if f[k] then Some(k) else First(f, k + 1)
  }

  function HandleFirst(f: Flags, s: State): (State, Option<nat>) {
    if s.inChain then (s, None)
    else
      match First(f, 0)
      case None => (s, None)
      case Some(i) => (State(i, 0, true), Some(i))
  }

  class Group {
    var indexNext: int
    var indexUntil: int
    var inChain: bool
    var preemptive: Flags

    ghost function Contents(): State
      reads this
    {
      State(indexNext, indexUntil, inChain)
    }

    /** index_until is not set before the first chain. */
    constructor (f: Flags, until: int)
      ensures Contents() == State(-1, until, false) && preemptive == f
    {
      indexNext, indexUntil, inChain, preemptive := -1, until, false, f;
    }

    method PreemptAnother(i: nat) returns (signalled: Option<nat>)
      requires i < |preemptive| && (inChain ==> 0 <= indexUntil < |preemptive|)
      modifies `indexNext, `indexUntil, `inChain
      ensures (Contents(), signalled) == Handle(preemptive, old(Contents()), i)
    {
      signalled := None;
      if indexNext == -1 {
        indexNext := i;
      }
      if indexNext != i {
        indexNext, inChain := -1, false;
        return;
      }
      if !inChain {
        inChain, indexUntil := true, i;
      }
      var next := (indexNext + 1) % |preemptive|;
      ghost var steps: nat := |preemptive|;
      ghost var until: nat := indexUntil;
      Distance(next, until, |preemptive|);
      while next != indexUntil
        invariant 0 <= next < |preemptive| && indexUntil == until && indexNext == i && inChain
        invariant Gap(next, until, |preemptive|) <= steps
        invariant Search(preemptive, Succ(i, |preemptive|), until, |preemptive|) == Search(preemptive, next, until, steps)
        decreases steps
      {
        if preemptive[next] {
          indexNext := next;
          return Some(next);
        }
        Distance(next, until, |preemptive|);
        next := (next + 1) % |preemptive|;
        steps := steps - 1;
      }
      inChain := false;
      indexNext := -1;
    }

    method PreemptFirst() returns (signalled: Option<nat>)
      modifies `indexNext, `indexUntil, `inChain
      ensures (Contents(), signalled) == HandleFirst(preemptive, old(Contents()))
    {
      signalled := None;
      if inChain {
        return;
      }
      for i := 0 to |preemptive|
        invariant First(preemptive, 0) == First(preemptive, i) && Contents() == old(Contents())
      {
        if preemptive[i] {
          indexNext, indexUntil, inChain := i, 0, true;
          return Some(i);
        }
      }
    }
  }

  // ----- the circle -----

  /** How many steps around the circle lead from k to `until`; none when they are equal. */
  function Gap(k: nat, until: nat, n: nat): nat
    requires k < n && until < n
  {
    if k <= until then until - k else until + n - k
  }

  lemma Distance(k: nat, until: nat, n: nat)
    requires k < n && until < n
    ensures Succ(k, n) < n && Gap(k, until, n) < n
    ensures k != until ==> Gap(Succ(k, n), until, n) == Gap(k, until, n) - 1
  {
    SuccIs(k, n);
  }

  /** The search has enough steps, and what it finds is preemptive and nearer. */
  lemma {:induction false} SearchFinds(f: Flags, k: nat, until: nat, steps: nat)
    requires k < |f| && until < |f|
    ensures Search(f, k, until, steps).Some? ==>
      var j := Search(f, k, until, steps).value; j < |f| && f[j] && j != until && Gap(j, until, |f|) <= Gap(k, until, |f|)
    decreases steps
  {
    if k != until && steps > 0 && !f[k] {
      Distance(k, until, |f|);
      SearchFinds(f, Succ(k, |f|), until, steps - 1);
    }
  }

  /** The preemptive ESs from k on, in cyclic order, before `until`. */
  function Ahead(f: Flags, k: nat, until: nat): seq<nat>
    requires k < |f| && until < |f|
    decreases Gap(k, until, |f|)
  {
    if k == until then []
    else
      Distance(k, until, |f|);
      (if f[k] then [k] else []) + Ahead(f, Succ(k, |f|), until)
  }

  lemma {:induction false} SearchIsHead(f: Flags, k: nat, until: nat, steps: nat)
    requires k < |f| && until < |f| && Gap(k, until, |f|) <= steps
    ensures Ahead(f, k, until) ==
      match Search(f, k, until, steps)
      case None => []
      case Some(j) => if j < |f| then [j] + Ahead(f, Succ(j, |f|), until) else []
    decreases steps
  {
    if k == until {
    } else if f[k] {
    } else {
      Distance(k, until, |f|);
      SearchFinds(f, Succ(k, |f|), until, steps - 1);
      SearchIsHead(f, Succ(k, |f|), until, steps - 1);
    }
  }

  // ----- an undisturbed chain -----

  /** Each handler runs when its signal arrives, and nothing else happens: the ESs signalled from ES i's
      handler on, and the state at the end. */
  function Cascade(f: Flags, s: State, i: nat): (seq<nat>, State)
    requires i < |f| && (s.inChain ==> 0 <= s.until < |f|) && (s.inChain <==> s.next != -1) && (s.inChain ==> s.next == i)
    decreases if s.inChain && s.next != s.until then Gap(i, s.until, |f|) else |f|, if s.inChain then 0 else 1
  {
    var (s', j) := Handle(f, s, i);
    if j.None? then ([], s')
    else
      HandleNearer(f, s, i);
      var (rest, t) := Cascade(f, s', j.value);
      ([j.value] + rest, t)
  }

  lemma HandleNearer(f: Flags, s: State, i: nat)
    requires i < |f| && (s.inChain ==> 0 <= s.until < |f|) && (s.inChain <==> s.next != -1)
    ensures var (s', j) := Handle(f, s, i);
      && (s'.inChain ==> 0 <= s'.until < |f|) && (s'.inChain <==> s'.next != -1) && (s'.inChain <==> j.Some?)
      && (j.Some? ==>
        && j.value < |f| && f[j.value] && s'.next == j.value != s'.until && (s.inChain ==> s.next == i && s'.until == s.until)
        && Gap(j.value, s'.until, |f|) < (if s.inChain && s.next != s.until then Gap(i, s'.until, |f|) else |f|))
  {
    var until := if s.inChain then s.until else i;
    Distance(i, until, |f|);
    SearchFinds(f, Succ(i, |f|), until, |f|);
    Distance(Succ(i, |f|), until, |f|);
  }

  /** From a handler in the chain on, exactly the preemptive ESs ahead are signalled, in cyclic order. */
  lemma {:induction false} CascadeIsAhead(f: Flags, s: State, i: nat)
    requires i < |f| && (s.inChain ==> 0 <= s.until < |f|) && (s.inChain <==> s.next != -1) && (s.inChain ==> s.next == i)
    ensures var until := if s.inChain then s.until else i;
      Cascade(f, s, i) == (Ahead(f, Succ(i, |f|), until), State(-1, until, false))
    decreases if s.inChain && s.next != s.until then Gap(i, s.until, |f|) else |f|, if s.inChain then 0 else 1
  {
    var until := if s.inChain then s.until else i;
    Distance(i, until, |f|);
    Distance(Succ(i, |f|), until, |f|);
    SearchIsHead(f, Succ(i, |f|), until, |f|);
    var (s', j) := Handle(f, s, i);
    HandleNearer(f, s, i);
    if j.Some? {
      CascadeIsAhead(f, s', j.value);
    }
  }

  lemma {:induction false} AheadMembers(f: Flags, k: nat, until: nat, j: nat)
    requires k < |f| && until < |f|
    ensures multiset(Ahead(f, k, until))[j] ==
      if j < |f| && f[j] && j != until && Gap(j, until, |f|) <= Gap(k, until, |f|) then 1 else 0
    decreases Gap(k, until, |f|)
  {
    if k != until {
      Distance(k, until, |f|);
      AheadMembers(f, Succ(k, |f|), until, j);
      if j < |f| && Gap(j, until, |f|) == Gap(k, until, |f|) {
        SameGap(j, k, until, |f|);
      }
    }
  }

  lemma SameGap(j: nat, k: nat, until: nat, n: nat)
    requires j < n && k < n && until < n && Gap(j, until, n) == Gap(k, until, n)
    ensures j == k
  {
  }

  lemma FullCircle(i: nat, j: nat, n: nat)
    requires i < n
    ensures Succ(i, n) < n
    ensures j < n && j != i ==> Gap(j, i, n) <= Gap(Succ(i, n), i, n)
  {
    SuccIs(i, n);
  }

  /** From the one after k up to 0, around the end of the circle. */
  lemma UpToEnd(k: nat, j: nat, n: nat)
    requires k < n
    ensures Succ(k, n) < n
    ensures j < n && j != 0 ==> (Gap(j, 0, n) <= Gap(Succ(k, n), 0, n) <==> j > k)
    ensures j < n && j > k ==> j != 0
  {
    SuccIs(k, n);
  }

  /** An undisturbed tick at ES i, in an idle group, signals every other preemptive ES exactly once, and the
      group is idle again. */
  lemma TickVisitsAll(f: Flags, until: int, i: nat, j: nat)
    requires i < |f|
    ensures var (signalled, s) := Cascade(f, State(-1, until, false), i);
      && multiset(signalled)[j] == (if j < |f| && f[j] && j != i then 1 else 0)
      && s.next == -1 && !s.inChain
  {
    CascadeIsAhead(f, State(-1, until, false), i);
    Distance(i, i, |f|);
    AheadMembers(f, Succ(i, |f|), i, j);
    FullCircle(i, j, |f|);
  }

  lemma {:induction false} FirstFinds(f: Flags, k: nat)
    requires k <= |f|
    ensures First(f, k).Some? ==>
      k <= First(f, k).value < |f| && f[First(f, k).value] && forall j :: k <= j < First(f, k).value ==> !f[j]
    ensures First(f, k).None? ==> forall j :: k <= j < |f| ==> !f[j]
    decreases |f| - k
  {
    if k < |f| && !f[k] {
      FirstFinds(f, k + 1);
    }
  }

  /** A tick of the dedicated timer in an idle group signals the first preemptive ES. */
  lemma TimerStarts(f: Flags, until: int)
    ensures var (s, i) := HandleFirst(f, State(-1, until, false));
      && (i.None? ==> s.next == -1 && !s.inChain && forall j :: 0 <= j < |f| ==> !f[j])
      && (i.Some? ==> s == State(i.value, 0, true) && i.value < |f| && f[i.value] && forall j :: 0 <= j < i.value ==> !f[j])
  {
    FirstFinds(f, 0);
  }

  /** Then the chain signals every other preemptive ES, all of them once. */
  lemma TimerVisitsAll(f: Flags, k: nat, j: nat)
    requires k < |f| && f[k] && forall i :: 0 <= i < k ==> !f[i]
    ensures multiset([k] + Cascade(f, State(k, 0, true), k).0)[j] == if j < |f| && f[j] then 1 else 0
  {
    var ahead := Ahead(f, Succ(k, |f|), 0);
    CascadeIsAhead(f, State(k, 0, true), k);
    UpToEnd(k, j, |f|);
    AheadMembers(f, Succ(k, |f|), 0, j);
    assert multiset([k] + ahead) == multiset{k} + multiset(ahead);
  }

  /** A tick of the dedicated timer while a chain is under way signals nobody, and the chain still reaches
      exactly the preemptive ESs that were ahead of it. */
  lemma TimerLeavesChain(f: Flags, s: State, i: nat)
    requires i < |f| && s.inChain && s.next == i && 0 <= s.until < |f|
    ensures var (s', j) := HandleFirst(f, s);
      && j.None? && s'.inChain && s'.next == i && 0 <= s'.until < |f|
      && Cascade(f, s', i) == (Ahead(f, Succ(i, |f|), s.until), State(-1, s.until, false))
  {
    CascadeIsAhead(f, s, i);
  }

  /** A signal that reaches an ES out of turn ends the chain without signalling anybody: the next tick, at
      any ES, starts a full round. */
  lemma StrayEndsChain(f: Flags, s: State, i: nat, k: nat, j: nat)
    requires i < |f| && k < |f| && s.inChain && 0 <= s.until < |f| && s.next != -1 && s.next != i
    ensures var (s', to) := Handle(f, s, i);
      && to.None? && !s'.inChain && s'.next == -1
      && multiset(Cascade(f, s', k).0)[j] == (if j < |f| && f[j] && j != k then 1 else 0)
  {
    TickVisitsAll(f, Handle(f, s, i).0.until, k, j);
  }

  // ----- stray ticks -----

  /** A group, and how many signals are pending at each ES. */
  datatype World = World(s: State, pending: multiset<nat>)

  /** One handler runs on an ES with a pending signal; which ESs are preemptive may change in between. */
  predicate CanHandle(f: Flags, w: World, i: nat) {
    i < |f| && (w.s.inChain ==> 0 <= w.s.until < |f|) && i in w.pending
  }

  function DoHandle(f: Flags, w: World, i: nat): World
    requires CanHandle(f, w, i)
  {
    var (s, j) := Handle(f, w.s, i);
    World(s, w.pending - multiset{i} + (if j.Some? then multiset{j.value} else multiset{}))
  }

  predicate WorldInv(n: nat, w: World) {
    && (w.s.inChain ==> 0 <= w.s.until < n) && (w.s.inChain <==> w.s.next != -1) && (w.s.inChain ==> 0 <= w.s.next < n)
    && forall i :: i in w.pending ==> i < n
  }

  /** The signals that are pending, then the distance that the chain has still to go. */
  function Measure(n: nat, w: World): nat
    requires WorldInv(n, w)
  {
    |w.pending| * (n + 2) +
    (if !w.s.inChain then n + 1 else if w.s.next == w.s.until then n else Gap(w.s.next, w.s.until, n))
  }

  /** Any tick, of an ES's own timer or of the dedicated one, leaves a state from which this counts. */
  lemma TicksKeep(f: Flags, w: World, i: nat)
    requires WorldInv(|f|, w)
    ensures i < |f| ==> WorldInv(|f|, w.(pending := w.pending + multiset{i}))
    ensures var (s, j) := HandleFirst(f, w.s);
      WorldInv(|f|, World(s, if j.Some? then w.pending + multiset{j.value} else w.pending))
  {
    FirstFinds(f, 0);
  }

  lemma HandleDecreases(f: Flags, w: World, i: nat)
    requires CanHandle(f, w, i) && WorldInv(|f|, w)
    ensures WorldInv(|f|, DoHandle(f, w, i)) && Measure(|f|, DoHandle(f, w, i)) < Measure(|f|, w)
  {
    var w' := DoHandle(f, w, i);
    HandleNearer(f, w.s, i);
    if Handle(f, w.s, i).1.None? {
      assert |w'.pending| == |w.pending| - 1;
      assert (|w.pending| - 1) * (|f| + 2) == |w.pending| * (|f| + 2) - (|f| + 2);
    } else {
      assert |w'.pending| == |w.pending|;
    }
  }

  /** A run of handlers after the timers have stopped: the ESs, and who is preemptive each time. */
  function Run(n: nat, w: World, acts: seq<(Flags, nat)>): Option<World> {
    if acts == [] then Some(w)
    else
      match Run(n, w, acts[..|acts| - 1])
      case None => None
      case Some(v) =>
        var (f, i) := acts[|acts| - 1];
        if |f| == n && CanHandle(f, v, i) then Some(DoHandle(f, v, i)) else None
  }

  /** Whatever ticks went astray before, once the timers stop the signals die out. */
  lemma {:induction false} CascadeDiesOut(n: nat, w: World, acts: seq<(Flags, nat)>)
    requires WorldInv(n, w) && Run(n, w, acts).Some?
    ensures WorldInv(n, Run(n, w, acts).value)
    ensures |acts| + Measure(n, Run(n, w, acts).value) <= Measure(n, w)
  {
    if acts != [] {
      var before := acts[..|acts| - 1];
      CascadeDiesOut(n, w, before);
      HandleDecreases(acts[|acts| - 1].0, Run(n, w, before).value, acts[|acts| - 1].1);
    }
  }
}
