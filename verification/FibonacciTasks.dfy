/** The divide-and-conquer Fibonacci program: expand and aggregate tasks in one pool, run in any order,
    on nodes that are allocated and freed as the tree of calls grows and folds up. */
module FibonacciTasks {
  import opened Basics

  type Id = nat

  /** An exp_task_args record. */
  datatype Node = Node(n: int, result: int, flag: bool, parent: Option<Id>)

  datatype Task =
    | Expand(i: Id)
    | Aggregate(r: int, parent: Option<Id>)
    | Finish(q: Id)       // the second aggregation into q, after the mutex is released

  datatype State = State(
    nodes: map<Id, Node>,      // the records that are allocated
    tasks: multiset<Task>,
    next: Id,                 // records from here on have never been allocated
    eventual: seq<int>,        // the values that the eventual has been set to
    fault: bool                // a task has used a record that is not allocated
  )

  function Fib(n: int): (f: int)
    decreases if n <= 2 then 0 else n
  {
    if n <= 2 then 1 else Fib(n - 1) + Fib(n - 2)
  }

  /** fibonacci() up to its wait: the root record and its expand task. */
  function Start(n: int): State {
    State(map[0 := Node(n, 0, false, None)], multiset{Expand(0)}, 1, [], false)
  }

  /** The result goes to the parent, or to the eventual. */
  function Report(s: State, r: int, parent: Option<Id>): State {
    s.(tasks := s.tasks + multiset{Aggregate(r, parent)})
  }

  function Free(s: State, i: Id): State {
    s.(nodes := s.nodes - {i})
  }

  function DoExpand(s: State, i: Id): State
    requires i in s.nodes
  {
    var a := s.nodes[i];
    if a.n <= 2 then
      Free(if a.parent.Some? then Report(s, 1, a.parent) else s.(eventual := s.eventual + [1]), i)
    else
      var (c, d) := (s.next, s.next + 1);
      s.(nodes := s.nodes[c := Node(a.n - 1, 0, false, Some(i))][d := Node(a.n - 2, 0, false, Some(i))],
         tasks := s.tasks + multiset{Expand(c), Expand(d)}, next := s.next + 2)
  }

  /** The critical section of an aggregation into q: the second one goes on to finish q. */
  function DoAdd(s: State, r: int, q: Id): State
    requires q in s.nodes
  {
    var a := s.nodes[q];
    s.(nodes := s.nodes[q := a.(result := a.result + r, flag := true)],
       tasks := if a.flag then s.tasks + multiset{Finish(q)} else s.tasks)
  }

  function DoFinish(s: State, q: Id): State
    requires q in s.nodes
  {
    Free(Report(s, s.nodes[q].result, s.nodes[q].parent), q)
  }

  /** Runs one task that the pool holds. */
  function Do(s: State, t: Task): State {
    var s' := s.(tasks := s.tasks - multiset{t});
    match t
    case Expand(i) => if i in s.nodes then DoExpand(s', i) else s'.(fault := true)
    case Aggregate(r, None) => s'.(eventual := s.eventual + [r])
    case Aggregate(r, Some(q)) => if q in s.nodes then DoAdd(s', r, q) else s'.(fault := true)
    case Finish(q) => if q in s.nodes then DoFinish(s', q) else s'.(fault := true)
  }

  // ----- the tree that is still to fold up -----

  /** Where a result is due: the eventual, or one of the two summands of a record. */
  datatype Place = Root | Kid(q: Id, second: bool)

  /** What will bring it, or has brought it. */
  datatype Slot = Child(i: Id) | Due | Gone

  /** ex: the records whose expansion is done; slot: what is expected where; at: where each record's result goes. */
  datatype Tree = Tree(ex: set<Id>, slot: map<Place, Slot>, at: map<Id, Place>)

  function SlotOf(w: Tree, p: Place): Slot {
    if p in w.slot then w.slot[p] else Gone
  }

  /** The argument whose Fibonacci number is due at a place. */
  function ArgAt(n: int, s: State, p: Place): int {
    match p
    case Root => n
    case Kid(q, second) => if q in s.nodes then s.nodes[q].n - (if second then 2 else 1) else 0
  }

  predicate IsDue(n: int, s: State, w: Tree, p: Place, r: int) {
    SlotOf(w, p) == Due && r == Fib(ArgAt(n, s, p))
  }

  predicate BothGone(w: Tree, q: Id) {
    SlotOf(w, Kid(q, false)) == Gone && SlotOf(w, Kid(q, true)) == Gone
  }

  /** How many tasks of a kind the pool must hold. */
  function Expected(n: int, s: State, w: Tree, t: Task): nat {
    match t
    case Expand(i) => Flag(i in s.nodes && i !in w.ex)
    case Aggregate(r, None) => Flag(IsDue(n, s, w, Root, r))
    case Aggregate(r, Some(q)) =>
      if q in w.ex then Flag(IsDue(n, s, w, Kid(q, false), r)) + Flag(IsDue(n, s, w, Kid(q, true), r)) else 0
    case Finish(q) => Flag(q in w.ex && BothGone(w, q))
  }

  predicate TaskOk(n: int, s: State, w: Tree, t: Task) {
    s.tasks[t] == Expected(n, s, w, t)
  }

  /** A summand that has been added. */
  function Added(s: State, w: Tree, q: Id, second: bool): int {
    if SlotOf(w, Kid(q, second)) == Gone then Fib(ArgAt(0, s, Kid(q, second))) else 0
  }

  predicate NodeOk(n: int, s: State, w: Tree, i: Id) {
    i in s.nodes && i in w.at && i < s.next &&
    var a := s.nodes[i];
    var p := w.at[i];
    && p in w.slot && w.slot[p] == Child(i) && a.n == ArgAt(n, s, p)
    && a.parent == (if p.Root? then None else Some(p.q)) && (p.Kid? ==> p.q in w.ex)
    && (if i in w.ex then
          && a.n > 2 && Kid(i, false) in w.slot && Kid(i, true) in w.slot
          && a.result == Added(s, w, i, false) + Added(s, w, i, true)
          && (a.flag <==> SlotOf(w, Kid(i, false)) == Gone || SlotOf(w, Kid(i, true)) == Gone)
        else a.result == 0 && !a.flag)
  }

  predicate PlaceOk(s: State, w: Tree, p: Place) {
    p in w.slot ==>
      && (p.Kid? ==> p.q in w.ex)
      && (w.slot[p].Child? ==> w.slot[p].i in s.nodes && w.slot[p].i in w.at && w.at[w.slot[p].i] == p)
  }

  ghost predicate Inv(n: int, s: State, w: Tree) {
    && !s.fault && Root in w.slot && w.ex <= s.nodes.Keys
    && (forall t :: TaskOk(n, s, w, t))
    && (forall i :: i in s.nodes ==> NodeOk(n, s, w, i))
    && (forall p :: PlaceOk(s, w, p))
    && s.eventual == (if w.slot[Root] == Gone then [Fib(n)] else [])
  }

  function SetSlot(w: Tree, p: Place, x: Slot): Tree {
    w.(slot := w.slot[p := x])
  }

  /** The side of q that expects a result r from an aggregate task. */
  function DueSide(n: int, s: State, w: Tree, q: Id, r: int): bool {
    !IsDue(n, s, w, Kid(q, false), r)
  }

  function Track(n: int, s: State, w: Tree, t: Task): Tree {
    match t
    case Expand(i) =>
      if i !in s.nodes || i !in w.at then w
      else if s.nodes[i].n <= 2 then SetSlot(w, w.at[i], if w.at[i].Root? then Gone else Due)
      else Tree(w.ex + {i},
        w.slot[Kid(i, false) := Child(s.next)][Kid(i, true) := Child(s.next + 1)],
        w.at[s.next := Kid(i, false)][s.next + 1 := Kid(i, true)])
    case Aggregate(r, None) => SetSlot(w, Root, Gone)
    case Aggregate(r, Some(q)) => SetSlot(w, Kid(q, DueSide(n, s, w, q, r)), Gone)
    case Finish(q) =>
      if q !in w.at then w
      else Tree(w.ex - {q}, (w.slot - {Kid(q, false), Kid(q, true)})[w.at[q] := Due], w.at)
  }

  // ----- a leaf is expanded -----

  predicate LeafStep(n: int, s: State, w: Tree, i: Id) {
    i in s.nodes && i !in w.ex && s.nodes[i].n <= 2 && s.tasks[Expand(i)] == 1 && NodeOk(n, s, w, i)
  }

  lemma LeafElsewhere(n: int, s: State, w: Tree, i: Id, t: Task)
    requires LeafStep(n, s, w, i) && TaskOk(n, s, w, t) && w.ex <= s.nodes.Keys
    requires !(t.Aggregate? && t.parent == s.nodes[i].parent)
    ensures TaskOk(n, Do(s, Expand(i)), Track(n, s, w, Expand(i)), t)
  {
  }

  lemma LeafPending(n: int, s: State, w: Tree, i: Id, t: Task)
    requires LeafStep(n, s, w, i) && TaskOk(n, s, w, t) && w.ex <= s.nodes.Keys
    requires t.Aggregate? && t.parent == s.nodes[i].parent
    ensures TaskOk(n, Do(s, Expand(i)), Track(n, s, w, Expand(i)), t)
  {
  }

  lemma LeafTask(n: int, s: State, w: Tree, i: Id, t: Task)
    requires LeafStep(n, s, w, i) && TaskOk(n, s, w, t) && w.ex <= s.nodes.Keys
    ensures TaskOk(n, Do(s, Expand(i)), Track(n, s, w, Expand(i)), t)
  {
    if t.Aggregate? && t.parent == s.nodes[i].parent {
      LeafPending(n, s, w, i, t);
    } else {
      LeafElsewhere(n, s, w, i, t);
    }
  }

  lemma LeafNode(n: int, s: State, w: Tree, i: Id, j: Id)
    requires LeafStep(n, s, w, i) && j != i && NodeOk(n, s, w, j) && w.ex <= s.nodes.Keys
    ensures NodeOk(n, Do(s, Expand(i)), Track(n, s, w, Expand(i)), j)
  {
  }

  lemma LeafPlace(n: int, s: State, w: Tree, i: Id, p: Place)
    requires LeafStep(n, s, w, i) && PlaceOk(s, w, p)
    ensures PlaceOk(Do(s, Expand(i)), Track(n, s, w, Expand(i)), p)
  {
  }

  // ----- an inner node is expanded -----

  predicate InnerStep(n: int, s: State, w: Tree, i: Id) {
    i in s.nodes && i !in w.ex && s.nodes[i].n > 2 && s.tasks[Expand(i)] == 1 && NodeOk(n, s, w, i)
  }

  lemma InnerTask(n: int, s: State, w: Tree, i: Id, t: Task)
    requires InnerStep(n, s, w, i) && TaskOk(n, s, w, t) && w.ex <= s.nodes.Keys
    requires s.next !in s.nodes && s.next + 1 !in s.nodes && s.tasks[Finish(i)] == 0
    ensures TaskOk(n, Do(s, Expand(i)), Track(n, s, w, Expand(i)), t)
  {
  }

  lemma InnerNode(n: int, s: State, w: Tree, i: Id, j: Id)
    requires InnerStep(n, s, w, i) && (j in s.nodes ==> NodeOk(n, s, w, j)) && w.ex <= s.nodes.Keys
    requires s.next !in s.nodes && s.next + 1 !in s.nodes
    requires PlaceOk(s, w, Kid(i, false)) && PlaceOk(s, w, Kid(i, true))
    requires j in Do(s, Expand(i)).nodes
    ensures NodeOk(n, Do(s, Expand(i)), Track(n, s, w, Expand(i)), j)
  {
  }

  lemma InnerPlace(n: int, s: State, w: Tree, i: Id, p: Place)
    requires InnerStep(n, s, w, i) && PlaceOk(s, w, p)
    requires s.next !in s.nodes && s.next + 1 !in s.nodes
    ensures PlaceOk(Do(s, Expand(i)), Track(n, s, w, Expand(i)), p)
  {
  }

  // ----- a result is added to a node -----

  predicate AddStep(n: int, s: State, w: Tree, r: int, q: Id) {
    q in w.ex && s.tasks[Aggregate(r, Some(q))] > 0 && TaskOk(n, s, w, Aggregate(r, Some(q))) && NodeOk(n, s, w, q)
  }

  lemma AddElsewhere(n: int, s: State, w: Tree, r: int, q: Id, t: Task)
    requires AddStep(n, s, w, r, q) && TaskOk(n, s, w, t) && w.ex <= s.nodes.Keys
    requires t != Finish(q) && !(t.Aggregate? && t.parent == Some(q))
    ensures TaskOk(n, Do(s, Aggregate(r, Some(q))), Track(n, s, w, Aggregate(r, Some(q))), t)
  {
  }

  lemma AddPending(n: int, s: State, w: Tree, r: int, q: Id, t: Task)
    requires AddStep(n, s, w, r, q) && TaskOk(n, s, w, t) && w.ex <= s.nodes.Keys
    requires t.Aggregate? && t.parent == Some(q)
    ensures TaskOk(n, Do(s, Aggregate(r, Some(q))), Track(n, s, w, Aggregate(r, Some(q))), t)
  {
  }

  lemma AddLast(n: int, s: State, w: Tree, r: int, q: Id, t: Task)
    requires AddStep(n, s, w, r, q) && TaskOk(n, s, w, t) && w.ex <= s.nodes.Keys
    requires t == Finish(q)
    ensures TaskOk(n, Do(s, Aggregate(r, Some(q))), Track(n, s, w, Aggregate(r, Some(q))), t)
  {
  }

  lemma AddTask(n: int, s: State, w: Tree, r: int, q: Id, t: Task)
    requires AddStep(n, s, w, r, q) && TaskOk(n, s, w, t) && w.ex <= s.nodes.Keys
    ensures TaskOk(n, Do(s, Aggregate(r, Some(q))), Track(n, s, w, Aggregate(r, Some(q))), t)
  {
    if t == Finish(q) {
      AddLast(n, s, w, r, q, t);
    } else if t.Aggregate? && t.parent == Some(q) {
      AddPending(n, s, w, r, q, t);
    } else {
      AddElsewhere(n, s, w, r, q, t);
    }
  }

  lemma AddNode(n: int, s: State, w: Tree, r: int, q: Id, j: Id)
    requires AddStep(n, s, w, r, q) && NodeOk(n, s, w, j) && w.ex <= s.nodes.Keys
    ensures NodeOk(n, Do(s, Aggregate(r, Some(q))), Track(n, s, w, Aggregate(r, Some(q))), j)
  {
  }

  lemma AddPlace(n: int, s: State, w: Tree, r: int, q: Id, p: Place)
    requires AddStep(n, s, w, r, q) && PlaceOk(s, w, p)
    ensures PlaceOk(Do(s, Aggregate(r, Some(q))), Track(n, s, w, Aggregate(r, Some(q))), p)
  {
  }

  // ----- a node is finished -----

  predicate FinishStep(n: int, s: State, w: Tree, q: Id) {
    q in w.ex && s.tasks[Finish(q)] == 1 && BothGone(w, q) && NodeOk(n, s, w, q)
  }

  lemma FinishElsewhere(n: int, s: State, w: Tree, q: Id, t: Task)
    requires FinishStep(n, s, w, q) && TaskOk(n, s, w, t) && w.ex <= s.nodes.Keys && s.tasks[Expand(q)] == 0
    requires !t.Aggregate? || t.parent != s.nodes[q].parent
    ensures TaskOk(n, Do(s, Finish(q)), Track(n, s, w, Finish(q)), t)
  {
  }

  lemma FinishPending(n: int, s: State, w: Tree, q: Id, t: Task)
    requires FinishStep(n, s, w, q) && TaskOk(n, s, w, t) && w.ex <= s.nodes.Keys
    requires t.Aggregate? && t.parent == s.nodes[q].parent
    ensures TaskOk(n, Do(s, Finish(q)), Track(n, s, w, Finish(q)), t)
  {
    assert s.nodes[q].result == Fib(s.nodes[q].n);
  }

  lemma FinishTask(n: int, s: State, w: Tree, q: Id, t: Task)
    requires FinishStep(n, s, w, q) && TaskOk(n, s, w, t) && w.ex <= s.nodes.Keys && s.tasks[Expand(q)] == 0
    ensures TaskOk(n, Do(s, Finish(q)), Track(n, s, w, Finish(q)), t)
  {
    if t.Aggregate? && t.parent == s.nodes[q].parent {
      FinishPending(n, s, w, q, t);
    } else {
      FinishElsewhere(n, s, w, q, t);
    }
  }

  lemma FinishNode(n: int, s: State, w: Tree, q: Id, j: Id)
    requires FinishStep(n, s, w, q) && j != q && NodeOk(n, s, w, j) && w.ex <= s.nodes.Keys
    ensures NodeOk(n, Do(s, Finish(q)), Track(n, s, w, Finish(q)), j)
  {
  }

  lemma FinishPlace(n: int, s: State, w: Tree, q: Id, p: Place)
    requires FinishStep(n, s, w, q) && PlaceOk(s, w, p)
    ensures PlaceOk(Do(s, Finish(q)), Track(n, s, w, Finish(q)), p)
  {
  }

  // ----- the last result arrives -----

  predicate RootStep(n: int, s: State, w: Tree, r: int) {
    s.tasks[Aggregate(r, None)] > 0 && TaskOk(n, s, w, Aggregate(r, None))
  }

  lemma RootEntity(n: int, s: State, w: Tree, r: int, t: Task, j: Id, p: Place)
    requires RootStep(n, s, w, r) && w.ex <= s.nodes.Keys
    ensures TaskOk(n, s, w, t) ==> TaskOk(n, Do(s, Aggregate(r, None)), Track(n, s, w, Aggregate(r, None)), t)
    ensures NodeOk(n, s, w, j) ==> NodeOk(n, Do(s, Aggregate(r, None)), Track(n, s, w, Aggregate(r, None)), j)
    ensures PlaceOk(s, w, p) ==> PlaceOk(Do(s, Aggregate(r, None)), Track(n, s, w, Aggregate(r, None)), p)
  {
  }

  // ----- any step -----

  /** A task in the pool finds its record allocated and in the right stage. */
  lemma TaskMeaning(n: int, s: State, w: Tree, t: Task)
    requires Inv(n, s, w) && t in s.tasks
    ensures match t
      case Expand(i) => LeafStep(n, s, w, i) || InnerStep(n, s, w, i)
      case Aggregate(r, None) => RootStep(n, s, w, r)
      case Aggregate(r, Some(q)) => AddStep(n, s, w, r, q)
      case Finish(q) => FinishStep(n, s, w, q)
  {
    assert TaskOk(n, s, w, t);
    match t
    case Expand(i) => assert NodeOk(n, s, w, i);
    case Aggregate(r, Some(q)) => assert NodeOk(n, s, w, q);
    case Finish(q) => assert NodeOk(n, s, w, q);
    case _ =>
  }

  lemma NewIds(n: int, s: State, w: Tree)
    requires Inv(n, s, w)
    ensures s.next !in s.nodes && s.next + 1 !in s.nodes
  {
    forall i | i in s.nodes ensures i < s.next {
      assert NodeOk(n, s, w, i);
    }
  }

  lemma TasksStep(n: int, s: State, w: Tree, t: Task, u: Task)
    requires Inv(n, s, w) && t in s.tasks
    ensures TaskOk(n, Do(s, t), Track(n, s, w, t), u)
  {
    TaskMeaning(n, s, w, t);
    assert TaskOk(n, s, w, u);
    match t
    case Expand(i) =>
      if LeafStep(n, s, w, i) {
        LeafTask(n, s, w, i, u);
      } else {
        NewIds(n, s, w);
        assert TaskOk(n, s, w, Finish(i));
        InnerTask(n, s, w, i, u);
      }
    case Aggregate(r, None) => RootEntity(n, s, w, r, u, 0, Root);
    case Aggregate(r, Some(q)) => AddTask(n, s, w, r, q, u);
    case Finish(q) =>
      assert TaskOk(n, s, w, Expand(q));
      FinishTask(n, s, w, q, u);
  }

  lemma NodesStep(n: int, s: State, w: Tree, t: Task, j: Id)
    requires Inv(n, s, w) && t in s.tasks && j in Do(s, t).nodes
    ensures NodeOk(n, Do(s, t), Track(n, s, w, t), j)
  {
    TaskMeaning(n, s, w, t);
    assert j in s.nodes ==> NodeOk(n, s, w, j);
    match t
    case Expand(i) =>
      if LeafStep(n, s, w, i) {
        LeafNode(n, s, w, i, j);
      } else {
        NewIds(n, s, w);
        assert PlaceOk(s, w, Kid(i, false)) && PlaceOk(s, w, Kid(i, true));
        InnerNode(n, s, w, i, j);
      }
    case Aggregate(r, None) => RootEntity(n, s, w, r, t, j, Root);
    case Aggregate(r, Some(q)) => AddNode(n, s, w, r, q, j);
    case Finish(q) => FinishNode(n, s, w, q, j);
  }

  lemma PlacesStep(n: int, s: State, w: Tree, t: Task, p: Place)
    requires Inv(n, s, w) && t in s.tasks
    ensures PlaceOk(Do(s, t), Track(n, s, w, t), p)
  {
    TaskMeaning(n, s, w, t);
    assert PlaceOk(s, w, p);
    match t
    case Expand(i) =>
      if LeafStep(n, s, w, i) {
        LeafPlace(n, s, w, i, p);
      } else {
        NewIds(n, s, w);
        InnerPlace(n, s, w, i, p);
      }
    case Aggregate(r, None) => RootEntity(n, s, w, r, t, 0, p);
    case Aggregate(r, Some(q)) => AddPlace(n, s, w, r, q, p);
    case Finish(q) => FinishPlace(n, s, w, q, p);
  }

  ghost predicate RestOk(n: int, s: State, w: Tree) {
    && !s.fault && Root in w.slot && w.ex <= s.nodes.Keys
    && s.eventual == (if w.slot[Root] == Gone then [Fib(n)] else [])
  }

  lemma RestExpand(n: int, s: State, w: Tree, i: Id)
    requires RestOk(n, s, w) && (LeafStep(n, s, w, i) || InnerStep(n, s, w, i))
    ensures RestOk(n, Do(s, Expand(i)), Track(n, s, w, Expand(i)))
  {
    if s.nodes[i].n > 2 {
    } else if w.at[i].Root? {
    } else {
    }
  }

  lemma RestOther(n: int, s: State, w: Tree, t: Task)
    requires RestOk(n, s, w) && !t.Expand?
    requires t.Aggregate? && t.parent.None? ==> RootStep(n, s, w, t.r)
    requires t.Aggregate? && t.parent.Some? ==> AddStep(n, s, w, t.r, t.parent.value)
    requires t.Finish? ==> FinishStep(n, s, w, t.q)
    ensures RestOk(n, Do(s, t), Track(n, s, w, t))
  {
    if t.Finish? {
    } else if t.parent.Some? {
    } else {
    }
  }

  lemma RestStep(n: int, s: State, w: Tree, t: Task)
    requires Inv(n, s, w) && t in s.tasks
    ensures RestOk(n, Do(s, t), Track(n, s, w, t))
  {
    TaskMeaning(n, s, w, t);
    if t.Expand? {
      RestExpand(n, s, w, t.i);
    } else {
      RestOther(n, s, w, t);
    }
  }

  lemma StepKeeps(n: int, s: State, w: Tree, t: Task)
    requires Inv(n, s, w) && t in s.tasks
    ensures Inv(n, Do(s, t), Track(n, s, w, t))
  {
    RestStep(n, s, w, t);
    forall u ensures TaskOk(n, Do(s, t), Track(n, s, w, t), u) {
      TasksStep(n, s, w, t, u);
    }
    forall j | j in Do(s, t).nodes ensures NodeOk(n, Do(s, t), Track(n, s, w, t), j) {
      NodesStep(n, s, w, t, j);
    }
    forall p ensures PlaceOk(Do(s, t), Track(n, s, w, t), p) {
      PlacesStep(n, s, w, t, p);
    }
  }

  // ----- whole runs -----

  /** Any order in which the pool hands out its tasks. */
  function Run(n: int, ts: seq<Task>): Option<State> {
    if ts == [] then Some(Start(n))
    else
      match Run(n, ts[..|ts| - 1])
      case None => None
      case Some(s) => if ts[|ts| - 1] in s.tasks then Some(Do(s, ts[|ts| - 1])) else None
  }

  ghost function TreeOf(n: int, ts: seq<Task>): Tree
    requires Run(n, ts).Some?
  {
    if ts == [] then Tree({}, map[Root := Child(0)], map[0 := Root])
    else
      var before := ts[..|ts| - 1];
      Track(n, Run(n, before).value, TreeOf(n, before), ts[|ts| - 1])
  }

  lemma {:induction false} RunKeeps(n: int, ts: seq<Task>)
    requires Run(n, ts).Some?
    ensures Inv(n, Run(n, ts).value, TreeOf(n, ts))
  {
    if ts != [] {
      RunKeeps(n, ts[..|ts| - 1]);
      StepKeeps(n, Run(n, ts[..|ts| - 1]).value, TreeOf(n, ts[..|ts| - 1]), ts[|ts| - 1]);
    }
  }

  /** While a record is allocated, some task is left. */
  lemma {:induction false} SomeTask(n: int, s: State, w: Tree, i: Id)
    requires Inv(n, s, w) && i in s.nodes
    ensures s.tasks != multiset{}
    decreases if s.nodes[i].n <= 2 then 0 else s.nodes[i].n
  {
    assert NodeOk(n, s, w, i);
    if i !in w.ex {
      assert TaskOk(n, s, w, Expand(i));
    } else {
      var (x, y) := (SlotOf(w, Kid(i, false)), SlotOf(w, Kid(i, true)));
      assert PlaceOk(s, w, Kid(i, false)) && PlaceOk(s, w, Kid(i, true));
      if x.Child? {
        assert NodeOk(n, s, w, x.i);
        SomeTask(n, s, w, x.i);
      } else if y.Child? {
        assert NodeOk(n, s, w, y.i);
        SomeTask(n, s, w, y.i);
      } else {
        assert TaskOk(n, s, w, Finish(i));
        assert TaskOk(n, s, w, Aggregate(Fib(s.nodes[i].n - 1), Some(i)));
        assert TaskOk(n, s, w, Aggregate(Fib(s.nodes[i].n - 2), Some(i)));
      }
    }
  }

  /** In whatever order the tasks run: no task uses a record that is not allocated (so none is freed
      twice), the eventual is set at most once and only to Fib(n), and when no task is left it has been set
      and every record has been freed. */
  lemma EventualIsFib(n: int, ts: seq<Task>)
    requires Run(n, ts).Some?
    ensures var s := Run(n, ts).value;
      && !s.fault && (s.eventual == [] || s.eventual == [Fib(n)])
      && (s.tasks == multiset{} ==> s.eventual == [Fib(n)] && s.nodes == map[])
  {
    RunKeeps(n, ts);
    var w := TreeOf(n, ts);
    var s := Run(n, ts).value;
    if s.tasks == multiset{} {
      forall i ensures i !in s.nodes {
        if i in s.nodes {
          SomeTask(n, s, w, i);
        }
      }
      assert TaskOk(n, s, w, Aggregate(Fib(n), None)) && PlaceOk(s, w, Root);
    }
  }

  /** How many results the tasks of a run have brought to a record. */
  function Additions(ts: seq<Task>, q: Id): nat {
    if ts == [] then 0
    else
      var t := ts[|ts| - 1];
      Additions(ts[..|ts| - 1], q) + Flag(t.Aggregate? && t.parent == Some(q))
  }

  /** The task turns record q into an inner node of the call tree. */
  predicate Splitting(s: State, t: Task, q: Id) {
    t == Expand(q) && q in s.nodes && s.nodes[q].n > 2
  }

  /** The task frees record q: a leaf that is expanded, or an inner node that is finished. */
  predicate Freeing(s: State, t: Task, q: Id) {
    q in s.nodes && (t == Finish(q) || (t == Expand(q) && s.nodes[q].n <= 2))
  }

  function Splits(n: int, ts: seq<Task>, q: Id): nat
    requires Run(n, ts).Some?
  {
    if ts == [] then 0
    else
      var before := ts[..|ts| - 1];
      Splits(n, before, q) + Flag(Splitting(Run(n, before).value, ts[|ts| - 1], q))
  }

  function Frees(n: int, ts: seq<Task>, q: Id): nat
    requires Run(n, ts).Some?
  {
    if ts == [] then 0
    else
      var before := ts[..|ts| - 1];
      Frees(n, before, q) + Flag(Freeing(Run(n, before).value, ts[|ts| - 1], q))
  }

  /** What has happened to a record so far. */
  datatype Story = Story(additions: nat, splits: nat, frees: nat)

  function StoryOf(n: int, ts: seq<Task>, q: Id): Story
    requires Run(n, ts).Some?
  {
    Story(Additions(ts, q), Splits(n, ts, q), Frees(n, ts, q))
  }

  function Told(s: State, t: Task, q: Id, y: Story): Story {
    Story(y.additions + Flag(t.Aggregate? && t.parent == Some(q)), y.splits + Flag(Splitting(s, t, q)),
      y.frees + Flag(Freeing(s, t, q)))
  }

  /** The stage of a record tells its story. */
  predicate StageOk(s: State, w: Tree, q: Id, y: Story) {
    if q in w.ex then
      y == Story(Flag(SlotOf(w, Kid(q, false)) == Gone) + Flag(SlotOf(w, Kid(q, true)) == Gone), 1, 0)
    else if q in s.nodes || q >= s.next then y == Story(0, 0, 0)
    else y == Story(0, 0, 1) || y == Story(2, 1, 1)
  }

  lemma StageExpand(n: int, s: State, w: Tree, i: Id, q: Id, y: Story)
    requires StageOk(s, w, q, y) && (LeafStep(n, s, w, i) || InnerStep(n, s, w, i))
    requires s.next !in s.nodes && s.next + 1 !in s.nodes && i < s.next
    ensures StageOk(Do(s, Expand(i)), Track(n, s, w, Expand(i)), q, Told(s, Expand(i), q, y))
  {
    if s.nodes[i].n > 2 {
    } else {
    }
  }

  lemma StageAdd(n: int, s: State, w: Tree, r: int, p: Id, q: Id, y: Story)
    requires StageOk(s, w, q, y) && AddStep(n, s, w, r, p)
    ensures StageOk(Do(s, Aggregate(r, Some(p))), Track(n, s, w, Aggregate(r, Some(p))), q, Told(s, Aggregate(r, Some(p)), q, y))
  {
  }

  lemma StageFinish(n: int, s: State, w: Tree, p: Id, q: Id, y: Story)
    requires StageOk(s, w, q, y) && FinishStep(n, s, w, p) && w.ex <= s.nodes.Keys && p < s.next
    ensures StageOk(Do(s, Finish(p)), Track(n, s, w, Finish(p)), q, Told(s, Finish(p), q, y))
  {
  }

  lemma StageRoot(n: int, s: State, w: Tree, r: int, q: Id, y: Story)
    requires StageOk(s, w, q, y) && RootStep(n, s, w, r)
    ensures StageOk(Do(s, Aggregate(r, None)), Track(n, s, w, Aggregate(r, None)), q, Told(s, Aggregate(r, None), q, y))
  {
  }

  lemma StageStep(n: int, s: State, w: Tree, t: Task, q: Id, y: Story)
    requires Inv(n, s, w) && t in s.tasks && StageOk(s, w, q, y)
    ensures StageOk(Do(s, t), Track(n, s, w, t), q, Told(s, t, q, y))
  {
    TaskMeaning(n, s, w, t);
    match t
    case Expand(i) =>
      NewIds(n, s, w);
      StageExpand(n, s, w, i, q, y);
    case Aggregate(r, None) => StageRoot(n, s, w, r, q, y);
    case Aggregate(r, Some(p)) => StageAdd(n, s, w, r, p, q, y);
    case Finish(p) =>
      assert NodeOk(n, s, w, p);
      StageFinish(n, s, w, p, q, y);
  }

  lemma {:induction false} StageRun(n: int, ts: seq<Task>, q: Id)
    requires Run(n, ts).Some?
    ensures StageOk(Run(n, ts).value, TreeOf(n, ts), q, StoryOf(n, ts, q))
  {
    if ts != [] {
      var before := ts[..|ts| - 1];
      StageRun(n, before, q);
      RunKeeps(n, before);
      StageStep(n, Run(n, before).value, TreeOf(n, before), ts[|ts| - 1], q, StoryOf(n, before, q));
    }
  }

  /** Each record receives at most two results; it is finished (reported and freed) after exactly two, and
      then holds the Fibonacci number of its argument. */
  lemma TwoResultsEach(n: int, ts: seq<Task>, q: Id)
    requires Run(n, ts).Some?
    ensures var s := Run(n, ts).value;
      && Additions(ts, q) <= 2
      && (Finish(q) in s.tasks ==>
        Additions(ts, q) == 2 && s.tasks[Finish(q)] == 1 && q in s.nodes && s.nodes[q].result == Fib(s.nodes[q].n))
  {
    RunKeeps(n, ts);
    StageRun(n, ts, q);
    var (s, w) := (Run(n, ts).value, TreeOf(n, ts));
    if Finish(q) in s.tasks {
      TaskMeaning(n, s, w, Finish(q));
    }
  }

  /** A record has been freed exactly if it was created and is gone, and then exactly once; by then it has
      received two results if it was an inner node, and none if it was a leaf. */
  lemma FreedOnce(n: int, ts: seq<Task>, q: Id)
    requires Run(n, ts).Some?
    ensures var s := Run(n, ts).value;
      && Frees(n, ts, q) == Flag(q < s.next && q !in s.nodes) && Splits(n, ts, q) <= 1
      && (Frees(n, ts, q) == 1 ==> Additions(ts, q) == 2 * Splits(n, ts, q))
  {
    RunKeeps(n, ts);
    StageRun(n, ts, q);
    assert q in Run(n, ts).value.nodes ==> NodeOk(n, Run(n, ts).value, TreeOf(n, ts), q);
  }

  // ----- every run ends -----

  /** The steps that the expansion of a record still takes, and those that it leads to. */
  function Weight(n: int): nat
    decreases if n <= 2 then 0 else n
  {
    if n <= 2 then 2 else Weight(n - 1) + Weight(n - 2) + 3
  }

  function TaskWeight(nodes: map<Id, Node>, t: Task): nat {
    match t
    case Expand(i) => if i in nodes then Weight(nodes[i].n) else 0
    case Aggregate(_, _) => 1
    case Finish(_) => 0
  }

  ghost function Total(nodes: map<Id, Node>, m: multiset<Task>): nat {
    if m == multiset{} then 0
    else
      var t :| t in m;
      TaskWeight(nodes, t) + Total(nodes, m - multiset{t})
  }

  lemma Swap(m: multiset<Task>, t: Task, u: Task)
    ensures m - multiset{u} - multiset{t} == m - multiset{t} - multiset{u}
  {
  }

  lemma {:induction false} TotalRemove(nodes: map<Id, Node>, m: multiset<Task>, t: Task)
    requires t in m
    ensures Total(nodes, m) == TaskWeight(nodes, t) + Total(nodes, m - multiset{t})
    decreases |m|
  {
    var u := Chosen(nodes, m);
    if u != t {
      var (x, y) := (m - multiset{u}, m - multiset{t});
      TotalRemove(nodes, x, t);
      TotalRemove(nodes, y, u);
      Swap(m, t, u);
    }
  }

  lemma Chosen(nodes: map<Id, Node>, m: multiset<Task>) returns (u: Task)
    requires m != multiset{}
    ensures u in m && Total(nodes, m) == TaskWeight(nodes, u) + Total(nodes, m - multiset{u})
  {
    u :| u in m && Total(nodes, m) == TaskWeight(nodes, u) + Total(nodes, m - multiset{u});
  }

  lemma TotalAdd(nodes: map<Id, Node>, m: multiset<Task>, t: Task)
    ensures Total(nodes, m + multiset{t}) == TaskWeight(nodes, t) + Total(nodes, m)
  {
    TotalRemove(nodes, m + multiset{t}, t);
    assert m + multiset{t} - multiset{t} == m;
  }

  lemma {:induction false} TotalSame(nodes: map<Id, Node>, nodes': map<Id, Node>, m: multiset<Task>)
    requires forall t :: t in m ==> TaskWeight(nodes, t) == TaskWeight(nodes', t)
    ensures Total(nodes, m) == Total(nodes', m)
    decreases |m|
  {
    if m != multiset{} {
      var t :| t in m;
      TotalRemove(nodes, m, t);
      TotalRemove(nodes', m, t);
      TotalSame(nodes, nodes', m - multiset{t});
    }
  }

  /** The measure of a run: the weight of its tasks, and two steps for each record that is to be finished. */
  ghost function Measure(s: State, w: Tree): nat {
    Total(s.nodes, s.tasks) + 2 * |w.ex|
  }

  /** The records that the other tasks refer to keep their arguments. */
  lemma WeightsStay(n: int, s: State, w: Tree, t: Task, u: Task)
    requires Inv(n, s, w) && t in s.tasks && u in s.tasks - multiset{t}
    ensures TaskWeight(Do(s, t).nodes, u) == TaskWeight(s.nodes, u)
  {
    TaskMeaning(n, s, w, t);
    TaskMeaning(n, s, w, u);
    NewIds(n, s, w);
    assert TaskOk(n, s, w, u);
    if u.Expand? {
      ArgumentStays(s, t, u.i);
    }
  }

  lemma ArgumentStays(s: State, t: Task, i: Id)
    requires i in s.nodes && t != Expand(i) && t != Finish(i) && s.next !in s.nodes && s.next + 1 !in s.nodes
    ensures i in Do(s, t).nodes && Do(s, t).nodes[i].n == s.nodes[i].n
  {
  }

  lemma RestWeighs(n: int, s: State, w: Tree, t: Task)
    requires Inv(n, s, w) && t in s.tasks
    ensures Total(s.nodes, s.tasks) == TaskWeight(s.nodes, t) + Total(Do(s, t).nodes, s.tasks - multiset{t})
  {
    TotalRemove(s.nodes, s.tasks, t);
    forall u | u in s.tasks - multiset{t} ensures TaskWeight(Do(s, t).nodes, u) == TaskWeight(s.nodes, u) {
      WeightsStay(n, s, w, t, u);
    }
    TotalSame(s.nodes, Do(s, t).nodes, s.tasks - multiset{t});
  }

  lemma MeasureLeaf(n: int, s: State, w: Tree, i: Id)
    requires LeafStep(n, s, w, i)
    ensures var s' := Do(s, Expand(i)); Total(s'.nodes, s'.tasks) <= 1 + Total(s'.nodes, s.tasks - multiset{Expand(i)})
    ensures Track(n, s, w, Expand(i)).ex == w.ex
  {
    TotalAdd(Do(s, Expand(i)).nodes, s.tasks - multiset{Expand(i)}, Aggregate(1, s.nodes[i].parent));
  }

  lemma InnerShape(n: int, s: State, w: Tree, i: Id)
    requires InnerStep(n, s, w, i) && s.next !in s.nodes && s.next + 1 !in s.nodes
    ensures Do(s, Expand(i)).tasks
         == s.tasks - multiset{Expand(i)} + multiset{Expand(s.next)} + multiset{Expand(s.next + 1)}
    ensures var nodes := Do(s, Expand(i)).nodes;
      TaskWeight(nodes, Expand(s.next)) + TaskWeight(nodes, Expand(s.next + 1)) == Weight(s.nodes[i].n) - 3
    ensures Track(n, s, w, Expand(i)).ex == w.ex + {i}
  {
  }

  lemma OtherShape(n: int, s: State, w: Tree, t: Task)
    requires !t.Expand?
    requires t.Aggregate? && t.parent.Some? ==> AddStep(n, s, w, t.r, t.parent.value) && t.parent.value in s.nodes
    requires t.Finish? ==> FinishStep(n, s, w, t.q)
    ensures var rest := s.tasks - multiset{t};
      Do(s, t).tasks ==
        if t.Finish? then rest + multiset{Aggregate(s.nodes[t.q].result, s.nodes[t.q].parent)}
        else if t.parent.Some? && s.nodes[t.parent.value].flag then rest + multiset{Finish(t.parent.value)} else rest
    ensures Track(n, s, w, t).ex == if t.Finish? then w.ex - {t.q} else w.ex
  {
  }

  lemma TotalAddTwo(nodes: map<Id, Node>, rest: multiset<Task>, c: Task, d: Task)
    ensures Total(nodes, rest + multiset{c} + multiset{d}) == TaskWeight(nodes, c) + TaskWeight(nodes, d) + Total(nodes, rest)
  {
    TotalAdd(nodes, rest, c);
    TotalAdd(nodes, rest + multiset{c}, d);
  }

  lemma MeasureInner(n: int, s: State, w: Tree, i: Id)
    requires InnerStep(n, s, w, i) && s.next !in s.nodes && s.next + 1 !in s.nodes
    ensures var s' := Do(s, Expand(i));
      Total(s'.nodes, s'.tasks) == Weight(s.nodes[i].n) - 3 + Total(s'.nodes, s.tasks - multiset{Expand(i)})
    ensures Track(n, s, w, Expand(i)).ex == w.ex + {i}
  {
    InnerShape(n, s, w, i);
    TotalAddTwo(Do(s, Expand(i)).nodes, s.tasks - multiset{Expand(i)}, Expand(s.next), Expand(s.next + 1));
  }

  lemma MeasureOther(n: int, s: State, w: Tree, t: Task)
    requires !t.Expand?
    requires t.Aggregate? && t.parent.Some? ==> AddStep(n, s, w, t.r, t.parent.value) && t.parent.value in s.nodes
    requires t.Finish? ==> FinishStep(n, s, w, t.q)
    ensures var s' := Do(s, t);
      Total(s'.nodes, s'.tasks) == Total(s'.nodes, s.tasks - multiset{t}) + Flag(t.Finish?)
    ensures Track(n, s, w, t).ex == if t.Finish? then w.ex - {t.q} else w.ex
  {
    OtherShape(n, s, w, t);
    if t.Finish? {
      TotalAdd(Do(s, t).nodes, s.tasks - multiset{t}, Aggregate(s.nodes[t.q].result, s.nodes[t.q].parent));
    } else if t.parent.Some? {
      TotalAdd(Do(s, t).nodes, s.tasks - multiset{t}, Finish(t.parent.value));
    }
  }

  lemma MeasureStep(n: int, s: State, w: Tree, t: Task)
    requires Inv(n, s, w) && t in s.tasks
    ensures Measure(Do(s, t), Track(n, s, w, t)) < Measure(s, w)
  {
    TaskMeaning(n, s, w, t);
    RestWeighs(n, s, w, t);
    if !t.Expand? {
      MeasureOther(n, s, w, t);
    } else if LeafStep(n, s, w, t.i) {
      MeasureLeaf(n, s, w, t.i);
    } else {
      NewIds(n, s, w);
      MeasureInner(n, s, w, t.i);
    }
  }

  /** Every run ends: it has at most Weight(n) steps, whatever the order. */
  lemma {:induction false} RunsEnd(n: int, ts: seq<Task>)
    requires Run(n, ts).Some?
    ensures |ts| + Measure(Run(n, ts).value, TreeOf(n, ts)) <= Weight(n)
  {
    if ts == [] {
      TotalRemove(Start(n).nodes, Start(n).tasks, Expand(0));
      assert Start(n).tasks - multiset{Expand(0)} == multiset{};
    } else {
      var before := ts[..|ts| - 1];
      RunsEnd(n, before);
      RunKeeps(n, before);
      MeasureStep(n, Run(n, before).value, TreeOf(n, before), ts[|ts| - 1]);
    }
  }

  // ----- the sequential check -----

  /** verify(): the loop over the last two numbers. */
  method Verify(n: int) returns (val: int)
    ensures val == Fib(n)
  {
    if n <= 2 {
      return 1;
    }
    var last := new int[2](_ => 1);
    var i := 3;
    val := 0;
    while i <= n
      invariant 3 <= i <= n + 1 && last.Length == 2
      invariant last[(i - 1) % 2] == Fib(i - 1) && last[i % 2] == Fib(i - 2)
      invariant i > 3 ==> val == Fib(i - 1)
    {
      val := last[0] + last[1];
      last[i % 2] := val;
      i := i + 1;
    }
  }
}
