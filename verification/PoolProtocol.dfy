/** Any number of threads on one pool: the steps of pool_alloc and pool_free, with the critical sections,
    the carving of single elements and the private moves interleaved in any way. */
module PoolProtocol {
  import opened Basics
  import opened PoolSpec

  type Tid = nat

  /** The local pool of a thread; `taken` is what a refill has put into its blocks so far. */
  datatype Local = Local(stack: seq<int>, taken: seq<int>, region: Region, refilling: bool)

  datatype State = State(
    local: map<Tid, Local>,
    global: seq<int>,
    out: multiset<int>,       // elements that pool_alloc has returned and pool_free has not got back
    pages: set<int>,
    carved: set<int>          // every element ever cut out of a page
  )

  datatype Action =
    | Take(t: Tid)                   // critical section of pool_alloc
    | NewPage(t: Tid, base: int)
    | Carve(t: Tid)
    | Finish(t: Tid)
    | Pop(t: Tid)
    | Give(t: Tid)                   // critical section of pool_free
    | Push(t: Tid, x: int)

  predicate CanCarve(es: int, v: Local) {
    v.refilling && |v.taken| < MOVED && v.region.ptr != 0 && v.region.size >= es
  }

  ghost predicate Enabled(es: int, s: State, a: Action) {
    a.t in s.local &&
    var v := s.local[a.t];
    match a
    case Take(_) => !v.refilling && v.stack == []
    case NewPage(_, base) => v.refilling && |v.taken| < MOVED && !CanCarve(es, v) && FreshPage(s.pages, base)
    case Carve(_) => CanCarve(es, v)
    case Finish(_) => v.refilling && |v.taken| >= MOVED
    case Pop(_) => !v.refilling && v.stack != []
    case Give(_) => !v.refilling && |v.stack| == LOCAL
    case Push(_, x) => !v.refilling && |v.stack| < LOCAL && x in s.out
  }

  function Put(s: State, t: Tid, v: Local): State {
    s.(local := s.local[t := v])
  }

  function Last(q: seq<int>): int {
    if q == [] then 0 else q[|q| - 1]
  }

  function ButLast(q: seq<int>): seq<int> {
    if q == [] then [] else q[..|q| - 1]
  }

  function Kept(q: seq<int>): seq<int> {
    if |q| < MOVED then q else q[..|q| - MOVED]
  }

  function Returned(q: seq<int>): seq<int> {
    if |q| < MOVED then [] else q[|q| - MOVED..]
  }

  ghost function Do(es: int, s: State, a: Action): State
    requires Enabled(es, s, a)
  {
    var v := s.local[a.t];
    match a
    case Take(t) => Put(s, t, v.(taken := Taken(s.global), refilling := true)).(global := Left(s.global))
    case NewPage(t, base) => Put(s, t, v.(region := FreshRegion(base))).(pages := s.pages + {base})
    case Carve(t) =>
      Put(s, t, v.(taken := v.taken + [v.region.ptr], region := Carved(es, v.region))).(carved := s.carved + {v.region.ptr})
    case Finish(t) => Put(s, t, v.(stack := v.taken, taken := [], refilling := false))
    case Pop(t) => Put(s, t, v.(stack := ButLast(v.stack))).(out := s.out + multiset{Last(v.stack)})
    case Give(t) => Put(s, t, v.(stack := Kept(v.stack))).(global := Given(s.global, Returned(v.stack)))
    case Push(t, x) => Put(s, t, v.(stack := v.stack + [x])).(out := s.out - multiset{x})
  }

  // ----- where an element is -----

  datatype Slot = Out | InStack(t: Tid) | InTaken(t: Tid) | InGlobal

  function Count(s: State, k: Slot, x: int): nat {
    match k
    case Out => s.out[x]
    case InStack(t) => if t in s.local then multiset(s.local[t].stack)[x] else 0
    case InTaken(t) => if t in s.local then multiset(s.local[t].taken)[x] else 0
    case InGlobal => multiset(s.global)[x]
  }

  predicate At(s: State, w: map<int, Slot>, k: Slot, x: int) {
    Count(s, k, x) == Flag(x in w && w[x] == k)
  }

  ghost predicate Placed(s: State, w: map<int, Slot>) {
    (forall k, x :: At(s, w, k, x)) && w.Keys == s.carved
  }

  lemma SplitCount(x: int, q: seq<int>, i: nat)
    requires i <= |q|
    ensures multiset(q)[x] == multiset(q[..i])[x] + multiset(q[i..])[x]
  {
    assert q == q[..i] + q[i..];
  }

  /** The block moves neither lose nor copy an element, for any number of elements. */
  lemma TakeConserves(g: seq<int>)
    ensures multiset(g) == multiset(Taken(g)) + multiset(Left(g))
  {
    var i, j := Full(g) - TakenSize(g), Full(g);
    assert g == g[..i] + g[i..j] + g[j..];
  }

  lemma GiveConserves(g: seq<int>, two: seq<int>)
    ensures multiset(Given(g, two)) == multiset(g) + multiset(two)
  {
    assert g == g[..Full(g)] + g[Full(g)..];
  }

  function Track(s: State, w: map<int, Slot>, a: Action): map<int, Slot>
    requires a.t in s.local
  {
    var v := s.local[a.t];
    match a
    case Take(t) => map x | x in w :: if x in Taken(s.global) then InTaken(t) else w[x]
    case NewPage(_, _) => w
    case Carve(t) => w[v.region.ptr := InTaken(t)]
    case Finish(t) => map x | x in w :: if w[x] == InTaken(t) then InStack(t) else w[x]
    case Pop(t) => w[Last(v.stack) := Out]
    case Give(t) => map x | x in w :: if x in Returned(v.stack) then InGlobal else w[x]
    case Push(t, x) => w[x := InStack(t)]
  }

  lemma TakePlaces(es: int, s: State, w: map<int, Slot>, t: Tid, k: Slot, x: int)
    requires Enabled(es, s, Take(t)) && At(s, w, k, x) && At(s, w, InGlobal, x) && s.local[t].taken == []
    ensures At(Do(es, s, Take(t)), Track(s, w, Take(t)), k, x)
  {
    TakeConserves(s.global);
    assert x in Taken(s.global) <==> multiset(Taken(s.global))[x] > 0;
    assert At(s, w, InTaken(t), x) || k != InTaken(t);
  }

  lemma CarvePlaces(es: int, s: State, w: map<int, Slot>, t: Tid, k: Slot, x: int)
    requires Enabled(es, s, Carve(t)) && At(s, w, k, x) && s.local[t].region.ptr !in w
    ensures At(Do(es, s, Carve(t)), Track(s, w, Carve(t)), k, x)
  {
  }

  lemma FinishPlaces(es: int, s: State, w: map<int, Slot>, t: Tid, k: Slot, x: int)
    requires Enabled(es, s, Finish(t)) && At(s, w, k, x) && At(s, w, InTaken(t), x) && s.local[t].stack == []
    ensures At(Do(es, s, Finish(t)), Track(s, w, Finish(t)), k, x)
  {
  }

  lemma PopPlaces(es: int, s: State, w: map<int, Slot>, t: Tid, k: Slot, x: int)
    requires Enabled(es, s, Pop(t)) && At(s, w, k, x) && At(s, w, InStack(t), x)
    ensures At(Do(es, s, Pop(t)), Track(s, w, Pop(t)), k, x)
  {
    var q := s.local[t].stack;
    assert q == ButLast(q) + [Last(q)];
    assert multiset(q)[x] == multiset(ButLast(q))[x] + Flag(x == Last(q));
  }

  lemma GivePlaces(es: int, s: State, w: map<int, Slot>, t: Tid, k: Slot, x: int)
    requires Enabled(es, s, Give(t)) && At(s, w, k, x) && At(s, w, InStack(t), x)
    ensures At(Do(es, s, Give(t)), Track(s, w, Give(t)), k, x)
  {
    var q := s.local[t].stack;
    SplitCount(x, q, |q| - MOVED);
    GiveConserves(s.global, Returned(q));
    assert x in Returned(q) <==> multiset(Returned(q))[x] > 0;
  }

  lemma PushPlaces(es: int, s: State, w: map<int, Slot>, t: Tid, y: int, k: Slot, x: int)
    requires Enabled(es, s, Push(t, y)) && At(s, w, k, x) && At(s, w, Out, y)
    ensures At(Do(es, s, Push(t, y)), Track(s, w, Push(t, y)), k, x)
  {
  }

  // ----- where an element lies -----

  /** home: the page of each element; page: the page that each thread carves from. */
  datatype Layout = Layout(home: map<int, int>, page: map<Tid, int>)

  ghost predicate InPage(es: int, pages: set<int>, p: int, x: int) {
    p in pages && p + ALIGNMENT <= x && x + es <= p + PAGE && x % ALIGNMENT == 0
  }

  ghost predicate ElementOk(es: int, s: State, l: Layout, x: int) {
    x in l.home && InPage(es, s.pages, l.home[x], x)
  }

  ghost predicate RegionOk(es: int, s: State, l: Layout, t: Tid) {
    t in s.local &&
    var r := s.local[t].region;
    r.ptr != 0 ==>
      && t in l.page && InPage(es, s.pages, l.page[t], r.ptr) && r.ptr + r.size == l.page[t] + PAGE && r.size >= es
  }

  /** Nobody has carved beyond the start of a region. */
  ghost predicate Below(es: int, s: State, l: Layout, t: Tid, x: int) {
    (t in s.local && s.local[t].region.ptr != 0 && x in s.carved && t in l.page && x in l.home && l.home[x] == l.page[t]) ==>
      x + es <= s.local[t].region.ptr
  }

  ghost predicate OwnPage(s: State, l: Layout, t: Tid, u: Tid) {
    (t != u && t in s.local && u in s.local && s.local[t].region.ptr != 0 && s.local[u].region.ptr != 0) ==>
      t in l.page && u in l.page && l.page[t] != l.page[u]
  }

  ghost predicate LocalOk(s: State, t: Tid) {
    t in s.local &&
    var v := s.local[t];
    |v.stack| <= LOCAL && |v.taken| <= MOVED && (if v.refilling then v.stack == [] else v.taken == [])
  }

  ghost predicate Disjoint(es: int, x: int, y: int) {
    x != y ==> x + es <= y || y + es <= x
  }

  ghost predicate PagesApart(pages: set<int>) {
    forall p, q :: p in pages && q in pages && p != q ==> Apart(p, q)
  }

  ghost predicate Laid(es: int, s: State, l: Layout) {
    && PagesApart(s.pages) && (forall p :: p in s.pages ==> p > 0 && p % ALIGNMENT == 0)
    && (forall t :: t in s.local ==> LocalOk(s, t) && RegionOk(es, s, l, t))
    && (forall x :: x in s.carved ==> ElementOk(es, s, l, x))
    && (forall t, x :: t in s.local && x in s.carved ==> Below(es, s, l, t, x))
    && (forall t, u :: t in s.local && u in s.local ==> OwnPage(s, l, t, u))
    && (forall x, y :: x in s.carved && y in s.carved ==> Disjoint(es, x, y))
  }

  /** The parameters of a pool: the element size is rounded, and a page holds at least one element. */
  predicate GoodSize(es: int) {
    0 < es <= PAGE - ALIGNMENT && es % ALIGNMENT == 0
  }

  function Move(s: State, l: Layout, a: Action): Layout
    requires a.t in s.local
  {
    match a
    case NewPage(t, base) => l.(page := l.page[t := base])
    case Carve(t) => if t in l.page then l.(home := l.home[s.local[t].region.ptr := l.page[t]]) else l
    case _ => l
  }

  /** The next element to carve is new: it lies beyond everything carved so far in its page. */
  lemma CarvedIsNew(es: int, s: State, l: Layout, t: Tid, x: int)
    requires GoodSize(es) && Enabled(es, s, Carve(t)) && Laid(es, s, l) && x in s.carved
    ensures var y := s.local[t].region.ptr; x != y && Disjoint(es, x, y)
  {
    assert RegionOk(es, s, l, t) && ElementOk(es, s, l, x) && Below(es, s, l, t, x);
  }

  lemma LaidNewPage(es: int, s: State, l: Layout, t: Tid, base: int)
    requires GoodSize(es) && Enabled(es, s, NewPage(t, base)) && Laid(es, s, l)
    ensures Laid(es, Do(es, s, NewPage(t, base)), Move(s, l, NewPage(t, base)))
  {
    var s', l' := Do(es, s, NewPage(t, base)), Move(s, l, NewPage(t, base));
    assert base !in s.pages;
    forall u | u in s'.local ensures LocalOk(s', u) && RegionOk(es, s', l', u) {
      assert LocalOk(s, u) && RegionOk(es, s, l, u);
    }
    forall x | x in s'.carved ensures ElementOk(es, s', l', x) {
      assert ElementOk(es, s, l, x);
    }
    forall u, x | u in s'.local && x in s'.carved ensures Below(es, s', l', u, x) {
      assert Below(es, s, l, u, x) && ElementOk(es, s, l, x);
    }
    forall u, v | u in s'.local && v in s'.local ensures OwnPage(s', l', u, v) {
      assert OwnPage(s, l, u, v) && RegionOk(es, s, l, u) && RegionOk(es, s, l, v);
    }
  }

  lemma RegionCarve(es: int, s: State, l: Layout, t: Tid, u: Tid)
    requires GoodSize(es) && Enabled(es, s, Carve(t)) && LocalOk(s, u) && RegionOk(es, s, l, u) && RegionOk(es, s, l, t)
    ensures LocalOk(Do(es, s, Carve(t)), u) && RegionOk(es, Do(es, s, Carve(t)), Move(s, l, Carve(t)), u)
  {
  }

  lemma BelowCarve(es: int, s: State, l: Layout, t: Tid, u: Tid, x: int)
    requires GoodSize(es) && Enabled(es, s, Carve(t)) && RegionOk(es, s, l, t) && OwnPage(s, l, t, u)
    requires x == s.local[t].region.ptr || (x in s.carved && ElementOk(es, s, l, x) && Below(es, s, l, u, x) && Below(es, s, l, t, x))
    ensures Below(es, Do(es, s, Carve(t)), Move(s, l, Carve(t)), u, x)
    ensures ElementOk(es, Do(es, s, Carve(t)), Move(s, l, Carve(t)), x)
  {
  }

  lemma LaidCarve(es: int, s: State, l: Layout, t: Tid)
    requires GoodSize(es) && Enabled(es, s, Carve(t)) && Laid(es, s, l)
    ensures Laid(es, Do(es, s, Carve(t)), Move(s, l, Carve(t)))
  {
    var s', l' := Do(es, s, Carve(t)), Move(s, l, Carve(t));
    var y := s.local[t].region.ptr;
    assert RegionOk(es, s, l, t);
    forall u | u in s'.local ensures LocalOk(s', u) && RegionOk(es, s', l', u) {
      assert LocalOk(s, u) && RegionOk(es, s, l, u);
      RegionCarve(es, s, l, t, u);
    }
    forall u, x | u in s'.local && x in s'.carved ensures Below(es, s', l', u, x) && ElementOk(es, s', l', x) {
      assert OwnPage(s, l, t, u);
      assert x in s.carved ==> ElementOk(es, s, l, x) && Below(es, s, l, u, x) && Below(es, s, l, t, x);
      BelowCarve(es, s, l, t, u, x);
    }
    forall u, v | u in s'.local && v in s'.local ensures OwnPage(s', l', u, v) {
      assert OwnPage(s, l, u, v);
    }
    forall x, z | x in s'.carved && z in s'.carved ensures Disjoint(es, x, z) {
      if x in s.carved && z in s.carved {
        assert Disjoint(es, x, z);
      } else if x in s.carved {
        CarvedIsNew(es, s, l, t, x);
      } else if z in s.carved {
        CarvedIsNew(es, s, l, t, z);
      }
    }
    assert forall x :: x in s'.carved ==> Below(es, s', l', t, x);
  }

  /** The other steps do not touch pages, regions or the set of carved elements. */
  lemma LaidOther(es: int, s: State, l: Layout, a: Action)
    requires Enabled(es, s, a) && Laid(es, s, l) && !a.NewPage? && !a.Carve?
    ensures Laid(es, Do(es, s, a), l)
  {
    var s' := Do(es, s, a);
    assert LocalOk(s, a.t);
    assert |Taken(s.global)| <= MOVED;
    forall u | u in s'.local ensures LocalOk(s', u) && RegionOk(es, s', l, u) {
      assert LocalOk(s, u) && RegionOk(es, s, l, u);
    }
    forall x | x in s'.carved ensures ElementOk(es, s', l, x) {
      assert ElementOk(es, s, l, x);
    }
    forall u, x | u in s'.local && x in s'.carved ensures Below(es, s', l, u, x) {
      assert Below(es, s, l, u, x);
    }
    forall u, v | u in s'.local && v in s'.local ensures OwnPage(s', l, u, v) {
      assert OwnPage(s, l, u, v);
    }
  }

  lemma PlacesStep(es: int, s: State, w: map<int, Slot>, l: Layout, a: Action, k: Slot, x: int)
    requires GoodSize(es) && Enabled(es, s, a) && Placed(s, w) && Laid(es, s, l)
    ensures At(Do(es, s, a), Track(s, w, a), k, x)
  {
    assert At(s, w, k, x) && LocalOk(s, a.t);
    match a
    case Take(t) =>
      assert At(s, w, InGlobal, x);
      TakePlaces(es, s, w, t, k, x);
    case NewPage(_, _) =>
    case Carve(t) =>
      if s.local[t].region.ptr in w {
        CarvedIsNew(es, s, l, t, s.local[t].region.ptr);
      }
      CarvePlaces(es, s, w, t, k, x);
    case Finish(t) =>
      assert At(s, w, InTaken(t), x);
      FinishPlaces(es, s, w, t, k, x);
    case Pop(t) =>
      assert At(s, w, InStack(t), x);
      PopPlaces(es, s, w, t, k, x);
    case Give(t) =>
      assert At(s, w, InStack(t), x);
      GivePlaces(es, s, w, t, k, x);
    case Push(t, y) =>
      assert At(s, w, Out, y);
      PushPlaces(es, s, w, t, y, k, x);
  }

  lemma DomainStep(es: int, s: State, w: map<int, Slot>, l: Layout, a: Action)
    requires Enabled(es, s, a) && Placed(s, w) && Laid(es, s, l)
    ensures Track(s, w, a).Keys == Do(es, s, a).carved
  {
    match a
    case Pop(t) =>
      var q := s.local[t].stack;
      assert Last(q) in multiset(q);
      assert At(s, w, InStack(t), Last(q));
    case Push(t, y) => assert At(s, w, Out, y);
    case Take(t) => TrackKeys(s, w, a);
    case Finish(t) => TrackKeys(s, w, a);
    case Give(t) => TrackKeys(s, w, a);
    case NewPage(_, _) =>
    case Carve(t) =>
  }

  lemma TrackKeys(s: State, w: map<int, Slot>, a: Action)
    requires a.t in s.local && (a.Take? || a.Finish? || a.Give?)
    ensures Track(s, w, a).Keys == w.Keys
  {
  }

  lemma LaidStep(es: int, s: State, l: Layout, a: Action)
    requires GoodSize(es) && Enabled(es, s, a) && Laid(es, s, l)
    ensures Laid(es, Do(es, s, a), Move(s, l, a))
  {
    match a
    case NewPage(t, base) => LaidNewPage(es, s, l, t, base);
    case Carve(t) => LaidCarve(es, s, l, t);
    case _ => LaidOther(es, s, l, a);
  }

  // ----- whole runs -----

  /** No page yet, and nothing in any pool. */
  ghost predicate IsStart(s: State) {
    && s.global == [] && s.out == multiset{} && s.pages == {} && s.carved == {}
    && forall t :: t in s.local ==> s.local[t] == Local([], [], NULL, false)
  }

  ghost function Run(es: int, s: State, acts: seq<Action>): Option<State> {
    if acts == [] then Some(s)
    else
      match Run(es, s, acts[..|acts| - 1])
      case None => None
      case Some(t) => if Enabled(es, t, acts[|acts| - 1]) then Some(Do(es, t, acts[|acts| - 1])) else None
  }

  lemma {:induction false} RunKeeps(es: int, s: State, acts: seq<Action>) returns (w: map<int, Slot>, l: Layout)
    requires GoodSize(es) && IsStart(s) && Run(es, s, acts).Some?
    ensures Placed(Run(es, s, acts).value, w) && Laid(es, Run(es, s, acts).value, l)
  {
    if acts == [] {
      w, l := map[], Layout(map[], map[]);
      forall k, x ensures At(s, w, k, x) {
      }
    } else {
      var before, a := acts[..|acts| - 1], acts[|acts| - 1];
      var t := Run(es, s, before).value;
      var w', l' := RunKeeps(es, s, before);
      forall k, x ensures At(Do(es, t, a), Track(t, w', a), k, x) {
        PlacesStep(es, t, w', l', a, k, x);
      }
      DomainStep(es, t, w', l', a);
      LaidStep(es, t, l', a);
      w, l := Track(t, w', a), Move(t, l', a);
    }
  }

  /** Conservation: at every moment the carved elements are the disjoint union of those handed out, the
      local stacks, the refills in progress and the global blocks. */
  lemma Conservation(es: int, s: State, acts: seq<Action>, x: int) returns (k: Slot)
    requires GoodSize(es) && IsStart(s) && Run(es, s, acts).Some?
    ensures var t := Run(es, s, acts).value;
      && (x in t.carved ==> Count(t, k, x) == 1 && forall j :: j != k ==> Count(t, j, x) == 0)
      && (x !in t.carved ==> forall j :: Count(t, j, x) == 0)
  {
    var w, l := RunKeeps(es, s, acts);
    var t := Run(es, s, acts).value;
    k := if x in w then w[x] else Out;
    forall j ensures Count(t, j, x) == Flag(x in w && j == k) {
      assert At(t, w, j, x);
    }
  }

  /** Every element handed out is aligned, lies in a page past its header, and overlaps no other carved
      element: handed out, in a stack or in the global pool. */
  lemma HandedOutIsSound(es: int, s: State, acts: seq<Action>, x: int, y: int) returns (p: int)
    requires GoodSize(es) && IsStart(s) && Run(es, s, acts).Some?
    requires x in Run(es, s, acts).value.out && y in Run(es, s, acts).value.carved
    ensures var t := Run(es, s, acts).value; x in t.carved && InPage(es, t.pages, p, x) && Disjoint(es, x, y)
  {
    var w, l := RunKeeps(es, s, acts);
    var t := Run(es, s, acts).value;
    assert At(t, w, Out, x);
    assert ElementOk(es, t, l, x) && Disjoint(es, x, y);
    p := l.home[x];
  }

  // ----- pool_alloc as a run of these steps -----

  lemma {:induction false} RunCons(es: int, s: State, a: Action, acts: seq<Action>)
    requires Enabled(es, s, a)
    ensures Run(es, s, [a] + acts) == Run(es, Do(es, s, a), acts)
  {
    var all := [a] + acts;
    if acts == [] {
      assert all[..0] == [];
      assert Run(es, s, all[..0]) == Some(s);
    } else {
      assert all[..|all| - 1] == [a] + acts[..|acts| - 1];
      RunCons(es, s, a, acts[..|acts| - 1]);
    }
  }

  /** What a refill leaves of the state: the thread's blocks and region, new pages and new elements. */
  ghost predicate Refilled(s: State, t: Tid, s': State, taken: seq<int>, r: Region, bases: seq<int>) {
    && t in s.local && s'.local == s.local[t := s.local[t].(taken := taken, region := r)]
    && s'.global == s.global && s'.out == s.out
    && s.pages <= s'.pages <= s.pages + PagesOf(bases) && s.carved <= s'.carved
  }

  /** The refill that the method computes is a run of carving steps of its thread. */
  lemma {:induction false} RefillRun(es: int, s: State, t: Tid, bases: seq<int>) returns (acts: seq<Action>)
    requires t in s.local && s.local[t].refilling && FreshPages(s.pages, bases)
    requires |Refill(es, s.local[t].taken, s.local[t].region, bases).0| >= MOVED
    ensures var (taken, r) := Refill(es, s.local[t].taken, s.local[t].region, bases);
      Run(es, s, acts).Some? && Refilled(s, t, Run(es, s, acts).value, taken, r, bases)
    decreases MOVED - |s.local[t].taken|, |bases|
  {
    var v := s.local[t];
    if |v.taken| >= MOVED {
      acts := [];
      assert s.local[t := v] == s.local;
    } else if CanCarve(es, v) {
      var rest := RefillRun(es, Do(es, s, Carve(t)), t, bases);
      acts := [Carve(t)] + rest;
      RunCons(es, s, Carve(t), rest);
    } else {
      FirstPage(s.pages, bases);
      var s1 := Do(es, s, NewPage(t, bases[0]));
      var rest := RefillRun(es, s1, t, bases[1..]);
      acts := [NewPage(t, bases[0])] + rest;
      RunCons(es, s, NewPage(t, bases[0]), rest);
    }
  }

  lemma Extend(es: int, s: State, acts: seq<Action>, a: Action)
    requires Run(es, s, acts).Some? && Enabled(es, Run(es, s, acts).value, a)
    ensures Run(es, s, acts + [a]) == Some(Do(es, Run(es, s, acts).value, a))
  {
    assert (acts + [a])[..|acts|] == acts;
  }

  /** pool_alloc on an empty local pool, undisturbed: the element it returns and all it leaves behind are
      what the method's contract says. */
  lemma AllocRun(es: int, s: State, t: Tid, bases: seq<int>) returns (acts: seq<Action>)
    requires t in s.local && s.local[t] == Local([], [], s.local[t].region, false) && FreshPages(s.pages, bases)
    requires |Refill(es, Taken(s.global), s.local[t].region, bases).0| >= MOVED
    ensures var (q, r) := Refill(es, Taken(s.global), s.local[t].region, bases);
      Run(es, s, acts).Some? &&
      var s' := Run(es, s, acts).value;
      && s'.local == s.local[t := Local(ButLast(q), [], r, false)]
      && s'.global == Left(s.global) && s'.out == s.out + multiset{Last(q)}
  {
    var (q, r) := Refill(es, Taken(s.global), s.local[t].region, bases);
    var s1 := Do(es, s, Take(t));
    var steps := RefillRun(es, s1, t, bases);
    var s2 := Run(es, s1, steps).value;
    Extend(es, s1, steps, Finish(t));
    var s3 := Do(es, s2, Finish(t));
    Extend(es, s1, steps + [Finish(t)], Pop(t));
    acts := [Take(t)] + (steps + [Finish(t)] + [Pop(t)]);
    RunCons(es, s, Take(t), steps + [Finish(t)] + [Pop(t)]);
    assert Do(es, s3, Pop(t)).local == s.local[t := Local(ButLast(q), [], r, false)];
  }

  /** pool_alloc on a local pool that is not empty. */
  lemma PopRun(es: int, s: State, t: Tid)
    requires t in s.local && s.local[t].stack != [] && !s.local[t].refilling
    ensures Run(es, s, [Pop(t)]).Some?
    ensures var (v, s') := (s.local[t], Run(es, s, [Pop(t)]).value);
      && s'.local == s.local[t := v.(stack := ButLast(v.stack))] && v.stack == ButLast(v.stack) + [Last(v.stack)]
      && s'.global == s.global && s'.out == s.out + multiset{Last(v.stack)}
  {
    assert [Pop(t)][..0] == [];
    assert Run(es, s, [Pop(t)][..0]) == Some(s);
  }

  /** pool_free of an outstanding element, on a full local pool or another: what it leaves behind is what the
      method's contract says. */
  lemma FreeRun(es: int, s: State, t: Tid, x: int) returns (acts: seq<Action>)
    requires t in s.local && !s.local[t].refilling && |s.local[t].stack| <= LOCAL && x in s.out
    ensures Run(es, s, acts).Some?
    ensures var (q, s') := (s.local[t].stack, Run(es, s, acts).value);
      && s'.out == s.out - multiset{x}
      && (Locks(|q|, FreeOp) ==>
        s'.local == s.local[t := s.local[t].(stack := q[..LOCAL - MOVED] + [x])] &&
        s'.global == Given(s.global, q[LOCAL - MOVED..]))
      && (!Locks(|q|, FreeOp) ==> s'.local == s.local[t := s.local[t].(stack := q + [x])] && s'.global == s.global)
  {
    var q := s.local[t].stack;
    if |q| == LOCAL {
      acts := [Give(t)] + [Push(t, x)];
      RunCons(es, s, Give(t), [Push(t, x)]);
      var s1 := Do(es, s, Give(t));
      assert Run(es, s1, [Push(t, x)][..0]) == Some(s1);
      assert s1.local[t].stack == q[..LOCAL - MOVED];
      assert Do(es, s1, Push(t, x)).local == s.local[t := s.local[t].(stack := q[..LOCAL - MOVED] + [x])];
    } else {
      acts := [Push(t, x)];
      assert Run(es, s, acts[..0]) == Some(s);
    }
  }
}
