/** Execution streams (ES) that change kernel threads (sub-ES): a preempted ULT keeps the kernel thread
    it was interrupted on, and another one takes over the ES. A step relation over any number of ESs,
    sub-ESs and ULTs; a hand-off (the callback that runs while one sub-ES goes to sleep and wakes the
    next) and a pop of the global list are single steps. */
module KltSwitching {
  import opened Basics

  type Es = nat
  type Sub = nat
  type Ult = nat

  /** What the thread that holds the ES is executing. */
  datatype Ctx =
    | Sched                        // the scheduler
    | Ult(u: Ult)                  // a ULT
    | Handler(u: Ult, next: Sub)   // the preemption handler of a ULT, having popped `next`
    | After(u: Ult)                // the scheduler, about to push the ULT that last ran
    | Base                         // the base thread (for a main sub-ES: the trampoline), about to sleep
    | Astray                       // a base thread that was woken for the scheduler but found p_wakeup_thread set

  /** p_wakeup_thread of an ES, by the three places that set it. `who` is the ULT that left for the
      base thread, if it was not the scheduler. */
  datatype Target =
    | Preempted(u: Ult)                       // its p_wakeup is the sub-ES it is pinned to
    | Exit(next: Sub, who: Option<Ult>)       // exit_main: continue on a popped sub-ES
    | Main(who: Option<Ult>)                  // back_to_main: continue on the ES's own main

  /** The local data of one ES; cur is None when no thread holds it. */
  datatype Stream = Stream(
    cur: Option<Sub>,          // p_cur_sub
    ctx: Ctx,
    wakeup: Option<Target>,    // p_wakeup_thread
    locals: seq<Sub>           // sub_xstream_list, head first
  )

  /** Each ES's p_main, the sub-ESs whose `is_main` is set, and initial_num_sub_xstreams. */
  datatype Config = Config(main: map<Es, Sub>, mains: set<Sub>, initial: nat)

  datatype State = State(
    es: map<Es, Stream>,
    global: seq<Sub>,              // the global list, head first
    pins: map<Ult, Sub>,           // p_wakeup of the ULTs whose `preempted` is set
    ready: set<Sub>,               // mains whose `ready` is set
    pool: multiset<Ult>,           // the ULTs in the pools
    stopped: set<Ult>,             // ULTs that are blocked, finished or not started
    subs: set<Sub>                 // sub-ESs created so far
  )

  datatype Action =
    | Pick(e: Es, u: Ult)            // schedule_thread
    | Yield(e: Es)
    | Stop(e: Es)                    // the ULT blocks or ends
    | SetReady(u: Ult)               // a blocked (or new) ULT enters a pool
    | Tick(e: Es)                    // preemption signal
    | HandOff(e: Es)                 // on_sleep of the preempted sub-ES
    | Repush(e: Es)
    | BaseSleep(e: Es)               // on_sleep_and_wakeup, or trampoline_on_sleep of a main
    | ExitMain(e: Es)
    | BackToMain(e: Es)
    | Create(x: Sub)                 // a globally allocated sub-ES goes to its initial sleep

  predicate IsMain(c: Config, x: Sub) {
    x in c.mains
  }

  function Put(s: State, e: Es, v: Stream): State {
    s.(es := s.es[e := v])
  }

  /** list_pop: the local list, else the global one. */
  function Popped(s: State, v: Stream): Option<Sub> {
    if v.locals != [] then Some(v.locals[0]) else if s.global != [] then Some(s.global[0]) else None
  }

  function Pop(s: State, e: Es): State
    requires e in s.es
  {
    var v := s.es[e];
    if v.locals != [] then Put(s, e, v.(locals := v.locals[1..]))
    else if s.global != [] then s.(global := s.global[1..]) else s
  }

  /** The ULT that is executing, if the scheduler is not. */
  function Who(c: Ctx): Option<Ult> {
    if c.Ult? then Some(c.u) else None
  }

  predicate Live(s: State, e: Es) {
    e in s.es && s.es[e].cur.Some?
  }

  predicate Enabled(c: Config, s: State, a: Action) {
    match a
    case Pick(e, u) => Live(s, e) && s.es[e].ctx.Sched? && u in s.pool
    case Yield(e) => Live(s, e) && s.es[e].ctx.Ult?
    case Stop(e) => Live(s, e) && s.es[e].ctx.Ult?
    case SetReady(u) => u in s.stopped
    case Tick(e) => Live(s, e) && s.es[e].ctx.Ult?
    case HandOff(e) => Live(s, e) && s.es[e].ctx.Handler?
    case Repush(e) => Live(s, e) && s.es[e].ctx.After?
    case BaseSleep(e) => Live(s, e) && s.es[e].ctx.Base? && e in c.main
    case ExitMain(e) =>
      Live(s, e) && (s.es[e].ctx.Sched? || s.es[e].ctx.Ult?) && e in c.main &&
      IsMain(c, s.es[e].cur.value) && s.es[e].cur.value != c.main[e]
    case BackToMain(e) =>
      Live(s, e) && (s.es[e].ctx.Sched? || s.es[e].ctx.Ult?) && e in c.main &&
      s.es[e].cur.value != c.main[e] && c.main[e] in s.ready
    case Create(x) => x !in s.subs && !IsMain(c, x)
  }

  /** The sub-ES that the base thread of ES e wakes, and what that one goes on to execute. */
  function Next(c: Config, s: State, e: Es): Option<(Sub, Ctx)>
    requires e in s.es && e in c.main
  {
    match s.es[e].wakeup
    case None => None
    case Some(Preempted(u)) => if u in s.pins then Some((s.pins[u], Ult(u))) else None
    case Some(Exit(x, who)) => Some((x, if who.Some? then After(who.value) else Sched))
    case Some(Main(who)) => Some((c.main[e], if who.Some? then Ult(who.value) else Sched))
  }

  /** list_add: a base thread on its way to sleep goes to the local list up to its initial size, else to
      the global one; a main only raises `ready`. */
  function PutToSleep(c: Config, s: State, e: Es, x: Sub): State
    requires e in s.es
  {
    var v := s.es[e];
    if IsMain(c, x) then s.(ready := s.ready + {x})
    else if |v.locals| < c.initial then Put(s, e, v.(locals := [x] + v.locals))
    else s.(global := [x] + s.global)
  }

  /** The base thread of e has gone to sleep: the sub-ES of p_wakeup_thread, if any, holds the ES. */
  function Woken(c: Config, s: State, e: Es): State
    requires e in s.es && e in c.main
  {
    var v := s.es[e];
    match Next(c, s, e)
    case None => Put(s, e, v.(cur := None))
    case Some((x, ctx)) =>
      Put(s, e, v.(cur := Some(x), ctx := ctx, wakeup := None))
        .(pins := if v.wakeup.value.Preempted? then s.pins - {v.wakeup.value.u} else s.pins)
  }

  function Do(c: Config, s: State, a: Action): State
    requires Enabled(c, s, a)
  {
    match a
    case Pick(e, u) =>
      var v := s.es[e];
      Put(s, e, if u in s.pins then v.(ctx := Base, wakeup := Some(Preempted(u))) else v.(ctx := Ult(u)))
        .(pool := s.pool - multiset{u})
    case Yield(e) => Put(s, e, s.es[e].(ctx := Sched)).(pool := s.pool + multiset{s.es[e].ctx.u})
    case Stop(e) => Put(s, e, s.es[e].(ctx := Sched)).(stopped := s.stopped + {s.es[e].ctx.u})
    case SetReady(u) => s.(pool := s.pool + multiset{u}, stopped := s.stopped - {u})
    case Tick(e) =>
      var v := s.es[e];
      (match Popped(s, v)
       case None => s
       case Some(x) => Put(Pop(s, e), e, Pop(s, e).es[e].(ctx := Handler(v.ctx.u, x))))
    case HandOff(e) =>
      var v := s.es[e];
      // the woken sub-ES is in its base loop, which tests p_wakeup_thread
      Put(s, e, v.(cur := Some(v.ctx.next), ctx := if v.wakeup.None? then After(v.ctx.u) else Astray))
        .(pins := s.pins[v.ctx.u := v.cur.value])
    case Repush(e) => Put(s, e, s.es[e].(ctx := Sched)).(pool := s.pool + multiset{s.es[e].ctx.u})
    case BaseSleep(e) => Woken(c, PutToSleep(c, s, e, s.es[e].cur.value), e)
    case ExitMain(e) =>
      var v := s.es[e];
      (match Popped(s, v)
       case None => s
       case Some(x) =>
         Put(Pop(s, e), e, Pop(s, e).es[e].(ctx := Base, wakeup := Some(Exit(x, Who(v.ctx))))))
    case BackToMain(e) =>
      var v := s.es[e];
      Put(s, e, v.(ctx := Base, wakeup := Some(Main(Who(v.ctx))))).(ready := s.ready - {c.main[e]})
    case Create(x) => s.(global := [x] + s.global, subs := s.subs + {x})
  }

  // ----- where a sub-ES or a ULT can be -----

  datatype Slot =
    | Holding(e: Es)    // holds the ES's local data
    | Listed(e: Es)     // in the local list of an ES
    | Free              // in the global list
    | Pinned(u: Ult)    // asleep under a preempted ULT
    | Claimed(e: Es)    // popped by an ES that has not yet woken it
    | Parked            // a main, asleep in its trampoline
    | Called(e: Es)     // the ES's own main, asleep in its trampoline, about to be woken

  datatype Seat = On(e: Es) | Resuming(e: Es) | Pooled | Halted

  function Has<T(==)>(o: Option<T>, x: T): nat {
    if o == Some(x) then 1 else 0
  }

  function Claim(v: Stream): Option<Sub> {
    if v.ctx.Handler? then Some(v.ctx.next)
    else if v.wakeup.Some? && v.wakeup.value.Exit? then Some(v.wakeup.value.next) else None
  }

  function Running(v: Stream): Option<Ult> {
    if v.ctx.Ult? || v.ctx.Handler? || v.ctx.After? then Some(v.ctx.u)
    else if v.wakeup.Some? && !v.wakeup.value.Preempted? then v.wakeup.value.who else None
  }

  function Waking(v: Stream): Option<Ult> {
    if v.wakeup.Some? && v.wakeup.value.Preempted? then Some(v.wakeup.value.u) else None
  }

  predicate CallsMain(v: Stream) {
    v.wakeup.Some? && v.wakeup.value.Main?
  }

  /** How many times a sub-ES is found in one place. */
  function SubCount(c: Config, s: State, k: Slot, x: Sub): nat {
    match k
    case Holding(e) => if e in s.es then Has(s.es[e].cur, x) else 0
    case Listed(e) => if e in s.es then multiset(s.es[e].locals)[x] else 0
    case Free => multiset(s.global)[x]
    case Pinned(u) => Flag(u in s.pins && s.pins[u] == x)
    case Claimed(e) => if e in s.es then Has(Claim(s.es[e]), x) else 0
    case Parked => Flag(x in s.ready)
    case Called(e) => Flag(e in s.es && e in c.main && CallsMain(s.es[e]) && c.main[e] == x)
  }

  /** How many times a ULT is found in one place. */
  function UltCount(s: State, k: Seat, u: Ult): nat {
    match k
    case On(e) => if e in s.es then Has(Running(s.es[e]), u) else 0
    case Resuming(e) => if e in s.es then Has(Waking(s.es[e]), u) else 0
    case Pooled => s.pool[u]
    case Halted => Flag(u in s.stopped)
  }

  // ----- the invariant: p and q say where every sub-ES and every ULT is -----

  predicate SubAt(c: Config, s: State, p: map<Sub, Slot>, k: Slot, x: Sub) {
    SubCount(c, s, k, x) == Flag(x in p && p[x] == k)
  }

  ghost predicate SubsPlaced(c: Config, s: State, p: map<Sub, Slot>) {
    forall k, x :: SubAt(c, s, p, k, x)
  }

  predicate UltAt(s: State, q: map<Ult, Seat>, k: Seat, u: Ult) {
    UltCount(s, k, u) == Flag(u in q && q[u] == k)
  }

  ghost predicate UltsPlaced(s: State, q: map<Ult, Seat>) {
    forall k, u :: UltAt(s, q, k, u)
  }

  /** Mains never enter a list, and nothing else is ever parked. */
  predicate FitsSlot(c: Config, x: Sub, k: Slot) {
    match k
    case Listed(_) | Free | Claimed(_) => !IsMain(c, x)
    case Parked => IsMain(c, x)
    case _ => true
  }

  /** Where a base thread goes to sleep, and where the sub-ES it wakes comes from. */
  function BedOf(c: Config, s: State, e: Es): Slot
    requires Live(s, e)
  {
    if IsMain(c, s.es[e].cur.value) then Parked else if |s.es[e].locals| < c.initial then Listed(e) else Free
  }

  function WakesFrom(c: Config, s: State, e: Es): Slot
    requires e in s.es && e in c.main && Next(c, s, e).Some?
  {
    match s.es[e].wakeup.value
    case Preempted(u) => Pinned(u)
    case Exit(_, _) => Claimed(e)
    case Main(_) => Called(e)
  }

  predicate StreamInv(c: Config, s: State, v: Stream) {
    && v.cur.Some? && !v.ctx.Astray? && (v.ctx.Base? <==> v.wakeup.Some?)
    && |v.locals| <= c.initial
    && (Running(v).Some? && !v.ctx.After? ==> Running(v).value !in s.pins)
    && (Waking(v).Some? ==> Waking(v).value in s.pins)
  }

  ghost predicate Inv(c: Config, s: State, p: map<Sub, Slot>, q: map<Ult, Seat>) {
    && s.es.Keys == c.main.Keys && p.Keys == s.subs
    && SubsPlaced(c, s, p) && UltsPlaced(s, q)
    && (forall x :: x in p ==> FitsSlot(c, x, p[x]))
    && (forall e :: e in s.es ==> StreamInv(c, s, s.es[e]))
    && (forall u :: u in s.stopped ==> u !in s.pins)
    && (forall x :: IsMain(c, x) ==> x in s.subs)
  }

  function TrackSub(c: Config, s: State, p: map<Sub, Slot>, a: Action): map<Sub, Slot>
    requires Enabled(c, s, a)
  {
    match a
    case Tick(e) => if Popped(s, s.es[e]).Some? then p[Popped(s, s.es[e]).value := Claimed(e)] else p
    case ExitMain(e) => if Popped(s, s.es[e]).Some? then p[Popped(s, s.es[e]).value := Claimed(e)] else p
    case HandOff(e) => p[s.es[e].cur.value := Pinned(s.es[e].ctx.u)][s.es[e].ctx.next := Holding(e)]
    case BaseSleep(e) =>
      if Next(c, s, e).Some? then p[s.es[e].cur.value := BedOf(c, s, e)][Next(c, s, e).value.0 := Holding(e)] else p
    case BackToMain(e) => p[c.main[e] := Called(e)]
    case Create(x) => p[x := Free]
    case _ => p
  }

  function TrackUlt(c: Config, s: State, q: map<Ult, Seat>, a: Action): map<Ult, Seat>
    requires Enabled(c, s, a)
  {
    match a
    case Pick(e, u) => q[u := if u in s.pins then Resuming(e) else On(e)]
    case Yield(e) => q[s.es[e].ctx.u := Pooled]
    case Repush(e) => q[s.es[e].ctx.u := Pooled]
    case Stop(e) => q[s.es[e].ctx.u := Halted]
    case SetReady(u) => q[u := Pooled]
    case BaseSleep(e) => if Waking(s.es[e]).Some? then q[Waking(s.es[e]).value := On(e)] else q
    case _ => q
  }

  // ----- sub-ESs -----

  lemma SubsQuiet(c: Config, s: State, a: Action, k: Slot, x: Sub)
    requires Enabled(c, s, a)
    requires a.Pick? || a.Yield? || a.Stop? || a.SetReady? || a.Repush?
    requires a.SetReady? || StreamInv(c, s, s.es[a.e])
    ensures SubCount(c, Do(c, s, a), k, x) == SubCount(c, s, k, x)
  {
  }

  function PopsFrom(s: State, e: Es): Slot
    requires e in s.es
  {
    if s.es[e].locals != [] then Listed(e) else Free
  }

  lemma PushCount(x: Sub, y: Sub, q: seq<Sub>)
    ensures multiset([y] + q)[x] == Flag(x == y) + multiset(q)[x]
  {
  }

  lemma PopCount(x: Sub, q: seq<Sub>)
    requires q != []
    ensures multiset(q)[x] == Flag(x == q[0]) + multiset(q[1..])[x]
  {
    assert q == [q[0]] + q[1..];
    PushCount(x, q[0], q[1..]);
  }

  lemma SubsRelist(c: Config, s: State, e: Es, l: seq<Sub>, k: Slot, x: Sub)
    requires e in s.es
    ensures SubCount(c, Put(s, e, s.es[e].(locals := l)), k, x)
         == if k == Listed(e) then multiset(l)[x] else SubCount(c, s, k, x)
  {
  }

  lemma SubsRefree(c: Config, s: State, g: seq<Sub>, k: Slot, x: Sub)
    ensures SubCount(c, s.(global := g), k, x) == if k == Free then multiset(g)[x] else SubCount(c, s, k, x)
  {
  }

  lemma SubsPop(c: Config, s: State, e: Es, k: Slot, x: Sub)
    requires Live(s, e) && Popped(s, s.es[e]).Some?
    ensures SubCount(c, Pop(s, e), k, x)
         == SubCount(c, s, k, x) - Flag(k == PopsFrom(s, e) && x == Popped(s, s.es[e]).value)
    ensures SubCount(c, s, PopsFrom(s, e), Popped(s, s.es[e]).value) > 0
  {
    var v := s.es[e];
    if v.locals != [] {
      PopCount(x, v.locals);
      SubsRelist(c, s, e, v.locals[1..], k, x);
    } else {
      PopCount(x, s.global);
      SubsRefree(c, s, s.global[1..], k, x);
    }
  }

  lemma SubsClaim(c: Config, s: State, e: Es, v: Stream, k: Slot, x: Sub)
    requires e in s.es && Claim(s.es[e]).None? && Claim(v).Some? && !CallsMain(s.es[e]) && !CallsMain(v)
    requires v.cur == s.es[e].cur && v.locals == s.es[e].locals
    ensures SubCount(c, Put(s, e, v), k, x) == SubCount(c, s, k, x) + Flag(k == Claimed(e) && x == Claim(v).value)
  {
  }

  lemma SubsTaken(c: Config, s: State, p: map<Sub, Slot>, a: Action, k: Slot, x: Sub)
    requires Enabled(c, s, a) && (a.Tick? || a.ExitMain?) && Popped(s, s.es[a.e]).Some?
    requires StreamInv(c, s, s.es[a.e]) && SubAt(c, s, p, k, x)
    requires SubAt(c, s, p, PopsFrom(s, a.e), Popped(s, s.es[a.e]).value)
    ensures SubAt(c, Do(c, s, a), TrackSub(c, s, p, a), k, x)
  {
    SubsPop(c, s, a.e, k, x);
    var t := Pop(s, a.e);
    SubsClaim(c, t, a.e, Do(c, s, a).es[a.e], k, x);
  }

  lemma SubsHandOff(c: Config, s: State, p: map<Sub, Slot>, e: Es, k: Slot, x: Sub)
    requires Enabled(c, s, HandOff(e)) && StreamInv(c, s, s.es[e])
    requires SubAt(c, s, p, k, x)
    requires SubAt(c, s, p, Holding(e), s.es[e].cur.value) && SubAt(c, s, p, Claimed(e), s.es[e].ctx.next)
    ensures SubAt(c, Do(c, s, HandOff(e)), TrackSub(c, s, p, HandOff(e)), k, x)
  {
    assert Running(s.es[e]) == Some(s.es[e].ctx.u);
  }

  lemma SubsCall(c: Config, s: State, p: map<Sub, Slot>, e: Es, k: Slot, x: Sub)
    requires Enabled(c, s, BackToMain(e)) && StreamInv(c, s, s.es[e])
    requires SubAt(c, s, p, k, x) && SubAt(c, s, p, Parked, c.main[e])
    ensures SubAt(c, Do(c, s, BackToMain(e)), TrackSub(c, s, p, BackToMain(e)), k, x)
  {
  }

  lemma SubsCreate(c: Config, s: State, p: map<Sub, Slot>, y: Sub, k: Slot, x: Sub)
    requires Enabled(c, s, Create(y)) && p.Keys == s.subs
    requires SubAt(c, s, p, k, x)
    ensures SubAt(c, Do(c, s, Create(y)), TrackSub(c, s, p, Create(y)), k, x)
  {
  }

  /** The sleeper is in its bed before it lets go of the ES. */
  lemma SubsAsleep(c: Config, s: State, p: map<Sub, Slot>, e: Es, k: Slot, x: Sub)
    requires Live(s, e) && SubAt(c, s, p, Holding(e), s.es[e].cur.value) && SubAt(c, s, p, Parked, s.es[e].cur.value)
    ensures var y := s.es[e].cur.value;
      SubCount(c, PutToSleep(c, s, e, y), k, x) == SubCount(c, s, k, x) + Flag(x == y && k == BedOf(c, s, e))
  {
    var v := s.es[e];
    var y := v.cur.value;
    if IsMain(c, y) {
    } else if |v.locals| < c.initial {
      PushCount(x, y, v.locals);
      SubsRelist(c, s, e, [y] + v.locals, k, x);
    } else {
      PushCount(x, y, s.global);
      SubsRefree(c, s, [y] + s.global, k, x);
    }
  }

  /** In a reachable state a base thread always finds somebody to wake. */
  lemma SomebodyToWake(c: Config, s: State, p: map<Sub, Slot>, q: map<Ult, Seat>, e: Es)
    requires Enabled(c, s, BaseSleep(e)) && Inv(c, s, p, q)
    ensures Next(c, s, e).Some?
    ensures var k := WakesFrom(c, s, e); var y := Next(c, s, e).value.0;
      k != BedOf(c, s, e) && y in p && p[y] == k && y != s.es[e].cur.value
  {
    assert StreamInv(c, s, s.es[e]);
    var y := Next(c, s, e).value.0;
    assert SubAt(c, s, p, WakesFrom(c, s, e), y);
    assert SubAt(c, s, p, Holding(e), s.es[e].cur.value);
  }

  lemma SubsWoken(c: Config, s: State, t: State, e: Es, k: Slot, x: Sub)
    requires e in c.main && e in s.es && e in t.es && t.es[e].wakeup == s.es[e].wakeup && t.pins == s.pins
    requires t.es[e].cur == s.es[e].cur && s.es[e].cur.Some? && t.es[e].ctx == s.es[e].ctx == Base
    requires Next(c, s, e).Some?
    ensures var y := Next(c, s, e).value.0;
      SubCount(c, Woken(c, t, e), k, x) ==
        SubCount(c, t, k, x) - Flag(x == y && k == WakesFrom(c, s, e))
        - Flag(x == s.es[e].cur.value && k == Holding(e)) + Flag(x == y && k == Holding(e))
  {
  }

  lemma SubsSwitched(c: Config, s: State, p: map<Sub, Slot>, q: map<Ult, Seat>, e: Es, k: Slot, x: Sub)
    requires Enabled(c, s, BaseSleep(e)) && Inv(c, s, p, q)
    ensures SubAt(c, Do(c, s, BaseSleep(e)), TrackSub(c, s, p, BaseSleep(e)), k, x)
  {
    var y := s.es[e].cur.value;
    SomebodyToWake(c, s, p, q, e);
    assert SubAt(c, s, p, Holding(e), y) && SubAt(c, s, p, Parked, y) && SubAt(c, s, p, k, x);
    SubsAsleep(c, s, p, e, k, x);
    SubsWoken(c, s, PutToSleep(c, s, e, y), e, k, x);
  }

  lemma SubsStay(c: Config, s: State, p: map<Sub, Slot>, q: map<Ult, Seat>, a: Action, k: Slot, x: Sub)
    requires Enabled(c, s, a) && Inv(c, s, p, q)
    ensures SubAt(c, Do(c, s, a), TrackSub(c, s, p, a), k, x)
  {
    assert SubAt(c, s, p, k, x);
    match a
    case Tick(e) => 
      if Popped(s, s.es[e]).Some? {
        assert SubAt(c, s, p, PopsFrom(s, e), Popped(s, s.es[e]).value);
        SubsTaken(c, s, p, a, k, x);
      }
    case ExitMain(e) => 
      if Popped(s, s.es[e]).Some? {
        assert SubAt(c, s, p, PopsFrom(s, e), Popped(s, s.es[e]).value);
        SubsTaken(c, s, p, a, k, x);
      }
    case HandOff(e) => 
      assert SubAt(c, s, p, Holding(e), s.es[e].cur.value) && SubAt(c, s, p, Claimed(e), s.es[e].ctx.next);
      SubsHandOff(c, s, p, e, k, x);
    case BaseSleep(e) => SubsSwitched(c, s, p, q, e, k, x);
    case BackToMain(e) => 
      assert SubAt(c, s, p, Parked, c.main[e]);
      SubsCall(c, s, p, e, k, x);
    case Create(y) => SubsCreate(c, s, p, y, k, x);
    case _ => SubsQuiet(c, s, a, k, x);
  }

  // ----- ULTs -----

  lemma UltsMove(c: Config, s: State, q: map<Ult, Seat>, a: Action, k: Seat, u: Ult)
    requires Enabled(c, s, a)
    requires a.Pick? || a.Yield? || a.Stop? || a.Repush?
    requires StreamInv(c, s, s.es[a.e])
    requires UltAt(s, q, k, u)
    requires a.Pick? ==> UltAt(s, q, Pooled, a.u) && UltAt(s, q, On(a.e), a.u)
    requires !a.Pick? ==> UltAt(s, q, On(a.e), s.es[a.e].ctx.u) && UltAt(s, q, Halted, s.es[a.e].ctx.u)
    ensures UltAt(Do(c, s, a), TrackUlt(c, s, q, a), k, u)
  {
  }

  lemma UltsReady(c: Config, s: State, q: map<Ult, Seat>, v: Ult, k: Seat, u: Ult)
    requires Enabled(c, s, SetReady(v))
    requires UltAt(s, q, k, u) && UltAt(s, q, Halted, v)
    ensures UltAt(Do(c, s, SetReady(v)), TrackUlt(c, s, q, SetReady(v)), k, u)
  {
  }

  lemma UltsQuiet(c: Config, s: State, a: Action, k: Seat, u: Ult)
    requires Enabled(c, s, a)
    requires a.Tick? || a.HandOff? || a.ExitMain? || a.BackToMain? || a.Create?
    requires a.Create? || StreamInv(c, s, s.es[a.e])
    ensures UltCount(Do(c, s, a), k, u) == UltCount(s, k, u)
  {
  }

  lemma UltsAsleep(c: Config, s: State, e: Es, k: Seat, u: Ult)
    requires Live(s, e)
    ensures UltCount(PutToSleep(c, s, e, s.es[e].cur.value), k, u) == UltCount(s, k, u)
  {
  }

  lemma UltsWoken(c: Config, s: State, e: Es, k: Seat, u: Ult)
    requires e in c.main && e in s.es && s.es[e].ctx.Base? && Next(c, s, e).Some?
    ensures var w := Waking(s.es[e]);
      UltCount(Woken(c, s, e), k, u) ==
        UltCount(s, k, u) - Flag(w == Some(u) && k == Resuming(e)) + Flag(w == Some(u) && k == On(e))
  {
  }

  lemma UltsSwitched(c: Config, s: State, q: map<Ult, Seat>, e: Es, k: Seat, u: Ult)
    requires Enabled(c, s, BaseSleep(e)) && Next(c, s, e).Some?
    requires UltAt(s, q, k, u)
    requires Waking(s.es[e]).Some? ==> UltAt(s, q, Resuming(e), Waking(s.es[e]).value)
    ensures UltAt(Do(c, s, BaseSleep(e)), TrackUlt(c, s, q, BaseSleep(e)), k, u)
  {
    UltsAsleep(c, s, e, k, u);
    UltsWoken(c, PutToSleep(c, s, e, s.es[e].cur.value), e, k, u);
  }

  lemma UltsStay(c: Config, s: State, p: map<Sub, Slot>, q: map<Ult, Seat>, a: Action, k: Seat, u: Ult)
    requires Enabled(c, s, a) && Inv(c, s, p, q)
    ensures UltAt(Do(c, s, a), TrackUlt(c, s, q, a), k, u)
  {
    assert UltAt(s, q, k, u);
    match a
    case Pick(e, v) =>
      assert UltAt(s, q, Pooled, v) && UltAt(s, q, On(e), v);
      UltsMove(c, s, q, a, k, u);
    case Yield(e) =>
      assert UltAt(s, q, On(e), s.es[e].ctx.u) && UltAt(s, q, Halted, s.es[e].ctx.u);
      UltsMove(c, s, q, a, k, u);
    case Stop(e) =>
      assert UltAt(s, q, On(e), s.es[e].ctx.u) && UltAt(s, q, Halted, s.es[e].ctx.u);
      UltsMove(c, s, q, a, k, u);
    case Repush(e) =>
      assert UltAt(s, q, On(e), s.es[e].ctx.u) && UltAt(s, q, Halted, s.es[e].ctx.u);
      UltsMove(c, s, q, a, k, u);
    case SetReady(v) =>
      assert UltAt(s, q, Halted, v);
      UltsReady(c, s, q, v, k, u);
    case BaseSleep(e) =>
      SomebodyToWake(c, s, p, q, e);
      assert Waking(s.es[e]).Some? ==> UltAt(s, q, Resuming(e), Waking(s.es[e]).value);
      UltsSwitched(c, s, q, e, k, u);
    case _ => UltsQuiet(c, s, a, k, u);
  }

  // ----- the rest of the invariant -----

  /** The ES that takes the step. */
  lemma OwnStreamStays(c: Config, s: State, a: Action)
    requires Enabled(c, s, a) && !a.SetReady? && !a.Create? && !a.BaseSleep?
    requires StreamInv(c, s, s.es[a.e])
    ensures a.e in Do(c, s, a).es && StreamInv(c, Do(c, s, a), Do(c, s, a).es[a.e])
  {
    match a
    case Pick(e, u) =>
    case Yield(e) =>
    case Stop(e) =>
    case Tick(e) =>
    case HandOff(e) =>
    case Repush(e) =>
    case ExitMain(e) =>
    case BackToMain(e) =>
  }

  lemma AsleepStreamStays(c: Config, s: State, e: Es)
    requires Live(s, e) && StreamInv(c, s, s.es[e])
    ensures var t := PutToSleep(c, s, e, s.es[e].cur.value);
      e in t.es && StreamInv(c, t, t.es[e]) && t.es[e] == s.es[e].(locals := t.es[e].locals) && t.pins == s.pins
  {
  }

  lemma WokenStreamStays(c: Config, s: State, e: Es)
    requires Live(s, e) && s.es[e].ctx.Base? && e in c.main && StreamInv(c, s, s.es[e]) && Next(c, s, e).Some?
    ensures e in Woken(c, s, e).es && StreamInv(c, Woken(c, s, e), Woken(c, s, e).es[e])
  {
  }

  lemma OtherStreamSame(c: Config, s: State, a: Action, d: Es)
    requires Enabled(c, s, a) && d in s.es && (!a.SetReady? && !a.Create? ==> d != a.e)
    ensures d in Do(c, s, a).es && Do(c, s, a).es[d] == s.es[d]
  {
  }

  lemma PinStays(c: Config, s: State, a: Action, u: Ult)
    requires Enabled(c, s, a)
    requires a.HandOff? ==> u != s.es[a.e].ctx.u
    requires a.BaseSleep? ==> Waking(s.es[a.e]) != Some(u)
    ensures u in Do(c, s, a).pins <==> u in s.pins
    ensures u in s.pins && u in Do(c, s, a).pins ==> Do(c, s, a).pins[u] == s.pins[u]
  {
  }

  /** Another ES: the pins of its ULTs do not change. */
  lemma OtherStreamStays(c: Config, s: State, p: map<Sub, Slot>, q: map<Ult, Seat>, a: Action, d: Es)
    requires Enabled(c, s, a) && Inv(c, s, p, q) && d in s.es && (!a.SetReady? && !a.Create? ==> d != a.e)
    ensures d in Do(c, s, a).es && StreamInv(c, Do(c, s, a), Do(c, s, a).es[d])
  {
    var v := s.es[d];
    OtherStreamSame(c, s, a, d);
    assert a.HandOff? ==> UltAt(s, q, On(a.e), s.es[a.e].ctx.u);
    assert a.BaseSleep? && Waking(s.es[a.e]).Some? ==> UltAt(s, q, Resuming(a.e), Waking(s.es[a.e]).value);
    if Running(v).Some? {
      assert UltAt(s, q, On(d), Running(v).value);
      PinStays(c, s, a, Running(v).value);
    }
    if Waking(v).Some? {
      assert UltAt(s, q, Resuming(d), Waking(v).value);
      PinStays(c, s, a, Waking(v).value);
    }
  }

  lemma StreamStays(c: Config, s: State, p: map<Sub, Slot>, q: map<Ult, Seat>, a: Action, d: Es)
    requires Enabled(c, s, a) && Inv(c, s, p, q) && d in s.es
    ensures d in Do(c, s, a).es && StreamInv(c, Do(c, s, a), Do(c, s, a).es[d])
  {
    assert StreamInv(c, s, s.es[d]);
    if !a.SetReady? && !a.Create? && d == a.e {
      if a.BaseSleep? {
        SomebodyToWake(c, s, p, q, a.e);
        AsleepStreamStays(c, s, a.e);
        WokenStreamStays(c, PutToSleep(c, s, a.e, s.es[a.e].cur.value), a.e);
      } else {
        OwnStreamStays(c, s, a);
      }
    } else {
      OtherStreamStays(c, s, p, q, a, d);
    }
  }

  lemma SlotsFit(c: Config, s: State, p: map<Sub, Slot>, q: map<Ult, Seat>, a: Action, x: Sub)
    requires Enabled(c, s, a) && Inv(c, s, p, q) && x in TrackSub(c, s, p, a)
    ensures FitsSlot(c, x, TrackSub(c, s, p, a)[x])
  {
    if (a.Tick? || a.ExitMain?) && Popped(s, s.es[a.e]).Some? {
      assert SubAt(c, s, p, PopsFrom(s, a.e), Popped(s, s.es[a.e]).value);
      SubsPop(c, s, a.e, Free, x);
    }
  }

  lemma StoppedUnpinned(c: Config, s: State, p: map<Sub, Slot>, q: map<Ult, Seat>, a: Action, u: Ult)
    requires Enabled(c, s, a) && Inv(c, s, p, q) && u in Do(c, s, a).stopped
    ensures u !in Do(c, s, a).pins
  {
    if a.HandOff? {
      assert UltAt(s, q, On(a.e), s.es[a.e].ctx.u) && UltAt(s, q, Halted, s.es[a.e].ctx.u);
    } else if a.Stop? {
      assert StreamInv(c, s, s.es[a.e]);
    }
  }

  lemma StreamsStay(c: Config, s: State, a: Action)
    requires Enabled(c, s, a)
    ensures Do(c, s, a).es.Keys == s.es.Keys
  {
  }

  lemma SubsGrow(c: Config, s: State, p: map<Sub, Slot>, q: map<Ult, Seat>, a: Action)
    requires Enabled(c, s, a) && Inv(c, s, p, q)
    ensures TrackSub(c, s, p, a).Keys == s.subs + (if a.Create? then {a.x} else {})
  {
    if (a.Tick? || a.ExitMain?) && Popped(s, s.es[a.e]).Some? {
      assert SubAt(c, s, p, PopsFrom(s, a.e), Popped(s, s.es[a.e]).value);
      SubsPop(c, s, a.e, Free, 0);
    } else if a.HandOff? {
      assert SubAt(c, s, p, Holding(a.e), s.es[a.e].cur.value) && SubAt(c, s, p, Claimed(a.e), s.es[a.e].ctx.next);
    } else if a.BaseSleep? {
      SomebodyToWake(c, s, p, q, a.e);
      assert SubAt(c, s, p, Holding(a.e), s.es[a.e].cur.value);
    } else if a.BackToMain? {
      assert SubAt(c, s, p, Parked, c.main[a.e]);
    }
  }

  lemma SubsKnown(c: Config, s: State, a: Action)
    requires Enabled(c, s, a)
    ensures Do(c, s, a).subs == s.subs + (if a.Create? then {a.x} else {})
  {
  }

  lemma StepKeeps(c: Config, s: State, p: map<Sub, Slot>, q: map<Ult, Seat>, a: Action)
    requires Enabled(c, s, a) && Inv(c, s, p, q)
    ensures Inv(c, Do(c, s, a), TrackSub(c, s, p, a), TrackUlt(c, s, q, a))
  {
    var (t, tp, tq) := (Do(c, s, a), TrackSub(c, s, p, a), TrackUlt(c, s, q, a));
    StreamsStay(c, s, a);
    SubsGrow(c, s, p, q, a);
    SubsKnown(c, s, a);
    forall k, x ensures SubAt(c, t, tp, k, x) {
      SubsStay(c, s, p, q, a, k, x);
    }
    forall k, u ensures UltAt(t, tq, k, u) {
      UltsStay(c, s, p, q, a, k, u);
    }
    forall x | x in tp ensures FitsSlot(c, x, tp[x]) {
      SlotsFit(c, s, p, q, a, x);
    }
    forall d | d in t.es ensures StreamInv(c, t, t.es[d]) {
      StreamStays(c, s, p, q, a, d);
    }
    forall u | u in t.stopped ensures u !in t.pins {
      StoppedUnpinned(c, s, p, q, a, u);
    }
  }

  // ----- whole runs -----

  /** After start-up: every ES runs its scheduler on its main, and its local list has the sub-ESs that it
      created (`home` says which); no ULT has run. */
  ghost predicate IsStart(c: Config, s: State, home: map<Sub, Es>) {
    && s.global == [] && s.pins == map[] && s.ready == {} && s.pool == multiset{} && s.subs == home.Keys
    && s.es.Keys == c.main.Keys && c.mains <= home.Keys
    && (forall x :: x in home ==> home[x] in c.main && (x in c.mains <==> c.main[home[x]] == x))
    && (forall e :: e in s.es ==> StartStream(c, s.es[e], home, e))
  }

  ghost predicate StartStream(c: Config, v: Stream, home: map<Sub, Es>, e: Es) {
    && e in c.main && c.main[e] in home && home[c.main[e]] == e
    && v == Stream(Some(c.main[e]), Sched, None, v.locals) && |v.locals| <= c.initial
    && forall x :: multiset(v.locals)[x] == Flag(x in home && home[x] == e && x !in c.mains)
  }

  /** Any interleaving of the steps of any number of ESs. */
  function Run(c: Config, s: State, acts: seq<Action>): Option<State> {
    if acts == [] then Some(s)
    else
      match Run(c, s, acts[..|acts| - 1])
      case None => None
      case Some(t) => if Enabled(c, t, acts[|acts| - 1]) then Some(Do(c, t, acts[|acts| - 1])) else None
  }

  function StartSlot(c: Config, home: map<Sub, Es>, x: Sub): Slot
    requires x in home
  {
    if IsMain(c, x) then Holding(home[x]) else Listed(home[x])
  }

  lemma StartSub(c: Config, s: State, home: map<Sub, Es>, k: Slot, x: Sub)
    requires s.global == [] && s.pins == map[] && s.ready == {}
    requires x in home ==> home[x] in s.es && home[x] in c.main && (x in c.mains <==> c.main[home[x]] == x)
    requires (k.Holding? || k.Listed? || k.Claimed? || k.Called?) && k.e in s.es ==> StartStream(c, s.es[k.e], home, k.e)
    ensures SubCount(c, s, k, x) == Flag(x in home && StartSlot(c, home, x) == k)
  {
  }

  lemma StartUlt(s: State, k: Seat, u: Ult)
    requires s.pool == multiset{}
    requires (k.On? || k.Resuming?) && k.e in s.es ==> s.es[k.e].ctx.Sched? && s.es[k.e].wakeup.None?
    ensures UltCount(s, k, u) == Flag(u in s.stopped && k.Halted?)
  {
  }

  lemma StartSubs(c: Config, s: State, home: map<Sub, Es>, p: map<Sub, Slot>)
    requires IsStart(c, s, home) && p == map x | x in home :: StartSlot(c, home, x)
    ensures SubsPlaced(c, s, p)
  {
    forall k, x ensures SubAt(c, s, p, k, x) {
      StartSub(c, s, home, k, x);
    }
  }

  lemma StartUlts(s: State, q: map<Ult, Seat>)
    requires s.pool == multiset{} && q == map u | u in s.stopped :: Halted
    requires forall e :: e in s.es ==> s.es[e].ctx.Sched? && s.es[e].wakeup.None?
    ensures UltsPlaced(s, q)
  {
    forall k, u ensures UltAt(s, q, k, u) {
      StartUlt(s, k, u);
    }
  }

  lemma StartStreams(c: Config, s: State, home: map<Sub, Es>, e: Es)
    requires IsStart(c, s, home) && e in s.es
    ensures StreamInv(c, s, s.es[e]) && s.es[e].ctx.Sched? && s.es[e].wakeup.None?
  {
    assert StartStream(c, s.es[e], home, e);
  }

  lemma StartInv(c: Config, s: State, home: map<Sub, Es>) returns (p: map<Sub, Slot>, q: map<Ult, Seat>)
    requires IsStart(c, s, home)
    ensures Inv(c, s, p, q)
  {
    p := map x | x in home :: StartSlot(c, home, x);
    q := map u | u in s.stopped :: Halted;
    forall e | e in s.es ensures StreamInv(c, s, s.es[e]) && s.es[e].ctx.Sched? && s.es[e].wakeup.None? {
      StartStreams(c, s, home, e);
    }
    StartSubs(c, s, home, p);
    StartUlts(s, q);
  }

  lemma {:induction false} RunKeeps(c: Config, s: State, home: map<Sub, Es>, acts: seq<Action>)
    returns (p: map<Sub, Slot>, q: map<Ult, Seat>)
    requires IsStart(c, s, home) && Run(c, s, acts).Some?
    ensures Inv(c, Run(c, s, acts).value, p, q)
  {
    if acts == [] {
      p, q := StartInv(c, s, home);
    } else {
      var before, a := acts[..|acts| - 1], acts[|acts| - 1];
      var t := Run(c, s, before).value;
      var p', q' := RunKeeps(c, s, home, before);
      StepKeeps(c, t, p', q', a);
      p, q := TrackSub(c, t, p', a), TrackUlt(c, t, q', a);
    }
  }

  /** KLT-switching never drops or duplicates an ES: in every reachable state exactly one sub-ES holds
      the local data of each ES. */
  lemma EveryEsIsHeld(c: Config, s: State, home: map<Sub, Es>, acts: seq<Action>, d: Es, e: Es)
    requires IsStart(c, s, home) && Run(c, s, acts).Some? && d in c.main && e in c.main && d != e
    ensures var t := Run(c, s, acts).value;
      d in t.es && e in t.es && t.es[d].cur.Some? && t.es[e].cur.Some? && t.es[d].cur != t.es[e].cur
  {
    var p, q := RunKeeps(c, s, home, acts);
    var t := Run(c, s, acts).value;
    assert StreamInv(c, t, t.es[d]) && StreamInv(c, t, t.es[e]);
    assert SubAt(c, t, p, Holding(d), t.es[d].cur.value) && SubAt(c, t, p, Holding(e), t.es[d].cur.value);
  }

  /** Every sub-ES created so far is in exactly one place, once. */
  lemma EverySubInOnePlace(c: Config, s: State, home: map<Sub, Es>, acts: seq<Action>, x: Sub) returns (k: Slot)
    requires IsStart(c, s, home) && Run(c, s, acts).Some? && x in Run(c, s, acts).value.subs
    ensures SubCount(c, Run(c, s, acts).value, k, x) == 1
    ensures forall j :: j != k ==> SubCount(c, Run(c, s, acts).value, j, x) == 0
    ensures IsMain(c, x) ==> !k.Listed? && !k.Free?
  {
    var p, q := RunKeeps(c, s, home, acts);
    k := p[x];
    forall j ensures SubCount(c, Run(c, s, acts).value, j, x) == Flag(j == k) {
      assert SubAt(c, Run(c, s, acts).value, p, j, x);
    }
  }

  /** Every ULT is on one ES, about to be resumed by one ES, once in a pool, or in none of them. */
  lemma EveryUltInOnePlace(c: Config, s: State, home: map<Sub, Es>, acts: seq<Action>, u: Ult, i: Seat, j: Seat)
    requires IsStart(c, s, home) && Run(c, s, acts).Some? && i != j
    requires UltCount(Run(c, s, acts).value, i, u) > 0
    ensures UltCount(Run(c, s, acts).value, i, u) == 1 && UltCount(Run(c, s, acts).value, j, u) == 0
  {
    var p, q := RunKeeps(c, s, home, acts);
    var t := Run(c, s, acts).value;
    assert UltAt(t, q, i, u) && UltAt(t, q, j, u);
  }

  lemma TargetAsleep(c: Config, s: State, p: map<Sub, Slot>, q: map<Ult, Seat>, e: Es, d: Es)
    requires Enabled(c, s, BaseSleep(e)) && Inv(c, s, p, q)
    ensures Next(c, s, e).Some? && SubCount(c, s, Holding(d), Next(c, s, e).value.0) == 0
  {
    SomebodyToWake(c, s, p, q, e);
    assert SubAt(c, s, p, Holding(d), Next(c, s, e).value.0);
  }

  /** A base context runs exactly while p_wakeup_thread is set, it finds a sub-ES that is asleep and is to
      hold the ES next, and the base thread that a hand-off wakes never finds p_wakeup_thread set. */
  lemma BaseOnlyToWake(c: Config, s: State, home: map<Sub, Es>, acts: seq<Action>, e: Es, d: Es)
    requires IsStart(c, s, home) && Run(c, s, acts).Some? && e in c.main
    ensures var t := Run(c, s, acts).value;
      && e in t.es && !t.es[e].ctx.Astray?
      && (t.es[e].ctx.Base? <==> t.es[e].wakeup.Some?)
      && (t.es[e].ctx.Base? ==> Next(c, t, e).Some? && SubCount(c, t, Holding(d), Next(c, t, e).value.0) == 0)
  {
    var p, q := RunKeeps(c, s, home, acts);
    var t := Run(c, s, acts).value;
    assert StreamInv(c, t, t.es[e]);
    if t.es[e].ctx.Base? {
      TargetAsleep(c, t, p, q, e, d);
    }
  }

  lemma Extend(c: Config, s: State, acts: seq<Action>, t: State, a: Action) returns (acts': seq<Action>, t': State)
    requires Run(c, s, acts) == Some(t) && Enabled(c, t, a)
    ensures t' == Do(c, t, a) && Run(c, s, acts') == Some(t')
  {
    acts', t' := acts + [a], Do(c, t, a);
    assert acts'[..|acts'| - 1] == acts;
  }

  lemma TwoStreams() returns (c: Config, s: State, home: map<Sub, Es>)
    ensures c == Config(map[0 := 10, 1 := 11], {10, 11}, 1)
    ensures s == State(map[0 := Stream(Some(10), Sched, None, [20]), 1 := Stream(Some(11), Sched, None, [21])],
      [], map[], {}, multiset{}, {7}, {10, 11, 20, 21})
    ensures IsStart(c, s, home)
  {
    c := Config(map[0 := 10, 1 := 11], {10, 11}, 1);
    home := map[10 := 0, 11 := 1, 20 := 0, 21 := 1];
    s := State(map[0 := Stream(Some(10), Sched, None, [20]), 1 := Stream(Some(11), Sched, None, [21])],
      [], map[], {}, multiset{}, {7}, {10, 11, 20, 21});
  }

  lemma PreemptSeven(c: Config, s: State) returns (acts: seq<Action>)
    requires c == Config(map[0 := 10, 1 := 11], {10, 11}, 1)
    requires s == State(map[0 := Stream(Some(10), Sched, None, [20]), 1 := Stream(Some(11), Sched, None, [21])],
      [], map[], {}, multiset{}, {7}, {10, 11, 20, 21})
    ensures Run(c, s, acts).Some?
    ensures var t := Run(c, s, acts).value;
      1 in t.es && t.es[1] == s.es[1] && 7 in t.pool && 7 in t.pins && t.pins[7] == 10
  {
    var t := s;
    acts, t := Extend(c, s, [], t, SetReady(7));
    acts, t := Extend(c, s, acts, t, Pick(0, 7));
    acts, t := Extend(c, s, acts, t, Tick(0));
    acts, t := Extend(c, s, acts, t, HandOff(0));
    acts, t := Extend(c, s, acts, t, Repush(0));
  }

  /** An ES can come to run on the main of another one: ULT 7 is preempted on the main of ES 0 and
      resumed by ES 1. This is the case that exit_main and back_to_main are for. */
  lemma ForeignMain() returns (c: Config, s: State, home: map<Sub, Es>, acts: seq<Action>)
    ensures IsStart(c, s, home) && Run(c, s, acts).Some? && c.main == map[0 := 10, 1 := 11]
    ensures var t := Run(c, s, acts).value; Live(t, 1) && t.es[1].cur == Some(10) && t.es[1].ctx == Ult(7)
  {
    c, s, home := TwoStreams();
    acts := PreemptSeven(c, s);
    var t := Run(c, s, acts).value;
    acts, t := Extend(c, s, acts, t, Pick(1, 7));
    acts, t := Extend(c, s, acts, t, BaseSleep(1));
  }
}
