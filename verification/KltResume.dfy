/** Who goes on where: what an ES executes, and on which kernel thread, after each change of kernel threads,
    whatever the other ESs do between the steps. */
module KltResume {
  import opened Basics
  import opened KltSwitching

  /** The ES that takes a step. */
  function Of(a: Action): Option<Es> {
    if a.SetReady? || a.Create? then None else Some(a.e)
  }

  predicate Elsewhere(acts: seq<Action>, e: Es) {
    forall a :: a in acts ==> Of(a) != Some(e)
  }

  /** A reachable state. */
  ghost predicate Reached(c: Config, s: State) {
    exists s0, home, acts :: IsStart(c, s0, home) && Run(c, s0, acts) == Some(s)
  }

  lemma ReachedKeeps(c: Config, s: State) returns (p: map<Sub, Slot>, q: map<Ult, Seat>)
    requires Reached(c, s)
    ensures Inv(c, s, p, q)
  {
    var s0, home, acts :| IsStart(c, s0, home) && Run(c, s0, acts) == Some(s);
    p, q := RunKeeps(c, s0, home, acts);
  }

  lemma ReachedStep(c: Config, s: State, a: Action)
    requires Reached(c, s) && Enabled(c, s, a)
    ensures Reached(c, Do(c, s, a))
  {
    var s0, home, acts :| IsStart(c, s0, home) && Run(c, s0, acts) == Some(s);
    var acts', t' := Extend(c, s0, acts, s, a);
  }

  /** What other ESs do: the ES stays as it is, and the ULT it is about to resume stays pinned where it is. */
  lemma {:induction false} Meanwhile(c: Config, s: State, acts: seq<Action>, e: Es)
    requires Reached(c, s) && e in s.es && Run(c, s, acts).Some? && Elsewhere(acts, e)
    ensures var t := Run(c, s, acts).value;
      && Reached(c, t) && e in t.es && t.es[e] == s.es[e]
      && (Waking(s.es[e]).Some? ==>
        var u := Waking(s.es[e]).value; u in s.pins && u in t.pins && t.pins[u] == s.pins[u])
  {
    if acts == [] {
      var p, q := ReachedKeeps(c, s);
      assert StreamInv(c, s, s.es[e]);
    } else {
      var (before, a) := (acts[..|acts| - 1], acts[|acts| - 1]);
      assert a in acts;
      Meanwhile(c, s, before, e);
      OneElsewhere(c, Run(c, s, before).value, a, e);
    }
  }

  /** No other ES handles or resumes the ULT that the ES is about to resume. */
  lemma Apart(c: Config, s: State, p: map<Sub, Slot>, q: map<Ult, Seat>, a: Action, e: Es)
    requires Inv(c, s, p, q) && e in s.es && Enabled(c, s, a) && Of(a) != Some(e) && Waking(s.es[e]).Some?
    ensures Waking(s.es[e]).value in s.pins
    ensures a.HandOff? ==> Waking(s.es[e]).value != s.es[a.e].ctx.u
    ensures a.BaseSleep? ==> Waking(s.es[a.e]) != Waking(s.es[e])
  {
    var u := Waking(s.es[e]).value;
    assert StreamInv(c, s, s.es[e]);
    assert UltAt(s, q, Resuming(e), u);
    if a.HandOff? {
      assert UltAt(s, q, On(a.e), u);
    } else if a.BaseSleep? {
      assert UltAt(s, q, Resuming(a.e), u);
    }
  }

  lemma ApartReached(c: Config, s: State, a: Action, e: Es)
    requires Reached(c, s) && e in s.es && Enabled(c, s, a) && Of(a) != Some(e) && Waking(s.es[e]).Some?
    ensures Waking(s.es[e]).value in s.pins
    ensures a.HandOff? ==> Waking(s.es[e]).value != s.es[a.e].ctx.u
    ensures a.BaseSleep? ==> Waking(s.es[a.e]) != Waking(s.es[e])
  {
    var p, q := ReachedKeeps(c, s);
    Apart(c, s, p, q, a, e);
  }

  lemma OneElsewhere(c: Config, s: State, a: Action, e: Es)
    requires Reached(c, s) && e in s.es && Enabled(c, s, a) && Of(a) != Some(e)
    ensures var t := Do(c, s, a);
      && Reached(c, t) && e in t.es && t.es[e] == s.es[e]
      && (Waking(s.es[e]).Some? ==>
        var u := Waking(s.es[e]).value; u in s.pins && u in t.pins && t.pins[u] == s.pins[u])
  {
    ReachedStep(c, s, a);
    OtherStreamSame(c, s, a, e);
    if Waking(s.es[e]).Some? {
      ApartReached(c, s, a, e);
      PinStays(c, s, a, Waking(s.es[e]).value);
    }
  }

  lemma HasSomebody(c: Config, s: State, e: Es)
    requires Reached(c, s) && e in s.es && s.es[e].ctx.Base? && s.es[e].cur.Some?
    ensures Enabled(c, s, BaseSleep(e)) && Next(c, s, e).Some?
  {
    var p, q := ReachedKeeps(c, s);
    SomebodyToWake(c, s, p, q, e);
  }

  lemma AsWoken(c: Config, s: State, e: Es)
    requires Enabled(c, s, BaseSleep(e)) && Next(c, s, e).Some?
    ensures var (t, n) := (Do(c, s, BaseSleep(e)), Next(c, s, e).value);
      e in t.es && t.es[e].cur == Some(n.0) && t.es[e].ctx == n.1 && t.es[e].wakeup.None?
      && (Waking(s.es[e]).Some? ==> Waking(s.es[e]).value !in t.pins)
  {
    var x := s.es[e].cur.value;
    var y := PutToSleep(c, s, e, x);
    assert e in y.es && y.es[e].wakeup == s.es[e].wakeup && y.pins == s.pins;
  }

  /** A base thread can always go to sleep, and the ES is then as the woken thread finds it. */
  lemma Sleeps(c: Config, s: State, e: Es)
    requires Reached(c, s) && e in s.es && s.es[e].ctx.Base? && s.es[e].cur.Some?
    ensures Enabled(c, s, BaseSleep(e)) && Next(c, s, e).Some? && Reached(c, Do(c, s, BaseSleep(e)))
    ensures var (t, n) := (Do(c, s, BaseSleep(e)), Next(c, s, e).value);
      e in t.es && t.es[e].cur == Some(n.0) && t.es[e].ctx == n.1 && t.es[e].wakeup.None?
      && (Waking(s.es[e]).Some? ==> Waking(s.es[e]).value !in t.pins)
  {
    HasSomebody(c, s, e);
    AsWoken(c, s, e);
    ReachedStep(c, s, BaseSleep(e));
  }

  /** The ES's next step after a: everything else happens meanwhile, and the ES is as a left it. */
  lemma NextOwnStep(c: Config, s: State, a: Action, meanwhile: seq<Action>, e: Es) returns (t: State)
    requires Reached(c, s) && Enabled(c, s, a) && e in Do(c, s, a).es
    requires Run(c, Do(c, s, a), meanwhile).Some? && Elsewhere(meanwhile, e)
    ensures t == Run(c, Do(c, s, a), meanwhile).value && Reached(c, t) && e in t.es && t.es[e] == Do(c, s, a).es[e]
    ensures Waking(t.es[e]).Some? ==>
      var u := Waking(t.es[e]).value; u in Do(c, s, a).pins && u in t.pins && t.pins[u] == Do(c, s, a).pins[u]
  {
    ReachedStep(c, s, a);
    Meanwhile(c, Do(c, s, a), meanwhile, e);
    t := Run(c, Do(c, s, a), meanwhile).value;
  }

  // ----- back_to_main and exit_main -----

  lemma BackLeaves(c: Config, s: State, e: Es)
    requires Enabled(c, s, BackToMain(e))
    ensures e in Do(c, s, BackToMain(e)).es
    ensures Do(c, s, BackToMain(e)).es[e] == s.es[e].(ctx := Base, wakeup := Some(Main(Who(s.es[e].ctx))))
  {
  }

  lemma ExitLeaves(c: Config, s: State, e: Es, x: Sub)
    requires Enabled(c, s, ExitMain(e)) && FirstFree(s, e, x)
    ensures e in Do(c, s, ExitMain(e)).es
    ensures var v := Do(c, s, ExitMain(e)).es[e];
      v.cur == s.es[e].cur && v.ctx == Base && v.wakeup == Some(Exit(x, Who(s.es[e].ctx)))
  {
  }

  lemma PickLeaves(c: Config, s: State, e: Es, u: Ult)
    requires Enabled(c, s, Pick(e, u))
    ensures e in Do(c, s, Pick(e, u)).es && Do(c, s, Pick(e, u)).pins == s.pins
    ensures Do(c, s, Pick(e, u)).es[e] ==
      if u in s.pins then s.es[e].(ctx := Base, wakeup := Some(Preempted(u))) else s.es[e].(ctx := Ult(u))
  {
  }

  lemma NextIs(c: Config, s: State, e: Es)
    requires e in s.es && e in c.main && s.es[e].wakeup.Some?
    ensures match s.es[e].wakeup.value
      case Preempted(u) => u in s.pins ==> Next(c, s, e) == Some((s.pins[u], Ult(u)))
      case Exit(x, who) => Next(c, s, e) == Some((x, if who.Some? then After(who.value) else Sched))
      case Main(who) => Next(c, s, e) == Some((c.main[e], if who.Some? then Ult(who.value) else Sched))
  {
  }

  lemma BackThen(c: Config, e: Es, t: State, who: Option<Ult>)
    requires Reached(c, t) && e in t.es && t.es[e].ctx.Base? && t.es[e].cur.Some? && t.es[e].wakeup == Some(Main(who))
    ensures Enabled(c, t, BaseSleep(e))
    ensures var t' := Do(c, t, BaseSleep(e));
      && e in t'.es && e in c.main && t'.es[e].cur == Some(c.main[e]) && t'.es[e].wakeup.None?
      && t'.es[e].ctx == if who.Some? then Ult(who.value) else Sched
  {
    HasSomebody(c, t, e);
    NextIs(c, t, e);
    Sleeps(c, t, e);
  }

  /** After back_to_main the one who called it, the scheduler or a ULT, goes on itself, on the main sub-ES of
      its ES. */
  lemma BackOnMain(c: Config, s: State, e: Es, meanwhile: seq<Action>)
    requires Reached(c, s) && Enabled(c, s, BackToMain(e))
    requires Run(c, Do(c, s, BackToMain(e)), meanwhile).Some? && Elsewhere(meanwhile, e)
    ensures var t := Run(c, Do(c, s, BackToMain(e)), meanwhile).value;
      && Enabled(c, t, BaseSleep(e))
      && var t' := Do(c, t, BaseSleep(e));
      && e in t'.es && t'.es[e].cur == Some(c.main[e]) && t'.es[e].ctx == s.es[e].ctx && t'.es[e].wakeup.None?
  {
    BackLeaves(c, s, e);
    var t := NextOwnStep(c, s, BackToMain(e), meanwhile, e);
    BackThen(c, e, t, Who(s.es[e].ctx));
  }

  /** The sub-ES that is taken next: the first of the local list, or else of the global one. */
  predicate FirstFree(s: State, e: Es, x: Sub) {
    e in s.es && if s.es[e].locals != [] then x == s.es[e].locals[0] else s.global != [] && x == s.global[0]
  }

  lemma ExitThen(c: Config, e: Es, x: Sub, t: State, who: Option<Ult>)
    requires Reached(c, t) && e in t.es && t.es[e].ctx.Base? && t.es[e].cur.Some? && t.es[e].wakeup == Some(Exit(x, who))
    ensures Enabled(c, t, BaseSleep(e))
    ensures var t' := Do(c, t, BaseSleep(e));
      && Reached(c, t') && e in t'.es && t'.es[e].cur == Some(x) && t'.es[e].wakeup.None?
      && t'.es[e].ctx == if who.Some? then After(who.value) else Sched
  {
    HasSomebody(c, t, e);
    NextIs(c, t, e);
    Sleeps(c, t, e);
  }

  /** After exit_main the ES goes on with its scheduler, on the free sub-ES it took. A ULT that called it is
      pushed to its pool first, and that is all the ES can do then. */
  lemma ExitsMain(c: Config, s: State, e: Es, x: Sub, meanwhile: seq<Action>)
    requires Reached(c, s) && Enabled(c, s, ExitMain(e)) && FirstFree(s, e, x)
    requires Run(c, Do(c, s, ExitMain(e)), meanwhile).Some? && Elsewhere(meanwhile, e)
    ensures var t := Run(c, Do(c, s, ExitMain(e)), meanwhile).value;
      && Enabled(c, t, BaseSleep(e))
      && var t' := Do(c, t, BaseSleep(e));
      && Reached(c, t') && e in t'.es && t'.es[e].cur == Some(x) && t'.es[e].wakeup.None?
      && t'.es[e].ctx == (if s.es[e].ctx.Ult? then After(s.es[e].ctx.u) else Sched)
  {
    ExitLeaves(c, s, e, x);
    var t := NextOwnStep(c, s, ExitMain(e), meanwhile, e);
    ExitThen(c, e, x, t, Who(s.es[e].ctx));
  }

  /** An ES that has a ULT to push does that next, and then runs its scheduler. */
  lemma PushesNext(c: Config, s: State, e: Es, u: Ult, meanwhile: seq<Action>, a: Action)
    requires Reached(c, s) && e in s.es && s.es[e].ctx == After(u) && s.es[e].cur.Some?
    requires Run(c, s, meanwhile).Some? && Elsewhere(meanwhile, e)
    requires Enabled(c, Run(c, s, meanwhile).value, a) && Of(a) == Some(e)
    ensures var t := Do(c, Run(c, s, meanwhile).value, a);
      a == Repush(e) && u in t.pool && e in t.es && t.es[e] == s.es[e].(ctx := Sched)
  {
    Meanwhile(c, s, meanwhile, e);
  }

  // ----- preemption -----

  /** A ULT that is preempted stays on its kernel thread, and its ES goes on with the scheduler on the free
      one that the handler took; the ULT is pushed to its pool next. */
  lemma HandsOver(c: Config, s: State, e: Es, x: Sub, meanwhile: seq<Action>)
    requires Reached(c, s) && Enabled(c, s, Tick(e)) && FirstFree(s, e, x)
    requires Run(c, Do(c, s, Tick(e)), meanwhile).Some? && Elsewhere(meanwhile, e)
    ensures var t := Run(c, Do(c, s, Tick(e)), meanwhile).value;
      && Enabled(c, t, HandOff(e))
      && var (t', u) := (Do(c, t, HandOff(e)), s.es[e].ctx.u);
      && Reached(c, t') && e in t'.es && t'.es[e].cur == Some(x) && t'.es[e].ctx == After(u)
      && u in t'.pins && Some(t'.pins[u]) == s.es[e].cur
  {
    TickLeaves(c, s, e, x);
    var t := NextOwnStep(c, s, Tick(e), meanwhile, e);
    Handles(c, t, e);
  }

  lemma TickLeaves(c: Config, s: State, e: Es, x: Sub)
    requires Enabled(c, s, Tick(e)) && FirstFree(s, e, x)
    ensures e in Do(c, s, Tick(e)).es
    ensures var v := Do(c, s, Tick(e)).es[e];
      v.cur == s.es[e].cur && v.ctx == Handler(s.es[e].ctx.u, x) && v.wakeup == s.es[e].wakeup
  {
  }

  lemma Handles(c: Config, t: State, e: Es)
    requires Reached(c, t) && e in t.es && t.es[e].ctx.Handler? && t.es[e].cur.Some?
    ensures Enabled(c, t, HandOff(e))
    ensures var (t', v) := (Do(c, t, HandOff(e)), t.es[e]);
      && Reached(c, t') && e in t'.es && t'.es[e].cur == Some(v.ctx.next) && t'.es[e].ctx == After(v.ctx.u)
      && v.ctx.u in t'.pins && Some(t'.pins[v.ctx.u]) == v.cur
  {
    NoTarget(c, t, e);
    ReachedStep(c, t, HandOff(e));
  }

  lemma NoTarget(c: Config, t: State, e: Es)
    requires Reached(c, t) && e in t.es && t.es[e].ctx.Handler?
    ensures t.es[e].wakeup.None?
  {
    var p, q := ReachedKeeps(c, t);
    assert StreamInv(c, t, t.es[e]);
  }

  /** The sub-ES on which ULT u was preempted last. */
  function PreemptedOn(c: Config, s: State, acts: seq<Action>, u: Ult): Option<Sub>
    requires Run(c, s, acts).Some?
  {
    if acts == [] then None
    else
      var (before, a) := (acts[..|acts| - 1], acts[|acts| - 1]);
      var t := Run(c, s, before).value;
      if a.HandOff? && t.es[a.e].ctx.u == u then t.es[a.e].cur else PreemptedOn(c, s, before, u)
  }

  /** The same after one more action. */
  lemma PreemptedNext(c: Config, t: State, a: Action, u: Ult, on: Option<Sub>)
    requires Reached(c, t) && Enabled(c, t, a) && u in Do(c, t, a).pins && (u in t.pins ==> on == Some(t.pins[u]))
    ensures (if a.HandOff? && t.es[a.e].ctx.u == u then t.es[a.e].cur else on) == Some(Do(c, t, a).pins[u])
  {
    if !(a.HandOff? && t.es[a.e].ctx.u == u) {
      if a.BaseSleep? && Waking(t.es[a.e]) == Some(u) {
        Sleeps(c, t, a.e);
      } else {
        PinStays(c, t, a, u);
      }
    }
  }

  lemma {:induction false} PinsAreThere(c: Config, s: State, home: map<Sub, Es>, acts: seq<Action>, u: Ult)
    requires IsStart(c, s, home) && Run(c, s, acts).Some? && u in Run(c, s, acts).value.pins
    ensures PreemptedOn(c, s, acts, u) == Some(Run(c, s, acts).value.pins[u])
  {
    if acts != [] {
      var before := acts[..|acts| - 1];
      var t := Run(c, s, before).value;
      if u in t.pins {
        PinsAreThere(c, s, home, before, u);
      }
      PreemptedNext(c, t, acts[|acts| - 1], u, PreemptedOn(c, s, before, u));
    }
  }

  lemma PickThen(c: Config, e: Es, u: Ult, t: State)
    requires Reached(c, t) && e in t.es && t.es[e].ctx.Base? && t.es[e].cur.Some? && t.es[e].wakeup == Some(Preempted(u))
    requires u in t.pins
    ensures Enabled(c, t, BaseSleep(e))
    ensures var t' := Do(c, t, BaseSleep(e));
      e in t'.es && t'.es[e].cur == Some(t.pins[u]) && t'.es[e].ctx == Ult(u) && u !in t'.pins
  {
    HasSomebody(c, t, e);
    NextIs(c, t, e);
    Sleeps(c, t, e);
  }

  lemma Picked(c: Config, s: State, e: Es, u: Ult, meanwhile: seq<Action>)
    requires Reached(c, s) && Enabled(c, s, Pick(e, u))
    requires Run(c, Do(c, s, Pick(e, u)), meanwhile).Some? && Elsewhere(meanwhile, e)
    ensures var t := Run(c, Do(c, s, Pick(e, u)), meanwhile).value;
      if u !in s.pins then e in t.es && t.es[e] == s.es[e].(ctx := Ult(u))
      else
        && Enabled(c, t, BaseSleep(e))
        && var t' := Do(c, t, BaseSleep(e));
        && e in t'.es && t'.es[e].cur == Some(s.pins[u]) && t'.es[e].ctx == Ult(u) && u !in t'.pins
  {
    PickLeaves(c, s, e, u);
    var t := NextOwnStep(c, s, Pick(e, u), meanwhile, e);
    if u in s.pins {
      PickThen(c, e, u, t);
    }
  }

  /** A ULT that the scheduler picks is executed: at once, on the ES's kernel thread, or, if it was preempted,
      after a change to the very kernel thread on which it was preempted last. */
  lemma RunsOrResumes(c: Config, s0: State, home: map<Sub, Es>, acts: seq<Action>, e: Es, u: Ult, meanwhile: seq<Action>)
    requires IsStart(c, s0, home) && Run(c, s0, acts).Some? && Enabled(c, Run(c, s0, acts).value, Pick(e, u))
    requires var t := Do(c, Run(c, s0, acts).value, Pick(e, u)); Run(c, t, meanwhile).Some? && Elsewhere(meanwhile, e)
    ensures var s := Run(c, s0, acts).value;
      var t := Run(c, Do(c, s, Pick(e, u)), meanwhile).value;
      if u !in s.pins then e in t.es && t.es[e] == s.es[e].(ctx := Ult(u))
      else
        && Enabled(c, t, BaseSleep(e))
        && var t' := Do(c, t, BaseSleep(e));
        && e in t'.es && t'.es[e].cur == PreemptedOn(c, s0, acts, u) && t'.es[e].ctx == Ult(u) && u !in t'.pins
  {
    var s := Run(c, s0, acts).value;
    assert Reached(c, s);
    if u in s.pins {
      PinsAreThere(c, s0, home, acts, u);
    }
    Picked(c, s, e, u, meanwhile);
  }

  // ----- ULTs that go on, and ULTs that have left -----

  /** A ULT goes on, on its ES and its kernel thread, unless it leaves of its own accord or is preempted; and
      it is preempted, or leaves a foreign main, only if there is a free kernel thread for its ES. */
  lemma KeepsRunning(c: Config, s: State, a: Action, e: Es, u: Ult)
    requires Reached(c, s) && Enabled(c, s, a) && e in s.es && s.es[e].ctx == Ult(u)
    ensures var t := Do(c, s, a);
      e in t.es &&
      (t.es[e] == s.es[e] || a == Yield(e) || a == Stop(e) || a == BackToMain(e) ||
        ((a == Tick(e) || a == ExitMain(e)) && exists x :: FirstFree(s, e, x)))
  {
    if Of(a) == Some(e) {
      if a.Tick? || a.ExitMain? {
        if Popped(s, s.es[e]).Some? {
          assert FirstFree(s, e, Popped(s, s.es[e]).value);
        }
      }
    } else {
      OtherStreamSame(c, s, a, e);
    }
  }

  lemma SeatStays(c: Config, s: State, a: Action, u: Ult)
    requires Enabled(c, s, a)
    ensures u in s.pool && !(a.Pick? && a.u == u) ==> u in Do(c, s, a).pool
    ensures u in s.stopped && a != SetReady(u) ==> u in Do(c, s, a).stopped
  {
    match a
    case Pick(_, _) =>
    case Yield(_) =>
    case Stop(_) =>
    case SetReady(_) =>
    case Tick(_) =>
    case HandOff(_) =>
    case Repush(_) =>
    case BaseSleep(_) =>
    case ExitMain(_) =>
    case BackToMain(_) =>
    case Create(_) =>
  }

  /** A ULT that has yielded is in its pool until somebody picks it. */
  lemma YieldedIsPooled(c: Config, s: State, e: Es, u: Ult, acts: seq<Action>)
    requires Enabled(c, s, Yield(e)) && s.es[e].ctx == Ult(u)
    requires Run(c, Do(c, s, Yield(e)), acts).Some? && forall a :: a in acts ==> !(a.Pick? && a.u == u)
    ensures u in Run(c, Do(c, s, Yield(e)), acts).value.pool
  {
    StaysPooled(c, Do(c, s, Yield(e)), u, acts);
  }

  lemma {:induction false} StaysPooled(c: Config, s: State, u: Ult, acts: seq<Action>)
    requires u in s.pool && Run(c, s, acts).Some? && forall a :: a in acts ==> !(a.Pick? && a.u == u)
    ensures u in Run(c, s, acts).value.pool
  {
    if acts != [] {
      var (before, a) := (acts[..|acts| - 1], acts[|acts| - 1]);
      assert a in acts;
      StaysPooled(c, s, u, before);
      SeatStays(c, Run(c, s, before).value, a, u);
    }
  }

  /** A ULT that has blocked is neither in a pool nor executed or resumed by any ES until it is readied. */
  lemma StoppedIsOff(c: Config, s: State, e: Es, u: Ult, acts: seq<Action>)
    requires Reached(c, s) && Enabled(c, s, Stop(e)) && s.es[e].ctx == Ult(u)
    requires Run(c, Do(c, s, Stop(e)), acts).Some? && SetReady(u) !in acts
    ensures var t := Run(c, Do(c, s, Stop(e)), acts).value;
      && u in t.stopped && u !in t.pool
      && forall d :: d in t.es ==> Running(t.es[d]) != Some(u) && Waking(t.es[d]) != Some(u)
  {
    ReachedStep(c, s, Stop(e));
    StaysStopped(c, Do(c, s, Stop(e)), u, acts);
    OffIfStopped(c, Run(c, Do(c, s, Stop(e)), acts).value, u);
  }

  lemma {:induction false} StaysStopped(c: Config, s: State, u: Ult, acts: seq<Action>)
    requires Reached(c, s) && u in s.stopped && Run(c, s, acts).Some? && SetReady(u) !in acts
    ensures Reached(c, Run(c, s, acts).value) && u in Run(c, s, acts).value.stopped
  {
    if acts != [] {
      var (before, a) := (acts[..|acts| - 1], acts[|acts| - 1]);
      assert a in acts;
      StaysStopped(c, s, u, before);
      ReachedStep(c, Run(c, s, before).value, a);
      SeatStays(c, Run(c, s, before).value, a, u);
    }
  }

  lemma OffIfStopped(c: Config, s: State, u: Ult)
    requires Reached(c, s) && u in s.stopped
    ensures u !in s.pool && forall d :: d in s.es ==> Running(s.es[d]) != Some(u) && Waking(s.es[d]) != Some(u)
  {
    var p, q := ReachedKeeps(c, s);
    assert UltAt(s, q, Halted, u) && UltAt(s, q, Pooled, u);
    forall d | d in s.es ensures Running(s.es[d]) != Some(u) && Waking(s.es[d]) != Some(u) {
      assert UltAt(s, q, On(d), u) && UltAt(s, q, Resuming(d), u);
    }
  }

  // ----- the lists of free sub-ESs -----

  /** The lists are stacks, the local one on top of the global one: a sub-ES that goes to sleep is the next to
      be taken by its ES, unless its local list is full; then by an ES without a local one. Taking it back
      leaves all as before. */
  lemma SleepThenTake(c: Config, s: State, e: Es, x: Sub)
    requires e in s.es && !IsMain(c, x)
    ensures var t := PutToSleep(c, s, e, x);
      if |s.es[e].locals| < c.initial then FirstFree(t, e, x) && Pop(t, e) == s
      else forall d :: d in s.es && s.es[d].locals == [] ==> FirstFree(t, d, x) && Pop(t, d) == s
  {
    var t := PutToSleep(c, s, e, x);
    if |s.es[e].locals| < c.initial {
      assert Pop(t, e).es == s.es;
    } else {
      forall d | d in s.es && s.es[d].locals == [] ensures FirstFree(t, d, x) && Pop(t, d) == s {
        assert t.global[1..] == s.global;
      }
    }
  }

  // ----- who can step -----

  /** What an ES can do next: its scheduler and its ULTs have all their choices, everything else goes on. */
  ghost predicate CanProceed(c: Config, s: State, e: Es)
    requires e in s.es && e in c.main
  {
    var v := s.es[e];
    v.cur.Some? &&
    var own := v.cur == Some(c.main[e]);
    match v.ctx
    case Sched =>
      && (forall u :: u in s.pool ==> Enabled(c, s, Pick(e, u)))
      && (IsMain(c, v.cur.value) && !own ==> Enabled(c, s, ExitMain(e)))
      && (!own && c.main[e] in s.ready ==> Enabled(c, s, BackToMain(e)))
    case Ult(_) =>
      && Enabled(c, s, Yield(e)) && Enabled(c, s, Stop(e)) && Enabled(c, s, Tick(e))
      && (IsMain(c, v.cur.value) && !own ==> Enabled(c, s, ExitMain(e)))
      && (!own && c.main[e] in s.ready ==> Enabled(c, s, BackToMain(e)))
    case Handler(_, _) => Enabled(c, s, HandOff(e))
    case After(_) => Enabled(c, s, Repush(e))
    case Base => Enabled(c, s, BaseSleep(e))
    case Astray => false
  }

  lemma Held(c: Config, s: State, e: Es)
    requires Reached(c, s) && e in s.es
    ensures e in c.main && s.es[e].cur.Some? && !s.es[e].ctx.Astray?
  {
    var p, q := ReachedKeeps(c, s);
    assert StreamInv(c, s, s.es[e]);
  }

  lemma Proceeds(c: Config, s: State, e: Es)
    requires e in s.es && e in c.main && s.es[e].cur.Some? && !s.es[e].ctx.Astray?
    ensures CanProceed(c, s, e)
  {
    match s.es[e].ctx
    case Sched =>
    case Ult(_) =>
    case Handler(_, _) =>
    case After(_) =>
    case Base =>
    case Astray =>
  }

  lemma EveryEsCanStep(c: Config, s: State, e: Es)
    requires Reached(c, s) && e in s.es
    ensures e in c.main && CanProceed(c, s, e)
  {
    Held(c, s, e);
    Proceeds(c, s, e);
  }
}
