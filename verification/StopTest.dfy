/** When an ES may end: the effective size of its pools, read counter by counter while ULTs elsewhere are
    readied and created. Around the steps of UltBlocking, the scheduler of an ES asks has_to_stop or returns
    without asking, and the ES itself asks once more before it ends on a JOIN request. */
module StopTest {
  import opened Basics
  import U = UltBlocking

  /** Who evaluates the effective size. */
  datatype Turn =
    | First                // has_to_stop
    | Second               // has_to_stop again, on a FINISH request
    | Last(agreed: bool)   // the ES, after `run` has returned; agreed: because has_to_stop said so

  /** Where the scheduler of an ES is. An evaluation has read k pools, and the size of the next one if half.
      Two fields only record the past: clean, that an evaluation has read 0 since the ES last took a ULT; and
      seen, the ULTs that existed when the size of each pool was read. */
  datatype Test =
    | Working(clean: bool)
    | Reading(turn: Turn, k: nat, half: bool, sum: int, clean: bool, seen: map<U.Pool, set<U.Ult>>)
    | Ended(agreed: bool, clean: bool, seen: map<U.Pool, set<U.Ult>>)

  datatype State = State(base: U.State, test: map<U.Es, Test>)

  datatype Action =
    | Base(a: U.Action)
    | Begin(e: U.Es)                // `run` calls has_to_stop, and there is no exit request
    | Return(e: U.Es)               // `run` returns on an exit request or by itself, and JOIN is requested
    | ReadSize(e: U.Es)
    | ReadBlocked(e: U.Es)          // num_blocked, if the ES is the one consumer
    | Answer(e: U.Es, go: bool)     // go: FINISH is requested (First), or JOIN is (Second)

  function TestOf(s: State, e: U.Es): Test {
    if e in s.test then s.test[e] else Working(false)
  }

  predicate Private(c: U.Config, e: U.Es, p: U.Pool) {
    p in c.owner && c.owner[p] == e
  }

  predicate AtPool(c: U.Config, s: State, e: U.Es) {
    TestOf(s, e).Reading? && e in c.scheds && TestOf(s, e).k < |c.scheds[e]|
  }

  predicate Enabled(c: U.Config, s: State, a: Action) {
    match a
    case Base(b) => U.Enabled(c, s.base, b) && (b.Sched? ==> !b.d.Stop? && TestOf(s, b.e).Working?)
    case Begin(e) => e in c.scheds && e in s.base.es && s.base.es[e].Idle? && TestOf(s, e).Working?
    case Return(e) => e in c.scheds && e in s.base.es && s.base.es[e].Idle? && TestOf(s, e).Working?
    case ReadSize(e) => AtPool(c, s, e) && !TestOf(s, e).half
    case ReadBlocked(e) => AtPool(c, s, e) && TestOf(s, e).half
    case Answer(e, go) =>
      e in c.scheds && e in s.base.es && s.base.es[e].Idle? && TestOf(s, e).Reading? && TestOf(s, e).k == |c.scheds[e]|
  }

  function Fresh(turn: Turn, clean: bool): Test {
    Reading(turn, 0, false, 0, clean, map[])
  }

  /** What follows an evaluation of the effective size. */
  function Answered(t: Test, go: bool): Test
    requires t.Reading?
  {
    if t.sum != 0 then Working(t.clean)
    else
      match t.turn
      case First => if go then Fresh(Second, true) else Working(true)
      case Second => if go then Fresh(Last(true), true) else Working(true)
      case Last(agreed) => Ended(agreed, t.clean, t.seen)
  }

  function Set(s: State, e: U.Es, t: Test): State {
    s.(test := s.test[e := t])
  }

  /** A ULT that is taken from a pool will run. */
  function AfterBase(s: State, b: U.Action): State {
    if b.Sched? && b.d.Pop? then Set(s, b.e, Working(false)) else s
  }

  function Do(c: U.Config, s: State, a: Action): State
    requires Enabled(c, s, a)
  {
    match a
    case Base(b) => AfterBase(s, b).(base := U.Do(c, s.base, b))
    case Begin(e) => Set(s, e, Fresh(First, TestOf(s, e).clean))
    case Return(e) => Set(s, e, Fresh(Last(false), TestOf(s, e).clean))
    case ReadSize(e) =>
      var t := TestOf(s, e);
      var p := c.scheds[e][t.k];
      Set(s, e, t.(half := true, sum := t.sum + |U.Queue(s.base, p)|, seen := t.seen[p := s.base.thread.Keys]))
    case ReadBlocked(e) =>
      var t := TestOf(s, e);
      var p := c.scheds[e][t.k];
      Set(s, e, t.(k := t.k + 1, half := false, sum := t.sum + if Private(c, e, p) then U.NumBlocked(s.base, p) else 0))
    case Answer(e, go) =>
      var t := Answered(TestOf(s, e), go);
      Set(s, e, t).(base := if t.Ended? then U.Do(c, s.base, U.Sched(e, U.Stop)) else s.base)
  }

  // ----- what a reading tells about a pool whose one consumer takes nothing -----

  predicate Resting(s: U.State, e: U.Es) {
    e in s.es && (s.es[e].Idle? || s.es[e].Stopped?)
  }

  predicate Unfinished(c: U.Config, s: U.State, p: U.Pool, u: U.Ult) {
    u in s.thread && u in c.home && c.home[u] == p && !s.thread[u].life.Terminated?
  }

  /** Every unfinished ULT of the pool is queued: none is blocked, and none is being readied. */
  ghost predicate Clean(c: U.Config, s: U.State, p: U.Pool) {
    forall u :: Unfinished(c, s, p, u) ==> u in U.Queue(s, p)
  }

  /** The pool's unfinished ULTs are those created after the ULTs of a certain set, and they are queued. */
  ghost predicate Drained(c: U.Config, s: U.State, known: set<U.Ult>, p: U.Pool) {
    && known <= s.thread.Keys && Clean(c, s, p)
    && forall u :: u in s.thread && u in c.home && c.home[u] == p ==> (Unfinished(c, s, p, u) <==> u !in known)
  }

  /** The ES's own scheduler does nothing but end. */
  predicate Elsewhere(a: U.Action, e: U.Es) {
    a.Sched? && a.e == e ==> a.d.Stop?
  }

  lemma SchedElsewhere(c: U.Config, s: U.State, d: U.Es, o: U.SchedStep, e: U.Es)
    requires U.CanSched(c, s, d, o) && e in s.es && e != d
    ensures e in U.DoSched(c, s, d, o).es && U.DoSched(c, s, d, o).es[e] == s.es[e]
  {
    if o.Dispatch? {
      if s.thread[s.es[d].u].term {
      } else if s.thread[s.es[d].u].block {
      } else {
      }
    }
  }

  lemma RestStays(c: U.Config, s: U.State, a: U.Action, e: U.Es)
    requires U.Enabled(c, s, a) && Resting(s, e) && Elsewhere(a, e)
    ensures Resting(U.Do(c, s, a), e)
    ensures !(a.Sched? && a.e == e) ==> U.Do(c, s, a).es[e] == s.es[e]
  {
    match a
    case Own(d, o) => U.OwnEsFrame(c, s, d, o, e);
    case Sched(d, o) =>
      if d != e {
        SchedElsewhere(c, s, d, o, e);
      }
    case Help(h) =>
      match h
      case Create(_) =>
      case Wake(_) =>
      case WakeReady(_) =>
      case WakePush(_) =>
      case WakeDecrease(_) =>
  }

  /** A queued ULT is unfinished. */
  lemma QueuedUnfinished(c: U.Config, s: U.State, w: map<U.Ult, U.Place>, b: map<U.Pool, set<U.Ult>>, p: U.Pool, u: U.Ult)
    requires U.Inv(c, s, w, b) && u in U.Queue(s, p)
    ensures Unfinished(c, s, p, u)
  {
    assert U.At(s, w, U.In(p), u);
    assert U.Ok(c, s, u, U.In(p));
  }

  lemma QueueHelp(c: U.Config, s: U.State, h: U.HelpStep, p: U.Pool, u: U.Ult)
    requires U.CanHelp(c, s, h)
    ensures U.Queue(U.DoHelp(c, s, h), p)[u] >= U.Queue(s, p)[u]
  {
    match h
    case Create(_) =>
    case Wake(_) =>
    case WakeReady(_) =>
    case WakePush(_) =>
    case WakeDecrease(_) =>
  }

  /** Only the one consumer, or a ULT that runs there, takes a ULT out of a private pool. */
  lemma QueueStays(c: U.Config, s: U.State, w: map<U.Ult, U.Place>, b: map<U.Pool, set<U.Ult>>, a: U.Action, e: U.Es, p: U.Pool, u: U.Ult)
    requires U.Inv(c, s, w, b) && U.Enabled(c, s, a) && Resting(s, e) && Elsewhere(a, e) && Private(c, e, p)
    requires u in U.Queue(s, p)
    ensures u in U.Queue(U.Do(c, s, a), p)
  {
    match a
    case Own(d, o) =>
      U.Actor(c, s, w, b, d);
      QueuedUnfinished(c, s, w, b, p, u);
      U.QueueOwn(c, s, d, o, p, u);
    case Sched(d, o) => U.QueueSched(c, s, d, o, p, u);
    case Help(h) => QueueHelp(c, s, h, p, u);
  }

  lemma Existed(c: U.Config, s: U.State, w: map<U.Ult, U.Place>, b: map<U.Pool, set<U.Ult>>, a: U.Action, u: U.Ult)
    requires U.Inv(c, s, w, b) && U.Enabled(c, s, a)
    ensures u in s.thread ==> u in U.Do(c, s, a).thread
    ensures u in U.Do(c, s, a).thread && u !in s.thread ==>
      u in c.home && u in U.Queue(U.Do(c, s, a), c.home[u]) && !U.Do(c, s, a).thread[u].life.Terminated?
  {
    match a
    case Own(e, o) => U.KnownOwn(c, s, w, b, e, o, u);
    case Sched(e, d) => U.KnownSched(c, s, w, b, e, d, u);
    case Help(h) => U.KnownHelp(c, s, w, b, h, u);
  }

  lemma DoneOwn(c: U.Config, s: U.State, w: map<U.Ult, U.Place>, b: map<U.Pool, set<U.Ult>>, e: U.Es, o: U.OwnStep, u: U.Ult)
    requires U.Inv(c, s, w, b) && U.CanOwn(c, s, e, o) && u in w && w[u] == U.Done
    ensures u in U.TrackOwn(c, s, w, e, o) && U.TrackOwn(c, s, w, e, o)[u] == U.Done
  {
    U.Actor(c, s, w, b, e);
    if o.DirectRemove? {
      U.Removable(c, s, w, b, e);
    } else if o.End? && U.Jumps(s, s.es[e].u) {
      U.LinkedJoiner(c, s, w, b, e);
    }
  }

  lemma DoneSched(c: U.Config, s: U.State, w: map<U.Ult, U.Place>, b: map<U.Pool, set<U.Ult>>, e: U.Es, d: U.SchedStep, u: U.Ult)
    requires U.Inv(c, s, w, b) && U.CanSched(c, s, e, d) && u in w && w[u] == U.Done
    ensures u in U.TrackSched(c, s, w, e, d) && U.TrackSched(c, s, w, e, d)[u] == U.Done
  {
    if d.Pop? {
      assert U.At(s, w, U.In(d.p), d.u);
    } else if !d.Stop? {
      U.Actor(c, s, w, b, e);
    }
  }

  lemma DoneStays(c: U.Config, s: U.State, w: map<U.Ult, U.Place>, b: map<U.Pool, set<U.Ult>>, a: U.Action, u: U.Ult)
    requires U.Inv(c, s, w, b) && U.Enabled(c, s, a) && u in w && w[u] == U.Done
    ensures u in U.Track(c, s, w, a) && U.Track(c, s, w, a)[u] == U.Done
  {
    match a
    case Own(e, o) => DoneOwn(c, s, w, b, e, o, u);
    case Sched(e, d) => DoneSched(c, s, w, b, e, d, u);
    case Help(h) =>
      if h.WakePush? {
        U.WokenIsOff(c, s, w, b, h.u);
      }
  }

  lemma FinishedStays(c: U.Config, s: U.State, w: map<U.Ult, U.Place>, b: map<U.Pool, set<U.Ult>>, a: U.Action, u: U.Ult)
    requires U.Inv(c, s, w, b) && U.Enabled(c, s, a) && u in s.thread && s.thread[u].life.Terminated?
    ensures u in U.Do(c, s, a).thread && U.Do(c, s, a).thread[u].life.Terminated?
  {
    assert U.At(s, w, U.Done, u);
    DoneStays(c, s, w, b, a, u);
    U.PlacesStep(c, s, w, b, a, U.Done, u);
    Existed(c, s, w, b, a, u);
  }

  lemma CleanStays(c: U.Config, s: U.State, w: map<U.Ult, U.Place>, b: map<U.Pool, set<U.Ult>>, a: U.Action, e: U.Es, p: U.Pool)
    requires U.Inv(c, s, w, b) && U.Enabled(c, s, a) && Resting(s, e) && Elsewhere(a, e) && Private(c, e, p)
    requires Clean(c, s, p)
    ensures Clean(c, U.Do(c, s, a), p)
  {
    forall u | Unfinished(c, U.Do(c, s, a), p, u) ensures u in U.Queue(U.Do(c, s, a), p) {
      Existed(c, s, w, b, a, u);
      if u in s.thread {
        if s.thread[u].life.Terminated? {
          FinishedStays(c, s, w, b, a, u);
        } else {
          assert Unfinished(c, s, p, u);
          QueueStays(c, s, w, b, a, e, p, u);
        }
      }
    }
  }

  lemma DrainedStays(c: U.Config, s: U.State, w: map<U.Ult, U.Place>, b: map<U.Pool, set<U.Ult>>, a: U.Action, e: U.Es,
      known: set<U.Ult>, p: U.Pool)
    requires U.Inv(c, s, w, b) && U.Enabled(c, s, a) && Resting(s, e) && Elsewhere(a, e) && Private(c, e, p)
    requires Drained(c, s, known, p)
    ensures Drained(c, U.Do(c, s, a), known, p)
  {
    var t := U.Do(c, s, a);
    CleanStays(c, s, w, b, a, e, p);
    forall u | u in s.thread ensures u in t.thread {
      Existed(c, s, w, b, a, u);
    }
    U.StepKeeps(c, s, w, b, a);
    forall u | u in t.thread && u in c.home && c.home[u] == p ensures Unfinished(c, t, p, u) <==> u !in known {
      Existed(c, s, w, b, a, u);
      if u in known {
        FinishedStays(c, s, w, b, a, u);
      } else if u in s.thread {
        assert Unfinished(c, s, p, u);
        QueueStays(c, s, w, b, a, e, p, u);
        QueuedUnfinished(c, t, U.Track(c, s, w, a), U.TrackLedger(c, s, b, a), p, u);
      }
    }
  }

  /** num_blocked is never negative, and 0 means that every unfinished ULT is queued. */
  lemma BlockedMeans(c: U.Config, s: U.State, w: map<U.Ult, U.Place>, b: map<U.Pool, set<U.Ult>>, e: U.Es, p: U.Pool)
    requires U.Inv(c, s, w, b) && Private(c, e, p) && e in s.es && s.es[e].Idle?
    ensures U.NumBlocked(s, p) >= 0 && (U.NumBlocked(s, p) == 0 ==> Clean(c, s, p))
  {
    assert U.PoolOk(c, s, b, p);
    if U.NumBlocked(s, p) == 0 {
      forall u | Unfinished(c, s, p, u) ensures u in U.Queue(s, p) {
        assert U.Ok(c, s, u, w[u]) && U.At(s, w, w[u], u);
        U.IdleHoldsNone(c, s, w, b, e, u);
        assert u in U.Waiting(c, s, p);
        U.WaitingPlace(c, s, w, b, p, u);
      }
    }
  }

  /** Size 0 in a pool whose unfinished ULTs are all queued: there is none. */
  lemma SizeMeans(c: U.Config, s: U.State, p: U.Pool)
    requires Clean(c, s, p) && |U.Queue(s, p)| == 0
    ensures Drained(c, s, s.thread.Keys, p)
  {
    assert U.Queue(s, p) == multiset{};
  }

  // ----- the invariant -----

  function Seen(t: Test, p: U.Pool): set<U.Ult>
    requires !t.Working?
  {
    if p in t.seen then t.seen[p] else {}
  }

  ghost predicate AllClean(c: U.Config, s: U.State, e: U.Es) {
    e in c.scheds && forall p :: p in c.scheds[e] && Private(c, e, p) ==> Clean(c, s, p)
  }

  /** The private ones of the first n pools. */
  predicate Among(c: U.Config, e: U.Es, n: nat, p: U.Pool) {
    e in c.scheds && n <= |c.scheds[e]| && p in c.scheds[e][..n] && Private(c, e, p)
  }

  ghost predicate ReadingOk(c: U.Config, s: U.State, t: Test, e: U.Es)
    requires t.Reading?
  {
    && e in s.es && s.es[e].Idle? && e in c.scheds && t.k <= |c.scheds[e]| && (t.half ==> t.k < |c.scheds[e]|)
    && t.sum >= 0 && (t.turn == Second || t.turn == Last(true) ==> t.clean)
    && (t.clean ==> AllClean(c, s, e))
    && (t.sum == 0 ==> forall p :: Among(c, e, t.k, p) ==> Clean(c, s, p))
    && (t.sum == 0 && t.clean ==> forall p :: Among(c, e, t.k + Flag(t.half), p) ==> Drained(c, s, Seen(t, p), p))
  }

  ghost predicate TestOk(c: U.Config, s: U.State, t: Test, e: U.Es) {
    match t
    case Working(clean) => clean ==> e in s.es && s.es[e].Idle? && AllClean(c, s, e)
    case Reading(_, _, _, _, _, _) => ReadingOk(c, s, t, e)
    case Ended(agreed, clean, _) =>
      && e in s.es && s.es[e].Stopped? && e in c.scheds && (agreed ==> clean) && AllClean(c, s, e)
      && (clean ==> forall p :: p in c.scheds[e] && Private(c, e, p) ==> Drained(c, s, Seen(t, p), p))
  }

  ghost predicate Inv(c: U.Config, s: State, w: map<U.Ult, U.Place>, b: map<U.Pool, set<U.Ult>>) {
    U.Inv(c, s.base, w, b) && forall e :: TestOk(c, s.base, TestOf(s, e), e)
  }

  /** A step elsewhere does not touch what an ES at rest has found out. */
  lemma TestStays(c: U.Config, s: U.State, w: map<U.Ult, U.Place>, b: map<U.Pool, set<U.Ult>>, a: U.Action, t: Test, e: U.Es)
    requires U.Inv(c, s, w, b) && U.Enabled(c, s, a) && TestOk(c, s, t, e) && !(a.Sched? && a.e == e)
    ensures TestOk(c, U.Do(c, s, a), t, e)
  {
    if !t.Working? || t.clean {
      RestStays(c, s, a, e);
      forall p | Private(c, e, p) && Clean(c, s, p) ensures Clean(c, U.Do(c, s, a), p) {
        CleanStays(c, s, w, b, a, e, p);
      }
      if !t.Working? {
        forall p | Private(c, e, p) && Drained(c, s, Seen(t, p), p) ensures Drained(c, U.Do(c, s, a), Seen(t, p), p) {
          DrainedStays(c, s, w, b, a, e, Seen(t, p), p);
        }
      }
    }
  }

  /** Its own steps, other than reading. */
  lemma BaseTest(c: U.Config, s: State, w: map<U.Ult, U.Place>, b: map<U.Pool, set<U.Ult>>, a: U.Action, e: U.Es)
    requires Inv(c, s, w, b) && Enabled(c, s, Base(a))
    ensures TestOk(c, U.Do(c, s.base, a), TestOf(Do(c, s, Base(a)), e), e)
  {
    assert TestOk(c, s.base, TestOf(s, e), e);
    if !(a.Sched? && a.e == e) {
      TestStays(c, s.base, w, b, a, TestOf(s, e), e);
    }
  }

  lemma SizeRead(c: U.Config, s: State, e: U.Es)
    requires Enabled(c, s, ReadSize(e)) && TestOk(c, s.base, TestOf(s, e), e)
    ensures TestOk(c, s.base, TestOf(Do(c, s, ReadSize(e)), e), e)
  {
    var (t, t') := (TestOf(s, e), TestOf(Do(c, s, ReadSize(e)), e));
    var q := c.scheds[e][t.k];
    if t'.sum == 0 && t.clean {
      forall p | Among(c, e, t.k + 1, p) ensures Drained(c, s.base, Seen(t', p), p) {
        if p == q {
          assert Clean(c, s.base, q);
          SizeMeans(c, s.base, q);
          assert Seen(t', q) == s.base.thread.Keys;
        } else {
          assert Among(c, e, t.k, p);
          assert Seen(t', p) == Seen(t, p);
        }
      }
    }
  }

  lemma BlockedRead(c: U.Config, s: State, w: map<U.Ult, U.Place>, b: map<U.Pool, set<U.Ult>>, e: U.Es)
    requires U.Inv(c, s.base, w, b) && Enabled(c, s, ReadBlocked(e)) && TestOk(c, s.base, TestOf(s, e), e)
    ensures TestOk(c, s.base, TestOf(Do(c, s, ReadBlocked(e)), e), e)
  {
    var (t, t') := (TestOf(s, e), TestOf(Do(c, s, ReadBlocked(e)), e));
    var q := c.scheds[e][t.k];
    if Private(c, e, q) {
      BlockedMeans(c, s.base, w, b, e, q);
    }
    if t'.sum == 0 {
      forall p | Among(c, e, t.k + 1, p) ensures Clean(c, s.base, p) {
        assert p == q || Among(c, e, t.k, p);
      }
      forall p | t.clean && Among(c, e, t.k + 1, p) ensures Drained(c, s.base, Seen(t', p), p) {
        assert Seen(t', p) == Seen(t, p) && Among(c, e, t.k + Flag(t.half), p);
      }
    }
  }

  lemma AnswerGiven(c: U.Config, s: State, e: U.Es, go: bool)
    requires Enabled(c, s, Answer(e, go)) && TestOk(c, s.base, TestOf(s, e), e)
    ensures TestOk(c, Do(c, s, Answer(e, go)).base, TestOf(Do(c, s, Answer(e, go)), e), e)
  {
    var (t, t') := (TestOf(s, e), Answered(TestOf(s, e), go));
    var s' := Do(c, s, Answer(e, go)).base;
    forall p, u ensures Unfinished(c, s', p, u) == Unfinished(c, s.base, p, u) && U.Queue(s', p) == U.Queue(s.base, p) {
    }
    forall p | Clean(c, s.base, p) ensures Clean(c, s', p) {
    }
    if t.sum == 0 {
      forall p | p in c.scheds[e] && Private(c, e, p) ensures Clean(c, s', p) {
        assert Among(c, e, t.k, p);
      }
      if t'.Ended? {
        forall p | t.clean && p in c.scheds[e] && Private(c, e, p) ensures Drained(c, s', Seen(t', p), p) {
          assert Among(c, e, t.k + Flag(t.half), p) && Seen(t', p) == Seen(t, p);
          assert Drained(c, s.base, Seen(t, p), p);
        }
      }
    }
  }

  /** The step of UltBlocking that an action takes, if any. */
  function Inner(s: State, a: Action): Option<U.Action> {
    match a
    case Base(b) => Some(b)
    case Answer(e, go) =>
      if TestOf(s, e).Reading? && Answered(TestOf(s, e), go).Ended? then Some(U.Sched(e, U.Stop)) else None
    case _ => None
  }

  lemma AnswerElsewhere(c: U.Config, s: State, w: map<U.Ult, U.Place>, b: map<U.Pool, set<U.Ult>>, a: Action, e: U.Es)
    requires Inv(c, s, w, b) && Enabled(c, s, a) && !a.Base? && a.e != e
    ensures TestOk(c, Do(c, s, a).base, TestOf(Do(c, s, a), e), e)
  {
    assert TestOk(c, s.base, TestOf(s, e), e);
    if Inner(s, a).Some? {
      TestStays(c, s.base, w, b, Inner(s, a).value, TestOf(s, e), e);
    }
  }

  lemma TestsStep(c: U.Config, s: State, w: map<U.Ult, U.Place>, b: map<U.Pool, set<U.Ult>>, a: Action, e: U.Es)
    requires Inv(c, s, w, b) && Enabled(c, s, a)
    ensures TestOk(c, Do(c, s, a).base, TestOf(Do(c, s, a), e), e)
  {
    assert TestOk(c, s.base, TestOf(s, e), e);
    if a.Base? {
      BaseTest(c, s, w, b, a.a, e);
    } else if a.e != e {
      AnswerElsewhere(c, s, w, b, a, e);
    } else {
      match a
      case ReadSize(_) => SizeRead(c, s, e);
      case ReadBlocked(_) => BlockedRead(c, s, w, b, e);
      case Answer(_, go) => AnswerGiven(c, s, e, go);
      case _ =>
    }
  }

  lemma StepKeeps(c: U.Config, s: State, w: map<U.Ult, U.Place>, b: map<U.Pool, set<U.Ult>>, a: Action)
    returns (w': map<U.Ult, U.Place>, b': map<U.Pool, set<U.Ult>>)
    requires Inv(c, s, w, b) && Enabled(c, s, a)
    ensures Inv(c, Do(c, s, a), w', b')
  {
    w', b' := w, b;
    if Inner(s, a).Some? {
      var i := Inner(s, a).value;
      U.StepKeeps(c, s.base, w, b, i);
      w', b' := U.Track(c, s.base, w, i), U.TrackLedger(c, s.base, b, i);
    }
    forall e ensures TestOk(c, Do(c, s, a).base, TestOf(Do(c, s, a), e), e) {
      TestsStep(c, s, w, b, a, e);
    }
  }

  // ----- whole runs -----

  function Run(c: U.Config, s: State, acts: seq<Action>): Option<State> {
    if acts == [] then Some(s)
    else
      match Run(c, s, acts[..|acts| - 1])
      case None => None
      case Some(t) => if Enabled(c, t, acts[|acts| - 1]) then Some(Do(c, t, acts[|acts| - 1])) else None
  }

  ghost predicate IsStart(s: State) {
    U.IsStart(s.base) && s.test == map[]
  }

  lemma {:induction false} RunKeeps(c: U.Config, s: State, acts: seq<Action>)
    returns (w: map<U.Ult, U.Place>, b: map<U.Pool, set<U.Ult>>)
    requires IsStart(s) && Run(c, s, acts).Some?
    ensures Inv(c, Run(c, s, acts).value, w, b)
  {
    if acts == [] {
      w, b := U.RunKeeps(c, s.base, []);
    } else {
      var before := acts[..|acts| - 1];
      w, b := RunKeeps(c, s, before);
      w, b := StepKeeps(c, Run(c, s, before).value, w, b, acts[|acts| - 1]);
    }
  }

  /** ULT u of a private pool of e, after a run in which e has ended. */
  ghost predicate EndedWith(c: U.Config, s: State, acts: seq<Action>, e: U.Es, u: U.Ult) {
    && IsStart(s) && Run(c, s, acts).Some?
    && var t := Run(c, s, acts).value;
    && TestOf(t, e).Ended? && u in t.base.thread && u in c.home
    && e in c.scheds && c.home[u] in c.scheds[e] && Private(c, e, c.home[u])
  }

  /** On whatever path an ES has ended, no ULT of its private pools is left blocked, running or half way to
      its pool: those that are left are READY in their pool. If has_to_stop said so, or an earlier evaluation
      had read 0 with no ULT run since, those left are the ones created after the size of their pool was read. */
  lemma StopLeavesNone(c: U.Config, s: State, acts: seq<Action>, e: U.Es, u: U.Ult)
    requires EndedWith(c, s, acts, e, u)
    ensures var t := Run(c, s, acts).value;
      && (!t.base.thread[u].life.Terminated? <==> u in U.Queue(t.base, c.home[u]))
      && (TestOf(t, e).agreed ==> TestOf(t, e).clean)
      && (TestOf(t, e).clean ==> (t.base.thread[u].life.Terminated? <==> u in Seen(TestOf(t, e), c.home[u])))
  {
    var w, b := RunKeeps(c, s, acts);
    var t := Run(c, s, acts).value;
    assert TestOk(c, t.base, TestOf(t, e), e);
    assert Unfinished(c, t.base, c.home[u], u) <==> !t.base.thread[u].life.Terminated?;
    if u in U.Queue(t.base, c.home[u]) {
      QueuedUnfinished(c, t.base, w, b, c.home[u], u);
    }
  }

  /** When has_to_stop agrees, which it does after reading 0 twice, every ULT of the ES's private pools that
      existed when the second evaluation read its pool's size has terminated; the others are in their pools. */
  lemma AgreesWhenDrained(c: U.Config, s: State, acts: seq<Action>, a: Action, e: U.Es, p: U.Pool)
    requires IsStart(s) && Run(c, s, acts).Some? && Enabled(c, Run(c, s, acts).value, a)
    requires e in c.scheds && p in c.scheds[e] && Private(c, e, p)
    requires var (t, t') := (TestOf(Run(c, s, acts).value, e), TestOf(Do(c, Run(c, s, acts).value, a), e));
      t'.Reading? && t'.turn == Last(true) && !(t.Reading? && t.turn == Last(true))
    ensures var t := TestOf(Run(c, s, acts).value, e);
      t.Reading? && Drained(c, Run(c, s, acts).value.base, Seen(t, p), p)
  {
    var w, b := RunKeeps(c, s, acts);
    var r := Run(c, s, acts).value;
    var t := TestOf(r, e);
    assert TestOk(c, r.base, t, e);
    assert Among(c, e, t.k + Flag(t.half), p);
  }

  lemma Extend(c: U.Config, s: State, acts: seq<Action>, t: State, a: Action) returns (acts': seq<Action>, t': State)
    requires Run(c, s, acts) == Some(t) && Enabled(c, t, a)
    ensures t' == Do(c, t, a) && Run(c, s, acts') == Some(t')
  {
    acts', t' := acts + [a], Do(c, t, a);
    assert acts'[..|acts'| - 1] == acts;
  }

  // ----- one evaluation on its own is not enough -----

  const TINY := U.Config(map[0 := 0], map[0 := [0]], map[0 := 0])

  /** One ES, one pool and one ULT: its record, what the ES executes, the queue, num_blocked, a wake-up in
      progress, and one that has pushed and not yet decreased num_blocked. */
  datatype One = One(x: U.Thread, ctx: U.Ctx, q: multiset<U.Ult>, n: int, wake: Option<U.Stage>, late: nat)

  ghost predicate IsOne(s: U.State, o: One) {
    && 0 in s.thread && s.thread[0] == o.x && 0 in s.es && s.es[0] == o.ctx
    && U.Queue(s, 0) == o.q && U.NumBlocked(s, 0) == o.n && U.Late(s, 0) == o.late
    && (if o.wake.None? then 0 !in s.wake else 0 in s.wake && s.wake[0] == o.wake.value)
  }

  /** What some of the steps change. */
  function Gone(o: One, a: U.Action): Option<One> {
    match a
    case Sched(e, Pop(p, u)) =>
      if e == 0 && p == 0 && u == 0 && o.ctx.Idle? && 0 in o.q then Some(o.(ctx := U.Popped(0), q := o.q - multiset{0}))
      else None
    case Sched(e, Start) =>
      if e == 0 && o.ctx == U.Popped(0) then Some(o.(ctx := U.On(0), x := U.Started(o.x, 0))) else None
    case Sched(e, Dispatch) =>
      if e == 0 && o.ctx == U.Back(0) && o.x.block && !o.x.term then Some(o.(ctx := U.Idle, x := o.x.(block := false)))
      else None
    case Own(e, Block) =>
      if e == 0 && o.ctx == U.On(0) && o.x.pc.Body? then Some(o.(x := o.x.(block := true, pc := U.Mark(None)))) else None
    case Own(e, Advance) =>
      if e == 0 && o.ctx == U.On(0) && (o.x.pc.Mark? || o.x.pc.Count?)
      then Some(o.(x := U.Advanced(o.x), n := o.n + U.Delta(o.x.pc))) else None
    case Own(e, Leave) =>
      if e == 0 && o.ctx == U.On(0) && o.x.pc.Suspend? then Some(o.(ctx := U.Back(0), x := U.HasLeft(o.x))) else None
    case Help(Wake(u)) =>
      if u == 0 && o.x.life.Blocked? && o.wake.None? && o.x.pc == U.Asleep(None) then Some(o.(wake := Some(U.Spin))) else None
    case Help(WakeReady(u)) =>
      if u == 0 && o.wake == Some(U.Spin) && !o.x.block then Some(o.(wake := Some(U.Push), x := o.x.(life := U.Ready)))
      else None
    case Help(WakePush(u)) =>
      if u == 0 && o.wake == Some(U.Push) then Some(o.(wake := None, q := o.q + multiset{0}, late := o.late + 1)) else None
    case Help(WakeDecrease(p)) =>
      if p == 0 && o.late > 0 then Some(o.(n := o.n - 1, late := o.late - 1)) else None
    case _ => None
  }

  lemma OneSched(s: U.State, o: One, a: U.Action)
    requires IsOne(s, o) && Gone(o, a).Some? && a.Sched?
    ensures U.Enabled(TINY, s, a) && IsOne(U.Do(TINY, s, a), Gone(o, a).value)
  {
  }

  lemma OneAdvance(s: U.State, o: One)
    requires IsOne(s, o) && Gone(o, U.Own(0, U.Advance)).Some?
    ensures U.CanOwn(TINY, s, 0, U.Advance) && IsOne(U.DoOwn(TINY, s, 0, U.Advance), Gone(o, U.Own(0, U.Advance)).value)
  {
  }

  lemma OneOwn(s: U.State, o: One, a: U.Action)
    requires IsOne(s, o) && Gone(o, a).Some? && a.Own? && !a.o.Advance?
    ensures U.CanOwn(TINY, s, 0, a.o) && IsOne(U.DoOwn(TINY, s, 0, a.o), Gone(o, a).value)
  {
  }

  lemma OneHelp(s: U.State, o: One, a: U.Action)
    requires IsOne(s, o) && Gone(o, a).Some? && a.Help?
    ensures U.Enabled(TINY, s, a) && IsOne(U.Do(TINY, s, a), Gone(o, a).value)
  {
    match a.h
    case Wake(_) =>
    case WakeReady(_) =>
    case WakePush(_) =>
    case WakeDecrease(_) =>
    case Create(_) =>
  }

  lemma Go(s: State, acts: seq<Action>, t: State, o: One, a: U.Action) returns (acts': seq<Action>, t': State, o': One)
    requires Run(TINY, s, acts) == Some(t) && IsOne(t.base, o) && Gone(o, a).Some? && (a.Sched? ==> TestOf(t, 0) == Working(false))
    ensures Run(TINY, s, acts') == Some(t') && IsOne(t'.base, o') && Some(o') == Gone(o, a) && TestOf(t', 0) == TestOf(t, 0)
  {
    if a.Sched? {
      OneSched(t.base, o, a);
    } else if a.Help? {
      OneHelp(t.base, o, a);
    } else if a.o.Advance? {
      OneAdvance(t.base, o);
    } else {
      OneOwn(t.base, o, a);
    }
    acts', t' := Extend(TINY, s, acts, t, Base(a));
    o' := Gone(o, a).value;
  }

  /** The records of the ULT on its way. */
  function Record(life: U.Life, block: bool, pc: U.Pc, last: Option<U.Es>): U.Thread {
    U.Thread(life, block, false, false, pc, last, None)
  }

  lemma OneCreated() returns (s: State, acts: seq<Action>, t: State, o: One)
    ensures IsStart(s) && Run(TINY, s, acts) == Some(t) && TestOf(t, 0) == Working(false) && IsOne(t.base, o)
    ensures o == One(Record(U.Ready, false, U.Body, None), U.Idle, multiset{0}, 0, None, 0)
  {
    s, acts := State(U.State(map[], map[0 := U.Idle], map[], map[], map[], map[], map[]), map[]), [];
    acts, t := Extend(TINY, s, acts, s, Base(U.Help(U.Create(0))));
    o := One(Record(U.Ready, false, U.Body, None), U.Idle, multiset{0}, 0, None, 0);
  }

  lemma OneRunning() returns (s: State, acts: seq<Action>, t: State, o: One)
    ensures IsStart(s) && Run(TINY, s, acts) == Some(t) && TestOf(t, 0) == Working(false) && IsOne(t.base, o)
    ensures o == One(Record(U.Running, false, U.Body, Some(0)), U.On(0), multiset{}, 0, None, 0)
  {
    s, acts, t, o := OneCreated();
    acts, t, o := Go(s, acts, t, o, U.Sched(0, U.Pop(0, 0)));
    acts, t, o := Go(s, acts, t, o, U.Sched(0, U.Start));
  }

  lemma OneMarked() returns (s: State, acts: seq<Action>, t: State, o: One)
    ensures IsStart(s) && Run(TINY, s, acts) == Some(t) && TestOf(t, 0) == Working(false) && IsOne(t.base, o)
    ensures o == One(Record(U.Blocked, true, U.Count(None), Some(0)), U.On(0), multiset{}, 0, None, 0)
  {
    s, acts, t, o := OneRunning();
    acts, t, o := Go(s, acts, t, o, U.Own(0, U.Block));
    acts, t, o := Go(s, acts, t, o, U.Own(0, U.Advance));
  }

  lemma OneSuspended() returns (s: State, acts: seq<Action>, t: State, o: One)
    ensures IsStart(s) && Run(TINY, s, acts) == Some(t) && TestOf(t, 0) == Working(false) && IsOne(t.base, o)
    ensures o == One(Record(U.Blocked, true, U.Asleep(None), Some(0)), U.Back(0), multiset{}, 1, None, 0)
  {
    s, acts, t, o := OneMarked();
    acts, t, o := Go(s, acts, t, o, U.Own(0, U.Advance));
    acts, t, o := Go(s, acts, t, o, U.Own(0, U.Leave));
  }

  /** ULT 0 of ES 0 is blocked, the scheduler of ES 0 returns, and the size of the pool is read. */
  lemma HalfRead() returns (s: State, acts: seq<Action>, t: State, o: One)
    ensures IsStart(s) && Run(TINY, s, acts) == Some(t) && IsOne(t.base, o)
    ensures var r := TestOf(t, 0); r.Reading? && r == Reading(Last(false), 0, true, 0, false, r.seen) && 0 in Seen(r, 0)
    ensures o == One(Record(U.Blocked, false, U.Asleep(None), Some(0)), U.Idle, multiset{}, 1, None, 0)
  {
    s, acts, t, o := OneSuspended();
    acts, t, o := Go(s, acts, t, o, U.Sched(0, U.Dispatch));
    acts, t := Extend(TINY, s, acts, t, Return(0));
    acts, t := Extend(TINY, s, acts, t, ReadSize(0));
  }

  /** Meanwhile the ULT is readied and pushed, and num_blocked decreased. */
  lemma Readied(s: State, acts: seq<Action>, t: State, o: One) returns (acts': seq<Action>, t': State, o': One)
    requires Run(TINY, s, acts) == Some(t) && IsOne(t.base, o)
    requires o == One(Record(U.Blocked, false, U.Asleep(None), Some(0)), U.Idle, multiset{}, 1, None, 0)
    ensures Run(TINY, s, acts') == Some(t') && IsOne(t'.base, o') && TestOf(t', 0) == TestOf(t, 0)
    ensures o' == One(Record(U.Ready, false, U.Asleep(None), Some(0)), U.Idle, multiset{0}, 1, None, 1)
  {
    acts', t', o' := Go(s, acts, t, o, U.Help(U.Wake(0)));
    acts', t', o' := Go(s, acts', t', o', U.Help(U.WakeReady(0)));
    acts', t', o' := Go(s, acts', t', o', U.Help(U.WakePush(0)));
  }

  /** The size is read while the ULT is blocked, and num_blocked after it has been pushed: both are 0. */
  lemma TornReading() returns (s: State, acts: seq<Action>)
    ensures EndedWith(TINY, s, acts, 0, 0)
    ensures var t := Run(TINY, s, acts).value;
      !TestOf(t, 0).clean && 0 in Seen(TestOf(t, 0), 0) && !t.base.thread[0].life.Terminated?
  {
    var t, o;
    s, acts, t, o := HalfRead();
    acts, t, o := Readied(s, acts, t, o);
    acts, t, o := Go(s, acts, t, o, U.Help(U.WakeDecrease(0)));
    acts, t := Extend(TINY, s, acts, t, ReadBlocked(0));
    acts, t := Extend(TINY, s, acts, t, Answer(0, false));
  }

  /** A ULT of a private pool that existed when the last evaluation read the pool's size. */
  ghost predicate EndedSeen(c: U.Config, s: State, acts: seq<Action>, e: U.Es, u: U.Ult, clean: bool) {
    EndedWith(c, s, acts, e, u) &&
    var t := TestOf(Run(c, s, acts).value, e);
    t.clean == clean && u in Seen(t, c.home[u])
  }

  /** That an ES ends on reading 0 guarantees that no ULT it could have seen is left if and only if an earlier
      evaluation had read 0 as well, and it had run no ULT since. */
  lemma SafeIffAskedTwice(clean: bool)
    ensures clean <==>
      forall c, s, acts, e, u :: EndedSeen(c, s, acts, e, u, clean) ==> Run(c, s, acts).value.base.thread[u].life.Terminated?
  {
    if clean {
      forall c, s, acts, e, u | EndedSeen(c, s, acts, e, u, clean)
        ensures Run(c, s, acts).value.base.thread[u].life.Terminated?
      {
        StopLeavesNone(c, s, acts, e, u);
      }
    } else {
      var s, acts := TornReading();
      assert EndedSeen(TINY, s, acts, 0, 0, false);
    }
  }
}
