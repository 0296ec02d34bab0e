/** Who gets the mutex, and when: the order in which waiters leave their rows, to whom `unlock_se` hands the
    mutex over, how many waiters an unlock wakes, and what num_handovers counts. */
module MutexOrder {
  import opened Basics
  import opened MutexProtocol

  // ----- rows are queues -----

  /** The ULT that comes to wait in a row, and the one that leaves it, with an action. */
  function Enters(c: Config, s: State, a: Action, low: bool, r: Row): seq<Ult>
    requires Enabled(s, a)
  {
    var t := Do(c, s, a);
    if a.u in t.pc && t.pc[a.u] == Queued(low, r) && s.pc[a.u] != Queued(low, r) then [a.u] else []
  }

  function Leaves(c: Config, s: State, a: Action, low: bool, r: Row): seq<Ult>
    requires Enabled(s, a)
  {
    var (q, t) := (RowOf(s, low, r), Do(c, s, a));
    if q != [] && q[0] in t.pc && t.pc[q[0]] != Queued(low, r) then [q[0]] else []
  }

  /** What an action does to a row. */
  lemma RowAfter(c: Config, s: State, a: Action, low: bool, r: Row)
    requires Enabled(s, a)
    ensures var (q, q', pc) := (RowOf(s, low, r), RowOf(Do(c, s, a), low, r), s.pc[a.u]);
      if a.Link? && pc.low == low && pc.row == r then q' == q + [a.u]
      else if a.SwitchLow? && low && a.row == r then q != [] && q' == q[1..] + [a.u]
      else if a.WakeOne? && a.low == low && a.row == r then q != [] && q' == q[1..]
      else if a.PopReceiver? && pc.low == low && pc.row == r && q != [] then q' == q[1..]
      else q' == q
  {
  }

  /** Whom an action takes out of a row. */
  function Taken(s: State, a: Action): Option<(bool, Row)>
    requires Enabled(s, a)
  {
    match a
    case SwitchLow(_, row) => Some((true, row))
    case WakeOne(_, low, row, _) => Some((low, row))
    case PopReceiver(u) =>
      if RowOf(s, s.pc[u].low, s.pc[u].row) != [] then Some((s.pc[u].low, s.pc[u].row)) else None
    case _ => None
  }

  lemma TakenLeaves(c: Config, s: State, o: Option<Ult>, a: Action)
    requires Inv(c, s, o) && Enabled(s, a) && Taken(s, a).Some?
    ensures var (low, r) := Taken(s, a).value;
      && RowOf(s, low, r) != [] && RowOf(s, low, r)[0] in Do(c, s, a).pc && Do(c, s, a).pc[RowOf(s, low, r)[0]] == Back(low)
  {
    var (low, r) := Taken(s, a).value;
    assert RowInv(s, (low, r));
    assert RowOf(s, low, r)[0] in RowOf(s, low, r);
  }

  lemma QueuedStays(c: Config, s: State, o: Option<Ult>, a: Action, w: Ult)
    requires Inv(c, s, o) && Enabled(s, a) && w in s.pc && s.pc[w].Queued?
    requires Taken(s, a).Some? ==>
      var (low, r) := Taken(s, a).value; RowOf(s, low, r) != [] && RowOf(s, low, r)[0] != w
    ensures w in Do(c, s, a).pc && Do(c, s, a).pc[w] == s.pc[w]
  {
    assert w != a.u && LocalInv(c, s, o, w);
    if !Resumes(s, a) {
      OthersStay(c, s, a, w);
    }
  }

  /** Nobody but the oldest waiter of a row leaves it. */
  lemma OldestLeaves(c: Config, s: State, o: Option<Ult>, a: Action, w: Ult, low: bool, r: Row)
    requires Inv(c, s, o) && Enabled(s, a) && w in s.pc && s.pc[w] == Queued(low, r)
    ensures w in RowOf(s, low, r) && w in Do(c, s, a).pc
    ensures Do(c, s, a).pc[w] != Queued(low, r) ==>
      [w] == Leaves(c, s, a, low, r) && Do(c, s, a).pc[w].Back? && Taken(s, a) == Some((low, r))
  {
    assert LocalInv(c, s, o, w);
    if Taken(s, a).Some? {
      TakenLeaves(c, s, o, a);
      var (l, q) := Taken(s, a).value;
      assert RowInv(s, (l, q));
      assert RowOf(s, l, q)[0] in RowOf(s, l, q);
      if RowOf(s, l, q)[0] != w {
        QueuedStays(c, s, o, a, w);
      }
    } else {
      QueuedStays(c, s, o, a, w);
    }
  }

  lemma LeavesIs(c: Config, s: State, o: Option<Ult>, a: Action, low: bool, r: Row)
    requires Inv(c, s, o) && Enabled(s, a)
    ensures Leaves(c, s, a, low, r) == if Taken(s, a) == Some((low, r)) then RowOf(s, low, r)[..1] else []
  {
    var q := RowOf(s, low, r);
    if q != [] {
      assert RowInv(s, (low, r)) && q[0] in q;
      OldestLeaves(c, s, o, a, q[0], low, r);
    }
    if Taken(s, a) == Some((low, r)) {
      TakenLeaves(c, s, o, a);
    }
  }

  lemma EntersIs(c: Config, s: State, a: Action, low: bool, r: Row)
    requires Enabled(s, a)
    ensures Enters(c, s, a, low, r) ==
      if (a.Link? && s.pc[a.u] == Linking(low, r)) || (a.SwitchLow? && low && a.row == r && RowOf(s, true, r)[0] != a.u)
      then [a.u] else []
  {
  }

  lemma RowStep(c: Config, s: State, o: Option<Ult>, a: Action, low: bool, r: Row)
    requires Inv(c, s, o) && Enabled(s, a)
    ensures RowOf(s, low, r) + Enters(c, s, a, low, r) == Leaves(c, s, a, low, r) + RowOf(Do(c, s, a), low, r)
  {
    RowAfter(c, s, a, low, r);
    LeavesIs(c, s, o, a, low, r);
    EntersIs(c, s, a, low, r);
    if a.SwitchLow? {
      assert RowInv(s, (true, a.row)) && RowOf(s, true, a.row)[0] in RowOf(s, true, a.row);
    }
    var q := RowOf(s, low, r);
    assert q != [] ==> q == q[..1] + q[1..];
  }

  function Entered(c: Config, s: State, acts: seq<Action>, low: bool, r: Row): seq<Ult>
    requires Run(c, s, acts).Some?
  {
    if acts == [] then []
    else
      var p := acts[..|acts| - 1];
      Entered(c, s, p, low, r) + Enters(c, Run(c, s, p).value, acts[|acts| - 1], low, r)
  }

  function Gone(c: Config, s: State, acts: seq<Action>, low: bool, r: Row): seq<Ult>
    requires Run(c, s, acts).Some?
  {
    if acts == [] then []
    else
      var p := acts[..|acts| - 1];
      Gone(c, s, p, low, r) + Leaves(c, Run(c, s, p).value, acts[|acts| - 1], low, r)
  }

  lemma Concat(a: seq<Ult>, more: seq<Ult>, gone: seq<Ult>, q: seq<Ult>, left: seq<Ult>, q': seq<Ult>)
    requires a == gone + q && q + more == left + q'
    ensures a + more == gone + left + q'
  {
    assert gone + q + more == gone + (q + more);
  }

  /** In every run, those who have left a row followed by those who still wait in it are those who came to
      it, in the order they came. */
  lemma {:induction false} RowsAreQueues(c: Config, s: State, acts: seq<Action>, low: bool, r: Row)
    requires Init(s) && Run(c, s, acts).Some?
    ensures Entered(c, s, acts, low, r) == Gone(c, s, acts, low, r) + RowOf(Run(c, s, acts).value, low, r)
  {
    if acts != [] {
      var (p, a) := (acts[..|acts| - 1], acts[|acts| - 1]);
      var t := Run(c, s, p).value;
      var o := RunKeeps(c, s, p);
      RowsAreQueues(c, s, p, low, r);
      RowStep(c, t, o, a, low, r);
      Concat(Entered(c, s, p, low, r), Enters(c, t, a, low, r), Gone(c, s, p, low, r), RowOf(t, low, r),
        Leaves(c, t, a, low, r), RowOf(Do(c, t, a), low, r));
    }
  }

  // ----- high before low -----

  ghost predicate NoHighWaiter(s: State) {
    forall r :: RowOf(s, false, r) == []
  }

  lemma NoneLinked(c: Config, s: State, o: Option<Ult>)
    requires Inv(c, s, o) && forall r: Row :: r in s.linked ==> RowOf(s, false, r) == []
    ensures NoHighWaiter(s)
  {
    forall r: Row ensures RowOf(s, false, r) == [] {
      if (false, r) in s.rows {
        assert RowInv(s, (false, r));
      }
    }
  }

  lemma DecidesForLow(c: Config, s: State, u: Ult)
    requires Enabled(s, Decide(u)) && Do(c, s, Decide(u)).pc[u].Popping? && Do(c, s, Decide(u)).pc[u].low
    ensures s.linked == {}
  {
  }

  /** `unlock_se` decides for a low-priority receiver, and an unlock wakes a low-priority waiter, only if no
      high-priority waiter is queued in any row. */
  lemma LowOnlyWithoutHigh(c: Config, s: State, acts: seq<Action>, a: Action)
    requires Init(s) && Run(c, s, acts).Some? && Enabled(Run(c, s, acts).value, a)
    requires var t := Run(c, s, acts).value;
      (a.WakeOne? && a.low) || (a.Decide? && Do(c, t, a).pc[a.u].Popping? && Do(c, t, a).pc[a.u].low)
    ensures NoHighWaiter(Run(c, s, acts).value)
  {
    var o := RunKeeps(c, s, acts);
    if a.Decide? {
      DecidesForLow(c, Run(c, s, acts).value, a.u);
    }
    NoneLinked(c, Run(c, s, acts).value, o);
  }

  // ----- an undisturbed handover -----

  /** The mutex is not free at any point of the run. */
  predicate NeverFree(c: Config, s: State, acts: seq<Action>) {
    Run(c, s, acts).Some? && Run(c, s, acts).value.val != 0 && (acts != [] ==> NeverFree(c, s, acts[..|acts| - 1]))
  }

  lemma Append(c: Config, s: State, acts: seq<Action>, t: State, a: Action) returns (acts': seq<Action>, t': State)
    requires NeverFree(c, s, acts) && Run(c, s, acts) == Some(t) && Enabled(t, a) && Do(c, t, a).val != 0
    ensures acts' == acts + [a] && t' == Do(c, t, a) && NeverFree(c, s, acts') && Run(c, s, acts') == Some(t')
  {
    acts', t' := acts + [a], Do(c, t, a);
    assert acts'[..|acts'| - 1] == acts;
  }

  /** The holder u on row r can start an `unlock_se` there, and somebody may be waiting. */
  ghost predicate Unlocks(s: State, u: Ult, r: Row) {
    u in s.pc && s.pc[u].Holding? && s.val == 2 && forall v :: v in s.pc ==> !AtWork(s.pc[v], r)
  }

  /** The actions of the giver u, and then of the receiver h. */
  function Giving(u: Ult, r: Row): seq<Action> {
    [Decrement(u, r, true), Decide(u), PopReceiver(u)]
  }

  function Receiving(h: Ult): seq<Action> {
    [TestHandover(h), StoreTwo(h), PushGiver(h)]
  }

  lemma StartsUnlock(c: Config, s: State, u: Ult, r: Row)
    requires Unlocks(s, u, r)
    ensures Enabled(s, Decrement(u, r, true))
    ensures Do(c, s, Decrement(u, r, true)) == s.(val := 1, pc := s.pc[u := Releasing(true, r)])
  {
  }

  lemma DecidesFor(c: Config, s: State, u: Ult, low: bool, r: Row)
    requires u in s.pc && s.pc[u] == Releasing(true, r) && Handovers(s, r) < c.maxHandovers
    requires if low then |RowOf(s, false, r)| <= 1 && s.linked == {} && |RowOf(s, true, r)| > 1 else |RowOf(s, false, r)| > 1
    ensures Enabled(s, Decide(u)) && Do(c, s, Decide(u)) == s.(pc := s.pc[u := Popping(low, r)])
  {
  }

  lemma Decides(c: Config, s: State, u: Ult, low: bool, r: Row) returns (acts: seq<Action>, t: State)
    requires Unlocks(s, u, r) && Handovers(s, r) < c.maxHandovers
    requires if low then |RowOf(s, false, r)| <= 1 && s.linked == {} && |RowOf(s, true, r)| > 1 else |RowOf(s, false, r)| > 1
    ensures acts == [Decrement(u, r, true), Decide(u)] && NeverFree(c, s, acts) && Run(c, s, acts) == Some(t)
    ensures u in t.pc && t.pc[u] == Popping(low, r) && t == s.(val := 1, pc := t.pc) && t.pc == s.pc[u := t.pc[u]]
  {
    assert NeverFree(c, s, []);
    StartsUnlock(c, s, u, r);
    acts, t := Append(c, s, [], s, Decrement(u, r, true));
    DecidesFor(c, t, u, low, r);
    acts, t := Append(c, s, acts, t, Decide(u));
  }

  /** The giver's half, once it has decided for the row's low or high queue. */
  lemma Gives(c: Config, s: State, o: Option<Ult>, u: Ult, low: bool, r: Row) returns (acts: seq<Action>, t: State)
    requires Inv(c, s, o) && Unlocks(s, u, r) && Handovers(s, r) < c.maxHandovers && RowOf(s, low, r) != []
    requires if low then |RowOf(s, false, r)| <= 1 && s.linked == {} && |RowOf(s, true, r)| > 1 else |RowOf(s, false, r)| > 1
    ensures acts == Giving(u, r) && NeverFree(c, s, acts) && Run(c, s, acts) == Some(t)
    ensures var q := RowOf(s, low, r);
      && t.handover == Some(q[0]) && q[0] in t.pc && t.pc[q[0]].Back? && t.giver == u && u in t.pc && u != q[0]
      && RowOf(t, low, r) == q[1..] && t.val == 1
  {
    acts, t := Decides(c, s, u, low, r);
    assert RowOf(t, low, r) == RowOf(s, low, r);
    assert RowInv(s, (low, r)) && RowOf(s, low, r)[0] in RowOf(s, low, r);
    acts, t := Append(c, s, acts, t, PopReceiver(u));
  }

  /** The receiver's half. */
  lemma Receives(c: Config, s: State, acts: seq<Action>, t: State, h: Ult) returns (acts': seq<Action>, t': State)
    requires NeverFree(c, s, acts) && Run(c, s, acts) == Some(t)
    requires h in t.pc && t.pc[h].Back? && t.handover == Some(h) && t.giver in t.pc && t.giver != h && t.val == 1
    ensures acts' == acts + Receiving(h) && NeverFree(c, s, acts') && Run(c, s, acts') == Some(t')
    ensures h in t'.pc && t'.pc[h].Holding? && t.giver in t'.pc && t'.pc[t.giver].Idle? && t'.val == 2 && t'.rows == t.rows
  {
    acts', t' := Append(c, s, acts, t, TestHandover(h));
    acts', t' := Append(c, s, acts', t', StoreTwo(h));
    acts', t' := Append(c, s, acts', t', PushGiver(h));
  }

  /** From every reachable state, an undisturbed `unlock_se` below the maximum gives the mutex to the oldest
      high-priority waiter of its row if the row has more than one, and to the oldest low-priority one if no
      high-priority row is linked and the row has more than one of those. The mutex is not free in between,
      and the giver goes on. */
  lemma HandsToOldest(c: Config, s: State, acts: seq<Action>, u: Ult, low: bool, r: Row) returns (h: Ult)
    requires Init(s) && Run(c, s, acts).Some?
    requires var t := Run(c, s, acts).value;
      && Unlocks(t, u, r) && Handovers(t, r) < c.maxHandovers && |RowOf(t, low, r)| > 1 && (low ==> t.linked == {})
    ensures var t := Run(c, s, acts).value;
      && h == RowOf(t, low, r)[0] && NeverFree(c, t, Giving(u, r) + Receiving(h))
      && var t' := Run(c, t, Giving(u, r) + Receiving(h)).value;
      && h in t'.pc && t'.pc[h].Holding? && u in t'.pc && t'.pc[u].Idle? && RowOf(t', low, r) == RowOf(t, low, r)[1..]
  {
    var o := RunKeeps(c, s, acts);
    var t := Run(c, s, acts).value;
    h := RowOf(t, low, r)[0];
    if low {
      assert (false, r) in t.rows ==> RowInv(t, (false, r));
    }
    var more, t' := Gives(c, t, o, u, low, r);
    more, t' := Receives(c, t, more, t', h);
  }

  lemma Appended(c: Config, s: State, acts: seq<Action>, t: State, a: Action) returns (acts': seq<Action>, t': State)
    requires Run(c, s, acts) == Some(t) && Enabled(t, a)
    ensures acts' == acts + [a] && t' == Do(c, t, a) && Run(c, s, acts') == Some(t')
  {
    acts', t' := acts + [a], Do(c, t, a);
    assert acts'[..|acts'| - 1] == acts;
  }

  /** In every other case an undisturbed `unlock_se` frees the mutex, takes nobody out of a row, and goes on to
      wake as many as it may; num_handovers is to be reset if it stands at the maximum, and only then. */
  lemma ReleasesToAll(c: Config, s: State, u: Ult, r: Row) returns (t: State)
    requires Unlocks(s, u, r)
    requires Handovers(s, r) >= c.maxHandovers || (|RowOf(s, false, r)| <= 1 && (s.linked != {} || |RowOf(s, true, r)| <= 1))
    ensures Run(c, s, [Decrement(u, r, true), Decide(u), StoreZero(u)]) == Some(t)
    ensures t.val == 0 && t.rows == s.rows && t.handovers == s.handovers
    ensures u in t.pc && t.pc[u] == Waking(c.maxWakeups, r, Handovers(s, r) >= c.maxHandovers)
  {
    var acts;
    StartsUnlock(c, s, u, r);
    acts, t := Appended(c, s, [], s, Decrement(u, r, true));
    acts, t := Appended(c, s, acts, t, Decide(u));
    acts, t := Appended(c, s, acts, t, StoreZero(u));
    assert acts == [Decrement(u, r, true), Decide(u), StoreZero(u)];
  }

  // ----- an undisturbed contender -----

  /** u is in the loop of lock or lock_low, the mutex has not been handed to it, and the table lock is free or
      its own. */
  predicate Trying(s: State, u: Ult, low: bool, r: Row) {
    u in s.pc && s.handover != Some(u) &&
    if s.pc[u] == Linking(low, r) then s.table == Some(u) && s.val == 2
    else s.table.None? && (s.pc[u] == Starting(low) || s.pc[u] == Contending(low) || s.pc[u] == Waiting(low) || s.pc[u] == Back(low))
  }

  function NextTry(s: State, u: Ult, r: Row): Action
    requires u in s.pc
  {
    match s.pc[u]
    case Starting(_) => Cas(u)
    case Contending(_) => Exchange(u)
    case Waiting(_) => CheckWait(u, r)
    case Back(_) => TestHandover(u)
    case _ => Link(u)
  }

  /** How many steps of its own u is away from holding the mutex or waiting in a row. */
  function Distance(val: nat, pc: Pc): nat {
    match pc
    case Starting(_) => if val == 0 then 1 else if val == 2 then 3 else 4
    case Contending(_) => if val == 0 then 1 else 3
    case Waiting(_) => if val == 0 then 3 else if val == 2 then 2 else 5
    case Back(_) => if val == 0 then 2 else 4
    case _ => 1
  }

  /** u has the mutex if it was free, and else is the last in its row, with 2 telling the holder to wake it. */
  predicate GotOrWaits(s: State, t: State, u: Ult, low: bool, r: Row) {
    u in t.pc &&
    if s.val == 0 then t.pc[u].Holding? && t.val != 0 && t.rows == s.rows
    else t.pc[u] == Queued(low, r) && t.val == 2 && RowOf(t, low, r) == RowOf(s, low, r) + [u]
  }

  lemma OneTry(c: Config, s: State, u: Ult, low: bool, r: Row)
    requires Trying(s, u, low, r) && s.val <= 2
    ensures Enabled(s, NextTry(s, u, r))
    ensures var t := Do(c, s, NextTry(s, u, r));
      || GotOrWaits(s, t, u, low, r)
      || (Trying(t, u, low, r) && t.val <= 2 && (t.val == 0 <==> s.val == 0) && t.rows == s.rows &&
          Distance(t.val, t.pc[u]) < Distance(s.val, s.pc[u]))
  {
  }

  lemma TriesOnce(c: Config, s: State, acts: seq<Action>, t: State, u: Ult, low: bool, r: Row)
    returns (a: Action, t': State)
    requires Run(c, s, acts) == Some(t) && Trying(t, u, low, r) && t.val <= 2
    ensures a.u == u && Run(c, s, acts + [a]) == Some(t')
    ensures
      || GotOrWaits(t, t', u, low, r)
      || (Trying(t', u, low, r) && t'.val <= 2 && (t'.val == 0 <==> t.val == 0) && t'.rows == t.rows &&
          Distance(t'.val, t'.pc[u]) < Distance(t.val, t.pc[u]))
  {
    OneTry(c, t, u, low, r);
    var acts';
    a := NextTry(t, u, r);
    acts', t' := Appended(c, s, acts, t, a);
  }

  lemma {:induction false} Tries(c: Config, s: State, acts: seq<Action>, t: State, u: Ult, low: bool, r: Row)
    returns (acts': seq<Action>, t': State)
    requires Run(c, s, acts) == Some(t) && Trying(t, u, low, r) && t.val <= 2
    ensures Run(c, s, acts') == Some(t') && GotOrWaits(t, t', u, low, r)
    ensures acts <= acts' && |acts'| <= |acts| + Distance(t.val, t.pc[u])
    ensures forall i :: |acts| <= i < |acts'| ==> acts'[i].u == u
    decreases Distance(t.val, t.pc[u])
  {
    var a;
    a, t' := TriesOnce(c, s, acts, t, u, low, r);
    acts' := acts + [a];
    if !GotOrWaits(t, t', u, low, r) {
      acts', t' := Tries(c, s, acts', t', u, low, r);
    }
  }

  /** From every reachable state, a ULT in the loop of lock that is left alone gets the mutex if it is free, and
      otherwise comes to wait at the end of its row, in at most five steps of its own. */
  lemma GetsOrWaits(c: Config, s: State, acts: seq<Action>, t: State, u: Ult, low: bool, r: Row)
    returns (more: seq<Action>, t': State)
    requires Init(s) && Run(c, s, acts) == Some(t) && Trying(t, u, low, r)
    ensures Run(c, t, more) == Some(t') && GotOrWaits(t, t', u, low, r)
    ensures |more| <= 5 && forall a :: a in more ==> a.u == u
  {
    var o := RunKeeps(c, s, acts);
    more, t' := Tries(c, t, [], t, u, low, r);
  }

  // ----- how many waiters an unlock wakes -----

  /** How many waiters u has woken since it last stored 0, and whether it has found the table empty since. */
  datatype Tally = Tally(woken: nat, dry: bool)

  function TallyStep(s: State, a: Action, u: Ult, n: Tally): Tally
    requires Enabled(s, a)
  {
    if a.u != u then n
    else if a.StoreZero? then Tally(0, false)
    else if a.WakeOne? then n.(woken := n.woken + 1)
    else if a.WakeNone? then n.(dry := true)
    else n
  }

  function TallyOf(c: Config, s: State, acts: seq<Action>, u: Ult): Tally
    requires Run(c, s, acts).Some?
  {
    if acts == [] then Tally(0, false)
    else
      var p := acts[..|acts| - 1];
      TallyStep(Run(c, s, p).value, acts[|acts| - 1], u, TallyOf(c, s, p, u))
  }

  lemma WakerStays(c: Config, s: State, o: Option<Ult>, a: Action, w: Ult)
    requires Inv(c, s, o) && Enabled(s, a) && w in s.pc && s.pc[w].Waking? && w != a.u
    ensures w in Do(c, s, a).pc && Do(c, s, a).pc[w] == s.pc[w]
  {
    if Taken(s, a).Some? {
      var (low, r) := Taken(s, a).value;
      assert RowInv(s, (low, r)) && RowOf(s, low, r)[0] in RowOf(s, low, r);
    } else {
      OthersStay(c, s, a, w);
      assert LocalInv(c, s, o, w);
    }
  }

  predicate TallyOk(c: Config, s: State, u: Ult, n: Tally) {
    u in s.pc && s.pc[u].Waking? ==>
      if n.dry then s.pc[u].n == 0 && n.woken <= c.maxWakeups else n.woken + s.pc[u].n == c.maxWakeups
  }

  lemma TallyKept(c: Config, s: State, o: Option<Ult>, a: Action, u: Ult, n: Tally)
    requires Inv(c, s, o) && Enabled(s, a) && TallyOk(c, s, u, n)
    ensures TallyOk(c, Do(c, s, a), u, TallyStep(s, a, u, n))
  {
    if a.u == u {
      OwnTally(c, s, a, n);
    } else if u in s.pc && s.pc[u].Waking? {
      WakerStays(c, s, o, a, u);
    } else {
      NewWaker(c, s, a, u);
    }
  }

  lemma OwnTally(c: Config, s: State, a: Action, n: Tally)
    requires Enabled(s, a) && TallyOk(c, s, a.u, n)
    ensures TallyOk(c, Do(c, s, a), a.u, TallyStep(s, a, a.u, n))
  {
  }

  lemma NewWaker(c: Config, s: State, a: Action, u: Ult)
    requires Enabled(s, a) && a.u != u && !(u in s.pc && s.pc[u].Waking?)
    ensures !(u in Do(c, s, a).pc && Do(c, s, a).pc[u].Waking?)
  {
  }

  lemma {:induction false} RunTally(c: Config, s: State, acts: seq<Action>, u: Ult)
    requires Init(s) && Run(c, s, acts).Some?
    ensures TallyOk(c, Run(c, s, acts).value, u, TallyOf(c, s, acts, u))
  {
    if acts != [] {
      var p := acts[..|acts| - 1];
      var o := RunKeeps(c, s, p);
      RunTally(c, s, p, u);
      TallyKept(c, Run(c, s, p).value, o, acts[|acts| - 1], u, TallyOf(c, s, p, u));
    }
  }

  /** An unlock ends when it has woken max_wakeups waiters, or has found all rows empty. */
  lemma WakesAllItMay(c: Config, s: State, acts: seq<Action>, u: Ult)
    requires Init(s) && Run(c, s, acts).Some? && Enabled(Run(c, s, acts).value, EndWake(u))
    ensures var n := TallyOf(c, s, acts, u); if n.dry then n.woken <= c.maxWakeups else n.woken == c.maxWakeups
  {
    RunTally(c, s, acts, u);
  }

  // ----- what num_handovers counts -----

  /** The handovers of row r since an `unlock_se` on r last released the mutex at the maximum. */
  function Counted(c: Config, s: State, a: Action, r: Row, n: nat): nat
    requires Enabled(s, a)
  {
    var pc := s.pc[a.u];
    if a.StoreZero? && pc.Opening? && pc.row == r && Handovers(s, r) >= c.maxHandovers then 0
    else if a.PopReceiver? && pc.row == r && RowOf(s, pc.low, r) != [] then n + 1
    else n
  }

  function CountedOf(c: Config, s: State, acts: seq<Action>, r: Row): nat
    requires Run(c, s, acts).Some?
  {
    if acts == [] then 0
    else
      var p := acts[..|acts| - 1];
      Counted(c, Run(c, s, p).value, acts[|acts| - 1], r, CountedOf(c, s, p, r))
  }

  ghost predicate Resetting(s: State, r: Row) {
    exists u :: u in s.pc && s.pc[u].Waking? && AtWork(s.pc[u], r)
  }

  /** Who releases the mutex resets the count exactly if it stands at the maximum. */
  predicate ResetOk(c: Config, s: State, r: Row, u: Ult) {
    u in s.pc && s.pc[u].Opening? && s.pc[u].row == r ==> (s.pc[u].reset <==> Handovers(s, r) >= c.maxHandovers)
  }

  ghost predicate CountOk(c: Config, s: State, r: Row, n: nat) {
    && AloneAtWork(s, r) && (forall u :: ResetOk(c, s, r, u))
    && if Resetting(s, r) then n == 0 else n == Handovers(s, r)
  }

  lemma ResetKept(c: Config, s: State, a: Action, r: Row, u: Ult)
    requires Enabled(s, a) && AloneAtWork(s, r) && ResetOk(c, s, r, u)
    ensures ResetOk(c, Do(c, s, a), r, u)
  {
    HandoversAfter(c, s, a, r);
    if u in Do(c, s, a).pc && Do(c, s, a).pc[u].Opening? && Do(c, s, a).pc[u].row == r {
      WorkFrom(c, s, a, r, u);
      OpensFrom(c, s, a, r, u);
    }
  }

  lemma OpensFrom(c: Config, s: State, a: Action, r: Row, u: Ult)
    requires Enabled(s, a) && u in Do(c, s, a).pc && Do(c, s, a).pc[u].Opening? && Do(c, s, a).pc[u].row == r
    ensures u in s.pc && AtWork(s.pc[u], r)
    ensures s.pc[u] == Do(c, s, a).pc[u] || (a == Decide(u) && (Do(c, s, a).pc[u].reset <==> Handovers(s, r) >= c.maxHandovers))
  {
    WorkFrom(c, s, a, r, u);
    if a.u == u {
      OpensByDecision(c, s, a);
    } else {
      OpensElsewhere(c, s, a, u);
    }
  }

  lemma OpensByDecision(c: Config, s: State, a: Action)
    requires Enabled(s, a) && a.u in Do(c, s, a).pc && Do(c, s, a).pc[a.u].Opening?
    ensures a.Decide? && s.pc[a.u].Releasing? && s.pc[a.u].row == Do(c, s, a).pc[a.u].row
    ensures Do(c, s, a).pc[a.u].reset <==> Handovers(s, s.pc[a.u].row) >= c.maxHandovers
  {
  }

  lemma OpensElsewhere(c: Config, s: State, a: Action, u: Ult)
    requires Enabled(s, a) && u != a.u && u in Do(c, s, a).pc && Do(c, s, a).pc[u].Opening?
    ensures u in s.pc && s.pc[u] == Do(c, s, a).pc[u]
  {
  }

  /** What an action does to num_handovers of a row. */
  lemma HandoversAfter(c: Config, s: State, a: Action, r: Row)
    requires Enabled(s, a)
    ensures Handovers(Do(c, s, a), r) ==
      if a.PopReceiver? && s.pc[a.u].row == r && RowOf(s, s.pc[a.u].low, r) != [] then Handovers(s, r) + 1
      else if a.EndWake? && AtWork(s.pc[a.u], r) then 0 else Handovers(s, r)
  {
  }

  /** The release that starts a reset, and everything else where none is going on. */
  lemma CountStarts(c: Config, s: State, a: Action, r: Row, n: nat)
    requires Enabled(s, a) && AloneAtWork(s, r) && ResetOk(c, s, r, a.u) && !Resetting(s, r) && n == Handovers(s, r)
    ensures var (t, n') := (Do(c, s, a), Counted(c, s, a, r, n)); if Resetting(t, r) then n' == 0 else n' == Handovers(t, r)
  {
    HandoversAfter(c, s, a, r);
    var t := Do(c, s, a);
    if a.StoreZero? && s.pc[a.u] == Opening(r, true) {
      assert t.pc[a.u].Waking? && AtWork(t.pc[a.u], r);
    } else {
      forall v | v in t.pc && t.pc[v].Waking? && AtWork(t.pc[v], r) ensures false {
        WorkFrom(c, s, a, r, v);
      }
    }
  }

  /** While a reset is going on, up to its end. */
  lemma CountEnds(c: Config, s: State, o: Option<Ult>, a: Action, r: Row)
    requires Inv(c, s, o) && Enabled(s, a) && AloneAtWork(s, r) && Resetting(s, r)
    ensures var (t, n') := (Do(c, s, a), Counted(c, s, a, r, 0)); if Resetting(t, r) then n' == 0 else n' == Handovers(t, r)
  {
    HandoversAfter(c, s, a, r);
    var t := Do(c, s, a);
    var w :| w in s.pc && s.pc[w].Waking? && AtWork(s.pc[w], r);
    if w != a.u {
      WakerStays(c, s, o, a, w);
    } else if !a.EndWake? {
      assert t.pc[w].Waking? && AtWork(t.pc[w], r);
    } else {
      forall v | v in t.pc && t.pc[v].Waking? && AtWork(t.pc[v], r) ensures false {
        WorkFrom(c, s, a, r, v);
      }
    }
  }

  lemma AloneKept(c: Config, s: State, a: Action, r: Row)
    requires Enabled(s, a) && AloneAtWork(s, r)
    ensures AloneAtWork(Do(c, s, a), r)
  {
    var t := Do(c, s, a);
    forall u, v | u in t.pc && v in t.pc && AtWork(t.pc[u], r) && AtWork(t.pc[v], r) ensures u == v {
      WorkFrom(c, s, a, r, u);
      WorkFrom(c, s, a, r, v);
    }
  }

  lemma CountKept(c: Config, s: State, o: Option<Ult>, a: Action, r: Row, n: nat)
    requires Inv(c, s, o) && CountOk(c, s, r, n) && Enabled(s, a)
    ensures CountOk(c, Do(c, s, a), r, Counted(c, s, a, r, n))
  {
    AloneKept(c, s, a, r);
    forall u ensures ResetOk(c, Do(c, s, a), r, u) {
      assert ResetOk(c, s, r, u);
      ResetKept(c, s, a, r, u);
    }
    if Resetting(s, r) {
      CountEnds(c, s, o, a, r);
    } else {
      assert ResetOk(c, s, r, a.u);
      CountStarts(c, s, a, r, n);
    }
  }

  lemma {:induction false} RunCountsExactly(c: Config, s: State, acts: seq<Action>, r: Row)
    requires Init(s) && Run(c, s, acts).Some?
    ensures CountOk(c, Run(c, s, acts).value, r, CountedOf(c, s, acts, r))
  {
    if acts != [] {
      var p := acts[..|acts| - 1];
      var o := RunKeeps(c, s, p);
      RunCountsExactly(c, s, p, r);
      CountKept(c, Run(c, s, p).value, o, acts[|acts| - 1], r, CountedOf(c, s, p, r));
    }
  }

  /** num_handovers of a row is the number of its handovers since an `unlock_se` there last released the mutex
      with the number at the maximum, except while that one is still to reset it. */
  lemma NumHandoversIs(c: Config, s: State, acts: seq<Action>, r: Row)
    requires Init(s) && Run(c, s, acts).Some?
    ensures var t := Run(c, s, acts).value;
      Handovers(t, r) == CountedOf(c, s, acts, r) ||
      (CountedOf(c, s, acts, r) == 0 && exists u :: u in t.pc && t.pc[u].Waking? && t.pc[u].reset && t.pc[u].row == r)
  {
    RunCountsExactly(c, s, acts, r);
    var t := Run(c, s, acts).value;
    if u :| u in t.pc && t.pc[u].Waking? && AtWork(t.pc[u], r) {
      assert t.pc[u].reset && t.pc[u].row == r;
    }
  }

  // ----- a free mutex -----

  /** A mutex that nobody has is taken at the first try, by lock as by trylock, and without a trace for the
      next unlock to wake anybody; trylock on a mutex that somebody has changes nothing. */
  lemma FreeMutexIsTaken(c: Config, s: State, acts: seq<Action>, t: State, u: Ult, low: bool)
    requires Init(s) && Run(c, s, acts) == Some(t) && u in t.pc && t.pc[u].Idle?
    ensures var t' := Do(c, t, TryLock(u));
      if exists v :: v in t.pc && Owns(t, v) then t' == t else u in t'.pc && t'.pc[u].Holding? && t'.val == 1
    ensures var t' := Do(c, Do(c, t, Lock(u, low)), Cas(u));
      (forall v :: v in t.pc ==> !Owns(t, v)) ==> u in t'.pc && t'.pc[u].Holding? && t'.val == 1
  {
    MutualExclusion(c, s, acts);
  }

  /** And an unlock that finds 1 frees it and is done. */
  lemma QuickUnlock(c: Config, s: State, u: Ult, r: Row, se: bool)
    requires Enabled(s, Decrement(u, r, se)) && s.val == 1
    ensures var t := Do(c, s, Decrement(u, r, se)); u in t.pc && t.pc[u].Idle? && t.val == 0 && t.rows == s.rows
  {
  }

  // ----- who can step -----

  /** What a ULT can do next. Only a ULT that is blocked in a row, or that has given the mutex and waits to be
      pushed, cannot step by itself; and one that is about to wait needs the table lock. */
  ghost predicate CanProceed(s: State, u: Ult)
    requires u in s.pc
  {
    match s.pc[u]
    case Idle => (forall low :: Enabled(s, Lock(u, low))) && Enabled(s, TryLock(u))
    case Starting(low) => Enabled(s, Cas(u)) && (low ==> forall r :: RowOf(s, true, r) != [] ==> Enabled(s, SwitchLow(u, r)))
    case Waiting(_) => s.table.None? ==> forall r :: Enabled(s, CheckWait(u, r))
    case Holding =>
      forall r :: Enabled(s, Decrement(u, r, false)) && ((forall v :: v in s.pc ==> !AtWork(s.pc[v], r)) ==> Enabled(s, Decrement(u, r, true)))
    case Waking(n, _, _) => n == 0 ==> Enabled(s, EndWake(u))
    case _ => true
  }

  lemma Proceeds(s: State, u: Ult)
    requires u in s.pc
    ensures CanProceed(s, u)
  {
    match s.pc[u]
    case Idle =>
    case Starting(_) =>
    case Waiting(_) =>
    case Holding =>
    case Waking(_, _, _) =>
    case _ =>
  }

  lemma WhoCanStep(c: Config, s: State, acts: seq<Action>, t: State, u: Ult) returns (a: Action)
    requires Init(s) && Run(c, s, acts) == Some(t) && u in t.pc
    ensures CanProceed(t, u)
    ensures Working(t.pc[u]) ==> Enabled(t, a) && Working(t.pc[a.u])
  {
    Proceeds(t, u);
    a := Lock(u, false);
    if Working(t.pc[u]) {
      var o := RunKeeps(c, s, acts);
      a := WorkerCanStep(c, t, o, u);
    }
  }
}
