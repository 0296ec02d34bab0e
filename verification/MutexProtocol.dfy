/** The mutex with values 0 (free), 1 (locked) and 2 (locked, waiters possible) and direct handover,
    as a step relation over any number of ULTs and of rows (one row of waiters per execution stream). */
module MutexProtocol {
  import opened Basics

  type Ult = nat
  type Row = nat

  /** Where a ULT is in lock, lock_low, unlock or unlock_se; `low` is the queue it waits in. */
  datatype Pc =
    | Idle
    | Starting(low: bool)                   // about to CAS(0, 1)
    | Contending(low: bool)                 // about to exchange(2)
    | Waiting(low: bool)                    // about to call wait or wait_low
    | Linking(low: bool, row: Row)          // holds the table lock and has read val == 2
    | Queued(low: bool, row: Row)           // blocked in a row
    | Back(low: bool)                       // back from wait, about to test p_handover
    | Accepting                             // has cleared p_handover, about to store 2
    | Pushing                               // has stored 2, about to push the giver to its pool
    | Holding
    | Releasing(se: bool, row: Row)         // has decremented val from 2 to 1
    | Popping(low: bool, row: Row)          // unlock_se has chosen the queue to pop a receiver from
    | Opening(row: Row, reset: bool)        // unlock_se has chosen to release to everyone
    | Giving                                // switched to the receiver; in no pool
    | Waking(n: nat, row: Row, reset: bool) // in wake_de, n iterations to go

  datatype Config = Config(maxHandovers: nat, maxWakeups: nat)

  datatype State = State(
    val: nat,
    pc: map<Ult, Pc>,
    rows: map<(bool, Row), seq<Ult>>, // blocked ULTs, oldest first; (true, r) is the low queue of row r
    linked: set<Row>,         // rows in h_list
    handovers: map<Row, nat>, // num_handovers
    handover: Option<Ult>,    // p_handover
    giver: Ult,               // p_giver
    table: Option<Ult>        // owner of the table lock
  )

  datatype Action =
    | Lock(u: Ult, low: bool)
    | SwitchLow(u: Ult, row: Row)
    | Cas(u: Ult)
    | TryLock(u: Ult)
    | Exchange(u: Ult)
    | CheckWait(u: Ult, row: Row)
    | Link(u: Ult)
    | TestHandover(u: Ult)
    | StoreTwo(u: Ult)
    | PushGiver(u: Ult)
    | Decrement(u: Ult, row: Row, se: bool)
    | StoreZero(u: Ult)
    | Decide(u: Ult)
    | PopReceiver(u: Ult)
    | WakeOne(u: Ult, low: bool, row: Row, unlinked: set<Row>)
    | WakeNone(u: Ult)
    | EndWake(u: Ult)

  function Move(s: State, u: Ult, pc: Pc): State {
    s.(pc := s.pc[u := pc])
  }

  // Rows start out empty, with no handovers.
  function RowOf(s: State, low: bool, r: Row): seq<Ult> {
    if (low, r) in s.rows then s.rows[(low, r)] else []
  }

  function SetRow(s: State, low: bool, r: Row, q: seq<Ult>): State {
    s.(rows := s.rows[(low, r) := q])
  }

  function Handovers(s: State, r: Row): nat {
    if r in s.handovers then s.handovers[r] else 0
  }

  predicate Empty(s: State) {
    forall k :: k in s.rows ==> s.rows[k] == []
  }

  /** `unlock_se` is at work on a row, which is that of the ES it runs on, and may yet count a handover or
      reset the count. */
  predicate AtWork(pc: Pc, r: Row) {
    match pc
    case Releasing(se, row) => se && row == r
    case Popping(_, row) => row == r
    case Opening(row, _) => row == r
    case Waking(_, row, reset) => reset && row == r
    case _ => false
  }

  /** Whether the action is the next atomic access of ULT `u`. An ES runs one ULT at a time, and a ULT is
      neither preempted nor switched in the middle of `unlock_se`: so one at most is at work on a row. */
  predicate Enabled(s: State, a: Action) {
    a.u in s.pc &&
    var pc := s.pc[a.u];
    match a
    case Lock(u, low) => pc.Idle?
    // lock_low gives way to the head of its row's low queue, which is never empty when this is chosen
    case SwitchLow(u, row) => pc == Starting(true) && RowOf(s, true, row) != []
    case Cas(u) => pc.Starting?
    case TryLock(u) => pc.Idle?
    case Exchange(u) => pc.Contending?
    case CheckWait(u, row) => pc.Waiting? && s.table.None?
    case Link(u) => pc.Linking?
    case TestHandover(u) => pc.Back?
    case StoreTwo(u) => pc.Accepting?
    case PushGiver(u) => pc.Pushing?
    case Decrement(u, row, se) => pc.Holding? && (se ==> forall v :: v in s.pc ==> !AtWork(s.pc[v], row))
    case StoreZero(u) => pc.Opening? || (pc.Releasing? && !pc.se)
    case Decide(u) => pc.Releasing? && pc.se
    case PopReceiver(u) => pc.Popping?
    // high-priority rows first; empty rows met on the way are unlinked
    case WakeOne(u, low, row, unlinked) =>
      && pc.Waking? && pc.n > 0 && s.table.None? && RowOf(s, low, row) != []
      && (low ==> unlinked == s.linked && forall r :: r in s.linked ==> RowOf(s, false, r) == [])
      && forall r :: r in unlinked ==> RowOf(s, false, r) == [] || (!low && r == row && |RowOf(s, false, r)| == 1)
    case WakeNone(u) => pc.Waking? && pc.n > 0 && s.table.None? && Empty(s)
    case EndWake(u) => pc.Waking? && pc.n == 0
  }

  function Do(c: Config, s: State, a: Action): State
    requires Enabled(s, a)
  {
    var pc := s.pc[a.u];
    match a
    case Lock(u, low) => Move(s, u, Starting(low))
    case SwitchLow(u, row) =>
      var q := RowOf(s, true, row);
      Move(Move(SetRow(s, true, row, q[1..] + [u]), u, Queued(true, row)), q[0], Back(true))
    case Cas(u) =>
      if s.val == 0 then Move(s, u, Holding).(val := 1)
      else if s.val == 2 then Move(s, u, Waiting(pc.low))
      else Move(s, u, Contending(pc.low))
    case TryLock(u) =>
      if s.val == 0 then Move(s, u, Holding).(val := 1) else s
    case Exchange(u) =>
      (if s.val == 0 then Move(s, u, Holding) else Move(s, u, Waiting(pc.low))).(val := 2)
    case CheckWait(u, row) =>
      if s.val == 2 then Move(s, u, Linking(pc.low, row)).(table := Some(u))
      else Move(s, u, Back(pc.low))
    case Link(u) =>
      var t := SetRow(s, pc.low, pc.row, RowOf(s, pc.low, pc.row) + [u]);
      Move(t, u, Queued(pc.low, pc.row)).(table := None, linked := if pc.low then s.linked else s.linked + {pc.row})
    case TestHandover(u) =>
      if s.handover == Some(u) then Move(s, u, Accepting).(handover := None)
      else Move(s, u, Contending(pc.low))
    case StoreTwo(u) => Move(s, u, Pushing).(val := 2)
    case PushGiver(u) => Move(Move(s, s.giver, Idle), u, Holding)
    case Decrement(u, row, se) =>
      if s.val == 1 then Move(s, u, Idle).(val := 0) else Move(s, u, Releasing(se, row)).(val := 1)
    case StoreZero(u) =>
      Move(s, u, Waking(c.maxWakeups, pc.row, pc.Opening? && pc.reset)).(val := 0)
    case Decide(u) =>
      var r := pc.row;
      if Handovers(s, r) >= c.maxHandovers then Move(s, u, Opening(r, true))
      else if |RowOf(s, false, r)| > 1 then Move(s, u, Popping(false, r))
      else if s.linked != {} || |RowOf(s, true, r)| <= 1 then Move(s, u, Opening(r, false))
      else Move(s, u, Popping(true, r))
    case PopReceiver(u) =>
      var q := RowOf(s, pc.low, pc.row);
      if q == [] then Move(s, u, Releasing(true, pc.row))
      else
        Move(Move(SetRow(s, pc.low, pc.row, q[1..]), u, Giving), q[0], Back(pc.low))
          .(handover := Some(q[0]), giver := u, handovers := s.handovers[pc.row := Handovers(s, pc.row) + 1])
    case WakeOne(u, low, row, unlinked) =>
      var q := RowOf(s, low, row);
      Move(Move(SetRow(s, low, row, q[1..]), u, pc.(n := pc.n - 1)), q[0], Back(low)).(linked := s.linked - unlinked)
    case WakeNone(u) => Move(s, u, pc.(n := 0))
    case EndWake(u) =>
      var t := Move(s, u, Idle);
      if pc.reset then t.(handovers := s.handovers[pc.row := 0]) else t
  }

  // ----- the invariant -----

  predicate NoDup(q: seq<Ult>) {
    forall i, j :: 0 <= i < j < |q| ==> q[i] != q[j]
  }

  /** `u` has the mutex: it is in the critical section, or on its way in by handover or out by unlock. */
  predicate Owns(s: State, u: Ult)
    requires u in s.pc
  {
    var pc := s.pc[u];
    || pc.Holding? || pc.Releasing? || pc.Popping? || pc.Opening? || pc.Accepting? || pc.Pushing?
    || s.handover == Some(u)
  }

  /** The owner has been designated and has not yet put the giver back into its pool. */
  predicate Taking(s: State, owner: Option<Ult>) {
    owner.Some? && owner.value in s.pc &&
    (s.handover == owner || s.pc[owner.value].Accepting? || s.pc[owner.value].Pushing?)
  }

  ghost predicate LocalInv(c: Config, s: State, owner: Option<Ult>, u: Ult) {
    u in s.pc ==>
    var pc := s.pc[u];
    && (Owns(s, u) <==> owner == Some(u))
    && (pc.Linking? <==> s.table == Some(u))
    && (pc.Giving? <==> Taking(s, owner) && s.giver == u)
    && (pc.Queued? ==> u in RowOf(s, pc.low, pc.row))
    && (pc.Popping? ==> Handovers(s, pc.row) < c.maxHandovers)
  }

  ghost predicate GlobalInv(c: Config, s: State, owner: Option<Ult>) {
    && s.val <= 2 && (s.val == 0 <==> owner.None?)
    && (owner.Some? ==> owner.value in s.pc)
    && (s.handover.Some? ==> s.handover.value in s.pc && s.pc[s.handover.value].Back?)
    && (s.table.Some? ==> s.table.value in s.pc)
    && (Taking(s, owner) ==> s.giver in s.pc)
    && (forall r :: r in s.handovers ==> s.handovers[r] <= c.maxHandovers)
  }

  /** A row holds only ULTs blocked in it, each once; non-empty high rows are linked. */
  ghost predicate RowInv(s: State, k: (bool, Row)) {
    k in s.rows ==>
    && NoDup(s.rows[k])
    && (forall u :: u in s.rows[k] ==> u in s.pc && s.pc[u] == Queued(k.0, k.1))
    && (!k.0 && s.rows[k] != [] ==> k.1 in s.linked)
  }

  ghost predicate Inv(c: Config, s: State, owner: Option<Ult>) {
    && GlobalInv(c, s, owner)
    && (forall u :: u in s.pc ==> LocalInv(c, s, owner, u))
    && (forall k :: k in s.rows ==> RowInv(s, k))
  }

  /** A ULT that will still store, exchange, hand over or wake somebody without being resumed first. */
  predicate Pending(pc: Pc) {
    || pc.Releasing? || pc.Popping? || pc.Opening? || (pc.Waking? && pc.n > 0) // a releaser
    || pc.Back? || pc.Contending? || pc.Accepting?                             // a receiver or a woken contender
  }

  ghost predicate SomePending(s: State) {
    exists u :: u in s.pc && Pending(s.pc[u])
  }

  /** No waiter is stranded. */
  ghost predicate Covered(s: State) {
    !Empty(s) || s.table.Some? ==> s.val == 2 || SomePending(s)
  }

  function NextOwner(s: State, owner: Option<Ult>, a: Action): Option<Ult>
    requires Enabled(s, a)
  {
    var pc := s.pc[a.u];
    match a
    case Cas(u) => if s.val == 0 then Some(u) else owner
    case TryLock(u) => if s.val == 0 then Some(u) else owner
    case Exchange(u) => if s.val == 0 then Some(u) else owner
    case Decrement(_, _, _) => if s.val == 1 then None else owner
    case StoreZero(_) => None
    case PopReceiver(_) => var q := RowOf(s, pc.low, pc.row); if q == [] then owner else Some(q[0])
    case _ => owner
  }

  // ----- every action keeps the invariant -----

  /** A ULT advances without touching the mutex, the table or a row. */
  lemma KeepMove(c: Config, s: State, o: Option<Ult>, u: Ult, pc: Pc)
    requires Inv(c, s, o) && u in s.pc
    requires !s.pc[u].Linking? && !s.pc[u].Queued? && !s.pc[u].Giving? && !s.pc[u].Accepting? && !s.pc[u].Pushing?
    requires !pc.Linking? && !pc.Queued? && !pc.Giving? && !pc.Accepting? && !pc.Pushing?
    requires Owns(s, u) <==> Owns(Move(s, u, pc), u)
    requires s.handover != Some(u) && (pc.Popping? ==> Handovers(s, pc.row) < c.maxHandovers)
    ensures Inv(c, Move(s, u, pc), o)
  {
  }

  /** The oldest ULT of a row is taken out and resumed. */
  function Resume(s: State, low: bool, row: Row): State
    requires RowOf(s, low, row) != []
  {
    var q := RowOf(s, low, row);
    Move(SetRow(s, low, row, q[1..]), q[0], Back(low))
  }

  lemma ResumeKeepsRow(c: Config, s: State, o: Option<Ult>, low: bool, row: Row, k: (bool, Row))
    requires Inv(c, s, o) && RowOf(s, low, row) != []
    ensures RowInv(Resume(s, low, row), k)
  {
  }

  lemma KeepResume(c: Config, s: State, o: Option<Ult>, low: bool, row: Row)
    requires Inv(c, s, o) && RowOf(s, low, row) != []
    ensures RowOf(s, low, row)[0] in s.pc && Inv(c, Resume(s, low, row), o)
  {
    forall k ensures RowInv(Resume(s, low, row), k) {
      ResumeKeepsRow(c, s, o, low, row, k);
    }
  }

  /** A ULT that is neither in a row nor owner blocks at the end of a row. */
  function Block(s: State, u: Ult, low: bool, row: Row): State {
    Move(SetRow(s, low, row, RowOf(s, low, row) + [u]), u, Queued(low, row))
  }

  lemma BlockKeepsRow(c: Config, s: State, o: Option<Ult>, u: Ult, low: bool, row: Row, k: (bool, Row))
    requires Inv(c, s, o) && u in s.pc && s.pc[u].Starting? && (low || row in s.linked)
    ensures RowInv(Block(s, u, low, row), k)
  {
  }

  lemma KeepBlock(c: Config, s: State, o: Option<Ult>, u: Ult, low: bool, row: Row)
    requires Inv(c, s, o) && u in s.pc && s.pc[u].Starting? && (low || row in s.linked)
    ensures Inv(c, Block(s, u, low, row), o)
  {
    forall k ensures RowInv(Block(s, u, low, row), k) {
      BlockKeepsRow(c, s, o, u, low, row, k);
    }
  }

  lemma KeepTableTaken(c: Config, s: State, o: Option<Ult>, u: Ult, low: bool, row: Row)
    requires Inv(c, s, o) && u in s.pc && s.table.None? && s.pc[u].Waiting?
    ensures Inv(c, Move(s, u, Linking(low, row)).(table := Some(u)), o)
  {
  }

  lemma KeepTableFreed(c: Config, s: State, o: Option<Ult>, u: Ult, linked: set<Row>)
    requires Inv(c, s, o) && u in s.pc && s.pc[u].Linking? && s.linked <= linked
    ensures Inv(c, Move(s, u, Starting(s.pc[u].low)).(table := None, linked := linked), o)
  {
  }

  lemma KeepVal(c: Config, s: State, o: Option<Ult>, u: Ult, val: nat)
    requires Inv(c, s, o) && u in s.pc && 1 <= val <= 2
    ensures s.val == 0 && (s.pc[u].Starting? || s.pc[u].Contending? || s.pc[u].Idle?) ==>
      Inv(c, Move(s, u, Holding).(val := val), Some(u))
    ensures s.val != 0 ==> Inv(c, s.(val := val), o)
  {
  }

  lemma KeepRelease(c: Config, s: State, o: Option<Ult>, u: Ult, pc: Pc)
    requires Inv(c, s, o) && u in s.pc && (s.pc[u].Holding? || s.pc[u].Opening? || s.pc[u].Releasing?)
    requires pc.Idle? || pc.Waking?
    ensures Inv(c, Move(s, u, pc).(val := 0), None)
  {
  }

  lemma KeepGive(c: Config, s: State, o: Option<Ult>, u: Ult, v: Ult, row: Row)
    requires Inv(c, s, o) && u in s.pc && v in s.pc && s.pc[u].Popping? && s.pc[u].row == row && s.pc[v].Back?
    ensures Inv(c, Move(s, u, Giving).(handover := Some(v), giver := u,
      handovers := s.handovers[row := Handovers(s, row) + 1]), Some(v))
  {
  }

  /** The receiver of a handover clears p_handover, stores 2 and pushes its giver. */
  lemma KeepAccept(c: Config, s: State, o: Option<Ult>, u: Ult)
    requires Inv(c, s, o) && u in s.pc && s.handover == Some(u)
    ensures Inv(c, Move(s, u, Accepting).(handover := None), o)
  {
  }

  lemma KeepStoreTwo(c: Config, s: State, o: Option<Ult>, u: Ult)
    requires Inv(c, s, o) && u in s.pc && s.pc[u].Accepting?
    ensures Inv(c, Move(s, u, Pushing).(val := 2), o)
  {
  }

  lemma KeepPush(c: Config, s: State, o: Option<Ult>, u: Ult)
    requires Inv(c, s, o) && u in s.pc && s.pc[u].Pushing?
    ensures Inv(c, Move(Move(s, s.giver, Idle), u, Holding), o)
  {
  }

  lemma KeepReset(c: Config, s: State, o: Option<Ult>, row: Row)
    requires Inv(c, s, o)
    ensures Inv(c, s.(handovers := s.handovers[row := 0]), o)
  {
  }

  lemma KeepLinked(c: Config, s: State, o: Option<Ult>, linked: set<Row>)
    requires Inv(c, s, o) && forall r :: r in s.linked ==> r in linked || RowOf(s, false, r) == []
    ensures Inv(c, s.(linked := linked), o)
  {
  }

  // The row actions, as sequences of these moves.
  lemma RowActions(c: Config, s: State, a: Action)
    requires Enabled(s, a) && forall low, row, w :: w in RowOf(s, low, row) ==> w in s.pc && s.pc[w].Queued?
    ensures a.SwitchLow? ==> Do(c, s, a) == Block(Resume(s, true, a.row), a.u, true, a.row)
    ensures a.WakeOne? ==> var t := Resume(s, a.low, a.row);
      Do(c, s, a) == Move(t.(linked := s.linked - a.unlinked), a.u, s.pc[a.u].(n := s.pc[a.u].n - 1))
  {
  }

  lemma LinkAction(c: Config, s: State, u: Ult)
    requires Enabled(s, Link(u))
    ensures var Linking(low, row) := s.pc[u];
      var linked := if low then s.linked else s.linked + {row};
      Do(c, s, Link(u)) == Block(Move(s, u, Starting(low)).(table := None, linked := linked), u, low, row)
  {
  }

  lemma PreserveSwitch(c: Config, s: State, o: Option<Ult>, a: Action)
    requires Inv(c, s, o) && Enabled(s, a) && a.SwitchLow?
    ensures Inv(c, Do(c, s, a), o)
  {
    RowActions(c, s, a);
    KeepResume(c, s, o, true, a.row);
    KeepBlock(c, Resume(s, true, a.row), o, a.u, true, a.row);
  }

  lemma PreserveLink(c: Config, s: State, o: Option<Ult>, u: Ult)
    requires Inv(c, s, o) && Enabled(s, Link(u))
    ensures Inv(c, Do(c, s, Link(u)), o)
  {
    var Linking(low, row) := s.pc[u];
    LinkAction(c, s, u);
    var linked := if low then s.linked else s.linked + {row};
    KeepTableFreed(c, s, o, u, linked);
    KeepBlock(c, Move(s, u, Starting(low)).(table := None, linked := linked), o, u, low, row);
  }

  lemma PreservePop(c: Config, s: State, o: Option<Ult>, u: Ult)
    requires Inv(c, s, o) && Enabled(s, PopReceiver(u))
    ensures Inv(c, Do(c, s, PopReceiver(u)), NextOwner(s, o, PopReceiver(u)))
  {
    var Popping(low, row) := s.pc[u];
    var q := RowOf(s, low, row);
    if q == [] {
      KeepMove(c, s, o, u, Releasing(true, row));
    } else {
      KeepResume(c, s, o, low, row);
      var t := Resume(s, low, row);
      KeepGive(c, t, o, u, q[0], row);
      assert Do(c, s, PopReceiver(u)) == Move(t, u, Giving).(handover := Some(q[0]), giver := u,
        handovers := t.handovers[row := Handovers(t, row) + 1]);
    }
  }

  lemma PreserveWake(c: Config, s: State, o: Option<Ult>, a: Action)
    requires Inv(c, s, o) && Enabled(s, a) && a.WakeOne?
    ensures Inv(c, Do(c, s, a), o)
  {
    RowActions(c, s, a);
    KeepResume(c, s, o, a.low, a.row);
    var t := Resume(s, a.low, a.row);
    KeepLinked(c, t, o, s.linked - a.unlinked);
    KeepMove(c, t.(linked := s.linked - a.unlinked), o, a.u, s.pc[a.u].(n := s.pc[a.u].n - 1));
  }

  lemma PreserveEntry(c: Config, s: State, o: Option<Ult>, a: Action)
    requires Inv(c, s, o) && Enabled(s, a) && (a.Lock? || a.Cas? || a.TryLock? || a.Exchange?)
    ensures Inv(c, Do(c, s, a), NextOwner(s, o, a))
  {
    var u, pc := a.u, s.pc[a.u];
    KeepVal(c, s, o, u, if a.Exchange? then 2 else 1);
    if !a.TryLock? && (a.Lock? || s.val != 0) {
      var t := Move(s, u, if a.Lock? then Starting(a.low) else if a.Cas? && s.val != 2 then Contending(pc.low) else Waiting(pc.low));
      KeepMove(c, s, o, u, t.pc[u]);
      if a.Exchange? {
        KeepVal(c, t, o, u, 2);
      }
    }
  }

  lemma PreserveReturn(c: Config, s: State, o: Option<Ult>, a: Action)
    requires Inv(c, s, o) && Enabled(s, a) && (a.CheckWait? || a.TestHandover? || a.StoreTwo? || a.PushGiver?)
    ensures Inv(c, Do(c, s, a), NextOwner(s, o, a))
  {
    var u, pc := a.u, s.pc[a.u];
    if a.CheckWait? {
      if s.val == 2 {
        KeepTableTaken(c, s, o, u, pc.low, a.row);
      } else {
        KeepMove(c, s, o, u, Back(pc.low));
      }
    } else if a.TestHandover? {
      if s.handover == Some(u) {
        KeepAccept(c, s, o, u);
      } else {
        KeepMove(c, s, o, u, Contending(pc.low));
      }
    } else if a.StoreTwo? {
      KeepStoreTwo(c, s, o, u);
    } else {
      KeepPush(c, s, o, u);
    }
  }

  lemma PreserveRelease(c: Config, s: State, o: Option<Ult>, a: Action)
    requires Inv(c, s, o) && Enabled(s, a) && (a.Decrement? || a.StoreZero?)
    ensures Inv(c, Do(c, s, a), NextOwner(s, o, a))
  {
    if a.StoreZero? || s.val == 1 {
      KeepRelease(c, s, o, a.u, Do(c, s, a).pc[a.u]);
    } else {
      var t := Move(s, a.u, Releasing(a.se, a.row));
      KeepMove(c, s, o, a.u, t.pc[a.u]);
      KeepVal(c, t, o, a.u, 1);
    }
  }

  lemma PreserveLocal(c: Config, s: State, o: Option<Ult>, a: Action)
    requires Inv(c, s, o) && Enabled(s, a) && (a.Decide? || a.WakeNone?)
    ensures Inv(c, Do(c, s, a), o)
  {
    KeepMove(c, s, o, a.u, Do(c, s, a).pc[a.u]);
  }

  lemma PreserveEndWake(c: Config, s: State, o: Option<Ult>, a: Action)
    requires Inv(c, s, o) && Enabled(s, a) && a.EndWake?
    ensures Inv(c, Do(c, s, a), o)
  {
    var pc := Do(c, s, a).pc[a.u];
    KeepMove(c, s, o, a.u, pc);
    KeepReset(c, Move(s, a.u, pc), o, s.pc[a.u].row);
  }

  lemma Preserve(c: Config, s: State, o: Option<Ult>, a: Action)
    requires Inv(c, s, o) && Enabled(s, a)
    ensures Inv(c, Do(c, s, a), NextOwner(s, o, a))
  {
    match a
    case SwitchLow(_, _) => PreserveSwitch(c, s, o, a);
    case Link(u) => PreserveLink(c, s, o, u);
    case PopReceiver(u) => PreservePop(c, s, o, u);
    case WakeOne(_, _, _, _) => PreserveWake(c, s, o, a);
    case Lock(_, _) => PreserveEntry(c, s, o, a);
    case Cas(_) => PreserveEntry(c, s, o, a);
    case TryLock(_) => PreserveEntry(c, s, o, a);
    case Exchange(_) => PreserveEntry(c, s, o, a);
    case CheckWait(_, _) => PreserveReturn(c, s, o, a);
    case TestHandover(_) => PreserveReturn(c, s, o, a);
    case StoreTwo(_) => PreserveReturn(c, s, o, a);
    case PushGiver(_) => PreserveReturn(c, s, o, a);
    case Decrement(_, _, _) => PreserveRelease(c, s, o, a);
    case StoreZero(_) => PreserveRelease(c, s, o, a);
    case EndWake(_) => PreserveEndWake(c, s, o, a);
    case _ => PreserveLocal(c, s, o, a);
  }

  /** The actions that take a ULT out of a row. */
  predicate Resumes(s: State, a: Action)
    requires Enabled(s, a)
  {
    a.SwitchLow? || a.WakeOne? || (a.PopReceiver? && RowOf(s, s.pc[a.u].low, s.pc[a.u].row) != [])
  }

  lemma OthersStay(c: Config, s: State, a: Action, w: Ult)
    requires Enabled(s, a) && w in s.pc && w != a.u && !Resumes(s, a)
    ensures var t := Do(c, s, a);
      w in t.pc && (t.pc[w] == s.pc[w] || (a.PushGiver? && w == s.giver))
  {
  }

  /** A row action that takes a ULT out resumes it. */
  lemma ResumedIsPending(c: Config, s: State, o: Option<Ult>, a: Action)
    requires Inv(c, s, o) && Enabled(s, a) && Resumes(s, a)
    ensures SomePending(Do(c, s, a))
  {
    var q := if a.PopReceiver? then RowOf(s, s.pc[a.u].low, s.pc[a.u].row) else
      RowOf(s, a.SwitchLow? || a.low, a.row);
    assert Do(c, s, a).pc[q[0]].Back?;
  }

  /** A pending ULT acts only by storing 2, passing on its duty, or finding nobody to wake. */
  lemma ActorPending(c: Config, s: State, a: Action)
    requires Enabled(s, a) && c.maxWakeups >= 1 && Pending(s.pc[a.u]) && !Resumes(s, a)
    ensures var t := Do(c, s, a);
      a.u in t.pc && (Pending(t.pc[a.u]) || t.val == 2 || (Empty(t) && t.table.None?))
  {
  }

  lemma PreserveCovered(c: Config, s: State, o: Option<Ult>, a: Action)
    requires Inv(c, s, o) && Covered(s) && Enabled(s, a) && c.maxWakeups >= 1
    ensures Covered(Do(c, s, a))
  {
    var t := Do(c, s, a);
    if Resumes(s, a) {
      ResumedIsPending(c, s, o, a);
    } else if Pending(s.pc[a.u]) {
      ActorPending(c, s, a);
    } else if SomePending(s) {
      var w :| w in s.pc && Pending(s.pc[w]);
      OthersStay(c, s, a, w);
      assert Pending(t.pc[w]);
    } else {
      Unprompted(c, s, o, a);
    }
  }

  /** Nobody starts to wait while val is not 2, and val leaves 2 only with a releaser. */
  lemma Unprompted(c: Config, s: State, o: Option<Ult>, a: Action)
    requires Inv(c, s, o) && Covered(s) && Enabled(s, a) && !Pending(s.pc[a.u]) && !a.SwitchLow?
    requires !SomePending(s)
    ensures Covered(Do(c, s, a))
  {
    var t := Do(c, s, a);
    assert a.u in t.pc;
    assert Pending(t.pc[a.u]) || t.val == 2 || t.val == s.val || s.val != 2;
  }

  // ----- whole runs -----

  ghost predicate Init(s: State) {
    && s.val == 0 && (forall u :: u in s.pc ==> s.pc[u].Idle?)
    && s.rows == map[] && s.linked == {} && s.handovers == map[] && s.handover.None? && s.table.None?
  }

  /** Any interleaving of any number of ULTs. */
  function Run(c: Config, s: State, acts: seq<Action>): Option<State> {
    if acts == [] then Some(s)
    else
      match Run(c, s, acts[..|acts| - 1])
      case None => None
      case Some(t) => if Enabled(t, acts[|acts| - 1]) then Some(Do(c, t, acts[|acts| - 1])) else None
  }

  lemma {:induction false} RunKeeps(c: Config, s: State, acts: seq<Action>) returns (o: Option<Ult>)
    requires Init(s) && Run(c, s, acts).Some?
    ensures Inv(c, Run(c, s, acts).value, o)
    ensures c.maxWakeups >= 1 ==> Covered(Run(c, s, acts).value)
  {
    if acts == [] {
      o := None;
    } else {
      var p, a := acts[..|acts| - 1], acts[|acts| - 1];
      var o' := RunKeeps(c, s, p);
      var t := Run(c, s, p).value;
      Preserve(c, t, o', a);
      if c.maxWakeups >= 1 {
        PreserveCovered(c, t, o', a);
      }
      o := NextOwner(t, o', a);
    }
  }

  /** At most one ULT is in the critical section, the mutex is free exactly when nobody has it, and
      num_handovers stays in its bounds. A giver in no pool is always owed a push by a receiver on its way. */
  lemma MutualExclusion(c: Config, s: State, acts: seq<Action>)
    requires Init(s) && Run(c, s, acts).Some?
    ensures var t := Run(c, s, acts).value;
      && (forall u, v :: u in t.pc && v in t.pc && Owns(t, u) && Owns(t, v) ==> u == v)
      && (t.val != 0 <==> exists u :: u in t.pc && Owns(t, u))
      && (forall r :: Handovers(t, r) <= c.maxHandovers)
      && (forall g :: g in t.pc && t.pc[g].Giving? ==>
        g == t.giver && exists u :: u in t.pc && (t.handover == Some(u) || t.pc[u].Accepting? || t.pc[u].Pushing?))
  {
    var o := RunKeeps(c, s, acts);
  }

  // ----- handovers between full releases -----

  /** How often a receiver was taken from row r since an `unlock_se` on r last stored 0. */
  function HandoversMade(c: Config, s: State, acts: seq<Action>, r: Row): nat
    requires Run(c, s, acts).Some?
  {
    if acts == [] then 0
    else
      var before, a := acts[..|acts| - 1], acts[|acts| - 1];
      Made(Run(c, s, before).value, a, r, HandoversMade(c, s, before, r))
  }

  /** The count after one more action. */
  function Made(s: State, a: Action, r: Row, n: nat): nat
    requires Enabled(s, a)
  {
    var pc := s.pc[a.u];
    if a.StoreZero? && pc.Opening? && pc.row == r then 0
    else if a.PopReceiver? && pc.row == r && RowOf(s, pc.low, r) != [] then n + 1
    else n
  }

  ghost predicate AloneAtWork(s: State, r: Row) {
    forall u, v :: u in s.pc && v in s.pc && AtWork(s.pc[u], r) && AtWork(s.pc[v], r) ==> u == v
  }

  /** num_handovers is never below the count, and nothing is counted between a full release and its reset. */
  ghost predicate RowCount(s: State, r: Row, n: nat) {
    && AloneAtWork(s, r) && n <= Handovers(s, r)
    && forall u :: u in s.pc && s.pc[u].Waking? && AtWork(s.pc[u], r) ==> n == 0
  }

  lemma WorkFrom(c: Config, s: State, a: Action, r: Row, w: Ult)
    requires Enabled(s, a) && w in Do(c, s, a).pc && AtWork(Do(c, s, a).pc[w], r)
    ensures w in s.pc && (AtWork(s.pc[w], r) || (a.Decrement? && a.se && a.row == r && a.u == w))
    ensures Do(c, s, a).pc[w].Waking? ==>
      (s.pc[w].Waking? && AtWork(s.pc[w], r)) || (a.StoreZero? && a.u == w && s.pc[w].Opening? && s.pc[w].row == r)
  {
  }

  lemma CountStep(c: Config, s: State, a: Action, r: Row, n: nat)
    requires RowCount(s, r, n) && Enabled(s, a)
    ensures RowCount(Do(c, s, a), r, Made(s, a, r, n))
  {
    var t := Do(c, s, a);
    forall u, v | u in t.pc && v in t.pc && AtWork(t.pc[u], r) && AtWork(t.pc[v], r) ensures u == v {
      WorkFrom(c, s, a, r, u);
      WorkFrom(c, s, a, r, v);
    }
    forall u | u in t.pc && t.pc[u].Waking? && AtWork(t.pc[u], r) ensures Made(s, a, r, n) == 0 {
      WorkFrom(c, s, a, r, u);
    }
  }

  lemma {:induction false} RunCounts(c: Config, s: State, acts: seq<Action>, r: Row)
    requires Init(s) && Run(c, s, acts).Some?
    ensures RowCount(Run(c, s, acts).value, r, HandoversMade(c, s, acts, r))
  {
    if acts != [] {
      var p, a := acts[..|acts| - 1], acts[|acts| - 1];
      RunCounts(c, s, p, r);
      CountStep(c, Run(c, s, p).value, a, r, HandoversMade(c, s, p, r));
    }
  }

  /** Between two full releases by `unlock_se` on a row, the row hands over at most max_handovers times. */
  lemma HandoverBound(c: Config, s: State, acts: seq<Action>, r: Row)
    requires Init(s) && Run(c, s, acts).Some?
    ensures HandoversMade(c, s, acts, r) <= c.maxHandovers
  {
    RunCounts(c, s, acts, r);
    MutualExclusion(c, s, acts);
    assert Handovers(Run(c, s, acts).value, r) <= c.maxHandovers;
  }

  // ----- waiters -----

  /** Whenever a ULT is blocked in a row, the mutex is held with value 2, a releaser or a handover is in
      progress, or a woken contender is still to run its exchange. */
  lemma NoStrandedWaiter(c: Config, s: State, acts: seq<Action>, w: Ult)
    requires Init(s) && Run(c, s, acts).Some? && c.maxWakeups >= 1
    requires w in Run(c, s, acts).value.pc && Run(c, s, acts).value.pc[w].Queued?
    ensures var t := Run(c, s, acts).value;
      (t.val == 2 && exists u :: u in t.pc && Owns(t, u)) || SomePending(t)
  {
    var o := RunKeeps(c, s, acts);
    var t := Run(c, s, acts).value;
    assert w in RowOf(t, t.pc[w].low, t.pc[w].row);
  }

  /** A ULT that is inside lock or unlock and neither blocked nor waiting for its turn to enter. */
  predicate Working(pc: Pc) {
    Pending(pc) || pc.Pushing? || pc.Linking?
  }

  /** A working ULT can take its next step, or the holder of the table lock can. */
  lemma WorkerCanStep(c: Config, s: State, o: Option<Ult>, u: Ult) returns (a: Action)
    requires Inv(c, s, o) && u in s.pc && Working(s.pc[u])
    ensures Enabled(s, a) && Working(s.pc[a.u])
  {
    match s.pc[u]
    case Contending(_) => a := Exchange(u);
    case Linking(_, _) => a := Link(u);
    case Back(_) => a := TestHandover(u);
    case Accepting => a := StoreTwo(u);
    case Pushing => a := PushGiver(u);
    case Releasing(se, _) => a := if se then Decide(u) else StoreZero(u);
    case Popping(_, _) => a := PopReceiver(u);
    case Opening(_, _) => a := StoreZero(u);
    case Waking(_, _, _) =>
      if s.table.Some? {
        a := Link(s.table.value);
      } else if k :| k in s.rows && !k.0 && s.rows[k] != [] {
        a := WakeOne(u, false, k.1, {});
      } else if k :| k in s.rows && s.rows[k] != [] {
        a := WakeOne(u, true, k.1, s.linked);
      } else {
        a := WakeNone(u);
      }
  }

  /** So the protocol never deadlocks: while a ULT is blocked, either some ULT is in the critical
      section or some ULT inside lock or unlock can step. */
  lemma WaiterHasHelp(c: Config, s: State, acts: seq<Action>, w: Ult)
    requires Init(s) && Run(c, s, acts).Some? && c.maxWakeups >= 1
    requires w in Run(c, s, acts).value.pc && Run(c, s, acts).value.pc[w].Queued?
    ensures var t := Run(c, s, acts).value;
      (exists u :: u in t.pc && t.pc[u].Holding?) || (exists a :: Enabled(t, a) && Working(t.pc[a.u]))
  {
    var o := RunKeeps(c, s, acts);
    NoStrandedWaiter(c, s, acts, w);
    var t := Run(c, s, acts).value;
    if t.val == 2 && o.Some? {
      var u := o.value;
      if !t.pc[u].Holding? {
        var a := WorkerCanStep(c, t, o, u);
      }
    } else {
      var u :| u in t.pc && Pending(t.pc[u]);
      var a := WorkerCanStep(c, t, o, u);
    }
  }

  lemma Extend(c: Config, s: State, acts: seq<Action>, t: State, a: Action) returns (acts': seq<Action>, t': State)
    requires Run(c, s, acts) == Some(t) && Enabled(t, a)
    ensures t' == Do(c, t, a) && Run(c, s, acts') == Some(t')
  {
    acts', t' := acts + [a], Do(c, t, a);
    assert acts'[..|acts'| - 1] == acts;
  }

  /** A run in which one ULT holds the mutex and another waits for it. */
  lemma OneWaiter(c: Config) returns (s: State, acts: seq<Action>, t: State)
    ensures Init(s) && Run(c, s, acts) == Some(t)
    ensures t.val == 2 && t.pc.Keys == {0, 1} && t.pc[0].Holding? && t.pc[1].Queued?
  {
    s, acts := State(0, map[0 := Idle, 1 := Idle], map[], {}, map[], None, 0, None), [];
    t := s;
    acts, t := Extend(c, s, acts, t, Lock(0, false));
    acts, t := Extend(c, s, acts, t, Cas(0));
    acts, t := Extend(c, s, acts, t, Lock(1, false));
    acts, t := Extend(c, s, acts, t, Cas(1));
    acts, t := Extend(c, s, acts, t, Exchange(1));
    acts, t := Extend(c, s, acts, t, CheckWait(1, 0));
    acts, t := Extend(c, s, acts, t, Link(1));
  }

  /** max_wakeups must be at least 1: with 0, an unlock leaves a blocked ULT behind and nobody to help it. */
  lemma StrandedWithoutWakeups(c: Config) returns (s: State, acts: seq<Action>)
    requires c.maxWakeups == 0
    ensures Init(s) && Run(c, s, acts).Some?
    ensures var t := Run(c, s, acts).value;
      1 in t.pc && t.pc[1].Queued? && t.val == 0 && forall u :: u in t.pc && u != 1 ==> t.pc[u].Idle?
  {
    var t: State;
    s, acts, t := OneWaiter(c);
    acts, t := Extend(c, s, acts, t, Decrement(0, 0, false));
    acts, t := Extend(c, s, acts, t, StoreZero(0));
    acts, t := Extend(c, s, acts, t, EndWake(0));
  }
}
