/** The table of waiters of a mutex: one row per ES with a queue of high and one of low priority, and two
    circular lists of the rows that may hold waiters. And the wake-up of waiters when nobody interferes. */
module WaiterTable {
  import opened Basics

  type Row = nat
  type Ult = nat

  /** One priority: the circular list of linked rows, from its head on, and the queues. */
  datatype Side = Side(list: seq<Row>, rows: seq<seq<Ult>>)

  /** add_h_node, add_l_node: a row goes to the end of the list unless it is linked. */
  function Linked(s: Side, r: Row): Side {
    if r in s.list then s else s.(list := s.list + [r])
  }

  function Pushed(s: Side, r: Row, u: Ult): Side
    requires r < |s.rows|
  {
    s.(rows := s.rows[r := s.rows[r] + [u]])
  }

  /** The head of the list after one look: an empty row is unlinked, a row that keeps waiters goes last. */
  function Turned(s: Side): Side
    requires s.list != [] && s.list[0] < |s.rows|
  {
    if s.rows[s.list[0]] == [] then s.(list := s.list[1..]) else s.(list := s.list[1..] + [s.list[0]])
  }

  function Popped(s: Side, r: Row): Side
    requires r < |s.rows| && s.rows[r] != []
  {
    s.(rows := s.rows[r := s.rows[r][1..]])
  }

  predicate InRange(s: Side) {
    forall i :: 0 <= i < |s.list| ==> s.list[i] < |s.rows|
  }

  datatype Woken = Woken(row: Row, u: Ult)

  /** Who is woken next, and what is left. */
  function Next(s: Side): (Option<Woken>, Side)
    requires InRange(s)
    decreases |s.list|
  {
    if s.list == [] then (None, s)
    else
      var r := s.list[0];
      if s.rows[r] == [] then Next(Turned(s)) else (Some(Woken(r, s.rows[r][0])), Turned(Popped(s, r)))
  }

  /** The list has each row once, and every row with waiters. */
  ghost predicate SideInv(s: Side) {
    && InRange(s)
    && (forall i, j :: 0 <= i < j < |s.list| ==> s.list[i] != s.list[j])
    && (forall r :: 0 <= r < |s.rows| && s.rows[r] != [] ==> r in s.list)
  }

  function Size(rows: seq<seq<Ult>>): nat {
    if rows == [] then 0 else |rows[0]| + Size(rows[1..])
  }

  lemma {:induction false} SizeUpdate(rows: seq<seq<Ult>>, r: Row, q: seq<Ult>)
    requires r < |rows|
    ensures Size(rows[r := q]) == Size(rows) - |rows[r]| + |q|
  {
    if r == 0 {
      assert rows[r := q][1..] == rows[1..];
    } else {
      SizeUpdate(rows[1..], r - 1, q);
      assert rows[r := q][1..] == rows[1..][r - 1 := q];
    }
  }

  lemma {:induction false} SizeZero(rows: seq<seq<Ult>>)
    ensures Size(rows) == 0 <==> forall r :: 0 <= r < |rows| ==> rows[r] == []
  {
    if rows != [] {
      SizeZero(rows[1..]);
      assert forall r :: 0 < r < |rows| ==> rows[r] == rows[1..][r - 1];
    }
  }

  lemma TurnedInv(s: Side)
    requires SideInv(s) && s.list != []
    ensures SideInv(Turned(s)) && Turned(s).rows == s.rows
  {
    forall r | 0 <= r < |s.rows| && s.rows[r] != [] ensures r in Turned(s).list {
      assert r in s.list;
      var i :| 0 <= i < |s.list| && s.list[i] == r;
      if i > 0 {
        assert s.list[1..][i - 1] == r;
      }
    }
  }

  /** The invariant holds after a wake-up although it may find empty rows; it finds nobody only when there
      is nobody, and one waiter less is left otherwise. */
  lemma {:induction false} NextKeeps(s: Side)
    requires SideInv(s)
    ensures InRange(s) && SideInv(Next(s).1) && |Next(s).1.rows| == |s.rows|
    ensures Next(s).0.None? <==> Size(s.rows) == 0
    ensures Size(Next(s).1.rows) == if Next(s).0.Some? then Size(s.rows) - 1 else Size(s.rows)
    decreases |s.list|
  {
    if s.list == [] {
      SizeZero(s.rows);
    } else {
      var r := s.list[0];
      if s.rows[r] == [] {
        TurnedInv(s);
        NextKeeps(Turned(s));
      } else {
        SizeUpdate(s.rows, r, s.rows[r][1..]);
        assert SideInv(Popped(s, r));
        TurnedInv(Popped(s, r));
      }
    }
  }

  // ----- several wake-ups -----

  /** Whom k wake-ups of one priority ready, in order, and what they leave. */
  function WakeSide(s: Side, k: nat): (seq<Woken>, Side)
    requires SideInv(s)
    decreases k
  {
    NextKeeps(s);
    if k == 0 || Next(s).0.None? then ([], s)
    else
      var (rest, s') := WakeSide(Next(s).1, k - 1);
      ([Next(s).0.value] + rest, s')
  }

  lemma {:induction false} WakeSideCount(s: Side, k: nat)
    requires SideInv(s)
    ensures SideInv(WakeSide(s, k).1) && |WakeSide(s, k).1.rows| == |s.rows|
    ensures |WakeSide(s, k).0| == if k < Size(s.rows) then k else Size(s.rows)
    ensures Size(WakeSide(s, k).1.rows) == Size(s.rows) - |WakeSide(s, k).0|
    decreases k
  {
    NextKeeps(s);
    if k > 0 && Next(s).0.Some? {
      WakeSideCount(Next(s).1, k - 1);
    }
  }

  function OfRow(ws: seq<Woken>, r: Row): seq<Ult> {
    if ws == [] then []
    else (if ws[0].row == r then [ws[0].u] else []) + OfRow(ws[1..], r)
  }

  lemma {:induction false} NextTakesFirst(s: Side, r: Row)
    requires SideInv(s) && r < |s.rows|
    ensures r < |Next(s).1.rows|
    ensures s.rows[r] == (if Next(s).0.Some? && Next(s).0.value.row == r then [Next(s).0.value.u] else []) + Next(s).1.rows[r]
    decreases |s.list|
  {
    if s.list != [] && s.rows[s.list[0]] == [] {
      TurnedInv(s);
      NextTakesFirst(Turned(s), r);
    }
  }

  lemma WakeSideCons(s: Side, k: nat)
    requires SideInv(s) && k > 0 && Next(s).0.Some?
    ensures SideInv(Next(s).1)
    ensures WakeSide(s, k).0 == [Next(s).0.value] + WakeSide(Next(s).1, k - 1).0
    ensures WakeSide(s, k).1 == WakeSide(Next(s).1, k - 1).1
  {
    NextKeeps(s);
  }

  lemma OfRowCons(w: Woken, ws: seq<Woken>, r: Row)
    ensures OfRow([w] + ws, r) == (if w.row == r then [w.u] else []) + OfRow(ws, r)
  {
    assert ([w] + ws)[1..] == ws;
  }

  lemma Prepended(w: Woken, ws: seq<Woken>, r: Row, before: seq<Ult>, after: seq<Ult>, left: seq<Ult>)
    requires before == (if w.row == r then [w.u] else []) + after && after == OfRow(ws, r) + left
    ensures before == OfRow([w] + ws, r) + left
  {
    OfRowCons(w, ws, r);
  }

  /** First in, first out within a row, and nobody is lost or repeated: what a row held is what it gave, in
      order, followed by what it still holds. */
  lemma {:induction false} FirstInFirstOut(s: Side, k: nat, r: Row)
    requires SideInv(s) && r < |s.rows|
    ensures r < |WakeSide(s, k).1.rows|
    ensures s.rows[r] == OfRow(WakeSide(s, k).0, r) + WakeSide(s, k).1.rows[r]
    decreases k
  {
    if k > 0 && Next(s).0.Some? {
      WakeSideCons(s, k);
      NextTakesFirst(s, r);
      FirstInFirstOut(Next(s).1, k - 1, r);
      var (rest, left) := WakeSide(Next(s).1, k - 1);
      Prepended(Next(s).0.value, rest, r, s.rows[r], Next(s).1.rows[r], left.rows[r]);
    }
  }

  /** One wake-up serves a row or brings it at least one place nearer to the head. */
  lemma {:induction false} NextNearer(s: Side, i: nat) returns (i': nat)
    requires SideInv(s) && i < |s.list| && s.rows[s.list[i]] != []
    ensures Next(s).0.Some?
    ensures Next(s).0.value.row != s.list[i] ==>
      i' < i && i' < |Next(s).1.list| && Next(s).1.list[i'] == s.list[i] &&
      s.list[i] < |Next(s).1.rows| && Next(s).1.rows[s.list[i]] == s.rows[s.list[i]]
    decreases |s.list|
  {
    if s.rows[s.list[0]] == [] {
      TurnedInv(s);
      i' := NextNearer(Turned(s), i - 1);
    } else {
      i' := if i == 0 then 0 else i - 1;
    }
  }

  lemma WakeSideNone(s: Side, k: nat)
    requires SideInv(s) && (k == 0 || Size(s.rows) == 0)
    ensures WakeSide(s, k).0 == []
  {
    NextKeeps(s);
  }

  /** Round robin: a row with waiters at place i of the list is served by one of the next i + 1 wake-ups. */
  lemma {:induction false} RoundRobin(s: Side, i: nat, k: nat)
    requires SideInv(s) && i < |s.list| && s.rows[s.list[i]] != [] && k > i
    ensures exists j :: 0 <= j <= i && j < |WakeSide(s, k).0| && WakeSide(s, k).0[j].row == s.list[i]
    decreases k
  {
    var i' := NextNearer(s, i);
    WakeSideCons(s, k);
    var all := WakeSide(s, k).0;
    if Next(s).0.value.row == s.list[i] {
      assert all[0].row == s.list[i];
    } else {
      RoundRobin(Next(s).1, i', k - 1);
      var rest := WakeSide(Next(s).1, k - 1).0;
      var j :| 0 <= j <= i' && j < |rest| && rest[j].row == s.list[i];
      assert all[j + 1] == rest[j];
    }
  }

  // ----- both priorities -----

  datatype Table = Table(high: Side, low: Side)

  ghost predicate TableInv(t: Table) {
    SideInv(t.high) && SideInv(t.low)
  }

  function Total(t: Table): nat {
    Size(t.high.rows) + Size(t.low.rows)
  }

  /** One round of wake_de: the high-priority list first. */
  function NextOf(t: Table): (Option<Woken>, Table)
    requires InRange(t.high) && InRange(t.low)
  {
    var (u, h) := Next(t.high);
    if u.Some? then (u, t.(high := h))
    else
      var (v, l) := Next(t.low);
      (v, Table(h, l))
  }

  /** What wake_de readies, in order, and what it leaves. */
  function Wake(t: Table, n: nat): (seq<Woken>, Table)
    requires TableInv(t)
    decreases n
  {
    NextOfKeeps(t);
    if n == 0 || Total(t) == 0 then ([], t)
    else
      var (u, t') := NextOf(t);
      var (rest, t'') := Wake(t', n - 1);
      ([u.value] + rest, t'')
  }

  lemma NextOfKeeps(t: Table)
    requires TableInv(t)
    ensures TableInv(NextOf(t).1) && (NextOf(t).0.None? <==> Total(t) == 0)
    ensures Total(NextOf(t).1) == if NextOf(t).0.Some? then Total(t) - 1 else Total(t)
  {
    NextKeeps(t.high);
    NextKeeps(t.low);
  }

  /** wake_de readies exactly min(n, queued) waiters and keeps every row with waiters linked. */
  lemma {:induction false} WakeCount(t: Table, n: nat)
    requires TableInv(t)
    ensures TableInv(Wake(t, n).1)
    ensures |Wake(t, n).0| == if n < Total(t) then n else Total(t)
    ensures Total(Wake(t, n).1) == Total(t) - |Wake(t, n).0|
    decreases n
  {
    NextOfKeeps(t);
    if n > 0 && Total(t) > 0 {
      WakeCount(NextOf(t).1, n - 1);
    }
  }

  /** Looking into a list without waiters only unlinks rows: it makes no difference to later wake-ups. */
  lemma {:induction false} EmptyLook(s: Side)
    requires SideInv(s) && Size(s.rows) == 0
    ensures Next(s).0.None? && SideInv(Next(s).1) && Next(s).1.rows == s.rows
    decreases |s.list|
  {
    NextKeeps(s);
    if s.list != [] {
      SizeZero(s.rows);
      TurnedInv(s);
      EmptyLook(Turned(s));
    }
  }

  /** How many of n wake-ups are left for the low priority. */
  function LowShare(t: Table, n: nat): nat {
    if n < Size(t.high.rows) then 0 else n - Size(t.high.rows)
  }

  lemma WakeCons(t: Table, n: nat)
    requires TableInv(t) && n > 0 && Total(t) > 0
    ensures TableInv(NextOf(t).1) && NextOf(t).0.Some?
    ensures Wake(t, n).0 == [NextOf(t).0.value] + Wake(NextOf(t).1, n - 1).0
    ensures Wake(t, n).1 == Wake(NextOf(t).1, n - 1).1
  {
    NextOfKeeps(t);
  }

  /** A round serves the high priority while it has waiters, and leaves the low one alone. */
  lemma HighRound(t: Table, n: nat)
    requires TableInv(t) && n > 0 && Size(t.high.rows) > 0
    ensures TableInv(NextOf(t).1) && NextOf(t).1.low == t.low && LowShare(NextOf(t).1, n - 1) == LowShare(t, n)
    ensures NextOf(t).0.Some?
    ensures WakeSide(t.high, n).0 == [NextOf(t).0.value] + WakeSide(NextOf(t).1.high, n - 1).0
  {
    NextOfKeeps(t);
    NextKeeps(t.high);
    WakeSideCons(t.high, n);
  }

  lemma LowRound(t: Table, n: nat)
    requires TableInv(t) && n > 0 && Size(t.high.rows) == 0 && Total(t) > 0
    ensures TableInv(NextOf(t).1) && LowShare(t, n) == n && LowShare(NextOf(t).1, n - 1) == n - 1
    ensures WakeSide(t.high, n).0 == [] == WakeSide(NextOf(t).1.high, n - 1).0
    ensures NextOf(t).0.Some?
    ensures WakeSide(t.low, n).0 == [NextOf(t).0.value] + WakeSide(NextOf(t).1.low, n - 1).0
  {
    NextOfKeeps(t);
    EmptyLook(t.high);
    NextKeeps(t.low);
    WakeSideNone(t.high, n);
    WakeSideNone(NextOf(t).1.high, n - 1);
    WakeSideCons(t.low, n);
  }

  /** Whom n wake-ups ready if every high-priority waiter comes before any of low priority. */
  function HighThenLow(t: Table, n: nat): seq<Woken>
    requires TableInv(t)
  {
    WakeSide(t.high, n).0 + WakeSide(t.low, LowShare(t, n)).0
  }

  lemma Regroup(w: Woken, a: seq<Woken>, b: seq<Woken>)
    ensures ([w] + a) + b == [w] + (a + b)
  {
  }

  lemma HighThenLowCons(t: Table, n: nat)
    requires TableInv(t) && n > 0 && Total(t) > 0
    ensures TableInv(NextOf(t).1) && NextOf(t).0.Some?
    ensures HighThenLow(t, n) == [NextOf(t).0.value] + HighThenLow(NextOf(t).1, n - 1)
  {
    NextOfKeeps(t);
    if Size(t.high.rows) > 0 {
      HighRound(t, n);
      Regroup(NextOf(t).0.value, WakeSide(NextOf(t).1.high, n - 1).0, WakeSide(t.low, LowShare(t, n)).0);
    } else {
      LowRound(t, n);
    }
  }

  /** wake_de readies every high-priority waiter before any of low priority. */
  lemma {:induction false} HighBeforeLow(t: Table, n: nat)
    requires TableInv(t)
    ensures Wake(t, n).0 == HighThenLow(t, n)
    decreases n
  {
    if n == 0 || Total(t) == 0 {
      WakeSideNone(t.high, n);
      WakeSideNone(t.low, LowShare(t, n));
    } else {
      WakeCons(t, n);
      HighThenLowCons(t, n);
      HighBeforeLow(NextOf(t).1, n - 1);
    }
  }

  lemma WakeAppend(woken: seq<Woken>, t: Table, n: nat)
    requires TableInv(t) && n > 0 && Total(t) > 0
    ensures TableInv(NextOf(t).1) && NextOf(t).0.Some?
    ensures woken + Wake(t, n).0 == woken + [NextOf(t).0.value] + Wake(NextOf(t).1, n - 1).0
    ensures Wake(t, n).1 == Wake(NextOf(t).1, n - 1).1
  {
    WakeCons(t, n);
  }

  lemma WakeEnd(woken: seq<Woken>, t: Table, n: nat)
    requires TableInv(t) && (n == 0 || Total(t) == 0)
    ensures woken + Wake(t, n).0 == woken && Wake(t, n).1 == t
  {
    NextOfKeeps(t);
  }

  lemma HighRoundLeaves(t: Table, n: nat)
    requires TableInv(t) && n > 0 && Size(t.high.rows) > 0
    ensures TableInv(NextOf(t).1) && WakeSide(t.high, n).1 == WakeSide(NextOf(t).1.high, n - 1).1
  {
    NextOfKeeps(t);
    NextKeeps(t.high);
    WakeSideCons(t.high, n);
  }

  lemma LowRoundLeaves(t: Table, n: nat)
    requires TableInv(t) && n > 0 && Size(t.high.rows) == 0 && Total(t) > 0
    ensures TableInv(NextOf(t).1) && WakeSide(t.low, n).1 == WakeSide(NextOf(t).1.low, n - 1).1
    ensures WakeSide(NextOf(t).1.high, n - 1).1.rows == t.high.rows == WakeSide(t.high, n).1.rows
  {
    NextOfKeeps(t);
    EmptyLook(t.high);
    EmptyLook(NextOf(t).1.high);
    NextKeeps(t.low);
    WakeSideCons(t.low, n);
  }

  /** What wake_de leaves in the rows: each priority loses its share, and nothing else. */
  lemma {:induction false} WakeLeaves(t: Table, n: nat)
    requires TableInv(t)
    ensures Wake(t, n).1.high.rows == WakeSide(t.high, n).1.rows
    ensures Wake(t, n).1.low.rows == WakeSide(t.low, LowShare(t, n)).1.rows
    decreases n
  {
    if n == 0 || Total(t) == 0 {
      WakeEnd([], t, n);
      NextKeeps(t.high);
      NextKeeps(t.low);
    } else {
      WakeCons(t, n);
      WakeLeaves(NextOf(t).1, n - 1);
      if Size(t.high.rows) > 0 {
        HighRound(t, n);
        HighRoundLeaves(t, n);
      } else {
        LowRound(t, n);
        LowRoundLeaves(t, n);
      }
    }
  }

  // ----- any sequence of calls -----

  datatype Call = Push(low: bool, r: Row, u: Ult) | HandOut(low: bool, r: Row) | WakeUp(max: nat)

  /** A table with a fixed number of rows. */
  ghost predicate TableOf(n: nat, t: Table) {
    TableInv(t) && |t.high.rows| == |t.low.rows| == n
  }

  predicate InTable(n: nat, o: Call) {
    o.WakeUp? || o.r < n
  }

  function SideOf(t: Table, low: bool): Side {
    if low then t.low else t.high
  }

  function WithSide(t: Table, low: bool, s: Side): Table {
    if low then t.(low := s) else t.(high := s)
  }

  function TableStep(n: nat, t: Table, o: Call): Table
    requires TableOf(n, t) && InTable(n, o)
  {
    match o
    case Push(low, r, u) => WithSide(t, low, Pushed(Linked(SideOf(t, low), r), r, u))
    case HandOut(low, r) => if SideOf(t, low).rows[r] == [] then t else WithSide(t, low, Popped(SideOf(t, low), r))
    case WakeUp(max) => Wake(t, max).1
  }

  lemma StepTable(n: nat, t: Table, o: Call)
    requires TableOf(n, t) && InTable(n, o)
    ensures TableOf(n, TableStep(n, t, o))
  {
    if o.WakeUp? {
      WakeCount(t, o.max);
      WakeLeaves(t, o.max);
      WakeSideCount(t.high, o.max);
      WakeSideCount(t.low, LowShare(t, o.max));
    }
  }

  /** The waiters a call takes out of a row, in order. Those that a wake-up takes from high rows come first. */
  function TakenBy(n: nat, t: Table, o: Call, low: bool, r: Row): seq<Ult>
    requires TableOf(n, t) && InTable(n, o) && r < n
  {
    match o
    case Push(_, _, _) => []
    case HandOut(l, q) => if l == low && q == r && SideOf(t, l).rows[r] != [] then [SideOf(t, l).rows[r][0]] else []
    case WakeUp(max) =>
      WakeCount(t, max);
      var woken := Wake(t, max).0;
      var k := if max < Size(t.high.rows) then max else Size(t.high.rows);
      OfRow(if low then woken[k..] else woken[..k], r)
  }

  /** The table after some calls on an empty one. */
  function TableAfter(n: nat, ops: seq<Call>): (t: Table)
    requires forall o :: o in ops ==> InTable(n, o)
    ensures TableOf(n, t)
  {
    if ops == [] then Table(Side([], seq(n, i => [])), Side([], seq(n, i => [])))
    else
      var t := TableAfter(n, ops[..|ops| - 1]);
      assert ops[|ops| - 1] in ops;
      StepTable(n, t, ops[|ops| - 1]);
      TableStep(n, t, ops[|ops| - 1])
  }

  /** The waiter that comes to a row with a call. */
  function Comes(o: Call, low: bool, r: Row): seq<Ult> {
    if o.Push? && o.low == low && o.r == r then [o.u] else []
  }

  /** The waiters that came to a row, in the order of the calls. */
  function Arrived(ops: seq<Call>, low: bool, r: Row): seq<Ult> {
    if ops == [] then [] else Arrived(ops[..|ops| - 1], low, r) + Comes(ops[|ops| - 1], low, r)
  }

  /** The waiters that were handed the mutex or woken, in the order of the calls. */
  function TakenSoFar(n: nat, ops: seq<Call>, low: bool, r: Row): seq<Ult>
    requires (forall o :: o in ops ==> InTable(n, o)) && r < n
  {
    if ops == [] then []
    else
      assert ops[|ops| - 1] in ops;
      TakenSoFar(n, ops[..|ops| - 1], low, r) + TakenBy(n, TableAfter(n, ops[..|ops| - 1]), ops[|ops| - 1], low, r)
  }

  lemma WakeTakes(n: nat, t: Table, max: nat, low: bool, r: Row)
    requires TableOf(n, t) && r < n
    ensures TableOf(n, TableStep(n, t, WakeUp(max)))
    ensures SideOf(t, low).rows[r] == TakenBy(n, t, WakeUp(max), low, r) + SideOf(TableStep(n, t, WakeUp(max)), low).rows[r]
  {
    StepTable(n, t, WakeUp(max));
    HighBeforeLow(t, max);
    WakeCount(t, max);
    WakeLeaves(t, max);
    WakeSideCount(t.high, max);
    FirstInFirstOut(t.high, max, r);
    FirstInFirstOut(t.low, LowShare(t, max), r);
  }

  lemma CallTakes(n: nat, t: Table, o: Call, low: bool, r: Row)
    requires TableOf(n, t) && InTable(n, o) && r < n
    ensures TableOf(n, TableStep(n, t, o))
    ensures SideOf(t, low).rows[r] + Comes(o, low, r) == TakenBy(n, t, o, low, r) + SideOf(TableStep(n, t, o), low).rows[r]
  {
    StepTable(n, t, o);
    if o.WakeUp? {
      WakeTakes(n, t, o.max, low, r);
    }
  }

  lemma Concat(a: seq<Ult>, more: seq<Ult>, taken: seq<Ult>, q: seq<Ult>, gone: seq<Ult>, q': seq<Ult>)
    requires a == taken + q && q + more == gone + q'
    ensures a + more == taken + gone + q'
  {
    assert taken + q + more == taken + (q + more);
  }

  /** Over any pushes, handovers and wake-ups each row is a queue: those who were taken from it, followed by
      those who still wait, are those who came, in the order they came. */
  lemma {:induction false} ArrivalOrder(n: nat, ops: seq<Call>, low: bool, r: Row)
    requires (forall o :: o in ops ==> InTable(n, o)) && r < n
    ensures Arrived(ops, low, r) == TakenSoFar(n, ops, low, r) + SideOf(TableAfter(n, ops), low).rows[r]
  {
    if ops != [] {
      var (before, o) := (ops[..|ops| - 1], ops[|ops| - 1]);
      assert o in ops;
      ArrivalOrder(n, before, low, r);
      CallTakes(n, TableAfter(n, before), o, low, r);
      Concat(Arrived(before, low, r), Comes(o, low, r), TakenSoFar(n, before, low, r), SideOf(TableAfter(n, before), low).rows[r],
        TakenBy(n, TableAfter(n, before), o, low, r), SideOf(TableAfter(n, ops), low).rows[r]);
    }
  }

  /** Nobody overtakes by being pushed: a linked row keeps its place in the list through pushes and handovers,
      and so the number of wake-ups within which it is served. */
  lemma PlaceKept(n: nat, t: Table, o: Call, low: bool, i: nat)
    requires TableOf(n, t) && InTable(n, o) && !o.WakeUp? && i < |SideOf(t, low).list|
    ensures TableOf(n, TableStep(n, t, o))
    ensures i < |SideOf(TableStep(n, t, o), low).list| && SideOf(TableStep(n, t, o), low).list[i] == SideOf(t, low).list[i]
  {
    StepTable(n, t, o);
  }

  // ----- the table itself -----

  /** ABTI_thread_htable: the rows of both priorities, the two lists from their heads on, and num_elems. */
  class Waiters {
    var highRows: seq<seq<Ult>>
    var lowRows: seq<seq<Ult>>
    var highList: seq<Row>
    var lowList: seq<Row>
    var num: int

    ghost function Contents(): Table
      reads this
    {
      Table(Side(highList, highRows), Side(lowList, lowRows))
    }

    ghost predicate Valid()
      reads this
    {
      TableInv(Contents()) && |highRows| == |lowRows| && num == Total(Contents())
    }

    constructor (rows: nat)
      ensures Valid() && Contents() == Table(Side([], seq(rows, i => [])), Side([], seq(rows, i => [])))
    {
      highRows, lowRows, highList, lowList, num := seq(rows, i => []), seq(rows, i => []), [], [], 0;
      new;
      SizeZero(highRows);
    }

    /** wait: links the row of the ES the waiter is on, and pushes it there. */
    method PushHigh(r: Row, u: Ult)
      requires Valid() && r < |highRows|
      modifies this
      ensures Valid() && Contents() == TableStep(|old(highRows)|, old(Contents()), Push(false, r, u))
      ensures highRows == old(highRows)[r := old(highRows)[r] + [u]] && r in highList
    {
      if r !in highList {
        highList := highList + [r];
      }
      SizeUpdate(highRows, r, highRows[r] + [u]);
      highRows := highRows[r := highRows[r] + [u]];
      num := num + 1;
    }

    /** The same of wait_low. */
    method PushLow(r: Row, u: Ult)
      requires Valid() && r < |lowRows|
      modifies this
      ensures Valid() && Contents() == TableStep(|old(lowRows)|, old(Contents()), Push(true, r, u))
      ensures lowRows == old(lowRows)[r := old(lowRows)[r] + [u]] && r in lowList
    {
      if r !in lowList {
        lowList := lowList + [r];
      }
      SizeUpdate(lowRows, r, lowRows[r] + [u]);
      lowRows := lowRows[r := lowRows[r] + [u]];
      num := num + 1;
    }

    /** A handover takes the first high-priority waiter of a row and leaves the list alone. */
    method HandOver(r: Row) returns (u: Option<Ult>)
      requires Valid() && r < |highRows|
      modifies `highRows, `num
      ensures Valid() && Contents() == TableStep(|old(highRows)|, old(Contents()), HandOut(false, r))
      ensures (if u.Some? then [u.value] else []) == TakenBy(|old(highRows)|, old(Contents()), HandOut(false, r), false, r)
    {
      if highRows[r] == [] {
        return None;
      }
      u := Some(highRows[r][0]);
      SizeUpdate(highRows, r, highRows[r][1..]);
      highRows := highRows[r := highRows[r][1..]];
      num := num - 1;
    }

    /** And the first low-priority waiter, if it comes to that. */
    method HandOverLow(r: Row) returns (u: Option<Ult>)
      requires Valid() && r < |lowRows|
      modifies `lowRows, `num
      ensures Valid() && Contents() == TableStep(|old(lowRows)|, old(Contents()), HandOut(true, r))
      ensures (if u.Some? then [u.value] else []) == TakenBy(|old(lowRows)|, old(Contents()), HandOut(true, r), true, r)
    {
      if lowRows[r] == [] {
        return None;
      }
      u := Some(lowRows[r][0]);
      SizeUpdate(lowRows, r, lowRows[r][1..]);
      lowRows := lowRows[r := lowRows[r][1..]];
      num := num - 1;
    }

    /** The loop over the high-priority list, up to its first waiter. */
    method TakeHigh() returns (w: Option<Woken>)
      requires Valid()
      modifies `highList, `highRows, `num
      ensures Valid() && (w, Side(highList, highRows)) == Next(old(Contents()).high)
    {
      w := None;
      while highList != []
        invariant Valid() && Next(Side(highList, highRows)) == Next(old(Contents()).high)
        decreases |highList|
      {
        NextKeeps(Contents().high);
        TurnedInv(Contents().high);
        var r := highList[0];
        if highRows[r] == [] {
          highList := highList[1..];
        } else {
          w := Some(Woken(r, highRows[r][0]));
          SizeUpdate(highRows, r, highRows[r][1..]);
          highRows := highRows[r := highRows[r][1..]];
          num := num - 1;
          highList := if highRows[r] == [] then highList[1..] else highList[1..] + [r];
          return;
        }
      }
    }

    method TakeLow() returns (w: Option<Woken>)
      requires Valid()
      modifies `lowList, `lowRows, `num
      ensures Valid() && (w, Side(lowList, lowRows)) == Next(old(Contents()).low)
    {
      w := None;
      while lowList != []
        invariant Valid() && Next(Side(lowList, lowRows)) == Next(old(Contents()).low)
        decreases |lowList|
      {
        NextKeeps(Contents().low);
        TurnedInv(Contents().low);
        var r := lowList[0];
        if lowRows[r] == [] {
          lowList := lowList[1..];
        } else {
          w := Some(Woken(r, lowRows[r][0]));
          SizeUpdate(lowRows, r, lowRows[r][1..]);
          lowRows := lowRows[r := lowRows[r][1..]];
          num := num - 1;
          lowList := if lowRows[r] == [] then lowList[1..] else lowList[1..] + [r];
          return;
        }
      }
    }

    /** One round of wake_de. */
    method WakeOne() returns (w: Option<Woken>)
      requires Valid()
      modifies this
      ensures Valid() && (w.Some? <==> Total(old(Contents())) > 0)
      ensures w.Some? ==> (w, Contents()) == NextOf(old(Contents()))
      ensures w.None? ==> Contents() == old(Contents())
    {
      NextOfKeeps(Contents());
      if num == 0 {
        return None;
      }
      w := TakeHigh();
      if w.None? {
        w := TakeLow();
      }
    }

    /** wake_de: readies at most `max` waiters. */
    method WakeDe(max: nat) returns (woken: seq<Woken>)
      requires Valid()
      modifies this
      ensures Valid() && (woken, Contents()) == Wake(old(Contents()), max)
    {
      woken := [];
      var n := 0;
      ghost var goal := Wake(Contents(), max);
      while n < max
        invariant 0 <= n <= max && Valid()
        invariant goal.0 == woken + Wake(Contents(), max - n).0 && goal.1 == Wake(Contents(), max - n).1
      {
        ghost var before := Contents();
        var w := WakeOne();
        if w.None? {
          WakeEnd(woken, before, max - n);
          return;
        }
        WakeAppend(woken, before, max - n);
        woken := woken + [w.value];
        n := n + 1;
      }
      WakeEnd(woken, Contents(), 0);
    }
  }
}
