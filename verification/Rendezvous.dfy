/** Barriers, eventuals and futures. Every operation runs under a spinlock, so any interleaving of calls
    is a sequence of operations; what happens to the callers that block is what the runs are about. */
module Rendezvous {

  type Ult = nat

  // ----- barrier -----

  /** One arrival at a barrier of n: who is waiting then, and who is readied. The last one does not block. */
  function Arrive(n: nat, waiting: seq<Ult>, u: Ult): (seq<Ult>, seq<Ult>) {
    if |waiting| + 1 < n then (waiting + [u], []) else ([], waiting)
  }

  class Barrier {
    var num: int
    var counter: int
    var waiters: array<Ult>

    ghost predicate Valid()
      reads this
    {
      0 <= counter < num <= waiters.Length
    }

    ghost function Waiting(): seq<Ult>
      requires Valid()
      reads this, waiters
    {
      waiters[..counter]
    }

    constructor (n: nat)
      requires n > 0
      ensures Valid() && num == n && Waiting() == [] && fresh(waiters)
    {
      num, counter := n, 0;
      waiters := new Ult[n](_ => 0);
    }

    /** ABT_barrier_wait: the caller blocks unless it is the last one, which readies the others. */
    method Wait(u: Ult) returns (readied: seq<Ult>)
      requires Valid()
      modifies `counter, waiters
      ensures Valid() && (Waiting(), readied) == Arrive(num, old(Waiting()), u)
    {
      var pos := counter;
      counter := counter + 1;
      readied := [];
      if counter < num {
        waiters[pos] := u;
        assert waiters[..counter] == waiters[..pos] + [u];
      } else {
        for i := 0 to num - 1
          invariant readied == old(waiters[..i]) && counter == num
          invariant forall j :: i <= j < num - 1 ==> waiters[j] == old(waiters[j])
        {
          readied := readied + [waiters[i]];
          waiters[i] := 0;
        }
        counter := 0;
      }
    }

    /** ABT_barrier_reinit, when nobody waits: the arrays are replaced only if they would be too small. */
    method Reinit(n: nat)
      requires Valid() && counter == 0 && n > 0
      modifies `num, `waiters
      ensures Valid() && num == n && Waiting() == []
    {
      if n < num {
        num := n;
      } else if n > num {
        num := n;
        waiters := new Ult[n](_ => 0);
      }
    }
  }

  /** Those who wait after the arrivals us, in a barrier of n. */
  function WaitingAfter(n: nat, us: seq<Ult>): seq<Ult> {
    if us == [] then [] else Arrive(n, WaitingAfter(n, us[..|us| - 1]), us[|us| - 1]).0
  }

  /** Those who are readied by arrival j. */
  function ReadiedBy(n: nat, us: seq<Ult>, j: nat): seq<Ult>
    requires j < |us|
  {
    Arrive(n, WaitingAfter(n, us[..j]), us[j]).1
  }

  /** The place of arrival k in its round, from 0. */
  function Place(k: nat, n: nat): (p: nat)
    requires n > 0
    ensures p < n && p <= k
  {
    if k == 0 || Place(k - 1, n) + 1 == n then 0 else Place(k - 1, n) + 1
  }

  lemma {:induction false} PlaceIsMod(k: nat, n: nat)
    requires n > 0
    ensures Place(k, n) == k % n
  {
    if k > 0 {
      PlaceIsMod(k - 1, n);
      ModSucc(k - 1, n);
    }
  }

  lemma ModSucc(k: nat, n: nat)
    requires n > 0
    ensures (k + 1) % n == if k % n + 1 == n then 0 else k % n + 1
  {
    var q := k / n;
    assert k + 1 == q * n + (k % n + 1);
    if k % n + 1 == n {
      assert k + 1 == (q + 1) * n;
      ModIs(k + 1, q + 1, n, 0);
    } else {
      ModIs(k + 1, q, n, k % n + 1);
    }
  }

  lemma ModIs(k: nat, q: nat, n: nat, r: nat)
    requires r < n && k == q * n + r
    ensures k % n == r
  {
    if k / n < q {
      LaterRow(k / n, q, n, k % n, r);
    } else if k / n > q {
      LaterRow(q, k / n, n, r, k % n);
    }
  }

  lemma LaterRow(a: int, b: int, n: nat, x: int, y: int)
    requires a < b && 0 <= x < n && 0 <= y
    ensures a * n + x < b * n + y
  {
    assert (a + 1) * n <= b * n;
  }

  /** The arrivals of the round that is not complete. */
  lemma {:induction false} RoundSoFar(n: nat, us: seq<Ult>)
    requires n > 0
    ensures WaitingAfter(n, us) == us[|us| - Place(|us|, n)..]
  {
    if us != [] {
      var before := us[..|us| - 1];
      var r := Place(|before|, n);
      RoundSoFar(n, before);
      if r + 1 < n {
        assert us[|before| - r..] == before[|before| - r..] + [us[|us| - 1]];
      }
    }
  }

  /** The arrival that ends the round of arrival i: (i / n + 1) n - 1. */
  function LastOfRound(n: nat, i: nat): nat
    requires n > 0
  {
    i - Place(i, n) + n - 1
  }

  lemma LastOfRoundIs(n: nat, i: nat)
    requires n > 0
    ensures LastOfRound(n, i) == (i / n + 1) * n - 1
  {
    PlaceIsMod(i, n);
    assert i == i / n * n + i % n;
    assert (i / n + 1) * n == i / n * n + n;
  }

  /** An arrival readies somebody exactly when it ends a round, and then the others of its round, each once. */
  lemma ReadiedByLast(n: nat, us: seq<Ult>, j: nat)
    requires n > 0 && j < |us|
    ensures if j == LastOfRound(n, j) then j + 1 >= n && ReadiedBy(n, us, j) == us[j + 1 - n..j] else ReadiedBy(n, us, j) == []
  {
    RoundSoFar(n, us[..j]);
  }

  /** The arrivals of one round follow each other. */
  lemma {:induction false} SameRound(n: nat, s: nat, d: nat)
    requires n > 0 && Place(s, n) == 0 && d < n
    ensures Place(s + d, n) == d
  {
    if d > 0 {
      SameRound(n, s, d - 1);
    }
  }

  lemma {:induction false} RoundStart(n: nat, i: nat)
    requires n > 0
    ensures Place(i - Place(i, n), n) == 0
  {
    if Place(i, n) > 0 {
      RoundStart(n, i - 1);
    }
  }

  /** Over any number of rounds, arrival i is readied by the last arrival of its round and by no other. */
  lemma ReleasedOnce(n: nat, i: nat, j: nat)
    requires n > 0
    ensures (j == LastOfRound(n, j) && j + 1 - n <= i < j) <==> (j == LastOfRound(n, i) && i != j)
  {
    var (s, r) := (i - Place(i, n), j - Place(j, n));
    RoundStart(n, i);
    RoundStart(n, j);
    if j == r + n - 1 && r <= i < j {
      SameRound(n, r, i - r);
    } else if j == s + n - 1 {
      SameRound(n, s, j - s);
    }
  }

  // ----- eventual -----

  datatype EventualOp = EWait(u: Ult) | ESet(v: int)

  datatype EventualState = EventualState(ready: bool, value: int, waiting: seq<Ult>)

  function EventualStart(v: int): EventualState {
    EventualState(false, v, [])
  }

  function EventualStep(s: EventualState, o: EventualOp): EventualState {
    match o
    case EWait(u) => if s.ready then s else s.(waiting := s.waiting + [u])
    case ESet(v) => EventualState(true, v, [])
  }

  class Eventual {
    var ready: bool
    var value: int
    var waiting: seq<Ult>

    ghost function Contents(): EventualState
      reads this
    {
      EventualState(ready, value, waiting)
    }

    constructor (v: int)
      ensures Contents() == EventualStart(v)
    {
      ready, value, waiting := false, v, [];
    }

    /** ABT_eventual_wait: whether the caller blocks. */
    method Wait(u: Ult) returns (blocks: bool)
      modifies `waiting
      ensures Contents() == EventualStep(old(Contents()), EWait(u)) && blocks == !ready
    {
      blocks := !ready;
      if blocks {
        waiting := waiting + [u];
      }
    }

    /** ABT_eventual_set: readies all who wait, in the order of their calls. */
    method Set(v: int) returns (readied: seq<Ult>)
      modifies this
      ensures Contents() == EventualStep(old(Contents()), ESet(v)) && readied == old(waiting)
    {
      ready, value := true, v;
      readied := [];
      while waiting != []
        invariant ready && value == v && readied + waiting == old(waiting)
        decreases |waiting|
      {
        readied := readied + [waiting[0]];
        waiting := waiting[1..];
      }
    }
  }

  function EventualAfter(s: EventualState, ops: seq<EventualOp>): EventualState {
    if ops == [] then s else EventualStep(EventualAfter(s, ops[..|ops| - 1]), ops[|ops| - 1])
  }

  /** The callers that have blocked, and those that have been readied, in order. */
  function EventualBlocked(s: EventualState, ops: seq<EventualOp>): seq<Ult> {
    if ops == [] then []
    else
      var (before, o) := (ops[..|ops| - 1], ops[|ops| - 1]);
      EventualBlocked(s, before) + if o.EWait? && !EventualAfter(s, before).ready then [o.u] else []
  }

  function EventualReadied(s: EventualState, ops: seq<EventualOp>): seq<Ult> {
    if ops == [] then []
    else
      var (before, o) := (ops[..|ops| - 1], ops[|ops| - 1]);
      EventualReadied(s, before) + if o.ESet? then EventualAfter(s, before).waiting else []
  }

  /** The value set last, or the one at the start. */
  function LastSet(v: int, ops: seq<EventualOp>): int {
    if ops == [] then v
    else if ops[|ops| - 1].ESet? then ops[|ops| - 1].v else LastSet(v, ops[..|ops| - 1])
  }

  /** No wake-up is lost or repeated: those who blocked are those who were readied, in the same order,
      followed by those who still wait; once the eventual has been set, nobody waits. And it holds the value
      that was set last. */
  lemma {:induction false} EventualConserves(v: int, ops: seq<EventualOp>)
    ensures var s := EventualStart(v);
      && EventualBlocked(s, ops) == EventualReadied(s, ops) + EventualAfter(s, ops).waiting
      && (EventualAfter(s, ops).ready <==> exists i :: 0 <= i < |ops| && ops[i].ESet?)
      && (EventualAfter(s, ops).ready ==> EventualAfter(s, ops).waiting == [])
      && EventualAfter(s, ops).value == LastSet(v, ops)
  {
    if ops != [] {
      var before := ops[..|ops| - 1];
      EventualConserves(v, before);
      if i :| 0 <= i < |before| && before[i].ESet? {
        assert ops[i].ESet?;
      }
      if i :| 0 <= i < |ops| && ops[i].ESet? && i < |before| {
        assert before[i].ESet?;
      }
    }
  }

  // ----- future -----

  datatype FutureOp = FWait(u: Ult) | FSet(v: int)

  /** What the outside sees: the callback on the array of values, and the waiters readied. */
  datatype Event = Callback(values: seq<int>) | Readied(u: Ult)

  /** `values` are the compartments that are set. */
  datatype FutureState = FutureState(compartments: nat, values: seq<int>, ready: bool, waiting: seq<Ult>)

  function FutureStart(compartments: nat): FutureState {
    FutureState(compartments, [], false, [])
  }

  function ReadyAll(us: seq<Ult>): seq<Event> {
    seq(|us|, i requires 0 <= i < |us| => Readied(us[i]))
  }

  function FutureStep(s: FutureState, o: FutureOp): (FutureState, seq<Event>) {
    match o
    case FWait(u) => (if s.ready then s else s.(waiting := s.waiting + [u]), [])
    case FSet(v) =>
      var values := s.values + [v];
      if |values| == s.compartments then
        (FutureState(s.compartments, values, true, []), [Callback(values)] + ReadyAll(s.waiting))
      else (s.(values := values), [])
  }

  class Future {
    const compartments: nat
    const elems: array<int>
    var counter: int
    var ready: bool
    var waiting: seq<Ult>

    ghost predicate Valid()
      reads this
    {
      0 <= counter <= compartments == elems.Length
    }

    ghost function Contents(): FutureState
      requires Valid()
      reads this, elems
    {
      FutureState(compartments, elems[..counter], ready, waiting)
    }

    constructor (compartments: nat)
      ensures Valid() && Contents() == FutureStart(compartments) && fresh(elems)
    {
      this.compartments := compartments;
      elems := new int[compartments](_ => 0);
      counter, ready, waiting := 0, false, [];
    }

    method Wait(u: Ult) returns (blocks: bool)
      requires Valid()
      modifies `waiting
      ensures Valid() && Contents() == FutureStep(old(Contents()), FWait(u)).0 && blocks == !ready
    {
      blocks := !ready;
      if blocks {
        waiting := waiting + [u];
      }
    }

    /** ABT_future_set, at most as often as there are compartments: the last one runs the callback first. */
    method Set(v: int) returns (events: seq<Event>)
      requires Valid() && counter < compartments
      modifies this, elems
      ensures Valid() && (Contents(), events) == FutureStep(old(Contents()), FSet(v))
    {
      ghost var values := elems[..counter] + [v];
      elems[counter] := v;
      counter := counter + 1;
      events := [];
      assert elems[..counter] == values;
      if counter == compartments {
        ready := true;
        events := [Callback(elems[..])];
        assert elems[..] == elems[..counter] && ReadyAll(waiting[..0]) == [];
        ghost var all := waiting;
        ghost var done := 0;
        while waiting != []
          invariant ready && counter == compartments && elems[..counter] == values
          invariant 0 <= done <= |all| && waiting == all[done..] && events == [Callback(values)] + ReadyAll(all[..done])
          decreases |waiting|
        {
          assert all[..done + 1] == all[..done] + [waiting[0]];
          assert ReadyAll(all[..done + 1]) == ReadyAll(all[..done]) + [Readied(waiting[0])];
          events := events + [Readied(waiting[0])];
          waiting := waiting[1..];
          done := done + 1;
        }
        assert all[..done] == all;
      }
    }
  }

  function FutureAfter(c: nat, ops: seq<FutureOp>): FutureState {
    if ops == [] then FutureStart(c) else FutureStep(FutureAfter(c, ops[..|ops| - 1]), ops[|ops| - 1]).0
  }

  /** Everything the outside has seen. */
  function FutureEvents(c: nat, ops: seq<FutureOp>): seq<Event> {
    if ops == [] then []
    else
      var (before, o) := (ops[..|ops| - 1], ops[|ops| - 1]);
      FutureEvents(c, before) + FutureStep(FutureAfter(c, before), o).1
  }

  /** The values set, in order, and the callers that have blocked. */
  function SetValues(ops: seq<FutureOp>): seq<int> {
    if ops == [] then []
    else SetValues(ops[..|ops| - 1]) + if ops[|ops| - 1].FSet? then [ops[|ops| - 1].v] else []
  }

  function FutureBlocked(c: nat, ops: seq<FutureOp>): seq<Ult> {
    if ops == [] then []
    else
      var (before, o) := (ops[..|ops| - 1], ops[|ops| - 1]);
      FutureBlocked(c, before) + if o.FWait? && !FutureAfter(c, before).ready then [o.u] else []
  }

  /** As long as fewer than c values have been set, the outside sees nothing. When the c-th is set, it sees
      the callback once, with the values in the order they were set, and then every caller that has
      blocked readied once, in order; and nobody blocks afterwards. A future without compartments is
      never ready: all its waiters block for good. */
  lemma {:induction false} FutureRun(c: nat, ops: seq<FutureOp>)
    requires |SetValues(ops)| <= c
    ensures var s := FutureAfter(c, ops);
      && s.compartments == c && s.values == SetValues(ops) && (s.ready <==> c > 0 && |SetValues(ops)| == c)
      && (if s.ready then
            s.waiting == [] && FutureEvents(c, ops) == [Callback(SetValues(ops))] + ReadyAll(FutureBlocked(c, ops))
          else s.waiting == FutureBlocked(c, ops) && FutureEvents(c, ops) == [])
  {
    if ops != [] {
      FutureRun(c, ops[..|ops| - 1]);
    }
  }
}
