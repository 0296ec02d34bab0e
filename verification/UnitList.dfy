/** The intrusive circular doubly linked list of units, and its two users: a FIFO pool and the waiters of a
    condition variable. */
module UnitList {

  class Unit {
    var prev: Unit?
    var next: Unit?
    var pool: FifoPool?

    constructor ()
      ensures prev == null && next == null && pool == null
    {
      prev, next, pool := null, null, null;
    }
  }

  /** The index after i in a circle of n, and the one before. */
  function After(i: nat, n: nat): nat {
    if i + 1 >= n then 0 else i + 1
  }

  function Before(i: nat, n: nat): nat {
    if i == 0 then (if n == 0 then 0 else n - 1) else i - 1
  }

  function Without<T>(s: seq<T>, k: nat): seq<T>
    requires k < |s|
  {
    s[..k] + s[k + 1..]
  }

  ghost predicate Distinct<T>(s: seq<T>) {
    forall i, j :: 0 <= i < j < |s| ==> s[i] != s[j]
  }

  /** Where the unit at place j of the shortened sequence was before. */
  function Shift(j: nat, k: nat): nat {
    if j < k then j else j + 1
  }

  /** Taking out place k makes its neighbours meet, and leaves the other neighbours alone. */
  lemma WithoutNeighbours<T>(s: seq<T>, k: nat, j: nat)
    requires k < |s| && j < |s| - 1
    ensures var (n, w, i) := (|s|, Without(s, k), Shift(j, k));
      && w[j] == s[i] && i < n && i != k
      && w[After(j, n - 1)] == (if i == Before(k, n) then s[After(k, n)] else s[After(i, n)])
      && w[Before(j, n - 1)] == (if i == After(k, n) then s[Before(k, n)] else s[Before(i, n)])
  {
  }

  class Chain {
    var head: Unit?
    var tail: Unit?
    var num: int
    ghost var units: seq<Unit>

    /** The links of the unit at place i lead to its neighbours in the sequence, and around its ends. */
    ghost predicate LinkedAt(i: nat)
      reads this, units
    {
      i < |units| ==>
        units[i].next == units[After(i, |units|)] && units[i].prev == units[Before(i, |units|)]
    }

    ghost predicate Valid()
      reads this, units
    {
      && num == |units| && Distinct(units)
      && (units == [] ==> head == null && tail == null)
      && (units != [] ==> head == units[0] && tail == units[|units| - 1])
      && (forall i :: 0 <= i < |units| ==> LinkedAt(i))
    }

    constructor ()
      ensures Valid() && units == []
    {
      head, tail, num, units := null, null, 0, [];
    }

    method Append(u: Unit)
      requires Valid() && u !in units
      modifies this, units, u
      ensures Valid() && units == old(units) + [u]
      ensures forall v :: v in units ==> v.pool == old(v.pool) && v.next != null
    {
      if num == 0 {
        u.prev, u.next := u, u;
        head, tail := u, u;
      } else {
        tail.next := u;
        head.prev := u;
        u.prev, u.next := tail, head;
        tail := u;
      }
      num := num + 1;
      units := units + [u];
      forall i | 0 <= i < |units| ensures LinkedAt(i) {
        assert old(LinkedAt(i));
      }
      AllLinked();
    }

    lemma AllLinked()
      requires Valid()
      ensures forall v :: v in units ==> v.next != null
    {
      forall v | v in units ensures v.next != null {
        var i :| 0 <= i < |units| && units[i] == v;
        assert LinkedAt(i);
      }
    }

    /** The links of unit i after its neighbour k has been bypassed. */
    ghost predicate BypassedAt(k: nat, i: nat)
      reads this`units, units
    {
      k < |units| && i < |units| && i != k ==>
        var n := |units|;
        && units[i].next == (if i == Before(k, n) then units[After(k, n)] else units[After(i, n)])
        && units[i].prev == (if i == After(k, n) then units[Before(k, n)] else units[Before(i, n)])
    }

    method Bypass(u: Unit, ghost k: nat)
      requires Valid() && k < |units| && units[k] == u && num > 1
      modifies this, units
      ensures units == old(units) && num == old(num)
      ensures forall i :: 0 <= i < |units| ==> BypassedAt(k, i)
      ensures head == (if k == 0 then units[1] else units[0])
      ensures tail == (if k == |units| - 1 then units[|units| - 2] else units[|units| - 1])
      ensures forall v :: v in units ==> v.pool == old(v.pool)
    {
      assert LinkedAt(k) && LinkedAt(0) && LinkedAt(|units| - 1);
      ghost var (n, before, after) := (|units|, Before(k, |units|), After(k, |units|));
      u.prev.next := u.next;
      u.next.prev := u.prev;
      if u == head {
        head := u.next;
      } else if u == tail {
        tail := u.prev;
      }
      forall i | 0 <= i < |units| ensures BypassedAt(k, i) {
        assert old(LinkedAt(i));
      }
    }

    /** Takes a unit out, wherever it is. */
    method Unlink(u: Unit, ghost k: nat)
      requires Valid() && k < |units| && units[k] == u
      modifies this, units
      ensures Valid() && units == Without(old(units), k)
      ensures u.prev == null && u.next == null && u !in units
      ensures forall v :: v in old(units) ==> v.pool == old(v.pool)
      ensures forall v :: v in units ==> v.next != null
    {
      if num == 1 {
        head, tail := null, null;
      } else {
        Bypass(u, k);
      }
      num := num - 1;
      label L:
      u.prev, u.next := null, null;
      forall i | num > 0 && 0 <= i < |units| ensures BypassedAt(k, i) {
        assert old@L(BypassedAt(k, i));
      }
      Shorten(k);
      AllLinked();
    }

    /** The ghost sequence follows the links. */
    ghost method Shorten(k: nat)
      requires k < |units| && num == |units| - 1 && Distinct(units)
      requires num == 0 ==> head == null && tail == null
      requires num > 0 ==> forall i :: 0 <= i < |units| ==> BypassedAt(k, i)
      requires num > 0 ==> head == (if k == 0 then units[1] else units[0])
      requires num > 0 ==> tail == (if k == |units| - 1 then units[|units| - 2] else units[|units| - 1])
      modifies `units
      ensures Valid() && units == Without(old(units), k)
    {
      ghost var was := units;
      units := Without(was, k);
      forall j | 0 <= j < |units| ensures LinkedAt(j) {
        WithoutNeighbours(was, k, j);
        assert old(BypassedAt(k, Shift(j, k)));
      }
    }
  }

  // ----- the pool -----

  datatype Status = Success | ErrPool | ErrInvPool

  class FifoPool {
    const chain: Chain
    ghost var known: set<Unit>     // the units that have ever been pushed

    /** A unit says that it is in this pool exactly when it is linked there. */
    ghost predicate Valid()
      reads this, chain, chain.units, known
    {
      && chain.Valid()
      && (forall u :: u in chain.units ==> u in known)
      && (forall u :: u in known ==> (u.pool == this <==> u in chain.units))
    }

    ghost function Units(): seq<Unit>
      reads this, chain
    {
      chain.units
    }

    constructor ()
      ensures Valid() && fresh(chain) && Units() == [] && known == {}
    {
      chain := new Chain();
      known := {};
    }

    /** pool_get_size. */
    method Size() returns (n: int)
      requires Valid()
      ensures n == |Units()|
    {
      n := chain.num;
    }

    /** pool_push of a unit that is in no pool. */
    method Push(u: Unit)
      requires Valid() && u.pool == null
      modifies this, chain, chain.units, u
      ensures Valid() && Units() == old(Units()) + [u] && known == old(known) + {u}
      ensures u.pool == this
    {
      u.pool := this;
      chain.Append(u);
      known := known + {u};
    }

    /** pool_pop: the unit that has been in the pool for longest. */
    method Pop() returns (u: Unit?)
      requires Valid()
      modifies chain, chain.units
      ensures Valid() && known == old(known)
      ensures if old(Units()) == [] then u == null && Units() == [] else u == old(Units())[0] && Units() == old(Units())[1..]
      ensures u != null ==> u.pool == null && u.prev == null && u.next == null
    {
      u := null;
      if chain.num > 0 {
        u := chain.head;
        chain.Unlink(u, 0);
        u.pool := null;
      }
    }

    /** pool_remove: any unit; the others keep their order. */
    method Remove(u: Unit) returns (r: Status)
      requires Valid() && (u.pool == this ==> u in known)
      modifies chain, chain.units
      ensures Valid() && known == old(known)
      ensures r == (if old(Units()) == [] || old(u.pool) == null then ErrPool
                    else if u !in old(Units()) then ErrInvPool else Success)
      ensures r != Success ==> Units() == old(Units())
      ensures r == Success ==>
        u.pool == null && exists k :: 0 <= k < |old(Units())| && old(Units())[k] == u && Units() == Without(old(Units()), k)
    {
      if chain.num == 0 || u.pool == null {
        return ErrPool;
      }
      if u.pool != this {
        return ErrInvPool;
      }
      ghost var k :| 0 <= k < |chain.units| && chain.units[k] == u;
      chain.Unlink(u, k);
      u.pool := null;
      r := Success;
    }

    /** unit_is_in_pool. */
    method IsInPool(u: Unit) returns (b: bool)
      requires Valid() && u in known && (u.pool == null || u.pool == this)
      ensures b <==> u in Units()
    {
      b := u.pool != null;
    }
  }

  // ----- the waiters of a condition variable -----

  class CondWaiters {
    const chain: Chain
    var mutex: int                 // p_waiter_mutex; 0 is null
    ghost var known: set<Unit>

    /** A unit has a successor exactly while it is queued. */
    ghost predicate Valid()
      reads this, chain, chain.units, known
    {
      && chain.Valid()
      && (forall u :: u in chain.units ==> u in known)
      && (forall u :: u in known ==> (u.next != null <==> u in chain.units))
      && (chain.units == [] <==> mutex == 0)
    }

    constructor ()
      ensures Valid() && fresh(chain) && chain.units == [] && known == {}
    {
      chain := new Chain();
      mutex, known := 0, {};
    }

    /** The enqueueing part of a wait; all waiters must use one mutex. */
    method Enqueue(u: Unit, m: int) returns (ok: bool)
      requires Valid() && u.next == null && m != 0
      modifies this, chain, chain.units, u
      ensures Valid()
      ensures ok == (old(mutex) == 0 || old(mutex) == m)
      ensures chain.units == if ok then old(chain.units) + [u] else old(chain.units)
      ensures mutex == (if ok then m else old(mutex)) && known == (if ok then old(known) + {u} else old(known))
    {
      if mutex == 0 {
        mutex := m;
      } else if mutex != m {
        return false;
      }
      chain.Append(u);
      known := known + {u};
      ok := true;
    }

    /** ABT_cond_signal: the waiter that has waited for longest. */
    method Signal() returns (u: Unit?)
      requires Valid()
      modifies this, chain, chain.units
      ensures Valid()
      ensures if old(chain.units) == [] then u == null && chain.units == []
              else u == old(chain.units)[0] && u.next == null && chain.units == old(chain.units)[1..]
      ensures mutex == (if chain.units == [] then 0 else old(mutex)) && known == old(known)
    {
      u := null;
      if chain.num > 0 {
        u := chain.head;
        chain.Unlink(u, 0);
        if chain.num == 0 {
          mutex := 0;
        }
      }
    }

    /** remove_unit, of a wait that has timed out: no effect when a signal came first. */
    method RemoveUnit(u: Unit)
      requires Valid() && u in known
      modifies this, chain, chain.units
      ensures Valid() && u !in chain.units
      ensures u !in old(chain.units) ==> chain.units == old(chain.units)
      ensures u in old(chain.units) ==>
        exists k :: 0 <= k < |old(chain.units)| && old(chain.units)[k] == u && chain.units == Without(old(chain.units), k)
      ensures mutex == (if chain.units == [] then 0 else old(mutex)) && known == old(known)
    {
      if u.next != null {
        ghost var k :| 0 <= k < |chain.units| && chain.units[k] == u;
        chain.Unlink(u, k);
        if chain.num == 0 {
          mutex := 0;
        }
      }
    }
  }
}
