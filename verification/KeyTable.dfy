/** Work-unit-specific data: the chained table of one work unit, and the reference counts of its keys. */
module KeyTable {
  import opened Basics

  class Key {
    const id: nat
    const destructor: bool      // f_destructor is not null
    var refcount: int
    var freed: bool
    ghost var gone: bool        // the key object has been freed

    constructor (id: nat, destructor: bool)
      ensures this.id == id && this.destructor == destructor && refcount == 1 && !freed && !gone
    {
      this.id, this.destructor, refcount, freed, gone := id, destructor, 1, false, false;
    }
  }

  /** ABT_key_free: the user gives up its reference. */
  method FreeKey(key: Key)
    modifies key`refcount, key`freed, key`gone
    ensures key.freed && key.refcount == old(key.refcount) - 1
    ensures key.gone == (old(key.gone) || old(key.refcount) == 1)
  {
    key.freed := true;
    var refcount := key.refcount;
    key.refcount := refcount - 1;
    if refcount == 1 {
      key.gone := true;
    }
  }

  /** An element; value 0 is null. */
  datatype Elem = Elem(key: Key, value: int)

  /** A chain agrees with the map on the keys of its bucket. */
  ghost predicate ChainOk(m: map<Key, int>, size: nat, b: nat, chain: seq<Elem>)
    requires size > 0
  {
    && (forall i :: 0 <= i < |chain| ==>
      chain[i].key.id % size == b && chain[i].key in m && m[chain[i].key] == chain[i].value)
    && (forall i, j :: 0 <= i < j < |chain| ==> chain[i].key != chain[j].key)
    && (forall k :: k in m && k.id % size == b ==> exists i :: 0 <= i < |chain| && chain[i].key == k)
  }

  class Table {
    const size: nat
    const elems: array<seq<Elem>>
    var num: int
    ghost var contents: map<Key, int>

    ghost predicate Valid()
      reads this, elems
    {
      && size > 0 && elems.Length == size && num == |contents|
      && (forall b :: 0 <= b < size ==> ChainOk(contents, size, b, elems[b]))
    }

    /** ABTI_ktable_alloc. */
    constructor (size: nat)
      requires size > 0
      ensures Valid() && fresh(elems) && contents == map[]
    {
      this.size := size;
      elems := new seq<Elem>[size](_ => []);
      num, contents := 0, map[];
    }

    /** ABTI_ktable_get: null when the key has no value. */
    method Get(key: Key) returns (value: int)
      requires Valid()
      ensures value == if key in contents then contents[key] else 0
    {
      var chain := elems[key.id % size];
      assert ChainOk(contents, size, key.id % size, chain);
      for i := 0 to |chain|
        invariant forall j :: 0 <= j < i ==> chain[j].key != key
      {
        if chain[i].key == key {
          return chain[i].value;
        }
      }
      value := 0;
    }

    /** ABTI_ktable_set: overwrites the value of a key, or puts a new element at the head of its chain. */
    method Set(key: Key, value: int)
      requires Valid()
      modifies this, elems, key`refcount
      ensures Valid() && contents == old(contents)[key := value]
      ensures key.refcount == old(key.refcount) + if key in old(contents) then 0 else 1
    {
      var b := key.id % size;
      var chain := elems[b];
      assert ChainOk(contents, size, b, chain);
      for i := 0 to |chain|
        invariant forall j :: 0 <= j < i ==> chain[j].key != key
        invariant elems[..] == old(elems[..]) && Valid() && contents == old(contents) && key.refcount == old(key.refcount)
      {
        if chain[i].key == key {
          elems[b] := chain[i := Elem(key, value)];
          contents := contents[key := value];
          Updated(old(contents), size, b, chain, i, value);
          forall d | 0 <= d < size ensures ChainOk(contents, size, d, elems[d]) {
            assert old(ChainOk(contents, size, d, elems[d]));
          }
          return;
        }
      }
      elems[b] := [Elem(key, value)] + chain;
      key.refcount := key.refcount + 1;
      num := num + 1;
      contents := contents[key := value];
      Inserted(old(contents), size, b, chain, key, value);
      forall d | 0 <= d < size ensures ChainOk(contents, size, d, elems[d]) {
        assert old(ChainOk(contents, size, d, elems[d]));
      }
    }

    /** One element of ktable_free: its destructor call, and the reference that its key loses. */
    method FreeElem(e: Elem, ghost done: set<Key>, calls: seq<(Key, int)>) returns (calls': seq<(Key, int)>)
      requires e.key in contents && contents[e.key] == e.value && e.key !in done && CallsOk(contents, done, calls)
      modifies e.key`refcount, e.key`gone
      ensures CallsOk(contents, done + {e.key}, calls')
      ensures e.key.refcount == old(e.key.refcount) - 1
      ensures e.key.gone == (old(e.key.gone) || (old(e.key.refcount) == 1 && e.key.freed))
    {
      calls' := if e.key.destructor && e.value != 0 then calls + [(e.key, e.value)] else calls;
      var refcount := e.key.refcount;
      e.key.refcount := refcount - 1;
      if refcount == 1 && e.key.freed {
        e.key.gone := true;
      }
      forall k | k in done + {e.key} && k in contents && k.destructor && contents[k] != 0 ensures (k, contents[k]) in calls' {
        if k == e.key {
          assert calls'[|calls|] == (k, contents[k]);
        }
      }
    }

    /** The key of the i-th element of a chain is done exactly when the element has been passed. */
    ghost predicate Passed(k: Key, b: int, chain: seq<Elem>, i: int)
      requires size > 0
    {
      k.id % size < b || exists j :: 0 <= j < i && j < |chain| && chain[j].key == k
    }

    /** What has happened to a key. */
    twostate predicate Released(k: Key, dropped: bool)
      reads k
    {
      && k.refcount == old(k.refcount) - Flag(dropped) && k.freed == old(k.freed)
      && k.gone == (old(k.gone) || (dropped && old(k.refcount) == 1 && k.freed))
    }

    /** One chain of ktable_free. */
    method FreeChain(b: nat, ghost done: set<Key>, calls: seq<(Key, int)>) returns (calls': seq<(Key, int)>, ghost done': set<Key>)
      requires Valid() && b < size && CallsOk(contents, done, calls)
      requires forall k :: k in done <==> k in contents && k.id % size < b
      modifies set k | k in contents && k.id % size == b :: k
      ensures CallsOk(contents, done', calls')
      ensures forall k :: k in done' <==> k in contents && k.id % size < b + 1
      ensures forall k :: k in contents && k.id % size == b ==> Released(k, true)
    {
      calls', done' := calls, done;
      assert ChainOk(contents, size, b, elems[b]);
      for i := 0 to |elems[b]|
        invariant done' <= contents.Keys && CallsOk(contents, done', calls')
        invariant forall k :: k in contents ==> (k in done' <==> Passed(k, b, elems[b], i))
        invariant forall k :: k in contents && k.id % size == b ==> Released(k, k in done')
      {
        calls' := FreeElem(elems[b][i], done', calls');
        done' := done' + {elems[b][i].key};
      }
    }

    /** ABTI_ktable_free: every key loses one reference and every value with a destructor is destroyed once. */
    method Free() returns (calls: seq<(Key, int)>)
      requires Valid()
      modifies set k | k in contents :: k
      ensures CallsOk(contents, contents.Keys, calls)
      ensures forall k :: k in contents ==> Released(k, true)
    {
      calls := [];
      ghost var done: set<Key> := {};
      for b := 0 to size
        invariant Valid() && CallsOk(contents, done, calls)
        invariant forall k :: k in done <==> k in contents && k.id % size < b
        invariant forall k :: k in contents ==> Released(k, k in done)
      {
        calls, done := FreeChain(b, done, calls);
      }
      assert done == contents.Keys;
    }
  }

  /** The destructor calls for the keys that are done: each of them with a destructor and a non-null value, once. */
  ghost predicate CallsOk(m: map<Key, int>, done: set<Key>, calls: seq<(Key, int)>) {
    && (forall i :: 0 <= i < |calls| ==>
      calls[i].0 in done && calls[i].0 in m && calls[i].0.destructor && calls[i].1 == m[calls[i].0] != 0)
    && (forall i, j :: 0 <= i < j < |calls| ==> calls[i].0 != calls[j].0)
    && (forall k :: k in done && k in m && k.destructor && m[k] != 0 ==> (k, m[k]) in calls)
  }

  lemma Updated(m: map<Key, int>, size: nat, b: nat, chain: seq<Elem>, i: nat, value: int)
    requires size > 0 && ChainOk(m, size, b, chain) && i < |chain|
    ensures ChainOk(m[chain[i].key := value], size, b, chain[i := Elem(chain[i].key, value)])
  {
    var c := chain[i := Elem(chain[i].key, value)];
    assert forall j :: 0 <= j < |chain| ==> c[j].key == chain[j].key;
  }

  /** The head of a chain is put before elements with other keys. */
  lemma Inserted(m: map<Key, int>, size: nat, b: nat, chain: seq<Elem>, key: Key, value: int)
    requires size > 0 && ChainOk(m, size, b, chain) && key.id % size == b && forall j :: 0 <= j < |chain| ==> chain[j].key != key
    ensures key !in m && ChainOk(m[key := value], size, b, [Elem(key, value)] + chain)
  {
    var (c, m') := ([Elem(key, value)] + chain, m[key := value]);
    forall i | 0 <= i < |c| ensures c[i].key.id % size == b && c[i].key in m' && m'[c[i].key] == c[i].value {
      if i > 0 {
        assert c[i] == chain[i - 1];
      }
    }
    forall k | k in m' && k.id % size == b ensures exists i :: 0 <= i < |c| && c[i].key == k {
      if k == key {
        assert c[0].key == k;
      } else {
        var i :| 0 <= i < |chain| && chain[i].key == k;
        assert c[i + 1].key == k;
      }
    }
  }
}

/** Any number of tables and keys, with the single atomic steps of key_free and ktable_free interleaved. */
module KeyReferences {
  import opened Basics

  type Key = nat
  type TableId = nat

  datatype State = State(
    count: map<Key, int>,                    // refcount of every key created
    freed: set<Key>,                         // keys whose `freed` is set
    dropped: set<Key>,                       // keys whose user has given up its reference
    frees: map<Key, nat>,                    // how often the key object has been freed
    tables: map<TableId, map<Key, int>>
  )

  datatype Action =
    | Create(k: Key)
    | Put(t: TableId, k: Key, v: int)        // ktable_set
    | MarkFreed(k: Key)                      // ABT_key_free, first step
    | DropOwn(k: Key)                        // ABT_key_free, its fetch_sub
    | Release(t: TableId, k: Key)            // ktable_free, for one element

  function Entries(s: State, t: TableId): map<Key, int> {
    if t in s.tables then s.tables[t] else map[]
  }

  predicate Enabled(s: State, a: Action) {
    match a
    case Create(k) => k !in s.count
    case Put(_, k, _) => k in s.count && k !in s.freed
    case MarkFreed(k) => k in s.count && k !in s.freed
    case DropOwn(k) => k in s.freed && k !in s.dropped && k in s.count && k in s.frees
    case Release(t, k) => k in Entries(s, t) && k in s.count && k in s.frees
  }

  function Do(s: State, a: Action): State
    requires Enabled(s, a)
  {
    match a
    case Create(k) => s.(count := s.count[k := 1], frees := s.frees[k := 0])
    case Put(t, k, v) =>
      s.(tables := s.tables[t := Entries(s, t)[k := v]],
         count := s.count[k := s.count[k] + if k in Entries(s, t) then 0 else 1])
    case MarkFreed(k) => s.(freed := s.freed + {k})
    case DropOwn(k) =>
      s.(count := s.count[k := s.count[k] - 1], dropped := s.dropped + {k},
         frees := s.frees[k := s.frees[k] + if s.count[k] == 1 then 1 else 0])
    case Release(t, k) =>
      s.(count := s.count[k := s.count[k] - 1], tables := s.tables[t := Entries(s, t) - {k}],
         frees := s.frees[k := s.frees[k] + if s.count[k] == 1 && k in s.freed then 1 else 0])
  }

  function Holders(h: map<Key, set<TableId>>, k: Key): set<TableId> {
    if k in h then h[k] else {}
  }

  /** refcount = the user's reference + the tables that hold the key; the object is freed when it is 0. */
  predicate KeyOk(s: State, h: map<Key, set<TableId>>, k: Key) {
    && (k in s.count <==> k in s.frees)
    && (k !in s.count ==> Holders(h, k) == {} && k !in s.freed && k !in s.dropped)
    && (k in s.dropped ==> k in s.freed)
    && (k in s.count && k in s.frees ==>
      s.count[k] == |Holders(h, k)| + Flag(k !in s.dropped) && s.frees[k] == Flag(s.count[k] == 0))
  }

  predicate HolderOk(s: State, h: map<Key, set<TableId>>, k: Key, t: TableId) {
    t in Holders(h, k) <==> k in Entries(s, t)
  }

  ghost predicate Inv(s: State, h: map<Key, set<TableId>>) {
    (forall k :: KeyOk(s, h, k)) && (forall k, t :: HolderOk(s, h, k, t))
  }

  function Track(h: map<Key, set<TableId>>, a: Action): map<Key, set<TableId>> {
    match a
    case Put(t, k, _) => h[k := Holders(h, k) + {t}]
    case Release(t, k) => h[k := Holders(h, k) - {t}]
    case _ => h
  }

  lemma KeyStep(s: State, h: map<Key, set<TableId>>, a: Action, k: Key)
    requires Enabled(s, a) && KeyOk(s, h, k)
    requires a.Put? || a.Release? ==> HolderOk(s, h, k, a.t)
    ensures KeyOk(Do(s, a), Track(h, a), k)
  {
    if a.Put? && a.k == k && a.t in Holders(h, k) {
      assert Holders(h, k) + {a.t} == Holders(h, k);
    }
  }

  lemma HolderStep(s: State, h: map<Key, set<TableId>>, a: Action, k: Key, t: TableId)
    requires Enabled(s, a) && HolderOk(s, h, k, t)
    ensures HolderOk(Do(s, a), Track(h, a), k, t)
  {
  }

  function Run(acts: seq<Action>): Option<State> {
    if acts == [] then Some(State(map[], {}, {}, map[], map[]))
    else
      match Run(acts[..|acts| - 1])
      case None => None
      case Some(s) => if Enabled(s, acts[|acts| - 1]) then Some(Do(s, acts[|acts| - 1])) else None
  }

  lemma {:induction false} RunKeeps(acts: seq<Action>) returns (h: map<Key, set<TableId>>)
    requires Run(acts).Some?
    ensures Inv(Run(acts).value, h)
  {
    h := map[];
    if acts != [] {
      var (before, a) := (acts[..|acts| - 1], acts[|acts| - 1]);
      var h' := RunKeeps(before);
      var s := Run(before).value;
      h := Track(h', a);
      forall k ensures KeyOk(Do(s, a), h, k) {
        assert KeyOk(s, h', k) && (a.Put? || a.Release? ==> HolderOk(s, h', k, a.t));
        KeyStep(s, h', a, k);
      }
      forall k, t ensures HolderOk(Do(s, a), h, k, t) {
        assert HolderOk(s, h', k, t);
        HolderStep(s, h', a, k, t);
      }
    }
  }

  /** Over any interleaving, a key object is freed at most once, and is freed exactly when its user has
      given it up and no table holds it any more; while a table holds it, its count is positive. */
  lemma FreedOnce(acts: seq<Action>, k: Key)
    requires Run(acts).Some? && k in Run(acts).value.count
    ensures var s := Run(acts).value;
      && k in s.frees && s.frees[k] <= 1
      && (s.frees[k] == 1 <==> k in s.dropped && forall t :: k !in Entries(s, t))
      && (forall t :: k in Entries(s, t) ==> s.count[k] > 0)
  {
    var h := RunKeeps(acts);
    var s := Run(acts).value;
    assert KeyOk(s, h, k);
    forall t ensures k in Entries(s, t) <==> t in Holders(h, k) {
      assert HolderOk(s, h, k, t);
    }
    if Holders(h, k) != {} {
      var t :| t in Holders(h, k);
      assert k in Entries(s, t);
    }
  }

  /** The reference count is the user's reference plus the number of tables that hold the key. */
  lemma CountIsHolders(acts: seq<Action>, k: Key) returns (holders: set<TableId>)
    requires Run(acts).Some? && k in Run(acts).value.count
    ensures var s := Run(acts).value;
      && (forall t :: t in holders <==> k in Entries(s, t))
      && s.count[k] == |holders| + Flag(k !in s.dropped)
  {
    var h := RunKeeps(acts);
    var s := Run(acts).value;
    holders := Holders(h, k);
    assert KeyOk(s, h, k);
    forall t ensures t in holders <==> k in Entries(s, t) {
      assert HolderOk(s, h, k, t);
    }
  }
}
