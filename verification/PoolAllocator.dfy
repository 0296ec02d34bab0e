/** The two-level pool allocator: thread-private stacks of four blocks of 64 elements, a global array of
    blocks behind a lock, and elements carved out of 32 MiB pages. An element is its address. */
module PoolSpec {

  const BLOCK: nat := 64
  const LOCAL: nat := 256          // capacity of a local pool
  const MOVED: nat := 128          // elements that move between a local pool and the global one
  const ALIGNMENT: nat := 128      // CACHELINE_SIZE, and the size of a page header
  const PAGE: nat := 33554432

  /** The element size, rounded up to the alignment. */
  function Rounded(size: nat): (r: nat)
    ensures r % ALIGNMENT == 0 && size <= r < size + ALIGNMENT
  {
    (size + ALIGNMENT - 1) / ALIGNMENT * ALIGNMENT
  }

  // ----- moves of blocks -----

  /** The end of the full blocks of a global pool. */
  function Full(g: seq<int>): (n: nat)
    ensures n <= |g| < n + BLOCK
  {
    |g| / BLOCK * BLOCK
  }

  function TakenSize(g: seq<int>): (n: nat)
    ensures n <= Full(g) && n <= MOVED
  {
    if Full(g) < MOVED then Full(g) else MOVED
  }

  /** What pool_alloc takes out of the global pool: at most two blocks, the last full ones. */
  function Taken(g: seq<int>): seq<int> {
    g[Full(g) - TakenSize(g)..Full(g)]
  }

  /** What it leaves: a partial last block slides down. */
  function Left(g: seq<int>): seq<int> {
    g[..Full(g) - TakenSize(g)] + g[Full(g)..]
  }

  /** The global pool after pool_free has put two blocks before a partial last block. */
  function Given(g: seq<int>, two: seq<int>): seq<int> {
    g[..Full(g)] + two + g[Full(g)..]
  }

  /** A stretch of g, taken out from right below its partial last block. */
  ghost predicate Cut(g: seq<int>, taken: seq<int>, left: seq<int>) {
    var a := |g| - |g| % BLOCK - |taken|;
    a >= 0 && taken == g[a..a + |taken|] && left == g[..a] + g[a + |taken|..]
  }

  /** As much as can be moved is moved: whole blocks, two of them unless not even one would be left. */
  lemma TakesAllItCan(g: seq<int>)
    ensures Cut(g, Taken(g), Left(g)) && |Taken(g)| % BLOCK == 0 && |Taken(g)| <= 2 * BLOCK
    ensures |Taken(g)| == 2 * BLOCK || |Left(g)| < BLOCK
  {
    assert Full(g) == |g| - |g| % BLOCK;
  }

  /** What one thread gives back is what the next one takes, and the pool is as before. */
  lemma GivenThenTaken(g: seq<int>, two: seq<int>)
    requires |two| == MOVED
    ensures Taken(Given(g, two)) == two && Left(Given(g, two)) == g
  {
    assert |Given(g, two)| == |g| + 128 && Full(Given(g, two)) == Full(g) + 128;
    assert Given(g, two)[Full(g)..Full(g) + 128] == two;
    assert Given(g, two)[..Full(g)] == g[..Full(g)] && Given(g, two)[Full(g) + 128..] == g[Full(g)..];
  }

  // ----- carving -----

  /** The rest of the page that a local pool carves from; ptr 0 is null. */
  datatype Region = Region(ptr: int, size: int)

  const NULL := Region(0, 0)

  function FreshRegion(base: int): Region {
    Region(base + ALIGNMENT, PAGE - ALIGNMENT)
  }

  /** The region after one element; dropped when too small for another. */
  function Carved(es: int, r: Region): Region {
    if r.size - es < es then NULL else Region(r.ptr + es, r.size - es)
  }

  /** The refill of a local pool that has already taken some elements: what it holds at the end, and what
      is left of its page. `bases` are the pages it gets from malloc. */
  function Refill(es: int, taken: seq<int>, r: Region, bases: seq<int>): (seq<int>, Region)
    decreases MOVED - |taken|, |bases|
  {
    if |taken| >= MOVED then (taken, r)
    else if r.ptr != 0 && r.size >= es then Refill(es, taken + [r.ptr], Carved(es, r), bases)
    else if bases != [] then Refill(es, taken, FreshRegion(bases[0]), bases[1..])
    else (taken, r)
  }

  /** What one page gives: elements side by side from its start on, until the local pool is filled or the
      rest of the page is too small for one more. */
  lemma {:induction false} PageElements(es: int, taken: seq<int>, r: Region) returns (k: nat)
    requires es > 0 && |taken| <= MOVED && r.ptr > 0 && r.size >= es
    ensures |taken| + k <= MOVED && k * es <= r.size && (|taken| + k == MOVED || r.size < (k + 1) * es)
    ensures Refill(es, taken, r, []).0 == taken + seq(k, i requires 0 <= i < k => r.ptr + i * es)
    ensures k > 0 ==> (Refill(es, taken, r, []).1 ==
      if r.size < (k + 1) * es then NULL else Region(r.ptr + k * es, r.size - k * es))
    decreases MOVED - |taken|
  {
    if |taken| == MOVED {
      k := 0;
    } else if Carved(es, r) == NULL {
      k := 1;
      assert Refill(es, taken + [r.ptr], NULL, []) == (taken + [r.ptr], NULL);
    } else {
      var rest := PageElements(es, taken + [r.ptr], Carved(es, r));
      k := rest + 1;
      assert (rest + 1) * es == rest * es + es && (rest + 2) * es == (rest + 1) * es + es;
      forall i | 0 <= i < rest ensures r.ptr + es + i * es == r.ptr + (i + 1) * es {
      }
      assert [r.ptr] + seq(rest, i requires 0 <= i < rest => r.ptr + es + i * es)
          == seq(k, i requires 0 <= i < k => r.ptr + i * es);
    }
  }

  /** Of the pages asked for, even the last was needed. */
  predicate Needed(es: int, taken: seq<int>, r: Region, bases: seq<int>) {
    bases != [] ==> |Refill(es, taken, r, bases[..|bases| - 1]).0| < MOVED
  }

  // ----- pages -----

  function PagesOf(bases: seq<int>): set<int> {
    if bases == [] then {} else PagesOf(bases[..|bases| - 1]) + {bases[|bases| - 1]}
  }

  ghost predicate Apart(p: int, q: int) {
    p + PAGE <= q || q + PAGE <= p
  }

  /** A page that malloc may return when it has returned `pages` before. */
  ghost predicate FreshPage(pages: set<int>, base: int) {
    base > 0 && base % ALIGNMENT == 0 && forall p :: p in pages ==> Apart(p, base)
  }

  /** Several such pages, one after the other. */
  ghost predicate FreshPages(pages: set<int>, bases: seq<int>) {
    bases == [] ||
    (FreshPages(pages, bases[..|bases| - 1]) && FreshPage(pages + PagesOf(bases[..|bases| - 1]), bases[|bases| - 1]))
  }

  lemma {:induction false} FirstPage(pages: set<int>, bases: seq<int>)
    requires bases != [] && FreshPages(pages, bases)
    ensures FreshPage(pages, bases[0]) && FreshPages(pages + {bases[0]}, bases[1..])
    ensures PagesOf(bases) == {bases[0]} + PagesOf(bases[1..])
  {
    var n := |bases|;
    if n > 1 {
      FirstPage(pages, bases[..n - 1]);
      assert bases[1..][..n - 2] == bases[..n - 1][1..];
      assert pages + PagesOf(bases[..n - 1]) == pages + {bases[0]} + PagesOf(bases[1..][..n - 2]);
    }
  }

  // ----- when a refill ends -----

  lemma {:induction false} EnoughPages(es: int, taken: seq<int>, r: Region, bases: seq<int>)
    requires 0 < es <= PAGE - ALIGNMENT && |taken| + |bases| >= MOVED && forall i :: 0 <= i < |bases| ==> bases[i] > 0
    requires r == NULL || (r.ptr > 0 && r.size >= es)
    ensures |Refill(es, taken, r, bases).0| >= MOVED
    decreases MOVED - |taken|
  {
    if |taken| >= MOVED {
    } else if r.ptr != 0 && r.size >= es {
      EnoughPages(es, taken + [r.ptr], Carved(es, r), bases);
    } else {
      var f := FreshRegion(bases[0]);
      EnoughPages(es, taken + [f.ptr], Carved(es, f), bases[1..]);
    }
  }

  lemma {:induction false} TooLarge(es: int, taken: seq<int>, r: Region, bases: seq<int>)
    requires es > PAGE - ALIGNMENT && |taken| < MOVED && (r == NULL || r.size <= PAGE - ALIGNMENT)
    ensures Refill(es, taken, r, bases).0 == taken
    decreases |bases|
  {
    if bases != [] {
      TooLarge(es, taken, FreshRegion(bases[0]), bases[1..]);
    }
  }

  /** A refill that needs a page comes to an end, with some number of pages, exactly when a page holds an
      element; otherwise it asks malloc for pages for ever. */
  lemma RefillEnds(es: int, taken: seq<int>)
    requires es > 0 && |taken| < MOVED
    ensures (exists bases :: |Refill(es, taken, NULL, bases).0| >= MOVED) <==> es <= PAGE - ALIGNMENT
  {
    if es <= PAGE - ALIGNMENT {
      var bases := seq(MOVED, i => 1);
      EnoughPages(es, taken, NULL, bases);
    } else {
      forall bases ensures |Refill(es, taken, NULL, bases).0| < MOVED {
        TooLarge(es, taken, NULL, bases);
      }
    }
  }

  // ----- how often the lock is taken -----

  datatype Op = AllocOp | FreeOp

  /** The critical section is entered by an allocation from an empty local pool and a release to a full one. */
  predicate Locks(num: int, o: Op) {
    if o.AllocOp? then num == 0 else num == LOCAL
  }

  /** The elements in the local pool after an operation. */
  function NumAfter(num: int, o: Op): int {
    if Locks(num, o) then (if o.AllocOp? then MOVED - 1 else LOCAL - MOVED + 1)
    else if o.AllocOp? then num - 1 else num + 1
  }

  function NumAfterAll(num: int, ops: seq<Op>): int {
    if ops == [] then num else NumAfter(NumAfterAll(num, ops[..|ops| - 1]), ops[|ops| - 1])
  }

  function LockCount(num: int, ops: seq<Op>): nat {
    if ops == [] then 0
    else LockCount(num, ops[..|ops| - 1]) + if Locks(NumAfterAll(num, ops[..|ops| - 1]), ops[|ops| - 1]) then 1 else 0
  }

  /** The distance to the nearer end of the local pool. */
  function Margin(num: int): int {
    if num < LOCAL - num then num else LOCAL - num
  }

  lemma {:induction false} LockPotential(num: int, ops: seq<Op>)
    requires 0 <= num <= LOCAL
    ensures 0 <= NumAfterAll(num, ops) <= LOCAL
    ensures MOVED * LockCount(num, ops) + Margin(num) <= |ops| + Margin(NumAfterAll(num, ops))
  {
    if ops != [] {
      LockPotential(num, ops[..|ops| - 1]);
    }
  }

  /** A thread that starts with an empty local pool takes the lock at most 1 + N / 128 times in N operations. */
  lemma LockBound(ops: seq<Op>)
    ensures LockCount(0, ops) <= 1 + |ops| / MOVED
  {
    LockPotential(0, ops);
  }

  /** Between two operations that take the lock there are at least 127 that do not. */
  lemma LockGap(num: int, o: Op, ops: seq<Op>, o': Op)
    requires 0 <= num <= LOCAL && Locks(num, o) && Locks(NumAfterAll(NumAfter(num, o), ops), o')
    ensures |ops| >= MOVED - 1
  {
    LockPotential(NumAfter(num, o), ops);
  }

  /** The bound is attained: N allocations in a row take the lock once for every 128 begun. */
  lemma {:induction false} LockAttained(ops: seq<Op>)
    requires forall i :: 0 <= i < |ops| ==> ops[i].AllocOp?
    ensures LockCount(0, ops) == (|ops| + MOVED - 1) / MOVED
    ensures NumAfterAll(0, ops) == LockCount(0, ops) * MOVED - |ops|
  {
    if ops != [] {
      LockAttained(ops[..|ops| - 1]);
    }
  }
}

module PoolAllocator {
  import opened PoolSpec

  function Reversed(s: seq<int>): seq<int> {
    if s == [] then [] else [s[|s| - 1]] + Reversed(s[..|s| - 1])
  }

  /** What becomes of the pages and the list of them when malloc returns `bases`. */
  ghost predicate Grown(pages: set<int>, bulk: seq<int>, pages': set<int>, bulk': seq<int>, bases: seq<int>) {
    FreshPages(pages, bases) && pages' == pages + PagesOf(bases) && bulk' == Reversed(bases) + bulk
  }

  /** malloc, for pages: some address that is aligned and overlaps no page handed out before. */
  class Memory {
    var next: int
    ghost var pages: set<int>

    ghost predicate Valid()
      reads this
    {
      next > 0 && next % ALIGNMENT == 0 && forall p :: p in pages ==> p > 0 && p % ALIGNMENT == 0 && p + PAGE <= next
    }

    constructor ()
      ensures Valid() && pages == {}
    {
      next := ALIGNMENT;
      pages := {};
    }

    method Malloc() returns (base: int)
      requires Valid()
      modifies this
      ensures Valid() && pages == old(pages) + {base}
      ensures FreshPage(old(pages), base)
    {
      base := next;
      next := next + PAGE;
      pages := pages + {base};
    }
  }

  /** A sequence after `count` of its elements have been copied from one place to another. */
  ghost function Copied(b: seq<int>, source: int, target: int, count: int): seq<int>
    requires 0 <= source && 0 <= target && source + count <= |b| && target + count <= |b| && count >= 0
  {
    b[..target] + b[source..source + count] + b[target + count..]
  }

  lemma SlidDown(b: seq<int>, b': seq<int>, n: nat, full: nat, from: nat)
    requires n <= |b| && |b'| == |b| && from + BLOCK <= full <= n < full + BLOCK
    requires n == full ==> b' == b
    requires n > full ==> full + BLOCK <= |b| && b' == Copied(b, full, from, BLOCK)
    ensures b'[..from + n - full] == b[..n][..from] + b[..n][full..]
  {
  }

  lemma SlidUp(b: seq<int>, up: seq<int>, b': seq<int>, n: nat, at: nat, two: seq<int>)
    requires n <= |b| && |up| == |b| && at <= n < at + BLOCK && at + MOVED <= |b| && |two| == MOVED
    requires n == at ==> up == b
    requires n > at ==> at + MOVED + BLOCK <= |b| && up == Copied(b, at, at + MOVED, BLOCK)
    requires b' == up[..at] + two + up[at + MOVED..]
    ensures n + MOVED <= |b| && b'[..n + MOVED] == b[..n][..at] + two + b[..n][at..]
  {
    assert up[..at] == b[..at];
    if n > at {
      assert up[at + MOVED..at + MOVED + BLOCK] == b[at..at + BLOCK];
      assert up[at + MOVED..][..n - at] == up[at + MOVED..at + MOVED + BLOCK][..n - at] == b[at..n];
    }
  }

  class LocalPool {
    var num: int
    var extraSize: int
    var extraPtr: int
    const blocks: array<int>

    ghost predicate Valid()
      reads this
    {
      blocks.Length == LOCAL && 0 <= num <= LOCAL
    }

    ghost function Stack(): seq<int>
      reads this, blocks
      requires Valid()
    {
      blocks[..num]
    }

    ghost function Extra(): Region
      reads this
    {
      Region(extraPtr, extraSize)
    }

    constructor ()
      ensures Valid() && fresh(blocks) && Stack() == [] && Extra() == NULL
    {
      num, extraSize, extraPtr := 0, 0, 0;
      blocks := new int[LOCAL](_ => 0);
    }
  }

  class GlobalPool {
    const elementSize: nat
    var num: int
    var lenBlocks: int
    var blocks: array<int>
    var bulk: seq<int>          // the list of pages, head first

    ghost predicate Valid()
      reads this
    {
      blocks.Length == lenBlocks * BLOCK && 0 <= num <= blocks.Length
    }

    ghost function Contents(): seq<int>
      reads this, blocks
      requires Valid()
    {
      blocks[..num]
    }

    constructor (elementSize: nat)
      ensures Valid() && fresh(blocks) && Contents() == [] && bulk == [] && this.elementSize == elementSize
    {
      this.elementSize := elementSize;
      num, lenBlocks, bulk := 0, 0, [];
      blocks := new int[0];
    }

    /** Copies one block, whole, to a place that it does not overlap. */
    method CopyBlock(source: int, target: int)
      requires Valid() && 0 <= source && 0 <= target && (source + BLOCK <= target || target + BLOCK <= source)
      requires source + BLOCK <= blocks.Length && target + BLOCK <= blocks.Length
      modifies blocks
      ensures Valid() && blocks[..] == Copied(old(blocks[..]), source, target, BLOCK)
    {
      forall i | 0 <= i < BLOCK {
        blocks[target + i] := blocks[source + i];
      }
    }

    /** Takes the last full blocks out of the array: a partial last block is copied down. */
    method RemoveBlocks(count: int)
      requires Valid() && 0 < count <= num / BLOCK
      modifies `num, blocks
      ensures Valid()
      ensures var g := old(Contents()); Contents() == g[..Full(g) - count * BLOCK] + g[Full(g)..]
    {
      ghost var b := blocks[..];
      var full := num / BLOCK * BLOCK;
      var from := full - count * BLOCK;
      num := num - count * BLOCK;
      if num % BLOCK != 0 {
        CopyBlock(full, from);
      }
      SlidDown(b, blocks[..], old(num), full, from);
      assert Contents() == blocks[..][..num] && old(Contents()) == b[..old(num)];
    }

    /** The critical section of pool_alloc: moves full blocks, at most two, to the start of a local pool. */
    method TakeBlocks(local: LocalPool) returns (numTaken: int)
      requires Valid() && local.Valid() && local.blocks != blocks
      modifies `num, blocks, local.blocks
      ensures Valid() && 0 <= numTaken <= 2 && numTaken * BLOCK == TakenSize(old(Contents()))
      ensures Contents() == Left(old(Contents()))
      ensures local.blocks[..numTaken * BLOCK] == Taken(old(Contents()))
      ensures numTaken == 2 || |Contents()| < BLOCK
    {
      ghost var g := Contents();
      var full := num / BLOCK;
      numTaken := if full < 2 then full else 2;
      if numTaken != 0 {
        var from := (full - numTaken) * BLOCK;
        forall i | 0 <= i < numTaken * BLOCK {
          local.blocks[i] := blocks[from + i];
        }
        assert local.blocks[..numTaken * BLOCK] == Taken(g);
        RemoveBlocks(numTaken);
      } else {
        assert Left(g) == g;
      }
    }

    /** atomic_insert_bulk of a new page. */
    method AddPage(mem: Memory) returns (base: int)
      requires Valid() && mem.Valid()
      modifies `bulk, mem
      ensures Valid() && mem.Valid() && bulk == [base] + old(bulk)
      ensures FreshPage(old(mem.pages), base) && mem.pages == old(mem.pages) + {base}
    {
      base := mem.Malloc();
      bulk := [base] + bulk;
    }

    /** Grows the array of blocks, keeping what it holds. */
    method Extend(required: int)
      requires Valid() && required > lenBlocks
      modifies this`blocks, this`lenBlocks
      ensures Valid() && fresh(blocks) && Contents() == old(Contents()) && lenBlocks >= required
    {
      var newLen := if lenBlocks * 2 < required then required else lenBlocks * 2;
      var old_ := blocks;
      var newBlocks := new int[newLen * BLOCK](_ => 0);
      forall i | 0 <= i < old_.Length {
        newBlocks[i] := old_[i];
      }
      blocks, lenBlocks := newBlocks, newLen;
    }

    /** Puts two blocks before a partial last block, which is copied up. */
    method InsertBlocks(local: LocalPool)
      requires Valid() && local.Valid() && local.blocks != blocks
      requires lenBlocks >= (num + BLOCK - 1 + MOVED) / BLOCK
      modifies blocks
      ensures Valid()
      ensures blocks[..num + MOVED] == Given(old(Contents()), local.blocks[LOCAL - MOVED..])
    {
      ghost var b := blocks[..];
      var at := num / BLOCK * BLOCK;
      if num % BLOCK != 0 {
        CopyBlock(at, at + MOVED);
      }
      ghost var up := blocks[..];
      forall i | 0 <= i < MOVED {
        blocks[at + i] := local.blocks[LOCAL - MOVED + i];
      }
      assert blocks[..] == up[..at] + local.blocks[LOCAL - MOVED..] + up[at + MOVED..];
      SlidUp(b, up, blocks[..], num, at, local.blocks[LOCAL - MOVED..]);
      assert blocks[..num + MOVED] == blocks[..][..num + MOVED] && Contents() == blocks[..][..num];
      assert old(Contents()) == b[..num];
    }

    /** The critical section of pool_free: moves the last two blocks of a full local pool. */
    method GiveBlocks(local: LocalPool)
      requires Valid() && local.Valid() && local.blocks != blocks && local.num == LOCAL
      modifies `num, `blocks, `lenBlocks, blocks
      ensures Valid() && (fresh(blocks) || blocks == old(blocks))
      ensures Contents() == Given(old(Contents()), old(local.Stack())[LOCAL - MOVED..])
    {
      var required := (num + BLOCK - 1 + MOVED) / BLOCK;
      if lenBlocks < required {
        Extend(required);
      }
      assert local.blocks[LOCAL - MOVED..] == local.Stack()[LOCAL - MOVED..];
      InsertBlocks(local);
      num := num + MOVED;
    }
  }

  lemma RefillCarves(es: int, taken: seq<int>, r: Region, bases: seq<int>)
    requires |taken| < MOVED && r.ptr != 0 && r.size >= es
    ensures Refill(es, taken, r, bases) == Refill(es, taken + [r.ptr], Carved(es, r), bases)
  {
  }

  lemma {:induction false} RefillPage(es: int, taken: seq<int>, r: Region, bases: seq<int>, base: int)
    requires |taken| <= MOVED
    requires var (t, q) := Refill(es, taken, r, bases); |t| < MOVED && q.ptr == 0
    ensures Refill(es, taken, r, bases + [base]) == Refill(es, Refill(es, taken, r, bases).0, FreshRegion(base), [])
    decreases MOVED - |taken|, |bases|
  {
    if |taken| >= MOVED {
    } else if r.ptr != 0 && r.size >= es {
      RefillPage(es, taken + [r.ptr], Carved(es, r), bases, base);
    } else if bases != [] {
      RefillPage(es, taken, FreshRegion(bases[0]), bases[1..], base);
      assert (bases + [base])[1..] == bases[1..] + [base];
    } else {
      assert (bases + [base])[1..] == [];
    }
  }

  /** The inner loop of the refill of pool_alloc: carves elements out of one page into the blocks. */
  method CarvePage(local: LocalPool, es: int, count: int, ptr: int, size: int) returns (n: int, ptr': int, size': int)
    requires local.Valid() && 0 <= count <= MOVED && ptr > 0 && 0 < es <= size
    modifies local.blocks
    ensures count <= n <= MOVED
    ensures var (t, r) := Refill(es, old(local.blocks[..count]), Region(ptr, size), []);
      local.blocks[..n] == t && |t| == n && r == (if size' < es then NULL else Region(ptr', size')) && ptr' > 0
    ensures n == MOVED || size' < es
    ensures count < MOVED ==> n > count
  {
    n, ptr', size' := count, ptr, size;
    while n < MOVED && size' >= es
      invariant count <= n <= MOVED && ptr' > 0
      invariant Refill(es, old(local.blocks[..count]), Region(ptr, size), [])
             == Refill(es, local.blocks[..n], if size' < es then NULL else Region(ptr', size'), [])
      invariant n > count || (n == count && size' == size)
      decreases MOVED - n
    {
      RefillCarves(es, local.blocks[..n], Region(ptr', size'), []);
      ghost var before := local.blocks[..n];
      local.blocks[n] := ptr';
      assert local.blocks[..n + 1] == before + [ptr'];
      ptr', size', n := ptr' + es, size' - es, n + 1;
    }
  }

  lemma RefillDone(es: int, taken: seq<int>, r: Region)
    requires |taken| >= MOVED || r == NULL
    ensures Refill(es, taken, r, []) == (taken, r)
  {
  }

  /** A page more, once the ones before are used up. */
  lemma RefillMore(es: int, taken: seq<int>, r: Region, bases: seq<int>, had: seq<int>, base: int)
    requires |taken| <= MOVED && |had| < MOVED
    requires Refill(es, taken, r, bases) == (had, NULL) || (bases == [] && had == taken && r == NULL)
    ensures Refill(es, taken, r, bases + [base]) == Refill(es, had, NULL, [base])
  {
    RefillDone(es, had, NULL);
    RefillPage(es, taken, r, bases, base);
    RefillPage(es, had, NULL, [], base);
    assert [] + [base] == [base];
  }

  lemma OneMorePage(p0: set<int>, b0: seq<int>, p1: set<int>, b1: seq<int>, bases: seq<int>, base: int)
    requires Grown(p0, b0, p1, b1, bases) && FreshPage(p1, base)
    ensures Grown(p0, b0, p1 + {base}, [base] + b1, bases + [base])
  {
    assert (bases + [base])[..|bases|] == bases;
    assert Reversed(bases + [base]) + b0 == [base] + (Reversed(bases) + b0);
  }

  lemma MorePages(p0: set<int>, b0: seq<int>, p1: set<int>, b1: seq<int>, p2: set<int>, b2: seq<int>, bases: seq<int>, more: seq<int>)
    requires Grown(p0, b0, p1, b1, bases) && Grown(p1, b1, p2, b2, more) && |more| <= 1
    ensures Grown(p0, b0, p2, b2, bases + more)
  {
    if more == [] {
      assert bases + more == bases;
    } else {
      assert more == [more[0]] && more[..0] == [];
      assert Reversed(more) == more && PagesOf(more) == {more[0]} && p1 + PagesOf(more[..0]) == p1;
      OneMorePage(p0, b0, p1, b1, bases, more[0]);
    }
  }

  /** One round of the outer loop: a new page if there is none, and what it gives. */
  method RefillRound(local: LocalPool, global: GlobalPool, mem: Memory, es: int, count: int, ptr: int, size: int)
    returns (n: int, ptr': int, size': int, bases: seq<int>)
    requires local.Valid() && global.Valid() && mem.Valid() && local.blocks != global.blocks
    requires 0 < es <= PAGE - ALIGNMENT && 0 <= count < MOVED
    requires ptr >= 0 && (ptr != 0 ==> size >= es) && (ptr == 0 ==> size == 0)
    modifies local.blocks, global`bulk, mem
    ensures local.Valid() && global.Valid() && mem.Valid()
    ensures count < n <= MOVED && ptr' >= 0 && (ptr' != 0 ==> size' >= es) && (ptr' == 0 ==> size' == 0)
    ensures (local.blocks[..n], Region(ptr', size')) == Refill(es, old(local.blocks[..count]), Region(ptr, size), bases)
    ensures n == MOVED || ptr' == 0
    ensures |bases| == if ptr == 0 then 1 else 0
    ensures Grown(old(mem.pages), old(global.bulk), mem.pages, global.bulk, bases)
  {
    bases, ptr', size' := [], ptr, size;
    if ptr == 0 {
      var base := global.AddPage(mem);
      bases, ptr', size' := [base], base + ALIGNMENT, PAGE - ALIGNMENT;
      assert bases[0] == base && bases[1..] == [] && bases[..0] == [];
    }
    n, ptr', size' := CarvePage(local, es, count, ptr', size');
    if size' < es {
      ptr', size' := 0, 0;
    }
  }

  /** The refill of pool_alloc outside the critical section. The loop ends because a page holds at least
      one element: es <= PAGE - ALIGNMENT. */
  method RefillBlocks(local: LocalPool, global: GlobalPool, mem: Memory, es: int, count: int) returns (bases: seq<int>)
    requires local.Valid() && global.Valid() && mem.Valid() && local.blocks != global.blocks
    requires 0 < es <= PAGE - ALIGNMENT && 0 <= count <= MOVED
    requires local.extraPtr >= 0 && (local.extraPtr != 0 ==> local.extraSize >= es) && (local.extraPtr == 0 ==> local.Extra() == NULL)
    modifies local`extraPtr, local`extraSize, local.blocks, global`bulk, mem
    ensures local.Valid() && global.Valid() && mem.Valid()
    ensures (local.blocks[..MOVED], local.Extra()) == Refill(es, old(local.blocks[..count]), old(local.Extra()), bases)
    ensures Needed(es, old(local.blocks[..count]), old(local.Extra()), bases)
    ensures Grown(old(mem.pages), old(global.bulk), mem.pages, global.bulk, bases)
  {
    var n, ptr, size := count, local.extraPtr, local.extraSize;
    bases := [];
    ghost var taken, r := local.blocks[..count], local.Extra();
    while n < MOVED
      invariant local.Valid() && global.Valid() && mem.Valid()
      invariant count <= n <= MOVED
      invariant ptr >= 0 && (ptr != 0 ==> size >= es) && (ptr == 0 ==> size == 0)
      invariant (n == count && bases == [] && local.blocks[..n] == taken && Region(ptr, size) == r) ||
        ((n == MOVED || ptr == 0) && Refill(es, taken, r, bases) == (local.blocks[..n], Region(ptr, size)))
      invariant Needed(es, taken, r, bases)
      invariant Grown(old(mem.pages), old(global.bulk), mem.pages, global.bulk, bases)
      decreases MOVED - n
    {
      ghost var had, held := local.blocks[..n], Region(ptr, size);
      ghost var pages, bulk := mem.pages, global.bulk;
      var more;
      n, ptr, size, more := RefillRound(local, global, mem, es, n, ptr, size);
      if more != [] {
        assert held == NULL && more == [more[0]];
        RefillMore(es, taken, r, bases, had, more[0]);
        RefillDone(es, had, NULL);
        assert (bases + more)[..|bases|] == bases;
      } else {
        assert bases + more == bases;
      }
      MorePages(old(mem.pages), old(global.bulk), pages, bulk, mem.pages, global.bulk, bases, more);
      bases := bases + more;
    }
    local.extraPtr, local.extraSize := ptr, size;
  }

  /** pool_alloc; `locked` tells whether it took the lock of the global pool. */
  method Alloc(local: LocalPool, global: GlobalPool, mem: Memory) returns (ptr: int, bases: seq<int>, locked: bool)
    requires local.Valid() && global.Valid() && mem.Valid() && local.blocks != global.blocks
    requires 0 < global.elementSize && Rounded(global.elementSize) <= PAGE - ALIGNMENT
    requires local.extraPtr >= 0 && (local.extraPtr == 0 ==> local.Extra() == NULL)
    requires local.extraPtr != 0 ==> local.extraSize >= Rounded(global.elementSize)
    modifies local, local.blocks, global`bulk, global`num, global.blocks, mem
    ensures local.Valid() && global.Valid() && mem.Valid()
    ensures locked == Locks(old(local.num), AllocOp) && local.num == NumAfter(old(local.num), AllocOp)
    ensures Grown(old(mem.pages), old(global.bulk), mem.pages, global.bulk, bases)
    ensures old(local.num) != 0 ==>
      local.Stack() + [ptr] == old(local.Stack()) && local.Extra() == old(local.Extra()) &&
      global.Contents() == old(global.Contents()) && bases == []
    ensures old(local.num) == 0 ==>
      global.Contents() == Left(old(global.Contents())) &&
      (local.Stack() + [ptr], local.Extra())
        == Refill(Rounded(global.elementSize), Taken(old(global.Contents())), old(local.Extra()), bases) &&
      Needed(Rounded(global.elementSize), Taken(old(global.Contents())), old(local.Extra()), bases)
    ensures old(local.num) == 0 && |old(global.Contents())| >= 2 * BLOCK ==>
      bases == [] && local.Extra() == old(local.Extra()) &&
      Cut(old(global.Contents()), local.Stack() + [ptr], global.Contents())
  {
    bases, locked := [], local.num == 0;
    TakesAllItCan(global.Contents());
    if locked {
      var numTaken := global.TakeBlocks(local);
      if numTaken != 2 {
        bases := RefillBlocks(local, global, mem, Rounded(global.elementSize), numTaken * BLOCK);
      }
      local.num := MOVED;
    }
    local.num := local.num - 1;
    ptr := local.blocks[local.num];
    assert local.blocks[..local.num + 1] == local.blocks[..local.num] + [ptr];
  }

  /** pool_free. */
  method Free(local: LocalPool, global: GlobalPool, ptr: int) returns (locked: bool)
    requires local.Valid() && global.Valid() && local.blocks != global.blocks
    modifies local`num, local.blocks, global`num, global`blocks, global`lenBlocks, global.blocks
    ensures local.Valid() && global.Valid()
    ensures locked == Locks(old(local.num), FreeOp) && local.num == NumAfter(old(local.num), FreeOp)
    ensures !locked ==> local.Stack() == old(local.Stack()) + [ptr] && global.Contents() == old(global.Contents())
    ensures locked ==>
      local.Stack() == old(local.Stack())[..LOCAL - MOVED] + [ptr] &&
      global.Contents() == Given(old(global.Contents()), old(local.Stack())[LOCAL - MOVED..])
  {
    locked := local.num == LOCAL;
    if locked {
      global.GiveBlocks(local);
      local.num := local.num - MOVED;
    }
    local.blocks[local.num] := ptr;
    local.num := local.num + 1;
  }
}
