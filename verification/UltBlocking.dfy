/** Blocking, waking and joining ULTs, step by step, over any number of execution streams (ES), ULTs and
    pools: set_blocked, suspend, set_ready, the scheduler's request dispatch and both ways to join. Which
    ULTs run what, and when an ES ends, is up to the interleaving. */
module UltBlocking {
  import opened Basics

  type Es = nat
  type Ult = nat
  type Pool = nat

  datatype Life = Ready | Running | Blocked | Terminated

  /** What a ULT does next. `j` is the ULT to be joined, if it blocks in order to join. */
  datatype Pc =
    | Body                        // user code
    | Request(t: Ult)             // join: JOIN is set on t, about to block
    | Mark(j: Option<Ult>)        // set_blocked: BLOCK is set
    | Count(j: Option<Ult>)       // state is BLOCKED
    | SetLink(t: Ult)             // join: num_blocked is counted
    | Suspend(j: Option<Ult>)     // about to switch to the scheduler
    | Asleep(j: Option<Ult>)      // switched away, to continue after suspend
    | Landed(t: Ult)              // back in join
    | Uncount                     // join: state is RUNNING again, num_blocked not yet decreased
    | JoinWait(t: Ult)            // direct join: waits until t is in the pool
    | JoinRemove(t: Ult)          // num_blocked is counted
    | JoinSwitch(t: Ult)          // t is out of the pool
    | EndOr                       // terminate: no link was seen
    | EndWait                     // JOIN was set before: waits for the link
    | EndStore                    // the joiner is being woken
    | EndSwitch                   // about to switch to the scheduler for good
    | Ended

  datatype Thread = Thread(
    life: Life,            // state
    block: bool,           // request: BLOCK
    join: bool,            // request: JOIN
    term: bool,            // request: TERMINATE
    pc: Pc,
    last: Option<Es>,      // p_last_xstream
    link: Option<Ult>      // the ULT that joins this one
  )

  /** What an ES executes. */
  datatype Ctx =
    | Idle
    | Popped(u: Ult)       // the scheduler has popped u
    | On(u: Ult)           // u
    | Back(u: Ult)         // the scheduler, about to look at u's requests
    | Pushing(u: Ult)      // the scheduler, having set u READY
    | Stopped              // the ES has ended

  /** How far a call of set_ready has come. */
  datatype Stage = Spin | Push

  /** home: each ULT's pool. scheds: the pools of each ES's scheduler. owner: the pools with one consumer. */
  datatype Config = Config(home: map<Ult, Pool>, scheds: map<Es, seq<Pool>>, owner: map<Pool, Es>)

  datatype State = State(
    thread: map<Ult, Thread>,
    es: map<Es, Ctx>,
    queue: map<Pool, multiset<Ult>>,
    blocked: map<Pool, int>,         // num_blocked
    wake: map<Ult, Stage>,           // calls of set_ready in progress, by ULT
    late: map<Pool, nat>,            // calls of set_ready that have pushed and not yet decreased num_blocked
    asked: map<Ult, Ult>             // the ULT that joins or has joined each ULT
  )

  datatype SchedStep = Pop(p: Pool, u: Ult) | Start | Dispatch | PushBack | Stop

  datatype OwnStep =
    | Block                   // begins to block for something else than a join
    | Advance                 // a step that changes its own record and num_blocked only
    | Leave                   // switches to the scheduler: yield, suspend or the end
    | JoinIndirect(t: Ult)    // join through the JOIN request
    | JoinDirect(t: Ult)      // join by running the target at once
    | LinkTarget
    | DirectRemove
    | DirectSwitch
    | End
    | EndWake

  datatype HelpStep =
    | Create(u: Ult)
    | Wake(u: Ult)            // set_ready for a ULT that waits for something else than a join
    | WakeReady(u: Ult)
    | WakePush(u: Ult)
    | WakeDecrease(p: Pool)

  datatype Action =
    | Sched(e: Es, d: SchedStep)    // the scheduler of an ES
    | Own(e: Es, o: OwnStep)        // the ULT that runs on an ES
    | Help(h: HelpStep)             // creation, or a call of set_ready

  function Queue(s: State, p: Pool): multiset<Ult> {
    if p in s.queue then s.queue[p] else multiset{}
  }

  function NumBlocked(s: State, p: Pool): int {
    if p in s.blocked then s.blocked[p] else 0
  }

  function Late(s: State, p: Pool): nat {
    if p in s.late then s.late[p] else 0
  }

  function SetQueue(s: State, p: Pool, q: multiset<Ult>): State {
    s.(queue := s.queue[p := q])
  }

  function AddBlocked(s: State, p: Pool, n: int): State {
    s.(blocked := s.blocked[p := NumBlocked(s, p) + n])
  }

  function SetEs(s: State, e: Es, x: Ctx): State {
    s.(es := s.es[e := x])
  }

  function SetThread(s: State, u: Ult, x: Thread): State {
    s.(thread := s.thread[u := x])
  }

  /** The ES runs a ULT, which is at one of its own steps. */
  predicate Runs(c: Config, s: State, e: Es) {
    e in s.es && s.es[e].On? && s.es[e].u in s.thread && s.es[e].u in c.home
  }

  function PcOn(s: State, e: Es): Pc {
    if e in s.es && s.es[e].On? && s.es[e].u in s.thread then s.thread[s.es[e].u].pc else Ended
  }

  predicate MayPop(c: Config, e: Es, p: Pool) {
    e in c.scheds && p in c.scheds[e] && (p in c.owner ==> c.owner[p] == e)
  }

  predicate CanAdvance(c: Config, s: State, pc: Pc) {
    match pc
    case Request(_) => true
    case Mark(_) => true
    case Count(_) => true
    case Landed(_) => true
    case Uncount => true
    case JoinWait(t) => t in c.home && t in Queue(s, c.home[t])
    case EndOr => true
    case EndStore => true
    case _ => false
  }

  predicate CanSched(c: Config, s: State, e: Es, d: SchedStep) {
    e in s.es &&
    match d
    case Pop(p, u) => s.es[e].Idle? && MayPop(c, e, p) && u in Queue(s, p)
    case Start => s.es[e].Popped? && s.es[e].u in s.thread
    case Dispatch => s.es[e].Back? && s.es[e].u in s.thread
    case PushBack => s.es[e].Pushing? && s.es[e].u in c.home
    case Stop => s.es[e].Idle?
  }

  predicate CanOwn(c: Config, s: State, e: Es, o: OwnStep) {
    Runs(c, s, e) &&
    match o
    case Block => PcOn(s, e).Body?
    case Advance => CanAdvance(c, s, PcOn(s, e))
    case Leave => PcOn(s, e).Body? || PcOn(s, e).Suspend? || PcOn(s, e).EndSwitch?
    case JoinIndirect(t) => PcOn(s, e).Body? && t in s.thread && t != s.es[e].u && t !in s.asked
    case JoinDirect(t) =>
      PcOn(s, e).Body? && t in s.thread && t != s.es[e].u && t !in s.asked &&
      t in c.home && c.home[t] == c.home[s.es[e].u] && c.home[t] in c.owner && s.thread[t].life.Ready?
    case LinkTarget => PcOn(s, e).SetLink? && PcOn(s, e).t in s.thread
    case DirectRemove => PcOn(s, e).JoinRemove? && PcOn(s, e).t in c.home
    case DirectSwitch => PcOn(s, e).JoinSwitch? && PcOn(s, e).t in s.thread
    case End => PcOn(s, e).Body?
    case EndWake => PcOn(s, e).EndWait? && s.thread[s.es[e].u].link.Some?
  }

  predicate CanHelp(c: Config, s: State, h: HelpStep) {
    match h
    case Create(u) => u !in s.thread && u in c.home
    case Wake(u) =>
      u in s.thread && s.thread[u].life.Blocked? && u !in s.wake &&
      (s.thread[u].pc == Count(None) || s.thread[u].pc == Suspend(None) || s.thread[u].pc == Asleep(None))
    case WakeReady(u) => u in s.thread && u in s.wake && s.wake[u].Spin? && !s.thread[u].block
    case WakePush(u) => u in s.thread && u in c.home && u in s.wake && s.wake[u].Push?
    case WakeDecrease(p) => Late(s, p) > 0
  }

  predicate Enabled(c: Config, s: State, a: Action) {
    match a
    case Sched(e, d) => CanSched(c, s, e, d)
    case Own(e, o) => CanOwn(c, s, e, o)
    case Help(h) => CanHelp(c, s, h)
  }

  /** The steps inside set_blocked, the end of join and terminate that change only the ULT's own record. */
  function Advanced(x: Thread): Thread {
    match x.pc
    case Request(t) => x.(block := true, pc := Mark(Some(t)))
    case Mark(j) => x.(life := Blocked, pc := Count(j))
    case Count(j) => x.(pc := if j.Some? then SetLink(j.value) else Suspend(None))
    case Landed(_) => if x.life.Blocked? then x.(life := Running, pc := Uncount) else x.(pc := Body)
    case Uncount => x.(pc := Body)
    case JoinWait(t) => x.(pc := JoinRemove(t))
    case EndOr => x.(join := true, term := true, pc := if x.join then EndWait else EndSwitch)
    case EndStore => x.(join := false, term := true, pc := EndSwitch)
    case _ => x
  }

  /** What such a step adds to num_blocked. */
  function Delta(pc: Pc): int {
    if pc.Count? || pc.JoinWait? then 1 else if pc.Uncount? then -1 else 0
  }

  function AfterLeave(pc: Pc): Pc {
    match pc
    case Suspend(j) => Asleep(j)
    case EndSwitch => Ended
    case _ => pc
  }

  /** A yield sets READY before it switches to the scheduler. */
  function HasLeft(x: Thread): Thread {
    x.(pc := AfterLeave(x.pc), life := if x.pc.Body? then Ready else x.life)
  }

  /** Where a ULT continues when it is switched to. */
  function Continue(pc: Pc): Pc {
    match pc
    case Asleep(None) => Body
    case Asleep(Some(t)) => Landed(t)
    case _ => pc
  }

  function Started(x: Thread, e: Es): Thread {
    x.(last := Some(e), life := Running, pc := Continue(x.pc))
  }

  /** The ULT that ends has a joiner that last ran on the same ES. */
  predicate Jumps(s: State, u: Ult) {
    u in s.thread && s.thread[u].link.Some? && s.thread[u].link.value in s.thread &&
    s.thread[u].last == s.thread[s.thread[u].link.value].last
  }

  function DoJump(s: State, e: Es, u: Ult, j: Ult): State
    requires u in s.thread && j in s.thread
  {
    SetEs(SetThread(SetThread(s, u, s.thread[u].(life := Terminated)), j, s.thread[j].(pc := Landed(u))), e, On(j))
  }

  /** ABTDI_thread_terminate up to its first branch: with a link to a ULT that last ran on the same ES it
      jumps there; with another link it calls set_ready; without one it goes on to the fetch_or. */
  function DoEnd(s: State, e: Es, u: Ult): State
    requires u in s.thread
  {
    var x := s.thread[u];
    if Jumps(s, u) then DoJump(s, e, u, x.link.value)
    else if x.link.Some? then SetThread(s, u, x.(pc := EndStore)).(wake := s.wake[x.link.value := Spin])
    else SetThread(s, u, x.(pc := EndOr))
  }

  /** The request dispatch of schedule_thread. */
  function DoDispatch(s: State, e: Es): State
    requires e in s.es && s.es[e].Back? && s.es[e].u in s.thread
  {
    var u := s.es[e].u;
    var x := s.thread[u];
    if x.term then SetEs(SetThread(s, u, x.(life := Terminated)), e, Idle)
    else if !x.block then SetEs(SetThread(s, u, x.(life := Ready)), e, Pushing(u))
    else SetEs(SetThread(s, u, x.(block := false)), e, Idle)
  }

  function DoIndirect(s: State, e: Es, t: Ult): State
    requires e in s.es && s.es[e].On? && s.es[e].u in s.thread && t in s.thread
  {
    var u := s.es[e].u;
    if s.thread[t].join then s
    else
      var s1 := SetThread(s, t, s.thread[t].(join := true));
      SetThread(s1, u, s1.thread[u].(pc := Request(t))).(asked := s.asked[t := u])
  }

  function DoLink(s: State, e: Es): State
    requires PcOn(s, e).SetLink? && PcOn(s, e).t in s.thread
  {
    var u := s.es[e].u;
    var t := PcOn(s, e).t;
    var s1 := SetThread(s, t, s.thread[t].(link := Some(u)));
    SetThread(s1, u, s1.thread[u].(pc := Suspend(Some(t))))
  }

  function DoDirect(s: State, e: Es): State
    requires PcOn(s, e).JoinSwitch? && PcOn(s, e).t in s.thread
  {
    var u := s.es[e].u;
    var t := PcOn(s, e).t;
    var s1 := SetThread(s, t, Started(s.thread[t], e).(link := Some(u)));
    SetEs(SetThread(s1, u, s1.thread[u].(life := Blocked, pc := Asleep(Some(t)))), e, On(t))
  }

  function DoSched(c: Config, s: State, e: Es, d: SchedStep): State
    requires CanSched(c, s, e, d)
  {
    match d
    case Pop(p, u) => SetEs(SetQueue(s, p, Queue(s, p) - multiset{u}), e, Popped(u))
    case Start => SetEs(SetThread(s, s.es[e].u, Started(s.thread[s.es[e].u], e)), e, On(s.es[e].u))
    case Dispatch => DoDispatch(s, e)
    case PushBack =>
      SetEs(SetQueue(s, c.home[s.es[e].u], Queue(s, c.home[s.es[e].u]) + multiset{s.es[e].u}), e, Idle)
    case Stop => SetEs(s, e, Stopped)
  }

  function DoOwn(c: Config, s: State, e: Es, o: OwnStep): State
    requires CanOwn(c, s, e, o)
  {
    var u := s.es[e].u;
    var x := s.thread[u];
    match o
    case Block => SetThread(s, u, x.(block := true, pc := Mark(None)))
    case Advance => AddBlocked(SetThread(s, u, Advanced(x)), c.home[u], Delta(x.pc))
    case Leave => SetEs(SetThread(s, u, HasLeft(x)), e, Back(u))
    case JoinIndirect(t) => DoIndirect(s, e, t)
    case JoinDirect(t) => SetThread(s, u, x.(pc := JoinWait(t))).(asked := s.asked[t := u])
    case LinkTarget => DoLink(s, e)
    case DirectRemove =>
      var t := x.pc.t;
      SetQueue(SetThread(s, u, x.(pc := JoinSwitch(t))), c.home[t], Queue(s, c.home[t]) - multiset{t})
    case DirectSwitch => DoDirect(s, e)
    case End => DoEnd(s, e, u)
    case EndWake => SetThread(s, u, x.(pc := EndSwitch)).(wake := s.wake[x.link.value := Spin])
  }

  function DoHelp(c: Config, s: State, h: HelpStep): State
    requires CanHelp(c, s, h)
  {
    match h
    case Create(u) =>
      SetQueue(SetThread(s, u, Thread(Ready, false, false, false, Body, None, None)), c.home[u],
        Queue(s, c.home[u]) + multiset{u})
    case Wake(u) => s.(wake := s.wake[u := Spin])
    case WakeReady(u) => SetThread(s, u, s.thread[u].(life := Ready)).(wake := s.wake[u := Push])
    case WakePush(u) =>
      var p := c.home[u];
      SetQueue(s, p, Queue(s, p) + multiset{u}).(wake := s.wake - {u}, late := s.late[p := Late(s, p) + 1])
    case WakeDecrease(p) => AddBlocked(s, p, -1).(late := s.late[p := Late(s, p) - 1])
  }

  function Do(c: Config, s: State, a: Action): State
    requires Enabled(c, s, a)
  {
    match a
    case Sched(e, d) => DoSched(c, s, e, d)
    case Own(e, o) => DoOwn(c, s, e, o)
    case Help(h) => DoHelp(c, s, h)
  }

  // ----- where a ULT is -----

  datatype Place =
    | OnEs(e: Es)       // running, or in the hands of the ES's scheduler or of the ULT that runs there
    | In(p: Pool)
    | Off               // blocked
    | Done

  /** The ULT that is taken out of its pool by the one that runs on the ES. */
  function Claims(s: State, e: Es): Option<Ult> {
    if PcOn(s, e).JoinSwitch? then Some(PcOn(s, e).t) else None
  }

  /** How many times a ULT is found in one place. */
  function Times(s: State, k: Place, u: Ult): nat {
    match k
    case OnEs(e) =>
      Flag(e in s.es && !s.es[e].Idle? && !s.es[e].Stopped? && s.es[e].u == u) + Flag(Claims(s, e) == Some(u))
    case In(p) => Queue(s, p)[u]
    case Off =>
      Flag(u in s.thread && s.thread[u].pc.Asleep? && !s.thread[u].block && (s.thread[u].life.Blocked? || u in s.wake))
    case Done => Flag(u in s.thread && s.thread[u].life.Terminated?)
  }

  predicate At(s: State, w: map<Ult, Place>, k: Place, u: Ult) {
    Times(s, k, u) == Flag(u in w && w[u] == k)
  }

  ghost predicate Placed(s: State, w: map<Ult, Place>) {
    forall k, u :: At(s, w, k, u)
  }

  /** Fit to be in a pool. */
  predicate Fit(s: State, u: Ult) {
    u in s.thread && u !in s.wake &&
    var x := s.thread[u]; x.life.Ready? && !x.block && !x.term && (x.pc.Body? || x.pc.Asleep?)
  }

  /** Only the first stage of a wake-up can have begun. */
  predicate Early(s: State, u: Ult) {
    u in s.wake ==> s.wake[u].Spin?
  }

  predicate Direct(c: Config, u: Ult, t: Ult) {
    t != u && t in c.home && u in c.home && c.home[t] == c.home[u] && c.home[t] in c.owner
  }

  /** A ULT that runs: what its state and requests are at each of its own steps. */
  predicate Active(c: Config, s: State, u: Ult) {
    u in s.thread &&
    var x := s.thread[u];
    (x.block <==> x.pc.Mark? || x.pc.Count? || x.pc.SetLink? || x.pc.Suspend?) &&
    (x.term <==> x.pc.EndWait? || x.pc.EndSwitch?) &&
    match x.pc
    case Count(_) => x.life.Blocked? && Early(s, u)
    case SetLink(_) => x.life.Blocked? && Early(s, u)
    case Suspend(_) => x.life.Blocked? && Early(s, u)
    case Landed(_) => (x.life.Blocked? || x.life.Running?) && u !in s.wake
    case JoinWait(t) => x.life.Running? && u !in s.wake && Direct(c, u, t)
    case JoinRemove(t) => x.life.Running? && u !in s.wake && Direct(c, u, t)
    case JoinSwitch(t) => x.life.Running? && u !in s.wake && Direct(c, u, t)
    case Asleep(_) => false
    case Ended => false
    case _ => x.life.Running? && u !in s.wake
  }

  /** A ULT that has just switched to the scheduler. */
  predicate Returned(s: State, u: Ult) {
    u in s.thread &&
    var x := s.thread[u];
    match x.pc
    case Body => x.life.Ready? && !x.block && !x.term && u !in s.wake
    case Asleep(_) => x.life.Blocked? && x.block && !x.term && Early(s, u)
    case Ended => x.life.Running? && !x.block && x.term && u !in s.wake
    case _ => false
  }

  /** A ULT about to be removed from its pool is still there: its pool has no other consumer. */
  predicate RemoveOk(c: Config, s: State, u: Ult) {
    u in s.thread && s.thread[u].pc.JoinRemove? && s.thread[u].pc.t in c.home ==>
      Queue(s, c.home[s.thread[u].pc.t])[s.thread[u].pc.t] > 0
  }

  predicate MayRun(c: Config, u: Ult, e: Es) {
    u in c.home && (c.home[u] in c.owner ==> c.owner[c.home[u]] == e)
  }

  predicate OnOk(c: Config, s: State, u: Ult, e: Es) {
    e in s.es && MayRun(c, u, e) &&
    match s.es[e]
    case Popped(v) => Fit(s, u)
    case Pushing(v) => Fit(s, u)
    case On(v) => if v == u then Active(c, s, u) && s.thread[u].last == Some(e) else Fit(s, u)
    case Back(v) => Returned(s, u) && s.thread[u].last == Some(e)
    case _ => false
  }

  /** What holds of a ULT in each place. */
  predicate Ok(c: Config, s: State, u: Ult, k: Place) {
    u in s.thread && u in c.home &&
    (s.thread[u].last.Some? ==> MayRun(c, u, s.thread[u].last.value)) &&
    match k
    case OnEs(e) => OnOk(c, s, u, e)
    case In(p) => Fit(s, u) && p == c.home[u]
    case Off =>
      s.thread[u].pc.Asleep? && !s.thread[u].block && !s.thread[u].term && s.thread[u].last.Some? &&
      (if u in s.wake && s.wake[u].Push? then s.thread[u].life.Ready? else s.thread[u].life.Blocked?)
    case Done => s.thread[u].life.Terminated? && u !in s.wake && (s.thread[u].pc.Body? || s.thread[u].pc.Ended?)
  }

  /** The joiner, if any, has been woken. */
  predicate Past(x: Thread) {
    x.life.Terminated? || x.pc.EndStore? || x.pc.EndSwitch? || x.pc.Ended?
  }

  /** j sleeps, or is about to, until t ends. */
  predicate Owed(s: State, j: Ult, t: Ult) {
    j in s.thread && (s.thread[j].pc == Suspend(Some(t)) || s.thread[j].pc == Asleep(Some(t))) &&
    s.thread[j].life.Blocked? && j !in s.wake
  }

  predicate TargetOk(s: State, t: Ult) {
    t in s.thread &&
    var x := s.thread[t];
    && (x.link.Some? && !Past(x) ==> Owed(s, x.link.value, t))
    && (x.pc.EndOr? && x.link.Some? ==> x.join)
    && (t !in s.asked ==> x.link.None? && (x.join <==> Past(x)))
    && (x.pc.EndStore? ==> t in s.asked)
  }

  predicate Asks(s: State, j: Ult, t: Ult) {
    t in s.thread && t in s.asked && s.asked[t] == j && t != j
  }

  /** The ULT that another one joins at each step of a join. */
  function Target(pc: Pc): Option<Ult> {
    match pc
    case Request(t) => Some(t)
    case Mark(j) => j
    case Count(j) => j
    case SetLink(t) => Some(t)
    case Suspend(j) => j
    case Asleep(j) => j
    case JoinWait(t) => Some(t)
    case JoinRemove(t) => Some(t)
    case JoinSwitch(t) => Some(t)
    case _ => None
  }

  /** The two sides of a join agree. */
  predicate JoinOk(s: State, j: Ult, t: Ult) {
    j in s.thread && Asks(s, j, t) &&
    var pc := s.thread[j].pc;
    var y := s.thread[t];
    if pc.Suspend? || pc.Asleep? then (Owed(s, j, t) ==> y.link == Some(j) && !Past(y))
    else y.link.None? && (pc.Request? || pc.Mark? || pc.Count? || pc.SetLink? ==> y.join && !Past(y) && j !in s.wake)
  }

  predicate JoinerOk(s: State, j: Ult) {
    j in s.thread && (Target(s.thread[j].pc).Some? ==> JoinOk(s, j, Target(s.thread[j].pc).value))
  }

  predicate Counts(x: Thread, waking: bool) {
    match x.pc
    case SetLink(_) => true
    case Suspend(_) => true
    case JoinRemove(_) => true
    case JoinSwitch(_) => true
    case Uncount => true
    case Landed(_) => x.life.Blocked?
    case Asleep(_) => x.life.Blocked? || waking
    case _ => false
  }

  /** The ULTs that num_blocked counts. */
  predicate Counted(s: State, u: Ult) {
    u in s.thread && Counts(s.thread[u], u in s.wake)
  }

  function Ledger(b: map<Pool, set<Ult>>, p: Pool): set<Ult> {
    if p in b then b[p] else {}
  }

  /** num_blocked is the number of counted ULTs, plus the decrements that are still to come. */
  predicate PoolOk(c: Config, s: State, b: map<Pool, set<Ult>>, p: Pool) {
    && NumBlocked(s, p) == |Ledger(b, p)| + Late(s, p)
    && (forall u :: u in Ledger(b, p) ==> u in c.home && c.home[u] == p && Counted(s, u))
  }

  ghost predicate Inv(c: Config, s: State, w: map<Ult, Place>, b: map<Pool, set<Ult>>) {
    && (forall u :: u in w <==> u in s.thread)
    && Placed(s, w)
    && (forall u :: u in w ==> Ok(c, s, u, w[u]))
    && (forall u :: u in s.wake || u in s.asked ==> u in s.thread)
    && (forall u :: u in s.thread ==> RemoveOk(c, s, u))
    && (forall t :: t in s.thread ==> TargetOk(s, t))
    && (forall j :: j in s.thread ==> JoinerOk(s, j))
    && (forall p :: PoolOk(c, s, b, p))
    && (forall u :: Counted(s, u) ==> u in c.home && u in Ledger(b, c.home[u]))
  }

  // ----- how the places change -----

  function TrackSched(c: Config, s: State, w: map<Ult, Place>, e: Es, d: SchedStep): map<Ult, Place>
    requires CanSched(c, s, e, d)
  {
    match d
    case Pop(p, u) => w[u := OnEs(e)]
    case Dispatch =>
      var u := s.es[e].u;
      if s.thread[u].term then w[u := Done] else if s.thread[u].block then w[u := Off] else w
    case PushBack => w[s.es[e].u := In(c.home[s.es[e].u])]
    case _ => w
  }

  function TrackOwn(c: Config, s: State, w: map<Ult, Place>, e: Es, o: OwnStep): map<Ult, Place>
    requires CanOwn(c, s, e, o)
  {
    var u := s.es[e].u;
    var x := s.thread[u];
    match o
    case DirectRemove => w[x.pc.t := OnEs(e)]
    case DirectSwitch => w[u := Off]
    case End => if Jumps(s, u) then w[u := Done][x.link.value := OnEs(e)] else w
    case _ => w
  }

  function TrackHelp(c: Config, s: State, w: map<Ult, Place>, h: HelpStep): map<Ult, Place>
    requires CanHelp(c, s, h)
  {
    match h
    case Create(u) => w[u := In(c.home[u])]
    case WakePush(u) => w[u := In(c.home[u])]
    case _ => w
  }

  function Track(c: Config, s: State, w: map<Ult, Place>, a: Action): map<Ult, Place>
    requires Enabled(c, s, a)
  {
    match a
    case Sched(e, d) => TrackSched(c, s, w, e, d)
    case Own(e, o) => TrackOwn(c, s, w, e, o)
    case Help(h) => TrackHelp(c, s, w, h)
  }

  // Each step is made of a few changes; these are what one change does to the places.

  predicate IsOff(s: State, u: Ult, x: Thread) {
    x.pc.Asleep? && !x.block && (x.life.Blocked? || u in s.wake)
  }

  lemma ThreadPlaces(s: State, u: Ult, x: Thread, k: Place, v: Ult)
    requires u in s.thread && (x.pc.JoinSwitch? || s.thread[u].pc.JoinSwitch? ==> x.pc == s.thread[u].pc)
    ensures Times(SetThread(s, u, x), k, v) ==
      if v != u || k.OnEs? || k.In? then Times(s, k, v)
      else if k.Off? then Flag(IsOff(s, u, x)) else Flag(x.life.Terminated?)
  {
  }

  lemma EsPlaces(s: State, e: Es, x: Ctx, k: Place, v: Ult)
    requires Claims(s, e).None? && Claims(SetEs(s, e, x), e).None?
    ensures Times(SetEs(s, e, x), k, v) ==
      if k == OnEs(e) then Flag(!x.Idle? && !x.Stopped? && x.u == v) else Times(s, k, v)
  {
  }

  lemma QueuePlaces(s: State, p: Pool, q: multiset<Ult>, k: Place, v: Ult)
    ensures Times(SetQueue(s, p, q), k, v) == if k == In(p) then q[v] else Times(s, k, v)
  {
  }

  lemma BothPlaces(s: State, u: Ult, x: Thread, e: Es, ctx: Ctx, k: Place, v: Ult)
    requires u in s.thread && !x.pc.JoinSwitch? && !s.thread[u].pc.JoinSwitch?
    requires Claims(s, e).None? && Claims(SetEs(SetThread(s, u, x), e, ctx), e).None?
    ensures Times(SetEs(SetThread(s, u, x), e, ctx), k, v) ==
      if k == OnEs(e) then Flag(!ctx.Idle? && !ctx.Stopped? && ctx.u == v)
      else if v != u || k.OnEs? || k.In? then Times(s, k, v)
      else if k.Off? then Flag(IsOff(s, u, x)) else Flag(x.life.Terminated?)
  {
    ThreadPlaces(s, u, x, k, v);
    EsPlaces(SetThread(s, u, x), e, ctx, k, v);
  }

  lemma QueueEsPlaces(s: State, p: Pool, q: multiset<Ult>, e: Es, ctx: Ctx, k: Place, v: Ult)
    requires Claims(s, e).None? && !ctx.On?
    ensures Times(SetEs(SetQueue(s, p, q), e, ctx), k, v) ==
      if k == OnEs(e) then Flag(!ctx.Idle? && !ctx.Stopped? && ctx.u == v)
      else if k == In(p) then q[v] else Times(s, k, v)
  {
    QueuePlaces(s, p, q, k, v);
    EsPlaces(SetQueue(s, p, q), e, ctx, k, v);
  }

  lemma IndirectTimes(s: State, e: Es, t: Ult, k: Place, v: Ult)
    requires PcOn(s, e).Body? && e in s.es && s.es[e].On? && s.es[e].u in s.thread && t in s.thread && t != s.es[e].u
    ensures Times(DoIndirect(s, e, t), k, v) == Times(s, k, v)
  {
    var u := s.es[e].u;
    var s1 := SetThread(s, t, s.thread[t].(join := true));
    ThreadPlaces(s, t, s.thread[t].(join := true), k, v);
    ThreadPlaces(s1, u, s1.thread[u].(pc := Request(t)), k, v);
  }

  lemma DispatchTimes(s: State, e: Es, k: Place, v: Ult)
    requires e in s.es && s.es[e].Back? && Returned(s, s.es[e].u)
    ensures var u := s.es[e].u; var x := s.thread[u];
      Times(DoDispatch(s, e), k, v) ==
        if k == OnEs(e) then Flag(v == u && !x.term && !x.block)
        else if v == u && k.Done? then Flag(x.term)
        else if v == u && k.Off? then Flag(x.block)
        else Times(s, k, v)
  {
    var u := s.es[e].u;
    var x := s.thread[u];
    if x.term {
      BothPlaces(s, u, x.(life := Terminated), e, Idle, k, v);
    } else if x.block {
      BothPlaces(s, u, x.(block := false), e, Idle, k, v);
    } else {
      BothPlaces(s, u, x.(life := Ready), e, Pushing(u), k, v);
    }
  }

  lemma BlockPlaces(c: Config, s: State, w: map<Ult, Place>, e: Es, k: Place, v: Ult)
    requires CanOwn(c, s, e, Block) && At(s, w, k, v)
    requires Active(c, s, s.es[e].u)
    ensures At(DoOwn(c, s, e, Block), TrackOwn(c, s, w, e, Block), k, v)
  {
    ThreadPlaces(s, s.es[e].u, s.thread[s.es[e].u].(block := true, pc := Mark(None)), k, v);
  }

  lemma AdvancePlaces(c: Config, s: State, w: map<Ult, Place>, e: Es, k: Place, v: Ult)
    requires CanOwn(c, s, e, Advance) && At(s, w, k, v)
    requires Active(c, s, s.es[e].u)
    ensures At(DoOwn(c, s, e, Advance), TrackOwn(c, s, w, e, Advance), k, v)
  {
    ThreadPlaces(s, s.es[e].u, Advanced(s.thread[s.es[e].u]), k, v);
  }

  lemma LeavePlaces(c: Config, s: State, w: map<Ult, Place>, e: Es, k: Place, v: Ult)
    requires CanOwn(c, s, e, Leave) && At(s, w, k, v)
    requires PcOn(s, e).Suspend? ==> s.thread[s.es[e].u].block
    requires PcOn(s, e).Body? ==> s.thread[s.es[e].u].life.Running?
    ensures At(DoOwn(c, s, e, Leave), TrackOwn(c, s, w, e, Leave), k, v)
  {
    var u := s.es[e].u;
    BothPlaces(s, u, HasLeft(s.thread[u]), e, Back(u), k, v);
  }

  lemma IndirectPlaces(c: Config, s: State, w: map<Ult, Place>, e: Es, t: Ult, k: Place, v: Ult)
    requires CanOwn(c, s, e, JoinIndirect(t)) && At(s, w, k, v)
    ensures At(DoOwn(c, s, e, JoinIndirect(t)), TrackOwn(c, s, w, e, JoinIndirect(t)), k, v)
  {
    IndirectTimes(s, e, t, k, v);
  }

  lemma DirectPlaces(c: Config, s: State, w: map<Ult, Place>, e: Es, t: Ult, k: Place, v: Ult)
    requires CanOwn(c, s, e, JoinDirect(t)) && At(s, w, k, v)
    requires Active(c, s, s.es[e].u)
    ensures At(DoOwn(c, s, e, JoinDirect(t)), TrackOwn(c, s, w, e, JoinDirect(t)), k, v)
  {
    ThreadPlaces(s, s.es[e].u, s.thread[s.es[e].u].(pc := JoinWait(t)), k, v);
  }

  lemma LinkPlaces(c: Config, s: State, w: map<Ult, Place>, e: Es, k: Place, v: Ult)
    requires CanOwn(c, s, e, LinkTarget) && At(s, w, k, v)
    requires Active(c, s, s.es[e].u)
    ensures At(DoOwn(c, s, e, LinkTarget), TrackOwn(c, s, w, e, LinkTarget), k, v)
  {
    var u, t := s.es[e].u, PcOn(s, e).t;
    var s1 := SetThread(s, t, s.thread[t].(link := Some(u)));
    ThreadPlaces(s, t, s.thread[t].(link := Some(u)), k, v);
    ThreadPlaces(s1, u, s1.thread[u].(pc := Suspend(Some(t))), k, v);
  }

  lemma PopPlaces(c: Config, s: State, w: map<Ult, Place>, e: Es, p: Pool, u: Ult, k: Place, v: Ult)
    requires CanSched(c, s, e, Pop(p, u)) && At(s, w, k, v)
    requires At(s, w, In(p), u)
    ensures At(DoSched(c, s, e, Pop(p, u)), TrackSched(c, s, w, e, Pop(p, u)), k, v)
  {
    QueueEsPlaces(s, p, Queue(s, p) - multiset{u}, e, Popped(u), k, v);
  }

  lemma StartPlaces(c: Config, s: State, w: map<Ult, Place>, e: Es, k: Place, v: Ult)
    requires CanSched(c, s, e, Start) && At(s, w, k, v)
    requires Fit(s, s.es[e].u) && At(s, w, OnEs(e), s.es[e].u)
    ensures At(DoSched(c, s, e, Start), TrackSched(c, s, w, e, Start), k, v)
  {
    var u := s.es[e].u;
    BothPlaces(s, u, Started(s.thread[u], e), e, On(u), k, v);
  }

  lemma PushBackPlaces(c: Config, s: State, w: map<Ult, Place>, e: Es, k: Place, v: Ult)
    requires CanSched(c, s, e, PushBack) && At(s, w, k, v)
    requires At(s, w, OnEs(e), s.es[e].u)
    ensures At(DoSched(c, s, e, PushBack), TrackSched(c, s, w, e, PushBack), k, v)
  {
    var u := s.es[e].u;
    QueueEsPlaces(s, c.home[u], Queue(s, c.home[u]) + multiset{u}, e, Idle, k, v);
  }

  lemma StopPlaces(c: Config, s: State, w: map<Ult, Place>, e: Es, k: Place, v: Ult)
    requires CanSched(c, s, e, Stop) && At(s, w, k, v)
    ensures At(DoSched(c, s, e, Stop), TrackSched(c, s, w, e, Stop), k, v)
  {
    EsPlaces(s, e, Stopped, k, v);
  }

  lemma DispatchPlaces(c: Config, s: State, w: map<Ult, Place>, e: Es, k: Place, v: Ult)
    requires CanSched(c, s, e, Dispatch) && At(s, w, k, v)
    requires Returned(s, s.es[e].u) && At(s, w, OnEs(e), s.es[e].u)
    ensures At(DoSched(c, s, e, Dispatch), TrackSched(c, s, w, e, Dispatch), k, v)
  {
    DispatchTimes(s, e, k, v);
  }

  lemma CreatePlaces(c: Config, s: State, w: map<Ult, Place>, u: Ult, k: Place, v: Ult)
    requires CanHelp(c, s, Create(u)) && At(s, w, k, v)
    requires u !in w && At(s, w, In(c.home[u]), u)
    ensures At(DoHelp(c, s, Create(u)), TrackHelp(c, s, w, Create(u)), k, v)
  {
  }

  lemma WakePlaces(c: Config, s: State, w: map<Ult, Place>, u: Ult, k: Place, v: Ult)
    requires CanHelp(c, s, Wake(u)) && At(s, w, k, v)
    ensures At(DoHelp(c, s, Wake(u)), TrackHelp(c, s, w, Wake(u)), k, v)
  {
  }

  lemma WakeReadyPlaces(c: Config, s: State, w: map<Ult, Place>, u: Ult, k: Place, v: Ult)
    requires CanHelp(c, s, WakeReady(u)) && At(s, w, k, v)
    requires Ok(c, s, u, Off) && At(s, w, Off, u)
    ensures At(DoHelp(c, s, WakeReady(u)), TrackHelp(c, s, w, WakeReady(u)), k, v)
  {
    ThreadPlaces(s, u, s.thread[u].(life := Ready), k, v);
  }

  lemma WakePushPlaces(c: Config, s: State, w: map<Ult, Place>, u: Ult, k: Place, v: Ult)
    requires CanHelp(c, s, WakePush(u)) && At(s, w, k, v)
    requires Ok(c, s, u, Off) && At(s, w, Off, u) && At(s, w, In(c.home[u]), u)
    ensures At(DoHelp(c, s, WakePush(u)), TrackHelp(c, s, w, WakePush(u)), k, v)
  {
    QueuePlaces(s, c.home[u], Queue(s, c.home[u]) + multiset{u}, k, v);
  }

  lemma RemovePlaces(c: Config, s: State, w: map<Ult, Place>, e: Es, k: Place, v: Ult)
    requires CanOwn(c, s, e, DirectRemove) && Active(c, s, s.es[e].u) && RemoveOk(c, s, s.es[e].u)
    requires forall d :: d in s.es && s.es[d].On? && s.es[d].u == s.es[e].u ==> d == e
    requires At(s, w, k, v) && At(s, w, In(c.home[PcOn(s, e).t]), PcOn(s, e).t)
    ensures At(DoOwn(c, s, e, DirectRemove), TrackOwn(c, s, w, e, DirectRemove), k, v)
  {
  }

  lemma SwitchPlaces(c: Config, s: State, w: map<Ult, Place>, e: Es, k: Place, v: Ult)
    requires CanOwn(c, s, e, DirectSwitch) && Active(c, s, s.es[e].u) && Fit(s, PcOn(s, e).t)
    requires forall d :: d in s.es && s.es[d].On? && (s.es[d].u == s.es[e].u || s.es[d].u == PcOn(s, e).t) ==> d == e
    requires At(s, w, k, v) && At(s, w, OnEs(e), PcOn(s, e).t) && At(s, w, OnEs(e), s.es[e].u)
    ensures At(DoOwn(c, s, e, DirectSwitch), TrackOwn(c, s, w, e, DirectSwitch), k, v)
  {
  }

  lemma EndPlaces(c: Config, s: State, w: map<Ult, Place>, e: Es, k: Place, v: Ult)
    requires CanOwn(c, s, e, End) && Active(c, s, s.es[e].u)
    requires At(s, w, k, v) && At(s, w, OnEs(e), s.es[e].u)
    requires var x := s.thread[s.es[e].u];
      x.link.Some? ==>
        && Owed(s, x.link.value, s.es[e].u)
        && (x.last == s.thread[x.link.value].last ==>
          x.link.value in w && w[x.link.value] == Off && At(s, w, Off, x.link.value))
    ensures At(DoOwn(c, s, e, End), TrackOwn(c, s, w, e, End), k, v)
  {
    if Jumps(s, s.es[e].u) {
    } else if s.thread[s.es[e].u].link.Some? {
    } else {
    }
  }

  lemma EndWakePlaces(c: Config, s: State, w: map<Ult, Place>, e: Es, k: Place, v: Ult)
    requires CanOwn(c, s, e, EndWake) && Active(c, s, s.es[e].u)
    requires At(s, w, k, v) && Owed(s, s.thread[s.es[e].u].link.value, s.es[e].u)
    ensures At(DoOwn(c, s, e, EndWake), TrackOwn(c, s, w, e, EndWake), k, v)
  {
  }

  // ----- how the ULTs change -----

  predicate SameButJoin(x: Thread, y: Thread) {
    y == x.(join := y.join, link := y.link)
  }

  lemma OkSame(c: Config, s: State, s': State, v: Ult, k: Place)
    requires Ok(c, s, v, k)
    requires v in s'.thread && SameButJoin(s.thread[v], s'.thread[v])
    requires v in s'.wake <==> v in s.wake
    requires v in s.wake ==> s'.wake[v] == s.wake[v]
    requires k.OnEs? ==> k.e in s'.es && s'.es[k.e] == s.es[k.e]
    ensures Ok(c, s', v, k)
  {
  }

  /** The ULT that a step of the ULT on e wakes, resumes or takes. */
  function Partner(s: State, e: Es, o: OwnStep): Option<Ult>
    requires e in s.es && s.es[e].On? && s.es[e].u in s.thread
  {
    if (o.DirectRemove? && PcOn(s, e).JoinRemove?) || (o.DirectSwitch? && PcOn(s, e).JoinSwitch?) then Some(PcOn(s, e).t)
    else if o.End? || o.EndWake? then s.thread[s.es[e].u].link
    else None
  }

  lemma FramePlain(c: Config, s: State, e: Es, o: OwnStep, v: Ult)
    requires CanOwn(c, s, e, o) && (o.Block? || o.Advance? || o.Leave? || o.JoinDirect?) && v in s.thread && v != s.es[e].u && Partner(s, e, o) != Some(v)
    ensures v in DoOwn(c, s, e, o).thread && SameButJoin(s.thread[v], DoOwn(c, s, e, o).thread[v])
    ensures v in DoOwn(c, s, e, o).wake <==> v in s.wake
    ensures v in s.wake ==> DoOwn(c, s, e, o).wake[v] == s.wake[v]
  {
  }

  lemma FrameTwo(c: Config, s: State, e: Es, o: OwnStep, v: Ult)
    requires CanOwn(c, s, e, o) && (o.JoinIndirect? || o.LinkTarget?) && v in s.thread && v != s.es[e].u && Partner(s, e, o) != Some(v)
    ensures v in DoOwn(c, s, e, o).thread && SameButJoin(s.thread[v], DoOwn(c, s, e, o).thread[v])
    ensures v in DoOwn(c, s, e, o).wake <==> v in s.wake
    ensures v in s.wake ==> DoOwn(c, s, e, o).wake[v] == s.wake[v]
  {
  }

  lemma FrameTake(c: Config, s: State, e: Es, o: OwnStep, v: Ult)
    requires CanOwn(c, s, e, o) && (o.DirectRemove? || o.DirectSwitch?) && v in s.thread && v != s.es[e].u && Partner(s, e, o) != Some(v)
    ensures v in DoOwn(c, s, e, o).thread && SameButJoin(s.thread[v], DoOwn(c, s, e, o).thread[v])
    ensures v in DoOwn(c, s, e, o).wake <==> v in s.wake
    ensures v in s.wake ==> DoOwn(c, s, e, o).wake[v] == s.wake[v]
  {
  }

  lemma EndFrame(s: State, e: Es, u: Ult, v: Ult)
    requires u in s.thread && v in s.thread && v != u && s.thread[u].link != Some(v)
    ensures v in DoEnd(s, e, u).thread && s.thread[v] == DoEnd(s, e, u).thread[v]
    ensures v in DoEnd(s, e, u).wake <==> v in s.wake
    ensures v in s.wake ==> DoEnd(s, e, u).wake[v] == s.wake[v]
  {
    if Jumps(s, u) {
      var j := s.thread[u].link.value;
      assert DoEnd(s, e, u) == DoJump(s, e, u, j);
      assert v in DoJump(s, e, u, j).thread && DoJump(s, e, u, j).thread[v] == s.thread[v];
    } else if s.thread[u].link.Some? {
    } else {
    }
  }

  lemma FrameLast(c: Config, s: State, e: Es, o: OwnStep, v: Ult)
    requires CanOwn(c, s, e, o) && (o.End? || o.EndWake?) && v in s.thread && v != s.es[e].u && Partner(s, e, o) != Some(v)
    ensures v in DoOwn(c, s, e, o).thread && SameButJoin(s.thread[v], DoOwn(c, s, e, o).thread[v])
    ensures v in DoOwn(c, s, e, o).wake <==> v in s.wake
    ensures v in s.wake ==> DoOwn(c, s, e, o).wake[v] == s.wake[v]
  {
    EndFrame(s, e, s.es[e].u, v);
  }

  lemma OwnFrame(c: Config, s: State, e: Es, o: OwnStep, v: Ult)
    requires CanOwn(c, s, e, o) && v in s.thread && v != s.es[e].u && Partner(s, e, o) != Some(v)
    ensures v in DoOwn(c, s, e, o).thread && SameButJoin(s.thread[v], DoOwn(c, s, e, o).thread[v])
    ensures v in DoOwn(c, s, e, o).wake <==> v in s.wake
    ensures v in s.wake ==> DoOwn(c, s, e, o).wake[v] == s.wake[v]
  {
    if o.JoinIndirect? || o.LinkTarget? {
      FrameTwo(c, s, e, o, v);
    } else if o.DirectRemove? || o.DirectSwitch? {
      FrameTake(c, s, e, o, v);
    } else if o.End? || o.EndWake? {
      FrameLast(c, s, e, o, v);
    } else {
      FramePlain(c, s, e, o, v);
    }
  }

  lemma EsFramePlain(c: Config, s: State, e: Es, o: OwnStep, d: Es)
    requires CanOwn(c, s, e, o) && d in s.es && d != e && !o.End? && !o.JoinIndirect? && !o.LinkTarget? && !o.DirectSwitch?
    ensures d in DoOwn(c, s, e, o).es && DoOwn(c, s, e, o).es[d] == s.es[d]
  {
  }

  lemma OwnEsFrame(c: Config, s: State, e: Es, o: OwnStep, d: Es)
    requires CanOwn(c, s, e, o) && d in s.es && d != e
    ensures d in DoOwn(c, s, e, o).es && DoOwn(c, s, e, o).es[d] == s.es[d]
  {
    if !o.End? && !o.JoinIndirect? && !o.LinkTarget? && !o.DirectSwitch? {
      EsFramePlain(c, s, e, o, d);
    }
  }

  lemma OwnOthers(c: Config, s: State, w: map<Ult, Place>, e: Es, o: OwnStep, v: Ult)
    requires CanOwn(c, s, e, o) && v in w && v != s.es[e].u && Partner(s, e, o) != Some(v)
    requires Ok(c, s, v, w[v]) && w[v] != OnEs(e)
    ensures TrackOwn(c, s, w, e, o)[v] == w[v] && Ok(c, DoOwn(c, s, e, o), v, w[v])
  {
    OwnFrame(c, s, e, o, v);
    if w[v].OnEs? {
      OwnEsFrame(c, s, e, o, w[v].e);
    }
    OkSame(c, s, DoOwn(c, s, e, o), v, w[v]);
  }

  lemma SelfBegin(c: Config, s: State, w: map<Ult, Place>, e: Es, o: OwnStep)
    requires CanOwn(c, s, e, o) && (o.Block? || o.JoinDirect? || o.JoinIndirect?)
    requires s.es[e].u in w && w[s.es[e].u] == OnEs(e) && Ok(c, s, s.es[e].u, OnEs(e))
    ensures Ok(c, DoOwn(c, s, e, o), s.es[e].u, TrackOwn(c, s, w, e, o)[s.es[e].u])
  {
  }

  lemma SelfAdvance(c: Config, s: State, w: map<Ult, Place>, e: Es, o: OwnStep)
    requires CanOwn(c, s, e, o) && (o.Advance?)
    requires s.es[e].u in w && w[s.es[e].u] == OnEs(e) && Ok(c, s, s.es[e].u, OnEs(e))
    ensures Ok(c, DoOwn(c, s, e, o), s.es[e].u, TrackOwn(c, s, w, e, o)[s.es[e].u])
  {
  }

  lemma SelfLeave(c: Config, s: State, w: map<Ult, Place>, e: Es, o: OwnStep)
    requires CanOwn(c, s, e, o) && (o.Leave? || o.LinkTarget?)
    requires s.es[e].u in w && w[s.es[e].u] == OnEs(e) && Ok(c, s, s.es[e].u, OnEs(e))
    ensures Ok(c, DoOwn(c, s, e, o), s.es[e].u, TrackOwn(c, s, w, e, o)[s.es[e].u])
  {
  }

  lemma SelfRemove(c: Config, s: State, w: map<Ult, Place>, e: Es, o: OwnStep)
    requires CanOwn(c, s, e, o) && o.DirectRemove?
    requires s.es[e].u in w && w[s.es[e].u] == OnEs(e) && Ok(c, s, s.es[e].u, OnEs(e))
    ensures Ok(c, DoOwn(c, s, e, o), s.es[e].u, TrackOwn(c, s, w, e, o)[s.es[e].u])
  {
  }

  lemma SelfSwitch(c: Config, s: State, w: map<Ult, Place>, e: Es, o: OwnStep)
    requires CanOwn(c, s, e, o) && o.DirectSwitch?
    requires s.es[e].u in w && w[s.es[e].u] == OnEs(e) && Ok(c, s, s.es[e].u, OnEs(e))
    ensures Ok(c, DoOwn(c, s, e, o), s.es[e].u, TrackOwn(c, s, w, e, o)[s.es[e].u])
  {
  }

  lemma SelfEnd(c: Config, s: State, w: map<Ult, Place>, e: Es, o: OwnStep)
    requires CanOwn(c, s, e, o) && o.End?
    requires s.es[e].u in w && w[s.es[e].u] == OnEs(e) && Ok(c, s, s.es[e].u, OnEs(e))
    requires s.thread[s.es[e].u].link != Some(s.es[e].u)
    ensures Ok(c, DoOwn(c, s, e, o), s.es[e].u, TrackOwn(c, s, w, e, o)[s.es[e].u])
  {
    var u := s.es[e].u;
    if Jumps(s, u) {
      assert DoOwn(c, s, e, o) == DoJump(s, e, u, s.thread[u].link.value);
    } else if s.thread[u].link.Some? {
    } else {
    }
  }

  lemma SelfEndWake(c: Config, s: State, w: map<Ult, Place>, e: Es, o: OwnStep)
    requires CanOwn(c, s, e, o) && o.EndWake?
    requires s.es[e].u in w && w[s.es[e].u] == OnEs(e) && Ok(c, s, s.es[e].u, OnEs(e))
    requires s.thread[s.es[e].u].link != Some(s.es[e].u)
    ensures Ok(c, DoOwn(c, s, e, o), s.es[e].u, TrackOwn(c, s, w, e, o)[s.es[e].u])
  {
  }

  lemma PartnerRemoved(c: Config, s: State, w: map<Ult, Place>, e: Es, o: OwnStep, v: Ult)
    requires CanOwn(c, s, e, o) && o.DirectRemove?
    requires Ok(c, s, s.es[e].u, OnEs(e)) && v != s.es[e].u && Partner(s, e, o) == Some(v)
    requires v in w && Ok(c, s, v, w[v]) && w[v].In?
    ensures Ok(c, DoOwn(c, s, e, o), v, TrackOwn(c, s, w, e, o)[v])
  {
  }

  lemma PartnerSwitched(c: Config, s: State, w: map<Ult, Place>, e: Es, o: OwnStep, v: Ult)
    requires CanOwn(c, s, e, o) && o.DirectSwitch?
    requires Ok(c, s, s.es[e].u, OnEs(e)) && v != s.es[e].u && Partner(s, e, o) == Some(v)
    requires v in w && Ok(c, s, v, w[v]) && w[v] == OnEs(e)
    ensures Ok(c, DoOwn(c, s, e, o), v, TrackOwn(c, s, w, e, o)[v])
  {
  }

  lemma PartnerJumped(c: Config, s: State, w: map<Ult, Place>, e: Es, o: OwnStep, v: Ult)
    requires CanOwn(c, s, e, o) && o.End?
    requires Ok(c, s, s.es[e].u, OnEs(e)) && v != s.es[e].u && Partner(s, e, o) == Some(v)
    requires v in w && Ok(c, s, v, w[v]) && Owed(s, v, s.es[e].u) && s.thread[v].last == s.thread[s.es[e].u].last && w[v] == Off
    ensures Ok(c, DoOwn(c, s, e, o), v, TrackOwn(c, s, w, e, o)[v])
  {
  }

  lemma PartnerReadied(c: Config, s: State, w: map<Ult, Place>, e: Es, o: OwnStep, v: Ult)
    requires CanOwn(c, s, e, o) && o.End?
    requires Ok(c, s, s.es[e].u, OnEs(e)) && v != s.es[e].u && Partner(s, e, o) == Some(v)
    requires v in w && Ok(c, s, v, w[v]) && Owed(s, v, s.es[e].u) && s.thread[v].last != s.thread[s.es[e].u].last
    ensures Ok(c, DoOwn(c, s, e, o), v, TrackOwn(c, s, w, e, o)[v])
  {
  }

  lemma PartnerWoken(c: Config, s: State, w: map<Ult, Place>, e: Es, o: OwnStep, v: Ult)
    requires CanOwn(c, s, e, o) && o.EndWake?
    requires Ok(c, s, s.es[e].u, OnEs(e)) && v != s.es[e].u && Partner(s, e, o) == Some(v)
    requires v in w && Ok(c, s, v, w[v]) && Owed(s, v, s.es[e].u)
    ensures Ok(c, DoOwn(c, s, e, o), v, TrackOwn(c, s, w, e, o)[v])
  {
  }

  /** The ULT that the scheduler of e handles. */
  function Handled(s: State, e: Es, d: SchedStep): Option<Ult>
    requires e in s.es
  {
    if d.Pop? then Some(d.u) else if s.es[e].Idle? || s.es[e].Stopped? then None else Some(s.es[e].u)
  }

  lemma DispatchFrame(s: State, e: Es, v: Ult)
    requires e in s.es && s.es[e].Back? && s.es[e].u in s.thread && v in s.thread && v != s.es[e].u
    ensures v in DoDispatch(s, e).thread && DoDispatch(s, e).thread[v] == s.thread[v] && DoDispatch(s, e).wake == s.wake
    ensures forall d :: d in s.es && d != e ==> d in DoDispatch(s, e).es && DoDispatch(s, e).es[d] == s.es[d]
  {
    if s.thread[s.es[e].u].term {
    } else if s.thread[s.es[e].u].block {
    } else {
    }
  }

  lemma SchedFrame(c: Config, s: State, e: Es, d: SchedStep, v: Ult)
    requires CanSched(c, s, e, d) && v in s.thread && Handled(s, e, d) != Some(v)
    ensures v in DoSched(c, s, e, d).thread && DoSched(c, s, e, d).thread[v] == s.thread[v]
    ensures DoSched(c, s, e, d).wake == s.wake
    ensures forall d' :: d' in s.es && d' != e ==> d' in DoSched(c, s, e, d).es && DoSched(c, s, e, d).es[d'] == s.es[d']
  {
    if d.Dispatch? {
      DispatchFrame(s, e, v);
    }
  }

  lemma SchedOthers(c: Config, s: State, w: map<Ult, Place>, e: Es, d: SchedStep, v: Ult)
    requires CanSched(c, s, e, d) && v in w && Handled(s, e, d) != Some(v)
    requires Ok(c, s, v, w[v]) && w[v] != OnEs(e)
    ensures TrackSched(c, s, w, e, d)[v] == w[v] && Ok(c, DoSched(c, s, e, d), v, w[v])
  {
    SchedFrame(c, s, e, d, v);
    OkSame(c, s, DoSched(c, s, e, d), v, w[v]);
  }

  lemma SchedSelf(c: Config, s: State, w: map<Ult, Place>, e: Es, d: SchedStep, u: Ult)
    requires CanSched(c, s, e, d) && u in w && Handled(s, e, d) == Some(u) && !d.Dispatch?
    requires Ok(c, s, u, w[u]) && w[u] == if d.Pop? then In(d.p) else OnEs(e)
    ensures Ok(c, DoSched(c, s, e, d), u, TrackSched(c, s, w, e, d)[u])
  {
  }

  lemma DispatchSelf(c: Config, s: State, w: map<Ult, Place>, e: Es, u: Ult)
    requires CanSched(c, s, e, Dispatch) && u in w && u == s.es[e].u && Ok(c, s, u, OnEs(e)) && w[u] == OnEs(e)
    ensures Ok(c, DoSched(c, s, e, Dispatch), u, TrackSched(c, s, w, e, Dispatch)[u])
  {
    if s.thread[u].term {
    } else if s.thread[u].block {
    } else {
    }
  }

  lemma HelpOthers(c: Config, s: State, w: map<Ult, Place>, h: HelpStep, v: Ult)
    requires CanHelp(c, s, h) && v in w && (!h.WakeDecrease? ==> v != h.u)
    requires Ok(c, s, v, w[v])
    ensures TrackHelp(c, s, w, h)[v] == w[v] && Ok(c, DoHelp(c, s, h), v, w[v])
  {
    OkSame(c, s, DoHelp(c, s, h), v, w[v]);
  }

  lemma HelpSelf(c: Config, s: State, w: map<Ult, Place>, h: HelpStep)
    requires CanHelp(c, s, h) && !h.WakeDecrease? && !h.Create?
    requires h.u in w && Ok(c, s, h.u, w[h.u])
    requires h.Wake? ==> !(w[h.u].OnEs? && w[h.u].e in s.es && s.es[w[h.u].e].On? && s.es[w[h.u].e].u != h.u)
    ensures Ok(c, DoHelp(c, s, h), h.u, TrackHelp(c, s, w, h)[h.u])
  {
    match h
    case Wake(u) =>
    case WakeReady(u) =>
    case WakePush(u) =>
  }

  lemma CreateSelf(c: Config, s: State, w: map<Ult, Place>, u: Ult)
    requires CanHelp(c, s, Create(u)) && u !in s.wake
    ensures Ok(c, DoHelp(c, s, Create(u)), u, TrackHelp(c, s, w, Create(u))[u])
  {
  }

  // ----- how the two sides of a join change -----

  /** What a step of u may rely on about the joins that it takes part in. */
  predicate Joins(c: Config, s: State, u: Ult) {
    Active(c, s, u) && TargetOk(s, u) && JoinerOk(s, u) &&
    (s.thread[u].link.Some? && !Past(s.thread[u]) ==> JoinerOk(s, s.thread[u].link.value))
  }

  lemma TargetBegin(c: Config, s: State, e: Es, o: OwnStep, t: Ult)
    requires CanOwn(c, s, e, o) && (o.Block? || o.JoinDirect?) && Joins(c, s, s.es[e].u) && TargetOk(s, t)
    ensures TargetOk(DoOwn(c, s, e, o), t)
  {
  }

  lemma JoinerBegin(c: Config, s: State, e: Es, o: OwnStep, j: Ult)
    requires CanOwn(c, s, e, o) && (o.Block? || o.JoinDirect?) && Joins(c, s, s.es[e].u) && JoinerOk(s, j)
    requires o.JoinDirect? ==> TargetOk(s, o.t)
    requires Target(s.thread[j].pc).Some? ==> TargetOk(s, Target(s.thread[j].pc).value)
    ensures JoinerOk(DoOwn(c, s, e, o), j)
  {
  }

  lemma TargetIndirect(c: Config, s: State, e: Es, o: OwnStep, t: Ult)
    requires CanOwn(c, s, e, o) && (o.JoinIndirect?) && Joins(c, s, s.es[e].u) && TargetOk(s, t)
    ensures TargetOk(DoOwn(c, s, e, o), t)
  {
  }

  lemma JoinerIndirect(c: Config, s: State, e: Es, o: OwnStep, j: Ult)
    requires CanOwn(c, s, e, o) && (o.JoinIndirect?) && Joins(c, s, s.es[e].u) && JoinerOk(s, j) && TargetOk(s, o.t)
    requires Target(s.thread[j].pc).Some? ==> TargetOk(s, Target(s.thread[j].pc).value)
    ensures JoinerOk(DoOwn(c, s, e, o), j)
  {
  }

  lemma TargetAdvance(c: Config, s: State, e: Es, o: OwnStep, t: Ult)
    requires CanOwn(c, s, e, o) && (o.Advance?) && Joins(c, s, s.es[e].u) && TargetOk(s, t)
    ensures TargetOk(DoOwn(c, s, e, o), t)
  {
  }

  lemma JoinerAdvanceSelf(c: Config, s: State, e: Es, o: OwnStep)
    requires CanOwn(c, s, e, o) && o.Advance? && Joins(c, s, s.es[e].u)
    ensures JoinerOk(DoOwn(c, s, e, o), s.es[e].u)
  {
  }

  lemma JoinerAdvanceOther(c: Config, s: State, e: Es, o: OwnStep, j: Ult)
    requires CanOwn(c, s, e, o) && o.Advance? && Joins(c, s, s.es[e].u) && JoinerOk(s, j) && j != s.es[e].u
    requires Target(s.thread[j].pc).Some? && Target(s.thread[j].pc) != Some(s.es[e].u)
    ensures JoinerOk(DoOwn(c, s, e, o), j)
  {
  }

  lemma JoinerAdvance(c: Config, s: State, e: Es, o: OwnStep, j: Ult)
    requires CanOwn(c, s, e, o) && o.Advance? && Joins(c, s, s.es[e].u) && JoinerOk(s, j)
    requires Target(s.thread[j].pc).Some? ==> TargetOk(s, Target(s.thread[j].pc).value)
    ensures JoinerOk(DoOwn(c, s, e, o), j)
  {
    if j == s.es[e].u {
      JoinerAdvanceSelf(c, s, e, o);
    } else if Target(s.thread[j].pc) == Some(s.es[e].u) {
      assert Owed(DoOwn(c, s, e, o), j, s.es[e].u) == Owed(s, j, s.es[e].u);
    } else if Target(s.thread[j].pc).Some? {
      JoinerAdvanceOther(c, s, e, o, j);
    }
  }

  lemma TargetLeave(c: Config, s: State, e: Es, o: OwnStep, t: Ult)
    requires CanOwn(c, s, e, o) && (o.Leave?) && Joins(c, s, s.es[e].u) && TargetOk(s, t)
    ensures TargetOk(DoOwn(c, s, e, o), t)
  {
  }

  lemma JoinerLeave(c: Config, s: State, e: Es, o: OwnStep, j: Ult)
    requires CanOwn(c, s, e, o) && (o.Leave?) && Joins(c, s, s.es[e].u) && JoinerOk(s, j)
    requires Target(s.thread[j].pc).Some? ==> TargetOk(s, Target(s.thread[j].pc).value)
    ensures JoinerOk(DoOwn(c, s, e, o), j)
  {
  }

  lemma TargetLink(c: Config, s: State, e: Es, o: OwnStep, t: Ult)
    requires CanOwn(c, s, e, o) && (o.LinkTarget?) && Joins(c, s, s.es[e].u) && TargetOk(s, t)
    ensures TargetOk(DoOwn(c, s, e, o), t)
  {
  }

  lemma JoinerLink(c: Config, s: State, e: Es, o: OwnStep, j: Ult)
    requires CanOwn(c, s, e, o) && (o.LinkTarget?) && Joins(c, s, s.es[e].u) && JoinerOk(s, j)
    requires Target(s.thread[j].pc).Some? ==> TargetOk(s, Target(s.thread[j].pc).value)
    ensures JoinerOk(DoOwn(c, s, e, o), j)
  {
  }

  /** A change of program point away from where a joiner sleeps or a ULT ends. */
  lemma TargetSame(s: State, u: Ult, pc: Pc, p: Pool, q: multiset<Ult>, t: Ult)
    requires u in s.thread && s.thread[u].pc.JoinRemove? && pc.JoinSwitch? && TargetOk(s, t)
    ensures TargetOk(SetQueue(SetThread(s, u, s.thread[u].(pc := pc)), p, q), t)
  {
  }

  lemma TargetRemove(c: Config, s: State, e: Es, o: OwnStep, t: Ult)
    requires CanOwn(c, s, e, o) && (o.DirectRemove?) && Joins(c, s, s.es[e].u) && TargetOk(s, t)
    ensures TargetOk(DoOwn(c, s, e, o), t)
  {
    var x := PcOn(s, e).t;
    TargetSame(s, s.es[e].u, JoinSwitch(x), c.home[x], Queue(s, c.home[x]) - multiset{x}, t);
  }

  lemma JoinerRemove(c: Config, s: State, e: Es, o: OwnStep, j: Ult)
    requires CanOwn(c, s, e, o) && (o.DirectRemove?) && Joins(c, s, s.es[e].u) && JoinerOk(s, j)
    requires Target(s.thread[j].pc).Some? ==> TargetOk(s, Target(s.thread[j].pc).value)
    ensures JoinerOk(DoOwn(c, s, e, o), j)
  {
  }

  lemma TargetSwitch(c: Config, s: State, e: Es, o: OwnStep, t: Ult)
    requires CanOwn(c, s, e, o) && (o.DirectSwitch?) && Joins(c, s, s.es[e].u) && TargetOk(s, t)
    requires Fit(s, PcOn(s, e).t)
    ensures TargetOk(DoOwn(c, s, e, o), t)
  {
  }

  lemma JoinerSwitch(c: Config, s: State, e: Es, o: OwnStep, j: Ult)
    requires CanOwn(c, s, e, o) && (o.DirectSwitch?) && Joins(c, s, s.es[e].u) && JoinerOk(s, j)
    requires Target(s.thread[j].pc).Some? ==> TargetOk(s, Target(s.thread[j].pc).value)
    requires Fit(s, PcOn(s, e).t)
    ensures JoinerOk(DoOwn(c, s, e, o), j)
  {
  }

  lemma TargetJump(c: Config, s: State, e: Es, u: Ult, t: Ult)
    requires Joins(c, s, u) && s.thread[u].pc.Body? && Jumps(s, u) && TargetOk(s, t)
    ensures TargetOk(DoJump(s, e, u, s.thread[u].link.value), t)
  {
  }

  lemma JoinerJump(c: Config, s: State, e: Es, u: Ult, j: Ult)
    requires Joins(c, s, u) && s.thread[u].pc.Body? && Jumps(s, u) && JoinerOk(s, j)
    requires Target(s.thread[j].pc).Some? ==> TargetOk(s, Target(s.thread[j].pc).value)
    ensures JoinerOk(DoJump(s, e, u, s.thread[u].link.value), j)
  {
  }

  lemma TargetStore(c: Config, s: State, e: Es, u: Ult, t: Ult)
    requires Joins(c, s, u) && s.thread[u].pc.Body? && !Jumps(s, u) && s.thread[u].link.Some? && TargetOk(s, t)
    ensures TargetOk(DoEnd(s, e, u), t)
  {
  }

  lemma JoinerStore(c: Config, s: State, e: Es, u: Ult, j: Ult)
    requires Joins(c, s, u) && s.thread[u].pc.Body? && !Jumps(s, u) && s.thread[u].link.Some? && JoinerOk(s, j)
    requires Target(s.thread[j].pc).Some? ==> TargetOk(s, Target(s.thread[j].pc).value)
    ensures JoinerOk(DoEnd(s, e, u), j)
  {
  }

  lemma TargetOr(c: Config, s: State, e: Es, u: Ult, t: Ult)
    requires Joins(c, s, u) && s.thread[u].pc.Body? && s.thread[u].link.None? && TargetOk(s, t)
    ensures TargetOk(DoEnd(s, e, u), t)
  {
  }

  lemma JoinerOr(c: Config, s: State, e: Es, u: Ult, j: Ult)
    requires Joins(c, s, u) && s.thread[u].pc.Body? && s.thread[u].link.None? && JoinerOk(s, j)
    requires Target(s.thread[j].pc).Some? ==> TargetOk(s, Target(s.thread[j].pc).value)
    ensures JoinerOk(DoEnd(s, e, u), j)
  {
  }

  lemma TargetEnd(c: Config, s: State, e: Es, u: Ult, t: Ult)
    requires Joins(c, s, u) && s.thread[u].pc.Body? && TargetOk(s, t)
    ensures TargetOk(DoEnd(s, e, u), t)
  {
    if Jumps(s, u) {
      TargetJump(c, s, e, u, t);
    } else if s.thread[u].link.Some? {
      TargetStore(c, s, e, u, t);
    } else {
      TargetOr(c, s, e, u, t);
    }
  }

  lemma JoinerEnd(c: Config, s: State, e: Es, u: Ult, j: Ult)
    requires Joins(c, s, u) && s.thread[u].pc.Body? && JoinerOk(s, j)
    requires Target(s.thread[j].pc).Some? ==> TargetOk(s, Target(s.thread[j].pc).value)
    ensures JoinerOk(DoEnd(s, e, u), j)
  {
    if Jumps(s, u) {
      JoinerJump(c, s, e, u, j);
    } else if s.thread[u].link.Some? {
      JoinerStore(c, s, e, u, j);
    } else {
      JoinerOr(c, s, e, u, j);
    }
  }

  lemma TargetEndWake(c: Config, s: State, e: Es, o: OwnStep, t: Ult)
    requires CanOwn(c, s, e, o) && (o.EndWake?) && Joins(c, s, s.es[e].u) && TargetOk(s, t)
    ensures TargetOk(DoOwn(c, s, e, o), t)
  {
  }

  lemma JoinerEndWake(c: Config, s: State, e: Es, o: OwnStep, j: Ult)
    requires CanOwn(c, s, e, o) && (o.EndWake?) && Joins(c, s, s.es[e].u) && JoinerOk(s, j)
    requires Target(s.thread[j].pc).Some? ==> TargetOk(s, Target(s.thread[j].pc).value)
    ensures JoinerOk(DoOwn(c, s, e, o), j)
  {
  }

  lemma JoinsStart(c: Config, s: State, e: Es, t: Ult)
    requires CanSched(c, s, e, Start) && Fit(s, s.es[e].u) && t in s.thread
    ensures TargetOk(s, t) ==> TargetOk(DoSched(c, s, e, Start), t)
    ensures JoinerOk(s, t) ==> JoinerOk(DoSched(c, s, e, Start), t)
  {
  }

  lemma JoinsSame(s: State, u: Ult, y: Thread, e: Es, ctx: Ctx, t: Ult)
    requires u in s.thread && t in s.thread && y == s.thread[u].(life := y.life, block := y.block)
    requires y.life.Blocked? == s.thread[u].life.Blocked? && Past(y) == Past(s.thread[u])
    ensures TargetOk(s, t) ==> TargetOk(SetEs(SetThread(s, u, y), e, ctx), t)
    ensures JoinerOk(s, t) ==> JoinerOk(SetEs(SetThread(s, u, y), e, ctx), t)
  {
  }

  lemma JoinsDispatch(s: State, e: Es, t: Ult)
    requires e in s.es && s.es[e].Back? && Returned(s, s.es[e].u) && t in s.thread
    ensures TargetOk(s, t) ==> TargetOk(DoDispatch(s, e), t)
    ensures JoinerOk(s, t) ==> JoinerOk(DoDispatch(s, e), t)
  {
    var u := s.es[e].u;
    var x := s.thread[u];
    if x.term {
      JoinsSame(s, u, x.(life := Terminated), e, Idle, t);
    } else if x.block {
      JoinsSame(s, u, x.(block := false), e, Idle, t);
    } else {
      JoinsSame(s, u, x.(life := Ready), e, Pushing(u), t);
    }
  }

  lemma JoinsSched(c: Config, s: State, e: Es, d: SchedStep, t: Ult)
    requires CanSched(c, s, e, d) && t in s.thread
    requires d.Start? ==> Fit(s, s.es[e].u)
    requires d.Dispatch? ==> Returned(s, s.es[e].u)
    ensures TargetOk(s, t) ==> TargetOk(DoSched(c, s, e, d), t)
    ensures JoinerOk(s, t) ==> JoinerOk(DoSched(c, s, e, d), t)
  {
    if d.Start? {
      JoinsStart(c, s, e, t);
    } else if d.Dispatch? {
      JoinsDispatch(s, e, t);
    }
  }

  lemma JoinsHelp(c: Config, s: State, h: HelpStep, t: Ult)
    requires CanHelp(c, s, h) && t in DoHelp(c, s, h).thread
    requires h.Create? ==> h.u !in s.asked
    requires h.WakeReady? ==> !s.thread[h.u].life.Terminated?
    requires h.WakePush? ==> s.thread[h.u].life.Ready?
    requires t in s.thread ==> TargetOk(s, t) && JoinerOk(s, t)
    ensures TargetOk(DoHelp(c, s, h), t)
    ensures JoinerOk(DoHelp(c, s, h), t)
  {
    match h
    case Create(u) =>
    case Wake(u) =>
    case WakeReady(u) =>
    case WakePush(u) =>
    case WakeDecrease(_) =>
  }

  // ----- how the counts change -----

  /** The ULT that a step adds to the counted ones, or takes from them. */
  function Added(s: State, a: Action): Option<Ult> {
    if a.Own? && a.o.Advance? && Delta(PcOn(s, a.e)) == 1 && a.e in s.es && s.es[a.e].On? then Some(s.es[a.e].u) else None
  }

  function Dropped(s: State, a: Action): Option<Ult> {
    if a.Own? && a.o.Advance? && Delta(PcOn(s, a.e)) == -1 && a.e in s.es && s.es[a.e].On? then Some(s.es[a.e].u)
    else if a.Help? && a.h.WakePush? then Some(a.h.u) else None
  }

  lemma CountedAdvance(c: Config, s: State, e: Es)
    requires CanOwn(c, s, e, Advance) && Active(c, s, s.es[e].u)
    ensures Counted(DoOwn(c, s, e, Advance), s.es[e].u) ==
      if Delta(PcOn(s, e)) != 0 then Delta(PcOn(s, e)) == 1 else Counted(s, s.es[e].u)
  {
  }

  lemma CountedMove(c: Config, s: State, e: Es, o: OwnStep)
    requires CanOwn(c, s, e, o) && Active(c, s, s.es[e].u)
    requires o.LinkTarget? || o.DirectRemove? || o.DirectSwitch? || o.EndWake?
    requires Target(PcOn(s, e)) != Some(s.es[e].u) && (o.EndWake? ==> s.thread[s.es[e].u].link != Some(s.es[e].u))
    ensures Counted(DoOwn(c, s, e, o), s.es[e].u) == Counted(s, s.es[e].u)
  {
  }

  lemma CountedSelf(c: Config, s: State, e: Es, o: OwnStep)
    requires CanOwn(c, s, e, o) && Active(c, s, s.es[e].u) && !o.End? && !o.Advance?
    requires Target(PcOn(s, e)) != Some(s.es[e].u) && (o.EndWake? ==> s.thread[s.es[e].u].link != Some(s.es[e].u))
    ensures Counted(DoOwn(c, s, e, o), s.es[e].u) == Counted(s, s.es[e].u)
  {
    if o.LinkTarget? || o.DirectRemove? || o.DirectSwitch? || o.EndWake? {
      CountedMove(c, s, e, o);
    } else if o.Leave? {
    } else {
    }
  }

  lemma CountedTaken(c: Config, s: State, e: Es, o: OwnStep)
    requires CanOwn(c, s, e, o) && o.DirectSwitch? && Fit(s, PcOn(s, e).t) && PcOn(s, e).t != s.es[e].u
    ensures Counted(DoOwn(c, s, e, o), PcOn(s, e).t) == Counted(s, PcOn(s, e).t)
  {
  }

  lemma CountedEnd(s: State, e: Es, u: Ult, v: Ult)
    requires u in s.thread && s.thread[u].pc.Body?
    requires s.thread[u].link.Some? ==> Owed(s, s.thread[u].link.value, u)
    ensures Counted(DoEnd(s, e, u), v) == Counted(s, v)
  {
    if Jumps(s, u) {
      assert DoEnd(s, e, u) == DoJump(s, e, u, s.thread[u].link.value);
    } else if s.thread[u].link.Some? {
    } else {
    }
  }

  lemma CountedAdvancing(c: Config, s: State, e: Es, v: Ult)
    requires CanOwn(c, s, e, Advance) && Active(c, s, s.es[e].u) && v in s.thread
    ensures Counted(DoOwn(c, s, e, Advance), v) ==
      if Added(s, Own(e, Advance)) == Some(v) then true else if Dropped(s, Own(e, Advance)) == Some(v) then false else Counted(s, v)
  {
    if v == s.es[e].u {
      CountedAdvance(c, s, e);
    } else {
      OwnFrame(c, s, e, Advance, v);
    }
  }

  lemma CountedSame(c: Config, s: State, e: Es, o: OwnStep, v: Ult)
    requires CanOwn(c, s, e, o) && Active(c, s, s.es[e].u) && v in s.thread && !o.Advance?
    requires Target(PcOn(s, e)) != Some(s.es[e].u)
    requires s.thread[s.es[e].u].link.Some? && (o.End? || o.EndWake?) ==> Owed(s, s.thread[s.es[e].u].link.value, s.es[e].u)
    requires o.EndWake? ==> s.thread[s.es[e].u].link != Some(s.es[e].u)
    requires o.DirectSwitch? ==> Fit(s, PcOn(s, e).t)
    ensures Counted(DoOwn(c, s, e, o), v) == Counted(s, v)
  {
    if o.End? {
      CountedEnd(s, e, s.es[e].u, v);
    } else if v == s.es[e].u {
      CountedSelf(c, s, e, o);
    } else if o.DirectSwitch? && v == PcOn(s, e).t {
      CountedTaken(c, s, e, o);
    } else if Partner(s, e, o) != Some(v) {
      OwnFrame(c, s, e, o, v);
    }
  }

  lemma CountedDispatch(s: State, e: Es)
    requires e in s.es && s.es[e].Back? && Returned(s, s.es[e].u)
    ensures Counted(DoDispatch(s, e), s.es[e].u) == Counted(s, s.es[e].u)
  {
    if s.thread[s.es[e].u].term {
    } else if s.thread[s.es[e].u].block {
    } else {
    }
  }

  lemma CountedStart(s: State, e: Es, u: Ult)
    requires Fit(s, u)
    ensures Counted(SetEs(SetThread(s, u, Started(s.thread[u], e)), e, On(u)), u) == Counted(s, u)
  {
  }

  lemma SchedThreads(c: Config, s: State, e: Es, d: SchedStep)
    requires CanSched(c, s, e, d) && !d.Start? && !d.Dispatch?
    ensures DoSched(c, s, e, d).thread == s.thread && DoSched(c, s, e, d).wake == s.wake
  {
  }

  lemma CountedSched(c: Config, s: State, e: Es, d: SchedStep, v: Ult)
    requires CanSched(c, s, e, d) && v in s.thread
    requires d.Start? ==> Fit(s, s.es[e].u)
    requires d.Dispatch? ==> Returned(s, s.es[e].u)
    ensures Counted(DoSched(c, s, e, d), v) == Counted(s, v)
  {
    if Handled(s, e, d) != Some(v) {
      SchedFrame(c, s, e, d, v);
    } else if d.Dispatch? {
      CountedDispatch(s, e);
    } else if d.Start? {
      CountedStart(s, e, v);
    } else {
      SchedThreads(c, s, e, d);
    }
  }

  lemma CountedHelp(c: Config, s: State, h: HelpStep, v: Ult)
    requires CanHelp(c, s, h)
    requires h.WakeReady? ==> s.thread[h.u].pc.Asleep? && s.thread[h.u].life.Blocked?
    requires h.WakePush? ==> s.thread[h.u].life.Ready? && s.thread[h.u].pc.Asleep?
    ensures Counted(DoHelp(c, s, h), v) == if Dropped(s, Help(h)) == Some(v) then false else Counted(s, v)
  {
    match h
    case Create(u) =>
    case Wake(u) =>
    case WakeReady(u) =>
    case WakePush(u) =>
    case WakeDecrease(_) =>
  }

  function TrackLedger(c: Config, s: State, b: map<Pool, set<Ult>>, a: Action): map<Pool, set<Ult>> {
    if Added(s, a).Some? && Added(s, a).value in c.home then
      var p := c.home[Added(s, a).value]; b[p := Ledger(b, p) + {Added(s, a).value}]
    else if Dropped(s, a).Some? && Dropped(s, a).value in c.home then
      var p := c.home[Dropped(s, a).value]; b[p := Ledger(b, p) - {Dropped(s, a).value}]
    else b
  }

  /** What a step adds to num_blocked of a pool, and to the decrements that are still to come. */
  function BlockedChange(c: Config, s: State, a: Action, p: Pool): int {
    if Added(s, a).Some? && Added(s, a).value in c.home && c.home[Added(s, a).value] == p then 1
    else if a.Own? && Dropped(s, a).Some? && Dropped(s, a).value in c.home && c.home[Dropped(s, a).value] == p then -1
    else if a == Help(WakeDecrease(p)) then -1 else 0
  }

  function LateChange(c: Config, a: Action, p: Pool): int {
    if a.Help? && a.h.WakePush? && a.h.u in c.home && c.home[a.h.u] == p then 1
    else if a == Help(WakeDecrease(p)) then -1 else 0
  }

  lemma OwnRest(c: Config, s: State, e: Es, o: OwnStep)
    requires CanOwn(c, s, e, o)
    ensures !o.Advance? ==> DoOwn(c, s, e, o).blocked == s.blocked
    ensures DoOwn(c, s, e, o).late == s.late
  {
    match o
    case Block =>
    case Advance =>
    case Leave =>
    case JoinIndirect(t) =>
    case JoinDirect(t) =>
    case LinkTarget =>
    case DirectRemove =>
    case DirectSwitch =>
    case EndWake =>
    case End =>
      if Jumps(s, s.es[e].u) {
      } else if s.thread[s.es[e].u].link.Some? {
      } else {
      }
  }

  lemma BlockedOwn(c: Config, s: State, e: Es, o: OwnStep, p: Pool)
    requires CanOwn(c, s, e, o)
    ensures NumBlocked(DoOwn(c, s, e, o), p) == NumBlocked(s, p) + BlockedChange(c, s, Own(e, o), p)
    ensures Late(DoOwn(c, s, e, o), p) == Late(s, p)
  {
    OwnRest(c, s, e, o);
    if o.Advance? {
      assert DoOwn(c, s, e, o) ==
        AddBlocked(SetThread(s, s.es[e].u, Advanced(s.thread[s.es[e].u])), c.home[s.es[e].u], Delta(PcOn(s, e)));
    }
  }

  lemma SchedRest(c: Config, s: State, e: Es, d: SchedStep)
    requires CanSched(c, s, e, d)
    ensures DoSched(c, s, e, d).blocked == s.blocked && DoSched(c, s, e, d).late == s.late
    ensures DoSched(c, s, e, d).asked == s.asked
  {
    match d
    case Pop(_, _) =>
    case Start =>
    case PushBack =>
    case Stop =>
    case Dispatch =>
      if s.thread[s.es[e].u].term {
      } else if s.thread[s.es[e].u].block {
      } else {
      }
  }

  lemma BlockedSched(c: Config, s: State, e: Es, d: SchedStep, p: Pool)
    requires CanSched(c, s, e, d)
    ensures NumBlocked(DoSched(c, s, e, d), p) == NumBlocked(s, p) && Late(DoSched(c, s, e, d), p) == Late(s, p)
  {
    SchedRest(c, s, e, d);
  }

  lemma BlockedHelp(c: Config, s: State, h: HelpStep, p: Pool)
    requires CanHelp(c, s, h)
    ensures NumBlocked(DoHelp(c, s, h), p) == NumBlocked(s, p) + BlockedChange(c, s, Help(h), p)
    ensures Late(DoHelp(c, s, h), p) == Late(s, p) + LateChange(c, Help(h), p)
  {
    match h
    case Create(u) =>
    case Wake(u) =>
    case WakeReady(u) =>
    case WakePush(u) =>
    case WakeDecrease(_) =>
  }

  lemma LedgerSize(c: Config, s: State, b: map<Pool, set<Ult>>, a: Action, p: Pool)
    requires Enabled(c, s, a)
    requires Added(s, a).Some? ==> Added(s, a).value in c.home && Added(s, a).value !in Ledger(b, c.home[Added(s, a).value])
    requires Dropped(s, a).Some? ==> Dropped(s, a).value in c.home && Dropped(s, a).value in Ledger(b, c.home[Dropped(s, a).value])
    ensures |Ledger(TrackLedger(c, s, b, a), p)| == |Ledger(b, p)| + BlockedChange(c, s, a, p) - LateChange(c, a, p)
  {
  }

  lemma QueueOwn(c: Config, s: State, e: Es, o: OwnStep, p: Pool, t: Ult)
    requires CanOwn(c, s, e, o) && !(o.DirectRemove? && PcOn(s, e).t == t)
    ensures Queue(DoOwn(c, s, e, o), p)[t] == Queue(s, p)[t]
  {
    match o
    case End =>
      if Jumps(s, s.es[e].u) {
      } else if s.thread[s.es[e].u].link.Some? {
      } else {
      }
    case _ =>
  }

  // ----- one step -----

  /** The ULT that an ES holds is on that ES only. */
  lemma Actor(c: Config, s: State, w: map<Ult, Place>, b: map<Pool, set<Ult>>, e: Es)
    requires Inv(c, s, w, b) && e in s.es && !s.es[e].Idle? && !s.es[e].Stopped?
    ensures s.es[e].u in w && w[s.es[e].u] == OnEs(e) && Ok(c, s, s.es[e].u, OnEs(e))
    ensures forall d :: d in s.es && s.es[d].On? && s.es[d].u == s.es[e].u ==> d == e
  {
    assert At(s, w, OnEs(e), s.es[e].u);
    forall d | d in s.es && s.es[d].On? && s.es[d].u == s.es[e].u ensures d == e {
      assert At(s, w, OnEs(d), s.es[d].u);
    }
  }

  lemma Claimed(c: Config, s: State, w: map<Ult, Place>, b: map<Pool, set<Ult>>, e: Es)
    requires Inv(c, s, w, b) && Runs(c, s, e) && PcOn(s, e).JoinSwitch?
    ensures var t := PcOn(s, e).t; t in w && w[t] == OnEs(e) && Fit(s, t) && t != s.es[e].u
  {
    Actor(c, s, w, b, e);
    assert At(s, w, OnEs(e), PcOn(s, e).t);
    assert Ok(c, s, PcOn(s, e).t, OnEs(e));
  }

  /** A ULT that is removed from its pool was in it. */
  lemma Removable(c: Config, s: State, w: map<Ult, Place>, b: map<Pool, set<Ult>>, e: Es)
    requires Inv(c, s, w, b) && CanOwn(c, s, e, DirectRemove)
    ensures var t := PcOn(s, e).t; t in w && w[t] == In(c.home[t]) && Ok(c, s, t, w[t]) && t != s.es[e].u
  {
    Actor(c, s, w, b, e);
    assert RemoveOk(c, s, s.es[e].u);
    assert At(s, w, In(c.home[PcOn(s, e).t]), PcOn(s, e).t);
  }

  /** The joiner of a ULT that has not woken it is blocked; if it last ran on the same ES it is not on it. */
  lemma LinkedJoiner(c: Config, s: State, w: map<Ult, Place>, b: map<Pool, set<Ult>>, e: Es)
    requires Inv(c, s, w, b) && Runs(c, s, e) && !Past(s.thread[s.es[e].u]) && s.thread[s.es[e].u].link.Some?
    ensures var u := s.es[e].u; var j := s.thread[u].link.value;
      Owed(s, j, u) && j != u && j in w && JoinerOk(s, j) && Ok(c, s, j, w[j]) &&
      (s.thread[j].last == s.thread[u].last ==> w[j] == Off)
  {
    Actor(c, s, w, b, e);
    var u := s.es[e].u;
    assert TargetOk(s, u);
    var j := s.thread[u].link.value;
    assert JoinerOk(s, j) && Ok(c, s, j, w[j]);
    assert At(s, w, OnEs(e), j);
  }

  lemma JoinsOf(c: Config, s: State, w: map<Ult, Place>, b: map<Pool, set<Ult>>, e: Es)
    requires Inv(c, s, w, b) && Runs(c, s, e)
    ensures Joins(c, s, s.es[e].u)
    ensures !Past(s.thread[s.es[e].u]) ==> s.thread[s.es[e].u].link != Some(s.es[e].u)
  {
    Actor(c, s, w, b, e);
    assert TargetOk(s, s.es[e].u) && JoinerOk(s, s.es[e].u);
    if s.thread[s.es[e].u].link.Some? && !Past(s.thread[s.es[e].u]) {
      LinkedJoiner(c, s, w, b, e);
    }
  }

  lemma PlacesOwn(c: Config, s: State, w: map<Ult, Place>, b: map<Pool, set<Ult>>, e: Es, o: OwnStep, k: Place, v: Ult)
    requires Inv(c, s, w, b) && CanOwn(c, s, e, o)
    ensures At(DoOwn(c, s, e, o), TrackOwn(c, s, w, e, o), k, v)
  {
    Actor(c, s, w, b, e);
    assert At(s, w, k, v) && At(s, w, OnEs(e), s.es[e].u);
    match o
    case Block => BlockPlaces(c, s, w, e, k, v);
    case Advance => AdvancePlaces(c, s, w, e, k, v);
    case Leave => LeavePlaces(c, s, w, e, k, v);
    case JoinIndirect(t) => IndirectPlaces(c, s, w, e, t, k, v);
    case JoinDirect(t) => DirectPlaces(c, s, w, e, t, k, v);
    case LinkTarget => LinkPlaces(c, s, w, e, k, v);
    case _ => PlacesTake(c, s, w, b, e, o, k, v);
  }

  lemma PlacesTake(c: Config, s: State, w: map<Ult, Place>, b: map<Pool, set<Ult>>, e: Es, o: OwnStep, k: Place, v: Ult)
    requires Inv(c, s, w, b) && CanOwn(c, s, e, o) && (o.DirectRemove? || o.DirectSwitch? || o.End? || o.EndWake?)
    ensures At(DoOwn(c, s, e, o), TrackOwn(c, s, w, e, o), k, v)
  {
    Actor(c, s, w, b, e);
    assert At(s, w, k, v) && At(s, w, OnEs(e), s.es[e].u);
    match o
    case DirectRemove =>
      Removable(c, s, w, b, e);
      assert At(s, w, In(c.home[PcOn(s, e).t]), PcOn(s, e).t) && RemoveOk(c, s, s.es[e].u);
      RemovePlaces(c, s, w, e, k, v);
    case DirectSwitch =>
      Claimed(c, s, w, b, e);
      var t := PcOn(s, e).t;
      assert At(s, w, OnEs(e), t);
      forall d ensures d in s.es && s.es[d].On? && s.es[d].u == t ==> d == e {
        assert At(s, w, OnEs(d), t);
      }
      SwitchPlaces(c, s, w, e, k, v);
    case End =>
      if s.thread[s.es[e].u].link.Some? {
        LinkedJoiner(c, s, w, b, e);
        assert At(s, w, Off, s.thread[s.es[e].u].link.value);
      }
      EndPlaces(c, s, w, e, k, v);
    case EndWake =>
      LinkedJoiner(c, s, w, b, e);
      EndWakePlaces(c, s, w, e, k, v);
  }

  lemma PlacesSched(c: Config, s: State, w: map<Ult, Place>, b: map<Pool, set<Ult>>, e: Es, d: SchedStep, k: Place, v: Ult)
    requires Inv(c, s, w, b) && CanSched(c, s, e, d)
    ensures At(DoSched(c, s, e, d), TrackSched(c, s, w, e, d), k, v)
  {
    assert At(s, w, k, v);
    if !s.es[e].Idle? {
      Actor(c, s, w, b, e);
      assert At(s, w, OnEs(e), s.es[e].u);
    }
    match d
    case Pop(p, u) =>
      assert At(s, w, In(p), u);
      PopPlaces(c, s, w, e, p, u, k, v);
    case Start => StartPlaces(c, s, w, e, k, v);
    case Dispatch => DispatchPlaces(c, s, w, e, k, v);
    case PushBack => PushBackPlaces(c, s, w, e, k, v);
    case Stop => StopPlaces(c, s, w, e, k, v);
  }

  /** A ULT whose wake-up is past its first stage is blocked. */
  lemma WokenIsOff(c: Config, s: State, w: map<Ult, Place>, b: map<Pool, set<Ult>>, u: Ult)
    requires Inv(c, s, w, b) && u in s.wake && (s.wake[u].Push? || !s.thread[u].block)
    ensures u in w && w[u] == Off && Ok(c, s, u, Off)
  {
    assert Ok(c, s, u, w[u]);
  }

  lemma PlacesHelp(c: Config, s: State, w: map<Ult, Place>, b: map<Pool, set<Ult>>, h: HelpStep, k: Place, v: Ult)
    requires Inv(c, s, w, b) && CanHelp(c, s, h)
    ensures At(DoHelp(c, s, h), TrackHelp(c, s, w, h), k, v)
  {
    assert At(s, w, k, v);
    match h
    case Create(u) =>
      assert At(s, w, In(c.home[u]), u);
      CreatePlaces(c, s, w, u, k, v);
    case Wake(u) => WakePlaces(c, s, w, u, k, v);
    case WakeReady(u) =>
      WokenIsOff(c, s, w, b, u);
      assert At(s, w, Off, u);
      WakeReadyPlaces(c, s, w, u, k, v);
    case WakePush(u) =>
      WokenIsOff(c, s, w, b, u);
      assert At(s, w, Off, u) && At(s, w, In(c.home[u]), u);
      WakePushPlaces(c, s, w, u, k, v);
    case WakeDecrease(_) =>
  }

  lemma OksSelf(c: Config, s: State, w: map<Ult, Place>, b: map<Pool, set<Ult>>, e: Es, o: OwnStep)
    requires Inv(c, s, w, b) && CanOwn(c, s, e, o)
    ensures Ok(c, DoOwn(c, s, e, o), s.es[e].u, TrackOwn(c, s, w, e, o)[s.es[e].u])
  {
    Actor(c, s, w, b, e);
    match o
    case Advance => SelfAdvance(c, s, w, e, o);
    case Leave => SelfLeave(c, s, w, e, o);
    case LinkTarget => SelfLeave(c, s, w, e, o);
    case DirectRemove => SelfRemove(c, s, w, e, o);
    case DirectSwitch => SelfSwitch(c, s, w, e, o);
    case End =>
      JoinsOf(c, s, w, b, e);
      SelfEnd(c, s, w, e, o);
    case EndWake =>
      JoinsOf(c, s, w, b, e);
      SelfEndWake(c, s, w, e, o);
    case _ => SelfBegin(c, s, w, e, o);
  }

  lemma OksPartner(c: Config, s: State, w: map<Ult, Place>, b: map<Pool, set<Ult>>, e: Es, o: OwnStep, v: Ult)
    requires Inv(c, s, w, b) && CanOwn(c, s, e, o) && Partner(s, e, o) == Some(v)
    ensures v in w && v != s.es[e].u && Ok(c, DoOwn(c, s, e, o), v, TrackOwn(c, s, w, e, o)[v])
  {
    Actor(c, s, w, b, e);
    if o.DirectRemove? {
      Removable(c, s, w, b, e);
      PartnerRemoved(c, s, w, e, o, v);
    } else if o.DirectSwitch? {
      Claimed(c, s, w, b, e);
      PartnerSwitched(c, s, w, e, o, v);
    } else {
      LinkedJoiner(c, s, w, b, e);
      if o.EndWake? {
        PartnerWoken(c, s, w, e, o, v);
      } else if s.thread[v].last == s.thread[s.es[e].u].last {
        PartnerJumped(c, s, w, e, o, v);
      } else {
        PartnerReadied(c, s, w, e, o, v);
      }
    }
  }

  lemma OksOwn(c: Config, s: State, w: map<Ult, Place>, b: map<Pool, set<Ult>>, e: Es, o: OwnStep, v: Ult)
    requires Inv(c, s, w, b) && CanOwn(c, s, e, o) && v in w
    ensures v in TrackOwn(c, s, w, e, o) && Ok(c, DoOwn(c, s, e, o), v, TrackOwn(c, s, w, e, o)[v])
  {
    if v == s.es[e].u {
      OksSelf(c, s, w, b, e, o);
    } else if Partner(s, e, o) == Some(v) {
      OksPartner(c, s, w, b, e, o, v);
    } else {
      Actor(c, s, w, b, e);
      assert Ok(c, s, v, w[v]) && At(s, w, OnEs(e), v);
      OwnOthers(c, s, w, e, o, v);
    }
  }

  lemma OksSched(c: Config, s: State, w: map<Ult, Place>, b: map<Pool, set<Ult>>, e: Es, d: SchedStep, v: Ult)
    requires Inv(c, s, w, b) && CanSched(c, s, e, d) && v in w
    ensures v in TrackSched(c, s, w, e, d) && Ok(c, DoSched(c, s, e, d), v, TrackSched(c, s, w, e, d)[v])
  {
    assert Ok(c, s, v, w[v]);
    if !s.es[e].Idle? {
      Actor(c, s, w, b, e);
    }
    if Handled(s, e, d) != Some(v) {
      assert At(s, w, OnEs(e), v);
      SchedOthers(c, s, w, e, d, v);
    } else if d.Dispatch? {
      DispatchSelf(c, s, w, e, v);
    } else {
      if d.Pop? {
        assert At(s, w, In(d.p), v);
      }
      SchedSelf(c, s, w, e, d, v);
    }
  }

  lemma OksHelp(c: Config, s: State, w: map<Ult, Place>, b: map<Pool, set<Ult>>, h: HelpStep, v: Ult)
    requires Inv(c, s, w, b) && CanHelp(c, s, h) && v in TrackHelp(c, s, w, h)
    ensures Ok(c, DoHelp(c, s, h), v, TrackHelp(c, s, w, h)[v])
  {
    if h.Create? && v == h.u {
      CreateSelf(c, s, w, v);
    } else {
      assert Ok(c, s, v, w[v]);
      if !h.WakeDecrease? && v == h.u {
        HelpSelf(c, s, w, h);
      } else {
        HelpOthers(c, s, w, h, v);
      }
    }
  }

  lemma TargetsOwn(c: Config, s: State, w: map<Ult, Place>, b: map<Pool, set<Ult>>, e: Es, o: OwnStep, t: Ult)
    requires Inv(c, s, w, b) && CanOwn(c, s, e, o) && t in s.thread
    ensures TargetOk(DoOwn(c, s, e, o), t)
  {
    Actor(c, s, w, b, e);
    JoinsOf(c, s, w, b, e);
    assert TargetOk(s, t);
    match o
    case Block => TargetBegin(c, s, e, o, t);
    case Advance => TargetAdvance(c, s, e, o, t);
    case Leave => TargetLeave(c, s, e, o, t);
    case JoinIndirect(_) => TargetIndirect(c, s, e, o, t);
    case JoinDirect(_) => TargetBegin(c, s, e, o, t);
    case LinkTarget => TargetLink(c, s, e, o, t);
    case DirectRemove => TargetRemove(c, s, e, o, t);
    case DirectSwitch =>
      Claimed(c, s, w, b, e);
      TargetSwitch(c, s, e, o, t);
    case End => TargetEnd(c, s, e, s.es[e].u, t);
    case EndWake => TargetEndWake(c, s, e, o, t);
  }

  lemma JoinersOwn(c: Config, s: State, w: map<Ult, Place>, b: map<Pool, set<Ult>>, e: Es, o: OwnStep, j: Ult)
    requires Inv(c, s, w, b) && CanOwn(c, s, e, o) && j in s.thread
    ensures JoinerOk(DoOwn(c, s, e, o), j)
  {
    Actor(c, s, w, b, e);
    JoinsOf(c, s, w, b, e);
    assert JoinerOk(s, j);
    assert Target(s.thread[j].pc).Some? ==> TargetOk(s, Target(s.thread[j].pc).value);
    match o
    case Block => JoinerBegin(c, s, e, o, j);
    case Advance => JoinerAdvance(c, s, e, o, j);
    case Leave => JoinerLeave(c, s, e, o, j);
    case JoinIndirect(t) =>
      assert TargetOk(s, t);
      JoinerIndirect(c, s, e, o, j);
    case JoinDirect(t) =>
      assert TargetOk(s, t);
      JoinerBegin(c, s, e, o, j);
    case LinkTarget => JoinerLink(c, s, e, o, j);
    case DirectRemove => JoinerRemove(c, s, e, o, j);
    case DirectSwitch =>
      Claimed(c, s, w, b, e);
      JoinerSwitch(c, s, e, o, j);
    case End => JoinerEnd(c, s, e, s.es[e].u, j);
    case EndWake => JoinerEndWake(c, s, e, o, j);
  }

  /** Nobody but the ULT that waits to remove it can take a ULT out of a pool with one consumer. */
  lemma WaitsOn(c: Config, s: State, w: map<Ult, Place>, b: map<Pool, set<Ult>>, v: Ult) returns (d: Es)
    requires Inv(c, s, w, b) && v in s.thread && (s.thread[v].pc.JoinRemove? || s.thread[v].pc.JoinWait?)
    ensures d in s.es && s.es[d] == On(v) && MayRun(c, v, d) && Active(c, s, v)
  {
    assert Ok(c, s, v, w[v]);
    d := w[v].e;
    assert At(s, w, OnEs(d), v);
  }

  lemma RemoveSched(c: Config, s: State, w: map<Ult, Place>, b: map<Pool, set<Ult>>, e: Es, d: SchedStep, v: Ult)
    requires Inv(c, s, w, b) && CanSched(c, s, e, d) && v in s.thread && s.thread[v].pc.JoinRemove?
    ensures Handled(s, e, d) != Some(v) && RemoveOk(c, DoSched(c, s, e, d), v)
  {
    var h := WaitsOn(c, s, w, b, v);
    assert RemoveOk(c, s, v);
    if !s.es[e].Idle? {
      Actor(c, s, w, b, e);
    } else if d.Pop? {
      assert At(s, w, In(d.p), d.u) && At(s, w, OnEs(h), v);
    }
    SchedFrame(c, s, e, d, v);
    QueueSched(c, s, e, d, c.home[s.thread[v].pc.t], s.thread[v].pc.t);
  }

  lemma QueueSched(c: Config, s: State, e: Es, d: SchedStep, p: Pool, t: Ult)
    requires CanSched(c, s, e, d) && !(d.Pop? && d.p == p)
    ensures Queue(DoSched(c, s, e, d), p)[t] >= Queue(s, p)[t]
  {
    if d.Dispatch? {
      if s.thread[s.es[e].u].term {
      } else if s.thread[s.es[e].u].block {
      } else {
      }
    }
  }

  lemma RemoveOwn(c: Config, s: State, w: map<Ult, Place>, b: map<Pool, set<Ult>>, e: Es, o: OwnStep, v: Ult)
    requires Inv(c, s, w, b) && CanOwn(c, s, e, o) && v in s.thread
    ensures RemoveOk(c, DoOwn(c, s, e, o), v)
  {
    Actor(c, s, w, b, e);
    assert RemoveOk(c, s, v) && JoinerOk(s, v) && JoinerOk(s, s.es[e].u);
    OksOwn(c, s, w, b, e, o, v);
    if v != s.es[e].u && Partner(s, e, o) != Some(v) {
      OwnFrame(c, s, e, o, v);
      if s.thread[v].pc.JoinRemove? {
        var h := WaitsOn(c, s, w, b, v);
        QueueOwn(c, s, e, o, c.home[s.thread[v].pc.t], s.thread[v].pc.t);
      }
    } else if o.Advance? && v == s.es[e].u && PcOn(s, e).JoinWait? {
      QueueOwn(c, s, e, o, c.home[PcOn(s, e).t], PcOn(s, e).t);
    } else {
      if v != s.es[e].u {
        PartnerPc(c, s, w, b, e, o, v);
        PcAfterPartner(c, s, e, o, v);
      } else if o.End? {
        EndPc(s, e, v, v);
      } else {
        PcAfterSelf(c, s, e, o);
      }
    }
  }

  lemma PartnerPc(c: Config, s: State, w: map<Ult, Place>, b: map<Pool, set<Ult>>, e: Es, o: OwnStep, v: Ult)
    requires Inv(c, s, w, b) && CanOwn(c, s, e, o) && Partner(s, e, o) == Some(v)
    ensures v in s.thread && v != s.es[e].u && !s.thread[v].pc.JoinRemove?
  {
    Actor(c, s, w, b, e);
    if o.DirectRemove? {
      Removable(c, s, w, b, e);
    } else if o.DirectSwitch? {
      Claimed(c, s, w, b, e);
    } else {
      LinkedJoiner(c, s, w, b, e);
    }
  }

  lemma PcAfterPartner(c: Config, s: State, e: Es, o: OwnStep, v: Ult)
    requires CanOwn(c, s, e, o) && Partner(s, e, o) == Some(v) && v in s.thread && v != s.es[e].u
    requires !s.thread[v].pc.JoinRemove?
    ensures v in DoOwn(c, s, e, o).thread && !DoOwn(c, s, e, o).thread[v].pc.JoinRemove?
  {
    if o.End? {
      EndPc(s, e, s.es[e].u, v);
    }
  }

  lemma PcAfterSelf(c: Config, s: State, e: Es, o: OwnStep)
    requires CanOwn(c, s, e, o) && !o.End? && !(o.Advance? && PcOn(s, e).JoinWait?)
    ensures s.es[e].u in DoOwn(c, s, e, o).thread && !DoOwn(c, s, e, o).thread[s.es[e].u].pc.JoinRemove?
  {
  }

  lemma EndPc(s: State, e: Es, u: Ult, v: Ult)
    requires u in s.thread && v in s.thread && !s.thread[v].pc.JoinRemove?
    ensures v in DoEnd(s, e, u).thread && !DoEnd(s, e, u).thread[v].pc.JoinRemove?
  {
    if Jumps(s, u) {
    } else if s.thread[u].link.Some? {
    } else {
    }
  }

  lemma RemoveHelp(c: Config, s: State, w: map<Ult, Place>, b: map<Pool, set<Ult>>, h: HelpStep, v: Ult)
    requires Inv(c, s, w, b) && CanHelp(c, s, h) && v in DoHelp(c, s, h).thread
    ensures RemoveOk(c, DoHelp(c, s, h), v)
  {
    assert v in s.thread ==> RemoveOk(c, s, v);
    match h
    case Create(u) =>
    case Wake(u) =>
    case WakeReady(u) =>
    case WakePush(u) =>
    case WakeDecrease(_) =>
  }

  lemma EndKnown(s: State, e: Es, u: Ult, v: Ult)
    requires u in s.thread && (s.thread[u].link.Some? ==> s.thread[u].link.value in s.thread)
    ensures v in DoEnd(s, e, u).thread <==> v in s.thread
    ensures v in DoEnd(s, e, u).wake ==> v in s.wake || v in s.thread
    ensures DoEnd(s, e, u).asked == s.asked
  {
    if Jumps(s, u) {
    } else if s.thread[u].link.Some? {
    } else {
    }
  }

  lemma OwnKnown(c: Config, s: State, w: map<Ult, Place>, e: Es, o: OwnStep, v: Ult)
    requires CanOwn(c, s, e, o) && s.es[e].u in w
    requires v in s.wake || v in s.asked ==> v in s.thread
    requires o.End? || o.EndWake? ==> forall j :: s.thread[s.es[e].u].link == Some(j) ==> j in s.thread && j in w
    requires o.DirectRemove? ==> PcOn(s, e).t in w
    ensures v in DoOwn(c, s, e, o).thread <==> v in s.thread
    ensures v in TrackOwn(c, s, w, e, o) <==> v in w
    ensures v in DoOwn(c, s, e, o).asked || v in DoOwn(c, s, e, o).wake ==> v in s.thread
  {
    if o.End? {
      EndKnown(s, e, s.es[e].u, v);
    } else if o.JoinIndirect? {
    } else if o.DirectSwitch? {
    } else {
    }
  }

  lemma KnownOwn(c: Config, s: State, w: map<Ult, Place>, b: map<Pool, set<Ult>>, e: Es, o: OwnStep, v: Ult)
    requires Inv(c, s, w, b) && CanOwn(c, s, e, o)
    ensures v in DoOwn(c, s, e, o).thread <==> v in s.thread
    ensures v in TrackOwn(c, s, w, e, o) <==> v in w
    ensures v in DoOwn(c, s, e, o).asked || v in DoOwn(c, s, e, o).wake ==> v in s.thread
  {
    Actor(c, s, w, b, e);
    if (o.End? || o.EndWake?) && s.thread[s.es[e].u].link.Some? {
      LinkedJoiner(c, s, w, b, e);
    } else if o.DirectRemove? {
      Removable(c, s, w, b, e);
    }
    OwnKnown(c, s, w, e, o, v);
  }

  lemma SchedKnown(c: Config, s: State, w: map<Ult, Place>, e: Es, d: SchedStep, v: Ult)
    requires CanSched(c, s, e, d)
    requires d.Pop? ==> d.u in w
    requires !d.Pop? && !d.Stop? ==> s.es[e].u in w
    ensures v in DoSched(c, s, e, d).thread <==> v in s.thread
    ensures v in TrackSched(c, s, w, e, d) <==> v in w
    ensures DoSched(c, s, e, d).wake == s.wake
  {
    if d.Dispatch? {
      if s.thread[s.es[e].u].term {
      } else if s.thread[s.es[e].u].block {
      } else {
      }
    }
  }

  lemma KnownSched(c: Config, s: State, w: map<Ult, Place>, b: map<Pool, set<Ult>>, e: Es, d: SchedStep, v: Ult)
    requires Inv(c, s, w, b) && CanSched(c, s, e, d)
    ensures v in DoSched(c, s, e, d).thread <==> v in s.thread
    ensures v in TrackSched(c, s, w, e, d) <==> v in w
    ensures DoSched(c, s, e, d).asked == s.asked && DoSched(c, s, e, d).wake == s.wake
  {
    SchedRest(c, s, e, d);
    if d.Pop? {
      assert At(s, w, In(d.p), d.u);
    } else if !d.Stop? {
      Actor(c, s, w, b, e);
    }
    SchedKnown(c, s, w, e, d, v);
  }

  lemma KnownHelp(c: Config, s: State, w: map<Ult, Place>, b: map<Pool, set<Ult>>, h: HelpStep, v: Ult)
    requires Inv(c, s, w, b) && CanHelp(c, s, h)
    ensures v in DoHelp(c, s, h).thread <==> v in s.thread || (h.Create? && v == h.u)
    ensures v in TrackHelp(c, s, w, h) <==> v in DoHelp(c, s, h).thread
    ensures DoHelp(c, s, h).asked == s.asked
    ensures v in DoHelp(c, s, h).wake ==> v in s.thread
  {
    match h
    case Create(u) =>
    case Wake(u) =>
    case WakeReady(u) =>
    case WakePush(u) =>
    case WakeDecrease(_) =>
  }

  /** The partner of a step of the ULT on e is what CountedSame needs it to be. */
  lemma PartnerKnown(c: Config, s: State, w: map<Ult, Place>, b: map<Pool, set<Ult>>, e: Es, o: OwnStep)
    requires Inv(c, s, w, b) && CanOwn(c, s, e, o)
    ensures Active(c, s, s.es[e].u) && Target(PcOn(s, e)) != Some(s.es[e].u)
    ensures s.thread[s.es[e].u].link.Some? && (o.End? || o.EndWake?) ==> Owed(s, s.thread[s.es[e].u].link.value, s.es[e].u)
    ensures o.EndWake? ==> s.thread[s.es[e].u].link != Some(s.es[e].u)
    ensures o.DirectSwitch? ==> Fit(s, PcOn(s, e).t)
  {
    Actor(c, s, w, b, e);
    JoinsOf(c, s, w, b, e);
    if (o.End? || o.EndWake?) && s.thread[s.es[e].u].link.Some? {
      LinkedJoiner(c, s, w, b, e);
    } else if o.DirectSwitch? {
      Claimed(c, s, w, b, e);
    }
  }

  lemma CountsOwn(c: Config, s: State, w: map<Ult, Place>, b: map<Pool, set<Ult>>, e: Es, o: OwnStep, v: Ult)
    requires Inv(c, s, w, b) && CanOwn(c, s, e, o)
    ensures Counted(DoOwn(c, s, e, o), v) ==
      if Added(s, Own(e, o)) == Some(v) then true else if Dropped(s, Own(e, o)) == Some(v) then false else Counted(s, v)
  {
    KnownOwn(c, s, w, b, e, o, v);
    PartnerKnown(c, s, w, b, e, o);
    if v in s.thread {
      if o.Advance? {
        CountedAdvancing(c, s, e, v);
      } else {
        CountedSame(c, s, e, o, v);
      }
    }
  }

  lemma CountsSched(c: Config, s: State, w: map<Ult, Place>, b: map<Pool, set<Ult>>, e: Es, d: SchedStep, v: Ult)
    requires Inv(c, s, w, b) && CanSched(c, s, e, d)
    ensures Counted(DoSched(c, s, e, d), v) == Counted(s, v)
  {
    KnownSched(c, s, w, b, e, d, v);
    if v in s.thread {
      if d.Start? || d.Dispatch? {
        Actor(c, s, w, b, e);
      }
      CountedSched(c, s, e, d, v);
    }
  }

  lemma CountsHelp(c: Config, s: State, w: map<Ult, Place>, b: map<Pool, set<Ult>>, h: HelpStep, v: Ult)
    requires Inv(c, s, w, b) && CanHelp(c, s, h)
    ensures Counted(DoHelp(c, s, h), v) == if Dropped(s, Help(h)) == Some(v) then false else Counted(s, v)
  {
    if h.WakeReady? || h.WakePush? {
      WokenIsOff(c, s, w, b, h.u);
    }
    CountedHelp(c, s, h, v);
  }

  lemma CountsStep(c: Config, s: State, w: map<Ult, Place>, b: map<Pool, set<Ult>>, a: Action, v: Ult)
    requires Inv(c, s, w, b) && Enabled(c, s, a)
    ensures Counted(Do(c, s, a), v) ==
      if Added(s, a) == Some(v) then true else if Dropped(s, a) == Some(v) then false else Counted(s, v)
  {
    match a
    case Own(e, o) => CountsOwn(c, s, w, b, e, o, v);
    case Sched(e, d) => CountsSched(c, s, w, b, e, d, v);
    case Help(h) => CountsHelp(c, s, w, b, h, v);
  }

  /** Only ULTs that are not counted are added, and only counted ones dropped. */
  lemma LedgerFits(c: Config, s: State, w: map<Ult, Place>, b: map<Pool, set<Ult>>, a: Action)
    requires Inv(c, s, w, b) && Enabled(c, s, a)
    ensures Added(s, a).Some? ==> Added(s, a).value in c.home && !Counted(s, Added(s, a).value)
    ensures Dropped(s, a).Some? ==> Dropped(s, a).value in c.home && Counted(s, Dropped(s, a).value)
  {
    if a.Own? {
      Actor(c, s, w, b, a.e);
    } else if a.Help? && a.h.WakePush? {
      WokenIsOff(c, s, w, b, a.h.u);
    }
  }

  lemma BlockedStep(c: Config, s: State, a: Action, p: Pool)
    requires Enabled(c, s, a)
    ensures NumBlocked(Do(c, s, a), p) == NumBlocked(s, p) + BlockedChange(c, s, a, p)
    ensures Late(Do(c, s, a), p) == Late(s, p) + LateChange(c, a, p)
  {
    match a
    case Own(e, o) => BlockedOwn(c, s, e, o, p);
    case Sched(e, d) => BlockedSched(c, s, e, d, p);
    case Help(h) => BlockedHelp(c, s, h, p);
  }

  lemma LedgerMember(c: Config, s: State, w: map<Ult, Place>, b: map<Pool, set<Ult>>, a: Action, p: Pool, u: Ult)
    requires Inv(c, s, w, b) && Enabled(c, s, a) && u in Ledger(TrackLedger(c, s, b, a), p)
    ensures u in c.home && c.home[u] == p && Counted(Do(c, s, a), u)
  {
    LedgerFits(c, s, w, b, a);
    assert PoolOk(c, s, b, p);
    CountsStep(c, s, w, b, a, u);
  }

  lemma PoolStep(c: Config, s: State, w: map<Ult, Place>, b: map<Pool, set<Ult>>, a: Action, p: Pool)
    requires Inv(c, s, w, b) && Enabled(c, s, a)
    ensures PoolOk(c, Do(c, s, a), TrackLedger(c, s, b, a), p)
  {
    LedgerFits(c, s, w, b, a);
    assert PoolOk(c, s, b, p);
    if Added(s, a).Some? {
      assert PoolOk(c, s, b, c.home[Added(s, a).value]);
    }
    BlockedStep(c, s, a, p);
    LedgerSize(c, s, b, a, p);
    forall u | u in Ledger(TrackLedger(c, s, b, a), p) ensures u in c.home && c.home[u] == p && Counted(Do(c, s, a), u) {
      LedgerMember(c, s, w, b, a, p, u);
    }
  }

  lemma CountedKnown(c: Config, s: State, w: map<Ult, Place>, b: map<Pool, set<Ult>>, a: Action, u: Ult)
    requires Inv(c, s, w, b) && Enabled(c, s, a) && Counted(Do(c, s, a), u)
    ensures u in c.home && u in Ledger(TrackLedger(c, s, b, a), c.home[u])
  {
    LedgerFits(c, s, w, b, a);
    CountsStep(c, s, w, b, a, u);
  }

  lemma PlacesStep(c: Config, s: State, w: map<Ult, Place>, b: map<Pool, set<Ult>>, a: Action, k: Place, v: Ult)
    requires Inv(c, s, w, b) && Enabled(c, s, a)
    ensures At(Do(c, s, a), Track(c, s, w, a), k, v)
  {
    match a
    case Own(e, o) => PlacesOwn(c, s, w, b, e, o, k, v);
    case Sched(e, d) => PlacesSched(c, s, w, b, e, d, k, v);
    case Help(h) => PlacesHelp(c, s, w, b, h, k, v);
  }

  lemma KnownStep(c: Config, s: State, w: map<Ult, Place>, b: map<Pool, set<Ult>>, a: Action, v: Ult)
    requires Inv(c, s, w, b) && Enabled(c, s, a)
    ensures v in Track(c, s, w, a) <==> v in Do(c, s, a).thread
    ensures v in Do(c, s, a).wake || v in Do(c, s, a).asked ==> v in Do(c, s, a).thread
  {
    match a
    case Own(e, o) => KnownOwn(c, s, w, b, e, o, v);
    case Sched(e, d) => KnownSched(c, s, w, b, e, d, v);
    case Help(h) => KnownHelp(c, s, w, b, h, v);
  }

  lemma OksStep(c: Config, s: State, w: map<Ult, Place>, b: map<Pool, set<Ult>>, a: Action, v: Ult)
    requires Inv(c, s, w, b) && Enabled(c, s, a) && v in Track(c, s, w, a)
    ensures Ok(c, Do(c, s, a), v, Track(c, s, w, a)[v])
  {
    match a
    case Own(e, o) =>
      KnownOwn(c, s, w, b, e, o, v);
      OksOwn(c, s, w, b, e, o, v);
    case Sched(e, d) =>
      KnownSched(c, s, w, b, e, d, v);
      OksSched(c, s, w, b, e, d, v);
    case Help(h) => OksHelp(c, s, w, b, h, v);
  }

  lemma RemovesSched(c: Config, s: State, w: map<Ult, Place>, b: map<Pool, set<Ult>>, e: Es, d: SchedStep, v: Ult)
    requires Inv(c, s, w, b) && CanSched(c, s, e, d) && v in s.thread
    ensures RemoveOk(c, DoSched(c, s, e, d), v)
  {
    if s.thread[v].pc.JoinRemove? {
      RemoveSched(c, s, w, b, e, d, v);
    } else {
      if d.Start? || d.Dispatch? {
        Actor(c, s, w, b, e);
      }
      PcAfterSched(c, s, e, d, v);
    }
  }

  lemma PcAfterSched(c: Config, s: State, e: Es, d: SchedStep, v: Ult)
    requires CanSched(c, s, e, d) && v in s.thread && !s.thread[v].pc.JoinRemove?
    ensures v in DoSched(c, s, e, d).thread && !DoSched(c, s, e, d).thread[v].pc.JoinRemove?
  {
    if d.Dispatch? {
      if s.thread[s.es[e].u].term {
      } else if s.thread[s.es[e].u].block {
      } else {
      }
    }
  }

  lemma SidesStep(c: Config, s: State, w: map<Ult, Place>, b: map<Pool, set<Ult>>, a: Action, v: Ult)
    requires Inv(c, s, w, b) && Enabled(c, s, a) && v in Do(c, s, a).thread
    ensures TargetOk(Do(c, s, a), v) && JoinerOk(Do(c, s, a), v)
  {
    assert v in s.thread ==> TargetOk(s, v) && JoinerOk(s, v);
    match a
    case Own(e, o) =>
      KnownOwn(c, s, w, b, e, o, v);
      TargetsOwn(c, s, w, b, e, o, v);
      JoinersOwn(c, s, w, b, e, o, v);
    case Sched(e, d) =>
      KnownSched(c, s, w, b, e, d, v);
      if d.Start? || d.Dispatch? {
        Actor(c, s, w, b, e);
      }
      JoinsSched(c, s, e, d, v);
    case Help(h) =>
      if h.WakeReady? || h.WakePush? {
        WokenIsOff(c, s, w, b, h.u);
      }
      JoinsHelp(c, s, h, v);
  }

  lemma RemovesStep(c: Config, s: State, w: map<Ult, Place>, b: map<Pool, set<Ult>>, a: Action, v: Ult)
    requires Inv(c, s, w, b) && Enabled(c, s, a) && v in Do(c, s, a).thread
    ensures RemoveOk(c, Do(c, s, a), v)
  {
    match a
    case Own(e, o) =>
      KnownOwn(c, s, w, b, e, o, v);
      RemoveOwn(c, s, w, b, e, o, v);
    case Sched(e, d) =>
      KnownSched(c, s, w, b, e, d, v);
      RemovesSched(c, s, w, b, e, d, v);
    case Help(h) => RemoveHelp(c, s, w, b, h, v);
  }

  lemma StepKeeps(c: Config, s: State, w: map<Ult, Place>, b: map<Pool, set<Ult>>, a: Action)
    requires Inv(c, s, w, b) && Enabled(c, s, a)
    ensures Inv(c, Do(c, s, a), Track(c, s, w, a), TrackLedger(c, s, b, a))
  {
    var (t, w', b') := (Do(c, s, a), Track(c, s, w, a), TrackLedger(c, s, b, a));
    forall k, v ensures At(t, w', k, v) {
      PlacesStep(c, s, w, b, a, k, v);
    }
    forall v ensures (v in w' <==> v in t.thread) && (v in t.wake || v in t.asked ==> v in t.thread) {
      KnownStep(c, s, w, b, a, v);
    }
    forall v | v in w' ensures Ok(c, t, v, w'[v]) {
      OksStep(c, s, w, b, a, v);
    }
    forall v | v in t.thread ensures RemoveOk(c, t, v) && TargetOk(t, v) && JoinerOk(t, v) {
      SidesStep(c, s, w, b, a, v);
      RemovesStep(c, s, w, b, a, v);
    }
    forall p ensures PoolOk(c, t, b', p) {
      PoolStep(c, s, w, b, a, p);
    }
    forall u | Counted(t, u) ensures u in c.home && u in Ledger(b', c.home[u]) {
      CountedKnown(c, s, w, b, a, u);
    }
  }

  // ----- whole runs -----

  /** No ULT yet, and every ES in its scheduler. */
  ghost predicate IsStart(s: State) {
    && s.thread == map[] && s.queue == map[] && s.blocked == map[] && s.wake == map[] && s.late == map[] && s.asked == map[]
    && forall e :: e in s.es ==> s.es[e].Idle?
  }

  /** Any interleaving of the steps of any number of ESs. */
  function Run(c: Config, s: State, acts: seq<Action>): Option<State> {
    if acts == [] then Some(s)
    else
      match Run(c, s, acts[..|acts| - 1])
      case None => None
      case Some(t) => if Enabled(c, t, acts[|acts| - 1]) then Some(Do(c, t, acts[|acts| - 1])) else None
  }

  lemma {:induction false} RunKeeps(c: Config, s: State, acts: seq<Action>)
    returns (w: map<Ult, Place>, b: map<Pool, set<Ult>>)
    requires IsStart(s) && Run(c, s, acts).Some?
    ensures Inv(c, Run(c, s, acts).value, w, b)
  {
    if acts == [] {
      w, b := map[], map[];
      forall k, v ensures At(s, w, k, v) {
      }
    } else {
      var before, a := acts[..|acts| - 1], acts[|acts| - 1];
      var t := Run(c, s, before).value;
      var w', b' := RunKeeps(c, s, before);
      StepKeeps(c, t, w', b', a);
      w, b := Track(c, t, w', a), TrackLedger(c, t, b', a);
    }
  }

  /** Every ULT is in exactly one place, once: on one ES, in one pool, blocked, or finished. So a ULT in a
      pool is on no ES's stack, and none runs on two ESs. */
  lemma EveryUltInOnePlace(c: Config, s: State, acts: seq<Action>, u: Ult) returns (k: Place)
    requires IsStart(s) && Run(c, s, acts).Some? && u in Run(c, s, acts).value.thread
    ensures Times(Run(c, s, acts).value, k, u) == 1
    ensures forall j :: j != k ==> Times(Run(c, s, acts).value, j, u) == 0
  {
    var w, b := RunKeeps(c, s, acts);
    var t := Run(c, s, acts).value;
    k := w[u];
    forall j ensures Times(t, j, u) == Flag(j == k) {
      assert At(t, w, j, u);
    }
  }

  /** Some ES is running the ULT, or its scheduler has it in hand. */
  predicate Held(s: State, u: Ult) {
    exists e :: e in s.es && !s.es[e].Idle? && !s.es[e].Stopped? && s.es[e].u == u
  }

  /** The unfinished ULTs of a pool that are not running. */
  ghost function Waiting(c: Config, s: State, p: Pool): set<Ult> {
    set u | u in s.thread && u in c.home && c.home[u] == p && !s.thread[u].life.Terminated? && !Held(s, u)
  }

  lemma {:induction false} SetInBag(x: set<Ult>, m: multiset<Ult>)
    requires forall u :: u in x ==> u in m
    ensures |x| <= |m|
  {
    if x != {} {
      var u :| u in x;
      SetInBag(x - {u}, m - multiset{u});
    }
  }

  lemma SubsetSize(x: set<Ult>, y: set<Ult>)
    requires x <= y
    ensures |x| <= |y|
  {
    assert y == x + (y - x);
  }

  /** A waiting ULT is queued, counted, or just taken out of the pool by the ULT that joins it. */
  lemma WaitingPlace(c: Config, s: State, w: map<Ult, Place>, b: map<Pool, set<Ult>>, p: Pool, u: Ult)
    requires Inv(c, s, w, b) && u in Waiting(c, s, p)
    ensures u in Queue(s, p) || u in Ledger(b, p) ||
      (p in c.owner && Claims(s, c.owner[p]) == Some(u) && s.es[c.owner[p]].u in Ledger(b, p))
  {
    assert Ok(c, s, u, w[u]) && At(s, w, w[u], u) && PoolOk(c, s, b, p);
    assert Counted(s, u) ==> u in Ledger(b, p);
    if w[u].OnEs? {
      var e := w[u].e;
      assert Claims(s, e) == Some(u);
      Actor(c, s, w, b, e);
      assert Counted(s, s.es[e].u);
    }
  }

  /** The element of x that neither part holds, v, is outweighed by one of the second part that is not in x. */
  lemma CoverSize(x: set<Ult>, m: multiset<Ult>, l: set<Ult>, v: Option<Ult>, j: Ult)
    requires forall u :: u in x ==> u in m || u in l || v == Some(u)
    requires v.Some? ==> j in l && j !in x
    ensures |x| <= |m| + |l|
  {
    var queued := set u | u in x && u in m;
    SetInBag(queued, m);
    if v.Some? {
      SubsetSize(x - {v.value}, queued + (l - {j}));
    } else {
      SubsetSize(x, queued + l);
    }
  }

  /** The ULT that is out of the pool in the middle of a direct join. */
  function Taken(c: Config, s: State, p: Pool): Option<Ult> {
    if p in c.owner then Claims(s, c.owner[p]) else None
  }

  lemma WaitingSize(c: Config, s: State, w: map<Ult, Place>, b: map<Pool, set<Ult>>, p: Pool)
    requires Inv(c, s, w, b)
    ensures |Waiting(c, s, p)| <= |Queue(s, p)| + |Ledger(b, p)|
  {
    var x, v := Waiting(c, s, p), Taken(c, s, p);
    forall u | u in x ensures u in Queue(s, p) || u in Ledger(b, p) || v == Some(u) {
      WaitingPlace(c, s, w, b, p, u);
    }
    if v.Some? && v.value in x && v.value !in Queue(s, p) && v.value !in Ledger(b, p) {
      WaitingPlace(c, s, w, b, p, v.value);
      var j := s.es[c.owner[p]].u;
      assert Held(s, j);
      CoverSize(x, Queue(s, p), Ledger(b, p), v, j);
    } else {
      CoverSize(x, Queue(s, p), Ledger(b, p), None, 0);
    }
  }

  /** Queued plus num_blocked is never less than the unfinished ULTs of the pool that are not running. */
  lemma NeverUndercounted(c: Config, s: State, acts: seq<Action>, p: Pool)
    requires IsStart(s) && Run(c, s, acts).Some?
    ensures var t := Run(c, s, acts).value; |Queue(t, p)| + NumBlocked(t, p) >= |Waiting(c, t, p)|
  {
    var w, b := RunKeeps(c, s, acts);
    assert PoolOk(c, Run(c, s, acts).value, b, p);
    WaitingSize(c, Run(c, s, acts).value, w, b, p);
  }

  lemma IdleHoldsNone(c: Config, s: State, w: map<Ult, Place>, b: map<Pool, set<Ult>>, e: Es, u: Ult)
    requires Inv(c, s, w, b) && e in s.es && s.es[e].Idle? && u in s.thread && MayRun(c, u, e) && c.home[u] in c.owner
    ensures !Held(s, u)
  {
    if Held(s, u) {
      var d :| d in s.es && !s.es[d].Idle? && !s.es[d].Stopped? && s.es[d].u == u;
      Actor(c, s, w, b, d);
    }
  }

  /** No join is lost: while a ULT sleeps until another one ends, that one is unfinished and linked to
      it, or somebody is already waking it. And whoever wakes it finds it BLOCKED, as set_ready demands. */
  lemma JoinerIsOwed(c: Config, s: State, acts: seq<Action>, j: Ult, t: Ult)
    requires IsStart(s) && Run(c, s, acts).Some?
    requires j in Run(c, s, acts).value.thread && Run(c, s, acts).value.thread[j].pc == Asleep(Some(t))
    ensures var r := Run(c, s, acts).value;
      r.thread[j].life.Blocked? && j !in r.wake ==>
        t in r.thread && !r.thread[t].life.Terminated? && r.thread[t].link == Some(j)
    ensures var r := Run(c, s, acts).value;
      t in r.thread && (r.thread[t].pc.EndWait? && r.thread[t].link == Some(j) ==> r.thread[j].life.Blocked? && j !in r.wake)
  {
    var w, b := RunKeeps(c, s, acts);
    var r := Run(c, s, acts).value;
    assert JoinerOk(r, j);
    assert TargetOk(r, t);
  }
}
